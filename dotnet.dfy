/** The few pieces of the .NET base library that the modelled code relies on:
    the exceptions it throws, `string.IsNullOrWhiteSpace`, `TimeSpan` ticks and
    the disposal state of an `HttpClient`. */
module DotNet {
  import opened Wrappers

  /** The exceptions the core throws, each with its `Message` and `ParamName`
      (`InvalidOperationException` has no parameter name). */
  datatype Exception =
    | ArgumentException(message: string, paramName: string)
    | ArgumentNullException(message: string, paramName: string)
    | ArgumentOutOfRangeException(message: string, paramName: string)
    | InvalidOperationException(message: string)

  /** `TimeSpan` and `DateTime` are counted in ticks of 100 nanoseconds. */
  const TicksPerSecond: int := 10_000_000

  /** `char.IsWhiteSpace`: the characters Unicode gives the White_Space property. */
  predicate IsWhiteSpace(c: char) {
    || ('\U{0009}' <= c <= '\U{000D}')
    || c == '\U{0020}'
    || c == '\U{0085}'
    || c == '\U{00A0}'
    || c == '\U{1680}'
    || ('\U{2000}' <= c <= '\U{200A}')
    || c == '\U{2028}'
    || c == '\U{2029}'
    || c == '\U{202F}'
    || c == '\U{205F}'
    || c == '\U{3000}'
  }

  /** `string.IsNullOrWhiteSpace`: null, empty, or nothing but white space. */
  predicate IsNullOrWhiteSpace(s: Option<string>) {
    s.None? || AllWhiteSpace(s.value)
  }

  predicate AllWhiteSpace(s: string) {
    s == [] || (IsWhiteSpace(s[0]) && AllWhiteSpace(s[1..]))
  }

  /** The recursive definition means: every character is white space. */
  lemma {:induction false} AllWhiteSpaceMeansEveryChar(s: string)
    ensures AllWhiteSpace(s) <==> forall i :: 0 <= i < |s| ==> IsWhiteSpace(s[i])
    decreases |s|
  {
    if s != [] {
      AllWhiteSpaceMeansEveryChar(s[1..]);
      assert forall i :: 1 <= i < |s| ==> s[i] == s[1..][i - 1];
    }
  }

  /** What a `FivetranHttpClient` is built from (its source is not part of
      this model; only its construction arguments are recorded). */
  datatype ClientSettings = ClientSettings(baseUrl: string, apiKey: string, apiSecret: string, timeout: int)

  /** An `HttpClient`: `settings` is `Some` for a client built from
      credentials and `None` for one handed in by a caller. `disposed` is the
      client's own flag; `disposeCalls` counts calls to `Dispose`. */
  class HttpClient {
    const settings: Option<ClientSettings>
    var disposed: bool
    ghost var disposeCalls: nat

    constructor (settings: Option<ClientSettings>)
      ensures this.settings == settings
      ensures !disposed && disposeCalls == 0
    {
      this.settings := settings;
      disposed := false;
      disposeCalls := 0;
    }

    /** Disposing marks the client disposed; a second call changes nothing
        but the call count. */
    method Dispose()
      modifies this
      ensures disposed
      ensures disposeCalls == old(disposeCalls) + 1
    {
      disposed := true;
      disposeCalls := disposeCalls + 1;
    }
  }
}
