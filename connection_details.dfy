/** `FivetranConnectionDetailsForSelection`: the API key, secret and timeout
    a user supplies, validated in that order when the details are built. */
module SelectionDetails {
  import opened Wrappers
  import opened DotNet

  datatype ConnectionDetails = ConnectionDetails(apiKey: string, apiSecret: string, timeout: int)

  /** What every constructed instance satisfies. */
  predicate Valid(d: ConnectionDetails) {
    && !IsNullOrWhiteSpace(Some(d.apiKey))
    && !IsNullOrWhiteSpace(Some(d.apiSecret))
    && d.timeout > 0
  }

  type ValidConnectionDetails = d: ConnectionDetails | Valid(d) witness ConnectionDetails("k", "s", 1)

  const ApiKeyMessage: string := "API Key cannot be null or empty."
  const ApiSecretMessage: string := "API Secret cannot be null or empty."
  const TimeoutMessage: string := "Timeout must be greater than zero."

  /** The key check as the source writes it: the parameter name and the
      message are passed to `ArgumentException(message, paramName)` the wrong
      way round, so the message is "apiKey" and the parameter name is the
      sentence. */
  function ValidateApiKeyAsWritten(apiKey: Option<string>): (r: Result<string, Exception>)
    ensures r.Err? <==> IsNullOrWhiteSpace(apiKey)
    ensures r.Ok? ==> r.value == apiKey.value
    ensures r.Err? ==> r.error == ArgumentException("apiKey", ApiKeyMessage)
  {
    if IsNullOrWhiteSpace(apiKey) then Err(ArgumentException("apiKey", ApiKeyMessage)) else Ok(apiKey.value)
  }

  /** The secret check as the source writes it, with the same swap. */
  function ValidateApiSecretAsWritten(apiSecret: Option<string>): (r: Result<string, Exception>)
    ensures r.Err? <==> IsNullOrWhiteSpace(apiSecret)
    ensures r.Ok? ==> r.value == apiSecret.value
    ensures r.Err? ==> r.error == ArgumentException("apiSecret", ApiSecretMessage)
  {
    if IsNullOrWhiteSpace(apiSecret) then Err(ArgumentException("apiSecret", ApiSecretMessage)) else Ok(apiSecret.value)
  }

  /** For a blank key, the exception thrown as written reports the sentence
      as its parameter name, unlike the timeout check beside it. */
  lemma ApiKeyErrorNamesWrongParameter()
    ensures ValidateApiKeyAsWritten(Some("")).error.paramName == ApiKeyMessage
    ensures ValidateApiKeyAsWritten(Some("")).error.paramName != "apiKey"
    ensures ValidateApiSecretAsWritten(None).error.paramName != "apiSecret"
    ensures ValidateTimeout(0).error.paramName == "timeout"
  {
  }

  /** A null, empty or white-space key is rejected, naming `apiKey`;
      any other key is kept as it is. */
  function ValidateApiKey(apiKey: Option<string>): (r: Result<string, Exception>)
    ensures r.Err? <==> IsNullOrWhiteSpace(apiKey)
    ensures r.Ok? ==> r.value == apiKey.value
    ensures r.Err? ==> r.error == ArgumentException(ApiKeyMessage, "apiKey")
  {
    if IsNullOrWhiteSpace(apiKey) then Err(ArgumentException(ApiKeyMessage, "apiKey")) else Ok(apiKey.value)
  }

  /** A null, empty or white-space secret is rejected, naming `apiSecret`. */
  function ValidateApiSecret(apiSecret: Option<string>): (r: Result<string, Exception>)
    ensures r.Err? <==> IsNullOrWhiteSpace(apiSecret)
    ensures r.Ok? ==> r.value == apiSecret.value
    ensures r.Err? ==> r.error == ArgumentException(ApiSecretMessage, "apiSecret")
  {
    if IsNullOrWhiteSpace(apiSecret) then Err(ArgumentException(ApiSecretMessage, "apiSecret")) else Ok(apiSecret.value)
  }

  /** A timeout of zero ticks or less is rejected, naming `timeout`. */
  function ValidateTimeout(timeout: int): (r: Result<int, Exception>)
    ensures r.Err? <==> timeout <= 0
    ensures r.Ok? ==> r.value == timeout
    ensures r.Err? ==> r.error == ArgumentException(TimeoutMessage, "timeout")
  {
    if timeout <= 0 then Err(ArgumentException(TimeoutMessage, "timeout")) else Ok(timeout)
  }

  /** The constructor: it succeeds exactly when all three fields are valid,
      then stores them unchanged; otherwise it reports the first invalid
      field in the order key, secret, timeout. */
  function NewConnectionDetails(apiKey: Option<string>, apiSecret: Option<string>, timeout: int)
    : (r: Result<ValidConnectionDetails, Exception>)
    ensures r.Ok? <==> !IsNullOrWhiteSpace(apiKey) && !IsNullOrWhiteSpace(apiSecret) && timeout > 0
    ensures r.Ok? ==> r.value == ConnectionDetails(apiKey.value, apiSecret.value, timeout)
    ensures IsNullOrWhiteSpace(apiKey) ==> r == Err(ArgumentException(ApiKeyMessage, "apiKey"))
    ensures !IsNullOrWhiteSpace(apiKey) && IsNullOrWhiteSpace(apiSecret) ==>
              r == Err(ArgumentException(ApiSecretMessage, "apiSecret"))
    ensures !IsNullOrWhiteSpace(apiKey) && !IsNullOrWhiteSpace(apiSecret) && timeout <= 0 ==>
              r == Err(ArgumentException(TimeoutMessage, "timeout"))
  {
    var key :- ValidateApiKey(apiKey);
    var secret :- ValidateApiSecret(apiSecret);
    var t :- ValidateTimeout(timeout);
    Ok(ConnectionDetails(key, secret, t))
  }

  /** An `ArgumentException` with its message and parameter name exchanged,
      the mistake the key and secret checks make; other exceptions are kept. */
  function SwapArguments(e: Exception): (r: Exception)
    ensures e.ArgumentException? ==> r.ArgumentException? && r.message == e.paramName && r.paramName == e.message
    ensures !e.ArgumentException? ==> r == e
  {
    if e.ArgumentException? then ArgumentException(e.paramName, e.message) else e
  }

  /** The constructor as the source writes it, with the swapped key and
      secret checks: it accepts and stores exactly what the corrected
      constructor does, and its key and secret errors are the corrected ones
      with message and parameter name exchanged. */
  function NewConnectionDetailsAsWritten(apiKey: Option<string>, apiSecret: Option<string>, timeout: int)
    : (r: Result<ValidConnectionDetails, Exception>)
    ensures r.Ok? <==> !IsNullOrWhiteSpace(apiKey) && !IsNullOrWhiteSpace(apiSecret) && timeout > 0
    ensures r.Ok? ==> r.value == ConnectionDetails(apiKey.value, apiSecret.value, timeout)
    ensures IsNullOrWhiteSpace(apiKey) ==> r == Err(ArgumentException("apiKey", ApiKeyMessage))
    ensures !IsNullOrWhiteSpace(apiKey) && IsNullOrWhiteSpace(apiSecret) ==>
              r == Err(ArgumentException("apiSecret", ApiSecretMessage))
    ensures !IsNullOrWhiteSpace(apiKey) && !IsNullOrWhiteSpace(apiSecret) && timeout <= 0 ==>
              r == Err(ArgumentException(TimeoutMessage, "timeout"))
  {
    var key :- ValidateApiKeyAsWritten(apiKey);
    var secret :- ValidateApiSecretAsWritten(apiSecret);
    var t :- ValidateTimeout(timeout);
    Ok(ConnectionDetails(key, secret, t))
  }

  /** The two constructors differ only in the key and secret errors, and
      there only by the swap: on every input they agree on success and on the
      stored details, and a failure as written is the corrected failure with
      `SwapArguments` applied, except for the timeout error, which they share. */
  lemma AsWrittenDiffersOnlyBySwap(apiKey: Option<string>, apiSecret: Option<string>, timeout: int)
    ensures NewConnectionDetailsAsWritten(apiKey, apiSecret, timeout).Ok?
            <==> NewConnectionDetails(apiKey, apiSecret, timeout).Ok?
    ensures NewConnectionDetails(apiKey, apiSecret, timeout).Ok? ==>
              NewConnectionDetailsAsWritten(apiKey, apiSecret, timeout) == NewConnectionDetails(apiKey, apiSecret, timeout)
    ensures (IsNullOrWhiteSpace(apiKey) || IsNullOrWhiteSpace(apiSecret)) ==>
              NewConnectionDetailsAsWritten(apiKey, apiSecret, timeout).error
              == SwapArguments(NewConnectionDetails(apiKey, apiSecret, timeout).error)
    ensures !IsNullOrWhiteSpace(apiKey) && !IsNullOrWhiteSpace(apiSecret) ==>
              NewConnectionDetailsAsWritten(apiKey, apiSecret, timeout) == NewConnectionDetails(apiKey, apiSecret, timeout)
  {
  }

  /** For a blank key the constructor as written and the corrected one
      report different exceptions. */
  lemma AsWrittenConstructorDiffers()
    ensures NewConnectionDetailsAsWritten(Some(""), Some("s"), 1).error
            != NewConnectionDetails(Some(""), Some("s"), 1).error
    ensures NewConnectionDetailsAsWritten(Some("k"), None, 1).error.paramName == ApiSecretMessage
  {
  }
}
