# Fivetran metadata import: a Dafny model

This project models the core of a small C# tool that reads metadata from the
Fivetran REST API (groups, their connectors, and each connector's schemas and
tables) and prints lineage mappings. It covers five pieces:

- **`TtlDictionary`**, the time-to-live cache. It is a class whose `entries`
  map is changed in place by `GetOrAdd` and by the probe behind `TryGetValue`.
  Trace functions (`Apply`, `Replay`, `FactoryInvocations`) let lemmas reason
  about sequences of calls.
- **`RestApiManager`**, the API facade. It builds the three endpoint paths,
  and its readonly `createdClient` field decides whether `Dispose` disposes
  the HTTP client.
- **`FivetranConnectionDetailsForSelection`**, the API key, secret and timeout
  validators, written as functions that return a `Result`.
- **`RestApiManagerWrapper`**: its constructor guards, and a `Dispose` that
  forwards to the manager.
- **`FivetranConnectionSupport`**, which contains:
  - the type checks on its `object?` arguments;
  - opening and closing connections;
  - listing the groups and selecting one by its 1-based number;
  - generating the mapping lines over connectors, schemas and tables.

Files, one module each: `wrappers.dfy` (Option/Result/Outcome), `dotnet.dfy`
(exceptions, `string.IsNullOrWhiteSpace`, ticks, `HttpClient` disposal),
`models.dfy` (the JSON records), `ttl_dictionary.dfy`, `rest_api_manager.dfy`,
`connection_details.dfy`, `rest_api_manager_wrapper.dfy`,
`connection_support.dfy`.

Modelling choices:

- **Clock.** The clock is explicit, counted in ticks. `GetOrAdd` takes two
  readings: `now` for the expiry check, and `later` for computing the new
  expiry. The C# code likewise reads `DateTime.UtcNow` twice, once before the
  factory runs and once after.
- **Factory.** The factory is given as the `Result` it would produce.
  `GetOrAdd` reports whether it ran the factory.
- **Server answers.** The groups and connectors streams are finite
  sequences. The schema lookup is a function from connector id to an
  optional `DataSchemas`. The URL encoder is a function parameter with no
  properties assumed.
- **Logger output.** What `GetGroupsAsync` logs is returned as a sequence of
  entries. The mapping bag is a `multiset`, because a `ConcurrentBag` has no
  order.
- **Dictionaries.** A .NET `Dictionary` read from JSON is represented by its
  enumeration: a sequence of key/value pairs.

Behaviour of the code worth noting, which the model follows:

- `RestApiManager.Dispose` calls `Dispose` on the owned client every time it
  is called. Only the client's own `disposed` flag makes a repeated release
  harmless.
- The documentation comment of the details constructor (line 37) promises
  `ArgumentNullException`. The code throws `ArgumentException`.
- `SelectToImport` opens its manager with the default 40-second timeout, not
  the timeout stored in the details.
- `TryGetValue` does change the store: it removes an expired entry of the key
  it probes.

## Model

| member | source | states |
|---|---|---|
| `Infrastructure.TtlDictionary.GetOrAdd` | FivetranClient/Infrastructure/TtlDictionary.cs:22-35 | The factory runs iff the key has no entry with `now < expiry`. On a hit it returns the stored value and leaves the map unchanged. On a miss it returns the factory's result. A successful factory stores exactly `(value, later + ttl)` under the key, replacing any old entry. A failed factory leaves the map as the expiry check left it, with the expired entry gone. |
| `Infrastructure.TtlDictionary.TryGetValue` | FivetranClient/Infrastructure/TtlDictionary.cs:45-51 | Returns the value iff the key maps to `(v, e)` with `now < e`. Its only change is removing the probed key when it has expired. |
| `Infrastructure.TtlDictionary.TryGetValueInternal` | FivetranClient/Infrastructure/TtlDictionary.cs:53-68 | The shared probe: it reports the live value and evicts only an expired entry of the probed key. |
| `Infrastructure.ExpiryIsStrict` | FivetranClient/Infrastructure/TtlDictionary.cs:57 | An entry whose expiry equals the clock is absent, is evicted by a probe, and makes `GetOrAdd` run its factory again. |
| `Infrastructure.OtherKeyUnchanged` | FivetranClient/Infrastructure/TtlDictionary.cs:32-63 | A call on one key leaves every other key's entry, and the key's presence, as they were. |
| `Infrastructure.FailedFactoryLeavesKeyAbsent` | FivetranClient/Infrastructure/TtlDictionary.cs:31-32 | After a failed factory the key is absent, so the next caller runs its own factory. |
| `Infrastructure.OtherKeysUntouched` | FivetranClient/Infrastructure/TtlDictionary.cs:22-68 | Any sequence of calls on other keys leaves a key's entry unchanged and never runs that key's factory. |
| `Infrastructure.LiveEntrySurvives` | FivetranClient/Infrastructure/TtlDictionary.cs:26-29 | A live entry survives every call sequence that reaches its key only before the entry expires, and no factory runs for that key: at most one factory evaluation per key per TTL window. |
| `Infrastructure.StoredValueReadBack` | FivetranClient/Infrastructure/TtlDictionary.cs:31-33 | Round trip: after a miss stores `v` at `later`, a probe at any `t < later + ttl` returns `v`, as long as every intervening call on the key comes before that instant. None of those calls re-runs the factory. |
| `Infrastructure.CachedValueReadBack` | FivetranClient/Infrastructure/TtlDictionary.cs:26-29 | On a hit the factory does not run, and later probes before the entry's own expiry still return the cached value. |
| `Infrastructure.GetOrAddTwiceWithinTtl` | FivetranClient/Infrastructure/TtlDictionary.cs:22-35 | On a fresh key, the first call runs the factory and, over the two-call trace, it runs exactly once (`FactoryInvocations` is 1); the second call within the TTL returns the stored value. A call at or after the expiry runs the factory again. |
| `FivetranClient.RestApiManager.FromCredentials` | FivetranClient/RestApiManager.cs:18-28 | Builds a fresh client for the API base URL from the credentials and records it as owned. |
| `FivetranClient.RestApiManager.FromBaseUrl` | FivetranClient/RestApiManager.cs:23-28 | Builds a fresh client for the given base URL and records it as owned. |
| `FivetranClient.RestApiManager.FromClient` | FivetranClient/RestApiManager.cs:30-32 | Uses the caller's client and owns nothing. |
| `FivetranClient.RestApiManager.GetGroups` | FivetranClient/RestApiManager.cs:35-39 | The groups endpoint is exactly the paginated path `groups`. |
| `FivetranClient.RestApiManager.GetConnectors` | FivetranClient/RestApiManager.cs:42-46 | Paginated path `"groups/" + UrlEncode(groupId) + "/connectors"`; the id is not otherwise checked. |
| `FivetranClient.RestApiManager.GetConnectorSchemas` | FivetranClient/RestApiManager.cs:49-55 | Single-object path `"connectors/" + UrlEncode(connectorId) + "/schemas"`. |
| `FivetranClient.RestApiManager.Dispose` | FivetranClient/RestApiManager.cs:58-61 | An owned client is disposed; since a manager's owned client is the client it uses, that client is then disposed. A caller's client is left unchanged. Disposing never fails. |
| `FivetranClient.ConnectorsPathRoundTrip` | FivetranClient/RestApiManager.cs:44 | The encoded group id can be read back from the connectors path between its fixed prefix and suffix. |
| `FivetranClient.SchemasPathRoundTrip` | FivetranClient/RestApiManager.cs:53 | The encoded connector id can be read back from the schemas path. |
| `FivetranClient.EndpointPathsDistinct` | FivetranClient/RestApiManager.cs:37-53 | The three endpoints never share a path, and ids whose encodings differ reach different paths. |
| `FivetranClient.DisposeTwice` | FivetranClient/RestApiManager.cs:14-61 | Disposing an owning manager twice leaves its client disposed, with its dispose count raised by exactly two. A manager over a caller's client never touches that client. |
| `DotNet.AllWhiteSpaceMeansEveryChar` | Import/ConnectionSupport/FivetranConnectionDetailsForSelection.cs:49 | The recursive white-space test used for `IsNullOrWhiteSpace` holds iff every character is white space. |
| `SelectionDetails.ValidateApiKeyAsWritten` | Import/ConnectionSupport/FivetranConnectionDetailsForSelection.cs:47-54 | As written: a blank key fails with message `"apiKey"` and the sentence as parameter name. |
| `SelectionDetails.ValidateApiSecretAsWritten` | Import/ConnectionSupport/FivetranConnectionDetailsForSelection.cs:56-63 | As written: a blank secret fails with the same swap. |
| `SelectionDetails.ApiKeyErrorNamesWrongParameter` | Import/ConnectionSupport/FivetranConnectionDetailsForSelection.cs:51 | The exceptions thrown as written do not name `apiKey`/`apiSecret`, while the timeout check names `timeout`. |
| `SelectionDetails.ValidateApiKey` | Import/ConnectionSupport/FivetranConnectionDetailsForSelection.cs:47-54 | Corrected: a null, empty or white-space key fails with `ArgumentException` whose message is the sentence and whose parameter name is `apiKey` (line 51 as written swaps the two; see Findings). Any other key is returned unchanged. |
| `SelectionDetails.ValidateApiSecret` | Import/ConnectionSupport/FivetranConnectionDetailsForSelection.cs:56-63 | Corrected: the same for the secret, with parameter name `apiSecret` (line 60 as written swaps the two). |
| `SelectionDetails.ValidateTimeout` | Import/ConnectionSupport/FivetranConnectionDetailsForSelection.cs:65-72 | A timeout of zero or less fails with `ArgumentException` naming `timeout`. Any other timeout is returned unchanged. |
| `SelectionDetails.NewConnectionDetails` | Import/ConnectionSupport/FivetranConnectionDetailsForSelection.cs:40-45 | Corrected constructor: succeeds iff all three fields are valid, storing them unchanged; the result satisfies the instance invariant. Otherwise it reports the first invalid field in the order key, secret, timeout, with the key and secret errors in the intended argument order (see Findings). |
| `SelectionDetails.NewConnectionDetailsAsWritten` | Import/ConnectionSupport/FivetranConnectionDetailsForSelection.cs:40-63 | The constructor as written: the same success condition, stored details and check order, but a blank key or secret fails with message and parameter name exchanged. |
| `SelectionDetails.AsWrittenDiffersOnlyBySwap` | Import/ConnectionSupport/FivetranConnectionDetailsForSelection.cs:40-72 | On every input the as-written and corrected constructors agree on success and on the stored details, share the timeout error, and a key or secret error as written is the corrected one with message and parameter name exchanged (`SwapArguments`). |
| `SelectionDetails.AsWrittenConstructorDiffers` | Import/ConnectionSupport/FivetranConnectionDetailsForSelection.cs:42-60 | For a blank key the two constructors report different exceptions; for a null secret the exception as written has the sentence as parameter name. |
| `FivetranHelpers.WrapperArgumentError` | Import/Helpers/Fivetran/RestApiManagerWrapper.cs:35-40 | A null manager is rejected with `ArgumentNullException`. Only then is a blank group id rejected with `ArgumentException`. |
| `FivetranHelpers.NewRestApiManagerWrapper` | Import/Helpers/Fivetran/RestApiManagerWrapper.cs:33-43 | Fails exactly on those guards. On success it returns a fresh wrapper holding the given manager and group id. |
| `FivetranHelpers.RestApiManagerWrapper.constructor` | Import/Helpers/Fivetran/RestApiManagerWrapper.cs:35-42 | Stores the manager and group id as given. |
| `FivetranHelpers.RestApiManagerWrapper.Dispose` | Import/Helpers/Fivetran/RestApiManagerWrapper.cs:46-49 | Each call disposes the held manager exactly once; a manager that owns its client leaves that client disposed. |
| `ConnectionSupport.ValidateConnectionDetails` | Import/ConnectionSupport/FivetranConnectionSupport.cs:215-223 | Passes iff the argument is a details object. Null, `""` and any other value fail with `ArgumentException` naming `connectionDetails`. |
| `ConnectionSupport.ValidateConnection` | Import/ConnectionSupport/FivetranConnectionSupport.cs:205-213 | Passes iff the argument is a wrapper. Anything else fails with `ArgumentException` naming `connection`. |
| `ConnectionSupport.GetConnectionDetailsForSelection` | Import/ConnectionSupport/FivetranConnectionSupport.cs:53-58 | Fails iff the typed key or secret is blank, the key first, with the corrected errors. On success the details carry the 40-second default timeout. |
| `ConnectionSupport.GetConnectionDetailsForSelectionAsWritten` | Import/ConnectionSupport/FivetranConnectionSupport.cs:53-58 | The source's constructor called with the default timeout fails exactly when the model does, and its error is the model's error with message and parameter name exchanged. |
| `ConnectionSupport.GetConnection` | Import/ConnectionSupport/FivetranConnectionSupport.cs:70-82 | The details are checked before `selectedToImport`, and a null or blank `selectedToImport` is rejected. On success: a fresh wrapper for that group, over a fresh manager that owns a client built from the details. |
| `ConnectionSupport.CloseConnection` | Import/ConnectionSupport/FivetranConnectionSupport.cs:90-94 | Rejects a non-wrapper argument. Otherwise it disposes the wrapper's manager exactly once. |
| `ConnectionSupport.SelectGroup` | Import/ConnectionSupport/FivetranConnectionSupport.cs:114-121 | Index `i` is accepted iff `1 <= i <= |groups|`, returning `groups[i-1].Id`. Otherwise it fails with `ArgumentOutOfRangeException`. |
| `ConnectionSupport.GetGroups` | Import/ConnectionSupport/FivetranConnectionSupport.cs:124-149 | Returns every streamed group in stream order, or `InvalidOperationException` for an empty stream. The log is a header, then line `i` lists group `i-1` under the number `i`. |
| `ConnectionSupport.SelectToImport` | Import/ConnectionSupport/FivetranConnectionSupport.cs:105-122 | Invalid details fail before any manager is opened. Otherwise it opens an owning manager (default timeout) and disposes it exactly once on every path. An empty group list is an error. Otherwise the result is the bounds-checked selection, and the chosen id is the one logged under the chosen number. |
| `ConnectionSupport.TableLinesAt` | Import/ConnectionSupport/FivetranConnectionSupport.cs:183-186 | A schema yields one line per table, and line `k` is `"  {cid}: {schemaKey}.{tableKey} -> {schemaDest}.{tableDest}\n"` for table `k`. |
| `ConnectionSupport.SchemaLinesMembers` | Import/ConnectionSupport/FivetranConnectionSupport.cs:181-187 | A line belongs to a connector's schema lines iff it belongs to one schema entry's lines. |
| `ConnectionSupport.ConnectorLinesMembers` | Import/ConnectionSupport/FivetranConnectionSupport.cs:177-187 | A connector's lines are exactly the lines of the tables of its non-null schemas. A null schema set or a null schema contributes nothing. |
| `ConnectionSupport.AllLinesMembers` | Import/ConnectionSupport/FivetranConnectionSupport.cs:174-188 | The mapping lines are exactly the lines of the streamed connectors. |
| `ConnectionSupport.AllLinesCount` | Import/ConnectionSupport/FivetranConnectionSupport.cs:174-188 | There is one mapping line per (connector, schema, table) triple. |
| `ConnectionSupport.SchemaLinesCount` | Import/ConnectionSupport/FivetranConnectionSupport.cs:181-187 | A connector has one line per table of its non-null schemas. |
| `ConnectionSupport.AddTableLines` | Import/ConnectionSupport/FivetranConnectionSupport.cs:183-186 | The inner loop adds exactly one schema's table lines to the bag. |
| `ConnectionSupport.AddSchemaLines` | Import/ConnectionSupport/FivetranConnectionSupport.cs:181-187 | The middle loop adds exactly one connector's lines to the bag. |
| `ConnectionSupport.GetMappings` | Import/ConnectionSupport/FivetranConnectionSupport.cs:167-201 | An empty connectors stream fails with `InvalidOperationException`. Otherwise the bag is the header plus all mapping lines. It always holds the header, so the "No mappings found" branch never runs. Its size is 1 + the number of tables. |
| `ConnectionSupport.RunImport` | Import/ConnectionSupport/FivetranConnectionSupport.cs:156-165 | Rejects a non-wrapper connection. Otherwise it logs exactly the lines `GetMappings` collects. |

## Findings

| source | as written | input that shows it | evidently intended | confidence | as-written member | corrected member |
|---|---|---|---|---|---|---|
| Import/ConnectionSupport/FivetranConnectionDetailsForSelection.cs:51 | `new ArgumentException(nameof(apiKey), "API Key cannot be null or empty.")` passes the parameter name as the message and the sentence as `ParamName` | `apiKey = ""` | message "API Key cannot be null or empty." with `ParamName` "apiKey", in the same order as the timeout check at line 69 | high; not executed | `SelectionDetails.ValidateApiKeyAsWritten`, `SelectionDetails.NewConnectionDetailsAsWritten` | `SelectionDetails.ValidateApiKey`, `SelectionDetails.NewConnectionDetails` |
| Import/ConnectionSupport/FivetranConnectionDetailsForSelection.cs:60 | `new ArgumentException(nameof(apiSecret), "API Secret cannot be null or empty.")` has the same swap | `apiSecret = null` | message "API Secret cannot be null or empty." with `ParamName` "apiSecret" | high; not executed | `SelectionDetails.ValidateApiSecretAsWritten`, `SelectionDetails.NewConnectionDetailsAsWritten` | `SelectionDetails.ValidateApiSecret`, `SelectionDetails.NewConnectionDetails` |

The rest of the model (`NewConnectionDetails` and everything that uses it)
uses the corrected validators. `ApiKeyErrorNamesWrongParameter` and
`AsWrittenConstructorDiffers` show the as-written error for the inputs above;
`AsWrittenDiffersOnlyBySwap` proves that the swap is the only difference.

## Left out

- The cache's lock (`lock (_lock)`) and all concurrency. Each cache operation is modelled as one atomic step.
- Overflow of `DateTime.Add`. Ticks are unbounded integers.
- `PaginatedFetcher`, `NonPaginatedFetcher`, `HttpRequestHandler` and `FivetranHttpClient` are not part of this model. A fetch is described by the request (`Fetch`) it issues; the streams it would yield are inputs.
- `WebUtility.UrlEncode` is a library call. It is a function parameter with no properties assumed.
- Asynchronous plumbing (`IAsyncEnumerable`, `CancellationToken`, `.Result`, `GetAwaiter().GetResult()`). Streams are finite sequences, and a transport failure while fetching schemas is not modelled.
- Console input (`InputProvider`, `int.TryParse`). The typed key, secret and group number are parameters, so the model does not show that the group number is read only after the groups are listed.
- Logger output other than the group listing and the logged mapping lines.
- `IRestApiManager` is only an interface. The wrapper holds a `RestApiManager` directly, because traits are not used here.
- The `FivetranConnectionSupport` constructors (null checks on the logger and input provider) and `ConnectorTypeCode`. They only wire in the I/O collaborators that are left out.
- The test builders (NSubstitute scaffolding).
- The records `Data`, `PaginatedRoot` and `NonPaginatedRoot` are declared only, since the fetchers that use them are not modelled.
- `Infrastructure.TtlDictionary.TryGetValue`: the `default` value written to the out parameter on a miss is not modelled; a miss is `None`.
- Dictionary keys are not constrained to be distinct in the pair-sequence representation. No property here depends on it.
- `SelectionDetails.NewConnectionDetails`: its key and secret errors are the corrected ones, not the swapped `ArgumentException` the constructor throws as written (lines 51 and 60); `NewConnectionDetailsAsWritten` models the code as written and `AsWrittenDiffersOnlyBySwap` relates the two.
- `ConnectionSupport.GetConnectionDetailsForSelection`: built on the corrected constructor, so its blank-key and blank-secret errors are the corrected ones; `GetConnectionDetailsForSelectionAsWritten` states the error the code as written throws.
