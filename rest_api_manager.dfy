/** The API facade `RestApiManager`: it binds the three endpoints to the
    paginated and single-object fetchers and disposes the HTTP client only
    when it created that client itself. The fetchers' source is not part of
    this model, so a fetch is described by the request it issues; the URL
    encoder (`WebUtility.UrlEncode`) is a parameter. */
module FivetranClient {
  import opened Wrappers
  import opened DotNet

  const ApiBaseUrl: string := "https://api.fivetran.com/v1/"

  /** Which fetcher serves a request, and for which relative path. */
  datatype Fetch = Paginated(path: string) | SingleObject(path: string)

  function GroupsPath(): string {
    "groups"
  }

  function ConnectorsPath(urlEncode: string -> string, groupId: string): string {
    "groups/" + urlEncode(groupId) + "/connectors"
  }

  function SchemasPath(urlEncode: string -> string, connectorId: string): string {
    "connectors/" + urlEncode(connectorId) + "/schemas"
  }

  /** The segment between a fixed prefix and a fixed suffix, if `path` has
      both. */
  function Between(path: string, prefix: string, suffix: string): Option<string> {
    if |prefix| + |suffix| <= |path| && path[..|prefix|] == prefix && path[|path| - |suffix|..] == suffix
    then Some(path[|prefix|..|path| - |suffix|])
    else None
  }

  /** The connectors path carries the encoded group id, and nothing else
      varies: the id can be read back from the path. */
  lemma ConnectorsPathRoundTrip(urlEncode: string -> string, groupId: string)
    ensures Between(ConnectorsPath(urlEncode, groupId), "groups/", "/connectors") == Some(urlEncode(groupId))
  {
  }

  /** The schemas path carries the encoded connector id and can be read back. */
  lemma SchemasPathRoundTrip(urlEncode: string -> string, connectorId: string)
    ensures Between(SchemasPath(urlEncode, connectorId), "connectors/", "/schemas") == Some(urlEncode(connectorId))
  {
  }

  /** Two ids whose encodings differ reach different endpoints, and the
      three endpoints never share a path. */
  lemma {:induction false} EndpointPathsDistinct(urlEncode: string -> string, a: string, b: string)
    ensures urlEncode(a) != urlEncode(b) ==> ConnectorsPath(urlEncode, a) != ConnectorsPath(urlEncode, b)
    ensures urlEncode(a) != urlEncode(b) ==> SchemasPath(urlEncode, a) != SchemasPath(urlEncode, b)
    ensures GroupsPath() != ConnectorsPath(urlEncode, a)
    ensures GroupsPath() != SchemasPath(urlEncode, a)
    ensures ConnectorsPath(urlEncode, a) != SchemasPath(urlEncode, b)
  {
    ConnectorsPathRoundTrip(urlEncode, a);
    ConnectorsPathRoundTrip(urlEncode, b);
    SchemasPathRoundTrip(urlEncode, a);
    SchemasPathRoundTrip(urlEncode, b);
    assert ConnectorsPath(urlEncode, a)[0] == 'g';
    assert SchemasPath(urlEncode, b)[0] == 'c';
    assert |ConnectorsPath(urlEncode, a)| > |GroupsPath()|;
    assert |SchemasPath(urlEncode, a)| > |GroupsPath()|;
  }

  class RestApiManager {
    /** The client behind the request handler. */
    const client: HttpClient
    /** The client this instance created and must dispose; null when the
        client came from the caller. Set only at construction. */
    const createdClient: HttpClient?
    /** How many times `Dispose` has been called on this manager. */
    ghost var disposeCalls: nat

    /** The objects `Dispose` may change: the owned client, if any. */
    ghost function Owned(): set<object> {
      if createdClient == null then {} else {createdClient}
    }

    ghost predicate Valid() {
      createdClient == null || createdClient == client
    }

    /** A manager for the public API base URL, owning a client it builds
        from the credentials. */
    constructor FromCredentials(apiKey: string, apiSecret: string, timeout: int)
      ensures Valid() && fresh(client) && createdClient == client
      ensures client.settings == Some(ClientSettings(ApiBaseUrl, apiKey, apiSecret, timeout))
      ensures !client.disposed && client.disposeCalls == 0 && disposeCalls == 0
    {
      var c := new HttpClient(Some(ClientSettings(ApiBaseUrl, apiKey, apiSecret, timeout)));
      client := c;
      createdClient := c;
      disposeCalls := 0;
    }

    /** A manager for `baseUrl`, owning a client it builds from the
        credentials. */
    constructor FromBaseUrl(baseUrl: string, apiKey: string, apiSecret: string, timeout: int)
      ensures Valid() && fresh(client) && createdClient == client
      ensures client.settings == Some(ClientSettings(baseUrl, apiKey, apiSecret, timeout))
      ensures !client.disposed && client.disposeCalls == 0 && disposeCalls == 0
    {
      var c := new HttpClient(Some(ClientSettings(baseUrl, apiKey, apiSecret, timeout)));
      client := c;
      createdClient := c;
      disposeCalls := 0;
    }

    /** A manager over a caller's client, which it does not own. */
    constructor FromClient(client: HttpClient)
      ensures Valid() && this.client == client && createdClient == null
      ensures disposeCalls == 0
    {
      this.client := client;
      createdClient := null;
      disposeCalls := 0;
    }

    /** The groups endpoint is the fixed path `groups`, paginated. */
    method GetGroups() returns (request: Fetch)
      ensures request == Paginated("groups")
    {
      request := Paginated(GroupsPath());
    }

    /** The connectors of a group, paginated; the id is encoded and not
        otherwise checked. */
    method GetConnectors(urlEncode: string -> string, groupId: string) returns (request: Fetch)
      ensures request == Paginated("groups/" + urlEncode(groupId) + "/connectors")
    {
      request := Paginated(ConnectorsPath(urlEncode, groupId));
    }

    /** The schemas of a connector, fetched as one object. */
    method GetConnectorSchemas(urlEncode: string -> string, connectorId: string) returns (request: Fetch)
      ensures request == SingleObject("connectors/" + urlEncode(connectorId) + "/schemas")
    {
      request := SingleObject(SchemasPath(urlEncode, connectorId));
    }

    /** Disposes the owned client, if there is one; a caller's client is left
        alone, and disposing never fails. */
    method Dispose()
      requires Valid()
      modifies this, Owned()
      ensures disposeCalls == old(disposeCalls) + 1
      ensures createdClient != null ==>
                createdClient.disposed && createdClient.disposeCalls == old(createdClient.disposeCalls) + 1
      ensures createdClient == null ==> unchanged(client)
      ensures createdClient != null ==> client.disposed
    {
      disposeCalls := disposeCalls + 1;
      if createdClient != null {
        createdClient.Dispose();
      }
    }
  }

  /** Disposing a self-created manager twice disposes its client on both
      calls and leaves it disposed; disposing a manager over a caller's client
      never touches that client. */
  method DisposeTwice(owner: RestApiManager, borrower: RestApiManager)
    requires owner.Valid() && borrower.Valid()
    requires owner.createdClient != null && borrower.createdClient == null
    requires owner.client != borrower.client && owner != borrower
    modifies owner, owner.Owned(), borrower
    ensures owner.client.disposed && owner.client.disposeCalls == old(owner.client.disposeCalls) + 2
    ensures unchanged(borrower.client)
  {
    owner.Dispose();
    borrower.Dispose();
    owner.Dispose();
    borrower.Dispose();
  }
}
