/** `FivetranConnectionSupport`: turns user-supplied details into a
    connection, lets the user pick a group, and lists the lineage mappings of
    the group's connectors. The server's answers are inputs: the groups
    stream and the connectors stream are finite sequences, the schema lookup
    is a function of the connector id, and the user's group choice is an
    integer. What is written to the logger is returned as an output. */
module ConnectionSupport {
  import opened Wrappers
  import opened DotNet
  import opened Models
  import opened FivetranClient
  import opened SelectionDetails
  import opened FivetranHelpers

  /** `_defaultTimeout`: 40 seconds. */
  const DefaultTimeout: int := 40 * TicksPerSecond

  const InvalidDetailsMessage: string := "Invalid connection details provided."
  const InvalidConnectionMessage: string := "Invalid connection type provided."
  const SelectedToImportMessage: string := "Input parameter selectedToImport cannot be null or empty."
  const InvalidSelectionMessage: string := "Invalid group selection."
  const NoGroupsMessage: string := "No groups found in Fivetran account."
  const MappingsHeader: string := "Lineage mappings:\n"

  function NoConnectorsMessage(groupId: string): string {
    "No connectors found in the selected group (" + groupId + ")."
  }

  function NoMappingsMessage(groupId: string): string {
    "No mappings found in the selected group (" + groupId + ")."
  }

  /** An `object?` argument: null, or a value of one of the types the
      methods tell apart. */
  datatype Value =
    | Null
    | StringValue(s: string)
    | DetailsValue(details: ValidConnectionDetails)
    | WrapperValue(wrapper: RestApiManagerWrapper)
    | OtherValue

  /** What `GetGroupsAsync` logs: a header before the first group, then one
      numbered line per group. */
  datatype LogEntry = GroupsHeader | GroupListed(index: int, name: string, id: string)

  /** Only a details object passes; null, a string or anything else is
      rejected, naming `connectionDetails`. */
  function ValidateConnectionDetails(connectionDetails: Value): (r: Result<ValidConnectionDetails, Exception>)
    ensures r.Ok? <==> connectionDetails.DetailsValue?
    ensures r.Ok? ==> r.value == connectionDetails.details
    ensures r.Err? ==> r.error == ArgumentException(InvalidDetailsMessage, "connectionDetails")
  {
    match connectionDetails
    case DetailsValue(d) => Ok(d)
    case _ => Err(ArgumentException(InvalidDetailsMessage, "connectionDetails"))
  }

  /** Only a wrapper passes; anything else is rejected, naming `connection`. */
  function ValidateConnection(connection: Value): (r: Result<RestApiManagerWrapper, Exception>)
    ensures r.Ok? <==> connection.WrapperValue?
    ensures r.Ok? ==> r.value == connection.wrapper
    ensures r.Err? ==> r.error == ArgumentException(InvalidConnectionMessage, "connection")
  {
    match connection
    case WrapperValue(w) => Ok(w)
    case _ => Err(ArgumentException(InvalidConnectionMessage, "connection"))
  }

  /** Builds the details from the key and secret the user typed and the
      default timeout. The timeout check can never fail here, so the call
      fails exactly when the key or the secret is blank. */
  function GetConnectionDetailsForSelection(apiKey: Option<string>, apiSecret: Option<string>)
    : (r: Result<Value, Exception>)
    ensures r.Ok? <==> !IsNullOrWhiteSpace(apiKey) && !IsNullOrWhiteSpace(apiSecret)
    ensures r.Ok? ==> r.value == DetailsValue(ConnectionDetails(apiKey.value, apiSecret.value, DefaultTimeout))
    ensures IsNullOrWhiteSpace(apiKey) ==> r == Err(ArgumentException(ApiKeyMessage, "apiKey"))
    ensures !IsNullOrWhiteSpace(apiKey) && IsNullOrWhiteSpace(apiSecret) ==>
              r == Err(ArgumentException(ApiSecretMessage, "apiSecret"))
  {
    var details :- NewConnectionDetails(apiKey, apiSecret, DefaultTimeout);
    Ok(DetailsValue(details))
  }

  /** What the source's details constructor throws from this call: the same
      outcome, except that a blank key or secret is reported with message and
      parameter name exchanged. */
  lemma GetConnectionDetailsForSelectionAsWritten(apiKey: Option<string>, apiSecret: Option<string>)
    ensures NewConnectionDetailsAsWritten(apiKey, apiSecret, DefaultTimeout).Ok?
            <==> GetConnectionDetailsForSelection(apiKey, apiSecret).Ok?
    ensures GetConnectionDetailsForSelection(apiKey, apiSecret).Err? ==>
              NewConnectionDetailsAsWritten(apiKey, apiSecret, DefaultTimeout).error
              == SwapArguments(GetConnectionDetailsForSelection(apiKey, apiSecret).error)
  {
  }

  /** Checks the details first and the group id second, then returns a
      wrapper over a new manager that owns a client built from the details. */
  method GetConnection(connectionDetails: Value, selectedToImport: Option<string>)
    returns (r: Result<RestApiManagerWrapper, Exception>)
    ensures r.Ok? <==> connectionDetails.DetailsValue? && !IsNullOrWhiteSpace(selectedToImport)
    ensures !connectionDetails.DetailsValue? ==>
              r == Err(ArgumentException(InvalidDetailsMessage, "connectionDetails"))
    ensures connectionDetails.DetailsValue? && IsNullOrWhiteSpace(selectedToImport) ==>
              r == Err(ArgumentException(SelectedToImportMessage, "selectedToImport"))
    ensures r.Ok? ==>
              var d := connectionDetails.details;
              var m := r.value.restApiManager;
              && fresh(r.value) && fresh(m) && fresh(m.client)
              && r.value.Valid() && r.value.groupId == selectedToImport.value
              && m.createdClient == m.client && !m.client.disposed
              && m.client.settings == Some(ClientSettings(ApiBaseUrl, d.apiKey, d.apiSecret, d.timeout))
  {
    var details :- ValidateConnectionDetails(connectionDetails);
    if IsNullOrWhiteSpace(selectedToImport) {
      return Err(ArgumentException(SelectedToImportMessage, "selectedToImport"));
    }
    var manager := new RestApiManager.FromCredentials(details.apiKey, details.apiSecret, details.timeout);
    r := NewRestApiManagerWrapper(manager, selectedToImport);
  }

  ghost function ConnectionFootprint(connection: Value): set<object> {
    if connection.WrapperValue? then connection.wrapper.Footprint() else {}
  }

  /** Validates the connection and disposes it: the held manager is disposed
      exactly once. */
  method CloseConnection(connection: Value) returns (r: Outcome<Exception>)
    requires connection.WrapperValue? ==> connection.wrapper.Valid()
    modifies ConnectionFootprint(connection)
    ensures r.Pass? <==> connection.WrapperValue?
    ensures r.Fail? ==> r.error == ArgumentException(InvalidConnectionMessage, "connection")
    ensures connection.WrapperValue? ==>
              var m := connection.wrapper.restApiManager;
              && m.disposeCalls == old(m.disposeCalls) + 1
              && (m.createdClient != null ==> m.createdClient.disposed)
  {
    var validated := ValidateConnection(connection);
    if validated.Err? {
      return Fail(validated.error);
    }
    validated.value.Dispose();
    return Pass;
  }

  /** The bounds check and selection: a 1-based index into the listed
      groups. */
  function SelectGroup(groups: seq<Group>, selectedGroupIndex: int): (r: Result<string, Exception>)
    ensures r.Ok? <==> 1 <= selectedGroupIndex <= |groups|
    ensures r.Ok? ==> r.value == groups[selectedGroupIndex - 1].id
    ensures r.Err? ==> r.error == ArgumentOutOfRangeException(InvalidSelectionMessage, "selectedGroupIndex")
  {
    if selectedGroupIndex < 1 || selectedGroupIndex > |groups| then
      Err(ArgumentOutOfRangeException(InvalidSelectionMessage, "selectedGroupIndex"))
    else
      Ok(groups[selectedGroupIndex - 1].id)
  }

  /** Collects the groups stream into a list, in stream order, logging a
      header and then each group under its 1-based number; an empty stream
      is an error. */
  method GetGroups(stream: seq<Group>) returns (r: Result<seq<Group>, Exception>, log: seq<LogEntry>)
    ensures |stream| == 0 ==> r == Err(InvalidOperationException(NoGroupsMessage)) && log == []
    ensures |stream| > 0 ==> r == Ok(stream) && |log| == |stream| + 1 && log[0] == GroupsHeader
    ensures forall i :: 1 <= i < |log| ==> log[i] == GroupListed(i, stream[i - 1].name, stream[i - 1].id)
  {
    var groups: seq<Group> := [];
    var hasHeaderPrinted := false;
    var elementIndex := 1;
    log := [];
    var n := 0;
    while n < |stream|
      invariant 0 <= n <= |stream|
      invariant groups == stream[..n]
      invariant hasHeaderPrinted <==> n > 0
      invariant elementIndex == n + 1
      invariant n == 0 ==> log == []
      invariant n > 0 ==> |log| == n + 1 && log[0] == GroupsHeader
      invariant forall i :: 1 <= i < |log| ==> log[i] == GroupListed(i, stream[i - 1].name, stream[i - 1].id)
    {
      var group := stream[n];
      groups := groups + [group];
      if !hasHeaderPrinted {
        log := log + [GroupsHeader];
        hasHeaderPrinted := true;
      }
      log := log + [GroupListed(elementIndex, group.name, group.id)];
      elementIndex := elementIndex + 1;
      n := n + 1;
    }
    if |groups| == 0 {
      return Err(InvalidOperationException(NoGroupsMessage)), log;
    }
    assert groups == stream;
    r := Ok(groups);
  }

  /** Validates the details, opens a manager that owns its client (with the
      default timeout, not the one in the details), lists the groups the
      `groups` endpoint streams, and returns the id of the group the user
      picked by its listed number. The manager is disposed on every path
      after it is opened. */
  method SelectToImport(connectionDetails: Value, stream: seq<Group>, selectedGroupIndex: int)
    returns (r: Result<string, Exception>, log: seq<LogEntry>, manager: RestApiManager?)
    ensures !connectionDetails.DetailsValue? ==>
              r == Err(ArgumentException(InvalidDetailsMessage, "connectionDetails")) && log == [] && manager == null
    ensures connectionDetails.DetailsValue? ==>
              var d := connectionDetails.details;
              && manager != null && fresh(manager) && fresh(manager.client)
              && manager.createdClient == manager.client
              && manager.client.settings == Some(ClientSettings(ApiBaseUrl, d.apiKey, d.apiSecret, DefaultTimeout))
              && manager.disposeCalls == 1 && manager.client.disposed
    ensures connectionDetails.DetailsValue? && |stream| == 0 ==> r == Err(InvalidOperationException(NoGroupsMessage))
    ensures connectionDetails.DetailsValue? && |stream| > 0 ==> r == SelectGroup(stream, selectedGroupIndex)
    ensures r.Ok? ==>
              && 1 <= selectedGroupIndex < |log|
              && log[selectedGroupIndex] == GroupListed(selectedGroupIndex, stream[selectedGroupIndex - 1].name, r.value)
  {
    log := [];
    manager := null;
    var details :- ValidateConnectionDetails(connectionDetails);
    manager := new RestApiManager.FromCredentials(details.apiKey, details.apiSecret, DefaultTimeout);
    var groups;
    groups, log := GetGroups(stream);
    if groups.Err? {
      manager.Dispose();
      return Err(groups.error), log, manager;
    }
    r := SelectGroup(groups.value, selectedGroupIndex);
    manager.Dispose();
  }

  /** One lineage line: `  {connector}: {schema}.{table} -> {schema dest}.{table dest}`. */
  function MappingLine(connectorId: string, schemaKey: string, tableKey: string,
                       schemaDestination: string, tableDestination: string): string
  {
    "  " + connectorId + ": " + schemaKey + "." + tableKey + " -> " + schemaDestination + "." + tableDestination + "\n"
  }

  /** The lines of one schema's tables, in enumeration order. */
  function TableLines(connectorId: string, schemaKey: string, schemaDestination: string,
                      tables: seq<(string, Table)>): seq<string>
  {
    if tables == [] then []
    else
      var (tableKey, table) := tables[|tables| - 1];
      TableLines(connectorId, schemaKey, schemaDestination, tables[..|tables| - 1])
        + [MappingLine(connectorId, schemaKey, tableKey, schemaDestination, table.nameInDestination)]
  }

  /** The lines of one schema; a null schema contributes nothing. */
  function SchemaEntryLines(connectorId: string, schemaKey: string, schema: Option<Schema>): seq<string> {
    match schema
    case None => []
    case Some(s) => TableLines(connectorId, schemaKey, s.nameInDestination, s.tables)
  }

  /** The lines of a connector's schemas, in enumeration order. */
  function SchemaLines(connectorId: string, schemas: seq<(string, Option<Schema>)>): seq<string> {
    if schemas == [] then []
    else
      var (schemaKey, schema) := schemas[|schemas| - 1];
      SchemaLines(connectorId, schemas[..|schemas| - 1]) + SchemaEntryLines(connectorId, schemaKey, schema)
  }

  /** The lines of one connector; a null schema set contributes nothing. */
  function ConnectorLines(connector: Connector, connectorSchemas: Option<DataSchemas>): seq<string> {
    match connectorSchemas
    case None => []
    case Some(ds) => SchemaLines(connector.id, ds.schemas)
  }

  /** The lines of all connectors, in stream order. */
  function AllLines(connectors: seq<Connector>, schemasOf: string -> Option<DataSchemas>): seq<string> {
    if connectors == [] then []
    else
      var c := connectors[|connectors| - 1];
      AllLines(connectors[..|connectors| - 1], schemasOf) + ConnectorLines(c, schemasOf(c.id))
  }

  /** The tables of one schema entry; none for a null schema. */
  function EntryTables(schema: Option<Schema>): seq<(string, Table)> {
    if schema.Some? then schema.value.tables else []
  }

  /** The schema entries of one connector; none for a null schema set. */
  function ConnectorSchemaEntries(connectorSchemas: Option<DataSchemas>): seq<(string, Option<Schema>)> {
    if connectorSchemas.Some? then connectorSchemas.value.schemas else []
  }

  /** The number of (connector, schema, table) triples. */
  function TableCount(connectors: seq<Connector>, schemasOf: string -> Option<DataSchemas>): nat {
    if connectors == [] then 0
    else
      var c := connectors[|connectors| - 1];
      TableCount(connectors[..|connectors| - 1], schemasOf) + SchemaTableCount(ConnectorSchemaEntries(schemasOf(c.id)))
  }

  function SchemaTableCount(schemas: seq<(string, Option<Schema>)>): nat {
    if schemas == [] then 0
    else SchemaTableCount(schemas[..|schemas| - 1]) + |EntryTables(schemas[|schemas| - 1].1)|
  }

  /** Line k of a schema's lines describes table k of that schema. */
  lemma {:induction false} TableLinesAt(connectorId: string, schemaKey: string, schemaDestination: string,
                                        tables: seq<(string, Table)>)
    ensures |TableLines(connectorId, schemaKey, schemaDestination, tables)| == |tables|
    ensures forall k :: 0 <= k < |tables| ==>
              TableLines(connectorId, schemaKey, schemaDestination, tables)[k]
              == MappingLine(connectorId, schemaKey, tables[k].0, schemaDestination, tables[k].1.nameInDestination)
    decreases |tables|
  {
    if tables != [] {
      var front := tables[..|tables| - 1];
      TableLinesAt(connectorId, schemaKey, schemaDestination, front);
      assert forall k :: 0 <= k < |front| ==> front[k] == tables[k];
    }
  }

  /** A line belongs to a connector's schema lines exactly when it belongs to
      the lines of one of its non-null schemas. */
  lemma {:induction false} SchemaLinesMembers(connectorId: string, schemas: seq<(string, Option<Schema>)>, line: string)
    ensures line in SchemaLines(connectorId, schemas) <==>
              exists j :: 0 <= j < |schemas| && line in SchemaEntryLines(connectorId, schemas[j].0, schemas[j].1)
    decreases |schemas|
  {
    if schemas != [] {
      var front := schemas[..|schemas| - 1];
      SchemaLinesMembers(connectorId, front, line);
      assert forall j :: 0 <= j < |front| ==> front[j] == schemas[j];
      if line in SchemaEntryLines(connectorId, schemas[|schemas| - 1].0, schemas[|schemas| - 1].1) {
        assert 0 <= |schemas| - 1 < |schemas|;
      }
    }
  }

  /** A line belongs to the mapping lines exactly when it belongs to the
      lines of one of the streamed connectors. */
  lemma {:induction false} AllLinesMembers(connectors: seq<Connector>, schemasOf: string -> Option<DataSchemas>, line: string)
    ensures line in AllLines(connectors, schemasOf) <==>
              exists i :: 0 <= i < |connectors| && line in ConnectorLines(connectors[i], schemasOf(connectors[i].id))
    decreases |connectors|
  {
    if connectors != [] {
      var front := connectors[..|connectors| - 1];
      AllLinesMembers(front, schemasOf, line);
      assert forall i :: 0 <= i < |front| ==> front[i] == connectors[i];
      var last := connectors[|connectors| - 1];
      if line in ConnectorLines(last, schemasOf(last.id)) {
        assert 0 <= |connectors| - 1 < |connectors|;
      }
    }
  }

  /** `line` is the mapping line of table `k` of schema entry `j`. */
  ghost predicate LineOfTable(line: string, connectorId: string, schemas: seq<(string, Option<Schema>)>, j: int, k: int) {
    && 0 <= j < |schemas|
    && schemas[j].1.Some?
    && 0 <= k < |schemas[j].1.value.tables|
    && line == MappingLine(connectorId, schemas[j].0, schemas[j].1.value.tables[k].0,
                           schemas[j].1.value.nameInDestination, schemas[j].1.value.tables[k].1.nameInDestination)
  }

  /** Every line of a connector describes one table of one of its non-null
      schemas, and every such table has its line. */
  lemma ConnectorLinesMembers(connector: Connector, connectorSchemas: Option<DataSchemas>, line: string)
    ensures line in ConnectorLines(connector, connectorSchemas) <==>
              exists j, k :: LineOfTable(line, connector.id, ConnectorSchemaEntries(connectorSchemas), j, k)
  {
    var schemas := ConnectorSchemaEntries(connectorSchemas);
    assert ConnectorLines(connector, connectorSchemas) == SchemaLines(connector.id, schemas);
    SchemaLinesMembers(connector.id, schemas, line);
    if line in ConnectorLines(connector, connectorSchemas) {
      var j :| 0 <= j < |schemas| && line in SchemaEntryLines(connector.id, schemas[j].0, schemas[j].1);
      var s := schemas[j].1.value;
      var lines := TableLines(connector.id, schemas[j].0, s.nameInDestination, s.tables);
      TableLinesAt(connector.id, schemas[j].0, s.nameInDestination, s.tables);
      var k :| 0 <= k < |lines| && lines[k] == line;
      assert LineOfTable(line, connector.id, schemas, j, k);
    }
    if exists j, k :: LineOfTable(line, connector.id, schemas, j, k) {
      var j, k :| LineOfTable(line, connector.id, schemas, j, k);
      var s := schemas[j].1.value;
      TableLinesAt(connector.id, schemas[j].0, s.nameInDestination, s.tables);
      assert TableLines(connector.id, schemas[j].0, s.nameInDestination, s.tables)[k] == line;
      assert line in SchemaEntryLines(connector.id, schemas[j].0, schemas[j].1);
    }
  }

  /** There is one mapping line per (connector, schema, table) triple. */
  lemma {:induction false} AllLinesCount(connectors: seq<Connector>, schemasOf: string -> Option<DataSchemas>)
    ensures |AllLines(connectors, schemasOf)| == TableCount(connectors, schemasOf)
    decreases |connectors|
  {
    if connectors != [] {
      var c := connectors[|connectors| - 1];
      AllLinesCount(connectors[..|connectors| - 1], schemasOf);
      SchemaLinesCount(c.id, ConnectorSchemaEntries(schemasOf(c.id)));
    }
  }

  lemma {:induction false} SchemaLinesCount(connectorId: string, schemas: seq<(string, Option<Schema>)>)
    ensures |SchemaLines(connectorId, schemas)| == SchemaTableCount(schemas)
    decreases |schemas|
  {
    if schemas != [] {
      var (key, schema) := schemas[|schemas| - 1];
      SchemaLinesCount(connectorId, schemas[..|schemas| - 1]);
      if schema.Some? {
        TableLinesAt(connectorId, key, schema.value.nameInDestination, schema.value.tables);
      }
    }
  }

  /** The innermost loop of `GetMappings`: adds one line per table of a
      schema to the bag. */
  method AddTableLines(bag: multiset<string>, connectorId: string, schemaKey: string,
                       schemaDestination: string, tables: seq<(string, Table)>)
    returns (result: multiset<string>)
    ensures result == bag + multiset(TableLines(connectorId, schemaKey, schemaDestination, tables))
  {
    result := bag;
    var k := 0;
    while k < |tables|
      invariant 0 <= k <= |tables|
      invariant result == bag + multiset(TableLines(connectorId, schemaKey, schemaDestination, tables[..k]))
    {
      var (tableKey, table) := tables[k];
      var line := MappingLine(connectorId, schemaKey, tableKey, schemaDestination, table.nameInDestination);
      assert tables[..k + 1][..k] == tables[..k];
      result := result + multiset{line};
      k := k + 1;
    }
    assert tables[..k] == tables;
  }

  /** The middle loop of `GetMappings`: adds the lines of every schema of a
      connector; a null schema's table set is taken as empty. */
  method AddSchemaLines(bag: multiset<string>, connectorId: string, schemas: seq<(string, Option<Schema>)>)
    returns (result: multiset<string>)
    ensures result == bag + multiset(SchemaLines(connectorId, schemas))
  {
    result := bag;
    var j := 0;
    while j < |schemas|
      invariant 0 <= j <= |schemas|
      invariant result == bag + multiset(SchemaLines(connectorId, schemas[..j]))
    {
      var (schemaKey, schema) := schemas[j];
      var schemaDestination := if schema.Some? then schema.value.nameInDestination else "";
      assert schemas[..j + 1][..j] == schemas[..j];
      result := AddTableLines(result, connectorId, schemaKey, schemaDestination, EntryTables(schema));
      j := j + 1;
    }
    assert schemas[..j] == schemas;
  }

  /** Fetches every connector's schemas and collects one line per table into
      a bag seeded with a header; an empty connectors stream is an error. The
      bag is never empty, so its fallback message is never added. */
  method GetMappings(connection: RestApiManagerWrapper, connectors: seq<Connector>,
                     schemasOf: string -> Option<DataSchemas>)
    returns (r: Result<multiset<string>, Exception>)
    ensures |connectors| == 0 ==> r == Err(InvalidOperationException(NoConnectorsMessage(connection.groupId)))
    ensures |connectors| > 0 ==> r == Ok(multiset{MappingsHeader} + multiset(AllLines(connectors, schemasOf)))
    ensures r.Ok? ==> MappingsHeader in r.value && |r.value| == 1 + TableCount(connectors, schemasOf)
  {
    var groupId := connection.groupId;
    var bag := multiset{MappingsHeader};
    var foundAnyConnector := false;
    var i := 0;
    while i < |connectors|
      invariant 0 <= i <= |connectors|
      invariant foundAnyConnector <==> i > 0
      invariant bag == multiset{MappingsHeader} + multiset(AllLines(connectors[..i], schemasOf))
    {
      var connector := connectors[i];
      foundAnyConnector := true;
      var connectorSchemas := schemasOf(connector.id);
      assert connectors[..i + 1][..i] == connectors[..i];
      bag := AddSchemaLines(bag, connector.id, ConnectorSchemaEntries(connectorSchemas));
      i := i + 1;
    }
    assert connectors[..i] == connectors;
    if !foundAnyConnector {
      return Err(InvalidOperationException(NoConnectorsMessage(groupId)));
    }
    if |bag| == 0 {
      bag := bag + multiset{NoMappingsMessage(groupId)};
    }
    AllLinesCount(connectors, schemasOf);
    r := Ok(bag);
  }

  /** Validates the connection and logs every mapping line (in the bag's
      unspecified order, so the logged lines are given as a multiset). */
  method RunImport(connection: Value, connectors: seq<Connector>, schemasOf: string -> Option<DataSchemas>)
    returns (r: Result<multiset<string>, Exception>)
    ensures !connection.WrapperValue? ==> r == Err(ArgumentException(InvalidConnectionMessage, "connection"))
    ensures connection.WrapperValue? && |connectors| == 0 ==>
              r == Err(InvalidOperationException(NoConnectorsMessage(connection.wrapper.groupId)))
    ensures connection.WrapperValue? && |connectors| > 0 ==>
              r == Ok(multiset{MappingsHeader} + multiset(AllLines(connectors, schemasOf)))
  {
    var wrapper :- ValidateConnection(connection);
    r := GetMappings(wrapper, connectors, schemasOf);
  }
}
