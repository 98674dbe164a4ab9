/** The shape-only records the REST service's JSON is read into. A .NET
    `Dictionary` is represented by its enumeration: the sequence of its
    key/value pairs; a nullable field or value is an `Option`. */
module Models {
  import opened Wrappers

  datatype Group = Group(id: string, name: string)

  datatype Connector = Connector(id: string, service: string, schema: string, paused: Option<bool>)

  datatype Table = Table(nameInDestination: string)

  datatype Schema = Schema(nameInDestination: string, enabled: Option<bool>, tables: seq<(string, Table)>)

  datatype DataSchemas = DataSchemas(schemas: seq<(string, Option<Schema>)>)

  /** One page of a paginated response and the cursor of the next one. */
  datatype Data<T> = Data(items: seq<T>, nextCursor: Option<string>)

  datatype PaginatedRoot<T> = PaginatedRoot(data: Data<T>)

  datatype NonPaginatedRoot<T> = NonPaginatedRoot(data: Option<T>)
}
