/**
 * The declarative API schema the generator reads and the operation descriptors the client
 * receives: the shapes of gen/Schema.ts and gen/Config.ts, as the code uses them.
 */
module ApiSchema {
  import opened Wrappers

  datatype HttpMethod = GET | HEAD | POST | PUT | PATCH | DELETE {
    function Name(): string {
      match this
      case GET => "GET"
      case HEAD => "HEAD"
      case POST => "POST"
      case PUT => "PUT"
      case PATCH => "PATCH"
      case DELETE => "DELETE"
    }
  }

  /**
   * The `token` member of an operation: absent (`undefined`: no token required),
   * `null` (a valid token of any scope) or a scope name.
   */
  datatype TokenScope = NoToken | AnyScope | Scope(name: string) {
    /** `operation.token !== undefined` */
    predicate Declared() { !NoToken? }
  }

  /** One declared parameter; `defaultValue` is the optional `default` string. */
  datatype Parameter = Parameter(description: string, defaultValue: Option<string>, typ: string, required: bool) {
    /** `parameter.default` is truthy: present and not the empty string. */
    predicate HasDefault() { defaultValue.Some? && defaultValue.value != "" }
  }

  /** One declared response shape. */
  datatype Return = Return(status: int, typ: string, description: Option<string>)

  /**
   * One operation. A parameter group that is absent and one that is empty behave alike
   * everywhere in the code, so each group is a list of named parameters in entry order.
   */
  datatype Operation = Operation(
    description: string,
    verb: HttpMethod,
    path: string,
    pathParams: seq<(string, Parameter)>,
    queryParams: seq<(string, Parameter)>,
    bodyParams: seq<(string, Parameter)>,
    responses: seq<Return>,
    token: TokenScope)

  /** A top-level entry of `schema.operations`: an operation or a namespace of operations. */
  datatype Entry = OperationEntry(op: Operation) | NamespaceEntry(operations: seq<(string, Operation)>)

  datatype Field = Field(name: string, typ: string, description: string)

  /** A model as the code iterates it: an element of an array with a name and fields. */
  datatype Model = Model(name: string, description: string, fields: seq<Field>)

  datatype Schema = Schema(models: seq<Model>, operations: seq<(string, Entry)>)

  /** Generator configuration: the main class name, the default base URL and the instance name used in docs. */
  datatype Config = Config(name: string, baseUrl: string, instanceName: string)

  /** `schema.models.find(m => m.name === name)` finds something. */
  predicate IsModelName(models: seq<Model>, name: string) {
    exists i | 0 <= i < |models| :: models[i].name == name
  }

  function Keys<V>(entries: seq<(string, V)>): (r: seq<string>)
    ensures |r| == |entries| && forall i :: 0 <= i < |r| ==> r[i] == entries[i].0
  {
    if entries == [] then [] else [entries[0].0] + Keys(entries[1..])
  }
}
