/**
 * Flattening of the schema into the records the client template is rendered from
 * (gen/source.ts): one flat operation per entry, its parameter list in path, query,
 * body order, the TypeScript argument list and the argument object literals.
 */
module GenSource {
  import opened Wrappers
  import opened Strings
  import opened ApiSchema
  import GenUtil
  import Seqs

  /** A parameter with its name and its TypeScript declaration `ts`. */
  datatype NamedParameter = NamedParameter(name: string, ts: string, param: Parameter)

  /** The three argument object literals of the generated call. */
  datatype ParamStrings = ParamStrings(path: string, query: string, body: string)

  /**
   * One operation as the template sees it; `operation` stands for the JSON text of the
   * descriptor, which is kept as the descriptor itself.
   */
  datatype FlatOperation = FlatOperation(
    name: string,
    returnType: string,
    returnDescription: string,
    params: ParamStrings,
    allParams: seq<NamedParameter>,
    tsArgs: string,
    operation: Operation,
    description: string,
    verb: HttpMethod,
    path: string,
    throws: seq<string>)

  datatype FlatNamespace = FlatNamespace(name: string, operations: seq<FlatOperation>)

  /** `toFlatParam`: `name?: type` when optional without default, `name: type = default` with one. */
  function ToFlatParam(name: string, p: Parameter): NamedParameter {
    var sep := if !p.required && !p.HasDefault() then "?: " else ": ";
    var suffix := if p.HasDefault() then " = " + p.defaultValue.value else "";
    NamedParameter(name, name + sep + p.typ + suffix, p)
  }

  /** The three shapes of a declaration, read back from the output. */
  lemma ToFlatParamShape(name: string, p: Parameter)
    ensures ToFlatParam(name, p).name == name && ToFlatParam(name, p).param == p
    ensures !p.required && !p.HasDefault() ==> ToFlatParam(name, p).ts == name + "?: " + p.typ
    ensures p.required && !p.HasDefault() ==> ToFlatParam(name, p).ts == name + ": " + p.typ
    ensures p.HasDefault() ==> ToFlatParam(name, p).ts == name + ": " + p.typ + " = " + p.defaultValue.value
    ensures StartsWith(ToFlatParam(name, p).ts, name)
  {
    var t := ToFlatParam(name, p).ts;
    assert t[..|name|] == name;
  }

  /** A parameter is marked optional (`?:`) exactly when it is neither required nor defaulted. */
  lemma ToFlatParamOptionalMark(name: string, p: Parameter)
    requires ':' !in name && '?' !in name
    ensures OccursAt(ToFlatParam(name, p).ts, "?: ", |name|) <==> !p.required && !p.HasDefault()
  {
    var t := ToFlatParam(name, p).ts;
    if !p.required && !p.HasDefault() {
      assert t[|name|..|name| + 3] == "?: ";
    } else {
      assert t[|name|] == ':';
    }
  }

  function FlatParams(entries: seq<(string, Parameter)>): (r: seq<NamedParameter>)
    ensures |r| == |entries|
    ensures forall i :: 0 <= i < |r| ==> r[i] == ToFlatParam(entries[i].0, entries[i].1)
  {
    if entries == [] then [] else [ToFlatParam(entries[0].0, entries[0].1)] + FlatParams(entries[1..])
  }

  function TsStrings(ps: seq<NamedParameter>): (r: seq<string>)
    ensures |r| == |ps| && forall i :: 0 <= i < |ps| ==> r[i] == ps[i].ts
  {
    if ps == [] then [] else [ps[0].ts] + TsStrings(ps[1..])
  }

  function Names(ps: seq<NamedParameter>): (r: seq<string>)
    ensures |r| == |ps| && forall i :: 0 <= i < |ps| ==> r[i] == ps[i].name
  {
    if ps == [] then [] else [ps[0].name] + Names(ps[1..])
  }

  /** `name: \`${name}\``: one member of the path or query object literal. */
  function TemplateMember(name: string): string {
    name + ": `${" + name + "}`"
  }

  function TemplateMembers(ps: seq<NamedParameter>): (r: seq<string>)
    ensures |r| == |ps| && forall i :: 0 <= i < |ps| ==> r[i] == TemplateMember(ps[i].name)
  {
    if ps == [] then [] else [TemplateMember(ps[0].name)] + TemplateMembers(ps[1..])
  }

  function Braced(members: seq<string>): string {
    "{" + Join(members, ", ") + "}"
  }

  /** The flat record of one operation. */
  function FlattenOperation(name: string, op: Operation, models: seq<Model>, config: Config): FlatOperation {
    var path := FlatParams(op.pathParams);
    var query := FlatParams(op.queryParams);
    var body := FlatParams(op.bodyParams);
    var all := path + query + body;
    FlatOperation(
      name,
      GenUtil.GetReturnType(op, models, config),
      GenUtil.GetReturnDescription(op),
      ParamStrings(Braced(TemplateMembers(path)), Braced(TemplateMembers(query)), Braced(Names(body))),
      all,
      Join(TsStrings(all), ", "),
      op,
      op.description,
      op.verb,
      op.path,
      GenUtil.GetThrows(op, models, config))
  }

  /**
   * The argument list of a generated method: path, then query, then body parameters, each
   * in entry order, and `tsArgs` their declarations joined by ", "; the descriptor's own
   * name, method, path and description are copied.
   */
  lemma FlattenOperationParameters(name: string, op: Operation, models: seq<Model>, config: Config)
    ensures var f := FlattenOperation(name, op, models, config);
      && |f.allParams| == |op.pathParams| + |op.queryParams| + |op.bodyParams|
      && (forall i :: 0 <= i < |op.pathParams| ==>
            f.allParams[i] == ToFlatParam(op.pathParams[i].0, op.pathParams[i].1))
      && (forall i :: 0 <= i < |op.queryParams| ==>
            f.allParams[|op.pathParams| + i] == ToFlatParam(op.queryParams[i].0, op.queryParams[i].1))
      && (forall i :: 0 <= i < |op.bodyParams| ==>
            f.allParams[|op.pathParams| + |op.queryParams| + i] == ToFlatParam(op.bodyParams[i].0, op.bodyParams[i].1))
      && f.tsArgs == Join(TsStrings(f.allParams), ", ")
      && f.name == name && f.description == op.description && f.verb == op.verb && f.path == op.path
  {
  }

  /** With no parameters at all the method takes no arguments and passes empty objects. */
  lemma FlattenNoParameters(name: string, op: Operation, models: seq<Model>, config: Config)
    requires op.pathParams == [] && op.queryParams == [] && op.bodyParams == []
    ensures FlattenOperation(name, op, models, config).tsArgs == ""
    ensures FlattenOperation(name, op, models, config).params == ParamStrings("{}", "{}", "{}")
  {
  }

  /** A single path parameter `id` gives the path object literal `{id: \`${id}\`}`. */
  lemma FlattenOnePathParameter(name: string, op: Operation, models: seq<Model>, config: Config, id: string)
    requires |op.pathParams| == 1 && op.pathParams[0].0 == id
    ensures FlattenOperation(name, op, models, config).params.path == "{" + id + ": `${" + id + "}`}"
  {
  }

  /**
   * `flatOperations`: accumulates one flat record per input entry, in input order, with
   * the return type and throws list computed against the given models.
   */
  method FlatOperations(input: seq<(string, Operation)>, models: seq<Model>, config: Config)
    returns (operations: seq<FlatOperation>)
    ensures |operations| == |input|
    ensures operations == FlattenAll(input, models, config)
  {
    operations := [];
    for i := 0 to |input|
      invariant |operations| == i
      invariant forall k :: 0 <= k < i ==> operations[k] == FlattenOperation(input[k].0, input[k].1, models, config)
    {
      var (name, operation) := input[i];
      operations := operations + [FlattenOperation(name, operation, models, config)];
    }
  }

  /** The namespace found in one entry, if it is one. */
  function NamespacePart(e: (string, Entry)): seq<(string, seq<(string, Operation)>)> {
    if e.1.NamespaceEntry? then [(e.0, e.1.operations)] else []
  }

  /** The operation found in one entry, if it is not a namespace. */
  function OperationPart(e: (string, Entry)): seq<(string, Operation)> {
    if e.1.OperationEntry? then [(e.0, e.1.op)] else []
  }

  /** The namespace entries, in order, with their operations. */
  function NamespaceEntries(entries: seq<(string, Entry)>): (r: seq<(string, seq<(string, Operation)>)>)
    ensures |r| <= |entries|
  {
    if entries == [] then [] else NamespacePart(entries[0]) + NamespaceEntries(entries[1..])
  }

  /** The entries that are not namespaces, in order. */
  function TopLevelOperations(entries: seq<(string, Entry)>): (r: seq<(string, Operation)>)
    ensures |r| <= |entries|
  {
    if entries == [] then [] else OperationPart(entries[0]) + TopLevelOperations(entries[1..])
  }

  /** Every top-level entry lands in exactly one of the two lists. */
  lemma {:induction false} EntriesPartition(entries: seq<(string, Entry)>)
    ensures |NamespaceEntries(entries)| + |TopLevelOperations(entries)| == |entries|
  {
    if entries != [] {
      EntriesPartition(entries[1..]);
    }
  }

  lemma {:induction false} NamespaceEntriesAppend(entries: seq<(string, Entry)>, e: (string, Entry))
    ensures NamespaceEntries(entries + [e]) == NamespaceEntries(entries) + NamespacePart(e)
  {
    if entries == [] {
      assert entries + [e] == [e];
    } else {
      assert (entries + [e])[0] == entries[0] && (entries + [e])[1..] == entries[1..] + [e];
      NamespaceEntriesAppend(entries[1..], e);
    }
  }

  /**
   * The generator's source step without the template: the schema's model types are
   * prefixed in place, then namespaces and top-level operations are flattened apart.
   */
  method GenerateSource(schema: GenUtil.SchemaObject, config: Config)
    returns (namespaces: seq<FlatNamespace>, operations: seq<FlatOperation>)
    modifies schema
    ensures schema.models == GenUtil.ReplacedModels(old(schema.models), config)
    ensures schema.operations == old(schema.operations)
    ensures |namespaces| + |operations| == |schema.operations|
    ensures namespaces == FlattenNamespaces(NamespaceEntries(schema.operations), schema.models, config)
    ensures operations == FlattenAll(TopLevelOperations(schema.operations), schema.models, config)
  {
    var _ := GenUtil.ReplaceModelTypes(schema, config);
    var entries := schema.operations;
    var models := schema.models;
    namespaces := CollectNamespaces(entries, models, config);
    operations := FlatOperations(TopLevelOperations(entries), models, config);
    EntriesPartition(entries);
  }

  /** The namespace loop: one flat namespace per namespace entry, in order. */
  method CollectNamespaces(entries: seq<(string, Entry)>, models: seq<Model>, config: Config)
    returns (namespaces: seq<FlatNamespace>)
    ensures namespaces == FlattenNamespaces(NamespaceEntries(entries), models, config)
  {
    namespaces := [];
    for i := 0 to |entries|
      invariant namespaces == FlattenNamespaces(NamespaceEntries(entries[..i]), models, config)
    {
      Seqs.TakeNext(entries, i);
      NamespaceEntriesAppend(entries[..i], entries[i]);
      if entries[i].1.NamespaceEntry? {
        var flat := FlatOperations(entries[i].1.operations, models, config);
        FlattenNamespacesAppend(NamespaceEntries(entries[..i]), (entries[i].0, entries[i].1.operations), models, config);
        namespaces := namespaces + [FlatNamespace(entries[i].0, flat)];
      }
    }
    Seqs.TakeAll(entries);
  }

  /** The flat namespaces for a list of namespace entries. */
  function FlattenNamespaces(ns: seq<(string, seq<(string, Operation)>)>, models: seq<Model>, config: Config)
    : (r: seq<FlatNamespace>)
    ensures |r| == |ns|
    ensures forall i :: 0 <= i < |ns| ==> r[i] == FlatNamespace(ns[i].0, FlattenAll(ns[i].1, models, config))
  {
    if ns == [] then []
    else [FlatNamespace(ns[0].0, FlattenAll(ns[0].1, models, config))] + FlattenNamespaces(ns[1..], models, config)
  }

  function FlattenAll(ops: seq<(string, Operation)>, models: seq<Model>, config: Config): (r: seq<FlatOperation>)
    ensures |r| == |ops|
    ensures forall k :: 0 <= k < |ops| ==> r[k] == FlattenOperation(ops[k].0, ops[k].1, models, config)
  {
    if ops == [] then [] else [FlattenOperation(ops[0].0, ops[0].1, models, config)] + FlattenAll(ops[1..], models, config)
  }

  lemma {:induction false} FlattenNamespacesAppend(
    ns: seq<(string, seq<(string, Operation)>)>, n: (string, seq<(string, Operation)>), models: seq<Model>, config: Config)
    ensures FlattenNamespaces(ns + [n], models, config)
         == FlattenNamespaces(ns, models, config) + [FlatNamespace(n.0, FlattenAll(n.1, models, config))]
  {
    if ns == [] {
      assert ns + [n] == [n];
    } else {
      assert (ns + [n])[0] == ns[0] && (ns + [n])[1..] == ns[1..] + [n];
      FlattenNamespacesAppend(ns[1..], n, models, config);
    }
  }
}
