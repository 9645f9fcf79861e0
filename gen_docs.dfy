/**
 * Documentation generation (gen/docs.ts): the doc tree with the main class and the main
 * namespace, and the markdown skeleton written from it. Type linking and the per-entry
 * content text are left abstract (`content` below).
 */
module GenDocs {
  import opened Wrappers
  import opened Strings
  import S = ApiSchema
  import opened DocSchema
  import GenUtil
  import Sorting
  import Seqs

  /** The four global types of the namespace (`globalTypes`). */
  function PaginatedDataGroup(config: S.Config): Entry {
    NewGroup(config.name + ".PaginatedData<T>", Interface, "Paginated response", [
      NewProperty("items", "T[]", "The page items", false, false),
      NewProperty("total", "number", "The total number of items", false, false),
      NewProperty("limit", "number", "The number of items per page", false, false),
      NewProperty("page", "number", "The current page number", false, false)])
  }

  function ApiResponseGroup(config: S.Config): Entry {
    NewGroup(config.name + ".ApiResponse<T>", Class,
      "An API response. This class implements the interface provided as `T` and includes all of its properties.",
      [NewProperty("_response", config.name + ".RawResponse", "Raw API response", false, false)])
  }

  function RawResponseGroup(config: S.Config): Entry {
    NewGroup(config.name + ".RawResponse", Class, "Raw API response", [
      NewProperty("headers", "Record<string, string>", "The headers returned by the server.", false, true),
      NewProperty("ok", "boolean", "A boolean indicating whether the response was successful (status in the range `200` – `299`) or not.", false, true),
      NewProperty("redirected", "boolean", "Indicates whether or not the response is the result of a redirect (that is, its URL list has more than one entry).", false, true),
      NewProperty("status", "number", "The status code of the response.", false, true),
      NewProperty("statusText", "string", "The status message corresponding to the status code. (e.g., `OK` for `200`).", false, true),
      NewProperty("url", "string", "The URL of the response.", false, true)])
  }

  function OptionsGroup(config: S.Config): Entry {
    NewGroup(config.name + ".Options", Interface, "API client options", [
      NewProperty("baseUrl", "string", "The base URL of the API", false, false),
      NewProperty("autoRetry", "boolean", "Whether to automatically retry requests that fail temporarily.\nIf enabled, when a request fails due to a temporary error, such as a rate limit, the request will be retried after the specified delay.", false, false),
      NewProperty("maxRetryDelay", "number", "The maximum number of seconds that is acceptable to wait before retrying a failed request.\nThis requires `autoRetry` to be enabled.", false, false),
      NewProperty("maxRetries", "number", "The maximum number of times to retry a failed request.\nThis requires `autoRetry` to be enabled.", false, false)])
  }

  /** The global groups in their order: paginated data, the response envelope, the raw response, the options. */
  function GlobalGroups(config: S.Config): (r: seq<Entry>)
    ensures |r| == 4
  {
    Seqs.Tabulate((k: nat) => GlobalGroup(config, k), 0, 4)
  }

  function GlobalGroup(config: S.Config, k: nat): Entry {
    if k == 0 then PaginatedDataGroup(config)
    else if k == 1 then ApiResponseGroup(config)
    else if k == 2 then RawResponseGroup(config)
    else OptionsGroup(config)
  }

  /** The interface documenting one model, one property per field. */
  function ModelGroup(config: S.Config, m: S.Model): Entry {
    NewGroup(config.name + "." + m.name, Interface, m.description, FieldProperties(m.fields))
  }

  function FieldProperties(fs: seq<S.Field>): (r: seq<Entry>)
    ensures |r| == |fs|
    ensures forall i :: 0 <= i < |fs| ==> r[i] == NewProperty(fs[i].name, fs[i].typ, fs[i].description, false, false)
  {
    if fs == [] then [] else [NewProperty(fs[0].name, fs[0].typ, fs[0].description, false, false)] + FieldProperties(fs[1..])
  }

  function ModelGroups(config: S.Config, models: seq<S.Model>): (r: seq<Entry>)
    ensures |r| == |models| && forall i :: 0 <= i < |models| ==> r[i] == ModelGroup(config, models[i])
  {
    if models == [] then [] else [ModelGroup(config, models[0])] + ModelGroups(config, models[1..])
  }

  /** The operations of one top-level entry: itself under its key, or each sub-operation as `ns.sub`. */
  function EntryOperations(e: (string, S.Entry)): (r: seq<(string, S.Operation)>)
    ensures e.1.OperationEntry? ==> r == [(e.0, e.1.op)]
    ensures e.1.NamespaceEntry? ==>
      |r| == |e.1.operations| && forall k :: 0 <= k < |r| ==> r[k] == (e.0 + "." + e.1.operations[k].0, e.1.operations[k].1)
  {
    match e.1
    case OperationEntry(op) => [(e.0, op)]
    case NamespaceEntry(ops) => Qualified(e.0, ops)
  }

  function Qualified(ns: string, ops: seq<(string, S.Operation)>): (r: seq<(string, S.Operation)>)
    ensures |r| == |ops| && forall k :: 0 <= k < |r| ==> r[k] == (ns + "." + ops[k].0, ops[k].1)
  {
    if ops == [] then [] else [(ns + "." + ops[0].0, ops[0].1)] + Qualified(ns, ops[1..])
  }

  /** All operations, flattened in entry order. */
  function AllOperations(entries: seq<(string, S.Entry)>): seq<(string, S.Operation)> {
    if entries == [] then [] else EntryOperations(entries[0]) + AllOperations(entries[1..])
  }

  function EntryCount(e: S.Entry): nat {
    match e
    case OperationEntry(_) => 1
    case NamespaceEntry(ops) => |ops|
  }

  /** The total number of operations: one per top-level operation, one per namespaced operation. */
  function OperationCount(entries: seq<(string, S.Entry)>): nat {
    if entries == [] then 0 else EntryCount(entries[0].1) + OperationCount(entries[1..])
  }

  lemma {:induction false} AllOperationsCount(entries: seq<(string, S.Entry)>)
    ensures |AllOperations(entries)| == OperationCount(entries)
  {
    if entries != [] {
      AllOperationsCount(entries[1..]);
    }
  }

  /** Top-level operations keep their key; a namespace's come out as `ns.sub`, right where the namespace stood. */
  lemma {:induction false} AllOperationsOfEntries(a: seq<(string, S.Entry)>, e: (string, S.Entry), b: seq<(string, S.Entry)>)
    ensures AllOperations(a + [e] + b) == AllOperations(a) + EntryOperations(e) + AllOperations(b)
  {
    AllOperationsAppend(a, [e] + b);
    assert a + [e] + b == a + ([e] + b);
    assert ([e] + b)[0] == e && ([e] + b)[1..] == b;
    assert AllOperations([e] + b) == EntryOperations(e) + AllOperations(b);
  }

  lemma {:induction false} AllOperationsAppend(a: seq<(string, S.Entry)>, b: seq<(string, S.Entry)>)
    ensures AllOperations(a + b) == AllOperations(a) + AllOperations(b)
  {
    if a == [] {
      assert a + b == b;
    } else {
      assert (a + b)[0] == a[0] && (a + b)[1..] == a[1..] + b;
      AllOperationsAppend(a[1..], b);
    }
  }

  function ToDocParameter(e: (string, S.Parameter)): DocParameter {
    DocParameter(e.0, e.1.typ, e.1.description, e.1.required, e.1.defaultValue)
  }

  function DocParameters(ps: seq<(string, S.Parameter)>): (r: seq<DocParameter>)
    ensures |r| == |ps| && forall i :: 0 <= i < |ps| ==> r[i] == ToDocParameter(ps[i])
  {
    if ps == [] then [] else [ToDocParameter(ps[0])] + DocParameters(ps[1..])
  }

  function ThrowDocs(ts: seq<string>): (r: seq<DocReturn>)
    ensures |r| == |ts| && forall i :: 0 <= i < |ts| ==> r[i] == DocReturn(ts[i], None)
  {
    if ts == [] then [] else [DocReturn(ts[0], None)] + ThrowDocs(ts[1..])
  }

  /** The documented method of one operation, named `instanceName.name`. */
  function OperationMethod(config: S.Config, models: seq<S.Model>, name: string, op: S.Operation): Entry {
    NewMethod(config.instanceName + "." + name, op.description,
      DocParameters(op.pathParams) + DocParameters(op.queryParams) + DocParameters(op.bodyParams),
      Some(DocReturn(GenUtil.GetReturnType(op, models, config), Some(GenUtil.GetReturnDescription(op)))),
      ThrowDocs(GenUtil.GetThrows(op, models, config)),
      false, Some(config.name), true)
  }

  /** Its parameters are path, then query, then body; its name is the instance name, a dot, the operation name and the parameter list. */
  lemma {:induction false} OperationMethodShape(config: S.Config, models: seq<S.Model>, name: string, op: S.Operation)
    ensures var m := OperationMethod(config, models, name, op);
      && m.kind.MethodKind?
      && m.kind.params == DocParameters(op.pathParams) + DocParameters(op.queryParams) + DocParameters(op.bodyParams)
      && m.name == config.instanceName + "." + name + "(" + ParamsString(m.kind.params) + ")"
      && m.DisplayName() == "`" + m.name + "`"
      && |m.kind.throws| == |GenUtil.FailureReturns(op.responses)|
  {
  }

  function OperationMethods(config: S.Config, models: seq<S.Model>, ops: seq<(string, S.Operation)>): (r: seq<Entry>)
    ensures |r| == |ops| && forall i :: 0 <= i < |ops| ==> r[i] == OperationMethod(config, models, ops[i].0, ops[i].1)
  {
    if ops == [] then [] else [OperationMethod(config, models, ops[0].0, ops[0].1)] + OperationMethods(config, models, ops[1..])
  }

  /** The paginated response type `Name.ApiResponse<Name.PaginatedData<T>>` the pagination helpers take. */
  function PagedResponseType(config: S.Config): string {
    config.name + ".ApiResponse<" + config.name + ".PaginatedData<T>>"
  }

  function ApiErrorThrows(config: S.Config): seq<DocReturn> {
    [DocReturn(config.name + ".Error", Some("Error returned by the API"))]
  }

  const ConstructorDescription := "Construct a new "
  const GetAllPagesDescription := "Get all other pages of paginated results and return the complete data\n> **Warning:** Depending on the amount of data, this can take a long time and use a lot of memory."

  /** The default options shown for the constructor's `options` parameter. */
  function DefaultOptionsText(config: S.Config): string {
    "{baseUrl: \"" + config.baseUrl + "\", autoRetry: true, maxRetryDelay: 5, maxRetries: 3}"
  }

  function ResponseParameter(config: S.Config, description: string): DocParameter {
    DocParameter("response", PagedResponseType(config), description, true, None)
  }

  function PageReturn(config: S.Config, description: string): Option<DocReturn> {
    Some(DocReturn("Promise<" + PagedResponseType(config) + " | null>", Some(description)))
  }

  function ConstructorMethod(config: S.Config): Entry {
    NewMethod("new " + config.name, ConstructorDescription + config.name + " API client", [
        DocParameter("token", "string", "API token to use for requests", false, None),
        DocParameter("options", "Partial<" + config.name + ".Options>", "API client options", false,
          Some(DefaultOptionsText(config)))],
      None, [], false, None, false)
  }

  function GetPageMethod(config: S.Config): Entry {
    NewMethod(config.instanceName + ".getPage<T>", "Get another page of paginated results", [
        ResponseParameter(config, "Response to get a different page of"),
        DocParameter("page", "number", "Page to get", true, None)],
      PageReturn(config, "The new page or null if the page is out of bounds"),
      ApiErrorThrows(config), false, None, false)
  }

  function GetNextPageMethod(config: S.Config): Entry {
    NewMethod(config.instanceName + ".getNextPage<T>", "Get next page of paginated results",
      [ResponseParameter(config, "Response to get the next page of")],
      PageReturn(config, "The next page or null if this is the last page"),
      ApiErrorThrows(config), false, None, false)
  }

  function GetPreviousPageMethod(config: S.Config): Entry {
    NewMethod(config.instanceName + ".getPreviousPage<T>", "Get previous page of paginated results",
      [ResponseParameter(config, "Response to get the previous page of")],
      PageReturn(config, "The previous page or null if this is the first page"),
      ApiErrorThrows(config), false, None, false)
  }

  function GetAllPagesMethod(config: S.Config): Entry {
    NewMethod(config.instanceName + ".getAllPages<T>", GetAllPagesDescription,
      [ResponseParameter(config, "Response to get all pages of")],
      Some(DocReturn("Promise<" + config.name + ".PaginatedData<T>>", Some("All of the data in 1 page"))),
      ApiErrorThrows(config), false, None, false)
  }

  function CheckCompatibilityMethod(config: S.Config): Entry {
    NewMethod(config.instanceName + ".checkCompatibility", "Check compatibility with the API", [],
      Some(DocReturn("Promise<boolean>", Some("True if this client is compatible with the API server"))),
      [], false, None, false)
  }

  /** The six methods documented on every client, in this order. */
  function FixedMethods(config: S.Config): (r: seq<Entry>)
    ensures |r| == 6
  {
    Seqs.Tabulate((k: nat) => FixedMethod(config, k), 0, 6)
  }

  function FixedMethod(config: S.Config, k: nat): Entry {
    if k == 0 then ConstructorMethod(config)
    else if k == 1 then GetPageMethod(config)
    else if k == 2 then GetNextPageMethod(config)
    else if k == 3 then GetPreviousPageMethod(config)
    else if k == 4 then GetAllPagesMethod(config)
    else CheckCompatibilityMethod(config)
  }

  /** Entry `k` of the fixed methods has the name of `FixedMethod(config, k)`. */
  lemma FixedMethodAt(config: S.Config, k: nat)
    requires k < 6
    ensures FixedMethods(config)[k].name == FixedMethod(config, k).name
  {
    Seqs.TabulateAt((k: nat) => FixedMethod(config, k), 0, 6, k);
  }

  /** The fixed methods are named constructor, getPage, getNextPage, getPreviousPage, getAllPages, checkCompatibility, with their parameter lists. */
  lemma {:induction false} FixedMethodNames(config: S.Config)
    ensures FixedMethods(config)[0].name == "new " + config.name + "([token], [options])"
    ensures FixedMethods(config)[1].name == config.instanceName + ".getPage<T>(response, page)"
    ensures FixedMethods(config)[2].name == config.instanceName + ".getNextPage<T>(response)"
    ensures FixedMethods(config)[3].name == config.instanceName + ".getPreviousPage<T>(response)"
    ensures FixedMethods(config)[4].name == config.instanceName + ".getAllPages<T>(response)"
    ensures FixedMethods(config)[5].name == config.instanceName + ".checkCompatibility()"
  {
    assert FixedMethods(config)[0].name == "new " + config.name + "([token], [options])" by { FixedMethodAt(config, 0); ConstructorName(config); }
    assert FixedMethods(config)[1].name == config.instanceName + ".getPage<T>(response, page)" by { FixedMethodAt(config, 1); GetPageName(config); }
    assert FixedMethods(config)[2].name == config.instanceName + ".getNextPage<T>(response)" by { FixedMethodAt(config, 2); GetNextPageName(config); }
    assert FixedMethods(config)[3].name == config.instanceName + ".getPreviousPage<T>(response)" by { FixedMethodAt(config, 3); GetPreviousPageName(config); }
    assert FixedMethods(config)[4].name == config.instanceName + ".getAllPages<T>(response)" by { FixedMethodAt(config, 4); GetAllPagesName(config); }
    assert FixedMethods(config)[5].name == config.instanceName + ".checkCompatibility()" by { FixedMethodAt(config, 5); CheckCompatibilityName(config); }
  }

  lemma {:induction false} ConstructorName(config: S.Config)
    ensures ConstructorMethod(config).name == "new " + config.name + "([token], [options])"
  {
    var ctorParams := ConstructorMethod(config).kind.params;
    assert ParamLabel(ctorParams[0]) == "[token]" && ParamLabel(ctorParams[1]) == "[options]";
    var labels := ParamLabels(ctorParams);
    assert labels == ["[token]", "[options]"];
    assert labels[1..] == ["[options]"];
    assert Join(labels, ", ") == "[token]" + ", " + "[options]";
    Seqs.AppendAssocFour("new " + config.name, "(", Join(labels, ", "), ")");
  }

  lemma {:induction false} GetPageName(config: S.Config)
    ensures GetPageMethod(config).name == config.instanceName + ".getPage<T>(response, page)"
  {
    var pageLabels := ParamLabels(GetPageMethod(config).kind.params);
    assert pageLabels == ["response", "page"];
    assert pageLabels[1..] == ["page"];
    assert Join(pageLabels, ", ") == "response" + ", " + "page";
    Seqs.AppendAssocFour(config.instanceName + ".getPage<T>", "(", Join(pageLabels, ", "), ")");
  }

  lemma {:induction false} GetNextPageName(config: S.Config)
    ensures GetNextPageMethod(config).name == config.instanceName + ".getNextPage<T>(response)"
  {
    ResponseOnlyLabel(config, "Response to get the next page of");
  }

  lemma {:induction false} GetPreviousPageName(config: S.Config)
    ensures GetPreviousPageMethod(config).name == config.instanceName + ".getPreviousPage<T>(response)"
  {
    ResponseOnlyLabel(config, "Response to get the previous page of");
  }

  lemma {:induction false} GetAllPagesName(config: S.Config)
    ensures GetAllPagesMethod(config).name == config.instanceName + ".getAllPages<T>(response)"
  {
    ResponseOnlyLabel(config, "Response to get all pages of");
  }

  lemma {:induction false} CheckCompatibilityName(config: S.Config)
    ensures CheckCompatibilityMethod(config).name == config.instanceName + ".checkCompatibility()"
  {
  }

  lemma {:induction false} ResponseOnlyLabel(config: S.Config, description: string)
    ensures ParamsString([ResponseParameter(config, description)]) == "response"
  {
    assert ParamLabels([ResponseParameter(config, description)]) == ["response"];
  }

  /** The doc tree: the main class, then the main namespace. */
  datatype DocTree = DocTree(groups: seq<Entry>)

  /** A key for sorting by display name. */
  function DisplayKey(e: Entry): string { e.DisplayName() }

  /** The main class of the doc tree: the fixed methods, then the operation methods sorted by display name. */
  function MainClass(config: S.Config, models: seq<S.Model>, entries: seq<(string, S.Entry)>, pkgDescription: string,
                     before: (string, string) -> bool): Entry {
    NewGroup(config.name, Class, pkgDescription,
      FixedMethods(config) + Sorting.SortBy(OperationMethods(config, models, AllOperations(entries)), DisplayKey, before))
  }

  /** The main namespace of the doc tree: the model interfaces and the global groups, sorted by display name. */
  function MainNamespace(config: S.Config, models: seq<S.Model>, pkgDescription: string,
                         before: (string, string) -> bool): Entry {
    NewGroup(config.name, Namespace, pkgDescription,
      Sorting.SortBy(ModelGroups(config, models) + GlobalGroups(config), DisplayKey, before))
  }

  /**
   * `generateDocSchema`: prefixes model types in place, then builds the doc tree from the
   * prefixed models. `before` stands for the `localeCompare` order of display names.
   */
  method GenerateDocSchema(schema: GenUtil.SchemaObject, config: S.Config, pkgDescription: string,
                           before: (string, string) -> bool)
    returns (doc: DocTree)
    modifies schema
    ensures schema.models == GenUtil.ReplacedModels(old(schema.models), config)
    ensures schema.operations == old(schema.operations)
    ensures doc == DocTree([MainClass(config, schema.models, schema.operations, pkgDescription, before),
                            MainNamespace(config, schema.models, pkgDescription, before)])
  {
    var _ := GenUtil.ReplaceModelTypes(schema, config);
    doc := BuildDocTree(config, schema.models, schema.operations, pkgDescription, before);
  }

  /** The groups of `generateDocSchema`, built from the (already prefixed) models and the operations. */
  method BuildDocTree(config: S.Config, models: seq<S.Model>, entries: seq<(string, S.Entry)>, pkgDescription: string,
                      before: (string, string) -> bool)
    returns (doc: DocTree)
    ensures doc == DocTree([MainClass(config, models, entries, pkgDescription, before),
                            MainNamespace(config, models, pkgDescription, before)])
  {
    var namespaceProperties := CollectModelGroups(config, models);
    namespaceProperties := namespaceProperties + GlobalGroups(config);
    var operations := CollectOperations(entries);
    var classProperties := OperationMethods(config, models, operations);
    classProperties := Sorting.SortBy(classProperties, DisplayKey, before);
    classProperties := FixedMethods(config) + classProperties;
    namespaceProperties := Sorting.SortBy(namespaceProperties, DisplayKey, before);
    doc := DocTree([
      NewGroup(config.name, Class, pkgDescription, classProperties),
      NewGroup(config.name, Namespace, pkgDescription, namespaceProperties)]);
  }

  /** The model loop of `generateDocSchema`: one interface per model, in model order. */
  method CollectModelGroups(config: S.Config, models: seq<S.Model>) returns (groups: seq<Entry>)
    ensures groups == ModelGroups(config, models)
  {
    groups := [];
    for i := 0 to |models|
      invariant groups == ModelGroups(config, models[..i])
    {
      ModelGroupsAppend(config, models[..i], models[i]);
      Seqs.TakeNext(models, i);
      groups := groups + [ModelGroup(config, models[i])];
    }
    Seqs.TakeAll(models);
  }

  lemma {:induction false} ModelGroupsAppend(config: S.Config, ms: seq<S.Model>, m: S.Model)
    ensures ModelGroups(config, ms + [m]) == ModelGroups(config, ms) + [ModelGroup(config, m)]
  {
    if ms == [] {
      assert ms + [m] == [m];
    } else {
      assert (ms + [m])[0] == ms[0] && (ms + [m])[1..] == ms[1..] + [m];
      ModelGroupsAppend(config, ms[1..], m);
    }
  }

  /** The operation loop of `generateDocSchema`, pushing top-level and namespaced operations in order. */
  method CollectOperations(entries: seq<(string, S.Entry)>) returns (operations: seq<(string, S.Operation)>)
    ensures operations == AllOperations(entries)
    ensures |operations| == OperationCount(entries)
  {
    operations := [];
    for i := 0 to |entries|
      invariant operations == AllOperations(entries[..i])
    {
      var pushed := CollectEntry(entries[i]);
      operations := operations + pushed;
      AllOperationsStep(entries, i);
    }
    Seqs.TakeAll(entries);
    AllOperationsCount(entries);
  }

  /** The operations one entry contributes: the operation itself, or each sub-operation of the namespace. */
  method CollectEntry(e: (string, S.Entry)) returns (pushed: seq<(string, S.Operation)>)
    ensures pushed == EntryOperations(e)
  {
    match e.1 {
      case OperationEntry(op) =>
        pushed := [(e.0, op)];
      case NamespaceEntry(ops) =>
        pushed := [];
        for j := 0 to |ops|
          invariant pushed == Qualified(e.0, ops[..j])
        {
          QualifiedAppend(e.0, ops[..j], ops[j]);
          Seqs.TakeNext(ops, j);
          pushed := pushed + [(e.0 + "." + ops[j].0, ops[j].1)];
        }
        Seqs.TakeAll(ops);
    }
  }

  lemma {:induction false} QualifiedAppend(ns: string, ops: seq<(string, S.Operation)>, o: (string, S.Operation))
    ensures Qualified(ns, ops + [o]) == Qualified(ns, ops) + [(ns + "." + o.0, o.1)]
  {
    if ops == [] {
      assert ops + [o] == [o];
    } else {
      assert (ops + [o])[0] == ops[0] && (ops + [o])[1..] == ops[1..] + [o];
      QualifiedAppend(ns, ops[1..], o);
    }
  }

  lemma {:induction false} AllOperationsStep(entries: seq<(string, S.Entry)>, i: nat)
    requires i < |entries|
    ensures AllOperations(entries[..i + 1]) == AllOperations(entries[..i]) + EntryOperations(entries[i])
  {
    AllOperationsAppend(entries[..i], [entries[i]]);
    Seqs.TakeNext(entries, i);
    assert AllOperations([entries[i]]) == EntryOperations(entries[i]) + AllOperations([]);
  }

  /**
   * The doc tree has two groups: the main class, whose first six entries are the fixed
   * methods and whose remaining entries are a permutation of the operation methods, one per
   * operation, and the main namespace, a permutation of the model interfaces and the four
   * global groups. Under a total order both are sorted by display name (`Sorting.SortBySorted`).
   */
  lemma {:induction false} DocTreeShape(models: seq<S.Model>, entries: seq<(string, S.Entry)>, config: S.Config,
                     before: (string, string) -> bool)
    ensures var ops := OperationMethods(config, models, AllOperations(entries));
      var cls := FixedMethods(config) + Sorting.SortBy(ops, DisplayKey, before);
      && cls[..6] == FixedMethods(config)
      && |cls| == 6 + OperationCount(entries)
      && multiset(cls[6..]) == multiset(ops)
      && (Sorting.TotalPreorder(before) ==> Sorting.SortedBy(cls[6..], DisplayKey, before))
    ensures var groups := ModelGroups(config, models) + GlobalGroups(config);
      var ns := Sorting.SortBy(groups, DisplayKey, before);
      && |ns| == |models| + 4
      && multiset(ns) == multiset(groups)
      && (Sorting.TotalPreorder(before) ==> Sorting.SortedBy(ns, DisplayKey, before))
  {
    var ops := OperationMethods(config, models, AllOperations(entries));
    AllOperationsCount(entries);
    SortedAfter(FixedMethods(config), ops, before);
    var groups := ModelGroups(config, models) + GlobalGroups(config);
    if Sorting.TotalPreorder(before) {
      Sorting.SortBySorted(ops, DisplayKey, before);
      Sorting.SortBySorted(groups, DisplayKey, before);
    }
  }

  /** A fixed prefix followed by a sorted list: the prefix stays in front and the rest is a permutation. */
  lemma SortedAfter(fixed: seq<Entry>, ops: seq<Entry>, before: (string, string) -> bool)
    ensures var cls := fixed + Sorting.SortBy(ops, DisplayKey, before);
      && cls[..|fixed|] == fixed
      && |cls| == |fixed| + |ops|
      && multiset(cls[|fixed|..]) == multiset(ops)
      && cls[|fixed|..] == Sorting.SortBy(ops, DisplayKey, before)
  {
    Seqs.AppendSlices(fixed, Sorting.SortBy(ops, DisplayKey, before));
  }

  /*
   * The markdown document is specified as the sequence of pieces the generator appends,
   * one per `+=`; the document is their concatenation.
   */

  /** The link line of one group in the table of contents. */
  function TocLine(g: Entry): string {
    " - [" + g.DisplayName() + "](#" + g.AnchorName() + ")\n"
  }

  function TocPieces(groups: seq<Entry>): (r: seq<string>)
    ensures |r| == 3 * |groups|
  {
    if groups == [] then [] else [TocLine(groups[0]), PropertiesList(groups[0], 3), "\n\n"] + TocPieces(groups[1..])
  }

  /** The anchor placed before the heading of a group or a property. */
  function AnchorLine(e: Entry): string {
    "<a name=\"" + e.AnchorName() + "\"></a>\n\n"
  }

  function GroupHeading(g: Entry): string {
    "## " + g.DisplayName() + "\n\n"
  }

  function PropertyHeading(p: Entry): string {
    "### " + p.DisplayName() + "\n\n"
  }

  function PropertyPieces(ps: seq<Entry>, content: Entry -> string): (r: seq<string>)
    ensures |r| == 4 * |ps|
  {
    if ps == [] then [] else [AnchorLine(ps[0]), PropertyHeading(ps[0]), content(ps[0]), "\n\n"] + PropertyPieces(ps[1..], content)
  }

  function GroupPieces(g: Entry, content: Entry -> string): seq<string> {
    [AnchorLine(g), GroupHeading(g), g.description, "\n\n"] + PropertyPieces(g.Properties(), content) + ["\n\n"]
  }

  function GroupsPieces(groups: seq<Entry>, content: Entry -> string): seq<string> {
    if groups == [] then [] else GroupPieces(groups[0], content) + GroupsPieces(groups[1..], content)
  }

  const DocumentTitle := "# Documentation\n\n"
  const DetailsOpen := "<details open>"
  const TocSummary := "  <summary>Table of contents</summary>\n\n"
  const DetailsClose := "</details>\n\n"

  function MarkdownPieces(groups: seq<Entry>, tableOfContents: bool, content: Entry -> string): seq<string> {
    [DocumentTitle]
    + (if tableOfContents then [DetailsOpen, TocSummary, Concat(TocPieces(groups)), DetailsClose] else [])
    + GroupsPieces(groups, content)
  }

  /** The document `generateMarkdownDocs` produces. */
  function Markdown(groups: seq<Entry>, tableOfContents: bool, content: Entry -> string): string {
    Concat(MarkdownPieces(groups, tableOfContents, content))
  }

  lemma {:induction false} TocPiecesAppend(groups: seq<Entry>, g: Entry)
    ensures TocPieces(groups + [g]) == TocPieces(groups) + [TocLine(g), PropertiesList(g, 3), "\n\n"]
  {
    if groups == [] {
      assert groups + [g] == [g];
    } else {
      assert (groups + [g])[0] == groups[0] && (groups + [g])[1..] == groups[1..] + [g];
      TocPiecesAppend(groups[1..], g);
    }
  }

  lemma {:induction false} PropertyPiecesAppend(ps: seq<Entry>, p: Entry, content: Entry -> string)
    ensures PropertyPieces(ps + [p], content) == PropertyPieces(ps, content) + [AnchorLine(p), PropertyHeading(p), content(p), "\n\n"]
  {
    if ps == [] {
      assert ps + [p] == [p];
    } else {
      assert (ps + [p])[0] == ps[0] && (ps + [p])[1..] == ps[1..] + [p];
      PropertyPiecesAppend(ps[1..], p, content);
    }
  }

  lemma {:induction false} GroupsPiecesAppend(groups: seq<Entry>, g: Entry, content: Entry -> string)
    ensures GroupsPieces(groups + [g], content) == GroupsPieces(groups, content) + GroupPieces(g, content)
  {
    if groups == [] {
      assert groups + [g] == [g];
    } else {
      assert (groups + [g])[0] == groups[0] && (groups + [g])[1..] == groups[1..] + [g];
      GroupsPiecesAppend(groups[1..], g, content);
    }
  }

  /** One step of the table-of-contents loop, in the order the loop appends its pieces. */
  lemma {:induction false} TocStep(groups: seq<Entry>, i: nat)
    requires i < |groups|
    ensures TocPieces(groups[..i + 1]) == TocPieces(groups[..i]) + [TocLine(groups[i])] + [PropertiesList(groups[i], 3)] + ["\n\n"]
  {
    Seqs.TakeNext(groups, i);
    TocPiecesAppend(groups[..i], groups[i]);
    Seqs.AppendThree(TocPieces(groups[..i]), TocLine(groups[i]), PropertiesList(groups[i], 3), "\n\n");
  }

  /** One step of the property loop of a section, in the order the loop appends its pieces. */
  lemma {:induction false} PropertyStep(ps: seq<Entry>, j: nat, content: Entry -> string)
    requires j < |ps|
    ensures PropertyPieces(ps[..j + 1], content)
      == PropertyPieces(ps[..j], content) + [AnchorLine(ps[j])] + [PropertyHeading(ps[j])] + [content(ps[j])] + ["\n\n"]
  {
    Seqs.TakeNext(ps, j);
    PropertyPiecesAppend(ps[..j], ps[j], content);
    Seqs.AppendFour(PropertyPieces(ps[..j], content), AnchorLine(ps[j]), PropertyHeading(ps[j]), content(ps[j]), "\n\n");
  }

  /** One step of the section loop. */
  lemma {:induction false} GroupsStep(groups: seq<Entry>, i: nat, content: Entry -> string)
    requires i < |groups|
    ensures GroupsPieces(groups[..i + 1], content) == GroupsPieces(groups[..i], content) + GroupPieces(groups[i], content)
  {
    Seqs.TakeNext(groups, i);
    GroupsPiecesAppend(groups[..i], groups[i], content);
  }

  /** Appending a piece to the output: the output stays the concatenation of the pieces. */
  method Append(output: string, ghost pieces: seq<string>, piece: string) returns (output': string, ghost pieces': seq<string>)
    requires output == Concat(pieces)
    ensures pieces' == pieces + [piece] && output' == Concat(pieces')
    ensures output' == output + piece
  {
    output' := output + piece;
    pieces' := pieces + [piece];
    ConcatAppend(pieces, piece);
  }

  /**
   * `generateMarkdownDocs`: accumulates the title, the optional table of contents, then
   * each group's section. `content` stands for the entry's `content(config, schema)` text.
   */
  method GenerateMarkdownDocs(doc: DocTree, tableOfContents: bool, content: Entry -> string) returns (output: string)
    ensures output == Markdown(doc.groups, tableOfContents, content)
  {
    ghost var pieces: seq<string> := [];
    output, pieces := Append("", pieces, DocumentTitle);
    assert pieces == [DocumentTitle];
    if tableOfContents {
      var toc := TableOfContents(doc.groups);
      output, pieces := Append(output, pieces, DetailsOpen);
      output, pieces := Append(output, pieces, TocSummary);
      output, pieces := Append(output, pieces, toc);
      output, pieces := Append(output, pieces, DetailsClose);
      Seqs.AppendFour([DocumentTitle], DetailsOpen, TocSummary, toc, DetailsClose);
    }
    ghost var front := pieces;
    assert front == [DocumentTitle] + (if tableOfContents then [DetailsOpen, TocSummary, Concat(TocPieces(doc.groups)), DetailsClose] else []);
    for i := 0 to |doc.groups|
      invariant pieces == front + GroupsPieces(doc.groups[..i], content) && output == Concat(pieces)
    {
      Seqs.AppendAssoc(front, GroupsPieces(doc.groups[..i], content), GroupPieces(doc.groups[i], content));
      output, pieces := AppendGroupSection(output, pieces, doc.groups[i], content);
      GroupsStep(doc.groups, i, content);
    }
    Seqs.TakeAll(doc.groups);
  }

  /** The table-of-contents loop: per group its link line, its property list and a blank line. */
  method TableOfContents(groups: seq<Entry>) returns (toc: string)
    ensures toc == Concat(TocPieces(groups))
  {
    toc := "";
    ghost var tocPieces: seq<string> := [];
    for i := 0 to |groups|
      invariant tocPieces == TocPieces(groups[..i]) && toc == Concat(tocPieces)
    {
      var group := groups[i];
      toc, tocPieces := Append(toc, tocPieces, TocLine(group));
      toc, tocPieces := Append(toc, tocPieces, PropertiesList(group, 3));
      toc, tocPieces := Append(toc, tocPieces, "\n\n");
      TocStep(groups, i);
    }
    Seqs.TakeAll(groups);
  }

  /** The body of the section loop: a group's anchor, heading, description, its properties and a blank line. */
  method AppendGroupSection(output: string, ghost pieces: seq<string>, group: Entry, content: Entry -> string)
    returns (output': string, ghost pieces': seq<string>)
    requires output == Concat(pieces)
    ensures pieces' == pieces + GroupPieces(group, content) && output' == Concat(pieces')
  {
    output', pieces' := Append(output, pieces, AnchorLine(group));
    output', pieces' := Append(output', pieces', GroupHeading(group));
    output', pieces' := Append(output', pieces', group.description);
    output', pieces' := Append(output', pieces', "\n\n");
    ghost var sectionStart := pieces';
    var properties := group.Properties();
    for j := 0 to |properties|
      invariant pieces' == sectionStart + PropertyPieces(properties[..j], content) && output' == Concat(pieces')
    {
      var property := properties[j];
      Seqs.AppendFourAssoc(sectionStart, PropertyPieces(properties[..j], content),
                           AnchorLine(property), PropertyHeading(property), content(property), "\n\n");
      output', pieces' := Append(output', pieces', AnchorLine(property));
      output', pieces' := Append(output', pieces', PropertyHeading(property));
      output', pieces' := Append(output', pieces', content(property));
      output', pieces' := Append(output', pieces', "\n\n");
      PropertyStep(properties, j, content);
    }
    Seqs.TakeAll(properties);
    output', pieces' := Append(output', pieces', "\n\n");
    Seqs.Regroup(pieces, AnchorLine(group), GroupHeading(group), group.description, "\n\n", PropertyPieces(properties, content), "\n\n");
  }

  /** The document starts with its title; without a table of contents the group sections follow it directly. */
  lemma {:induction false} MarkdownStart(groups: seq<Entry>, tableOfContents: bool, content: Entry -> string)
    ensures StartsWith(Markdown(groups, tableOfContents, content), "# Documentation\n\n")
    ensures !tableOfContents ==> Markdown(groups, tableOfContents, content) == DocumentTitle + Concat(GroupsPieces(groups, content))
  {
    var ps := MarkdownPieces(groups, tableOfContents, content);
    var md := Concat(ps);
    assert md == DocumentTitle + Concat(ps[1..]);
    assert md[..|DocumentTitle|] == DocumentTitle;
    if !tableOfContents {
      assert ps[1..] == GroupsPieces(groups, content);
    }
  }

  /** With a table of contents, each group's link line and property list are in the document. */
  lemma {:induction false} MarkdownHasTableOfContents(groups: seq<Entry>, content: Entry -> string, g: Entry)
    requires g in groups
    ensures Contains(Markdown(groups, true, content), TocLine(g))
    ensures Contains(Markdown(groups, true, content), PropertiesList(g, 3))
  {
    TocPiecesMembers(groups, g);
    ConcatContainsMember(TocPieces(groups), TocLine(g));
    ConcatContainsMember(TocPieces(groups), PropertiesList(g, 3));
    var ps := MarkdownPieces(groups, true, content);
    assert ps[3] == Concat(TocPieces(groups));
    ConcatContainsEach(ps, 3);
    ContainsTransitive(Concat(ps), Concat(TocPieces(groups)), TocLine(g));
    ContainsTransitive(Concat(ps), Concat(TocPieces(groups)), PropertiesList(g, 3));
  }

  lemma {:induction false} TocPiecesMembers(groups: seq<Entry>, g: Entry)
    requires g in groups
    ensures TocLine(g) in TocPieces(groups) && PropertiesList(g, 3) in TocPieces(groups)
  {
    if groups[0] != g {
      TocPiecesMembers(groups[1..], g);
    }
  }

  /** The pieces of a property are among the pieces of any property list holding it. */
  lemma {:induction false} PropertyPiecesMembers(ps: seq<Entry>, p: Entry, content: Entry -> string)
    requires p in ps
    ensures AnchorLine(p) in PropertyPieces(ps, content)
    ensures PropertyHeading(p) in PropertyPieces(ps, content)
    ensures content(p) in PropertyPieces(ps, content)
  {
    if ps[0] != p {
      PropertyPiecesMembers(ps[1..], p, content);
    }
  }

  /** The pieces of a group are among the pieces of any group list holding it. */
  lemma {:induction false} GroupsPiecesMembers(groups: seq<Entry>, g: Entry, x: string, content: Entry -> string)
    requires g in groups && x in GroupPieces(g, content)
    ensures x in GroupsPieces(groups, content)
  {
    if groups[0] != g {
      GroupsPiecesMembers(groups[1..], g, x, content);
    }
  }

  /**
   * Every group's anchor and heading are in the document, and so are the anchor, the
   * heading and the content of each of its properties.
   */
  lemma {:induction false} MarkdownHasSections(groups: seq<Entry>, tableOfContents: bool, content: Entry -> string, g: Entry)
    requires g in groups
    ensures Contains(Markdown(groups, tableOfContents, content), AnchorLine(g))
    ensures Contains(Markdown(groups, tableOfContents, content), GroupHeading(g))
    ensures forall p | p in g.Properties() ::
      && Contains(Markdown(groups, tableOfContents, content), AnchorLine(p))
      && Contains(Markdown(groups, tableOfContents, content), PropertyHeading(p))
      && Contains(Markdown(groups, tableOfContents, content), content(p))
  {
    var ps := MarkdownPieces(groups, tableOfContents, content);
    var front := [DocumentTitle] + (if tableOfContents then [DetailsOpen, TocSummary, Concat(TocPieces(groups)), DetailsClose] else []);
    assert ps == front + GroupsPieces(groups, content);
    var gp := GroupPieces(g, content);
    assert gp[0] == AnchorLine(g) && gp[1] == GroupHeading(g);
    GroupsPiecesMembers(groups, g, AnchorLine(g), content);
    GroupsPiecesMembers(groups, g, GroupHeading(g), content);
    ConcatContainsMember(ps, AnchorLine(g));
    ConcatContainsMember(ps, GroupHeading(g));
    forall p | p in g.Properties()
      ensures Contains(Concat(ps), AnchorLine(p)) && Contains(Concat(ps), PropertyHeading(p)) && Contains(Concat(ps), content(p))
    {
      PropertyPiecesMembers(g.Properties(), p, content);
      var head := [AnchorLine(g), GroupHeading(g), g.description, "\n\n"];
      assert gp == head + PropertyPieces(g.Properties(), content) + ["\n\n"];
      GroupsPiecesMembers(groups, g, AnchorLine(p), content);
      GroupsPiecesMembers(groups, g, PropertyHeading(p), content);
      GroupsPiecesMembers(groups, g, content(p), content);
      ConcatContainsMember(ps, AnchorLine(p));
      ConcatContainsMember(ps, PropertyHeading(p));
      ConcatContainsMember(ps, content(p));
    }
  }
}
