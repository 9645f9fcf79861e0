/**
 * Schema post-processing of the generator (gen/util.ts): splitting the declared
 * responses into a return type and a throws list, adding the standard error
 * responses, and prefixing field types that name a model.
 */
module GenUtil {
  import opened Wrappers
  import opened Strings
  import opened ApiSchema

  /** A response with a 2xx status is a return; every other one is thrown. */
  predicate IsSuccess(r: Return) { 200 <= r.status < 300 }

  /** The 2xx responses, in declared order. */
  function SuccessReturns(rs: seq<Return>): (out: seq<Return>)
    ensures forall i :: 0 <= i < |out| ==> IsSuccess(out[i])
  {
    if rs == [] then []
    else (if IsSuccess(rs[0]) then [rs[0]] else []) + SuccessReturns(rs[1..])
  }

  /** The non-2xx responses, in declared order. */
  function FailureReturns(rs: seq<Return>): (out: seq<Return>)
    ensures forall i :: 0 <= i < |out| ==> !IsSuccess(out[i])
  {
    if rs == [] then []
    else (if IsSuccess(rs[0]) then [] else [rs[0]]) + FailureReturns(rs[1..])
  }

  /** Both filters keep declared order: filtering a concatenation filters each part. */
  lemma {:induction false} FiltersDistribute(a: seq<Return>, b: seq<Return>)
    ensures SuccessReturns(a + b) == SuccessReturns(a) + SuccessReturns(b)
    ensures FailureReturns(a + b) == FailureReturns(a) + FailureReturns(b)
  {
    if a == [] {
      assert a + b == b;
    } else {
      var ab := a + b;
      assert ab[0] == a[0] && ab[1..] == a[1..] + b;
      FiltersDistribute(a[1..], b);
      var hs := if IsSuccess(a[0]) then [a[0]] else [];
      var hf := if IsSuccess(a[0]) then [] else [a[0]];
      calc {
        SuccessReturns(ab);
        hs + SuccessReturns(a[1..] + b);
        hs + (SuccessReturns(a[1..]) + SuccessReturns(b));
        (hs + SuccessReturns(a[1..])) + SuccessReturns(b);
      }
      calc {
        FailureReturns(ab);
        hf + FailureReturns(a[1..] + b);
        hf + (FailureReturns(a[1..]) + FailureReturns(b));
        (hf + FailureReturns(a[1..])) + FailureReturns(b);
      }
    }
  }

  /** The return type and the throws list split the responses between them: nothing lost, nothing shared. */
  lemma {:induction false} ReturnsPartition(rs: seq<Return>)
    ensures |SuccessReturns(rs)| + |FailureReturns(rs)| == |rs|
    ensures multiset(SuccessReturns(rs)) + multiset(FailureReturns(rs)) == multiset(rs)
  {
    if rs != [] {
      ReturnsPartition(rs[1..]);
      assert rs == [rs[0]] + rs[1..];
    }
  }

  /** `config.name + "." + t`: a type name qualified by the main class. */
  function Qualify(config: Config, t: string): string { config.name + "." + t }

  /** The type of one 2xx response as the generated signature writes it. */
  function ReturnTypeName(r: Return, models: seq<Model>, config: Config): string {
    if EndsWith(r.typ, "[]") then
      config.name + ".PaginatedData<"
        + (if IsModelName(models, r.typ[..|r.typ| - 2]) then Qualify(config, r.typ) else r.typ)
        + ">"
    else if IsModelName(models, r.typ) then Qualify(config, r.typ)
    else r.typ
  }

  function ReturnTypeNames(rs: seq<Return>, models: seq<Model>, config: Config): (out: seq<string>)
    ensures |out| == |rs|
    ensures forall i :: 0 <= i < |rs| ==> out[i] == ReturnTypeName(rs[i], models, config)
  {
    if rs == [] then [] else [ReturnTypeName(rs[0], models, config)] + ReturnTypeNames(rs[1..], models, config)
  }

  /** `getReturnType`: the 2xx response types, in order, joined by " | ". */
  function GetReturnType(op: Operation, models: seq<Model>, config: Config): string {
    Join(ReturnTypeNames(SuccessReturns(op.responses), models, config), " | ")
  }

  /** A list response of a model is a qualified paginated type; a model is qualified; anything else is kept. */
  lemma ReturnTypeNameCases(r: Return, models: seq<Model>, config: Config)
    ensures !EndsWith(r.typ, "[]") && !IsModelName(models, r.typ) ==> ReturnTypeName(r, models, config) == r.typ
    ensures !EndsWith(r.typ, "[]") && IsModelName(models, r.typ) ==> ReturnTypeName(r, models, config) == config.name + "." + r.typ
    ensures EndsWith(r.typ, "[]") ==>
      StartsWith(ReturnTypeName(r, models, config), config.name + ".PaginatedData<")
      && EndsWith(ReturnTypeName(r, models, config), ">")
  {
    if EndsWith(r.typ, "[]") {
      var inner := if IsModelName(models, r.typ[..|r.typ| - 2]) then Qualify(config, r.typ) else r.typ;
      var out := config.name + ".PaginatedData<" + inner + ">";
      assert out[..|config.name + ".PaginatedData<"|] == config.name + ".PaginatedData<";
    }
  }

  /** One 2xx response among failures gives exactly its own type; the failures play no part. */
  lemma SingleReturnType(op: Operation, models: seq<Model>, config: Config, k: nat)
    requires k < |op.responses| && IsSuccess(op.responses[k])
    requires forall i :: 0 <= i < |op.responses| && i != k ==> !IsSuccess(op.responses[i])
    ensures GetReturnType(op, models, config) == ReturnTypeName(op.responses[k], models, config)
  {
    var rs := op.responses;
    assert rs == rs[..k] + [rs[k]] + rs[k + 1..];
    FiltersDistribute(rs[..k] + [rs[k]], rs[k + 1..]);
    FiltersDistribute(rs[..k], [rs[k]]);
    NoSuccess(rs[..k]);
    NoSuccess(rs[k + 1..]);
  }

  lemma {:induction false} NoSuccess(rs: seq<Return>)
    requires forall i :: 0 <= i < |rs| ==> !IsSuccess(rs[i])
    ensures SuccessReturns(rs) == []
  {
    if rs != [] {
      NoSuccess(rs[1..]);
    }
  }

  function Descriptions(rs: seq<Return>): (out: seq<string>)
    ensures |out| <= |rs|
    ensures forall i :: 0 <= i < |out| ==> out[i] != ""
  {
    if rs == [] then []
    else if IsSuccess(rs[0]) && rs[0].description.Some? && rs[0].description.value != "" then
      [rs[0].description.value] + Descriptions(rs[1..])
    else Descriptions(rs[1..])
  }

  /** `getReturnDescription`: the non-empty descriptions of 2xx responses joined by one space. */
  function GetReturnDescription(op: Operation): string {
    Join(Descriptions(op.responses), " ")
  }

  /** Failure responses and empty descriptions never contribute to the description. */
  lemma {:induction false} DescriptionsIgnoreFailures(rs: seq<Return>, r: Return)
    requires !IsSuccess(r) || r.description == None || r.description == Some("")
    ensures Descriptions(rs + [r]) == Descriptions(rs)
    ensures Descriptions([r] + rs) == Descriptions(rs)
  {
    assert ([r] + rs)[1..] == rs;
    if rs == [] {
      assert rs + [r] == [r];
    } else {
      assert (rs + [r])[0] == rs[0] && (rs + [r])[1..] == rs[1..] + [r];
      DescriptionsIgnoreFailures(rs[1..], r);
    }
  }

  /** The type of one thrown response: qualified iff its first space-separated word is a model. */
  function ThrowTypeName(r: Return, models: seq<Model>, config: Config): string {
    if IsModelName(models, Split(r.typ, ' ')[0]) then Qualify(config, r.typ) else r.typ
  }

  function ThrowTypeNames(rs: seq<Return>, models: seq<Model>, config: Config): (out: seq<string>)
    ensures |out| == |rs|
    ensures forall i :: 0 <= i < |rs| ==> out[i] == ThrowTypeName(rs[i], models, config)
  {
    if rs == [] then [] else [ThrowTypeName(rs[0], models, config)] + ThrowTypeNames(rs[1..], models, config)
  }

  /** `getThrows`: one entry per non-2xx response, in order. */
  function GetThrows(op: Operation, models: seq<Model>, config: Config): (out: seq<string>)
    ensures |out| == |FailureReturns(op.responses)|
    ensures forall i :: 0 <= i < |out| ==> out[i] == ThrowTypeName(FailureReturns(op.responses)[i], models, config)
  {
    ThrowTypeNames(FailureReturns(op.responses), models, config)
  }

  /** The error type "Error & {...}" is qualified exactly when "Error" is a model. */
  lemma ThrowTypeOfIntersection(word: string, rest: string, models: seq<Model>, config: Config)
    requires ' ' !in word
    ensures ThrowTypeName(Return(0, word + " " + rest, None), models, config)
         == if IsModelName(models, word) then config.name + "." + word + " " + rest else word + " " + rest
  {
    SplitCons(word, ' ', rest);
  }

  /** The responses added to every operation; 401 and 403 only when a token is declared. */
  function ExtraReturns(token: TokenScope): (extra: seq<Return>)
    ensures |extra| == if token.Declared() then 5 else 3
  {
    (if token.Declared() then
      [Return(401, "Error & {code: \"UNAUTHORIZED\"}", None),
       Return(403, "Error & {code: \"NO_PERMISSION\"}", None)]
    else [])
    + [Return(429, "Error & {code: \"RATE_LIMITED\"}", None),
       Return(500, "Error & {code: \"INTERNAL_SERVER_ERROR\"}", None),
       Return(503, "Error & {code: \"MAINTENANCE\"}", None)]
  }

  /** `addExtraReturnsToOperation`: the declared responses stay as a prefix, the standard ones follow. */
  function AddExtraReturnsToOperation(op: Operation): (r: Operation)
    ensures |r.responses| == |op.responses| + (if op.token.Declared() then 5 else 3)
    ensures r.responses[..|op.responses|] == op.responses
    ensures r.(responses := op.responses) == op
  {
    op.(responses := op.responses + ExtraReturns(op.token))
  }

  /** The extra responses are all failures, so the return type and description of an operation do not change. */
  lemma {:induction false} ExtraReturnsKeepReturnType(op: Operation, models: seq<Model>, config: Config)
    ensures GetReturnType(AddExtraReturnsToOperation(op), models, config) == GetReturnType(op, models, config)
    ensures GetReturnDescription(AddExtraReturnsToOperation(op)) == GetReturnDescription(op)
    ensures FailureReturns(AddExtraReturnsToOperation(op).responses)
         == FailureReturns(op.responses) + ExtraReturns(op.token)
  {
    var extra := ExtraReturns(op.token);
    FiltersDistribute(op.responses, extra);
    NoSuccess(extra);
    assert SuccessReturns(op.responses + extra) == SuccessReturns(op.responses) + [];
    var op' := AddExtraReturnsToOperation(op);
    assert op'.responses == op.responses + extra;
    assert SuccessReturns(op'.responses) == SuccessReturns(op.responses);
    assert GetReturnType(op', models, config)
        == Join(ReturnTypeNames(SuccessReturns(op'.responses), models, config), " | ");
    ExtraFailures(extra);
    DescriptionsNoSuccess(op.responses, extra);
  }

  lemma {:induction false} ExtraFailures(rs: seq<Return>)
    requires forall i :: 0 <= i < |rs| ==> !IsSuccess(rs[i])
    ensures FailureReturns(rs) == rs
  {
    if rs != [] {
      ExtraFailures(rs[1..]);
      assert rs == [rs[0]] + rs[1..];
    }
  }

  lemma {:induction false} DescriptionsNoSuccess(rs: seq<Return>, extra: seq<Return>)
    requires forall i :: 0 <= i < |extra| ==> !IsSuccess(extra[i])
    ensures Descriptions(rs + extra) == Descriptions(rs)
    decreases |extra|
  {
    if extra == [] {
      assert rs + extra == rs;
    } else {
      var last := extra[|extra| - 1];
      var init := extra[..|extra| - 1];
      assert rs + extra == (rs + init) + [last];
      DescriptionsIgnoreFailures(rs + init, last);
      DescriptionsNoSuccess(rs, init);
    }
  }

  /** `addExtraReturns` on one top-level entry: an operation, or every operation of a namespace. */
  function ExtendEntry(e: Entry): (r: Entry)
    ensures r.OperationEntry? <==> e.OperationEntry?
    ensures e.NamespaceEntry? ==> Keys(r.operations) == Keys(e.operations)
  {
    match e
    case OperationEntry(op) => OperationEntry(AddExtraReturnsToOperation(op))
    case NamespaceEntry(ops) => NamespaceEntry(ExtendNamed(ops))
  }

  function ExtendNamed(ops: seq<(string, Operation)>): (r: seq<(string, Operation)>)
    ensures |r| == |ops|
    ensures forall i :: 0 <= i < |ops| ==> r[i] == (ops[i].0, AddExtraReturnsToOperation(ops[i].1))
  {
    if ops == [] then [] else [(ops[0].0, AddExtraReturnsToOperation(ops[0].1))] + ExtendNamed(ops[1..])
  }

  /**
   * The schema object, updated in place by `addExtraReturns` and `replaceModelTypes`,
   * which both hand back the same object.
   */
  class SchemaObject {
    var models: seq<Model>
    var operations: seq<(string, Entry)>

    constructor (s: Schema)
      ensures models == s.models && operations == s.operations
    {
      models := s.models;
      operations := s.operations;
    }

    function Value(): Schema
      reads this
    {
      Schema(models, operations)
    }
  }

  /**
   * `addExtraReturns`: every top-level operation and every operation one level inside a
   * namespace gets the standard error responses; keys, order and models are untouched.
   */
  method AddExtraReturns(schema: SchemaObject) returns (r: SchemaObject)
    modifies schema
    ensures r == schema
    ensures schema.models == old(schema.models)
    ensures |schema.operations| == |old(schema.operations)|
    ensures forall i :: 0 <= i < |schema.operations| ==>
      schema.operations[i] == (old(schema.operations)[i].0, ExtendEntry(old(schema.operations)[i].1))
  {
    var i := 0;
    while i < |schema.operations|
      invariant 0 <= i <= |schema.operations| == |old(schema.operations)|
      invariant schema.models == old(schema.models)
      invariant forall k :: 0 <= k < i ==>
        schema.operations[k] == (old(schema.operations)[k].0, ExtendEntry(old(schema.operations)[k].1))
      invariant forall k :: i <= k < |schema.operations| ==> schema.operations[k] == old(schema.operations)[k]
    {
      var (name, entry) := schema.operations[i];
      match entry {
        case NamespaceEntry(ops) =>
          var j := 0;
          var current := ops;
          while j < |current|
            invariant 0 <= j <= |current| == |ops|
            invariant forall k :: 0 <= k < j ==> current[k] == (ops[k].0, AddExtraReturnsToOperation(ops[k].1))
            invariant forall k :: j <= k < |current| ==> current[k] == ops[k]
          {
            current := current[j := (current[j].0, AddExtraReturnsToOperation(current[j].1))];
            j := j + 1;
          }
          assert current == ExtendNamed(ops);
          schema.operations := schema.operations[i := (name, NamespaceEntry(current))];
        case OperationEntry(op) =>
          schema.operations := schema.operations[i := (name, OperationEntry(AddExtraReturnsToOperation(op)))];
      }
      i := i + 1;
    }
    r := schema;
  }

  /** A field type that names a model gets the main class prefix. */
  function PrefixField(f: Field, models: seq<Model>, config: Config): Field {
    if IsModelName(models, f.typ) then f.(typ := Qualify(config, f.typ)) else f
  }

  function PrefixFields(fs: seq<Field>, models: seq<Model>, config: Config): (r: seq<Field>)
    ensures |r| == |fs|
    ensures forall i :: 0 <= i < |fs| ==> r[i] == PrefixField(fs[i], models, config)
  {
    if fs == [] then [] else [PrefixField(fs[0], models, config)] + PrefixFields(fs[1..], models, config)
  }

  /** The models after `replaceModelTypes`; model names are looked up in the models themselves. */
  function ReplacedModels(models: seq<Model>, config: Config): (r: seq<Model>)
    ensures |r| == |models|
    ensures forall i :: 0 <= i < |models| ==>
      r[i] == models[i].(fields := PrefixFields(models[i].fields, models, config))
  {
    seq(|models|, i requires 0 <= i < |models| => models[i].(fields := PrefixFields(models[i].fields, models, config)))
  }

  /** A field changes exactly when its type equals some model's name; nothing else about it changes. */
  lemma PrefixFieldExactly(f: Field, models: seq<Model>, config: Config)
    ensures PrefixField(f, models, config).name == f.name
    ensures PrefixField(f, models, config).description == f.description
    ensures PrefixField(f, models, config).typ != f.typ <==> IsModelName(models, f.typ)
    ensures IsModelName(models, f.typ) ==> PrefixField(f, models, config).typ == config.name + "." + f.typ
  {
    if IsModelName(models, f.typ) {
      assert |Qualify(config, f.typ)| > |f.typ|;
    }
  }

  /**
   * Applying the prefixing twice changes nothing more, provided no model name contains a
   * dot (a prefixed type always does, so it never names a model again).
   */
  lemma ReplaceModelTypesIdempotent(models: seq<Model>, config: Config)
    requires forall i :: 0 <= i < |models| ==> '.' !in models[i].name
    ensures ReplacedModels(ReplacedModels(models, config), config) == ReplacedModels(models, config)
  {
    var once := ReplacedModels(models, config);
    forall i | 0 <= i < |models|
      ensures PrefixFields(once[i].fields, once, config) == once[i].fields
    {
      var fs := once[i].fields;
      forall j | 0 <= j < |fs| ensures PrefixField(fs[j], once, config) == fs[j] {
        var orig := models[i].fields[j];
        if IsModelName(models, orig.typ) {
          assert fs[j].typ == config.name + "." + orig.typ;
          assert fs[j].typ[|config.name|] == '.';
        } else {
          assert fs[j] == orig;
        }
      }
    }
  }

  /**
   * `replaceModelTypes`: overwrites, in nested loops, every field type that equals a
   * model name with its prefixed form. The number of models and of fields is unchanged.
   */
  method ReplaceModelTypes(schema: SchemaObject, config: Config) returns (r: SchemaObject)
    modifies schema
    ensures r == schema
    ensures schema.operations == old(schema.operations)
    ensures schema.models == ReplacedModels(old(schema.models), config)
  {
    ghost var orig := schema.models;
    var modelId := 0;
    while modelId < |schema.models|
      invariant 0 <= modelId <= |schema.models| == |orig|
      invariant schema.operations == old(schema.operations)
      invariant forall k :: 0 <= k < |orig| ==> schema.models[k].name == orig[k].name
      invariant forall k :: 0 <= k < modelId ==> schema.models[k] == ReplacedModels(orig, config)[k]
      invariant forall k :: modelId <= k < |orig| ==> schema.models[k] == orig[k]
    {
      PrefixModelFields(schema, config, modelId, orig);
      modelId := modelId + 1;
    }
    r := schema;
  }

  /**
   * The inner loop of `replaceModelTypes`: every field of model `modelId` whose type equals a
   * model name is overwritten in place with the prefixed type. Model names are looked up in
   * the schema as it is, which has the same names as `orig`.
   */
  method PrefixModelFields(schema: SchemaObject, config: Config, modelId: nat, ghost orig: seq<Model>)
    requires modelId < |schema.models| == |orig| && schema.models[modelId] == orig[modelId]
    requires forall k :: 0 <= k < |orig| ==> schema.models[k].name == orig[k].name
    modifies schema
    ensures schema.operations == old(schema.operations)
    ensures |schema.models| == |orig|
    ensures forall k :: 0 <= k < |orig| && k != modelId ==> schema.models[k] == old(schema.models[k])
    ensures schema.models[modelId] == orig[modelId].(fields := PrefixFields(orig[modelId].fields, orig, config))
  {
    var model := schema.models[modelId];
    var fieldId := 0;
    while fieldId < |model.fields|
      invariant 0 <= fieldId <= |model.fields|
      invariant |schema.models| == |orig|
      invariant schema.operations == old(schema.operations)
      invariant forall k :: 0 <= k < |orig| && k != modelId ==> schema.models[k] == old(schema.models[k])
      invariant schema.models[modelId] == model.(fields := schema.models[modelId].fields)
      invariant |schema.models[modelId].fields| == |model.fields|
      invariant forall j :: 0 <= j < fieldId ==>
        schema.models[modelId].fields[j] == PrefixField(model.fields[j], orig, config)
      invariant forall j :: fieldId <= j < |model.fields| ==>
        schema.models[modelId].fields[j] == model.fields[j]
    {
      var field := schema.models[modelId].fields[fieldId];
      var isModel := exists k | 0 <= k < |schema.models| :: schema.models[k].name == field.typ;
      assert isModel == IsModelName(orig, field.typ) by {
        if isModel {
          var k :| 0 <= k < |schema.models| && schema.models[k].name == field.typ;
          assert orig[k].name == field.typ by {
            if k != modelId {
              assert schema.models[k] == old(schema.models[k]);
            }
          }
        }
        if IsModelName(orig, field.typ) {
          var k :| 0 <= k < |orig| && orig[k].name == field.typ;
          assert schema.models[k].name == field.typ by {
            if k != modelId {
              assert schema.models[k] == old(schema.models[k]);
            }
          }
        }
      }
      if isModel {
        var m := schema.models[modelId];
        var fields' := m.fields[fieldId := field.(typ := Qualify(config, field.typ))];
        schema.models := schema.models[modelId := m.(fields := fields')];
      }
      fieldId := fieldId + 1;
    }
    assert schema.models[modelId].fields == PrefixFields(model.fields, orig, config);
  }
}
