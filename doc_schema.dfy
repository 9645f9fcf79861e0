/**
 * The documentation tree (gen/DocSchema.ts): entries with a display name and an anchor
 * slug, methods whose name carries their parameter list, and groups that list their
 * properties as markdown links.
 */
module DocSchema {
  import opened Wrappers
  import opened Strings

  datatype GroupType = Class | Interface | Namespace | Enum {
    function Name(): string {
      match this
      case Class => "Class"
      case Interface => "Interface"
      case Namespace => "Namespace"
      case Enum => "Enum"
    }
  }

  /** A return or throws line of a method: a type and an optional description. */
  datatype DocReturn = DocReturn(typ: string, description: Option<string>)

  /** A method parameter (the `Parameter` entry): its name, type, description, flag and default. */
  datatype DocParameter = DocParameter(name: string, typ: string, description: string, required: bool, defaultValue: Option<string>) {
    /** `p.default` is truthy. */
    predicate HasDefault() { defaultValue.Some? && defaultValue.value != "" }
  }

  /** What distinguishes the entry classes: a property, a method or a group. */
  datatype Kind =
    | PropertyKind(readonly: bool)
    | MethodKind(params: seq<DocParameter>, returnDoc: Option<DocReturn>, throws: seq<DocReturn>,
                 mainClassName: Option<string>, isAsync: bool)
    | GroupKind(properties: seq<Entry>)

  /** An entry: the fields every entry class shares, and its kind. */
  datatype Entry = Entry(name: string, typ: string, typeName: Option<string>, isStatic: bool, description: string, kind: Kind) {

    /** `displayName`: the type name (when truthy), a colon and the name in backticks. */
    function DisplayName(): string {
      if typeName.Some? && typeName.value != "" then typeName.value + ": `" + name + "`" else "`" + name + "`"
    }

    /** `anchorName`: the slug of the display name. */
    function AnchorName(): string {
      Slug(DisplayName())
    }

    /** The properties of a group; other entries have none. */
    function Properties(): seq<Entry> {
      if kind.GroupKind? then kind.properties else []
    }
  }

  /**
   * The `typeName` the entry constructor computes: "Static method" / "Static property" for
   * static entries, else the type itself when always shown, else nothing.
   */
  function TypeNameFor(typ: string, isStatic: bool, alwaysTypeName: bool): (r: Option<string>)
    ensures isStatic ==> r == Some(if ToLower(typ) == "function" then "Static method" else "Static property")
    ensures !isStatic && alwaysTypeName ==> r == Some(typ)
    ensures !isStatic && !alwaysTypeName ==> r == None
  {
    if isStatic then
      var word := if ToLower(typ) == "function" then "method" else "property";
      assert "Static " + "method" == "Static method" && "Static " + "property" == "Static property";
      Some("Static " + word)
    else if alwaysTypeName then Some(typ)
    else None
  }

  /** The `Property` constructor. */
  function NewProperty(name: string, typ: string, description: string, isStatic: bool, readonly: bool): Entry {
    Entry(name, typ, TypeNameFor(typ, isStatic, false), isStatic, description, PropertyKind(readonly))
  }

  /** `paramsString`: names joined by ", ", optional or defaulted ones in square brackets. */
  function ParamsString(params: seq<DocParameter>): string {
    Join(ParamLabels(params), ", ")
  }

  function ParamLabel(p: DocParameter): string {
    if !p.required || p.HasDefault() then "[" + p.name + "]" else p.name
  }

  function ParamLabels(params: seq<DocParameter>): (r: seq<string>)
    ensures |r| == |params| && forall i :: 0 <= i < |params| ==> r[i] == ParamLabel(params[i])
  {
    if params == [] then [] else [ParamLabel(params[0])] + ParamLabels(params[1..])
  }

  /** A label is bracketed exactly when the parameter may be left out. */
  lemma ParamLabelBracketed(p: DocParameter)
    requires '[' !in p.name
    ensures StartsWith(ParamLabel(p), "[") <==> !p.required || p.HasDefault()
    ensures !p.required || p.HasDefault() ==> ParamLabel(p) == "[" + p.name + "]"
    ensures p.required && !p.HasDefault() ==> ParamLabel(p) == p.name
  {
    if p.required && !p.HasDefault() && |p.name| > 0 {
      assert p.name[0] in p.name;
    }
  }

  /**
   * The `Method` constructor: the type is "Function" and the name given is overwritten by
   * the name followed by the parameter list in parentheses.
   */
  function NewMethod(name: string, description: string, params: seq<DocParameter>, returnDoc: Option<DocReturn>,
                     throws: seq<DocReturn>, isStatic: bool, mainClassName: Option<string>, isAsync: bool): Entry {
    Entry(name + "(" + ParamsString(params) + ")", "Function", TypeNameFor("Function", isStatic, false), isStatic,
          description, MethodKind(params, returnDoc, throws, mainClassName, isAsync))
  }

  /** A method's name is the given name with its parameter list, and it is "Static method" when static. */
  lemma NewMethodShape(name: string, description: string, params: seq<DocParameter>, returnDoc: Option<DocReturn>,
                       throws: seq<DocReturn>, isStatic: bool, mainClassName: Option<string>, isAsync: bool)
    ensures var m := NewMethod(name, description, params, returnDoc, throws, isStatic, mainClassName, isAsync);
      && m.typ == "Function"
      && StartsWith(m.name, name + "(") && EndsWith(m.name, ")")
      && m.name[|name| + 1..|m.name| - 1] == ParamsString(params)
      && (isStatic ==> m.DisplayName() == "Static method: `" + m.name + "`")
      && (!isStatic ==> m.DisplayName() == "`" + m.name + "`")
  {
    var m := NewMethod(name, description, params, returnDoc, throws, isStatic, mainClassName, isAsync);
    assert m.name[..|name + "("|] == name + "(";
    assert m.name[|name| + 1..|m.name| - 1] == ParamsString(params);
    FunctionLowered();
  }

  /** The kind name "Function" lower-cases to "function", so static methods read "Static method". */
  lemma FunctionLowered()
    ensures ToLower("Function") == "function"
  {
    ToLowerAt("Function");
    assert |ToLower("Function")| == 8;
  }

  /** The `Group` constructor: its type name is always its kind. */
  function NewGroup(name: string, gtype: GroupType, description: string, properties: seq<Entry>): (g: Entry)
    ensures g.typeName == Some(gtype.Name())
    ensures g.DisplayName() == gtype.Name() + ": `" + name + "`"
    ensures g.Properties() == properties
  {
    Entry(name, gtype.Name(), TypeNameFor(gtype.Name(), false, true), false, description, GroupKind(properties))
  }

  /** One line of a group's property list: `indent` spaces, then a markdown link to the anchor. */
  function PropertyLine(p: Entry, indent: nat): string {
    Repeat(' ', indent) + "- [" + p.DisplayName() + "](#" + p.AnchorName() + ")"
  }

  /** `properties.map(...)`: line `i` is the link line of property `i`. */
  function PropertyLines(ps: seq<Entry>, indent: nat): (r: seq<string>)
    ensures |r| == |ps|
    ensures forall i :: 0 <= i < |ps| ==> r[i] == PropertyLine(ps[i], indent)
  {
    if ps == [] then []
    else
      var rest := PropertyLines(ps[1..], indent);
      assert forall i :: 1 <= i < |ps| ==> ps[i] == ps[1..][i - 1];
      [PropertyLine(ps[0], indent)] + rest
  }

  /** `propertiesList(indent)`: one line per property, joined by newlines. */
  function PropertiesList(g: Entry, indent: nat): string {
    Join(PropertyLines(g.Properties(), indent), "\n")
  }

  /** Every line starts with exactly `indent` spaces followed by "- [". */
  lemma PropertyLineShape(p: Entry, indent: nat)
    ensures var l := PropertyLine(p, indent);
      StartsWith(l, Repeat(' ', indent) + "- [") && EndsWith(l, p.AnchorName() + ")")
  {
    var l := PropertyLine(p, indent);
    var pre := Repeat(' ', indent) + "- [";
    assert l[..|pre|] == pre;
    assert l[|l| - |p.AnchorName() + ")"|..] == p.AnchorName() + ")";
  }

  /** `\s` of JavaScript regular expressions. */
  predicate IsJsWhitespace(c: char) {
    var n := c as int;
    || (0x09 <= n <= 0x0D) || n == 0x20 || n == 0xA0 || n == 0x1680
    || (0x2000 <= n <= 0x200A) || n == 0x2028 || n == 0x2029 || n == 0x202F
    || n == 0x205F || n == 0x3000 || n == 0xFEFF
  }

  /** Characters that survive `/[^a-z\d\s]/g`. */
  predicate Kept(c: char) { IsAsciiLower(c) || IsAsciiDigit(c) || IsJsWhitespace(c) }

  /** `.replace(/[^a-z\d\s]/g, "")` */
  function KeepAllowed(s: string): (r: string)
    ensures |r| <= |s|
  {
    if s == [] then [] else (if Kept(s[0]) then [s[0]] else []) + KeepAllowed(s[1..])
  }

  /** Only allowed characters survive. */
  lemma {:induction false} KeepAllowedKept(s: string)
    ensures forall i :: 0 <= i < |KeepAllowed(s)| ==> Kept(KeepAllowed(s)[i])
  {
    if s != [] {
      KeepAllowedKept(s[1..]);
      assert KeepAllowed(s) == (if Kept(s[0]) then [s[0]] else []) + KeepAllowed(s[1..]);
    }
  }

  /** Drops a leading run of whitespace. */
  function DropWhitespace(s: string): (r: string)
    ensures |r| <= |s| && (r == [] || !IsJsWhitespace(r[0]))
    ensures r == s[|s| - |r|..]
  {
    if s != [] && IsJsWhitespace(s[0]) then DropWhitespace(s[1..]) else s
  }

  /** `.replace(/\s+/g, "-")`: each maximal whitespace run becomes one dash. */
  function DashRuns(s: string): (r: string)
    decreases |s|
  {
    if s == [] then []
    else if IsJsWhitespace(s[0]) then "-" + DashRuns(DropWhitespace(s[1..]))
    else [s[0]] + DashRuns(s[1..])
  }

  /** The anchor slug of a text: lower-cased, filtered, whitespace runs dashed. */
  function Slug(s: string): string {
    DashRuns(KeepAllowed(ToLower(s)))
  }

  predicate SlugChar(c: char) { IsAsciiLower(c) || IsAsciiDigit(c) || c == '-' }

  /** A dashed string of kept characters has only slug characters and never two dashes in a row. */
  lemma {:induction false} DashRunsShape(s: string)
    requires forall i :: 0 <= i < |s| ==> Kept(s[i])
    ensures forall i :: 0 <= i < |DashRuns(s)| ==> SlugChar(DashRuns(s)[i])
    ensures forall i :: 0 <= i < |DashRuns(s)| - 1 ==> !(DashRuns(s)[i] == '-' && DashRuns(s)[i + 1] == '-')
    ensures s != [] && IsJsWhitespace(s[0]) <==> DashRuns(s) != [] && DashRuns(s)[0] == '-'
    decreases |s|
  {
    if s != [] {
      if IsJsWhitespace(s[0]) {
        var t := DropWhitespace(s[1..]);
        forall i | 0 <= i < |t| ensures Kept(t[i]) {
          assert t[i] == s[1..][|s[1..]| - |t| + i];
        }
        DashRunsShape(t);
      } else {
        DashRunsShape(s[1..]);
      }
    }
  }

  /** Every anchor consists of a-z, digits and dashes, with no two dashes in a row. */
  lemma SlugShape(s: string)
    ensures forall i :: 0 <= i < |Slug(s)| ==> SlugChar(Slug(s)[i])
    ensures forall i :: 0 <= i < |Slug(s)| - 1 ==> !(Slug(s)[i] == '-' && Slug(s)[i + 1] == '-')
  {
    KeepAllowedKept(ToLower(s));
    DashRunsShape(KeepAllowed(ToLower(s)));
  }

  /** A text already made of lower-case letters and digits is its own anchor. */
  lemma {:induction false} SlugOfPlainWord(s: string)
    requires forall i :: 0 <= i < |s| ==> IsAsciiLower(s[i]) || IsAsciiDigit(s[i])
    ensures Slug(s) == s
  {
    PlainWordFixed(s);
  }

  lemma {:induction false} PlainWordFixed(s: string)
    requires forall i :: 0 <= i < |s| ==> IsAsciiLower(s[i]) || IsAsciiDigit(s[i])
    ensures ToLower(s) == s && KeepAllowed(s) == s && DashRuns(s) == s
  {
    if s != [] {
      PlainWordFixed(s[1..]);
      assert !IsJsWhitespace(s[0]);
    }
  }
}
