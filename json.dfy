/**
 * JavaScript values as the client sees them: what `JSON.parse` produces, plus the date
 * objects the reviver puts in place of date-shaped strings. A date is kept as the text it
 * was made from; what `new Date(text)` computes from that text is not part of this model.
 */
module Json {
  import opened Strings
  import DatePattern

  datatype JsValue =
    | Undefined
    | Null
    | Bool(b: bool)
    | Number(n: real)
    | Str(s: string)
    | Arr(elems: seq<JsValue>)
    | Obj(props: seq<(string, JsValue)>)
    | Date(text: string)
  {
    /** JavaScript truthiness (`NaN` is not a value of this model). */
    predicate Truthy() {
      match this
      case Undefined => false
      case Null => false
      case Bool(b) => b
      case Number(n) => n != 0.0
      case Str(s) => s != ""
      case _ => true
    }
  }

  /**
   * The reviver's `test(value)` first converts the value to a string. For an object with an own
   * `toString` key that conversion finds no callable `toString` (a JSON value never is one), and
   * `valueOf` gives the object back, so it throws a TypeError and `JSON.parse` throws with it.
   * Strings, numbers, booleans, `null`, arrays and every other object convert without throwing.
   */
  predicate ReviverThrows(v: JsValue)
    decreases v
  {
    match v
    case Arr(es) => exists i :: 0 <= i < |es| && ReviverThrows(es[i])
    case Obj(ps) => exists i :: 0 <= i < |ps| && (ps[i].0 == "toString" || ReviverThrows(ps[i].1))
    case _ => false
  }

  /**
   * The reviver, applied bottom-up to every value as `JSON.parse` does, the root included, for
   * a parse it does not abort (`ReviverThrows`). Only a string can match the date pattern: the
   * text of an array or an object never does.
   */
  function Revive(v: JsValue): (r: JsValue)
    decreases v
  {
    match v
    case Str(s) => if DatePattern.IsDateText(s) then Date(s) else v
    case Arr(es) => Arr(seq(|es|, i requires 0 <= i < |es| => Revive(es[i])))
    case Obj(ps) => Obj(seq(|ps|, i requires 0 <= i < |ps| => (ps[i].0, Revive(ps[i].1))))
    case _ => v
  }

  /** Reading every date back as its text: the inverse of `Revive` on parsed values. */
  function Unrevive(v: JsValue): JsValue
    decreases v
  {
    match v
    case Date(s) => Str(s)
    case Arr(es) => Arr(seq(|es|, i requires 0 <= i < |es| => Unrevive(es[i])))
    case Obj(ps) => Obj(seq(|ps|, i requires 0 <= i < |ps| => (ps[i].0, Unrevive(ps[i].1))))
    case _ => v
  }

  /** `JSON.parse` never produces a date. */
  predicate DateFree(v: JsValue)
    decreases v
  {
    match v
    case Date(_) => false
    case Arr(es) => forall i :: 0 <= i < |es| ==> DateFree(es[i])
    case Obj(ps) => forall i :: 0 <= i < |ps| ==> DateFree(ps[i].1)
    case _ => true
  }

  /** Every date was made from a date-shaped text and no string left is date-shaped. */
  predicate Revived(v: JsValue)
    decreases v
  {
    match v
    case Date(s) => DatePattern.IsDateText(s)
    case Str(s) => !DatePattern.IsDateText(s)
    case Arr(es) => forall i :: 0 <= i < |es| ==> Revived(es[i])
    case Obj(ps) => forall i :: 0 <= i < |ps| ==> Revived(ps[i].1)
    case _ => true
  }

  /**
   * Exactly the date-shaped strings are replaced: the revived value reads back as the
   * parsed one, its dates all come from date-shaped text and no date-shaped string is left.
   */
  lemma {:induction false} ReviveExact(v: JsValue)
    requires DateFree(v)
    ensures Unrevive(Revive(v)) == v && Revived(Revive(v))
    decreases v
  {
    match v
    case Arr(es) =>
      forall i | 0 <= i < |es| ensures Unrevive(Revive(es[i])) == es[i] && Revived(Revive(es[i])) {
        ReviveExact(es[i]);
      }
      assert Unrevive(Revive(v)).elems == es;
    case Obj(ps) =>
      forall i | 0 <= i < |ps| ensures Unrevive(Revive(ps[i].1)) == ps[i].1 && Revived(Revive(ps[i].1)) {
        ReviveExact(ps[i].1);
      }
      assert Unrevive(Revive(v)).props == ps;
    case _ =>
  }

  /** And `Revive` is the only way to get there: any such value is the revived one. */
  lemma {:induction false} ReviveUnique(w: JsValue)
    requires Revived(w)
    ensures Revive(Unrevive(w)) == w
    decreases w
  {
    match w
    case Arr(es) =>
      forall i | 0 <= i < |es| ensures Revive(Unrevive(es[i])) == es[i] {
        ReviveUnique(es[i]);
      }
      assert Revive(Unrevive(w)).elems == es;
    case Obj(ps) =>
      forall i | 0 <= i < |ps| ensures Revive(Unrevive(ps[i].1)) == ps[i].1 {
        ReviveUnique(ps[i].1);
      }
      assert Revive(Unrevive(w)).props == ps;
    case _ =>
  }

  /**
   * The own enumerable properties `Object.assign` copies from a source value: an object's
   * entries, an array's or a string's indexed elements, and nothing from other values.
   */
  function OwnProperties(v: JsValue): (r: seq<(string, JsValue)>)
    ensures v.Obj? ==> r == v.props
    ensures v.Arr? ==> |r| == |v.elems| && forall i :: 0 <= i < |r| ==> r[i] == (NatToString(i), v.elems[i])
    ensures v.Str? ==> |r| == |v.s| && forall i :: 0 <= i < |r| ==> r[i] == (NatToString(i), Str([v.s[i]]))
    ensures !v.Obj? && !v.Arr? && !v.Str? ==> r == []
  {
    match v
    case Obj(ps) => ps
    case Arr(es) => seq(|es|, i requires 0 <= i < |es| => (NatToString(i), es[i]))
    case Str(s) => seq(|s|, i requires 0 <= i < |s| => (NatToString(i), Str([s[i]])))
    case _ => []
  }
}
