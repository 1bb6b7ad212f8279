/**
 * The JavaScript values a parsed JSON request body can hold, with the two
 * language operations the handlers apply to them: truthiness (ToBoolean) and
 * reading a named property.
 */
module JsValues {
  import opened Wrappers

  /**
   * A JavaScript value. Numbers are integers here; an object is its list of
   * own properties in insertion order, because that order is the order in
   * which a response body is serialised.
   */
  datatype JsValue =
    | Undefined
    | Null
    | Bool(b: bool)
    | Num(n: int)
    | Str(s: string)
    | Arr(elems: seq<JsValue>)
    | Obj(props: seq<(string, JsValue)>)

  /** JavaScript's ToBoolean: the falsy values are undefined, null, false, 0 and "". */
  predicate Truthy(v: JsValue) {
    match v
    case Undefined => false
    case Null => false
    case Bool(b) => b
    case Num(n) => n != 0
    case Str(s) => |s| > 0
    case Arr(_) => true
    case Obj(_) => true
  }

  /** True when some property of `props` is named `key`. */
  predicate HasKey(props: seq<(string, JsValue)>, key: string) {
    exists i :: 0 <= i < |props| && props[i].0 == key
  }

  /**
   * The value of property `key` in a property list in which a key may occur
   * more than once: the last occurrence wins, as when JSON.parse meets a
   * duplicated member name. A missing key reads as undefined.
   */
  function LookupLast(props: seq<(string, JsValue)>, key: string): (r: JsValue)
    ensures !HasKey(props, key) ==> r == Undefined
    ensures HasKey(props, key) ==>
      exists i :: 0 <= i < |props| && props[i] == (key, r) &&
        forall j :: i < j < |props| ==> props[j].0 != key
  {
    if |props| == 0 then Undefined
    else if props[|props| - 1].0 == key then props[|props| - 1].1
    else
      var r := LookupLast(props[..|props| - 1], key);
      assert forall i :: 0 <= i < |props| - 1 ==> props[..|props| - 1][i] == props[i];
      r
  }

  /** A key that occurs once in a property list reads as the value stored with it. */
  lemma LookupSingle(props: seq<(string, JsValue)>, key: string, i: int)
    requires 0 <= i < |props| && props[i].0 == key
    requires forall j :: 0 <= j < |props| && j != i ==> props[j].0 != key
    ensures LookupLast(props, key) == props[i].1
  {
    assert HasKey(props, key);
  }

  /** In a list of two properties with distinct keys, each key reads as its own value. */
  lemma LookupPair(k0: string, v0: JsValue, k1: string, v1: JsValue)
    requires k0 != k1
    ensures LookupLast([(k0, v0), (k1, v1)], k0) == v0
    ensures LookupLast([(k0, v0), (k1, v1)], k1) == v1
  {
    LookupSingle([(k0, v0), (k1, v1)], k0, 0);
    LookupSingle([(k0, v0), (k1, v1)], k1, 1);
  }

  /**
   * Reading property `key` of `v`, as `v.key` or object destructuring does.
   * Reading a property of undefined or null throws a TypeError, hence the
   * precondition. Only own properties of objects are seen: the keys read by
   * the handlers are not properties of any built-in prototype.
   */
  function Get(v: JsValue, key: string): (r: JsValue)
    requires !v.Undefined? && !v.Null?
    ensures !v.Obj? ==> r == Undefined
    ensures v.Obj? && !HasKey(v.props, key) ==> r == Undefined
    ensures v.Obj? && HasKey(v.props, key) ==>
      exists i :: 0 <= i < |v.props| && v.props[i] == (key, r) &&
        forall j :: i < j < |v.props| ==> v.props[j].0 != key
  {
    match v
    case Obj(props) => LookupLast(props, key)
    case _ => Undefined
  }

  /**
   * `x || {}` for a value that may be missing: a missing or falsy value is
   * replaced by an empty object, so that it can be destructured.
   */
  function OrEmptyObject(x: Option<JsValue>): (r: JsValue)
    ensures !r.Undefined? && !r.Null?
    ensures x.Some? && Truthy(x.value) ==> r == x.value
    ensures !(x.Some? && Truthy(x.value)) ==> r == Obj([])
  {
    if x.Some? && Truthy(x.value) then x.value else Obj([])
  }
}
