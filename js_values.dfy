/**
 * The JavaScript values a SimpleLine configuration can hold (simpleline.js
 * `specs` and the user's `config`), with the property reads that `specsCopy`
 * and `update` perform on them.
 *
 * A plain object is a list of properties in enumeration order; arrays are
 * sequences. Functions, symbols and prototypes are not represented.
 */
module JsValues {
  import opened Wrappers

  datatype JsValue =
    | Undefined
    | Null
    | Bool(b: bool)
    | Number(n: real)
    | Str(s: string)
    | Arr(items: seq<JsValue>)
    | Obj(props: seq<Prop>)

  datatype Prop = Prop(key: string, value: JsValue)

  /** `typeof v == "object"`, which holds for null, arrays and plain objects alike. */
  predicate IsObjectType(v: JsValue) {
    v.Null? || v.Arr? || v.Obj?
  }

  /** The keys of a property list, in order. */
  function Keys(props: seq<Prop>): (ks: seq<string>)
    ensures |ks| == |props|
    ensures forall j :: 0 <= j < |props| ==> ks[j] == props[j].key
  {
    if props == [] then [] else [props[0].key] + Keys(props[1..])
  }

  /** A property list in which no key occurs twice, as in every JavaScript object. */
  predicate DistinctKeys(props: seq<Prop>) {
    forall i, j :: 0 <= i < j < |props| ==> props[i].key != props[j].key
  }

  /** The value stored under `key`, if the list has that key. */
  function FindProp(props: seq<Prop>, key: string): Option<JsValue> {
    if props == [] then None
    else if props[0].key == key then Some(props[0].value)
    else FindProp(props[1..], key)
  }

  /** The lookup finds a value exactly for the keys the list has, and the value is stored under that key. */
  lemma {:induction false} FindPropFinds(props: seq<Prop>, key: string)
    ensures FindProp(props, key).None? <==> key !in Keys(props)
    ensures FindProp(props, key).Some? ==>
              exists j :: 0 <= j < |props| && props[j] == Prop(key, FindProp(props, key).value)
  {
    if props != [] && props[0].key != key {
      FindPropFinds(props[1..], key);
      if FindProp(props, key).Some? {
        var j :| 0 <= j < |props| - 1 && props[1..][j] == Prop(key, FindProp(props, key).value);
        assert props[j + 1] == Prop(key, FindProp(props, key).value);
      }
      assert Keys(props) == [props[0].key] + Keys(props[1..]);
    }
  }

  /** The assignment `v[key] = value` on a plain object: the value is replaced in place, or a new key is appended. */
  function SetProp(props: seq<Prop>, key: string, value: JsValue): (r: seq<Prop>)
    ensures key in Keys(props) ==> Keys(r) == Keys(props)
    ensures key !in Keys(props) ==> Keys(r) == Keys(props) + [key]
  {
    if props == [] then [Prop(key, value)]
    else if props[0].key == key then [Prop(key, value)] + props[1..]
    else [props[0]] + SetProp(props[1..], key, value)
  }

  /** After the assignment, reading `key` gives the new value and every other key reads as before. */
  lemma {:induction false} SetPropThenFind(props: seq<Prop>, key: string, value: JsValue, other: string)
    ensures FindProp(SetProp(props, key, value), key) == Some(value)
    ensures other != key ==> FindProp(SetProp(props, key, value), other) == FindProp(props, other)
  {
    if props != [] && props[0].key != key {
      SetPropThenFind(props[1..], key, value, other);
      assert SetProp(props, key, value)[1..] == SetProp(props[1..], key, value);
    }
  }

  /** The canonical decimal spelling of a natural number, as used for array index keys. */
  function DecimalString(n: nat): (s: string)
    ensures |s| > 0
    ensures forall k :: 0 <= k < |s| ==> '0' <= s[k] <= '9'
  {
    var digit := [(48 + n % 10) as char];
    if n < 10 then digit else DecimalString(n / 10) + digit
  }

  /** Two indices with the same decimal key are the same index. */
  lemma {:induction false} DecimalStringInjective(n: nat, m: nat)
    requires DecimalString(n) == DecimalString(m)
    ensures n == m
    decreases n
  {
    var s := DecimalString(n);
    assert s[|s| - 1] == (48 + n % 10) as char && s[|s| - 1] == (48 + m % 10) as char;
    assert |s| == 1 <==> n < 10;
    assert |s| == 1 <==> m < 10;
    if 10 <= n {
      assert DecimalString(n / 10) == s[..|s| - 1] == DecimalString(m / 10);
      DecimalStringInjective(n / 10, m / 10);
    }
  }

  /** The index of `items` whose decimal key is `key`, searching from `i`. */
  function IndexKey(items: seq<JsValue>, key: string, i: nat): (r: Option<nat>)
    requires i <= |items|
    ensures r.Some? ==> i <= r.value < |items| && DecimalString(r.value) == key
    ensures r.None? ==> forall k :: i <= k < |items| ==> DecimalString(k) != key
    decreases |items| - i
  {
    if i == |items| then None
    else if DecimalString(i) == key then Some(i)
    else IndexKey(items, key, i + 1)
  }

  /**
   * `v.hasOwnProperty(key) ? v[key] : <absent>` for an object or an array:
   * an array's own keys are its indices and "length".
   */
  function OwnProperty(v: JsValue, key: string): (r: Option<JsValue>)
    requires v.Obj? || v.Arr?
    ensures v.Obj? ==> r == FindProp(v.props, key)
    ensures v.Arr? && key == "length" ==> r == Some(Number(|v.items| as real))
    ensures v.Arr? && key != "length" ==>
      (r.Some? <==> exists k :: 0 <= k < |v.items| && DecimalString(k) == key)
    ensures v.Arr? && key != "length" && r.Some? ==>
      exists k :: 0 <= k < |v.items| && DecimalString(k) == key && r.value == v.items[k]
  {
    if v.Obj? then FindProp(v.props, key)
    else if key == "length" then Some(Number(|v.items| as real))
    else match IndexKey(v.items, key, 0)
      case Some(k) =>
        assert 0 <= k < |v.items| && DecimalString(k) == key;
        Some(v.items[k])
      case None => None
  }

  /** Reading an array at the decimal key of index `k` gives the item at `k`. */
  lemma ArrayKeyReadsItem(items: seq<JsValue>, k: nat)
    requires k < |items|
    ensures OwnProperty(Arr(items), DecimalString(k)) == Some(items[k])
  {
    var key := DecimalString(k);
    assert key[0] != 'l';
    var r := OwnProperty(Arr(items), key);
    var j :| 0 <= j < |items| && DecimalString(j) == key && r.value == items[j];
    DecimalStringInjective(j, k);
  }

  /**
   * The property read `v[key]` on a value that is not null or undefined; a key
   * the value does not have reads as `undefined`. Reads on primitives see
   * none of the keys this model uses.
   */
  function Get(v: JsValue, key: string): JsValue
    requires !v.Null? && !v.Undefined?
  {
    if v.Obj? || v.Arr? then
      match OwnProperty(v, key)
      case Some(x) => x
      case None => Undefined
    else Undefined
  }

  /** Reading a key an object lacks gives `undefined`. */
  lemma GetMissingKey(v: JsValue, key: string)
    requires v.Obj? && key !in Keys(v.props)
    ensures Get(v, key) == Undefined
  {
    FindPropFinds(v.props, key);
  }
}
