/**
 * `specsCopy(to, from)` (simpleline.js): copy the user's configuration onto a
 * skeleton of defaults, key by key, recursively and in place.
 *
 * `Merge` is the specification: what `target` holds afterwards and whether a
 * TypeError escaped. `SpecsCopy` is the loop of the source, proved to agree
 * with it. The lemmas state the merge rules: only keys of `target` are written,
 * keys `source` lacks keep their values, arrays are replaced only by arrays or
 * by non-objects, plain objects are merged recursively, everything else is
 * overwritten.
 */
module SpecsMerge {
  import opened Wrappers
  import opened JsValues

  /** The target after a call, and whether the call ended in a TypeError. */
  datatype Outcome = Outcome(value: JsValue, threw: bool)

  /** The properties `target.props[i..]` after the loop has visited them. */
  datatype PropsOutcome = PropsOutcome(props: seq<Prop>, threw: bool)

  /** A target `specsCopy` can be applied to: a non-array value whose `typeof` is "object". */
  predicate IsTarget(v: JsValue) {
    v.Obj? || v.Null?
  }

  /**
   * The new value of `target[ix]` once `source` is known to own `ix` with value `fv`:
   * the body of the loop in `specsCopy`.
   */
  function CopyEntry(tv: JsValue, fv: JsValue): Outcome
    decreases tv, 2, 0
  {
    if IsObjectType(tv) && IsObjectType(fv) then
      if tv.Arr? then
        if fv.Arr? then Outcome(Arr(fv.items), false) else Outcome(tv, false)
      else Merge(tv, fv)
    else Outcome(fv, false)
  }

  /**
   * `specsCopy(to, from)`. A `for ... in` over null visits nothing, so a null
   * target stays null; `source.hasOwnProperty` on a null `source` throws as soon
   * as `target` has a key.
   */
  function Merge(target: JsValue, source: JsValue): Outcome
    requires IsTarget(target) && IsObjectType(source)
    decreases target, 1, 0
  {
    if target.Null? then Outcome(Null, false)
    else
      var r := MergeProps(target, source, 0);
      Outcome(Obj(r.props), r.threw)
  }

  /**
   * One visit of the loop: `to[ix]` after the iteration for the property `p`.
   * A key `from` does not own is left alone.
   */
  function VisitKey(p: Prop, source: JsValue): Outcome
    requires source.Obj? || source.Arr?
    decreases p, 3, 0
  {
    match OwnProperty(source, p.key)
    case None => Outcome(p.value, false)
    case Some(fv) => CopyEntry(p.value, fv)
  }

  /** The loop of `specsCopy` over the keys `to.props[i..]`. */
  function MergeProps(target: JsValue, source: JsValue, i: nat): PropsOutcome
    requires target.Obj? && i <= |target.props| && IsObjectType(source)
    decreases target, 0, |target.props| - i
  {
    if i == |target.props| then PropsOutcome([], false)
    else if source.Null? then PropsOutcome(target.props[i..], true)
    else
      var p := target.props[i];
      assert p in target.props;
      var e := VisitKey(p, source);
      if e.threw then PropsOutcome([Prop(p.key, e.value)] + target.props[i + 1..], true)
      else
        var rest := MergeProps(target, source, i + 1);
        PropsOutcome([Prop(p.key, e.value)] + rest.props, rest.threw)
  }

  /** The loop invariant of `SpecsCopy` survives one iteration that does not throw. */
  lemma MergePropsStep(target: JsValue, source: JsValue, i: nat, done: seq<Prop>, q: Prop)
    requires target.Obj? && i < |target.props| && (source.Obj? || source.Arr?)
    requires VisitKey(target.props[i], source) == Outcome(q.value, false)
    requires q.key == target.props[i].key
    requires MergeProps(target, source, 0)
             == PropsOutcome(done + MergeProps(target, source, i).props, MergeProps(target, source, i).threw)
    ensures MergeProps(target, source, 0)
            == PropsOutcome((done + [q]) + MergeProps(target, source, i + 1).props, MergeProps(target, source, i + 1).threw)
  {
    var rest := MergeProps(target, source, i + 1);
    assert MergeProps(target, source, i) == PropsOutcome([q] + rest.props, rest.threw);
    assert done + ([q] + rest.props) == (done + [q]) + rest.props;
  }

  /** The loop invariant of `SpecsCopy` gives the whole outcome when the visit of key `i` throws. */
  lemma MergePropsThrowStep(target: JsValue, source: JsValue, i: nat, props: seq<Prop>, v: JsValue)
    requires target.Obj? && i < |target.props| && (source.Obj? || source.Arr?)
    requires VisitKey(target.props[i], source) == Outcome(v, true)
    requires |props| == |target.props| && props[i..] == target.props[i..]
    requires MergeProps(target, source, 0)
             == PropsOutcome(props[..i] + MergeProps(target, source, i).props, MergeProps(target, source, i).threw)
    ensures MergeProps(target, source, 0) == PropsOutcome(props[i := Prop(target.props[i].key, v)], true)
  {
    var q := Prop(target.props[i].key, v);
    assert MergeProps(target, source, i) == PropsOutcome([q] + target.props[i + 1..], true);
    assert props[i + 1..] == target.props[i + 1..];
    SpliceIsUpdate(props, i, q);
  }

  /** Replacing the element at `i` by cutting the sequence around it. */
  lemma SpliceIsUpdate<T>(s: seq<T>, i: nat, x: T)
    requires i < |s|
    ensures s[..i] + ([x] + s[i + 1..]) == s[i := x]
  {
  }

  /**
   * The loop of the source. `props` is the target's property list, updated in
   * place one key at a time.
   */
  method SpecsCopy(target: JsValue, source: JsValue) returns (result: JsValue, threw: bool)
    requires IsTarget(target) && IsObjectType(source)
    ensures Outcome(result, threw) == Merge(target, source)
    decreases target, 1
  {
    if target.Null? {
      return Null, false;
    }
    var props := target.props;
    var i := 0;
    while i < |props|
      invariant i <= |props| == |target.props|
      invariant props[i..] == target.props[i..]
      invariant MergeProps(target, source, 0)
                == PropsOutcome(props[..i] + MergeProps(target, source, i).props, MergeProps(target, source, i).threw)
    {
      assert props[i] == target.props[i];
      if source.Null? {
        // a null source has no hasOwnProperty
        assert props[..i] + props[i..] == props;
        return Obj(props), true;
      }
      assert props[i] < target by { assert target.props[i] in target.props; }
      var value, t := CopyKey(props[i], source);
      if t {
        MergePropsThrowStep(target, source, i, props, value);
        props := props[i := Prop(props[i].key, value)];
        return Obj(props), true;
      }
      ghost var before := props;
      props := props[i := Prop(props[i].key, value)];
      assert before[..i] == props[..i];
      MergePropsStep(target, source, i, props[..i], props[i]);
      assert props[..i + 1] == props[..i] + [props[i]];
      i := i + 1;
    }
    assert MergeProps(target, source, i) == PropsOutcome([], false);
    assert props[..i] + [] == props;
    return Obj(props), false;
  }

  /**
   * One pass of the loop body for the property `p`: the new value of `to[ix]`
   * and whether a TypeError escaped. A nested plain object is merged by the
   * recursive call.
   */
  method CopyKey(p: Prop, source: JsValue) returns (value: JsValue, threw: bool)
    requires source.Obj? || source.Arr?
    ensures Outcome(value, threw) == VisitKey(p, source)
    decreases p, 3
  {
    value, threw := p.value, false;
    var own := OwnProperty(source, p.key);
    if own.Some? {
      var tv, fv := p.value, own.value;
      if IsObjectType(tv) && IsObjectType(fv) {
        if tv.Arr? {
          if fv.Arr? {
            value := Arr(fv.items);
          }
        } else {
          value, threw := SpecsCopy(tv, fv);
        }
      } else {
        value := fv;
      }
    }
  }

  /**
   * Where the loop over `to.props[i..]` leaves the property that started at
   * index `j`: same key and same position; untouched when `from` does not own
   * the key; and, unless a TypeError cut the loop short, holding what the
   * visit of that key computed.
   */
  lemma {:induction false} MergePropsAt(target: JsValue, source: JsValue, i: nat, j: nat)
    requires target.Obj? && i <= j < |target.props| && (source.Obj? || source.Arr?)
    ensures |MergeProps(target, source, i).props| == |target.props| - i
    ensures MergeProps(target, source, i).props[j - i].key == target.props[j].key
    ensures OwnProperty(source, target.props[j].key).None?
            ==> MergeProps(target, source, i).props[j - i] == target.props[j]
    ensures !MergeProps(target, source, i).threw
            ==> MergeProps(target, source, i).props[j - i].value == VisitKey(target.props[j], source).value
    decreases j - i
  {
    MergePropsLength(target, source, i);
    if i < j && !VisitKey(target.props[i], source).threw {
      MergePropsAt(target, source, i + 1, j);
    }
  }

  /** The loop leaves as many properties as it was given. */
  lemma {:induction false} MergePropsLength(target: JsValue, source: JsValue, i: nat)
    requires target.Obj? && i <= |target.props| && IsObjectType(source)
    ensures |MergeProps(target, source, i).props| == |target.props| - i
    decreases |target.props| - i
  {
    if i < |target.props| && !source.Null? {
      MergePropsLength(target, source, i + 1);
    }
  }

  /** `specsCopy` writes only keys `to` already has: the key list, in order, is unchanged. */
  lemma MergeKeepsKeys(target: JsValue, source: JsValue)
    requires target.Obj? && IsObjectType(source)
    ensures Merge(target, source).value.Obj?
    ensures Keys(Merge(target, source).value.props) == Keys(target.props)
  {
    var r := Merge(target, source).value;
    if source.Null? {
      assert target.props[0..] == target.props;
    } else {
      forall j | 0 <= j < |target.props|
        ensures |r.props| == |target.props| && r.props[j].key == target.props[j].key
      {
        MergePropsAt(target, source, 0, j);
      }
    }
  }

  /** A key of `to` that `from` does not own keeps its old value, whatever happens to the others. */
  lemma MergeKeepsUnownedKey(target: JsValue, source: JsValue, j: nat)
    requires target.Obj? && j < |target.props| && (source.Obj? || source.Arr?)
    requires OwnProperty(source, target.props[j].key).None?
    ensures |Merge(target, source).value.props| == |target.props|
    ensures Merge(target, source).value.props[j] == target.props[j]
  {
    MergePropsAt(target, source, 0, j);
  }

  /**
   * The rules for a key `from` owns, in a call that did not throw: an array in
   * `to` takes a copy of an array, stays as it is for null or a plain object,
   * and is overwritten by anything else; null or a plain object in `to` is
   * merged recursively with any object; every other pair is overwritten.
   */
  lemma MergeOwnedKey(target: JsValue, source: JsValue, j: nat, fv: JsValue)
    requires target.Obj? && j < |target.props| && (source.Obj? || source.Arr?)
    requires OwnProperty(source, target.props[j].key) == Some(fv)
    requires !Merge(target, source).threw
    ensures |Merge(target, source).value.props| == |target.props|
    ensures var tv, nv := target.props[j].value, Merge(target, source).value.props[j].value;
      && (tv.Arr? && fv.Arr? ==> nv == fv)
      && (tv.Arr? && (fv.Obj? || fv.Null?) ==> nv == tv)
      && (IsTarget(tv) && IsObjectType(fv) ==> nv == Merge(tv, fv).value)
      && (!IsObjectType(tv) || !IsObjectType(fv) ==> nv == fv)
  {
    MergePropsAt(target, source, 0, j);
  }

  /** The values of `v`, at any depth, are never null. */
  predicate NullFree(v: JsValue) {
    match v
    case Null => false
    case Arr(items) => forall k :: 0 <= k < |items| ==> NullFree(items[k])
    case Obj(props) => forall k :: 0 <= k < |props| ==> NullFree(props[k].value)
    case _ => true
  }

  /** Every property `from` owns is null-free when `from` is. */
  lemma OwnPropertyNullFree(source: JsValue, key: string)
    requires (source.Obj? || source.Arr?) && NullFree(source)
    ensures OwnProperty(source, key).Some? ==> NullFree(OwnProperty(source, key).value)
  {
    if source.Obj? {
      FindPropFinds(source.props, key);
    }
  }

  /**
   * The only TypeError `specsCopy` raises is `null.hasOwnProperty`: a
   * configuration with no null anywhere in it is always copied completely.
   */
  lemma {:induction false} MergeWithoutNullNeverThrows(target: JsValue, source: JsValue)
    requires IsTarget(target) && (source.Obj? || source.Arr?) && NullFree(source)
    ensures !Merge(target, source).threw
    decreases target, 1, 0
  {
    if target.Obj? {
      MergePropsWithoutNull(target, source, 0);
    }
  }

  lemma {:induction false} MergePropsWithoutNull(target: JsValue, source: JsValue, i: nat)
    requires target.Obj? && i <= |target.props| && (source.Obj? || source.Arr?) && NullFree(source)
    ensures !MergeProps(target, source, i).threw
    decreases target, 0, |target.props| - i
  {
    if i < |target.props| {
      var p := target.props[i];
      assert p in target.props;
      VisitKeyWithoutNull(p, source);
      MergePropsWithoutNull(target, source, i + 1);
    }
  }

  lemma {:induction false} VisitKeyWithoutNull(p: Prop, source: JsValue)
    requires (source.Obj? || source.Arr?) && NullFree(source)
    ensures !VisitKey(p, source).threw
    decreases p, 3, 0
  {
    OwnPropertyNullFree(source, p.key);
    match OwnProperty(source, p.key)
    case None =>
    case Some(fv) =>
      if IsTarget(p.value) && IsObjectType(fv) {
        MergeWithoutNullNeverThrows(p.value, fv);
      }
  }

  /** Copying from an empty object changes nothing. */
  lemma MergeEmptySource(target: JsValue)
    requires IsTarget(target)
    ensures Merge(target, Obj([])) == Outcome(target, false)
  {
    if target.Obj? {
      MergePropsEmptySource(target, 0);
      assert target.props[0..] == target.props;
    }
  }

  lemma {:induction false} MergePropsEmptySource(target: JsValue, i: nat)
    requires target.Obj? && i <= |target.props|
    ensures MergeProps(target, Obj([]), i) == PropsOutcome(target.props[i..], false)
    decreases |target.props| - i
  {
    if i < |target.props| {
      MergePropsEmptySource(target, i + 1);
      assert target.props[i..] == [target.props[i]] + target.props[i + 1..];
    }
  }
}
