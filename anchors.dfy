/**
 * `getAnchorPoint` (simpleline.js): where on an element a connector end
 * attaches, and which way the curve leaves it, from the anchor keywords in
 * the configuration and the element's width and height.
 *
 * Each axis is resolved by asking the keyword holder whether it `includes`
 * a keyword, so order and repetition do not matter and "left" beats "right",
 * "top" beats "bottom". Anything but "left"/"right" (resp. "top"/"bottom")
 * means the centre of that axis.
 */
module Anchors {
  import opened Wrappers
  import opened JsValues

  /** `{x, y, dir: {x, y}}`: a point in element-local pixels and the outward direction there. */
  datatype AnchorPoint = AnchorPoint(x: real, y: real, dirX: real, dirY: real)

  /** `s.includes(w)` on strings: `w` occurs in `s` as a contiguous piece. */
  predicate IsSubstring(w: string, s: string)
    decreases |s|
  {
    |w| <= |s| && (w == s[..|w|] || (|s| > 0 && IsSubstring(w, s[1..])))
  }

  /** `w` occurs in `s` starting at index `k`. */
  predicate OccursAt(w: string, s: string, k: nat) {
    k + |w| <= |s| && s[k..k + |w|] == w
  }

  /** The recursive search finds `w` exactly when it occurs at some index of `s`. */
  lemma {:induction false} SubstringOccurs(w: string, s: string)
    ensures IsSubstring(w, s) <==> exists k: nat :: OccursAt(w, s, k)
    decreases |s|
  {
    if |w| <= |s| && w == s[..|w|] {
      assert OccursAt(w, s, 0);
    } else if |w| <= |s| && |s| > 0 {
      SubstringOccurs(w, s[1..]);
      if k: nat :| OccursAt(w, s[1..], k) {
        assert s[1..][k..k + |w|] == s[k + 1..k + 1 + |w|];
        assert OccursAt(w, s, k + 1);
      }
      if k: nat :| OccursAt(w, s, k) {
        assert k != 0;
        assert s[1..][k - 1..k - 1 + |w|] == s[k..k + |w|];
        assert OccursAt(w, s[1..], k - 1);
      }
    }
  }

  /**
   * `spec.includes(word)`: on an array, whether some item is the string
   * `word`; on a string, whether `word` occurs in it at some index. Every
   * other value lacks an `includes` method, and calling it throws (None).
   */
  function Includes(spec: JsValue, word: string): (r: Option<bool>)
    ensures r.Some? <==> spec.Arr? || spec.Str?
    ensures spec.Arr? ==> (r.value <==> exists k :: 0 <= k < |spec.items| && spec.items[k] == Str(word))
    ensures spec.Str? ==> (r.value <==> exists k: nat :: OccursAt(word, spec.s, k))
  {
    match spec
    case Arr(items) => Some(Str(word) in items)
    case Str(s) => SubstringOccurs(word, s); Some(IsSubstring(word, s))
    case _ => None
  }

  /** A value whose `includes` the source may call. */
  predicate IsKeywordHolder(spec: JsValue) {
    spec.Arr? || spec.Str?
  }

  /**
   * One axis of `getAnchorPoint`: the low keyword gives coordinate 0 and
   * direction -1, otherwise the high keyword gives `size - 1` and +1,
   * otherwise the centre `size / 2` and 0.
   */
  function ResolveAxis(low: bool, high: bool, size: real): (real, real) {
    if low then (0.0, -1.0)
    else if high then (size - 1.0, 1.0)
    else (size / 2.0, 0.0)
  }

  /** `getAnchorPoint` for an element of the given size; None where `includes` would throw. */
  function GetAnchorPoint(spec: JsValue, width: real, height: real): (r: Option<AnchorPoint>)
    ensures r.Some? <==> IsKeywordHolder(spec)
  {
    if !IsKeywordHolder(spec) then None
    else
      var (x, dirX) := ResolveAxis(Includes(spec, "left").value, Includes(spec, "right").value, width);
      var (y, dirY) := ResolveAxis(Includes(spec, "top").value, Includes(spec, "bottom").value, height);
      Some(AnchorPoint(x, y, dirX, dirY))
  }

  /** The three stops an axis can resolve to, written independently of the keywords. */
  predicate OnAxisStop(coord: real, dir: real, size: real) {
    || (coord == 0.0 && dir == -1.0)
    || (coord == size - 1.0 && dir == 1.0)
    || (coord == size / 2.0 && dir == 0.0)
  }

  /** The nine determinate placements on an element: a corner, an edge midpoint or the centre. */
  predicate IsPlacement(a: AnchorPoint, width: real, height: real) {
    OnAxisStop(a.x, a.dirX, width) && OnAxisStop(a.y, a.dirY, height)
  }

  /** The vertical and horizontal keywords the configuration documents. */
  datatype Vertical = Top | Middle | Bottom
  datatype Horizontal = Left | Center | Right

  function VerticalName(v: Vertical): string {
    match v
    case Top => "top"
    case Middle => "middle"
    case Bottom => "bottom"
  }

  function HorizontalName(h: Horizontal): string {
    match h
    case Left => "left"
    case Center => "center"
    case Right => "right"
  }

  /** The placement a documented keyword pair stands for. */
  function Placement(v: Vertical, h: Horizontal, width: real, height: real): (a: AnchorPoint)
    ensures IsPlacement(a, width, height)
  {
    AnchorPoint(
      match h { case Left => 0.0 case Center => width / 2.0 case Right => width - 1.0 },
      match v { case Top => 0.0 case Middle => height / 2.0 case Bottom => height - 1.0 },
      match h { case Left => -1.0 case Center => 0.0 case Right => 1.0 },
      match v { case Top => -1.0 case Middle => 0.0 case Bottom => 1.0 })
  }

  /** Whatever the keywords, a resolved anchor is one of the nine placements. */
  lemma AnchorIsPlacement(spec: JsValue, width: real, height: real)
    requires IsKeywordHolder(spec)
    ensures IsPlacement(GetAnchorPoint(spec, width, height).value, width, height)
  {
  }

  /**
   * Each of the nine placements is reached from its keyword pair, in either
   * order, so the anchors resolve to exactly nine points and directions.
   */
  lemma KeywordPairResolves(v: Vertical, h: Horizontal, width: real, height: real)
    ensures GetAnchorPoint(Arr([Str(VerticalName(v)), Str(HorizontalName(h))]), width, height)
            == Some(Placement(v, h, width, height))
    ensures GetAnchorPoint(Arr([Str(HorizontalName(h)), Str(VerticalName(v))]), width, height)
            == Some(Placement(v, h, width, height))
  {
  }

  /** An empty keyword list, or one naming neither side, means the centre of the element. */
  lemma NoKeywordsMeansCentre(items: seq<JsValue>, width: real, height: real)
    requires Str("left") !in items && Str("right") !in items
    requires Str("top") !in items && Str("bottom") !in items
    ensures GetAnchorPoint(Arr(items), width, height) == Some(Placement(Middle, Center, width, height))
  {
  }

  /**
   * The precedence on each axis, whatever else the list holds: "left" wins
   * over "right" and "top" over "bottom"; naming neither side of an axis
   * means its centre.
   */
  lemma KeywordPrecedence(items: seq<JsValue>, width: real, height: real)
    ensures var a := GetAnchorPoint(Arr(items), width, height).value;
      && (Str("left") in items ==> a.x == 0.0 && a.dirX == -1.0)
      && (Str("left") !in items && Str("right") in items ==> a.x == width - 1.0 && a.dirX == 1.0)
      && (Str("left") !in items && Str("right") !in items ==> a.x == width / 2.0 && a.dirX == 0.0)
      && (Str("top") in items ==> a.y == 0.0 && a.dirY == -1.0)
      && (Str("top") !in items && Str("bottom") in items ==> a.y == height - 1.0 && a.dirY == 1.0)
      && (Str("top") !in items && Str("bottom") !in items ==> a.y == height / 2.0 && a.dirY == 0.0)
  {
  }

  /** Two keyword lists with the same members resolve to the same anchor: position is irrelevant. */
  lemma MembershipNotPosition(a: seq<JsValue>, b: seq<JsValue>, width: real, height: real)
    requires forall v :: v in a <==> v in b
    ensures GetAnchorPoint(Arr(a), width, height) == GetAnchorPoint(Arr(b), width, height)
  {
    assert Str("left") in a <==> Str("left") in b;
    assert Str("right") in a <==> Str("right") in b;
    assert Str("top") in a <==> Str("top") in b;
    assert Str("bottom") in a <==> Str("bottom") in b;
  }

  /**
   * A string in place of a list is searched for substrings, so one word
   * without separators works too: "topleft" is the top-left corner.
   */
  lemma StringAnchorsMatchSubstrings(width: real, height: real)
    ensures GetAnchorPoint(Str("topleft"), width, height)
            == Some(Placement(Top, Left, width, height))
  {
    var s := "topleft";
    assert IsSubstring("top", s) by {
      assert s[..3] == "top";
    }
    assert IsSubstring("left", s) by {
      assert s[3..] == "left";
      assert "left"[..4] == "left";
      SubstringOfSuffix("left", s, 3);
    }
  }

  /** A substring of a suffix is a substring of the whole string. */
  lemma {:induction false} SubstringOfSuffix(w: string, s: string, k: nat)
    requires k <= |s| && IsSubstring(w, s[k..])
    ensures IsSubstring(w, s)
    decreases k
  {
    if k > 0 {
      assert s[1..][k - 1..] == s[k..];
      SubstringOfSuffix(w, s[1..], k - 1);
    }
  }

  /**
   * The arrowhead adjustment of `update`: the end anchor moves by
   * `dir × strokeWpx × 1.5`.
   */
  function PullBack(a: AnchorPoint, strokeWpx: real): (r: AnchorPoint)
    ensures r.dirX == a.dirX && r.dirY == a.dirY
    ensures a.dirX == 0.0 ==> r.x == a.x
    ensures a.dirY == 0.0 ==> r.y == a.y
  {
    AnchorPoint(
      a.x + a.dirX * strokeWpx * 1.5,
      a.y + a.dirY * strokeWpx * 1.5,
      a.dirX,
      a.dirY)
  }

  /**
   * With a positive stroke, the adjusted end point leaves the element along
   * its direction: left of x = 0 for a "left" anchor, right of `width - 1` for
   * a "right" one (and likewise vertically).
   */
  lemma PullBackLeavesElement(spec: JsValue, width: real, height: real, strokeWpx: real)
    requires IsKeywordHolder(spec) && strokeWpx > 0.0
    ensures var a := GetAnchorPoint(spec, width, height).value;
            var r := PullBack(a, strokeWpx);
      && (a.dirX == -1.0 ==> r.x == -1.5 * strokeWpx)
      && (a.dirX == 1.0 ==> r.x == width - 1.0 + 1.5 * strokeWpx)
      && (a.dirY == -1.0 ==> r.y == -1.5 * strokeWpx)
      && (a.dirY == 1.0 ==> r.y == height - 1.0 + 1.5 * strokeWpx)
  {
  }
}
