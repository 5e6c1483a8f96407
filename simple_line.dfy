/**
 * The `SimpleLine` class (simpleline.js): a connector drawn as an SVG curve
 * between two page elements. The line keeps its configuration `specs`, the
 * last offsets it saw, its SVG and path elements and its refresh timer, and
 * redraws itself from the configuration and the page's measurements.
 *
 * What the browser supplies (element offsets and sizes, the container,
 * `calc`, JavaScript's string-to-number conversion, `Math.sqrt`) comes in as
 * a `Page`; the SVG elements are represented by what was last written to them.
 */
module Connector {
  import opened Wrappers
  import opened JsValues
  import opened SpecsMerge
  import opened Anchors
  import opened Curve

  /** `offsetWidth` and `offsetHeight` of an element. */
  datatype Size = Size(width: real, height: real)

  /** The browser's answers during one call. */
  datatype Page = Page(
    hasContainer: bool,                // `getContainer()` found an offset parent (or the body)
    parentsExist: bool,                // both elements have a `parentElement` (the root and detached elements do not)
    startOffset: Point,                // `offsetLeft` / `offsetTop` of the start element
    endOffset: Point,                  // ... and of the end element
    startPosition: Point,              // `getElementPosition(start, container)`
    endPosition: Point,                // `getElementPosition(end, container)`
    startSize: Size,
    endSize: Size,
    evaluate: string -> Calc,          // `calc(expr)`, as the arrow adjustment reads it
    toNumber: string -> Option<real>,  // `Number(s)`; None where it is NaN
    sqrt: real -> real)                // `Math.sqrt`

  /**
   * What `calc(expr)` gives once the arrow adjustment multiplies it by a
   * number: it throws (a TypeError for a non-string, a SyntaxError or
   * ReferenceError from `eval`), it yields no finite number (NaN, an
   * infinity, `undefined` for an empty expression), or a length in pixels.
   */
  datatype Calc = Throws | NotANumber | Pixels(px: real)

  /** The SVG element's size and position attributes, as `update` last set them. */
  datatype Frame = Blank | Framed(bounds: Box) | FramedNaN

  /** The path element's curve, as `update` last set it (box coordinates). */
  datatype Path = Traced(start: CurveEnd, end: CurveEnd) | TracedNaN

  /** What one pass of `update`'s geometry produces; `DrawnNaN`: coordinates that are not all finite. */
  datatype Drawing = Failed | Drawn(g: Geometry) | DrawnNaN

  /** `update`'s effect on the two elements, and whether it threw. */
  datatype Repainted = Repainted(svg: Option<Frame>, line: Option<Path>, threw: bool)

  /** What `document.querySelector(selector)` does with a selector. */
  datatype Lookup =
    | Found                            // gives an `HTMLElement`
    | Missing                          // gives null, or an element that is not an `HTMLElement`
    | Invalid                          // throws a SyntaxError: not a valid selector

  /** An element argument of the constructor, as far as resolving it goes. */
  datatype ElementArg =
    | Element                          // an `HTMLElement`
    | Selector(lookup: Lookup)         // a string
    | StringObject(lookup: Lookup)     // a `String` object holding a selector
    | OtherValue                       // anything else

  /** How resolving both element arguments ends. */
  datatype Resolution = Resolved | Rejected | ResolveThrew

  /** The configuration `setConfig` installs when the line has none. */
  function Defaults(): (d: JsValue)
    ensures d.Obj?
  {
    Obj([
      Prop("autorefresh", Number(10.0)),
      Prop("class", Str("")),
      Prop("color", Str("")),
      Prop("anchors", Obj([
        Prop("start", Arr([Str("middle"), Str("right")])),
        Prop("end", Arr([Str("middle"), Str("left")]))])),
      Prop("gravity", Obj([
        Prop("start", Number(1.0)),
        Prop("end", Number(1.0))])),
      Prop("stroke", Str("4px"))])
  }

  /** The defaults hold six distinct keys, in the order the source lists them. */
  lemma DefaultsShape()
    ensures DistinctKeys(Defaults().props)
    ensures Keys(Defaults().props) == ["autorefresh", "class", "color", "anchors", "gravity", "stroke"]
  {
    assert DistinctKeys(Defaults().props);
  }

  /**
   * JavaScript's conversion of a primitive to a number; None is NaN.
   * Arrays and objects are taken as NaN.
   */
  function NumberValue(v: JsValue, toNumber: string -> Option<real>): Option<real> {
    match v
    case Number(n) => Some(n)
    case Bool(b) => Some(if b then 1.0 else 0.0)
    case Null => Some(0.0)
    case Str(s) => toNumber(s)
    case _ => None
  }

  /** The period of the refresh timer: set only when `specs.autorefresh > 0`. */
  function RefreshPeriod(specs: JsValue, toNumber: string -> Option<real>): (r: Option<real>)
    requires specs.Obj?
    ensures r.Some? ==> r.value > 0.0
  {
    match NumberValue(Get(specs, "autorefresh"), toNumber)
    case Some(n) => if n > 0.0 then Some(n) else None
    case None => None
  }

  /**
   * When the refresh timer runs, as `specs.autorefresh > 0` decides it: a
   * positive number is the period, `true` counts as 1, a string counts as the
   * number it spells, and zero, negative numbers, `false`, null and
   * `undefined` leave the timer off.
   */
  lemma RefreshTimerRuns(specs: JsValue, toNumber: string -> Option<real>)
    requires specs.Obj?
    ensures var a := Get(specs, "autorefresh");
            var r := RefreshPeriod(specs, toNumber);
      && (a.Number? ==> (r.Some? <==> a.n > 0.0) && (r.Some? ==> r.value == a.n))
      && (a == Bool(true) ==> r == Some(1.0))
      && (a.Str? ==> (r.Some? <==> toNumber(a.s).Some? && toNumber(a.s).value > 0.0)
                     && (r.Some? ==> r == toNumber(a.s)))
      && (a.Undefined? || a.Null? || a == Bool(false) ==> r.None?)
  {
  }

  /** The default configuration refreshes every 10 milliseconds. */
  lemma DefaultRefreshPeriod(toNumber: string -> Option<real>)
    ensures RefreshPeriod(Defaults(), toNumber) == Some(10.0)
  {
    assert Get(Defaults(), "autorefresh") == Number(10.0);
  }

  /**
   * `getAnchorPoint(anchor)`: "start" reads the start element's anchors and
   * size, any other name the end element's. None where the source throws:
   * `specs.anchors` is null or undefined, or the entry has no `includes`.
   */
  function AnchorOf(specs: JsValue, anchor: string, page: Page): (r: Option<AnchorPoint>)
    requires specs.Obj?
    ensures var anchors := Get(specs, "anchors");
      r.Some? <==> !anchors.Null? && !anchors.Undefined?
                   && IsKeywordHolder(Get(anchors, if anchor == "start" then "start" else "end"))
  {
    var key := if anchor == "start" then "start" else "end";
    var size := if anchor == "start" then page.startSize else page.endSize;
    var anchors := Get(specs, "anchors");
    if anchors.Null? || anchors.Undefined? then None
    else GetAnchorPoint(Get(anchors, key), size.width, size.height)
  }

  /** Every anchor name but "start" stands for the end of the line. */
  lemma AnyOtherNameIsEnd(specs: JsValue, anchor: string, page: Page)
    requires specs.Obj? && anchor != "start"
    ensures AnchorOf(specs, anchor, page) == AnchorOf(specs, "end", page)
  {
  }

  /**
   * Lines 355-418 of `update`: both anchors, the end pulled back by the
   * stroke, the spans, the weight, the control points and the box. Where the
   * source throws (an anchor entry without `includes`, a stroke that is not a
   * string or that `calc` cannot evaluate, a null or undefined
   * `specs.gravity`) the result is `Failed`; a stroke `calc` turns into no
   * finite number, or a gravity that is not a number, leaves coordinates that
   * are not finite.
   */
  function Draw(specs: JsValue, page: Page): (r: Drawing)
    requires specs.Obj?
    ensures r.Failed? <==>
      || AnchorOf(specs, "start", page).None? || AnchorOf(specs, "end", page).None?
      || !Get(specs, "stroke").Str? || page.evaluate(Get(specs, "stroke").s).Throws?
      || Get(specs, "gravity").Null? || Get(specs, "gravity").Undefined?
    ensures r.DrawnNaN? <==>
      && !r.Failed?
      && (|| page.evaluate(Get(specs, "stroke").s).NotANumber?
          || NumberValue(Get(Get(specs, "gravity"), "start"), page.toNumber).None?
          || NumberValue(Get(Get(specs, "gravity"), "end"), page.toNumber).None?)
    ensures r.Drawn? ==>
      var m := Margin(page.toNumber(Get(specs, "stroke").s));
      EndsWithin(r.g.start, r.g.end, m, r.g.bounds.w - m, m, r.g.bounds.h - m)
  {
    var sa := AnchorOf(specs, "start", page);
    var ea := AnchorOf(specs, "end", page);
    var stroke := Get(specs, "stroke");
    if sa.None? || ea.None? || !stroke.Str? || page.evaluate(stroke.s).Throws? then Failed
    else
      var gravity := Get(specs, "gravity");
      if gravity.Null? || gravity.Undefined? then Failed
      else
        var gs := NumberValue(Get(gravity, "start"), page.toNumber);
        var ge := NumberValue(Get(gravity, "end"), page.toNumber);
        if page.evaluate(stroke.s).NotANumber? || gs.None? || ge.None? then DrawnNaN
        else
          var e := PullBack(ea.value, page.evaluate(stroke.s).px);
          var w := SpanW(page.startPosition, sa.value, page.endPosition, e);
          var h := SpanH(page.startPosition, sa.value, page.endPosition, e);
          var weight := Weight(w, h, page.sqrt);
          var m := Margin(page.toNumber(stroke.s));
          LayoutInsideMargin(page.startPosition, sa.value, page.endPosition, e, gs.value, ge.value, weight, m);
          Drawn(Layout(page.startPosition, sa.value, page.endPosition, e, gs.value, ge.value, weight, m))
  }

  /**
   * The margin follows the stroke: a drawn box is at least ten strokes wide
   * and high when the stroke reads as a number, and at least 50 pixels
   * otherwise.
   */
  lemma DrawnBoxFitsStroke(specs: JsValue, page: Page)
    requires specs.Obj? && Draw(specs, page).Drawn?
    ensures var b := Draw(specs, page).g.bounds;
            var n := page.toNumber(Get(specs, "stroke").s);
      && (n.None? ==> b.w >= 50.0 && b.h >= 50.0)
      && (n.Some? ==> b.w >= 10.0 * n.value && b.h >= 10.0 * n.value)
  {
    var sa := AnchorOf(specs, "start", page).value;
    var ea := AnchorOf(specs, "end", page).value;
    var stroke := Get(specs, "stroke").s;
    var gravity := Get(specs, "gravity");
    var gs := NumberValue(Get(gravity, "start"), page.toNumber).value;
    var ge := NumberValue(Get(gravity, "end"), page.toNumber).value;
    DrawResolved(specs, page, sa, ea, stroke, page.evaluate(stroke).px, gs, ge);
    var e := PullBack(ea, page.evaluate(stroke).px);
    var weight := Weight(SpanW(page.startPosition, sa, page.endPosition, e),
                         SpanH(page.startPosition, sa, page.endPosition, e), page.sqrt);
    BoundsAtLeastTwoMargins(CurveEndAt(page.startPosition, sa, gs, weight),
                            CurveEndAt(page.endPosition, e, ge, weight),
                            Margin(page.toNumber(stroke)));
  }

  /**
   * `update()`'s effect on the SVG and path elements: nothing unless the line
   * is active and has a container; otherwise an SVG exists afterwards (made
   * before anything can throw), and when the geometry succeeds the SVG is
   * framed on the box and the path traces the curve.
   */
  function Repaint(active: bool, svg: Option<Frame>, line: Option<Path>, specs: JsValue, page: Page)
    : (r: Repainted)
    requires specs.Obj?
    ensures !active || !page.hasContainer ==> r == Repainted(svg, line, false)
    ensures active && page.hasContainer ==> r.svg.Some?
    ensures r.threw <==> active && page.hasContainer && Draw(specs, page).Failed?
    ensures r.threw ==> r.line == line && (svg.Some? ==> r.svg == svg)
    ensures active && page.hasContainer && !r.threw ==> r.line.Some?
  {
    if !active || !page.hasContainer then Repainted(svg, line, false)
    else
      var made := if svg.Some? then svg else Some(Blank);
      match Draw(specs, page)
      case Failed => Repainted(made, line, true)
      case Drawn(g) => Repainted(Some(Framed(g.bounds)), Some(Traced(g.start, g.end)), false)
      case DrawnNaN => Repainted(Some(FramedNaN), Some(TracedNaN), false)
  }

  /** A drawn path lies inside its SVG with the margin to spare on every side. */
  lemma RepaintKeepsCurveInFrame(active: bool, svg: Option<Frame>, line: Option<Path>,
                                 specs: JsValue, page: Page)
    requires specs.Obj? && active && page.hasContainer && Draw(specs, page).Drawn?
    ensures var r := Repaint(active, svg, line, specs, page);
            var m := Margin(page.toNumber(Get(specs, "stroke").s));
      && r.svg.Some? && r.svg.value.Framed? && r.line.Some? && r.line.value.Traced?
      && EndsWithin(r.line.value.start, r.line.value.end, m, r.svg.value.bounds.w - m,
                    m, r.svg.value.bounds.h - m)
  {
  }

  /**
   * With the default configuration, two 100×50 elements at x = 0 and x = 500
   * in their container, `calc("4px") == 4` and an exact square root, the
   * curve is drawn from (25, 25) to (420, 25) in a 445×50 box at (74, 0).
   */
  lemma DefaultsDrawExample(page: Page)
    requires page.startPosition == Point(0.0, 0.0) && page.endPosition == Point(500.0, 0.0)
    requires page.startSize == Size(100.0, 50.0) && page.endSize == Size(100.0, 50.0)
    requires page.evaluate("4px") == Pixels(4.0) && page.toNumber("4px").None?
    requires page.sqrt(156025.0) == 395.0
    ensures Draw(Defaults(), page)
            == Drawn(Geometry(Box(74.0, 0.0, 445.0, 50.0),
                              CurveEnd(25.0, 25.0, 222.5, 25.0),
                              CurveEnd(420.0, 25.0, 222.5, 25.0)))
  {
    DefaultStartAnchor(page);
    DefaultEndAnchor(page);
    DefaultStroke();
    DefaultGravity(page.toNumber);
    ResolvedExample(Defaults(), page);
  }

  /** The example above for any configuration that resolves as the defaults do. */
  lemma ResolvedExample(specs: JsValue, page: Page)
    requires specs.Obj?
    requires page.startPosition == Point(0.0, 0.0) && page.endPosition == Point(500.0, 0.0)
    requires page.evaluate("4px") == Pixels(4.0) && page.toNumber("4px").None?
    requires page.sqrt(156025.0) == 395.0
    requires AnchorOf(specs, "start", page) == Some(AnchorPoint(99.0, 25.0, 1.0, 0.0))
    requires AnchorOf(specs, "end", page) == Some(AnchorPoint(0.0, 25.0, -1.0, 0.0))
    requires Get(specs, "stroke") == Str("4px")
    requires var gravity := Get(specs, "gravity");
      && gravity.Obj?
      && NumberValue(Get(gravity, "start"), page.toNumber) == Some(1.0)
      && NumberValue(Get(gravity, "end"), page.toNumber) == Some(1.0)
    ensures Draw(specs, page)
            == Drawn(Geometry(Box(74.0, 0.0, 445.0, 50.0),
                              CurveEnd(25.0, 25.0, 222.5, 25.0),
                              CurveEnd(420.0, 25.0, 222.5, 25.0)))
  {
    var sa, ea := AnchorPoint(99.0, 25.0, 1.0, 0.0), AnchorPoint(0.0, 25.0, -1.0, 0.0);
    DrawResolved(specs, page, sa, ea, "4px", 4.0, 1.0, 1.0);
    assert PullBack(ea, 4.0) == AnchorPoint(-6.0, 25.0, -1.0, 0.0);
    ExampleOnPage(page, sa, PullBack(ea, 4.0));
  }

  /** The arithmetic of the example on a page that places and measures the two elements as described. */
  lemma ExampleOnPage(page: Page, sa: AnchorPoint, e: AnchorPoint)
    requires page.startPosition == Point(0.0, 0.0) && page.endPosition == Point(500.0, 0.0)
    requires page.toNumber("4px").None? && page.sqrt(156025.0) == 395.0
    requires sa == AnchorPoint(99.0, 25.0, 1.0, 0.0) && e == AnchorPoint(-6.0, 25.0, -1.0, 0.0)
    ensures var w := SpanW(page.startPosition, sa, page.endPosition, e);
            var h := SpanH(page.startPosition, sa, page.endPosition, e);
      Layout(page.startPosition, sa, page.endPosition, e, 1.0, 1.0,
             Weight(w, h, page.sqrt), Margin(page.toNumber("4px")))
      == Geometry(Box(74.0, 0.0, 445.0, 50.0),
                  CurveEnd(25.0, 25.0, 222.5, 25.0),
                  CurveEnd(420.0, 25.0, 222.5, 25.0))
  {
    ExampleSpans(page.startPosition, sa, page.endPosition, e);
    ExampleWeight(page.sqrt);
    assert Margin(page.toNumber("4px")) == 25.0;
    ExampleLayout(page.startPosition, sa, page.endPosition, e);
  }

  /**
   * When both anchors resolve, the stroke is a string `calc` can evaluate and
   * both gravities are numbers, `update` lays the curve out from them, with the
   * end anchor pulled back by the stroke and the weight taken from the spans.
   */
  lemma DrawResolved(specs: JsValue, page: Page, sa: AnchorPoint, ea: AnchorPoint,
                     stroke: string, strokePx: real, gs: real, ge: real)
    requires specs.Obj?
    requires AnchorOf(specs, "start", page) == Some(sa) && AnchorOf(specs, "end", page) == Some(ea)
    requires Get(specs, "stroke") == Str(stroke) && page.evaluate(stroke) == Pixels(strokePx)
    requires var gravity := Get(specs, "gravity");
      && !gravity.Null? && !gravity.Undefined?
      && NumberValue(Get(gravity, "start"), page.toNumber) == Some(gs)
      && NumberValue(Get(gravity, "end"), page.toNumber) == Some(ge)
    ensures var e := PullBack(ea, strokePx);
            var w := SpanW(page.startPosition, sa, page.endPosition, e);
            var h := SpanH(page.startPosition, sa, page.endPosition, e);
      Draw(specs, page) == Drawn(Layout(page.startPosition, sa, page.endPosition, e, gs, ge,
                                        Weight(w, h, page.sqrt), Margin(page.toNumber(stroke))))
  {
  }

  /** The default stroke is the string "4px". */
  lemma DefaultStroke()
    ensures Get(Defaults(), "stroke") == Str("4px")
  {
  }

  /** Both default gravities are the number 1. */
  lemma DefaultGravity(toNumber: string -> Option<real>)
    ensures var gravity := Get(Defaults(), "gravity");
      && gravity.Obj?
      && NumberValue(Get(gravity, "start"), toNumber) == Some(1.0)
      && NumberValue(Get(gravity, "end"), toNumber) == Some(1.0)
  {
    var gravity := Get(Defaults(), "gravity");
    assert gravity == Obj([Prop("start", Number(1.0)), Prop("end", Number(1.0))]);
    assert Get(gravity, "start") == Number(1.0);
  }

  /** The default anchor entries: ["middle", "right"] at the start, ["middle", "left"] at the end. */
  lemma DefaultAnchorEntries()
    ensures var anchors := Get(Defaults(), "anchors");
      && anchors.Obj?
      && Get(anchors, "start") == Arr([Str("middle"), Str("right")])
      && Get(anchors, "end") == Arr([Str("middle"), Str("left")])
  {
    var anchors := Get(Defaults(), "anchors");
    assert anchors == Obj([
        Prop("start", Arr([Str("middle"), Str("right")])),
        Prop("end", Arr([Str("middle"), Str("left")]))]);
  }

  /** With the defaults, a 100×50 start element is anchored at the middle of its right edge. */
  lemma DefaultStartAnchor(page: Page)
    requires page.startSize == Size(100.0, 50.0)
    ensures AnchorOf(Defaults(), "start", page) == Some(AnchorPoint(99.0, 25.0, 1.0, 0.0))
  {
    DefaultAnchorEntries();
    var entry := Arr([Str("middle"), Str("right")]);
    assert Get(Get(Defaults(), "anchors"), "start") == entry;
    KeywordPairResolves(Middle, Right, 100.0, 50.0);
    assert GetAnchorPoint(entry, 100.0, 50.0) == Some(Placement(Middle, Right, 100.0, 50.0));
    assert Placement(Middle, Right, 100.0, 50.0) == AnchorPoint(99.0, 25.0, 1.0, 0.0);
  }

  /** With the defaults, a 100×50 end element is anchored at the middle of its left edge. */
  lemma DefaultEndAnchor(page: Page)
    requires page.endSize == Size(100.0, 50.0)
    ensures AnchorOf(Defaults(), "end", page) == Some(AnchorPoint(0.0, 25.0, -1.0, 0.0))
  {
    DefaultAnchorEntries();
    KeywordPairResolves(Middle, Left, 100.0, 50.0);
  }

  /**
   * Lines 115-127 (and 130-142) as written: the second test reads the field
   * `this.start`, still unset at that point, so a `String` object is rejected
   * even when it names an element.
   */
  function ResolvesAsWritten(arg: ElementArg): (ok: bool)
    ensures arg.Element? ==> ok
    ensures arg.Selector? ==> (ok <==> arg.lookup.Found?)
    ensures arg.StringObject? || arg.OtherValue? ==> !ok
  {
    match arg
    case Element => true
    case Selector(lookup) => lookup.Found?
    case StringObject(_) => false
    case OtherValue => false
  }

  /**
   * Resolving an end of the line, as the test `start instanceof String`
   * evidently means: a selector resolves when it finds an element, whether
   * it is a string primitive or a `String` object.
   */
  function Resolves(arg: ElementArg): (ok: bool)
    ensures arg.Element? ==> ok
    ensures arg.Selector? || arg.StringObject? ==> (ok <==> arg.lookup.Found?)
    ensures arg.OtherValue? ==> !ok
  {
    match arg
    case Element => true
    case Selector(lookup) => lookup.Found?
    case StringObject(lookup) => lookup.Found?
    case OtherValue => false
  }

  /** Resolving the argument throws: `querySelector` rejects the selector. */
  function LookupThrows(arg: ElementArg): (t: bool)
    ensures t ==> !Resolves(arg)
    ensures arg.Element? || arg.OtherValue? ==> !t
  {
    match arg
    case Selector(lookup) => lookup.Invalid?
    case StringObject(lookup) => lookup.Invalid?
    case _ => false
  }

  /**
   * Lines 114-142: the start is resolved before the end, and a start that is
   * rejected ends construction before the end is looked at.
   */
  function ResolveEnds(start: ElementArg, end: ElementArg): (r: Resolution)
    ensures r.Resolved? <==> Resolves(start) && Resolves(end)
    ensures r.ResolveThrew? <==> LookupThrows(start) || (Resolves(start) && LookupThrows(end))
  {
    if LookupThrows(start) then ResolveThrew
    else if !Resolves(start) then Rejected
    else if LookupThrows(end) then ResolveThrew
    else if !Resolves(end) then Rejected
    else Resolved
  }

  /** A start that finds no element hides the end: even an invalid end selector is never tried. */
  lemma RejectedStartHidesEnd(start: ElementArg, end: ElementArg)
    requires !Resolves(start) && !LookupThrows(start)
    ensures ResolveEnds(start, end) == Rejected
  {
  }

  /** The two readings differ exactly on `String` objects that name an element. */
  lemma StringObjectRejectedAsWritten(arg: ElementArg)
    ensures ResolvesAsWritten(arg) != Resolves(arg) <==> arg == StringObject(Found)
  {
  }

  /**
   * The merge step of `setConfig`: `specsCopy` merges an object or array
   * `config` into `base`, and may throw part way; any other value (null
   * included, being falsy) leaves `base` as it is.
   */
  function Reconfigured(base: JsValue, config: JsValue): (r: Outcome)
    requires base.Obj?
    ensures r.value.Obj?
    ensures !(config.Obj? || config.Arr?) ==> r == Outcome(base, false)
  {
    if config.Obj? || config.Arr? then
      MergeKeepsKeys(base, config);
      Merge(base, config)
    else Outcome(base, false)
  }

  /** Merging a configuration neither adds nor drops a key of the specs. */
  lemma ReconfiguredKeepsKeys(base: JsValue, config: JsValue)
    requires base.Obj?
    ensures Keys(Reconfigured(base, config).value.props) == Keys(base.props)
  {
    if config.Obj? || config.Arr? {
      MergeKeepsKeys(base, config);
    }
  }

  /** `SimpleLine.idCounter`: the class-wide counter that numbers the lines. */
  class IdCounter {
    var next: nat

    constructor ()
      ensures next == 0
    {
      next := 0;
    }

    /** `SimpleLine.idCounter++`: hands out the current value and moves past it. */
    method Allocate() returns (id: nat)
      modifies this
      ensures id == old(next) && next == old(next) + 1
    {
      id := next;
      next := next + 1;
    }
  }

  class SimpleLine {
    var id: nat
    var specs: JsValue                 // the configuration; undefined until `setConfig` runs
    var active: bool                   // `this.active`; unset (falsy) until construction completes
    var observing: bool                // the resize and mutation observers exist
    var timer: Option<real>            // the running refresh timer's period, if one runs
    var startPos: Option<Point>        // the last offset snapshot of the start element
    var endPos: Option<Point>          // ... and of the end element
    var svg: Option<Frame>             // `this.svg`, None for null
    var line: Option<Path>             // `this.line`, None for null
    var hasElements: bool              // `this.start` and `this.end` both hold elements
    var constructionThrew: bool        // `new SimpleLine(…)` threw; the caller never receives the object

    /**
     * `new SimpleLine(start, end, config)`: takes the next id, installs the
     * configuration, resolves both elements and, only when both resolve,
     * starts observing, takes the first offsets, starts the timer, becomes
     * active and draws. A throw from the merge, from `querySelector` or from
     * observing a parent that does not exist ends construction.
     */
    constructor (counter: IdCounter, start: ElementArg, end: ElementArg, config: JsValue, page: Page)
      modifies counter
      ensures id == old(counter.next) && counter.next == old(counter.next) + 1
      ensures specs == Reconfigured(Defaults(), config).value
      ensures hasElements <==> !Reconfigured(Defaults(), config).threw && Resolves(start) && Resolves(end)
      ensures observing <==> hasElements
      ensures active <==> hasElements && page.parentsExist
      ensures !active ==> svg.None? && line.None? && timer.None?
      ensures !active ==>
        (constructionThrew <==>
          || Reconfigured(Defaults(), config).threw
          || ResolveEnds(start, end).ResolveThrew?
          || hasElements)
      ensures active ==> startPos == Some(page.startOffset) && endPos == Some(page.endOffset)
      ensures active ==> timer == RefreshPeriod(specs, page.toNumber)
      ensures active ==> Repainted(svg, line, constructionThrew) == Repaint(true, None, None, specs, page)
    {
      svg := None;
      line := None;
      specs := Undefined;
      active := false;
      observing := false;
      timer := None;
      startPos := None;
      endPos := None;
      hasElements := false;
      constructionThrew := false;
      id := counter.next;
      new;
      var _ := counter.Allocate();
      var threw := Configure(config, page);
      constructionThrew := threw;
      if !threw {
        match ResolveEnds(start, end)
        case ResolveThrew =>
          constructionThrew := true;
        case Rejected =>
        case Resolved =>
          hasElements := true;
          constructionThrew := Activate(page);
      }
    }

    /**
     * The constructor's first half: `setConfig(config)` on a line that has
     * no configuration and no SVG yet, so it only merges into the defaults.
     */
    method Configure(config: JsValue, page: Page) returns (threw: bool)
      requires specs.Undefined? && svg.None? && line.None? && timer.None?
      modifies this
      ensures specs == Reconfigured(Defaults(), config).value && threw == Reconfigured(Defaults(), config).threw
      ensures svg.None? && line.None? && timer.None?
      ensures active == old(active) && observing == old(observing) && id == old(id) && hasElements == old(hasElements)
    {
      threw := SetConfig(config, page);
    }

    /**
     * The constructor's second half, once both elements resolve: observe
     * both elements, take the first offsets, start the timer, become active
     * and draw for the first time. Observing the parent of an element that
     * has none throws, before the line becomes active.
     */
    method Activate(page: Page) returns (threw: bool)
      requires specs.Obj? && svg.None? && line.None? && timer.None? && !active && hasElements
      modifies this
      ensures specs == old(specs) && id == old(id) && hasElements && observing
      ensures active <==> page.parentsExist
      ensures !page.parentsExist ==> threw && svg.None? && line.None? && timer.None?
      ensures page.parentsExist ==> startPos == Some(page.startOffset) && endPos == Some(page.endOffset)
      ensures page.parentsExist ==> timer == RefreshPeriod(specs, page.toNumber)
      ensures page.parentsExist ==> Repainted(svg, line, threw) == Repaint(true, None, None, specs, page)
    {
      observing := true;
      if !page.parentsExist {
        // `mutationObserver.observe(null, …)` throws a TypeError
        return true;
      }
      var _, _ := PositionCheck(page);
      timer := RefreshPeriod(specs, page.toNumber);
      active := true;
      threw := Update(page);
    }

    /** `update()`: redraws when active and placed in a container. */
    method Update(page: Page) returns (threw: bool)
      requires specs.Obj?
      modifies this
      ensures specs == old(specs) && active == old(active) && observing == old(observing)
      ensures timer == old(timer) && startPos == old(startPos) && endPos == old(endPos)
      ensures id == old(id) && hasElements == old(hasElements)
      ensures Repainted(svg, line, threw) == Repaint(old(active), old(svg), old(line), specs, page)
    {
      threw := false;
      if !active || !page.hasContainer {
        return;
      }
      if svg.None? {
        svg := Some(Blank);
      }
      match Draw(specs, page)
      case Failed =>
        threw := true;
      case Drawn(g) =>
        svg := Some(Framed(g.bounds));
        line := Some(Traced(g.start, g.end));
      case DrawnNaN =>
        svg := Some(FramedNaN);
        line := Some(TracedNaN);
    }

    /**
     * `setConfig(config)`: installs the defaults if there is no configuration
     * yet, merges an object `config` into it with `specsCopy`, and, once the
     * SVG exists, restarts the timer and redraws.
     */
    method SetConfig(config: JsValue, page: Page) returns (threw: bool)
      requires specs.Obj? || specs.Undefined?
      modifies this
      ensures var o := Reconfigured(if old(specs).Undefined? then Defaults() else old(specs), config);
        && specs == o.value
        && (o.threw ==> threw && unchanged(`svg, `line, `timer))
        && (!o.threw && old(svg).None? ==> !threw && unchanged(`svg, `line, `timer))
        && (!o.threw && old(svg).Some? ==>
              && timer == RefreshPeriod(specs, page.toNumber)
              && Repainted(svg, line, threw) == Repaint(old(active), old(svg), old(line), specs, page))
      ensures active == old(active) && observing == old(observing) && id == old(id) && hasElements == old(hasElements)
      ensures startPos == old(startPos) && endPos == old(endPos)
    {
      if specs.Undefined? {
        specs := Defaults();
      }
      threw := false;
      if config.Obj? || config.Arr? {
        var merged, t := SpecsCopy(specs, config);
        specs := merged;
        if t {
          threw := true;
          return;
        }
      }
      if svg.Some? {
        timer := RefreshPeriod(specs, page.toNumber);
        threw := Update(page);
      }
    }

    /** The `cssClass` getter: `specs.class`. */
    function CssClass(): JsValue
      reads this
      requires specs.Obj?
    {
      Get(specs, "class")
    }

    /**
     * The `cssClass` setter: assigns `specs.class` and redraws. The SVG's
     * class attribute is only written when the SVG is first made, so an
     * existing SVG keeps its old class.
     */
    method SetCssClass(cls: JsValue, page: Page) returns (threw: bool)
      requires specs.Obj?
      modifies this
      ensures specs == Obj(SetProp(old(specs).props, "class", cls))
      ensures CssClass() == cls
      ensures forall k :: k != "class" ==> Get(specs, k) == Get(old(specs), k)
      ensures active == old(active) && observing == old(observing) && id == old(id) && hasElements == old(hasElements)
      ensures timer == old(timer) && startPos == old(startPos) && endPos == old(endPos)
      ensures Repainted(svg, line, threw) == Repaint(old(active), old(svg), old(line), specs, page)
    {
      ghost var before := specs;
      specs := Obj(SetProp(specs.props, "class", cls));
      forall k | true
        ensures FindProp(specs.props, k) == (if k == "class" then Some(cls) else FindProp(before.props, k))
      {
        SetPropThenFind(before.props, "class", cls, k);
      }
      threw := Update(page);
    }

    /**
     * `positionCheck()`: stores the current offsets of both elements and
     * redraws when either differs from the previous snapshot. The first call
     * has nothing to compare with and never redraws. Without both elements,
     * reading `offsetLeft` throws before anything is stored.
     */
    method PositionCheck(page: Page) returns (needUpdate: bool, threw: bool)
      requires specs.Obj?
      modifies this
      ensures !old(hasElements) ==> !needUpdate && threw && unchanged(this)
      ensures specs == old(specs) && active == old(active) && observing == old(observing)
      ensures timer == old(timer) && id == old(id) && hasElements == old(hasElements)
      ensures hasElements ==> startPos == Some(page.startOffset) && endPos == Some(page.endOffset)
      ensures hasElements ==>
        (needUpdate <==>
          || (old(startPos).Some? && old(startPos).value != page.startOffset)
          || (old(endPos).Some? && old(endPos).value != page.endOffset))
      ensures old(startPos).None? && old(endPos).None? ==> !needUpdate
      ensures needUpdate ==>
        Repainted(svg, line, threw) == Repaint(old(active), old(svg), old(line), specs, page)
      ensures hasElements && !needUpdate ==> !threw && svg == old(svg) && line == old(line)
    {
      if !hasElements {
        return false, true;
      }
      needUpdate := false;
      if startPos.Some? {
        needUpdate := needUpdate || startPos.value != page.startOffset;
      }
      startPos := Some(page.startOffset);
      if endPos.Some? {
        needUpdate := needUpdate || endPos.value != page.endOffset;
      }
      endPos := Some(page.endOffset);
      threw := false;
      if needUpdate {
        threw := Update(page);
      }
    }

    /**
     * `remove()`: throws at once when there is no SVG; otherwise drops the SVG
     * and the path, stops the timer and the observers, and deactivates the
     * line. A second call therefore throws.
     */
    method Remove() returns (threw: bool)
      modifies this
      ensures old(svg).None? ==> threw && unchanged(this)
      ensures old(svg).Some? ==> svg.None? && line.None? && timer.None?
      ensures old(svg).Some? && old(observing) ==> !threw && !active && !observing
      ensures old(svg).Some? && !old(observing) ==> threw && active == old(active)
      ensures specs == old(specs) && id == old(id) && startPos == old(startPos) && endPos == old(endPos)
      ensures hasElements == old(hasElements)
    {
      if svg.None? {
        return true;
      }
      svg := None;
      line := None;
      timer := None;
      if !observing {
        return true;
      }
      observing := false;
      active := false;
      threw := false;
    }
  }

  /** Once the line is inactive, `update` leaves both elements alone and cannot throw. */
  lemma InactiveRepaintIsNoOp(svg: Option<Frame>, line: Option<Path>, specs: JsValue, page: Page)
    requires specs.Obj?
    ensures Repaint(false, svg, line, specs, page) == Repainted(svg, line, false)
  {
  }
}
