/**
 * CSS length conversion (css-calc.js): the `Absolute` ratio table, the
 * `Relative` unit functions taken with an explicit measurement context, the
 * `Units` union looked up by name, and `convert`.
 *
 * Lengths are real numbers, so ratios such as 96/2.54 are exact. JavaScript's
 * `/` can also yield NaN or an infinity; `Num` keeps those outcomes apart.
 */
module CssCalc {
  import opened Wrappers
  import opened JsMath

  /** The units that are own keys of the `Units` object. */
  datatype Unit =
    | Px | Cm | Mm | Q | In | Pc | Pt            // the `Absolute` table
    | Vh | Vw | Vmin | Vmax | Rem | PercentW | PercentH  // the `Relative` functions

  /**
   * The measurement context `ctx` that `calcCtx` builds from the page:
   * the reference element's width and height, the viewport size and the
   * root element's font size, all in pixels.
   */
  datatype Ctx = Ctx(
    width: real,
    height: real,
    viewportWidth: real,
    viewportHeight: real,
    htmlFontSize: real)

  /** A JavaScript number, as the division at the end of `convert` can produce it. */
  datatype Num = Finite(v: real) | NaN | PosInfinity | NegInfinity

  /** The key of a unit in the `Units` object. */
  function UnitName(u: Unit): string {
    match u
    case Px => "px"
    case Cm => "cm"
    case Mm => "mm"
    case Q => "Q"
    case In => "in"
    case Pc => "pc"
    case Pt => "pt"
    case Vh => "vh"
    case Vw => "vw"
    case Vmin => "vmin"
    case Vmax => "vmax"
    case Rem => "rem"
    case PercentW => "%w"
    case PercentH => "%h"
  }

  /** `Units[name]`: the unit whose key is `name`, or nothing (JavaScript's `undefined`). */
  function LookupUnit(name: string): (r: Option<Unit>)
    ensures r.Some? ==> UnitName(r.value) == name
    ensures r.None? ==> forall u: Unit :: UnitName(u) != name
  {
    if name == "px" then Some(Px)
    else if name == "cm" then Some(Cm)
    else if name == "mm" then Some(Mm)
    else if name == "Q" then Some(Q)
    else if name == "in" then Some(In)
    else if name == "pc" then Some(Pc)
    else if name == "pt" then Some(Pt)
    else if name == "vh" then Some(Vh)
    else if name == "vw" then Some(Vw)
    else if name == "vmin" then Some(Vmin)
    else if name == "vmax" then Some(Vmax)
    else if name == "rem" then Some(Rem)
    else if name == "%w" then Some(PercentW)
    else if name == "%h" then Some(PercentH)
    else None
  }

  /** Looking a unit up by its own key finds that unit. */
  lemma LookupUnitName(u: Unit)
    ensures LookupUnit(UnitName(u)) == Some(u)
  {
  }

  /** Units held in the `Absolute` table rather than in `Relative`. */
  predicate IsAbsolute(u: Unit) {
    u.Px? || u.Cm? || u.Mm? || u.Q? || u.In? || u.Pc? || u.Pt?
  }

  /** The `Absolute` table: pixels per unit. */
  function AbsolutePx(u: Unit): (r: real)
    requires IsAbsolute(u)
    ensures r > 0.0
  {
    match u
    case Px => 1.0
    case Cm => 96.0 / 2.54
    case Mm => 96.0 / 25.4
    case Q => 96.0 / 101.6
    case In => 96.0
    case Pc => 96.0 / 6.0
    case Pt => 96.0 / 72.0
  }

  /**
   * The `Relative` table: pixels for `count` units, read from the context.
   * Each entry's default `count = 1` is not modelled: every call passes a count.
   */
  function RelativePx(u: Unit, count: real, ctx: Ctx): real
    requires !IsAbsolute(u)
  {
    match u
    case Vh => (ctx.viewportHeight / 100.0) * count
    case Vw => (ctx.viewportWidth / 100.0) * count
    case Vmin => (Min(ctx.viewportWidth, ctx.viewportHeight) / 100.0) * count
    case Vmax => (Max(ctx.viewportWidth, ctx.viewportHeight) / 100.0) * count
    case Rem => ctx.htmlFontSize * count
    case PercentW => (ctx.width / 100.0) * count
    case PercentH => (ctx.height / 100.0) * count
  }

  /** `basePx` in `convert`: the source amount in pixels. */
  function BasePx(u: Unit, count: real, ctx: Ctx): real {
    if IsAbsolute(u) then AbsolutePx(u) * count else RelativePx(u, count, ctx)
  }

  /** `dstBasePx` in `convert`: one destination unit in pixels. */
  function UnitPx(u: Unit, ctx: Ctx): real {
    if IsAbsolute(u) then AbsolutePx(u) else RelativePx(u, 1.0, ctx)
  }

  /** JavaScript's `/` on two numbers, over the reals. */
  function Divide(a: real, b: real): (r: Num)
    ensures r.Finite? <==> b != 0.0
    ensures r.Finite? ==> r.v * b == a
    ensures r == NaN <==> a == 0.0 && b == 0.0
    ensures r == PosInfinity <==> a > 0.0 && b == 0.0
  {
    if b != 0.0 then Finite(a / b)
    else if a == 0.0 then NaN
    else if a > 0.0 then PosInfinity
    else NegInfinity
  }

  /**
   * `convert(count, fromUnits, toUnits, ctx)`. A finite result is the number
   * of destination units that make up the same pixel length as `count` source
   * units; an unknown unit name on either side gives NaN.
   */
  function Convert(count: real, fromUnits: string, toUnits: string, ctx: Ctx): (r: Num)
    ensures LookupUnit(fromUnits).None? || LookupUnit(toUnits).None? ==> r == NaN
    ensures r.Finite? ==>
              && LookupUnit(fromUnits).Some? && LookupUnit(toUnits).Some?
              && r.v * UnitPx(LookupUnit(toUnits).value, ctx)
                 == BasePx(LookupUnit(fromUnits).value, count, ctx)
  {
    match (LookupUnit(fromUnits), LookupUnit(toUnits))
    case (Some(f), Some(t)) => Divide(BasePx(f, count, ctx), UnitPx(t, ctx))
    case _ => NaN
  }

  /** Every unit, absolute or relative, is linear in its count: `f(count) == count * f(1)`. */
  lemma BasePxLinear(u: Unit, count: real, ctx: Ctx)
    ensures BasePx(u, count, ctx) == count * UnitPx(u, ctx)
  {
  }

  /** One `vmin` never exceeds one `vmax`. */
  lemma VminAtMostVmax(ctx: Ctx)
    ensures UnitPx(Vmin, ctx) <= UnitPx(Vmax, ctx)
  {
  }

  /** Converting an absolute unit to pixels multiplies by its table ratio. */
  lemma AbsoluteToPx(n: real, u: Unit, ctx: Ctx)
    requires IsAbsolute(u)
    ensures Convert(n, UnitName(u), "px", ctx) == Finite(n * AbsolutePx(u))
  {
    LookupUnitName(u);
  }

  /** The documented ratios: 1in = 96px, 1cm = 96/2.54px, 1pc = 16px, 1pt = 4/3px. */
  lemma KnownPixelRatios(ctx: Ctx)
    ensures Convert(1.0, "in", "px", ctx) == Finite(96.0)
    ensures Convert(1.0, "cm", "px", ctx) == Finite(96.0 / 2.54)
    ensures Convert(1.0, "pc", "px", ctx) == Finite(16.0)
    ensures Convert(1.0, "pt", "px", ctx) == Finite(4.0 / 3.0)
  {
  }

  /** Absolute-to-absolute conversion does not read the context. */
  lemma AbsoluteIgnoresContext(n: real, a: Unit, b: Unit, ctx1: Ctx, ctx2: Ctx)
    requires IsAbsolute(a) && IsAbsolute(b)
    ensures Convert(n, UnitName(a), UnitName(b), ctx1) == Convert(n, UnitName(a), UnitName(b), ctx2)
    ensures Convert(n, UnitName(a), UnitName(b), ctx1) == Finite(n * AbsolutePx(a) / AbsolutePx(b))
  {
    LookupUnitName(a);
    LookupUnitName(b);
  }

  /** The doc comments' relations between absolute units: 1in = 72pt and 1pc = 12pt. */
  lemma InchAndPicaInPoints(ctx: Ctx)
    ensures Convert(1.0, "in", "pt", ctx) == Finite(72.0)
    ensures Convert(1.0, "pc", "pt", ctx) == Finite(12.0)
    ensures Convert(1.0, "in", "cm", ctx) == Finite(2.54)
  {
  }

  /** Converting a unit to itself is the identity whenever one unit has a nonzero pixel size. */
  lemma ConvertIdentity(n: real, u: Unit, ctx: Ctx)
    requires UnitPx(u, ctx) != 0.0
    ensures Convert(n, UnitName(u), UnitName(u), ctx) == Finite(n)
  {
    LookupUnitName(u);
    BasePxLinear(u, n, ctx);
  }

  /** When a unit is zero pixels wide (an empty viewport, say), nothing converts to it finitely. */
  lemma ZeroSizedDestination(n: real, f: Unit, t: Unit, ctx: Ctx)
    requires UnitPx(t, ctx) == 0.0
    ensures !Convert(n, UnitName(f), UnitName(t), ctx).Finite?
    ensures Convert(n, UnitName(f), UnitName(t), ctx) == NaN <==> BasePx(f, n, ctx) == 0.0
  {
    LookupUnitName(f);
    LookupUnitName(t);
  }

  /** `convert` between two known units divides the source pixels by one destination unit. */
  lemma ConvertKnownUnits(n: real, a: Unit, b: Unit, ctx: Ctx)
    ensures Convert(n, UnitName(a), UnitName(b), ctx) == Divide(BasePx(a, n, ctx), UnitPx(b, ctx))
  {
    LookupUnitName(a);
    LookupUnitName(b);
  }

  /** Undoing a division by `pb` and a multiplication by `pa`. */
  lemma DivideBack(n: real, pa: real, pb: real, m: real)
    requires pa != 0.0 && pb != 0.0
    requires Divide(n * pa, pb) == Finite(m)
    ensures Divide(m * pb, pa) == Finite(n)
  {
    assert m * pb == n * pa;
    assert n * pa / pa == n;
  }

  /** If `n` units of `a` are `m` units of `b`, then `m` units of `b` are `n` units of `a`. */
  lemma PixelsBack(n: real, m: real, a: Unit, b: Unit, ctx: Ctx)
    requires UnitPx(a, ctx) != 0.0 && UnitPx(b, ctx) != 0.0
    requires Divide(BasePx(a, n, ctx), UnitPx(b, ctx)) == Finite(m)
    ensures Divide(BasePx(b, m, ctx), UnitPx(a, ctx)) == Finite(n)
  {
    BasePxLinear(a, n, ctx);
    BasePxLinear(b, m, ctx);
    DivideBack(n, UnitPx(a, ctx), UnitPx(b, ctx), m);
  }

  /** Converting from `a` to `b` and back returns the original amount. */
  lemma ConvertRoundTrip(n: real, a: Unit, b: Unit, ctx: Ctx)
    requires UnitPx(a, ctx) != 0.0 && UnitPx(b, ctx) != 0.0
    ensures Convert(n, UnitName(a), UnitName(b), ctx).Finite?
    ensures Convert(Convert(n, UnitName(a), UnitName(b), ctx).v, UnitName(b), UnitName(a), ctx) == Finite(n)
  {
    ConvertKnownUnits(n, a, b, ctx);
    var m := Convert(n, UnitName(a), UnitName(b), ctx).v;
    ConvertKnownUnits(m, b, a, ctx);
    PixelsBack(n, m, a, b, ctx);
  }
}
