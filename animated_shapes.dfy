/**
 * The home page's floating shapes (AnimatedShapes in Homepage.tsx): three
 * tokens (circle, square, triangle) placed on a measured stage, either
 * scattered at random inside a padded interior or stacked at the centre.
 * `Math.random()` draws are parameters in [0, 1); sizes are reals.
 */
module AnimatedShapes {
  import opened Wrappers

  /** One value of `Math.random()`. */
  type Draw = r: real | 0.0 <= r < 1.0

  /** A measured length: `getBoundingClientRect` never reports a negative one. */
  type Extent = r: real | 0.0 <= r

  datatype Size = Size(w: Extent, h: Extent)

  datatype Mode = Scatter | Stack

  datatype Shape = Circle | Square | Triangle

  function Min(a: real, b: real): real { if a <= b then a else b }

  function Max(a: real, b: real): real { if a >= b then a else b }

  /** The stage before the first measurement: `{ w: 0, h: 0 }`. */
  const Unmeasured: Size := Size(0.0, 0.0)

  /** The padding: 15% of the shorter side. */
  function Pad(s: Size): (pad: real)
    ensures 0.0 <= pad
    ensures 2.0 * pad <= s.w && 2.0 * pad <= s.h
    ensures s.w == 0.0 || s.h == 0.0 ==> pad == 0.0
  {
    Min(s.w, s.h) * 0.15
  }

  /** The width of the interval a scatter coordinate is drawn from; never below 1. */
  function Span(extent: real, pad: real): (r: real)
    ensures r >= 1.0 && r >= extent - 2.0 * pad
    ensures extent - 2.0 * pad >= 1.0 ==> r == extent - 2.0 * pad
  {
    Max(1.0, extent - 2.0 * pad)
  }

  /** For a draw in [0, 1) and a positive width m, the scaled draw lies in [0, m). */
  lemma ScaledDraw(r: Draw, m: real)
    requires m > 0.0
    ensures 0.0 <= r * m < m
  {
    assert (1.0 - r) * m > 0.0;
  }

  /** One random coordinate: `pad + Math.random() * Math.max(1, extent - pad * 2)`. */
  function ScatterCoord(r: Draw, pad: real, span: real): (c: real)
    requires span >= 1.0
    ensures pad <= c < pad + span
  {
    ScaledDraw(r, span);
    pad + r * span
  }

  /** What one call of `scatterTarget()` returns. */
  datatype ScatterTarget = ScatterTarget(x: real, y: real, rotate: real, scale: real, zIndex: int)

  /** The five draws one `scatterTarget()` call makes, in evaluation order. */
  datatype Draws = Draws(x: Draw, y: Draw, rotate: Draw, scale: Draw, zIndex: Draw)

  function ZIndexFromDraw(r: Draw): (z: int)
    ensures 1 <= z <= 9
  {
    1 + (r * 9.0).Floor
  }

  function ScatterTargetOf(s: Size, d: Draws): (t: ScatterTarget)
    ensures Pad(s) <= t.x < Pad(s) + Span(s.w, Pad(s))
    ensures Pad(s) <= t.y < Pad(s) + Span(s.h, Pad(s))
    ensures -25.0 <= t.rotate < 25.0
    ensures 0.95 <= t.scale < 1.15
    ensures 1 <= t.zIndex <= 9
  {
    var pad := Pad(s);
    ScatterTarget(
      ScatterCoord(d.x, pad, Span(s.w, pad)),
      ScatterCoord(d.y, pad, Span(s.h, pad)),
      (d.rotate - 0.5) * 50.0,
      0.95 + d.scale * 0.2,
      ZIndexFromDraw(d.zIndex))
  }

  /**
   * While a side measures 0 (the unmeasured 0x0 stage in particular) the
   * padding is 0 and every scatter coordinate is a finite value in
   * [0, max(1, side)): on 0x0, in [0, 1).
   */
  lemma DegenerateStageScatter(s: Size, d: Draws)
    requires s.w == 0.0 || s.h == 0.0
    ensures Pad(s) == 0.0
    ensures 0.0 <= ScatterTargetOf(s, d).x < Max(1.0, s.w)
    ensures 0.0 <= ScatterTargetOf(s, d).y < Max(1.0, s.h)
    ensures s == Unmeasured ==> ScatterTargetOf(s, d).x < 1.0 && ScatterTargetOf(s, d).y < 1.0
  {
  }

  /** Once the padded interior is at least one unit wide, a scatter x stays inside it. */
  lemma ScatterInsideInterior(s: Size, d: Draws)
    requires s.w - 2.0 * Pad(s) >= 1.0
    ensures Pad(s) <= ScatterTargetOf(s, d).x < s.w - Pad(s)
  {
  }

  /**
   * The one-unit floor on the span can carry a scatter x past `w - pad`
   * on a stage narrower than one unit: here w = h = 0.5, pad = 0.075, x > 0.425.
   */
  lemma TinyStageEscapesInterior()
    ensures var s := Size(0.5, 0.5);
            var t := ScatterTargetOf(s, Draws(0.9, 0.0, 0.0, 0.0, 0.0));
            t.x > s.w - Pad(s)
  {
  }

  /** Where a token's wrapper is sent: position and stacking order. */
  datatype Placement = Placement(x: real, y: real, zIndex: int)

  function StackTargets(s: Size): (r: seq<Placement>)
    ensures |r| == 3
    ensures forall i :: 0 <= i < 3 ==> r[i].x == s.w / 2.0
    ensures r[1].y == s.h / 2.0
    ensures r[0].y == s.h / 2.0 - Min(s.w, s.h) * 0.12 && r[2].y == s.h / 2.0 + Min(s.w, s.h) * 0.12
    ensures r[0].y <= r[1].y <= r[2].y && r[0].y + r[2].y == 2.0 * r[1].y
    ensures r[0].zIndex == 11 && r[1].zIndex == 12 && r[2].zIndex == 13
    ensures forall i :: 0 <= i < 3 ==> r[i].zIndex > 9
  {
    var cx, cy := s.w / 2.0, s.h / 2.0;
    var m := Min(s.w, s.h);
    [Placement(cx, cy - m * 0.12, 11), Placement(cx, cy, 12), Placement(cx, cy + m * 0.12, 13)]
  }

  /** The wrapper target of token i (0 circle, 1 square, 2 triangle). */
  function TokenTarget(mode: Mode, s: Size, i: nat, d: Draws): (p: Placement)
    requires i < 3
  {
    if mode == Stack then StackTargets(s)[i]
    else var t := ScatterTargetOf(s, d); Placement(t.x, t.y, t.zIndex)
  }

  /** The three wrapper targets one render computes; scatter draws are used only in scatter mode. */
  function Targets(mode: Mode, s: Size, draws: seq<Draws>): (r: seq<Placement>)
    requires |draws| == 3
    ensures |r| == 3
    ensures mode == Stack ==> r == StackTargets(s)
    ensures mode == Scatter ==> forall i :: 0 <= i < 3 ==>
      Pad(s) <= r[i].x < Pad(s) + Span(s.w, Pad(s)) &&
      Pad(s) <= r[i].y < Pad(s) + Span(s.h, Pad(s)) &&
      1 <= r[i].zIndex <= 9
  {
    [TokenTarget(mode, s, 0, draws[0]), TokenTarget(mode, s, 1, draws[1]), TokenTarget(mode, s, 2, draws[2])]
  }

  /** Tokens never mix modes: either all three sit in the stack layer or all in the scatter layer. */
  lemma NoMixedModes(mode: Mode, s: Size, draws: seq<Draws>)
    requires |draws| == 3
    ensures var r := Targets(mode, s, draws);
      (forall i :: 0 <= i < 3 ==> r[i].zIndex > 9) || (forall i :: 0 <= i < 3 ==> r[i].zIndex <= 9)
    ensures var r := Targets(mode, s, draws);
      (forall i :: 0 <= i < 3 ==> r[i].zIndex > 9) <==> mode == Stack
  {
    if mode == Scatter {
      assert Targets(mode, s, draws)[0].zIndex <= 9;
    }
  }

  /** Keyframes of the inner shape's rotate and scale; the empty list means the key is absent. */
  datatype Inner = Inner(rotate: seq<real>, scale: seq<real>)

  function InnerTargets(shape: Shape, mode: Mode, rotateDraw: Draw, scaleDraw: Draw): (r: Inner)
    ensures mode == Stack && shape != Triangle ==> r.rotate == [0.0]
    ensures mode == Stack ==> r.scale == [1.0]
    ensures shape == Triangle ==> r.rotate == []
    ensures forall k :: 0 <= k < |r.rotate| ==> -25.0 <= r.rotate[k] < 25.0
    ensures forall k :: 0 <= k < |r.scale| ==> 0.95 <= r.scale[k] < 1.15
  {
    match shape
    case Circle =>
      Inner(if mode == Stack then [0.0] else [(rotateDraw - 0.5) * 50.0],
            if mode == Stack then [1.0] else [0.95 + scaleDraw * 0.2])
    case Square =>
      Inner(if mode == Stack then [0.0] else [0.0, 5.0, -5.0, 0.0],
            if mode == Stack then [1.0] else [1.0, 1.05, 1.0])
    case Triangle =>
      Inner([], if mode == Stack then [1.0] else [1.0, 1.1, 1.0])
  }

  /** The inner shapes' oscillation offsets. */
  datatype Wobble = Wobble(xs: seq<real>, ys: seq<real>)

  function WobbleOf(base: real): (w: Wobble)
    ensures |w.xs| == |w.ys| == 5
    ensures w.xs[0] == w.xs[4] == w.ys[0] == w.ys[4] == 0.0
    ensures forall k :: 0 <= k < 5 ==> w.ys[k] == -w.xs[k] && w.xs[k] == -w.xs[4 - k]
    ensures w.xs[1] == base && w.xs[3] == -base
    ensures forall k :: 0 <= k < 5 ==> -base <= w.xs[k] <= base || base < 0.0
  {
    Wobble([0.0, base, 0.0, -base, 0.0], [0.0, -base, 0.0, base, 0.0])
  }

  /** The three shapes wobble with amplitudes 4, 5 and 6. */
  function WobbleBase(shape: Shape): (b: real)
    ensures 4.0 <= b <= 6.0
  {
    match shape
    case Circle => 4.0
    case Square => 5.0
    case Triangle => 6.0
  }

  /** The mode a firing timeout picks. */
  function NextMode(r: Draw): (m: Mode)
    ensures m == Stack <==> r < 0.35
  {
    if r < 0.35 then Stack else Scatter
  }

  /** The delay of the re-arming timeout, in ms. */
  function RetargetDelay(r: Draw): (ms: real)
    ensures 4000.0 <= ms < 8000.0
  {
    ScaledDraw(r, 4000.0);
    4000.0 + r * 4000.0
  }

  /** A registered timeout, tagged with the `tick` whose effect armed it. */
  datatype Timeout = Timeout(armedFor: nat, due: real)

  class ShapesStage {
    /** The measured stage, `{ w, h }`. */
    var size: Size
    var mode: Mode
    var tick: nat
    /** Simulated ms since mount. */
    var now: real
    /** Timeouts registered and neither fired nor cleared. */
    var pending: seq<Timeout>
    /** The resize observer is connected and the tick effect is live. */
    var mounted: bool

    ghost predicate Valid()
      reads this
    {
      && |pending| <= 1
      && (mounted ==> |pending| == 1 && pending[0].armedFor == tick && now <= pending[0].due)
      && (!mounted ==> pending == [])
    }

    /** Mount: first render on the unmeasured stage, tick effect armed for tick 0. */
    constructor (delayDraw: Draw)
      ensures Valid() && mounted
      ensures size == Unmeasured && mode == Scatter && tick == 0 && now == 0.0
      ensures pending == [Timeout(0, RetargetDelay(delayDraw))]
    {
      size := Unmeasured;
      mode := Scatter;
      tick := 0;
      now := 0.0;
      mounted := true;
      pending := [Timeout(0, RetargetDelay(delayDraw))];
    }

    /** `measure()`: adopt the rectangle when the element exists; after unmount the observer is gone. */
    method Measure(rect: Option<Size>)
      requires Valid()
      modifies this`size
      ensures Valid()
      ensures size == if mounted && rect.Some? then rect.value else old(size)
    {
      if mounted && rect.Some? {
        size := rect.value;
      }
    }

    /** The clock runs without reaching the pending timeout. */
    method Wait(t: real)
      requires Valid() && now <= t
      requires mounted ==> t < pending[0].due
      modifies this`now
      ensures Valid() && now == t
    {
      now := t;
    }

    /** The tick effect for the current tick: clear what the previous run armed, arm one timeout. */
    method Rearm(delayDraw: Draw)
      requires mounted
      modifies this`pending
      ensures pending == [Timeout(tick, now + RetargetDelay(delayDraw))]
    {
      pending := [];
      pending := [Timeout(tick, now + RetargetDelay(delayDraw))];
    }

    /** The pending timeout fires: pick the mode, bump the tick, and the effect re-arms. */
    method TimeoutFires(modeDraw: Draw, delayDraw: Draw)
      requires Valid() && mounted
      modifies this`now, this`mode, this`tick, this`pending
      ensures Valid() && mounted
      ensures now == old(pending[0].due)
      ensures mode == NextMode(modeDraw) && (mode == Stack <==> modeDraw < 0.35)
      ensures tick == old(tick) + 1
      ensures pending == [Timeout(tick, now + RetargetDelay(delayDraw))]
      ensures 4000.0 <= pending[0].due - now < 8000.0
    {
      now := pending[0].due;
      pending := [];
      mode := NextMode(modeDraw);
      tick := tick + 1;
      Rearm(delayDraw);
    }

    /** A click on the stage bumps the tick; the effect clears the pending timeout and arms a new one. */
    method Click(delayDraw: Draw)
      requires Valid() && mounted
      modifies this`tick, this`pending
      ensures Valid() && mounted
      ensures tick == old(tick) + 1 && mode == old(mode) && now == old(now)
      ensures pending == [Timeout(tick, now + RetargetDelay(delayDraw))]
      ensures old(pending[0]) !in pending
    {
      tick := tick + 1;
      Rearm(delayDraw);
    }

    /** Unmount: the tick effect's cleanup clears the timeout; the observer disconnects. */
    method Unmount()
      requires Valid()
      modifies this`pending, this`mounted
      ensures Valid() && !mounted && pending == []
    {
      pending := [];
      mounted := false;
    }

    /** The wrapper targets of the current render. */
    function CurrentTargets(draws: seq<Draws>): (r: seq<Placement>)
      reads this
      requires |draws| == 3
      ensures |r| == 3
      ensures mode == Stack ==> r == StackTargets(size)
      ensures mode == Scatter ==> forall i :: 0 <= i < 3 ==>
        Pad(size) <= r[i].x < Pad(size) + Span(size.w, Pad(size)) &&
        Pad(size) <= r[i].y < Pad(size) + Span(size.h, Pad(size)) &&
        1 <= r[i].zIndex <= 9
    {
      Targets(mode, size, draws)
    }
  }
}
