/**
 * The intro splash (LogoAnimation): a four-stage sequencer driven by four
 * timers registered on mount, `pulse -> emerge -> zoom -> settle`, and a
 * completion callback. Time is a simulated clock in whole milliseconds since
 * mount; a timer fires when the clock reaches its delay.
 */
module LogoAnimation {

  datatype Stage = Pulse | Emerge | Zoom | Settle

  /** The four timers the mount effect registers. */
  datatype Timer = PulseTimer | EmergeTimer | ZoomTimer | CompleteTimer

  const AllTimers: set<Timer> := {PulseTimer, EmergeTimer, ZoomTimer, CompleteTimer}

  /** The stages in the order the sequence shows them. */
  const PhaseOrder: seq<Stage> := [Pulse, Emerge, Zoom, Settle]

  /** How long each stage is shown before the next timer fires, in ms. */
  const Dwell: seq<nat> := [2500, 1500, 1500, 1500]

  /** The delay each timer is registered with, measured from mount. */
  function Delay(k: Timer): nat
  {
    match k
    case PulseTimer => 2500
    case EmergeTimer => 4000
    case ZoomTimer => 5500
    case CompleteTimer => 7000
  }

  /** The stage a stage-changing timer's callback sets. */
  function Target(k: Timer): Stage
    requires k != CompleteTimer
  {
    match k
    case PulseTimer => Emerge
    case EmergeTimer => Zoom
    case ZoomTimer => Settle
  }

  /** Position of a stage in the sequence. */
  function Rank(s: Stage): (n: nat)
    ensures n < |PhaseOrder| && PhaseOrder[n] == s
  {
    match s
    case Pulse => 0
    case Emerge => 1
    case Zoom => 2
    case Settle => 3
  }

  function Sum(xs: seq<nat>): nat
  {
    if xs == [] then 0 else Sum(xs[..|xs| - 1]) + xs[|xs| - 1]
  }

  /** Each absolute delay is the running total of the dwell times; the last is 7000. */
  lemma DelaysAreRunningDwells()
    ensures Delay(PulseTimer) == Sum(Dwell[..1])
    ensures Delay(EmergeTimer) == Sum(Dwell[..2])
    ensures Delay(ZoomTimer) == Sum(Dwell[..3])
    ensures Delay(CompleteTimer) == Sum(Dwell) == 7000
  {
    assert Dwell[..4][..3] == Dwell[..3];
    assert Dwell[..3][..2] == Dwell[..2];
    assert Dwell[..2][..1] == Dwell[..1];
    assert Dwell[..1][..0] == [];
    assert Dwell[..4] == Dwell;
  }

  // ---------------------------------------------------------------------
  // Reference behaviour: what an instance that is never torn down shows
  // at simulated time t.

  /** The stage shown at time t. */
  function StageAt(t: int): (s: Stage)
    ensures s == Pulse <==> t < 2500
    ensures s == Emerge <==> 2500 <= t < 4000
    ensures s == Zoom <==> 4000 <= t < 5500
    ensures s == Settle <==> 5500 <= t
  {
    if t < Delay(PulseTimer) then Pulse
    else if t < Delay(EmergeTimer) then Emerge
    else if t < Delay(ZoomTimer) then Zoom
    else Settle
  }

  /** Timers still waiting at time t. */
  function PendingAt(t: int): (p: set<Timer>)
    ensures forall k :: k in p <==> t < Delay(k)
  {
    set k | k in AllTimers && t < Delay(k)
  }

  /** How many times the completion callback has run by time t. */
  function CompletionsBy(t: int): (n: nat)
    ensures n <= 1
    ensures n == 1 <==> t >= 7000
  {
    if Delay(CompleteTimer) <= t then 1 else 0
  }

  /** Every value `stage` has held by time t, in order, the initial one included. */
  function StagesThrough(t: int): (log: seq<Stage>)
    ensures |log| >= 1 && log[0] == Pulse && log[|log| - 1] == StageAt(t)
  {
    PhaseOrder[..Rank(StageAt(t)) + 1]
  }

  /** Stages only move forward in time. */
  lemma StageMonotone(t1: int, t2: int)
    requires t1 <= t2
    ensures Rank(StageAt(t1)) <= Rank(StageAt(t2))
  {
  }

  /**
   * Stages never skip and never repeat: the history up to any time is a
   * prefix of the fixed order, and an earlier history is a prefix of a later one.
   */
  lemma HistoryIsPrefix(t1: int, t2: int)
    requires t1 <= t2
    ensures StagesThrough(t1) <= StagesThrough(t2) <= PhaseOrder
    ensures forall i, j :: 0 <= i < j < |StagesThrough(t2)| ==> StagesThrough(t2)[i] != StagesThrough(t2)[j]
    ensures forall i :: 0 < i < |StagesThrough(t2)| ==> Rank(StagesThrough(t2)[i]) == Rank(StagesThrough(t2)[i - 1]) + 1
  {
    StageMonotone(t1, t2);
    var log := StagesThrough(t2);
    forall i | 0 <= i < |log| ensures Rank(log[i]) == i {
      assert log[i] == PhaseOrder[i];
    }
  }

  /** The callback runs only once `settle` has begun, since 5500 < 7000. */
  lemma CompletionAfterSettle(t: int)
    requires CompletionsBy(t) == 1
    ensures StageAt(t) == Settle
    ensures StagesThrough(t) == PhaseOrder
  {
  }

  // ---------------------------------------------------------------------
  // Visual targets, each a pure function of the stage.

  /** The container's scale target. */
  function ContainerScale(s: Stage): (r: int)
    ensures r == 5 <==> s == Zoom
    ensures r != 5 ==> r == 1
  {
    if s == Pulse then 1 else if s == Emerge then 1 else if s == Zoom then 5 else 1
  }

  /** Duration in seconds of the container's scale transition. */
  function ScaleDuration(s: Stage): (r: real)
    ensures r == 1.5 <==> s == Zoom || s == Settle
    ensures r == 0.0 <==> s == Pulse || s == Emerge
  {
    match s
    case Zoom => 1.5
    case Settle => 1.5
    case _ => 0.0
  }

  /** Animate targets of the logo group, the name heading and the overlay. */
  datatype Targets = Targets(logoY: int, logoOpacity: int, nameOpacity: int, overlayOpacity: int)

  function StageTargets(s: Stage): (r: Targets)
    ensures s == Settle ==> r.logoY == -80 && r.logoOpacity == 0
    ensures s != Settle ==> r.logoY == 0 && r.logoOpacity == 1
    ensures r.nameOpacity == r.overlayOpacity == 1 - r.logoOpacity
  {
    Targets(
      if s == Settle then -80 else 0,
      if s == Settle then 0 else 1,
      if s == Settle then 1 else 0,
      if s == Settle then 1 else 0)
  }

  /** The zoom happens exactly while nothing has faded yet: scale 5 implies the logo is still visible. */
  lemma ZoomBeforeFade(s: Stage)
    requires ContainerScale(s) == 5
    ensures StageTargets(s).logoOpacity == 1 && ScaleDuration(s) == 1.5
  {
  }

  /** The earliest of a set of pending timers (they are registered in delay order). */
  function Earliest(p: set<Timer>): (k: Timer)
    requires p != {} && p <= AllTimers
    ensures k in p && forall j :: j in p ==> Delay(k) <= Delay(j)
  {
    if PulseTimer in p then PulseTimer
    else if EmergeTimer in p then EmergeTimer
    else if ZoomTimer in p then ZoomTimer
    else CompleteTimer
  }

  // ---------------------------------------------------------------------
  // The mounted component.

  class Splash {
    /** The `stage` state. */
    var stage: Stage
    /** Timers registered and neither fired nor cleared. */
    var pending: set<Timer>
    /** Simulated ms since mount. */
    var now: int
    /** Number of calls made to `onAnimationComplete`. */
    var completions: nat
    /** Every value `stage` has held, in order. */
    var stageLog: seq<Stage>
    /** False once the cleanup has run. */
    var mounted: bool
    /** The last instant at which a timer could still fire: `now`, or the time of teardown. */
    ghost var horizon: int

    /** The state a never-torn-down instance has at time h. */
    ghost predicate At(h: int)
      reads this
    {
      && stage == StageAt(h)
      && completions == CompletionsBy(h)
      && stageLog == StagesThrough(h)
    }

    ghost predicate Valid()
      reads this
    {
      && 0 <= horizon <= now
      && At(horizon)
      && (mounted ==> horizon == now && pending == PendingAt(now))
      && (!mounted ==> pending == {})
    }

    /** Mount: initial stage `pulse`, all four timers registered. */
    constructor ()
      ensures Valid() && mounted && now == 0
      ensures stage == Pulse && stageLog == [Pulse] && completions == 0
      ensures pending == AllTimers
    {
      stage := Pulse;
      pending := AllTimers;
      now := 0;
      completions := 0;
      stageLog := [Pulse];
      mounted := true;
      horizon := 0;
    }

    /** Run the callback of one pending timer. */
    method Fire(k: Timer)
      requires k in pending
      modifies this
      ensures pending == old(pending) - {k}
      ensures k == CompleteTimer ==>
        stage == old(stage) && stageLog == old(stageLog) && completions == old(completions) + 1
      ensures k != CompleteTimer ==>
        stage == Target(k) && stageLog == old(stageLog) + [Target(k)] && completions == old(completions)
      ensures now == old(now) && mounted == old(mounted) && horizon == old(horizon)
    {
      pending := pending - {k};
      if k == CompleteTimer {
        completions := completions + 1;
      } else {
        stage := Target(k);
        stageLog := stageLog + [stage];
      }
    }

    /**
     * Let the clock run to t: every pending timer whose delay has been
     * reached fires, earliest first. After teardown nothing fires.
     */
    method AdvanceTo(t: int)
      requires Valid() && now <= t
      modifies this
      ensures Valid() && now == t && mounted == old(mounted)
      ensures mounted ==> At(t) && pending == PendingAt(t)
      ensures !mounted ==> stage == old(stage) && stageLog == old(stageLog) && completions == old(completions)
      ensures completions <= 1
    {
      ghost var h := now;
      while exists k :: k in pending && Delay(k) <= t
        invariant now == old(now) && mounted == old(mounted) && horizon == old(horizon)
        invariant old(now) <= h <= t
        invariant mounted ==> At(h) && pending == PendingAt(h)
        invariant !mounted ==> pending == {} && At(horizon)
        decreases |pending|
      {
        var k := Earliest(pending);
        Fire(k);
        h := Delay(k);
      }
      now := t;
      if mounted {
        horizon := t;
      }
    }

    /** The effect's cleanup: clear all four timers. */
    method Unmount()
      requires Valid()
      modifies this
      ensures Valid() && !mounted && pending == {}
      ensures stage == old(stage) && stageLog == old(stageLog) && completions == old(completions)
      ensures now == old(now)
    {
      pending := {};
      mounted := false;
    }
  }

  /** Unmounting at any time before 7000 means the callback never runs, however long the clock runs on. */
  method UnmountBeforeCompletion(t0: int, t1: int) returns (calls: nat, last: Stage)
    requires 0 <= t0 < 7000 && t0 <= t1
    ensures calls == 0
    ensures last == StageAt(t0)
  {
    var s := new Splash();
    s.AdvanceTo(t0);
    s.Unmount();
    s.AdvanceTo(t1);
    calls, last := s.completions, s.stage;
  }

  /** Left mounted, the callback has run exactly once at any time from 7000 on, and not before. */
  method RunMounted(t: int) returns (calls: nat)
    requires 0 <= t
    ensures calls == 1 <==> t >= 7000
    ensures calls <= 1
  {
    var s := new Splash();
    s.AdvanceTo(t);
    calls := s.completions;
  }
}
