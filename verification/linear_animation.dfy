/** The indeterminate choreography of the linear indicator: two segments,
    each with a head (`strokeEnd`) and a tail (`strokeStart`) that move during
    fixed windows of an 1800 ms cycle, built either as 2-point keyframe tables
    (`XMaterialLinearProgressAnimationPlain`) or as 61-sample tables of the
    exact eased curves (`XMaterialLinearProgressAnimationBazierExact`). */
module LinearAnimation {
  import opened Wrappers
  import opened Easing
  import opened Animation

  /** `_kIndeternunateLinearDurationSecond`: one cycle, in seconds. */
  const CycleSeconds: real := 1.8

  /** `_kIndeterminateLinearDuration`: one cycle, in milliseconds. */
  const CycleMilliseconds: real := CycleSeconds * 1000.0

  /** When, as fractions of the cycle, one edge of a segment moves. */
  datatype Window = Window(begin: real, end: real) {
    predicate WellFormed() {
      0.0 <= begin < end <= 1.0
    }
  }

  /** The four windows of a strategy: head and tail of segments 1 and 2. */
  datatype BarWindows = BarWindows(head1: Window, tail1: Window, head2: Window, tail2: Window)

  /** The windows of the plain strategy (`line1HeadStart` ... `line2TailEnd`). */
  const PlainWindows: BarWindows := BarWindows(
    Window(0.0, 750.0 / CycleMilliseconds),
    Window(333.0 / CycleMilliseconds, (333.0 + 750.0) / CycleMilliseconds),
    Window(1000.0 / CycleMilliseconds, (1000.0 + 567.0) / CycleMilliseconds),
    Window(1267.0 / CycleMilliseconds, (1267.0 + 533.0) / CycleMilliseconds))

  /** The windows the exact strategy passes to `makeAnimation`. */
  const ExactWindows: BarWindows := BarWindows(
    Window(0.0, 750.0 / CycleMilliseconds),
    Window(333.0 / CycleMilliseconds, (333.0 + 750.0) / CycleMilliseconds),
    Window(1000.0 / CycleMilliseconds, (1000.0 + 567.0) / CycleMilliseconds),
    Window(1267.0 / CycleMilliseconds, (1267.0 + 533.0) / CycleMilliseconds))

  /** The easing curves of the exact strategy, per edge. */
  const Head1Curve: Cubic := Cubic(0.2, 0.0, 0.8, 1.0)
  const Tail1Curve: Cubic := Cubic(0.4, 0.0, 1.0, 1.0)
  const Head2Curve: Cubic := Cubic(0.0, 0.0, 0.65, 1.0)
  const Tail2Curve: Cubic := Cubic(0.10, 0.0, 0.45, 1.0)

  /** Every window lies inside the cycle with begin < end, segment 2's tail
      ends exactly at the end of the cycle, and both strategies use the same
      windows. */
  lemma WindowConstants()
    ensures PlainWindows == ExactWindows
    ensures PlainWindows.head1.WellFormed() && PlainWindows.tail1.WellFormed()
    ensures PlainWindows.head2.WellFormed() && PlainWindows.tail2.WellFormed()
    ensures PlainWindows.head1.begin == 0.0 && PlainWindows.tail2.end == 1.0
  {
  }

  /** Every exact-strategy curve keeps its control points in the unit square,
      so its bisection stops and its eased values lie in [0, 1]. */
  lemma CurveConstants()
    ensures Head1Curve.XInUnit() && Head1Curve.YInUnit()
    ensures Tail1Curve.XInUnit() && Tail1Curve.YInUnit()
    ensures Head2Curve.XInUnit() && Head2Curve.YInUnit()
    ensures Tail2Curve.XInUnit() && Tail2Curve.YInUnit()
  {
  }

  /** The static `transformInternal(t, begin, end, curve)`: the value of one
      edge at cycle time t. It is 0 up to `begin`, 1 from `end` on, and in
      between the eased progress through the window. */
  function Windowed(t: real, begin: real, end: real, curve: Cubic): (r: real)
    requires begin < t < end ==> curve.XInUnit()
    ensures t <= begin ==> r == 0.0
    ensures begin < t && end <= t ==> r == 1.0
    ensures begin < t < end ==>
              var progress := (t - begin) / (end - begin);
              0.0 < progress < 1.0 && r == curve.Ease(progress)
    ensures begin < t < end && curve.YInUnit() ==> 0.0 <= r <= 1.0
  {
    if t <= begin then 0.0
    else if t >= end then 1.0
    else
      var progress := (t - begin) / (end - begin);
      assert 0.0 < progress < 1.0 by { WindowProgress(t, begin, end); }
      EaseBounds(curve, progress);
      curve.Ease(progress)
  }

  /** Strictly inside a window, the normalised progress is strictly inside
      (0, 1). */
  lemma WindowProgress(t: real, begin: real, end: real)
    requires begin < t < end
    ensures 0.0 < (t - begin) / (end - begin) < 1.0
  {
    var progress := (t - begin) / (end - begin);
    assert progress * (end - begin) == t - begin;
    if progress >= 1.0 {
      MulNonneg(progress - 1.0, end - begin);
    }
  }

  /** Number of intervals of the exact table (`frames`). */
  const Frames: nat := 60

  /** The i-th sample time of the exact table, as a fraction of the cycle. */
  function SampleTime(i: nat): real {
    i as real / Frames as real
  }

  /** The keyframe animation `makeAnimation` builds for one edge, replayed
      linearly over one cycle, forever. It has exactly 61 key times and 61
      values; the key times run from 0 to 1 in strictly increasing steps of
      1/60; each value is the windowed curve at its key time, so 0 at or
      before the window, 1 at or after it, and within [0, 1] for the
      library's curves. */
  function ExactKeyframes(w: Window, curve: Cubic, keyPath: KeyPath): (anim: Animation)
    requires curve.XInUnit()
    ensures anim.Keyframe? && anim.keyPath == keyPath && anim.duration == CycleSeconds
    ensures anim.calculation == LinearCalculation && anim.repeatForever
    ensures |anim.keyTimes| == 61 && |anim.values| == 61
    ensures anim.keyTimes[0] == 0.0 && anim.keyTimes[60] == 1.0
    ensures forall i, j :: 0 <= i < j < 61 ==> anim.keyTimes[i] < anim.keyTimes[j]
    ensures forall i :: 0 <= i < 61 ==> anim.keyTimes[i] == i as real / 60.0
    ensures forall i :: 0 <= i < 61 ==> anim.values[i] == Windowed(anim.keyTimes[i], w.begin, w.end, curve)
    ensures forall i :: 0 <= i < 61 && anim.keyTimes[i] <= w.begin ==> anim.values[i] == 0.0
    ensures forall i :: 0 <= i < 61 && w.begin < anim.keyTimes[i] && w.end <= anim.keyTimes[i]
              ==> anim.values[i] == 1.0
    ensures curve.YInUnit() ==> forall i :: 0 <= i < 61 ==> 0.0 <= anim.values[i] <= 1.0
  {
    Keyframe(keyPath,
             seq(Frames + 1, i requires 0 <= i <= Frames => SampleTime(i)),
             seq(Frames + 1, i requires 0 <= i <= Frames => Windowed(SampleTime(i), w.begin, w.end, curve)),
             CycleSeconds, LinearCalculation, true, true, false)
  }

  /** `makeAnimation(begin, end, curve, keyPath)`: samples the windowed curve
      at the 61 times i/60, appending to `values` and `keyTimes`. */
  method MakeAnimation(begin: real, end: real, curve: Cubic, keyPath: KeyPath) returns (anim: Animation)
    requires curve.XInUnit()
    ensures anim == ExactKeyframes(Window(begin, end), curve, keyPath)
  {
    var values: seq<real> := [];
    var keyTimes: seq<real> := [];
    for i := 0 to Frames + 1
      invariant |values| == i && |keyTimes| == i
      invariant forall k :: 0 <= k < i ==> keyTimes[k] == SampleTime(k)
      invariant forall k :: 0 <= k < i ==> values[k] == Windowed(SampleTime(k), begin, end, curve)
    {
      var t := i as real / Frames as real;
      var transformed := Windowed(t, begin, end, curve);
      values := values + [transformed];
      keyTimes := keyTimes + [t];
    }
    anim := Keyframe(keyPath, keyTimes, values, CycleSeconds, LinearCalculation, true, true, false);
  }

  /** `makeKeyframe(times, values, keyPath)` of the plain strategy: the host
      smooths cubically between the given keyframes over one cycle; repetition
      and fill are left to the enclosing group. */
  function MakeKeyframe(times: seq<real>, values: seq<real>, keyPath: KeyPath): (anim: Animation)
    ensures anim.Keyframe? && anim.keyPath == keyPath
    ensures anim.keyTimes == times && anim.values == values
    ensures anim.duration == CycleSeconds && anim.calculation == CubicCalculation
    ensures !anim.repeatForever && !anim.fillForwards && anim.removedOnCompletion
  {
    Keyframe(keyPath, times, values, CycleSeconds, CubicCalculation, false, false, true)
  }

  /** The plain table of one edge: from 0 at the window's begin to 1 at its end. */
  function PlainKeyframes(w: Window, keyPath: KeyPath): Animation {
    MakeKeyframe([w.begin, w.end], [0.0, 1.0], keyPath)
  }

  /** A 2-point table for window w through the same two points as the
      windowed curve: the curve's value 0 at the window's begin and its value
      1 at the window's end. */
  predicate PassesThroughEdges(anim: Animation, w: Window, curve: Cubic) {
    anim.Keyframe? && anim.keyTimes == [w.begin, w.end]
    && anim.values == [Windowed(w.begin, w.begin, w.end, curve), Windowed(w.end, w.begin, w.end, curve)]
  }

  /** The plain table passes through the same two points as the exact one's
      windowed curve, whatever the curve, and lasts one cycle. */
  lemma PlainMatchesExactAtWindowEdges(w: Window, curve: Cubic, keyPath: KeyPath)
    requires w.WellFormed()
    ensures PassesThroughEdges(PlainKeyframes(w, keyPath), w, curve)
    ensures PlainKeyframes(w, keyPath).duration == CycleSeconds
  {
  }

  /** A segment's group: its head and tail tables in lockstep, one cycle long,
      repeated forever and never removed. */
  function SegmentGroup(head: Animation, tail: Animation): Animation {
    Group([head, tail], CycleSeconds, true, true, false)
  }

  /** The groups `XMaterialLinearProgressAnimationPlain` installs on segment 1
      and segment 2: each holds its head (`strokeEnd`) and tail
      (`strokeStart`) table, and every table passes through the edges of the
      exact strategy's window and curve for the same edge. */
  function PlainBarGroups(): (g: (Animation, Animation))
    ensures g.0.Group? && |g.0.animations| == 2 && g.1.Group? && |g.1.animations| == 2
    ensures forall anim :: anim in g.0.animations + g.1.animations ==> anim.Keyframe?
    ensures g.0.animations[0].keyPath == StrokeEnd && g.0.animations[1].keyPath == StrokeStart
    ensures g.1.animations[0].keyPath == StrokeEnd && g.1.animations[1].keyPath == StrokeStart
    ensures PassesThroughEdges(g.0.animations[0], ExactWindows.head1, Head1Curve)
    ensures PassesThroughEdges(g.0.animations[1], ExactWindows.tail1, Tail1Curve)
    ensures PassesThroughEdges(g.1.animations[0], ExactWindows.head2, Head2Curve)
    ensures PassesThroughEdges(g.1.animations[1], ExactWindows.tail2, Tail2Curve)
  {
    (SegmentGroup(PlainKeyframes(PlainWindows.head1, StrokeEnd), PlainKeyframes(PlainWindows.tail1, StrokeStart)),
     SegmentGroup(PlainKeyframes(PlainWindows.head2, StrokeEnd), PlainKeyframes(PlainWindows.tail2, StrokeStart)))
  }

  /** The groups `XMaterialLinearProgressAnimationBazierExact` installs on
      segment 1 and segment 2. */
  function ExactBarGroups(): (Animation, Animation) {
    CurveConstants();
    (SegmentGroup(ExactKeyframes(ExactWindows.head1, Head1Curve, StrokeEnd),
                  ExactKeyframes(ExactWindows.tail1, Tail1Curve, StrokeStart)),
     SegmentGroup(ExactKeyframes(ExactWindows.head2, Head2Curve, StrokeEnd),
                  ExactKeyframes(ExactWindows.tail2, Tail2Curve, StrokeStart)))
  }

  /** The exact strategy's `addIndeterminateBarAnimation`, up to installing the
      groups: builds the four sampled tables and groups them per segment. */
  method MakeExactBarGroups() returns (group1: Animation, group2: Animation)
    ensures (group1, group2) == ExactBarGroups()
  {
    CurveConstants();
    var head1 := MakeAnimation(ExactWindows.head1.begin, ExactWindows.head1.end, Head1Curve, StrokeEnd);
    var tail1 := MakeAnimation(ExactWindows.tail1.begin, ExactWindows.tail1.end, Tail1Curve, StrokeStart);
    var head2 := MakeAnimation(ExactWindows.head2.begin, ExactWindows.head2.end, Head2Curve, StrokeEnd);
    var tail2 := MakeAnimation(ExactWindows.tail2.begin, ExactWindows.tail2.end, Tail2Curve, StrokeStart);
    group1 := SegmentGroup(head1, tail1);
    group2 := SegmentGroup(head2, tail2);
  }

  /** In both strategies each segment's group drives its head (`strokeEnd`)
      and its tail (`strokeStart`) with tables one cycle long, in a group one
      cycle long that repeats forever and is never removed. */
  lemma BarGroupsLockstep(plain: bool)
    ensures var (g1, g2) := if plain then PlainBarGroups() else ExactBarGroups();
            forall g :: g in {g1, g2} ==>
              g.Group? && |g.animations| == 2 && g.duration == CycleSeconds
              && g.repeatForever && !g.removedOnCompletion
              && g.animations[0].Keyframe? && g.animations[0].keyPath == StrokeEnd
              && g.animations[1].Keyframe? && g.animations[1].keyPath == StrokeStart
              && g.animations[0].duration == CycleSeconds && g.animations[1].duration == CycleSeconds
  {
  }
}
