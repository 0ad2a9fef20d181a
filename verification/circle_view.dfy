/** The mode logic of `XMaterialCircleProgressView`: the optional value and
    the single value layer that `resetAnimation` rewrites on every change,
    with the fixed spin group of the indeterminate mode. Layout, colours and
    widths are not modelled. */
module CircleView {
  import opened Wrappers
  import opened Animation

  const RotationAnimationKey: string := "rotation_animation"

  /** The layer's rotation in both modes, in multiples of pi: -pi/2, so that
      the circle starts at 12 o'clock. */
  const QuarterTurnBack: real := -0.5

  /** `spinAnimation`'s `beginTime`, `durationStart` and `durationStop`, in
      seconds. */
  const SpinBeginTime: real := 0.5
  const SpinDurationStart: real := 0.8 + SpinBeginTime
  const SpinDurationStop: real := 0.8

  /** The value layer as `circleStrokeLayer` creates it: Core Animation's
      defaults, strokeStart 0 and strokeEnd 1, untransformed, visible, no
      animations. */
  const CircleLayer: Layer := Layer(0.0, 1.0, false, 0.0, map[])

  /** `spinAnimation()`: a full turn (2 pi) of linear rotation, the head
      (`strokeEnd`) running 0 to 1 in 0.8 s from the start, and the tail
      (`strokeStart`) running 0 to 1 in 1.3 s from 0.5 s, both with control
      points (0.4, 0, 0.2, 1), as one group of `durationStart + beginTime` =
      1.8 s repeated forever. The tail ends exactly when the group ends and
      after the head; the rotation sets no duration of its own. */
  function SpinAnimation(): (g: Animation)
    ensures g.Group? && |g.animations| == 3 && g.duration == 1.8
    ensures g.repeatForever && g.fillForwards && !g.removedOnCompletion
    ensures var rotation := g.animations[0];
            rotation.Basic? && rotation.keyPath == Rotation && rotation.byValue == Some(2.0)
            && rotation.duration == 0.0 && rotation.timing == LinearTiming
    ensures var stop := g.animations[1];
            stop.Basic? && stop.keyPath == StrokeEnd && stop.beginTime == 0.0 && stop.duration == 0.8
            && stop.fromValue == Some(0.0) && stop.toValue == Some(1.0)
            && stop.timing == ControlPoints(0.4, 0.0, 0.2, 1.0)
    ensures var start := g.animations[2];
            start.Basic? && start.keyPath == StrokeStart && start.beginTime == 0.5 && start.duration == 1.3
            && start.fromValue == Some(0.0) && start.toValue == Some(1.0)
            && start.timing == ControlPoints(0.4, 0.0, 0.2, 1.0)
    ensures g.animations[2].beginTime + g.animations[2].duration == g.duration
    ensures g.animations[1].beginTime + g.animations[1].duration
          < g.animations[2].beginTime + g.animations[2].duration
  {
    var rotation := Basic(Rotation, None, None, Some(2.0), 0.0, 0.0, LinearTiming, false, true);
    var start := Basic(StrokeStart, Some(0.0), Some(1.0), None, SpinDurationStart, SpinBeginTime,
                       ControlPoints(0.4, 0.0, 0.2, 1.0), true, false);
    var stop := Basic(StrokeEnd, Some(0.0), Some(1.0), None, SpinDurationStop, 0.0,
                      ControlPoints(0.4, 0.0, 0.2, 1.0), true, false);
    Group([rotation, stop, start], SpinDurationStart + SpinBeginTime, true, true, false)
  }

  /** The value layer after `resetAnimation(oldValue, newValue, animated)`,
      given the layer before it. Both modes rotate the layer by -pi/2, put
      its tail at 0 and keep its visibility. With a value v it shows [0, v],
      unclamped, and the 0.15 s `strokeEnd` transition from `oldValue ?? 0`
      to v is installed exactly when v > 0 and the change is animated, and
      nothing else is. With nil the whole circle is stroked ([0, 1]) and the
      spin group is the one animation, under `rotation_animation`. */
  ghost function Reset(layer: Layer, oldValue: Option<real>, newValue: Option<real>, animated: bool): (l: Layer)
    ensures l.rotation == QuarterTurnBack && l.strokeStart == 0.0 && l.hidden == layer.hidden
    ensures newValue.Some? ==>
              var v := newValue.value;
              l.strokeEnd == v
              && (ProgressAnimationKey in l.animations <==> v > 0.0 && animated)
              && l.animations.Keys <= {ProgressAnimationKey}
              && (ProgressAnimationKey in l.animations ==>
                    l.animations[ProgressAnimationKey]
                    == ProgressAnimation(if oldValue.Some? then oldValue.value else 0.0, v))
    ensures newValue.None? ==>
              l.strokeEnd == 1.0
              && l.animations.Keys == {RotationAnimationKey}
              && l.animations[RotationAnimationKey] == SpinAnimation()
  {
    match newValue
    case Some(v) =>
      layer.(rotation := QuarterTurnBack, strokeStart := 0.0, strokeEnd := v,
             animations := if v > 0.0 && animated
                           then map[ProgressAnimationKey := ProgressAnimation(oldValue.GetOr(0.0), v)]
                           else map[])
    case None =>
      layer.(rotation := QuarterTurnBack, strokeStart := 0.0, strokeEnd := 1.0,
             animations := map[RotationAnimationKey := SpinAnimation()])
  }

  /** Removal first: every reset leaves at most one animation on the layer,
      whatever it carried before. */
  lemma ResetLeavesAtMostOneAnimation(layer: Layer, oldValue: Option<real>, newValue: Option<real>,
                                      animated: bool)
    ensures |Reset(layer, oldValue, newValue, animated).animations| <= 1
    ensures forall other: Layer :: other == layer.(animations := other.animations) ==>
              Reset(other, oldValue, newValue, animated) == Reset(layer, oldValue, newValue, animated)
  {
  }

  class CircleProgressView {
    /** `_value`: nil asks for the spinning indeterminate mode. */
    var value: Option<real>
    var valueLayer: Layer

    /** The layer is always rotated by -pi/2 with its tail at 0; with no value
        it spins over the whole circle, with a value v it shows [0, v] and
        carries at most the progress transition. */
    ghost predicate Valid()
      reads this
    {
      valueLayer.rotation == QuarterTurnBack && valueLayer.strokeStart == 0.0
      && match value
         case None =>
           valueLayer.strokeEnd == 1.0 && valueLayer.animations == map[RotationAnimationKey := SpinAnimation()]
         case Some(v) =>
           valueLayer.strokeEnd == v && valueLayer.animations.Keys <= {ProgressAnimationKey}
    }

    /** `init(frame:)`: a fresh value layer, no value, then a reset into the
        indeterminate mode. */
    constructor ()
      ensures Valid() && value == None
      ensures valueLayer == Reset(CircleLayer, None, None, false)
    {
      value := None;
      valueLayer := CircleLayer;
      new;
      ResetAnimation(None, None, false);
    }

    /** The `value` setter: stores the value, then resets without animation,
        passing the previous value as `oldValue`. */
    method AssignValue(newValue: Option<real>)
      requires Valid()
      modifies this
      ensures Valid() && value == newValue
      ensures valueLayer == Reset(old(valueLayer), old(value), newValue, false)
    {
      var previous := value;
      value := newValue;
      ResetAnimation(previous, newValue, false);
    }

    /** `setValue(_:animated:)`: stores the value, then resets, passing the
        previous value as `oldValue`. */
    method SetValue(newValue: Option<real>, animated: bool)
      requires Valid()
      modifies this
      ensures Valid() && value == newValue
      ensures valueLayer == Reset(old(valueLayer), old(value), newValue, animated)
    {
      var previous := value;
      value := newValue;
      ResetAnimation(previous, newValue, animated);
    }

    /** `resetAnimation(oldValue:newValue:animated:)`: removes every animation
        from the value layer, then sets up the determinate or the spinning
        display. */
    method ResetAnimation(oldValue: Option<real>, newValue: Option<real>, animated: bool)
      modifies this`valueLayer
      ensures valueLayer == Reset(old(valueLayer), oldValue, newValue, animated)
    {
      valueLayer := valueLayer.RemoveAllAnimations();
      if newValue.Some? {
        var fromValue := oldValue.GetOr(0.0);
        var toValue := newValue.value;
        valueLayer := valueLayer.(rotation := QuarterTurnBack);
        valueLayer := valueLayer.(strokeStart := 0.0);
        valueLayer := valueLayer.(strokeEnd := toValue);
        if toValue > 0.0 && animated {
          valueLayer := valueLayer.Add(ProgressAnimation(fromValue, toValue), ProgressAnimationKey);
        } else {
          valueLayer := valueLayer.RemoveAllAnimations();
        }
      } else {
        valueLayer := valueLayer.(rotation := QuarterTurnBack);
        valueLayer := valueLayer.(strokeStart := 0.0);
        valueLayer := valueLayer.(strokeEnd := 1.0);
        valueLayer := valueLayer.Add(SpinAnimation(), RotationAnimationKey);
      }
    }
  }
}
