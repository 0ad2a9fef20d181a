/** The Core Animation objects the views build, as plain descriptors: which
    property they drive, their from/to values or keyframe table, their timing
    and repetition. The host's playback of them is not modelled. */
module Animation {
  import opened Wrappers

  /** The animated layer property (`keyPath`). */
  datatype KeyPath = StrokeStart | StrokeEnd | Rotation

  /** The timing function of a basic animation. */
  datatype Timing = LinearTiming | EaseInEaseOut
                  | ControlPoints(x1: real, y1: real, x2: real, y2: real)

  /** How a keyframe animation interpolates between its keyframes. */
  datatype CalculationMode = LinearCalculation | CubicCalculation

  /** An animation descriptor. Unset from/to/by values are None, an unset
      duration is Core Animation's default 0; `fillForwards`
      is `fillMode == .forwards`, `repeatForever` is `repeatCount == .infinity`.
      Rotation values are in multiples of pi. */
  datatype Animation =
    | Basic(keyPath: KeyPath, fromValue: Option<real>, toValue: Option<real>, byValue: Option<real>,
            duration: real, beginTime: real, timing: Timing,
            fillForwards: bool, removedOnCompletion: bool)
    | Keyframe(keyPath: KeyPath, keyTimes: seq<real>, values: seq<real>, duration: real,
               calculation: CalculationMode, repeatForever: bool,
               fillForwards: bool, removedOnCompletion: bool)
    | Group(animations: seq<Animation>, duration: real, repeatForever: bool,
            fillForwards: bool, removedOnCompletion: bool)

  /** The state of a `CAShapeLayer` that the views change: the stroke extents,
      visibility, the z-rotation of its transform (in multiples of pi) and the
      animations installed on it, by key. */
  datatype Layer = Layer(strokeStart: real, strokeEnd: real, hidden: bool, rotation: real,
                         animations: map<string, Animation>)
  {
    /** `removeAllAnimations()`. */
    function RemoveAllAnimations(): Layer {
      this.(animations := map[])
    }

    /** `add(_:forKey:)`: installs `anim`, replacing any animation under `key`. */
    function Add(anim: Animation, key: string): Layer {
      this.(animations := animations[key := anim])
    }
  }

  const ProgressAnimationKey: string := "progress_animation"

  /** Length of the determinate transition, in seconds. */
  const ProgressDuration: real := 0.15

  /** `progressAnimation(fromValue:toValue:)`, identical in both views: an
      ease-in-ease-out transition of `strokeEnd` from the previous value to the
      new one over 0.15 s, which fills forwards and is not removed when it
      completes. */
  function ProgressAnimation(fromValue: real, toValue: real): (anim: Animation)
    ensures anim.Basic? && anim.keyPath == StrokeEnd
    ensures anim.fromValue == Some(fromValue) && anim.toValue == Some(toValue) && anim.byValue == None
    ensures anim.duration == ProgressDuration && anim.beginTime == 0.0 && anim.timing == EaseInEaseOut
    ensures anim.fillForwards && !anim.removedOnCompletion
  {
    Basic(StrokeEnd, Some(fromValue), Some(toValue), None, ProgressDuration, 0.0,
          EaseInEaseOut, true, false)
  }
}
