/** The mode logic of `XMaterialLinearProgressView`: the optional value, the
    style, and the two segment layers that `resetAnimation` rewrites on every
    change of either. Layout, colours and widths are not modelled. */
module LinearView {
  import opened Wrappers
  import opened Animation
  import opened LinearAnimation

  /** Which indeterminate choreography is built. */
  datatype Style = Plain | Bazier

  const Indeterminate1Key: string := "indeterminate1"
  const Indeterminate2Key: string := "indeterminate2"

  /** A segment layer as `makeLineLayer` creates it: both extents 0, visible,
      untransformed, no animations. */
  const LineLayer: Layer := Layer(0.0, 0.0, false, 0.0, map[])

  /** The groups `addIndeterminateBarAnimation` builds for segments 1 and 2
      under a style. */
  function IndeterminateGroups(style: Style): (Animation, Animation) {
    match style
    case Plain => PlainBarGroups()
    case Bazier => ExactBarGroups()
  }

  /** The two segment layers after `resetAnimation(oldValue, newValue,
      animated)` under `style`, given the layers before it.
      With a value v, segment 1 shows [0, v], unclamped, and keeps its
      visibility; segment 2 is hidden and empty at 0/0; the only animation
      left is the 0.15 s `strokeEnd` transition from `oldValue ?? 0` to v on
      segment 1, present exactly when v > 0 and the change is animated.
      With nil, segment 2 becomes visible, both heads are at 0, both tails are
      left as they were, and exactly the style's two groups are installed,
      `indeterminate1` on segment 1 and `indeterminate2` on segment 2. */
  ghost function Reset(segment1: Layer, segment2: Layer, oldValue: Option<real>, newValue: Option<real>,
                       animated: bool, style: Style): (r: (Layer, Layer))
    ensures newValue.Some? ==>
              var (s1, s2) := r;
              var v := newValue.value;
              s1.strokeStart == 0.0 && s1.strokeEnd == v && s1.hidden == segment1.hidden
              && (ProgressAnimationKey in s1.animations <==> v > 0.0 && animated)
              && s1.animations.Keys <= {ProgressAnimationKey}
              && (ProgressAnimationKey in s1.animations ==>
                    s1.animations[ProgressAnimationKey]
                    == ProgressAnimation(if oldValue.Some? then oldValue.value else 0.0, v))
              && s2.hidden && s2.strokeStart == 0.0 && s2.strokeEnd == 0.0 && s2.animations == map[]
    ensures newValue.None? ==>
              var (s1, s2) := r;
              s1.strokeEnd == 0.0 && s2.strokeEnd == 0.0 && !s2.hidden && s1.hidden == segment1.hidden
              && s1.strokeStart == segment1.strokeStart && s2.strokeStart == segment2.strokeStart
              && s1.animations.Keys == {Indeterminate1Key} && s2.animations.Keys == {Indeterminate2Key}
              && s1.animations[Indeterminate1Key] == IndeterminateGroups(style).0
              && s2.animations[Indeterminate2Key] == IndeterminateGroups(style).1
  {
    match newValue
    case Some(v) =>
      (segment1.(strokeStart := 0.0, strokeEnd := v,
                 animations := if v > 0.0 && animated
                               then map[ProgressAnimationKey := ProgressAnimation(oldValue.GetOr(0.0), v)]
                               else map[]),
       segment2.(strokeStart := 0.0, strokeEnd := 0.0, hidden := true, animations := map[]))
    case None =>
      (segment1.(strokeEnd := 0.0, animations := map[Indeterminate1Key := IndeterminateGroups(style).0]),
       segment2.(strokeEnd := 0.0, hidden := false, animations := map[Indeterminate2Key := IndeterminateGroups(style).1]))
  }

  /** Removal first: what a reset installs does not depend on the animations
      the layers carried before, so nothing of an earlier mode survives it. */
  lemma ResetDiscardsPreviousAnimations(segment1: Layer, segment2: Layer, other1: Layer, other2: Layer,
                                        oldValue: Option<real>, newValue: Option<real>,
                                        animated: bool, style: Style)
    requires other1 == segment1.(animations := other1.animations)
    requires other2 == segment2.(animations := other2.animations)
    ensures Reset(segment1, segment2, oldValue, newValue, animated, style)
         == Reset(other1, other2, oldValue, newValue, animated, style)
  {
  }

  class LinearProgressView {
    /** `_value`: nil asks for the indeterminate mode. */
    var value: Option<real>
    var style: Style
    var segment1: Layer
    var segment2: Layer

    /** Determinate display: segment 2 hidden, empty and at 0; segment 1
        carries at most the progress transition. */
    ghost predicate ShowsProgress()
      reads this
    {
      segment2.hidden && segment2.strokeEnd == 0.0 && segment2.animations == map[]
      && segment1.animations.Keys <= {ProgressAnimationKey}
    }

    /** Indeterminate display: both segments visible, heads at 0, and exactly
        the current style's groups installed. */
    ghost predicate ShowsIndeterminate()
      reads this
    {
      !segment2.hidden && segment1.strokeEnd == 0.0 && segment2.strokeEnd == 0.0
      && segment1.animations == map[Indeterminate1Key := IndeterminateGroups(style).0]
      && segment2.animations == map[Indeterminate2Key := IndeterminateGroups(style).1]
    }

    /** Both tails stay at 0 and segment 1 stays visible; the view shows
        exactly one of the two modes; with no value it is indeterminate, and
        a determinate display shows the stored value. */
    ghost predicate Valid()
      reads this
    {
      segment1.strokeStart == 0.0 && segment2.strokeStart == 0.0 && !segment1.hidden
      && (ShowsProgress() <==> !ShowsIndeterminate())
      && (value.None? ==> ShowsIndeterminate())
      && (ShowsProgress() ==> value.Some? && segment1.strokeEnd == value.value)
    }

    /** `init(frame:)`: fresh segment layers, style `bazier`, no value, then
        a reset into the indeterminate mode. */
    constructor ()
      ensures Valid() && value == None && style == Bazier && ShowsIndeterminate()
    {
      value := None;
      style := Bazier;
      segment1 := LineLayer;
      segment2 := LineLayer;
      new;
      ResetAnimation(None, None, false);
    }

    /** The `value` setter: stores the value, then resets without animation,
        passing the previous value as `oldValue`. */
    method AssignValue(newValue: Option<real>)
      requires Valid()
      modifies this
      ensures Valid() && value == newValue && style == old(style)
      ensures (segment1, segment2) == Reset(old(segment1), old(segment2), old(value), newValue, false, style)
    {
      var previous := value;
      value := newValue;
      ResetAnimation(previous, newValue, false);
    }

    /** `setValue(_:animated:)`: stores the value, then resets, passing the
        previous value as `oldValue`. */
    method SetValue(newValue: Option<real>, animated: bool)
      requires Valid()
      modifies this
      ensures Valid() && value == newValue && style == old(style)
      ensures (segment1, segment2) == Reset(old(segment1), old(segment2), old(value), newValue, animated, style)
    {
      var previous := value;
      value := newValue;
      ResetAnimation(previous, newValue, animated);
    }

    /** The `style` setter and its `didSet`: always resets into the
        indeterminate mode with the new style, even when a value is stored,
        and keeps that value. */
    method SetStyle(newStyle: Style)
      requires Valid()
      modifies this
      ensures Valid() && style == newStyle && value == old(value) && ShowsIndeterminate()
      ensures (segment1, segment2) == Reset(old(segment1), old(segment2), None, None, false, newStyle)
    {
      style := newStyle;
      ResetAnimation(None, None, false);
    }

    /** `resetAnimation(oldValue:newValue:animated:)`: removes every animation
        from both segments, then sets up the determinate or the indeterminate
        display. */
    method ResetAnimation(oldValue: Option<real>, newValue: Option<real>, animated: bool)
      modifies this`segment1, this`segment2
      ensures (segment1, segment2) == Reset(old(segment1), old(segment2), oldValue, newValue, animated, style)
    {
      segment1 := segment1.RemoveAllAnimations();
      segment2 := segment2.RemoveAllAnimations();
      if newValue.Some? {
        var v := newValue.value;
        var fromValue := oldValue.GetOr(0.0);
        var toValue := v;
        segment1 := segment1.(strokeStart := 0.0);
        segment1 := segment1.(strokeEnd := toValue);
        if v > 0.0 && animated {
          segment1 := segment1.Add(ProgressAnimation(fromValue, toValue), ProgressAnimationKey);
        } else {
          segment1 := segment1.RemoveAllAnimations();
        }
        segment2 := segment2.(strokeStart := 0.0);
        segment2 := segment2.(strokeEnd := 0.0);
        segment2 := segment2.(hidden := true);
      } else {
        segment1 := segment1.(strokeEnd := 0.0);
        segment2 := segment2.(strokeEnd := 0.0);
        segment2 := segment2.(hidden := false);
        AddIndeterminateBarAnimation();
      }
    }

    /** `addIndeterminateBarAnimation(layer1:layer2:)`: builds the current
        style's groups and installs them under `indeterminate1` and
        `indeterminate2`. */
    method AddIndeterminateBarAnimation()
      modifies this`segment1, this`segment2
      ensures segment1 == old(segment1).Add(IndeterminateGroups(style).0, Indeterminate1Key)
      ensures segment2 == old(segment2).Add(IndeterminateGroups(style).1, Indeterminate2Key)
    {
      var group1, group2;
      match style {
        case Plain =>
          group1, group2 := PlainBarGroups().0, PlainBarGroups().1;
        case Bazier =>
          group1, group2 := MakeExactBarGroups();
      }
      segment1 := segment1.Add(group1, Indeterminate1Key);
      segment2 := segment2.Add(group2, Indeterminate2Key);
    }
  }
}
