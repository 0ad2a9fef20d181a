# XMaterialProgressView: animation engine and mode logic in Dafny

This project models the core of XMaterialProgressView, a UIKit library with
two Material-style progress indicators. Each indicator has a determinate
mode, which shows a numeric fraction, and an indeterminate mode, which plays a
looping "loading" animation.

- `wrappers.dfy`, module `Wrappers`: Swift's `Optional`, with `??` as `GetOr`.
- `easing.dfy`, module `Easing`: the exact strategy's unit cubic Bezier. It
  holds the Bernstein cubic `_evaluateCubic` and the bisection loop of
  `Cubic.transformInternal` (method `Cubic.TransformInternal`). Its
  specification is the function `Cubic.Ease`, built on `Cubic.Probe`, which
  follows the loop probe by probe. The module proves that the loop stops:
  a curve whose control points have x in [0, 1] rises at most 3 per unit of
  its parameter, and the bracket [start, end] always keeps t between x(start)
  and x(end). So after 11 halvings the midpoint is within 1.5/2048 < 0.001
  of t, and no search probes more than 12 midpoints.
- `animation.dfy`, module `Animation`: Core Animation objects as descriptors
  (key path, from/to/by values, duration, begin time, timing, keyframe table,
  repetition, fill). It also holds the layer state the views change
  (`strokeStart`, `strokeEnd`, `isHidden`, rotation, animations by key) and
  the shared 0.15 s progress transition.
- `linear_animation.dfy`, module `LinearAnimation`: the linear indicator's
  1800 ms cycle and its four head/tail windows. It also holds the four curves,
  the window transform (static `transformInternal`), the 61-sample table
  builder `makeAnimation`, the 2-point `makeKeyframe` tables, and the
  per-segment groups of both strategies.
- `linear_view.dfy`, module `LinearView`: `XMaterialLinearProgressView` as a
  class with `_value`, `style` and the two segment layers. `resetAnimation`
  is given by the ghost function `Reset`. The object invariant `Valid`
  states that the view shows exactly one mode.
- `circle_view.dfy`, module `CircleView`: `XMaterialCircleProgressView` as a
  class with `_value` and its value layer, the spin group, and the same mode
  state machine on one layer.

Numbers are Dafny `real`s. Angles are in multiples of pi, so -pi/2 is
`-0.5` and a full turn is `2.0`.

Facts about the code that the model keeps:
- The circular spin group lasts `durationStart + beginTime` = 1.3 + 0.5 = 1.8 s
  (XMaterialProgressView/Classes/XMaterialCircleProgressView.swift:172). The tail animation (`strokeStart`) starts at 0.5 s and
  ends exactly when the group ends.
- The rotation inside the spin group sets no duration of its own
  (XMaterialProgressView/Classes/XMaterialCircleProgressView.swift:145-147), so it has Core Animation's default 0.
- Both stroke animations of the spin group use the control points
  (0.4, 0, 0.2, 1) (XMaterialProgressView/Classes/XMaterialCircleProgressView.swift:151 and :160).
- The `didSet` of `style` on the linear view always resets it into the
  indeterminate mode with the new style and keeps `_value`
  (XMaterialProgressView/Classes/XMaterialLinearProgressView.swift:71-75).
- A transition's start value is the previously stored `_value ?? 0`
  (XMaterialProgressView/Classes/XMaterialLinearProgressView.swift:150 and XMaterialProgressView/Classes/XMaterialCircleProgressView.swift:109).

## Model

| member | source | states |
|---|---|---|
| `Easing.EvaluateCubicEndpoints` | XMaterialProgressView/Classes/XMaterialLinearProgressView.swift:280-282 | the Bernstein cubic passes through its anchors: B(p,q,0) = 0 and B(p,q,1) = 1 for all p, q |
| `Easing.EvaluateCubicBounds` | XMaterialProgressView/Classes/XMaterialLinearProgressView.swift:280-282 | for p, q, m in [0,1], B(p,q,m) lies in [0,1] |
| `Easing.EvaluateCubicRise` | XMaterialProgressView/Classes/XMaterialLinearProgressView.swift:280-282 | for p, q in [0,1] and 0 <= m1 <= m2 <= 1, B rises by at most 3 (m2 - m1); this bound is what makes the bisection stop |
| `Easing.Cubic.Probe` | XMaterialProgressView/Classes/XMaterialLinearProgressView.swift:288-299 | the bisection's probe sequence from a bracket [lo, hi] with a number of probes left: it returns the first midpoint whose x is within 0.001 of t, or None when every probe missed; whatever it returns lies strictly inside the bracket and its x is within 0.001 of t |
| `Easing.ProbeCompletes` | XMaterialProgressView/Classes/XMaterialLinearProgressView.swift:288-299 | suppose a bracket around t was reached after k halvings (width 2^-k) and 12 - k probes remain; then the search hits before they run out |
| `Easing.BisectionTerminates` | XMaterialProgressView/Classes/XMaterialLinearProgressView.swift:288 | the unbounded `while true` stops within 12 probes for every t in [0,1] and every curve whose control points have x in [0,1] |
| `Easing.Cubic.Ease` | XMaterialProgressView/Classes/XMaterialLinearProgressView.swift:285-300 | the eased value is y at some m in (0,1) with abs(t - x(m)) < 0.001 (the first probed midpoint that qualifies) |
| `Easing.EaseBounds` | XMaterialProgressView/Classes/XMaterialLinearProgressView.swift:292 | when both control points' y also lie in [0,1], the eased value lies in [0,1] |
| `Easing.Cubic.TransformInternal` | XMaterialProgressView/Classes/XMaterialLinearProgressView.swift:285-300 | the bisection loop returns exactly `Ease(t)`; its invariants: 0 <= start < end <= 1, end - start halves on every iteration, x(start) <= t <= x(end) |
| `LinearAnimation.WindowConstants` | XMaterialProgressView/Classes/XMaterialLinearProgressView.swift:212-219 | the four head/tail windows satisfy 0 <= begin < end <= 1; segment 1's head starts at 0; segment 2's tail ends at exactly 1800/1800 = 1; the plain and exact strategies use the same windows |
| `LinearAnimation.CurveConstants` | XMaterialProgressView/Classes/XMaterialLinearProgressView.swift:337-360 | all four easing curves have both control points in the unit square, so their bisections stop and their values lie in [0,1] |
| `LinearAnimation.Windowed` | XMaterialProgressView/Classes/XMaterialLinearProgressView.swift:304-309 | 0 when t <= begin; 1 when t >= end (and t > begin); otherwise the curve applied to (t - begin)/(end - begin), which lies strictly inside (0,1); then the result lies in [0,1] for the library's curves |
| `LinearAnimation.WindowProgress` | XMaterialProgressView/Classes/XMaterialLinearProgressView.swift:307 | for begin < t < end the normalised progress lies strictly inside (0,1) |
| `LinearAnimation.ExactKeyframes` | XMaterialProgressView/Classes/XMaterialLinearProgressView.swift:311-333 | the table `makeAnimation` builds: a linear, one-cycle, forever-repeating keyframe animation on the given key path with exactly 61 key times and 61 values; keyTimes[i] = i/60, strictly increasing from 0 to 1; values[i] is the window transform at keyTimes[i], so 0 at or before begin, 1 at or after end, and in [0,1] for the library's curves |
| `LinearAnimation.MakeAnimation` | XMaterialProgressView/Classes/XMaterialLinearProgressView.swift:311-333 | the sampling loop builds exactly that table, replayed linearly over 1.8 s, forever, filled forwards and never removed |
| `LinearAnimation.PlainMatchesExactAtWindowEdges` | XMaterialProgressView/Classes/XMaterialLinearProgressView.swift:201-240 | for every well-formed window and every curve, a plain table has keyTimes [begin, end] and passes through the exact window transform's values there (0 and 1); it lasts 1.8 s |
| `LinearAnimation.MakeKeyframe` | XMaterialProgressView/Classes/XMaterialLinearProgressView.swift:201-208 | a keyframe animation on the given key path through exactly the given key times and values, paced cubically over one 1.8 s cycle, neither repeated nor filled forwards on its own and removed on completion; repetition is left to the enclosing group |
| `LinearAnimation.PlainBarGroups` | XMaterialProgressView/Classes/XMaterialLinearProgressView.swift:210-256 | the plain strategy's two groups each hold a `strokeEnd` (head) and a `strokeStart` (tail) table, and each table passes through the edges of the exact strategy's window and curve for the same edge: value 0 at the window's begin and 1 at its end |
| `LinearAnimation.MakeExactBarGroups` | XMaterialProgressView/Classes/XMaterialLinearProgressView.swift:335-376 | the exact strategy's groups for segments 1 and 2 are built from the four sampled tables with their windows and curves |
| `LinearAnimation.BarGroupsLockstep` | XMaterialProgressView/Classes/XMaterialLinearProgressView.swift:242-255 | in both strategies, each segment group holds its head (`strokeEnd`) and tail (`strokeStart`) tables of 1.8 s; the group lasts 1.8 s, repeats forever and is never removed |
| `Animation.ProgressAnimation` | XMaterialProgressView/Classes/XMaterialLinearProgressView.swift:172-181 | the progress transition animates `strokeEnd` from the old value to the new one over 0.15 s with ease-in-ease-out timing, starts at once, fills forwards and is not removed on completion (the circle's copy is XMaterialCircleProgressView.swift:129-138) |
| `LinearView.Reset` | XMaterialProgressView/Classes/XMaterialLinearProgressView.swift:146-170 | `resetAnimation` on the two segments. With a value v: segment 1 gets strokeStart 0 and strokeEnd v (unclamped); segment 2 is hidden at 0/0 with no animations; the only animation left is the 0.15 s transition from `oldValue ?? 0` to v on segment 1, present iff v > 0 and animated. With nil: segment 2 becomes visible; both strokeEnds are 0; the strokeStarts are unchanged; exactly the style's groups are installed under `indeterminate1` and `indeterminate2` |
| `LinearView.ResetDiscardsPreviousAnimations` | XMaterialProgressView/Classes/XMaterialLinearProgressView.swift:147 | all animations are removed first, so the layers after a reset do not depend on the animations they carried before |
| `LinearView.LinearProgressView.constructor` | XMaterialProgressView/Classes/XMaterialLinearProgressView.swift:79-86 | a new view has no value, style `bazier`, and shows the indeterminate mode |
| `LinearView.LinearProgressView.AssignValue` | XMaterialProgressView/Classes/XMaterialLinearProgressView.swift:56-63 | the `value` setter stores the value and resets with the previous value as `oldValue` and `animated: false`, just like `SetValue(v, false)`; keeps `Valid` |
| `LinearView.LinearProgressView.SetValue` | XMaterialProgressView/Classes/XMaterialLinearProgressView.swift:65-69 | stores the value and resets with the previous value as `oldValue`; keeps `Valid` |
| `LinearView.LinearProgressView.SetStyle` | XMaterialProgressView/Classes/XMaterialLinearProgressView.swift:71-75 | stores the style and always takes the indeterminate branch, even with a value stored; `_value` is unchanged; keeps `Valid` |
| `LinearView.LinearProgressView.ResetAnimation` | XMaterialProgressView/Classes/XMaterialLinearProgressView.swift:146-170 | the two segment layers become `Reset(old layers, oldValue, newValue, animated, style)`; nothing else changes |
| `LinearView.LinearProgressView.AddIndeterminateBarAnimation` | XMaterialProgressView/Classes/XMaterialLinearProgressView.swift:183-191 | installs the plain or exact groups, chosen by `style`, under `indeterminate1` and `indeterminate2` |
| `CircleView.SpinAnimation` | XMaterialProgressView/Classes/XMaterialCircleProgressView.swift:140-178 | the head runs 0 to 1 over 0.8 s from 0; the tail runs 0 to 1 from 0.5 s for 1.3 s; both use control points (0.4, 0, 0.2, 1); the group lasts 1.8 s, so the tail ends exactly at the group's end and after the head; the rotation adds a full turn with linear timing and no duration of its own; the group repeats forever and is never removed |
| `CircleView.Reset` | XMaterialProgressView/Classes/XMaterialCircleProgressView.swift:105-127 | `resetAnimation` on the value layer: rotation -pi/2 and strokeStart 0 in both modes. With a value v: strokeEnd v (unclamped), and the 0.15 s transition from `oldValue ?? 0` to v is the only animation, present iff v > 0 and animated. With nil: strokeEnd 1 and the spin group is the one animation, under `rotation_animation` |
| `CircleView.ResetLeavesAtMostOneAnimation` | XMaterialProgressView/Classes/XMaterialCircleProgressView.swift:105-127 | all animations are removed first, so every reset leaves at most one animation, whatever the layer carried before |
| `CircleView.CircleProgressView.constructor` | XMaterialProgressView/Classes/XMaterialCircleProgressView.swift:73-78 | a new view has no value and is reset into the indeterminate mode from a fresh layer |
| `CircleView.CircleProgressView.AssignValue` | XMaterialProgressView/Classes/XMaterialCircleProgressView.swift:51-61 | the `value` setter stores the value and resets with the previous value as `oldValue` and `animated: false`; keeps `Valid` |
| `CircleView.CircleProgressView.SetValue` | XMaterialProgressView/Classes/XMaterialCircleProgressView.swift:63-69 | stores the value and resets with the previous value as `oldValue`; keeps `Valid` (rotated -pi/2, tail at 0, spinning over the whole circle with no value, showing [0, v] with at most the transition otherwise) |
| `CircleView.CircleProgressView.ResetAnimation` | XMaterialProgressView/Classes/XMaterialCircleProgressView.swift:105-127 | the value layer becomes `Reset(old layer, oldValue, newValue, animated)`; nothing else changes |

## Left out

- `Easing.Cubic.TransformInternal`: requires t in [0,1] and control points with x in [0,1]. The source's loop has no precondition. Outside these inputs it can loop forever, for example for t > 1. Every call in the library passes such inputs, and under them the model proves that the loop stops.
- `LinearAnimation.Windowed`: requires a curve with control x in [0,1] when t is strictly inside the window, for the same reason. `MakeAnimation` requires such a curve; the four constant curves have one.
- Floating point: `Double`, `Float`, `CGFloat` and `NSNumber` rounding are not modelled; the arithmetic is exact over `real`. This includes the `Float` conversion of plain key times. So `keyTimes[60] == 1` and the window values hold exactly in the model.
- The value of pi: angles are kept as multiples of pi. The `Float.pi` and `Double.pi` approximations are not modelled.
- `LinearView.Reset`, `LinearView.ResetDiscardsPreviousAnimations`, `CircleView.Reset`, `CircleView.ResetLeavesAtMostOneAnimation`: Core Animation's implicit actions are not modelled. Setting `strokeStart`, `strokeEnd`, `isHidden` or `transform` on a standalone layer adds an implicit animation under that property's key; the second `removeAllAnimations()` (XMaterialProgressView/Classes/XMaterialLinearProgressView.swift:157, XMaterialProgressView/Classes/XMaterialCircleProgressView.swift:117) is what discards those so that an unanimated change jumps. The model records only the animations the views add explicitly, so "no animations", "the only animation" and "at most one animation" are about those; in the model that second removal changes nothing.
- Core Animation's playback is not modelled: interpolation between keyframes, timing-function easing, repetition and the rotation matrix. Animations are descriptors only.
- Layout and drawing: `layoutSubviews`, `linePath`, `circlePath`, `intrinsicContentSize`, `lastBounds`, the track layers, and the colour and width setters. They only style and place layers.
- `deinit` (removes all animations at teardown) and `init?(coder:)` (a `fatalError` stub).
- Lazy creation of the layers: the model creates them in the constructor. The `value` getters are the `value` fields themselves.
