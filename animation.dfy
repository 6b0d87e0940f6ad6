/**
 * The animation sampler: advances every playing state's clock, finds the
 * keyframe interval of each channel of its active clip by binary search and
 * writes the sampled position, rotation or scale into the target entity.
 *
 * The effect of one call is specified by `AnimateAll`, a left fold over the
 * playback states (each state folds over its channels with
 * `ApplyChannels`); `UpdateAnimations` is proved equal to it.
 */
module Animation {
  import opened Wrappers
  import opened Geometry
  import opened Scene

  // ----- Keyframe search -----

  /** Bounding keys `i0`, `i1` and the interpolation factor between them. */
  datatype KeySpan = KeySpan(i0: nat, i1: nat, factor: real)

  /** Intervals shorter than this are degenerate and give factor 0. */
  const DegenerateInterval: real := 0.00000001

  function Abs(x: real): real { if x < 0.0 then -x else x }

  /** Position of `time` within [t0, t1], or 0 for a degenerate interval. */
  function Factor(t0: real, t1: real, time: real): (f: real)
    ensures Abs(t1 - t0) < DegenerateInterval ==> f == 0.0
    ensures t0 <= time < t1 ==> 0.0 <= f < 1.0
  {
    if Abs(t1 - t0) < DegenerateInterval then 0.0
    else
      var f := (time - t0) / (t1 - t0);
      assert t0 <= time < t1 ==> 0.0 <= f < 1.0 by {
        if t0 <= time < t1 { QuotientBelowOne(time - t0, t1 - t0); }
      }
      f
  }

  lemma QuotientBelowOne(a: real, b: real)
    requires 0.0 <= a < b
    ensures 0.0 <= a / b < 1.0
  {
    var q := a / b;
    assert q * b == a;
  }

  /**
   * The binary search from the interval [lo, hi] down to two adjacent keys,
   * as a recursion; the result is the final `lo` (the final `hi` is one more).
   * Whatever the order of `times`, the search keeps `times[lo] <= time < times[hi]`.
   */
  function Bisect(times: seq<real>, time: real, lo: nat, hi: nat): (r: nat)
    requires lo < hi < |times|
    ensures lo <= r < hi
    ensures times[lo] <= time < times[hi] ==> times[r] <= time < times[r + 1]
    decreases hi - lo
  {
    if lo >= hi - 1 then lo
    else
      var mid := (lo + hi) / 2;
      if times[mid] <= time then Bisect(times, time, mid, hi) else Bisect(times, time, lo, mid)
  }

  /** What the keyframe search returns for `times` and `time`. */
  function KeyframeSpan(times: seq<real>, time: real): (r: Option<KeySpan>)
    ensures r.None? <==> |times| == 0
    ensures r.Some? ==> r.value.i0 <= r.value.i1 < |times| && r.value.i1 <= r.value.i0 + 1
    ensures r.Some? ==> 0.0 <= r.value.factor < 1.0
    ensures r.Some? && r.value.i0 == r.value.i1 ==> r.value.factor == 0.0
    ensures r.Some? && r.value.i0 < r.value.i1 ==> times[r.value.i0] <= time < times[r.value.i1]
    ensures |times| >= 2 && times[0] < time < times[|times| - 1] ==>
      r.Some? && r.value.i1 == r.value.i0 + 1
  {
    if |times| == 0 then None
    else if |times| == 1 then Some(KeySpan(0, 0, 0.0))
    else if time <= times[0] then Some(KeySpan(0, 0, 0.0))
    else if time >= times[|times| - 1] then Some(KeySpan(|times| - 1, |times| - 1, 0.0))
    else
      var lo := Bisect(times, time, 0, |times| - 1);
      Some(KeySpan(lo, lo + 1, Factor(times[lo], times[lo + 1], time)))
  }

  /** The clamped cases: no keys, one key, at or before the first, at or after the last. */
  lemma KeyframeClamps(times: seq<real>, time: real)
    ensures |times| == 0 ==> KeyframeSpan(times, time) == None
    ensures |times| == 1 ==> KeyframeSpan(times, time) == Some(KeySpan(0, 0, 0.0))
    ensures |times| >= 1 && time <= times[0] ==> KeyframeSpan(times, time) == Some(KeySpan(0, 0, 0.0))
    ensures |times| >= 2 && times[0] < time && time >= times[|times| - 1] ==>
      KeyframeSpan(times, time) == Some(KeySpan(|times| - 1, |times| - 1, 0.0))
  {
  }

  ghost predicate StrictlyIncreasing(times: seq<real>)
  {
    forall i, j :: 0 <= i < j < |times| ==> times[i] < times[j]
  }

  /**
   * For strictly increasing keys, the search finds THE interval holding
   * `time`: any k with times[k] <= time < times[k+1] is the one returned.
   */
  lemma KeyframeSpanUnique(times: seq<real>, time: real, k: nat)
    requires StrictlyIncreasing(times)
    requires k + 1 < |times| && times[k] <= time < times[k + 1] && times[0] < time
    ensures KeyframeSpan(times, time) == Some(KeySpan(k, k + 1, Factor(times[k], times[k + 1], time)))
  {
    var last := |times| - 1;
    assert times[k + 1] <= times[last] by {
      if k + 1 < last { assert times[k + 1] < times[last]; }
    }
    var r := KeyframeSpan(times, time).value;
    assert r.i1 == r.i0 + 1 && times[r.i0] <= time < times[r.i1];
  }

  /** The worked examples: T = [0, 2] at 1, and T = [1, 2, 3] before and after its range. */
  lemma KeyframeExamples()
    ensures KeyframeSpan([0.0, 2.0], 1.0) == Some(KeySpan(0, 1, 0.5))
    ensures KeyframeSpan([1.0, 2.0, 3.0], 0.5) == Some(KeySpan(0, 0, 0.0))
    ensures KeyframeSpan([1.0, 2.0, 3.0], 5.0) == Some(KeySpan(2, 2, 0.0))
  {
  }

  /** Binary search for the keyframe interval containing `time`. */
  method FindKeyframeIndex(times: seq<real>, time: real) returns (r: Option<KeySpan>)
    ensures r == KeyframeSpan(times, time)
    ensures r.None? <==> |times| == 0
    ensures r.Some? ==> r.value.i0 <= r.value.i1 < |times| && 0.0 <= r.value.factor < 1.0
  {
    if |times| == 0 {
      return None;
    }
    if |times| == 1 {
      return Some(KeySpan(0, 0, 0.0));
    }
    if time <= times[0] {
      return Some(KeySpan(0, 0, 0.0));
    }
    if time >= times[|times| - 1] {
      var last := |times| - 1;
      return Some(KeySpan(last, last, 0.0));
    }
    var lo := 0;
    var hi := |times| - 1;
    while lo < hi - 1
      invariant 0 <= lo < hi <= |times| - 1
      invariant Bisect(times, time, lo, hi) == Bisect(times, time, 0, |times| - 1)
      decreases hi - lo
    {
      var mid := (lo + hi) / 2;
      if times[mid] <= time {
        lo := mid;
      } else {
        hi := mid;
      }
    }
    var t0 := times[lo];
    var t1 := times[hi];
    var factor := if Abs(t1 - t0) < DegenerateInterval then 0.0 else (time - t0) / (t1 - t0);
    r := Some(KeySpan(lo, hi, factor));
  }

  // ----- Reading and interpolating key values -----

  /** Numbers per key in a channel's value buffer. */
  function Stride(p: TargetProperty): nat
  {
    if p == Rotation then 4 else 3
  }

  /** Key `index` of a position/scale buffer: three numbers at offset 3*index. */
  function GetVec3(values: seq<real>, index: nat): (v: Vec3)
    requires 3 * index + 2 < |values|
    ensures v.x == values[3 * index] && v.y == values[3 * index + 1] && v.z == values[3 * index + 2]
  {
    var i := index * 3;
    Vec3(values[i], values[i + 1], values[i + 2])
  }

  /** Key `index` of a rotation buffer: storage order (w, x, y, z) at offset 4*index. */
  function GetQuat(values: seq<real>, index: nat): (q: Quat)
    requires 4 * index + 3 < |values|
    ensures q.w == values[4 * index] && q.x == values[4 * index + 1]
    ensures q.y == values[4 * index + 2] && q.z == values[4 * index + 3]
  {
    var i := index * 4;
    Quat(values[i + 1], values[i + 2], values[i + 3], values[i])
  }

  /** The stored-rotation layout read by the loader and by `GetQuat` is the same. */
  lemma GetQuatReadsStoredRotation(r: Floats4)
    ensures GetQuat(r, 0) == RotationOf(r)
  {
  }

  function LerpVec3(a: Vec3, b: Vec3, t: real): (r: Vec3)
    ensures t == 0.0 ==> r == a
    ensures t == 1.0 ==> r == b
  {
    Add(a, MulScalar(Sub(b, a), t))
  }

  /**
   * The two floating-point tails of quaternion interpolation, left abstract:
   * `normalize` (division by the length) and `arcWeights(dot, t)`, the pair
   * sin((1-t)θ)/sin θ, sin(tθ)/sin θ with θ = acos(dot).
   */
  datatype FloatOps = FloatOps(normalize: Quat -> Quat, arcWeights: (real, real) -> (real, real))

  /** Above this dot product the two quaternions are interpolated linearly. */
  const NlerpThreshold: real := 0.9995

  function Dot(a: Quat, b: Quat): real { a.x * b.x + a.y * b.y + a.z * b.z + a.w * b.w }

  function Negate(q: Quat): Quat { Quat(-q.x, -q.y, -q.z, -q.w) }

  /** The second quaternion on the first one's hemisphere, and the dot product slerp branches on. */
  function ShortestPath(a: Quat, b: Quat): (r: (Quat, real))
    ensures r.1 >= 0.0 && r.1 == Dot(a, r.0)
    ensures r.1 == Abs(Dot(a, b))
    ensures r.0 == if Dot(a, b) < 0.0 then Negate(b) else b
  {
    var dot := Dot(a, b);
    if dot < 0.0 then (Negate(b), -dot) else (b, dot)
  }

  /** Shortest-path spherical interpolation, with the normalised-linear fallback. */
  function Slerp(a: Quat, b: Quat, t: real, ops: FloatOps): (r: Quat)
    ensures Abs(Dot(a, b)) > NlerpThreshold && t == 0.0 ==> r == ops.normalize(a)
    ensures Abs(Dot(a, b)) > NlerpThreshold && t == 1.0 ==>
      r == ops.normalize(if Dot(a, b) < 0.0 then Negate(b) else b)
  {
    var path := ShortestPath(a, b);
    var b' := path.0;
    if path.1 > NlerpThreshold then
      ops.normalize(QuatLerp(a, b', t))
    else
      var w := ops.arcWeights(path.1, t);
      Quat(a.x * w.0 + b'.x * w.1, a.y * w.0 + b'.y * w.1, a.z * w.0 + b'.z * w.1, a.w * w.0 + b'.w * w.1)
  }

  /** Component-wise linear interpolation of two quaternions (before normalising). */
  function QuatLerp(a: Quat, b: Quat, t: real): (r: Quat)
    ensures t == 0.0 ==> r == a
    ensures t == 1.0 ==> r == b
    ensures a == b ==> r == a
  {
    Quat(a.x + (b.x - a.x) * t, a.y + (b.y - a.y) * t, a.z + (b.z - a.z) * t, a.w + (b.w - a.w) * t)
  }

  /** Slerp between a quaternion and itself (dot = |q|² > 0.9995) takes the normalised branch and returns normalize(q). */
  lemma SlerpNearIdentical(q: Quat, t: real, ops: FloatOps)
    requires Dot(q, q) > NlerpThreshold
    ensures Slerp(q, q, t, ops) == ops.normalize(q)
  {
    var path := ShortestPath(q, q);
    assert path.0 == q;
    assert QuatLerp(q, path.0, t) == q;
  }

  /**
   * The branch choice of slerp, stated in terms of |a·b| rather than the
   * dot product after the hemisphere flip: above the threshold the
   * normalised blend towards the aligned `b'`, at or below it the
   * arc-weighted combination of `a` and `b'`.
   */
  lemma SlerpBranches(a: Quat, b: Quat, t: real, ops: FloatOps)
    ensures var d := Abs(Dot(a, b));
      var b' := if Dot(a, b) < 0.0 then Negate(b) else b;
      && (d > NlerpThreshold ==> Slerp(a, b, t, ops) == ops.normalize(QuatLerp(a, b', t)))
      && (d <= NlerpThreshold ==>
            var w := ops.arcWeights(d, t);
            Slerp(a, b, t, ops) == Quat(a.x * w.0 + b'.x * w.1, a.y * w.0 + b'.y * w.1,
                                        a.z * w.0 + b'.z * w.1, a.w * w.0 + b'.w * w.1))
  {
  }

  // ----- Applying one channel -----

  /** A channel whose keys are read has a value buffer covering every key. */
  predicate ChannelReady(ch: AnimationChannel, entityCount: nat)
  {
    ch.targetEntityIndex < entityCount && |ch.times| > 0 ==>
      |ch.values| >= Stride(ch.targetProperty) * |ch.times|
  }

  predicate SpanWithin(span: KeySpan, ch: AnimationChannel)
  {
    span.i0 < |ch.times| && span.i1 < |ch.times|
  }

  function SampleVec3(ch: AnimationChannel, span: KeySpan): (v: Vec3)
    requires ch.targetProperty != Rotation && |ch.values| >= 3 * |ch.times| && SpanWithin(span, ch)
    ensures ch.interpolation == Step ==> v == GetVec3(ch.values, span.i0)
    ensures ch.interpolation != Step ==>
      v == LerpVec3(GetVec3(ch.values, span.i0), GetVec3(ch.values, span.i1), span.factor)
  {
    var v0 := GetVec3(ch.values, span.i0);
    var v1 := GetVec3(ch.values, span.i1);
    match ch.interpolation
    case Step => v0
    case Linear => LerpVec3(v0, v1, span.factor)
    case CubicSpline => LerpVec3(v0, v1, span.factor)
  }

  function SampleQuat(ch: AnimationChannel, span: KeySpan, ops: FloatOps): (q: Quat)
    requires ch.targetProperty == Rotation && |ch.values| >= 4 * |ch.times| && SpanWithin(span, ch)
    ensures ch.interpolation == Step ==> q == GetQuat(ch.values, span.i0)
    ensures ch.interpolation != Step ==>
      q == Slerp(GetQuat(ch.values, span.i0), GetQuat(ch.values, span.i1), span.factor, ops)
  {
    var q0 := GetQuat(ch.values, span.i0);
    var q1 := GetQuat(ch.values, span.i1);
    match ch.interpolation
    case Step => q0
    case Linear => Slerp(q0, q1, span.factor, ops)
    case CubicSpline => Slerp(q0, q1, span.factor, ops)
  }

  /** The transform after writing the channel's sampled value into its target property. */
  function Sampled(tr: TransformState, ch: AnimationChannel, span: KeySpan, ops: FloatOps): (r: TransformState)
    requires |ch.values| >= Stride(ch.targetProperty) * |ch.times| && SpanWithin(span, ch)
    ensures r.dirty
    ensures ch.targetProperty == Position ==> r == tr.(position := SampleVec3(ch, span), dirty := true)
    ensures ch.targetProperty == Rotation ==> r == tr.(rotation := SampleQuat(ch, span, ops), dirty := true)
    ensures ch.targetProperty == Scale ==> r == tr.(scale := SampleVec3(ch, span), dirty := true)
  {
    match ch.targetProperty
    case Position => tr.(position := SampleVec3(ch, span), dirty := true)
    case Rotation => tr.(rotation := SampleQuat(ch, span, ops), dirty := true)
    case Scale => tr.(scale := SampleVec3(ch, span), dirty := true)
  }

  /** CubicSpline channels are sampled exactly as Linear ones. */
  lemma CubicSplineIsLinear(tr: TransformState, ch: AnimationChannel, span: KeySpan, ops: FloatOps)
    requires |ch.values| >= Stride(ch.targetProperty) * |ch.times| && SpanWithin(span, ch)
    ensures Sampled(tr, ch.(interpolation := CubicSpline), span, ops)
         == Sampled(tr, ch.(interpolation := Linear), span, ops)
  {
  }

  /** The entities after one channel: an out-of-range target or an empty key list writes nothing. */
  function ApplyChannel(es: seq<Entity>, ch: AnimationChannel, time: real, ops: FloatOps): (r: seq<Entity>)
    requires ChannelReady(ch, |es|)
    ensures |r| == |es|
    ensures forall k :: 0 <= k < |es| && k != ch.targetEntityIndex ==> r[k] == es[k]
    ensures ch.targetEntityIndex >= |es| || |ch.times| == 0 ==> r == es
    ensures ch.targetEntityIndex < |es| && |ch.times| > 0 ==>
      var e := es[ch.targetEntityIndex];
      var e' := r[ch.targetEntityIndex];
      && e'.transform.dirty
      && e' == e.(transform := e'.transform)
      && e'.transform == Sampled(e.transform, ch, KeyframeSpan(ch.times, time).value, ops)
  {
    if ch.targetEntityIndex >= |es| then es
    else match KeyframeSpan(ch.times, time)
      case None => es
      case Some(span) =>
        var e := es[ch.targetEntityIndex];
        es[ch.targetEntityIndex := e.(transform := Sampled(e.transform, ch, span, ops))]
  }

  predicate ChannelsReady(chs: seq<AnimationChannel>, entityCount: nat)
  {
    forall k :: 0 <= k < |chs| ==> ChannelReady(chs[k], entityCount)
  }

  /** The channels of a clip applied in order. */
  function ApplyChannels(es: seq<Entity>, chs: seq<AnimationChannel>, time: real, ops: FloatOps): (r: seq<Entity>)
    requires ChannelsReady(chs, |es|)
    ensures |r| == |es|
    ensures forall e :: 0 <= e < |es| && (forall k :: 0 <= k < |chs| ==> chs[k].targetEntityIndex != e) ==>
      r[e] == es[e]
    ensures forall e :: 0 <= e < |es| && es[e].transform.dirty ==> r[e].transform.dirty
    ensures forall k :: 0 <= k < |chs| && chs[k].targetEntityIndex < |es| && |chs[k].times| > 0 ==>
      r[chs[k].targetEntityIndex].transform.dirty
    decreases |chs|
  {
    if |chs| == 0 then es
    else
      var init := chs[..|chs| - 1];
      assert ChannelsReady(init, |es|);
      ApplyChannel(ApplyChannels(es, init, time, ops), chs[|chs| - 1], time, ops)
  }

  // ----- Advancing a playback clock -----

  predicate ActiveClipValid(s: AnimationState)
  {
    0 <= s.activeClip < |s.clips|
  }

  function ActiveClip(s: AnimationState): AnimationClip
    requires ActiveClipValid(s)
  {
    s.clips[s.activeClip]
  }

  /** States the sampler advances; every other state is skipped untouched. */
  predicate Advances(s: AnimationState)
  {
    s.playing && ActiveClipValid(s)
  }

  /** Truncation toward zero, as an f32-to-integer division quotient. */
  function Trunc(r: real): int
  {
    if r >= 0.0 then r.Floor else -((-r).Floor)
  }

  /** Rust's `%` on floats: the remainder of the truncated division, with the sign of `x`. */
  function FMod(x: real, d: real): (r: real)
    requires d != 0.0
    ensures x > 0.0 && d > 0.0 ==> 0.0 <= r < d && r == x - d * ((x / d).Floor as real)
  {
    var r := x - d * (Trunc(x / d) as real);
    assert x > 0.0 && d > 0.0 ==> 0.0 <= r < d && r == x - d * ((x / d).Floor as real) by {
      if x > 0.0 && d > 0.0 { FloorRemainder(x, d); }
    }
    r
  }

  lemma FloorRemainder(x: real, d: real)
    requires x > 0.0 && d > 0.0
    ensures 0.0 <= x - d * ((x / d).Floor as real) < d
  {
    var q := x / d;
    var f := q.Floor as real;
    var u := q - f;
    assert 0.0 <= u < 1.0;
    ScaledFractionBelow(d, u);
    assert x - d * f == d * u by {
      assert d * q == x;
      assert d * u == d * q - d * f;
    }
    assert 0.0 <= x - d * f < d;
  }

  lemma ScaledFractionBelow(d: real, u: real)
    requires d > 0.0 && 0.0 <= u < 1.0
    ensures 0.0 <= d * u < d
  {
    assert d - d * u == d * (1.0 - u);
  }

  /**
   * A modulo by zero duration is not defined over the reals (f32 gives NaN),
   * so a looping clip that is advanced must have a non-zero duration.
   */
  predicate StateReady(s: AnimationState, entityCount: nat)
  {
    Advances(s) ==>
      (s.looping ==> ActiveClip(s).duration != 0.0) && ChannelsReady(ActiveClip(s).channels, entityCount)
  }

  predicate AnimationsReady(ss: seq<AnimationState>, entityCount: nat)
  {
    forall i :: 0 <= i < |ss| ==> StateReady(ss[i], entityCount)
  }

  /** One clock step: add dt*speed, then wrap (looping) or clamp and stop. */
  function Advance(s: AnimationState, dt: real): (r: AnimationState)
    requires Advances(s) && (s.looping ==> ActiveClip(s).duration != 0.0)
    ensures r.clips == s.clips && r.activeClip == s.activeClip && r.looping == s.looping && r.speed == s.speed
    ensures var t := s.currentTime + dt * s.speed;
      var d := ActiveClip(s).duration;
      && (t <= d ==> r.currentTime == t && r.playing)
      && (t > d && !s.looping ==> r.currentTime == d && !r.playing)
      && (t > d && s.looping ==> r.playing && r.currentTime == FMod(t, d))
      && (t > d && s.looping && d > 0.0 ==> 0.0 <= r.currentTime < d)
  {
    var t := s.currentTime + dt * s.speed;
    var d := ActiveClip(s).duration;
    if t > d then
      if s.looping then s.(currentTime := FMod(t, d)) else s.(currentTime := d, playing := false)
    else
      s.(currentTime := t)
  }

  /** The looping case of `Advance`: the clock past the end is wrapped by the remainder. */
  lemma AdvanceWraps(s: AnimationState, dt: real)
    requires Advances(s) && s.looping && ActiveClip(s).duration != 0.0
    requires s.currentTime + dt * s.speed > ActiveClip(s).duration
    ensures Advance(s, dt) == s.(currentTime := FMod(s.currentTime + dt * s.speed, ActiveClip(s).duration))
  {
  }

  /** The new value of one playback state; a state that does not advance is returned unchanged. */
  function ClockStep(s: AnimationState, dt: real): AnimationState
    requires Advances(s) && s.looping ==> ActiveClip(s).duration != 0.0
  {
    if Advances(s) then Advance(s, dt) else s
  }

  /** One iteration of the sampler's outer loop: new entities and the new state. */
  function StepState(es: seq<Entity>, s: AnimationState, dt: real, ops: FloatOps): (r: (seq<Entity>, AnimationState))
    requires StateReady(s, |es|)
    ensures |r.0| == |es|
    ensures r.1 == ClockStep(s, dt)
    ensures !Advances(s) ==> r.0 == es && r.1 == s
  {
    if !Advances(s) then (es, s)
    else
      var s' := Advance(s, dt);
      (ApplyChannels(es, ActiveClip(s').channels, s'.currentTime, ops), s')
  }

  /** Does state `s` write entity `e` when it advances? */
  predicate Targets(s: AnimationState, e: nat)
  {
    Advances(s) && exists k :: 0 <= k < |ActiveClip(s).channels| && ActiveClip(s).channels[k].targetEntityIndex == e
  }

  /** The whole sampler pass: the entities and the states after processing `ss` in order. */
  function AnimateAll(es: seq<Entity>, ss: seq<AnimationState>, dt: real, ops: FloatOps): (r: (seq<Entity>, seq<AnimationState>))
    requires AnimationsReady(ss, |es|)
    ensures |r.0| == |es| && |r.1| == |ss|
    decreases |ss|
  {
    if |ss| == 0 then (es, [])
    else
      var init := ss[..|ss| - 1];
      assert AnimationsReady(init, |es|);
      var before := AnimateAll(es, init, dt, ops);
      var step := StepState(before.0, ss[|ss| - 1], dt, ops);
      (step.0, before.1 + [step.1])
  }

  /** Processing one more state extends the fold by one `StepState`. */
  lemma AnimateAllSnoc(es: seq<Entity>, ss: seq<AnimationState>, i: nat, dt: real, ops: FloatOps)
    requires AnimationsReady(ss, |es|) && i < |ss|
    ensures AnimationsReady(ss[..i], |es|) && AnimationsReady(ss[..i + 1], |es|)
    ensures var before := AnimateAll(es, ss[..i], dt, ops);
      var step := StepState(before.0, ss[i], dt, ops);
      AnimateAll(es, ss[..i + 1], dt, ops) == (step.0, before.1 + [step.1])
  {
    assert ss[..i + 1][..i] == ss[..i];
  }

  /** Each state's new clock depends on that state alone; idle states are left completely unchanged. */
  lemma {:induction false} AnimateAllClocks(es: seq<Entity>, ss: seq<AnimationState>, dt: real, ops: FloatOps)
    requires AnimationsReady(ss, |es|)
    ensures forall i :: 0 <= i < |ss| ==> AnimateAll(es, ss, dt, ops).1[i] == ClockStep(ss[i], dt)
    ensures forall i :: 0 <= i < |ss| && !Advances(ss[i]) ==> AnimateAll(es, ss, dt, ops).1[i] == ss[i]
    decreases |ss|
  {
    if |ss| > 0 {
      var init := ss[..|ss| - 1];
      assert AnimationsReady(init, |es|);
      AnimateAllClocks(es, init, dt, ops);
    }
  }

  /** An entity that no advancing state's active clip targets is left untouched. */
  lemma {:induction false} AnimateAllUntargeted(es: seq<Entity>, ss: seq<AnimationState>, dt: real, ops: FloatOps, e: nat)
    requires AnimationsReady(ss, |es|)
    requires e < |es|
    requires forall i :: 0 <= i < |ss| ==> !Targets(ss[i], e)
    ensures AnimateAll(es, ss, dt, ops).0[e] == es[e]
    decreases |ss|
  {
    if |ss| > 0 {
      var init := ss[..|ss| - 1];
      assert AnimationsReady(init, |es|);
      AnimateAllUntargeted(es, init, dt, ops, e);
      var s := ss[|ss| - 1];
      assert !Targets(s, e);
    }
  }

  /** Writes one channel's sampled value into its target entity (one iteration of the channel loop). */
  method WriteChannel(scene: LoadedScene, channel: AnimationChannel, time: real, ops: FloatOps)
    requires ChannelReady(channel, |scene.entities|)
    modifies scene`entities
    ensures scene.entities == ApplyChannel(old(scene.entities), channel, time, ops)
  {
    var target := channel.targetEntityIndex;
    if target >= |scene.entities| {
      return;
    }
    var key := FindKeyframeIndex(channel.times, time);
    if key.None? {
      return;
    }
    var e := scene.entities[target];
    var tr' := Sampled(e.transform, channel, key.value, ops);
    scene.entities := scene.entities[target := e.(transform := tr')];
  }

  /** The channel loop: applies every channel of the active clip at `time`, in order. */
  method WriteChannels(scene: LoadedScene, channels: seq<AnimationChannel>, time: real, ops: FloatOps)
    requires ChannelsReady(channels, |scene.entities|)
    modifies scene`entities
    ensures scene.entities == ApplyChannels(old(scene.entities), channels, time, ops)
  {
    ghost var start := scene.entities;
    var j := 0;
    while j < |channels|
      invariant 0 <= j <= |channels|
      invariant |scene.entities| == |start|
      invariant scene.entities == ApplyChannels(start, channels[..j], time, ops)
    {
      assert channels[..j + 1][..j] == channels[..j];
      WriteChannel(scene, channels[j], time, ops);
      j := j + 1;
    }
    assert channels[..|channels|] == channels;
  }

  /** The body of the sampler's outer loop for state `i`: skip, or advance its clock and apply its active clip. */
  method StepAnimation(scene: LoadedScene, i: nat, dt: real, ops: FloatOps)
    requires i < |scene.animations| && StateReady(scene.animations[i], |scene.entities|)
    modifies scene`entities, scene`animations
    ensures var step := StepState(old(scene.entities), old(scene.animations[i]), dt, ops);
      scene.entities == step.0 && scene.animations == old(scene.animations)[i := step.1]
  {
    var state := scene.animations[i];
    if !state.playing {
      return;
    }
    var clipIdx := state.activeClip;
    if clipIdx < 0 || clipIdx >= |state.clips| {
      return;
    }

    // Advance time
    ghost var original := state;
    state := state.(currentTime := state.currentTime + dt * state.speed);
    var duration := state.clips[clipIdx].duration;
    if state.currentTime > duration {
      if state.looping {
        state := state.(currentTime := FMod(state.currentTime, duration));
        AdvanceWraps(original, dt);
      } else {
        state := state.(currentTime := duration, playing := false);
        assert state == Advance(original, dt);
      }
    } else {
      assert state == Advance(original, dt);
    }
    assert state == Advance(original, dt) && ActiveClip(state) == state.clips[clipIdx];
    scene.animations := scene.animations[i := state];

    // Apply each channel
    WriteChannels(scene, state.clips[clipIdx].channels, state.currentTime, ops);
  }

  /** Samples every playing state's active clip into the entity arena. */
  method UpdateAnimations(scene: LoadedScene, dt: real, ops: FloatOps)
    requires AnimationsReady(scene.animations, |scene.entities|)
    modifies scene`entities, scene`animations
    ensures (scene.entities, scene.animations) == AnimateAll(old(scene.entities), old(scene.animations), dt, ops)
  {
    ghost var es0 := scene.entities;
    ghost var ss0 := scene.animations;
    var i := 0;
    while i < |scene.animations|
      invariant 0 <= i <= |scene.animations| == |ss0|
      invariant |scene.entities| == |es0|
      invariant forall k :: i <= k < |ss0| ==> scene.animations[k] == ss0[k]
      invariant scene.entities == AnimateAll(es0, ss0[..i], dt, ops).0
      invariant scene.animations[..i] == AnimateAll(es0, ss0[..i], dt, ops).1
    {
      AnimateAllSnoc(es0, ss0, i, dt, ops);
      ghost var prefix := scene.animations[..i];
      StepAnimation(scene, i, dt, ops);
      assert scene.animations[..i + 1] == prefix + [scene.animations[i]];
      i := i + 1;
    }
    assert ss0[..|ss0|] == ss0;
    assert scene.animations[..|ss0|] == scene.animations;
  }
}
