/**
 * Values, keyframe entries ("keys") and the rule by which the timeline's
 * per-tick pass evaluates one key (src/timeline.js, applyValues).
 */
module Keys {

  datatype Option<T> = None | Some(value: T)

  /** A JavaScript number as the engine handles it: a finite value or NaN.
      NaN also stands for `undefined` read from a missing array cell, which
      turns into NaN as soon as it takes part in arithmetic. */
  datatype Num = Finite(r: real) | NaN

  /** The value of a target property: a plain number, or a string made of a
      number and the suffix 'px'. */
  datatype Value = Plain(n: Num) | Px(n: Num)

  /** A target object, seen as its properties by name. */
  type Props = map<string, Value>

  /** An easing curve, addressed by family and variant and applied to a
      progress in [0, 1]. The curves themselves are not part of this model. */
  type Ease = (string, string, real) -> real

  /** One keyframe entry: a timed transition of one property of a target. */
  datatype Key = Key(
    propertyName: string,
    startTime: real,
    endTime: real,
    startValue: Num,  // captured from the target when the key starts
    endValue: Num,
    unit: bool,       // 'px' was seen at some capture; never cleared
    easing: string,   // "Family.Variant"
    hasStarted: bool,
    hasEnded: bool)

  /** The easing used whenever a caller gives none. */
  const DefaultEasing := "Linear.EaseNone"

  // ---------------------------------------------------------------------
  // Easing names
  // ---------------------------------------------------------------------

  /** `s.indexOf('.')`: the first dot, or -1. */
  function IndexOfDot(s: string): (k: int)
    ensures -1 <= k < |s|
    ensures k == -1 <==> '.' !in s
    ensures k >= 0 ==> s[k] == '.' && '.' !in s[..k]
  {
    if s == [] then -1
    else if s[0] == '.' then 0
    else
      var k := IndexOfDot(s[1..]);
      if k == -1 then -1
      else
        assert s[..k + 1] == [s[0]] + s[1..][..k];
        k + 1
  }

  /** Splits an easing name at its first '.' into family and variant, as
      `substr(0, indexOf('.'))` and `substr(indexOf('.') + 1)` do: a name
      without a dot has an empty family and is all variant. */
  function SplitEasing(name: string): (r: (string, string))
    ensures '.' in name ==> r.0 + "." + r.1 == name && '.' !in r.0
    ensures '.' !in name ==> r == ("", name)
  {
    var k := IndexOfDot(name);
    if k == -1 then ("", name)
    else
      JoinAtDot(name, k);
      (name[..k], name[k + 1..])
  }

  /** A dot-free prefix only shifts the position of the first dot. */
  lemma {:induction false} IndexOfDotShift(family: string, rest: string)
    requires '.' !in family
    ensures IndexOfDot(rest) >= 0 ==> IndexOfDot(family + rest) == |family| + IndexOfDot(rest)
    decreases |family|
  {
    if family == [] {
      assert family + rest == rest;
    } else {
      var name := family + rest;
      assert name[0] == family[0];
      assert name[1..] == family[1..] + rest;
      IndexOfDotShift(family[1..], rest);
    }
  }

  /** Splitting a name built from a dot-free family, a dot and a variant
      gives back that family and variant. */
  lemma SplitAtFirstDot(family: string, variant: string)
    requires '.' !in family
    ensures SplitEasing(family + "." + variant) == (family, variant)
  {
    var name := family + "." + variant;
    assert name == family + ("." + variant);
    IndexOfDotShift(family, "." + variant);
    assert name[..|family|] == family;
    assert name[|family| + 1..] == variant;
  }

  lemma JoinAtDot(s: string, k: int)
    requires 0 <= k < |s| && s[k] == '.'
    ensures s[..k] + "." + s[k + 1..] == s
  {
    assert s[..k] + "." + s[k + 1..] == s[..k] + s[k..];
  }

  // ---------------------------------------------------------------------
  // Arithmetic of one evaluation
  // ---------------------------------------------------------------------

  /** `Math.max(0, Math.min(t, 1))`. */
  function Clamp01(t: real): (r: real)
    ensures 0.0 <= r <= 1.0
    ensures 0.0 <= t <= 1.0 ==> r == t
    ensures t > 1.0 ==> r == 1.0
    ensures t < 0.0 ==> r == 0.0
  {
    if t > 1.0 then 1.0 else if t < 0.0 then 0.0 else t
  }

  /** Progress of a key at `time`: elapsed over duration, clamped to
      [0, 1], and 1 for a key of duration 0. */
  function Progress(k: Key, time: real): (p: real)
    ensures 0.0 <= p <= 1.0
    ensures k.endTime == k.startTime ==> p == 1.0
  {
    var duration := k.endTime - k.startTime;
    var t := if duration != 0.0 then (time - k.startTime) / duration else 1.0;
    Clamp01(t)
  }

  /** Within a key of positive duration, progress is the elapsed fraction of
      the duration; it is 0 before the start and 1 from the end on. */
  lemma ProgressWithin(k: Key, time: real)
    requires k.startTime < k.endTime
    ensures time <= k.startTime ==> Progress(k, time) == 0.0
    ensures time >= k.endTime ==> Progress(k, time) == 1.0
    ensures k.startTime <= time <= k.endTime ==>
              Progress(k, time) * (k.endTime - k.startTime) == time - k.startTime
  {
    DivBounds(time - k.startTime, k.endTime - k.startTime);
  }

  lemma DivBounds(e: real, d: real)
    requires d > 0.0
    ensures e <= 0.0 ==> e / d <= 0.0
    ensures e >= d ==> e / d >= 1.0
    ensures 0.0 <= e <= d ==> 0.0 <= e / d <= 1.0
    ensures (e / d) * d == e
  {
  }

  /** `start + (end - start) * t`, where NaN absorbs everything. */
  function Lerp(a: Num, b: Num, t: real): (r: Num)
    ensures r.Finite? <==> a.Finite? && b.Finite?
    ensures a.Finite? && b.Finite? && t == 0.0 ==> r == a
    ensures a.Finite? && b.Finite? && t == 1.0 ==> r == b
  {
    if a.Finite? && b.Finite? then Finite(a.r + (b.r - a.r) * t) else NaN
  }

  /** Captures the start value of a key from the target's current value. A
      'px' string is stored as its number and marks the key's unit. */
  function Activate(k: Key, current: Value): Key
  {
    match current
    case Px(n) => k.(startValue := n, unit := true, hasStarted := true)
    case Plain(n) => k.(startValue := n, hasStarted := true)
  }

  /** The value written back for eased progress `e`, with the unit re-appended. */
  function Written(k: Key, e: real): Value
  {
    var v := Lerp(k.startValue, k.endValue, e);
    if k.unit then Px(v) else Plain(v)
  }

  /** The eased progress of a key: the easing its name addresses, applied
      to its clamped progress. */
  function Eased(k: Key, time: real, ease: Ease): real
  {
    var names := SplitEasing(k.easing);
    ease(names.0, names.1, Progress(k, time))
  }

  /** A key is evaluated at `time` unless it has not begun yet or has ended. */
  predicate Evaluated(k: Key, time: real)
  {
    time >= k.startTime && !k.hasEnded
  }

  /** Whether evaluating `k` at `time` reads its property from the target. */
  predicate Captures(k: Key, time: real)
  {
    Evaluated(k, time) && !k.hasStarted
  }

  datatype KeyStep = KeyStep(key: Key, target: Props, complete: bool)

  /** Evaluates one key at `time` (src/timeline.js:276-320, without the
      track removal): returns the key, the target after the write, and
      whether the eased progress reached exactly 1. */
  function EvalKey(k: Key, target: Props, time: real, ease: Ease): (r: KeyStep)
    requires Captures(k, time) ==> k.propertyName in target
    ensures SameShape(r.key, k) && target.Keys <= r.target.Keys
    ensures !Evaluated(k, time) ==> r.key == k
  {
    if !Evaluated(k, time) then KeyStep(k, target, false)
    else
      var k1 := if !k.hasStarted then Activate(k, target[k.propertyName]) else k;
      var eased := Eased(k1, time, ease);
      var k2 := if time >= k1.endTime && !k1.hasEnded then k1.(hasEnded := true) else k1;
      KeyStep(k2, target[k1.propertyName := Written(k1, eased)], eased == 1.0)
  }

  /** What evaluating a key may change: its flags, start value and unit, and
      the one target property it animates. */
  predicate SameShape(a: Key, b: Key)
  {
    a.propertyName == b.propertyName && a.startTime == b.startTime &&
    a.endTime == b.endTime && a.endValue == b.endValue && a.easing == b.easing
  }

  /** A key that has not begun, or has ended, is left untouched, and so is
      the target. */
  lemma EvalKeySkipsInactive(k: Key, target: Props, time: real, ease: Ease)
    requires time < k.startTime || k.hasEnded
    ensures EvalKey(k, target, time, ease) == KeyStep(k, target, false)
  {
  }

  /** An evaluated key is started, ends exactly when `time` reaches its end
      time, keeps its timing, end value and easing, and only its own
      property of the target changes. */
  lemma EvalKeyEffect(k: Key, target: Props, time: real, ease: Ease)
    requires Evaluated(k, time)
    requires Captures(k, time) ==> k.propertyName in target
    ensures var r := EvalKey(k, target, time, ease);
      && r.key.hasStarted
      && (r.key.hasEnded <==> time >= k.endTime)
      && SameShape(r.key, k)
      && r.target.Keys == target.Keys + {k.propertyName}
      && forall q :: q in target && q != k.propertyName ==> r.target[q] == target[q]
  {
  }

  /** The start value is captured from the target only on the first
      activation; a 'px' string is stored as its number and sets the unit. */
  lemma EvalKeyCapture(k: Key, target: Props, time: real, ease: Ease)
    requires Evaluated(k, time)
    requires Captures(k, time) ==> k.propertyName in target
    ensures var r := EvalKey(k, target, time, ease);
      && (k.hasStarted ==> r.key.startValue == k.startValue && r.key.unit == k.unit)
      && (!k.hasStarted ==> r.key.startValue == target[k.propertyName].n)
      && (!k.hasStarted ==> r.key.unit == (k.unit || target[k.propertyName].Px?))
  {
  }

  /** The written value is `start + (end - start) * eased`, with the eased
      progress taken from the easing named by the key at the clamped
      progress, and the 'px' suffix re-appended when the key has the unit.
      The key completes exactly when that eased progress is 1. */
  lemma EvalKeyWrites(k: Key, target: Props, time: real, ease: Ease)
    requires Evaluated(k, time)
    requires Captures(k, time) ==> k.propertyName in target
    ensures var r := EvalKey(k, target, time, ease);
      var e := Eased(k, time, ease);
      && r.target[k.propertyName] == (var v := Lerp(r.key.startValue, k.endValue, e); if r.key.unit then Px(v) else Plain(v))
      && r.complete == (e == 1.0)
  {
  }

  /** A key completes at `time` when it is evaluated and its eased progress
      is exactly 1. */
  predicate KeyCompletes(k: Key, time: real, ease: Ease)
  {
    Evaluated(k, time) && Eased(k, time, ease) == 1.0
  }

  /** Capturing the start value keeps the key's timing and easing, so its
      eased progress is the same before and after. */
  lemma ActivateKeepsEased(k: Key, current: Value, time: real, ease: Ease)
    ensures Eased(Activate(k, current), time, ease) == Eased(k, time, ease)
  {
    var k1 := Activate(k, current);
    assert k1.easing == k.easing;
    assert Progress(k1, time) == Progress(k, time);
  }

  /** Evaluating a key reports completion exactly when the key, as it was
      before the call, completes; the target plays no part in it. */
  lemma EvalKeyComplete(k: Key, target: Props, time: real, ease: Ease)
    requires Captures(k, time) ==> k.propertyName in target
    ensures EvalKey(k, target, time, ease).complete <==> KeyCompletes(k, time, ease)
  {
    if Evaluated(k, time) && !k.hasStarted {
      ActivateKeepsEased(k, target[k.propertyName], time, ease);
    }
  }

  /** Evaluation keeps "ended implies started" for every key. */
  lemma EvalKeyEndedImpliesStarted(k: Key, target: Props, time: real, ease: Ease)
    requires k.hasEnded ==> k.hasStarted
    requires Captures(k, time) ==> k.propertyName in target
    ensures var r := EvalKey(k, target, time, ease);
      r.key.hasEnded ==> r.key.hasStarted
  {
  }

  /** A key of duration 0 jumps to its end value on its first evaluation,
      given an easing that maps 1 to 1. */
  lemma ZeroDurationJumpsToEnd(k: Key, target: Props, time: real, ease: Ease)
    requires Evaluated(k, time) && k.endTime == k.startTime
    requires Captures(k, time) ==> k.propertyName in target
    requires ease(SplitEasing(k.easing).0, SplitEasing(k.easing).1, 1.0) == 1.0
    ensures var r := EvalKey(k, target, time, ease);
      && r.key.hasEnded && r.complete
      && (r.key.startValue.Finite? && k.endValue.Finite? ==> r.target[k.propertyName].n == k.endValue)
  {
  }

  /** A property animated from 0 to 100 over 2 seconds, with an easing
      whose curve maps one half to one half (as the linear one does), reads
      50 at time 1. */
  lemma Halfway(p: string, easing: string, ease: Ease)
    requires ease(SplitEasing(easing).0, SplitEasing(easing).1, 0.5) == 0.5
    ensures var k := Key(p, 0.0, 2.0, NaN, Finite(100.0), false, easing, false, false);
      EvalKey(k, map[p := Plain(Finite(0.0))], 1.0, ease).target[p] == Plain(Finite(50.0))
  {
    var k := Key(p, 0.0, 2.0, NaN, Finite(100.0), false, easing, false, false);
    var target := map[p := Plain(Finite(0.0))];
    EvalKeyCapture(k, target, 1.0, ease);
    EvalKeyWrites(k, target, 1.0, ease);
    assert Progress(k, 1.0) == 0.5;
    assert Lerp(Finite(0.0), Finite(100.0), 0.5) == Finite(50.0);
  }

  /** The default easing addresses the linear curve. */
  lemma SplitDefaultEasing()
    ensures SplitEasing(DefaultEasing) == ("Linear", "EaseNone")
  {
    assert DefaultEasing == "Linear" + "." + "EaseNone";
    SplitAtFirstDot("Linear", "EaseNone");
  }

  // ---------------------------------------------------------------------
  // A list of keys, evaluated in order
  // ---------------------------------------------------------------------

  /** Every key of `ks` that would capture at `time` finds its property. */
  predicate CanEvaluate(ks: seq<Key>, target: Props, time: real)
  {
    forall k :: k in ks && Captures(k, time) ==> k.propertyName in target
  }

  /** A target with more properties serves every key the smaller one did. */
  lemma CanEvaluateGrows(ks: seq<Key>, target: Props, bigger: Props, time: real)
    requires CanEvaluate(ks, target, time) && target.Keys <= bigger.Keys
    ensures CanEvaluate(ks, bigger, time)
  {
    forall k | k in ks && Captures(k, time) ensures k.propertyName in bigger {
      assert k.propertyName in target.Keys;
    }
  }

  datatype ListStep = ListStep(keys: seq<Key>, target: Props, complete: bool)

  /** Evaluates the keys of one property's live list in order, each seeing
      the target as the keys before it left it (src/timeline.js:275-321). */
  function EvalKeys(ks: seq<Key>, target: Props, time: real, ease: Ease): (r: ListStep)
    requires CanEvaluate(ks, target, time)
    ensures |r.keys| == |ks| && target.Keys <= r.target.Keys
    ensures forall z :: 0 <= z < |ks| ==> SameShape(r.keys[z], ks[z])
    ensures forall z :: 0 <= z < |ks| && !Evaluated(ks[z], time) ==> r.keys[z] == ks[z]
    decreases |ks|
  {
    if ks == [] then ListStep([], target, false)
    else
      var s := EvalKey(ks[0], target, time, ease);
      var rest := EvalKeys(ks[1..], s.target, time, ease);
      assert forall z :: 1 <= z < |ks| ==> ks[z] == ks[1..][z - 1];
      ListStep([s.key] + rest.keys, rest.target, s.complete || rest.complete)
  }

  /** Evaluating a list keeps "ended implies started" for every key. */
  lemma {:induction false} EvalKeysEndedImpliesStarted(ks: seq<Key>, target: Props, time: real, ease: Ease)
    requires CanEvaluate(ks, target, time)
    requires forall k :: k in ks ==> (k.hasEnded ==> k.hasStarted)
    ensures forall k :: k in EvalKeys(ks, target, time, ease).keys ==> (k.hasEnded ==> k.hasStarted)
    decreases |ks|
  {
    if ks != [] {
      var s := EvalKey(ks[0], target, time, ease);
      EvalKeyEndedImpliesStarted(ks[0], target, time, ease);
      EvalKeysEndedImpliesStarted(ks[1..], s.target, time, ease);
      var rest := EvalKeys(ks[1..], s.target, time, ease);
      assert EvalKeys(ks, target, time, ease).keys == [s.key] + rest.keys;
    }
  }

  /** Some key of the list completes at `time`. */
  predicate SomeKeyCompletes(ks: seq<Key>, time: real, ease: Ease)
  {
    exists k :: k in ks && KeyCompletes(k, time, ease)
  }

  /** A list's pass completes exactly when one of its keys, as it stood
      before the pass, is evaluated and reaches eased progress 1; the
      target, and the keys evaluated before it, play no part in it. */
  lemma {:induction false} EvalKeysComplete(ks: seq<Key>, target: Props, time: real, ease: Ease)
    requires CanEvaluate(ks, target, time)
    ensures EvalKeys(ks, target, time, ease).complete <==> SomeKeyCompletes(ks, time, ease)
    decreases |ks|
  {
    if ks != [] {
      var s := EvalKey(ks[0], target, time, ease);
      EvalKeyComplete(ks[0], target, time, ease);
      CanEvaluateGrows(ks[1..], target, s.target, time);
      EvalKeysComplete(ks[1..], s.target, time, ease);
      assert ks == [ks[0]] + ks[1..];
      assert forall k :: k in ks <==> k == ks[0] || k in ks[1..];
      if KeyCompletes(ks[0], time, ease) {
        assert ks[0] in ks;
      }
      if SomeKeyCompletes(ks[1..], time, ease) {
        var k :| k in ks[1..] && KeyCompletes(k, time, ease);
        assert k in ks;
      }
    }
  }

  /** What is left to do after the first `z` keys of `ks` were evaluated
      into `out`, leaving `tgt` and `complete`. */
  ghost predicate EvalKeysFrom(ks: seq<Key>, target: Props, time: real, ease: Ease,
                               z: nat, out: seq<Key>, tgt: Props, complete: bool)
    requires z <= |ks| && CanEvaluate(ks, target, time)
  {
    && CanEvaluate(ks[z..], tgt, time)
    && EvalKeys(ks, target, time, ease) ==
       var rest := EvalKeys(ks[z..], tgt, time, ease);
       ListStep(out + rest.keys, rest.target, complete || rest.complete)
  }

  /** Evaluating key `z` moves the remaining work on by one key. */
  lemma EvalKeysFromStep(ks: seq<Key>, target: Props, time: real, ease: Ease,
                         z: nat, out: seq<Key>, tgt: Props, complete: bool)
    requires z < |ks| && CanEvaluate(ks, target, time)
    requires EvalKeysFrom(ks, target, time, ease, z, out, tgt, complete)
    ensures var s := EvalKey(ks[z], tgt, time, ease);
      EvalKeysFrom(ks, target, time, ease, z + 1, out + [s.key], s.target, complete || s.complete)
  {
    var s := EvalKey(ks[z], tgt, time, ease);
    var suffix := ks[z..];
    assert suffix[0] == ks[z] && suffix[1..] == ks[z + 1..];
    var rest := EvalKeys(ks[z + 1..], s.target, time, ease);
    assert EvalKeys(suffix, tgt, time, ease) == ListStep([s.key] + rest.keys, rest.target, s.complete || rest.complete);
    assert (out + [s.key]) + rest.keys == out + ([s.key] + rest.keys);
  }

  lemma EvalKeysFromStart(ks: seq<Key>, target: Props, time: real, ease: Ease)
    requires CanEvaluate(ks, target, time)
    ensures EvalKeysFrom(ks, target, time, ease, 0, [], target, false)
  {
    assert ks[0..] == ks;
    var r := EvalKeys(ks, target, time, ease);
    assert [] + r.keys == r.keys;
  }

  lemma EvalKeysFromDone(ks: seq<Key>, target: Props, time: real, ease: Ease,
                         out: seq<Key>, tgt: Props, complete: bool)
    requires CanEvaluate(ks, target, time)
    requires EvalKeysFrom(ks, target, time, ease, |ks|, out, tgt, complete)
    ensures ListStep(out, tgt, complete) == EvalKeys(ks, target, time, ease)
  {
    assert ks[|ks|..] == [];
    assert out + [] == out;
  }

  /** Evaluates one live list in place, key by key. */
  method EvaluateKeys(ks: seq<Key>, target: Props, time: real, ease: Ease)
    returns (out: seq<Key>, tgt: Props, complete: bool)
    requires CanEvaluate(ks, target, time)
    ensures ListStep(out, tgt, complete) == EvalKeys(ks, target, time, ease)
  {
    out, tgt, complete := [], target, false;
    var z := 0;
    EvalKeysFromStart(ks, target, time, ease);
    while z < |ks|
      invariant 0 <= z <= |ks|
      invariant EvalKeysFrom(ks, target, time, ease, z, out, tgt, complete)
    {
      var s := EvalKey(ks[z], tgt, time, ease);
      EvalKeysFromStep(ks, target, time, ease, z, out, tgt, complete);
      out, tgt, complete := out + [s.key], s.target, complete || s.complete;
      z := z + 1;
    }
    EvalKeysFromDone(ks, target, time, ease, out, tgt, complete);
  }

  // ---------------------------------------------------------------------
  // Lifecycle flags and end times
  // ---------------------------------------------------------------------

  /** The keys with `hasStarted` and `hasEnded` cleared. */
  function ClearFlags(ks: seq<Key>): seq<Key>
  {
    seq(|ks|, z requires 0 <= z < |ks| => ks[z].(hasStarted := false, hasEnded := false))
  }

  /** Clearing flags leaves every key pending and otherwise as it was;
      clearing twice is clearing once. */
  lemma ClearFlagsFacts(ks: seq<Key>)
    ensures |ClearFlags(ks)| == |ks|
    ensures forall z :: 0 <= z < |ks| ==>
      var c := ClearFlags(ks)[z];
      !c.hasStarted && !c.hasEnded && SameShape(c, ks[z]) &&
      c.startValue == ks[z].startValue && c.unit == ks[z].unit
    ensures ClearFlags(ClearFlags(ks)) == ClearFlags(ks)
  {
  }

  /** Clears the flags of a list in place, key by key. */
  method ClearKeyFlags(ks: seq<Key>) returns (out: seq<Key>)
    ensures out == ClearFlags(ks)
  {
    out := ks;
    var z := 0;
    while z < |out|
      invariant 0 <= z <= |out| == |ks|
      invariant forall y :: 0 <= y < z ==> out[y] == ks[y].(hasStarted := false, hasEnded := false)
      invariant forall y :: z <= y < |out| ==> out[y] == ks[y]
    {
      out := out[z := out[z].(hasStarted := false, hasEnded := false)];
      z := z + 1;
    }
  }

  /** The largest of 0 and the given values: the running maximum that
      `findAnimationEnd` and `updateTrackEnd` compute, starting from 0. */
  function MaxOf(xs: seq<real>): (m: real)
    ensures m >= 0.0
    ensures forall i :: 0 <= i < |xs| ==> xs[i] <= m
    ensures m == 0.0 || exists i :: 0 <= i < |xs| && xs[i] == m
  {
    if xs == [] then 0.0
    else
      var m := MaxOf(xs[..|xs| - 1]);
      assert forall i :: 0 <= i < |xs| - 1 ==> xs[..|xs| - 1][i] == xs[i];
      if xs[|xs| - 1] > m then xs[|xs| - 1] else m
  }

  /** The end times of a list of keys. */
  function EndTimes(ks: seq<Key>): (r: seq<real>)
    ensures |r| == |ks| && forall z :: 0 <= z < |ks| ==> r[z] == ks[z].endTime
  {
    seq(|ks|, z requires 0 <= z < |ks| => ks[z].endTime)
  }
}
