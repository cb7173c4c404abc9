/**
 * Tracks: the keyframe track of src/tracks/keyframe.js, and the recording
 * fields of number and position tracks that the timeline's per-tick pass
 * reads and writes (src/timeline.js, applyValues).
 */
module Tracks {
  import opened Keys

  datatype TrackKind = KeyframeKind | NumberKind | PositionKind

  /** The follow type of a property: '' (none), 'ignoreKeys', 'useValues',
      or any other string, which the follow set-up ignores. */
  datatype FollowType = NoFollowType | IgnoreKeys | UseValues | OtherFollowType

  /** The axis of a position track that a follower reads. */
  datatype Axis = X | Y | Z

  /** A sample array; `None` is a hole, which `forEach` skips. */
  type Samples = seq<Option<real>>

  /** A sampled reading of a target: a number track keeps the first
      component, a position track all three. */
  type Vec3 = (real, real, real)

  /** One property of a keyframe track. `shared` records that `followKeys`
      holds the very key objects at the front of `keys` (after 'useValues'),
      so that writing one writes the other. */
  datatype PropEntry = PropEntry(
    keys: seq<Key>,
    following: bool,
    followTrack: Option<Track>,
    followType: FollowType,
    followKeys: seq<Key>,
    shared: bool)

  /** The entry installed for a property's first key. */
  const NewEntry: PropEntry := PropEntry([], false, None, NoFollowType, [], false)

  predicate EntryValid(e: PropEntry)
  {
    && (e.following ==> e.followTrack.Some? && e.followTrack.value.kind != KeyframeKind)
    && (e.shared ==> e.following && |e.followKeys| <= |e.keys| && e.keys[..|e.followKeys|] == e.followKeys)
  }

  /** The list the per-tick pass evaluates: the follow keys when following. */
  function Live(e: PropEntry): seq<Key>
  {
    if e.following then e.followKeys else e.keys
  }

  predicate Distinct(xs: seq<string>)
  {
    forall i, j :: 0 <= i < j < |xs| ==> xs[i] != xs[j]
  }

  /** A keys map with its property names in for..in (insertion) order. */
  datatype Authored = Authored(keysMap: map<string, PropEntry>, order: seq<string>)

  ghost predicate AuthoredValid(a: Authored)
  {
    && Distinct(a.order)
    && (forall p :: p in a.keysMap <==> p in a.order)
    && (forall p :: p in a.keysMap ==> EntryValid(a.keysMap[p]))
  }

  /** Everything a track may change, as one value. */
  datatype TrackState = TrackState(
    kind: TrackKind,
    endTime: real,
    keysMap: map<string, PropEntry>,
    order: seq<string>,
    target: Props,
    selectedProperty: string,
    followingPropertyPosition: Axis,
    oldEndTime: Option<real>,
    recording: bool,
    sampleRate: real,
    nextTick: real,
    data: Samples,
    dataX: Samples,
    dataY: Samples,
    dataZ: Samples)

  ghost predicate StateValid(s: TrackState)
  {
    && (s.kind == KeyframeKind ==> !s.recording)
    && (s.kind != KeyframeKind ==> s.keysMap == map[] && s.order == [])
    && (s.recording ==> s.sampleRate > 0.0 && s.nextTick >= 0.0)
    && AuthoredValid(Authored(s.keysMap, s.order))
  }

  /** `propertyToUpdate || this.selectedProperty`. */
  function SelectedOr(s: TrackState, p: string): string
  {
    if p == "" then s.selectedProperty else p
  }

  /** Every live key's property is present on the target, so that reading a
      start value never meets a missing property. */
  predicate Covered(s: TrackState)
  {
    forall p, k :: p in s.keysMap && k in Live(s.keysMap[p]) ==> k.propertyName in s.target
  }

  /** Every key that would capture a start value at `time` finds it. */
  predicate Ready(s: TrackState, time: real)
  {
    forall p :: p in s.keysMap ==> CanEvaluate(Live(s.keysMap[p]), s.target, time)
  }

  lemma CoveredReady(s: TrackState, time: real)
    requires Covered(s)
    ensures Ready(s, time)
  {
    forall p | p in s.keysMap
      ensures CanEvaluate(Live(s.keysMap[p]), s.target, time)
    {
      forall k | k in Live(s.keysMap[p]) ensures k.propertyName in s.target {
      }
    }
  }

  // ---------------------------------------------------------------------
  // Authoring keys: keyframe()
  // ---------------------------------------------------------------------

  /** The key `keyframe()` creates; its start value is still undefined. */
  function NewKey(p: string, v: Num, start: real, end: real, easing: string): Key
  {
    Key(p, start, end, NaN, v, false, easing, false, false)
  }

  /** The easing a key gets: the one given, else the default. */
  function EasingOr(easing: string): (r: string)
    ensures easing != "" ==> r == easing
    ensures easing == "" ==> r == DefaultEasing
  {
    if easing == "" then DefaultEasing else easing
  }

  function AddKey(a: Authored, p: string, v: Num, start: real, end: real, easing: string): Authored
  {
    var e := if p in a.keysMap then a.keysMap[p] else NewEntry;
    Authored(a.keysMap[p := e.(keys := e.keys + [NewKey(p, v, start, end, easing)])],
             if p in a.keysMap then a.order else a.order + [p])
  }

  function Names(props: seq<(string, Num)>): set<string>
  {
    set i | 0 <= i < |props| :: props[i].0
  }

  /** The keys map after one `keyframe(props, ...)` call: each property in
      turn gets a key from `start` to `end`, its entry being created on its
      first key. */
  function AddKeys(a: Authored, props: seq<(string, Num)>, start: real, end: real, easing: string): Authored
    decreases |props|
  {
    if props == [] then a
    else
      var n := |props| - 1;
      AddKey(AddKeys(a, props[..n], start, end, easing), props[n].0, props[n].1, start, end, easing)
  }

  lemma NamesSnoc(props: seq<(string, Num)>)
    requires props != []
    ensures Names(props) == Names(props[..|props| - 1]) + {props[|props| - 1].0}
  {
    var n := |props| - 1;
    forall q | q in Names(props) ensures q in Names(props[..n]) + {props[n].0} {
      var i :| 0 <= i < |props| && props[i].0 == q;
      if i < n { assert props[..n][i].0 == q; }
    }
    forall q | q in Names(props[..n]) ensures q in Names(props) {
      var i :| 0 <= i < n && props[..n][i].0 == q;
      assert props[i].0 == q;
    }
  }

  /** `keyframe()` adds exactly the named properties to the keys map,
      leaves the others alone, and only ever appends to a property's keys:
      its following state and follow keys are kept. */
  lemma {:induction false} AddKeysFrame(a: Authored, props: seq<(string, Num)>, start: real, end: real, easing: string)
    ensures var r := AddKeys(a, props, start, end, easing);
      && r.keysMap.Keys == a.keysMap.Keys + Names(props)
      && (forall p :: p in a.keysMap && p !in Names(props) ==> r.keysMap[p] == a.keysMap[p])
      && (forall p :: p in a.keysMap ==>
            && r.keysMap[p].following == a.keysMap[p].following
            && r.keysMap[p].followKeys == a.keysMap[p].followKeys
            && a.keysMap[p].keys <= r.keysMap[p].keys)
    decreases |props|
  {
    if props != [] {
      var n := |props| - 1;
      AddKeysFrame(a, props[..n], start, end, easing);
      NamesSnoc(props);
      var prev := AddKeys(a, props[..n], start, end, easing);
      assert && prev.keysMap.Keys == a.keysMap.Keys + Names(props[..n])
             && (forall p :: p in a.keysMap && p !in Names(props[..n]) ==> prev.keysMap[p] == a.keysMap[p])
             && (forall p :: p in a.keysMap ==>
                   && prev.keysMap[p].following == a.keysMap[p].following
                   && prev.keysMap[p].followKeys == a.keysMap[p].followKeys
                   && a.keysMap[p].keys <= prev.keysMap[p].keys);
    }
  }

  /** Adding a key keeps the order distinct and in step with the map, and
      keeps every entry valid. */
  lemma AddKeyValid(a: Authored, p: string, v: Num, start: real, end: real, easing: string)
    requires AuthoredValid(a)
    ensures AuthoredValid(AddKey(a, p, v, start, end, easing))
  {
    var r := AddKey(a, p, v, start, end, easing);
    if p in a.keysMap {
      var e := a.keysMap[p];
      if e.shared {
        assert r.keysMap[p].keys[..|e.followKeys|] == e.keys[..|e.followKeys|];
      }
    } else {
      assert p !in a.order;
    }
  }

  lemma {:induction false} AddKeysValid(a: Authored, props: seq<(string, Num)>, start: real, end: real, easing: string)
    requires AuthoredValid(a)
    ensures AuthoredValid(AddKeys(a, props, start, end, easing))
    decreases |props|
  {
    if props != [] {
      var n := |props| - 1;
      AddKeysValid(a, props[..n], start, end, easing);
      AddKeyValid(AddKeys(a, props[..n], start, end, easing), props[n].0, props[n].1, start, end, easing);
    }
  }

  /** Keys of one property are sorted by start time, and each ends by
      `bound`. Nothing is said about gaps: a property left out of one
      `keyframe()` call has a gap before its next key. */
  predicate SortedWithin(ks: seq<Key>, bound: real)
  {
    && (forall i :: 0 <= i < |ks| ==> ks[i].startTime <= ks[i].endTime <= bound)
    && (forall i, j :: 0 <= i < j < |ks| ==> ks[i].startTime <= ks[j].startTime)
  }

  /** With a non-negative duration, and provided every existing key ended by
      the old track end, `keyframe()` leaves every property's keys sorted by
      start time and ending by the new track end, none starting after the
      old end. */
  lemma {:induction false} AddKeysSorted(a: Authored, props: seq<(string, Num)>, start: real, end: real, easing: string)
    requires start <= end
    requires forall p :: p in a.keysMap ==> SortedWithin(a.keysMap[p].keys, start)
    ensures var r := AddKeys(a, props, start, end, easing);
      forall p :: p in r.keysMap ==>
        SortedWithin(r.keysMap[p].keys, end) &&
        forall i :: 0 <= i < |r.keysMap[p].keys| ==> r.keysMap[p].keys[i].startTime <= start
    decreases |props|
  {
    if props != [] {
      var n := |props| - 1;
      AddKeysSorted(a, props[..n], start, end, easing);
      var prev := AddKeys(a, props[..n], start, end, easing);
      assert var r := AddKeys(a, props[..n], start, end, easing);
        forall p :: p in r.keysMap ==>
          SortedWithin(r.keysMap[p].keys, end) &&
          forall i :: 0 <= i < |r.keysMap[p].keys| ==> r.keysMap[p].keys[i].startTime <= start;
      assert forall p :: p in prev.keysMap ==> SortedWithin(prev.keysMap[p].keys, end);
      var q := props[n].0;
      var r := AddKey(prev, q, props[n].1, start, end, easing);
      assert AddKeys(a, props, start, end, easing) == r;
      var before := if q in prev.keysMap then prev.keysMap[q].keys else [];
      var k := NewKey(q, props[n].1, start, end, easing);
      SortedWithinSnoc(before, k, start, end);
      assert r.keysMap[q].keys == before + [k];
      forall p | p in r.keysMap
        ensures SortedWithin(r.keysMap[p].keys, end)
        ensures forall i :: 0 <= i < |r.keysMap[p].keys| ==> r.keysMap[p].keys[i].startTime <= start
      {
        if p != q {
          assert p in prev.keysMap && r.keysMap[p] == prev.keysMap[p];
          assert SortedWithin(prev.keysMap[p].keys, end);
        } else {
          assert SortedWithin(before + [k], end);
        }
      }
    } else {
      forall p | p in a.keysMap
        ensures SortedWithin(a.keysMap[p].keys, end)
        ensures forall i :: 0 <= i < |a.keysMap[p].keys| ==> a.keysMap[p].keys[i].startTime <= start
      {
        assert SortedWithin(a.keysMap[p].keys, start);
      }
    }
  }

  /** The proviso of `AddKeysSorted` is not kept by the track: lowering the
      end with `updateTrackEnd` of a shorter property lets the next
      `keyframe()` start before keys already present. After
      `keyframe({a, b}, 3)`, `keyframe({a}, 2)`, `keyframe({a}, 1)` the end of
      `b` is 3, and `keyframe({a}, 1)` from there gives `a` keys starting at
      0, 3, 5 and 3. */
  lemma LoweredEndUnsorts(v: Num, easing: string)
    ensures var a1 := AddKeys(Authored(map[], []), [("a", v), ("b", v)], 0.0, 3.0, easing);
      var a2 := AddKeys(a1, [("a", v)], 3.0, 5.0, easing);
      var a3 := AddKeys(a2, [("a", v)], 5.0, 6.0, easing);
      && "b" in a3.keysMap && PropertyEnd(a3.keysMap["b"]) == 3.0
      && var a4 := AddKeys(a3, [("a", v)], 3.0, 4.0, easing);
         && "a" in a4.keysMap && |a4.keysMap["a"].keys| == 4
         && a4.keysMap["a"].keys[2].startTime == 5.0
         && a4.keysMap["a"].keys[3].startTime == 3.0
         && !SortedWithin(a4.keysMap["a"].keys, 4.0)
  {
    var a0 := Authored(map[], []);
    var ab := [("a", v), ("b", v)];
    assert ab[..1] == [("a", v)] && ab[..1][..0] == [];
    var one := [("a", v)];
    assert one[..0] == [];
    var x1 := AddKey(a0, "a", v, 0.0, 3.0, easing);
    assert AddKeys(a0, ab[..1], 0.0, 3.0, easing) == x1;
    var a1 := AddKey(x1, "b", v, 0.0, 3.0, easing);
    assert AddKeys(a0, ab, 0.0, 3.0, easing) == a1;
    var a2 := AddKey(a1, "a", v, 3.0, 5.0, easing);
    assert AddKeys(a1, one, 3.0, 5.0, easing) == a2;
    var a3 := AddKey(a2, "a", v, 5.0, 6.0, easing);
    assert AddKeys(a2, one, 5.0, 6.0, easing) == a3;
    var a4 := AddKey(a3, "a", v, 3.0, 4.0, easing);
    assert AddKeys(a3, one, 3.0, 4.0, easing) == a4;
    var kb := NewKey("b", v, 0.0, 3.0, easing);
    assert a3.keysMap["b"].keys == [kb] && !a3.keysMap["b"].following;
    var ends := EndTimes(Live(a3.keysMap["b"]));
    assert ends == [3.0] && ends[..0] == [];
    assert a4.keysMap["a"].keys == [NewKey("a", v, 0.0, 3.0, easing), NewKey("a", v, 3.0, 5.0, easing),
                                    NewKey("a", v, 5.0, 6.0, easing), NewKey("a", v, 3.0, 4.0, easing)];
  }

  lemma SortedWithinSnoc(ks: seq<Key>, k: Key, start: real, end: real)
    requires SortedWithin(ks, end) && forall i :: 0 <= i < |ks| ==> ks[i].startTime <= start
    requires k.startTime == start <= k.endTime <= end
    ensures SortedWithin(ks + [k], end)
  {
  }

  /** With distinct property names, each property of the call ends up with
      exactly one new key, appended after its earlier keys: it starts at the
      old end, ends `duration` later and has both flags cleared. A property
      seen for the first time gets a fresh entry that is not following. */
  lemma {:induction false} AddKeysAppends(a: Authored, props: seq<(string, Num)>, start: real, end: real, easing: string)
    requires forall i, j :: 0 <= i < j < |props| ==> props[i].0 != props[j].0
    ensures var r := AddKeys(a, props, start, end, easing);
      forall i :: 0 <= i < |props| ==>
        var p := props[i].0;
        var before := if p in a.keysMap then a.keysMap[p] else NewEntry;
        p in r.keysMap && r.keysMap[p] == before.(keys := before.keys + [NewKey(p, props[i].1, start, end, easing)])
    decreases |props|
  {
    if props != [] {
      var n := |props| - 1;
      AddKeysAppends(a, props[..n], start, end, easing);
      var prev := AddKeys(a, props[..n], start, end, easing);
      var q := props[n].0;
      var r := AddKey(prev, q, props[n].1, start, end, easing);
      assert AddKeys(a, props, start, end, easing) == r;
      assert q !in Names(props[..n]) by {
        forall i | 0 <= i < n ensures props[..n][i].0 != q {
        }
      }
      AddKeysFrame(a, props[..n], start, end, easing);
      assert q in prev.keysMap <==> q in a.keysMap;
      forall i | 0 <= i < |props|
        ensures var p := props[i].0;
          var before := if p in a.keysMap then a.keysMap[p] else NewEntry;
          p in r.keysMap && r.keysMap[p] == before.(keys := before.keys + [NewKey(p, props[i].1, start, end, easing)])
      {
        if i < n {
          assert props[..n][i] == props[i];
        }
      }
    }
  }

  /** A keyframe track stays valid under a valid new keys map and any end. */
  lemma AuthoredStateValid(s: TrackState, a: Authored, end: real)
    requires StateValid(s) && s.kind == KeyframeKind && AuthoredValid(a)
    ensures StateValid(s.(keysMap := a.keysMap, order := a.order, endTime := end))
  {
  }

  /** Installing a valid entry for a new property keeps a keyframe track valid. */
  lemma InstallValid(s: TrackState, p: string, e: PropEntry)
    requires StateValid(s) && s.kind == KeyframeKind && EntryValid(e) && p !in s.keysMap
    ensures StateValid(s.(keysMap := s.keysMap[p := e], order := s.order + [p]))
  {
    assert p !in s.order;
  }

  /** The end time plays no part in validity. */
  lemma EndTimeValid(s: TrackState, end: real)
    requires StateValid(s)
    ensures StateValid(s.(endTime := end))
  {
  }

  // ---------------------------------------------------------------------
  // Restart: clearing lifecycle flags
  // ---------------------------------------------------------------------

  /** An entry with the flags of its keys cleared, and of its follow keys
      when following. */
  function RestartEntry(e: PropEntry): PropEntry
  {
    e.(keys := ClearFlags(e.keys),
       followKeys := if e.following then ClearFlags(e.followKeys) else e.followKeys)
  }

  function RestartMap(m: map<string, PropEntry>): map<string, PropEntry>
  {
    map p | p in m :: RestartEntry(m[p])
  }

  /** What restartTracks does to one track: a keyframe track has every
      flag cleared, a recording track without a keys map has its cursor
      back at 0. */
  function RestartState(s: TrackState): TrackState
  {
    if s.kind == KeyframeKind then s.(keysMap := RestartMap(s.keysMap))
    else if s.recording then s.(nextTick := 0.0)
    else s
  }

  lemma ClearFlagsPrefix(ks: seq<Key>, n: nat)
    requires n <= |ks|
    ensures ClearFlags(ks)[..n] == ClearFlags(ks[..n])
  {
  }

  /** Restarting an entry keeps it valid, leaves its keys (and its follow
      keys when following) pending, and is idempotent. */
  lemma RestartEntryFacts(e: PropEntry)
    requires EntryValid(e)
    ensures var r := RestartEntry(e);
      && EntryValid(r)
      && (forall k :: k in r.keys ==> !k.hasStarted && !k.hasEnded)
      && (r.following ==> forall k :: k in r.followKeys ==> !k.hasStarted && !k.hasEnded)
      && r.(keys := e.keys, followKeys := e.followKeys) == e
      && RestartEntry(r) == r
  {
    ClearFlagsFacts(e.keys);
    ClearFlagsFacts(e.followKeys);
    if e.shared {
      ClearFlagsPrefix(e.keys, |e.followKeys|);
    }
    var r := RestartEntry(e);
    forall k | k in r.keys ensures !k.hasStarted && !k.hasEnded {
      var i :| 0 <= i < |r.keys| && r.keys[i] == k;
    }
    if r.following {
      forall k | k in r.followKeys ensures !k.hasStarted && !k.hasEnded {
        var i :| 0 <= i < |r.followKeys| && r.followKeys[i] == k;
      }
    }
  }

  /** Restarting keeps a track valid, leaves every key and every live
      follow key pending, resets a recording cursor, keeps everything else,
      and restarting twice is restarting once. */
  lemma RestartStateFacts(s: TrackState)
    requires StateValid(s)
    ensures var r := RestartState(s);
      && StateValid(r)
      && r.keysMap.Keys == s.keysMap.Keys
      && (forall p, k :: p in r.keysMap && k in r.keysMap[p].keys ==> !k.hasStarted && !k.hasEnded)
      && (forall p, k :: p in r.keysMap && r.keysMap[p].following && k in r.keysMap[p].followKeys ==>
            !k.hasStarted && !k.hasEnded)
      && (s.kind != KeyframeKind && s.recording ==> r.nextTick == 0.0)
      && r.(keysMap := s.keysMap, nextTick := s.nextTick) == s
      && RestartState(r) == r
  {
    forall p | p in s.keysMap {
      RestartEntryFacts(s.keysMap[p]);
    }
    if s.kind == KeyframeKind {
      assert RestartMap(RestartMap(s.keysMap)) == RestartMap(s.keysMap);
    }
  }

  // ---------------------------------------------------------------------
  // Following another track's samples
  // ---------------------------------------------------------------------

  /** The present samples, in order. */
  function PresentValues(data: Samples): (r: seq<real>)
    ensures |r| <= |data|
    decreases |data|
  {
    if data == [] then []
    else
      var prev := PresentValues(data[..|data| - 1]);
      match data[|data| - 1]
      case Some(v) => prev + [v]
      case None => prev
  }

  /** The time `n` sample periods after 0. */
  function Periods(n: nat, rate: real): real
  {
    n as real * rate
  }

  lemma PeriodsNext(n: nat, rate: real)
    ensures Periods(n + 1, rate) == Periods(n, rate) + rate
  {
  }

  /** A key of duration `rate` from `start` holding the sample `v`. */
  function SampleKey(p: string, start: real, rate: real, v: real): Key
  {
    Key(p, start, start + rate, Finite(v), Finite(v), false, DefaultEasing, false, false)
  }

  /** 'ignoreKeys': one linear key per present sample, back to back from
      time 0, each lasting one sample period. */
  function IgnoreKeysFollow(data: Samples, rate: real, p: string): seq<Key>
    decreases |data|
  {
    if data == [] then []
    else
      var prev := IgnoreKeysFollow(data[..|data| - 1], rate, p);
      match data[|data| - 1]
      case Some(v) => prev + [SampleKey(p, Periods(|prev|, rate), rate, v)]
      case None => prev
  }

  /** Key `j` of 'ignoreKeys' holds the `j`-th present sample and spans the
      `j`-th sample period: no key for a hole, none out of range. */
  lemma {:induction false} IgnoreKeysFollowShape(data: Samples, rate: real, p: string)
    ensures var r := IgnoreKeysFollow(data, rate, p);
      && |r| == |PresentValues(data)|
      && forall j :: 0 <= j < |r| ==> r[j] == SampleKey(p, Periods(j, rate), rate, PresentValues(data)[j])
    decreases |data|
  {
    if data != [] {
      var n := |data| - 1;
      IgnoreKeysFollowShape(data[..n], rate, p);
      var prev := IgnoreKeysFollow(data[..n], rate, p);
      var vs := PresentValues(data[..n]);
      assert |prev| == |vs| && forall j :: 0 <= j < |prev| ==> prev[j] == SampleKey(p, Periods(j, rate), rate, vs[j]);
    }
  }

  /** `Math.ceil`. */
  function Ceil(x: real): int
  {
    -((-x).Floor)
  }

  /** `Math.floor(t * sampleRate)`: the sample index of a start time. */
  function FloorIndex(t: real, rate: real): int
  {
    (t * rate).Floor
  }

  /** `Math.ceil(t * sampleRate)`: the sample index of an end time. */
  function CeilIndex(t: real, rate: real): int
  {
    Ceil(t * rate)
  }

  /** `data[i]` read as a number: undefined (out of range or a hole) is NaN. */
  function ReadSample(data: Samples, i: int): (r: Num)
    ensures r.Finite? <==> 0 <= i < |data| && data[i].Some?
    ensures r.Finite? ==> r.r == data[i].value
  {
    if 0 <= i < |data| && data[i].Some? then Finite(data[i].value) else NaN
  }

  /** The end sample index of 'useValues': `ceil(end * rate)`, replaced by
      `length - 1` only when it is greater than `length`. */
  function EndIndex(end: real, rate: real, n: nat): (i: int)
    ensures CeilIndex(end, rate) > n ==> i == n - 1
    ensures CeilIndex(end, rate) <= n ==> i == CeilIndex(end, rate)
  {
    var c := CeilIndex(end, rate);
    if c > n then n - 1 else c
  }

  /** One key under 'useValues': its timing kept, its start and end values
      taken from the samples at its start and end times. */
  function WithSample(k: Key, data: Samples, rate: real): Key
  {
    k.(startValue := ReadSample(data, FloorIndex(k.startTime, rate)),
       endValue := ReadSample(data, EndIndex(k.endTime, rate, |data|)))
  }

  /** 'useValues' over a whole list. */
  function WithSampleValues(ks: seq<Key>, data: Samples, rate: real): (r: seq<Key>)
    ensures |r| == |ks|
    ensures forall i :: 0 <= i < |ks| ==> r[i] == WithSample(ks[i], data, rate)
  {
    seq(|ks|, i requires 0 <= i < |ks| => WithSample(ks[i], data, rate))
  }

  /** A key whose end falls exactly one period past the last sample is not
      clamped and reads an undefined end value. */
  lemma UseValuesEndAtLength(k: Key, data: Samples, rate: real)
    requires CeilIndex(k.endTime, rate) == |data|
    ensures WithSample(k, data, rate).endValue == NaN
  {
  }

  /** The samples a follower reads from a number or position track. */
  function FollowedSamples(t: Track, axis: Axis): Samples
    reads t
  {
    if t.kind == PositionKind then
      match axis
      case X => t.dataX
      case Y => t.dataY
      case Z => t.dataZ
    else t.data
  }

  /** setupKeysForFollowType on a following property, given the followed
      track's samples and sample rate. */
  function SetupState(s: TrackState, ft: FollowType, data: Samples, rate: real): (r: TrackState)
    requires s.selectedProperty in s.keysMap
    ensures r.keysMap.Keys == s.keysMap.Keys && r.selectedProperty == s.selectedProperty
  {
    var p := s.selectedProperty;
    var e := s.keysMap[p];
    var s1 := s.(oldEndTime := Some(s.endTime));
    match ft
    case IgnoreKeys =>
      var ks := IgnoreKeysFollow(data, rate, p);
      s1.(keysMap := s.keysMap[p := e.(followKeys := ks, shared := false)],
          endTime := Periods(|ks|, rate))
    case UseValues =>
      var ks := WithSampleValues(e.keys, data, rate);
      s1.(keysMap := s.keysMap[p := e.(keys := ks, followKeys := ks, shared := true)])
    case _ => s1
  }

  /** Setting up follow keys keeps the track valid, records the old end,
      and touches no other property; a follow type other than 'ignoreKeys'
      and 'useValues' changes nothing else. */
  lemma SetupStateValid(s: TrackState, ft: FollowType, data: Samples, rate: real)
    requires StateValid(s) && s.selectedProperty in s.keysMap
    requires s.keysMap[s.selectedProperty].following
    ensures var r := SetupState(s, ft, data, rate);
      && StateValid(r)
      && r.keysMap.Keys == s.keysMap.Keys
      && (forall q :: q in s.keysMap && q != s.selectedProperty ==> r.keysMap[q] == s.keysMap[q])
      && r.oldEndTime == Some(s.endTime)
      && (ft != IgnoreKeys && ft != UseValues ==> r == s.(oldEndTime := Some(s.endTime)))
  {
    var p := s.selectedProperty;
    var r := SetupState(s, ft, data, rate);
    var e2 := r.keysMap[p];
    assert r.order == s.order && r.keysMap == s.keysMap[p := e2];
    assert EntryValid(e2) by {
      if ft == UseValues {
        assert e2.keys[..|e2.followKeys|] == e2.keys;
      }
    }
    assert AuthoredValid(Authored(r.keysMap, r.order)) by {
      forall q | q in r.keysMap ensures EntryValid(r.keysMap[q]) {
        if q != p { assert r.keysMap[q] == s.keysMap[q]; }
      }
    }
  }

  /** 'ignoreKeys' leaves the authored keys alone, makes follow key `j` the
      `j`-th present sample held for one period from `j` periods, and ends
      the track after one period per present sample. */
  lemma SetupIgnoreKeys(s: TrackState, data: Samples, rate: real)
    requires s.selectedProperty in s.keysMap && s.keysMap[s.selectedProperty].following
    ensures var r := SetupState(s, IgnoreKeys, data, rate);
      var p := s.selectedProperty;
      var e := r.keysMap[p];
      var vs := PresentValues(data);
      && e.keys == s.keysMap[p].keys && e.following && !e.shared
      && |e.followKeys| == |vs|
      && (forall j :: 0 <= j < |vs| ==> e.followKeys[j] == SampleKey(p, Periods(j, rate), rate, vs[j]))
      && r.endTime == Periods(|vs|, rate)
  {
    IgnoreKeysFollowShape(data, rate, s.selectedProperty);
  }

  /** 'useValues' makes the follow keys the authored keys themselves, each
      keeping its name, timing, easing and flags and taking its start and
      end values from the samples; the track end is unchanged. */
  lemma SetupUseValues(s: TrackState, data: Samples, rate: real)
    requires s.selectedProperty in s.keysMap && s.keysMap[s.selectedProperty].following
    ensures var r := SetupState(s, UseValues, data, rate);
      var p := s.selectedProperty;
      var before := s.keysMap[p].keys;
      var e := r.keysMap[p];
      && e.followKeys == e.keys && e.shared && |e.keys| == |before|
      && r.endTime == s.endTime
      && forall i :: 0 <= i < |before| ==>
           && e.keys[i].(startValue := before[i].startValue, endValue := before[i].endValue) == before[i]
           && e.keys[i].startValue == ReadSample(data, FloorIndex(before[i].startTime, rate))
           && e.keys[i].endValue == ReadSample(data, EndIndex(before[i].endTime, rate, |data|))
  {
  }

  /** The noFollow reset of the selected property's entry. */
  function Unfollowed(e: PropEntry): PropEntry
  {
    e.(following := false, followKeys := [], followTrack := None, followType := NoFollowType, shared := false)
  }

  /** The end time `updateTrackEnd` computes for a property: the largest end
      time of its live keys, and 0 for none. */
  function PropertyEnd(e: PropEntry): real
  {
    MaxOf(EndTimes(Live(e)))
  }

  /** The track end `updateTrackEnd(p)` sets is no earlier than the end of
      every live key of that property, equals one of them unless it is 0,
      and depends on no other property. */
  lemma PropertyEndBounds(s: TrackState, p: string)
    requires p in s.keysMap
    ensures forall k :: k in Live(s.keysMap[p]) ==> k.endTime <= PropertyEnd(s.keysMap[p])
    ensures PropertyEnd(s.keysMap[p]) == 0.0 ||
            exists k :: k in Live(s.keysMap[p]) && k.endTime == PropertyEnd(s.keysMap[p])
  {
    var ks := Live(s.keysMap[p]);
    var m := PropertyEnd(s.keysMap[p]);
    forall k | k in ks ensures k.endTime <= m {
      var i :| 0 <= i < |ks| && ks[i] == k;
      assert EndTimes(ks)[i] == k.endTime;
    }
    if m != 0.0 {
      var i :| 0 <= i < |EndTimes(ks)| && EndTimes(ks)[i] == m;
      assert ks[i] in ks;
    }
  }

  // ---------------------------------------------------------------------
  // One track's share of the per-tick pass
  // ---------------------------------------------------------------------

  /** A run of holes. */
  function Holes(n: nat): (r: Samples)
    ensures |r| == n && forall j :: 0 <= j < n ==> r[j] == None
  {
    seq(n, _ => None)
  }

  /** `data[i] = v` on a JavaScript array: overwrite, or extend with holes. */
  function Store(s: Samples, i: nat, v: real): (r: Samples)
    ensures |r| == if i < |s| then |s| else i + 1
    ensures r[i] == Some(v)
    ensures forall j :: 0 <= j < |s| && j != i ==> r[j] == s[j]
    ensures forall j :: |s| <= j < |r| && j != i ==> r[j] == None
  {
    if i < |s| then s[i := Some(v)] else s + Holes(i - |s|) + [Some(v)]
  }

  /** `Math.floor(nextTick / sampleRate)`: the sample index of the cursor. */
  function TickIndex(nextTick: real, rate: real): int
    requires rate > 0.0
  {
    (nextTick / rate).Floor
  }

  lemma TickIndexNat(nextTick: real, rate: real)
    requires nextTick >= 0.0 && rate > 0.0
    ensures TickIndex(nextTick, rate) >= 0
  {
    assert nextTick / rate >= 0.0;
  }

  /** The recording cursor rule of the per-tick pass: a cursor past the end
      wraps to 0; then a cursor at or after the current time stores the
      reading at index `floor(nextTick / sampleRate)`, and any other cursor
      moves on by one sample period. */
  function RecordStep(s: TrackState, time: real, end: Option<real>, v: Vec3): TrackState
    requires s.recording ==> s.sampleRate > 0.0 && s.nextTick >= 0.0
  {
    if !s.recording then s
    else
      var nt := if end.Some? && s.nextTick > end.value then 0.0 else s.nextTick;
      if nt >= time then
        var idx := TickIndex(nt, s.sampleRate);
        assert idx >= 0 by { TickIndexNat(nt, s.sampleRate); }
        match s.kind
        case NumberKind => s.(nextTick := nt, data := Store(s.data, idx, v.0))
        case PositionKind =>
          s.(nextTick := nt, dataX := Store(s.dataX, idx, v.0),
             dataY := Store(s.dataY, idx, v.1), dataZ := Store(s.dataZ, idx, v.2))
        case KeyframeKind => s.(nextTick := nt)
      else s.(nextTick := nt + s.sampleRate)
  }

  /** A recording step keeps the cursor non-negative and either stores the
      reading at the cursor's sample index (the cursor staying put) or moves
      the cursor on by exactly one period (nothing stored); only recording
      fields change. */
  lemma RecordStepFacts(s: TrackState, time: real, end: Option<real>, v: Vec3)
    requires StateValid(s) && s.recording
    ensures var r := RecordStep(s, time, end, v);
      var nt := if end.Some? && s.nextTick > end.value then 0.0 else s.nextTick;
      var idx := TickIndex(nt, s.sampleRate);
      && StateValid(r)
      && r.(nextTick := s.nextTick, data := s.data, dataX := s.dataX, dataY := s.dataY, dataZ := s.dataZ) == s
      && (nt >= time ==>
            && idx >= 0 && r.nextTick == nt
            && (s.kind == NumberKind ==> |r.data| > idx && r.data[idx] == Some(v.0))
            && (s.kind == PositionKind ==>
                  && |r.dataX| > idx && r.dataX[idx] == Some(v.0)
                  && |r.dataY| > idx && r.dataY[idx] == Some(v.1)
                  && |r.dataZ| > idx && r.dataZ[idx] == Some(v.2)))
      && (nt < time ==> r == s.(nextTick := nt + s.sampleRate))
  {
    var nt := if end.Some? && s.nextTick > end.value then 0.0 else s.nextTick;
    TickIndexNat(nt, s.sampleRate);
  }

  /** Writes an evaluated live list back: into the follow keys when
      following, mirrored into the shared authored keys, else into `keys`. */
  function WriteBack(e: PropEntry, out: seq<Key>): (r: PropEntry)
    requires EntryValid(e) && |out| == |Live(e)|
    ensures EntryValid(r) && Live(r) == out
    ensures r.following == e.following && r.followTrack == e.followTrack && r.shared == e.shared
  {
    if e.following then
      var ks := if e.shared then out + e.keys[|out|..] else e.keys;
      assert e.shared ==> ks[..|out|] == out;
      e.(followKeys := out, keys := ks)
    else e.(keys := out)
  }

  datatype Pass = Pass(keysMap: map<string, PropEntry>, target: Props, complete: bool)

  /** Evaluates every property of a keyframe track in for..in order, each
      property's live list seeing the target as the earlier ones left it;
      `complete` says some key's eased progress reached 1. */
  function EvalProps(m: map<string, PropEntry>, order: seq<string>, target: Props, time: real, ease: Ease): (r: Pass)
    requires forall p :: p in order ==> p in m && EntryValid(m[p]) && CanEvaluate(Live(m[p]), target, time)
    ensures r.keysMap.Keys == m.Keys && target.Keys <= r.target.Keys
    ensures forall p :: p in m && p !in order ==> r.keysMap[p] == m[p]
    ensures forall p :: p in m && EntryValid(m[p]) ==> EntryValid(r.keysMap[p])
    decreases |order|
  {
    if order == [] then Pass(m, target, false)
    else
      var n := |order| - 1;
      var prev := EvalProps(m, order[..n], target, time, ease);
      var p := order[n];
      var e := m[p];
      CanEvaluateGrows(Live(e), target, prev.target, time);
      var r := EvalKeys(Live(e), prev.target, time, ease);
      Pass(prev.keysMap[p := WriteBack(e, r.keys)], r.target, prev.complete || r.complete)
  }

  /** One track's share of the per-tick pass: the recording rule, then, for
      a keyframe track, the evaluation of all its properties. The flag says
      some key completed. */
  function StepState(s: TrackState, time: real, end: Option<real>, v: Vec3, ease: Ease): (r: (TrackState, bool))
    requires StateValid(s) && Ready(s, time)
    ensures StateValid(r.0)
    ensures r.0.kind == s.kind && r.0.endTime == s.endTime && r.0.order == s.order
    ensures s.kind != KeyframeKind ==> !r.1
  {
    var s1 := RecordStep(s, time, end, v);
    if s1.kind == KeyframeKind then
      var pass := EvalProps(s1.keysMap, s1.order, s1.target, time, ease);
      (s1.(keysMap := pass.keysMap, target := pass.target), pass.complete)
    else (s1, false)
  }

  /** Keys before their start or already ended are untouched by a track's
      pass, and a number or position track's keys map and target are left
      alone. */
  lemma StepStateKeepsIdle(s: TrackState, time: real, end: Option<real>, v: Vec3, ease: Ease)
    requires StateValid(s) && Ready(s, time)
    ensures var r := StepState(s, time, end, v, ease).0;
      && (s.kind != KeyframeKind ==> r.keysMap == s.keysMap && r.target == s.target)
      && (s.kind == KeyframeKind ==> r.recording == s.recording && r.nextTick == s.nextTick && r.data == s.data)
      && (s.kind == KeyframeKind ==> KeepsUnevaluated(s.keysMap, r.keysMap, time))
  {
    if s.kind == KeyframeKind {
      EvalPropsKeepsUnevaluated(s.keysMap, s.order, s.target, time, ease);
    }
  }

  /** Some property listed in `order` has a live key that completes. */
  predicate PropsComplete(m: map<string, PropEntry>, order: seq<string>, time: real, ease: Ease)
  {
    exists p :: p in order && p in m && SomeKeyCompletes(Live(m[p]), time, ease)
  }

  /** A track's property pass completes exactly when some live key of some
      listed property, as it stood before the pass, is evaluated and reaches
      eased progress 1. */
  lemma {:induction false} EvalPropsComplete(m: map<string, PropEntry>, order: seq<string>, target: Props, time: real, ease: Ease)
    requires forall p :: p in order ==> p in m && EntryValid(m[p]) && CanEvaluate(Live(m[p]), target, time)
    ensures EvalProps(m, order, target, time, ease).complete <==> PropsComplete(m, order, time, ease)
    decreases |order|
  {
    if order != [] {
      var n := |order| - 1;
      var prev := EvalProps(m, order[..n], target, time, ease);
      EvalPropsComplete(m, order[..n], target, time, ease);
      var p := order[n];
      CanEvaluateGrows(Live(m[p]), target, prev.target, time);
      EvalKeysComplete(Live(m[p]), prev.target, time, ease);
      PropsCompleteSnoc(m, order, time, ease);
    }
  }

  /** A property list completes when its front part does or its last
      property does. */
  lemma PropsCompleteSnoc(m: map<string, PropEntry>, order: seq<string>, time: real, ease: Ease)
    requires order != []
    ensures var n := |order| - 1;
      PropsComplete(m, order, time, ease) <==>
        PropsComplete(m, order[..n], time, ease) ||
        (order[n] in m && SomeKeyCompletes(Live(m[order[n]]), time, ease))
  {
    var n := |order| - 1;
    var p := order[n];
    assert order == order[..n] + [p];
    assert forall q :: q in order <==> q in order[..n] || q == p;
    if PropsComplete(m, order[..n], time, ease) {
      var q :| q in order[..n] && q in m && SomeKeyCompletes(Live(m[q]), time, ease);
      assert q in order;
    }
    if p in m && SomeKeyCompletes(Live(m[p]), time, ease) {
      assert p in order;
    }
  }

  /** One track's step reports a completion exactly for a keyframe track
      one of whose live keys, as they stood before the step, is evaluated
      and reaches eased progress 1. */
  lemma StepStateComplete(s: TrackState, time: real, end: Option<real>, v: Vec3, ease: Ease)
    requires StateValid(s) && Ready(s, time)
    ensures StepState(s, time, end, v, ease).1 <==>
              s.kind == KeyframeKind && PropsComplete(s.keysMap, s.order, time, ease)
  {
    if s.kind == KeyframeKind {
      EvalPropsComplete(s.keysMap, s.order, s.target, time, ease);
    }
  }

  /** Every key of `before` that is not evaluated at `time` sits unchanged at
      the same place of the same property's live list in `after`. */
  predicate KeepsUnevaluated(before: map<string, PropEntry>, after: map<string, PropEntry>, time: real)
  {
    forall p :: p in before ==>
      && p in after
      && |Live(after[p])| == |Live(before[p])|
      && forall z :: 0 <= z < |Live(before[p])| && !Evaluated(Live(before[p])[z], time) ==>
           Live(after[p])[z] == Live(before[p])[z]
  }

  /** A track's property pass leaves every key it does not evaluate as it
      was. */
  lemma {:induction false} EvalPropsKeepsUnevaluated(m: map<string, PropEntry>, order: seq<string>, target: Props, time: real, ease: Ease)
    requires forall p :: p in order ==> p in m && EntryValid(m[p]) && CanEvaluate(Live(m[p]), target, time)
    ensures KeepsUnevaluated(m, EvalProps(m, order, target, time, ease).keysMap, time)
    decreases |order|
  {
    if order != [] {
      var n := |order| - 1;
      var prev := EvalProps(m, order[..n], target, time, ease);
      EvalPropsKeepsUnevaluated(m, order[..n], target, time, ease);
      var p := order[n];
      CanEvaluateGrows(Live(m[p]), target, prev.target, time);
      var r := EvalKeys(Live(m[p]), prev.target, time, ease);
      var after := prev.keysMap[p := WriteBack(m[p], r.keys)];
      assert Live(after[p]) == r.keys;
      forall q | q in m
        ensures q in after && |Live(after[q])| == |Live(m[q])|
        ensures forall z :: 0 <= z < |Live(m[q])| && !Evaluated(Live(m[q])[z], time) ==>
                  Live(after[q])[z] == Live(m[q])[z]
      {
        if q != p {
          assert after[q] == prev.keysMap[q];
        }
      }
    }
  }

  /** Every live key that has ended has started. */
  predicate StartedBeforeEnded(m: map<string, PropEntry>)
  {
    forall p, k :: p in m && k in Live(m[p]) ==> (k.hasEnded ==> k.hasStarted)
  }

  /** A track's pass keeps "ended implies started" for every live key. */
  lemma {:induction false} EvalPropsEndedImpliesStarted(m: map<string, PropEntry>, order: seq<string>, target: Props, time: real, ease: Ease)
    requires forall p :: p in order ==> p in m && EntryValid(m[p]) && CanEvaluate(Live(m[p]), target, time)
    requires Distinct(order)
    requires StartedBeforeEnded(m)
    ensures StartedBeforeEnded(EvalProps(m, order, target, time, ease).keysMap)
    decreases |order|
  {
    if order != [] {
      var n := |order| - 1;
      var prev := EvalProps(m, order[..n], target, time, ease);
      EvalPropsEndedImpliesStarted(m, order[..n], target, time, ease);
      assert StartedBeforeEnded(prev.keysMap);
      var p := order[n];
      var e := m[p];
      assert forall k :: k in Live(e) ==> (k.hasEnded ==> k.hasStarted);
      CanEvaluateGrows(Live(e), target, prev.target, time);
      EvalKeysEndedImpliesStarted(Live(e), prev.target, time, ease);
      var out := EvalKeys(Live(e), prev.target, time, ease);
      WriteBackStarted(prev.keysMap, p, e, out.keys);
    }
  }

  lemma WriteBackStarted(m: map<string, PropEntry>, p: string, e: PropEntry, out: seq<Key>)
    requires StartedBeforeEnded(m) && EntryValid(e) && |out| == |Live(e)|
    requires forall k :: k in out ==> (k.hasEnded ==> k.hasStarted)
    ensures StartedBeforeEnded(m[p := WriteBack(e, out)])
  {
    var r := m[p := WriteBack(e, out)];
    forall q, k | q in r && k in Live(r[q]) ensures k.hasEnded ==> k.hasStarted {
      if q == p {
        assert Live(r[q]) == out;
      } else {
        assert r[q] == m[q];
      }
    }
  }

  lemma AddKeysSnoc(a: Authored, props: seq<(string, Num)>, z: nat, start: real, end: real, easing: string)
    requires z < |props|
    ensures AddKeys(a, props[..z + 1], start, end, easing)
         == AddKey(AddKeys(a, props[..z], start, end, easing), props[z].0, props[z].1, start, end, easing)
  {
    assert props[..z + 1][..z] == props[..z];
  }

  /** The body of `keyframe()`'s loop adds one key as AddKey says. */
  lemma PushKeyStep(a: Authored, p: string, v: Num, start: real, end: real, easing: string,
                    km: map<string, PropEntry>, names: seq<string>)
    requires var m1 := if p in a.keysMap then a.keysMap else a.keysMap[p := NewEntry];
      && names == (if p in a.keysMap then a.order else a.order + [p])
      && km == m1[p := m1[p].(keys := m1[p].keys + [Key(p, start, end, NaN, v, false, easing, false, false)])]
    ensures Authored(km, names) == AddKey(a, p, v, start, end, easing)
  {
  }

  /** The loop of `keyframe()`: for each property in turn, create its entry
      on its first key, then push the new key onto its list. */
  method PushKeys(a: Authored, props: seq<(string, Num)>, start: real, end: real, easing: string) returns (r: Authored)
    ensures r == AddKeys(a, props, start, end, easing)
  {
    var km, names := a.keysMap, a.order;
    var z := 0;
    while z < |props|
      invariant 0 <= z <= |props|
      invariant Authored(km, names) == AddKeys(a, props[..z], start, end, easing)
    {
      ghost var prev := Authored(km, names);
      var p := props[z].0;
      if p !in km {
        km := km[p := NewEntry];
        names := names + [p];
      }
      var entry := km[p];
      km := km[p := entry.(keys := entry.keys + [Key(p, start, end, NaN, props[z].1, false, easing, false, false)])];
      PushKeyStep(prev, props[z].0, props[z].1, start, end, easing, km, names);
      AddKeysSnoc(a, props, z, start, end, easing);
      z := z + 1;
    }
    assert props[..z] == props;
    r := Authored(km, names);
  }

  /** The loop of restartTracks over one keys map, in for..in order. */
  method ClearAllFlags(m: map<string, PropEntry>, order: seq<string>) returns (r: map<string, PropEntry>)
    requires Distinct(order) && forall p :: p in m <==> p in order
    ensures r == RestartMap(m)
  {
    r := m;
    var z := 0;
    while z < |order|
      invariant 0 <= z <= |order|
      invariant r.Keys == m.Keys
      invariant forall p :: p in r ==> r[p] == if p in order[..z] then RestartEntry(m[p]) else m[p]
    {
      var p := order[z];
      assert p !in order[..z];
      assert order[..z + 1] == order[..z] + [p];
      var entry := r[p];
      var keys := ClearKeyFlags(entry.keys);
      var followKeys := entry.followKeys;
      if entry.following {
        followKeys := ClearKeyFlags(entry.followKeys);
      }
      r := r[p := entry.(keys := keys, followKeys := followKeys)];
      z := z + 1;
    }
    assert order[..z] == order;
  }

  lemma IgnoreKeysFollowSnoc(samples: Samples, i: nat, rate: real, p: string)
    requires i < |samples|
    ensures var prev := IgnoreKeysFollow(samples[..i], rate, p);
      IgnoreKeysFollow(samples[..i + 1], rate, p)
        == if samples[i].Some? then prev + [SampleKey(p, Periods(|prev|, rate), rate, samples[i].value)] else prev
  {
    assert samples[..i + 1][..i] == samples[..i];
  }

  /** The 'ignoreKeys' loop: one key per present sample, each starting where
      the previous one ended (`prevEndTime`). */
  method SampleKeys(samples: Samples, rate: real, p: string) returns (ks: seq<Key>, prevEndTime: real)
    ensures ks == IgnoreKeysFollow(samples, rate, p)
    ensures prevEndTime == Periods(|ks|, rate)
  {
    ks := [];
    prevEndTime := 0.0;
    var i := 0;
    while i < |samples|
      invariant 0 <= i <= |samples|
      invariant ks == IgnoreKeysFollow(samples[..i], rate, p)
      invariant prevEndTime == Periods(|ks|, rate)
    {
      IgnoreKeysFollowSnoc(samples, i, rate, p);
      if samples[i].Some? {
        var v := samples[i].value;
        ks := ks + [Key(p, prevEndTime, prevEndTime + rate, Finite(v), Finite(v), false, DefaultEasing, false, false)];
        PeriodsNext(|ks| - 1, rate);
        prevEndTime := prevEndTime + rate;
      }
      i := i + 1;
    }
    assert samples[..i] == samples;
  }

  /** The 'useValues' loop: each key's values are read from the samples at
      its start and end indices, in place. */
  method ReadSampleValues(keys: seq<Key>, samples: Samples, rate: real) returns (ks: seq<Key>)
    ensures ks == WithSampleValues(keys, samples, rate)
  {
    ks := keys;
    var i := 0;
    while i < |ks|
      invariant 0 <= i <= |ks| == |keys|
      invariant forall j :: 0 <= j < i ==> ks[j] == WithSample(keys[j], samples, rate)
      invariant forall j :: i <= j < |ks| ==> ks[j] == keys[j]
    {
      var startIndex := FloorIndex(ks[i].startTime, rate);
      var endIndex := CeilIndex(ks[i].endTime, rate);
      if endIndex > |samples| {
        endIndex := |samples| - 1;
      }
      assert endIndex == EndIndex(keys[i].endTime, rate, |samples|);
      ks := ks[i := ks[i].(startValue := ReadSample(samples, startIndex), endValue := ReadSample(samples, endIndex))];
      i := i + 1;
    }
    assert ks == WithSampleValues(keys, samples, rate);
  }

  /** Evaluating property `order[z]` extends the pass over `order[..z]`. */
  lemma EvalPropsSnoc(m: map<string, PropEntry>, order: seq<string>, z: nat, target: Props, time: real, ease: Ease)
    requires forall p :: p in order ==> p in m && EntryValid(m[p]) && CanEvaluate(Live(m[p]), target, time)
    requires Distinct(order) && z < |order|
    ensures var prev := EvalProps(m, order[..z], target, time, ease);
      var p := order[z];
      && prev.keysMap[p] == m[p]
      && CanEvaluate(Live(m[p]), prev.target, time)
      && var r := EvalKeys(Live(m[p]), prev.target, time, ease);
         EvalProps(m, order[..z + 1], target, time, ease)
           == Pass(prev.keysMap[p := WriteBack(m[p], r.keys)], r.target, prev.complete || r.complete)
  {
    var p := order[z];
    assert order[..z + 1][..z] == order[..z];
    assert p !in order[..z];
    var prev := EvalProps(m, order[..z], target, time, ease);
    CanEvaluateGrows(Live(m[p]), target, prev.target, time);
  }

  /** The property loop of applyValues on one keyframe track. */
  method EvaluateAll(m: map<string, PropEntry>, order: seq<string>, target: Props, time: real, ease: Ease) returns (r: Pass)
    requires forall p :: p in order ==> p in m && EntryValid(m[p]) && CanEvaluate(Live(m[p]), target, time)
    requires Distinct(order)
    ensures r == EvalProps(m, order, target, time, ease)
  {
    r := Pass(m, target, false);
    var z := 0;
    while z < |order|
      invariant 0 <= z <= |order|
      invariant r == EvalProps(m, order[..z], target, time, ease)
    {
      var p := order[z];
      EvalPropsSnoc(m, order, z, target, time, ease);
      var entry := r.keysMap[p];
      var out, tgt, c := EvaluateKeys(Live(entry), r.target, time, ease);
      r := Pass(r.keysMap[p := WriteBack(entry, out)], tgt, r.complete || c);
      z := z + 1;
    }
    assert order[..z] == order;
  }

  // ---------------------------------------------------------------------
  // The track object
  // ---------------------------------------------------------------------

  class Track {
    const kind: TrackKind
    const name: string
    var endTime: real
    var keysMap: map<string, PropEntry>
    var order: seq<string>
    var target: Props
    var selectedProperty: string
    var followingPropertyPosition: Axis
    var oldEndTime: Option<real>
    var recording: bool
    var sampleRate: real
    var nextTick: real
    var data: Samples
    var dataX: Samples
    var dataY: Samples
    var dataZ: Samples

    function State(): TrackState
      reads this
    {
      TrackState(kind, endTime, keysMap, order, target, selectedProperty,
                 followingPropertyPosition, oldEndTime, recording, sampleRate,
                 nextTick, data, dataX, dataY, dataZ)
    }

    ghost predicate Valid()
      reads this
    {
      StateValid(State())
    }

    /** `new Keyframe(name, target, timeline)`: empty, ending at 0, following
        along the x axis, with no property selected. */
    constructor KeyframeTrack(name: string, target: Props)
      ensures Valid() && kind == KeyframeKind && this.name == name
      ensures State() == TrackState(KeyframeKind, 0.0, map[], [], target, "", X, None,
                                    false, 0.0, 0.0, [], [], [], [])
    {
      this.kind := KeyframeKind;
      this.name := name;
      endTime := 0.0;
      keysMap := map[];
      order := [];
      this.target := target;
      selectedProperty := "";
      followingPropertyPosition := X;
      oldEndTime := None;
      recording := false;
      sampleRate := 0.0;
      nextTick := 0.0;
      data, dataX, dataY, dataZ := [], [], [], [];
    }

    /** A number or position track with a positive sample period and no
        samples yet. */
    constructor SampledTrack(kind: TrackKind, name: string, sampleRate: real, recording: bool)
      requires kind != KeyframeKind && sampleRate > 0.0
      ensures Valid() && this.kind == kind && this.name == name
      ensures State() == TrackState(kind, 0.0, map[], [], map[], "", X, None,
                                    recording, sampleRate, 0.0, [], [], [], [])
    {
      this.kind := kind;
      this.name := name;
      endTime := 0.0;
      keysMap := map[];
      order := [];
      target := map[];
      selectedProperty := "";
      followingPropertyPosition := X;
      oldEndTime := None;
      this.recording := recording;
      this.sampleRate := sampleRate;
      nextTick := 0.0;
      data, dataX, dataY, dataZ := [], [], [], [];
    }

    /** `keyframe(properties, duration, easing)`: every property gets a key
        from the current end to `duration` later, with the default easing
        when none is given; the end then grows by `duration`, once. */
    method Keyframe(props: seq<(string, Num)>, duration: real, easing: string)
      requires Valid() && kind == KeyframeKind
      modifies this
      ensures Valid()
      ensures var r := AddKeys(Authored(old(keysMap), old(order)), props, old(endTime), old(endTime) + duration, EasingOr(easing));
        State() == old(State()).(keysMap := r.keysMap, order := r.order, endTime := old(endTime) + duration)
    {
      ghost var s0 := State();
      var a := Authored(keysMap, order);
      var start, e := endTime, EasingOr(easing);
      var r := PushKeys(a, props, start, start + duration, e);
      AddKeysValid(a, props, start, start + duration, e);
      AuthoredStateValid(s0, r, start + duration);
      keysMap, order, endTime := r.keysMap, r.order, start + duration;
      assert State() == s0.(keysMap := r.keysMap, order := r.order, endTime := start + duration);
    }

    /** `updateTrackEnd(p)`: the end becomes the largest end time over the
        live keys of `p` (or of the selected property when `p` is empty). */
    method UpdateTrackEnd(p: string)
      requires SelectedOr(State(), p) in keysMap
      modifies this
      ensures State() == old(State()).(endTime := PropertyEnd(old(keysMap[SelectedOr(State(), p)])))
    {
      var selected := if p == "" then selectedProperty else p;
      var ks := Live(keysMap[selected]);
      var end := 0.0;
      var z := 0;
      while z < |ks|
        invariant 0 <= z <= |ks|
        invariant end == MaxOf(EndTimes(ks)[..z])
      {
        assert EndTimes(ks)[..z + 1][..z] == EndTimes(ks)[..z];
        if ks[z].endTime > end {
          end := ks[z].endTime;
        }
        z := z + 1;
      }
      assert EndTimes(ks)[..z] == EndTimes(ks);
      endTime := end;
    }

    /** `rebuildKeysMapProperty(property, dataMap)`: installs the entry,
        with every flag cleared, only when the property is new, then takes
        the track end from that property. */
    method RebuildKeysMapProperty(property: string, dataMap: PropEntry)
      requires Valid() && kind == KeyframeKind && EntryValid(dataMap)
      requires property == "" ==> selectedProperty in keysMap || selectedProperty == ""
      modifies this
      ensures Valid()
      ensures var a := if property in old(keysMap) then Authored(old(keysMap), old(order))
                       else Authored(old(keysMap)[property := RestartEntry(dataMap)], old(order) + [property]);
        var sel := if property == "" then old(selectedProperty) else property;
        sel in a.keysMap &&
        State() == old(State()).(keysMap := a.keysMap, order := a.order, endTime := PropertyEnd(a.keysMap[sel]))
    {
      var keys := ClearKeyFlags(dataMap.keys);
      var followKeys := dataMap.followKeys;
      if dataMap.following {
        followKeys := ClearKeyFlags(dataMap.followKeys);
      }
      RestartEntryFacts(dataMap);
      if property !in keysMap {
        var entry := dataMap.(keys := keys, followKeys := followKeys);
        InstallValid(State(), property, entry);
        keysMap, order := keysMap[property := entry], order + [property];
      }
      ghost var s1 := State();
      UpdateTrackEnd(property);
      EndTimeValid(s1, endTime);
    }

    /** restartTracks' work on one track. */
    method Restart()
      requires Valid()
      modifies this
      ensures Valid() && State() == RestartState(old(State()))
    {
      RestartStateFacts(State());
      if kind == KeyframeKind {
        keysMap := ClearAllFlags(keysMap, order);
      } else if recording {
        nextTick := 0.0;
      }
    }

    /** `setupKeysForFollowType(followType)` on the selected property,
        reading the followed track's samples (its axis array for a position
        track) and its sample period. */
    method SetupKeysForFollowType(ft: FollowType)
      requires Valid() && selectedProperty in keysMap
      modifies this
      ensures Valid()
      ensures !old(keysMap[selectedProperty].following) ==> State() == old(State())
      ensures old(keysMap[selectedProperty].following) ==>
        var t := old(keysMap[selectedProperty].followTrack.value);
        State() == SetupState(old(State()), ft, old(FollowedSamples(t, followingPropertyPosition)), old(t.sampleRate))
    {
      var p := selectedProperty;
      var entry := keysMap[p];
      if !entry.following {
        return;
      }
      ghost var s0 := State();
      var followed := entry.followTrack.value;
      var samples := FollowedSamples(followed, followingPropertyPosition);
      var rate := followed.sampleRate;
      SetupStateValid(s0, ft, samples, rate);
      ghost var s1 := SetupState(s0, ft, samples, rate);
      var updated, end := entry, endTime;
      match ft {
        case IgnoreKeys =>
          var followKeys, prevEndTime := SampleKeys(samples, rate, p);
          updated, end := entry.(followKeys := followKeys, shared := false), prevEndTime;
        case UseValues =>
          var keys := ReadSampleValues(entry.keys, samples, rate);
          updated := entry.(keys := keys, followKeys := keys, shared := true);
        case _ =>
      }
      oldEndTime := Some(endTime);
      keysMap, endTime := keysMap[p := updated], end;
      assert State() == s1;
    }

    /** The 'noFollow' branch of updateFollowingTrack: the selected property
        stops following, and the track end is taken from its own keys. */
    method NoFollow()
      requires Valid() && selectedProperty in keysMap
      modifies this
      ensures Valid()
      ensures var e := Unfollowed(old(keysMap[selectedProperty]));
        State() == old(State()).(keysMap := old(keysMap)[old(selectedProperty) := e], endTime := PropertyEnd(e))
    {
      var entry := keysMap[selectedProperty];
      keysMap := keysMap[selectedProperty := Unfollowed(entry)];
      if oldEndTime.Some? {
        endTime := oldEndTime.value;
      }
      UpdateTrackEnd("");
    }

    /** The following branch of updateFollowingTrack, with the chosen track
        and follow type as inputs: the selected property follows `selected`,
        its follow keys are set up, and the end is taken from them. */
    method Follow(selected: Track, ft: FollowType)
      requires Valid() && selectedProperty in keysMap && selected.kind != KeyframeKind
      modifies this
      ensures Valid()
      ensures var e := old(keysMap[selectedProperty]).(following := true, followTrack := Some(selected), followType := ft);
        var s1 := SetupState(old(State()).(keysMap := old(keysMap)[old(selectedProperty) := e]), ft,
                             old(FollowedSamples(selected, followingPropertyPosition)), old(selected.sampleRate));
        State() == s1.(endTime := PropertyEnd(s1.keysMap[old(selectedProperty)]))
    {
      var entry := keysMap[selectedProperty];
      keysMap := keysMap[selectedProperty := entry.(following := true, followTrack := Some(selected), followType := ft)];
      SetupKeysForFollowType(ft);
      UpdateTrackEnd("");
    }

    /** This track's share of applyValues. */
    method Step(time: real, end: Option<real>, v: Vec3, ease: Ease) returns (complete: bool)
      requires Valid() && Ready(State(), time)
      modifies this
      ensures Valid()
      ensures (State(), complete) == StepState(old(State()), time, end, v, ease)
    {
      if recording {
        RecordStepFacts(State(), time, end, v);
        RecordSample(time, end, v);
      }
      complete := false;
      if kind == KeyframeKind {
        complete := EvaluateProperties(time, ease);
      }
    }

    /** The recording half of applyValues on this track: wrap the cursor
        past the end, then store the reading or move the cursor on. */
    method RecordSample(time: real, end: Option<real>, v: Vec3)
      requires Valid() && recording
      modifies this
      ensures State() == RecordStep(old(State()), time, end, v)
    {
      if end.Some? && nextTick > end.value {
        nextTick := 0.0;
      }
      if nextTick >= time {
        var idx := TickIndex(nextTick, sampleRate);
        TickIndexNat(nextTick, sampleRate);
        if kind == NumberKind {
          data := Store(data, idx, v.0);
        } else if kind == PositionKind {
          dataX := Store(dataX, idx, v.0);
          dataY := Store(dataY, idx, v.1);
          dataZ := Store(dataZ, idx, v.2);
        }
      } else {
        nextTick := nextTick + sampleRate;
      }
    }

    /** The keyframe half of applyValues on this track: each property's live
        list in for..in order, written back in place. */
    method EvaluateProperties(time: real, ease: Ease) returns (complete: bool)
      requires Valid() && Ready(State(), time)
      modifies this
      ensures Valid()
      ensures var pass := EvalProps(old(keysMap), old(order), old(target), time, ease);
        State() == old(State()).(keysMap := pass.keysMap, target := pass.target) && complete == pass.complete
    {
      var pass := EvaluateAll(keysMap, order, target, time, ease);
      keysMap, target, complete := pass.keysMap, pass.target, pass.complete;
    }
  }
}
