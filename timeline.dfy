/** The timeline: its clock and loop policy, and the per-tick pass over its
    tracks (src/timeline.js). */
module Timelines {
  import opened Keys
  import opened Tracks

  // ---------------------------------------------------------------------
  // The clock
  // ---------------------------------------------------------------------

  /** The fields of a timeline that update() reads and writes. A loop mode
      of -1 loops forever, 0 never loops, n > 0 bounds the loop count. */
  datatype Clock = Clock(time: real, totalTime: real, loopCount: int, loopMode: int, playing: bool)

  /** A clock after a tick, and whether the tick sends the tracks back to
      their start. */
  datatype Boundary = Boundary(clock: Clock, restart: bool)

  /** The first step of update(): a playing clock moves on by `dt`. */
  function Advance(c: Clock, dt: real): Clock
  {
    if c.playing then c.(totalTime := c.totalTime + dt, time := c.time + dt) else c
  }

  /** The loop policy of update() against the animation end `end`: past the
      end, a looping clock counts one more loop and either starts over or
      stops playing. */
  function LoopPolicy(c: Clock, end: real): Boundary
  {
    if c.loopMode != 0 && c.time > end then
      var n := c.loopCount + 1;
      if c.loopMode == -1 || n <= c.loopMode then Boundary(c.(loopCount := n, time := 0.0), true)
      else Boundary(c.(loopCount := n, playing := false), false)
    else Boundary(c, false)
  }

  /** What one update() does to the clock. */
  function Tick(c: Clock, dt: real, end: real): Boundary
  {
    LoopPolicy(Advance(c, dt), end)
  }

  /** A playing clock advances both its times by exactly `dt`; a paused one
      does not move. */
  lemma AdvanceExact(c: Clock, dt: real)
    ensures var a := Advance(c, dt);
      && (c.playing ==> a.time == c.time + dt && a.totalTime == c.totalTime + dt)
      && (!c.playing ==> a == c)
      && a.(time := c.time, totalTime := c.totalTime) == c
  {
  }

  /** Crossing the end with looping on counts exactly one loop; within the
      loop budget the clock goes back to 0 and the tracks restart, otherwise
      it stops where it is. */
  lemma BoundaryCrossed(c: Clock, end: real)
    requires c.loopMode != 0 && c.time > end
    ensures var b := LoopPolicy(c, end);
      && b.clock.loopCount == c.loopCount + 1
      && (c.loopMode == -1 || c.loopCount + 1 <= c.loopMode ==>
            b.restart && b.clock == c.(loopCount := c.loopCount + 1, time := 0.0))
      && (c.loopMode != -1 && c.loopCount + 1 > c.loopMode ==>
            !b.restart && b.clock == c.(loopCount := c.loopCount + 1, playing := false))
  {
  }

  /** Without looping, or before the end, the loop policy changes nothing;
      with loop mode 0 a playing clock runs past any end. */
  lemma NoBoundary(c: Clock, dt: real, end: real)
    ensures c.loopMode == 0 || c.time <= end ==> LoopPolicy(c, end) == Boundary(c, false)
    ensures c.loopMode == 0 && c.playing ==> Tick(c, dt, end) == Boundary(Advance(c, dt), false)
    ensures c.loopMode == 0 && c.playing ==> Tick(c, dt, end).clock.time == c.time + dt
  {
  }

  /** With looping on and a non-negative end, a clock left past the end by
      a tick is no longer playing. */
  lemma LoopingStaysWithinEnd(c: Clock, dt: real, end: real)
    requires c.loopMode != 0 && end >= 0.0
    ensures var b := Tick(c, dt, end);
      b.clock.time > end ==> !b.clock.playing
  {
  }

  /** An infinite loop never stops playing by itself. */
  lemma InfiniteLoopKeepsPlaying(c: Clock, dt: real, end: real)
    requires c.loopMode == -1
    ensures Tick(c, dt, end).clock.playing == c.playing
  {
  }

  /** Loop mode 1 starts over once, then stops at the next crossing: the
      code compares the incremented count with `<=`. */
  lemma LoopOnceRestartsOnce(c: Clock, end: real)
    requires c.loopMode == 1 && c.loopCount == 0 && c.time > end
    ensures var b := LoopPolicy(c, end);
      && b.restart && b.clock.time == 0.0 && b.clock.loopCount == 1 && b.clock.playing == c.playing
      && forall t :: t > end ==> !LoopPolicy(b.clock.(time := t), end).clock.playing
  {
  }

  // ---------------------------------------------------------------------
  // Track sequences
  // ---------------------------------------------------------------------

  /** No track occurs twice. */
  predicate Unaliased(ts: seq<Track>)
  {
    forall i, j :: 0 <= i < j < |ts| ==> ts[i] != ts[j]
  }

  function StatesOf(ts: seq<Track>): (r: seq<TrackState>)
    reads set t | t in ts
    ensures |r| == |ts| && forall i :: 0 <= i < |ts| ==> r[i] == ts[i].State()
  {
    seq(|ts|, i reads set t | t in ts requires 0 <= i < |ts| => ts[i].State())
  }

  function EndsOf(ts: seq<Track>): (r: seq<real>)
    reads set t | t in ts
    ensures |r| == |ts| && forall i :: 0 <= i < |ts| ==> r[i] == ts[i].endTime
  {
    seq(|ts|, i reads set t | t in ts requires 0 <= i < |ts| => ts[i].endTime)
  }

  /** restartTracks on track states. */
  function RestartAll(ss: seq<TrackState>): seq<TrackState>
  {
    seq(|ss|, i requires 0 <= i < |ss| => RestartState(ss[i]))
  }

  /** Restarting every track keeps each valid and covered, leaves every key
      pending (and every live follow key), puts every recording cursor of a
      number or position track at 0, and restarting twice is restarting
      once. */
  lemma RestartAllFacts(ss: seq<TrackState>)
    requires forall i :: 0 <= i < |ss| ==> StateValid(ss[i]) && Covered(ss[i])
    ensures var r := RestartAll(ss);
      && |r| == |ss|
      && (forall i :: 0 <= i < |ss| ==> StateValid(r[i]) && Covered(r[i]))
      && (forall i, p, k :: 0 <= i < |ss| && p in r[i].keysMap && k in Live(r[i].keysMap[p]) ==>
            !k.hasStarted && !k.hasEnded)
      && (forall i :: 0 <= i < |ss| && ss[i].kind != KeyframeKind && ss[i].recording ==> r[i].nextTick == 0.0)
      && RestartAll(r) == r
  {
    var r := RestartAll(ss);
    forall i | 0 <= i < |ss|
      ensures StateValid(r[i]) && Covered(r[i]) && RestartState(r[i]) == r[i]
      ensures forall p, k :: p in r[i].keysMap && k in Live(r[i].keysMap[p]) ==> !k.hasStarted && !k.hasEnded
    {
      RestartStateFacts(ss[i]);
      RestartCovered(ss[i]);
    }
  }

  /** Restarting keeps every state valid and covered. */
  lemma RestartAllCovered(ss: seq<TrackState>)
    requires AllCovered(ss)
    ensures AllCovered(RestartAll(ss))
  {
    RestartAllFacts(ss);
  }

  /** Restarting keeps every live key's property on the target. */
  lemma RestartCovered(s: TrackState)
    requires StateValid(s) && Covered(s)
    ensures Covered(RestartState(s))
  {
    var r := RestartState(s);
    forall p, k | p in r.keysMap && k in Live(r.keysMap[p])
      ensures k.propertyName in r.target
    {
      var e := s.keysMap[p];
      assert Live(r.keysMap[p]) == ClearFlags(Live(e));
      ClearFlagsFacts(Live(e));
      var z :| 0 <= z < |ClearFlags(Live(e))| && ClearFlags(Live(e))[z] == k;
      assert Live(e)[z] in Live(e);
    }
  }

  /** The tracks whose flag in `removed` is off, in order. */
  function Survivors(ts: seq<Track>, removed: seq<bool>): (r: seq<Track>)
    requires |removed| == |ts|
    ensures |r| <= |ts|
  {
    if ts == [] then []
    else
      var n := |ts| - 1;
      Survivors(ts[..n], removed[..n]) + (if removed[n] then [] else [ts[n]])
  }

  /** Survivors come from the original sequence. */
  lemma {:induction false} SurvivorsFrom(ts: seq<Track>, removed: seq<bool>)
    requires |removed| == |ts|
    ensures forall t :: t in Survivors(ts, removed) ==> t in ts
  {
    if ts != [] {
      var n := |ts| - 1;
      SurvivorsFrom(ts[..n], removed[..n]);
      forall t | t in Survivors(ts[..n], removed[..n]) ensures t in ts {
        assert t in ts[..n];
      }
    }
  }

  /** In a sequence without repeats, a track survives exactly when it was
      not removed, and the survivors have no repeats either. */
  lemma {:induction false} SurvivorsExactly(ts: seq<Track>, removed: seq<bool>)
    requires |removed| == |ts| && Unaliased(ts)
    ensures var r := Survivors(ts, removed);
      && (forall i :: 0 <= i < |ts| ==> (ts[i] in r <==> !removed[i]))
      && Unaliased(r)
  {
    if ts != [] {
      var n := |ts| - 1;
      var prev := Survivors(ts[..n], removed[..n]);
      SurvivorsExactly(ts[..n], removed[..n]);
      SurvivorsFrom(ts[..n], removed[..n]);
      forall t | t in prev ensures t != ts[n] {
        assert t in ts[..n];
        var m :| 0 <= m < n && ts[..n][m] == t;
      }
      var r := Survivors(ts, removed);
      forall i | 0 <= i < n ensures ts[i] in r <==> !removed[i] {
        assert ts[..n][i] == ts[i] && removed[..n][i] == removed[i];
      }
      if !removed[n] {
        forall i, j | 0 <= i < j < |r| ensures r[i] != r[j] {
          if j == |prev| {
            assert r[i] in prev;
          } else {
            assert prev[i] != prev[j];
          }
        }
      }
    }
  }

  /** Nothing removed, everything survives. */
  lemma {:induction false} SurvivorsNone(ts: seq<Track>, removed: seq<bool>)
    requires |removed| == |ts| && forall i :: 0 <= i < |ts| ==> !removed[i]
    ensures Survivors(ts, removed) == ts
  {
    if ts != [] {
      var n := |ts| - 1;
      SurvivorsNone(ts[..n], removed[..n]);
      assert ts[..n] + [ts[n]] == ts;
    }
  }

  /** Removing the element at index i, as a single splice(i, 1) does. */
  function RemoveAt(ts: seq<Track>, i: nat): (r: seq<Track>)
    requires i < |ts|
    ensures |r| == |ts| - 1
    ensures forall j :: 0 <= j < i ==> r[j] == ts[j]
    ensures forall j :: i <= j < |r| ==> r[j] == ts[j + 1]
  {
    ts[..i] + ts[i + 1..]
  }

  /** With only the flag at i set, the survivors are the list with the
      i-th track spliced out once. */
  lemma {:induction false} SurvivorsOne(ts: seq<Track>, removed: seq<bool>, i: nat)
    requires |removed| == |ts| && i < |ts|
    requires forall j :: 0 <= j < |ts| ==> (removed[j] <==> j == i)
    ensures Survivors(ts, removed) == RemoveAt(ts, i)
  {
    var n := |ts| - 1;
    if i == n {
      SurvivorsNone(ts[..n], removed[..n]);
    } else {
      SurvivorsOne(ts[..n], removed[..n], i);
      assert RemoveAt(ts[..n], i) + [ts[n]] == RemoveAt(ts, i);
    }
  }

  /** JavaScript's `splice(start, 1)` on the track list: a negative start
      counts from the end (and from 0 past the front); a start at or past
      the end removes nothing. */
  function SpliceOne(ts: seq<Track>, start: int): (r: seq<Track>)
    ensures start >= |ts| ==> r == ts
    ensures 0 <= start < |ts| ==> r == RemoveAt(ts, start)
    ensures -|ts| <= start < 0 ==> r == RemoveAt(ts, |ts| + start)
  {
    var s := if start >= 0 then start else if |ts| + start >= 0 then |ts| + start else 0;
    if s < |ts| then RemoveAt(ts, s) else ts
  }

  /** The removals applyValues makes as written for the track at index i
      when `count` of its keys complete in the same call: each completion
      splices at i and steps i back. The result is the list and the index
      the pass goes on from. */
  function SplicesAsWritten(ts: seq<Track>, i: int, count: nat): (r: (seq<Track>, int))
    ensures r.1 == i - count
    ensures |ts| - count <= |r.0| <= |ts|
    decreases count
  {
    if count == 0 then (ts, i) else SplicesAsWritten(SpliceOne(ts, i), i - 1, count - 1)
  }

  /** One completion: as written, the owning track alone is spliced out,
      as the mark-and-compact model does. */
  lemma SplicesAsWrittenOnce(ts: seq<Track>, removed: seq<bool>, i: nat)
    requires |removed| == |ts| && i < |ts|
    requires forall j :: 0 <= j < |ts| ==> (removed[j] <==> j == i)
    ensures SplicesAsWritten(ts, i, 1).0 == Survivors(ts, removed)
  {
    SurvivorsOne(ts, removed, i);
  }

  /** Two keys of the second of two tracks completing in the same call
      remove both tracks as written, where only the second should go. */
  lemma SplicesAsWrittenTwice(t0: Track, t1: Track)
    ensures SplicesAsWritten([t0, t1], 1, 2).0 == []
    ensures Survivors([t0, t1], [false, true]) == [t0]
  {
    assert SpliceOne([t0, t1], 1) == [t0];
    assert Survivors([t0], [false]) == [t0] by {
      assert [t0][..0] == [];
    }
    assert [t0, t1][..1] == [t0];
  }

  // ---------------------------------------------------------------------
  // The per-tick pass
  // ---------------------------------------------------------------------

  /** The outcome of applyValues on track states: the new states, and which
      tracks are removed. */
  datatype Applied = Applied(states: seq<TrackState>, removed: seq<bool>)

  /** Every state is valid and its live keys' properties are on its target. */
  ghost predicate AllCovered(ss: seq<TrackState>)
  {
    forall i :: 0 <= i < |ss| ==> StateValid(ss[i]) && Covered(ss[i])
  }

  /** One track's step at the clock's time, for a covered track. */
  ghost function Stepped(c: Clock, end: Option<real>, s: TrackState, v: Vec3, ease: Ease): (TrackState, bool)
    requires StateValid(s) && Covered(s)
  {
    CoveredReady(s, c.time);
    StepState(s, c.time, end, v, ease)
  }

  /** applyValues on track states, each track stepped with its own reading:
      nothing happens unless the clock plays; with loop mode 0 a track one
      of whose keys completed is removed. */
  ghost function ApplyAll(c: Clock, end: Option<real>, ss: seq<TrackState>, readings: seq<Vec3>, ease: Ease): (r: Applied)
    requires |readings| == |ss| && AllCovered(ss)
    ensures |r.states| == |ss| && |r.removed| == |ss|
    ensures !c.playing ==> r.states == ss
    ensures !c.playing || c.loopMode != 0 ==> forall i :: 0 <= i < |ss| ==> !r.removed[i]
  {
    if !c.playing then Applied(ss, seq(|ss|, _ => false))
    else
      Applied(seq(|ss|, i requires 0 <= i < |ss| => Stepped(c, end, ss[i], readings[i], ease).0),
              seq(|ss|, i requires 0 <= i < |ss| => c.loopMode == 0 && Stepped(c, end, ss[i], readings[i], ease).1))
  }

  /** While playing, each track takes its own step, and with loop mode 0 a
      track goes exactly when it is a keyframe track one of whose live keys
      is evaluated in this pass and reaches eased progress 1, so a number
      or position track never goes. */
  lemma ApplyAllStep(c: Clock, end: Option<real>, ss: seq<TrackState>, readings: seq<Vec3>, ease: Ease, i: nat)
    requires |readings| == |ss| && AllCovered(ss) && i < |ss| && c.playing
    ensures Ready(ss[i], c.time)
    ensures var a := ApplyAll(c, end, ss, readings, ease);
      var st := StepState(ss[i], c.time, end, readings[i], ease);
      && a.states[i] == st.0
      && a.removed[i] == (c.loopMode == 0 && st.1)
      && a.removed[i] == (c.loopMode == 0 && ss[i].kind == KeyframeKind &&
                          PropsComplete(ss[i].keysMap, ss[i].order, c.time, ease))
      && (ss[i].kind != KeyframeKind ==> !a.removed[i])
  {
    CoveredReady(ss[i], c.time);
    StepStateComplete(ss[i], c.time, end, readings[i], ease);
  }

  /** The clock half of update() on values: the clock, the timeline's end
      and the track states after it. */
  datatype Ticked = Ticked(clock: Clock, endTime: Option<real>, states: seq<TrackState>)

  /** Advance, then (looping) find the end and apply the loop policy,
      restarting the tracks when it says so. `ends` are the tracks' ends and
      `end0` the timeline's end before the call. */
  function TickAll(c: Clock, dt: real, ends: seq<real>, end0: Option<real>, ss: seq<TrackState>): (r: Ticked)
    ensures |r.states| == |ss|
    ensures c.loopMode != 0 ==> r.endTime == Some(MaxOf(ends))
    ensures c.loopMode == 0 ==> r.endTime == end0 && r.clock == Advance(c, dt) && r.states == ss
  {
    var end := MaxOf(ends);
    var b := Tick(c, dt, end);
    Ticked(b.clock, if c.loopMode != 0 then Some(end) else end0, if b.restart then RestartAll(ss) else ss)
  }

  /** The clock half keeps every state valid and covered. */
  lemma TickAllCovered(c: Clock, dt: real, ends: seq<real>, end0: Option<real>, ss: seq<TrackState>)
    requires AllCovered(ss)
    ensures AllCovered(TickAll(c, dt, ends, end0, ss).states)
  {
    RestartAllCovered(ss);
  }

  /** The outcome of update(): the clock, the timeline's end, and the
      per-tick pass. */
  datatype Updated = Updated(clock: Clock, endTime: Option<real>, applied: Applied)

  /** update() on values: the clock half, then the per-tick pass. */
  ghost function UpdateAll(c: Clock, dt: real, ends: seq<real>, end0: Option<real>, ss: seq<TrackState>,
                           readings: seq<Vec3>, ease: Ease): (r: Updated)
    requires |readings| == |ss| && AllCovered(ss)
    ensures |r.applied.states| == |ss| && |r.applied.removed| == |ss|
    ensures c.loopMode != 0 ==> r.endTime == Some(MaxOf(ends))
    ensures c.loopMode == 0 ==> r.endTime == end0 && r.clock == Advance(c, dt)
  {
    var t := TickAll(c, dt, ends, end0, ss);
    TickAllCovered(c, dt, ends, end0, ss);
    Updated(t.clock, t.endTime, ApplyAll(t.clock, t.endTime, t.states, readings, ease))
  }

  /** Track `k`'s turn in applyValues at clock `c`: its step, and whether
      it is to be spliced out, as the pass on states has it. */
  method StepTrack(t: Track, ghost ss: seq<TrackState>, c: Clock, end: Option<real>,
                   readings: seq<Vec3>, ease: Ease, k: nat)
    returns (gone: bool)
    requires c.playing && |readings| == |ss| && AllCovered(ss) && k < |ss|
    requires t.Valid() && t.State() == ss[k]
    modifies t
    ensures t.Valid()
    ensures var a := ApplyAll(c, end, ss, readings, ease);
      t.State() == a.states[k] && gone == a.removed[k]
  {
    ApplyAllStep(c, end, ss, readings, ease, k);
    var complete := t.Step(c.time, end, readings[k], ease);
    gone := complete && c.loopMode == 0;
  }

  /** The track loop of applyValues while the clock `c` plays: every track
      takes its step with its own reading, and the flags say which are to
      be spliced out. */
  method StepTracks(ts: seq<Track>, ghost ss: seq<TrackState>, c: Clock, end: Option<real>,
                    readings: seq<Vec3>, ease: Ease)
    returns (removed: seq<bool>)
    requires c.playing && Unaliased(ts) && |readings| == |ts| && |ss| == |ts| && AllCovered(ss)
    requires forall j :: 0 <= j < |ts| ==> ts[j].Valid() && ts[j].State() == ss[j]
    modifies set t | t in ts
    ensures var a := ApplyAll(c, end, ss, readings, ease);
      && removed == a.removed
      && forall j :: 0 <= j < |ts| ==> ts[j].Valid() && ts[j].State() == a.states[j]
  {
    ghost var a := ApplyAll(c, end, ss, readings, ease);
    removed := [];
    var k := 0;
    while k < |ts|
      invariant 0 <= k <= |ts| && removed == a.removed[..k]
      invariant forall j :: 0 <= j < k ==> ts[j].Valid() && ts[j].State() == a.states[j]
      invariant forall j :: k <= j < |ts| ==> unchanged(ts[j])
    {
      var t := ts[k];
      assert forall j :: 0 <= j < |ts| && j != k ==> ts[j] != t;
      var gone := StepTrack(t, ss, c, end, readings, ease, k);
      assert a.removed[..k + 1] == removed + [gone];
      removed := removed + [gone];
      k := k + 1;
    }
  }

  // ---------------------------------------------------------------------
  // The timeline object
  // ---------------------------------------------------------------------

  class Timeline {
    var name: string
    var tracks: seq<Track>
    var time: real
    var totalTime: real
    var loopCount: int
    var loopMode: int
    var playing: bool
    /** Unset until findAnimationEnd first runs. */
    var endTime: Option<real>
    /** How many 'update' notifications were emitted. */
    var updates: nat

    function Status(): Clock
      reads this
    {
      Clock(time, totalTime, loopCount, loopMode, playing)
    }

    ghost predicate Valid()
      reads this, set t | t in tracks
    {
      Unaliased(tracks) && forall t :: t in tracks ==> t.Valid()
    }

    /** `new Timeline()`: named "Global", no tracks, at time 0, looping
        forever and playing. */
    constructor ()
      ensures Valid() && name == "Global" && tracks == [] && endTime == None && updates == 0
      ensures Status() == Clock(0.0, 0.0, 0, -1, true)
    {
      name := "Global";
      tracks := [];
      time := 0.0;
      totalTime := 0.0;
      loopCount := 0;
      loopMode := -1;
      playing := true;
      endTime := None;
      updates := 0;
    }

    /** A new track registers itself at the end of the timeline's tracks. */
    method AddTrack(t: Track)
      requires Valid() && t.Valid() && t !in tracks
      modifies this
      ensures Valid() && tracks == old(tracks) + [t]
      ensures Status() == old(Status()) && endTime == old(endTime) && updates == old(updates)
    {
      tracks := tracks + [t];
    }

    /** `loop(n)`: only the loop mode changes. */
    method Loop(n: int)
      modifies this
      ensures Status() == old(Status()).(loopMode := n)
      ensures tracks == old(tracks) && endTime == old(endTime) && updates == old(updates)
    {
      loopMode := n;
    }

    /** `pause()`: only `playing` changes. */
    method Pause()
      modifies this
      ensures Status() == old(Status()).(playing := false)
      ensures tracks == old(tracks) && endTime == old(endTime) && updates == old(updates)
    {
      playing := false;
    }

    /** `stop()`: not playing, back at time 0, every track restarted. */
    method Stop()
      requires Valid()
      modifies this, set t | t in tracks
      ensures Valid()
      ensures Status() == old(Status()).(playing := false, time := 0.0)
      ensures tracks == old(tracks) && endTime == old(endTime) && updates == old(updates)
      ensures StatesOf(tracks) == RestartAll(old(StatesOf(tracks)))
    {
      playing := false;
      time := 0.0;
      RestartTracks();
    }

    /** `play()`: a clock past the known end goes back to 0 with every
        track restarted; then it plays. */
    method Play()
      requires Valid()
      modifies this, set t | t in tracks
      ensures Valid()
      ensures var wrap := old(endTime).Some? && old(time) > old(endTime).value;
        && Status() == old(Status()).(time := if wrap then 0.0 else old(time), playing := true)
        && StatesOf(tracks) == if wrap then RestartAll(old(StatesOf(tracks))) else old(StatesOf(tracks))
      ensures tracks == old(tracks) && endTime == old(endTime) && updates == old(updates)
    {
      if endTime.Some? && time > endTime.value {
        time := 0.0;
        RestartTracks();
      }
      playing := true;
    }

    /** `findAnimationEnd()`: the largest track end, 0 without tracks,
        also stored as the timeline's end. */
    method FindAnimationEnd() returns (end: real)
      modifies this
      ensures end == MaxOf(old(EndsOf(tracks))) && endTime == Some(end)
      ensures Status() == old(Status()) && tracks == old(tracks) && updates == old(updates)
    {
      end := 0.0;
      var i := 0;
      while i < |tracks|
        invariant 0 <= i <= |tracks|
        invariant end == MaxOf(EndsOf(tracks)[..i])
      {
        assert EndsOf(tracks)[..i + 1][..i] == EndsOf(tracks)[..i];
        if tracks[i].endTime > end {
          end := tracks[i].endTime;
        }
        i := i + 1;
      }
      assert EndsOf(tracks)[..i] == EndsOf(tracks);
      endTime := Some(end);
    }

    /** `restartTracks()`: every track restarted, in place. */
    method RestartTracks()
      requires Valid()
      modifies set t | t in tracks
      ensures Valid()
      ensures StatesOf(tracks) == RestartAll(old(StatesOf(tracks)))
    {
      ghost var ss := StatesOf(tracks);
      var i := 0;
      while i < |tracks|
        invariant 0 <= i <= |tracks|
        invariant forall j :: 0 <= j < i ==> tracks[j].Valid() && tracks[j].State() == RestartState(ss[j])
        invariant forall j :: i <= j < |tracks| ==> unchanged(tracks[j])
      {
        assert forall j :: 0 <= j < |tracks| && j != i ==> tracks[j] != tracks[i];
        tracks[i].Restart();
        i := i + 1;
      }
      forall t | t in tracks ensures t.Valid() {
        var j :| 0 <= j < |tracks| && tracks[j] == t;
      }
    }

    /** `applyValues()`, track i reading `readings[i]`: nothing happens
        unless playing; otherwise every track takes its step in order, and
        with loop mode 0 a track one of whose keys completed is spliced out,
        once. The splices are made once every track has had its step. */
    method ApplyValues(readings: seq<Vec3>, ease: Ease)
      requires Valid() && |readings| == |tracks| && AllCovered(StatesOf(tracks))
      modifies this, set t | t in tracks
      ensures Valid()
      ensures var a := ApplyAll(old(Status()), old(endTime), old(StatesOf(tracks)), readings, ease);
        && StatesOf(old(tracks)) == a.states
        && tracks == Survivors(old(tracks), a.removed)
      ensures Status() == old(Status()) && endTime == old(endTime) && updates == old(updates)
    {
      if !playing {
        SurvivorsNone(tracks, seq(|tracks|, _ => false));
        return;
      }
      ghost var ts, ss := tracks, StatesOf(tracks);
      var removed := StepTracks(tracks, ss, Status(), endTime, readings, ease);
      assert StatesOf(ts) == ApplyAll(Status(), endTime, ss, readings, ease).states;
      Compact(removed);
    }

    /** Splice out the flagged tracks, keeping the others in order. */
    method Compact(removed: seq<bool>)
      requires |removed| == |tracks| && Unaliased(tracks) && forall j :: 0 <= j < |tracks| ==> tracks[j].Valid()
      modifies this
      ensures Valid() && tracks == Survivors(old(tracks), removed)
      ensures Status() == old(Status()) && endTime == old(endTime) && updates == old(updates)
    {
      ghost var ts := tracks;
      tracks := Survivors(tracks, removed);
      SurvivorsExactly(ts, removed);
      SurvivorsFrom(ts, removed);
      forall t | t in tracks ensures t.Valid() {
        var j :| 0 <= j < |ts| && ts[j] == t;
      }
    }

    /** The loop check of `update()`: against a freshly found end, a
        crossed boundary counts a loop and either rewinds to time 0, saying
        the tracks are to restart, or stops playing. */
    method CheckLoop() returns (restart: bool)
      modifies this
      ensures tracks == old(tracks) && updates == old(updates)
      ensures var end := MaxOf(old(EndsOf(tracks)));
        var b := LoopPolicy(old(Status()), end);
        Status() == b.clock && restart == b.restart && endTime == Some(end)
    {
      var end := FindAnimationEnd();
      restart := false;
      if loopMode != 0 && time > end {
        loopCount := loopCount + 1;
        if loopMode == -1 || loopCount <= loopMode {
          time := 0.0;
          restart := true;
        } else {
          playing := false;
        }
      }
    }

    /** The clock half of `update()`: advance while playing, then, when
        looping, the loop check, restarting the tracks when it says so. */
    method TickClock(dt: real)
      requires Valid()
      modifies this, set t | t in tracks
      ensures Valid() && tracks == old(tracks) && updates == old(updates)
      ensures Ticked(Status(), endTime, StatesOf(tracks))
           == TickAll(old(Status()), dt, old(EndsOf(tracks)), old(endTime), old(StatesOf(tracks)))
    {
      var restart := ClockStep(dt);
      if restart {
        RestartTracks();
      }
    }

    /** Advance while playing, then, when looping, the loop check. */
    method ClockStep(dt: real) returns (restart: bool)
      modifies this
      ensures tracks == old(tracks) && updates == old(updates)
      ensures var end := MaxOf(old(EndsOf(tracks)));
        var b := Tick(old(Status()), dt, end);
        && Status() == b.clock && restart == b.restart
        && endTime == (if old(loopMode) != 0 then Some(end) else old(endTime))
    {
      ghost var ends := EndsOf(tracks);
      if playing {
        totalTime := totalTime + dt;
        time := time + dt;
      }
      assert EndsOf(tracks) == ends;
      restart := false;
      if loopMode != 0 {
        restart := CheckLoop();
      }
    }

    /** `update(deltaTime)`: one more 'update' notification, then the clock
        advances, the loop policy runs against a freshly found end (when
        looping), and the per-tick pass follows. */
    method Update(dt: real, readings: seq<Vec3>, ease: Ease)
      requires Valid() && |readings| == |tracks| && AllCovered(StatesOf(tracks))
      modifies this, set t | t in tracks
      ensures Valid() && updates == old(updates) + 1
      ensures var u := UpdateAll(old(Status()), dt, old(EndsOf(tracks)), old(endTime), old(StatesOf(tracks)), readings, ease);
        && Status() == u.clock && endTime == u.endTime
        && StatesOf(old(tracks)) == u.applied.states
        && tracks == Survivors(old(tracks), u.applied.removed)
    {
      updates := updates + 1;
      assert EndsOf(tracks) == old(EndsOf(tracks)) && StatesOf(tracks) == old(StatesOf(tracks));
      TickAllCovered(Status(), dt, EndsOf(tracks), endTime, StatesOf(tracks));
      TickClock(dt);
      ApplyValues(readings, ease);
    }
  }
}
