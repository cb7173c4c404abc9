// The fluent animation builder of Anim.js: to() reads a loosely typed
// argument list by position and type and appends one group of timed
// entries; onStart()/onEnd() give the last group a handler that fires at
// most once for the whole group.

module Anims {
  import opened Keys

  /** An easing function passed to to(): the default Linear.EaseNone, or
      some other function, known by an identity. */
  datatype Easing = LinearEaseNone | Custom(id: nat)

  /** One argument of to(), by its JavaScript type. An object is its own
      enumerable properties in for..in order; `typeof null` is "object" too;
      strings, booleans and undefined are all `Other`. */
  datatype Arg =
    | Number(n: real)
    | Object(props: seq<(string, Value)>)
    | Null
    | Function(easing: Easing)
    | Other

  /** What to() makes of its arguments. */
  datatype ToArgs = ToArgs(delay: real, props: seq<(string, Value)>, duration: real, easing: Easing)

  /** The reading of to()'s arguments: an optional leading number is the
      delay (default 0), then an object is the properties (default none),
      then a number is the duration (default 1), then a function is the
      easing (default Linear.EaseNone); each is taken only in its turn. */
  function Parsed(args: seq<Arg>): ToArgs
  {
    var delayed := |args| > 0 && args[0].Number?;
    var delay := if delayed then args[0].n else 0.0;
    var a1 := if delayed then args[1..] else args;
    var hasProps := |a1| > 0 && (a1[0].Object? || a1[0].Null?);
    var props := if hasProps && a1[0].Object? then a1[0].props else [];
    var a2 := if hasProps then a1[1..] else a1;
    var timed := |a2| > 0 && a2[0].Number?;
    var duration := if timed then a2[0].n else 1.0;
    var a3 := if timed then a2[1..] else a2;
    var easing := if |a3| > 0 && a3[0].Function? then a3[0].easing else LinearEaseNone;
    ToArgs(delay, props, duration, easing)
  }

  /** The full argument list that spells `t` out. */
  function Spelled(t: ToArgs): seq<Arg>
  {
    [Number(t.delay), Object(t.props), Number(t.duration), Function(t.easing)]
  }

  /** Spelled out in full, every part is read back as written, whatever
      follows. */
  lemma ParsedSpelled(t: ToArgs, rest: seq<Arg>)
    ensures Parsed(Spelled(t) + rest) == t
  {
  }

  /** With no arguments every default applies. */
  lemma ParsedDefaults()
    ensures Parsed([]) == ToArgs(0.0, [], 1.0, LinearEaseNone)
  {
  }

  /** A lone number is the delay, not the duration. */
  lemma ParsedLoneNumber(x: real)
    ensures Parsed([Number(x)]) == ToArgs(x, [], 1.0, LinearEaseNone)
  {
  }

  /** Properties first: no delay, and the number after them is the
      duration. */
  lemma ParsedWithoutDelay(props: seq<(string, Value)>, d: real)
    ensures Parsed([Object(props), Number(d)]) == ToArgs(0.0, props, d, LinearEaseNone)
  {
  }

  /** An argument out of its turn is ignored: properties after the easing
      are dropped, and null stands for no properties. */
  lemma ParsedOutOfTurn(e: Easing, props: seq<(string, Value)>, d: real)
    ensures Parsed([Function(e), Object(props)]) == ToArgs(0.0, [], 1.0, e)
    ensures Parsed([Null, Number(d)]) == ToArgs(0.0, [], d, LinearEaseNone)
  {
  }

  /** The `called` flag one onStart()/onEnd() call shares among the
      handlers it installs. */
  class Guard {
    var called: bool

    constructor()
      ensures !called
    {
      called := false;
    }
  }

  /** An entry's onStart/onEnd: the no-op, or a callback behind a shared
      guard. */
  datatype Handler = Nop | Once(guard: Guard, callback: nat)

  /** Running a handler: a guarded callback runs only while its guard is
      down, and raises it. The result is the callback that ran, if any. */
  method Fire(h: Handler) returns (ran: Option<nat>)
    modifies if h.Once? then {h.guard} else {}
    ensures h.Nop? ==> ran == None
    ensures h.Once? ==> h.guard.called && ran == (if old(h.guard.called) then None else Some(h.callback))
  {
    ran := None;
    if h.Once? && !h.guard.called {
      h.guard.called := true;
      ran := Some(h.callback);
    }
  }

  /** Any number of runs of handlers sharing one guard, in any order: the
      callback runs at most once, on the first run, and only if the guard
      was still down. */
  method FireAll(hs: seq<Handler>, shared: Guard) returns (ran: seq<nat>)
    requires forall i :: 0 <= i < |hs| ==> hs[i].Once? && hs[i].guard == shared
    modifies shared
    ensures |ran| <= 1
    ensures ran == if old(shared.called) || hs == [] then [] else [hs[0].callback]
    ensures shared.called == (old(shared.called) || hs != [])
  {
    ran := [];
    var i := 0;
    while i < |hs|
      invariant 0 <= i <= |hs|
      invariant ran == if old(shared.called) || i == 0 then [] else [hs[0].callback]
      invariant shared.called == (old(shared.called) || i > 0)
    {
      var r := Fire(hs[i]);
      if r.Some? {
        ran := ran + [r.value];
      }
      i := i + 1;
    }
  }

  /** One timed entry made by to(). */
  class AnimEntry {
    const targetName: string
    const target: Props
    const propertyName: string
    const endValue: Value
    const delay: real
    const startTime: real
    const endTime: real
    const easing: Easing
    var hasStarted: bool
    var onStart: Handler
    var onEnd: Handler

    constructor(targetName: string, target: Props, propertyName: string, endValue: Value,
                delay: real, startTime: real, endTime: real, easing: Easing)
      ensures this.targetName == targetName && this.target == target
      ensures this.propertyName == propertyName && this.endValue == endValue
      ensures this.delay == delay && this.startTime == startTime && this.endTime == endTime
      ensures this.easing == easing
      ensures !hasStarted && onStart == Nop && onEnd == Nop
    {
      this.targetName := targetName;
      this.target := target;
      this.propertyName := propertyName;
      this.endValue := endValue;
      this.delay := delay;
      this.startTime := startTime;
      this.endTime := endTime;
      this.easing := easing;
      hasStarted := false;
      onStart := Nop;
      onEnd := Nop;
    }
  }

  /** The entries of `group` that to() made for `name`/`target` from `p`,
      all starting at `start`. */
  ghost predicate MadeFrom(group: seq<AnimEntry>, p: ToArgs, start: real, name: string, target: Props)
    reads set e | e in group
  {
    && |group| == |p.props|
    && forall i :: 0 <= i < |group| ==>
         && group[i].targetName == name && group[i].target == target
         && group[i].propertyName == p.props[i].0 && group[i].endValue == p.props[i].1
         && group[i].delay == p.delay && group[i].easing == p.easing
         && group[i].startTime == start && group[i].endTime == start + p.duration
         && !group[i].hasStarted && group[i].onStart == Nop && group[i].onEnd == Nop
  }

  /** Install a fresh shared guard with `callback` as the onStart (or, when
      `atStart` is false, the onEnd) handler of every entry of `group`. */
  method InstallOnce(group: seq<AnimEntry>, callback: nat, atStart: bool) returns (shared: Guard)
    modifies set e | e in group
    ensures fresh(shared) && !shared.called
    ensures forall e :: e in group ==>
      if atStart then e.onStart == Once(shared, callback) && e.onEnd == old(e.onEnd)
      else e.onEnd == Once(shared, callback) && e.onStart == old(e.onStart)
    ensures forall e :: e in group ==> e.hasStarted == old(e.hasStarted)
  {
    shared := new Guard();
    var i := 0;
    while i < |group|
      invariant 0 <= i <= |group|
      invariant fresh(shared) && !shared.called
      invariant forall j :: 0 <= j < i ==>
        if atStart then group[j].onStart == Once(shared, callback) else group[j].onEnd == Once(shared, callback)
      invariant forall e :: e in group ==> e.hasStarted == old(e.hasStarted)
      invariant forall e :: e in group && !atStart ==> e.onStart == old(e.onStart)
      invariant forall e :: e in group && atStart ==> e.onEnd == old(e.onEnd)
    {
      if atStart {
        group[i].onStart := Once(shared, callback);
      } else {
        group[i].onEnd := Once(shared, callback);
      }
      i := i + 1;
    }
  }

  /** The loop of to(): a fresh entry per property of `p`, in order, each
      pushed onto the timeline's entries `anims` as well. */
  method MakeGroup(name: string, target: Props, p: ToArgs, start: real, anims: seq<AnimEntry>)
    returns (group: seq<AnimEntry>, anims': seq<AnimEntry>)
    ensures MadeFrom(group, p, start, name, target)
    ensures forall e :: e in group ==> fresh(e)
    ensures anims' == anims + group
  {
    group := [];
    anims' := anims;
    var i := 0;
    while i < |p.props|
      invariant 0 <= i <= |p.props| && |group| == i && anims' == anims + group
      invariant forall e :: e in group ==> fresh(e)
      invariant forall j :: 0 <= j < i ==>
        && group[j].targetName == name && group[j].target == target
        && group[j].propertyName == p.props[j].0 && group[j].endValue == p.props[j].1
        && group[j].delay == p.delay && group[j].easing == p.easing
        && group[j].startTime == start && group[j].endTime == start + p.duration
        && !group[j].hasStarted && group[j].onStart == Nop && group[j].onEnd == Nop
    {
      var e := new AnimEntry(name, target, p.props[i].0, p.props[i].1, p.delay, start, start + p.duration, p.easing);
      anims' := anims' + [e];
      group := group + [e];
      i := i + 1;
    }
  }

  class Anim {
    var startTime: real
    var endTime: real
    var time: real
    var hasStarted: bool
    var hasEnded: bool
    const name: string
    const target: Props
    var animGroups: seq<seq<AnimEntry>>
    var onUpdateCallback: Option<nat>

    /** `new Anim(name, target, timeline)`: at time 0, ending at 0, with no
        groups and no update callback. */
    constructor(name: string, target: Props)
      ensures startTime == 0.0 && endTime == 0.0 && time == 0.0
      ensures !hasStarted && !hasEnded
      ensures this.name == name && this.target == target
      ensures animGroups == [] && onUpdateCallback == None
    {
      startTime := 0.0;
      endTime := 0.0;
      time := 0.0;
      hasStarted := false;
      hasEnded := false;
      this.name := name;
      this.target := target;
      animGroups := [];
      onUpdateCallback := None;
    }

    /** The group the last to() call made; empty when there is none. */
    function LastGroup(): seq<AnimEntry>
      reads this
    {
      if animGroups == [] then [] else animGroups[|animGroups| - 1]
    }

    /** `to(...args)` at timeline time `now`, `anims` being the timeline's
        entries: one group is appended, holding a fresh entry per property
        in order, all starting `delay` after the end of what was built so
        far and lasting `duration`; the same entries are appended to the
        timeline's list; the end moves on by `delay + duration`. */
    method To(args: seq<Arg>, now: real, anims: seq<AnimEntry>) returns (anims': seq<AnimEntry>)
      modifies this
      ensures var p := Parsed(args);
        && |animGroups| == |old(animGroups)| + 1
        && animGroups[..|old(animGroups)|] == old(animGroups)
        && endTime == old(endTime) + p.delay + p.duration
        && var group := animGroups[|old(animGroups)|];
        && MadeFrom(group, p, now + p.delay + old(endTime), name, target)
        && (forall e :: e in group ==> fresh(e))
        && anims' == anims + group
      ensures startTime == old(startTime) && time == old(time)
      ensures hasStarted == old(hasStarted) && hasEnded == old(hasEnded)
      ensures onUpdateCallback == old(onUpdateCallback)
    {
      var rest := args;
      var delay := 0.0;
      if |rest| > 0 && rest[0].Number? {
        delay := rest[0].n;
        rest := rest[1..];
      }
      var props: seq<(string, Value)> := [];
      if |rest| > 0 && (rest[0].Object? || rest[0].Null?) {
        if rest[0].Object? {
          props := rest[0].props;
        }
        rest := rest[1..];
      }
      var duration := 1.0;
      if |rest| > 0 && rest[0].Number? {
        duration := rest[0].n;
        rest := rest[1..];
      }
      var easing := LinearEaseNone;
      if |rest| > 0 && rest[0].Function? {
        easing := rest[0].easing;
      }
      var p := ToArgs(delay, props, duration, easing);
      assert p == Parsed(args);

      var group;
      group, anims' := MakeGroup(name, target, p, now + delay + endTime, anims);
      animGroups := animGroups + [group];
      endTime := endTime + delay + duration;
    }

    /** `onStart(callback)`: with no group, nothing changes; otherwise every
        entry of the last group gets one shared fire-once handler. */
    method OnStart(callback: nat)
      modifies set e | e in LastGroup()
      ensures LastGroup() != [] ==>
        && LastGroup()[0].onStart.Once?
        && var shared := LastGroup()[0].onStart.guard;
        && fresh(shared) && !shared.called
        && forall e :: e in LastGroup() ==> e.onStart == Once(shared, callback) && e.onEnd == old(e.onEnd)
      ensures forall e :: e in LastGroup() ==> e.hasStarted == old(e.hasStarted)
    {
      if animGroups == [] {
        return;
      }
      var shared := InstallOnce(animGroups[|animGroups| - 1], callback, true);
    }

    /** `onUpdate(callback)`: the callback is recorded; nothing else changes. */
    method OnUpdate(callback: nat)
      modifies this
      ensures onUpdateCallback == Some(callback)
      ensures startTime == old(startTime) && endTime == old(endTime) && time == old(time)
      ensures hasStarted == old(hasStarted) && hasEnded == old(hasEnded)
      ensures animGroups == old(animGroups)
    {
      onUpdateCallback := Some(callback);
    }

    /** `onEnd(callback)`: with no group, nothing changes; otherwise every
        entry of the last group gets one shared fire-once handler. */
    method OnEnd(callback: nat)
      modifies set e | e in LastGroup()
      ensures LastGroup() != [] ==>
        && LastGroup()[0].onEnd.Once?
        && var shared := LastGroup()[0].onEnd.guard;
        && fresh(shared) && !shared.called
        && forall e :: e in LastGroup() ==> e.onEnd == Once(shared, callback) && e.onStart == old(e.onStart)
      ensures forall e :: e in LastGroup() ==> e.hasStarted == old(e.hasStarted)
    {
      if animGroups == [] {
        return;
      }
      var shared := InstallOnce(animGroups[|animGroups| - 1], callback, false);
    }
  }
}
