/** Segment toggles of the daemon's sessions (src/daemon/daemon.go). A session's toggle map shows a
    name as on only when it maps it to true: flipping a name off deletes it, but a map seeded from
    the shared cache may also hold names mapped to false. */
module SegmentToggles {
  import opened EngineRegistry

  type Toggles = map<string, bool>

  predicate IsOn(m: Toggles, name: string) { name in m && m[name] }

  function Flip(m: Toggles, name: string): Toggles {
    if IsOn(m, name) then m - {name} else m[name := true]
  }

  /** ToggleSegment's loop over the names. */
  function Flipped(m: Toggles, names: seq<string>): Toggles {
    if names == [] then m else Flip(Flipped(m, names[..|names| - 1]), names[|names| - 1])
  }

  function Times(names: seq<string>, name: string): nat {
    if names == [] then 0 else Times(names[..|names| - 1], name) + (if names[|names| - 1] == name then 1 else 0)
  }

  /** Exactly the names that occur an odd number of times are flipped. */
  lemma {:induction false} FlipsOddNames(m: Toggles, names: seq<string>, name: string)
    ensures IsOn(Flipped(m, names), name) <==> (IsOn(m, name) != (Times(names, name) % 2 == 1))
    ensures name !in names ==> (name in Flipped(m, names) <==> name in m)
    ensures name !in names && name in m ==> Flipped(m, names)[name] == m[name]
    ensures name in names && name in Flipped(m, names) ==> Flipped(m, names)[name]
  {
    if names != [] {
      var front := names[..|names| - 1];
      FlipsOddNames(m, front, name);
      assert names == front + [names[|names| - 1]];
    }
  }

  /** A list applied twice shows the same segments again, and leaves the same map exactly when no
      listed name was stored as false. */
  lemma TwiceIsIdentityIff(m: Toggles, names: seq<string>)
    ensures forall name :: IsOn(Flipped(Flipped(m, names), names), name) <==> IsOn(m, name)
    ensures Flipped(Flipped(m, names), names) == m <==> forall name :: name in names && name in m ==> m[name]
  {
    var once := Flipped(m, names);
    var twice := Flipped(once, names);
    forall name: string
      ensures IsOn(twice, name) <==> IsOn(m, name)
      ensures name !in names ==> (name in twice <==> name in m) && (name in m ==> twice[name] == m[name])
      ensures name in names && name in twice ==> twice[name]
    {
      FlipsOddNames(m, names, name);
      FlipsOddNames(once, names, name);
    }
    if forall name :: name in names && name in m ==> m[name] {
      forall name: string ensures name in twice <==> name in m
      {
        if name in names {
          assert IsOn(twice, name) <==> IsOn(m, name);
        }
      }
      assert twice == m;
    }
  }

  // ---------------------------------------------------------------- lock sections

  datatype State = State(sessions: map<Session, Toggles>, seeded: Toggles)

  /** SessionToggles, once it has read `base` from the cache: the first seed wins. */
  function Seed(s: State, x: Session, base: Toggles): State {
    if x in s.sessions then s else s.(sessions := s.sessions[x := base])
  }

  /** The locked part of ToggleSegment. */
  function Toggle(s: State, x: Session, names: seq<string>): State {
    s.(sessions := s.sessions[x := Flipped(if x in s.sessions then s.sessions[x] else map[], names)])
  }

  /** What the config gained since the last sync. */
  function Added(seeded: Toggles, current: Toggles): set<string> {
    set n | n in current && IsOn(current, n) && !IsOn(seeded, n)
  }

  function AllOn(names: set<string>): Toggles { map n | n in names :: true }

  function Sync(s: State, current: Toggles): State {
    var on := AllOn(Added(s.seeded, current));
    State(map x | x in s.sessions :: s.sessions[x] + on, s.seeded + on)
  }

  /** A session's entry for a name, or its absence, is the same in both maps. */
  predicate SameEntry(m: Toggles, n: Toggles, name: string) {
    (name in n <==> name in m) && (name in m ==> n[name] == m[name])
  }

  /** A sync is an addition: it keeps the sessions, and every entry of theirs but those of the names
      the config newly has on; these it turns on, and records along with what was recorded. */
  lemma SyncOnlyAdds(s: State, current: Toggles)
    ensures Sync(s, current).sessions.Keys == s.sessions.Keys
    ensures forall x, name :: x in s.sessions && !(IsOn(current, name) && !IsOn(s.seeded, name)) ==>
              SameEntry(s.sessions[x], Sync(s, current).sessions[x], name)
    ensures forall x, name :: x in s.sessions && IsOn(current, name) && !IsOn(s.seeded, name) ==>
              IsOn(Sync(s, current).sessions[x], name)
    ensures forall name :: IsOn(Sync(s, current).seeded, name) <==> IsOn(s.seeded, name) || IsOn(current, name)
  {
    forall name: string ensures IsOn(Sync(s, current).seeded, name) <==> IsOn(s.seeded, name) || IsOn(current, name) {
    }
  }

  lemma NothingAdded(s: State, current: Toggles)
    requires Added(s.seeded, current) == {}
    ensures Sync(s, current) == s
  {
    forall x | x in s.sessions ensures Sync(s, current).sessions[x] == s.sessions[x] {
    }
    assert Sync(s, current).sessions == s.sessions;
  }

  class SegmentToggles {
    var segmentToggles: map<Session, Toggles>
    var seededToggles: Toggles

    function Abstract(): State
      reads this
    {
      State(segmentToggles, seededToggles)
    }

    /** The snapshot is the toggle cache when the daemon starts. */
    constructor (snapshot: Toggles)
      ensures Abstract() == State(map[], snapshot)
    {
      segmentToggles, seededToggles := map[], snapshot;
    }

    method SessionToggles(x: Session, baseToggles: Toggles) returns (toggles: Toggles)
      modifies this
      ensures Abstract() == Seed(old(Abstract()), x, baseToggles)
      ensures x in segmentToggles && toggles == segmentToggles[x]
      ensures toggles == if x in old(segmentToggles) then old(segmentToggles)[x] else baseToggles
      ensures segmentToggles.Keys == old(segmentToggles).Keys + {x} && seededToggles == old(seededToggles)
      ensures forall y :: y in old(segmentToggles) ==> segmentToggles[y] == old(segmentToggles)[y]
    {
      if x in segmentToggles {
        return segmentToggles[x];
      }
      segmentToggles := segmentToggles[x := baseToggles];
      return baseToggles;
    }

    /** Each name that occurs an odd number of times is flipped, and no other. */
    method ToggleSegment(x: Session, names: seq<string>, baseToggles: Toggles)
      modifies this
      ensures Abstract() == Toggle(Seed(old(Abstract()), x, baseToggles), x, names)
      ensures x in segmentToggles
      ensures forall name :: IsOn(segmentToggles[x], name) <==>
                (IsOn(if x in old(segmentToggles) then old(segmentToggles)[x] else baseToggles, name)
                 != (Times(names, name) % 2 == 1))
      ensures segmentToggles.Keys == old(segmentToggles).Keys + {x} && seededToggles == old(seededToggles)
      ensures forall y :: y in old(segmentToggles) && y != x ==> segmentToggles[y] == old(segmentToggles)[y]
    {
      var toggles := SessionToggles(x, baseToggles);
      var current := if x in segmentToggles then segmentToggles[x] else map[];
      ghost var before := current;
      var i := 0;
      while i < |names|
        invariant 0 <= i <= |names|
        invariant current == Flipped(before, names[..i])
      {
        assert names[..i + 1][..i] == names[..i];
        if names[i] in current && current[names[i]] {
          current := current - {names[i]};
        } else {
          current := current[names[i] := true];
        }
        i := i + 1;
      }
      assert names[..i] == names;
      segmentToggles := segmentToggles[x := current];
      forall name: string
        ensures IsOn(current, name) <==> (IsOn(before, name) != (Times(names, name) % 2 == 1))
      {
        FlipsOddNames(before, names, name);
      }
    }

    /** The first section of completeRender: a session takes its toggles with it. */
    method DropSession(x: Session)
      modifies this
      ensures segmentToggles == old(segmentToggles) - {x} && seededToggles == old(seededToggles)
    {
      segmentToggles := segmentToggles - {x};
    }

    method ResetToggles()
      modifies this
      ensures Abstract() == State(map[], map[])
    {
      segmentToggles, seededToggles := map[], map[];
    }

    /** A daemon without a config path has nothing to sync. */
    method SyncConfigToggles(hasConfig: bool, current: Toggles)
      modifies this
      ensures Abstract() == if hasConfig then Sync(old(Abstract()), current) else old(Abstract())
      ensures segmentToggles.Keys == old(segmentToggles).Keys
      ensures forall x, name :: x in segmentToggles && !(hasConfig && IsOn(current, name) && !IsOn(old(seededToggles), name)) ==>
                SameEntry(old(segmentToggles)[x], segmentToggles[x], name)
      ensures forall x, name :: x in segmentToggles && hasConfig && IsOn(current, name) && !IsOn(old(seededToggles), name) ==>
                IsOn(segmentToggles[x], name)
    {
      if !hasConfig {
        assert segmentToggles == old(segmentToggles);
        return;
      }
      SyncOnlyAdds(old(Abstract()), current);
      var added := CollectAdded(current);
      if added == {} {
        NothingAdded(old(Abstract()), current);
        return;
      }
      var rest := segmentToggles.Keys;
      while rest != {}
        invariant rest <= segmentToggles.Keys == old(segmentToggles).Keys
        invariant seededToggles == old(seededToggles) + AllOn(added)
        invariant forall x :: x in segmentToggles ==>
                    segmentToggles[x] == if x in rest then old(segmentToggles)[x] else old(segmentToggles)[x] + AllOn(added)
        decreases rest
      {
        var x :| x in rest;
        var toggles := Pushed(segmentToggles[x], added);
        segmentToggles := segmentToggles[x := toggles];
        rest := rest - {x};
      }
    }

    /** The loop over the cache. */
    method CollectAdded(current: Toggles) returns (added: set<string>)
      modifies this`seededToggles
      ensures added == Added(old(seededToggles), current)
      ensures seededToggles == old(seededToggles) + AllOn(added)
    {
      added := {};
      var rest := current.Keys;
      while rest != {}
        invariant rest <= current.Keys
        invariant added == Added(old(seededToggles), current) - rest
        invariant seededToggles == old(seededToggles) + AllOn(added)
        decreases rest
      {
        var name :| name in rest;
        if current[name] && !(name in seededToggles && seededToggles[name]) {
          added := added + {name};
          seededToggles := seededToggles[name := true];
        }
        rest := rest - {name};
      }
    }
  }

  /** The loop over what was added, for one session. */
  method Pushed(toggles: Toggles, added: set<string>) returns (pushed: Toggles)
    ensures pushed == toggles + AllOn(added)
  {
    pushed := toggles;
    var rest := added;
    while rest != {}
      invariant rest <= added && pushed == toggles + AllOn(added - rest)
      decreases rest
    {
      var name :| name in rest;
      pushed := pushed[name := true];
      rest := rest - {name};
    }
  }

  // ---------------------------------------------------------------- all runs

  /** A session that goes away, and a reset, take their maps with them. What a reader found in the
      cache may be out of date by the time it holds the lock. */
  datatype Step =
    | SeedSession(x: Session, base: Toggles)
    | ToggleNames(x: Session, names: seq<string>)
    | SyncConfig(current: Toggles)
    | Drop(x: Session)
    | Reset

  /** `pushes` counts how often each name was pushed to the sessions since the last reset. */
  datatype Run = Run(state: State, pushes: multiset<string>)

  function Apply(r: Run, t: Step): Run {
    match t
    case SeedSession(x, base) => Run(Seed(r.state, x, base), r.pushes)
    case ToggleNames(x, names) => Run(Toggle(r.state, x, names), r.pushes)
    case SyncConfig(current) => Run(Sync(r.state, current), r.pushes + multiset(Added(r.state.seeded, current)))
    case Drop(x) => Run(r.state.(sessions := r.state.sessions - {x}), r.pushes)
    case Reset => Run(State(map[], map[]), multiset{})
  }

  function After(r: Run, ts: seq<Step>): Run
    decreases |ts|
  {
    if ts == [] then r else After(Apply(r, ts[0]), ts[1..])
  }

  ghost predicate PushedOnce(r: Run) {
    forall name: string :: r.pushes[name] <= 1 && (r.pushes[name] > 0 ==> IsOn(r.state.seeded, name))
  }

  /** Between two resets each name is pushed at most once, whatever the cache says in between. */
  lemma {:induction false} EachNameIsPushedOnce(r: Run, ts: seq<Step>)
    requires PushedOnce(r)
    ensures PushedOnce(After(r, ts))
    decreases |ts|
  {
    if ts != [] {
      EachNameIsPushedOnce(Apply(r, ts[0]), ts[1..]);
    }
  }

  /** The step neither resets, nor toggles the name in the session, nor ends the session. */
  predicate Leaves(t: Step, x: Session, name: string) {
    && !t.Reset?
    && (t.Drop? ==> t.x != x)
    && (t.ToggleNames? ==> t.x != x || name !in t.names)
  }

  /** A name the user cleared after it was synced is not resurrected by any later reload. */
  lemma {:induction false} ClearedAfterSyncStaysOff(r: Run, ts: seq<Step>, x: Session, name: string)
    requires IsOn(r.state.seeded, name) && x in r.state.sessions && !IsOn(r.state.sessions[x], name)
    requires forall t :: t in ts ==> Leaves(t, x, name)
    ensures x in After(r, ts).state.sessions && !IsOn(After(r, ts).state.sessions[x], name)
    decreases |ts|
  {
    if ts != [] {
      var t := ts[0];
      assert Leaves(t, x, name);
      if t.ToggleNames? && t.x == x {
        FlipsOddNames(r.state.sessions[x], t.names, name);
        NeverListed(t.names, name);
      }
      ClearedAfterSyncStaysOff(Apply(r, t), ts[1..], x, name);
    }
  }

  /** A name that a session has on stays on through any syncs and seeds, until the session toggles it
      or goes away. */
  lemma {:induction false} OnStaysOn(r: Run, ts: seq<Step>, x: Session, name: string)
    requires x in r.state.sessions && IsOn(r.state.sessions[x], name)
    requires forall t :: t in ts ==> Leaves(t, x, name)
    ensures x in After(r, ts).state.sessions && IsOn(After(r, ts).state.sessions[x], name)
    decreases |ts|
  {
    if ts != [] {
      var t := ts[0];
      assert Leaves(t, x, name);
      if t.ToggleNames? && t.x == x {
        FlipsOddNames(r.state.sessions[x], t.names, name);
        NeverListed(t.names, name);
      }
      if t.SyncConfig? { SyncOnlyAdds(r.state, t.current); }
      OnStaysOn(Apply(r, t), ts[1..], x, name);
    }
  }

  /** Toggling, seeding or dropping a session leaves the maps of the others alone. */
  lemma SessionsKeepApart(r: Run, t: Step, x: Session)
    requires !t.SyncConfig? && !t.Reset? && t.x != x
    ensures x in Apply(r, t).state.sessions <==> x in r.state.sessions
    ensures x in r.state.sessions ==> Apply(r, t).state.sessions[x] == r.state.sessions[x]
    ensures Apply(r, t).state.seeded == r.state.seeded
  {
  }

  lemma {:induction false} NeverListed(names: seq<string>, name: string)
    requires name !in names
    ensures Times(names, name) == 0
  {
    if names != [] {
      NeverListed(names[..|names| - 1], name);
    }
  }

  /** A sync turns a name on in a session that has it off exactly when the config has it on and no
      sync since the last reset, nor the start of the daemon, has recorded it. */
  lemma SyncTurnsOnIff(s: State, current: Toggles, x: Session, name: string)
    requires x in s.sessions && !IsOn(s.sessions[x], name)
    ensures x in Sync(s, current).sessions
    ensures IsOn(Sync(s, current).sessions[x], name) <==> IsOn(current, name) && !IsOn(s.seeded, name)
  {
  }

  /** So a name the user cleared before its sync comes back: the session was seeded from a cache
      that already had the config's new name. */
  lemma ClearedBeforeSyncComesBack(x: Session, name: string)
    ensures var r := After(Run(State(map[], map[]), multiset{}),
                           [SeedSession(x, map[name := true]), ToggleNames(x, [name])]);
            && x in r.state.sessions && !IsOn(r.state.sessions[x], name)
            && x in Apply(r, SyncConfig(map[name := true])).state.sessions
            && IsOn(Apply(r, SyncConfig(map[name := true])).state.sessions[x], name)
  {
    var r0 := Run(State(map[], map[]), multiset{});
    var seeds := SeedSession(x, map[name := true]);
    var clears := ToggleNames(x, [name]);
    var ts := [seeds, clears];
    var rest := ts[1..];
    assert rest[0] == clears && rest[1..] == [];
    var r1 := Apply(r0, seeds);
    var r2 := Apply(r1, clears);
    assert After(r0, ts) == After(r1, rest) == r2;
    FlipsOddNames(r1.state.sessions[x], [name], name);
    assert [name][..0] == [];
    assert Times([name], name) == 1;
    SyncTurnsOnIff(r2.state, map[name := true], x, name);
  }
}
