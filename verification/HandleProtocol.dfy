/** Every interleaving of the threads that own render handles (src/daemon/daemon.go,
    render_pipeline.go): the StartRender call of each session (one at a time), the threads that
    took a handle out of the daemon's table to complete it, and reloads. What a call does to a
    handle's `once` and to the gate is a step of `GateProtocol`, so whatever that proves holds here. */
module HandleProtocol {
  import opened EngineRegistry
  import opened RenderTable
  import opened Wrappers
  import Gate = GateProtocol

  /** Where a StartRender call is; `superseded` is the handle a soft cancel found in the table. */
  datatype Call =
    | Retiring(retired: nat)                                  // in retire.Complete()
    | Admitting(superseded: Option<nat>)                      // before the gate
    | Rendering(active: nat, superseded: Option<nat>)         // in pipeline.Start
    | Ending(active: nat, superseded: Option<nat>)            // Start completes the handle itself
    | Releasing(kept: Option<nat>, superseded: Option<nat>)   // in superseded.Release()
    | Storing(kept: Option<nat>, superseded: Option<nat>)

  datatype State = State(
    g: Gate.State,
    sessions: seq<Session>,        // the session of each handle
    renders: map<Session, nat>,
    calls: map<Session, Call>,
    loose: set<nat>)               // handles taken out of the table whose Complete has not returned

  const Start := State(Gate.Start, [], map[], map[], {})

  datatype Step =
    | Claim(x: Session, retires: bool)
    | EnterComplete(h: nat)
    | RetireReturns(x: Session)
    | Admit(x: Session)
    | StartReturns(x: Session, streams: bool)
    | EndReturns(x: Session)
    | EnterRelease(x: Session)
    | ReleaseReturns(x: Session)
    | Store(x: Session)
    | Take(x: Session)
    | TakeAll
    | CompleteReturns(h: nat)
    | Proceed(t: Gate.Step)        // inside a handle's once, or by a reloader

  function SupersededOf(c: Call): Option<nat> {
    if c.Retiring? then None else c.superseded
  }

  /** The handle the call made itself. */
  function OwnOf(c: Call): Option<nat> {
    match c
    case Retiring(_) => None
    case Admitting(_) => None
    case Rendering(h, _) => Some(h)
    case Ending(h, _) => Some(h)
    case Releasing(k, _) => k
    case Storing(k, _) => k
  }

  predicate Fired(s: State, h: nat) { h < |s.g.handles| && s.g.handles[h].once.Fired? }

  /** Some thread has called Complete on the handle. */
  predicate MayComplete(s: State, h: nat) {
    || h in s.loose
    || (h < |s.sessions| && s.sessions[h] in s.calls
        && (s.calls[s.sessions[h]] == Retiring(h)
            || (s.calls[s.sessions[h]].Ending? && s.calls[s.sessions[h]].active == h)))
  }

  predicate Enabled(s: State, t: Step) {
    match t
    case Claim(x, _) => x !in s.calls
    case EnterComplete(h) => MayComplete(s, h) && Gate.Enabled(s.g, Gate.Complete(h))
    case RetireReturns(x) => x in s.calls && s.calls[x].Retiring? && Fired(s, s.calls[x].retired)
    case Admit(x) => x in s.calls && s.calls[x].Admitting? && Gate.Enabled(s.g, Gate.Admit)
    case StartReturns(x, _) => x in s.calls && s.calls[x].Rendering?
    case EndReturns(x) => x in s.calls && s.calls[x].Ending? && Fired(s, s.calls[x].active)
    case EnterRelease(x) =>
      && x in s.calls && s.calls[x].Releasing? && s.calls[x].superseded.Some?
      && Gate.Enabled(s.g, Gate.Release(s.calls[x].superseded.value))
    case ReleaseReturns(x) =>
      && x in s.calls && s.calls[x].Releasing?
      && (s.calls[x].superseded.Some? ==> Fired(s, s.calls[x].superseded.value))
    case Store(x) => x in s.calls && s.calls[x].Storing?
    case Take(x) => x in s.renders
    case TakeAll => true
    case CompleteReturns(h) => h in s.loose && Fired(s, h)
    case Proceed(u) => !u.Admit? && !u.Complete? && !u.Release? && Gate.Enabled(s.g, u)
  }

  /** What the step does at the gate. */
  function AtGate(s: State, t: Step): Option<Gate.Step>
    requires Enabled(s, t)
  {
    match t
    case EnterComplete(h) => Some(Gate.Complete(h))
    case Admit(_) => Some(Gate.Admit)
    case EnterRelease(x) => Some(Gate.Release(s.calls[x].superseded.value))
    case Proceed(u) => Some(u)
    case _ => None
  }

  function GateAfter(s: State, t: Step): Gate.State
    requires Enabled(s, t)
  {
    var u := AtGate(s, t);
    if u.Some? then Gate.Apply(s.g, u.value) else s.g
  }

  function CallAfter(s: State, t: Step): map<Session, Call>
    requires Enabled(s, t)
  {
    match t
    case Claim(x, retires) =>
      var retired := Retired(s.renders, x, retires);
      s.calls[x := if retired.Some? then Retiring(retired.value) else Admitting(Superseded(s.renders, x, retires))]
    case RetireReturns(x) => s.calls[x := Admitting(None)]
    case Admit(x) => s.calls[x := Rendering(|s.g.handles|, s.calls[x].superseded)]
    case StartReturns(x, streams) =>
      var c := s.calls[x];
      s.calls[x := if streams then Releasing(Some(c.active), c.superseded) else Ending(c.active, c.superseded)]
    case EndReturns(x) => s.calls[x := Releasing(None, s.calls[x].superseded)]
    case ReleaseReturns(x) => s.calls[x := Storing(s.calls[x].kept, s.calls[x].superseded)]
    case Store(x) => s.calls - {x}
    case _ => s.calls
  }

  function Apply(s: State, t: Step): State
    requires Enabled(s, t)
  {
    State(
      GateAfter(s, t),
      if t.Admit? then s.sessions + [t.x] else s.sessions,
      match t {
        case Claim(x, retires) => Claimed(s.renders, x, retires)
        case Store(x) => Stored(s.renders, x, s.calls[x].kept)
        case Take(x) => s.renders - {x}
        case TakeAll => map[]
        case _ => s.renders
      },
      CallAfter(s, t),
      match t {
        case Take(x) => s.loose + {s.renders[x]}
        case TakeAll => s.loose + s.renders.Values
        case CompleteReturns(h) => s.loose - {h}
        case _ => s.loose
      })
  }

  ghost predicate Runs(s: State, ts: seq<Step>)
    decreases |ts|
  {
    ts == [] || (Enabled(s, ts[0]) && Runs(Apply(s, ts[0]), ts[1..]))
  }

  ghost function After(s: State, ts: seq<Step>): State
    requires Runs(s, ts)
    decreases |ts|
  {
    if ts == [] then s else After(Apply(s, ts[0]), ts[1..])
  }

  ghost predicate Reachable(s: State) {
    exists ts :: Runs(Start, ts) && After(Start, ts) == s
  }

  // ---------------------------------------------------------------- refinement of the gate

  ghost function GateSteps(s: State, ts: seq<Step>): seq<Gate.Step>
    requires Runs(s, ts)
    decreases |ts|
  {
    if ts == [] then []
    else
      var u := AtGate(s, ts[0]);
      (if u.Some? then [u.value] else []) + GateSteps(Apply(s, ts[0]), ts[1..])
  }

  /** Every run is a run of the gate's protocol at the gate. */
  lemma {:induction false} RunsRefineGate(s: State, ts: seq<Step>)
    requires Runs(s, ts)
    ensures Gate.Runs(s.g, GateSteps(s, ts)) && Gate.After(s.g, GateSteps(s, ts)) == After(s, ts).g
    decreases |ts|
  {
    if ts != [] {
      RunsRefineGate(Apply(s, ts[0]), ts[1..]);
      var u := AtGate(s, ts[0]);
      if u.Some? {
        assert GateSteps(s, ts)[1..] == GateSteps(Apply(s, ts[0]), ts[1..]);
      } else {
        assert GateSteps(s, ts) == GateSteps(Apply(s, ts[0]), ts[1..]);
      }
    }
  }

  // ---------------------------------------------------------------- the invariant

  /** A handle in the table has not been retired, but for the one a soft cancel is releasing. */
  predicate ListedOk(s: State)
    requires |s.sessions| == |s.g.handles|
  {
    forall x :: x in s.renders ==>
      && s.renders[x] < |s.g.handles| && s.sessions[s.renders[x]] == x
      && (s.g.handles[s.renders[x]].once.Unfired?
          || (x in s.calls && SupersededOf(s.calls[x]) == Some(s.renders[x])))
  }

  predicate LooseOk(s: State) {
    forall h :: h in s.loose ==>
      && h < |s.sessions|
      && (s.sessions[h] in s.renders ==> s.renders[s.sessions[h]] != h)
  }

  predicate CallOk(s: State, x: Session, c: Call)
    requires |s.sessions| == |s.g.handles|
  {
    && (x in s.renders ==> SupersededOf(c) == Some(s.renders[x]))
    && (SupersededOf(c).Some? ==> SupersededOf(c).value < |s.sessions| && s.sessions[SupersededOf(c).value] == x)
    && (c.Retiring? ==> c.retired < |s.sessions| && s.sessions[c.retired] == x && c.retired !in s.loose)
    && (c.Storing? && c.superseded.Some? ==> Fired(s, c.superseded.value))
    && (OwnOf(c).Some? ==>
          && OwnOf(c).value < |s.g.handles| && s.sessions[OwnOf(c).value] == x
          && OwnOf(c).value !in s.loose && SupersededOf(c) != OwnOf(c)
          && (!c.Ending? ==> s.g.handles[OwnOf(c).value].once.Unfired?))
  }

  predicate CallsOk(s: State)
    requires |s.sessions| == |s.g.handles|
  {
    forall x :: x in s.calls ==> CallOk(s, x, s.calls[x])
  }

  /** Whoever is to retire the handle still knows it. */
  predicate Accounted(s: State, h: nat)
    requires h < |s.sessions|
  {
    var x := s.sessions[h];
    || (x in s.renders && s.renders[x] == h)
    || h in s.loose
    || (x in s.calls && (OwnOf(s.calls[x]) == Some(h) || s.calls[x] == Retiring(h)))
  }

  predicate AllAccounted(s: State)
    requires |s.sessions| == |s.g.handles|
  {
    forall h :: 0 <= h < |s.g.handles| && !s.g.handles[h].once.Fired? ==> Accounted(s, h)
  }

  predicate Inv(s: State) {
    && |s.sessions| == |s.g.handles|
    && ListedOk(s) && LooseOk(s) && CallsOk(s) && AllAccounted(s)
  }

  /** A handle whose once has not fired is not touched but by its owners. */
  lemma GateKeepsOthers(s: State, t: Step)
    requires |s.sessions| == |s.g.handles| && Enabled(s, t)
    ensures var n := Apply(s, t); |n.sessions| == |n.g.handles| && |n.g.handles| >= |s.g.handles|
    ensures var n := Apply(s, t); forall h :: 0 <= h < |s.g.handles| ==>
              && n.sessions[h] == s.sessions[h]
              && (s.g.handles[h].once.Fired? ==> n.g.handles[h].once.Fired?)
              && (s.g.handles[h].once.Unfired? ==>
                    n.g.handles[h].once.Unfired? || t == EnterComplete(h)
                    || (t.EnterRelease? && s.calls[t.x].superseded == Some(h)))
  {
  }

  lemma KeepsListed(s: State, t: Step)
    requires Inv(s) && Enabled(s, t)
    ensures |Apply(s, t).sessions| == |Apply(s, t).g.handles| && ListedOk(Apply(s, t))
  {
    GateKeepsOthers(s, t);
    var n := Apply(s, t);
    forall x | x in n.renders
      ensures n.renders[x] < |n.g.handles| && n.sessions[n.renders[x]] == x
      ensures n.g.handles[n.renders[x]].once.Unfired? || (x in n.calls && SupersededOf(n.calls[x]) == Some(n.renders[x]))
    {
      if x in s.calls { assert CallOk(s, x, s.calls[x]); }
      if t != Store(x) { assert x in s.renders && n.renders[x] == s.renders[x]; }
    }
  }

  lemma KeepsLoose(s: State, t: Step)
    requires Inv(s) && Enabled(s, t)
    ensures LooseOk(Apply(s, t))
  {
  }

  /** A call that does not move is not disturbed. */
  lemma KeepsStandingCall(s: State, t: Step, x: Session)
    requires Inv(s) && Enabled(s, t) && x in s.calls && x in Apply(s, t).calls && Apply(s, t).calls[x] == s.calls[x]
    ensures |Apply(s, t).sessions| == |Apply(s, t).g.handles| && CallOk(Apply(s, t), x, s.calls[x])
  {
    GateKeepsOthers(s, t);
    assert CallOk(s, x, s.calls[x]);
  }

  lemma KeepsMovingCall(s: State, t: Step, x: Session)
    requires Inv(s) && Enabled(s, t) && x in Apply(s, t).calls && (x !in s.calls || Apply(s, t).calls[x] != s.calls[x])
    ensures |Apply(s, t).sessions| == |Apply(s, t).g.handles| && CallOk(Apply(s, t), x, Apply(s, t).calls[x])
  {
    if x in s.calls { assert CallOk(s, x, s.calls[x]); }
  }

  lemma KeepsCalls(s: State, t: Step)
    requires Inv(s) && Enabled(s, t)
    ensures |Apply(s, t).sessions| == |Apply(s, t).g.handles| && CallsOk(Apply(s, t))
  {
    GateKeepsOthers(s, t);
    var n := Apply(s, t);
    forall x | x in n.calls ensures CallOk(n, x, n.calls[x]) {
      if x in s.calls && n.calls[x] == s.calls[x] {
        KeepsStandingCall(s, t, x);
      } else {
        KeepsMovingCall(s, t, x);
      }
    }
  }

  lemma KeepsAccountOf(s: State, t: Step, h: nat)
    requires |s.sessions| == |s.g.handles| && Enabled(s, t) && h < |s.sessions| && Accounted(s, h)
    requires s.sessions[h] in s.calls ==> CallOk(s, s.sessions[h], s.calls[s.sessions[h]])
    ensures h < |Apply(s, t).sessions| && (Fired(Apply(s, t), h) || Accounted(Apply(s, t), h))
  {
    GateKeepsOthers(s, t);
  }

  lemma KeepsAccounted(s: State, t: Step)
    requires Inv(s) && Enabled(s, t)
    ensures |Apply(s, t).sessions| == |Apply(s, t).g.handles| && AllAccounted(Apply(s, t))
  {
    GateKeepsOthers(s, t);
    var n := Apply(s, t);
    forall h | 0 <= h < |n.g.handles| && !n.g.handles[h].once.Fired? ensures Accounted(n, h) {
      if h < |s.g.handles| { KeepsAccountOf(s, t, h); }
    }
  }

  lemma {:induction false} RunKeepsInv(s: State, ts: seq<Step>)
    requires Inv(s) && Runs(s, ts)
    ensures Inv(After(s, ts))
    decreases |ts|
  {
    if ts != [] {
      var t := ts[0];
      KeepsListed(s, t);
      KeepsLoose(s, t);
      KeepsCalls(s, t);
      KeepsAccounted(s, t);
      RunKeepsInv(Apply(s, t), ts[1..]);
    }
  }

  lemma ReachableInv(s: State)
    requires Reachable(s)
    ensures Inv(s) && Gate.Reachable(s.g)
  {
    var ts :| Runs(Start, ts) && After(Start, ts) == s;
    RunKeepsInv(Start, ts);
    RunsRefineGate(Start, ts);
  }

  lemma GateIsReachable(s: State)
    requires Reachable(s)
    ensures Gate.Reachable(s.g)
  {
    ReachableInv(s);
  }

  // ---------------------------------------------------------------- theorems

  /** The handle a StartRender is answerable for: the one it retires, or the one it made. */
  function HeldBy(c: Call): Option<nat> {
    if c.Retiring? then Some(c.retired) else OwnOf(c)
  }

  function CalledHandles(calls: map<Session, Call>): set<nat> {
    set x | x in calls && HeldBy(calls[x]).Some? :: HeldBy(calls[x]).value
  }

  /** A handle that still holds a slot of the gate is in exactly one place: in the table, with a
      thread that took it out, or with a StartRender; and no two sessions list the same one. */
  lemma HandlesAreAccounted(s: State)
    requires Reachable(s)
    ensures Gate.Holding(s.g.handles) <= s.renders.Values + s.loose + CalledHandles(s.calls)
    ensures s.renders.Values !! s.loose && s.renders.Values !! CalledHandles(s.calls) && s.loose !! CalledHandles(s.calls)
    ensures forall x, y :: x in s.renders && y in s.renders && s.renders[x] == s.renders[y] ==> x == y
  {
    ReachableInv(s);
    forall h | h in Gate.Holding(s.g.handles) ensures h in s.renders.Values + s.loose + CalledHandles(s.calls) {
      assert Accounted(s, h);
      var x := s.sessions[h];
      if x in s.calls && (OwnOf(s.calls[x]) == Some(h) || s.calls[x] == Retiring(h)) {
        assert HeldBy(s.calls[x]) == Some(h);
      }
    }
    forall x | x in s.calls && HeldBy(s.calls[x]).Some?
      ensures HeldBy(s.calls[x]).value !in s.loose && HeldBy(s.calls[x]).value !in s.renders.Values
    {
      assert CallOk(s, x, s.calls[x]);
    }
  }

  /** Between two StartRender calls of a session, whatever goes on in others, its handles that hold a
      slot are the one in the table and those with a thread that took them out, and the one in the
      table holds one. */
  lemma SessionIsAccounted(s: State, x: Session)
    requires Reachable(s) && x !in s.calls
    ensures |s.sessions| == |s.g.handles|
    ensures x in s.renders ==>
              s.renders[x] < |s.g.handles| && s.g.handles[s.renders[x]].once.Unfired? && s.renders[x] !in s.loose
    ensures forall h :: 0 <= h < |s.g.handles| && s.sessions[h] == x && !s.g.handles[h].once.Fired? ==>
              (x in s.renders && s.renders[x] == h) || h in s.loose
  {
    ReachableInv(s);
    forall h | 0 <= h < |s.g.handles| && s.sessions[h] == x && !s.g.handles[h].once.Fired?
      ensures (x in s.renders && s.renders[x] == h) || h in s.loose
    {
      assert Accounted(s, h);
    }
  }

  /** The gate's count is what the table, the threads that took handles out, and the StartRender
      calls still hold. */
  lemma GateCountsEveryPlace(s: State)
    requires Reachable(s)
    ensures var live := Gate.Holding(s.g.handles);
            s.g.gate.active == |live * s.renders.Values| + |live * s.loose| + |live * CalledHandles(s.calls)|
  {
    HandlesAreAccounted(s);
    GateIsReachable(s);
    Gate.GateIsConserved(s.g);
    var live := Gate.Holding(s.g.handles);
    assert live == live * s.renders.Values + live * s.loose + live * CalledHandles(s.calls);
  }

  lemma {:induction false} ValuesOfInjective(m: map<Session, nat>)
    requires forall x, y :: x in m && y in m && m[x] == m[y] ==> x == y
    ensures |m.Values| == |m|
    decreases |m|
  {
    if m.Keys != {} {
      var x :| x in m.Keys;
      var n := m - {x};
      Shrinks(m, x);
      ValuesOfInjective(n);
      assert n.Values <= m.Values && m[x] !in n.Values;
      forall v | v in m.Values ensures v in n.Values + {m[x]} {
        var y :| y in m && m[y] == v;
        assert y == x || (y in n && n[y] == v);
      }
      assert m.Values == n.Values + {m[x]};
    } else {
      assert m.Values == {};
    }
  }

  /** With no thread in the middle of retiring a handle the gate counts exactly the table. */
  lemma GateCountsTheTable(s: State)
    requires Reachable(s) && s.calls == map[] && s.loose == {}
    ensures s.g.gate.active == |s.renders|
    ensures Gate.Holding(s.g.handles) == s.renders.Values
  {
    HandlesAreAccounted(s);
    assert CalledHandles(s.calls) == {};
    forall x | x in s.renders ensures s.renders[x] in Gate.Holding(s.g.handles) { SessionIsAccounted(s, x); }
    assert Gate.Holding(s.g.handles) == s.renders.Values;
    GateIsReachable(s);
    Gate.GateIsConserved(s.g);
    ValuesOfInjective(s.renders);
  }

  predicate StartsRender(t: Step) { t.Claim? }

  lemma {:induction false} WithoutStartTableStaysEmpty(s: State, ts: seq<Step>)
    requires Runs(s, ts) && s.calls == map[] && s.renders == map[]
    requires forall t :: t in ts ==> !StartsRender(t)
    ensures After(s, ts).calls == map[] && After(s, ts).renders == map[]
    decreases |ts|
  {
    if ts != [] {
      var n := Apply(s, ts[0]);
      assert !StartsRender(ts[0]);
      WithoutStartTableStaysEmpty(n, ts[1..]);
    }
  }

  /** Reset brings the gate's count to zero, whatever was live: once every handle that was taken
      out of the table has been completed nothing holds a slot. */
  lemma ResetDrainsTheGate(s: State, ts: seq<Step>)
    requires Reachable(s) && s.calls == map[] && Runs(s, [TakeAll] + ts)
    requires forall t :: t in ts ==> !StartsRender(t)
    requires After(s, [TakeAll] + ts).loose == {}
    ensures After(s, [TakeAll] + ts).g.gate.active == 0
    ensures forall h :: 0 <= h < |After(s, [TakeAll] + ts).g.handles| ==> After(s, [TakeAll] + ts).g.handles[h].once.Fired?
  {
    assert ([TakeAll] + ts)[1..] == ts;
    var n := After(s, [TakeAll] + ts);
    WithoutStartTableStaysEmpty(Apply(s, TakeAll), ts);
    ReachableRun(s, [TakeAll] + ts);
    GateCountsTheTable(n);
    forall h | 0 <= h < |n.g.handles| ensures n.g.handles[h].once.Fired? {
      assert h !in Gate.Holding(n.g.handles);
    }
  }

  lemma {:induction false} FiredStays(s: State, ts: seq<Step>, h: nat)
    requires Runs(s, ts) && Fired(s, h)
    ensures Fired(After(s, ts), h)
    decreases |ts|
  {
    if ts != [] {
      FiredStep(s, ts[0], h);
      FiredStays(Apply(s, ts[0]), ts[1..], h);
    }
  }

  lemma FiredStep(s: State, t: Step, h: nat)
    requires Enabled(s, t) && Fired(s, h)
    ensures Fired(Apply(s, t), h)
  {
  }

  /** The handles a Reset at s does not take: they are with another thread, or with a StartRender. */
  predicate Escapes(s: State, h: nat) {
    h in s.loose || h in CalledHandles(s.calls)
  }

  /** After a Reset, whatever else runs and however many StartRender calls are under way, the count is
      zero exactly when the handles it did not take, or that were admitted since, are retired. */
  lemma ResetDrainsTheGateIff(s: State, ts: seq<Step>)
    requires Reachable(s) && Runs(s, [TakeAll] + ts)
    requires forall x :: x in s.renders ==> Fired(After(s, [TakeAll] + ts), s.renders[x])
    ensures var n := After(s, [TakeAll] + ts);
            n.g.gate.active == 0 <==>
              forall h :: 0 <= h < |n.g.handles| && (h >= |s.g.handles| || Escapes(s, h)) ==> n.g.handles[h].once.Fired?
  {
    var us := [TakeAll] + ts;
    var n := After(s, us);
    ReachableRun(s, us);
    GateIsReachable(n);
    Gate.GateIsConserved(n.g);
    HandlesAreAccounted(s);
    var live := Gate.Holding(n.g.handles);
    if forall h :: 0 <= h < |n.g.handles| && (h >= |s.g.handles| || Escapes(s, h)) ==> n.g.handles[h].once.Fired? {
      forall h | 0 <= h < |n.g.handles| ensures n.g.handles[h].once.Fired? {
        if h < |s.g.handles| && !Escapes(s, h) {
          if Fired(s, h) { FiredStays(s, us, h); } else { assert h in Gate.Holding(s.g.handles); }
        }
      }
      assert live == {};
    } else {
      var h :| 0 <= h < |n.g.handles| && !n.g.handles[h].once.Fired?;
      assert h in live;
    }
  }

  lemma Stepped(s: State, t: Step) returns (n: State)
    requires Reachable(s) && Enabled(s, t)
    ensures n == Apply(s, t) && Reachable(n)
  {
    n := Apply(s, t);
    assert Runs(s, [t]) && After(s, [t]) == n;
    ReachableRun(s, [t]);
  }

  /** A StartRender that has its handle and has yet to store it. */
  lemma RenderUnderWay() returns (s: State)
    ensures Reachable(s) && s.renders == map[] && s.loose == {} && s.calls == map[0 := Releasing(Some(0), None)]
    ensures s.g == Gate.Apply(Gate.Start, Gate.Admit)
  {
    assert Runs(Start, []) && After(Start, []) == Start;
    var s1 := Stepped(Start, Claim(0, true));
    var s2 := Stepped(s1, Admit(0));
    s := Stepped(s2, StartReturns(0, true));
  }

  /** A Reset falls in between: the handle is stored afterwards, and the gate's count stays at one. */
  lemma HandleStoredAfterReset() returns (s: State, ts: seq<Step>)
    ensures Reachable(s) && Runs(s, [TakeAll] + ts) && forall t :: t in ts ==> !StartsRender(t)
    ensures var n := After(s, [TakeAll] + ts);
            n.calls == map[] && n.loose == {} && n.renders == map[0 := 0] && n.g.gate.active == 1
  {
    s := RenderUnderWay();
    ts := [ReleaseReturns(0), Store(0)];
    var s1 := Apply(s, TakeAll);
    var s2 := Apply(s1, ReleaseReturns(0));
    var us := [TakeAll] + ts;
    assert us[1..] == ts && ts[1..] == [Store(0)] && ts[1..][1..] == [];
    assert Runs(s2, ts[1..]) && Runs(s1, ts) && Runs(s, us);
  }

  /** A soft cancel never lets the gate's count reach zero between the handles: the old one counts
      until it is released, and the new one from its admission until it is stored. A reload that
      waits does not get through in between. */
  lemma SoftCancelKeepsSlot(s: State, x: Session)
    requires Reachable(s) && x in s.calls && SupersededOf(s.calls[x]).Some?
    requires !Fired(s, SupersededOf(s.calls[x]).value) || (OwnOf(s.calls[x]).Some? && !s.calls[x].Ending?)
    ensures s.g.gate.active > 0
    ensures forall r: nat :: !Gate.Enabled(s.g, Gate.Drain(r)) && !Gate.IsReloader(s.g, r, Gate.Running)
  {
    ReachableInv(s);
    assert CallOk(s, x, s.calls[x]);
    Gate.GateIsConserved(s.g);
    Gate.ReachableInv(s.g);
    var h := if OwnOf(s.calls[x]).Some? && !s.calls[x].Ending? then OwnOf(s.calls[x]).value else SupersededOf(s.calls[x]).value;
    assert h in Gate.Holding(s.g.handles);
  }

  /** A StartRender that streams keeps its handle, and one that does not completes it; what it keeps
      is what the table has afterwards, unretired, and what it does not keep is retired. */
  lemma StreamingHandleIsStored(s: State, x: Session)
    requires Reachable(s) && x in s.calls
    ensures s.calls[x].Rendering? ==>
              && Apply(s, StartReturns(x, true)).calls[x] == Releasing(Some(s.calls[x].active), s.calls[x].superseded)
              && Apply(s, StartReturns(x, false)).calls[x] == Ending(s.calls[x].active, s.calls[x].superseded)
    ensures Enabled(s, EndReturns(x)) ==>
              Fired(s, s.calls[x].active) && Apply(s, EndReturns(x)).calls[x] == Releasing(None, s.calls[x].superseded)
    ensures Enabled(s, ReleaseReturns(x)) ==>
              && Apply(s, ReleaseReturns(x)).calls[x] == Storing(s.calls[x].kept, s.calls[x].superseded)
              && (s.calls[x].superseded.Some? ==> Fired(s, s.calls[x].superseded.value))
    ensures Enabled(s, Store(x)) ==>
              var n := Apply(s, Store(x));
              if s.calls[x].kept.Some?
              then x in n.renders && n.renders[x] == s.calls[x].kept.value
                   && n.renders[x] < |n.g.handles| && n.g.handles[n.renders[x]].once.Unfired?
              else x !in n.renders
  {
    ReachableInv(s);
    assert CallOk(s, x, s.calls[x]);
  }

  /** A soft cancel completes nothing: it leaves the handle in the table, goes on to the gate, and
      only releases it; any other StartRender takes the handle out and completes it first. */
  lemma ClaimDecides(s: State, x: Session, retires: bool)
    requires Reachable(s) && Enabled(s, Claim(x, retires))
    ensures var n := Apply(s, Claim(x, retires));
            if x in s.renders && retires
            then n.calls[x] == Retiring(s.renders[x]) && x !in n.renders && MayComplete(n, s.renders[x])
            else n.calls[x] == Admitting(if x in s.renders then Some(s.renders[x]) else None) && n.renders == s.renders
  {
    ReachableInv(s);
    assert x !in s.renders ==> s.renders - {x} == s.renders;
  }

  /** In between, a StartRender first waits until the handle it took out is retired, and then gets a
      new handle, with a slot of its own, at the gate. */
  lemma StartRenderTakesASlot(s: State, x: Session)
    requires Reachable(s) && x in s.calls
    ensures Enabled(s, RetireReturns(x)) ==>
              Fired(s, s.calls[x].retired) && Apply(s, RetireReturns(x)).calls[x] == Admitting(None)
    ensures s.calls[x].Admitting? && Enabled(s, Admit(x)) ==>
              var n := Apply(s, Admit(x));
              && n.calls[x] == Rendering(|s.g.handles|, s.calls[x].superseded)
              && |n.g.handles| == |s.g.handles| + 1 && n.g.handles[|s.g.handles|].once.Unfired?
              && n.g.gate.active == s.g.gate.active + 1
              && n.sessions == s.sessions + [x]
    ensures s.calls[x].Admitting? ==> (Enabled(s, Admit(x)) <==> s.g.reloaders == map[])
  {
    GateIsReachable(s);
    Gate.GateAdmitsIff(s.g);
  }

  /** A superseded handle whose Release got in first never cancels the generation it shares with
      the new one, whoever completes it later. */
  lemma SupersededNeverCancels(s: State, x: Session, ts: seq<Step>)
    requires Reachable(s) && Enabled(s, EnterRelease(x)) && Runs(Apply(s, EnterRelease(x)), ts)
    requires s.calls[x].superseded.value < |s.g.handles| && s.g.handles[s.calls[x].superseded.value].once.Unfired?
    ensures var n := After(Apply(s, EnterRelease(x)), ts);
            var h := s.calls[x].superseded.value;
            h < |n.g.handles| && n.g.handles[h].cancels == 0
  {
    var n := Apply(s, EnterRelease(x));
    ReachableInv(s);
    Gate.ReachableStep(s.g, Gate.Release(s.calls[x].superseded.value));
    RunsRefineGate(n, ts);
    Gate.ReleasedHandleNeverCancels(n.g, GateSteps(n, ts), s.calls[x].superseded.value);
  }

  /** While a reload runs no StartRender holds a handle it will return, and none gets one. */
  lemma ReloadExcludesRenders(s: State, r: nat, x: Session)
    requires Reachable(s) && Gate.IsReloader(s.g, r, Gate.Running)
    ensures !Enabled(s, Admit(x))
    ensures x in s.calls && OwnOf(s.calls[x]).Some? ==> s.calls[x].Ending?
    ensures x in s.renders ==> x in s.calls && SupersededOf(s.calls[x]) == Some(s.renders[x]) && Fired(s, s.renders[x])
  {
    ReachableInv(s);
    assert Gate.Runs(s.g, []) && Gate.After(s.g, []) == s.g;
    Gate.ReloadRunsAlone(s.g, [], r);
    if x in s.calls { assert CallOk(s, x, s.calls[x]); }
  }

  lemma {:induction false} RunsJoin(s: State, ts: seq<Step>, us: seq<Step>)
    requires Runs(s, ts) && Runs(After(s, ts), us)
    ensures Runs(s, ts + us) && After(s, ts + us) == After(After(s, ts), us)
    decreases |ts|
  {
    if ts == [] {
      assert ts + us == us;
    } else {
      RunsJoin(Apply(s, ts[0]), ts[1..], us);
      assert (ts + us)[1..] == ts[1..] + us;
    }
  }

  lemma ReachableRun(s: State, us: seq<Step>)
    requires Reachable(s) && Runs(s, us)
    ensures Reachable(After(s, us))
  {
    var ts :| Runs(Start, ts) && After(Start, ts) == s;
    RunsJoin(Start, ts, us);
  }
}
