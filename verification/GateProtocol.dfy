/** Every interleaving of the threads at the reload gate: any number of requests, any number of
    threads that complete or release their handles in any order and as often as they like, and any
    number of reloaders (src/daemon/reload_gate.go, and the handles of render_pipeline.go). */
module GateProtocol {
  import opened ReloadGate

  /** The `once` of a handle. A Complete that gets in cancels the generation first; a Release goes
      straight to the gate. Later callers wait until the first is out, and then do nothing. */
  datatype Once =
    | Unfired
    | Cancelling                  // Complete is inside, before its call to render.Complete
    | Releasing(byComplete: bool) // about to call the gate's release function
    | Fired(byComplete: bool)

  datatype Handle = Handle(once: Once, cancels: nat, releases: nat)

  /** Where a reloader is between setting `reloading` and EndReload. */
  datatype Reload = Draining | Running

  datatype State = State(gate: Gate, handles: seq<Handle>, reloaders: map<nat, Reload>)

  const Start := State(Gate(0, false), [], map[])

  datatype Step =
    | Admit
    | Complete(h: nat)
    | CancelRender(h: nat)
    | Release(h: nat)
    | ReleaseSlot(h: nat)
    | BeginReload(r: nat)
    | Drain(r: nat)
    | EndReload(r: nat)

  predicate IsHandle(s: State, h: nat) { h < |s.handles| }

  /** `once` lets a caller through or turns it away; it is waiting otherwise. */
  predicate OnceAnswers(s: State, h: nat) {
    IsHandle(s, h) && (s.handles[h].once.Unfired? || s.handles[h].once.Fired?)
  }

  predicate IsReloader(s: State, r: nat, phase: Reload) { r in s.reloaders && s.reloaders[r] == phase }

  predicate Enabled(s: State, t: Step) {
    match t
    case Admit => MayAdmit(s.gate)
    case Complete(h) => OnceAnswers(s, h)
    case CancelRender(h) => IsHandle(s, h) && s.handles[h].once.Cancelling?
    case Release(h) => OnceAnswers(s, h)
    case ReleaseSlot(h) => IsHandle(s, h) && s.handles[h].once.Releasing?
    case BeginReload(r) => r !in s.reloaders && MayClaim(s.gate)
    case Drain(r) => IsReloader(s, r, Draining) && IsDrained(s.gate)
    case EndReload(r) => IsReloader(s, r, Running)
  }

  function WithOnce(s: State, h: nat, once: Once): State
    requires IsHandle(s, h)
  {
    s.(handles := s.handles[h := s.handles[h].(once := once)])
  }

  function Apply(s: State, t: Step): State
    requires Enabled(s, t)
  {
    match t
    case Admit => s.(gate := Admitted(s.gate), handles := s.handles + [Handle(Unfired, 0, 0)])
    case Complete(h) => if s.handles[h].once.Unfired? then WithOnce(s, h, Cancelling) else s
    case CancelRender(h) =>
      s.(handles := s.handles[h := Handle(Releasing(true), s.handles[h].cancels + 1, s.handles[h].releases)])
    case Release(h) => if s.handles[h].once.Unfired? then WithOnce(s, h, Releasing(false)) else s
    case ReleaseSlot(h) =>
      var was := s.handles[h];
      s.(gate := Released(s.gate),
         handles := s.handles[h := Handle(Fired(was.once.byComplete), was.cancels, was.releases + 1)])
    case BeginReload(r) => s.(gate := Claimed(s.gate), reloaders := s.reloaders[r := Draining])
    case Drain(r) => s.(reloaders := s.reloaders[r := Running])
    case EndReload(r) => s.(gate := Ended(s.gate), reloaders := s.reloaders - {r})
  }

  ghost predicate Runs(s: State, ts: seq<Step>)
    decreases |ts|
  {
    ts == [] || (Enabled(s, ts[0]) && Runs(Apply(s, ts[0]), ts[1..]))
  }

  ghost function After(s: State, ts: seq<Step>): State
    requires Runs(s, ts)
    decreases |ts|
  {
    if ts == [] then s else After(Apply(s, ts[0]), ts[1..])
  }

  ghost predicate Reachable(s: State) {
    exists ts :: Runs(Start, ts) && After(Start, ts) == s
  }

  // ---------------------------------------------------------------- the invariant

  /** The handles that still hold a slot of the gate. */
  function Holding(handles: seq<Handle>): set<nat> {
    set h | 0 <= h < |handles| && !handles[h].once.Fired?
  }

  predicate HandleOk(h: Handle) {
    && h.releases == (if h.once.Fired? then 1 else 0)
    && h.cancels == (if (h.once.Releasing? || h.once.Fired?) && h.once.byComplete then 1 else 0)
  }

  predicate ReloadersOk(s: State) {
    && (forall q, r :: q in s.reloaders && r in s.reloaders ==> q == r)
    && (s.gate.reloading <==> s.reloaders != map[])
    && (forall r :: r in s.reloaders && s.reloaders[r].Running? ==> s.gate.active == 0)
  }

  predicate HandlesOk(s: State) {
    && s.gate.active == |Holding(s.handles)|
    && (forall h :: 0 <= h < |s.handles| ==> HandleOk(s.handles[h]))
  }

  predicate Inv(s: State) { HandlesOk(s) && ReloadersOk(s) }

  lemma HoldingStep(handles: seq<Handle>, h: nat, n: Handle)
    requires h < |handles| && !handles[h].once.Fired?
    ensures h in Holding(handles)
    ensures Holding(handles[h := n]) == if n.once.Fired? then Holding(handles) - {h} else Holding(handles)
  {
  }

  lemma KeepsHandles(s: State, t: Step)
    requires HandlesOk(s) && Enabled(s, t)
    ensures HandlesOk(Apply(s, t))
  {
    var n := Apply(s, t);
    match t
    case Admit => assert Holding(n.handles) == Holding(s.handles) + {|s.handles|};
    case Complete(h) => if s.handles[h].once.Unfired? { HoldingStep(s.handles, h, n.handles[h]); }
    case Release(h) => if s.handles[h].once.Unfired? { HoldingStep(s.handles, h, n.handles[h]); }
    case CancelRender(h) => HoldingStep(s.handles, h, n.handles[h]);
    case ReleaseSlot(h) => HoldingStep(s.handles, h, n.handles[h]);
    case _ =>
  }

  lemma KeepsReloaders(s: State, t: Step)
    requires ReloadersOk(s) && s.gate.active >= 0 && Enabled(s, t)
    ensures ReloadersOk(Apply(s, t))
  {
    var n := Apply(s, t);
    match t
    case BeginReload(r) => assert r in n.reloaders;
    case Drain(r) => assert r in n.reloaders;
    case EndReload(r) => assert n.reloaders == map[];
    case _ =>
  }

  lemma {:induction false} RunKeepsInv(s: State, ts: seq<Step>)
    requires Inv(s) && Runs(s, ts)
    ensures Inv(After(s, ts))
    decreases |ts|
  {
    if ts != [] {
      KeepsHandles(s, ts[0]);
      KeepsReloaders(s, ts[0]);
      RunKeepsInv(Apply(s, ts[0]), ts[1..]);
    }
  }

  lemma ReachableInv(s: State)
    requires Reachable(s)
    ensures Inv(s)
  {
    var ts :| Runs(Start, ts) && After(Start, ts) == s;
    assert Holding(Start.handles) == {};
    RunKeepsInv(Start, ts);
  }

  // ---------------------------------------------------------------- theorems

  /** Gate conservation: the active count is the number of handles neither completed nor released,
      so a release never finds it at zero. */
  lemma GateIsConserved(s: State)
    requires Reachable(s)
    ensures s.gate.active == |Holding(s.handles)|
    ensures forall h: nat :: Enabled(s, ReleaseSlot(h)) ==> s.gate.active > 0
  {
    ReachableInv(s);
    forall h: nat | Enabled(s, ReleaseSlot(h)) ensures s.gate.active > 0 {
      assert h in Holding(s.handles);
    }
  }

  /** However often a handle is completed and released, its slot is returned once, and its
      generation is cancelled once if Complete came first and never if Release did. */
  lemma HandleRetiresOnce(s: State, h: nat)
    requires Reachable(s) && h < |s.handles| && s.handles[h].once.Fired?
    ensures s.handles[h].releases == 1
    ensures s.handles[h].cancels == if s.handles[h].once.byComplete then 1 else 0
  {
    ReachableInv(s);
  }

  /** A handle that Release got hold of first never cancels its generation, whatever is called on
      it later. */
  lemma {:induction false} ReleasedHandleNeverCancels(s: State, ts: seq<Step>, h: nat)
    requires Reachable(s) && Runs(s, ts) && h < |s.handles|
    requires s.handles[h].once in {Releasing(false), Fired(false)}
    ensures h < |After(s, ts).handles| && After(s, ts).handles[h].once in {Releasing(false), Fired(false)}
    ensures After(s, ts).handles[h].cancels == 0
    decreases |ts|
  {
    ReachableInv(s);
    if ts != [] {
      ReachableStep(s, ts[0]);
      ReleasedHandleNeverCancels(Apply(s, ts[0]), ts[1..], h);
    }
  }

  datatype Caller = Nobody | ByComplete | ByRelease

  /** Who calls the handle first. */
  function FirstCall(ts: seq<Step>, h: nat): Caller {
    if ts == [] then Nobody
    else if ts[0] == Complete(h) then ByComplete
    else if ts[0] == Release(h) then ByRelease
    else FirstCall(ts[1..], h)
  }

  lemma {:induction false} CompletedHandleCancels(s: State, ts: seq<Step>, h: nat)
    requires Runs(s, ts) && h < |s.handles|
    requires s.handles[h].once in {Cancelling, Releasing(true), Fired(true)}
    ensures h < |After(s, ts).handles| && After(s, ts).handles[h].once in {Cancelling, Releasing(true), Fired(true)}
    decreases |ts|
  {
    if ts != [] {
      CompletedHandleCancels(Apply(s, ts[0]), ts[1..], h);
    }
  }

  /** The first call decides what becomes of a handle, over every run: nothing retires it before one;
      a Complete cancels its generation, a Release does not, and both return its slot. */
  lemma {:induction false} FirstCallDecides(s: State, ts: seq<Step>, h: nat)
    requires Reachable(s) && Runs(s, ts) && h < |s.handles| && s.handles[h].once.Unfired?
    ensures h < |After(s, ts).handles|
    ensures var n := After(s, ts).handles[h];
            && (n.once.Unfired? <==> FirstCall(ts, h) == Nobody)
            && (n.once.Fired? ==>
                  n.releases == 1 && n.cancels == if FirstCall(ts, h) == ByComplete then 1 else 0)
            && (!n.once.Fired? ==> n.releases == 0)
    decreases |ts|
  {
    ReachableInv(s);
    assert HandleOk(s.handles[h]);
    if ts != [] {
      var n := Apply(s, ts[0]);
      ReachableStep(s, ts[0]);
      if ts[0] == Complete(h) {
        CompletedHandleCancels(n, ts[1..], h);
        RunKeepsInv(s, ts);
      } else if ts[0] == Release(h) {
        ReleasedHandleNeverCancels(n, ts[1..], h);
        RunKeepsInv(s, ts);
      } else {
        FirstCallDecides(n, ts[1..], h);
      }
    }
  }

  /** A request gets in, and takes a slot with a new handle, exactly when no reloader is between its
      claim and EndReload; and another reloader gets in under the same condition. */
  lemma GateAdmitsIff(s: State)
    requires Reachable(s)
    ensures Enabled(s, Admit) <==> s.reloaders == map[]
    ensures forall r: nat :: Enabled(s, BeginReload(r)) <==> s.reloaders == map[]
    ensures Enabled(s, Admit) ==>
              && Apply(s, Admit).gate.active == s.gate.active + 1
              && Apply(s, Admit).handles == s.handles + [Handle(Unfired, 0, 0)]
  {
    ReachableInv(s);
    forall r: nat ensures Enabled(s, BeginReload(r)) <==> s.reloaders == map[] {
      if s.reloaders == map[] { assert r !in s.reloaders; }
    }
  }

  /** So while a reload waits, requests that are in leave and none gets in. */
  lemma {:induction false} ReloadAdmitsNone(s: State, ts: seq<Step>, r: nat)
    requires Reachable(s) && r in s.reloaders && Runs(s, ts) && EndReload(r) !in ts
    ensures r in After(s, ts).reloaders
    ensures |After(s, ts).handles| == |s.handles| && After(s, ts).gate.active <= s.gate.active
    decreases |ts|
  {
    ReachableInv(s);
    if ts != [] {
      GateAdmitsIff(s);
      ReachableStep(s, ts[0]);
      ReloadAdmitsNone(Apply(s, ts[0]), ts[1..], r);
    }
  }

  /** Reload exclusion: `reloading` is one thread's. */
  lemma ReloadersExclude(s: State, q: nat, r: nat)
    requires Reachable(s) && q in s.reloaders && r in s.reloaders
    ensures q == r && s.gate.reloading
  {
    ReachableInv(s);
  }

  /** From BeginReload's return until EndReload the active count stays zero and no request gets in. */
  lemma {:induction false} ReloadRunsAlone(s: State, ts: seq<Step>, r: nat)
    requires Reachable(s) && IsReloader(s, r, Running) && Runs(s, ts) && EndReload(r) !in ts
    ensures After(s, ts) == s && s.gate == Gate(0, true)
    ensures forall h :: 0 <= h < |s.handles| ==> s.handles[h].once.Fired?
    decreases |ts|
  {
    ReachableInv(s);
    assert r in s.reloaders;
    forall h | 0 <= h < |s.handles| ensures s.handles[h].once.Fired? {
      assert Holding(s.handles) == {};
      assert h !in Holding(s.handles);
    }
    if ts != [] {
      assert Apply(s, ts[0]) == s;
      ReloadRunsAlone(s, ts[1..], r);
    }
  }

  /** A reload that has claimed the gate gets through exactly when every handle has been retired. */
  lemma ReloadDrainsIff(s: State, r: nat)
    requires Reachable(s) && IsReloader(s, r, Draining)
    ensures Enabled(s, Drain(r)) <==> forall h :: 0 <= h < |s.handles| ==> s.handles[h].once.Fired?
  {
    ReachableInv(s);
    if forall h :: 0 <= h < |s.handles| ==> s.handles[h].once.Fired? {
      assert Holding(s.handles) == {};
    } else {
      var h :| 0 <= h < |s.handles| && !s.handles[h].once.Fired?;
      assert h in Holding(s.handles);
    }
  }

  lemma {:induction false} RunsOn(s: State, ts: seq<Step>, t: Step)
    requires Runs(s, ts) && Enabled(After(s, ts), t)
    ensures Runs(s, ts + [t]) && After(s, ts + [t]) == Apply(After(s, ts), t)
    decreases |ts|
  {
    if ts == [] {
      assert (ts + [t])[1..] == [];
    } else {
      RunsOn(Apply(s, ts[0]), ts[1..], t);
      assert (ts + [t])[1..] == ts[1..] + [t];
    }
  }

  lemma ReachableStep(s: State, t: Step)
    requires Reachable(s) && Enabled(s, t)
    ensures Reachable(Apply(s, t))
  {
    var ts :| Runs(Start, ts) && After(Start, ts) == s;
    RunsOn(Start, ts, t);
  }
}
