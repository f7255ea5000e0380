/** The table of engines and active render generations (src/daemon/registry.go). Every function is
    one section under `registry.mu`; the class performs it in place. */
module EngineRegistry {
  import opened Wrappers

  /** Sessions are named by numbers here; the source keys them by the client's pid, as text. */
  type Session = nat

  /** `sessionState`: contexts, cancel functions and engines are named by numbers, and a context
      and its cancel function carry the same one. No caller keeps a pointer to a slot, so it is a
      value in the map. */
  datatype Slot = Slot(engine: nat, activeCtx: Option<nat>, activeCancel: Option<nat>, activeID: nat)

  datatype Registry = Registry(sessions: map<Session, Slot>, nextID: nat)

  /** Render IDs start at one, so zero is free to mean any render. */
  const ANY_RENDER: nat := 0

  predicate Serves(r: Registry, x: Session, configMatches: bool) {
    x in r.sessions && configMatches
  }

  /** GetOrCreateEngine; `created` is the engine the factory would return. */
  function Acquired(r: Registry, x: Session, configMatches: bool, created: nat): Registry {
    if Serves(r, x, configMatches) then r
    else r.(sessions := r.sessions[x := Slot(created, None, None, 0)])
  }

  function Installed(r: Registry, x: Session, ctx: nat): Registry {
    if x in r.sessions
    then Registry(r.sessions[x := Slot(r.sessions[x].engine, Some(ctx), Some(ctx), r.nextID + 1)], r.nextID + 1)
    else r
  }

  /** The render ID SetActiveRender returns: zero when the session is gone. */
  function InstalledID(r: Registry, x: Session): nat {
    if x in r.sessions then r.nextID + 1 else 0
  }

  function Active(r: Registry, x: Session): Option<(nat, nat)> {
    if x in r.sessions && r.sessions[x].activeCtx.Some?
    then Some((r.sessions[x].activeCtx.value, r.sessions[x].activeID))
    else None
  }

  /** Whether cancelActive takes the session's cancel function. */
  predicate Takes(r: Registry, x: Session, id: nat) {
    && x in r.sessions
    && r.sessions[x].activeCancel.Some?
    && (id == ANY_RENDER || r.sessions[x].activeID == id)
  }

  function Cleared(r: Registry, x: Session, id: nat): Registry {
    if Takes(r, x, id)
    then r.(sessions := r.sessions[x := Slot(r.sessions[x].engine, None, None, 0)])
    else r
  }

  function Removed(r: Registry, x: Session): Registry {
    r.(sessions := r.sessions - {x})
  }

  /** The invariant of one slot: context, cancel function and ID are set or cleared together. */
  predicate SlotOk(slot: Slot) {
    && slot.activeCtx == slot.activeCancel
    && (slot.activeCtx.None? <==> slot.activeID == 0)
  }

  predicate RegistryOk(r: Registry) {
    && (forall x :: x in r.sessions ==> SlotOk(r.sessions[x]) && r.sessions[x].activeID <= r.nextID)
    && (forall x, y :: x in r.sessions && y in r.sessions && x != y && r.sessions[x].activeID == r.sessions[y].activeID ==>
          r.sessions[x].activeID == 0)
  }

  /** Every other session keeps its slot, or its absence. */
  ghost predicate OthersKept(r: Registry, n: Registry, x: Session) {
    forall y :: y != x ==> (y in n.sessions <==> y in r.sessions) && (y in r.sessions ==> n.sessions[y] == r.sessions[y])
  }

  /** The session has the same engine in both. */
  predicate SameEngine(r: Registry, n: Registry, x: Session) {
    && (x in n.sessions <==> x in r.sessions)
    && (x in r.sessions ==> n.sessions[x].engine == r.sessions[x].engine)
  }

  /** A session that is served keeps its engine and its render; another gets the new engine, with no
      render on it; and no other session notices. */
  lemma AcquiringServes(r: Registry, x: Session, configMatches: bool, created: nat)
    ensures var n := Acquired(r, x, configMatches, created);
            && x in n.sessions && n.nextID == r.nextID && OthersKept(r, n, x)
            && (if x in r.sessions && configMatches
                then n.sessions[x] == r.sessions[x]
                else n.sessions[x].engine == created && Active(n, x).None?)
  {
  }

  /** `RenderHandle`, but for its engine. */
  datatype RenderHandle = RenderHandle(session: Session, ctx: nat, renderID: nat, reattached: bool)

  /** A Complete leaves the session's live generation alone exactly when it carries the ID of
      another one; a handle without an ID never does. */
  lemma CancelLeavesCurrentIff(r: Registry, x: Session, id: nat)
    requires RegistryOk(r) && Active(r, x).Some?
    ensures Active(Cleared(r, x, id), x) == Active(r, x) <==> id != ANY_RENDER && id != Active(r, x).value.1
    ensures forall y :: y != x ==> Active(Cleared(r, x, id), y) == Active(r, y)
  {
    assert SlotOk(r.sessions[x]);
  }

  class EngineRegistry {
    var sessions: map<Session, Slot>
    var nextID: nat

    function Abstract(): Registry
      reads this
    {
      Registry(sessions, nextID)
    }

    predicate Valid()
      reads this
    {
      RegistryOk(Abstract())
    }

    constructor ()
      ensures Valid() && Abstract() == Registry(map[], 0)
    {
      sessions, nextID := map[], 0;
    }

    method GetOrCreateEngine(x: Session, configMatches: bool, created: nat) returns (engine: nat)
      requires Valid()
      modifies this
      ensures Valid() && Abstract() == Acquired(old(Abstract()), x, configMatches, created)
      ensures x in sessions && sessions[x].engine == engine
      ensures x in old(sessions) && configMatches ==> engine == old(sessions)[x].engine && Abstract() == old(Abstract())
      ensures x !in old(sessions) || !configMatches ==> engine == created && Active(Abstract(), x).None?
      ensures OthersKept(old(Abstract()), Abstract(), x) && nextID == old(nextID)
    {
      if x in sessions && configMatches {
        return sessions[x].engine;
      }
      sessions := sessions[x := Slot(created, None, None, 0)];
      return created;
    }

    method SetActiveRender(x: Session, ctx: nat) returns (id: nat, ok: bool)
      requires Valid()
      modifies this
      ensures Valid() && Abstract() == Installed(old(Abstract()), x, ctx)
      ensures id == InstalledID(old(Abstract()), x)
      ensures ok <==> id != ANY_RENDER
      ensures ok ==> Active(Abstract(), x) == Some((ctx, id)) && id > old(nextID)
      ensures ok <==> x in old(sessions)
      ensures !ok ==> Abstract() == old(Abstract())
      ensures SameEngine(old(Abstract()), Abstract(), x) && OthersKept(old(Abstract()), Abstract(), x)
    {
      if x !in sessions {
        return 0, false;
      }
      nextID := nextID + 1;
      sessions := sessions[x := sessions[x].(activeCtx := Some(ctx), activeCancel := Some(ctx), activeID := nextID)];
      return nextID, true;
    }

    method GetActiveRender(x: Session) returns (active: Option<(nat, nat)>)
      ensures active == Active(Abstract(), x)
      ensures active.Some? <==> x in sessions && sessions[x].activeCtx.Some?
      ensures active.Some? ==> sessions[x].activeCtx == Some(active.value.0) && sessions[x].activeID == active.value.1
    {
      if x !in sessions || sessions[x].activeCtx.None? {
        return None;
      }
      return Some((sessions[x].activeCtx.value, sessions[x].activeID));
    }

    /** cancelActive up to the unlock: the function it returns is still to be called. */
    method CancelActive(x: Session, id: nat) returns (cancel: Option<nat>)
      requires Valid()
      modifies this
      ensures Valid() && Abstract() == Cleared(old(Abstract()), x, id)
      ensures cancel.Some? <==> Takes(old(Abstract()), x, id)
      ensures cancel.Some? ==> Active(old(Abstract()), x).Some? && Active(old(Abstract()), x).value.0 == cancel.value
      ensures cancel.Some? <==> Active(old(Abstract()), x).Some? && (id == ANY_RENDER || id == Active(old(Abstract()), x).value.1)
      ensures if cancel.Some? then Active(Abstract(), x).None? else Abstract() == old(Abstract())
      ensures SameEngine(old(Abstract()), Abstract(), x) && OthersKept(old(Abstract()), Abstract(), x) && nextID == old(nextID)
    {
      assert x in sessions ==> SlotOk(sessions[x]);
      if x !in sessions || sessions[x].activeCancel.None? || (id != ANY_RENDER && sessions[x].activeID != id) {
        return None;
      }
      cancel := sessions[x].activeCancel;
      sessions := sessions[x := sessions[x].(activeCtx := None, activeCancel := None, activeID := 0)];
    }

    /** StartRender with no other thread in between (`GenerationProtocol` lets them in): a soft
        cancel reattaches to a live generation of the session's engine, if there is one; any other
        start registers `ctx` under a new ID, a hard one after taking the cancel function of the
        live generation. */
    method StartRender(x: Session, configMatches: bool, created: nat, soft: bool, ctx: nat)
      returns (engine: nat, handle: RenderHandle, cancel: Option<nat>)
      requires Valid()
      modifies this
      ensures Valid() && x in sessions && engine == sessions[x].engine && handle.session == x
      ensures Active(Abstract(), x) == Some((handle.ctx, handle.renderID)) && handle.renderID != ANY_RENDER
      ensures handle.reattached <==> soft && configMatches && Active(old(Abstract()), x).Some?
      ensures handle.reattached ==> Abstract() == old(Abstract())
      ensures !handle.reattached ==> handle.ctx == ctx && handle.renderID > old(nextID)
      ensures cancel.Some? <==> !soft && configMatches && Active(old(Abstract()), x).Some?
      ensures cancel.Some? ==> cancel.value == Active(old(Abstract()), x).value.0
      ensures x in old(sessions) && configMatches ==> engine == old(sessions)[x].engine
      ensures x !in old(sessions) || !configMatches ==> engine == created
      ensures OthersKept(old(Abstract()), Abstract(), x)
    {
      engine := GetOrCreateEngine(x, configMatches, created);
      assert SlotOk(sessions[x]);
      cancel := None;
      if soft {
        var active := GetActiveRender(x);
        if active.Some? {
          return engine, RenderHandle(x, active.value.0, active.value.1, true), None;
        }
      } else {
        cancel := CancelActive(x, ANY_RENDER);
      }
      var id, ok := SetActiveRender(x, ctx);
      return engine, RenderHandle(x, ctx, id, false), cancel;
    }

    method RemoveSession(x: Session)
      requires Valid()
      modifies this
      ensures Valid() && Abstract() == Removed(old(Abstract()), x)
      ensures x !in sessions && OthersKept(old(Abstract()), Abstract(), x) && nextID == old(nextID)
    {
      sessions := sessions - {x};
    }

    method Reset()
      requires Valid()
      modifies this
      ensures Valid() && Abstract() == Registry(map[], old(nextID))
    {
      sessions := map[];
    }
  }
}
