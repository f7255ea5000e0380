/** Render handles and the store of update hubs (src/daemon/render_pipeline.go, session_store.go),
    each method taken without other threads; `HandleProtocol` and `GenerationProtocol` let them in. */
module RenderPipeline {
  import opened EngineRegistry
  import opened ReloadGate
  import opened Wrappers

  class ActiveRender {
    const registry: EngineRegistry
    const gate: ReloadGate
    const render: RenderHandle
    var fired: bool // `once`

    /** A new handle holds a slot of the gate, which the caller got admitted to. */
    constructor (registry: EngineRegistry, gate: ReloadGate, render: RenderHandle)
      ensures this.registry == registry && this.gate == gate && this.render == render && !fired
    {
      this.registry, this.gate, this.render := registry, gate, render;
      fired := false;
    }

    /** Cancels the generation and returns the slot, the first time; `cancel` is the cancel
        function the registry hands out for that. */
    method Complete() returns (cancel: Option<nat>)
      requires registry.Valid()
      modifies this, registry, gate
      ensures fired && registry.Valid()
      ensures old(fired) ==>
                registry.Abstract() == old(registry.Abstract()) && gate.Abstract() == old(gate.Abstract()) && cancel == None
      ensures !old(fired) ==>
                && registry.Abstract() == Cleared(old(registry.Abstract()), render.session, render.renderID)
                && gate.Abstract() == Released(old(gate.Abstract()))
                && (cancel.Some? <==> Takes(old(registry.Abstract()), render.session, render.renderID))
    {
      cancel := None;
      if !fired {
        fired := true;
        cancel := registry.CancelActive(render.session, render.renderID);
        gate.Release();
      }
    }

    /** Returns the slot, the first time, and leaves the generation alone. */
    method Release()
      modifies this, gate
      ensures fired
      ensures gate.Abstract() == if old(fired) then old(gate.Abstract()) else Released(old(gate.Abstract()))
    {
      if !fired {
        fired := true;
        gate.Release();
      }
    }
  }

  /** Hubs are named by numbers, in the order they are made. */
  class PromptSessionStore {
    const registry: EngineRegistry
    var hubs: map<Session, nat>
    var made: nat

    predicate Valid()
      reads this
    {
      && (forall x :: x in hubs ==> hubs[x] < made)
      && (forall x, y :: x in hubs && y in hubs && hubs[x] == hubs[y] ==> x == y)
    }

    constructor (registry: EngineRegistry)
      ensures Valid() && this.registry == registry && hubs == map[]
    {
      this.registry := registry;
      hubs, made := map[], 0;
    }

    /** Sessions keep their hub until it is dropped, and never share one. */
    method Hub(x: Session) returns (hub: nat)
      requires Valid()
      modifies this`hubs, this`made
      ensures Valid() && hubs == old(hubs)[x := hub]
      ensures x in old(hubs) ==> hub == old(hubs)[x]
      ensures x !in old(hubs) ==> hub == old(made) && made == old(made) + 1
    {
      if x in hubs {
        assert hubs[x := hubs[x]] == hubs;
        return hubs[x];
      }
      hub := made;
      made := made + 1;
      hubs := hubs[x := hub];
    }

    /** The hub goes first, and the engine in a second section. */
    method RemoveSession(x: Session)
      requires Valid() && registry.Valid()
      modifies this`hubs, registry
      ensures Valid() && hubs == old(hubs) - {x}
      ensures registry.Valid() && registry.Abstract() == Removed(old(registry.Abstract()), x)
    {
      hubs := hubs - {x};
      registry.RemoveSession(x);
    }

    method Reset()
      requires Valid() && registry.Valid()
      modifies this`hubs, registry
      ensures Valid() && hubs == map[]
      ensures registry.Valid() && registry.Abstract() == Registry(map[], old(registry.nextID))
    {
      hubs := map[];
      registry.Reset();
    }
  }
}
