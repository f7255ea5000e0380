/** Every interleaving of the threads that use the engine registry and the session store: the
    StartRender call of each session (one at a time), handles being completed, sessions being
    removed and the store being reset (src/daemon/registry.go, session_store.go, and their callers
    in render_pipeline.go and daemon.go). A transition is one lock section, or one call made
    outside a lock: cancelActive releases the lock before it calls the cancel function.

    A completeRender that found no handle still runs its two removals afterwards, at any later
    time, so RemoveSlot and DropHub are always enabled; so are the two halves of a store Reset. */
module GenerationProtocol {
  import opened EngineRegistry
  import opened Wrappers

  datatype Kind = Hard | Soft

  /** A render generation, that is, a context with its cancel function. */
  datatype Gen = Gen(session: Session, engine: nat, renderID: nat)

  /** Where a StartRender call is between GetOrCreateEngine and the return of newActiveRender. */
  datatype Call =
    | Attaching(kind: Kind, engine: nat)
    | Stopping(engine: nat)
    | Installing(engine: nat)
    | Fetching(gen: nat, reattached: bool)

  /** Who holds a cancel function taken under the registry's lock: the session's StartRender, or a
      thread completing a handle. */
  datatype Holder = ByStarter(x: Session) | ByCompleter(c: nat)

  /** A handle newActiveRender returned. */
  datatype Handle = Handle(gen: nat, hub: nat, reattached: bool)

  datatype State = State(
    reg: Registry,
    owner: seq<Session>,             // the engines made, and the session of each
    gens: seq<Gen>,
    cancels: seq<nat>,               // how often each generation was cancelled
    taken: map<Holder, nat>,         // cancel functions between the unlock and their call
    lost: set<nat>,                  // generations whose cancel function nobody can find any more
    calls: map<Session, Call>,
    hubs: map<Session, nat>,
    dropped: set<nat>,               // hubs that left the store
    hubCount: nat,
    published: map<nat, nat>,        // the hub each generation publishes to
    handles: set<Handle>)

  const Start := State(Registry(map[], 0), [], [], [], map[], {}, map[], map[], {}, 0, map[], {})

  datatype Step =
    | Acquire(x: Session, newKind: Kind, configMatches: bool)
    | Reattach(x: Session)
    | CancelPrior(x: Session)
    | AttachNone(x: Session)
    | Stop(x: Session)
    | Install(x: Session)
    | FetchHub(x: Session)
    | CompleteTakes(c: nat, x: Session, id: nat)
    | CompleteCalls(c: nat)
    | RemoveSlot(x: Session)
    | ClearRegistry
    | DropHub(x: Session)
    | ClearHubs

  // ---------------------------------------------------------------- transitions

  predicate MayCall(s: State, a: Holder) { a in s.taken && s.taken[a] < |s.cancels| }

  predicate Enabled(s: State, t: Step) {
    match t
    case Acquire(x, _, _) => x !in s.calls
    case Reattach(x) => x in s.calls && s.calls[x].Attaching? && s.calls[x].kind.Soft? && Active(s.reg, x).Some?
    case CancelPrior(x) =>
      x in s.calls && s.calls[x].Attaching? && s.calls[x].kind.Hard? && Takes(s.reg, x, ANY_RENDER)
    case AttachNone(x) =>
      && x in s.calls && s.calls[x].Attaching?
      && (if s.calls[x].kind.Soft? then Active(s.reg, x).None? else !Takes(s.reg, x, ANY_RENDER))
    case Stop(x) => x in s.calls && s.calls[x].Stopping? && MayCall(s, ByStarter(x))
    case Install(x) => x in s.calls && s.calls[x].Installing?
    case FetchHub(x) => x in s.calls && s.calls[x].Fetching?
    case CompleteTakes(c, x, id) => ByCompleter(c) !in s.taken && Takes(s.reg, x, id)
    case CompleteCalls(c) => MayCall(s, ByCompleter(c))
    case RemoveSlot(x) => true
    case ClearRegistry => true
    case DropHub(x) => true
    case ClearHubs => true
  }

  function At(s: State, x: Session, c: Call): State {
    s.(calls := s.calls[x := c])
  }

  /** The thread calls the cancel function it holds. */
  function Called(s: State, a: Holder): State
    requires MayCall(s, a)
  {
    var g := s.taken[a];
    s.(cancels := s.cancels[g := s.cancels[g] + 1], taken := s.taken - {a})
  }

  /** PromptSessionStore.Hub. */
  function HubOf(s: State, x: Session): nat {
    if x in s.hubs then s.hubs[x] else s.hubCount
  }

  /** The generation a slot takes with it when it is removed or replaced. */
  function ActiveOf(r: Registry, x: Session): set<nat> {
    if x in r.sessions && r.sessions[x].activeCancel.Some? then {r.sessions[x].activeCancel.value} else {}
  }

  function AllActive(r: Registry): set<nat> {
    set x | x in r.sessions && r.sessions[x].activeCancel.Some? :: r.sessions[x].activeCancel.value
  }

  function Apply(s: State, t: Step): State
    requires Enabled(s, t)
  {
    match t
    case Acquire(x, kind, configMatches) =>
      var r := Acquired(s.reg, x, configMatches, |s.owner|);
      At(s, x, Attaching(kind, r.sessions[x].engine))
        .(reg := r, owner := s.owner + [x],
          lost := if Serves(s.reg, x, configMatches) then s.lost else s.lost + ActiveOf(s.reg, x))
    case Reattach(x) => At(s, x, Fetching(Active(s.reg, x).value.0, true))
    case CancelPrior(x) =>
      At(s, x, Stopping(s.calls[x].engine))
        .(reg := Cleared(s.reg, x, ANY_RENDER),
          taken := s.taken[ByStarter(x) := s.reg.sessions[x].activeCancel.value])
    case AttachNone(x) => At(s, x, Installing(s.calls[x].engine))
    case Stop(x) => At(Called(s, ByStarter(x)), x, Installing(s.calls[x].engine))
    case Install(x) =>
      At(s, x, Fetching(|s.gens|, false))
        .(reg := Installed(s.reg, x, |s.gens|),
          gens := s.gens + [Gen(x, s.calls[x].engine, InstalledID(s.reg, x))], cancels := s.cancels + [0],
          lost := if x in s.reg.sessions then s.lost else s.lost + {|s.gens|})
    case FetchHub(x) =>
      var c := s.calls[x];
      var k := HubOf(s, x);
      s.(calls := s.calls - {x},
         hubs := s.hubs[x := k],
         hubCount := if x in s.hubs then s.hubCount else s.hubCount + 1,
         published := if c.reattached then s.published else s.published[c.gen := k],
         handles := s.handles + {Handle(c.gen, k, c.reattached)})
    case CompleteTakes(c, x, id) =>
      s.(reg := Cleared(s.reg, x, id), taken := s.taken[ByCompleter(c) := s.reg.sessions[x].activeCancel.value])
    case CompleteCalls(c) => Called(s, ByCompleter(c))
    case RemoveSlot(x) => s.(reg := Removed(s.reg, x), lost := s.lost + ActiveOf(s.reg, x))
    case ClearRegistry => s.(reg := Registry(map[], s.reg.nextID), lost := s.lost + AllActive(s.reg))
    case DropHub(x) =>
      s.(hubs := s.hubs - {x}, dropped := s.dropped + (if x in s.hubs then {s.hubs[x]} else {}))
    case ClearHubs => s.(hubs := map[], dropped := s.dropped + s.hubs.Values)
  }

  ghost predicate Runs(s: State, ts: seq<Step>)
    decreases |ts|
  {
    ts == [] || (Enabled(s, ts[0]) && Runs(Apply(s, ts[0]), ts[1..]))
  }

  ghost function After(s: State, ts: seq<Step>): State
    requires Runs(s, ts)
    decreases |ts|
  {
    if ts == [] then s else After(Apply(s, ts[0]), ts[1..])
  }

  /** Some run of the protocol ends in s. */
  ghost predicate Reachable(s: State) {
    exists ts :: Runs(Start, ts) && After(Start, ts) == s
  }

  // ---------------------------------------------------------------- invariants

  predicate Doomed(taken: map<Holder, nat>, g: nat) {
    exists a :: a in taken && taken[a] == g
  }

  /** Each generation is cancelled at most once: its cancel function is in one place at a time. */
  ghost predicate CancelsOk(reg: Registry, cancels: seq<nat>, taken: map<Holder, nat>, lost: set<nat>) {
    && (forall g :: 0 <= g < |cancels| ==> cancels[g] <= 1)
    && (forall g :: g in lost ==> g < |cancels| && cancels[g] == 0)
    && (forall a :: a in taken ==> taken[a] < |cancels| && cancels[taken[a]] == 0 && taken[a] !in lost)
    && (forall a, b :: a in taken && b in taken && taken[a] == taken[b] ==> a == b)
    && (forall x :: x in reg.sessions && reg.sessions[x].activeCancel.Some? ==>
          var g := reg.sessions[x].activeCancel.value;
          g < |cancels| && cancels[g] == 0 && g !in lost && forall a :: a in taken ==> taken[a] != g)
  }

  /** A StartRender holds a cancel function exactly while it is about to call it. */
  ghost predicate StoppersOk(calls: map<Session, Call>, taken: map<Holder, nat>) {
    && (forall x :: ByStarter(x) in taken ==> x in calls && calls[x].Stopping?)
    && (forall x :: x in calls && calls[x].Stopping? ==> ByStarter(x) in taken)
  }

  /** Render IDs increase, and zero only marks a generation that could not be registered. */
  ghost predicate IDsOk(reg: Registry, gens: seq<Gen>) {
    && (forall x :: x in reg.sessions ==> SlotOk(reg.sessions[x]))
    && (forall x :: x in reg.sessions && reg.sessions[x].activeCancel.Some? ==>
          var g := reg.sessions[x].activeCancel.value;
          g < |gens| && reg.sessions[x].activeID == gens[g].renderID && gens[g].session == x)
    && (forall g :: 0 <= g < |gens| ==> gens[g].renderID <= reg.nextID)
    && (forall f, g :: 0 <= f < g < |gens| && gens[f].renderID != 0 && gens[g].renderID != 0 ==>
          gens[f].renderID < gens[g].renderID)
  }

  function EngineOf(c: Call): Option<nat> {
    match c
    case Attaching(_, e) => Some(e)
    case Stopping(e) => Some(e)
    case Installing(e) => Some(e)
    case Fetching(_, _) => None
  }

  /** An engine serves one session. */
  ghost predicate EnginesOk(reg: Registry, owner: seq<Session>, gens: seq<Gen>) {
    && (forall g :: 0 <= g < |gens| ==> gens[g].engine < |owner| && owner[gens[g].engine] == gens[g].session)
    && (forall x :: x in reg.sessions ==> reg.sessions[x].engine < |owner| && owner[reg.sessions[x].engine] == x)
  }

  /** While a StartRender works on an engine the registry holds no other for its session, and from
      its cancel on no active render. */
  predicate WorksOn(reg: Registry, owner: seq<Session>, x: Session, c: Call) {
    EngineOf(c).Some? ==>
      var e := EngineOf(c).value;
      && e < |owner| && owner[e] == x
      && (x in reg.sessions ==> reg.sessions[x].engine == e)
      && (x in reg.sessions && !c.Attaching? ==> reg.sessions[x].activeCancel.None?)
  }

  ghost predicate WorkOk(reg: Registry, owner: seq<Session>, calls: map<Session, Call>) {
    forall x :: x in calls ==> WorksOn(reg, owner, x, calls[x])
  }

  /** Every generation is cancelled, or active, or about to be cancelled by whoever took its cancel
      function, or lost. */
  ghost predicate Placed(reg: Registry, gens: seq<Gen>, cancels: seq<nat>, taken: map<Holder, nat>, lost: set<nat>) {
    && |cancels| == |gens|
    && forall g :: 0 <= g < |gens| && cancels[g] == 0 ==>
         || (gens[g].session in reg.sessions && reg.sessions[gens[g].session].activeCancel == Some(g))
         || Doomed(taken, g)
         || g in lost
  }

  /** The hub a generation publishes to is the session's, until it leaves the store. */
  ghost predicate HubsOk(
    hubs: map<Session, nat>, dropped: set<nat>, hubCount: nat, gens: seq<Gen>, published: map<nat, nat>)
  {
    && (forall x :: x in hubs ==> hubs[x] < hubCount && hubs[x] !in dropped)
    && (forall x, y :: x in hubs && y in hubs && hubs[x] == hubs[y] ==> x == y)
    && (forall k :: k in dropped ==> k < hubCount)
    && (forall g :: g in published ==>
          && g < |gens|
          && published[g] < hubCount
          && (published[g] in dropped || (gens[g].session in hubs && hubs[gens[g].session] == published[g])))
  }

  /** A StartRender that is about to fetch the hub has a generation of its session. */
  ghost predicate FetchersOk(gens: seq<Gen>, published: map<nat, nat>, calls: map<Session, Call>) {
    forall x :: x in calls && calls[x].Fetching? ==>
      && calls[x].gen < |gens| && gens[calls[x].gen].session == x
      && (calls[x].reattached <==> calls[x].gen in published)
  }

  /** A handle that was not reattached reads the hub its generation publishes to. */
  ghost predicate HandlesOk(handles: set<Handle>, published: map<nat, nat>) {
    forall h :: h in handles && !h.reattached ==> h.gen in published && published[h.gen] == h.hub
  }

  /** A registered generation publishes, unless its StartRender has not fetched the hub yet. */
  ghost predicate PublishedOk(reg: Registry, published: map<nat, nat>, calls: map<Session, Call>) {
    forall x :: x in reg.sessions && reg.sessions[x].activeCtx.Some? ==>
      var g := reg.sessions[x].activeCtx.value;
      g in published || (x in calls && calls[x] == Fetching(g, false))
  }

  ghost predicate GenerationsOk(
    reg: Registry, gens: seq<Gen>, cancels: seq<nat>, taken: map<Holder, nat>, lost: set<nat>)
  {
    CancelsOk(reg, cancels, taken, lost) && IDsOk(reg, gens) && Placed(reg, gens, cancels, taken, lost)
  }

  ghost predicate Inv(s: State) {
    && GenerationsOk(s.reg, s.gens, s.cancels, s.taken, s.lost)
    && StoppersOk(s.calls, s.taken)
    && EnginesOk(s.reg, s.owner, s.gens) && WorkOk(s.reg, s.owner, s.calls)
    && HubsOk(s.hubs, s.dropped, s.hubCount, s.gens, s.published)
    && FetchersOk(s.gens, s.published, s.calls) && PublishedOk(s.reg, s.published, s.calls)
    && HandlesOk(s.handles, s.published)
  }

  lemma HolderAdded(taken: map<Holder, nat>, a: Holder, g: nat)
    requires a !in taken
    ensures Doomed(taken[a := g], g)
    ensures forall f :: Doomed(taken, f) ==> Doomed(taken[a := g], f)
  {
    assert taken[a := g][a] == g;
    forall f | Doomed(taken, f) ensures Doomed(taken[a := g], f) {
      var b :| b in taken && taken[b] == f;
      assert taken[a := g][b] == f;
    }
  }

  lemma HolderDropped(taken: map<Holder, nat>, a: Holder)
    requires a in taken
    ensures forall f :: Doomed(taken, f) && f != taken[a] ==> Doomed(taken - {a}, f)
  {
    forall f | Doomed(taken, f) && f != taken[a] ensures Doomed(taken - {a}, f) {
      var b :| b in taken && taken[b] == f;
      assert (taken - {a})[b] == f;
    }
  }

  /** Some holder takes the cancel function of session x. */
  lemma TakingKeeps(
    reg: Registry, gens: seq<Gen>, cancels: seq<nat>, taken: map<Holder, nat>, lost: set<nat>, a: Holder, x: Session, id: nat)
    requires GenerationsOk(reg, gens, cancels, taken, lost) && a !in taken && Takes(reg, x, id)
    ensures GenerationsOk(Cleared(reg, x, id), gens, cancels, taken[a := reg.sessions[x].activeCancel.value], lost)
  {
    HolderAdded(taken, a, reg.sessions[x].activeCancel.value);
  }

  /** A holder calls the cancel function it took. */
  lemma CallingKeeps(reg: Registry, gens: seq<Gen>, cancels: seq<nat>, taken: map<Holder, nat>, lost: set<nat>, a: Holder)
    requires GenerationsOk(reg, gens, cancels, taken, lost) && a in taken
    ensures GenerationsOk(reg, gens, cancels[taken[a] := cancels[taken[a]] + 1], taken - {a}, lost)
  {
    HolderDropped(taken, a);
  }

  function LostBy(reg: Registry, x: Session, g: nat): set<nat> { if x in reg.sessions then {} else {g} }

  lemma InstallingKeepsCancels(reg: Registry, cancels: seq<nat>, taken: map<Holder, nat>, lost: set<nat>, x: Session)
    requires CancelsOk(reg, cancels, taken, lost)
    ensures CancelsOk(Installed(reg, x, |cancels|), cancels + [0], taken, lost + LostBy(reg, x, |cancels|))
  {
  }

  /** SetActiveRender, for a StartRender that works on engine e. */
  lemma InstallingKeeps(
    reg: Registry, gens: seq<Gen>, cancels: seq<nat>, taken: map<Holder, nat>, lost: set<nat>, x: Session, e: nat)
    requires IDsOk(reg, gens) && Placed(reg, gens, cancels, taken, lost)
    requires x in reg.sessions ==> reg.sessions[x].activeCancel.None?
    ensures var g := gens + [Gen(x, e, InstalledID(reg, x))];
            && IDsOk(Installed(reg, x, |gens|), g)
            && Placed(Installed(reg, x, |gens|), g, cancels + [0], taken, lost + LostBy(reg, x, |gens|))
  {
  }

  /** Slots disappear, or appear without a generation, and what they held is lost. */
  predicate Forgets(reg: Registry, n: Registry, lost: set<nat>, more: set<nat>) {
    && n.nextID == reg.nextID
    && (forall x :: x in n.sessions ==>
          || (x in reg.sessions && n.sessions[x] == reg.sessions[x])
          || n.sessions[x] == Slot(n.sessions[x].engine, None, None, 0))
    && lost <= more
    && (forall x :: x in reg.sessions && reg.sessions[x].activeCancel.Some? ==>
          (x in n.sessions && n.sessions[x] == reg.sessions[x]) || reg.sessions[x].activeCancel.value in more)
    && (forall g :: g in more && g !in lost ==>
          exists x :: x in reg.sessions && reg.sessions[x].activeCancel == Some(g)
                      && !(x in n.sessions && n.sessions[x] == reg.sessions[x]))
  }

  lemma ForgettingKeeps(
    reg: Registry, n: Registry, gens: seq<Gen>, cancels: seq<nat>, taken: map<Holder, nat>, lost: set<nat>, more: set<nat>)
    requires GenerationsOk(reg, gens, cancels, taken, lost) && Forgets(reg, n, lost, more)
    ensures GenerationsOk(n, gens, cancels, taken, more)
  {
  }

  lemma KeepsStoppers(s: State, t: Step)
    requires StoppersOk(s.calls, s.taken)
    requires Enabled(s, t)
    ensures var n := Apply(s, t); StoppersOk(n.calls, n.taken)
  {
  }

  lemma KeepsEngines(s: State, t: Step)
    requires EnginesOk(s.reg, s.owner, s.gens) && WorkOk(s.reg, s.owner, s.calls)
    requires Enabled(s, t)
    ensures var n := Apply(s, t); EnginesOk(n.reg, n.owner, n.gens)
  {
  }

  lemma KeepsWorkOf(s: State, t: Step, x: Session)
    requires EnginesOk(s.reg, s.owner, s.gens) && IDsOk(s.reg, s.gens) && Enabled(s, t) && x in Apply(s, t).calls
    requires x in s.calls ==> WorksOn(s.reg, s.owner, x, s.calls[x])
    ensures var n := Apply(s, t); WorksOn(n.reg, n.owner, x, n.calls[x])
  {
  }

  lemma KeepsWork(s: State, t: Step)
    requires EnginesOk(s.reg, s.owner, s.gens) && WorkOk(s.reg, s.owner, s.calls) && IDsOk(s.reg, s.gens)
    requires Enabled(s, t)
    ensures var n := Apply(s, t); WorkOk(n.reg, n.owner, n.calls)
  {
    forall x | x in Apply(s, t).calls { KeepsWorkOf(s, t, x); }
  }

  lemma TakersKeepGenerations(s: State, t: Step)
    requires GenerationsOk(s.reg, s.gens, s.cancels, s.taken, s.lost) && StoppersOk(s.calls, s.taken)
    requires Enabled(s, t) && (t.CancelPrior? || t.CompleteTakes?)
    ensures var n := Apply(s, t); GenerationsOk(n.reg, n.gens, n.cancels, n.taken, n.lost)
  {
    match t
    case CancelPrior(x) => TakingKeeps(s.reg, s.gens, s.cancels, s.taken, s.lost, ByStarter(x), x, ANY_RENDER);
    case CompleteTakes(c, x, id) => TakingKeeps(s.reg, s.gens, s.cancels, s.taken, s.lost, ByCompleter(c), x, id);
  }

  lemma CallersKeepGenerations(s: State, t: Step)
    requires GenerationsOk(s.reg, s.gens, s.cancels, s.taken, s.lost)
    requires Enabled(s, t) && (t.Stop? || t.CompleteCalls?)
    ensures var n := Apply(s, t); GenerationsOk(n.reg, n.gens, n.cancels, n.taken, n.lost)
  {
    CallingKeeps(s.reg, s.gens, s.cancels, s.taken, s.lost, if t.Stop? then ByStarter(t.x) else ByCompleter(t.c));
  }

  lemma ForgettersKeepGenerations(s: State, t: Step)
    requires GenerationsOk(s.reg, s.gens, s.cancels, s.taken, s.lost)
    requires Enabled(s, t) && (t.Acquire? || t.RemoveSlot? || t.ClearRegistry?)
    ensures var n := Apply(s, t); GenerationsOk(n.reg, n.gens, n.cancels, n.taken, n.lost)
  {
    var n := Apply(s, t);
    assert Forgets(s.reg, n.reg, s.lost, n.lost);
    ForgettingKeeps(s.reg, n.reg, s.gens, s.cancels, s.taken, s.lost, n.lost);
  }

  lemma KeepsGenerations(s: State, t: Step)
    requires GenerationsOk(s.reg, s.gens, s.cancels, s.taken, s.lost) && StoppersOk(s.calls, s.taken)
    requires EnginesOk(s.reg, s.owner, s.gens) && WorkOk(s.reg, s.owner, s.calls)
    requires Enabled(s, t)
    ensures var n := Apply(s, t); GenerationsOk(n.reg, n.gens, n.cancels, n.taken, n.lost)
  {
    if t.CancelPrior? || t.CompleteTakes? {
      TakersKeepGenerations(s, t);
    } else if t.Stop? || t.CompleteCalls? {
      CallersKeepGenerations(s, t);
    } else if t.Install? {
      InstallingKeepsCancels(s.reg, s.cancels, s.taken, s.lost, t.x);
      InstallingKeeps(s.reg, s.gens, s.cancels, s.taken, s.lost, t.x, s.calls[t.x].engine);
    } else if t.Acquire? || t.RemoveSlot? || t.ClearRegistry? {
      ForgettersKeepGenerations(s, t);
    }
  }

  lemma FetchingKeeps(
    hubs: map<Session, nat>, dropped: set<nat>, hubCount: nat, gens: seq<Gen>, published: map<nat, nat>,
    x: Session, g: nat, again: bool)
    requires HubsOk(hubs, dropped, hubCount, gens, published) && g < |gens| && gens[g].session == x
    ensures var k := if x in hubs then hubs[x] else hubCount;
            HubsOk(hubs[x := k], dropped, if x in hubs then hubCount else hubCount + 1, gens,
                   if again then published else published[g := k])
  {
  }

  lemma KeepsHubs(s: State, t: Step)
    requires HubsOk(s.hubs, s.dropped, s.hubCount, s.gens, s.published)
    requires FetchersOk(s.gens, s.published, s.calls)
    requires Enabled(s, t)
    ensures var n := Apply(s, t); HubsOk(n.hubs, n.dropped, n.hubCount, n.gens, n.published)
  {
    match t
    case FetchHub(x) =>
      FetchingKeeps(s.hubs, s.dropped, s.hubCount, s.gens, s.published, x, s.calls[x].gen, s.calls[x].reattached);
    case _ =>
  }

  lemma KeepsFetchers(s: State, t: Step)
    requires FetchersOk(s.gens, s.published, s.calls) && PublishedOk(s.reg, s.published, s.calls)
    requires HubsOk(s.hubs, s.dropped, s.hubCount, s.gens, s.published)
    requires IDsOk(s.reg, s.gens) && Enabled(s, t)
    ensures var n := Apply(s, t); FetchersOk(n.gens, n.published, n.calls)
  {
  }

  lemma KeepsPublished(s: State, t: Step)
    requires PublishedOk(s.reg, s.published, s.calls) && Enabled(s, t)
    ensures var n := Apply(s, t); PublishedOk(n.reg, n.published, n.calls)
  {
  }

  lemma KeepsHandles(s: State, t: Step)
    requires HandlesOk(s.handles, s.published) && FetchersOk(s.gens, s.published, s.calls) && Enabled(s, t)
    ensures HandlesOk(Apply(s, t).handles, Apply(s, t).published)
  {
  }

  lemma {:induction false} RunKeepsInv(s: State, ts: seq<Step>)
    requires Inv(s) && Runs(s, ts)
    ensures Inv(After(s, ts))
    decreases |ts|
  {
    if ts != [] {
      var t := ts[0];
      KeepsGenerations(s, t);
      KeepsStoppers(s, t);
      KeepsEngines(s, t);
      KeepsWork(s, t);
      KeepsHubs(s, t);
      KeepsFetchers(s, t);
      KeepsPublished(s, t);
      KeepsHandles(s, t);
      RunKeepsInv(Apply(s, t), ts[1..]);
    }
  }

  lemma ReachableInv(s: State)
    requires Reachable(s)
    ensures Inv(s)
  {
    var ts :| Runs(Start, ts) && After(Start, ts) == s;
    RunKeepsInv(Start, ts);
  }

  // ---------------------------------------------------------------- theorems

  /** However many threads retire it, a generation is cancelled once at most, and the number it
      got from SetActiveRender is above that of every registered generation before it. */
  lemma GenerationsAreDistinct(s: State, f: nat, g: nat)
    requires Reachable(s) && f < g < |s.gens|
    ensures |s.cancels| == |s.gens| && s.cancels[f] <= 1 && s.cancels[g] <= 1
    ensures s.gens[g].renderID == 0 || s.gens[f].renderID < s.gens[g].renderID
  {
    ReachableInv(s);
  }

  /** Context, cancel function and ID of a session are set or cleared together, and are those of
      one generation of the session, which is not cancelled. */
  lemma ActiveRenderIsOne(s: State, x: Session)
    requires Reachable(s) && x in s.reg.sessions
    ensures s.reg.sessions[x].activeCtx == s.reg.sessions[x].activeCancel
    ensures s.reg.sessions[x].activeCtx.None? <==> s.reg.sessions[x].activeID == 0
    ensures s.reg.sessions[x].activeCtx.Some? ==>
              var g := s.reg.sessions[x].activeCtx.value;
              && g < |s.gens| && s.gens[g].session == x && s.gens[g].renderID == s.reg.sessions[x].activeID
              && g < |s.cancels| && s.cancels[g] == 0
  {
    ReachableInv(s);
    assert SlotOk(s.reg.sessions[x]);
  }

  /** Of the generations of an engine at most one is neither cancelled, nor about to be, nor lost;
      and it is the active one of its session. */
  lemma EngineHasOneLive(s: State, f: nat, g: nat)
    requires Reachable(s) && f < |s.gens| && g < |s.gens| && s.gens[f].engine == s.gens[g].engine
    requires |s.cancels| == |s.gens| && s.cancels[f] == 0 && s.cancels[g] == 0
    requires !Doomed(s.taken, f) && !Doomed(s.taken, g) && f !in s.lost && g !in s.lost
    ensures f == g && s.gens[f].session in s.reg.sessions
    ensures s.reg.sessions[s.gens[f].session].activeCancel == Some(f)
  {
    ReachableInv(s);
  }

  /** Some thread took a cancel function of the engine under the lock and has yet to call it. */
  predicate CancelInFlight(s: State, e: nat) {
    exists a :: a in s.taken && s.taken[a] < |s.gens| && s.gens[s.taken[a]].engine == e
  }

  /** The session's slot was removed or replaced over a generation of the engine, or one could not
      be registered, so nobody can cancel it. */
  predicate HasLost(s: State, e: nat) {
    exists g :: g in s.lost && g < |s.gens| && s.gens[g].engine == e
  }

  /** Every generation begun on the engine so far is cancelled. */
  predicate AllCancelled(s: State, e: nat) {
    forall g :: 0 <= g < |s.gens| && g < |s.cancels| && s.gens[g].engine == e ==> s.cancels[g] == 1
  }

  /** A StartRender that is about to begin a generation has superseded all earlier ones of its engine
      exactly when no other thread is between taking one's cancel function and calling it, and
      none has been lost. */
  lemma InstallSupersedesAllIff(s: State, x: Session)
    requires Reachable(s) && Enabled(s, Install(x))
    ensures AllCancelled(s, s.calls[x].engine) <==>
            !CancelInFlight(s, s.calls[x].engine) && !HasLost(s, s.calls[x].engine)
  {
    ReachableInv(s);
    var e := s.calls[x].engine;
    if !AllCancelled(s, e) {
      var g :| 0 <= g < |s.gens| && g < |s.cancels| && s.gens[g].engine == e && s.cancels[g] != 1;
      assert s.gens[g].session == s.owner[e] == x;
      if Doomed(s.taken, g) {
        var a :| a in s.taken && s.taken[a] == g;
        assert CancelInFlight(s, e);
      } else {
        assert g in s.lost;
        assert HasLost(s, e);
      }
    }
  }

  /** What is lost stays uncancelled. */
  lemma {:induction false} LostStaysLive(s: State, ts: seq<Step>, g: nat)
    requires Reachable(s) && Runs(s, ts) && g in s.lost
    ensures g in After(s, ts).lost && g < |After(s, ts).cancels| && After(s, ts).cancels[g] == 0
    decreases |ts|
  {
    ReachableInv(s);
    if ts != [] {
      var n := Stepped(s, ts[0]);
      LostStaysLive(n, ts[1..], g);
    }
  }

  /** A handle with a render ID cancels its own generation or none. */
  lemma CompleteTakesItsOwn(s: State, g: nat)
    requires Reachable(s) && g < |s.gens| && s.gens[g].renderID != ANY_RENDER
    requires Takes(s.reg, s.gens[g].session, s.gens[g].renderID)
    ensures s.reg.sessions[s.gens[g].session].activeCancel == Some(g)
  {
    ReachableInv(s);
  }

  /** A reattached handle reads the hub its generation publishes to exactly when that hub has not
      left the store since. */
  lemma ReattachedReadsPublishersHubIff(s: State, x: Session)
    requires Reachable(s) && Enabled(s, FetchHub(x)) && s.calls[x].reattached
    ensures s.calls[x].gen in s.published
    ensures HubOf(s, x) == s.published[s.calls[x].gen] <==> s.published[s.calls[x].gen] !in s.dropped
  {
    ReachableInv(s);
  }

  /** A handle that was not reattached reads the hub its generation publishes to, for good. */
  lemma FreshHandleReadsPublishersHub(s: State, h: Handle)
    requires Reachable(s) && h in s.handles && !h.reattached
    ensures h.gen in s.published && s.published[h.gen] == h.hub
  {
    ReachableInv(s);
  }

  /** A StartRender has one way on: a soft one reattaches to the live generation, a hard one takes
      its cancel function, and without a live generation either starts a fresh one. */
  lemma StarterHasOneWay(s: State, x: Session)
    requires Reachable(s) && x in s.calls && s.calls[x].Attaching?
    ensures var live := x in s.reg.sessions && s.reg.sessions[x].activeCtx.Some?;
            && (Enabled(s, Reattach(x)) <==> s.calls[x].kind.Soft? && live)
            && (Enabled(s, CancelPrior(x)) <==> s.calls[x].kind.Hard? && live)
            && (Enabled(s, AttachNone(x)) <==> !live)
            && (live && s.calls[x].kind.Soft? ==>
                  Apply(s, Reattach(x)).calls[x] == Fetching(s.reg.sessions[x].activeCtx.value, true)
                  && Apply(s, Reattach(x)).reg == s.reg)
            && (live && s.calls[x].kind.Hard? ==>
                  ByStarter(x) in Apply(s, CancelPrior(x)).taken
                  && s.reg.sessions[x].activeCtx == Some(Apply(s, CancelPrior(x)).taken[ByStarter(x)]))
  {
    ReachableInv(s);
    if x in s.reg.sessions { assert SlotOk(s.reg.sessions[x]); }
  }

  /** The step neither removes the session's slot nor replaces it for another config. */
  predicate SparesSlot(t: Step, x: Session) {
    && t != RemoveSlot(x)
    && !t.ClearRegistry?
    && (t.Acquire? && t.x == x ==> t.configMatches)
  }

  lemma {:induction false} SessionKeepsEngine(s: State, ts: seq<Step>, x: Session)
    requires Runs(s, ts) && x in s.reg.sessions
    requires forall t :: t in ts ==> SparesSlot(t, x)
    ensures x in After(s, ts).reg.sessions && After(s, ts).reg.sessions[x].engine == s.reg.sessions[x].engine
    decreases |ts|
  {
    if ts != [] {
      assert SparesSlot(ts[0], x);
      SessionKeepsEngine(Apply(s, ts[0]), ts[1..], x);
    }
  }

  /** Two StartRenders of a session work on one engine, whatever happens in between, unless its slot
      is removed or replaced. */
  lemma StartRendersShareTheEngine(s: State, kind: Kind, matches: bool, ts: seq<Step>, x: Session, again: Kind)
    requires Enabled(s, Acquire(x, kind, matches)) && Runs(Apply(s, Acquire(x, kind, matches)), ts)
    requires forall t :: t in ts ==> SparesSlot(t, x)
    requires Enabled(After(Apply(s, Acquire(x, kind, matches)), ts), Acquire(x, again, true))
    ensures var first := Apply(s, Acquire(x, kind, matches));
            var second := Apply(After(first, ts), Acquire(x, again, true));
            && EngineOf(first.calls[x]).Some?
            && EngineOf(second.calls[x]) == EngineOf(first.calls[x]) == Some(first.reg.sessions[x].engine)
            && (x in s.reg.sessions && matches ==> first.reg.sessions[x].engine == s.reg.sessions[x].engine)
  {
    var first := Apply(s, Acquire(x, kind, matches));
    SessionKeepsEngine(first, ts, x);
    AcquiringServes(s.reg, x, matches, |s.owner|);
    var m := After(first, ts);
    AcquiringServes(m.reg, x, true, |m.owner|);
  }

  /** And a StartRender begins its generation on the engine it got. */
  lemma GenerationIsOnItsEngine(s: State, t: Step, x: Session)
    requires Enabled(s, t) && x in s.calls && EngineOf(s.calls[x]).Some? && x in Apply(s, t).calls
    ensures EngineOf(Apply(s, t).calls[x]).Some? ==> EngineOf(Apply(s, t).calls[x]) == EngineOf(s.calls[x])
    ensures t == Install(x) ==>
              && |Apply(s, t).gens| == |s.gens| + 1
              && Apply(s, t).gens[|s.gens|].engine == EngineOf(s.calls[x]).value
              && Apply(s, t).gens[|s.gens|].session == x
              && Apply(s, t).calls[x] == Fetching(|s.gens|, false)
  {
  }

  // ---------------------------------------------------------------- runs that go wrong

  lemma {:induction false} RunsOn(s: State, ts: seq<Step>, t: Step)
    requires Runs(s, ts) && Enabled(After(s, ts), t)
    ensures Runs(s, ts + [t]) && After(s, ts + [t]) == Apply(After(s, ts), t)
    decreases |ts|
  {
    if ts == [] {
      assert (ts + [t])[1..] == [];
    } else {
      RunsOn(Apply(s, ts[0]), ts[1..], t);
      assert (ts + [t])[1..] == ts[1..] + [t];
    }
  }

  lemma Stepped(s: State, t: Step) returns (n: State)
    requires Reachable(s) && Enabled(s, t)
    ensures n == Apply(s, t) && Reachable(n)
  {
    var ts :| Runs(Start, ts) && After(Start, ts) == s;
    RunsOn(Start, ts, t);
    n := Apply(s, t);
  }

  lemma Started() returns (s: State)
    ensures s == Start && Reachable(s)
  {
    assert Runs(Start, []) && After(Start, []) == Start;
    s := Start;
  }

  /** A StartRender that finds nothing to cancel, up to the point where it registers. */
  lemma Attached(s: State, x: Session) returns (n: State)
    requires Reachable(s) && x !in s.calls && !Takes(s.reg, x, ANY_RENDER)
    ensures Reachable(n)
    ensures var r := Acquired(s.reg, x, true, |s.owner|);
            n == s.(reg := r, owner := s.owner + [x], calls := s.calls[x := Installing(r.sessions[x].engine)])
  {
    var s1 := Stepped(s, Acquire(x, Hard, true));
    var e := s1.reg.sessions[x].engine;
    assert s1.calls == s.calls[x := Attaching(Hard, e)] && s1.lost == s.lost;
    n := Stepped(s1, AttachNone(x));
    assert n.calls == s.calls[x := Installing(e)];
  }

  /** The rest of it, with nothing in between. */
  lemma Registered(s: State, x: Session) returns (n: State)
    requires Reachable(s) && x in s.calls && s.calls[x].Installing?
    ensures Reachable(n) && n.calls == s.calls - {x} && n.owner == s.owner && n.taken == s.taken && s.lost <= n.lost
    ensures n.reg == Installed(s.reg, x, |s.gens|) && n.cancels == s.cancels + [0]
    ensures n.gens == s.gens + [Gen(x, s.calls[x].engine, InstalledID(s.reg, x))]
    ensures n.published == s.published[|s.gens| := HubOf(s, x)] && n.hubs == s.hubs[x := HubOf(s, x)]
  {
    var s1 := Stepped(s, Install(x));
    n := Stepped(s1, FetchHub(x));
  }

  /** A cancel in flight: a second generation goes live on the engine beside the first. */
  lemma TwoGenerationsOnOneEngine() returns (s: State)
    ensures Reachable(s) && |s.gens| == 2 && s.gens[0].engine == s.gens[1].engine && s.cancels == [0, 0]
    ensures s.gens[0].renderID != ANY_RENDER && s.gens[1].renderID != ANY_RENDER
  {
    var s0 := Started();
    var s1 := Attached(s0, 0);
    var s2 := Registered(s1, 0);
    var s3 := Stepped(s2, CompleteTakes(0, 0, 1));
    var s4 := Attached(s3, 0);
    s := Registered(s4, 0);
  }

  /** The slot is removed over a live generation, under a StartRender that holds its engine: it
      begins a second one there, and nothing is in flight that would cancel the first. */
  lemma LostGenerationStaysBesideItsSuccessor() returns (s: State)
    ensures Reachable(s) && |s.gens| == 2 && s.gens[0].engine == s.gens[1].engine && s.cancels == [0, 0]
    ensures s.taken == map[] && 0 in s.lost
  {
    var s0 := Started();
    var s1 := Attached(s0, 0);
    var s2 := Registered(s1, 0);
    var s3 := Stepped(s2, Acquire(0, Hard, true));
    var s4 := Stepped(s3, RemoveSlot(0));
    var s5 := Stepped(s4, AttachNone(0));
    assert 0 in s5.lost;
    s := Registered(s5, 0);
  }

  /** The session is removed under a StartRender: its generation has the render ID zero, and
      completing its handle cancels the next generation. */
  lemma UnregisteredHandleCancelsItsSuccessor() returns (s: State)
    ensures Reachable(s) && |s.gens| == 2 && s.gens[0].renderID == ANY_RENDER && s.gens[1].renderID != ANY_RENDER
    ensures s.gens[0].session == s.gens[1].session && s.cancels == [0, 0]
    ensures Enabled(s, CompleteTakes(0, s.gens[0].session, s.gens[0].renderID))
    ensures Apply(s, CompleteTakes(0, s.gens[0].session, s.gens[0].renderID)).taken[ByCompleter(0)] == 1
  {
    var s0 := Started();
    var s1 := Attached(s0, 0);
    var s2 := Stepped(s1, RemoveSlot(0));
    var s3 := Registered(s2, 0);
    var s4 := Attached(s3, 0);
    s := Registered(s4, 0);
  }

  /** The store drops the session's hub between a reattach and its Hub call: the handle waits on a
      hub its generation does not publish to. */
  lemma ReattachedHandleOnAnotherHub() returns (s: State, h: Handle)
    ensures Reachable(s) && h in s.handles && h.reattached && h.gen < |s.cancels| && s.cancels[h.gen] == 0
    ensures h.gen in s.published && s.published[h.gen] != h.hub
  {
    var s0 := Started();
    var s1 := Attached(s0, 0);
    var s2 := Registered(s1, 0);
    var s3 := Stepped(s2, Acquire(0, Soft, true));
    var s4 := Stepped(s3, Reattach(0));
    var s5 := Stepped(s4, DropHub(0));
    ReachableInv(s5);
    s := Stepped(s5, FetchHub(0));
    h := Handle(0, HubOf(s5, 0), true);
  }
}
