/** Who may touch a segment's clone, and when: segment workers, the providers that workers of one
    segment type share, and the goroutines that execute clones and may outlive both (src/prompt/
    streaming.go, shared_provider.go). A generation may begin while earlier ones are live, and while
    workers of earlier ones are under way. */
module SharedProviders {
  import opened Wrappers

  /** A worker: the generation and the position of its segment. */
  datatype Id = Id(g: nat, k: nat)

  /** The private copies of a segment: a worker's own, and the one a generation's provider of a
      segment type executes. */
  datatype Clone = Working(id: Id) | Source(g: nat, ty: nat)

  datatype Starter = ByProvider(p: nat) | ByWorker(id: Id)

  /** How executeSegmentWithContext returned; Clean is `completed && clean`. */
  datatype Verdict = Undecided | Clean | TimedOut | Cancelled

  /** One call of executeSegmentWithContext: its goroutine works on `on` until it is `over`. */
  datatype Execution = Execution(on: Clone, starter: Starter, ctx: nat, over: bool, verdict: Verdict)

  datatype Load = Unloaded | Loading(run: nat) | Loaded(run: nat)

  /** A onceProvider, with the worker that made it; its context and its source are those of the
      worker's generation. */
  datatype Provider = Provider(maker: Id, ty: nat, load: Load)
  {
    function g(): nat { maker.g }
  }

  /** Where the clone a worker sends got its state. */
  datatype Origin = FromProvider(p: nat) | FromRun(run: nat)

  datatype Stage =
    | Fresh
    | Checked             // past the first look at the context
    | Holding(p: nat)     // in Get of its provider
    | Executing(run: nat) // in executeSegmentWithContext on its own clone
    | Ready(origin: Origin)
    | Sent(origin: Origin)
    | Quit

  datatype Worker = Worker(ty: nat, shared: bool, stage: Stage)

  datatype State = State(
    cancelled: seq<bool>,
    workers: map<Id, Worker>,
    table: map<nat, nat>,        // sharedProviders, by segment type
    providers: seq<Provider>,
    runs: seq<Execution>)

  const Start := State([], map[], map[], [], [])

  datatype Step =
    | Begin(jobs: map<Id, Worker>)
    | Cancel(g: nat)
    | Check(id: Id)
    | GetProvider(id: Id)
    | Load(id: Id)
    | LoadReturns(p: nat)
    | Copy(id: Id)
    | Execute(id: Id)
    | ExecuteReturns(id: Id)
    | Send(id: Id)
    | Merge(id: Id)
    | GoroutineEnds(run: nat)
    | Finishes(run: nat)
    | Expires(run: nat)
    | Aborts(run: nat)

  predicate At(s: State, id: Id, stage: Stage) { id in s.workers && s.workers[id].stage == stage }

  predicate IsCancelled(s: State, g: nat) { g < |s.cancelled| && s.cancelled[g] }

  predicate IsLive(s: State, g: nat) { g < |s.cancelled| && !s.cancelled[g] }

  predicate IsUndecided(s: State, run: nat) { run < |s.runs| && s.runs[run].verdict == Undecided }

  predicate Decided(s: State, run: nat) { run < |s.runs| && s.runs[run].verdict != Undecided }

  /** Whether the worker's result carries a clone: not when its own execution timed out. */
  predicate Delivers(s: State, origin: Origin) {
    origin.FromProvider? || (origin.run < |s.runs| && s.runs[origin.run].verdict == Clean)
  }

  predicate Enabled(s: State, t: Step) {
    match t
    case Begin(jobs) => forall id :: id in jobs ==> id.g == |s.cancelled| && jobs[id].stage == Fresh
    case Cancel(g) => IsLive(s, g)
    case Check(id) => At(s, id, Fresh)
    case GetProvider(id) => At(s, id, Checked) && s.workers[id].shared
    case Load(id) =>
      && id in s.workers && s.workers[id].stage.Holding? && s.workers[id].stage.p < |s.providers|
      && s.providers[s.workers[id].stage.p].load == Unloaded
    case LoadReturns(p) => p < |s.providers| && s.providers[p].load.Loading? && Decided(s, s.providers[p].load.run)
    case Copy(id) =>
      && id in s.workers && s.workers[id].stage.Holding? && s.workers[id].stage.p < |s.providers|
      && s.providers[s.workers[id].stage.p].load.Loaded?
    case Execute(id) => At(s, id, Checked) && !s.workers[id].shared
    case ExecuteReturns(id) => id in s.workers && s.workers[id].stage.Executing? && Decided(s, s.workers[id].stage.run)
    case Send(id) => id in s.workers && s.workers[id].stage.Ready?
    case Merge(id) =>
      && id in s.workers && s.workers[id].stage.Sent? && IsLive(s, id.g)
      && Delivers(s, s.workers[id].stage.origin)
    case GoroutineEnds(run) => run < |s.runs| && !s.runs[run].over
    case Finishes(run) => IsUndecided(s, run) && s.runs[run].over
    case Expires(run) => IsUndecided(s, run)
    case Aborts(run) => IsUndecided(s, run) && IsCancelled(s, s.runs[run].ctx)
  }

  function Move(s: State, id: Id, stage: Stage): State
    requires id in s.workers
  {
    s.(workers := s.workers[id := s.workers[id].(stage := stage)])
  }

  function Decide(s: State, run: nat, verdict: Verdict): State
    requires run < |s.runs|
  {
    s.(runs := s.runs[run := s.runs[run].(verdict := verdict)])
  }

  function WithLoad(s: State, p: nat, load: Load): State
    requires p < |s.providers|
  {
    s.(providers := s.providers[p := s.providers[p].(load := load)])
  }

  function SourceOf(p: Provider): Clone { Source(p.g(), p.ty) }

  function Apply(s: State, t: Step): State
    requires Enabled(s, t)
  {
    match t
    case Begin(jobs) => s.(cancelled := s.cancelled + [false], workers := s.workers + jobs, table := map[])
    case Cancel(g) => s.(cancelled := s.cancelled[g := true])
    case Check(id) => Move(s, id, if IsCancelled(s, id.g) then Quit else Checked)
    case GetProvider(id) =>
      var ty := s.workers[id].ty;
      if ty in s.table
      then Move(s, id, Holding(s.table[ty]))
      else
        var p := |s.providers|;
        Move(s, id, Holding(p)).(table := s.table[ty := p], providers := s.providers + [Provider(id, ty, Unloaded)])
    case Load(id) =>
      var p := s.workers[id].stage.p;
      var provider := s.providers[p];
      WithLoad(s, p, Loading(|s.runs|))
        .(runs := s.runs + [Execution(SourceOf(provider), ByProvider(p), provider.g(), false, Undecided)])
    case LoadReturns(p) => WithLoad(s, p, Loaded(s.providers[p].load.run))
    case Copy(id) => Move(s, id, Ready(FromProvider(s.workers[id].stage.p)))
    case Execute(id) =>
      Move(s, id, Executing(|s.runs|)).(runs := s.runs + [Execution(Working(id), ByWorker(id), id.g, false, Undecided)])
    case ExecuteReturns(id) =>
      var run := s.workers[id].stage.run;
      Move(s, id, if s.runs[run].verdict == Cancelled then Quit else Ready(FromRun(run)))
    case Send(id) => Move(s, id, if IsCancelled(s, id.g) then Quit else Sent(s.workers[id].stage.origin))
    case Merge(id) => s
    case GoroutineEnds(run) => s.(runs := s.runs[run := s.runs[run].(over := true)])
    case Finishes(run) => Decide(s, run, Clean)
    case Expires(run) => Decide(s, run, TimedOut)
    case Aborts(run) => Decide(s, run, Cancelled)
  }

  ghost predicate Runs(s: State, ts: seq<Step>)
    decreases |ts|
  {
    ts == [] || (Enabled(s, ts[0]) && Runs(Apply(s, ts[0]), ts[1..]))
  }

  ghost function After(s: State, ts: seq<Step>): State
    requires Runs(s, ts)
    decreases |ts|
  {
    if ts == [] then s else After(Apply(s, ts[0]), ts[1..])
  }

  /** Some run from s ends in n. */
  ghost predicate Leads(s: State, n: State) {
    exists ts :: Runs(s, ts) && After(s, ts) == n
  }

  ghost predicate Reachable(s: State) { Leads(Start, s) }

  // ---------------------------------------------------------------- the invariant

  /** The latest generation's provider of a type is the one in the table. */
  predicate TableOk(cancelled: seq<bool>, table: map<nat, nat>, providers: seq<Provider>) {
    && (forall ty :: ty in table ==> table[ty] < |providers| && providers[table[ty]].ty == ty)
    && (forall p :: 0 <= p < |providers| ==>
          && providers[p].g() < |cancelled|
          && (providers[p].g() == |cancelled| - 1 ==> providers[p].ty in table && table[providers[p].ty] == p))
  }

  /** Every execution belongs to one provider, or to one worker. */
  predicate RunOk(run: Execution, i: nat, providers: seq<Provider>, workers: map<Id, Worker>) {
    && (run.verdict == Clean ==> run.over)
    && match run.starter {
         case ByProvider(p) =>
           && p < |providers| && run.on == SourceOf(providers[p])
           && (providers[p].load == Loading(i) || providers[p].load == Loaded(i))
         case ByWorker(id) =>
           && run.on == Working(id) && id in workers && !workers[id].shared
           && (workers[id].stage in {Executing(i), Ready(FromRun(i)), Sent(FromRun(i)), Quit})
       }
  }

  predicate RunsOk(runs: seq<Execution>, providers: seq<Provider>, workers: map<Id, Worker>) {
    forall i :: 0 <= i < |runs| ==> RunOk(runs[i], i, providers, workers)
  }

  predicate OriginOk(origin: Origin, w: Worker, id: Id, runs: seq<Execution>, providers: seq<Provider>) {
    match origin
    case FromProvider(p) => w.shared && p < |providers| && providers[p].ty == w.ty && providers[p].load.Loaded?
    case FromRun(i) => !w.shared && i < |runs| && runs[i].starter == ByWorker(id)
  }

  predicate StageOk(w: Worker, id: Id, runs: seq<Execution>, providers: seq<Provider>) {
    match w.stage
    case Holding(p) => w.shared && p < |providers| && providers[p].ty == w.ty
    case Executing(i) => !w.shared && i < |runs| && runs[i].starter == ByWorker(id)
    case Ready(origin) => OriginOk(origin, w, id, runs, providers)
    case Sent(origin) => OriginOk(origin, w, id, runs, providers)
    case _ => true
  }

  function GenerationOf(c: Clone): nat {
    match c
    case Working(id) => id.g
    case Source(g, _) => g
  }

  /** Cancelled executions and workers that quit belong to cancelled generations. */
  predicate QuitsOk(cancelled: seq<bool>, workers: map<Id, Worker>, runs: seq<Execution>) {
    && (forall id :: id in workers && workers[id].stage == Quit ==> id.g < |cancelled| && cancelled[id.g])
    && (forall i :: 0 <= i < |runs| && runs[i].verdict == Cancelled ==> runs[i].ctx < |cancelled| && cancelled[runs[i].ctx])
    && (forall i :: 0 <= i < |runs| && runs[i].starter.ByWorker? ==> runs[i].ctx == runs[i].starter.id.g)
    && (forall i :: 0 <= i < |runs| ==> runs[i].ctx == GenerationOf(runs[i].on))
  }

  predicate WorkersOk(cancelled: seq<bool>, workers: map<Id, Worker>, runs: seq<Execution>, providers: seq<Provider>) {
    forall id :: id in workers ==> id.g < |cancelled| && StageOk(workers[id], id, runs, providers)
  }

  predicate ProvidersOk(runs: seq<Execution>, providers: seq<Provider>) {
    forall p :: 0 <= p < |providers| && !providers[p].load.Unloaded? ==>
      && providers[p].load.run < |runs| && runs[providers[p].load.run].starter == ByProvider(p)
      && (providers[p].load.Loaded? ==> runs[providers[p].load.run].verdict != Undecided)
  }

  /** A provider that nobody has asked to load still has its maker waiting to. */
  predicate MakersOk(providers: seq<Provider>, workers: map<Id, Worker>) {
    forall p :: 0 <= p < |providers| && providers[p].load.Unloaded? ==>
      providers[p].maker in workers && workers[providers[p].maker].stage == Holding(p)
  }

  predicate Inv(s: State) {
    && TableOk(s.cancelled, s.table, s.providers)
    && RunsOk(s.runs, s.providers, s.workers)
    && WorkersOk(s.cancelled, s.workers, s.runs, s.providers)
    && ProvidersOk(s.runs, s.providers)
    && MakersOk(s.providers, s.workers)
    && QuitsOk(s.cancelled, s.workers, s.runs)
  }

  lemma KeepsTable(s: State, t: Step)
    requires TableOk(s.cancelled, s.table, s.providers) && Enabled(s, t)
    requires WorkersOk(s.cancelled, s.workers, s.runs, s.providers)
    ensures TableOk(Apply(s, t).cancelled, Apply(s, t).table, Apply(s, t).providers)
  {
    if t.GetProvider? { ProviderAdded(s, t.id); }
  }

  lemma ProviderAdded(s: State, id: Id)
    requires TableOk(s.cancelled, s.table, s.providers) && Enabled(s, GetProvider(id))
    requires WorkersOk(s.cancelled, s.workers, s.runs, s.providers)
    ensures var n := Apply(s, GetProvider(id)); TableOk(n.cancelled, n.table, n.providers)
  {
  }

  lemma KeepsRun(s: State, t: Step, i: nat)
    requires Inv(s) && Enabled(s, t) && i < |s.runs|
    ensures i < |Apply(s, t).runs| && RunOk(Apply(s, t).runs[i], i, Apply(s, t).providers, Apply(s, t).workers)
  {
    assert RunOk(s.runs[i], i, s.providers, s.workers);
  }

  lemma KeepsRuns(s: State, t: Step)
    requires Inv(s) && Enabled(s, t)
    ensures RunsOk(Apply(s, t).runs, Apply(s, t).providers, Apply(s, t).workers)
  {
    var n := Apply(s, t);
    forall i | 0 <= i < |n.runs| ensures RunOk(n.runs[i], i, n.providers, n.workers) {
      if i < |s.runs| { KeepsRun(s, t, i); }
    }
  }

  /** What a worker relies on is only added to. */
  lemma StageStaysOk(s: State, t: Step, w: Worker, id: Id)
    requires Enabled(s, t) && StageOk(w, id, s.runs, s.providers)
    ensures StageOk(w, id, Apply(s, t).runs, Apply(s, t).providers)
  {
  }

  lemma KeepsWorkers(s: State, t: Step)
    requires Inv(s) && Enabled(s, t)
    ensures WorkersOk(Apply(s, t).cancelled, Apply(s, t).workers, Apply(s, t).runs, Apply(s, t).providers)
  {
    var n := Apply(s, t);
    forall id | id in n.workers ensures id.g < |n.cancelled| && StageOk(n.workers[id], id, n.runs, n.providers) {
      if id in s.workers { StageStaysOk(s, t, s.workers[id], id); }
    }
  }

  lemma KeepsProviders(s: State, t: Step)
    requires ProvidersOk(s.runs, s.providers) && Enabled(s, t)
    ensures ProvidersOk(Apply(s, t).runs, Apply(s, t).providers)
  {
  }

  lemma KeepsMakers(s: State, t: Step)
    requires Inv(s) && Enabled(s, t)
    ensures MakersOk(Apply(s, t).providers, Apply(s, t).workers)
  {
  }

  lemma KeepsQuits(s: State, t: Step)
    requires QuitsOk(s.cancelled, s.workers, s.runs) && WorkersOk(s.cancelled, s.workers, s.runs, s.providers)
    requires Enabled(s, t)
    ensures QuitsOk(Apply(s, t).cancelled, Apply(s, t).workers, Apply(s, t).runs)
  {
    if t.ExecuteReturns? { assert StageOk(s.workers[t.id], t.id, s.runs, s.providers); }
  }

  lemma {:induction false} RunKeepsInv(s: State, ts: seq<Step>)
    requires Inv(s) && Runs(s, ts)
    ensures Inv(After(s, ts))
    decreases |ts|
  {
    if ts != [] {
      var t := ts[0];
      KeepsTable(s, t);
      KeepsRuns(s, t);
      KeepsWorkers(s, t);
      KeepsProviders(s, t);
      KeepsMakers(s, t);
      KeepsQuits(s, t);
      RunKeepsInv(Apply(s, t), ts[1..]);
    }
  }

  lemma ReachableInv(s: State)
    requires Reachable(s)
    ensures Inv(s)
  {
    var ts :| Runs(Start, ts) && After(Start, ts) == s;
    RunKeepsInv(Start, ts);
  }

  // ---------------------------------------------------------------- theorems

  /** The execution that made the state of the clone the worker delivers; none when its provider
      failed, and the clone is as it was prepared. */
  function RunBehind(s: State, origin: Origin): Option<nat> {
    match origin
    case FromRun(i) => Some(i)
    case FromProvider(p) =>
      if p < |s.providers| && s.providers[p].load.Loaded? && s.providers[p].load.run < |s.runs|
         && s.runs[s.providers[p].load.run].verdict == Clean
      then Some(s.providers[p].load.run)
      else None
  }

  /** The provider the worker's clone was filled from was made by a worker of its generation. */
  predicate IsOwn(s: State, id: Id, origin: Origin) {
    origin.FromProvider? ==> origin.p < |s.providers| && s.providers[origin.p].g() == id.g
  }

  predicate AtRest(s: State, c: Clone) {
    forall i :: 0 <= i < |s.runs| && s.runs[i].on == c ==> s.runs[i].over
  }

  /** Another provider that executes the same source. */
  predicate Rival(s: State, p: nat, q: nat) {
    p < |s.providers| && q < |s.providers| && q != p && SourceOf(s.providers[q]) == SourceOf(s.providers[p])
  }

  predicate Executes(s: State, q: nat) {
    && q < |s.providers| && !s.providers[q].load.Unloaded?
    && s.providers[q].load.run < |s.runs| && !s.runs[s.providers[q].load.run].over
  }

  /** When a clone is merged no goroutine works on it, however the executions ended; and none works
      on the source it was filled from exactly when no other provider of the same generation and
      type has an execution that is not over. */
  lemma MergedCloneIsAtRestIff(s: State, id: Id)
    requires Reachable(s) && Enabled(s, Merge(id))
    ensures AtRest(s, Working(id))
    ensures var origin := s.workers[id].stage.origin;
            var r := RunBehind(s, origin);
            r.Some? ==>
              && r.value < |s.runs|
              && (AtRest(s, s.runs[r.value].on) <==>
                    (origin.FromProvider? ==> forall q: nat :: Rival(s, origin.p, q) ==> !Executes(s, q)))
  {
    ReachableInv(s);
    var origin := s.workers[id].stage.origin;
    assert OriginOk(origin, s.workers[id], id, s.runs, s.providers);
    var r := RunBehind(s, origin);
    if r.Some? && origin.FromProvider? {
      SourceAtRestIff(s, origin.p);
    }
  }

  /** The source of a provider whose own execution is over. */
  lemma SourceAtRestIff(s: State, p: nat)
    requires RunsOk(s.runs, s.providers, s.workers) && ProvidersOk(s.runs, s.providers)
    requires p < |s.providers| && !s.providers[p].load.Unloaded? && s.runs[s.providers[p].load.run].over
    ensures AtRest(s, SourceOf(s.providers[p])) <==> forall q: nat :: Rival(s, p, q) ==> !Executes(s, q)
  {
    if q: nat :| Rival(s, p, q) && Executes(s, q) {
      var j := s.providers[q].load.run;
      assert RunOk(s.runs[j], j, s.providers, s.workers);
    } else {
      forall i | 0 <= i < |s.runs| && s.runs[i].on == SourceOf(s.providers[p]) ensures s.runs[i].over {
        assert RunOk(s.runs[i], i, s.providers, s.workers);
        var q := s.runs[i].starter.p;
        assert q == p || (Rival(s, p, q) && !Executes(s, q));
      }
    }
  }

  /** So in the latest generation a clone from a provider of its own is always safe to merge. */
  lemma MergedCloneIsAtRest(s: State, id: Id)
    requires Reachable(s) && Enabled(s, Merge(id)) && IsOwn(s, id, s.workers[id].stage.origin)
    requires id.g == |s.cancelled| - 1
    ensures AtRest(s, Working(id))
    ensures var r := RunBehind(s, s.workers[id].stage.origin);
            r.Some? ==>
              && r.value < |s.runs| && AtRest(s, s.runs[r.value].on)
              && s.runs[r.value].on == if s.workers[id].shared then Source(id.g, s.workers[id].ty) else Working(id)
  {
    ReachableInv(s);
    assert OriginOk(s.workers[id].stage.origin, s.workers[id], id, s.runs, s.providers);
    MergedCloneIsAtRestIff(s, id);
  }

  /** A worker whose own execution timed out delivers no clone; one whose provider failed still
      delivers its clone, with nothing in it. */
  lemma BlankIsDeliveredIff(s: State, id: Id)
    requires Reachable(s) && Enabled(s, Merge(id))
    ensures RunBehind(s, s.workers[id].stage.origin).None? <==>
            && s.workers[id].shared
            && s.workers[id].stage.origin.FromProvider? && s.workers[id].stage.origin.p < |s.providers|
            && s.providers[s.workers[id].stage.origin.p].load.Loaded?
            && s.providers[s.workers[id].stage.origin.p].load.run < |s.runs|
            && s.runs[s.providers[s.workers[id].stage.origin.p].load.run].verdict in {TimedOut, Cancelled}
  {
    ReachableInv(s);
    assert OriginOk(s.workers[id].stage.origin, s.workers[id], id, s.runs, s.providers);
  }

  /** A worker only quits when its generation is cancelled; so one whose execution timed out, in a
      live generation, goes on to report, and then without its clone. */
  lemma WorkersReport(s: State, id: Id)
    requires Reachable(s) && id in s.workers && IsLive(s, id.g)
    ensures s.workers[id].stage != Quit
    ensures Enabled(s, ExecuteReturns(id)) ==>
              Apply(s, ExecuteReturns(id)).workers[id].stage == Ready(FromRun(s.workers[id].stage.run))
    ensures Enabled(s, Send(id)) ==> Apply(s, Send(id)).workers[id].stage == Sent(s.workers[id].stage.origin)
    ensures s.workers[id].stage.Sent? && s.workers[id].stage.origin.FromRun? ==>
              s.workers[id].stage.origin.run < |s.runs|
              && (Enabled(s, Merge(id)) <==> s.runs[s.workers[id].stage.origin.run].verdict == Clean)
  {
    ReachableInv(s);
    assert StageOk(s.workers[id], id, s.runs, s.providers);
  }

  // ---------------------------------------------------------------- walks

  lemma {:induction false} RunsOn(s: State, ts: seq<Step>, t: Step)
    requires Runs(s, ts) && Enabled(After(s, ts), t)
    ensures Runs(s, ts + [t]) && After(s, ts + [t]) == Apply(After(s, ts), t)
    decreases |ts|
  {
    if ts == [] {
      assert (ts + [t])[1..] == [];
    } else {
      RunsOn(Apply(s, ts[0]), ts[1..], t);
      assert (ts + [t])[1..] == ts[1..] + [t];
    }
  }

  lemma LeadsHere(s: State)
    ensures Leads(s, s)
  {
    assert Runs(s, []) && After(s, []) == s;
  }

  lemma LeadsOn(s: State, m: State, t: Step)
    requires Leads(s, m) && Enabled(m, t)
    ensures Leads(s, Apply(m, t))
  {
    var ts :| Runs(s, ts) && After(s, ts) == m;
    RunsOn(s, ts, t);
  }

  /** A step further on a way from a to a reachable state. */
  lemma Walk(a: State, s: State, t: Step) returns (n: State)
    requires Reachable(s) && Leads(a, s) && Enabled(s, t)
    ensures n == Apply(s, t) && Reachable(n) && Leads(a, n)
  {
    n := Apply(s, t);
    LeadsOn(Start, s, t);
    LeadsOn(a, s, t);
  }

  lemma Stepped(s: State, t: Step) returns (n: State)
    requires Reachable(s) && Enabled(s, t)
    ensures n == Apply(s, t) && Reachable(n)
  {
    n := Walk(Start, s, t);
  }

  // ---------------------------------------------------------------- what GetProvider can see

  /** Its execution timed out or was cancelled, so it fills no clone. */
  predicate Failed(s: State, p: nat) {
    && p < |s.providers| && !s.providers[p].load.Unloaded? && s.providers[p].load.run < |s.runs|
    && s.runs[s.providers[p].load.run].verdict in {TimedOut, Cancelled}
  }

  /** Every other provider of the same generation and type has executed the source, to the end. */
  ghost predicate RivalsDone(s: State, p: nat) {
    forall q: nat :: Rival(s, p, q) ==> !s.providers[q].load.Unloaded? && !Executes(s, q)
  }

  ghost predicate Harmless(s: State, id: Id, p: nat) {
    IsCancelled(s, id.g) || Failed(s, p) || RivalsDone(s, p)
  }

  /** The worker has got the provider, which is in the table. */
  predicate Handed(s: State, id: Id, p: nat) {
    && p < |s.providers| && s.providers[p].ty in s.table && id in s.workers && s.workers[id].shared
    && (s.workers[id].stage in
          {Holding(p), Ready(FromProvider(p)), Sent(FromProvider(p)), Quit})
  }

  /** Until the next generation begins, the clone is merged only with its source at rest. */
  ghost predicate StaysSafe(s: State, id: Id) {
    forall n :: Leads(s, n) && |n.cancelled| == |s.cancelled| ==> MergesAtRest(n, id)
  }

  predicate MergesAtRest(s: State, id: Id) {
    Enabled(s, Merge(id)) ==>
      var r := RunBehind(s, s.workers[id].stage.origin);
      r.Some? && r.value < |s.runs| ==> AtRest(s, s.runs[r.value].on)
  }

  lemma HandedStep(s: State, t: Step, id: Id, p: nat)
    requires Inv(s) && Enabled(s, t) && !t.Begin? && Handed(s, id, p)
    ensures Handed(Apply(s, t), id, p)
  {
  }

  lemma FailedStep(s: State, t: Step, p: nat)
    requires Inv(s) && Enabled(s, t) && Failed(s, p)
    ensures Failed(Apply(s, t), p)
  {
  }

  /** No new rival appears while the type is in the table. */
  lemma RivalsStep(s: State, t: Step, p: nat, q: nat)
    requires Enabled(s, t) && !t.Begin? && p < |s.providers| && s.providers[p].ty in s.table
    requires Rival(Apply(s, t), p, q)
    ensures Rival(s, p, q)
    ensures !s.providers[q].load.Unloaded? && !Executes(s, q) && ProvidersOk(s.runs, s.providers) ==>
              !Apply(s, t).providers[q].load.Unloaded? && !Executes(Apply(s, t), q)
  {
  }

  lemma HarmlessStep(s: State, t: Step, id: Id, p: nat)
    requires Inv(s) && Enabled(s, t) && !t.Begin? && Handed(s, id, p) && Harmless(s, id, p)
    ensures Harmless(Apply(s, t), id, p)
  {
    if Failed(s, p) {
      FailedStep(s, t, p);
    } else if RivalsDone(s, p) {
      forall q: nat | Rival(Apply(s, t), p, q)
        ensures !Apply(s, t).providers[q].load.Unloaded? && !Executes(Apply(s, t), q)
      {
        RivalsStep(s, t, p, q);
      }
    }
  }

  lemma {:induction false} HarmlessRun(s: State, ts: seq<Step>, id: Id, p: nat)
    requires Inv(s) && Runs(s, ts) && |After(s, ts).cancelled| == |s.cancelled|
    requires Handed(s, id, p) && Harmless(s, id, p)
    ensures Inv(After(s, ts)) && Handed(After(s, ts), id, p) && Harmless(After(s, ts), id, p)
    decreases |ts|
  {
    if ts != [] {
      var n := Apply(s, ts[0]);
      BeginsOnlyGrow(n, ts[1..]);
      HandedStep(s, ts[0], id, p);
      HarmlessStep(s, ts[0], id, p);
      StepKeepsInv(s, ts[0]);
      HarmlessRun(n, ts[1..], id, p);
    }
  }

  lemma StepKeepsInv(s: State, t: Step)
    requires Inv(s) && Enabled(s, t)
    ensures Inv(Apply(s, t))
  {
    KeepsTable(s, t);
    KeepsRuns(s, t);
    KeepsWorkers(s, t);
    KeepsProviders(s, t);
    KeepsMakers(s, t);
    KeepsQuits(s, t);
  }

  lemma {:induction false} BeginsOnlyGrow(s: State, ts: seq<Step>)
    requires Runs(s, ts)
    ensures |s.cancelled| <= |After(s, ts).cancelled|
    decreases |ts|
  {
    if ts != [] {
      BeginsOnlyGrow(Apply(s, ts[0]), ts[1..]);
    }
  }

  lemma HarmlessMergesAtRest(s: State, id: Id, p: nat)
    requires Inv(s) && Handed(s, id, p) && Harmless(s, id, p)
    ensures MergesAtRest(s, id)
  {
    var r := if Enabled(s, Merge(id)) then RunBehind(s, s.workers[id].stage.origin) else None;
    if r.Some? {
      SourceAtRestIff(s, p);
    }
  }

  /** The execution that spoils the source: a rival's that is not over, or one that its maker starts. */
  lemma RivalExecutes(a: State, s: State, id: Id, p: nat, q: nat) returns (n: State)
    requires Reachable(s) && Leads(a, s) && At(s, id, Holding(p)) && IsLive(s, id.g) && Rival(s, p, q)
    requires s.providers[q].load.Unloaded? || Executes(s, q)
    ensures Reachable(n) && Leads(a, n) && n.cancelled == s.cancelled && At(n, id, Holding(p))
    ensures |n.providers| == |s.providers| && n.providers[p] == s.providers[p] && Rival(n, p, q) && Executes(n, q)
    ensures !Failed(s, p) ==> !Failed(n, p)
  {
    ReachableInv(s);
    n := s;
    if s.providers[q].load.Unloaded? {
      n := Walk(a, s, Load(s.providers[q].maker));
    }
  }

  /** The handed provider is loaded, if it has not been. */
  lemma HandedLoads(a: State, s: State, id: Id, p: nat, q: nat) returns (n: State)
    requires Reachable(s) && Leads(a, s) && At(s, id, Holding(p)) && IsLive(s, id.g)
    requires Rival(s, p, q) && Executes(s, q) && !Failed(s, p)
    ensures Reachable(n) && Leads(a, n) && n.cancelled == s.cancelled && At(n, id, Holding(p))
    ensures Rival(n, p, q) && Executes(n, q) && !Failed(n, p) && !n.providers[p].load.Unloaded?
  {
    ReachableInv(s);
    n := s;
    if s.providers[p].load.Unloaded? {
      n := Walk(a, s, Load(id));
    }
  }

  /** Its execution ends cleanly. */
  lemma HandedFinishes(a: State, s: State, id: Id, p: nat, q: nat) returns (n: State)
    requires Reachable(s) && Leads(a, s) && At(s, id, Holding(p)) && IsLive(s, id.g)
    requires Rival(s, p, q) && Executes(s, q) && !Failed(s, p) && !s.providers[p].load.Unloaded?
    ensures Reachable(n) && Leads(a, n) && n.cancelled == s.cancelled && At(n, id, Holding(p))
    ensures Rival(n, p, q) && Executes(n, q) && n.providers == s.providers
    ensures n.providers[p].load.run < |n.runs| && n.runs[n.providers[p].load.run].verdict == Clean
  {
    ReachableInv(s);
    var i := s.providers[p].load.run;
    assert s.runs[i].starter == ByProvider(p) && s.runs[s.providers[q].load.run].starter == ByProvider(q);
    n := s;
    if s.runs[i].verdict == Undecided {
      if !s.runs[i].over { n := Walk(a, n, GoroutineEnds(i)); }
      n := Walk(a, n, Finishes(i));
    }
  }

  /** And the clone is filled from it and sent, with the rival still executing. */
  lemma HandedSends(a: State, s: State, id: Id, p: nat, q: nat) returns (n: State)
    requires Reachable(s) && Leads(a, s) && At(s, id, Holding(p)) && IsLive(s, id.g)
    requires Rival(s, p, q) && Executes(s, q)
    requires !s.providers[p].load.Unloaded? && s.providers[p].load.run < |s.runs|
    requires s.runs[s.providers[p].load.run].verdict == Clean
    ensures Reachable(n) && Leads(a, n) && n.cancelled == s.cancelled
    ensures At(n, id, Sent(FromProvider(p))) && Rival(n, p, q) && Executes(n, q)
    ensures RunBehind(n, FromProvider(p)) == Some(s.providers[p].load.run) && n.runs == s.runs
  {
    n := s;
    if s.providers[p].load.Loading? { n := Walk(a, n, LoadReturns(p)); }
    n := Walk(a, n, Copy(id));
    n := Walk(a, n, Send(id));
  }

  /** What GetProvider hands out decides: the worker's clone is only ever merged with its source at
      rest, until the next generation begins, exactly when the worker is cancelled already, or the
      provider has failed, or every other one of its generation and type has run to the end. */
  lemma HandedSafeProviderIff(s: State, id: Id)
    requires Reachable(s) && Enabled(s, GetProvider(id))
    ensures var n := Apply(s, GetProvider(id));
            n.workers[id].stage.Holding? && (StaysSafe(n, id) <==> Harmless(n, id, n.workers[id].stage.p))
  {
    var n := Stepped(s, GetProvider(id));
    ReachableInv(s);
    ReachableInv(n);
    var p := n.workers[id].stage.p;
    if Harmless(n, id, p) {
      forall m | Leads(n, m) && |m.cancelled| == |n.cancelled| ensures MergesAtRest(m, id) {
        var us :| Runs(n, us) && After(n, us) == m;
        HarmlessRun(n, us, id, p);
        HarmlessMergesAtRest(m, id, p);
      }
    } else {
      assert id.g < |n.cancelled|;
      var m := SpoilsClone(n, id, p);
      assert Leads(n, m) && !MergesAtRest(m, id);
    }
  }

  lemma SpoilsClone(s: State, id: Id, p: nat) returns (n: State)
    requires Reachable(s) && At(s, id, Holding(p)) && IsLive(s, id.g) && !Failed(s, p) && !RivalsDone(s, p)
    ensures Leads(s, n) && n.cancelled == s.cancelled && !MergesAtRest(n, id)
  {
    var q: nat :| Rival(s, p, q) && (s.providers[q].load.Unloaded? || Executes(s, q));
    LeadsHere(s);
    var s1 := RivalExecutes(s, s, id, p, q);
    var s2 := HandedLoads(s, s1, id, p, q);
    var s3 := HandedFinishes(s, s2, id, p, q);
    n := HandedSends(s, s3, id, p, q);
    SpoiledClone(n, id, p, q);
  }

  lemma SpoiledClone(s: State, id: Id, p: nat, q: nat)
    requires Reachable(s) && IsLive(s, id.g) && At(s, id, Sent(FromProvider(p)))
    requires Rival(s, p, q) && Executes(s, q) && RunBehind(s, FromProvider(p)).Some?
    ensures !MergesAtRest(s, id)
  {
    MergedCloneIsAtRestIff(s, id);
  }

  /** A worker of the latest generation that is handed a provider of its own is safe. */
  lemma OwnProviderIsSafe(s: State, id: Id)
    requires Reachable(s) && Enabled(s, GetProvider(id)) && id.g == |s.cancelled| - 1
    requires s.workers[id].ty in s.table ==> IsOwn(s, id, FromProvider(s.table[s.workers[id].ty]))
    ensures StaysSafe(Apply(s, GetProvider(id)), id)
  {
    var n := Stepped(s, GetProvider(id));
    ReachableInv(s);
    ReachableInv(n);
    HandedSafeProviderIff(s, id);
    assert RivalsDone(n, n.workers[id].stage.p);
  }

  // ---------------------------------------------------------------- sharing

  lemma {:induction false} TypeKeepsItsProvider(s: State, ts: seq<Step>, ty: nat)
    requires Runs(s, ts) && ty in s.table && forall t :: t in ts ==> !t.Begin?
    ensures ty in After(s, ts).table && After(s, ts).table[ty] == s.table[ty]
    decreases |ts|
  {
    if ts != [] {
      TypeKeepsItsProvider(Apply(s, ts[0]), ts[1..], ty);
    }
  }

  /** Workers of one segment type are handed the same provider, until the next generation begins. */
  lemma WorkersOfATypeShare(s: State, id: Id, ts: seq<Step>, other: Id)
    requires Enabled(s, GetProvider(id)) && Runs(Apply(s, GetProvider(id)), ts)
    requires forall t :: t in ts ==> !t.Begin?
    requires var m := After(Apply(s, GetProvider(id)), ts);
             Enabled(m, GetProvider(other)) && m.workers[other].ty == s.workers[id].ty
    ensures Apply(After(Apply(s, GetProvider(id)), ts), GetProvider(other)).workers[other].stage ==
            Apply(s, GetProvider(id)).workers[id].stage
  {
    TypeKeepsItsProvider(Apply(s, GetProvider(id)), ts, s.workers[id].ty);
  }

  /** A provider executes once however many workers it serves, a source is only executed by
      providers, and the latest generation's source of a type at most once. */
  lemma SourcesAreExecutedOnce(s: State, i: nat, j: nat)
    requires Reachable(s) && i < |s.runs| && j < |s.runs|
    ensures s.runs[i].on.Source? <==> s.runs[i].starter.ByProvider?
    ensures s.runs[i].starter.ByProvider? && s.runs[i].starter == s.runs[j].starter ==> i == j
    ensures s.runs[i].on.Source? && s.runs[i].on.g == |s.cancelled| - 1 && s.runs[i].on == s.runs[j].on ==> i == j
  {
    ReachableInv(s);
    assert RunOk(s.runs[i], i, s.providers, s.workers) && RunOk(s.runs[j], j, s.providers, s.workers);
  }

  /** An execution is aborted only by the cancel of the generation its clone or source belongs to,
      whichever worker waits for it. */
  lemma ExecutionsEndWithTheirGeneration(s: State, i: nat)
    requires Reachable(s) && i < |s.runs|
    ensures s.runs[i].verdict == Cancelled ==> IsCancelled(s, GenerationOf(s.runs[i].on))
    ensures Enabled(s, Aborts(i)) <==> IsUndecided(s, i) && IsCancelled(s, GenerationOf(s.runs[i].on))
  {
    ReachableInv(s);
  }

  /** The providers in the table are of generation g. */
  predicate OwnTable(s: State, g: nat) {
    forall ty :: ty in s.table ==> s.table[ty] < |s.providers| && s.providers[s.table[ty]].g() == g
  }

  /** No generation begins, and only workers of g ask for providers. */
  predicate OnlyOwnAsk(ts: seq<Step>, g: nat) {
    forall t :: t in ts ==> !t.Begin? && (t.GetProvider? ==> t.id.g == g)
  }

  lemma {:induction false} OwnTableStays(s: State, ts: seq<Step>, g: nat)
    requires Reachable(s) && Runs(s, ts) && OwnTable(s, g) && OnlyOwnAsk(ts, g)
    ensures Reachable(After(s, ts)) && OwnTable(After(s, ts), g) && |After(s, ts).cancelled| == |s.cancelled|
    decreases |ts|
  {
    if ts != [] {
      ReachableInv(s);
      assert ts[0] in ts;
      var n := Stepped(s, ts[0]);
      OwnTableStays(n, ts[1..], g);
    }
  }

  /** As long as no worker of an older generation asks for a provider after the table was reset, the
      new generation's workers are handed their own, and are safe. */
  lemma ResetTableIsOwn(s: State, jobs: map<Id, Worker>, ts: seq<Step>, id: Id)
    requires Reachable(s) && Enabled(s, Begin(jobs)) && Runs(Apply(s, Begin(jobs)), ts)
    requires OnlyOwnAsk(ts, |s.cancelled|) && id.g == |s.cancelled|
    requires Enabled(After(Apply(s, Begin(jobs)), ts), GetProvider(id))
    ensures var n := Apply(After(Apply(s, Begin(jobs)), ts), GetProvider(id));
            && n.workers[id].stage.Holding? && IsOwn(n, id, FromProvider(n.workers[id].stage.p))
            && StaysSafe(n, id)
  {
    var b := Stepped(s, Begin(jobs));
    OwnTableStays(b, ts, |s.cancelled|);
    OwnProviderIsSafe(After(b, ts), id);
  }

  /** A worker that has yet to look at its context when its generation is cancelled never starts, and
      one that has yet to send never sends. */
  lemma {:induction false} CancelledWorkersStop(s: State, ts: seq<Step>, id: Id)
    requires Runs(s, ts) && IsCancelled(s, id.g) && id in s.workers && !s.workers[id].stage.Sent?
    ensures var n := After(s, ts);
            && id in n.workers && !n.workers[id].stage.Sent?
            && (s.workers[id].stage in {Fresh, Quit} ==> n.workers[id].stage in {Fresh, Quit})
    decreases |ts|
  {
    if ts != [] {
      CancelledWorkersStop(Apply(s, ts[0]), ts[1..], id);
    }
  }

  // ---------------------------------------------------------------- a run that goes wrong

  const A := Id(0, 0)
  const B := Id(0, 1)
  const C := Id(1, 0)

  /** Two workers of one type; the first runs their provider when the generation is cancelled. */
  lemma SupersededMidway() returns (s: State)
    ensures Reachable(s) && s.cancelled == [true] && B in s.workers && s.workers[B] == Worker(0, true, Checked)
    ensures s.table == map[0 := 0] && s.providers == [Provider(A, 0, Loading(0))]
    ensures s.runs == [Execution(Source(0, 0), ByProvider(0), 0, false, Undecided)]
    ensures C !in s.workers
  {
    assert Runs(Start, []) && After(Start, []) == Start;
    var fresh0 := Worker(0, true, Fresh);
    var s1 := Stepped(Start, Begin(map[A := fresh0, B := fresh0]));
    var s2 := Stepped(s1, Check(A));
    var s3 := Stepped(s2, Check(B));
    var s4 := Stepped(s3, GetProvider(A));
    var s5 := Stepped(s4, Load(A));
    s := Stepped(s5, Cancel(0));
  }

  /** After the next generation's reset the second worker puts a provider of its own into the
      table, which executes the same source again. */
  lemma StaleProviderPlanted() returns (s: State)
    ensures Reachable(s) && s.cancelled == [true, false] && C in s.workers && s.workers[C] == Worker(0, true, Fresh)
    ensures s.table == map[0 := 1] && |s.providers| == 2 && s.providers[1] == Provider(B, 0, Loading(1))
    ensures |s.runs| == 2 && s.runs[0] == Execution(Source(0, 0), ByProvider(0), 0, false, Undecided)
    ensures s.runs[1] == Execution(Source(0, 0), ByProvider(1), 0, false, Undecided)
  {
    var s0 := SupersededMidway();
    var s1 := Stepped(s0, Begin(map[C := Worker(0, true, Fresh)]));
    var s2 := Stepped(s1, GetProvider(B));
    s := Stepped(s2, Load(B));
  }

  /** The new generation merges a clone filled from a source that an abandoned goroutine of the old
      one is still executing. */
  lemma StaleProviderExposesRunningSource() returns (s: State)
    ensures Reachable(s) && Enabled(s, Merge(C)) && !IsOwn(s, C, s.workers[C].stage.origin)
    ensures RunBehind(s, s.workers[C].stage.origin) == Some(1) && |s.runs| == 2 && !AtRest(s, s.runs[1].on)
  {
    var s0 := StaleProviderPlanted();
    var s1 := Stepped(s0, GoroutineEnds(1));
    var s2 := Stepped(s1, Finishes(1));
    var s3 := Stepped(s2, LoadReturns(1));
    var s4 := Stepped(s3, Check(C));
    var s5 := Stepped(s4, GetProvider(C));
    var s6 := Stepped(s5, Copy(C));
    s := Stepped(s6, Send(C));
    assert !s.runs[0].over;
  }

  /** One worker waits for its provider, which is executing. */
  lemma ProviderExecuting() returns (s: State)
    ensures Reachable(s) && s.cancelled == [false] && s.workers == map[A := Worker(0, true, Holding(0))]
    ensures s.providers == [Provider(A, 0, Loading(0))]
    ensures s.runs == [Execution(Source(0, 0), ByProvider(0), 0, false, Undecided)]
  {
    assert Runs(Start, []) && After(Start, []) == Start;
    var s1 := Stepped(Start, Begin(map[A := Worker(0, true, Fresh)]));
    var s2 := Stepped(s1, Check(A));
    var s3 := Stepped(s2, GetProvider(A));
    s := Stepped(s3, Load(A));
  }

  /** A provider that runs into its segment's timeout leaves its worker to merge a blank clone, in a
      live generation. */
  lemma TimedOutProviderDeliversBlank() returns (s: State)
    ensures Reachable(s) && Enabled(s, Merge(A)) && IsOwn(s, A, s.workers[A].stage.origin)
    ensures RunBehind(s, s.workers[A].stage.origin) == None
  {
    var s4 := ProviderExecuting();
    var s5 := Stepped(s4, Expires(0));
    var s6 := Stepped(s5, LoadReturns(0));
    var s7 := Stepped(s6, Copy(A));
    s := Stepped(s7, Send(A));
  }
}
