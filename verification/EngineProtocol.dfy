/** Every interleaving of the goroutines that work on one prompt engine: the StartRender call that
    collects results and latches the placeholders, the segment workers, the result publisher of
    each generation, its marker timer, and repaints (src/prompt/streaming.go, with the callers of
    it in src/daemon/render_pipeline.go).

    StartRender calls of one session do not overlap, and carry primary and repaint requests. A
    generation may begin while earlier ones are still live: what that does is part of what follows,
    and `GenerationProtocol` says when it happens. */
module EngineProtocol {
  import opened StreamingEngine

  /** Where the work on one executed segment is. */
  datatype Work =
    | Working                  // with its worker
    | Sent(executed: bool)     // in the results channel
    | Taken(executed: bool)    // received, and waiting for streamingMu
    | Landed(executed: bool)   // merged before the cutoff
    | Settled(executed: bool)  // merged by the publisher
    | Dropped                  // received by the publisher after the cancellation
    | Quit                     // the worker returned without a result

  datatype Entry = Entry(isVim: bool, work: Work)

  /** An update published to the session's hub. */
  datatype Note = Done(key: Key) | TimedOut | Complete
  datatype Publication = Publication(generation: nat, note: Note)

  datatype Phase =
    | Collecting                // PrimaryStreaming waits for results until the cutoff
    | Collected(key: Key)       // it received one
    | Final                     // the prompt carries no placeholder: StartRender announces it
    | Waiting                   // the publisher is in its select
    | Received(key: Key)        // it received a result
    | Expired                   // it received the timer's tick
    | Announcing(note: Note)    // it left streamingMu and is about to publish
    | Closing                   // the channel is closed and the context was not cancelled
    | Finished

  datatype Generation = Generation(
    cancelled: bool,
    entries: map<Key, Entry>,
    phase: Phase,
    armed: bool,                // the marker timer can still be received from
    streamed: bool,             // PrimaryStreaming reported placeholders
    marks: nat,                 // how often pending segments were marked as timed out
    clear: bool)                // when it began no live generation had a segment of its own to finish

  /** A StartRender call for a repaint, after it reattached to the last generation. */
  datatype Soft = Idle | Reattached | Attached(base: nat) | Painted(base: nat) | Drained(base: nat)

  /** A handle a repaint returned: it reads the log from `base` on. */
  datatype Stream = Stream(generation: nat, base: nat)

  datatype State = State(
    view: View,
    gens: seq<Generation>,
    log: seq<Publication>,
    soft: Soft,
    streams: set<Stream>,
    mode: nat)                  // the vim mode of the latest repaint

  const Start := State(StreamingEngine.Empty, [], [], Idle, {}, 0)

  datatype Step =
    | Begin(blocks: seq<Segment>, cache: Cache, executed: map<Key, Entry>, timer: bool)
    | WorkerSends(g: nat, k: Key, clean: bool)
    | WorkerQuits(g: nat, k: Key)
    | Collect(g: nat, k: Key)
    | MergeCollected(g: nat)
    | CutOff(g: nat)
    | AnnounceFinal(g: nat)
    | Receive(g: nat, k: Key)
    | SettleReceived(g: nat)
    | Tick(g: nat)
    | MarkExpired(g: nat)
    | Announce(g: nat)
    | ChannelClosed(g: nat)
    | ContextDone(g: nat)
    | Cancel(g: nat)
    | RepaintAlone(newMode: nat, cache: Cache, resolved: seq<Segment>)
    | Reattach
    | ReadBase
    | RepaintAttached(newMode: nat, cache: Cache, resolved: seq<Segment>)
    | CountPending
    | PublishDrained

  // ---------------------------------------------------------------- state functions

  function Last(s: State): (g: nat)
    requires s.gens != []
  {
    |s.gens| - 1
  }

  /** No StartRender call is under way. */
  predicate StarterFree(s: State) {
    && s.soft == Idle
    && (s.gens != [] ==> var p := s.gens[Last(s)].phase; !p.Collecting? && !p.Collected? && !p.Final?)
  }

  predicate Unfinished(w: Work) { w.Working? || w.Sent? || w.Taken? }

  /** The segments whose result has not been merged: with a worker, in the channel, or received. */
  function Outstanding(gen: Generation): set<Key> {
    set k | k in gen.entries && Unfinished(gen.entries[k].work)
  }

  function LandedKeys(gen: Generation): set<Key> {
    set k | k in gen.entries && gen.entries[k].work.Landed?
  }

  predicate ChannelDrained(gen: Generation) {
    forall k :: k in gen.entries ==> !Unfinished(gen.entries[k].work)
  }

  function WithWork(gen: Generation, k: Key, w: Work): Generation
    requires k in gen.entries
  {
    gen.(entries := gen.entries[k := Entry(gen.entries[k].isVim, w)])
  }

  function ResultOf(g: nat, gen: Generation, k: Key): Result
    requires k in gen.entries && gen.entries[k].work.Taken?
  {
    Result(Segment(g, k, gen.entries[k].isVim), gen.entries[k].work.executed)
  }

  predicate HasWork(s: State, g: nat, k: Key) { g < |s.gens| && k in s.gens[g].entries }

  predicate InPhase(s: State, g: nat, p: Phase) { g < |s.gens| && s.gens[g].phase == p }

  function Put(s: State, g: nat, gen: Generation): State
    requires g < |s.gens|
  {
    s.(gens := s.gens[g := gen])
  }

  // ---------------------------------------------------------------- transitions

  /** Workers are started for exactly the segments of the blocks that the cache does not serve. */
  predicate Starts(g: nat, blocks: seq<Segment>, cache: Cache, executed: map<Key, Entry>) {
    && (forall i :: 0 <= i < |blocks| ==> blocks[i].generation == g)
    && (forall i, j :: 0 <= i < j < |blocks| ==> blocks[i].key != blocks[j].key)
    && executed.Keys == KeysOf(blocks, cache, |blocks|, false)
    && (forall k :: k in executed ==> executed[k].work == Working)
    && (forall i :: 0 <= i < |blocks| && blocks[i].key in executed ==> executed[blocks[i].key].isVim == blocks[i].isVim)
  }

  predicate Enabled(s: State, t: Step) {
    match t
    case Begin(blocks, cache, executed, timer) => StarterFree(s) && Starts(|s.gens|, blocks, cache, executed)
    case WorkerSends(g, k, clean) => HasWork(s, g, k) && s.gens[g].entries[k].work == Working
    case WorkerQuits(g, k) => HasWork(s, g, k) && s.gens[g].entries[k].work == Working && s.gens[g].cancelled
    case Collect(g, k) => HasWork(s, g, k) && s.gens[g].entries[k].work.Sent? && InPhase(s, g, Collecting)
    case MergeCollected(g) => TakenBy(s, g) && s.gens[g].phase.Collected?
    case CutOff(g) => InPhase(s, g, Collecting)
    case AnnounceFinal(g) => InPhase(s, g, Final)
    case Receive(g, k) => HasWork(s, g, k) && s.gens[g].entries[k].work.Sent? && InPhase(s, g, Waiting)
    case SettleReceived(g) => TakenBy(s, g) && s.gens[g].phase.Received?
    case Tick(g) => InPhase(s, g, Waiting) && s.gens[g].armed
    case MarkExpired(g) => InPhase(s, g, Expired)
    case Announce(g) => g < |s.gens| && (s.gens[g].phase.Announcing? || s.gens[g].phase.Closing?)
    case ChannelClosed(g) => InPhase(s, g, Waiting) && ChannelDrained(s.gens[g])
    case ContextDone(g) => InPhase(s, g, Waiting) && s.gens[g].cancelled
    case Cancel(g) => g < |s.gens|
    case RepaintAlone(_, _, _) => StarterFree(s)
    case Reattach => StarterFree(s) && s.gens != [] && s.gens[Last(s)].streamed && !s.gens[Last(s)].cancelled
    case ReadBase => s.soft.Reattached?
    case RepaintAttached(_, _, _) => s.soft.Attached?
    case CountPending => s.soft.Painted? && s.gens != []
    case PublishDrained => s.soft.Drained? && s.gens != []
  }

  predicate TakenBy(s: State, g: nat) {
    && g < |s.gens|
    && (s.gens[g].phase.Collected? || s.gens[g].phase.Received?)
    && s.gens[g].phase.key in s.gens[g].entries
    && s.gens[g].entries[s.gens[g].phase.key].work.Taken?
  }

  /** No live generation has yet to deliver a segment of the same key. */
  predicate Clear(gens: seq<Generation>, keys: set<Key>) {
    forall g :: 0 <= g < |gens| && !gens[g].cancelled ==> Outstanding(gens[g]) !! keys
  }

  /** PrimaryStreaming up to the start of its workers. */
  function Install(s: State, blocks: seq<Segment>, cache: Cache, executed: map<Key, Entry>, timer: bool): State {
    s.(view := Prepare(s.view, blocks, cache),
       gens := s.gens + [Generation(false, executed, Collecting, timer, false, 0, Clear(s.gens, executed.Keys))])
  }

  function Apply(s: State, t: Step): State
    requires Enabled(s, t)
  {
    match t
    case Begin(blocks, cache, executed, timer) => Install(s, blocks, cache, executed, timer)
    case WorkerSends(g, k, clean) => Put(s, g, WithWork(s.gens[g], k, Sent(clean)))
    case WorkerQuits(g, k) => Put(s, g, WithWork(s.gens[g], k, Quit))
    case Collect(g, k) =>
      Put(s, g, WithWork(s.gens[g], k, Taken(s.gens[g].entries[k].work.executed)).(phase := Collected(k)))
    case MergeCollected(g) =>
      var gen := s.gens[g];
      Put(s, g, WithWork(gen, gen.phase.key, Landed(gen.entries[gen.phase.key].work.executed)).(phase := Collecting))
        .(view := Merge(s.view, gen.cancelled, ResultOf(g, gen, gen.phase.key)))
    case CutOff(g) =>
      var gen := s.gens[g];
      var v := Latch(s.view, gen.entries.Keys, LandedKeys(gen));
      var pending := v.pending != {};
      Put(s, g, gen.(phase := if pending then Waiting else Final, streamed := pending)).(view := v)
    case AnnounceFinal(g) =>
      Put(s, g, s.gens[g].(phase := Finished)).(log := s.log + [Publication(g, Complete)])
    case Receive(g, k) =>
      Put(s, g, WithWork(s.gens[g], k, Taken(s.gens[g].entries[k].work.executed)).(phase := Received(k)))
    case SettleReceived(g) =>
      var gen := s.gens[g];
      var k := gen.phase.key;
      Put(s, g,
          if gen.cancelled then WithWork(gen, k, Dropped).(phase := Finished)
          else WithWork(gen, k, Settled(gen.entries[k].work.executed)).(phase := Announcing(Done(k))))
        .(view := Settle(s.view, gen.cancelled, ResultOf(g, gen, k)))
    case Tick(g) => Put(s, g, s.gens[g].(phase := Expired, armed := false))
    case MarkExpired(g) =>
      var gen := s.gens[g];
      Put(s, g, if Marks(s.view, gen.cancelled) then gen.(phase := Announcing(TimedOut), marks := gen.marks + 1)
                else gen.(phase := Waiting))
        .(view := Mark(s.view, gen.cancelled))
    case Announce(g) =>
      var gen := s.gens[g];
      if gen.phase.Closing?
      then Put(s, g, gen.(phase := Finished)).(log := s.log + [Publication(g, Complete)])
      else Put(s, g, gen.(phase := Waiting)).(log := s.log + [Publication(g, gen.phase.note)])
    case ChannelClosed(g) =>
      Put(s, g, s.gens[g].(phase := if s.gens[g].cancelled then Finished else Closing))
    case ContextDone(g) => Put(s, g, s.gens[g].(phase := Finished))
    case Cancel(g) => Put(s, g, s.gens[g].(cancelled := true))
    case RepaintAlone(m, cache, resolved) => s.(view := Repaint(s.view, m, cache, resolved), mode := m)
    case Reattach => s.(soft := Reattached)
    case ReadBase => s.(soft := Attached(|s.log|))
    case RepaintAttached(m, cache, resolved) =>
      s.(view := Repaint(s.view, m, cache, resolved), mode := m, soft := Painted(s.soft.base))
    case CountPending =>
      if s.view.pending == {}
      then s.(soft := Drained(s.soft.base))
      else s.(soft := Idle, streams := s.streams + {Stream(Last(s), s.soft.base)})
    case PublishDrained =>
      s.(soft := Idle, streams := s.streams + {Stream(Last(s), s.soft.base)},
         log := s.log + [Publication(Last(s), Complete)])
  }

  ghost predicate Runs(s: State, ts: seq<Step>)
    decreases |ts|
  {
    ts == [] || (Enabled(s, ts[0]) && Runs(Apply(s, ts[0]), ts[1..]))
  }

  ghost function After(s: State, ts: seq<Step>): State
    requires Runs(s, ts)
    decreases |ts|
  {
    if ts == [] then s else After(Apply(s, ts[0]), ts[1..])
  }

  /** Some run from s ends in n. */
  ghost predicate Leads(s: State, n: State) {
    exists ts :: Runs(s, ts) && After(s, ts) == n
  }

  ghost predicate Reachable(s: State) { Leads(Start, s) }

  lemma {:induction false} RunsOn(s: State, ts: seq<Step>, t: Step)
    requires Runs(s, ts) && Enabled(After(s, ts), t)
    ensures Runs(s, ts + [t]) && After(s, ts + [t]) == Apply(After(s, ts), t)
    decreases |ts|
  {
    if ts == [] {
      assert (ts + [t])[1..] == [];
    } else {
      RunsOn(Apply(s, ts[0]), ts[1..], t);
      assert (ts + [t])[1..] == ts[1..] + [t];
    }
  }

  lemma LeadsHere(s: State)
    ensures Leads(s, s)
  {
    assert Runs(s, []) && After(s, []) == s;
  }

  lemma LeadsOn(s: State, m: State, t: Step)
    requires Leads(s, m) && Enabled(m, t)
    ensures Leads(s, Apply(m, t))
  {
    var ts :| Runs(s, ts) && After(s, ts) == m;
    RunsOn(s, ts, t);
  }

  // ---------------------------------------------------------------- the invariant

  predicate Latched(gen: Generation) { !gen.phase.Collecting? && !gen.phase.Collected? }

  /** One generation on its own. */
  predicate GenerationOk(gen: Generation) {
    && (forall k :: k in gen.entries && (gen.entries[k].work.Quit? || gen.entries[k].work.Dropped?) ==> gen.cancelled)
    && (forall k :: k in gen.entries && gen.entries[k].work.Settled? ==> Latched(gen))
    && (forall k :: k in gen.entries && gen.entries[k].work.Taken? ==>
          (gen.phase.Collected? || gen.phase.Received?) && gen.phase.key == k)
    && (gen.phase.Collected? || gen.phase.Received? ==>
          gen.phase.key in gen.entries && gen.entries[gen.phase.key].work.Taken?)
    && (gen.phase.Closing? ==> ChannelDrained(gen))
    && (!gen.cancelled && (gen.phase.Final? || gen.phase.Finished?) ==> ChannelDrained(gen))
    && (gen.streamed ==> Latched(gen) && !gen.phase.Final?)
    && (gen.phase.Announcing? ==> gen.phase.note != Complete)
    && gen.marks <= 1
    && (gen.armed || gen.phase.Expired? || !Latched(gen) ==> gen.marks == 0)
    && (gen.phase.Expired? ==> !gen.armed)
  }

  /** What is pending is the latest generation's, and all of it is outstanding; nothing that is
      outstanding is missing unless a live predecessor had a segment of the same key. */
  predicate Conserved(s: State) {
    s.gens != [] ==>
      var gen := s.gens[Last(s)];
      && (!Latched(gen) ==> s.view.pending == {})
      && (Latched(gen) && !gen.cancelled ==> s.view.pending <= Outstanding(gen))
      && (Latched(gen) && !gen.cancelled && gen.clear ==> s.view.pending == Outstanding(gen))
  }

  predicate ClearOk(s: State) {
    s.gens != [] && s.gens[Last(s)].clear ==> Clear(s.gens[..Last(s)], s.gens[Last(s)].entries.Keys)
  }

  /** A generation ends with its announcement, or with its context. */
  predicate AnnouncedOne(gen: Generation, g: nat, log: seq<Publication>) {
    gen.phase.Finished? && !gen.cancelled ==> Publication(g, Complete) in log
  }

  function Times(log: seq<Publication>, p: Publication): nat {
    if log == [] then 0 else Times(log[..|log| - 1], p) + (if log[|log| - 1] == p then 1 else 0)
  }

  function About(gen: Generation, note: Note): nat {
    if gen.phase == Announcing(note) then 1 else 0
  }

  predicate IsSettled(gen: Generation, k: Key) { k in gen.entries && gen.entries[k].work.Settled? }

  /** Each result the publisher settled is announced once, or about to be; likewise each marking. */
  ghost predicate NotedOne(gen: Generation, g: nat, log: seq<Publication>) {
    && (forall k: Key :: Times(log, Publication(g, Done(k))) + About(gen, Done(k)) == if IsSettled(gen, k) then 1 else 0)
    && Times(log, Publication(g, TimedOut)) + About(gen, TimedOut) == gen.marks
  }

  ghost predicate NotesOk(s: State) {
    && (forall i :: 0 <= i < |s.log| ==> s.log[i].generation < |s.gens|)
    && (forall g :: 0 <= g < |s.gens| ==> NotedOne(s.gens[g], g, s.log))
  }

  /** Completion is announced, by the publisher or by a repaint, when nothing is pending. */
  predicate CompleteOk(s: State) {
    Completes(s) ==> Latched(s.gens[Last(s)]) && s.view.pending == {}
  }

  predicate Completes(s: State) {
    s.gens != [] && (s.gens[Last(s)].phase.Closing? || s.gens[Last(s)].phase.Final? || s.soft.Drained?
                     || Publication(Last(s), Complete) in s.log)
  }

  predicate DrainedOne(gen: Generation, g: nat, log: seq<Publication>) {
    gen.clear && !gen.cancelled && Publication(g, Complete) in log ==> ChannelDrained(gen)
  }

  predicate DrainedOk(s: State) {
    forall g :: 0 <= g < |s.gens| ==> DrainedOne(s.gens[g], g, s.log)
  }

  /** Once pending segments have been marked all that are pending are. */
  predicate MarkedOk(s: State) {
    s.gens != [] && s.gens[Last(s)].marks > 0 ==> s.view.timedOut == s.view.pending
  }

  /** What a live generation merged is in its canonical segments. */
  predicate MergedOne(gen: Generation, g: nat, k: Key, v: View, last: bool) {
    k in gen.entries && !gen.cancelled && gen.entries[k].work in {Landed(true), Settled(true)} ==>
      var segment := Segment(g, k, gen.entries[k].isVim);
      && (!segment.isVim ==>
            segment in v.canonical && (v.canonical[segment] == Computed(g) || v.canonical[segment].Restored?))
      && (segment.isVim && last && !v.vimRepainted ==>
            segment in v.canonical && v.canonical[segment] == Computed(g))
  }

  predicate MergedOk(s: State) {
    forall g, k :: 0 <= g < |s.gens| && k in s.gens[g].entries ==>
      MergedOne(s.gens[g], g, k, s.view, g == |s.gens| - 1)
  }

  predicate Announced(s: State) {
    forall g :: 0 <= g < |s.gens| ==> AnnouncedOne(s.gens[g], g, s.log)
  }

  /** The stream is not left waiting: its generation is over, or its publisher is still to
      announce the end, or the announcement is in the log at or above the stream's base. */
  predicate Served(s: State, st: Stream) {
    && st.generation < |s.gens|
    && st.base <= |s.log|
    && s.gens[st.generation].streamed
    && (|| s.gens[st.generation].cancelled
        || !s.gens[st.generation].phase.Finished?
        || Publication(st.generation, Complete) in s.log[st.base..])
  }

  predicate SoftOk(s: State) {
    s.soft != Idle ==>
      && s.gens != []
      && s.gens[Last(s)].streamed
      && (!s.soft.Reattached? ==> s.soft.base <= |s.log|)
  }

  predicate VimOk(s: State) {
    s.view.vimRepainted ==>
      forall i :: 0 <= i < |s.view.blocks| && s.view.blocks[i].isVim ==>
        s.view.blocks[i] in s.view.canonical && s.view.canonical[s.view.blocks[i]] == Executed(s.mode)
  }

  predicate OlderOver(s: State) {
    forall g :: 0 <= g < |s.gens| - 1 ==> Latched(s.gens[g]) && !s.gens[g].phase.Final?
  }

  predicate GenerationsOk(s: State) {
    forall g :: 0 <= g < |s.gens| ==> GenerationOk(s.gens[g])
  }

  predicate MarkersOk(s: State) {
    && s.view.timedOut <= s.view.pending
    && (s.gens == [] ==> s.view.pending == {})
  }

  predicate StreamsOk(s: State) {
    forall st :: st in s.streams ==> Served(s, st)
  }

  ghost predicate Inv(s: State) {
    && OlderOver(s)
    && GenerationsOk(s)
    && MarkersOk(s)
    && ClearOk(s) && Conserved(s)
    && Announced(s)
    && SoftOk(s)
    && StreamsOk(s)
    && VimOk(s)
    && NotesOk(s)
    && CompleteOk(s) && DrainedOk(s)
    && MarkedOk(s)
    && MergedOk(s)
  }

  // ---------------------------------------------------------------- each part is kept

  lemma NothingOutstanding(gen: Generation)
    ensures Outstanding(gen) == {} <==> ChannelDrained(gen)
  {
    if !ChannelDrained(gen) {
      var k :| k in gen.entries && Unfinished(gen.entries[k].work);
      assert k in Outstanding(gen);
    }
  }

  lemma StaysLatched(s: State, t: Step, g: nat)
    requires Enabled(s, t) && g < |s.gens| && Latched(s.gens[g]) && !s.gens[g].phase.Final?
    ensures g < |Apply(s, t).gens| && Latched(Apply(s, t).gens[g]) && !Apply(s, t).gens[g].phase.Final?
  {
  }

  lemma KeepsOlderOver(s: State, t: Step)
    requires OlderOver(s) && Enabled(s, t)
    ensures OlderOver(Apply(s, t))
  {
    var n := Apply(s, t);
    forall g | 0 <= g < |n.gens| - 1 ensures Latched(n.gens[g]) && !n.gens[g].phase.Final? {
      StaysLatched(s, t, g);
    }
  }

  lemma TakeOk(gen: Generation, k: Key, p: Phase)
    requires GenerationOk(gen) && k in gen.entries && gen.entries[k].work.Sent?
    requires (gen.phase.Collecting? && p == Collected(k)) || (gen.phase.Waiting? && p == Received(k))
    ensures GenerationOk(WithWork(gen, k, Taken(gen.entries[k].work.executed)).(phase := p))
  {
  }

  lemma LandOk(gen: Generation, p: Phase, w: Work)
    requires GenerationOk(gen) && (gen.phase.Collected? || gen.phase.Received?)
    requires if gen.phase.Collected? then p == Collecting && w.Landed?
             else if gen.cancelled then p.Finished? && w.Dropped?
             else p == Announcing(Done(gen.phase.key)) && w.Settled?
    ensures GenerationOk(WithWork(gen, gen.phase.key, w).(phase := p))
  {
  }

  lemma LatchOk(s: State, g: nat)
    requires Enabled(s, CutOff(g)) && GenerationOk(s.gens[g])
    ensures GenerationOk(Apply(s, CutOff(g)).gens[g])
  {
    var gen := s.gens[g];
    var n := Apply(s, CutOff(g));
    if n.gens[g].phase.Final? {
      forall k | k in gen.entries ensures gen.entries[k].work.Landed? {
        assert k !in n.view.pending;
      }
    }
  }

  /** Steps that move one segment's result along. */
  predicate MovesResult(t: Step) {
    t.WorkerSends? || t.WorkerQuits? || t.Collect? || t.MergeCollected? || t.Receive? || t.SettleReceived?
  }

  lemma ResultKeepsGeneration(s: State, t: Step, g: nat)
    requires Enabled(s, t) && MovesResult(t) && g < |s.gens| && GenerationOk(s.gens[g])
    ensures g < |Apply(s, t).gens| && GenerationOk(Apply(s, t).gens[g])
  {
    if t.g == g {
      match t
      case Collect(_, k) => TakeOk(s.gens[g], k, Collected(k));
      case Receive(_, k) => TakeOk(s.gens[g], k, Received(k));
      case MergeCollected(_) => LandOk(s.gens[g], Collecting, Apply(s, t).gens[g].entries[s.gens[g].phase.key].work);
      case SettleReceived(_) => LandOk(s.gens[g], Apply(s, t).gens[g].phase, Apply(s, t).gens[g].entries[s.gens[g].phase.key].work);
      case _ =>
    }
  }

  lemma KeepsGeneration(s: State, t: Step, g: nat)
    requires Enabled(s, t) && g < |s.gens| && GenerationOk(s.gens[g])
    ensures g < |Apply(s, t).gens| && GenerationOk(Apply(s, t).gens[g])
  {
    if MovesResult(t) {
      ResultKeepsGeneration(s, t, g);
    } else if t == CutOff(g) {
      LatchOk(s, g);
    } else if t == Announce(g) || t == MarkExpired(g) || t == Tick(g) {
      PublisherKeepsGeneration(s, t, g);
    }
  }

  lemma PublisherKeepsGeneration(s: State, t: Step, g: nat)
    requires Enabled(s, t) && g < |s.gens| && GenerationOk(s.gens[g])
    requires t == Announce(g) || t == MarkExpired(g) || t == Tick(g)
    ensures g < |Apply(s, t).gens| && GenerationOk(Apply(s, t).gens[g])
  {
  }

  lemma KeepsGenerationsOk(s: State, t: Step)
    requires GenerationsOk(s) && Enabled(s, t)
    ensures GenerationsOk(Apply(s, t))
  {
    var n := Apply(s, t);
    forall g | 0 <= g < |n.gens| ensures GenerationOk(n.gens[g]) {
      if g < |s.gens| { KeepsGeneration(s, t, g); }
    }
  }

  lemma KeepsMarkers(s: State, t: Step)
    requires MarkersOk(s) && Enabled(s, t)
    ensures MarkersOk(Apply(s, t))
  {
  }

  /** Work is only ever finished, so what was clear stays clear. */
  lemma OutstandingShrinks(s: State, t: Step, g: nat)
    requires Enabled(s, t) && g < |s.gens| && GenerationOk(s.gens[g])
    ensures g < |Apply(s, t).gens| && Apply(s, t).gens[g].entries.Keys == s.gens[g].entries.Keys
    ensures Apply(s, t).gens[g].clear == s.gens[g].clear && (s.gens[g].cancelled ==> Apply(s, t).gens[g].cancelled)
    ensures Outstanding(Apply(s, t).gens[g]) <= Outstanding(s.gens[g])
  {
    if MovesResult(t) {
      ResultShrinks(s, t, g);
    }
  }

  lemma ResultShrinks(s: State, t: Step, g: nat)
    requires Enabled(s, t) && MovesResult(t) && g < |s.gens| && GenerationOk(s.gens[g])
    ensures g < |Apply(s, t).gens| && Apply(s, t).gens[g].entries.Keys == s.gens[g].entries.Keys
    ensures Apply(s, t).gens[g].clear == s.gens[g].clear && Apply(s, t).gens[g].cancelled == s.gens[g].cancelled
    ensures Outstanding(Apply(s, t).gens[g]) <= Outstanding(s.gens[g])
  {
    if t.g == g {
      var k := if t.MergeCollected? || t.SettleReceived? then s.gens[g].phase.key else t.k;
      WorkShrinks(s.gens[g], k, Apply(s, t).gens[g].entries[k].work);
    }
  }

  lemma WorkShrinks(gen: Generation, k: Key, w: Work)
    requires k in gen.entries && (Unfinished(w) ==> Unfinished(gen.entries[k].work))
    ensures Outstanding(WithWork(gen, k, w)) <= Outstanding(gen) && WithWork(gen, k, w).entries.Keys == gen.entries.Keys
    ensures forall n: Generation :: n.entries == WithWork(gen, k, w).entries ==> Outstanding(n) <= Outstanding(gen)
  {
  }

  lemma StaysClear(s: State, t: Step)
    requires GenerationsOk(s) && Enabled(s, t) && !t.Begin? && s.gens != []
    requires Clear(s.gens[..Last(s)], s.gens[Last(s)].entries.Keys)
    ensures |Apply(s, t).gens| == |s.gens|
    ensures Clear(Apply(s, t).gens[..Last(s)], s.gens[Last(s)].entries.Keys)
  {
    var n := Apply(s, t);
    forall g | 0 <= g < Last(s) && !n.gens[..Last(s)][g].cancelled
      ensures Outstanding(n.gens[..Last(s)][g]) !! s.gens[Last(s)].entries.Keys
    {
      OutstandingShrinks(s, t, g);
      assert s.gens[..Last(s)][g] == s.gens[g];
    }
  }

  lemma KeepsClear(s: State, t: Step)
    requires GenerationsOk(s) && ClearOk(s) && Enabled(s, t)
    ensures ClearOk(Apply(s, t))
  {
    if t.Begin? {
      assert Apply(s, t).gens[..|s.gens|] == s.gens;
    } else if s.gens != [] {
      OutstandingShrinks(s, t, Last(s));
      if s.gens[Last(s)].clear { StaysClear(s, t); }
    }
  }

  /** A result of an earlier generation takes down no placeholder of a generation that began clear. */
  lemma OlderSettlesApart(s: State, g: nat)
    requires GenerationsOk(s) && ClearOk(s) && Enabled(s, SettleReceived(g))
    requires g < Last(s) && s.gens[Last(s)].clear
    ensures s.gens[g].cancelled || s.gens[g].phase.key !in Outstanding(s.gens[Last(s)])
  {
    assert s.gens[..Last(s)][g] == s.gens[g];
    assert s.gens[g].phase.key in Outstanding(s.gens[g]);
  }

  lemma ResultsConserve(s: State, t: Step)
    requires OlderOver(s) && GenerationsOk(s) && ClearOk(s) && Conserved(s) && Enabled(s, t) && MovesResult(t)
    ensures Conserved(Apply(s, t))
  {
    if t.SettleReceived? && t.g < Last(s) && s.gens[Last(s)].clear { OlderSettlesApart(s, t.g); }
  }

  lemma KeepsConserved(s: State, t: Step)
    requires OlderOver(s) && GenerationsOk(s) && ClearOk(s) && Conserved(s) && Enabled(s, t)
    ensures Conserved(Apply(s, t))
  {
    if MovesResult(t) { ResultsConserve(s, t); }
  }

  lemma KeepsAnnouncedOne(s: State, t: Step, g: nat)
    requires GenerationsOk(s) && Enabled(s, t) && g < |s.gens| && AnnouncedOne(s.gens[g], g, s.log)
    ensures g < |Apply(s, t).gens| && AnnouncedOne(Apply(s, t).gens[g], g, Apply(s, t).log)
  {
    assert GenerationOk(s.gens[g]);
  }

  lemma KeepsAnnounced(s: State, t: Step)
    requires GenerationsOk(s) && Announced(s) && Enabled(s, t)
    ensures Announced(Apply(s, t))
  {
    var n := Apply(s, t);
    forall g | 0 <= g < |n.gens| ensures AnnouncedOne(n.gens[g], g, n.log) {
      if g < |s.gens| { KeepsAnnouncedOne(s, t, g); }
    }
  }

  lemma KeepsSoftOk(s: State, t: Step)
    requires OlderOver(s) && GenerationsOk(s) && SoftOk(s) && Enabled(s, t)
    ensures SoftOk(Apply(s, t))
  {
    if s.gens != [] { assert GenerationOk(s.gens[Last(s)]); }
  }

  /** A stream that is served stays served: the log only grows. */
  lemma StreamStays(s: State, t: Step, st: Stream)
    requires GenerationsOk(s) && Enabled(s, t) && Served(s, st)
    ensures Served(Apply(s, t), st)
  {
    var n := Apply(s, t);
    assert n.log[st.base..] == s.log[st.base..] + n.log[|s.log|..];
  }

  /** The handle a repaint returns is served from the start. */
  lemma NewStreamServed(s: State, t: Step)
    requires SoftOk(s) && Conserved(s) && GenerationsOk(s) && Enabled(s, t)
    requires t == PublishDrained || (t == CountPending && s.view.pending != {})
    ensures Served(Apply(s, t), Stream(Last(s), s.soft.base))
  {
    var n := Apply(s, t);
    assert GenerationOk(s.gens[Last(s)]);
    NothingOutstanding(s.gens[Last(s)]);
    assert n.log[s.soft.base..] == s.log[s.soft.base..] + n.log[|s.log|..];
  }

  lemma KeepsStreams(s: State, t: Step)
    requires GenerationsOk(s) && Conserved(s) && SoftOk(s) && StreamsOk(s) && Enabled(s, t)
    ensures StreamsOk(Apply(s, t))
  {
    var n := Apply(s, t);
    forall st | st in n.streams ensures Served(n, st) {
      if st in s.streams {
        StreamStays(s, t, st);
      } else {
        NewStreamServed(s, t);
      }
    }
  }

  lemma KeepsVim(s: State, t: Step)
    requires VimOk(s) && Enabled(s, t)
    ensures VimOk(Apply(s, t))
  {
    if t.RepaintAlone? || t.RepaintAttached? {
      var blocks := BlocksOf(s.view, t.resolved);
      RepaintTouches(s.view, blocks, t.cache, t.newMode, |blocks|);
    }
  }

  lemma TimesOn(log: seq<Publication>, more: Publication, p: Publication)
    ensures Times(log + [more], p) == Times(log, p) + (if more == p then 1 else 0)
  {
    assert (log + [more])[..|log|] == log;
  }

  lemma {:induction false} NeverNoted(log: seq<Publication>, g: nat, note: Note)
    requires forall i :: 0 <= i < |log| ==> log[i].generation != g
    ensures Times(log, Publication(g, note)) == 0
  {
    if log != [] { NeverNoted(log[..|log| - 1], g, note); }
  }

  /** A generation that neither settles, marks nor announces. */
  lemma NotedStands(s: State, t: Step, g: nat)
    requires Enabled(s, t) && g < |s.gens| && NotedOne(s.gens[g], g, s.log)
    requires GenerationOk(s.gens[g]) && t != SettleReceived(g) && t != MarkExpired(g) && t != Announce(g)
    ensures g < |Apply(s, t).gens| && NotedOne(Apply(s, t).gens[g], g, Apply(s, t).log)
  {
    var n := Apply(s, t);
    assert forall k: Key :: IsSettled(n.gens[g], k) == IsSettled(s.gens[g], k);
    assert forall note: Note :: note != Complete ==> About(n.gens[g], note) == About(s.gens[g], note);
    if n.log != s.log {
      forall note: Note | note != Complete ensures Times(n.log, Publication(g, note)) == Times(s.log, Publication(g, note)) {
        TimesOn(s.log, n.log[|s.log|], Publication(g, note));
      }
    }
  }

  lemma NotedMoves(s: State, t: Step, g: nat)
    requires Enabled(s, t) && g < |s.gens| && NotedOne(s.gens[g], g, s.log)
    requires GenerationOk(s.gens[g]) && (t == SettleReceived(g) || t == MarkExpired(g) || t == Announce(g))
    ensures g < |Apply(s, t).gens| && NotedOne(Apply(s, t).gens[g], g, Apply(s, t).log)
  {
    var n := Apply(s, t);
    if n.log != s.log {
      forall note: Note ensures Times(n.log, Publication(g, note)) ==
                                Times(s.log, Publication(g, note)) + (if n.log[|s.log|] == Publication(g, note) then 1 else 0) {
        TimesOn(s.log, n.log[|s.log|], Publication(g, note));
      }
    }
  }

  lemma KeepsNotes(s: State, t: Step)
    requires GenerationsOk(s) && NotesOk(s) && Enabled(s, t)
    ensures NotesOk(Apply(s, t))
  {
    var n := Apply(s, t);
    forall g | 0 <= g < |n.gens| ensures NotedOne(n.gens[g], g, n.log) {
      if g == |s.gens| {
        forall note: Note ensures Times(n.log, Publication(g, note)) == 0 { NeverNoted(n.log, g, note); }
      } else if t == SettleReceived(g) || t == MarkExpired(g) || t == Announce(g) {
        NotedMoves(s, t, g);
      } else {
        NotedStands(s, t, g);
      }
    }
  }

  /** Nothing is added to what is pending once the latest generation is latched. */
  lemma PendingShrinks(s: State, t: Step)
    requires Enabled(s, t) && s.gens != [] && Latched(s.gens[Last(s)]) && OlderOver(s)
    ensures Apply(s, t).view.pending <= s.view.pending
    ensures Last(s) < |Apply(s, t).gens| && Latched(Apply(s, t).gens[Last(s)])
  {
  }

  lemma CompletesBy(s: State, t: Step)
    requires SoftOk(s) && Enabled(s, t) && s.gens != [] && GenerationOk(s.gens[Last(s)])
    requires !t.Begin? && !Completes(s) && Completes(Apply(s, t))
    ensures t == ChannelClosed(Last(s)) || t == CutOff(Last(s)) || t == CountPending
  {
  }

  lemma CompletesNow(s: State, t: Step)
    requires Conserved(s) && SoftOk(s) && Enabled(s, t) && s.gens != [] && GenerationOk(s.gens[Last(s)])
    requires t == ChannelClosed(Last(s)) || t == CutOff(Last(s)) || t == CountPending
    requires !Completes(s) && Completes(Apply(s, t))
    ensures Latched(Apply(s, t).gens[Last(Apply(s, t))]) && Apply(s, t).view.pending == {}
  {
    NothingOutstanding(s.gens[Last(s)]);
  }

  lemma KeepsComplete(s: State, t: Step)
    requires OlderOver(s) && GenerationsOk(s) && Conserved(s) && SoftOk(s) && NotesOk(s) && CompleteOk(s) && Enabled(s, t)
    ensures CompleteOk(Apply(s, t))
  {
    if s.gens != [] && !t.Begin? {
      assert GenerationOk(s.gens[Last(s)]);
      if Completes(s) {
        PendingShrinks(s, t);
      } else if Completes(Apply(s, t)) {
        CompletesBy(s, t);
        CompletesNow(s, t);
      }
    }
  }

  lemma KeepsDrainedOne(s: State, t: Step, g: nat)
    requires g < |s.gens| && Enabled(s, t) && GenerationOk(s.gens[g])
    requires Conserved(s) && SoftOk(s) && CompleteOk(s) && DrainedOne(s.gens[g], g, s.log)
    ensures g < |Apply(s, t).gens| && DrainedOne(Apply(s, t).gens[g], g, Apply(s, t).log)
  {
    OutstandingShrinks(s, t, g);
    NothingOutstanding(s.gens[g]);
    NothingOutstanding(Apply(s, t).gens[g]);
    if s.gens != [] { assert GenerationOk(s.gens[g]); }
  }

  lemma KeepsDrained(s: State, t: Step)
    requires GenerationsOk(s) && Conserved(s) && SoftOk(s) && CompleteOk(s) && NotesOk(s) && DrainedOk(s) && Enabled(s, t)
    ensures DrainedOk(Apply(s, t))
  {
    var n := Apply(s, t);
    forall g | 0 <= g < |n.gens| ensures DrainedOne(n.gens[g], g, n.log) {
      if g < |s.gens| { KeepsDrainedOne(s, t, g); }
    }
  }

  lemma KeepsMarked(s: State, t: Step)
    requires OlderOver(s) && GenerationsOk(s) && MarkersOk(s) && MarkedOk(s) && Enabled(s, t)
    ensures MarkedOk(Apply(s, t))
  {
    if s.gens != [] { assert GenerationOk(s.gens[Last(s)]); }
    assert s.view.timedOut + s.view.pending == s.view.pending;
  }

  lemma RepaintKeepsMerged(gen: Generation, g: nat, k: Key, v: View, last: bool, mode: nat, cache: Cache, resolved: seq<Segment>)
    requires MergedOne(gen, g, k, v, last)
    ensures MergedOne(gen, g, k, Repaint(v, mode, cache, resolved), last)
  {
    var blocks := BlocksOf(v, resolved);
    RepaintTouches(v, blocks, cache, mode, |blocks|);
    if k in gen.entries && gen.entries[k].isVim && Segment(g, k, true) in blocks {
      var i :| 0 <= i < |blocks| && blocks[i] == Segment(g, k, true);
      assert HasVim(blocks);
    }
  }

  lemma PrepareKeepsMerged(gen: Generation, g: nat, k: Key, v: View, last: bool, blocks: seq<Segment>, cache: Cache)
    requires MergedOne(gen, g, k, v, last) && forall i :: 0 <= i < |blocks| ==> blocks[i].generation != g
    ensures MergedOne(gen, g, k, Prepare(v, blocks, cache), false)
  {
    PrepareTouches(v.canonical, blocks, cache, |blocks|);
  }

  /** A section of some generation that merges. */
  lemma MergingKeepsMerged(s: State, t: Step, g: nat, k: Key)
    requires Enabled(s, t) && (t.MergeCollected? || t.SettleReceived?) && g < |s.gens| && k in s.gens[g].entries
    requires MergedOne(s.gens[g], g, k, s.view, g == |s.gens| - 1)
    ensures g < |Apply(s, t).gens| && k in Apply(s, t).gens[g].entries
    ensures MergedOne(Apply(s, t).gens[g], g, k, Apply(s, t).view, g == |s.gens| - 1)
  {
    MergeLands(s.view, s.gens[t.g].cancelled, ResultOf(t.g, s.gens[t.g], s.gens[t.g].phase.key));
  }

  lemma KeepsMergedOne(s: State, t: Step, g: nat, k: Key)
    requires Enabled(s, t) && g < |s.gens| && k in s.gens[g].entries && MergedOne(s.gens[g], g, k, s.view, g == |s.gens| - 1)
    ensures g < |Apply(s, t).gens| && k in Apply(s, t).gens[g].entries
    ensures MergedOne(Apply(s, t).gens[g], g, k, Apply(s, t).view, g == |Apply(s, t).gens| - 1)
  {
    if t.RepaintAlone? || t.RepaintAttached? {
      RepaintKeepsMerged(s.gens[g], g, k, s.view, g == |s.gens| - 1, t.newMode, t.cache, t.resolved);
    } else if t.Begin? {
      PrepareKeepsMerged(s.gens[g], g, k, s.view, g == |s.gens| - 1, t.blocks, t.cache);
    } else if t.MergeCollected? || t.SettleReceived? {
      MergingKeepsMerged(s, t, g, k);
    }
  }

  lemma KeepsMerged(s: State, t: Step)
    requires MergedOk(s) && Enabled(s, t)
    ensures MergedOk(Apply(s, t))
  {
    var n := Apply(s, t);
    forall g, k | 0 <= g < |n.gens| && k in n.gens[g].entries
      ensures MergedOne(n.gens[g], g, k, n.view, g == |n.gens| - 1)
    {
      if g < |s.gens| { KeepsMergedOne(s, t, g, k); }
    }
  }

  lemma {:induction false} RunKeepsInv(s: State, ts: seq<Step>)
    requires Inv(s) && Runs(s, ts)
    ensures Inv(After(s, ts))
    decreases |ts|
  {
    if ts != [] {
      var t := ts[0];
      KeepsOlderOver(s, t);
      KeepsGenerationsOk(s, t);
      KeepsMarkers(s, t);
      KeepsClear(s, t);
      KeepsConserved(s, t);
      KeepsAnnounced(s, t);
      KeepsSoftOk(s, t);
      KeepsStreams(s, t);
      KeepsVim(s, t);
      KeepsNotes(s, t);
      KeepsComplete(s, t);
      KeepsDrained(s, t);
      KeepsMarked(s, t);
      KeepsMerged(s, t);
      RunKeepsInv(Apply(s, t), ts[1..]);
    }
  }

  lemma ReachableInv(s: State)
    requires Reachable(s)
    ensures Inv(s)
  {
    var ts :| Runs(Start, ts) && After(Start, ts) == s;
    RunKeepsInv(Start, ts);
  }

  // ---------------------------------------------------------------- walks

  /** A step further on a way from a to a reachable state. */
  lemma Walk(a: State, s: State, t: Step) returns (n: State)
    requires Reachable(s) && Leads(a, s) && Enabled(s, t)
    ensures n == Apply(s, t) && Reachable(n) && Leads(a, n)
  {
    n := Apply(s, t);
    LeadsOn(Start, s, t);
    LeadsOn(a, s, t);
  }

  lemma GenerationIsOk(s: State, g: nat)
    requires Reachable(s) && g < |s.gens|
    ensures GenerationOk(s.gens[g])
  {
    ReachableInv(s);
  }

  predicate KeepsOthers(s: State, n: State, g: nat) {
    |n.gens| == |s.gens| && forall h :: 0 <= h < |s.gens| && h != g ==> n.gens[h] == s.gens[h]
  }

  /** On the way the placeholder of the key stays, and none is added. */
  predicate Spares(s: State, n: State, g: nat, k: Key)
    requires g < |s.gens| && g < |n.gens|
  {
    && n.view.pending <= s.view.pending
    && (k in s.view.pending ==> k in n.view.pending)
    && n.soft == s.soft && n.gens[g].streamed == s.gens[g].streamed
  }

  /** A live publisher that has something to receive leaves its lock section. */
  lemma LeavesSection(a: State, s: State, g: nat, k: Key) returns (n: State)
    requires Reachable(s) && Leads(a, s) && g < |s.gens| && !s.gens[g].cancelled
    requires s.gens[g].phase.Received? || s.gens[g].phase.Expired?
    requires k in Outstanding(s.gens[g]) && s.gens[g].phase != Received(k)
    ensures Reachable(n) && Leads(a, n) && KeepsOthers(s, n, g) && !n.gens[g].cancelled
    ensures (n.gens[g].phase.Announcing? || n.gens[g].phase.Waiting?) && k in Outstanding(n.gens[g])
    ensures Spares(s, n, g, k)
  {
    GenerationIsOk(s, g);
    if s.gens[g].phase.Received? {
      n := Walk(a, s, SettleReceived(g));
    } else {
      n := Walk(a, s, MarkExpired(g));
    }
  }

  /** And gets back to its select. */
  lemma GoesOnWaiting(a: State, s: State, g: nat, k: Key) returns (n: State)
    requires Reachable(s) && Leads(a, s) && g < |s.gens| && !s.gens[g].cancelled
    requires Latched(s.gens[g]) && k in Outstanding(s.gens[g]) && s.gens[g].phase != Received(k)
    ensures Reachable(n) && Leads(a, n) && KeepsOthers(s, n, g) && !n.gens[g].cancelled
    ensures n.gens[g].phase.Waiting? && k in Outstanding(n.gens[g])
    ensures Spares(s, n, g, k)
  {
    GenerationIsOk(s, g);
    n := s;
    if s.gens[g].phase.Received? || s.gens[g].phase.Expired? {
      n := LeavesSection(a, s, g, k);
    }
    if n.gens[g].phase.Announcing? {
      n := Walk(a, n, Announce(g));
    }
  }

  /** And receives it. */
  lemma GoesOnToReceive(a: State, s: State, g: nat, k: Key) returns (n: State)
    requires Reachable(s) && Leads(a, s) && g < |s.gens| && !s.gens[g].cancelled
    requires Latched(s.gens[g]) && k in Outstanding(s.gens[g])
    ensures Reachable(n) && Leads(a, n) && KeepsOthers(s, n, g) && !n.gens[g].cancelled
    ensures n.gens[g].phase == Received(k) && Enabled(n, SettleReceived(g))
    ensures Spares(s, n, g, k)
  {
    if s.gens[g].phase == Received(k) {
      GenerationIsOk(s, g);
      n := s;
    } else {
      var m := GoesOnWaiting(a, s, g, k);
      GenerationIsOk(m, g);
      n := Receives(a, m, g, k);
    }
  }

  lemma Receives(a: State, s: State, g: nat, k: Key) returns (n: State)
    requires Reachable(s) && Leads(a, s) && g < |s.gens| && !s.gens[g].cancelled
    requires s.gens[g].phase.Waiting? && k in Outstanding(s.gens[g]) && !s.gens[g].entries[k].work.Taken?
    ensures Reachable(n) && Leads(a, n) && KeepsOthers(s, n, g) && n.view == s.view && !n.gens[g].cancelled
    ensures n.soft == s.soft && n.gens[g].streamed == s.gens[g].streamed
    ensures n.gens[g].phase == Received(k) && Enabled(n, SettleReceived(g))
  {
    var m := s;
    if s.gens[g].entries[k].work == Working {
      m := Walk(a, s, WorkerSends(g, k, true));
    }
    n := Walk(a, m, Receive(g, k));
  }

  /** A StartRender under way gets to its end. */
  lemma StarterReturns(a: State, s: State) returns (n: State)
    requires Reachable(s) && Leads(a, s) && s.gens != []
    ensures Reachable(n) && Leads(a, n) && KeepsOthers(s, n, Last(s)) && StarterFree(n)
  {
    GenerationIsOk(s, Last(s));
    n := s;
    if s.soft != Idle {
      n := RepaintEnds(a, s);
    } else {
      var g := Last(s);
      if n.gens[g].phase.Collected? { n := Walk(a, n, MergeCollected(g)); }
      if n.gens[g].phase.Collecting? { n := Walk(a, n, CutOff(g)); }
      if n.gens[g].phase.Final? { n := Walk(a, n, AnnounceFinal(g)); }
    }
  }

  lemma RepaintHasGeneration(s: State)
    requires Reachable(s) && s.soft != Idle
    ensures s.gens != [] && Latched(s.gens[Last(s)]) && !s.gens[Last(s)].phase.Final?
  {
    ReachableInv(s);
    assert GenerationOk(s.gens[Last(s)]);
  }

  lemma RepaintEnds(a: State, s: State) returns (n: State)
    requires Reachable(s) && Leads(a, s) && s.soft != Idle
    ensures Reachable(n) && Leads(a, n) && n.gens == s.gens && n.gens != [] && StarterFree(n)
  {
    RepaintHasGeneration(s);
    var m := s;
    if m.soft.Reattached? { m := Walk(a, m, ReadBase); }
    n := RepaintFinishes(a, m);
  }

  lemma RepaintFinishes(a: State, s: State) returns (n: State)
    requires Reachable(s) && Leads(a, s) && s.soft != Idle && !s.soft.Reattached? && s.gens != []
    ensures Reachable(n) && Leads(a, n) && n.gens == s.gens && n.soft == Idle
  {
    n := s;
    if n.soft.Attached? { n := Walk(a, n, RepaintAttached(n.mode, map[], [])); }
    if n.soft.Painted? { n := Walk(a, n, CountPending); }
    if n.soft.Drained? { n := Walk(a, n, PublishDrained); }
  }

  /** The next StartRender begins a generation of one segment and leaves it pending. */
  lemma BeginsWith(a: State, s: State, k: Key) returns (n: State)
    requires Reachable(s) && Leads(a, s) && StarterFree(s)
    ensures Reachable(n) && Leads(a, n) && |n.gens| == |s.gens| + 1 && n.gens[..|s.gens|] == s.gens
    ensures n.view.pending == {k} && n.view.timedOut == {}
    ensures n.gens[|s.gens|].entries == map[k := Entry(false, Working)] && n.gens[|s.gens|].phase.Waiting?
    ensures !n.gens[|s.gens|].cancelled && n.gens[|s.gens|].streamed && n.soft == Idle
  {
    var one := [Segment(|s.gens|, k, false)];
    var work := map[k := Entry(false, Working)];
    assert KeysOf(one, map[], 0, false) == {};
    assert KeysOf(one, map[], 1, false) == {k};
    var m := Walk(a, s, Begin(one, map[], work, false));
    assert LandedKeys(m.gens[|s.gens|]) == {};
    n := Walk(a, m, CutOff(|s.gens|));
  }

  // ---------------------------------------------------------------- theorems

  /** Placeholder conservation, wherever the cutoff fell: what is pending is outstanding, and all of
      it is, if no live generation had a segment of the same key to finish when this one began. */
  lemma PlaceholdersAreConserved(s: State)
    requires Reachable(s) && s.gens != [] && Latched(s.gens[Last(s)]) && !s.gens[Last(s)].cancelled
    ensures s.view.pending <= Outstanding(s.gens[Last(s)])
    ensures s.gens[Last(s)].clear ==> s.view.pending == Outstanding(s.gens[Last(s)])
  {
    ReachableInv(s);
  }

  predicate ConservedLast(s: State) {
    s.gens != [] && Latched(s.gens[Last(s)]) && !s.gens[Last(s)].cancelled ==>
      s.view.pending == Outstanding(s.gens[Last(s)])
  }

  /** Until the next generation begins, whatever happens. */
  ghost predicate StaysConserved(s: State) {
    forall n :: Leads(s, n) && |n.gens| == |s.gens| ==> ConservedLast(n)
  }

  lemma ReachableLeads(s: State, n: State)
    requires Reachable(s) && Leads(s, n)
    ensures Reachable(n)
  {
    var us :| Runs(s, us) && After(s, us) == n;
    ReachableRun(s, us);
  }

  lemma {:induction false} ReachableRun(s: State, us: seq<Step>)
    requires Reachable(s) && Runs(s, us)
    ensures Reachable(After(s, us))
    decreases |us|
  {
    if us != [] {
      LeadsOn(Start, s, us[0]);
      ReachableRun(Apply(s, us[0]), us[1..]);
    }
  }

  lemma ClearStep(s: State, t: Step)
    requires Enabled(s, t)
    ensures |s.gens| <= |Apply(s, t).gens|
    ensures forall g :: 0 <= g < |s.gens| ==> Apply(s, t).gens[g].clear == s.gens[g].clear
  {
  }

  lemma {:induction false} ClearIsHistoryAt(s: State, us: seq<Step>, g: nat)
    requires Runs(s, us) && g < |s.gens|
    ensures |s.gens| <= |After(s, us).gens| && After(s, us).gens[g].clear == s.gens[g].clear
    decreases |us|
  {
    if us != [] {
      ClearStep(s, us[0]);
      ClearIsHistoryAt(Apply(s, us[0]), us[1..], g);
    }
  }

  lemma ClearBeginningStaysConserved(s: State, n: State)
    requires Reachable(s) && s.gens != [] && s.gens[Last(s)].clear && Leads(s, n) && |n.gens| == |s.gens|
    ensures ConservedLast(n)
  {
    ReachableLeads(s, n);
    assert n.gens[Last(s)].clear by {
      var us :| Runs(s, us) && After(s, us) == n;
      ClearIsHistoryAt(s, us, Last(s));
    }
    PlaceholdersFollow(n);
  }

  lemma PlaceholdersFollow(s: State)
    requires Reachable(s) && s.gens != [] && s.gens[Last(s)].clear
    ensures ConservedLast(s)
  {
    ReachableInv(s);
  }

  lemma OthersLatched(s: State, g: nat)
    requires Reachable(s) && StarterFree(s) && g < |s.gens|
    ensures Latched(s.gens[g])
  {
    ReachableInv(s);
  }

  /** What the StartRender that begins a generation can see decides: its placeholders are conserved
      in every continuation exactly when no live generation of the engine still has to deliver a
      segment that it executes too. */
  lemma PlaceholdersAreConservedIff(s: State, t: Step)
    requires Reachable(s) && Enabled(s, t) && t.Begin?
    ensures StaysConserved(Apply(s, t)) <==> Clear(s.gens, t.executed.Keys)
  {
    var n := Apply(s, t);
    LeadsOn(Start, s, t);
    assert n.gens[..|s.gens|] == s.gens && Last(n) == |s.gens|;
    if Clear(s.gens, t.executed.Keys) {
      forall m | Leads(n, m) && |m.gens| == |n.gens| ensures ConservedLast(m) {
        ClearBeginningStaysConserved(n, m);
      }
    } else {
      var g :| 0 <= g < |s.gens| && !s.gens[g].cancelled && !(Outstanding(s.gens[g]) !! t.executed.Keys);
      var k :| k in Outstanding(s.gens[g]) && k in t.executed.Keys;
      OthersLatched(s, g);
      assert n.gens[g] == s.gens[g];
      var m := LosesPlaceholder(n, g, k);
      assert Leads(n, m) && |m.gens| == |n.gens| && !ConservedLast(m);
    }
  }

  /** A live predecessor delivers a segment that the latest generation is still executing. */
  lemma LosesPlaceholder(s: State, g: nat, k: Key) returns (n: State)
    requires Reachable(s) && g < |s.gens| - 1 && s.gens[Last(s)].phase.Collecting? && !s.gens[Last(s)].cancelled
    requires !s.gens[g].cancelled && Latched(s.gens[g]) && k in Outstanding(s.gens[g])
    requires k in s.gens[Last(s)].entries && s.gens[Last(s)].entries[k].work == Working
    ensures Reachable(n) && Leads(s, n) && |n.gens| == |s.gens| && !ConservedLast(n)
  {
    var m := LatchesWith(s, k);
    assert m.gens[g] == s.gens[g];
    var r := GoesOnToReceive(s, m, g, k);
    n := Walk(s, r, SettleReceived(g));
    assert n.gens[Last(s)] == m.gens[Last(s)];
  }

  lemma LatchesWith(s: State, k: Key) returns (n: State)
    requires Reachable(s) && s.gens != [] && s.gens[Last(s)].phase.Collecting? && !s.gens[Last(s)].cancelled
    requires k in s.gens[Last(s)].entries && s.gens[Last(s)].entries[k].work == Working
    ensures Reachable(n) && Leads(s, n) && KeepsOthers(s, n, Last(s)) && k in n.view.pending
    ensures Latched(n.gens[Last(s)]) && !n.gens[Last(s)].cancelled && k in Outstanding(n.gens[Last(s)])
  {
    LeadsHere(s);
    n := Walk(s, s, CutOff(Last(s)));
    assert k !in LandedKeys(s.gens[Last(s)]);
  }

  /** What is marked as timed out is pending, in every state. */
  lemma MarkersArePending(s: State)
    requires Reachable(s)
    ensures s.view.timedOut <= s.view.pending
  {
    ReachableInv(s);
  }

  /** When the latest publisher is about to announce completion nothing is pending or marked. */
  lemma CompletionLeavesNoPlaceholder(s: State)
    requires Reachable(s) && s.gens != [] && s.gens[Last(s)].phase.Closing? && !s.gens[Last(s)].cancelled
    ensures s.view.pending == {} && s.view.timedOut == {}
  {
    ReachableInv(s);
    NothingOutstanding(s.gens[Last(s)]);
  }

  /** A generation that has ended has announced it, with all its results in, unless its context was
      cancelled: both one that was streamed and one that was final at once. */
  lemma PublisherAnnouncesCompletion(s: State, g: nat)
    requires Reachable(s) && g < |s.gens|
    requires s.gens[g].phase.Finished? && !s.gens[g].cancelled
    ensures Publication(g, Complete) in s.log && ChannelDrained(s.gens[g])
    ensures g == Last(s) ==> s.view.pending == {} && s.view.timedOut == {}
  {
    ReachableInv(s);
    assert GenerationOk(s.gens[g]) && AnnouncedOne(s.gens[g], g, s.log);
    NothingOutstanding(s.gens[g]);
  }

  /** A completion in the log means the end: of the latest generation nothing is pending or marked any
      more; and a live generation that began clear has nothing outstanding. */
  lemma CompletionIsTheEnd(s: State, g: nat)
    requires Reachable(s) && g < |s.gens| && Publication(g, Complete) in s.log
    ensures g == Last(s) ==> s.view.pending == {} && s.view.timedOut == {}
    ensures s.gens[g].clear && !s.gens[g].cancelled ==> ChannelDrained(s.gens[g])
  {
    ReachableInv(s);
    assert DrainedOne(s.gens[g], g, s.log);
  }

  /** Each result that the publisher settled is announced by its own name, once, or is about to be;
      and no other result is. */
  lemma ResultsAreAnnouncedOnce(s: State, g: nat, k: Key)
    requires Reachable(s) && g < |s.gens|
    ensures Times(s.log, Publication(g, Done(k))) + About(s.gens[g], Done(k)) == if IsSettled(s.gens[g], k) then 1 else 0
  {
    ReachableInv(s);
    assert NotedOne(s.gens[g], g, s.log);
  }

  /** A generation marks its pending segments once at most, and announces that, or is about to; and
      once it has, whatever is pending is marked, until the next generation begins. */
  lemma MarkingIsAnnounced(s: State, g: nat)
    requires Reachable(s) && g < |s.gens|
    ensures s.gens[g].marks <= 1
    ensures Times(s.log, Publication(g, TimedOut)) + About(s.gens[g], TimedOut) == s.gens[g].marks
    ensures g == Last(s) && s.gens[g].marks == 1 ==> s.view.timedOut == s.view.pending
  {
    ReachableInv(s);
    assert NotedOne(s.gens[g], g, s.log) && GenerationOk(s.gens[g]);
  }

  /** What a live generation has merged is on its canonical segments: a result that carried a clone,
      unless a later repaint restored the segment from the cache, or re-executed it for vim. */
  lemma ResultsReachTheirSegments(s: State, g: nat, k: Key)
    requires Reachable(s) && g < |s.gens| && !s.gens[g].cancelled && k in s.gens[g].entries
    requires s.gens[g].entries[k].work in {Landed(true), Settled(true)}
    ensures var segment := Segment(g, k, s.gens[g].entries[k].isVim);
            && (!segment.isVim ==>
                  && segment in s.view.canonical
                  && (s.view.canonical[segment] == Computed(g) || s.view.canonical[segment].Restored?))
            && (segment.isVim && g == Last(s) && !s.view.vimRepainted ==>
                  && segment in s.view.canonical
                  && s.view.canonical[segment] == Computed(g))
  {
    ReachableInv(s);
    assert MergedOne(s.gens[g], g, k, s.view, g == |s.gens| - 1);
  }

  /** Whether a result carries a clone, from the worker's send on. */
  function Clone(w: Work): (c: set<bool>)
  {
    match w
    case Sent(e) => {e}
    case Taken(e) => {e}
    case Landed(e) => {e}
    case Settled(e) => {e}
    case _ => {}
  }

  /** How one step may move a result. */
  predicate Delivers(w: Work, n: Work, t: Step, g: nat, cancelled: bool) {
    && (w.Working? ==> n == w || (n.Quit? && cancelled) || (t.WorkerSends? && n == Sent(t.clean)))
    && (!w.Working? ==> Clone(n) == Clone(w) || (n.Dropped? && cancelled))
    && (n.Settled? && !w.Settled? ==> t == SettleReceived(g) && w.Taken?)
    && (n.Landed? && !w.Landed? ==> t == MergeCollected(g) && w.Taken?)
  }

  lemma PassedAsSent(s: State, t: Step, k: Key)
    requires Enabled(s, t) && (t.WorkerSends? || t.WorkerQuits? || t.Collect? || t.Receive?) && k in s.gens[t.g].entries
    ensures k in Apply(s, t).gens[t.g].entries
    ensures Delivers(s.gens[t.g].entries[k].work, Apply(s, t).gens[t.g].entries[k].work, t, t.g, s.gens[t.g].cancelled)
  {
    if t.k != k { assert Apply(s, t).gens[t.g].entries[k] == s.gens[t.g].entries[k]; }
  }

  lemma MergedAsSent(s: State, t: Step, k: Key)
    requires Enabled(s, t) && (t.MergeCollected? || t.SettleReceived?) && k in s.gens[t.g].entries
    ensures k in Apply(s, t).gens[t.g].entries
    ensures Delivers(s.gens[t.g].entries[k].work, Apply(s, t).gens[t.g].entries[k].work, t, t.g, s.gens[t.g].cancelled)
  {
    if s.gens[t.g].phase.key != k { assert Apply(s, t).gens[t.g].entries[k] == s.gens[t.g].entries[k]; }
  }

  /** A result is delivered as it was sent: its clone is neither lost nor made up on the way, and a
      received result is only dropped when its generation is cancelled. */
  lemma ResultIsDeliveredAsSent(s: State, t: Step, g: nat, k: Key)
    requires Reachable(s) && Enabled(s, t) && g < |s.gens| && k in s.gens[g].entries
    ensures g < |Apply(s, t).gens| && k in Apply(s, t).gens[g].entries
    ensures Delivers(s.gens[g].entries[k].work, Apply(s, t).gens[g].entries[k].work, t, g, s.gens[g].cancelled)
  {
    if (t.MergeCollected? || t.SettleReceived?) && t.g == g {
      MergedAsSent(s, t, k);
    } else if MovesResult(t) && t.g == g {
      PassedAsSent(s, t, k);
    } else {
      assert Apply(s, t).gens[g].entries == s.gens[g].entries;
    }
  }

  /** A prompt is streamed exactly when, at its cutoff, some result of it is outstanding. */
  lemma StreamsIff(s: State, g: nat)
    requires Reachable(s) && Enabled(s, CutOff(g)) && !s.gens[g].cancelled
    ensures Apply(s, CutOff(g)).gens[g].streamed <==> !ChannelDrained(s.gens[g])
    ensures Apply(s, CutOff(g)).view.pending == Outstanding(s.gens[g])
  {
    ReachableInv(s);
    var gen := s.gens[g];
    assert GenerationOk(gen) && g == Last(s);
    NothingOutstanding(gen);
    forall k | k in gen.entries ensures k in Outstanding(gen) <==> k !in LandedKeys(gen) {
    }
  }

  /** Placeholders appear when a prompt is latched, disappear with their result or the next
      generation, and are marked by a live generation's timer; nothing else touches them. */
  lemma PlaceholdersChangeOnlyBy(s: State, t: Step, k: Key)
    requires Reachable(s) && Enabled(s, t)
    ensures k in Apply(s, t).view.pending && k !in s.view.pending ==>
              t.CutOff? && k in s.gens[t.g].entries && !s.gens[t.g].entries[k].work.Landed?
    ensures k in s.view.pending && k !in Apply(s, t).view.pending ==>
              t.Begin? || (t.SettleReceived? && !s.gens[t.g].cancelled && s.gens[t.g].phase == Received(k))
    ensures k in Apply(s, t).view.timedOut && k !in s.view.timedOut ==>
              t.MarkExpired? && !s.gens[t.g].cancelled && k in s.view.pending && s.gens[t.g].phase == Expired
    ensures k in s.view.timedOut && k !in Apply(s, t).view.timedOut ==>
              t.Begin? || (t.SettleReceived? && !s.gens[t.g].cancelled && s.gens[t.g].phase == Received(k))
  {
  }

  function Ticks(ts: seq<Step>, g: nat): nat {
    if ts == [] then 0 else (if ts[0] == Tick(g) then 1 else 0) + Ticks(ts[1..], g)
  }

  lemma {:induction false} ArmedUntilTicked(s: State, ts: seq<Step>, g: nat)
    requires Runs(s, ts) && g < |s.gens|
    ensures g < |After(s, ts).gens|
    ensures After(s, ts).gens[g].armed <==> s.gens[g].armed && Ticks(ts, g) == 0
    ensures Ticks(ts, g) <= if s.gens[g].armed then 1 else 0
    decreases |ts|
  {
    if ts != [] {
      ArmedUntilTicked(Apply(s, ts[0]), ts[1..], g);
    }
  }

  /** A generation that set a timer, and no other, is told of it: at any time its publisher waits, and
      once. */
  lemma TimerFiresOnce(s: State, begin: Step, ts: seq<Step>)
    requires begin.Begin? && Enabled(s, begin) && Runs(Apply(s, begin), ts)
    ensures var n, g := After(Apply(s, begin), ts), |s.gens|;
            && Ticks(ts, g) <= (if begin.timer then 1 else 0)
            && (InPhase(n, g, Waiting) ==> (Enabled(n, Tick(g)) <==> begin.timer && Ticks(ts, g) == 0))
  {
    ArmedUntilTicked(Apply(s, begin), ts, |s.gens|);
  }

  /** The generation whose goroutine takes a step that enters streamingMu. */
  function SectionOf(t: Step): (g: int)
  {
    match t
    case MergeCollected(g) => g
    case CutOff(g) => g
    case SettleReceived(g) => g
    case MarkExpired(g) => g
    case _ => -1
  }

  /** A step of the generation that changes the engine's state. */
  predicate Disturbs(s: State, t: Step, g: nat) {
    Enabled(s, t) && SectionOf(t) == g && Apply(s, t).view != s.view
  }

  /** No merge, latch, publisher or timer step of the generation changes the engine's state any
      more, now or later. */
  ghost predicate Inert(s: State, g: nat) {
    forall n, t :: Leads(s, n) ==> !Disturbs(n, t, g)
  }

  /** The publisher is done, or has nothing left to receive and no timer. */
  predicate Spent(gen: Generation) {
    || gen.phase.Closing?
    || gen.phase.Finished?
    || (ChannelDrained(gen) && !gen.armed && !gen.phase.Expired?)
  }

  predicate Over(s: State, g: nat) {
    g < |s.gens| - 1 && (s.gens[g].cancelled || Spent(s.gens[g]))
  }

  lemma {:induction false} OverStays(s: State, us: seq<Step>, g: nat)
    requires Inv(s) && Runs(s, us) && Over(s, g)
    ensures Inv(After(s, us)) && Over(After(s, us), g)
    decreases |us|
  {
    if us != [] {
      RunKeepsInv(s, [us[0]]);
      assert After(s, [us[0]]) == Apply(s, us[0]);
      OverStep(s, us[0], g);
      OverStays(Apply(s, us[0]), us[1..], g);
    }
  }

  lemma OverStep(s: State, t: Step, g: nat)
    requires OlderOver(s) && GenerationsOk(s) && Enabled(s, t) && Over(s, g)
    ensures Over(Apply(s, t), g)
  {
    assert GenerationOk(s.gens[g]);
  }

  lemma OverDoesNotDisturb(s: State, t: Step, g: nat)
    requires OlderOver(s) && GenerationsOk(s) && Over(s, g)
    ensures !Disturbs(s, t, g)
  {
    assert GenerationOk(s.gens[g]);
  }

  /** Superseded generations are inert exactly when they are cancelled, or spent. */
  lemma SupersededIsInertIff(s: State, g: nat)
    requires Reachable(s) && g < |s.gens| - 1
    ensures Inert(s, g) <==> s.gens[g].cancelled || Spent(s.gens[g])
  {
    ReachableInv(s);
    if Over(s, g) {
      forall n, t | Leads(s, n) ensures !Disturbs(n, t, g) {
        var us :| Runs(s, us) && After(s, us) == n;
        OverStays(s, us, g);
        OverDoesNotDisturb(n, t, g);
      }
    } else {
      var n, t := DisturbsLater(s, g);
      assert Leads(s, n) && Disturbs(n, t, g);
    }
  }

  /** A live generation that still has something to do gets at the next prompt. */
  lemma DisturbsLater(s: State, g: nat) returns (n: State, t: Step)
    requires Reachable(s) && g < |s.gens| - 1 && !s.gens[g].cancelled && !Spent(s.gens[g])
    ensures Leads(s, n) && Disturbs(n, t, g)
  {
    LeadsHere(s);
    ReachableInv(s);
    var m := StarterReturns(s, s);
    if ChannelDrained(s.gens[g]) {
      n, t := TimerDisturbs(s, m, g);
    } else {
      var k :| k in s.gens[g].entries && Unfinished(s.gens[g].entries[k].work);
      n, t := ResultDisturbs(s, m, g, k);
    }
  }

  lemma ResultDisturbs(a: State, s: State, g: nat, k: Key) returns (n: State, t: Step)
    requires Reachable(s) && Leads(a, s) && StarterFree(s)
    requires g < |s.gens| && !s.gens[g].cancelled && Latched(s.gens[g]) && k in Outstanding(s.gens[g])
    ensures Leads(a, n) && Disturbs(n, t, g)
  {
    var m := BeginsWith(a, s, k);
    assert m.gens[..|s.gens|][g] == m.gens[g];
    n := GoesOnToReceive(a, m, g, k);
    t := SettleReceived(g);
    assert k in n.view.pending && k !in Apply(n, t).view.pending;
  }

  lemma TimerDisturbs(a: State, s: State, g: nat) returns (n: State, t: Step)
    requires Reachable(s) && Leads(a, s) && StarterFree(s)
    requires g < |s.gens| && !s.gens[g].cancelled && Latched(s.gens[g]) && !s.gens[g].phase.Final?
    requires ChannelDrained(s.gens[g]) && !Spent(s.gens[g])
    ensures Leads(a, n) && Disturbs(n, t, g)
  {
    GenerationIsOk(s, g);
    var k := Key("", 0, 0, "");
    var m := BeginsWith(a, s, k);
    assert m.gens[..|s.gens|][g] == m.gens[g];
    if m.gens[g].phase.Announcing? { m := Walk(a, m, Announce(g)); }
    if m.gens[g].phase.Waiting? { m := Walk(a, m, Tick(g)); }
    n, t := m, MarkExpired(g);
    assert k in Apply(n, t).view.timedOut;
  }

  /** The cancelled context is exactly what makes a lock section harmless: without it, some engine
      state is changed by it. */
  lemma SectionsAreInertIffCancelled(cancelled: bool, r: Result)
    ensures (forall v :: Settle(v, cancelled, r) == v) <==> cancelled
    ensures (forall v :: Mark(v, cancelled) == v) <==> cancelled
    ensures (forall v :: Merge(v, cancelled, r) == v) <==> cancelled || !r.executed
  {
    var one := StreamingEngine.Empty.(pending := {r.segment.key});
    if !cancelled {
      assert r.segment.key !in Settle(one, cancelled, r).pending;
      assert Settle(one, cancelled, r) != one;
      assert r.segment.key in Mark(one, cancelled).timedOut;
      assert Mark(one, cancelled) != one;
      if r.executed {
        assert r.segment in Merge(one, cancelled, r).canonical;
        assert Merge(one, cancelled, r) != one;
      }
    }
  }

  /** The cutoff latch reads no context, so only the absence of overlapping calls protects it. */
  lemma LatchIsInertIff(executed: set<Key>, completed: set<Key>)
    ensures (forall v :: Latch(v, executed, completed) == v) <==> executed <= completed
  {
    if !(executed <= completed) {
      var k :| k in executed && k !in completed;
      assert k in Latch(StreamingEngine.Empty, executed, completed).pending;
      assert Latch(StreamingEngine.Empty, executed, completed) != StreamingEngine.Empty;
    }
  }

  /** Two generations of one segment, the first of them live: it delivers its result and takes down
      the placeholder of the second, whose worker is still at it. */
  lemma UncancelledPredecessorErasesAPlaceholder(k: Key) returns (s: State, n: State)
    ensures Reachable(s) && |s.gens| == 2 && s.view.pending == {k} == Outstanding(s.gens[1])
    ensures Enabled(s, SettleReceived(0)) && n == Apply(s, SettleReceived(0)) && Reachable(n)
    ensures n.view.pending == {} && k in Outstanding(n.gens[1]) && !n.gens[1].cancelled
  {
    LeadsHere(Start);
    var s1 := BeginsWith(Start, Start, k);
    var s2 := BeginsWith(Start, s1, k);
    assert s2.gens[..1][0] == s2.gens[0] && s2.gens[0] == s1.gens[0];
    s := GoesOnToReceive(Start, s2, 0, k);
    assert s.gens[1] == s2.gens[1];
    ReachableInv(s);
    n := Walk(Start, s, SettleReceived(0));
    assert n.gens[1] == s2.gens[1];
  }

  /** A repaint's stream never waits for nothing. Every later state is reachable too, so this
      holds for as long as the stream is read. */
  lemma RepaintStreamIsServed(s: State, st: Stream)
    requires Reachable(s) && st in s.streams
    ensures st.generation < |s.gens| && st.base <= |s.log|
    ensures
      || s.gens[st.generation].cancelled
      || Publication(st.generation, Complete) in s.log[st.base..]
      || (s.gens[st.generation].streamed && !s.gens[st.generation].phase.Finished?)
  {
    ReachableInv(s);
  }

  /** When a repaint decides what to return, its stream has a pending segment and a publisher at
      work, or its completion is in the log at or above the base. */
  lemma RepaintReturnsServed(s: State, t: Step)
    requires Reachable(s) && Enabled(s, t) && (t == PublishDrained || (t == CountPending && s.view.pending != {}))
    ensures var n := Apply(s, t);
            && Stream(Last(s), s.soft.base) in n.streams
            && s.soft.base <= |n.log|
            && (|| n.gens[Last(s)].cancelled
                || (n.view.pending != {} && !n.gens[Last(s)].phase.Finished?)
                || Publication(Last(s), Complete) in n.log[s.soft.base..])
  {
    ReachableInv(s);
    var gen := s.gens[Last(s)];
    NothingOutstanding(gen);
    assert GenerationOk(gen);
    if t == PublishDrained {
      assert Apply(s, t).log[s.soft.base..] == s.log[s.soft.base..] + [Publication(Last(s), Complete)];
    }
  }

  /** Later on some segment is pending exactly as long as some result is outstanding, if the
      generation began clear. */
  lemma StreamHasPendingIff(s: State, st: Stream)
    requires Reachable(s) && st in s.streams && st.generation == |s.gens| - 1
    requires !s.gens[st.generation].cancelled && s.gens[st.generation].clear
    ensures s.view.pending != {} <==> !ChannelDrained(s.gens[st.generation])
  {
    ReachableInv(s);
    assert Served(s, st) && GenerationOk(s.gens[st.generation]);
    NothingOutstanding(s.gens[st.generation]);
  }

  /** What the stream waits for need not be a pending segment: the publisher may have taken the
      last one down and not yet announced it. */
  lemma RepaintStreamMayOutliveItsPlaceholders(k: Key) returns (s: State, st: Stream)
    ensures Reachable(s) && st in s.streams && st.generation < |s.gens| && !s.gens[st.generation].cancelled
    ensures s.view.pending == {} && st.base <= |s.log| && s.log[st.base..] == []
  {
    LeadsHere(Start);
    var s1 := BeginsWith(Start, Start, k);
    var s2 := GoesOnToReceive(Start, s1, 0, k);
    var s3 := RepaintOver(s2);
    st := Stream(0, |s2.log|);
    s := Walk(Start, s3, SettleReceived(0));
    assert s.log == s2.log;
  }

  lemma ReattachedAt(s: State) returns (n: State)
    requires Reachable(s) && StarterFree(s) && s.gens != [] && s.gens[Last(s)].streamed && !s.gens[Last(s)].cancelled
    ensures Reachable(n) && n.soft == Attached(|s.log|) && n.gens == s.gens && n.log == s.log && n.view == s.view
  {
    LeadsHere(s);
    var s1 := Walk(s, s, Reattach);
    n := Walk(s, s1, ReadBase);
  }

  lemma PaintedAt(s: State, base: nat) returns (n: State)
    requires Reachable(s) && s.soft == Attached(base)
    ensures Reachable(n) && n.soft == Painted(base) && n.gens == s.gens && n.log == s.log && n.view.pending == s.view.pending
  {
    LeadsHere(s);
    n := Walk(s, s, RepaintAttached(s.mode, map[], []));
  }

  lemma RepaintOver(s: State) returns (n: State)
    requires Reachable(s) && StarterFree(s) && s.gens != [] && s.gens[Last(s)].streamed && !s.gens[Last(s)].cancelled
    requires s.view.pending != {}
    ensures Reachable(n) && n.gens == s.gens && n.log == s.log && n.view.pending == s.view.pending
    ensures Stream(Last(s), |s.log|) in n.streams
  {
    var s2 := ReattachedAt(s);
    var s3 := PaintedAt(s2, |s.log|);
    n := CountedAt(s3, |s.log|);
  }

  lemma CountedAt(s: State, base: nat) returns (n: State)
    requires Reachable(s) && s.soft == Painted(base) && s.gens != [] && s.view.pending != {}
    ensures Reachable(n) && n.gens == s.gens && n.log == s.log && n.view == s.view
    ensures Stream(Last(s), base) in n.streams
  {
    LeadsHere(s);
    n := Walk(s, s, CountPending);
  }

  /** Once a repaint has run in a generation, its vim segments show that repaint's mode or a later
      repaint's, whatever results arrive. */
  lemma VimShowsLatestRepaint(s: State, i: nat)
    requires Reachable(s) && s.view.vimRepainted && i < |s.view.blocks| && s.view.blocks[i].isVim
    ensures s.view.blocks[i] in s.view.canonical && s.view.canonical[s.view.blocks[i]] == Executed(s.mode)
  {
    ReachableInv(s);
  }
}
