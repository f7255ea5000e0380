/** Every interleaving of the threads at one update hub: any number of concurrent publishers, and
    readers that follow a render handle, subscribe again and again, and may walk away from a
    channel at any time (src/daemon/update_hub.go, stream_relay.go, and Next in render_pipeline.go).
    A transition is one section under the hub's mutex, or one channel operation outside it. */
module HubProtocol {
  import opened UpdateHub
  import opened StreamRelay
  import opened Wrappers

  /** `after` is what the subscriber had seen, `lapped` whether it was behind the retained window,
      and `sends` how often something was sent to it. */
  datatype Channel = Channel(after: nat, lapped: bool, buffer: seq<Snapshot>, closed: bool, sends: nat)

  /** A publisher between the unlock and the end of Publish; `sent` when the first channel of
      `ready` has its snapshot and is still to be closed. */
  datatype Publisher = Publisher(snapshot: Snapshot, ready: seq<Waiter<nat>>, sent: bool)

  /** Where a reader is: between calls of Next, or in its loop. */
  datatype Call = Idle | Scanning | Waiting(ch: nat)

  /** The client of a handle. `returned` is the sequence it would feed back to Next, `after` the
      position its current call has scanned to, and `lapped` whether it ever subscribed from
      behind the retained window. */
  datatype Reader = Reader(
    base: nat, id: nat, returned: nat, after: nat, received: seq<Snapshot>, lapped: bool, call: Call)

  datatype State = State(
    limit: nat,
    log: seq<Snapshot>,
    updates: seq<Snapshot>,
    waiters: seq<Waiter<nat>>,
    channels: seq<Channel>,
    publishers: map<nat, Publisher>,
    readers: seq<Reader>)

  datatype Step =
    | PublishLocked(p: nat, payload: string, renderID: nat)
    | Send(p: nat)
    | Close(p: nat)
    | Finish(p: nat)
    | Open(id: nat)
    | BeginNext(r: nat)
    | Subscribe(r: nat)
    | Receive(r: nat)
    | Abandon(r: nat)

  predicate Starts(s: State) {
    s.limit > 0 && s == State(s.limit, [], [], [], [], map[], [])
  }

  predicate Publishing(s: State, p: nat) { p in s.publishers && s.publishers[p].ready != [] }

  predicate IsReader(s: State, r: nat, call: Call) { r < |s.readers| && s.readers[r].call == call }

  predicate WaitsFor(s: State, r: nat) {
    r < |s.readers| && s.readers[r].call.Waiting? && s.readers[r].call.ch < |s.channels|
  }

  predicate Enabled(s: State, t: Step) {
    match t
    case PublishLocked(p, _, _) => p !in s.publishers
    case Send(p) => Publishing(s, p) && !s.publishers[p].sent && s.publishers[p].ready[0].ch < |s.channels|
    case Close(p) => Publishing(s, p) && s.publishers[p].sent && s.publishers[p].ready[0].ch < |s.channels|
    case Finish(p) => p in s.publishers && s.publishers[p].ready == []
    case Open(_) => true
    case BeginNext(r) => IsReader(s, r, Idle)
    case Subscribe(r) => IsReader(s, r, Scanning) && (s.updates != [] || s.log == [])
    case Receive(r) => WaitsFor(s, r) && s.channels[s.readers[r].call.ch].buffer != []
    case Abandon(r) => r < |s.readers| && s.readers[r].call != Idle
  }

  function PutReader(s: State, r: nat, reader: Reader): State
    requires r < |s.readers|
  {
    s.(readers := s.readers[r := reader])
  }

  /** What the reader does with a snapshot. */
  function Took(reader: Reader, snapshot: Snapshot): Reader {
    var after := if snapshot.sequence > reader.after then snapshot.sequence else reader.after;
    if Accepts(reader.id, snapshot)
    then reader.(returned := snapshot.sequence, after := after, received := reader.received + [snapshot], call := Idle)
    else reader.(after := after, call := Scanning)
  }

  function Apply(s: State, t: Step): State
    requires Enabled(s, t)
  {
    match t
    case PublishLocked(p, payload, id) =>
      var n := |s.log| + 1;
      var snapshot := Snapshot(payload, id, n);
      s.(log := s.log + [snapshot],
         updates := Extended(s.updates, snapshot, s.limit),
         waiters := Split(s.waiters, n, false),
         publishers := s.publishers[p := Publisher(snapshot, Split(s.waiters, n, true), false)])
    case Send(p) =>
      var w := s.publishers[p];
      var c := w.ready[0].ch;
      var was := s.channels[c];
      s.(channels := s.channels[c := Channel(was.after, was.lapped, was.buffer + [w.snapshot], was.closed, was.sends + 1)],
         publishers := s.publishers[p := Publisher(w.snapshot, w.ready, true)])
    case Close(p) =>
      var w := s.publishers[p];
      var c := w.ready[0].ch;
      s.(channels := s.channels[c := s.channels[c].(closed := true)],
         publishers := s.publishers[p := Publisher(w.snapshot, w.ready[1..], false)])
    case Finish(p) => s.(publishers := s.publishers - {p})
    case Open(id) => s.(readers := s.readers + [Reader(|s.log|, id, |s.log|, |s.log|, [], false, Idle)])
    case BeginNext(r) => PutReader(s, r, s.readers[r].(after := s.readers[r].returned, call := Scanning))
    case Subscribe(r) =>
      var reader := s.readers[r];
      var next := NextAfter(s.updates, |s.log|, reader.after);
      var lapped := next.Some? && next.value.sequence != reader.after + 1;
      var c := |s.channels|;
      PutReader(s, r, reader.(lapped := reader.lapped || lapped, call := Waiting(c)))
        .(channels := s.channels + [
            if next.Some? then Channel(reader.after, lapped, [next.value], true, 1)
            else Channel(reader.after, false, [], false, 0)],
          waiters := if next.Some? then s.waiters else s.waiters + [Waiter(reader.after, c)])
    case Receive(r) =>
      var c := s.readers[r].call.ch;
      PutReader(s, r, Took(s.readers[r], s.channels[c].buffer[0]))
        .(channels := s.channels[c := s.channels[c].(buffer := s.channels[c].buffer[1..])])
    case Abandon(r) => PutReader(s, r, s.readers[r].(after := s.readers[r].returned, call := Idle))
  }

  ghost predicate Runs(s: State, ts: seq<Step>)
    decreases |ts|
  {
    ts == [] || (Enabled(s, ts[0]) && Runs(Apply(s, ts[0]), ts[1..]))
  }

  ghost function After(s: State, ts: seq<Step>): State
    requires Runs(s, ts)
    decreases |ts|
  {
    if ts == [] then s else After(Apply(s, ts[0]), ts[1..])
  }

  /** Some run from an empty hub ends in s. */
  ghost predicate Reachable(s: State) {
    exists z, ts :: Starts(z) && Runs(z, ts) && After(z, ts) == s
  }

  // ---------------------------------------------------------------- the invariant

  predicate HistoryOk(limit: nat, updates: seq<Snapshot>, log: seq<Snapshot>) {
    Retains(updates, log, limit)
  }

  predicate Untouched(c: Channel) { c.sends == 0 && c.buffer == [] && !c.closed }

  predicate WaitersOk(waiters: seq<Waiter<nat>>, log: seq<Snapshot>, channels: seq<Channel>) {
    && DistinctChannels(waiters)
    && forall i :: 0 <= i < |waiters| ==>
         && waiters[i].after >= |log|
         && waiters[i].ch < |channels|
         && Untouched(channels[waiters[i].ch])
         && channels[waiters[i].ch].after == waiters[i].after
         && !channels[waiters[i].ch].lapped
  }

  predicate PublisherOk(p: Publisher, log: seq<Snapshot>, channels: seq<Channel>) {
    && 0 < p.snapshot.sequence <= |log| && log[p.snapshot.sequence - 1] == p.snapshot
    && DistinctChannels(p.ready)
    && (p.sent ==> p.ready != [])
    && forall i :: 0 <= i < |p.ready| ==>
         && p.ready[i].ch < |channels|
         && channels[p.ready[i].ch].after + 1 == p.snapshot.sequence
         && !channels[p.ready[i].ch].closed
         && !channels[p.ready[i].ch].lapped
         && (if i == 0 && p.sent then channels[p.ready[i].ch].sends == 1 else Untouched(channels[p.ready[i].ch]))
  }

  predicate PublishersOk(publishers: map<nat, Publisher>, log: seq<Snapshot>, channels: seq<Channel>) {
    forall p :: p in publishers ==> PublisherOk(publishers[p], log, channels)
  }

  /** Concurrent publishers notify of different publications, so of different channels. */
  predicate Apart(publishers: map<nat, Publisher>) {
    forall p, q :: p in publishers && q in publishers && p != q ==>
      publishers[p].snapshot.sequence != publishers[q].snapshot.sequence
  }

  /** What a channel holds is newer than what its subscriber had seen, and the very next
      publication unless the subscriber had been lapped. */
  predicate ChannelOk(c: Channel, log: seq<Snapshot>) {
    && c.sends <= 1
    && (c.sends == 0 ==> Untouched(c))
    && (c.closed ==> c.sends == 1)
    && |c.buffer| <= 1
    && (c.buffer != [] ==>
          && c.buffer[0].sequence <= |log| && c.buffer[0].sequence > c.after
          && log[c.buffer[0].sequence - 1] == c.buffer[0]
          && (!c.lapped ==> c.buffer[0].sequence == c.after + 1))
  }

  predicate ChannelsOk(channels: seq<Channel>, log: seq<Snapshot>) {
    forall c :: 0 <= c < |channels| ==> ChannelOk(channels[c], log)
  }

  /** A subscriber's channel still has what was sent to it, and is its own. */
  predicate SubscribersOk(readers: seq<Reader>, channels: seq<Channel>) {
    (forall r :: 0 <= r < |readers| && readers[r].call.Waiting? ==>
          && readers[r].call.ch < |channels|
          && channels[readers[r].call.ch].after == readers[r].after
          && (channels[readers[r].call.ch].lapped ==> readers[r].lapped)
          && (channels[readers[r].call.ch].sends == 1 ==> channels[readers[r].call.ch].buffer != []))
  }

  predicate OwnChannels(readers: seq<Reader>, channels: seq<Channel>) {
    && (forall r :: 0 <= r < |readers| && readers[r].call.Waiting? ==> readers[r].call.ch < |channels|)
    && (forall q, r :: 0 <= q < r < |readers| && readers[q].call.Waiting? && readers[r].call.Waiting? ==>
          readers[q].call.ch != readers[r].call.ch)
  }

  predicate Queued(waiters: seq<Waiter<nat>>, c: nat) {
    exists i :: 0 <= i < |waiters| && waiters[i].ch == c
  }

  predicate Held(publishers: map<nat, Publisher>, c: nat) {
    exists p :: p in publishers && Queued(publishers[p].ready, c)
  }

  /** A channel nothing was sent to is queued, or a publisher is about to send to it. */
  predicate NoneLost(waiters: seq<Waiter<nat>>, publishers: map<nat, Publisher>, channels: seq<Channel>) {
    forall c :: 0 <= c < |channels| && channels[c].sends == 0 ==> Queued(waiters, c) || Held(publishers, c)
  }

  /** The publications numbered `lo` + 1 to `hi` that the relay lets through. */
  function Accepted(log: seq<Snapshot>, lo: nat, hi: nat, id: nat): seq<Snapshot>
    requires lo <= hi <= |log|
    decreases hi
  {
    if lo == hi then []
    else Accepted(log, lo, hi - 1, id) + (if Accepts(id, log[hi - 1]) then [log[hi - 1]] else [])
  }

  predicate ReaderOk(r: Reader, log: seq<Snapshot>) {
    && r.base <= r.returned <= r.after <= |log|
    && (forall i :: 0 <= i < |r.received| ==>
          && r.base < r.received[i].sequence <= r.returned
          && log[r.received[i].sequence - 1] == r.received[i]
          && Accepts(r.id, r.received[i]))
    && (forall i, j :: 0 <= i < j < |r.received| ==> r.received[i].sequence < r.received[j].sequence)
    && (!r.lapped ==>
          && r.received == Accepted(log, r.base, r.returned, r.id)
          && r.received == Accepted(log, r.base, r.after, r.id))
  }

  predicate ReadersOk(readers: seq<Reader>, log: seq<Snapshot>) {
    forall r :: 0 <= r < |readers| ==> ReaderOk(readers[r], log)
  }

  predicate Inv(s: State) {
    && HistoryOk(s.limit, s.updates, s.log)
    && WaitersOk(s.waiters, s.log, s.channels)
    && PublishersOk(s.publishers, s.log, s.channels)
    && Apart(s.publishers)
    && ChannelsOk(s.channels, s.log)
    && SubscribersOk(s.readers, s.channels) && OwnChannels(s.readers, s.channels)
    && ReadersOk(s.readers, s.log)
    && NoneLost(s.waiters, s.publishers, s.channels)
  }

  lemma KeepsHistory(s: State, t: Step)
    requires HistoryOk(s.limit, s.updates, s.log) && Enabled(s, t)
    ensures HistoryOk(Apply(s, t).limit, Apply(s, t).updates, Apply(s, t).log)
  {
    if t.PublishLocked? {
      ExtendedRetains(s.updates, s.log, s.limit, Snapshot(t.payload, t.renderID, |s.log| + 1));
    }
  }

  lemma SplitByIndex(waiters: seq<Waiter<nat>>, n: nat, wakes: bool)
    requires DistinctChannels(waiters)
    ensures DistinctChannels(Split(waiters, n, wakes))
    ensures forall i {:trigger Split(waiters, n, wakes)[i]} :: 0 <= i < |Split(waiters, n, wakes)| ==>
              Split(waiters, n, wakes)[i] in waiters && (n > Split(waiters, n, wakes)[i].after) == wakes
  {
    SplitMembers(waiters, n, wakes);
    SplitKeepsDistinct(waiters, n, wakes);
    var w := Split(waiters, n, wakes);
    forall i | 0 <= i < |w| ensures w[i] in waiters && (n > w[i].after) == wakes {
      assert w[i] in w;
    }
  }

  /** What a publisher sends to is no longer queued: its subscriber had seen less. */
  lemma ReadyIsNotQueued(s: State, p: nat)
    requires WaitersOk(s.waiters, s.log, s.channels) && p in s.publishers && s.publishers[p].ready != []
    requires PublisherOk(s.publishers[p], s.log, s.channels)
    ensures forall i :: 0 <= i < |s.waiters| ==> s.waiters[i].ch != s.publishers[p].ready[0].ch
  {
  }

  lemma KeepsWaiters(s: State, t: Step)
    requires WaitersOk(s.waiters, s.log, s.channels) && PublishersOk(s.publishers, s.log, s.channels)
    requires OwnChannels(s.readers, s.channels) && ChannelsOk(s.channels, s.log) && Enabled(s, t)
    ensures WaitersOk(Apply(s, t).waiters, Apply(s, t).log, Apply(s, t).channels)
  {
    if t.PublishLocked? {
      SplitByIndex(s.waiters, |s.log| + 1, false);
    } else if t.Send? || t.Close? {
      ReadyIsNotQueued(s, t.p);
    }
  }

  /** A publisher that does not act is not disturbed. */
  lemma KeepsStandingPublisher(s: State, t: Step, p: nat)
    requires PublishersOk(s.publishers, s.log, s.channels) && Apart(s.publishers) && ChannelsOk(s.channels, s.log)
    requires Enabled(s, t) && p in s.publishers && t != Send(p) && t != Close(p)
    ensures PublisherOk(s.publishers[p], Apply(s, t).log, Apply(s, t).channels)
  {
    assert PublisherOk(s.publishers[p], s.log, s.channels);
    if t.Send? || t.Close? { assert PublisherOk(s.publishers[t.p], s.log, s.channels); }
  }

  lemma KeepsActingPublisher(s: State, t: Step)
    requires WaitersOk(s.waiters, s.log, s.channels) && PublishersOk(s.publishers, s.log, s.channels)
    requires Enabled(s, t) && (t.PublishLocked? || t.Send? || t.Close?)
    ensures t.p in Apply(s, t).publishers
    ensures PublisherOk(Apply(s, t).publishers[t.p], Apply(s, t).log, Apply(s, t).channels)
  {
    if t.PublishLocked? {
      SplitByIndex(s.waiters, |s.log| + 1, true);
    } else {
      assert PublisherOk(s.publishers[t.p], s.log, s.channels);
    }
  }

  lemma KeepsPublishers(s: State, t: Step)
    requires Inv(s) && Enabled(s, t)
    ensures PublishersOk(Apply(s, t).publishers, Apply(s, t).log, Apply(s, t).channels)
  {
    var n := Apply(s, t);
    forall p | p in n.publishers ensures PublisherOk(n.publishers[p], n.log, n.channels) {
      if (t.PublishLocked? || t.Send? || t.Close?) && t.p == p {
        KeepsActingPublisher(s, t);
      } else {
        KeepsStandingPublisher(s, t, p);
      }
    }
  }

  lemma KeepsApart(s: State, t: Step)
    requires PublishersOk(s.publishers, s.log, s.channels) && Apart(s.publishers) && Enabled(s, t)
    ensures Apart(Apply(s, t).publishers)
  {
  }

  lemma SubscribedOk(s: State, r: nat)
    requires HistoryOk(s.limit, s.updates, s.log) && Enabled(s, Subscribe(r))
    ensures |Apply(s, Subscribe(r)).channels| == |s.channels| + 1
    ensures ChannelOk(Apply(s, Subscribe(r)).channels[|s.channels|], s.log)
  {
    NextAfterIsFirstNewer(s.updates, s.log, s.limit, s.readers[r].after);
  }

  lemma KeepsChannel(s: State, t: Step, c: nat)
    requires Enabled(s, t) && c < |s.channels| && ChannelOk(s.channels[c], s.log)
    requires t.Send? || t.Close? ==> PublisherOk(s.publishers[t.p], s.log, s.channels)
    ensures c < |Apply(s, t).channels| && ChannelOk(Apply(s, t).channels[c], Apply(s, t).log)
  {
  }

  lemma KeepsChannels(s: State, t: Step)
    requires HistoryOk(s.limit, s.updates, s.log) && PublishersOk(s.publishers, s.log, s.channels)
    requires ChannelsOk(s.channels, s.log) && Enabled(s, t)
    ensures ChannelsOk(Apply(s, t).channels, Apply(s, t).log)
  {
    var n := Apply(s, t);
    forall c | 0 <= c < |n.channels| ensures ChannelOk(n.channels[c], n.log) {
      if c < |s.channels| {
        KeepsChannel(s, t, c);
      } else {
        assert c == |s.channels| && t.Subscribe?;
        SubscribedOk(s, t.r);
      }
    }
  }

  lemma KeepsSubscribers(s: State, t: Step)
    requires PublishersOk(s.publishers, s.log, s.channels) && ChannelsOk(s.channels, s.log)
    requires SubscribersOk(s.readers, s.channels) && OwnChannels(s.readers, s.channels) && Enabled(s, t)
    ensures SubscribersOk(Apply(s, t).readers, Apply(s, t).channels)
  {
    if t.Send? || t.Close? { assert PublisherOk(s.publishers[t.p], s.log, s.channels); }
  }

  lemma KeepsOwnChannels(s: State, t: Step)
    requires OwnChannels(s.readers, s.channels) && Enabled(s, t)
    ensures OwnChannels(Apply(s, t).readers, Apply(s, t).channels)
  {
  }

  lemma {:induction false} AcceptedOnLonger(log: seq<Snapshot>, more: seq<Snapshot>, lo: nat, hi: nat, id: nat)
    requires lo <= hi <= |log|
    ensures Accepted(log + more, lo, hi, id) == Accepted(log, lo, hi, id)
    decreases hi
  {
    if lo < hi {
      AcceptedOnLonger(log, more, lo, hi - 1, id);
    }
  }

  lemma ReaderOnLonger(r: Reader, log: seq<Snapshot>, more: seq<Snapshot>)
    requires ReaderOk(r, log)
    ensures ReaderOk(r, log + more)
  {
    AcceptedOnLonger(log, more, r.base, r.returned, r.id);
    AcceptedOnLonger(log, more, r.base, r.after, r.id);
  }

  lemma TookOk(r: Reader, log: seq<Snapshot>, snapshot: Snapshot)
    requires ReaderOk(r, log) && r.after < snapshot.sequence <= |log| && log[snapshot.sequence - 1] == snapshot
    requires !r.lapped ==> snapshot.sequence == r.after + 1
    ensures ReaderOk(Took(r, snapshot), log)
  {
    var n := Took(r, snapshot);
    if !r.lapped {
      assert Accepted(log, r.base, n.after, r.id) ==
             Accepted(log, r.base, r.after, r.id) + (if Accepts(r.id, snapshot) then [snapshot] else []);
    }
  }

  lemma KeepsReader(s: State, t: Step, r: nat)
    requires ChannelsOk(s.channels, s.log) && SubscribersOk(s.readers, s.channels) && Enabled(s, t)
    requires r < |s.readers| && ReaderOk(s.readers[r], s.log)
    ensures r < |Apply(s, t).readers| && ReaderOk(Apply(s, t).readers[r], Apply(s, t).log)
  {
    var reader := s.readers[r];
    if t.PublishLocked? {
      ReaderOnLonger(reader, s.log, [Snapshot(t.payload, t.renderID, |s.log| + 1)]);
    } else if t == Receive(r) {
      var c := s.channels[reader.call.ch];
      assert ChannelOk(c, s.log);
      TookOk(reader, s.log, c.buffer[0]);
    }
  }

  lemma KeepsReaders(s: State, t: Step)
    requires ChannelsOk(s.channels, s.log) && SubscribersOk(s.readers, s.channels)
    requires ReadersOk(s.readers, s.log) && Enabled(s, t)
    ensures ReadersOk(Apply(s, t).readers, Apply(s, t).log)
  {
    var n := Apply(s, t);
    forall r | 0 <= r < |n.readers| ensures ReaderOk(n.readers[r], n.log) {
      if r < |s.readers| {
        KeepsReader(s, t, r);
      }
    }
  }

  lemma QueuedSplits(waiters: seq<Waiter<nat>>, n: nat, c: nat)
    requires Queued(waiters, c)
    ensures Queued(Split(waiters, n, true), c) || Queued(Split(waiters, n, false), c)
  {
    var i :| 0 <= i < |waiters| && waiters[i].ch == c;
    SplitMembers(waiters, n, n > waiters[i].after);
    assert waiters[i] in Split(waiters, n, n > waiters[i].after);
  }

  /** A channel that still waits is passed on from place to place. */
  lemma KeepsPlace(s: State, t: Step, c: nat)
    requires PublishersOk(s.publishers, s.log, s.channels) && Enabled(s, t)
    requires c < |s.channels| && (Queued(s.waiters, c) || Held(s.publishers, c))
    requires c < |Apply(s, t).channels| && Apply(s, t).channels[c].sends == 0
    ensures Queued(Apply(s, t).waiters, c) || Held(Apply(s, t).publishers, c)
  {
    var n := Apply(s, t);
    if Queued(s.waiters, c) {
      if t.PublishLocked? {
        QueuedSplits(s.waiters, |n.log|, c);
        assert n.publishers[t.p].ready == Split(s.waiters, |n.log|, true);
      } else {
        var i :| 0 <= i < |s.waiters| && s.waiters[i].ch == c;
        assert n.waiters[i].ch == c;
      }
    } else {
      var p :| p in s.publishers && Queued(s.publishers[p].ready, c);
      assert PublisherOk(s.publishers[p], s.log, s.channels);
      var i :| 0 <= i < |s.publishers[p].ready| && s.publishers[p].ready[i].ch == c;
      if t == Close(p) {
        assert n.publishers[p].ready[i - 1].ch == c;
      } else {
        assert p in n.publishers && n.publishers[p].ready[i].ch == c;
      }
      assert Queued(n.publishers[p].ready, c);
    }
  }

  lemma KeepsNoneLost(s: State, t: Step)
    requires PublishersOk(s.publishers, s.log, s.channels) && NoneLost(s.waiters, s.publishers, s.channels)
    requires Enabled(s, t)
    ensures NoneLost(Apply(s, t).waiters, Apply(s, t).publishers, Apply(s, t).channels)
  {
    var n := Apply(s, t);
    forall c | 0 <= c < |n.channels| && n.channels[c].sends == 0 ensures Queued(n.waiters, c) || Held(n.publishers, c) {
      if c < |s.channels| {
        KeepsPlace(s, t, c);
      } else {
        assert n.waiters[|s.waiters|].ch == c;
      }
    }
  }

  lemma {:induction false} RunKeepsInv(s: State, ts: seq<Step>)
    requires Inv(s) && Runs(s, ts)
    ensures Inv(After(s, ts))
    decreases |ts|
  {
    if ts != [] {
      var t := ts[0];
      KeepsHistory(s, t);
      KeepsWaiters(s, t);
      KeepsPublishers(s, t);
      KeepsApart(s, t);
      KeepsChannels(s, t);
      KeepsSubscribers(s, t);
      KeepsOwnChannels(s, t);
      KeepsReaders(s, t);
      KeepsNoneLost(s, t);
      RunKeepsInv(Apply(s, t), ts[1..]);
    }
  }

  lemma ReachableInv(s: State)
    requires Reachable(s)
    ensures Inv(s)
  {
    var z, ts :| Starts(z) && Runs(z, ts) && After(z, ts) == s;
    RunKeepsInv(z, ts);
  }

  // ---------------------------------------------------------------- theorems

  /** What is retained is always the end of everything published, in order: all of it up to
      twice `limit`, and then from `limit` to twice `limit` of it, in turns. */
  lemma HistoryIsSuffix(s: State)
    requires Reachable(s)
    ensures |s.updates| <= |s.log| && s.updates == s.log[|s.log| - |s.updates|..]
    ensures forall i :: 0 <= i < |s.log| ==> s.log[i].sequence == i + 1
    ensures s.limit > 0 && |s.updates| == Window(|s.log|, s.limit)
    ensures (if |s.log| < s.limit then |s.log| else s.limit) <= |s.updates| <= 2 * s.limit
  {
    ReachableInv(s);
  }

  /** No send blocks or hits a closed channel, and no channel is closed twice. */
  lemma SendsNeverBlock(s: State, p: nat)
    requires Reachable(s) && Publishing(s, p)
    ensures s.publishers[p].ready[0].ch < |s.channels|
    ensures var c := s.channels[s.publishers[p].ready[0].ch];
            !c.closed && (Enabled(s, Send(p)) ==> c.buffer == [] && c.sends == 0)
  {
    ReachableInv(s);
    assert PublisherOk(s.publishers[p], s.log, s.channels);
  }

  /** Every queued waiter has seen everything there is, and each channel gets at most one
      snapshot: the next publication after what its subscriber had seen. */
  lemma ChannelGetsSuccessor(s: State, c: nat)
    requires Reachable(s) && c < |s.channels|
    ensures s.channels[c].sends <= 1 && |s.channels[c].buffer| <= 1
    ensures s.channels[c].buffer != [] && !s.channels[c].lapped ==>
              s.channels[c].after < |s.log| && s.channels[c].buffer[0] == s.log[s.channels[c].after]
    ensures forall i :: 0 <= i < |s.waiters| ==> s.waiters[i].after >= |s.log|
  {
    ReachableInv(s);
  }

  /** No wakeup is lost: when no publisher is still notifying, a reader finds its channel empty
      exactly when there is nothing it has not seen. It never finds it closed and empty. */
  lemma NoWakeupIsLost(s: State, r: nat)
    requires Reachable(s) && r < |s.readers| && s.readers[r].call.Waiting?
    ensures s.readers[r].call.ch < |s.channels|
    ensures var c := s.channels[s.readers[r].call.ch];
            && (c.closed ==> c.buffer != [])
            && (s.publishers == map[] ==> (c.buffer == [] <==> |s.log| <= s.readers[r].after))
  {
    ReachableInv(s);
    var c := s.readers[r].call.ch;
    assert ChannelOk(s.channels[c], s.log);
  }

  /** What a reader received is its own, in order and once each, however far behind it fell. */
  lemma StreamIsOwnAndInOrder(s: State, r: nat, i: nat, j: nat)
    requires Reachable(s) && r < |s.readers| && i < j < |s.readers[r].received|
    ensures s.readers[r].base < s.readers[r].received[i].sequence < s.readers[r].received[j].sequence <= |s.log|
    ensures s.log[s.readers[r].received[i].sequence - 1] == s.readers[r].received[i]
    ensures Accepts(s.readers[r].id, s.readers[r].received[i]) && Accepts(s.readers[r].id, s.readers[r].received[j])
  {
    ReachableInv(s);
    assert ReaderOk(s.readers[r], s.log);
  }

  /** A reader that was never lapped has received exactly the publications the relay lets through
      between its base and the position it has reached. */
  lemma StreamIsComplete(s: State, r: nat)
    requires Reachable(s) && r < |s.readers| && !s.readers[r].lapped
    ensures s.readers[r].base <= s.readers[r].after <= |s.log|
    ensures s.readers[r].received == Accepted(s.log, s.readers[r].base, s.readers[r].after, s.readers[r].id)
  {
    ReachableInv(s);
    assert ReaderOk(s.readers[r], s.log);
  }

  /** Being at most `limit` behind is enough not to be lapped, and a reader is lapped exactly when
      what it should read next has left the window. */
  lemma LappedIff(s: State, r: nat)
    requires Reachable(s) && Enabled(s, Subscribe(r)) && !s.readers[r].lapped
    ensures Apply(s, Subscribe(r)).readers[r].lapped <==> |s.log| - s.readers[r].after > |s.updates|
    ensures |s.log| - s.readers[r].after <= s.limit ==> !Apply(s, Subscribe(r)).readers[r].lapped
  {
    ReachableInv(s);
    assert ReaderOk(s.readers[r], s.log);
    NextAfterIsFirstNewer(s.updates, s.log, s.limit, s.readers[r].after);
    if s.readers[r].after < |s.log| {
      NextIsSuccessorIff(s.updates, s.log, s.limit, s.readers[r].after);
    }
  }

  /** The publications numbered `lo` + 1 to `hi` that carry the render ID. */
  function Own(log: seq<Snapshot>, lo: nat, hi: nat, id: nat): seq<Snapshot>
    requires lo <= hi <= |log|
    decreases hi
  {
    if lo == hi then []
    else Own(log, lo, hi - 1, id) + (if log[hi - 1].renderID == id then [log[hi - 1]] else [])
  }

  predicate NoneUnregistered(log: seq<Snapshot>, lo: nat, hi: nat)
    requires lo <= hi <= |log|
  {
    forall i :: lo <= i < hi ==> log[i].renderID != 0
  }

  /** The filter lets through the generation's own publications, and those without an ID. */
  lemma {:induction false} AcceptedIsOwnIff(log: seq<Snapshot>, lo: nat, hi: nat, id: nat)
    requires lo <= hi <= |log| && id != 0
    ensures |Own(log, lo, hi, id)| <= |Accepted(log, lo, hi, id)|
    ensures |Own(log, lo, hi, id)| == |Accepted(log, lo, hi, id)| ==> NoneUnregistered(log, lo, hi)
    ensures NoneUnregistered(log, lo, hi) ==> Accepted(log, lo, hi, id) == Own(log, lo, hi, id)
    decreases hi
  {
    if lo < hi {
      AcceptedIsOwnIff(log, lo, hi - 1, id);
    }
  }

  /** Stream completeness: a reader that was never lapped has received exactly what its generation
      published between its base and its position, if and only if nothing without a render ID was
      published there. */
  lemma StreamIsTheGenerationIff(s: State, r: nat)
    requires Reachable(s) && r < |s.readers| && !s.readers[r].lapped && s.readers[r].id != 0
    ensures s.readers[r].base <= s.readers[r].after <= |s.log|
    ensures s.readers[r].received == Own(s.log, s.readers[r].base, s.readers[r].after, s.readers[r].id) <==>
            NoneUnregistered(s.log, s.readers[r].base, s.readers[r].after)
  {
    StreamIsComplete(s, r);
    AcceptedIsOwnIff(s.log, s.readers[r].base, s.readers[r].after, s.readers[r].id);
  }

  /** A reader without a render ID receives everything. */
  lemma {:induction false} AcceptsAll(log: seq<Snapshot>, lo: nat, hi: nat)
    requires lo <= hi <= |log|
    ensures Accepted(log, lo, hi, 0) == log[lo..hi]
    decreases hi
  {
    if lo < hi {
      AcceptsAll(log, lo, hi - 1);
      assert log[lo..hi] == log[lo..hi - 1] + [log[hi - 1]];
    }
  }

  lemma UnregisteredReaderReceivesAll(s: State, r: nat)
    requires Reachable(s) && r < |s.readers| && !s.readers[r].lapped && s.readers[r].id == 0
    ensures s.readers[r].base <= s.readers[r].after <= |s.log|
    ensures s.readers[r].received == s.log[s.readers[r].base..s.readers[r].after]
  {
    StreamIsComplete(s, r);
    AcceptsAll(s.log, s.readers[r].base, s.readers[r].after);
  }

  /** The log is what the publishers published, as they published it. */
  lemma OnlyPublishersPublish(s: State, t: Step)
    requires Reachable(s) && Enabled(s, t)
    ensures Apply(s, t).log ==
            if t.PublishLocked? then s.log + [Snapshot(t.payload, t.renderID, |s.log| + 1)] else s.log
  {
  }

  lemma {:induction false} ReaderKeepsItsHandle(s: State, ts: seq<Step>, r: nat)
    requires Runs(s, ts) && r < |s.readers|
    ensures r < |After(s, ts).readers|
    ensures After(s, ts).readers[r].base == s.readers[r].base && After(s, ts).readers[r].id == s.readers[r].id
    decreases |ts|
  {
    if ts != [] {
      ReaderKeepsItsHandle(Apply(s, ts[0]), ts[1..], r);
    }
  }

  /** A reader sees exactly what comes after its handle was made: nothing older, and, never lapped,
      everything the filter lets through. */
  lemma ReaderStartsAtItsHandle(s: State, id: nat, ts: seq<Step>)
    requires Reachable(s) && Runs(Apply(s, Open(id)), ts)
    ensures var n := After(Apply(s, Open(id)), ts);
            && |s.readers| < |n.readers| && n.readers[|s.readers|].id == id
            && (forall i :: 0 <= i < |n.readers[|s.readers|].received| ==> n.readers[|s.readers|].received[i].sequence > |s.log|)
            && (!n.readers[|s.readers|].lapped ==>
                  |s.log| <= n.readers[|s.readers|].after <= |n.log|
                  && n.readers[|s.readers|].received == Accepted(n.log, |s.log|, n.readers[|s.readers|].after, id))
  {
    var m := Stepped(s, Open(id));
    ReaderKeepsItsHandle(m, ts, |s.readers|);
    ReachableRun(m, ts);
    ReachableInv(After(m, ts));
    assert ReaderOk(After(m, ts).readers[|s.readers|], After(m, ts).log);
  }

  lemma {:induction false} ReachableRun(s: State, us: seq<Step>)
    requires Reachable(s) && Runs(s, us)
    ensures Reachable(After(s, us))
    decreases |us|
  {
    if us != [] {
      var n := Stepped(s, us[0]);
      ReachableRun(n, us[1..]);
    }
  }

  lemma {:induction false} RunsOn(s: State, ts: seq<Step>, t: Step)
    requires Runs(s, ts) && Enabled(After(s, ts), t)
    ensures Runs(s, ts + [t]) && After(s, ts + [t]) == Apply(After(s, ts), t)
    decreases |ts|
  {
    if ts == [] {
      assert (ts + [t])[1..] == [];
    } else {
      RunsOn(Apply(s, ts[0]), ts[1..], t);
      assert (ts + [t])[1..] == ts[1..] + [t];
    }
  }

  lemma Stepped(s: State, t: Step) returns (n: State)
    requires Reachable(s) && Enabled(s, t)
    ensures n == Apply(s, t) && Reachable(n)
  {
    var z, ts :| Starts(z) && Runs(z, ts) && After(z, ts) == s;
    RunsOn(z, ts, t);
    n := Apply(s, t);
  }

  /** A reader of generation 1 that waits when a generation without an ID publishes. */
  lemma ReaderWaits() returns (s: State)
    ensures Reachable(s) && s.log == [] && s.updates == [] && s.limit == 64 && s.publishers == map[]
    ensures s.readers == [Reader(0, 1, 0, 0, [], false, Waiting(0))]
    ensures s.waiters == [Waiter(0, 0)] && s.channels == [Channel(0, false, [], false, 0)]
  {
    var z := State(64, [], [], [], [], map[], []);
    assert Starts(z) && Runs(z, []) && After(z, []) == z;
    var s1 := Stepped(z, Open(1));
    var s2 := Stepped(s1, BeginNext(0));
    s := Stepped(s2, Subscribe(0));
  }

  /** A publisher wakes it. */
  lemma ReaderWoken(s: State) returns (n: State)
    requires Reachable(s) && s.log == [] && s.updates == [] && s.limit == 64 && s.publishers == map[]
    requires s.waiters == [Waiter(0, 0)]
    ensures Reachable(n) && n.readers == s.readers && n.channels == s.channels
    ensures 0 in n.publishers && n.publishers[0] == Publisher(Snapshot("", 0, 1), [Waiter(0, 0)], false)
  {
    OneWakes(s.waiters[0]);
    assert s.waiters == [s.waiters[0]];
    n := Stepped(s, PublishLocked(0, "", 0));
  }

  lemma OneWakes(w: Waiter<nat>)
    requires w.after == 0
    ensures Split([w], 1, true) == [w]
  {
    var front := [w][..0];
    assert front == [];
  }

  lemma SnapshotSent(s: State) returns (n: State)
    requires Reachable(s) && 0 in s.publishers
    requires s.publishers[0] == Publisher(Snapshot("", 0, 1), [Waiter(0, 0)], false)
    requires s.channels == [Channel(0, false, [], false, 0)]
    ensures Reachable(n) && n.readers == s.readers && n.channels == [Channel(0, false, [Snapshot("", 0, 1)], false, 1)]
  {
    assert s.publishers[0].ready[0] == Waiter(0, 0);
    n := Stepped(s, Send(0));
    assert n.channels[0].buffer == [Snapshot("", 0, 1)];
  }

  /** A generation that could not be registered publishes with the render ID zero, and the reader
      of another one receives it. */
  lemma UnregisteredPublicationLeaks() returns (s: State)
    ensures Reachable(s) && |s.readers| == 1 && !s.readers[0].lapped && s.readers[0].id == 1
    ensures |s.readers[0].received| == 1 && s.readers[0].received[0].renderID == 0
  {
    var s0 := ReaderWaits();
    var s1 := ReaderWoken(s0);
    var s2 := SnapshotSent(s1);
    s := Stepped(s2, Receive(0));
  }
}
