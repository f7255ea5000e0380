/** The update history of one session (src/daemon/update_hub.go). The retained updates are
    measured against the full log of everything published, which the program does not keep. */
module UpdateHub {
  import opened Wrappers

  datatype Snapshot = Snapshot(payload: string, renderID: nat, sequence: nat)

  datatype Waiter<C> = Waiter(after: nat, ch: C)

  // ---------------------------------------------------------------- the history

  /** Publications are numbered from one, in order. */
  predicate Numbered(log: seq<Snapshot>) {
    forall i :: 0 <= i < |log| ==> log[i].sequence == i + 1
  }

  /** How many of `n` publications are kept: all of them up to twice the limit, and from then on
      as many as `limit` + 1 publications before. */
  function Window(n: nat, limit: nat): (w: nat)
    requires limit > 0
    ensures w <= n && w <= 2 * limit && (w == n || w >= limit)
  {
    if n <= 2 * limit then n else Window(n - limit - 1, limit)
  }

  /** What is kept is the end of the log; `limit` is `historyLimit`, any positive number. */
  predicate Retains(updates: seq<Snapshot>, log: seq<Snapshot>, limit: nat) {
    && limit > 0
    && Numbered(log)
    && |updates| == Window(|log|, limit)
    && updates == log[|log| - |updates|..]
  }

  /** Publish's append and trim. */
  function Extended(updates: seq<Snapshot>, snapshot: Snapshot, limit: nat): seq<Snapshot> {
    var u := updates + [snapshot];
    if |u| > 2 * limit then u[|u| - limit..] else u
  }

  /** The window grows by one, until it would pass twice the limit. */
  lemma {:induction false} WindowMoves(n: nat, limit: nat)
    requires limit > 0
    ensures Window(n + 1, limit) == if Window(n, limit) == 2 * limit then limit else Window(n, limit) + 1
  {
    if n > 2 * limit {
      WindowMoves(n - limit - 1, limit);
    }
  }

  lemma ExtendedRetains(updates: seq<Snapshot>, log: seq<Snapshot>, limit: nat, snapshot: Snapshot)
    requires Retains(updates, log, limit) && snapshot.sequence == |log| + 1
    ensures Retains(Extended(updates, snapshot, limit), log + [snapshot], limit)
  {
    var u := updates + [snapshot];
    var full := log + [snapshot];
    WindowMoves(|log|, limit);
    assert u == full[|full| - |u|..];
    if |u| > 2 * limit {
      assert u[|u| - limit..] == full[|full| - limit..];
    }
  }

  /** nextAfterLocked: the position is arithmetic. */
  function NextAfter(updates: seq<Snapshot>, sequence: nat, after: nat): Option<Snapshot>
    requires |updates| > 0 || sequence == 0
  {
    if after >= sequence then None
    else
      var position := |updates| - (sequence - after);
      Some(updates[if position < 0 then 0 else position])
  }

  /** The search it stands for: the first update kept that is newer than `after`. */
  function FirstNewer(updates: seq<Snapshot>, after: nat): Option<Snapshot> {
    if updates == [] then None
    else if updates[0].sequence > after then Some(updates[0])
    else FirstNewer(updates[1..], after)
  }

  lemma {:induction false} FirstNewerAt(updates: seq<Snapshot>, after: nat, base: nat)
    requires forall i :: 0 <= i < |updates| ==> updates[i].sequence == base + i + 1
    ensures FirstNewer(updates, after) ==
            if updates == [] || after >= base + |updates| then None
            else Some(updates[if after < base then 0 else after - base])
    decreases |updates|
  {
    if updates != [] && updates[0].sequence <= after {
      FirstNewerAt(updates[1..], after, base + 1);
    }
  }

  /** The arithmetic agrees with the search, and in terms of the log gives the successor of
      `after`, or the oldest update kept to a subscriber that fell behind the window. */
  lemma NextAfterIsFirstNewer(updates: seq<Snapshot>, log: seq<Snapshot>, limit: nat, after: nat)
    requires Retains(updates, log, limit)
    ensures |updates| > 0 || |log| == 0
    ensures NextAfter(updates, |log|, after) == FirstNewer(updates, after)
    ensures NextAfter(updates, |log|, after) ==
            if after >= |log| then None
            else Some(log[if after < |log| - |updates| then |log| - |updates| else after])
  {
    FirstNewerAt(updates, after, |log| - |updates|);
  }

  /** A subscriber gets the very next publication exactly when it is not behind the window; one
      that is at most `limit` behind never is. */
  lemma NextIsSuccessorIff(updates: seq<Snapshot>, log: seq<Snapshot>, limit: nat, after: nat)
    requires Retains(updates, log, limit) && after < |log|
    ensures |updates| > 0
    ensures NextAfter(updates, |log|, after) == Some(log[after]) <==> |log| - after <= |updates|
    ensures |log| - after <= limit ==> |log| - after <= |updates|
  {
    NextAfterIsFirstNewer(updates, log, limit, after);
    if |log| - after > |updates| {
      assert log[after].sequence != log[|log| - |updates|].sequence;
    }
  }

  // ---------------------------------------------------------------- the waiters

  /** Publish's split: the waiters a publication wakes, and the rest. */
  function Split<C>(waiters: seq<Waiter<C>>, sequence: nat, wakes: bool): seq<Waiter<C>> {
    if waiters == [] then []
    else
      var front := Split(waiters[..|waiters| - 1], sequence, wakes);
      var last := waiters[|waiters| - 1];
      if (sequence > last.after) == wakes then front + [last] else front
  }

  predicate DistinctChannels<C(==)>(waiters: seq<Waiter<C>>) {
    forall i, j :: 0 <= i < j < |waiters| ==> waiters[i].ch != waiters[j].ch
  }

  lemma {:induction false} SplitMembers<C>(waiters: seq<Waiter<C>>, sequence: nat, wakes: bool)
    ensures forall w :: w in Split(waiters, sequence, wakes) ==> w in waiters && (sequence > w.after) == wakes
    ensures forall w :: w in waiters && (sequence > w.after) == wakes ==> w in Split(waiters, sequence, wakes)
    decreases |waiters|
  {
    if waiters != [] {
      var front := waiters[..|waiters| - 1];
      SplitMembers(front, sequence, wakes);
      assert waiters == front + [waiters[|waiters| - 1]];
    }
  }

  lemma {:induction false} SplitKeepsDistinct<C>(waiters: seq<Waiter<C>>, sequence: nat, wakes: bool)
    requires DistinctChannels(waiters)
    ensures DistinctChannels(Split(waiters, sequence, wakes))
    decreases |waiters|
  {
    if waiters != [] {
      var front := waiters[..|waiters| - 1];
      SplitKeepsDistinct(front, sequence, wakes);
      SplitMembers(front, sequence, wakes);
      var s := Split(front, sequence, wakes);
      forall w | w in s ensures w.ch != waiters[|waiters| - 1].ch {
        assert w in front;
      }
    }
  }

  /** The split loses no waiter, and no channel is on both sides. */
  lemma SplitParts<C>(waiters: seq<Waiter<C>>, sequence: nat)
    requires DistinctChannels(waiters)
    ensures forall w :: w in waiters <==> w in Split(waiters, sequence, true) || w in Split(waiters, sequence, false)
    ensures forall v, w :: v in Split(waiters, sequence, true) && w in Split(waiters, sequence, false) ==> v.ch != w.ch
    ensures DistinctChannels(Split(waiters, sequence, true)) && DistinctChannels(Split(waiters, sequence, false))
  {
    SplitMembers(waiters, sequence, true);
    SplitMembers(waiters, sequence, false);
    SplitKeepsDistinct(waiters, sequence, true);
    SplitKeepsDistinct(waiters, sequence, false);
  }

  // ---------------------------------------------------------------- the hub

  /** A channel with room for one snapshot. A send to a full one blocks and a send to a closed one
      panics, so both are ruled out for every caller. */
  class Channel {
    var buffer: seq<Snapshot>
    var closed: bool

    constructor ()
      ensures buffer == [] && !closed
    {
      buffer, closed := [], false;
    }

    method Send(snapshot: Snapshot)
      requires !closed && buffer == []
      modifies this`buffer
      ensures buffer == [snapshot]
    {
      buffer := [snapshot];
    }

    method Close()
      requires !closed
      modifies this`closed
      ensures closed
    {
      closed := true;
    }
  }

  /** Publish's loop over the waiters. */
  method SplitWaiters(waiters: seq<Waiter<Channel>>, sequence: nat)
    returns (ready: seq<Waiter<Channel>>, pending: seq<Waiter<Channel>>)
    ensures ready == Split(waiters, sequence, true) && pending == Split(waiters, sequence, false)
  {
    ready, pending := [], [];
    var i := 0;
    while i < |waiters|
      invariant 0 <= i <= |waiters|
      invariant ready == Split(waiters[..i], sequence, true) && pending == Split(waiters[..i], sequence, false)
    {
      assert waiters[..i + 1][..i] == waiters[..i];
      if sequence > waiters[i].after {
        ready := ready + [waiters[i]];
      } else {
        pending := pending + [waiters[i]];
      }
      i := i + 1;
    }
    assert waiters[..i] == waiters;
  }

  function ChannelsOf(waiters: seq<Waiter<Channel>>): set<Channel> {
    set i | 0 <= i < |waiters| :: waiters[i].ch
  }

  /** The sends Publish makes after it unlocked. */
  method Notify(ready: seq<Waiter<Channel>>, snapshot: Snapshot)
    requires DistinctChannels(ready)
    requires forall j :: 0 <= j < |ready| ==> ready[j].ch.buffer == [] && !ready[j].ch.closed
    modifies ChannelsOf(ready)
    ensures forall j :: 0 <= j < |ready| ==> ready[j].ch.buffer == [snapshot] && ready[j].ch.closed
  {
    var k := 0;
    while k < |ready|
      invariant 0 <= k <= |ready|
      invariant forall j :: 0 <= j < k ==> ready[j].ch.buffer == [snapshot] && ready[j].ch.closed
      invariant forall j :: k <= j < |ready| ==> ready[j].ch.buffer == [] && !ready[j].ch.closed
    {
      ready[k].ch.Send(snapshot);
      ready[k].ch.Close();
      k := k + 1;
    }
  }

  class SessionUpdateHub {
    const limit: nat
    var waiters: seq<Waiter<Channel>>
    var updates: seq<Snapshot>
    var sequence: nat
    ghost var log: seq<Snapshot>

    /** Every queued waiter has seen the latest publication, and its channel is its own. */
    ghost predicate Valid()
      reads this, ChannelsOf(waiters)
    {
      && sequence == |log|
      && Retains(updates, log, limit)
      && DistinctChannels(waiters)
      && forall i :: 0 <= i < |waiters| ==>
           waiters[i].after >= sequence && waiters[i].ch.buffer == [] && !waiters[i].ch.closed
    }

    constructor (limit: nat)
      requires limit > 0
      ensures Valid() && this.limit == limit && log == [] && waiters == []
    {
      this.limit := limit;
      waiters, updates, sequence, log := [], [], 0, [];
    }

    /** The part of Publish under the mutex; the waiters it wakes are still to be notified. */
    method PublishLocked(payload: string, renderID: nat) returns (snapshot: Snapshot, ready: seq<Waiter<Channel>>)
      requires Valid()
      modifies this
      ensures Valid() && log == old(log) + [snapshot] && snapshot == Snapshot(payload, renderID, |log|)
      ensures waiters == Split(old(waiters), sequence, false) && ready == Split(old(waiters), sequence, true)
    {
      sequence := sequence + 1;
      snapshot := Snapshot(payload, renderID, sequence);
      ExtendedRetains(updates, log, limit, snapshot);
      updates := updates + [snapshot];
      if |updates| > 2 * limit {
        updates := updates[|updates| - limit..];
      }
      log := log + [snapshot];

      var pending: seq<Waiter<Channel>>;
      ready, pending := SplitWaiters(waiters, sequence);
      SplitParts(waiters, sequence);
      SplitMembers(waiters, sequence, false);
      waiters := pending;
    }

    /** Each waiter the publication wakes gets it, once, and its channel closed; no other channel
        is touched. */
    method Publish(payload: string, renderID: nat) returns (snapshot: Snapshot)
      requires Valid()
      modifies this, ChannelsOf(waiters)
      ensures Valid() && log == old(log) + [snapshot] && snapshot == Snapshot(payload, renderID, |log|)
      ensures waiters == Split(old(waiters), sequence, false)
      ensures forall w :: w in old(waiters) && w.after < sequence ==> w.ch.buffer == [snapshot] && w.ch.closed
    {
      ghost var was := waiters;
      var ready: seq<Waiter<Channel>>;
      snapshot, ready := PublishLocked(payload, renderID);
      SplitParts(was, sequence);
      SplitMembers(was, sequence, true);
      forall j | 0 <= j < |ready| ensures ready[j].ch.buffer == [] && !ready[j].ch.closed {
        assert ready[j] in ready;
      }
      forall j, k | 0 <= j < |ready| && 0 <= k < |waiters| ensures ready[j].ch != waiters[k].ch {
        assert ready[j] in ready && waiters[k] in waiters;
      }
      Notify(ready, snapshot);
    }

    method Subscribe(after: nat) returns (channel: Channel)
      requires Valid()
      modifies this`waiters
      ensures Valid() && fresh(channel)
      ensures after < sequence ==>
                && waiters == old(waiters) && channel.closed && |updates| > 0
                && channel.buffer == [log[if after < |log| - |updates| then |log| - |updates| else after]]
                && channel.buffer[0].sequence == (if after < |log| - |updates| then |log| - |updates| else after) + 1
      ensures after >= sequence ==>
                waiters == old(waiters) + [Waiter(after, channel)] && channel.buffer == [] && !channel.closed
    {
      channel := new Channel();
      var next := NextAfterLocked(after);
      if next.Some? {
        channel.Send(next.value);
        channel.Close();
        return;
      }
      waiters := waiters + [Waiter(after, channel)];
    }

    method NextAfterLocked(after: nat) returns (next: Option<Snapshot>)
      requires Valid()
      ensures next == FirstNewer(updates, after)
      ensures next ==
              if after >= |log| then None
              else Some(log[if after < |log| - |updates| then |log| - |updates| else after])
    {
      NextAfterIsFirstNewer(updates, log, limit, after);
      if after >= sequence {
        return None;
      }
      var position := |updates| - (sequence - after);
      return Some(updates[if position < 0 then 0 else position]);
    }

    method Last() returns (last: Option<Snapshot>)
      requires Valid()
      ensures last == if log == [] then None else Some(log[|log| - 1])
    {
      if sequence == 0 {
        return None;
      }
      return Some(updates[|updates| - 1]);
    }

    method Sequence() returns (n: nat)
      requires Valid()
      ensures n == |log|
    {
      return sequence;
    }
  }
}
