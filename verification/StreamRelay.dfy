/** Following a hub's updates for one render generation (src/daemon/stream_relay.go). The call is
    taken here without other threads: `HubProtocol` lets publishers in between its steps. */
module StreamRelay {
  import opened UpdateHub
  import opened Wrappers

  /** The filter: zero, on either side, stands for any generation. */
  predicate Accepts(id: nat, snapshot: Snapshot) {
    id == 0 || snapshot.renderID == 0 || snapshot.renderID == id
  }

  /** The first publication from position `at` on that the filter lets through. */
  function FirstAccepted(log: seq<Snapshot>, at: nat, id: nat): Option<Snapshot>
    decreases |log| - at
  {
    if at >= |log| then None
    else if Accepts(id, log[at]) then Some(log[at])
    else FirstAccepted(log, at + 1, id)
  }

  /** It skips nothing it should return and returns nothing it should skip. */
  lemma {:induction false} FirstAcceptedIsFirst(log: seq<Snapshot>, at: nat, id: nat)
    ensures match FirstAccepted(log, at, id)
            case None => forall i :: at <= i < |log| ==> !Accepts(id, log[i])
            case Some(s) => exists k :: at <= k < |log| && log[k] == s && Accepts(id, s)
                                     && forall i :: at <= i < k ==> !Accepts(id, log[i])
    decreases |log| - at
  {
    if at < |log| && !Accepts(id, log[at]) {
      FirstAcceptedIsFirst(log, at + 1, id);
    }
  }

  lemma FirstAcceptedMoves(log: seq<Snapshot>, at: nat, id: nat)
    ensures FirstAccepted(log, at, id) ==
            if at >= |log| then None
            else if Accepts(id, log[at]) then Some(log[at])
            else FirstAccepted(log, at + 1, id)
  {
  }

  class StreamRelay {
    const hub: SessionUpdateHub

    constructor (hub: SessionUpdateHub)
      ensures this.hub == hub
    {
      this.hub := hub;
    }

    /** Next, until the context of the call ends because nothing is left to wait for: it then
        leaves its last subscription behind in the hub. */
    method Next(after: nat, renderID: nat) returns (next: Option<Snapshot>)
      requires hub.Valid()
      modifies hub`waiters
      ensures hub.Valid()
      ensures |hub.updates| <= |hub.log|
      ensures next == FirstAccepted(hub.log, if after < |hub.log| - |hub.updates| then |hub.log| - |hub.updates| else after, renderID)
      ensures next.Some? ==> hub.waiters == old(hub.waiters)
      ensures next.None? ==>
                |hub.waiters| == |old(hub.waiters)| + 1 && hub.waiters[..|old(hub.waiters)|] == old(hub.waiters)
    {
      var currentAfter: nat := after;
      ghost var first, log := |hub.log| - |hub.updates|, hub.log;
      ghost var at := if after < first then first else after;
      ghost var target := FirstAccepted(log, at, renderID);
      hide *;
      while true
        invariant hub.Valid() && hub.sequence == |log| && hub.waiters == old(hub.waiters)
        invariant at == if currentAfter < first then first else currentAfter
        invariant target == FirstAccepted(log, at, renderID)
        decreases |log| - at
      {
        var update := hub.Subscribe(currentAfter);
        FirstAcceptedMoves(log, at, renderID);
        if update.buffer == [] {
          return None;
        }
        var snapshot := update.buffer[0];
        assert snapshot == log[at];
        at := at + 1;
        if snapshot.sequence > currentAfter {
          currentAfter := snapshot.sequence;
        }
        if renderID == 0 || snapshot.renderID == 0 || snapshot.renderID == renderID {
          return Some(snapshot);
        }
      }
    }
  }
}
