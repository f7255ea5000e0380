/** The daemon's table of render handles (src/daemon/daemon.go). Every function is one section
    under `rendersMu`; the class performs it in place. */
module RenderTable {
  import opened EngineRegistry
  import opened UpdateHub
  import opened Wrappers

  const RENDER_COMPLETE := "__prompto_render_complete__"

  /** The first section of StartRender takes a finished handle, or any handle on a hard cancel, out
      of the table; on a soft cancel it leaves the handle and only remembers it. */
  function Claimed(renders: map<Session, nat>, x: Session, retires: bool): map<Session, nat> {
    if retires then renders - {x} else renders
  }

  function Retired(renders: map<Session, nat>, x: Session, retires: bool): Option<nat> {
    if x in renders && retires then Some(renders[x]) else None
  }

  function Superseded(renders: map<Session, nat>, x: Session, retires: bool): Option<nat> {
    if x in renders && !retires then Some(renders[x]) else None
  }

  /** The last section of StartRender. */
  function Stored(renders: map<Session, nat>, x: Session, active: Option<nat>): map<Session, nat> {
    if active.Some? then renders[x := active.value] else renders - {x}
  }

  class RenderTable {
    var renders: map<Session, nat>

    constructor ()
      ensures renders == map[]
    {
      renders := map[];
    }

    method Claim(x: Session, completed: bool, soft: bool) returns (retire: Option<nat>, superseded: Option<nat>)
      modifies this
      ensures renders == Claimed(old(renders), x, completed || !soft)
      ensures retire == Retired(old(renders), x, completed || !soft)
      ensures superseded == Superseded(old(renders), x, completed || !soft)
      ensures x in old(renders) && (completed || !soft) ==>
                retire == Some(old(renders)[x]) && superseded.None? && renders == old(renders) - {x}
      ensures x in old(renders) && !completed && soft ==>
                retire.None? && superseded == Some(old(renders)[x]) && renders == old(renders)
      ensures x !in old(renders) ==> retire.None? && superseded.None? && renders == old(renders)
    {
      retire, superseded := None, None;
      if x !in renders {
        assert renders - {x} == renders;
      } else if completed || !soft {
        retire := Some(renders[x]);
        renders := renders - {x};
      } else {
        superseded := Some(renders[x]);
      }
    }

    method Store(x: Session, active: Option<nat>)
      modifies this
      ensures renders == Stored(old(renders), x, active)
      ensures if active.Some? then x in renders && renders[x] == active.value else x !in renders
      ensures forall y :: y != x ==> (y in renders <==> y in old(renders)) && (y in renders ==> renders[y] == old(renders)[y])
    {
      if active.None? {
        renders := renders - {x};
      } else {
        renders := renders[x := active.value];
      }
    }

    /** completeRender. */
    method Remove(x: Session) returns (active: Option<nat>)
      modifies this
      ensures renders == old(renders) - {x}
      ensures active == if x in old(renders) then Some(old(renders)[x]) else None
    {
      active := if x in renders then Some(renders[x]) else None;
      renders := renders - {x};
    }

    /** releaseActiveRenderIfCurrent. */
    method RemoveIfCurrent(x: Session, expected: nat) returns (removed: bool)
      modifies this
      ensures removed <==> x in old(renders) && old(renders)[x] == expected
      ensures renders == if removed then old(renders) - {x} else old(renders)
    {
      if x !in renders || renders[x] != expected {
        return false;
      }
      renders := renders - {x};
      return true;
    }

    /** The locked part of Reset: every handle, each once if the table holds each once. */
    method RemoveAll() returns (active: seq<nat>)
      modifies this
      ensures renders == map[]
      ensures forall h :: h in active <==> h in old(renders).Values
      ensures |active| == |old(renders)|
    {
      active := [];
      while renders.Keys != {}
        invariant forall x :: x in renders ==> x in old(renders) && renders[x] == old(renders)[x]
        invariant forall h :: h in active ==> h in old(renders).Values
        invariant forall x :: x in old(renders) ==> x in renders || old(renders)[x] in active
        invariant |active| + |renders| == |old(renders)|
        decreases |renders|
      {
        var x :| x in renders.Keys;
        active := active + [renders[x]];
        Shrinks(renders, x);
        renders := renders - {x};
      }
    }
  }

  /** isCompletedRender: whether the last thing published is the end of the handle's generation. */
  method IsCompletedRender(hub: SessionUpdateHub, renderID: nat) returns (completed: bool)
    requires hub.Valid()
    ensures completed <==>
              && hub.log != []
              && hub.log[|hub.log| - 1].payload == RENDER_COMPLETE
              && (hub.log[|hub.log| - 1].renderID == 0 || hub.log[|hub.log| - 1].renderID == renderID)
  {
    var last := hub.Last();
    if last.None? {
      return false;
    }
    if last.value.payload != RENDER_COMPLETE {
      return false;
    }
    return last.value.renderID == 0 || last.value.renderID == renderID;
  }

  lemma Shrinks(m: map<Session, nat>, x: Session)
    requires x in m
    ensures |m - {x}| == |m| - 1
  {
    assert (m - {x}).Keys == m.Keys - {x};
    assert |(m - {x}).Keys| == |m.Keys| - 1;
  }
}
