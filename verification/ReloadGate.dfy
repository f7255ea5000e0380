/** The reload gate (src/daemon/reload_gate.go). Every function is one stretch of code that runs
    under the gate's mutex without waiting; the class performs it in place. A thread that finds a
    wait condition true goes round its loop again after the next broadcast, so it takes the
    stretch that follows the loop in some later state, and nothing before. */
module ReloadGate {

  datatype Gate = Gate(active: int, reloading: bool)

  predicate MayAdmit(g: Gate) { !g.reloading }

  function Admitted(g: Gate): Gate { g.(active := g.active + 1) }

  /** The function StartRequest returns. */
  function Released(g: Gate): Gate {
    if g.active > 0 then g.(active := g.active - 1) else g
  }

  predicate MayClaim(g: Gate) { !g.reloading }

  /** BeginReload between its two loops. */
  function Claimed(g: Gate): Gate { g.(reloading := true) }

  predicate IsDrained(g: Gate) { g.active <= 0 }

  function Ended(g: Gate): Gate { g.(reloading := false) }

  class ReloadGate {
    var active: int
    var reloading: bool

    function Abstract(): Gate
      reads this
    {
      Gate(active, reloading)
    }

    constructor ()
      ensures Abstract() == Gate(0, false)
    {
      active, reloading := 0, false;
    }

    /** One turn of StartRequest's loop; false means it waits. */
    method TryStartRequest() returns (admitted: bool)
      modifies this
      ensures admitted == MayAdmit(old(Abstract()))
      ensures Abstract() == if admitted then Admitted(old(Abstract())) else old(Abstract())
      ensures admitted <==> !old(reloading)
      ensures active == old(active) + (if admitted then 1 else 0) && reloading == old(reloading)
    {
      if reloading {
        return false;
      }
      active := active + 1;
      return true;
    }

    method Release()
      modifies this
      ensures Abstract() == Released(old(Abstract()))
      ensures old(active) > 0 ==> active == old(active) - 1
      ensures old(active) <= 0 ==> active == old(active)
      ensures reloading == old(reloading)
    {
      if active > 0 {
        active := active - 1;
      }
    }

    /** One turn of BeginReload's first loop. */
    method TryBeginReload() returns (claimed: bool)
      modifies this
      ensures claimed == MayClaim(old(Abstract()))
      ensures Abstract() == if claimed then Claimed(old(Abstract())) else old(Abstract())
      ensures claimed <==> !old(reloading)
      ensures reloading && active == old(active)
    {
      if reloading {
        return false;
      }
      reloading := true;
      return true;
    }

    /** One turn of BeginReload's second loop. */
    method TryDrain() returns (drained: bool)
      ensures drained == IsDrained(Abstract())
      ensures drained <==> active <= 0
    {
      return !(active > 0);
    }

    method EndReload()
      modifies this
      ensures Abstract() == Ended(old(Abstract()))
      ensures !reloading && active == old(active)
    {
      reloading := false;
    }

    method Snapshot() returns (count: int, busy: bool)
      ensures Gate(count, busy) == Abstract()
    {
      return active, reloading;
    }
  }
}
