/** The writer that draws a block's segments in order while their results arrive in any order
    (src/prompt/segments.go). A write is described by what drawing the segment depends on: the
    segment, how many were rendered before it, and which of its needs had been executed. */
module SegmentWriter {
  import opened Wrappers

  datatype Segment = Segment(name: string, needs: seq<string>)

  datatype Write = Write(segment: Segment, segmentIndex: nat, available: set<string>, rendered: bool)

  /** Whether a segment renders anything, given its index and the needs it can read. */
  type Renderer = (Segment, nat, set<string>) -> bool

  function Needs(segment: Segment): set<string> { set n | n in segment.needs }

  function Names(segments: seq<Segment>): set<string> {
    set i | 0 <= i < |segments| :: segments[i].name
  }

  predicate Resolves(segment: Segment, executed: set<string>) {
    forall n :: n in segment.needs ==> n in executed
  }

  function DrawnBefore(writes: seq<Write>): nat {
    if writes == [] then 0
    else DrawnBefore(writes[..|writes| - 1]) + (if writes[|writes| - 1].rendered then 1 else 0)
  }

  /** It is the number of earlier writes that rendered something. */
  lemma {:induction false} DrawnBeforeCounts(writes: seq<Write>)
    ensures DrawnBefore(writes) == |set i | 0 <= i < |writes| && writes[i].rendered|
  {
    if writes != [] {
      var front := writes[..|writes| - 1];
      DrawnBeforeCounts(front);
      var before := set i | 0 <= i < |front| && front[i].rendered;
      var after := set i | 0 <= i < |writes| && writes[i].rendered;
      assert forall i :: 0 <= i < |front| ==> front[i] == writes[i];
      assert after == if writes[|writes| - 1].rendered then before + {|writes| - 1} else before;
    }
  }

  /** Drawing a segment after the given writes, when the names in `executed` are available. */
  function Drawn(writes: seq<Write>, segment: Segment, executed: set<string>, render: Renderer): seq<Write> {
    var available := Needs(segment) * executed;
    var k := DrawnBefore(writes);
    writes + [Write(segment, k, available, render(segment, k, available))]
  }

  /** The writer as it would be with every result at hand before it starts. */
  function InOrder(segments: seq<Segment>, k: nat, render: Renderer): seq<Write>
    requires k <= |segments|
  {
    if k == 0 then []
    else Drawn(InOrder(segments, k - 1, render), segments[k - 1], Names(segments), render)
  }

  /** The first segment that needs a name no segment of the block has. */
  function FirstUnresolved(segments: seq<Segment>, at: nat): nat
    requires at <= |segments|
    decreases |segments| - at
  {
    if at == |segments| || !Resolves(segments[at], Names(segments)) then at
    else FirstUnresolved(segments, at + 1)
  }

  lemma {:induction false} FirstUnresolvedIsFirst(segments: seq<Segment>, at: nat)
    requires at <= |segments|
    ensures at <= FirstUnresolved(segments, at) <= |segments|
    ensures forall i :: at <= i < FirstUnresolved(segments, at) ==> Resolves(segments[i], Names(segments))
    ensures FirstUnresolved(segments, at) < |segments| ==>
              exists n :: n in segments[FirstUnresolved(segments, at)].needs
                          && forall i :: 0 <= i < |segments| ==> segments[i].name != n
    decreases |segments| - at
  {
    if at < |segments| {
      if Resolves(segments[at], Names(segments)) {
        FirstUnresolvedIsFirst(segments, at + 1);
      } else {
        var n :| n in segments[at].needs && n !in Names(segments);
        assert forall i :: 0 <= i < |segments| ==> segments[i].name in Names(segments);
      }
    }
  }

  lemma {:induction false} FirstUnresolvedFrom(segments: seq<Segment>, k: nat, at: nat)
    requires at <= k <= |segments|
    requires forall i :: at <= i < k ==> Resolves(segments[i], Names(segments))
    requires k == |segments| || !Resolves(segments[k], Names(segments))
    ensures FirstUnresolved(segments, at) == k
    decreases k - at
  {
    if at < k {
      FirstUnresolvedFrom(segments, k, at + 1);
    }
  }

  lemma {:induction false} InOrderPrefix(segments: seq<Segment>, i: nat, k: nat, render: Renderer)
    requires i <= k <= |segments|
    ensures |InOrder(segments, k, render)| == k && InOrder(segments, k, render)[..i] == InOrder(segments, i, render)
  {
    if i < k {
      InOrderPrefix(segments, i, k - 1, render);
      assert InOrder(segments, k, render)[..i] == InOrder(segments, k - 1, render)[..i];
    } else if k > 0 {
      InOrderPrefix(segments, k - 1, k - 1, render);
    }
  }

  /** Each segment is written once, in its place, with its index; the ones before the first
      unresolved have all their needs, and all have those that exist. */
  lemma InOrderWritesEach(segments: seq<Segment>, i: nat, render: Renderer)
    requires i < |segments|
    ensures |InOrder(segments, |segments|, render)| == |segments|
    ensures var w := InOrder(segments, |segments|, render)[i];
            && w.segment == segments[i]
            && w.segmentIndex == |set j | 0 <= j < i && InOrder(segments, |segments|, render)[j].rendered|
            && w.available == Needs(segments[i]) * Names(segments)
            && (i < FirstUnresolved(segments, 0) ==> w.available == Needs(segments[i]))
            && w.rendered == render(segments[i], w.segmentIndex, w.available)
  {
    InOrderPrefix(segments, i, |segments|, render);
    InOrderPrefix(segments, i, i + 1, render);
    InOrderPrefix(segments, i + 1, |segments|, render);
    assert InOrder(segments, |segments|, render)[i] == InOrder(segments, |segments|, render)[..i + 1][i];
    FirstUnresolvedIsFirst(segments, 0);
    var all := InOrder(segments, |segments|, render);
    DrawnBeforeCounts(all[..i]);
    assert (set j | 0 <= j < |all[..i]| && all[..i][j].rendered) == (set j | 0 <= j < i && all[j].rendered);
  }

  /** Nothing is left over exactly when every need is the name of some segment of the block. */
  lemma NothingLeftOverIff(segments: seq<Segment>)
    ensures FirstUnresolved(segments, 0) == |segments| <==>
            forall i :: 0 <= i < |segments| ==> Resolves(segments[i], Names(segments))
  {
    FirstUnresolvedIsFirst(segments, 0);
    var f := FirstUnresolved(segments, 0);
    if f < |segments| {
      var n :| n in segments[f].needs && forall i :: 0 <= i < |segments| ==> segments[i].name != n;
      assert n !in Names(segments);
    }
  }

  method CanRenderSegment(segment: Segment, executed: set<string>) returns (can: bool)
    ensures can <==> Resolves(segment, executed)
  {
    var i := 0;
    while i < |segment.needs|
      invariant 0 <= i <= |segment.needs|
      invariant forall j :: 0 <= j < i ==> segment.needs[j] in executed
    {
      if segment.needs[i] !in executed {
        return false;
      }
      i := i + 1;
    }
    return true;
  }

  /** Rendering and writing one segment; `segmentIndex` counts what was rendered. */
  method WriteNext(writes: seq<Write>, segmentIndex: nat, segment: Segment, executed: set<string>, render: Renderer)
    returns (written: seq<Write>, next: nat)
    requires segmentIndex == DrawnBefore(writes)
    ensures written == Drawn(writes, segment, executed, render) && next == DrawnBefore(written)
  {
    var available := Needs(segment) * executed;
    var rendered := render(segment, segmentIndex, available);
    written := writes + [Write(segment, segmentIndex, available, rendered)];
    next := if rendered then segmentIndex + 1 else segmentIndex;
    assert written[..|written| - 1] == writes;
  }

  /** Every worker reports once: worker i is the one that reports at time `turn[i]`. */
  predicate AllArrive(arrivals: seq<nat>, turn: seq<nat>) {
    && |arrivals| == |turn|
    && (forall j :: 0 <= j < |arrivals| ==> arrivals[j] < |turn| && turn[arrivals[j]] == j)
    && (forall i :: 0 <= i < |turn| ==> turn[i] < |arrivals| && arrivals[turn[i]] == i)
  }

  /** The first k results have arrived. */
  predicate Holds(results: seq<Option<Segment>>, segments: seq<Segment>, turn: seq<nat>, k: nat) {
    && |results| == |segments| == |turn|
    && forall i :: 0 <= i < |segments| ==> results[i] == if turn[i] < k then Some(segments[i]) else None
  }

  /** The inner loop of the main loop: writes what can be written now. */
  method WriteReady(segments: seq<Segment>, results: array<Option<Segment>>, executed: set<string>, render: Renderer,
                    ghost turn: seq<nat>, ghost k: nat, writes0: seq<Write>, current0: nat, segmentIndex0: nat)
    returns (writes: seq<Write>, current: nat, segmentIndex: nat)
    requires Holds(results[..], segments, turn, k) && executed <= Names(segments)
    requires current0 <= |segments| && forall i :: 0 <= i < current0 ==> Resolves(segments[i], executed)
    requires writes0 == InOrder(segments, current0, render) && segmentIndex0 == DrawnBefore(writes0)
    ensures current0 <= current <= |segments| && forall i :: 0 <= i < current ==> Resolves(segments[i], executed)
    ensures writes == InOrder(segments, current, render) && segmentIndex == DrawnBefore(writes)
    ensures current == |segments| || turn[current] >= k || !Resolves(segments[current], executed)
  {
    writes, current, segmentIndex := writes0, current0, segmentIndex0;
    while current < |segments| && results[current].Some?
      invariant current0 <= current <= |segments|
      invariant forall i :: 0 <= i < current ==> Resolves(segments[i], executed)
      invariant writes == InOrder(segments, current, render) && segmentIndex == DrawnBefore(writes)
    {
      assert results[..][current] == Some(segments[current]);
      var segment := results[current].value;
      var can := CanRenderSegment(segment, executed);
      if !can {
        break;
      }
      assert Needs(segment) * executed == Needs(segment) * Names(segments);
      writes, segmentIndex := WriteNext(writes, segmentIndex, segment, executed, render);
      current := current + 1;
    }
    if current < |segments| { assert results[..][current] == results[current]; }
  }

  lemma ArrivalHeld(results: seq<Option<Segment>>, segments: seq<Segment>, arrivals: seq<nat>, turn: seq<nat>, k: nat)
    requires AllArrive(arrivals, turn) && k < |arrivals| && Holds(results, segments, turn, k)
    ensures Holds(results[arrivals[k] := Some(segments[arrivals[k]])], segments, turn, k + 1)
  {
  }

  lemma AllNamesExecuted(segments: seq<Segment>, arrivals: seq<nat>, turn: seq<nat>, executed: set<string>)
    requires AllArrive(arrivals, turn) && |turn| == |segments| && executed <= Names(segments)
    requires forall i :: 0 <= i < |segments| && turn[i] < |segments| ==> segments[i].name in executed
    ensures executed == Names(segments)
  {
  }

  /** The loop over the segments whose needs cannot be resolved. */
  method WriteRest(segments: seq<Segment>, results: seq<Option<Segment>>, executed: set<string>, render: Renderer,
                   writes0: seq<Write>, current0: nat, segmentIndex0: nat)
    returns (writes: seq<Write>)
    requires |results| == |segments| && forall i :: 0 <= i < |segments| ==> results[i] == Some(segments[i])
    requires executed == Names(segments) && current0 <= |segments|
    requires writes0 == InOrder(segments, current0, render) && segmentIndex0 == DrawnBefore(writes0)
    ensures writes == InOrder(segments, |segments|, render)
  {
    writes := writes0;
    var current, segmentIndex := current0, segmentIndex0;
    while current < |segments|
      invariant current0 <= current <= |segments|
      invariant writes == InOrder(segments, current, render) && segmentIndex == DrawnBefore(writes)
    {
      writes, segmentIndex := WriteNext(writes, segmentIndex, results[current].value, executed, render);
      current := current + 1;
    }
  }

  /** Confluence: the writes do not depend on the order of arrival. The first `early` of them
      happen in the main loop. */
  method WriteSegments(segments: seq<Segment>, arrivals: seq<nat>, ghost turn: seq<nat>, render: Renderer)
    returns (writes: seq<Write>, early: nat)
    requires AllArrive(arrivals, turn) && |turn| == |segments|
    ensures writes == InOrder(segments, |segments|, render)
    ensures early == FirstUnresolved(segments, 0)
  {
    var count := |segments|;
    var current, executedCount, segmentIndex := 0, 0, 0;
    var results := new Option<Segment>[count](_ => None);
    var executed: set<string> := {};
    writes := [];

    while executedCount < count
      invariant 0 <= executedCount <= count && 0 <= current <= count
      invariant Holds(results[..], segments, turn, executedCount)
      invariant executed <= Names(segments)
      invariant forall i :: 0 <= i < count && turn[i] < executedCount ==> segments[i].name in executed
      invariant forall i :: 0 <= i < current ==> Resolves(segments[i], executed)
      invariant writes == InOrder(segments, current, render) && segmentIndex == DrawnBefore(writes)
      invariant executedCount == count ==> current == count || !Resolves(segments[current], executed)
    {
      var index := arrivals[executedCount];
      ArrivalHeld(results[..], segments, arrivals, turn, executedCount);
      ghost var was := results[..];
      results[index] := Some(segments[index]);
      assert results[..] == was[index := Some(segments[index])];
      executedCount := executedCount + 1;
      executed := executed + {segments[index].name};
      writes, current, segmentIndex :=
        WriteReady(segments, results, executed, render, turn, executedCount, writes, current, segmentIndex);
    }

    AllNamesExecuted(segments, arrivals, turn, executed);
    early := current;
    FirstUnresolvedFrom(segments, current, 0);
    writes := WriteRest(segments, results[..], executed, render, writes, current, segmentIndex);
  }
}
