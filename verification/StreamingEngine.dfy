/** The streaming render state of one prompt engine (src/prompt/streaming.go).

    Every function below is one section of code that runs under `streamingMu`; the class `Engine`
    performs the same sections in place. `EngineProtocol` interleaves them. */
module StreamingEngine {

  /** A segment's key: scope, block and position are unique within a render generation. */
  datatype Key = Key(scope: string, block: nat, position: nat, name: string)

  /** A canonical segment. Every generation resolves its blocks anew, so a canonical segment
      belongs to the generation that prepared it. */
  datatype Segment = Segment(generation: nat, key: Key, isVim: bool)

  /** What the writer of a canonical segment holds: nothing computed yet, a cache entry, the
      computation of the worker of the generation, or an execution by a repaint under a vim mode. */
  datatype WriterState = Prepared | Restored(text: string) | Computed(generation: nat) | Executed(vimMode: nat)

  /** What the segment cache has: an entry that may stand in for an execution, or one that is only
      good for a placeholder. */
  datatype CacheEntry = Fresh(text: string) | Stale(text: string)

  type Cache = map<Segment, CacheEntry>

  /** What a worker sends: `executed` is false when its clone was left to an execution
      that did not finish. */
  datatype Result = Result(segment: Segment, executed: bool)

  /** The fields of the engine that `streamingMu` guards. `pendingSegments` and `timedOutSegments`
      only ever map a key to true, so they are sets of keys. */
  datatype View = View(
    pending: set<Key>,
    timedOut: set<Key>,
    cachedValues: map<Key, string>,
    vimRepainted: bool,
    canonical: map<Segment, WriterState>,
    blocks: seq<Segment>)

  const Empty := View({}, {}, map[], false, map[], [])

  function Elements<T>(s: seq<T>): set<T> { set x | x in s }

  lemma ElementsStep<T>(s: seq<T>, i: nat)
    requires i < |s|
    ensures Elements(s[..i + 1]) == Elements(s[..i]) + {s[i]}
    ensures Elements(s[..|s|]) == Elements(s)
  {
    assert s[..i + 1] == s[..i] + [s[i]];
    assert s[..|s|] == s;
  }

  lemma ElementsAppend<T>(s: seq<T>, x: T)
    ensures Elements(s + [x]) == Elements(s) + {x}
  {
  }

  // ---------------------------------------------------------------- lock sections

  /** The first k segments prepared: served from the cache, or to be executed. */
  function PreparedCanonical(canonical: map<Segment, WriterState>, segments: seq<Segment>, cache: Cache, k: nat)
    : map<Segment, WriterState>
    requires k <= |segments|
  {
    if k == 0 then canonical
    else
      var s := segments[k - 1];
      PreparedCanonical(canonical, segments, cache, k - 1)[s :=
        if IsServed(s, cache) then Restored(cache[s].text) else Prepared]
  }

  function PreparedValues(segments: seq<Segment>, cache: Cache, k: nat): map<Key, string>
    requires k <= |segments|
  {
    if k == 0 then map[]
    else
      var s := segments[k - 1];
      var before := PreparedValues(segments, cache, k - 1);
      if s in cache && cache[s].Stale? then before[s.key := cache[s].text] else before
  }

  predicate IsServed(s: Segment, cache: Cache) { s in cache && cache[s].Fresh? }

  /** The keys of the segments served from the cache, or of those that workers execute. */
  function KeysOf(segments: seq<Segment>, cache: Cache, k: nat, served: bool): set<Key>
    requires k <= |segments|
  {
    if k == 0 then {}
    else
      KeysOf(segments, cache, k - 1, served)
      + (if IsServed(segments[k - 1], cache) == served then {segments[k - 1].key} else {})
  }

  /** The first lock section of PrimaryStreaming. */
  function Prepare(v: View, segments: seq<Segment>, cache: Cache): View {
    View({}, {}, PreparedValues(segments, cache, |segments|), false,
         PreparedCanonical(v.canonical, segments, cache, |segments|), segments)
  }

  /** mergeStreamingResultLocked. */
  function Merge(v: View, cancelled: bool, r: Result): View {
    if !r.executed || cancelled || (r.segment.isVim && v.vimRepainted)
    then v
    else v.(canonical := v.canonical[r.segment := Computed(r.segment.generation)])
  }

  /** The cutoff latch of PrimaryStreaming. */
  function Latch(v: View, executed: set<Key>, completed: set<Key>): View {
    v.(pending := v.pending + (executed - completed))
  }

  /** The publisher's lock section for one result. */
  function Settle(v: View, cancelled: bool, r: Result): View {
    if cancelled then v
    else
      var m := Merge(v, false, r);
      m.(pending := m.pending - {r.segment.key}, timedOut := m.timedOut - {r.segment.key})
  }

  predicate Marks(v: View, cancelled: bool) {
    !cancelled && v.pending != {}
  }

  /** markPendingSegmentsTimedOut. */
  function Mark(v: View, cancelled: bool): View {
    if Marks(v, cancelled) then v.(timedOut := v.timedOut + v.pending) else v
  }

  /** The first k segments of a repaint: vim segments are executed, pending ones are left alone,
      and of the others those with a cache entry are restored from it. */
  function RepaintedCanonical(v: View, segments: seq<Segment>, cache: Cache, mode: nat, k: nat): map<Segment, WriterState>
    requires k <= |segments|
  {
    if k == 0 then v.canonical
    else
      var s := segments[k - 1];
      var before := RepaintedCanonical(v, segments, cache, mode, k - 1);
      if s.isVim then before[s := Executed(mode)]
      else if s.key !in v.pending && s in cache then before[s := Restored(cache[s].text)]
      else if s !in before then before[s := Prepared]
      else before
  }

  function RepaintedValues(v: View, segments: seq<Segment>, cache: Cache, k: nat): map<Key, string>
    requires k <= |segments|
  {
    if k == 0 then v.cachedValues
    else
      var s := segments[k - 1];
      var before := RepaintedValues(v, segments, cache, k - 1);
      if !s.isVim && s.key in v.pending && s in cache then before[s.key := cache[s].text] else before
  }

  predicate HasVim(segments: seq<Segment>) {
    exists i :: 0 <= i < |segments| && segments[i].isVim
  }

  /** The blocks a repaint draws: it resolves them itself when no generation has. */
  function BlocksOf(v: View, resolved: seq<Segment>): seq<Segment> {
    if v.blocks == [] then resolved else v.blocks
  }

  /** PrimaryRepaint. */
  function Repaint(v: View, mode: nat, cache: Cache, resolved: seq<Segment>): View {
    var blocks := BlocksOf(v, resolved);
    View(v.pending, v.timedOut, RepaintedValues(v, blocks, cache, |blocks|), v.vimRepainted || HasVim(blocks),
         RepaintedCanonical(v, blocks, cache, mode, |blocks|), blocks)
  }

  /** A repaint leaves every vim segment of its blocks under its mode, and no worker's computation
      of a pending segment, nor anything outside its blocks, changed. */
  lemma {:induction false} RepaintTouches(v: View, segments: seq<Segment>, cache: Cache, mode: nat, k: nat)
    requires k <= |segments|
    ensures forall i :: 0 <= i < k && segments[i].isVim ==>
              segments[i] in RepaintedCanonical(v, segments, cache, mode, k)
              && RepaintedCanonical(v, segments, cache, mode, k)[segments[i]] == Executed(mode)
    ensures forall s :: s in v.canonical && (s !in segments || (!s.isVim && s.key in v.pending)) ==>
              s in RepaintedCanonical(v, segments, cache, mode, k)
              && RepaintedCanonical(v, segments, cache, mode, k)[s] == v.canonical[s]
    ensures forall s :: s in v.canonical && !s.isVim ==>
              s in RepaintedCanonical(v, segments, cache, mode, k)
              && (RepaintedCanonical(v, segments, cache, mode, k)[s] == v.canonical[s]
                  || RepaintedCanonical(v, segments, cache, mode, k)[s].Restored?)
    ensures forall s :: s in RepaintedCanonical(v, segments, cache, mode, k) ==>
              !RepaintedCanonical(v, segments, cache, mode, k)[s].Computed?
              || (s in v.canonical && v.canonical[s] == RepaintedCanonical(v, segments, cache, mode, k)[s])
  {
    if k > 0 {
      RepaintTouches(v, segments, cache, mode, k - 1);
    }
  }

  /** What a repaint does for the segment at position i: vim runs under the mode; a cached text
      refreshes the placeholder of a pending segment and restores any other; and without one the
      segment and its text stay as they were. */
  predicate RepaintedAt(v: View, n: View, segments: seq<Segment>, cache: Cache, mode: nat, i: nat)
    requires i < |segments|
  {
    var s := segments[i];
    && s in n.canonical
    && (s.isVim ==> n.canonical[s] == Executed(mode))
    && (!s.isVim && s.key !in v.pending && s in cache ==> n.canonical[s] == Restored(cache[s].text))
    && (!s.isVim && (s.key in v.pending || s !in cache) ==> n.canonical[s] == if s in v.canonical then v.canonical[s] else Prepared)
    && (!s.isVim && s.key in v.pending && s in cache ==> s.key in n.cachedValues && n.cachedValues[s.key] == cache[s].text)
    && (s.isVim || s.key !in v.pending || s !in cache ==>
          (s.key in n.cachedValues <==> s.key in v.cachedValues)
          && (s.key in v.cachedValues ==> n.cachedValues[s.key] == v.cachedValues[s.key]))
  }

  lemma {:induction false} RepaintingDecides(v: View, n: View, segments: seq<Segment>, cache: Cache, mode: nat, k: nat)
    requires k <= |segments| && DistinctKeys(segments)
    requires n.canonical == RepaintedCanonical(v, segments, cache, mode, k) && n.cachedValues == RepaintedValues(v, segments, cache, k)
    ensures forall i :: 0 <= i < k ==> RepaintedAt(v, n, segments, cache, mode, i)
    ensures forall i :: k <= i < |segments| ==>
              && (segments[i] in n.canonical <==> segments[i] in v.canonical)
              && (segments[i] in v.canonical ==> n.canonical[segments[i]] == v.canonical[segments[i]])
              && (segments[i].key in n.cachedValues <==> segments[i].key in v.cachedValues)
              && (segments[i].key in v.cachedValues ==> n.cachedValues[segments[i].key] == v.cachedValues[segments[i].key])
    decreases k
  {
    if k > 0 {
      var m := v.(canonical := RepaintedCanonical(v, segments, cache, mode, k - 1), cachedValues := RepaintedValues(v, segments, cache, k - 1));
      RepaintingDecides(v, m, segments, cache, mode, k - 1);
      forall i | 0 <= i < k ensures RepaintedAt(v, n, segments, cache, mode, i) {
        if i < k - 1 { assert RepaintedAt(v, m, segments, cache, mode, i); }
      }
    }
  }

  /** What PrimaryRepaint does for each segment of its blocks. */
  lemma RepaintDecides(v: View, mode: nat, cache: Cache, resolved: seq<Segment>)
    requires DistinctKeys(BlocksOf(v, resolved))
    ensures var n := Repaint(v, mode, cache, resolved);
            && n.blocks == BlocksOf(v, resolved) && n.pending == v.pending && n.timedOut == v.timedOut
            && (forall i :: 0 <= i < |n.blocks| ==> RepaintedAt(v, n, n.blocks, cache, mode, i))
            && (forall s :: s in v.canonical && s !in n.blocks ==> s in n.canonical && n.canonical[s] == v.canonical[s])
            && (n.vimRepainted <==> v.vimRepainted || exists i :: 0 <= i < |n.blocks| && n.blocks[i].isVim)
  {
    var n := Repaint(v, mode, cache, resolved);
    RepaintingDecides(v, n, n.blocks, cache, mode, |n.blocks|);
    RepaintTouches(v, n.blocks, cache, mode, |n.blocks|);
  }

  /** A generation starts with none of its segments computed. */
  lemma {:induction false} PrepareTouches(canonical: map<Segment, WriterState>, segments: seq<Segment>, cache: Cache, k: nat)
    requires k <= |segments|
    ensures forall i :: 0 <= i < k ==>
              segments[i] in PreparedCanonical(canonical, segments, cache, k)
              && !PreparedCanonical(canonical, segments, cache, k)[segments[i]].Computed?
    ensures forall s :: s in canonical && s !in segments ==>
              s in PreparedCanonical(canonical, segments, cache, k)
              && PreparedCanonical(canonical, segments, cache, k)[s] == canonical[s]
    ensures forall s :: s in PreparedCanonical(canonical, segments, cache, k) ==>
              !PreparedCanonical(canonical, segments, cache, k)[s].Computed?
              || (s in canonical && canonical[s] == PreparedCanonical(canonical, segments, cache, k)[s])
  {
    if k > 0 {
      PrepareTouches(canonical, segments, cache, k - 1);
    }
  }

  predicate DistinctKeys(segments: seq<Segment>) {
    forall i, j :: 0 <= i < j < |segments| ==> segments[i].key != segments[j].key
  }

  /** What preparing k segments does for the one at position i: a fresh entry is restored and
      completes it; without one it is prepared and executed, and only a stale entry leaves a text
      for its placeholder. */
  predicate PreparedAt(
    segments: seq<Segment>, cache: Cache, i: nat,
    toExecute: set<Key>, completed: set<Key>, values: map<Key, string>, canonical: map<Segment, WriterState>)
    requires i < |segments|
  {
    var s := segments[i];
    s in canonical &&
    if s !in cache then
      s.key in toExecute && s.key !in completed && s.key !in values && canonical[s] == Prepared
    else match cache[s]
      case Fresh(text) =>
        s.key !in toExecute && s.key in completed && s.key !in values && canonical[s] == Restored(text)
      case Stale(text) =>
        s.key in toExecute && s.key !in completed && s.key in values && values[s.key] == text && canonical[s] == Prepared
  }

  predicate HasKey(segments: seq<Segment>, k: nat, key: Key)
    requires k <= |segments|
  {
    exists i :: 0 <= i < k && segments[i].key == key
  }

  /** Only the segments themselves are executed, completed or given a text. */
  lemma {:induction false} PreparingStaysWithin(segments: seq<Segment>, cache: Cache, k: nat, key: Key)
    requires k <= |segments| && !HasKey(segments, k, key)
    ensures key !in KeysOf(segments, cache, k, false) && key !in KeysOf(segments, cache, k, true)
    ensures key !in PreparedValues(segments, cache, k)
  {
    if k > 0 {
      assert segments[k - 1].key != key;
      PreparingStaysWithin(segments, cache, k - 1, key);
    }
  }

  lemma {:induction false} PreparingDecides(canonical: map<Segment, WriterState>, segments: seq<Segment>, cache: Cache, k: nat)
    requires k <= |segments| && DistinctKeys(segments)
    ensures forall i :: 0 <= i < k ==>
              PreparedAt(segments, cache, i, KeysOf(segments, cache, k, false), KeysOf(segments, cache, k, true),
                         PreparedValues(segments, cache, k), PreparedCanonical(canonical, segments, cache, k))
  {
    if k > 0 {
      PreparingDecides(canonical, segments, cache, k - 1);
      assert !HasKey(segments, k - 1, segments[k - 1].key);
      PreparingStaysWithin(segments, cache, k - 1, segments[k - 1].key);
      forall i | 0 <= i < k
        ensures PreparedAt(segments, cache, i, KeysOf(segments, cache, k, false), KeysOf(segments, cache, k, true),
                           PreparedValues(segments, cache, k), PreparedCanonical(canonical, segments, cache, k))
      {
        if i < k - 1 {
          assert PreparedAt(segments, cache, i, KeysOf(segments, cache, k - 1, false), KeysOf(segments, cache, k - 1, true),
                            PreparedValues(segments, cache, k - 1), PreparedCanonical(canonical, segments, cache, k - 1));
          assert segments[i].key != segments[k - 1].key;
        }
      }
    }
  }

  /** A live result that carries a clone reaches its canonical segment, and it alone, unless it is a
      vim segment's and a repaint ran; otherwise nothing changes. */
  lemma MergeLands(v: View, cancelled: bool, r: Result)
    ensures var n := Merge(v, cancelled, r);
            if r.executed && !cancelled && !(r.segment.isVim && v.vimRepainted) then
              && r.segment in n.canonical && n.canonical[r.segment] == Computed(r.segment.generation)
              && n.canonical.Keys == v.canonical.Keys + {r.segment}
              && (forall s :: s in v.canonical && s != r.segment ==> n.canonical[s] == v.canonical[s])
              && n.pending == v.pending && n.timedOut == v.timedOut && n.cachedValues == v.cachedValues
              && n.vimRepainted == v.vimRepainted && n.blocks == v.blocks
            else n == v
  {
  }

  // ---------------------------------------------------------------- the engine

  class Engine {
    var pendingSegments: set<Key>
    var timedOutSegments: set<Key>
    var cachedValues: map<Key, string>
    var vimRepainted: bool
    var canonical: map<Segment, WriterState>
    var streamingBlocks: seq<Segment>

    function Abstract(): View
      reads this
    {
      View(pendingSegments, timedOutSegments, cachedValues, vimRepainted, canonical, streamingBlocks)
    }

    constructor ()
      ensures Abstract() == Empty
    {
      pendingSegments, timedOutSegments, cachedValues, vimRepainted := {}, {}, map[], false;
      canonical, streamingBlocks := map[], [];
    }

    /** Returns the keys to execute and those served from the cache. */
    method PrepareStreamingSegments(segments: seq<Segment>, cache: Cache)
      returns (segmentsToExecute: seq<Key>, completed: set<Key>)
      modifies this
      ensures Abstract() == Prepare(old(Abstract()), segments, cache)
      ensures Elements(segmentsToExecute) == KeysOf(segments, cache, |segments|, false)
      ensures completed == KeysOf(segments, cache, |segments|, true)
      ensures streamingBlocks == segments && pendingSegments == {} == timedOutSegments && !vimRepainted
      ensures DistinctKeys(segments) ==>
                && (forall i :: 0 <= i < |segments| ==>
                      PreparedAt(segments, cache, i, Elements(segmentsToExecute), completed, cachedValues, canonical))
                && (forall key :: key in segmentsToExecute || key in completed || key in cachedValues ==>
                      HasKey(segments, |segments|, key))
    {
      pendingSegments, timedOutSegments, cachedValues := {}, {}, map[];
      vimRepainted := false;
      streamingBlocks := segments;
      segmentsToExecute, completed := [], {};
      var i := 0;
      while i < |segments|
        invariant 0 <= i <= |segments|
        invariant streamingBlocks == segments && pendingSegments == {} == timedOutSegments && !vimRepainted
        invariant canonical == PreparedCanonical(old(canonical), segments, cache, i)
        invariant cachedValues == PreparedValues(segments, cache, i)
        invariant Elements(segmentsToExecute) == KeysOf(segments, cache, i, false)
        invariant completed == KeysOf(segments, cache, i, true)
      {
        var segment := segments[i];
        ElementsAppend(segmentsToExecute, segment.key);
        if segment in cache && cache[segment].Fresh? {
          canonical := canonical[segment := Restored(cache[segment].text)];
          completed := completed + {segment.key};
        } else {
          canonical := canonical[segment := Prepared];
          if segment in cache {
            cachedValues := cachedValues[segment.key := cache[segment].text];
          }
          segmentsToExecute := segmentsToExecute + [segment.key];
        }
        i := i + 1;
      }
      if DistinctKeys(segments) { PreparingDecides(old(canonical), segments, cache, |segments|); }
      forall key | key in segmentsToExecute || key in completed || key in cachedValues ensures HasKey(segments, |segments|, key) {
        assert key in Elements(segmentsToExecute) <==> key in segmentsToExecute;
        if !HasKey(segments, |segments|, key) { PreparingStaysWithin(segments, cache, |segments|, key); }
      }
    }

    method MergeStreamingResultLocked(cancelled: bool, result: Result)
      modifies this`canonical
      ensures Abstract() == Merge(old(Abstract()), cancelled, result)
      ensures result.executed && !cancelled && !(result.segment.isVim && vimRepainted) ==>
                result.segment in canonical && canonical[result.segment] == Computed(result.segment.generation)
      ensures forall s :: s in old(canonical) && s != result.segment ==> s in canonical && canonical[s] == old(canonical)[s]
      ensures !result.executed || cancelled || (result.segment.isVim && vimRepainted) ==> canonical == old(canonical)
    {
      if !result.executed {
        return;
      }
      if cancelled {
        return;
      }
      if result.segment.isVim && vimRepainted {
        return;
      }
      canonical := canonical[result.segment := Computed(result.segment.generation)];
    }

    /** Returns whether the prompt drawn in this lock section carries placeholders. */
    method LatchPending(segmentsToExecute: seq<Key>, completed: set<Key>) returns (hasPending: bool)
      modifies this`pendingSegments
      ensures Abstract() == Latch(old(Abstract()), Elements(segmentsToExecute), completed)
      ensures forall k :: k in pendingSegments <==> k in old(pendingSegments) || (k in segmentsToExecute && k !in completed)
      ensures hasPending <==> Abstract().pending != {}
    {
      var i := 0;
      while i < |segmentsToExecute|
        invariant 0 <= i <= |segmentsToExecute|
        invariant pendingSegments == old(pendingSegments) + (Elements(segmentsToExecute[..i]) - completed)
      {
        ElementsStep(segmentsToExecute, i);
        if segmentsToExecute[i] !in completed {
          pendingSegments := pendingSegments + {segmentsToExecute[i]};
        }
        i := i + 1;
      }
      assert segmentsToExecute[..i] == segmentsToExecute;
      hasPending := |pendingSegments| > 0;
    }

    /** Returns whether the result is announced. */
    method SettleResult(cancelled: bool, result: Result) returns (announce: bool)
      modifies this
      ensures Abstract() == Settle(old(Abstract()), cancelled, result)
      ensures announce == !cancelled
      ensures cancelled ==> Abstract() == old(Abstract())
      ensures !cancelled ==>
                && pendingSegments == old(pendingSegments) - {result.segment.key}
                && timedOutSegments == old(timedOutSegments) - {result.segment.key}
                && (result.executed && !(result.segment.isVim && vimRepainted) ==>
                      result.segment in canonical && canonical[result.segment] == Computed(result.segment.generation))
    {
      if cancelled {
        return false;
      }
      MergeStreamingResultLocked(cancelled, result);
      pendingSegments := pendingSegments - {result.segment.key};
      timedOutSegments := timedOutSegments - {result.segment.key};
      return true;
    }

    method MarkPendingSegmentsTimedOut(cancelled: bool) returns (marked: bool)
      modifies this`timedOutSegments
      ensures Abstract() == Mark(old(Abstract()), cancelled)
      ensures marked == Marks(old(Abstract()), cancelled)
      ensures marked <==> !cancelled && pendingSegments != {}
      ensures timedOutSegments == if marked then old(timedOutSegments) + pendingSegments else old(timedOutSegments)
    {
      if cancelled || |pendingSegments| == 0 {
        return false;
      }
      var rest := pendingSegments;
      while rest != {}
        invariant rest <= pendingSegments
        invariant timedOutSegments == old(timedOutSegments) + (pendingSegments - rest)
        decreases rest
      {
        var key :| key in rest;
        timedOutSegments := timedOutSegments + {key};
        rest := rest - {key};
      }
      return true;
    }

    /** Each segment shows the vim mode, its cached text, or what it showed before. */
    method PrimaryRepaint(vimMode: nat, cache: Cache, resolved: seq<Segment>)
      modifies this
      ensures Abstract() == Repaint(old(Abstract()), vimMode, cache, resolved)
      ensures streamingBlocks == if old(streamingBlocks) == [] then resolved else old(streamingBlocks)
      ensures pendingSegments == old(pendingSegments) && timedOutSegments == old(timedOutSegments)
      ensures vimRepainted <==> old(vimRepainted) || exists i :: 0 <= i < |streamingBlocks| && streamingBlocks[i].isVim
      ensures DistinctKeys(streamingBlocks) ==>
                forall i :: 0 <= i < |streamingBlocks| ==>
                  RepaintedAt(old(Abstract()), Abstract(), streamingBlocks, cache, vimMode, i)
    {
      if |streamingBlocks| == 0 {
        streamingBlocks := resolved;
      }
      RepaintSegments(vimMode, cache);
      assert Abstract() == Repaint(old(Abstract()), vimMode, cache, resolved) by {
        var v, blocks := old(Abstract()), BlocksOf(old(Abstract()), resolved);
        RepaintIgnoresBlocks(v, v.(blocks := blocks), blocks, cache, vimMode, |blocks|);
      }
      if DistinctKeys(streamingBlocks) { RepaintDecides(old(Abstract()), vimMode, cache, resolved); }
    }

    /** Its loop over the segments. */
    method RepaintSegments(vimMode: nat, cache: Cache)
      modifies this`vimRepainted, this`canonical, this`cachedValues
      ensures vimRepainted == (old(vimRepainted) || HasVim(streamingBlocks))
      ensures canonical == RepaintedCanonical(old(Abstract()), streamingBlocks, cache, vimMode, |streamingBlocks|)
      ensures cachedValues == RepaintedValues(old(Abstract()), streamingBlocks, cache, |streamingBlocks|)
    {
      var i := 0;
      while i < |streamingBlocks|
        invariant 0 <= i <= |streamingBlocks|
        invariant vimRepainted == (old(vimRepainted) || HasVim(streamingBlocks[..i]))
        invariant canonical == RepaintedCanonical(old(Abstract()), streamingBlocks, cache, vimMode, i)
        invariant cachedValues == RepaintedValues(old(Abstract()), streamingBlocks, cache, i)
      {
        var segment := streamingBlocks[i];
        VimStep(streamingBlocks, i);
        if segment.isVim {
          canonical := canonical[segment := Executed(vimMode)];
          vimRepainted := true;
        } else {
          if segment !in canonical {
            canonical := canonical[segment := Prepared];
          }
          if segment in cache {
            if segment.key in pendingSegments {
              cachedValues := cachedValues[segment.key := cache[segment].text];
            } else {
              canonical := canonical[segment := Restored(cache[segment].text)];
            }
          }
        }
        i := i + 1;
      }
      assert streamingBlocks[..i] == streamingBlocks;
    }
  }

  lemma {:induction false} RepaintIgnoresBlocks(v: View, w: View, segments: seq<Segment>, cache: Cache, mode: nat, k: nat)
    requires k <= |segments| && w == v.(blocks := w.blocks)
    ensures RepaintedCanonical(w, segments, cache, mode, k) == RepaintedCanonical(v, segments, cache, mode, k)
    ensures RepaintedValues(w, segments, cache, k) == RepaintedValues(v, segments, cache, k)
  {
    if k > 0 { RepaintIgnoresBlocks(v, w, segments, cache, mode, k - 1); }
  }

  lemma VimStep(segments: seq<Segment>, i: nat)
    requires i < |segments|
    ensures HasVim(segments[..i + 1]) <==> HasVim(segments[..i]) || segments[i].isVim
  {
    if HasVim(segments[..i]) {
      var j :| 0 <= j < i && segments[..i][j].isVim;
      assert segments[..i + 1][j].isVim;
    }
    if segments[i].isVim { assert segments[..i + 1][i].isVim; }
    if HasVim(segments[..i + 1]) && !segments[i].isVim {
      var j :| 0 <= j < i + 1 && segments[..i + 1][j].isVim;
      assert segments[..i][j].isVim;
    }
  }
}
