/** Coalescing and ordering of config reloads (src/daemon/daemon_reload.go): the file is saved, the
    watcher asks for a reload through a channel with one slot, and any number of threads take the
    signal or find the file newer, and apply the reload one at a time under reloadMu.

    A version of the file stands for its content and for its modification time, which is taken to
    grow with every save. */
module ConfigReload {
  import opened Wrappers

  /** Where applyConfigReload is; Capturing covers everything after Reset dropped the engines. */
  datatype Stage = Locking | Resetting | Capturing

  datatype State = State(
    file: nat,                 // the version on disk
    notified: nat,             // the latest version the watcher reported
    queued: bool,              // the slot of configReloadCh
    stopped: bool,
    applied: nat,              // engines made from older versions have been dropped
    lastMod: nat,              // lastConfigModUnixNano
    appliers: map<nat, Stage>,
    lock: Option<nat>,         // who holds reloadMu
    savedSinceReset: bool,     // a save fell since the engines were last dropped
    missed: bool,              // it had when the time was last captured
    savedSinceCapture: bool)   // a save fell since then

  predicate Starts(s: State) {
    s == State(s.file, s.file, false, false, s.file, s.file, map[], None, false, false, false)
  }

  datatype Step =
    | Save
    | Notify
    | TakeSignal(a: nat)
    | CatchUp(a: nat)
    | Lock(a: nat)
    | Reset(a: nat)
    | Capture(a: nat)
    | Stop

  predicate At(s: State, a: nat, stage: Stage) { a in s.appliers && s.appliers[a] == stage }

  predicate Enabled(s: State, t: Step) {
    match t
    case Save => true
    case Notify => true
    case TakeSignal(a) => s.queued && a !in s.appliers
    case CatchUp(a) => s.file > s.lastMod && a !in s.appliers
    case Lock(a) => At(s, a, Locking) && s.lock.None?
    case Reset(a) => At(s, a, Resetting)
    case Capture(a) => At(s, a, Capturing)
    case Stop => true
  }

  function Apply(s: State, t: Step): State
    requires Enabled(s, t)
  {
    match t
    case Save => s.(file := s.file + 1, savedSinceReset := true, savedSinceCapture := true)
    case Notify => if s.stopped then s else s.(notified := s.file, queued := true)
    case TakeSignal(a) => s.(queued := false, appliers := s.appliers[a := Locking])
    case CatchUp(a) => s.(appliers := s.appliers[a := Locking])
    case Lock(a) => s.(appliers := s.appliers[a := Resetting], lock := Some(a))
    case Reset(a) =>
      var n := s.(appliers := s.appliers[a := Capturing]);
      if s.stopped then n else n.(applied := s.file, savedSinceReset := false)
    case Capture(a) =>
      s.(appliers := s.appliers - {a}, lock := None, lastMod := s.file,
         missed := s.savedSinceReset, savedSinceCapture := false)
    case Stop => s.(stopped := true)
  }

  ghost predicate Runs(s: State, ts: seq<Step>)
    decreases |ts|
  {
    ts == [] || (Enabled(s, ts[0]) && Runs(Apply(s, ts[0]), ts[1..]))
  }

  ghost function After(s: State, ts: seq<Step>): State
    requires Runs(s, ts)
    decreases |ts|
  {
    if ts == [] then s else After(Apply(s, ts[0]), ts[1..])
  }

  ghost predicate Reachable(s: State) {
    exists z, ts :: Starts(z) && Runs(z, ts) && After(z, ts) == s
  }

  /** Some thread is on its way to drop the engines. */
  predicate ResetAhead(s: State) {
    exists a :: a in s.appliers && s.appliers[a] != Capturing
  }

  predicate Inv(s: State) {
    && s.notified <= s.file && s.applied <= s.file && s.lastMod <= s.file
    && (forall a :: a in s.appliers && s.appliers[a] != Locking ==> s.lock == Some(a))
    && (s.lock.Some? ==> s.lock.value in s.appliers && s.appliers[s.lock.value] != Locking)
    && (s.stopped || s.notified <= s.applied || s.queued || ResetAhead(s))
    && (s.savedSinceReset <==> s.file > s.applied)
    && (s.savedSinceCapture <==> s.file > s.lastMod)
    && ((s.lock.None? || s.appliers[s.lock.value] == Resetting) && !s.savedSinceCapture ==>
          (s.missed <==> s.savedSinceReset))
  }

  lemma KeepsInv(s: State, t: Step)
    requires Inv(s) && Enabled(s, t)
    ensures Inv(Apply(s, t))
  {
    var n := Apply(s, t);
    if ResetAhead(s) {
      var a :| a in s.appliers && s.appliers[a] != Capturing;
      assert t != Capture(a);
      assert a in n.appliers && (t != Reset(a) ==> n.appliers[a] != Capturing);
    }
    if t.TakeSignal? {
      assert n.appliers[t.a] != Capturing;
    }
  }

  lemma {:induction false} RunKeepsInv(s: State, ts: seq<Step>)
    requires Inv(s) && Runs(s, ts)
    ensures Inv(After(s, ts))
    decreases |ts|
  {
    if ts != [] {
      KeepsInv(s, ts[0]);
      RunKeepsInv(Apply(s, ts[0]), ts[1..]);
    }
  }

  lemma ReachableInv(s: State)
    requires Reachable(s)
    ensures Inv(s)
  {
    var z, ts :| Starts(z) && Runs(z, ts) && After(z, ts) == s;
    RunKeepsInv(z, ts);
  }

  /** However many signals were dropped on a full slot, no notified save is lost while the daemon
      runs: engines made before it have been dropped, or the slot is full, or a thread is still to
      drop them. */
  lemma NoRequestIsLost(s: State)
    requires Reachable(s) && !s.stopped
    ensures s.notified <= s.applied || s.queued || ResetAhead(s)
    ensures !s.queued && s.appliers == map[] ==> s.notified <= s.applied
  {
    ReachableInv(s);
  }

  /** Reloads are applied one at a time. */
  lemma AppliersExclude(s: State, a: nat, b: nat)
    requires Reachable(s) && a in s.appliers && b in s.appliers
    requires s.appliers[a] != Locking && s.appliers[b] != Locking
    ensures a == b
  {
    ReachableInv(s);
  }

  /** Some save is not applied, and no thread would find it by the modification time. */
  ghost predicate Overlooked(s: State) {
    s.file > s.applied && forall b: nat :: !Enabled(s, CatchUp(b))
  }

  /** With no reload at work a save is overlooked exactly when one fell between the last reset of
      the engines and the capture of the time that followed, and none has come since. */
  lemma SaveIsOverlookedIff(s: State)
    requires Reachable(s) && s.appliers == map[]
    ensures Overlooked(s) <==> s.missed && !s.savedSinceCapture
  {
    ReachableInv(s);
    if s.savedSinceCapture {
      assert Enabled(s, CatchUp(0));
    }
  }

  /** The history it speaks of: what is missed at a capture is what was saved since the reset. */
  lemma MissedIsSavedSinceReset(s: State, a: nat)
    requires Reachable(s) && Enabled(s, Capture(a))
    ensures Apply(s, Capture(a)).missed <==> s.file > s.applied
    ensures !Apply(s, Capture(a)).savedSinceCapture
  {
    ReachableInv(s);
  }

  /** A save in that gap whose event has not been delivered is overlooked until it is. */
  lemma SaveDuringReloadIsMissed() returns (s: State)
    ensures Reachable(s) && s.appliers == map[] && !s.queued && Overlooked(s)
  {
    var z := State(0, 0, false, false, 0, 0, map[], None, false, false, false);
    var s1 := Apply(z, Notify);
    var s2 := Apply(s1, TakeSignal(0));
    var s3 := Apply(s2, Lock(0));
    var s4 := Apply(s3, Reset(0));
    var s5 := Apply(s4, Save);
    s := Apply(s5, Capture(0));
    var ts := [Notify, TakeSignal(0), Lock(0), Reset(0), Save, Capture(0)];
    RunsBy(s5, ts[5..]);
    RunsBy(s4, ts[4..]);
    RunsBy(s3, ts[3..]);
    RunsBy(s2, ts[2..]);
    RunsBy(s1, ts[1..]);
    RunsBy(z, ts);
    assert s.appliers == map[];
    assert Starts(z) && Runs(z, ts) && After(z, ts) == s;
  }

  lemma RunsBy(s: State, ts: seq<Step>)
    requires ts != [] && Enabled(s, ts[0])
    ensures Runs(s, ts) <==> Runs(Apply(s, ts[0]), ts[1..])
    ensures Runs(s, ts) ==> After(s, ts) == After(Apply(s, ts[0]), ts[1..])
  {
  }

  /** Once the daemon stopped nothing more is applied or queued, whatever was under way. */
  lemma {:induction false} NothingIsAppliedOnceStopped(s: State, ts: seq<Step>)
    requires s.stopped && Runs(s, ts)
    ensures var n := After(s, ts);
            n.stopped && n.applied == s.applied && n.notified == s.notified && (n.queued ==> s.queued)
    decreases |ts|
  {
    if ts != [] {
      NothingIsAppliedOnceStopped(Apply(s, ts[0]), ts[1..]);
    }
  }

  predicate TakesSignal(t: Step) { t.TakeSignal? }

  /** A queued signal stays until a thread takes it, and the thread then goes for the lock. */
  lemma {:induction false} SignalStaysUntilTaken(s: State, ts: seq<Step>)
    requires Runs(s, ts) && forall t :: t in ts ==> !TakesSignal(t)
    ensures s.queued ==> After(s, ts).queued
    ensures forall a: nat :: Enabled(After(s, ts), TakeSignal(a)) ==>
              At(Apply(After(s, ts), TakeSignal(a)), a, Locking)
    decreases |ts|
  {
    if ts != [] {
      assert ts[0] in ts;
      SignalStaysUntilTaken(Apply(s, ts[0]), ts[1..]);
    }
  }

  /** The two ends of the channel as one thread runs them. */
  class ReloadQueue {
    var queued: bool
    var stopped: bool

    constructor ()
      ensures !queued && !stopped
    {
      queued, stopped := false, false;
    }

    /** requestConfigReload: only for the daemon's own file, and dropped while one is queued. */
    method RequestConfigReload(path: string, configPath: string)
      modifies this`queued
      ensures queued == (old(queued) || (path != "" && path == configPath && !stopped))
    {
      if path == "" || path != configPath {
        return;
      }
      if stopped {
        return;
      }
      if !queued {
        queued := true;
      }
    }

    /** ProcessPendingConfigReload: drains the channel; `applies` is how often it reloads. */
    method ProcessPendingConfigReload() returns (applies: nat)
      modifies this`queued
      ensures !queued
      ensures applies == if old(queued) then 1 else 0
    {
      applies := 0;
      while queued
        invariant applies + (if queued then 1 else 0) == if old(queued) then 1 else 0
        decreases queued
      {
        queued := false;
        applies := applies + 1;
      }
    }
  }
}
