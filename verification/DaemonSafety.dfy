/** What every interleaving of lifecycle operations keeps: one operation at a time, the running backend has the
    saved setting, and unmanaged servers are left alone. */
module DaemonSafety {
  import opened Common
  import opened DaemonModel

  // ------------------------------------------------------------- invariant

  /** The operation being carried out is the one asked for, or a stage of it. */
  predicate Stage(q: Process)
  {
    if q.op.EnsureRemoteControlStarted? then
      || (q.current == q.op && !q.thenStart)
      || (q.current == SetRemoteControl(true) && q.thenStart)
      || (q.current == Start && !q.thenStart)
      || (q.current == Bootstrap(true) && !q.thenStart)
    else q.current == q.op && !q.thenStart
  }

  /** Where an operation can be. */
  predicate Fits(q: Process)
  {
    && Stage(q)
    && (q.at.Acquire? ==> q.current == q.op && !q.thenStart)
    && (q.at.Loading? ==> !q.current.Bootstrap?)
    && (Starting(q.at) ==> q.current.Start?)
    && (Restarting(q.at) ==> q.current.Restart?)
    && (Trying(q.at) ==> q.current.TryRestart?)
    && (Stopping(q.at) ==> q.current.Stop?)
    && (Setting(q.at) ==> q.current.SetRemoteControl?)
    && (Booting(q.at) || Updating(q.at) ==> q.current.Bootstrap?)
    && (q.at.EnsureFind? ==> q.current.EnsureRemoteControlStarted?)
    && (q.at.Halt? ==> q.current.Restart? || q.current.TryRestart?)
    && (q.at.Replace? ==> q.current == if q.at.boot then Bootstrap(q.at.flag) else SetRemoteControl(q.at.flag))
    && (q.at.Launch? ==>
          if q.at.boot then q.current == Bootstrap(q.at.flag)
          else (|| q.current == SetRemoteControl(q.at.flag)
                || q.current.Start? || q.current.Restart? || q.current.TryRestart?))
    && (q.at.Ready? ==> !q.current.Stop? && !q.current.EnsureRemoteControlStarted?)
  }

  predicate HasFlag(at: Point)
  {
    || Starting(at) || Restarting(at) || at.TryFind? || at.TryProbe? || at.SetFind? || at.SetProbe?
    || at.Halt? || at.Replace? || at.Launch?
  }

  /** The settings are saved and the backend they are for is not yet in place. */
  predicate InWindow(at: Point) { at.SetBinary? || at.BootFind? || at.Replace? }

  /** What an operation knows at each point about settings and backend, since nobody else changes the settings and only
      death takes the backend away. */
  predicate Sees(h: Host, q: Process)
  {
    && (HasFlag(q.at) ==> Load(h.settings) == Some(q.at.flag))
    && (q.at.SetSave? ==> Load(h.settings) == Some(!Target(q)))
    && (q.at.SetBinary? || q.at.BootFind? || Updating(q.at) ==> Load(h.settings) == Some(Target(q)))
    && (q.at.Ready? && (q.current.SetRemoteControl? || q.current.Bootstrap?) ==> Load(h.settings) == Some(Target(q)))
    && ((q.at.SetProbe? || q.at.SetSave?) && !q.at.seen ==> h.backend.None?)
  }

  /** What one that found the host consistent knows besides. */
  predicate Knows(h: Host, q: Process)
  {
    && (!InWindow(q.at) ==> Consistent(h))
    && (q.at.SetBinary? || (q.at.Replace? && !q.at.boot) ==> h.backend.None? || h.backend.value == !Target(q))
  }

  /** A change of settings will get a running backend right and start none behind a server's back. */
  predicate Settable(h: Host)
  {
    || Load(h.settings).None?
    || (if h.backend.Some? then h.backend == Some(true) || Load(h.settings) == Some(false) else !h.unmanaged)
  }

  /** What an undisturbed request to have remote control running knows on a host on which it can be relied on. */
  predicate Ensures(h: Host, q: Process)
  {
    && (q.current.EnsureRemoteControlStarted? ==> Startable(h))
    && (q.current.SetRemoteControl? && (q.at.Loading? || Setting(q.at)) && !q.at.SetBinary? ==> Settable(h))
    && (q.at.SetProbe? || q.at.SetSave? ==> q.at.seen == h.backend.Some?)
    && (q.current.Start? ==> Load(h.settings) == Some(true))
    && (q.current.Start? && (q.at.Loading? || Starting(q.at)) ==>
          h.backend == Some(true) || (h.backend.None? && !h.unmanaged))
    && (q.at.StartBinary? || q.at.Launch? ==> h.backend.None?)
    && (Updating(q.at) || q.at.Ready? ==> h.backend == Some(true))
  }

  /** The requests `Ensures` is about. */
  predicate Reliable(q: Process) { q.undisturbed && q.op.EnsureRemoteControlStarted? && Startable(q.found) }

  predicate HolderOk(h: Host, q: Process)
  {
    && Inside(q.at) && Fits(q) && Sees(h, q)
    && (Consistent(q.found) ==> Knows(h, q))
    && (Reliable(q) ==> Ensures(h, q))
  }

  /** Everyone but the holder of the lock is outside. */
  predicate OthersOutside(w: World)
  {
    forall p :: p in w.procs && w.holder != Some(p) ==> !Inside(w.procs[p].at) && Fits(w.procs[p])
  }

  predicate Inv(w: World)
  {
    && OthersOutside(w)
    && (w.holder.Some? ==> w.holder.value in w.procs && HolderOk(w.host, w.procs[w.holder.value]))
  }

  /** The world before anything was started. */
  predicate Fresh(w: World) { w.procs == map[] && w.holder.None? }

  // ------------------------------------------------------- one step keeps it

  lemma PutKeeps(w: World, p: nat, m: Move)
    requires Inv(w) && w.holder == Some(p) && p in w.procs && MoveOk(w.procs[p].at, m)
    ensures Inv(Put(w, p, m))
  {
    hide Fits, Sees, Knows, Ensures;
  }

  /** A step of the holder leads where it should. */
  predicate MoveOk(from: Point, m: Move)
  {
    if Gone(m.1.at) then
      && Fits(m.1)
      && (Consistent(m.1.found) && !from.SetBinary? ==> Consistent(m.0))
      && (m.1.at.Done? && Reliable(m.1) ==> Started(m.0))
    else HolderOk(m.0, m.1)
  }

  lemma FinishMoves(h: Host, q: Process)
    requires Stage(q) && (Consistent(q.found) ==> Consistent(h))
    requires Reliable(q) ==>
      && Load(h.settings) == Some(true)
      && (h.backend == Some(true) || (q.thenStart && h.backend.None? && !h.unmanaged))
    ensures MoveOk(q.at, Finish(h, q))
  {
  }

  lemma LoadMovesStart(h: Host, q: Process)
    requires HolderOk(h, q) && q.at.Loading? && q.current.Start?
    ensures MoveOk(q.at, LoadSettings(h, q))
  {
  }

  lemma LoadMovesRestart(h: Host, q: Process)
    requires HolderOk(h, q) && q.at.Loading? && (q.current.Restart? || q.current.TryRestart? || q.current.Stop?)
    ensures MoveOk(q.at, LoadSettings(h, q))
  {
  }

  lemma LoadMovesSet(h: Host, q: Process)
    requires HolderOk(h, q) && q.at.Loading?
        && (q.current.SetRemoteControl? || q.current.EnsureRemoteControlStarted?)
    ensures MoveOk(q.at, LoadSettings(h, q))
  {
  }

  lemma LoadMoves(h: Host, q: Process)
    requires HolderOk(h, q) && q.at.Loading?
    ensures MoveOk(q.at, LoadSettings(h, q))
  {
    assert !q.current.Bootstrap?;
    hide LoadSettings, HolderOk, MoveOk;
    if q.current.Start? {
      LoadMovesStart(h, q);
    } else if q.current.SetRemoteControl? || q.current.EnsureRemoteControlStarted? {
      LoadMovesSet(h, q);
    } else {
      LoadMovesRestart(h, q);
    }
  }

  lemma StartMovesProbe(h: Host, q: Process, f: Finding)
    requires HolderOk(h, q) && q.at.StartProbe?
    ensures MoveOk(q.at, StepStart(h, q, f))
  {
  }

  lemma StartMovesFind(h: Host, q: Process, f: Finding)
    requires HolderOk(h, q) && (q.at.StartFind? || q.at.StartBinary?)
    ensures MoveOk(q.at, StepStart(h, q, f))
  {
  }

  lemma StartMoves(h: Host, q: Process, f: Finding)
    requires HolderOk(h, q) && Starting(q.at)
    ensures MoveOk(q.at, StepStart(h, q, f))
  {
    hide StepStart, HolderOk, MoveOk;
    if q.at.StartProbe? {
      StartMovesProbe(h, q, f);
    } else {
      StartMovesFind(h, q, f);
    }
  }

  lemma RestartMovesProbe(h: Host, q: Process, f: Finding)
    requires HolderOk(h, q) && (q.at.RestartProbe? || q.at.RestartCheck?)
    ensures MoveOk(q.at, StepRestart(h, q, f))
  {
  }

  lemma RestartMovesFind(h: Host, q: Process, f: Finding)
    requires HolderOk(h, q) && (q.at.RestartBinary? || q.at.RestartFind?)
    ensures MoveOk(q.at, StepRestart(h, q, f))
  {
  }

  lemma RestartMoves(h: Host, q: Process, f: Finding)
    requires HolderOk(h, q) && Restarting(q.at)
    ensures MoveOk(q.at, StepRestart(h, q, f))
  {
    hide StepRestart, HolderOk, MoveOk;
    if q.at.RestartProbe? || q.at.RestartCheck? {
      RestartMovesProbe(h, q, f);
    } else {
      RestartMovesFind(h, q, f);
    }
  }

  lemma TryMovesFind(h: Host, q: Process, f: Finding)
    requires HolderOk(h, q) && (q.at.TryFind? || q.at.TryIdle?)
    ensures MoveOk(q.at, StepTry(h, q, f))
  {
  }

  lemma TryMovesProbe(h: Host, q: Process, f: Finding)
    requires HolderOk(h, q) && q.at.TryProbe?
    ensures MoveOk(q.at, StepTry(h, q, f))
  {
  }

  lemma TryMoves(h: Host, q: Process, f: Finding)
    requires HolderOk(h, q) && Trying(q.at)
    ensures MoveOk(q.at, StepTry(h, q, f))
  {
    hide StepTry, HolderOk, MoveOk;
    if q.at.TryFind? || q.at.TryIdle? {
      TryMovesFind(h, q, f);
    } else {
      TryMovesProbe(h, q, f);
    }
  }

  lemma StopMoves(h: Host, q: Process, f: Finding)
    requires HolderOk(h, q) && Stopping(q.at)
    ensures MoveOk(q.at, StepStop(h, q, f))
  {
  }

  lemma SetMovesFind(h: Host, q: Process, f: Finding)
    requires HolderOk(h, q) && q.at.SetFind?
    ensures MoveOk(q.at, StepSet(h, q, f))
  {
  }

  lemma SetMovesProbeSeen(h: Host, q: Process, f: Finding)
    requires HolderOk(h, q) && q.at.SetProbe?
    requires q.at.seen
    ensures MoveOk(q.at, StepSet(h, q, f))
  {
  }

  lemma SetMovesProbeMissing(h: Host, q: Process, f: Finding)
    requires HolderOk(h, q) && q.at.SetProbe?
    requires !q.at.seen
    ensures MoveOk(q.at, StepSet(h, q, f))
  {
    hide Finish;
    if q.at.flag == Target(q) { FinishMoves(h, q); }
  }

  lemma SetMovesProbe(h: Host, q: Process, f: Finding)
    requires HolderOk(h, q) && q.at.SetProbe?
    ensures MoveOk(q.at, StepSet(h, q, f))
  {
    hide StepSet, HolderOk, MoveOk;
    if q.at.seen {
      SetMovesProbeSeen(h, q, f);
    } else {
      SetMovesProbeMissing(h, q, f);
    }
  }

  lemma SetMovesSave(h: Host, q: Process, f: Finding)
    requires HolderOk(h, q) && q.at.SetSave?
    ensures MoveOk(q.at, StepSet(h, q, f))
  {
    hide Finish;
    if !q.at.seen { FinishMoves(h.(settings := Saved(Target(q))), q); }
  }

  lemma SetMovesBinary(h: Host, q: Process, f: Finding)
    requires HolderOk(h, q) && q.at.SetBinary?
    ensures MoveOk(q.at, StepSet(h, q, f))
  {
  }

  lemma SetMoves(h: Host, q: Process, f: Finding)
    requires HolderOk(h, q) && Setting(q.at)
    ensures MoveOk(q.at, StepSet(h, q, f))
  {
    hide StepSet, HolderOk, MoveOk;
    if q.at.SetFind? {
      SetMovesFind(h, q, f);
    } else if q.at.SetProbe? {
      SetMovesProbe(h, q, f);
    } else if q.at.SetSave? {
      SetMovesSave(h, q, f);
    } else {
      SetMovesBinary(h, q, f);
    }
  }

  lemma BootMovesBinary(h: Host, q: Process, f: Finding)
    requires HolderOk(h, q) && q.at.BootBinary?
    ensures MoveOk(q.at, StepBoot(h, q, f))
  {
  }

  lemma BootMovesProbe(h: Host, q: Process, f: Finding)
    requires HolderOk(h, q) && q.at.BootProbe?
    ensures MoveOk(q.at, StepBoot(h, q, f))
  {
  }

  lemma BootMovesCheck(h: Host, q: Process, f: Finding)
    requires HolderOk(h, q) && q.at.BootCheck?
    ensures MoveOk(q.at, StepBoot(h, q, f))
  {
  }

  lemma BootMovesSave(h: Host, q: Process, f: Finding)
    requires HolderOk(h, q) && q.at.BootSave?
    ensures MoveOk(q.at, StepBoot(h, q, f))
  {
  }

  lemma BootMovesFind(h: Host, q: Process, f: Finding)
    requires HolderOk(h, q) && q.at.BootFind?
    ensures MoveOk(q.at, StepBoot(h, q, f))
  {
  }

  lemma BootMoves(h: Host, q: Process, f: Finding)
    requires HolderOk(h, q) && Booting(q.at)
    ensures MoveOk(q.at, StepBoot(h, q, f))
  {
    hide StepBoot, HolderOk, MoveOk;
    if q.at.BootBinary? {
      BootMovesBinary(h, q, f);
    } else if q.at.BootProbe? {
      BootMovesProbe(h, q, f);
    } else if q.at.BootCheck? {
      BootMovesCheck(h, q, f);
    } else if q.at.BootSave? {
      BootMovesSave(h, q, f);
    } else {
      BootMovesFind(h, q, f);
    }
  }

  lemma UpdaterMovesFind(h: Host, q: Process)
    requires HolderOk(h, q) && q.at.UpdaterFind?
    ensures MoveOk(q.at, StepUpdater(h, q))
  {
  }

  lemma UpdaterMovesHalt(h: Host, q: Process)
    requires HolderOk(h, q) && q.at.UpdaterHalt?
    ensures MoveOk(q.at, StepUpdater(h, q))
  {
    assert StepUpdater(h, q) == (h.(updater := false), q.(at := UpdaterLaunch));
    hide StepUpdater, Startable, Settable;
  }

  lemma UpdaterMovesLaunch(h: Host, q: Process)
    requires HolderOk(h, q) && q.at.UpdaterLaunch?
    ensures MoveOk(q.at, StepUpdater(h, q))
  {
  }

  lemma UpdaterMoves(h: Host, q: Process)
    requires HolderOk(h, q) && Updating(q.at)
    ensures MoveOk(q.at, StepUpdater(h, q))
  {
    hide StepUpdater, HolderOk, MoveOk;
    if q.at.UpdaterFind? {
      UpdaterMovesFind(h, q);
    } else if q.at.UpdaterHalt? {
      UpdaterMovesHalt(h, q);
    } else {
      UpdaterMovesLaunch(h, q);
    }
  }

  lemma BackendMovesHalt(h: Host, q: Process)
    requires HolderOk(h, q) && q.at.Halt?
    ensures MoveOk(q.at, StepBackend(h, q))
  {
  }

  lemma BackendMovesReplace(h: Host, q: Process)
    requires HolderOk(h, q) && q.at.Replace?
    ensures MoveOk(q.at, StepBackend(h, q))
  {
  }

  lemma BackendMovesLaunchBoot(h: Host, q: Process)
    requires HolderOk(h, q) && q.at.Launch?
    requires q.at.boot
    ensures MoveOk(q.at, StepBackend(h, q))
  {
  }

  lemma BackendMovesLaunchPlain(h: Host, q: Process)
    requires HolderOk(h, q) && q.at.Launch?
    requires !q.at.boot
    ensures MoveOk(q.at, StepBackend(h, q))
  {
  }

  lemma BackendMovesLaunch(h: Host, q: Process)
    requires HolderOk(h, q) && q.at.Launch?
    ensures MoveOk(q.at, StepBackend(h, q))
  {
    hide StepBackend, HolderOk, MoveOk;
    if q.at.boot {
      BackendMovesLaunchBoot(h, q);
    } else {
      BackendMovesLaunchPlain(h, q);
    }
  }

  lemma BackendMovesReady(h: Host, q: Process)
    requires HolderOk(h, q) && q.at.Ready?
    ensures MoveOk(q.at, StepBackend(h, q))
  {
    hide Finish;
    FinishMoves(h, q);
  }

  lemma BackendMoves(h: Host, q: Process)
    requires HolderOk(h, q) && Serving(q.at)
    ensures MoveOk(q.at, StepBackend(h, q))
  {
    hide StepBackend, HolderOk, MoveOk;
    if q.at.Halt? {
      BackendMovesHalt(h, q);
    } else if q.at.Replace? {
      BackendMovesReplace(h, q);
    } else if q.at.Launch? {
      BackendMovesLaunch(h, q);
    } else {
      BackendMovesReady(h, q);
    }
  }

  lemma EnsureMoves(h: Host, q: Process)
    requires HolderOk(h, q) && q.at.EnsureFind?
    ensures MoveOk(q.at, StepEnsure(h, q))
  {
  }

  lemma AdvanceMoves(h: Host, q: Process, f: Finding)
    requires HolderOk(h, q)
    ensures MoveOk(q.at, Advance(h, q, f))
  {
    hide HolderOk, MoveOk, LoadSettings, StepStart, StepRestart, StepTry, StepStop, StepSet, StepBoot, StepUpdater,
        StepBackend, StepEnsure;
    if q.at.Loading? {
      LoadMoves(h, q);
    } else if Starting(q.at) {
      StartMoves(h, q, f);
    } else if Restarting(q.at) {
      RestartMoves(h, q, f);
    } else if Trying(q.at) {
      TryMoves(h, q, f);
    } else if Stopping(q.at) {
      StopMoves(h, q, f);
    } else if Setting(q.at) {
      SetMoves(h, q, f);
    } else if Booting(q.at) {
      BootMoves(h, q, f);
    } else if Updating(q.at) {
      UpdaterMoves(h, q);
    } else if Serving(q.at) {
      BackendMoves(h, q);
    } else {
      assert q.at.EnsureFind? by { InsideOnly(h, q); }
      EnsureMoves(h, q);
    }
  }

  lemma InsideOnly(h: Host, q: Process)
    requires HolderOk(h, q)
    ensures Inside(q.at)
  {
  }

  lemma TakeLockKeeps(w: World, p: nat)
    requires Inv(w) && p in w.procs && w.procs[p].at.Acquire?
    ensures Inv(TakeLock(w, p))
  {
    HolderInside(w);
    LockHolder(w.host, w.procs[p]);
    hide HolderOk, Entry;
  }

  /** Who takes the lock begins with what is true then. */
  lemma LockHolder(h: Host, q: Process)
    requires Fits(q) && q.at.Acquire?
    ensures HolderOk(h, Locked(q, h))
    ensures Fits(q.(at := Done))
  {
  }

  lemma DisturbKeeps(w: World, o: Outside)
    requires Inv(w)
    ensures Inv(Step(w, Happens(o)))
  {
    if w.holder.Some? { DisturbHolder(w.host, w.procs[w.holder.value], o); }
    hide HolderOk, Disturb;
  }

  lemma DisturbHolder(h: Host, q: Process, o: Outside)
    requires HolderOk(h, q)
    ensures HolderOk(Disturb(h, o), Noticing(q, o))
  {
  }

  lemma BreakKeeps(w: World, p: nat, h: Host)
    requires Inv(w) && p in w.procs && Inside(w.procs[p].at)
    ensures Inv(Put(w, p, Goto(h, w.procs[p], Failed)))
  {
    hide Sees, Knows, Ensures, Reliable;
  }

  lemma GoKeeps(w: World, p: nat, f: Finding)
    requires Inv(w) && p in w.procs && !Gone(w.procs[p].at)
    ensures Inv(Step(w, Go(p, f)))
  {
    hide HolderOk, MoveOk, Advance, Fits, TakeLock, Put;
    if w.procs[p].at.Acquire? {
      TakeLockKeeps(w, p);
    } else {
      AdvanceMoves(w.host, w.procs[p], f);
      PutKeeps(w, p, Advance(w.host, w.procs[p], f));
    }
  }

  lemma OutsiderKeeps(w: World, p: nat, q: Process)
    requires Inv(w) && (p in w.procs ==> !Inside(w.procs[p].at)) && !Inside(q.at) && Fits(q)
    ensures Inv(w.(procs := w.procs[p := q]))
  {
    hide HolderOk, Fits;
    assert w.holder != Some(p) by { HolderInside(w); }
  }

  lemma HolderInside(w: World)
    requires Inv(w)
    ensures w.holder.Some? ==> w.holder.value in w.procs && Inside(w.procs[w.holder.value].at)
    ensures forall p :: p in w.procs && !Gone(w.procs[p].at) ==> Fits(w.procs[p].(at := Failed))
  {
    hide Sees, Knows, Ensures, Reliable;
  }

  lemma StepKeeps(w: World, l: Label)
    requires Inv(w)
    ensures Inv(Step(w, l))
  {
    hide Inv, Advance, TakeLock, Put, Disturb;
    HolderInside(w);
    match l
    case Begin(p, op) =>
      if p !in w.procs { OutsiderKeeps(w, p, Asked(op, w.host)); }
    case Go(p, f) =>
      if p in w.procs && !Gone(w.procs[p].at) { GoKeeps(w, p, f); }
    case Break(p) =>
      hide Fits;
      if p in w.procs && Inside(w.procs[p].at) {
        BreakKeeps(w, p, w.host);
      } else if p in w.procs && w.procs[p].at.Acquire? {
        OutsiderKeeps(w, p, w.procs[p].(at := Failed));
      }
    case SaveBreaks(p, left) =>
      if p in w.procs && Saving(w.procs[p].at) { BreakKeeps(w, p, w.host.(settings := left)); }
    case Happens(o) =>
      DisturbKeeps(w, o);
  }

  lemma {:induction false} RunKeeps(w: World, labels: seq<Label>)
    requires Fresh(w)
    ensures Inv(Run(w, labels))
  {
    if labels != [] {
      RunKeeps(w, Front(labels));
      hide Inv, Step;
      StepKeeps(Run(w, Front(labels)), Last(labels));
    }
  }
}
