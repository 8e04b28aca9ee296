/** The daemon's guarantees over whole runs: mutual exclusion, agreement between settings and backend, what a
    successful request for remote control establishes, and that unmanaged servers are left alone.  `DaemonFailures`
    shows that their conditions are exact. */
module DaemonResults {
  import opened Common
  import opened DaemonModel
  import opened DaemonSafety

  // --------------------------------------------------------- main results

  /** No two operations are ever under way at once, whatever the interleaving, the failures and the crashes. */
  lemma MutualExclusion(w: World, labels: seq<Label>, p: nat, r: nat)
    requires Fresh(w)
    ensures var v := Run(w, labels);
      p in v.procs && r in v.procs && Inside(v.procs[p].at) && Inside(v.procs[r].at) ==> p == r
  {
    RunKeeps(w, labels);
  }

  /** The steps that end an operation after it saved the settings and before its backend is in place. */
  predicate Harmful(w: World, l: Label)
  {
    match l
    case Break(p) => p in w.procs && InWindow(w.procs[p].at)
    case Go(p, _) => p in w.procs && w.procs[p].at.SetBinary? && !w.host.binary
    case SaveBreaks(p, _) => p in w.procs && Saving(w.procs[p].at)
    case _ => false
  }

  predicate Unharmed(w: World, labels: seq<Label>)
  {
    labels == [] || (Unharmed(w, Front(labels)) && !Harmful(Run(w, Front(labels)), Last(labels)))
  }

  /** Consistent between operations, and every operation began that way. */
  predicate Settled(w: World)
  {
    && Inv(w)
    && (w.holder.None? ==> Consistent(w.host))
    && (w.holder.Some? ==> Consistent(w.procs[w.holder.value].found))
  }

  lemma SettledMoves(w: World, p: nat, f: Finding)
    requires Settled(w) && w.holder == Some(p) && !(w.procs[p].at.SetBinary? && !w.host.binary)
    ensures Settled(Put(w, p, Advance(w.host, w.procs[p], f)))
  {
    var q := w.procs[p];
    var m := Advance(w.host, q, f);
    AdvanceMoves(w.host, q, f);
    PutKeeps(w, p, m);
    if q.at.SetBinary? { BinaryPassed(w.host, q, f); }
    hide Advance, HolderOk, Fits, Inv;
  }

  lemma BinaryPassed(h: Host, q: Process, f: Finding)
    requires q.at.SetBinary? && h.binary
    ensures Inside(Advance(h, q, f).1.at)
  {
  }

  lemma SettledTakesLock(w: World, p: nat)
    requires Settled(w) && p in w.procs && w.procs[p].at.Acquire?
    ensures Settled(TakeLock(w, p))
  {
    TakeLockKeeps(w, p);
    HolderInside(w);
    hide HolderOk, Fits;
  }

  /** Ending an operation outside the window leaves a consistent host. */
  lemma SettledBreaks(w: World, p: nat)
    requires Settled(w) && w.holder == Some(p) && !InWindow(w.procs[p].at)
    ensures Settled(Put(w, p, Goto(w.host, w.procs[p], Failed)))
  {
    BreakKeeps(w, p, w.host);
    hide Fits, Ensures, OthersOutside;
  }

  lemma SettledDisturbed(w: World, o: Outside)
    requires Settled(w)
    ensures Settled(Step(w, Happens(o)))
  {
    DisturbKeeps(w, o);
    hide Inv, HolderOk;
  }

  lemma SettledStep(w: World, l: Label)
    requires Settled(w) && !Harmful(w, l)
    ensures Settled(Step(w, l))
  {
    StepKeeps(w, l);
    HolderInside(w);
    HolderIsInside(w);
    hide Inv, Settled, HolderOk, Advance, TakeLock, Put;
    match l
    case Begin(p, op) =>
      if p !in w.procs { SettledOutsider(w, p, Asked(op, w.host)); }
    case Go(p, f) =>
      if p in w.procs && !Gone(w.procs[p].at) {
        if w.procs[p].at.Acquire? { SettledTakesLock(w, p); } else { SettledMoves(w, p, f); }
      }
    case Break(p) =>
      if p in w.procs && Inside(w.procs[p].at) {
        SettledBreaks(w, p);
      } else if p in w.procs {
        SettledOutsider(w, p, w.procs[p].(at := Failed));
      }
    case SaveBreaks(p, left) =>
    case Happens(o) =>
      SettledDisturbed(w, o);
  }

  lemma HolderIsInside(w: World)
    requires Inv(w)
    ensures forall p :: p in w.procs && Inside(w.procs[p].at) ==> w.holder == Some(p)
  {
  }

  lemma SettledOutsider(w: World, p: nat, q: Process)
    requires Settled(w) && w.holder != Some(p)
    ensures Inv(w.(procs := w.procs[p := q])) ==> Settled(w.(procs := w.procs[p := q]))
  {
    hide Inv;
  }

  lemma {:induction false} SettledRun(w: World, labels: seq<Label>)
    requires Fresh(w) && Consistent(w.host) && Unharmed(w, labels)
    ensures Settled(Run(w, labels))
  {
    if labels != [] {
      SettledRun(w, Front(labels));
      hide Settled, Step, Harmful;
      SettledStep(Run(w, Front(labels)), Last(labels));
    }
  }

  /** Over every interleaving in which no operation ends half way through a change of settings, a running managed
      backend has the saved setting whenever no such change is in progress. */
  lemma BackendFollowsSettings(w: World, labels: seq<Label>)
    requires Fresh(w) && Consistent(w.host) && Unharmed(w, labels)
    ensures var v := Run(w, labels);
      && (v.holder.None? ==> Consistent(v.host))
      && (v.holder.Some? ==> v.holder.value in v.procs && (InWindow(v.procs[v.holder.value].at) || Consistent(v.host)))
  {
    hide Run, Fits, OthersOutside;
    SettledRun(w, labels);
  }

  /** Exactly when an operation that does end there leaves settings and backend in disagreement: the backend is still
      running, and was not by chance started with the setting a bootstrap asked for. */
  lemma HarmIsExact(w: World, labels: seq<Label>, l: Label)
    requires Fresh(w) && Consistent(w.host) && Unharmed(w, labels) && Harmful(Run(w, labels), l)
    ensures var v := Run(w, labels);
      Consistent(Step(v, l).host) <==>
        if l.SaveBreaks? then v.host.backend.None? || Load(l.left) == v.host.backend
        else v.host.backend.None? || v.procs[l.p].current == Bootstrap(v.host.backend.value)
  {
    SettledRun(w, labels);
    HolderIsInside(Run(w, labels));
    hide Run, OthersOutside, Ensures;
    HarmStep(Run(w, labels), l);
  }

  lemma HarmStep(v: World, l: Label)
    requires Settled(v) && Harmful(v, l) && v.holder == Some(l.p)
    ensures Consistent(Step(v, l).host) <==>
        if l.SaveBreaks? then v.host.backend.None? || Load(l.left) == v.host.backend
        else v.host.backend.None? || v.procs[l.p].current == Bootstrap(v.host.backend.value)
  {
    hide OthersOutside, Ensures, StepStart, StepRestart, StepTry, StepStop, StepBoot, StepUpdater, StepBackend,
        StepEnsure;
  }

  /** In a run, a request to have remote control running that found the host as `h` when it took the lock, and since
      then saw no server come or die, succeeds with its next step. */
  predicate Succeeds(h: Host, w: World, labels: seq<Label>, p: nat, f: Finding)
  {
    && Fresh(w)
    && var v := Run(w, labels);
       && p in v.procs && Inside(v.procs[p].at)
       && v.procs[p].op.EnsureRemoteControlStarted? && v.procs[p].undisturbed && v.procs[p].found == h
       && Step(v, Go(p, f)).procs[p].at.Done?
  }

  /** Whenever it succeeds from a host on which it can be relied on, a managed backend runs with remote control enabled,
      and so it is saved. */
  lemma RemoteControlIsStarted(h: Host, w: World, labels: seq<Label>, p: nat, f: Finding)
    requires Startable(h) && Succeeds(h, w, labels, p, f)
    ensures Started(Step(Run(w, labels), Go(p, f)).host)
  {
    var v := Run(w, labels);
    RunKeeps(w, labels);
    HolderIsInside(v);
    hide Advance, HolderOk, Run;
    AdvanceMoves(v.host, v.procs[p], f);
  }

  // ------------------------------------------------------- unmanaged servers

  /** Probes tell the truth and the unmanaged server stays; anything else may happen around it. */
  predicate Honest(l: Label) { (l.Go? ==> l.found.answers) && l != Happens(UnmanagedLeaves) }

  /** A point before any change. */
  predicate Reading(q: Process)
  {
    || q.at.Acquire? || q.at.Loading? || q.at.StartProbe? || q.at.RestartProbe? || q.at.RestartCheck? || q.at.TryFind?
    || q.at.TryIdle? || q.at.StopFind? || q.at.StopProbe? || q.at.SetFind? || (q.at.SetProbe? && !q.at.seen)
    || q.at.EnsureFind? || q.at.BootBinary? || q.at.BootProbe? || q.at.BootCheck? || Gone(q.at)
  }

  predicate OnlyUnmanaged(h: Host) { h.unmanaged && h.backend.None? }

  predicate AllReading(w: World) { forall p :: p in w.procs ==> Reading(w.procs[p]) }

  /** Nothing differs but what the surroundings alone can change: where the binary is, and an updater that died. */
  predicate LeftAlone(before: Host, after: Host, died: bool)
  {
    after == before.(binary := after.binary, updater := before.updater && !died)
  }

  lemma ReadingReads(h: Host, q: Process, f: Finding)
    requires OnlyUnmanaged(h) && Reading(q) && Inside(q.at) && f.answers
    ensures Advance(h, q, f).0 == h && Reading(Advance(h, q, f).1)
  {
  }

  lemma HonestStep(w: World, l: Label)
    requires OnlyUnmanaged(w.host) && AllReading(w) && Honest(l)
    ensures LeftAlone(w.host, Step(w, l).host, l == Happens(UpdaterDies)) && AllReading(Step(w, l))
  {
    hide Advance;
    if l.Go? {
      if l.p in w.procs && Inside(w.procs[l.p].at) { ReadingReads(w.host, w.procs[l.p], l.found); }
    }
  }

  /** While a server answers that nobody manages and no managed backend runs, no operation changes settings, backend or
      updater, in whatever order any number of them run, fail or crash. */
  lemma {:induction false} UnmanagedServersAreLeftAlone(w: World, labels: seq<Label>)
    requires OnlyUnmanaged(w.host) && AllReading(w)
    requires forall i :: 0 <= i < |labels| ==> Honest(labels[i])
    ensures LeftAlone(w.host, Run(w, labels).host, Happens(UpdaterDies) in labels) && AllReading(Run(w, labels))
  {
    if labels != [] {
      UnmanagedServersAreLeftAlone(w, Front(labels));
      hide Step, AllReading;
      assert labels == Front(labels) + [Last(labels)];
      HonestStep(Run(w, Front(labels)), Last(labels));
    }
  }
}
