/** What each lifecycle operation has brought about when it succeeds, whatever else happens around it: over every
    interleaving, stated about the host it found when it took the lock and the host it leaves. */
module DaemonOutcomes {
  import opened Common
  import opened DaemonModel
  import opened DaemonSafety
  import opened DaemonResults

  // --------------------------------------------------------------- results

  /** No backend was launched, and the one that was found runs unless it died. */
  predicate Untouched(h: Host, q: Process)
  {
    && h.launched == q.found.launched
    && (h.backend.None? || h.backend == q.found.backend)
    && (q.undisturbed ==> h.backend == q.found.backend)
  }

  /** One backend was launched, with the setting `b`, and it runs unless it died. */
  predicate Renewed(h: Host, q: Process, b: Option<bool>)
  {
    && h.launched == q.found.launched + 1
    && (h.backend.None? || h.backend == b)
    && (q.undisturbed ==> h.backend.Some?)
  }

  /** A restart is due: always, or when the server told a version that is not the managed one. */
  predicate Due(mode: RestartMode, told: Option<Finding>)
  {
    mode.Always? || (told.Some? && told.value.serverVersion != told.value.managedVersion)
  }

  /** A change to the setting `b` gets a backend right that it finds running: that has the setting, or the file does
      not say so already. */
  predicate Corrigible(found: Host, b: bool) { found.backend == Some(!b) ==> Load(found.settings) == Some(!b) }

  /** What an operation that has succeeded leaves behind. */
  predicate Achieved(h: Host, q: Process)
  {
    match q.op
    case Start =>
      && h.settings == q.found.settings && h.renewed == q.found.renewed
      && (Untouched(h, q) || (Renewed(h, q, Load(h.settings)) && (q.undisturbed ==> q.found.backend.None?)))
      && (q.undisturbed ==> h.backend.Some? || h.unmanaged)
    case Restart =>
      h.settings == q.found.settings && h.renewed == q.found.renewed && Renewed(h, q, Load(h.settings))
    case TryRestart(mode) =>
      && h.settings == q.found.settings && h.renewed == q.found.renewed
      && (Untouched(h, q) || (Renewed(h, q, Load(h.settings)) && Due(mode, q.told)))
      && (q.undisturbed ==> (h.launched == q.found.launched + 1 <==> q.found.backend.Some? && Due(mode, q.told)))
    case Stop =>
      && h.settings == q.found.settings && h.renewed == q.found.renewed
      && h.backend.None? && h.launched == q.found.launched
    case SetRemoteControl(b) =>
      && Load(h.settings) == Some(b) && h.renewed == q.found.renewed
      && (Untouched(h, q) || (Renewed(h, q, Some(b)) && q.found.backend.Some? && Load(q.found.settings) == Some(!b)))
      && (Corrigible(q.found, b) ==> h.backend != Some(!b))
      && (!Corrigible(q.found, b) && q.undisturbed ==> h.backend == Some(!b))
      && (q.undisturbed ==> (h.backend.Some? <==> q.found.backend.Some?))
    case Bootstrap(b) =>
      && Load(h.settings) == Some(b) && Renewed(h, q, Some(b))
      && h.renewed == q.found.renewed + 1 && (q.steady ==> h.updater)
    case EnsureRemoteControlStarted => Load(h.settings) == Some(true)
  }

  // ------------------------------------------------------------- invariant

  /** Points before any backend or updater has been started or stopped. */
  predicate Early(at: Point) { !at.Launch? && !Updating(at) && !at.Ready? }

  /** Points before the settings are saved. */
  predicate Unsaved(q: Process)
  {
    && !q.at.SetBinary? && !q.at.BootFind? && !q.at.Replace? && !Updating(q.at)
    && !((q.at.Launch? || q.at.Ready?) && (q.current.SetRemoteControl? || q.current.Bootstrap?))
  }

  /** What has been done to the backend so far. */
  predicate Backend(h: Host, q: Process)
  {
    && (Early(q.at) ==> Untouched(h, q))
    && (q.at.Launch? ==> h.launched == q.found.launched)
    && (q.at.Launch? || q.at.StartBinary? || q.at.StopProbe? || q.at.TryIdle? ==> h.backend.None?)
    && (Updating(q.at) ==> Renewed(h, q, Some(Target(q))))
    && h.renewed == q.found.renewed + if q.at.Ready? && q.current.Bootstrap? then 1 else 0
  }

  /** What a change of settings knows of the host it found. */
  predicate ChangeKnows(h: Host, q: Process)
  {
    && ((q.at.SetProbe? || q.at.SetSave?) && q.at.seen ==> q.found.backend.Some?)
    && ((q.at.SetProbe? || q.at.SetSave?) && !q.at.seen ==> (q.undisturbed ==> q.found.backend.None?))
    && (q.at.SetBinary? || (q.at.Replace? && !q.at.boot) || (q.at.Launch? && q.current.SetRemoteControl?) ==>
          q.found.backend.Some? && Load(q.found.settings) == Some(!Target(q)))
  }

  /** What a restart knows. */
  predicate Choice(q: Process)
  {
    && (q.at.StartBinary? || (q.at.Launch? && q.current.Start?) ==> (q.undisturbed ==> q.found.backend.None?))
    && ((q.at.Halt? || q.at.Launch?) && q.current.TryRestart? ==>
          Due(q.current.mode, q.told) && (q.undisturbed ==> q.found.backend.Some?))
    && (q.at.TryIdle? ==> (q.undisturbed ==> q.found.backend.None?))
    && (q.at.TryProbe? ==> q.found.backend.Some?)
  }

  /** What is left to wait for brings the result. */
  predicate Waiting(h: Host, q: Process)
  {
    q.at.Ready? ==> Achieved(h, q) && (q.op.Start? && q.undisturbed ==> h.backend.Some?)
  }

  predicate Progress(h: Host, q: Process)
  {
    if q.op.EnsureRemoteControlStarted? then q.current.Start? || q.at.Ready? ==> Load(h.settings) == Some(true)
    else
      && Backend(h, q) && ChangeKnows(h, q) && Choice(q) && Waiting(h, q)
      && (Unsaved(q) ==> h.settings == q.found.settings)
  }

  // ----------------------------------------------------------------- steps

  /** A step from `q` goes on, fails, or has achieved what the operation is for. */
  predicate Leads(m: Move)
  {
    m.1.at.Failed? || if m.1.at.Done? then Achieved(m.0, m.1) else Progress(m.0, m.1)
  }

  predicate Ok(h: Host, q: Process) { Inside(q.at) && Fits(q) && Sees(h, q) && Progress(h, q) }

  lemma LoadLeads(h: Host, q: Process)
    requires Ok(h, q) && q.at.Loading?
    ensures Leads(LoadSettings(h, q))
  {
  }

  lemma StartLeads(h: Host, q: Process, f: Finding)
    requires Ok(h, q) && Starting(q.at)
    ensures Leads(StepStart(h, q, f))
  {
  }

  lemma RestartLeads(h: Host, q: Process, f: Finding)
    requires Ok(h, q) && Restarting(q.at)
    ensures Leads(StepRestart(h, q, f))
  {
  }

  lemma TryLeads(h: Host, q: Process, f: Finding)
    requires Ok(h, q) && Trying(q.at)
    ensures Leads(StepTry(h, q, f))
  {
  }

  lemma StopLeads(h: Host, q: Process, f: Finding)
    requires Ok(h, q) && Stopping(q.at)
    ensures Leads(StepStop(h, q, f))
  {
  }

  lemma SetLeadsFind(h: Host, q: Process, f: Finding)
    requires Ok(h, q) && (q.at.SetFind? || q.at.SetBinary?)
    ensures Leads(StepSet(h, q, f))
  {
  }

  lemma SetLeadsProbe(h: Host, q: Process, f: Finding)
    requires Ok(h, q) && q.at.SetProbe?
    ensures Leads(StepSet(h, q, f))
  {
  }

  lemma SetLeadsSave(h: Host, q: Process, f: Finding)
    requires Ok(h, q) && q.at.SetSave?
    ensures Leads(StepSet(h, q, f))
  {
  }

  lemma SetLeads(h: Host, q: Process, f: Finding)
    requires Ok(h, q) && Setting(q.at)
    ensures Leads(StepSet(h, q, f))
  {
    hide Ok, Leads, StepSet;
    if q.at.SetProbe? {
      SetLeadsProbe(h, q, f);
    } else if q.at.SetSave? {
      SetLeadsSave(h, q, f);
    } else {
      SetLeadsFind(h, q, f);
    }
  }

  lemma BootLeadsEarly(h: Host, q: Process, f: Finding)
    requires Ok(h, q) && (q.at.BootBinary? || q.at.BootProbe? || q.at.BootCheck?)
    ensures Leads(StepBoot(h, q, f))
  {
  }

  lemma BootLeadsSave(h: Host, q: Process, f: Finding)
    requires Ok(h, q) && q.at.BootSave?
    ensures Leads(StepBoot(h, q, f))
  {
  }

  lemma BootLeadsFind(h: Host, q: Process, f: Finding)
    requires Ok(h, q) && q.at.BootFind?
    ensures Leads(StepBoot(h, q, f))
  {
  }

  lemma BootLeads(h: Host, q: Process, f: Finding)
    requires Ok(h, q) && Booting(q.at)
    ensures Leads(StepBoot(h, q, f))
  {
    hide Ok, Leads, StepBoot;
    if q.at.BootSave? {
      BootLeadsSave(h, q, f);
    } else if q.at.BootFind? {
      BootLeadsFind(h, q, f);
    } else {
      BootLeadsEarly(h, q, f);
    }
  }

  lemma UpdaterLeads(h: Host, q: Process)
    requires Ok(h, q) && Updating(q.at)
    ensures Leads(StepUpdater(h, q))
  {
  }

  lemma BackendLeadsStop(h: Host, q: Process)
    requires Ok(h, q) && (q.at.Halt? || q.at.Replace?)
    ensures Leads(StepBackend(h, q))
  {
  }

  lemma BackendLeadsLaunch(h: Host, q: Process)
    requires Ok(h, q) && q.at.Launch?
    ensures Leads(StepBackend(h, q))
  {
  }

  lemma BackendLeadsReady(h: Host, q: Process)
    requires Ok(h, q) && q.at.Ready?
    ensures Leads(StepBackend(h, q))
  {
  }

  lemma BackendLeads(h: Host, q: Process)
    requires Ok(h, q) && Serving(q.at)
    ensures Leads(StepBackend(h, q))
  {
    hide Ok, Leads, StepBackend;
    if q.at.Launch? {
      BackendLeadsLaunch(h, q);
    } else if q.at.Ready? {
      BackendLeadsReady(h, q);
    } else {
      BackendLeadsStop(h, q);
    }
  }

  lemma EnsureLeads(h: Host, q: Process)
    requires Ok(h, q) && q.at.EnsureFind?
    ensures Leads(StepEnsure(h, q))
  {
  }

  lemma AdvanceLeads(h: Host, q: Process, f: Finding)
    requires Ok(h, q)
    ensures Leads(Advance(h, q, f))
  {
    assert Inside(q.at);
    hide Ok, Leads, LoadSettings, StepStart, StepRestart, StepTry, StepStop, StepSet, StepBoot, StepUpdater,
        StepBackend, StepEnsure;
    if q.at.Loading? {
      LoadLeads(h, q);
    } else if Starting(q.at) {
      StartLeads(h, q, f);
    } else if Restarting(q.at) {
      RestartLeads(h, q, f);
    } else if Trying(q.at) {
      TryLeads(h, q, f);
    } else if Stopping(q.at) {
      StopLeads(h, q, f);
    } else if Setting(q.at) {
      SetLeads(h, q, f);
    } else if Booting(q.at) {
      BootLeads(h, q, f);
    } else if Updating(q.at) {
      UpdaterLeads(h, q);
    } else if Serving(q.at) {
      BackendLeads(h, q);
    } else {
      EnsureLeads(h, q);
    }
  }

  lemma LockLeads(h: Host, q: Process)
    requires Fits(q) && q.at.Acquire?
    ensures Progress(h, Locked(q, h))
  {
  }

  lemma NoticeLeads(h: Host, q: Process, o: Outside)
    requires Progress(h, q) && Inside(q.at)
    ensures Progress(Disturb(h, o), Noticing(q, o))
  {
  }

  // ------------------------------------------------------------------ runs

  /** The holder of the lock, if any, is on its way. */
  predicate OnItsWay(w: World)
  {
    w.holder.Some? ==> w.holder.value in w.procs && Progress(w.host, w.procs[w.holder.value])
  }

  lemma HolderOnItsWay(w: World, p: nat)
    requires Inv(w) && OnItsWay(w) && p in w.procs && Inside(w.procs[p].at)
    ensures w.holder == Some(p) && Ok(w.host, w.procs[p])
  {
    hide Fits, Sees, Knows, Ensures, Progress;
  }

  lemma StepOnItsWay(w: World, l: Label)
    requires Inv(w) && OnItsWay(w)
    ensures OnItsWay(Step(w, l))
  {
    HolderInside(w);
    if l.Go? && l.p in w.procs && Inside(w.procs[l.p].at) {
      HolderOnItsWay(w, l.p);
      AdvanceLeads(w.host, w.procs[l.p], l.found);
    } else if l.Go? && l.p in w.procs && w.procs[l.p].at.Acquire? {
      assert Fits(w.procs[l.p]);
      LockLeads(w.host, w.procs[l.p]);
    } else if l.Happens? && w.holder.Some? {
      NoticeLeads(w.host, w.procs[w.holder.value], l.outside);
    } else if (l.Break? || l.SaveBreaks?) && l.p in w.procs && Inside(w.procs[l.p].at) {
      HolderOnItsWay(w, l.p);
    }
    hide Inv, Ok, Progress, Advance, Disturb, Noticing, Locked, Achieved, Asked;
  }

  lemma {:induction false} RunOnItsWay(w: World, labels: seq<Label>)
    requires Fresh(w)
    ensures OnItsWay(Run(w, labels))
  {
    if labels != [] {
      RunOnItsWay(w, Front(labels));
      RunKeeps(w, Front(labels));
      hide Inv, Step, OnItsWay;
      StepOnItsWay(Run(w, Front(labels)), Last(labels));
    }
  }

  // --------------------------------------------------------- main results

  /** Over every interleaving: an operation that succeeds has achieved what it is for. */
  lemma SuccessAchieves(w: World, labels: seq<Label>, p: nat, f: Finding)
    requires Fresh(w)
    requires p in Run(w, labels).procs && Inside(Run(w, labels).procs[p].at)
    requires Step(Run(w, labels), Go(p, f)).procs[p].at.Done?
    ensures var v := Step(Run(w, labels), Go(p, f)); Achieved(v.host, v.procs[p])
  {
    var v := Run(w, labels);
    RunKeeps(w, labels);
    RunOnItsWay(w, labels);
    hide Run, Inv, OnItsWay;
    HolderOnItsWay(v, p);
    hide Advance, Ok, Achieved;
    AdvanceLeads(v.host, v.procs[p], f);
  }
}
