/** What each lifecycle operation comes to when it has the host to itself, nothing fails and probes tell the truth: a
    table of results, and the proof that the operation, step by step, comes to exactly that. */
module DaemonAlone {
  import opened Common
  import opened DaemonModel
  import opened DaemonFailures

  // ------------------------------------------------------------ the table

  datatype Result = Result(ok: bool, host: Host)

  /** A server answers that nobody manages. */
  predicate Foreign(h: Host) { h.unmanaged && h.backend.None? }

  /** A backend is launched with a setting. */
  function With(h: Host, b: bool): Host { h.(backend := Some(b), launched := h.launched + 1) }

  function AloneStart(h: Host, b: bool): Result
  {
    if h.unmanaged || h.backend.Some? then Result(true, h)
    else if h.binary then Result(true, With(h, b))
    else Result(false, h)
  }

  function AloneSet(h: Host, was: bool, b: bool): Result
  {
    if Foreign(h) then Result(false, h)
    else if was == b then Result(true, h)
    else
      var saved := h.(settings := Saved(b));
      if h.backend.None? then Result(true, saved)
      else if h.binary then Result(true, With(saved, b))
      else Result(false, saved)
  }

  function AloneBootstrap(h: Host, b: bool): Result
  {
    if !h.binary || Foreign(h) then Result(false, h)
    else Result(true, With(h, b).(settings := Saved(b), updater := true, renewed := h.renewed + 1))
  }

  /** The result of an operation, with the versions that a server tells when it is asked. */
  function Alone(op: Op, h: Host, server: string, managed: string): Result
  {
    match (op, Load(h.settings))
    case (Bootstrap(b), _) => AloneBootstrap(h, b)
    case (_, None) => Result(false, h)
    case (Start, Some(b)) => AloneStart(h, b)
    case (Restart, Some(b)) => if Foreign(h) || !h.binary then Result(false, h) else Result(true, With(h, b))
    case (TryRestart(mode), Some(b)) =>
      if Foreign(h) then Result(false, h)
      else if h.backend.Some? && (mode.Always? || server != managed) then Result(true, With(h, b))
      else Result(true, h)
    case (Stop, Some(_)) => Result(!Foreign(h), h.(backend := None))
    case (SetRemoteControl(b), Some(was)) => AloneSet(h, was, b)
    case (EnsureRemoteControlStarted, Some(was)) =>
      if !h.updater then AloneBootstrap(h, true)
      else if AloneSet(h, was, true).ok then AloneStart(AloneSet(h, was, true).host, true)
      else AloneSet(h, was, true)
  }

  // ------------------------------------------------------------- own steps

  /** In `n` steps of its own the process ends with the result. */
  ghost predicate Ends(m: Move, f: Finding, r: Result, n: nat)
    decreases n
  {
    if n == 0 then Gone(m.1.at) && r == Result(m.1.at.Done?, m.0)
    else Inside(m.1.at) && Ends(Advance(m.0, m.1, f), f, r, n - 1)
  }

  ghost predicate Comes(m: Move, f: Finding, r: Result) { exists n: nat :: Ends(m, f, r, n) }

  /** Each point belongs to one stage of one operation. */
  lemma Dispatches(h: Host, q: Process, f: Finding)
    ensures Starting(q.at) ==> Advance(h, q, f) == StepStart(h, q, f)
    ensures Restarting(q.at) ==> Advance(h, q, f) == StepRestart(h, q, f)
    ensures Trying(q.at) ==> Advance(h, q, f) == StepTry(h, q, f)
    ensures Stopping(q.at) ==> Advance(h, q, f) == StepStop(h, q, f)
    ensures Setting(q.at) ==> Advance(h, q, f) == StepSet(h, q, f)
    ensures Booting(q.at) ==> Advance(h, q, f) == StepBoot(h, q, f)
    ensures Updating(q.at) ==> Advance(h, q, f) == StepUpdater(h, q)
    ensures Serving(q.at) ==> Advance(h, q, f) == StepBackend(h, q)
  {
    hide LoadSettings, StepStart, StepRestart, StepTry, StepStop, StepSet, StepBoot, StepUpdater, StepBackend,
        StepEnsure;
  }

  lemma OneStep(m: Move, f: Finding, r: Result)
    requires Inside(m.1.at) && Comes(Advance(m.0, m.1, f), f, r)
    ensures Comes(m, f, r)
  {
    hide Advance;
    var n: nat :| Ends(Advance(m.0, m.1, f), f, r, n);
    assert Ends(m, f, r, n + 1);
  }

  /** The operation is over, or the one that follows comes to the result. */
  ghost predicate Settles(h: Host, q: Process, f: Finding, r: Result)
  {
    if q.thenStart then Comes((h, q.(current := Start, thenStart := false, at := Loading)), f, r)
    else r == Result(true, h)
  }

  lemma Over(h: Host, q: Process, f: Finding, r: Result)
    requires Settles(h, q, f, r)
    ensures Comes(Finish(h, q), f, r)
  {
    if !q.thenStart { assert Ends(Finish(h, q), f, r, 0); }
  }

  lemma Fails(h: Host, q: Process, f: Finding)
    ensures Comes((h, q.(at := Failed)), f, Result(false, h))
  {
    assert Ends((h, q.(at := Failed)), f, Result(false, h), 0);
  }

  /** From a point that leads on without ending. */
  lemma Onward(h: Host, q: Process, at: Point, f: Finding, r: Result, m: Move)
    requires Inside(at) && Advance(h, q.(at := at), f) == m && Comes(m, f, r)
    ensures Comes((h, q.(at := at)), f, r)
  {
    hide Advance, Comes;
    OneStep((h, q.(at := at)), f, r);
  }

  lemma ReadyComes(h: Host, q: Process, f: Finding, r: Result)
    requires Settles(h, q, f, r)
    ensures Comes((h, q.(at := Ready)), f, r)
  {
    hide Comes, Settles;
    Over(h, q, f, r);
    Onward(h, q, Ready, f, r, Finish(h, q));
  }

  lemma LaunchComes(h: Host, q: Process, b: bool, f: Finding, r: Result)
    requires h.backend.None? && Settles(With(h, b), q, f, r)
    ensures Comes((h, q.(at := Launch(b, false))), f, r)
  {
    hide Comes, Settles, Advance;
    LaunchSteps(h, q, b, false, f);
    ReadyComes(With(h, b), q, f, r);
    Onward(h, q, Launch(b, false), f, r, (With(h, b), q.(at := Ready)));
  }

  lemma LaunchSteps(h: Host, q: Process, b: bool, boot: bool, f: Finding)
    requires h.backend.None?
    ensures Advance(h, q.(at := Launch(b, boot)), f) == (With(h, b), q.(at := if boot then UpdaterFind else Ready))
  {
    hide Advance;
    Dispatches(h, q.(at := Launch(b, boot)), f);
  }

  lemma HaltSteps(h: Host, q: Process, b: bool, boot: bool, f: Finding)
    ensures Advance(h, q.(at := Halt(b)), f) == (h.(backend := None), q.(at := Launch(b, false)))
    ensures Advance(h, q.(at := Replace(b, boot)), f) == (h.(backend := None), q.(at := Launch(b, boot)))
  {
    hide Advance;
    Dispatches(h, q.(at := Halt(b)), f);
    Dispatches(h, q.(at := Replace(b, boot)), f);
  }

  lemma CycleComes(h: Host, q: Process, b: bool, f: Finding, r: Result)
    requires Settles(With(h, b), q, f, r)
    ensures Comes((h, q.(at := Halt(b))), f, r) && Comes((h, q.(at := Replace(b, false))), f, r)
  {
    hide Comes, Settles, Advance, LoadSettings;
    HaltSteps(h, q, b, false, f);
    var stopped := h.(backend := None);
    LaunchComes(stopped, q, b, f, r);
    Onward(h, q, Halt(b), f, r, (stopped, q.(at := Launch(b, false))));
    Onward(h, q, Replace(b, false), f, r, (stopped, q.(at := Launch(b, false))));
  }

  lemma LoadComes(h: Host, q: Process, f: Finding, r: Result, m: Move)
    requires q.at.Loading? && LoadSettings(h, q) == m && Comes(m, f, r)
    ensures Comes((h, q), f, r)
  {
    hide Comes, LoadSettings;
    Onward(h, q, Loading, f, r, m);
  }

  // ------------------------------------------------------------ operations

  /** How an operation goes on from a result of the table. */
  ghost predicate Follows(x: Result, q: Process, f: Finding, r: Result)
  {
    if x.ok then Settles(x.host, q, f, r) else r == x
  }

  lemma LoadSteps(h: Host, q: Process, b: bool)
    requires Load(h.settings) == Some(b)
    ensures q.current.Start? ==> LoadSettings(h, q) == (h, q.(at := StartProbe(b)))
    ensures q.current.Restart? ==> LoadSettings(h, q) == (h, q.(at := RestartProbe(b)))
    ensures q.current.TryRestart? ==> LoadSettings(h, q) == (h, q.(at := TryFind(b)))
    ensures q.current.Stop? ==> LoadSettings(h, q) == (h, q.(at := StopFind))
    ensures q.current.SetRemoteControl? ==> LoadSettings(h, q) == (h, q.(at := SetFind(b)))
    ensures q.current.EnsureRemoteControlStarted? ==> LoadSettings(h, q) == (h, q.(at := EnsureFind))
  {
  }

  lemma StartSteps(h: Host, q: Process, b: bool, f: Finding)
    ensures Advance(h, q.(at := StartProbe(b)), f)
         == if Answers(h, f) then Finish(h, q) else (h, q.(at := StartFind(b)))
    ensures Advance(h, q.(at := StartFind(b)), f) == (h, q.(at := if h.backend.Some? then Ready else StartBinary(b)))
    ensures Advance(h, q.(at := StartBinary(b)), f) == (h, q.(at := if h.binary then Launch(b, false) else Failed))
  {
    hide Advance;
    Dispatches(h, q.(at := StartProbe(b)), f);
    Dispatches(h, q.(at := StartFind(b)), f);
    Dispatches(h, q.(at := StartBinary(b)), f);
  }

  lemma StartComes(h: Host, q: Process, b: bool, f: Finding, r: Result)
    requires q.current.Start? && q.at.Loading? && Load(h.settings) == Some(b) && f.answers
    requires Follows(AloneStart(h, b), q, f, r)
    ensures Comes((h, q), f, r)
  {
    hide Comes, Settles, Advance, LoadSettings;
    LoadSteps(h, q, b);
    StartSteps(h, q, b, f);
    if Answers(h, f) {
      Over(h, q, f, r);
      Onward(h, q, StartProbe(b), f, r, Finish(h, q));
    } else {
      if h.binary { LaunchComes(h, q, b, f, r); } else { Fails(h, q, f); }
      Onward(h, q, StartBinary(b), f, r, (h, q.(at := if h.binary then Launch(b, false) else Failed)));
      Onward(h, q, StartFind(b), f, r, (h, q.(at := StartBinary(b))));
      Onward(h, q, StartProbe(b), f, r, (h, q.(at := StartFind(b))));
    }
    LoadComes(h, q, f, r, (h, q.(at := StartProbe(b))));
  }

  lemma RestartSteps(h: Host, q: Process, b: bool, f: Finding)
    ensures Advance(h, q.(at := RestartProbe(b)), f)
         == (h, q.(at := if Answers(h, f) then RestartCheck(b) else RestartBinary(b)))
    ensures Advance(h, q.(at := RestartCheck(b)), f)
         == (h, q.(at := if h.backend.None? then Failed else RestartBinary(b)))
    ensures Advance(h, q.(at := RestartBinary(b)), f) == (h, q.(at := if h.binary then RestartFind(b) else Failed))
    ensures Advance(h, q.(at := RestartFind(b)), f)
         == (h, q.(at := if h.backend.Some? then Halt(b) else Launch(b, false)))
  {
    hide Advance;
    Dispatches(h, q.(at := RestartProbe(b)), f);
    Dispatches(h, q.(at := RestartCheck(b)), f);
    Dispatches(h, q.(at := RestartBinary(b)), f);
    Dispatches(h, q.(at := RestartFind(b)), f);
  }

  lemma RestartComes(h: Host, q: Process, b: bool, f: Finding, r: Result)
    requires q.current.Restart? && q.at.Loading? && Load(h.settings) == Some(b) && f.answers
    requires Follows(if Foreign(h) || !h.binary then Result(false, h) else Result(true, With(h, b)), q, f, r)
    ensures Comes((h, q), f, r)
  {
    hide Comes, Settles, Advance, LoadSettings;
    LoadSteps(h, q, b);
    RestartSteps(h, q, b, f);
    Fails(h, q, f);
    if h.binary && !Foreign(h) {
      if h.backend.Some? { CycleComes(h, q, b, f, r); } else { LaunchComes(h, q, b, f, r); }
      Onward(h, q, RestartFind(b), f, r, (h, q.(at := if h.backend.Some? then Halt(b) else Launch(b, false))));
    }
    if !Foreign(h) {
      Onward(h, q, RestartBinary(b), f, r, (h, q.(at := if h.binary then RestartFind(b) else Failed)));
    }
    if Answers(h, f) {
      Onward(h, q, RestartCheck(b), f, r, (h, q.(at := if h.backend.None? then Failed else RestartBinary(b))));
    }
    Onward(h, q, RestartProbe(b), f, r, (h, q.(at := if Answers(h, f) then RestartCheck(b) else RestartBinary(b))));
    LoadComes(h, q, f, r, (h, q.(at := RestartProbe(b))));
  }

  lemma TrySteps(h: Host, q: Process, mode: RestartMode, b: bool, f: Finding)
    requires q.current == TryRestart(mode) && f.answers
    ensures Advance(h, q.(at := TryFind(b)), f) == (h, q.(at := if h.backend.Some? then TryProbe(b) else TryIdle))
    ensures h.backend.Some? ==>
      var knowing := q.(told := Some(f));
      Advance(h, q.(at := TryProbe(b)), f)
        == if mode.Always? || f.serverVersion != f.managedVersion then (h, knowing.(at := Halt(b)))
           else Finish(h, knowing)
    ensures h.backend.None? ==>
      Advance(h, q.(at := TryIdle), f) == if h.unmanaged then (h, q.(at := Failed)) else Finish(h, q)
  {
    hide Advance;
    Dispatches(h, q.(at := TryFind(b)), f);
    Dispatches(h, q.(at := TryProbe(b)), f);
    Dispatches(h, q.(at := TryIdle), f);
  }

  lemma TryComes(h: Host, q: Process, mode: RestartMode, b: bool, f: Finding, r: Result)
    requires q.current == TryRestart(mode) && !q.thenStart && q.at.Loading? && Load(h.settings) == Some(b) && f.answers
    requires r == Alone(TryRestart(mode), h, f.serverVersion, f.managedVersion)
    ensures Comes((h, q), f, r)
  {
    hide Comes, Advance, LoadSettings;
    LoadSteps(h, q, b);
    TrySteps(h, q, mode, b, f);
    if h.backend.Some? {
      var knowing := q.(told := Some(f));
      var due := mode.Always? || f.serverVersion != f.managedVersion;
      if due { CycleComes(h, knowing, b, f, r); } else { Over(h, knowing, f, r); }
      Onward(h, q, TryProbe(b), f, r, if due then (h, knowing.(at := Halt(b))) else Finish(h, knowing));
      Onward(h, q, TryFind(b), f, r, (h, q.(at := TryProbe(b))));
    } else {
      if h.unmanaged { Fails(h, q, f); } else { Over(h, q, f, r); }
      Onward(h, q, TryIdle, f, r, if h.unmanaged then (h, q.(at := Failed)) else Finish(h, q));
      Onward(h, q, TryFind(b), f, r, (h, q.(at := TryIdle)));
    }
    LoadComes(h, q, f, r, (h, q.(at := TryFind(b))));
  }

  lemma StopSteps(h: Host, q: Process, f: Finding)
    requires f.answers
    ensures Advance(h, q.(at := StopFind), f) == (h, q.(at := if h.backend.Some? then StopHalt else StopProbe))
    ensures Advance(h, q.(at := StopHalt), f) == Finish(h.(backend := None), q)
    ensures h.backend.None? ==>
      Advance(h, q.(at := StopProbe), f) == if h.unmanaged then (h, q.(at := Failed)) else Finish(h, q)
  {
    hide Advance;
    Dispatches(h, q.(at := StopFind), f);
    Dispatches(h, q.(at := StopHalt), f);
    Dispatches(h, q.(at := StopProbe), f);
  }

  lemma StopComes(h: Host, q: Process, f: Finding, r: Result)
    requires q.current.Stop? && !q.thenStart && q.at.Loading? && Load(h.settings).Some? && f.answers
    requires r == Result(!Foreign(h), h.(backend := None))
    ensures Comes((h, q), f, r)
  {
    hide Comes, Advance, LoadSettings;
    LoadSteps(h, q, Load(h.settings).value);
    StopSteps(h, q, f);
    var stopped := h.(backend := None);
    if h.backend.Some? {
      Over(stopped, q, f, r);
      Onward(h, q, StopHalt, f, r, Finish(stopped, q));
      Onward(h, q, StopFind, f, r, (h, q.(at := StopHalt)));
    } else {
      if h.unmanaged { Fails(h, q, f); } else { Over(h, q, f, r); }
      Onward(h, q, StopProbe, f, r, if h.unmanaged then (h, q.(at := Failed)) else Finish(h, q));
      Onward(h, q, StopFind, f, r, (h, q.(at := StopProbe)));
    }
    LoadComes(h, q, f, r, (h, q.(at := StopFind)));
  }

  lemma ChangeSteps(h: Host, q: Process, b: bool, f: Finding)
    requires q.current == SetRemoteControl(b)
    ensures Advance(h, q.(at := SetBinary), f) == (h, q.(at := if h.binary then Replace(b, false) else Failed))
    ensures Advance(h, q.(at := SetSave(true)), f) == (h.(settings := Saved(b)), q.(at := SetBinary))
    ensures Advance(h, q.(at := SetSave(false)), f) == Finish(h.(settings := Saved(b)), q)
  {
    hide Advance;
    Dispatches(h, q.(at := SetBinary), f);
    Dispatches(h, q.(at := SetSave(true)), f);
    Dispatches(h, q.(at := SetSave(false)), f);
  }

  lemma SetSteps(h: Host, q: Process, was: bool, b: bool, f: Finding)
    requires q.current == SetRemoteControl(b) && f.answers
    ensures Advance(h, q.(at := SetFind(was)), f) == (h, q.(at := SetProbe(was, h.backend.Some?)))
    ensures Advance(h, q.(at := SetProbe(was, h.backend.Some?)), f)
         == if Foreign(h) then (h, q.(at := Failed))
            else if was != b then (h, q.(at := SetSave(h.backend.Some?)))
            else if h.backend.Some? then (h, q.(at := Ready))
            else Finish(h, q)
  {
    hide Advance;
    Dispatches(h, q.(at := SetFind(was)), f);
    Dispatches(h, q.(at := SetProbe(was, h.backend.Some?)), f);
  }

  lemma ChangeComes(h: Host, q: Process, b: bool, f: Finding, r: Result)
    requires q.current == SetRemoteControl(b) && Load(h.settings) == Some(!b)
    requires Follows(AloneSet(h, !b, b), q, f, r) && !Foreign(h)
    ensures Comes((h, q.(at := SetSave(h.backend.Some?))), f, r)
  {
    hide Comes, Settles, Advance, LoadSettings;
    ChangeSteps(h, q, b, f);
    ChangeSteps(h.(settings := Saved(b)), q, b, f);
    var saved := h.(settings := Saved(b));
    if h.backend.Some? {
      if h.binary { CycleComes(saved, q, b, f, r); } else { Fails(saved, q, f); }
      Onward(saved, q, SetBinary, f, r, (saved, q.(at := if h.binary then Replace(b, false) else Failed)));
      Onward(h, q, SetSave(true), f, r, (saved, q.(at := SetBinary)));
    } else {
      Over(saved, q, f, r);
      Onward(h, q, SetSave(false), f, r, Finish(saved, q));
    }
  }

  lemma SetComes(h: Host, q: Process, was: bool, b: bool, f: Finding, r: Result)
    requires q.current == SetRemoteControl(b) && q.at.Loading? && Load(h.settings) == Some(was) && f.answers
    requires Follows(AloneSet(h, was, b), q, f, r)
    ensures Comes((h, q), f, r)
  {
    hide Comes, Settles, Advance, LoadSettings;
    LoadSteps(h, q, was);
    SetSteps(h, q, was, b, f);
    var seen := h.backend.Some?;
    if Foreign(h) {
      Fails(h, q, f);
      Onward(h, q, SetProbe(was, seen), f, r, (h, q.(at := Failed)));
    } else if was != b {
      ChangeComes(h, q, b, f, r);
      Onward(h, q, SetProbe(was, seen), f, r, (h, q.(at := SetSave(seen))));
    } else if seen {
      ReadyComes(h, q, f, r);
      Onward(h, q, SetProbe(was, seen), f, r, (h, q.(at := Ready)));
    } else {
      Over(h, q, f, r);
      Onward(h, q, SetProbe(was, seen), f, r, Finish(h, q));
    }
    Onward(h, q, SetFind(was), f, r, (h, q.(at := SetProbe(was, seen))));
    LoadComes(h, q, f, r, (h, q.(at := SetFind(was))));
  }

  lemma RenewSteps(h: Host, q: Process, f: Finding)
    ensures Advance(h, q.(at := UpdaterFind), f) == (h, q.(at := if h.updater then UpdaterHalt else UpdaterLaunch))
    ensures Advance(h, q.(at := UpdaterHalt), f) == (h.(updater := false), q.(at := UpdaterLaunch))
  {
    hide Advance;
    Dispatches(h, q.(at := UpdaterFind), f);
    Dispatches(h, q.(at := UpdaterHalt), f);
  }

  lemma RenewedSteps(h: Host, q: Process, f: Finding)
    ensures Advance(h, q.(at := UpdaterLaunch), f)
         == (h.(updater := true, renewed := h.renewed + 1), q.(at := Ready))
  {
    hide Advance;
    Dispatches(h, q.(at := UpdaterLaunch), f);
  }

  /** The backend is in place: the updater is renewed. */
  lemma RenewComes(h: Host, q: Process, f: Finding, r: Result)
    requires !q.thenStart && r == Result(true, h.(updater := true, renewed := h.renewed + 1))
    ensures Comes((h, q.(at := UpdaterFind)), f, r)
  {
    hide Comes, Advance, LoadSettings;
    RenewSteps(h, q, f);
    RenewedSteps(h, q, f);
    RenewedSteps(h.(updater := false), q, f);
    ReadyComes(r.host, q, f, r);
    Onward(h, q, UpdaterLaunch, f, r, (r.host, q.(at := Ready)));
    if h.updater {
      var without := h.(updater := false);
      Onward(without, q, UpdaterLaunch, f, r, (r.host, q.(at := Ready)));
      Onward(h, q, UpdaterHalt, f, r, (without, q.(at := UpdaterLaunch)));
    }
    Onward(h, q, UpdaterFind, f, r, (h, q.(at := if h.updater then UpdaterHalt else UpdaterLaunch)));
  }

  lemma BootChecks(h: Host, q: Process, f: Finding)
    ensures Advance(h, q.(at := BootBinary), f) == (h, q.(at := if h.binary then BootProbe else Failed))
    ensures Advance(h, q.(at := BootProbe), f) == (h, q.(at := if Answers(h, f) then BootCheck else BootSave))
    ensures Advance(h, q.(at := BootCheck), f) == (h, q.(at := if h.backend.None? then Failed else BootSave))
  {
    hide Advance;
    Dispatches(h, q.(at := BootBinary), f);
    Dispatches(h, q.(at := BootProbe), f);
    Dispatches(h, q.(at := BootCheck), f);
  }

  lemma BootSteps(h: Host, q: Process, b: bool, f: Finding)
    requires q.current == Bootstrap(b)
    ensures Advance(h, q.(at := BootSave), f) == (h.(settings := Saved(b)), q.(at := BootFind))
    ensures Advance(h, q.(at := BootFind), f)
         == (h, q.(at := if h.backend.Some? then Replace(b, true) else Launch(b, true)))
  {
    hide Advance;
    Dispatches(h, q.(at := BootSave), f);
    Dispatches(h, q.(at := BootFind), f);
  }

  lemma ReplaceComes(h: Host, q: Process, b: bool, f: Finding, r: Result)
    requires q.current == Bootstrap(b) && !q.thenStart
    requires r == Result(true, With(h, b).(updater := true, renewed := h.renewed + 1))
    ensures Comes((h, q.(at := BootFind)), f, r)
  {
    hide Comes, Advance, LoadSettings;
    BootSteps(h, q, b, f);
    HaltSteps(h, q, b, true, f);
    LaunchSteps(h.(backend := None), q, b, true, f);
    var stopped := h.(backend := None);
    RenewComes(With(h, b), q, f, r);
    Onward(stopped, q, Launch(b, true), f, r, (With(h, b), q.(at := UpdaterFind)));
    if h.backend.Some? { Onward(h, q, Replace(b, true), f, r, (stopped, q.(at := Launch(b, true)))); }
    Onward(h, q, BootFind, f, r, (h, q.(at := if h.backend.Some? then Replace(b, true) else Launch(b, true))));
  }

  lemma BootComes(h: Host, q: Process, b: bool, f: Finding, r: Result)
    requires q.current == Bootstrap(b) && !q.thenStart && q.at.BootBinary? && f.answers && r == AloneBootstrap(h, b)
    ensures Comes((h, q), f, r)
  {
    hide Comes, Advance, LoadSettings;
    BootChecks(h, q, f);
    BootSteps(h, q, b, f);
    Fails(h, q, f);
    if h.binary {
      if !Foreign(h) {
        var saved := h.(settings := Saved(b));
        ReplaceComes(saved, q, b, f, r);
        Onward(h, q, BootSave, f, r, (saved, q.(at := BootFind)));
      }
      if Answers(h, f) {
        Onward(h, q, BootCheck, f, r, (h, q.(at := if h.backend.None? then Failed else BootSave)));
      }
      Onward(h, q, BootProbe, f, r, (h, q.(at := if Answers(h, f) then BootCheck else BootSave)));
    }
    Onward(h, q, BootBinary, f, r, (h, q.(at := if h.binary then BootProbe else Failed)));
  }

  lemma EnsureSteps(h: Host, q: Process, f: Finding)
    requires !q.thenStart
    ensures Advance(h, q.(at := EnsureFind), f)
         == (h, if h.updater then q.(current := SetRemoteControl(true), thenStart := true, at := Loading)
                else q.(current := Bootstrap(true), at := BootBinary))
  {
  }

  lemma EnsureComes(h: Host, q: Process, was: bool, f: Finding, r: Result)
    requires q.current.EnsureRemoteControlStarted? && !q.thenStart && q.at.Loading?
    requires Load(h.settings) == Some(was) && f.answers
    requires r == Alone(EnsureRemoteControlStarted, h, f.serverVersion, f.managedVersion)
    ensures Comes((h, q), f, r)
  {
    hide Comes, Advance, LoadSettings;
    LoadSteps(h, q, was);
    EnsureSteps(h, q, f);
    if h.updater {
      var setting, x := q.(current := SetRemoteControl(true), thenStart := true), AloneSet(h, was, true);
      if x.ok { StartComes(x.host, q.(current := Start), true, f, r); }
      SetComes(h, setting, was, true, f, r);
      Onward(h, q, EnsureFind, f, r, (h, setting));
    } else {
      var booting := q.(current := Bootstrap(true), at := BootBinary);
      BootComes(h, booting, true, f, r);
      Onward(h, q, EnsureFind, f, r, (h, booting));
    }
    LoadComes(h, q, f, r, (h, q.(at := EnsureFind)));
  }

  // --------------------------------------------------------- main results

  lemma OperationComes(op: Op, h: Host, f: Finding)
    requires f.answers
    ensures Comes((h, Locked(Asked(op, h), h)), f, Alone(op, h, f.serverVersion, f.managedVersion))
  {
    hide Comes, AloneStart, AloneSet, AloneBootstrap;
    var q, r := Locked(Asked(op, h), h), Alone(op, h, f.serverVersion, f.managedVersion);
    if op.Bootstrap? {
      BootComes(h, q, op.enabled, f, r);
    } else if Load(h.settings).None? {
      Fails(h, q, f);
      LoadComes(h, q, f, r, (h, q.(at := Failed)));
    } else {
      var b := Load(h.settings).value;
      match op
      case Start => StartComes(h, q, b, f, r);
      case Restart => RestartComes(h, q, b, f, r);
      case TryRestart(mode) => TryComes(h, q, mode, b, f, r);
      case Stop => StopComes(h, q, f, r);
      case SetRemoteControl(enabled) => SetComes(h, q, b, enabled, f, r);
      case EnsureRemoteControlStarted => EnsureComes(h, q, b, f, r);
    }
  }

  lemma {:induction false} EndsInRun(w: World, labels: seq<Label>, m: Move, f: Finding, r: Result, n: nat)
    returns (more: seq<Label>)
    requires Run(w, labels) == Solo(m.0, m.1) && Ends(m, f, r, n) && n > 0
    ensures |labels| < |more| && forall i :: 0 <= i < |more| ==>
      more[i] == if i < |labels| then labels[i] else Go(0, f)
    ensures var v := Run(w, more);
      v.host == r.host && v.holder.None? && 0 in v.procs && v.procs[0].at == if r.ok then Done else Failed
    decreases n
  {
    hide Run, Advance;
    more := labels + [Go(0, f)];
    RunMore(w, labels, Go(0, f));
    var next := Advance(m.0, m.1, f);
    if n > 1 {
      assert map[0 := m.1][0 := next.1] == map[0 := next.1];
      more := EndsInRun(w, more, next, f, r, n - 1);
    }
  }

  /** An operation that is asked for on a host of its own, and then only takes its own steps, comes to the result of the
      table. */
  lemma AloneIsTheTable(op: Op, h: Host, f: Finding) returns (labels: seq<Label>)
    requires f.answers
    ensures |labels| > 1 && labels[0] == Begin(0, op) && forall i :: 1 <= i < |labels| ==> labels[i] == Go(0, f)
    ensures var v, r := Run(World(h, None, map[]), labels), Alone(op, h, f.serverVersion, f.managedVersion);
      v.host == r.host && v.holder.None? && 0 in v.procs && v.procs[0].at == if r.ok then Done else Failed
  {
    hide Advance, Alone, Comes;
    var w, q, r := World(h, None, map[]), Asked(op, h), Alone(op, h, f.serverVersion, f.managedVersion);
    RunMore(w, [], Begin(0, op));
    RunMore(w, [Begin(0, op)], Go(0, f));
    labels := [Begin(0, op)] + [Go(0, f)];
    assert [] + [Begin(0, op)] == [Begin(0, op)];
    assert map[][0 := q] == map[0 := q] && map[0 := q][0 := Locked(q, h)] == map[0 := Locked(q, h)];
    assert Run(w, labels) == Solo(h, Locked(q, h));
    OperationComes(op, h, f);
    var n := StepsOf((h, Locked(q, h)), f, r);
    hide Run;
    labels := EndsInRun(w, labels, (h, Locked(q, h)), f, r, n);
  }

  lemma StepsOf(m: Move, f: Finding, r: Result) returns (n: nat)
    requires Comes(m, f, r) && !Gone(m.1.at)
    ensures n > 0 && Ends(m, f, r, n)
  {
    hide Advance;
    n :| Ends(m, f, r, n);
  }

  /** A change to a setting that the file has already is taken for done, whatever setting the running backend has: the
      operation succeeds and leaves everything as it was. */
  lemma SettingIsTaken(h: Host, b: bool, f: Finding) returns (labels: seq<Label>)
    requires h.backend == Some(!b) && Load(h.settings) == Some(b) && f.answers
    ensures var v := Run(World(h, None, map[]), labels);
      v.host == h && v.host.backend == Some(!b) && 0 in v.procs && v.procs[0].at.Done?
  {
    labels := AloneIsTheTable(SetRemoteControl(b), h, f);
    hide Run;
  }
}
