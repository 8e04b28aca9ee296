/** The daemon's lifecycle operations as processes that share one operation lock, a settings file, a managed
    backend and an updater.  Each process is at one program point of its operation and moves one effect at a time;
    the surroundings may kill the backend or the updater, and bring servers nobody manages, at any moment.
    `app-server-daemon/src/lib.rs` */
module DaemonModel {
  import opened Common

  datatype RestartMode = IfVersionChanged | Always

  datatype Op =
    | Start
    | Restart
    | TryRestart(mode: RestartMode)
    | Stop
    | SetRemoteControl(enabled: bool)
    | Bootstrap(enabled: bool)
    | EnsureRemoteControlStarted

  /** A file that is missing reads as remote control off. */
  datatype SettingsFile = Missing | Saved(enabled: bool) | Unreadable

  function Load(f: SettingsFile): Option<bool>
  {
    match f
    case Missing => Some(false)
    case Saved(enabled) => Some(enabled)
    case Unreadable => None
  }

  /** Where a process is.  A flag is the setting the operation works with; `boot` says that the updater is to be
      renewed afterwards. */
  datatype Point =
    | Acquire
    | Loading
    | StartProbe(flag: bool) | StartFind(flag: bool) | StartBinary(flag: bool)
    | RestartProbe(flag: bool) | RestartCheck(flag: bool) | RestartBinary(flag: bool) | RestartFind(flag: bool)
    | TryFind(flag: bool) | TryProbe(flag: bool) | TryIdle
    | StopFind | StopHalt | StopProbe
    | SetFind(flag: bool) | SetProbe(flag: bool, seen: bool) | SetSave(seen: bool) | SetBinary
    | EnsureFind
    | BootBinary | BootProbe | BootCheck | BootSave | BootFind
    | Halt(flag: bool)                 // stop the backend to start it again with the setting it had
    | Replace(flag: bool, boot: bool)  // stop the backend to start it with the setting just saved
    | Launch(flag: bool, boot: bool)
    | UpdaterFind | UpdaterHalt | UpdaterLaunch
    | Ready                            // waiting for the socket to answer
    | Done
    | Failed

  /** A process: the operation asked for, the one being carried out, and whether a start is to follow.  For statements
      about it: the host as it was when the lock was taken, whether since then no server has come and the backend has
      not died, whether the updater has not died, and what a server told that was asked for its version. */
  datatype Process = Process(op: Op, current: Op, thenStart: bool, at: Point, found: Host, undisturbed: bool,
                             steady: bool, told: Option<Finding>)

  /** What the operations work on, and how many backends and updaters have been launched so far: the one that runs is
      the last that was launched. */
  datatype Host = Host(settings: SettingsFile, backend: Option<bool>, updater: bool, unmanaged: bool, binary: bool,
                       launched: nat, renewed: nat)

  function Asked(op: Op, h: Host): Process { Process(op, op, false, Acquire, h, true, true, None) }

  datatype World = World(host: Host, holder: Option<nat>, procs: map<nat, Process>)

  /** A running managed backend has the setting that is saved. */
  predicate Consistent(h: Host) { h.backend.Some? ==> Load(h.settings) == h.backend }

  /** Where a request to have remote control running can be relied on.  On a host that was not bootstrapped everything
      is set up anew.  Otherwise the request believes the saved setting about a running backend, and a socket that
      answers about a missing one. */
  predicate Startable(h: Host)
  {
    || !h.updater || Load(h.settings).None?
    || (if h.backend.Some? then h.backend == Some(true) || Load(h.settings) == Some(false) else !h.unmanaged)
  }

  /** What the request is for. */
  predicate Started(h: Host) { h.backend == Some(true) && Load(h.settings) == Some(true) }

  /** What a step finds out about the outside: whether the socket answers, and the two versions. */
  datatype Finding = Finding(answers: bool, serverVersion: string, managedVersion: string)

  /** A probe can only be answered by a server. */
  predicate Answers(h: Host, f: Finding) { f.answers && (h.backend.Some? || h.unmanaged) }

  datatype Decision = NotReady | AlreadyCurrent | DoRestart

  function RestartDecision(mode: RestartMode, server: Option<string>, managed: Option<string>): Decision
  {
    match (mode, server, managed)
    case (IfVersionChanged, None, _) => NotReady
    case (IfVersionChanged, Some(s), Some(m)) => if s == m then AlreadyCurrent else DoRestart
    case _ => DoRestart
  }

  // ----------------------------------------------------------------- steps

  /** The host and the process after a step. */
  type Move = (Host, Process)

  /** A step changes neither the operation asked for nor what was recorded when the lock was taken. */
  predicate Remembers(q: Process, m: Move)
  {
    m.1.op == q.op && m.1.found == q.found && m.1.undisturbed == q.undisturbed && m.1.steady == q.steady
  }

  function Goto(h: Host, q: Process, at: Point): Move { (h, q.(at := at)) }

  function Entry(op: Op): Point { if op.Bootstrap? then BootBinary else Loading }

  /** The current operation has succeeded: go on with the next one, or end. */
  function Finish(h: Host, q: Process): (m: Move)
    ensures Remembers(q, m)
  {
    if q.thenStart then (h, q.(current := Start, thenStart := false, at := Loading)) else Goto(h, q, Done)
  }

  function LoadSettings(h: Host, q: Process): (m: Move)
    ensures Remembers(q, m)
  {
    match Load(h.settings)
    case None => Goto(h, q, Failed)
    case Some(flag) =>
      Goto(h, q, match q.current
                 case Start => StartProbe(flag)
                 case Restart => RestartProbe(flag)
                 case TryRestart(_) => TryFind(flag)
                 case Stop => StopFind
                 case SetRemoteControl(_) => SetFind(flag)
                 case EnsureRemoteControlStarted => EnsureFind
                 case Bootstrap(_) => BootBinary)
  }

  function StepStart(h: Host, q: Process, f: Finding): (m: Move)
    ensures Remembers(q, m)
  {
    match q.at
    case StartProbe(flag) => if Answers(h, f) then Finish(h, q) else Goto(h, q, StartFind(flag))
    case StartFind(flag) => Goto(h, q, if h.backend.Some? then Ready else StartBinary(flag))
    case StartBinary(flag) => Goto(h, q, if h.binary then Launch(flag, false) else Failed)
    case _ => (h, q)
  }

  function StepRestart(h: Host, q: Process, f: Finding): (m: Move)
    ensures Remembers(q, m)
  {
    match q.at
    case RestartProbe(flag) => Goto(h, q, if Answers(h, f) then RestartCheck(flag) else RestartBinary(flag))
    case RestartCheck(flag) => Goto(h, q, if h.backend.None? then Failed else RestartBinary(flag))
    case RestartBinary(flag) => Goto(h, q, if h.binary then RestartFind(flag) else Failed)
    case RestartFind(flag) => Goto(h, q, if h.backend.Some? then Halt(flag) else Launch(flag, false))
    case _ => (h, q)
  }

  function StepTry(h: Host, q: Process, f: Finding): (m: Move)
    ensures Remembers(q, m)
  {
    match q.at
    case TryFind(flag) => Goto(h, q, if h.backend.Some? then TryProbe(flag) else TryIdle)
    case TryProbe(flag) =>
      var server := if Answers(h, f) then Some(f.serverVersion) else None;
      var managed := if Answers(h, f) then Some(f.managedVersion) else None;
      var mode := if q.current.TryRestart? then q.current.mode else Always;
      var knowing := q.(told := if Answers(h, f) then Some(f) else None);
      if RestartDecision(mode, server, managed).DoRestart? then Goto(h, knowing, Halt(flag)) else Finish(h, knowing)
    case TryIdle => if Answers(h, f) then Goto(h, q, Failed) else Finish(h, q)
    case _ => (h, q)
  }

  function StepStop(h: Host, q: Process, f: Finding): (m: Move)
    ensures Remembers(q, m)
  {
    match q.at
    case StopFind => Goto(h, q, if h.backend.Some? then StopHalt else StopProbe)
    case StopHalt => Finish(h.(backend := None), q)
    case StopProbe => if Answers(h, f) then Goto(h, q, Failed) else Finish(h, q)
    case _ => (h, q)
  }

  /** The setting an operation is to establish. */
  function Target(q: Process): bool
  {
    if q.current.SetRemoteControl? || q.current.Bootstrap? then q.current.enabled else false
  }

  function StepSet(h: Host, q: Process, f: Finding): (m: Move)
    ensures Remembers(q, m)
  {
    match q.at
    case SetFind(flag) => Goto(h, q, SetProbe(flag, h.backend.Some?))
    case SetProbe(flag, seen) =>
      if !seen && Answers(h, f) then Goto(h, q, Failed)
      else if flag == Target(q) then (if seen then Goto(h, q, Ready) else Finish(h, q))
      else Goto(h, q, SetSave(seen))
    case SetSave(seen) =>
      var saved := h.(settings := Saved(Target(q)));
      if seen then Goto(saved, q, SetBinary) else Finish(saved, q)
    case SetBinary => Goto(h, q, if h.binary then Replace(Target(q), false) else Failed)
    case _ => (h, q)
  }

  function StepBoot(h: Host, q: Process, f: Finding): (m: Move)
    ensures Remembers(q, m)
  {
    match q.at
    case BootBinary => Goto(h, q, if h.binary then BootProbe else Failed)
    case BootProbe => Goto(h, q, if Answers(h, f) then BootCheck else BootSave)
    case BootCheck => Goto(h, q, if h.backend.None? then Failed else BootSave)
    case BootSave => Goto(h.(settings := Saved(Target(q))), q, BootFind)
    case BootFind => Goto(h, q, if h.backend.Some? then Replace(Target(q), true) else Launch(Target(q), true))
    case _ => (h, q)
  }

  function StepUpdater(h: Host, q: Process): (m: Move)
    ensures Remembers(q, m)
  {
    match q.at
    case UpdaterFind => Goto(h, q, if h.updater then UpdaterHalt else UpdaterLaunch)
    case UpdaterHalt => Goto(h.(updater := false), q, UpdaterLaunch)
    case UpdaterLaunch => Goto(h.(updater := true, renewed := h.renewed + 1), q, Ready)
    case _ => (h, q)
  }

  function StepEnsure(h: Host, q: Process): (m: Move)
    ensures Remembers(q, m)
  {
    (h, if h.updater then q.(current := SetRemoteControl(true), thenStart := true, at := Loading)
        else q.(current := Bootstrap(true), thenStart := false, at := BootBinary))
  }

  /** Starting a backend that is already there changes nothing. */
  function StepBackend(h: Host, q: Process): (m: Move)
    ensures Remembers(q, m)
  {
    match q.at
    case Halt(flag) => Goto(h.(backend := None), q, Launch(flag, false))
    case Replace(flag, boot) => Goto(h.(backend := None), q, Launch(flag, boot))
    case Launch(flag, boot) =>
      Goto(if h.backend.Some? then h else h.(backend := Some(flag), launched := h.launched + 1), q,
           if boot then UpdaterFind else Ready)
    case Ready => Finish(h, q)
    case _ => (h, q)
  }

  predicate Gone(at: Point) { at.Done? || at.Failed? }

  predicate Inside(at: Point) { !at.Acquire? && !Gone(at) }

  predicate Starting(at: Point) { at.StartProbe? || at.StartFind? || at.StartBinary? }
  predicate Restarting(at: Point) { at.RestartProbe? || at.RestartCheck? || at.RestartBinary? || at.RestartFind? }
  predicate Trying(at: Point) { at.TryFind? || at.TryProbe? || at.TryIdle? }
  predicate Stopping(at: Point) { at.StopFind? || at.StopHalt? || at.StopProbe? }
  predicate Setting(at: Point) { at.SetFind? || at.SetProbe? || at.SetSave? || at.SetBinary? }
  predicate Booting(at: Point) { at.BootBinary? || at.BootProbe? || at.BootCheck? || at.BootSave? || at.BootFind? }
  predicate Updating(at: Point) { at.UpdaterFind? || at.UpdaterHalt? || at.UpdaterLaunch? }
  predicate Serving(at: Point) { at.Halt? || at.Replace? || at.Launch? || at.Ready? }

  /** What the holder of the lock does next. */
  function Advance(h: Host, q: Process, f: Finding): (m: Move)
    ensures Remembers(q, m)
  {
    if q.at.Loading? then LoadSettings(h, q)
    else if Starting(q.at) then StepStart(h, q, f)
    else if Restarting(q.at) then StepRestart(h, q, f)
    else if Trying(q.at) then StepTry(h, q, f)
    else if Stopping(q.at) then StepStop(h, q, f)
    else if Setting(q.at) then StepSet(h, q, f)
    else if Booting(q.at) then StepBoot(h, q, f)
    else if Updating(q.at) then StepUpdater(h, q)
    else if Serving(q.at) then StepBackend(h, q)
    else StepEnsure(h, q)
  }

  /** A process moves; when its operation ends the lock goes with it. */
  function Put(w: World, p: nat, m: Move): World
  {
    World(m.0, if Gone(m.1.at) then None else w.holder, w.procs[p := m.1])
  }

  /** A process that gets the lock. */
  function Locked(q: Process, h: Host): Process
  {
    q.(at := Entry(q.current), found := h, undisturbed := true, steady := true)
  }

  function TakeLock(w: World, p: nat): World
    requires p in w.procs
  {
    var q := w.procs[p];
    if w.holder.None? then
      w.(holder := Some(p),
         procs := w.procs[p := Locked(q, w.host)])
    else if q.op.TryRestart? then w.(procs := w.procs[p := q.(at := Done)])   // busy
    else w
  }

  datatype Outside = BackendDies | UpdaterDies | UnmanagedArrives | UnmanagedLeaves | BinaryMoves(present: bool)

  function Disturb(h: Host, o: Outside): Host
  {
    match o
    case BackendDies => h.(backend := None)
    case UpdaterDies => h.(updater := false)
    case UnmanagedArrives => h.(unmanaged := true)
    case UnmanagedLeaves => h.(unmanaged := false)
    case BinaryMoves(present) => h.(binary := present)
  }

  /** A server that comes or dies disturbs the operation under way, and so does the updater's death for an operation
      that is about it; the rest of the surroundings does not. */
  function Noticing(q: Process, o: Outside): Process
  {
    q.(undisturbed := q.undisturbed && !o.BackendDies? && !o.UnmanagedArrives?,
       steady := q.steady && !o.UpdaterDies?)
  }

  function Notice(w: World, o: Outside): map<nat, Process>
  {
    if w.holder.Some? && w.holder.value in w.procs
    then w.procs[w.holder.value := Noticing(w.procs[w.holder.value], o)] else w.procs
  }

  datatype Label =
    | Begin(p: nat, op: Op)                     // a command line starts an operation
    | Go(p: nat, found: Finding)                // a process succeeds in its next step
    | Break(p: nat)                             // a process ends in an error or a crash
    | SaveBreaks(p: nat, left: SettingsFile)    // saving the settings fails half way
    | Happens(outside: Outside)

  predicate Saving(at: Point) { at.SetSave? || at.BootSave? }

  /** One step; a label that is not possible leaves the world as it is. */
  function Step(w: World, l: Label): World
  {
    match l
    case Begin(p, op) =>
      if p in w.procs then w else w.(procs := w.procs[p := Asked(op, w.host)])
    case Go(p, f) =>
      if p !in w.procs || Gone(w.procs[p].at) then w
      else if w.procs[p].at.Acquire? then TakeLock(w, p)
      else Put(w, p, Advance(w.host, w.procs[p], f))
    case Break(p) =>
      if p !in w.procs || Gone(w.procs[p].at) then w
      else if w.procs[p].at.Acquire? then w.(procs := w.procs[p := w.procs[p].(at := Failed)])
      else Put(w, p, Goto(w.host, w.procs[p], Failed))
    case SaveBreaks(p, left) =>
      if p !in w.procs || !Saving(w.procs[p].at) then w
      else Put(w, p, Goto(w.host.(settings := left), w.procs[p], Failed))
    case Happens(o) => World(Disturb(w.host, o), w.holder, Notice(w, o))
  }

  function Run(w: World, labels: seq<Label>): World
  {
    if labels == [] then w else Step(Run(w, Front(labels)), Last(labels))
  }
}
