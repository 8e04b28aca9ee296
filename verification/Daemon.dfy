/** The lifecycle operations as the daemon carries them out: straight through, one await after the other, changing the
    settings file, the backend, the updater and the lock in place, while at each await others may act.  Which point of
    the model an operation has reached, and the log of what happened, are ghost: the code cannot look at them, and is
    proved to be at the model's run of its log at every await. */
module Daemon {
  import opened Common
  import opened DaemonModel
  import opened DaemonSafety
  import opened DaemonResults
  import opened DaemonOutcomes

  /** What others do during an await: an operation is asked for, a waiting one loses patience or finds the lock taken,
      or the surroundings change. */
  datatype Other = Asks(op: Op) | LosesPatience(p: nat) | FindsLock(p: nat) | Changes(outside: Outside)

  /** How an await of the operation that holds the lock turns out: what others do meanwhile, what it finds, or that it
      fails, leaving a file that was being saved in some state. */
  datatype Await = Await(meanwhile: seq<Other>, found: Finding, fails: bool, left: Option<SettingsFile>)

  // ------------------------------------------------------------ auxiliary

  /** How far a process is, and the host it found. */
  datatype Place = Place(op: Op, current: Op, thenStart: bool, at: Point, found: Host)

  function PlaceOf(q: Process): Place { Place(q.op, q.current, q.thenStart, q.at, q.found) }

  /** Those waiting for the lock are known, and ids are not used twice. */
  predicate WaitersKnown(procs: map<nat, Process>, waiting: map<nat, Op>, nextId: nat)
  {
    && (forall p :: p in waiting ==> p in procs && procs[p].at.Acquire? && procs[p].op == waiting[p])
    && (forall p :: p in procs ==> p < nextId)
  }

  lemma WaitersArrive(w: World, waiting: map<nat, Op>, nextId: nat, op: Op)
    requires WaitersKnown(w.procs, waiting, nextId)
    ensures var v := Step(w, Begin(nextId, op));
      && v == w.(procs := v.procs) && WaitersKnown(v.procs, waiting[nextId := op], nextId + 1)
      && forall p :: p in w.procs ==> p in v.procs && v.procs[p] == w.procs[p]
  {
  }

  /** A waiting operation ends: its patience is over, or it finds the lock taken and does not wait. */
  lemma WaiterEnds(w: World, waiting: map<nat, Op>, nextId: nat, p: nat, l: Label)
    requires WaitersKnown(w.procs, waiting, nextId) && p in waiting
    requires l.Break? || (l.Go? && w.holder.Some? && waiting[p].TryRestart?)
    requires l.p == p
    ensures var v := Step(w, l);
      && v == w.(procs := v.procs) && WaitersKnown(v.procs, waiting - {p}, nextId)
      && forall r :: r in w.procs && r != p ==> r in v.procs && v.procs[r] == w.procs[r]
  {
    hide Advance, Put;
  }

  lemma WaitersNotice(w: World, waiting: map<nat, Op>, nextId: nat, o: Outside)
    requires WaitersKnown(w.procs, waiting, nextId)
    ensures var v := Step(w, Happens(o));
      && v.host == Disturb(w.host, o) && v.holder == w.holder && WaitersKnown(v.procs, waiting, nextId)
      && forall p :: p in w.procs ==> p in v.procs && PlaceOf(v.procs[p]) == PlaceOf(w.procs[p])
  {
    hide Disturb;
  }

  lemma WaitersKeep(procs: map<nat, Process>, waiting: map<nat, Op>, nextId: nat, p: nat, q: Process)
    requires WaitersKnown(procs, waiting, nextId) && p in procs && p !in waiting
    ensures WaitersKnown(procs[p := q], waiting, nextId)
  {
  }

  lemma HolderDoesNotWait(w: World, waiting: map<nat, Op>, nextId: nat, p: nat)
    requires WaitersKnown(w.procs, waiting, nextId) && p in w.procs && Inside(w.procs[p].at)
    ensures p !in waiting
  {
  }

  lemma LogMore(origin: World, log: seq<Label>, l: Label)
    ensures Run(origin, log + [l]) == Step(Run(origin, log), l)
  {
    assert Front(log + [l]) == log && Last(log + [l]) == l;
  }

  /** A step of the operation that holds the lock, as one more entry of the log. */
  lemma StepRecorded(origin: World, log: seq<Label>, p: nat, l: Label, waiting: map<nat, Op>, nextId: nat)
    requires var w := Run(origin, log);
      && Fresh(origin) && w.holder == Some(p) && p in w.procs && Inside(w.procs[p].at)
      && WaitersKnown(w.procs, waiting, nextId)
    requires (l.Go? || l.Break? || l.SaveBreaks?) && l.p == p
    ensures var v := Step(Run(origin, log), l);
      && v == Run(origin, log + [l]) && p in v.procs && WaitersKnown(v.procs, waiting, nextId)
      && (v.procs[p].at.Done? && Reliable(v.procs[p]) ==> Started(v.host))
      && (v.procs[p].at.Done? ==> Achieved(v.host, v.procs[p]))
      && (v.holder.Some? ==> v.holder == Some(p))
  {
    var w, v := Run(origin, log), Step(Run(origin, log), l);
    hide Run, Advance, WaitersKnown, Started, Startable, Achieved;
    if v.procs[p].at.Done? {
      SuccessAchieves(origin, log, p, l.found);
      if Reliable(v.procs[p]) { RemoteControlIsStarted(w.procs[p].found, origin, log, p, l.found); }
    }
    LogMore(origin, log, l);
    HolderDoesNotWait(w, waiting, nextId, p);
    WaitersKeep(w.procs, waiting, nextId, p, v.procs[p]);
  }

  // ---------------------------------------------- questions and answers

  /** What an await at a point is to find out, if it changes nothing. */
  datatype Question = SocketAnswers | BackendRuns | BinaryPresent | UpdaterRuns | RestartDue | FileReads | Nothing

  function QuestionAt(at: Point): Question
  {
    match at
    case StartProbe(_) => SocketAnswers
    case RestartProbe(_) => SocketAnswers
    case TryIdle => SocketAnswers
    case StopProbe => SocketAnswers
    case SetProbe(_, _) => SocketAnswers
    case BootProbe => SocketAnswers
    case Ready => Nothing
    case StartFind(_) => BackendRuns
    case RestartCheck(_) => BackendRuns
    case RestartFind(_) => BackendRuns
    case TryFind(_) => BackendRuns
    case StopFind => BackendRuns
    case SetFind(_) => BackendRuns
    case BootCheck => BackendRuns
    case BootFind => BackendRuns
    case StartBinary(_) => BinaryPresent
    case RestartBinary(_) => BinaryPresent
    case SetBinary => BinaryPresent
    case BootBinary => BinaryPresent
    case UpdaterFind => UpdaterRuns
    case EnsureFind => UpdaterRuns
    case TryProbe(_) => RestartDue
    case _ => FileReads
  }

  /** Where the answer to its question leads an operation. */
  function After(l: Place, yes: bool): Place
  {
    match l.at
    case StartProbe(flag) => if yes then Over(l) else l.(at := StartFind(flag))
    case RestartProbe(flag) => l.(at := if yes then RestartCheck(flag) else RestartBinary(flag))
    case TryIdle => if yes then l.(at := Failed) else Over(l)
    case StopProbe => if yes then l.(at := Failed) else Over(l)
    case SetProbe(flag, seen) =>
      if !seen && yes then l.(at := Failed)
      else if flag != Goal(l) then l.(at := SetSave(seen))
      else if seen then l.(at := Ready)
      else Over(l)
    case BootProbe => l.(at := if yes then BootCheck else BootSave)
    case Ready => Over(l)
    case StartFind(flag) => l.(at := if yes then Ready else StartBinary(flag))
    case RestartCheck(flag) => l.(at := if yes then RestartBinary(flag) else Failed)
    case RestartFind(flag) => l.(at := if yes then Halt(flag) else Launch(flag, false))
    case TryFind(flag) => l.(at := if yes then TryProbe(flag) else TryIdle)
    case StopFind => l.(at := if yes then StopHalt else StopProbe)
    case SetFind(flag) => l.(at := SetProbe(flag, yes))
    case BootCheck => l.(at := if yes then BootSave else Failed)
    case BootFind => l.(at := if yes then Replace(Goal(l), true) else Launch(Goal(l), true))
    case StartBinary(flag) => l.(at := if yes then Launch(flag, false) else Failed)
    case RestartBinary(flag) => l.(at := if yes then RestartFind(flag) else Failed)
    case SetBinary => l.(at := if yes then Replace(Goal(l), false) else Failed)
    case BootBinary => l.(at := if yes then BootProbe else Failed)
    case UpdaterFind => l.(at := if yes then UpdaterHalt else UpdaterLaunch)
    case EnsureFind =>
      if yes then l.(current := SetRemoteControl(true), thenStart := true, at := Loading)
      else l.(current := Bootstrap(true), thenStart := false, at := BootBinary)
    case TryProbe(flag) => if yes then l.(at := Halt(flag)) else Over(l)
    case _ => l
  }

  /** The operation is over, or the next one is due. */
  function Over(l: Place): Place
  {
    if l.thenStart then l.(current := Start, thenStart := false, at := Loading) else l.(at := Done)
  }

  function Goal(l: Place): bool
  {
    if l.current.SetRemoteControl? || l.current.Bootstrap? then l.current.enabled else false
  }

  /** The answer, on a host with what was found. */
  predicate Answer(h: Host, q: Process, f: Finding)
  {
    match QuestionAt(q.at)
    case SocketAnswers => Answers(h, f)
    case BackendRuns => h.backend.Some?
    case BinaryPresent => h.binary
    case UpdaterRuns => h.updater
    case RestartDue => !q.current.TryRestart? || q.current.mode.Always?
        || (Answers(h, f) && f.serverVersion != f.managedVersion)
    case _ => true
  }

  /** An await that asks something leaves the host alone and leads where the answer leads. */
  ghost predicate Found(h: Host, q: Process, f: Finding)
  {
    Advance(h, q, f).0 == h && PlaceOf(Advance(h, q, f).1) == After(PlaceOf(q), Answer(h, q, f))
  }

  lemma StartFinds(h: Host, q: Process, f: Finding)
    requires Starting(q.at) && !QuestionAt(q.at).FileReads?
    ensures Found(h, q, f)
  {
  }

  lemma RestartFinds(h: Host, q: Process, f: Finding)
    requires Restarting(q.at) && !QuestionAt(q.at).FileReads?
    ensures Found(h, q, f)
  {
  }

  lemma TryFinds(h: Host, q: Process, f: Finding)
    requires Trying(q.at) && !QuestionAt(q.at).FileReads?
    ensures Found(h, q, f)
  {
  }

  lemma StopFinds(h: Host, q: Process, f: Finding)
    requires Stopping(q.at) && !QuestionAt(q.at).FileReads?
    ensures Found(h, q, f)
  {
  }

  lemma SetFinds(h: Host, q: Process, f: Finding)
    requires Setting(q.at) && !QuestionAt(q.at).FileReads?
    ensures Found(h, q, f)
  {
  }

  lemma BootFinds(h: Host, q: Process, f: Finding)
    requires Booting(q.at) && !QuestionAt(q.at).FileReads?
    ensures Found(h, q, f)
  {
  }

  lemma LookingFinds(h: Host, q: Process, f: Finding)
    requires !QuestionAt(q.at).FileReads?
    ensures Found(h, q, f)
  {
    if Starting(q.at) {
      StartFinds(h, q, f);
    } else if Restarting(q.at) {
      RestartFinds(h, q, f);
    } else if Trying(q.at) {
      TryFinds(h, q, f);
    } else if Stopping(q.at) {
      StopFinds(h, q, f);
    } else if Setting(q.at) {
      SetFinds(h, q, f);
    } else if Booting(q.at) {
      BootFinds(h, q, f);
    } else {
      assert q.at.Ready? || q.at.UpdaterFind? || q.at.EnsureFind?;
    }
  }

  /** A missing file reads as remote control off. */
  function Flag(f: SettingsFile): bool { f.Saved? && f.enabled }

  /** Where an operation goes from a file that reads as `flag`. */
  function Loaded(l: Place, flag: bool): Place
  {
    l.(at := match l.current
             case Start => StartProbe(flag)
             case Restart => RestartProbe(flag)
             case TryRestart(_) => TryFind(flag)
             case Stop => StopFind
             case SetRemoteControl(_) => SetFind(flag)
             case EnsureRemoteControlStarted => EnsureFind
             case Bootstrap(_) => BootBinary)
  }

  lemma LoadingFinds(h: Host, q: Process, f: Finding)
    requires q.at.Loading?
    ensures Advance(h, q, f).0 == h
    ensures PlaceOf(Advance(h, q, f).1)
         == if h.settings.Unreadable? then PlaceOf(q).(at := Failed) else Loaded(PlaceOf(q), Flag(h.settings))
  {
  }

  /** What the steps that change something do, and where they lead. */
  function Did(h: Host, l: Place): Host
  {
    match l.at
    case Halt(_) => h.(backend := None)
    case Replace(_, _) => h.(backend := None)
    case StopHalt => h.(backend := None)
    case Launch(flag, _) => if h.backend.Some? then h else h.(backend := Some(flag), launched := h.launched + 1)
    case SetSave(_) => h.(settings := Saved(Goal(l)))
    case BootSave => h.(settings := Saved(Goal(l)))
    case UpdaterHalt => h.(updater := false)
    case UpdaterLaunch => h.(updater := true, renewed := h.renewed + 1)
    case _ => h
  }

  function Past(l: Place): Place
  {
    match l.at
    case Halt(flag) => l.(at := Launch(flag, false))
    case Replace(flag, boot) => l.(at := Launch(flag, boot))
    case StopHalt => Over(l)
    case Launch(_, boot) => l.(at := if boot then UpdaterFind else Ready)
    case SetSave(seen) => if seen then l.(at := SetBinary) else Over(l)
    case BootSave => l.(at := BootFind)
    case UpdaterHalt => l.(at := UpdaterLaunch)
    case UpdaterLaunch => l.(at := Ready)
    case _ => l
  }

  predicate Acts(at: Point)
  {
    at.Halt? || at.Replace? || at.StopHalt? || at.Launch? || Saving(at) || at.UpdaterHalt? || at.UpdaterLaunch?
  }

  /** An await that changes something does so and leads on. */
  ghost predicate Does(h: Host, q: Process, f: Finding)
  {
    Advance(h, q, f).0 == Did(h, PlaceOf(q)) && PlaceOf(Advance(h, q, f).1) == Past(PlaceOf(q))
  }

  lemma ServingDoes(h: Host, q: Process, f: Finding)
    requires q.at.Halt? || q.at.Replace? || q.at.Launch?
    ensures Does(h, q, f)
  {
  }

  lemma UpdatingDoes(h: Host, q: Process, f: Finding)
    requires q.at.UpdaterHalt? || q.at.UpdaterLaunch?
    ensures Does(h, q, f)
  {
  }

  lemma SavingDoes(h: Host, q: Process, f: Finding)
    requires q.at.StopHalt? || Saving(q.at)
    ensures Does(h, q, f)
  {
  }

  lemma ActingDoes(h: Host, q: Process, f: Finding)
    requires Acts(q.at)
    ensures Advance(h, q, f).0 == Did(h, PlaceOf(q)) && PlaceOf(Advance(h, q, f).1) == Past(PlaceOf(q))
  {
    hide Advance, Did, Past;
    if q.at.Halt? || q.at.Replace? || q.at.Launch? {
      ServingDoes(h, q, f);
    } else if q.at.UpdaterHalt? || q.at.UpdaterLaunch? {
      UpdatingDoes(h, q, f);
    } else {
      SavingDoes(h, q, f);
    }
  }

  // ------------------------------------------------ the way of an operation

  /** The answers at a point, and the points they lead to. */
  ghost predicate Fork(l: Place, at: Point, question: Question, yes: Place, no: Place)
  {
    QuestionAt(at) == question && After(l.(at := at), true) == yes && After(l.(at := at), false) == no
  }

  lemma StartPath(l: Place, flag: bool)
    requires l.current.Start?
    ensures Loaded(l, flag) == l.(at := StartProbe(flag))
    ensures Fork(l, StartProbe(flag), SocketAnswers, Over(l), l.(at := StartFind(flag)))
    ensures Fork(l, StartFind(flag), BackendRuns, l.(at := Ready), l.(at := StartBinary(flag)))
    ensures Fork(l, StartBinary(flag), BinaryPresent, l.(at := Launch(flag, false)), l.(at := Failed))
  {
  }

  lemma RestartPath(l: Place, flag: bool)
    requires l.current.Restart?
    ensures Loaded(l, flag) == l.(at := RestartProbe(flag))
    ensures Fork(l, RestartProbe(flag), SocketAnswers, l.(at := RestartCheck(flag)), l.(at := RestartBinary(flag)))
    ensures Fork(l, RestartCheck(flag), BackendRuns, l.(at := RestartBinary(flag)), l.(at := Failed))
    ensures Fork(l, RestartBinary(flag), BinaryPresent, l.(at := RestartFind(flag)), l.(at := Failed))
    ensures Fork(l, RestartFind(flag), BackendRuns, l.(at := Halt(flag)), l.(at := Launch(flag, false)))
  {
  }

  lemma TryPath(l: Place, flag: bool)
    requires l.current.TryRestart?
    ensures Loaded(l, flag) == l.(at := TryFind(flag))
    ensures Fork(l, TryFind(flag), BackendRuns, l.(at := TryProbe(flag)), l.(at := TryIdle))
    ensures Fork(l, TryProbe(flag), RestartDue, l.(at := Halt(flag)), Over(l))
    ensures Fork(l, TryIdle, SocketAnswers, l.(at := Failed), Over(l))
  {
  }

  lemma StopPath(l: Place, flag: bool)
    requires l.current.Stop?
    ensures Loaded(l, flag) == l.(at := StopFind)
    ensures Fork(l, StopFind, BackendRuns, l.(at := StopHalt), l.(at := StopProbe))
    ensures Fork(l, StopProbe, SocketAnswers, l.(at := Failed), Over(l))
    ensures Past(l.(at := StopHalt)) == Over(l)
  {
  }

  lemma SetPath(l: Place, flag: bool, seen: bool)
    requires l.current.SetRemoteControl?
    ensures Loaded(l, flag) == l.(at := SetFind(flag))
    ensures Fork(l, SetFind(flag), BackendRuns, l.(at := SetProbe(flag, true)), l.(at := SetProbe(flag, false)))
    ensures var quiet := if flag != l.current.enabled then l.(at := SetSave(seen)) else if seen then l.(at := Ready)
        else Over(l);
      Fork(l, SetProbe(flag, seen), SocketAnswers, if seen then quiet else l.(at := Failed), quiet)
  {
  }

  lemma ChangePath(l: Place, seen: bool)
    requires l.current.SetRemoteControl?
    ensures Past(l.(at := SetSave(seen))) == if seen then l.(at := SetBinary) else Over(l)
    ensures Fork(l, SetBinary, BinaryPresent, l.(at := Replace(l.current.enabled, false)), l.(at := Failed))
  {
  }

  lemma BootPath(l: Place)
    requires l.current.Bootstrap?
    ensures Fork(l, BootBinary, BinaryPresent, l.(at := BootProbe), l.(at := Failed))
    ensures Fork(l, BootProbe, SocketAnswers, l.(at := BootCheck), l.(at := BootSave))
    ensures Fork(l, BootCheck, BackendRuns, l.(at := BootSave), l.(at := Failed))
    ensures Past(l.(at := BootSave)) == l.(at := BootFind)
  {
  }

  lemma RenewPath(l: Place)
    requires l.current.Bootstrap?
    ensures var enabled := l.current.enabled;
      Fork(l, BootFind, BackendRuns, l.(at := Replace(enabled, true)), l.(at := Launch(enabled, true)))
    ensures Past(l.(at := Replace(l.current.enabled, true))) == l.(at := Launch(l.current.enabled, true))
    ensures Past(l.(at := Launch(l.current.enabled, true))) == l.(at := UpdaterFind)
  {
  }

  lemma UpdaterPath(l: Place)
    ensures Fork(l, UpdaterFind, UpdaterRuns, l.(at := UpdaterHalt), l.(at := UpdaterLaunch))
    ensures Past(l.(at := UpdaterHalt)) == l.(at := UpdaterLaunch) && Past(l.(at := UpdaterLaunch)) == l.(at := Ready)
  {
  }

  /** From stopping a backend, or launching one, to the end. */
  lemma BackendPath(l: Place, flag: bool)
    ensures Past(l.(at := Halt(flag))) == l.(at := Launch(flag, false))
    ensures Past(l.(at := Replace(flag, false))) == l.(at := Launch(flag, false))
    ensures Past(l.(at := Launch(flag, false))) == l.(at := Ready)
    ensures Fork(l, Ready, Nothing, Over(l), Over(l))
  {
  }

  lemma EnsurePath(l: Place)
    requires l.current.EnsureRemoteControlStarted?
    ensures forall flag :: Loaded(l, flag) == l.(at := EnsureFind)
    ensures Fork(l, EnsureFind, UpdaterRuns, l.(current := SetRemoteControl(true), thenStart := true, at := Loading),
                 l.(current := Bootstrap(true), thenStart := false, at := BootBinary))
  {
  }

  lemma WaiterLocks(w: World, waiting: map<nat, Op>, nextId: nat, p: nat)
    requires Inv(w) && w.holder.None? && WaitersKnown(w.procs, waiting, nextId) && p in waiting
    ensures var v := Step(w, Go(p, Finding(false, "", "")));
      && v.host == w.host && v.holder == Some(p) && WaitersKnown(v.procs, waiting - {p}, nextId)
      && p in v.procs && PlaceOf(v.procs[p]) == Place(waiting[p], waiting[p], false, Entry(waiting[p]), w.host)
  {
    hide HolderOk;
  }

  /** What comes to the machine: a request, a turn for one that waits, the end of its patience, or a change around
      it. */
  datatype Event = Request(op: Op) | Turn(p: nat) | Expires(p: nat) | Change(outside: Outside)

  class Machine {
    var settings: SettingsFile
    var backend: Option<bool>
    var updater: bool
    var unmanaged: bool
    var binary: bool
    var locked: bool
    var waiting: map<nat, Op>
    var nextId: nat
    var script: seq<Await>
    ghost var launched: nat
    ghost var renewed: nat
    ghost var holder: Option<nat>
    ghost var procs: map<nat, Process>
    ghost var log: seq<Label>
    ghost const origin: World

    ghost function HostView(): Host
      reads this`settings, this`backend, this`updater, this`unmanaged, this`binary, this`launched, this`renewed
    {
      Host(settings, backend, updater, unmanaged, binary, launched, renewed)
    }

    ghost function View(): World
      reads this`settings, this`backend, this`updater, this`unmanaged, this`binary, this`launched, this`renewed
      reads this`holder, this`procs
    {
      World(HostView(), holder, procs)
    }

    /** The machine is the model's run of its log; who holds the lock in the model has it locked. */
    ghost predicate Valid()
      reads this`settings, this`backend, this`updater, this`unmanaged, this`binary, this`launched, this`renewed
      reads this`holder, this`procs, this`log, this`waiting, this`nextId, this`locked
    {
      && Fresh(origin) && View() == Run(origin, log)
      && WaitersKnown(procs, waiting, nextId)
      && (holder.Some? ==> locked)
    }

    ghost predicate Holding(p: nat)
      reads this`holder, this`procs
    {
      holder == Some(p) && p in procs && Inside(procs[p].at)
    }

    constructor (h: Host, awaits: seq<Await>)
      ensures Valid() && log == [] && View() == World(h, None, map[]) && waiting == map[] && !locked
    {
      settings, backend, updater, unmanaged, binary := h.settings, h.backend, h.updater, h.unmanaged, h.binary;
      locked, waiting, nextId, script := false, map[], 0, awaits;
      launched, renewed := h.launched, h.renewed;
      holder, procs, log, origin := None, map[], [], World(h, None, map[]);
    }

    // ------------------------------------------------------------- awaits

    /** An operation is asked for and waits for the lock. */
    method Arrive(op: Op)
      requires Valid()
      modifies this`waiting, this`nextId, this`procs, this`log
      ensures Valid() && log == old(log) + [Begin(old(nextId), op)]
      ensures forall p :: p in old(procs) ==> p in procs && procs[p] == old(procs[p])
    {
      hide Run, Step, WaitersKnown;
      ghost var l := Begin(nextId, op);
      LogMore(origin, log, l);
      WaitersArrive(View(), waiting, nextId, op);
      log, procs := log + [l], Step(View(), l).procs;
      waiting, nextId := waiting[nextId := op], nextId + 1;
    }

    method StopWaiting(p: nat, ghost l: Label)
      requires Valid() && p in waiting && (l.Break? || (l.Go? && holder.Some? && waiting[p].TryRestart?)) && l.p == p
      modifies this`waiting, this`procs, this`log
      ensures Valid() && log == old(log) + [l]
      ensures forall r :: r in old(procs) && r != p ==> r in procs && procs[r] == old(procs[r])
    {
      hide Run, Step, WaitersKnown;
      LogMore(origin, log, l);
      WaiterEnds(View(), waiting, nextId, p, l);
      log, procs := log + [l], Step(View(), l).procs;
      waiting := waiting - {p};
    }

    method Change(o: Outside)
      requires Valid()
      modifies this`settings, this`backend, this`updater, this`unmanaged, this`binary, this`procs, this`log
      ensures Valid() && log == old(log) + [Happens(o)]
      ensures forall p :: p in old(procs) ==> p in procs && PlaceOf(procs[p]) == PlaceOf(old(procs[p]))
    {
      hide Run, Step, WaitersKnown;
      LogMore(origin, log, Happens(o));
      WaitersNotice(View(), waiting, nextId, o);
      log, procs := log + [Happens(o)], Step(View(), Happens(o)).procs;
      match o
      case BackendDies => backend := None;
      case UpdaterDies => updater := false;
      case UnmanagedArrives => unmanaged := true;
      case UnmanagedLeaves => unmanaged := false;
      case BinaryMoves(present) => binary := present;
    }

    method Meanwhile(p: nat, other: Other)
      requires Valid() && Holding(p)
      modifies this
      ensures Valid() && Holding(p) && PlaceOf(procs[p]) == PlaceOf(old(procs[p]))
    {
      hide WaitersKnown;
      HolderDoesNotWait(View(), waiting, nextId, p);
      match other
      case Asks(op) => Arrive(op);
      case LosesPatience(r) =>
        if r in waiting { StopWaiting(r, Break(r)); }
      case FindsLock(r) =>
        if r in waiting && waiting[r].TryRestart? { StopWaiting(r, Go(r, Finding(false, "", ""))); }
      case Changes(o) => Change(o);
    }

    /** Waits.  When nothing more is known of what follows, the operation counts as crashed. */
    method Next(p: nat) returns (f: Finding, ok: bool, left: Option<SettingsFile>)
      requires Valid() && Holding(p)
      modifies this
      ensures Valid() && Holding(p) && PlaceOf(procs[p]) == PlaceOf(old(procs[p]))
    {
      hide WaitersKnown, Run;
      f, ok, left := Finding(false, "", ""), false, None;
      if script == [] { return; }
      var a := script[0];
      script := script[1..];
      for i := 0 to |a.meanwhile|
        invariant Valid() && Holding(p) && PlaceOf(procs[p]) == PlaceOf(old(procs[p]))
      {
        Meanwhile(p, a.meanwhile[i]);
      }
      f, ok, left := a.found, !a.fails, a.left;
    }

    /** The step just taken from the world `w` is written down. */
    ghost method Record(p: nat, l: Label, w: World)
      requires w == Run(origin, log) && w.holder == Some(p) == holder && w.procs == procs && p in procs
          && Inside(procs[p].at)
      requires Fresh(origin) && WaitersKnown(procs, waiting, nextId) && locked
      requires l.Go? || l.Break? || l.SaveBreaks?
      requires l.p == p && Step(w, l).host == HostView()
      modifies this`holder, this`procs, this`log
      ensures Valid() && log == old(log) + [l] && procs == Step(w, l).procs && holder == Step(w, l).holder
      ensures p in procs && (procs[p].at.Done? && Reliable(procs[p]) ==> Started(HostView()))
      ensures procs[p].at.Done? ==> Achieved(HostView(), procs[p])
    {
      hide Run, Step, WaitersKnown, Started, Reliable, Achieved;
      StepRecorded(origin, log, p, l, waiting, nextId);
      log, procs, holder := log + [l], Step(w, l).procs, Step(w, l).holder;
    }

    // -------------------------------------------------------------- steps

    /** The process has moved.  When its operation is over it does not hold the lock any more; if it succeeded it has
        achieved what it is for, and a request for remote control that could be relied on has had its result. */
    ghost predicate Became(p: nat, l: Place)
      reads this`settings, this`backend, this`updater, this`unmanaged, this`binary, this`launched, this`renewed
      reads this`holder, this`procs
    {
      && p in procs && PlaceOf(procs[p]) == l && holder == (if Gone(l.at) then None else Some(p))
      && (l.at.Done? && Reliable(procs[p]) ==> Started(HostView()))
      && (l.at.Done? ==> Achieved(HostView(), procs[p]))
    }

    method BreakOff(p: nat)
      requires Valid() && Holding(p)
      modifies this`holder, this`procs, this`log
      ensures Valid() && Became(p, PlaceOf(old(procs[p])).(at := Failed))
    {
      hide Run, WaitersKnown, Reliable, Started, Achieved;
      Record(p, Break(p), View());
    }

    /** What an await at this point is to change has been changed. */
    ghost method Enact(p: nat, f: Finding, w: World)
      requires w == Run(origin, log) && w.holder == Some(p) == holder && w.procs == procs && p in procs
          && Inside(procs[p].at)
      requires Fresh(origin) && WaitersKnown(procs, waiting, nextId) && locked
      requires Acts(procs[p].at) && HostView() == Did(w.host, PlaceOf(procs[p]))
      modifies this`holder, this`procs, this`log
      ensures Valid() && Became(p, Past(PlaceOf(old(procs[p]))))
    {
      hide Run, WaitersKnown, Reliable, Started, Achieved, Advance, Did, Past;
      ActingDoes(w.host, procs[p], f);
      Record(p, Go(p, f), w);
    }

    /** An await that changes nothing, and the answer to its question. */
    method Look(p: nat, question: Question, mode: RestartMode := Always) returns (yes: bool, ok: bool)
      requires Valid() && Holding(p) && QuestionAt(procs[p].at) == question && !question.FileReads?
      requires question.RestartDue? ==> procs[p].current == Op.TryRestart(mode)
      modifies this
      ensures Valid() && Became(p,
          if !ok then PlaceOf(old(procs[p])).(at := Failed) else After(PlaceOf(old(procs[p])), yes))
    {
      hide Run, WaitersKnown, Reliable, Started, Achieved, Advance, After, QuestionAt;
      var f, left;
      f, ok, left := Next(p);
      yes := match question
        case SocketAnswers => f.answers && (backend.Some? || unmanaged)
        case BackendRuns => backend.Some?
        case BinaryPresent => binary
        case UpdaterRuns => updater
        case RestartDue =>
          mode.Always? || (f.answers && (backend.Some? || unmanaged) && f.serverVersion != f.managedVersion)
        case _ => true;
      if !ok {
        BreakOff(p);
        return;
      }
      LookingFinds(HostView(), procs[p], f);
      Record(p, Go(p, f), View());
    }

    method StopBackend(p: nat) returns (ok: bool)
      requires Valid() && Holding(p) && (procs[p].at.Halt? || procs[p].at.Replace? || procs[p].at.StopHalt?)
      modifies this
      ensures Valid() && Became(p, if !ok then PlaceOf(old(procs[p])).(at := Failed) else Past(PlaceOf(old(procs[p]))))
    {
      hide Run, WaitersKnown, Reliable, Started, Achieved, Advance;
      var f, left;
      f, ok, left := Next(p);
      if !ok {
        BreakOff(p);
        return;
      }
      ghost var w := View();
      backend := None;
      Enact(p, f, w);
    }

    /** Launches a backend with the setting unless one is active. */
    method StartBackend(p: nat, flag: bool) returns (ok: bool)
      requires Valid() && Holding(p) && procs[p].at.Launch? && procs[p].at.flag == flag
      modifies this
      ensures Valid() && Became(p, if !ok then PlaceOf(old(procs[p])).(at := Failed) else Past(PlaceOf(old(procs[p]))))
    {
      hide Run, WaitersKnown, Reliable, Started, Achieved, Advance;
      var f, left;
      f, ok, left := Next(p);
      if !ok {
        BreakOff(p);
        return;
      }
      ghost var w := View();
      if backend.None? {
        launched := launched + 1;
        backend := Some(flag);
      }
      Enact(p, f, w);
    }

    method SwitchUpdater(p: nat, on: bool) returns (ok: bool)
      requires Valid() && Holding(p) && procs[p].at == if on then UpdaterLaunch else UpdaterHalt
      modifies this
      ensures Valid() && Became(p, if !ok then PlaceOf(old(procs[p])).(at := Failed) else Past(PlaceOf(old(procs[p]))))
    {
      hide Run, WaitersKnown, Reliable, Started, Achieved, Advance;
      var f, left;
      f, ok, left := Next(p);
      if !ok {
        BreakOff(p);
        return;
      }
      ghost var w := View();
      if on { renewed := renewed + 1; }
      updater := on;
      Enact(p, f, w);
    }

    /** Saving may fail half way and leave anything behind. */
    method SaveSettings(p: nat, enabled: bool) returns (ok: bool)
      requires Valid() && Holding(p) && Saving(procs[p].at) && Target(procs[p]) == enabled
      modifies this
      ensures Valid() && Became(p, if !ok then PlaceOf(old(procs[p])).(at := Failed) else Past(PlaceOf(old(procs[p]))))
    {
      hide Run, WaitersKnown, Reliable, Started, Achieved, Advance;
      var f, left;
      f, ok, left := Next(p);
      ghost var w := View();
      if !ok && left.Some? {
        settings := left.value;
        Record(p, SaveBreaks(p, left.value), w);
      } else if !ok {
        BreakOff(p);
      } else {
          settings := Saved(enabled);
        Enact(p, f, w);
      }
    }

    /** `load_settings`, with which all operations but a bootstrap begin. */
    method LoadSettingsFile(p: nat) returns (flag: bool, ok: bool)
      requires Valid() && Holding(p) && procs[p].at.Loading?
      modifies this
      ensures Valid() && Became(p,
          if !ok then PlaceOf(old(procs[p])).(at := Failed) else Loaded(PlaceOf(old(procs[p])), flag))
    {
      hide Run, WaitersKnown, Reliable, Started, Achieved, Advance;
      var f, left;
      f, ok, left := Next(p);
      flag := Flag(settings);
      if !ok {
        BreakOff(p);
        return;
      }
      LoadingFinds(HostView(), procs[p], f);
      ok := !settings.Unreadable?;
      Record(p, Go(p, f), View());
    }

    // --------------------------------------------------------- operations

    /** Launches a backend with the setting and waits until it is ready. */
    method LaunchAndWait(p: nat, flag: bool) returns (ok: bool)
      requires Valid() && Holding(p) && procs[p].at == Launch(flag, false)
      modifies this
      ensures Valid() && p in procs && procs[p].op == old(procs[p]).op && procs[p].found == old(procs[p]).found
      ensures Became(p, if !ok then PlaceOf(procs[p]).(at := Failed) else Over(PlaceOf(old(procs[p]))))
    {
      hide Valid, Reliable, Started, Achieved, After, Past, QuestionAt;
      BackendPath(PlaceOf(procs[p]), flag);
      ok := StartBackend(p, flag);
      if !ok { return; }
      ok := WaitUntilReady(p);
    }

    /** Stops the backend and starts it again. */
    method Cycle(p: nat, flag: bool) returns (ok: bool)
      requires Valid() && Holding(p) && procs[p].at in {Halt(flag), Replace(flag, false)}
      modifies this
      ensures Valid() && p in procs && procs[p].op == old(procs[p]).op && procs[p].found == old(procs[p]).found
      ensures Became(p, if !ok then PlaceOf(procs[p]).(at := Failed) else Over(PlaceOf(old(procs[p]))))
    {
      hide Valid, Reliable, Started, Achieved, After, Past, QuestionAt;
      BackendPath(PlaceOf(procs[p]), flag);
      ok := StopBackend(p);
      if !ok { return; }
      ok := LaunchAndWait(p, flag);
    }

    method WaitUntilReady(p: nat) returns (ok: bool)
      requires Valid() && Holding(p) && procs[p].at.Ready?
      modifies this
      ensures Valid() && p in procs && procs[p].op == old(procs[p]).op && procs[p].found == old(procs[p]).found
      ensures Became(p, if !ok then PlaceOf(procs[p]).(at := Failed) else Over(PlaceOf(old(procs[p]))))
    {
      hide Valid, Reliable, Started, Achieved, After, QuestionAt;
      BackendPath(PlaceOf(procs[p]), false);
      var yes;
      yes, ok := Look(p, Nothing);
    }

    /** When nothing answers: waits for a backend that is there, or launches one. */
    method StartUnlessRunning(p: nat, flag: bool) returns (ok: bool)
      requires Valid() && Holding(p) && procs[p].current == Op.Start && procs[p].at == StartFind(flag)
      modifies this
      ensures Valid() && p in procs && procs[p].op == old(procs[p]).op && procs[p].found == old(procs[p]).found
      ensures Became(p, if !ok then PlaceOf(procs[p]).(at := Failed) else Over(PlaceOf(old(procs[p]))))
    {
      hide Valid, Reliable, Started, Achieved, After, Past, QuestionAt, Loaded;
      ghost var l := PlaceOf(procs[p]);
      var running, present;
      StartPath(l, flag);
      running, ok := Look(p, BackendRuns);
      if !ok { return; }
      if running {
        ok := WaitUntilReady(p);
        return;
      }
      present, ok := Look(p, BinaryPresent);
      if !ok || !present { return false; }
      ok := LaunchAndWait(p, flag);
    }

    method Start(p: nat) returns (ok: bool)
      requires Valid() && Holding(p) && procs[p].current == Op.Start && procs[p].at.Loading?
      modifies this
      ensures Valid() && p in procs && procs[p].op == old(procs[p]).op && procs[p].found == old(procs[p]).found
      ensures Became(p, if !ok then PlaceOf(procs[p]).(at := Failed) else Over(PlaceOf(old(procs[p]))))
    {
      hide Valid, Reliable, Started, Achieved, After, Past, QuestionAt, Loaded;
      ghost var l := PlaceOf(procs[p]);
      var flag, answers;
      flag, ok := LoadSettingsFile(p);
      StartPath(l, flag);
      if !ok { return; }
      answers, ok := Look(p, SocketAnswers);
      if !ok || answers { return; }
      ok := StartUnlessRunning(p, flag);
    }

    /** A backend that runs is stopped, and one is launched. */
    method StartAnew(p: nat, flag: bool) returns (ok: bool)
      requires Valid() && Holding(p) && procs[p].current == Op.Restart && procs[p].at == RestartBinary(flag)
      modifies this
      ensures Valid() && p in procs && procs[p].op == old(procs[p]).op && procs[p].found == old(procs[p]).found
      ensures Became(p, if !ok then PlaceOf(procs[p]).(at := Failed) else Over(PlaceOf(old(procs[p]))))
    {
      hide Valid, Reliable, Started, Achieved, After, Past, QuestionAt, Loaded;
      ghost var l := PlaceOf(procs[p]);
      var running, present;
      RestartPath(l, flag);
      present, ok := Look(p, BinaryPresent);
      if !ok || !present { return false; }
      running, ok := Look(p, BackendRuns);
      if !ok { return; }
      if running { ok := Cycle(p, flag); } else { ok := LaunchAndWait(p, flag); }
    }

    method Restart(p: nat) returns (ok: bool)
      requires Valid() && Holding(p) && procs[p].current == Op.Restart && procs[p].at.Loading?
      modifies this
      ensures Valid() && p in procs && procs[p].op == old(procs[p]).op && procs[p].found == old(procs[p]).found
      ensures Became(p, if !ok then PlaceOf(procs[p]).(at := Failed) else Over(PlaceOf(old(procs[p]))))
    {
      hide Valid, Reliable, Started, Achieved, After, Past, QuestionAt, Loaded;
      ghost var l := PlaceOf(procs[p]);
      var flag, answers, running;
      flag, ok := LoadSettingsFile(p);
      RestartPath(l, flag);
      if !ok { return; }
      answers, ok := Look(p, SocketAnswers);
      if !ok { return; }
      if answers {
        running, ok := Look(p, BackendRuns);
        if !ok || !running { return false; }
      }
      ok := StartAnew(p, flag);
    }

    /** `try_restart_if_running`, once it has the lock. */
    method TryRestartIfRunning(p: nat, mode: RestartMode) returns (ok: bool)
      requires Valid() && Holding(p) && procs[p].current == Op.TryRestart(mode) && procs[p].at.Loading?
      modifies this
      ensures Valid() && p in procs && procs[p].op == old(procs[p]).op && procs[p].found == old(procs[p]).found
      ensures Became(p, if !ok then PlaceOf(procs[p]).(at := Failed) else Over(PlaceOf(old(procs[p]))))
    {
      hide Valid, Reliable, Started, Achieved, After, Past, QuestionAt, Loaded;
      ghost var l := PlaceOf(procs[p]);
      var flag, answers, running, due;
      flag, ok := LoadSettingsFile(p);
      TryPath(l, flag);
      if !ok { return; }
      running, ok := Look(p, BackendRuns, mode);
      if !ok { return; }
      if !running {
        answers, ok := Look(p, SocketAnswers, mode);
        return ok && !answers;
      }
      due, ok := Look(p, RestartDue, mode);
      if !ok || !due { return; }
      ok := Cycle(p, flag);
    }

    method Stop(p: nat) returns (ok: bool)
      requires Valid() && Holding(p) && procs[p].current == Op.Stop && procs[p].at.Loading?
      modifies this
      ensures Valid() && p in procs && procs[p].op == old(procs[p]).op && procs[p].found == old(procs[p]).found
      ensures Became(p, if !ok then PlaceOf(procs[p]).(at := Failed) else Over(PlaceOf(old(procs[p]))))
    {
      hide Valid, Reliable, Started, Achieved, After, Past, QuestionAt, Loaded;
      ghost var l := PlaceOf(procs[p]);
      var flag, answers, running;
      flag, ok := LoadSettingsFile(p);
      StopPath(l, flag);
      if !ok { return; }
      running, ok := Look(p, BackendRuns);
      if !ok { return; }
      if running {
        ok := StopBackend(p);
        return;
      }
      answers, ok := Look(p, SocketAnswers);
      ok := ok && !answers;
    }

    /** Saves the setting and, if a backend runs, has it replaced. */
    method ChangeSetting(p: nat, enabled: bool, running: bool) returns (ok: bool)
      requires Valid() && Holding(p) && procs[p].current == Op.SetRemoteControl(enabled)
          && procs[p].at == SetSave(running)
      modifies this
      ensures Valid() && p in procs && procs[p].op == old(procs[p]).op && procs[p].found == old(procs[p]).found
      ensures Became(p, if !ok then PlaceOf(procs[p]).(at := Failed) else Over(PlaceOf(old(procs[p]))))
    {
      hide Valid, Reliable, Started, Achieved, After, Past, QuestionAt, Loaded;
      ghost var l := PlaceOf(procs[p]);
      var present;
      ChangePath(l, running);
      ok := SaveSettings(p, enabled);
      if !ok || !running { return; }
      present, ok := Look(p, BinaryPresent);
      if !ok || !present { return false; }
      ok := Cycle(p, enabled);
    }

    /** Knowing the setting and whether a backend runs: refuses a server that is not managed, and changes what
        differs. */
    method SetFrom(p: nat, enabled: bool, previous: bool, running: bool) returns (ok: bool)
      requires Valid() && Holding(p) && procs[p].current == Op.SetRemoteControl(enabled)
          && procs[p].at == SetProbe(previous, running)
      modifies this
      ensures Valid() && p in procs && procs[p].op == old(procs[p]).op && procs[p].found == old(procs[p]).found
      ensures Became(p, if !ok then PlaceOf(procs[p]).(at := Failed) else Over(PlaceOf(old(procs[p]))))
    {
      hide Valid, Reliable, Started, Achieved, After, Past, QuestionAt, Loaded;
      ghost var l := PlaceOf(procs[p]);
      var answers;
      SetPath(l, previous, running);
      answers, ok := Look(p, SocketAnswers);   // of interest only when no backend runs
      if !ok || (!running && answers) { return false; }
      if previous != enabled {
        ok := ChangeSetting(p, enabled, running);
      } else if running {
        ok := WaitUntilReady(p);
      }
    }

    method SetRemoteControlLocked(p: nat, enabled: bool) returns (ok: bool)
      requires Valid() && Holding(p) && procs[p].current == Op.SetRemoteControl(enabled) && procs[p].at.Loading?
      modifies this
      ensures Valid() && p in procs && procs[p].op == old(procs[p]).op && procs[p].found == old(procs[p]).found
      ensures Became(p, if !ok then PlaceOf(procs[p]).(at := Failed) else Over(PlaceOf(old(procs[p]))))
    {
      hide Valid, Reliable, Started, Achieved, After, Past, QuestionAt, Loaded;
      ghost var l := PlaceOf(procs[p]);
      var previous, running;
      previous, ok := LoadSettingsFile(p);
      SetPath(l, previous, false);
      if !ok { return; }
      running, ok := Look(p, BackendRuns);
      if !ok { return; }
      ok := SetFrom(p, enabled, previous, running);

    }

    /** A backend that runs is stopped, and one is launched with the setting just saved. */
    method ReplaceBackend(p: nat, enabled: bool) returns (ok: bool)
      requires Valid() && Holding(p) && procs[p].current == Op.Bootstrap(enabled) && procs[p].at.BootFind?
      modifies this
      ensures Valid() && Became(p, PlaceOf(old(procs[p])).(at := if ok then UpdaterFind else Failed))
    {
      hide Valid, Reliable, Started, Achieved, After, Past, QuestionAt;
      RenewPath(PlaceOf(procs[p]));
      var running;
      running, ok := Look(p, BackendRuns);
      if !ok { return; }
      if running {
        ok := StopBackend(p);
        if !ok { return; }
      }
      ok := StartBackend(p, enabled);
    }

    /** An updater that runs is stopped, and a new one started. */
    method RenewUpdater(p: nat) returns (ok: bool)
      requires Valid() && Holding(p) && procs[p].at.UpdaterFind?
      modifies this
      ensures Valid() && p in procs && procs[p].op == old(procs[p]).op && procs[p].found == old(procs[p]).found
      ensures Became(p, if !ok then PlaceOf(procs[p]).(at := Failed) else Over(PlaceOf(old(procs[p]))))
    {
      hide Valid, Reliable, Started, Achieved, After, Past, QuestionAt, Loaded;
      ghost var l := PlaceOf(procs[p]);
      var running;
      UpdaterPath(l);
      running, ok := Look(p, UpdaterRuns);
      if !ok { return; }
      if running {
        ok := SwitchUpdater(p, false);
        if !ok { return; }
      }
      ok := SwitchUpdater(p, true);
      if !ok { return; }
      ok := WaitUntilReady(p);
    }

    /** The managed binary is there, and no server runs that nobody manages. */
    method MayBootstrap(p: nat) returns (ok: bool)
      requires Valid() && Holding(p) && procs[p].current.Bootstrap? && procs[p].at.BootBinary?
      modifies this
      ensures Valid() && Became(p, PlaceOf(old(procs[p])).(at := if ok then BootSave else Failed))
    {
      hide Valid, Reliable, Started, Achieved, After, Past, QuestionAt;
      BootPath(PlaceOf(procs[p]));
      var answers, running, present;
      present, ok := Look(p, BinaryPresent);
      if !ok || !present { return false; }
      answers, ok := Look(p, SocketAnswers);
      if !ok || !answers { return; }
      running, ok := Look(p, BackendRuns);
      ok := ok && running;
    }

    method BootstrapLocked(p: nat, enabled: bool) returns (ok: bool)
      requires Valid() && Holding(p) && procs[p].current == Op.Bootstrap(enabled) && procs[p].at.BootBinary?
      modifies this
      ensures Valid() && p in procs && procs[p].op == old(procs[p]).op && procs[p].found == old(procs[p]).found
      ensures Became(p, if !ok then PlaceOf(procs[p]).(at := Failed) else Over(PlaceOf(old(procs[p]))))
    {
      hide Valid, Reliable, Started, Achieved, After, Past, QuestionAt, Loaded;
      ghost var l := PlaceOf(procs[p]);
      BootPath(l);
      ok := MayBootstrap(p);
      if !ok { return; }
      ok := SaveSettings(p, enabled);
      if !ok { return; }
      ok := ReplaceBackend(p, enabled);
      if !ok { return; }
      ok := RenewUpdater(p);
    }

    /** On a bootstrapped host enables remote control and then starts, else bootstraps with it. */
    method EnsureRemoteControlStarted(p: nat) returns (ok: bool)
      requires Valid() && Holding(p) && procs[p].current == Op.EnsureRemoteControlStarted && procs[p].at.Loading?
      requires !procs[p].thenStart
      modifies this
      ensures Valid() && p in procs && procs[p].op == old(procs[p]).op && procs[p].found == old(procs[p]).found
      ensures Became(p, PlaceOf(procs[p])) && procs[p].at == if ok then Done else Failed
    {
      hide Valid, Reliable, Started, Achieved, After, Past, QuestionAt, Loaded;
      ghost var l := PlaceOf(procs[p]);
      EnsurePath(l);
      var flag, bootstrapped;
      flag, ok := LoadSettingsFile(p);
      if !ok { return; }
      bootstrapped, ok := Look(p, UpdaterRuns);
      if !ok { return; }
      if bootstrapped {
        ok := SetRemoteControlLocked(p, true);
        if !ok { return; }
        ok := Start(p);
      } else {
        ok := BootstrapLocked(p, true);
      }
    }

    // ------------------------------------------------------------ the lock

    /** A waiting process takes the free lock and carries its operation out. */
    method Operate(p: nat) returns (ok: bool)
      requires Valid() && p in waiting && !locked
      modifies this
      ensures Valid() && !locked && holder.None?
      ensures p in procs && procs[p].op == old(waiting[p]) && procs[p].found == old(HostView())
      ensures procs[p].at == if ok then Done else Failed
      ensures ok ==> Achieved(HostView(), procs[p])
      ensures ok && Reliable(procs[p]) ==> Started(HostView())
    {
      hide Reliable, Started, Achieved, WaitersKnown, Run;
      var op := AcquireOperationLock(p);
      ok := CarryOut(p, op);
      locked := false;
    }

    method CarryOut(p: nat, op: Op) returns (ok: bool)
      requires Valid() && Holding(p) && PlaceOf(procs[p]) == Place(op, op, false, Entry(op), procs[p].found)
      modifies this
      ensures Valid() && p in procs && procs[p].op == op && procs[p].found == old(procs[p]).found
      ensures Became(p, PlaceOf(procs[p])) && procs[p].at == if ok then Done else Failed
    {
      hide Valid, Reliable, Started, Achieved;
      match op {
        case Start => ok := Start(p);
        case Restart => ok := Restart(p);
        case TryRestart(mode) => ok := TryRestartIfRunning(p, mode);
        case Stop => ok := Stop(p);
        case SetRemoteControl(enabled) => ok := SetRemoteControlLocked(p, enabled);
        case Bootstrap(enabled) => ok := BootstrapLocked(p, enabled);
        case EnsureRemoteControlStarted => ok := EnsureRemoteControlStarted(p);
      }
    }

    method AcquireOperationLock(p: nat) returns (op: Op)
      requires Valid() && p in waiting && !locked
      modifies this`locked, this`waiting, this`holder, this`procs, this`log
      ensures Valid() && locked && op == old(waiting[p]) && p !in waiting
      ensures Holding(p) && PlaceOf(procs[p]) == Place(op, op, false, Entry(op), old(HostView()))
    {
      hide Run, WaitersKnown;
      op := waiting[p];
      ghost var l := Go(p, Finding(false, "", ""));
      LogMore(origin, log, l);
      RunKeeps(origin, log);
      WaiterLocks(View(), waiting, nextId, p);
      log, procs, holder := log + [l], Step(View(), l).procs, Some(p);
      locked, waiting := true, waiting - {p};
    }

    /** What comes to the machine from outside: a request, a turn for one that waits, or a change around it. */
    method Live(events: seq<Event>)
      requires Valid() && !locked
      modifies this
      ensures Valid() && !locked && holder.None? && View() == Run(origin, log)
      ensures forall p, r :: p in procs && r in procs && Inside(procs[p].at) && Inside(procs[r].at) ==> p == r
      ensures Consistent(origin.host) && Unharmed(origin, log) ==> Consistent(HostView())
      ensures OnlyUnmanaged(origin.host) && (forall i :: 0 <= i < |log| ==> Honest(log[i])) ==>
        LeftAlone(origin.host, HostView(), Happens(UpdaterDies) in log)
    {
      hide Run, WaitersKnown, Unharmed, Consistent, Inside, Honest, LeftAlone, OnlyUnmanaged;
      for i := 0 to |events|
        invariant Valid() && !locked
      {
        match events[i] {
          case Request(op) => Arrive(op);
          case Turn(p) => if p in waiting { var _ := Operate(p); }
          case Expires(p) => if p in waiting { StopWaiting(p, Break(p)); }
          case Change(o) => Change(o);
        }
      }
      forall p, r | p in procs && r in procs && Inside(procs[p].at) && Inside(procs[r].at) ensures p == r {
        MutualExclusion(origin, log, p, r);
      }
      if Consistent(origin.host) && Unharmed(origin, log) { BackendFollowsSettings(origin, log); }
      if OnlyUnmanaged(origin.host) && forall i :: 0 <= i < |log| ==> Honest(log[i]) {
        FreshReads(origin);
        UnmanagedServersAreLeftAlone(origin, log);
      }
    }
  }

  lemma FreshReads(w: World)
    requires Fresh(w)
    ensures AllReading(w)
  {
  }
}
