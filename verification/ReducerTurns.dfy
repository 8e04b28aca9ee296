/** Turns over whole runs: a turn's state is the digest of the signals of its
    current epoch, a report states that digest, reports are bounded by what must
    precede them, and the shared reducer behaves like one reducer per turn. */
module ReducerTurns {
  import opened Common
  import opened ReducerModel
  import opened ReducerRuns
  import DiffScan

  // ------------------------------------------------------------- signals

  /** Which turn a fact speaks to, and what it says there. */
  function SignalOf(s: State, f: Fact): Option<(string, Signal)>
  {
    match f
    case TurnResolvedConfig(turnId, threadId, images, config) => Some((turnId, Configured(threadId, images, config)))
    case TurnTokenUsage(turnId, threadId, usage) => Some((turnId, TokensUsed(threadId, usage)))
    case ClientResponded(c, id, TurnStartResponse(turnId)) =>
      if MatchesTurnStart(s, f)
          then Some((turnId, Started(c, s.requests[(c, id)].threadId, s.requests[(c, id)].numInputImages))) else None
    case ClientResponded(c, id, TurnSteerResponse(turnId)) =>
      if (c, id) in s.requests && s.requests[(c, id)].PendingTurnSteer? then Some((turnId, Steered)) else None
    case Notified(ItemCompleted(_, turnId, item, _)) =>
      if ItemTool(item).Some? then Some((turnId, ToolRan(ItemTool(item).value))) else None
    case Notified(TurnStarted(turnId, startedAt)) => Some((turnId, BeganAt(OptionToU64(startedAt))))
    case Notified(TurnDiffUpdated(threadId, turnId, diff)) => Some((turnId, DiffChanged(threadId, diff)))
    case Notified(TurnCompleted(turnId, _, _, _, _)) => Some((turnId, Finished(Completion(f.notification))))
    case _ => None
  }

  predicate IsTurnEvent(e: Event) { e.TurnReported? || e.AcceptedLines? }

  /** `out` holds the events of the signal, or no turn event at all when there is nothing to report. */
  ghost predicate TurnsMoved(s: State, signal: Option<(string, Signal)>, turns: map<string, TurnState>, out: seq<Event>)
  {
    if signal.None? then turns == s.turns && forall e :: e in out ==> !IsTurnEvent(e)
    else
      var told := SignalTurn(s, signal.value.0, signal.value.1);
      && turns == told.0.turns
      && (if MayComplete(signal.value.1) then out == told.1 else forall e :: e in out ==> !IsTurnEvent(e))
  }

  lemma SignalIgnoresRequests(s: State, requests: map<RequestKey, RequestState>, turnId: string, signal: Signal)
    ensures SignalTurn(s.(requests := requests), turnId, signal).0.turns == SignalTurn(s, turnId, signal).0.turns
    ensures SignalTurn(s.(requests := requests), turnId, signal).1 == SignalTurn(s, turnId, signal).1
  {
    hide AcceptedLinesOf, Apply;
  }

  lemma StartedTurns(s: State, f: Fact)
    requires f.ClientResponded? && f.response.TurnStartResponse?
    ensures var r := AnswerTurnStart(s, (f.connectionId, f.requestId), f.response.turnId);
      TurnsMoved(s, SignalOf(s, f), r.0.turns, r.1)
  {
    hide SignalTurn;
    var told := SignalOf(s, f);
    if told.Some? {
      SignalIgnoresRequests(s, s.requests - {(f.connectionId, f.requestId)}, told.value.0, told.value.1);
    }
  }

  lemma SteeredTurns(s: State, f: Fact)
    requires f.ClientResponded? && f.response.TurnSteerResponse?
    ensures var r := AnswerTurnSteer(s, (f.connectionId, f.requestId), f.response.turnId);
      TurnsMoved(s, SignalOf(s, f), r.0.turns, r.1)
  {
    hide SignalTurn, SteerReport;
    var told := SignalOf(s, f);
    if told.Some? {
      SignalIgnoresRequests(s, s.requests - {(f.connectionId, f.requestId)}, told.value.0, told.value.1);
    }
  }

  lemma RespondTurns(s: State, f: Fact)
    requires f.ClientResponded?
    ensures TurnsMoved(s, SignalOf(s, f), Ingest(s, f).0.turns, Ingest(s, f).1)
  {
    Dispatch(s, f);
    hide Ingest, AnswerTurnStart, AnswerTurnSteer;
    if f.response.TurnStartResponse? {
      StartedTurns(s, f);
      hide TurnsMoved, SignalOf;
    } else if f.response.TurnSteerResponse? {
      SteeredTurns(s, f);
      hide TurnsMoved, SignalOf;
    } else {
      hide Metadata;
    }
  }

  /** A tool or a steer that finds no turn is lost. */
  lemma SignalLost(s: State, turnId: string, signal: Signal)
    requires turnId !in s.turns && !Opens(signal)
    ensures SignalTurn(s, turnId, signal) == (s, [])
  {
  }

  lemma CompletedTurns(s: State, f: Fact)
    requires f.Notified? && f.notification.ItemCompleted?
    ensures var n := f.notification; var r := CompleteItem(s, n.threadId, n.turnId, n.item, n.completedAtMs);
      TurnsMoved(s, SignalOf(s, f), r.0.turns, r.1)
  {
    var n := f.notification;
    hide SignalTurn, ToolReport, ThreadContext;
    if ItemTool(n.item).Some? && n.turnId !in s.turns { SignalLost(s, n.turnId, ToolRan(ItemTool(n.item).value)); }
  }

  lemma OtherTurns(s: State, f: Fact)
    requires f.Notified? && !f.notification.ItemCompleted?
    ensures TurnsMoved(s, SignalOf(s, f), Notify(s, f.notification).0.turns, Notify(s, f.notification).1)
  {
    hide SignalTurn, EmitReview, DecideGuardian, Completion;
    if f.notification.TurnStarted? || f.notification.TurnDiffUpdated? { QuietSignals(s, f.notification); }
  }

  lemma NotifyTurns(s: State, f: Fact)
    requires f.Notified?
    ensures TurnsMoved(s, SignalOf(s, f), Ingest(s, f).0.turns, Ingest(s, f).1)
  {
    Dispatch(s, f);
    if f.notification.ItemCompleted? {
      CompletedTurns(s, f);
      hide Ingest, CompleteItem, TurnsMoved, SignalOf;
    } else {
      OtherTurns(s, f);
      hide Ingest, Notify, TurnsMoved, SignalOf;
    }
  }

  /** One fact moves the turn map exactly as its signal, if any, moves it. */
  lemma TurnStep(s: State, f: Fact)
    ensures TurnsMoved(s, SignalOf(s, f), Ingest(s, f).0.turns, Ingest(s, f).1)
  {
    if f.ClientResponded? {
      RespondTurns(s, f);
    } else if f.Notified? {
      NotifyTurns(s, f);
    } else {
      hide SignalTurn, EmitReview, Notify, Respond, SteerReport, PendingOf, CommandResult, FileChangeResult,
          PermissionsResult, ThreadContext;
    }
  }

  /** The same, seen from one turn. */
  lemma TurnStepAt(s: State, f: Fact, t: string)
    ensures var told, after := SignalOf(s, f), Ingest(s, f).0;
      if told.None? || told.value.0 != t || (t !in s.turns && !Opens(told.value.1)) then
        (t in after.turns <==> t in s.turns) && (t in s.turns ==> after.turns[t] == s.turns[t])
      else if MayComplete(told.value.1) && Reportable(s, Apply(TurnOrNew(s, t), told.value.1)) then
        t !in after.turns
      else
        t in after.turns && after.turns[t] == Apply(TurnOrNew(s, t), told.value.1)
  {
    hide Ingest, Apply, SignalTurn, Reportable, SignalOf;
    TurnStep(s, f);
    if SignalOf(s, f).Some? { SignalAt(s, SignalOf(s, f).value.0, SignalOf(s, f).value.1, t); }
  }

  lemma SignalAt(s: State, turnId: string, signal: Signal, t: string)
    ensures var after := SignalTurn(s, turnId, signal).0;
      if turnId != t || (t !in s.turns && !Opens(signal)) then
        (t in after.turns <==> t in s.turns) && (t in s.turns ==> after.turns[t] == s.turns[t])
      else if MayComplete(signal) && Reportable(s, Apply(TurnOrNew(s, t), signal)) then
        t !in after.turns
      else
        t in after.turns && after.turns[t] == Apply(TurnOrNew(s, t), signal)
  {
    hide Apply, TurnReport;
  }

  // ------------------------------------------------------------- epochs

  /** The signals a live turn has received since its state was last created. */
  function EpochSignals(facts: seq<Fact>, t: string): seq<Signal>
  {
    if facts == [] || t !in After(facts).turns then []
    else
      var told := SignalOf(After(Front(facts)), Last(facts));
      EpochSignals(Front(facts), t) + if told.Some? && told.value.0 == t then [told.value.1] else []
  }

  function Ran(tool: ToolKind): Signal -> bool { (g: Signal) => g == ToolRan(tool) }

  function AnyTool(): Signal -> bool { (g: Signal) => g.ToolRan? }

  function AnySteer(): Signal -> bool { (g: Signal) => g.Steered? }

  function Connection(): Signal -> Option<nat> { (g: Signal) => if g.Started? then Some(g.connectionId) else None }

  function ThreadOf(): Signal -> Option<string>
  {
    (g: Signal) => if g.Started? || g.Configured? || g.TokensUsed? || g.DiffChanged? then Some(g.threadId) else None
  }

  function ImagesOf(): Signal -> Option<nat>
  {
    (g: Signal) => if g.Started? || g.Configured? then Some(g.numInputImages) else None
  }

  function ConfigOf(): Signal -> Option<ResolvedConfig>
  {
    (g: Signal) => if g.Configured? then Some(g.config) else None
  }

  function BeganOf(): Signal -> Option<Option<nat>> { (g: Signal) => if g.BeganAt? then Some(g.startedAt) else None }

  function UsageOf(): Signal -> Option<Payload> { (g: Signal) => if g.TokensUsed? then Some(g.usage) else None }

  function CompletionOf(): Signal -> Option<CompletedTurn>
  {
    (g: Signal) => if g.Finished? then Some(g.completion) else None
  }

  function DiffOf(): Signal -> Option<string> { (g: Signal) => if g.DiffChanged? then Some(g.diff) else None }

  /** What an epoch amounts to: for each field the latest signal that set it, and counts of the rest. */
  function Digest(signals: seq<Signal>): TurnState
  {
    var began := Latest(signals, BeganOf());
    TurnState(
      Latest(signals, Connection()), Latest(signals, ThreadOf()), Latest(signals, ImagesOf()),
          Latest(signals, ConfigOf()),
      if began.Some? then began.value else None,
      Latest(signals, UsageOf()), Latest(signals, CompletionOf()), Latest(signals, DiffOf()),
      Count(signals, AnySteer()),
      Counts(signals))
  }

  function Counts(signals: seq<Signal>): ToolCounts
  {
    ToolCounts(Count(signals, AnyTool()),
      Count(signals, Ran(ShellCommand)), Count(signals, Ran(Patch)), Count(signals, Ran(Mcp)),
          Count(signals, Ran(Dynamic)),
      Count(signals, Ran(Collab)), Count(signals, Ran(Search)), Count(signals, Ran(ImageGen)))
  }

  lemma CountsGrow(signals: seq<Signal>, g: Signal)
    ensures Counts(signals + [g]) == if g.ToolRan? then RecordTool(Counts(signals), g.tool) else Counts(signals)
  {
    CountOfAppend(signals, g, AnyTool());
    CountOfAppend(signals, g, Ran(ShellCommand));
    CountOfAppend(signals, g, Ran(Patch));
    CountOfAppend(signals, g, Ran(Mcp));
    CountOfAppend(signals, g, Ran(Dynamic));
    CountOfAppend(signals, g, Ran(Collab));
    CountOfAppend(signals, g, Ran(Search));
    CountOfAppend(signals, g, Ran(ImageGen));
    hide Count;
  }

  lemma DigestGrows(signals: seq<Signal>, g: Signal)
    ensures Digest(signals + [g]) == Apply(Digest(signals), g)
  {
    CountsGrow(signals, g);
    CountOfAppend(signals, g, AnySteer());
    LatestOfAppend(signals, g, Connection());
    LatestOfAppend(signals, g, ThreadOf());
    LatestOfAppend(signals, g, ImagesOf());
    LatestOfAppend(signals, g, ConfigOf());
    LatestOfAppend(signals, g, BeganOf());
    LatestOfAppend(signals, g, UsageOf());
    LatestOfAppend(signals, g, CompletionOf());
    LatestOfAppend(signals, g, DiffOf());
    hide Count, Latest, Counts, RecordTool;
  }

  /** In every reachable state a turn's stored state is the digest of its epoch. */
  lemma {:induction false} TurnStateIsEpochDigest(facts: seq<Fact>, t: string)
    ensures t in After(facts).turns ==> After(facts).turns[t] == Digest(EpochSignals(facts, t))
    ensures t !in After(facts).turns ==> EpochSignals(facts, t) == []
    ensures TurnOrNew(After(facts), t) == Digest(EpochSignals(facts, t))
  {
    hide Ingest, Apply, Digest;
    DigestOfNothing();
    if facts != [] {
      var s, f := After(Front(facts)), Last(facts);
      TurnStateIsEpochDigest(Front(facts), t);
      TurnStepAt(s, f, t);
      var told := SignalOf(s, f);
      if told.Some? && told.value.0 == t {
        DigestGrows(EpochSignals(Front(facts), t), told.value.1);
      } else {
        assert EpochSignals(Front(facts), t) + [] == EpochSignals(Front(facts), t);
      }
    }
  }

  lemma DigestOfNothing()
    ensures Digest([]) == NEW_TURN
  {
  }

  /** A live turn's total is the number of tracked tool completions since it was created, and the
      sum of its seven kinds. */
  lemma ToolCountsAddUp(facts: seq<Fact>, t: string)
    requires t in After(facts).turns
    ensures var c := After(facts).turns[t].toolCounts;
      && c.total == Count(EpochSignals(facts, t), AnyTool())
      && c.total == c.shellCommand + c.fileChange + c.mcpToolCall + c.dynamicToolCall + c.subagentToolCall
          + c.webSearch + c.imageGeneration
  {
    hide Ingest;
    TurnStateIsEpochDigest(facts, t);
    KindsAddUp(EpochSignals(facts, t));
  }

  lemma {:induction false} KindsAddUp(signals: seq<Signal>)
    ensures Count(signals, AnyTool())
         == Count(signals, Ran(ShellCommand)) + Count(signals, Ran(Patch)) + Count(signals, Ran(Mcp))
          + Count(signals, Ran(Dynamic)) + Count(signals, Ran(Collab)) + Count(signals, Ran(Search))
          + Count(signals, Ran(ImageGen))
  {
    if signals != [] {
      KindsAddUp(Front(signals));
      if Last(signals).ToolRan? {
        match Last(signals).tool
        case ShellCommand => case Patch => case Mcp => case Dynamic => case Collab => case Search => case ImageGen =>
      }
    }
  }

  // ------------------------------------------------------------ reports

  /** Whether the latest fact of a run completes turn `t`, judged from the epoch it belongs to. */
  ghost predicate CompletesTurn(facts: seq<Fact>, t: string)
  {
    && facts != []
    && var s, told := After(Front(facts)), SignalOf(After(Front(facts)), Last(facts));
       && told.Some? && told.value.0 == t && MayComplete(told.value.1)
       && Reportable(s, Digest(EpochSignals(Front(facts), t) + [told.value.1]))
  }

  /** A turn is reported exactly when a fact completes its epoch; the report states that epoch's
      digest, with the epoch's latest diff counted, and the epoch ends. */
  lemma ReportStatesTheEpoch(facts: seq<Fact>)
    requires facts != []
    ensures var s, f := After(Front(facts)), Last(facts); var told, out := SignalOf(s, f), Ingest(s, f).1;
      if told.Some? && CompletesTurn(facts, told.value.0) then
        && out == TurnReport(s, told.value.0, Digest(EpochSignals(Front(facts), told.value.0) + [told.value.1]))
        && told.value.0 !in After(facts).turns
      else
        forall e :: e in out ==> !IsTurnEvent(e)
  {
    var s, f := After(Front(facts)), Last(facts);
    var told := SignalOf(s, f);
    hide Ingest, Apply, Digest, TurnReport;
    TurnStep(s, f);
    if told.Some? {
      TurnStateIsEpochDigest(Front(facts), told.value.0);
      DigestGrows(EpochSignals(Front(facts), told.value.0), told.value.1);
    }
  }

  /** What may stand at one place of an output: an accepted-lines event only directly behind the report
      of the same turn, counting that turn's latest diff. */
  ghost predicate LinesFollowReport(out: seq<Event>, i: nat)
    requires i < |out|
  {
    out[i].AcceptedLines? ==>
      && i > 0 && out[i - 1].TurnReported? && out[i - 1].turnId == out[i].turnId
      && out[i - 1].turn.threadId == Some(out[i].threadId)
      && out[i - 1].turn.latestDiff.Some?
      && DiffScan.DiffCounts(out[i - 1].turn.latestDiff.value) == (out[i].added, out[i].deleted)
      && (out[i].added != 0 || out[i].deleted != 0)
  }

  lemma ReportLines(s: State, turnId: string, turn: TurnState)
    requires Reportable(s, turn)
    ensures forall i :: 0 <= i < |TurnReport(s, turnId, turn)| ==> LinesFollowReport(TurnReport(s, turnId, turn), i)
  {
    hide DiffScan.DiffCounts;
  }

  lemma StepLinesFollowReport(s: State, f: Fact)
    ensures forall i :: 0 <= i < |Ingest(s, f).1| ==> LinesFollowReport(Ingest(s, f).1, i)
  {
    hide Ingest, DiffScan.DiffCounts, Apply, SignalOf, TurnReport;
    TurnStep(s, f);
    var told, out := SignalOf(s, f), Ingest(s, f).1;
    if told.Some? && MayComplete(told.value.1) {
      var turn := Apply(TurnOrNew(s, told.value.0), told.value.1);
      var after := s.(turns := s.turns[told.value.0 := turn]);
      if Reportable(after, turn) { ReportLines(after, told.value.0, turn); }
    } else {
      forall i | 0 <= i < |out| ensures LinesFollowReport(out, i) { assert out[i] in out; }
    }
  }

  lemma {:induction false} AcceptedLinesFollowReports(facts: seq<Fact>)
    ensures forall i :: 0 <= i < |Output(facts)| ==> LinesFollowReport(Output(facts), i)
  {
    hide Ingest, DiffScan.DiffCounts;
    if facts != [] {
      AcceptedLinesFollowReports(Front(facts));
      var before, step := Output(Front(facts)), Ingest(After(Front(facts)), Last(facts)).1;
      assert Output(facts) == before + step;
      StepLinesFollowReport(After(Front(facts)), Last(facts));
      forall i | 0 <= i < |Output(facts)| ensures LinesFollowReport(Output(facts), i) {
        if i < |before| {
          assert LinesFollowReport(before, i);
        } else {
          assert LinesFollowReport(step, i - |before|);
          assert Output(facts)[i] == step[i - |before|];
          if i > |before| { assert Output(facts)[i - 1] == step[i - 1 - |before|]; }
        }
      }
    }
  }

  // ------------------------------------------------------------- bounds

  function IsReportOf(t: string): Event -> bool { (e: Event) => e.TurnReported? && e.turnId == t }

  /** A signal of the given sort reached the turn. */
  function Hears(t: string, what: Signal -> bool): Meter
  {
    (s: State, f: Fact) => var told := SignalOf(s, f);
        if told.Some? && told.value.0 == t && what(told.value.1) then 1 else 0
  }

  function IsStarted(): Signal -> bool { (g: Signal) => g.Started? }

  function IsConfigured(): Signal -> bool { (g: Signal) => g.Configured? }

  function IsFinished(): Signal -> bool { (g: Signal) => g.Finished? }

  function Bound(t: string): State -> nat
  {
    (s: State) => if t in s.turns && s.turns[t].connectionId.Some? then 1 else 0
  }

  function Resolved(t: string): State -> nat
  {
    (s: State) => if t in s.turns && s.turns[t].resolvedConfig.Some? then 1 else 0
  }

  function Ended(t: string): State -> nat { (s: State) => if t in s.turns && s.turns[t].completed.Some? then 1 else 0 }

  lemma OneReport(s: State, f: Fact, t: string)
    ensures Emits(IsReportOf(t))(s, f)
         == var told := SignalOf(s, f);
            if told.Some? && told.value.0 == t && MayComplete(told.value.1)
                && Reportable(s, Apply(TurnOrNew(s, t), told.value.1))
            then 1 else 0
  {
    hide Ingest, Apply;
    TurnStep(s, f);
    hide AcceptedLinesOf, SignalOf;
    var told, out, p := SignalOf(s, f), Ingest(s, f).1, IsReportOf(t);
    if told.Some? && MayComplete(told.value.1) && out != [] {
      assert out == [out[0]] + out[1..] && Front([out[0]]) == [];
      FilterAppend([out[0]], out[1..], p);
      NoEvents(out[1..], p);
      assert Filter([out[0]], p) == if p(out[0]) then [out[0]] else [];
    } else {
      NoEvents(out, p);
    }
  }

  lemma ReportStepSolvent(s: State, f: Fact, t: string)
    ensures Emits(IsReportOf(t))(s, f) + Bound(t)(Ingest(s, f).0) <= Bound(t)(s) + Hears(t, IsStarted())(s, f)
    ensures Emits(IsReportOf(t))(s, f) + Resolved(t)(Ingest(s, f).0) <= Resolved(t)(s) + Hears(t, IsConfigured())(s, f)
    ensures Emits(IsReportOf(t))(s, f) + Ended(t)(Ingest(s, f).0) <= Ended(t)(s) + Hears(t, IsFinished())(s, f)
  {
    hide Ingest;
    OneReport(s, f, t);
    TurnStepAt(s, f, t);
  }

  function IsConfigFact(t: string): Fact -> bool { (f: Fact) => f.TurnResolvedConfig? && f.turnId == t }

  function IsCompletionFact(t: string): Fact -> bool
  {
    (f: Fact) => f.Notified? && f.notification.TurnCompleted? && f.notification.turnId == t
  }

  lemma OnlyConfigFactsConfigure(s: State, f: Fact, t: string)
    ensures Hears(t, IsConfigured())(s, f) == if IsConfigFact(t)(f) then 1 else 0
    ensures Hears(t, IsFinished())(s, f) == if IsCompletionFact(t)(f) then 1 else 0
  {
    hide Completion;
    var told := SignalOf(s, f);
    if told.Some? {
      assert IsConfigured()(told.value.1) <==> f.TurnResolvedConfig?;
      assert IsFinished()(told.value.1) <==> f.Notified? && f.notification.TurnCompleted?;
    }
  }

  lemma {:induction false} HeardIsSeen(facts: seq<Fact>, t: string)
    ensures Total(facts, Hears(t, IsConfigured())) == |Filter(facts, IsConfigFact(t))|
    ensures Total(facts, Hears(t, IsFinished())) == |Filter(facts, IsCompletionFact(t))|
  {
    hide Ingest, Completion;
    if facts != [] {
      var s, f := After(Front(facts)), Last(facts);
      HeardIsSeen(Front(facts), t);
      OnlyConfigFactsConfigure(s, f, t);
    }
  }

  /** Over every run a turn is reported at most as often as its start was matched, as its
      configuration was resolved, and as its completion was announced. */
  lemma ReportsBounded(facts: seq<Fact>, t: string)
    ensures var reports := |Filter(Output(facts), IsReportOf(t))|;
      && reports <= Total(facts, Hears(t, IsStarted()))
      && reports <= |Filter(facts, IsConfigFact(t))|
      && reports <= |Filter(facts, IsCompletionFact(t))|
  {
    hide Ingest;
    var emits := Emits(IsReportOf(t));
    forall s, f
      ensures emits(s, f) + Bound(t)(Ingest(s, f).0) <= Bound(t)(s) + Hears(t, IsStarted())(s, f)
      ensures emits(s, f) + Resolved(t)(Ingest(s, f).0) <= Resolved(t)(s) + Hears(t, IsConfigured())(s, f)
      ensures emits(s, f) + Ended(t)(Ingest(s, f).0) <= Ended(t)(s) + Hears(t, IsFinished())(s, f)
    {
      ReportStepSolvent(s, f, t);
    }
    SolventRun(facts, emits, Hears(t, IsStarted()), Bound(t));
    SolventRun(facts, emits, Hears(t, IsConfigured()), Resolved(t));
    SolventRun(facts, emits, Hears(t, IsFinished()), Ended(t));
    TotalEmitted(facts, IsReportOf(t));
    HeardIsSeen(facts, t);
  }

  // --------------------------------------------------------- projection

  /** The facts turn `t` depends on: connections, threads and client requests with their answers,
      which all turns share, and what speaks to `t` itself. */
  predicate Relevant(f: Fact, t: string)
  {
    match f
    case Initialize(_, _, _) => true
    case SubAgentThreadStarted(_, _, _, _, _, _, _, _, _) => true
    case ClientRequested(_, _, _) => true
    case ClientResponded(_, _, _) => true
    case ErrorResponded(_, _, _) => true
    case TurnResolvedConfig(turnId, _, _, _) => turnId == t
    case TurnTokenUsage(turnId, _, _) => turnId == t
    case Notified(n) =>
      (n.ItemCompleted? || n.TurnStarted? || n.TurnDiffUpdated? || n.TurnCompleted?) && n.turnId == t
    case _ => false
  }

  /** Two reducer states that turn `t` cannot tell apart. */
  ghost predicate Alike(s1: State, s2: State, t: string)
  {
    && SameShared(s1, s2)
    && (t in s1.turns <==> t in s2.turns)
    && (t in s1.turns ==> s1.turns[t] == s2.turns[t])
  }

  function IsOutputOf(t: string): Event -> bool { (e: Event) => IsTurnEvent(e) && e.turnId == t }

  function TurnOutput(out: seq<Event>, t: string): seq<Event> { Filter(out, IsOutputOf(t)) }

  lemma {:induction false} KeepsAll(out: seq<Event>, p: Event -> bool)
    requires forall i :: 0 <= i < |out| ==> p(out[i])
    ensures Filter(out, p) == out
  {
    if out != [] {
      var front, last := Front(out), Last(out);
      assert forall i :: 0 <= i < |front| ==> front[i] == out[i];
      KeepsAll(front, p);
      assert Filter(out, p) == front + [last];
      assert out == front + [last];
    }
  }

  /** What a step contributes to the output of `t`, in terms of `t` alone. */
  lemma StepOutput(s: State, f: Fact, t: string)
    ensures TurnOutput(Ingest(s, f).1, t)
         == var told := SignalOf(s, f);
            if told.Some? && told.value.0 == t && MayComplete(told.value.1)
                && Reportable(s, Apply(TurnOrNew(s, t), told.value.1))
            then TurnReport(s, t, Apply(TurnOrNew(s, t), told.value.1)) else []
  {
    hide Ingest, SignalTurn, Reportable, TurnReport, Filter, SignalOf;
    TurnStep(s, f);
    var told, out := SignalOf(s, f), Ingest(s, f).1;
    if told.Some? && MayComplete(told.value.1) && told.value.0 == t {
      SignalOutput(s, t, told.value.1);
      KeepsAll(out, IsOutputOf(t));
    } else {
      NoEvents(out, IsOutputOf(t));
    }
  }

  lemma SignalOutput(s: State, t: string, signal: Signal)
    requires MayComplete(signal)
    ensures SignalTurn(s, t, signal).1
         == if Reportable(s, Apply(TurnOrNew(s, t), signal)) then TurnReport(s, t, Apply(TurnOrNew(s, t), signal))
             else []
  {
    hide Apply, AcceptedLinesOf;
  }

  ghost predicate SameShared(s1: State, s2: State)
  {
    s1.requests == s2.requests && s1.connections == s2.connections && s1.threads == s2.threads
  }

  lemma RespondShared(s1: State, s2: State, c: nat, id: RequestId, response: ClientResponse)
    requires SameShared(s1, s2)
    ensures SameShared(Respond(s1, c, id, response).0, Respond(s2, c, id, response).0)
  {
    hide AnswerTurnStart, AnswerTurnSteer, Metadata;
  }

  lemma SubAgentShared(s1: State, s2: State, f: Fact)
    requires SameShared(s1, s2) && f.SubAgentThreadStarted?
    ensures SameShared(StartSubAgentThread(s1, f).0, StartSubAgentThread(s2, f).0)
  {
    hide SubAgentName;
  }

  lemma RequestShared(s1: State, s2: State, key: RequestKey, request: ClientRequest, reason: Option<RejectionReason>)
    requires SameShared(s1, s2)
    ensures SameShared(Request(s1, key, request), Request(s2, key, request))
    ensures SameShared(Fail(s1, key, reason).0, Fail(s2, key, reason).0)
  {
    hide NumInputImages, SteerReport;
  }

  /** The maps every turn shares evolve independently of the turns. */
  lemma SharedMapsAgree(s1: State, s2: State, f: Fact)
    requires SameShared(s1, s2)
    ensures SameShared(Ingest(s1, f).0, Ingest(s2, f).0)
  {
    hide SignalTurn, Notify, AskApproval, AnswerApproval, SettleUserReview, StartSubAgentThread, Fail, Request, Respond;
    match f
    case ClientResponded(c, id, response) => RespondShared(s1, s2, c, id, response);
    case SubAgentThreadStarted(_, _, _, _, _, _, _, _, _) => SubAgentShared(s1, s2, f);
    case ClientRequested(c, id, request) => RequestShared(s1, s2, (c, id), request, None);
    case ErrorResponded(c, id, reason) => RequestShared(s1, s2, (c, id), OtherRequest, reason);
    case _ =>
  }

  lemma SameSignal(s1: State, s2: State, f: Fact)
    requires s1.requests == s2.requests
    ensures SignalOf(s1, f) == SignalOf(s2, f)
  {
  }

  lemma AlikeStep(s1: State, s2: State, f: Fact, t: string)
    requires Alike(s1, s2, t)
    ensures Alike(Ingest(s1, f).0, Ingest(s2, f).0, t)
    ensures TurnOutput(Ingest(s1, f).1, t) == TurnOutput(Ingest(s2, f).1, t)
  {
    hide Ingest, Apply, AcceptedLinesOf, SignalOf;
    SameSignal(s1, s2, f);
    SharedMapsAgree(s1, s2, f);
    TurnStepAt(s1, f, t);
    TurnStepAt(s2, f, t);
    StepOutput(s1, f, t);
    StepOutput(s2, f, t);
  }

  lemma IrrelevantStep(s: State, f: Fact, t: string)
    requires !Relevant(f, t)
    ensures Alike(s, Ingest(s, f).0, t)
    ensures TurnOutput(Ingest(s, f).1, t) == []
  {
    hide Ingest, Apply, AcceptedLinesOf;
    Frames(s, f);
    TurnStepAt(s, f, t);
    StepOutput(s, f, t);
  }

  /** The reports of a turn over any run are those of the run stripped of any facts outside the
      turn's dependencies: the shared reducer is a product of per-turn reducers. */
  lemma {:induction false} PerTurnProjection(facts: seq<Fact>, t: string, keep: Fact -> bool)
    requires forall f :: Relevant(f, t) ==> keep(f)
    ensures Alike(After(facts), After(Filter(facts, keep)), t)
    ensures TurnOutput(Output(facts), t) == TurnOutput(Output(Filter(facts, keep)), t)
  {
    hide Ingest, Alike, Relevant;
    if facts == [] {
      AlikeItself(INITIAL, t);
    } else {
      var init, f := Front(facts), Last(facts);
      var kept := Filter(init, keep);
      PerTurnProjection(init, t, keep);
      FilterAppend(Output(init), Ingest(After(init), f).1, IsOutputOf(t));
      if keep(f) {
        assert Front(kept + [f]) == kept && Last(kept + [f]) == f;
        AlikeStep(After(init), After(kept), f, t);
        FilterAppend(Output(kept), Ingest(After(kept), f).1, IsOutputOf(t));
      } else {
        IrrelevantStep(After(init), f, t);
        AlikeSwap(After(init), Ingest(After(init), f).0, After(kept), t);
        assert kept + [] == kept;
      }
    }
  }

  lemma AlikeItself(s: State, t: string)
    ensures Alike(s, s, t)
  {
  }

  lemma AlikeSwap(s: State, moved: State, other: State, t: string)
    requires Alike(s, moved, t) && Alike(s, other, t)
    ensures Alike(moved, other, t)
  {
  }
}
