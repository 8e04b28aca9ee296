/** The reducer says what the facts call for: each of its maps remembers what the facts amount to, and its output is the
    story the facts tell, event for event. */
module ReducerRefinement {
  import opened Common
  import opened ReducerModel
  import opened ReducerRuns
  import opened ReducerTurns
  import opened ReducerReviews
  import opened ReducerStory
  import DiffScan

  // ---------------------------------------------------------------- threads

  function ThreadIn(s: State, id: string): ThreadState
  {
    if id in s.threads then s.threads[id] else ThreadState(None, None)
  }

  lemma MetadataIs(thread: Thread, mode: InitializationMode)
    ensures Metadata(thread, mode) == OpenedAs(thread, mode)
  {
  }

  lemma OpenedStep(s: State, f: Fact, id: string)
    requires f.ClientResponded? && f.response.ThreadOpened?
    ensures var r := f.response;
      ThreadIn(Ingest(s, f).0, id)
      == if r.thread.id == id && f.connectionId in s.connections
         then ThreadState(Some(f.connectionId), Some(OpenedAs(r.thread, r.mode))) else ThreadIn(s, id)
  {
    Dispatch(s, f);
    MetadataIs(f.response.thread, f.response.mode);
    hide Ingest, Metadata, OpenedAs;
  }

  lemma SpawnedStep(s: State, f: Fact, id: string)
    requires f.SubAgentThreadStarted?
    ensures Ingest(s, f) == StartSubAgentThread(s, f)
    ensures var was := ThreadIn(s, id);
      ThreadIn(Ingest(s, f).0, id)
      == if f.threadId != id then was
         else ThreadState(
                if was.connectionId.Some? then was.connectionId
                else if ParentOf(f).Some? then ThreadIn(s, ParentOf(f).value).connectionId
                else None,
                if was.metadata.Some? then was.metadata else Some(SpawnedAs(f)))
  {
    assert SubAgentName(f.source) == NameOfSource(f.source);
    hide SubAgentName, NameOfSource, SignalTurn, Notify, Respond, Fail, Request, AskApproval, AnswerApproval,
        SettleUserReview;
  }

  lemma {:induction false} ThreadHistory(facts: seq<Fact>, id: string)
    ensures ThreadAt(facts, id) == ThreadIn(After(facts), id)
  {
    if facts != [] {
      var past, s, f := Front(facts), After(Front(facts)), Last(facts);
      ThreadHistory(past, id);
      Frames(s, f);
      hide Ingest, OpenedAs, SpawnedAs, Known;
      if f.ClientResponded? && f.response.ThreadOpened? {
        OpenedStep(s, f, id);
        KnownIs(past, f.connectionId);
      } else if f.SubAgentThreadStarted? {
        SpawnedStep(s, f, id);
        if ParentOf(f).Some? { ThreadHistory(past, ParentOf(f).value); }
      }
    }
  }

  lemma KnownIs(facts: seq<Fact>, c: nat)
    ensures Known(facts, c) == if c in After(facts).connections then Some(After(facts).connections[c]) else None
  {
    hide Ingest;
    ConnectionsHoldLatest(facts, c);
  }

  lemma ContextIs(facts: seq<Fact>, id: string)
    ensures ContextAt(facts, id) == match ThreadContext(After(facts), id)
                                    case Found(connection, metadata) => Some((connection, metadata))
                                    case Dropped(_) => None
    ensures ThreadAt(facts, id).metadata == KnownMetadata(After(facts), id)
  {
    hide After, Known, ThreadAt;
    ThreadHistory(facts, id);
    if ThreadAt(facts, id).connectionId.Some? { KnownIs(facts, ThreadAt(facts, id).connectionId.value); }
  }

  // --------------------------------------------------------------- requests

  lemma {:induction false} ImagesAre(input: seq<UserInput>)
    ensures NumInputImages(input) == Count(input, IsImage())
  {
    CountIsFiltered(input, IsImage(), (i: UserInput) => i.Image? || i.LocalImage?);
  }

  lemma {:induction false} CountIsFiltered<T>(xs: seq<T>, p: T -> bool, q: T -> bool)
    requires forall x :: x in xs ==> p(x) == q(x)
    ensures |Filter(xs, q)| == Count(xs, p)
  {
    if xs != [] {
      assert Last(xs) in xs && forall x :: x in Front(xs) ==> x in xs;
      CountIsFiltered(Front(xs), p, q);
    }
  }

  function Stored(r: Option<ClientRequest>): Option<RequestState>
  {
    match r
    case Some(TurnStart(threadId, input)) => Some(PendingTurnStart(threadId, Count(input, IsImage())))
    case Some(TurnSteer(threadId, expected, input, at)) =>
      Some(PendingTurnSteer(threadId, expected, Count(input, IsImage()), at))
    case _ => None
  }

  lemma RequestFactIs(f: Fact, key: RequestKey)
    requires IsTurnRequest(f, key)
    ensures RequestFact(key)(f) == Stored(Some(f.request))
  {
    ImagesAre(f.request.input);
    hide NumInputImages, Count;
  }

  lemma {:induction false} RequestHistory(facts: seq<Fact>, key: RequestKey)
    ensures Stored(Asked(facts, key)) == if key in After(facts).requests then Some(After(facts).requests[key]) else None
  {
    if facts != [] {
      RequestHistory(Front(facts), key);
      var s, f := After(Front(facts)), Last(facts);
      RequestStep(s, f, key);
      if IsTurnRequest(f, key) { RequestFactIs(f, key); }
      hide Ingest, RequestFact, Stored;
    }
  }

  // ------------------------------------------------------------------ turns

  lemma ToolIs(item: ThreadItem)
    ensures ToolOf(item) == ItemTool(item)
  {
  }

  lemma CompletionIs(n: Notification)
    requires n.TurnCompleted?
    ensures Completion(n) == CompletedTurn(if n.status.TurnInProgress? then None else Some(n.status), n.error,
                                           if n.completedAt.Some? && n.completedAt.value >= 0 then n.completedAt.value
                                           else 0, NotNegative(n.durationMs))
  {
  }

  lemma HeardIs(facts: seq<Fact>)
    requires facts != []
    ensures Heard(facts) == SignalOf(After(Front(facts)), Last(facts))
  {
    var s, f := After(Front(facts)), Last(facts);
    hide After, Asked;
    if f.ClientResponded? {
      RequestHistory(Front(facts), (f.connectionId, f.requestId));
    } else if f.Notified? && f.notification.ItemCompleted? {
      ToolIs(f.notification.item);
      hide ItemTool, ToolOf;
    } else if f.Notified? && f.notification.TurnCompleted? {
      CompletionIs(f.notification);
      hide Completion;
    }
  }

  lemma {:induction false} ConfiguredHasImages(epoch: seq<Signal>)
    ensures Latest(epoch, ConfigOf()).Some? ==> Latest(epoch, ImagesOf()).Some?
  {
    if epoch != [] { ConfiguredHasImages(Front(epoch)); }
  }

  lemma CompleteIs(past: seq<Fact>, epoch: seq<Signal>)
    ensures Complete(past, epoch) <==> Reportable(After(past), Digest(epoch))
  {
    hide After, Known, ThreadAt, Latest, Counts, Count;
    ConfiguredHasImages(epoch);
    var c, thread := Latest(epoch, Connection()), Latest(epoch, ThreadOf());
    if c.Some? { KnownIs(past, c.value); }
    if thread.Some? { ContextIs(past, thread.value); }
  }

  lemma ReportIs(past: seq<Fact>, t: string, epoch: seq<Signal>)
    requires Complete(past, epoch)
    ensures Reportable(After(past), Digest(epoch))
    ensures Report(past, t, epoch) == TurnReport(After(past), t, Digest(epoch))
  {
    CompleteIs(past, epoch);
    hide After, Known, ThreadAt, Latest, Counts, Count, DiffScan.DiffCounts;
    KnownIs(past, Latest(epoch, Connection()).value);
    ContextIs(past, Latest(epoch, ThreadOf()).value);
  }

  /** How a signal moves the epoch of the turn it reaches. */
  lemma EpochStep(past: seq<Fact>, t: string, g: Signal)
    requires var s := After(past);
      Epoch(past, t) == EpochSignals(past, t) && (t in s.turns <==> Epoch(past, t) != [])
    ensures Reports(past, Epoch(past, t), g) <==>
      MayComplete(g) && Reportable(After(past), Apply(TurnOrNew(After(past), t), g))
  {
    var was := Epoch(past, t);
    TurnStateIsEpochDigest(past, t);
    DigestGrows(was, g);
    CompleteIs(past, was + [g]);
    hide After, Epoch, EpochSignals, Digest, Apply, Reportable, Complete, TurnOrNew;
  }

  lemma {:induction false} EpochHistory(facts: seq<Fact>, t: string)
    ensures Epoch(facts, t) == EpochSignals(facts, t)
    ensures t in After(facts).turns <==> Epoch(facts, t) != []
  {
    if facts != [] {
      var past, s, f := Front(facts), After(Front(facts)), Last(facts);
      EpochHistory(past, t);
      HeardIs(facts);
      TurnStepAt(s, f, t);
      var heard := Heard(facts);
      if heard.Some? && heard.value.0 == t { EpochStep(past, t, heard.value.1); }
      assert EpochSignals(past, t) + [] == EpochSignals(past, t);
      hide Ingest, SignalOf, Heard, Apply, Reportable, Reports, TurnOrNew;
    }
  }

  lemma TurnSays(facts: seq<Fact>)
    requires facts != []
    ensures var s, told := After(Front(facts)), SignalOf(After(Front(facts)), Last(facts));
      && told == Heard(facts)
      && (told.Some? && MayComplete(told.value.1) ==> Ingest(s, Last(facts)).1 == TurnTold(facts))
      && (told.None? || !MayComplete(told.value.1) ==> TurnTold(facts) == [])
  {
    var past, s, f := Front(facts), After(Front(facts)), Last(facts);
    HeardIs(facts);
    var heard := Heard(facts);
    TurnStep(s, f);
    if heard.Some? {
      var t, g := heard.value.0, heard.value.1;
      EpochHistory(past, t);
      EpochStep(past, t, g);
      if MayComplete(g) {
        SignalOutput(s, t, g);
        TurnStateIsEpochDigest(past, t);
        DigestGrows(Epoch(past, t), g);
        if Reports(past, Epoch(past, t), g) { ReportIs(past, t, Epoch(past, t) + [g]); }
      }
    }
    hide Ingest, SignalOf, Heard, Apply, Reportable, Complete, Digest, TurnOrNew, Report, TurnReport, SignalTurn, Epoch,
        EpochSignals, After;
  }

  // ------------------------------------------------------------------ items

  lemma CompletedTakes(s: State, f: Fact, key: ItemKey)
    requires f.Notified? && f.notification.ItemCompleted?
    ensures var n := f.notification;
      Ingest(s, f).0.itemsStarted
      == if ItemTool(n.item).Some? && n.turnId in s.turns
         then s.itemsStarted - {ItemKey(n.threadId, n.turnId, n.item.id)} else s.itemsStarted
  {
    Dispatch(s, f);
    hide Ingest, SignalTurn, ThreadContext, ToolReport, ItemTool;
  }

  lemma StartedPuts(s: State, f: Fact)
    requires f.Notified? && f.notification.ItemStarted?
    ensures var n := f.notification;
      Ingest(s, f).0.itemsStarted
      == if ItemTool(n.item).Some? && n.startedAtMs >= 0
         then s.itemsStarted[ItemKey(n.threadId, n.turnId, n.item.id) := n.startedAtMs] else s.itemsStarted
  {
    Dispatch(s, f);
    hide Ingest, ItemTool;
  }

  lemma {:induction false} ItemHistory(facts: seq<Fact>, key: ItemKey)
    ensures StartedAt(facts, key) == if key in After(facts).itemsStarted then Some(After(facts).itemsStarted[key])
        else None
  {
    if facts != [] {
      var past, s, f := Front(facts), After(Front(facts)), Last(facts);
      ItemHistory(past, key);
      Frames(s, f);
      hide Ingest, Epoch, ItemTool, ToolOf;
      if f.Notified? && f.notification.ItemCompleted? {
        ToolIs(f.notification.item);
        EpochHistory(past, f.notification.turnId);
        CompletedTakes(s, f, key);
      } else if f.Notified? && f.notification.ItemStarted? {
        ToolIs(f.notification.item);
        StartedPuts(s, f);
      }
    }
  }

  // ---------------------------------------------------------------- reviews

  lemma ClaimIs(r: ServerRequest)
    requires r.Approval? && r.startedAtMs >= 0
    ensures PendingOf(r, r.startedAtMs) == ClaimOf(r)
  {
    hide Display;
  }

  lemma SettlesIs(f: Fact, id: RequestId)
    ensures Settles(f, id) <==> AnsweredBy(f) == Some(id)
  {
  }

  lemma {:induction false} ClaimHistory(facts: seq<Fact>, id: RequestId)
    ensures Claim(facts, id).Some? <==> id in After(facts).pendingReviews
    ensures Claim(facts, id).Some? ==>
      && Claim(facts, id).value.Approval? && Claim(facts, id).value.startedAtMs >= 0
      && After(facts).pendingReviews[id] == ClaimOf(Claim(facts, id).value)
  {
    if facts != [] {
      ClaimHistory(Front(facts), id);
      var s, f := After(Front(facts)), Last(facts);
      PendingStep(s, f, id);
      SettlesIs(f, id);
      hide Ingest, Settles, AnsweredBy, PendingOf, ClaimOf;
      if IsApprovalRequest(f, id) { ClaimIs(f.serverRequest); }
    }
  }

  lemma GuardianRulingIs(n: Notification)
    requires n.GuardianReviewCompleted?
    ensures DecideGuardian(n)
         == if n.guardianStatus.GuardianInProgress? || n.startedAtMs < 0 || n.completedAtMs < 0 then None
            else Some(Decided(GuardianClaim(n), Guardian, StatusOf(Notified(n)), NoResolution, n.completedAtMs))
  {
  }

  lemma AnswersAre(f: Fact)
    ensures f.ServerResponded? && f.serverResponse.CommandApprovalResponse? ==>
      CommandResult(f.serverResponse.commandDecision) == (StatusOf(f), ResolutionOf(f))
    ensures f.ServerResponded? && f.serverResponse.FileChangeApprovalResponse? ==>
      FileChangeResult(f.serverResponse.fileDecision) == (StatusOf(f), ResolutionOf(f))
    ensures f.PermissionsResponded? ==> PermissionsResult(f.noneGranted, f.scope) == (StatusOf(f), ResolutionOf(f))
    ensures f.ServerRequestAborted? ==> (Aborted, NoResolution) == (StatusOf(f), ResolutionOf(f))
  {
  }

  lemma RulingIs(facts: seq<Fact>)
    requires facts != []
    ensures Ruling(facts) == DecidedBy(After(Front(facts)), Last(facts))
  {
    var past, s, f := Front(facts), After(Front(facts)), Last(facts);
    if AnsweredBy(f).Some? {
      ClaimHistory(past, AnsweredBy(f).value);
      AnswersAre(f);
      hide After, Claim, ClaimOf, CommandResult, FileChangeResult, PermissionsResult, StatusOf, ResolutionOf;
    } else if f.Notified? && f.notification.GuardianReviewCompleted? {
      GuardianRulingIs(f.notification);
      hide After, Claim, DecideGuardian, GuardianClaim, StatusOf;
    } else {
      hide After, Claim;
    }
  }

  /** The outcome a review leaves with its item is the one its answer calls for. */
  lemma OutcomeIs(facts: seq<Fact>)
    requires facts != [] && Ruling(facts).Some?
    ensures var d := Ruling(facts).value; FinalOutcome(d.reviewer, d.status, d.resolution) == OutcomeFor(Last(facts))
  {
    hide Claim, ClaimOf, GuardianClaim;
  }

  lemma ItemIs(p: PendingReview)
    ensures ItemOf(p) == SummaryKey(p)
  {
  }

  lemma ClosingIs(facts: seq<Fact>, key: ItemKey)
    requires facts != []
    ensures Closing(facts, key) <==> Closes(After(Front(facts)), Last(facts), key)
  {
    var past, s, f := Front(facts), After(Front(facts)), Last(facts);
    hide After, Epoch, StartedAt, ContextAt, ThreadContext, ItemTool, ToolOf;
    if f.Notified? && f.notification.ItemCompleted? {
      ToolIs(f.notification.item);
      EpochHistory(past, f.notification.turnId);
      ItemHistory(past, key);
      ContextIs(past, f.notification.threadId);
    }
  }

  /** What a summary says of an item's reviews. */
  function SummaryFor(reviews: seq<Verdict>): ReviewSummary
  {
    ReviewSummary(|reviews|, Count(reviews, IsGuardians()), Count(reviews, IsUsers()),
      if reviews == [] then None else Some(Last(reviews).outcome),
      Count(reviews, HadMore()) > 0, Count(reviews, HadNetwork()) > 0)
  }

  lemma SummaryForGrows(reviews: seq<Verdict>, v: Verdict)
    requires FinalOutcome(v.ruling.reviewer, v.ruling.status, v.ruling.resolution) == v.outcome
    ensures SummaryFor(reviews + [v]) == AddReview(SummaryFor(reviews), v.ruling)
  {
    hide FinalOutcome, Count;
    CountOfAppend(reviews, v, IsGuardians());
    CountOfAppend(reviews, v, IsUsers());
    CountOfAppend(reviews, v, HadMore());
    CountOfAppend(reviews, v, HadNetwork());
  }

  lemma NothingToSummarize()
    ensures SummaryFor([]) == NO_REVIEWS
  {
  }

  lemma {:induction false} ReviewHistory(facts: seq<Fact>, key: ItemKey)
    ensures SummaryOf(After(facts), key) == SummaryFor(Reviews(facts, key))
  {
    NothingToSummarize();
    if facts != [] {
      var past, s, f := Front(facts), After(Front(facts)), Last(facts);
      ReviewHistory(past, key);
      SummaryStep(s, f, key);
      OneOfTwo(s, f, key);
      RulingIs(facts);
      ClosingIs(facts, key);
      if Ruling(facts).Some? {
        ItemIs(Ruling(facts).value.pending);
        OutcomeIs(facts);
        SummaryForGrows(Reviews(past, key), Verdict(Ruling(facts).value, OutcomeFor(f)));
      }
      hide Ingest, AddReview, DecidedBy, Closes, ClosingReport, SummaryKey, ItemOf, Closing, Ruling, OutcomeFor,
          SummaryFor, FinalOutcome;
    }
  }

  // ----------------------------------------------------------------- events

  lemma EndIs(item: ThreadItem)
    ensures EndOf(item) == ToolOutcome(item)
  {
  }

  lemma ToolSays(facts: seq<Fact>, key: ItemKey)
    requires facts != [] && Closing(facts, key)
    ensures Ingest(After(Front(facts)), Last(facts)).1 == ToolTold(facts, key)
  {
    var past, s, f := Front(facts), After(Front(facts)), Last(facts);
    SummaryStep(s, f, key);
    ClosingIs(facts, key);
    ReviewHistory(past, key);
    ItemHistory(past, key);
    ContextIs(past, key.threadId);
    EndIs(f.notification.item);
    ToolIs(f.notification.item);
    hide Ingest, After, Reviews, StartedAt, ContextAt, ThreadContext, EndOf, ToolOutcome, ToolOf, ItemTool, Count,
        SummaryOf, Epoch, SummaryMoves;
  }

  lemma OpenItemSays(facts: seq<Fact>, key: ItemKey)
    requires facts != [] && Last(facts).Notified? && Last(facts).notification.ItemCompleted?
    requires var n := Last(facts).notification;
      ToolOf(n.item).None? || (key == ItemKey(n.threadId, n.turnId, n.item.id) && !Closing(facts, key))
    ensures Ingest(After(Front(facts)), Last(facts)).1 == []
  {
    var s, f := After(Front(facts)), Last(facts);
    Dispatch(s, f);
    ToolIs(f.notification.item);
    ClosingIs(facts, key);
    hide Ingest, After, Closing, SignalTurn, ToolReport, ThreadContext, ItemTool, ToolOf;
  }

  lemma SettledSays(s: State, id: RequestId, result: (ReviewStatus, ReviewResolution), at: nat)
    ensures var d := UserDecision(s, id, result, at);
      SettleUserReview(s, id, result, at).1 == if d.Some? then EmitReview(s, d.value).1 else []
  {
    hide AddReview, SummaryKey;
  }

  lemma ReviewEmitted(s: State, f: Fact)
    requires AnsweredBy(f).Some? || (f.Notified? && f.notification.GuardianReviewCompleted?)
    ensures Ingest(s, f).1 == if DecidedBy(s, f).Some? then EmitReview(s, DecidedBy(s, f).value).1 else []
  {
    Dispatch(s, f);
    hide Ingest, EmitReview, SettleUserReview, UserDecision, CommandResult, FileChangeResult, PermissionsResult,
        DecideGuardian;
    match f {
      case ServerResponded(at, CommandApprovalResponse(id, d)) => SettledSays(s, id, CommandResult(d), at);
      case ServerResponded(at, FileChangeApprovalResponse(id, d)) => SettledSays(s, id, FileChangeResult(d), at);
      case PermissionsResponded(at, id, none, scope) => SettledSays(s, id, PermissionsResult(none, scope), at);
      case ServerRequestAborted(at, id) => SettledSays(s, id, (Aborted, NoResolution), at);
      case _ =>
    }
  }

  lemma EmittedIs(past: seq<Fact>, d: Decided)
    ensures EmitReview(After(past), d).1 == ReviewTold(past, d)
  {
    ContextIs(past, d.pending.threadId);
    hide After, ContextAt, ThreadContext, AddReview, SummaryKey;
  }

  lemma ReviewSays(facts: seq<Fact>)
    requires facts != []
    requires AnsweredBy(Last(facts)).Some?
        || (Last(facts).Notified? && Last(facts).notification.GuardianReviewCompleted?)
    ensures Ingest(After(Front(facts)), Last(facts)).1
         == if Ruling(facts).Some? then ReviewTold(Front(facts), Ruling(facts).value) else []
  {
    RulingIs(facts);
    ReviewEmitted(After(Front(facts)), Last(facts));
    if Ruling(facts).Some? { EmittedIs(Front(facts), Ruling(facts).value); }
    hide Ingest, After, Ruling, DecidedBy, EmitReview, ReviewTold;
  }

  lemma SteerReported(past: seq<Fact>, key: RequestKey, accepted: Option<string>, reason: Option<RejectionReason>)
    ensures var s := After(past);
      SteerTold(past, key, accepted, reason)
      == if key in s.requests && s.requests[key].PendingTurnSteer?
         then SteerReport(s, key.0, s.requests[key], accepted, if accepted.Some? then Accepted else Rejected, reason)
         else []
  {
    hide After, Asked, Known, ThreadAt, Count;
    RequestHistory(past, key);
    KnownIs(past, key.0);
    if AskedSteer(past, key).Some? { ContextIs(past, AskedSteer(past, key).value.threadId); }
  }

  lemma SteerSays(facts: seq<Fact>)
    requires facts != []
    requires var f := Last(facts); f.ErrorResponded? || (f.ClientResponded? && f.response.TurnSteerResponse?)
    ensures Ingest(After(Front(facts)), Last(facts)).1 == Says(facts)
  {
    var past, s, f := Front(facts), After(Front(facts)), Last(facts);
    if f.ErrorResponded? {
      SteerReported(past, (f.connectionId, f.requestId), None, f.reason);
      hide After, SteerTold, SteerReport, SignalTurn, Notify, Respond, Request, AskApproval, AnswerApproval,
          SettleUserReview, StartSubAgentThread;
    } else {
      SteerReported(past, (f.connectionId, f.requestId), Some(f.response.turnId), None);
      Dispatch(s, f);
      hide After, Ingest, SteerTold, SteerReport, SignalTurn;
    }
  }

  lemma ThreadSays(facts: seq<Fact>)
    requires facts != [] && OpensThread(Last(facts))
    ensures Ingest(After(Front(facts)), Last(facts)).1 == Says(facts)
  {
    var past, s, f := Front(facts), After(Front(facts)), Last(facts);
    if f.ClientResponded? {
      Dispatch(s, f);
      KnownIs(past, f.connectionId);
      MetadataIs(f.response.thread, f.response.mode);
      hide Ingest, After, Known, Metadata, OpenedAs;
    } else {
      SpawnedStep(s, f, f.threadId);
      assert SubAgentName(f.source) == NameOfSource(f.source);
      hide Ingest, After, SubAgentName, NameOfSource;
    }
  }

  lemma ContextSays(facts: seq<Fact>)
    requires facts != [] && (Last(facts).Compaction? || Last(facts).GuardianReview?)
    ensures Ingest(After(Front(facts)), Last(facts)).1 == Says(facts)
  {
    ContextIs(Front(facts), Last(facts).threadId);
    hide After, ContextAt, ThreadContext, SignalTurn, Notify, Respond, Fail, Request, AskApproval, AnswerApproval,
        SettleUserReview, StartSubAgentThread;
  }

  /** A fact that decides no review, opens no thread and answers no steer can only report a turn. */
  predicate Plain(f: Fact)
  {
    && AnsweredBy(f).None? && !OpensThread(f) && !f.ErrorResponded? && !f.Compaction? && !f.GuardianReview?
    && !(f.ClientResponded? && f.response.TurnSteerResponse?)
    && !(f.Notified? && (f.notification.GuardianReviewCompleted? || f.notification.ItemCompleted?))
  }

  lemma QuietFacts(s: State, f: Fact)
    requires Plain(f) && (SignalOf(s, f).None? || !MayComplete(SignalOf(s, f).value.1))
    ensures Ingest(s, f).1 == []
  {
    if f.Notified? {
      Dispatch(s, f);
      hide Ingest, CompleteItem, EmitReview, Completion;
    } else if f.ClientResponded? {
      Dispatch(s, f);
      hide Ingest, OpenThread, AnswerTurnSteer;
    } else {
      hide SignalTurn, Notify, Respond, Fail, Request, AskApproval, SettleUserReview, StartSubAgentThread;
    }
  }

  lemma PlainSays(facts: seq<Fact>)
    requires facts != [] && Plain(Last(facts))
    ensures Ingest(After(Front(facts)), Last(facts)).1 == Says(facts)
  {
    var s, f := After(Front(facts)), Last(facts);
    TurnSays(facts);
    assert Says(facts) == TurnTold(facts) by { hide After, TurnTold, Claim; }
    if SignalOf(s, f).None? || !MayComplete(SignalOf(s, f).value.1) { QuietFacts(s, f); }
    hide Ingest, After, Says, TurnTold, SignalOf, Heard;
  }

  lemma ItemSays(facts: seq<Fact>)
    requires facts != [] && Last(facts).Notified? && Last(facts).notification.ItemCompleted?
    ensures Ingest(After(Front(facts)), Last(facts)).1 == Says(facts)
  {
    var n := Last(facts).notification;
    hide Ingest, After, ToolTold, Closing;
    if ToolOf(n.item).Some? && Closing(facts, ItemKey(n.threadId, n.turnId, n.item.id)) {
      ToolSays(facts, ItemKey(n.threadId, n.turnId, n.item.id));
    } else if ToolOf(n.item).Some? {
      OpenItemSays(facts, ItemKey(n.threadId, n.turnId, n.item.id));
    } else {
      OpenItemSays(facts, ItemKey("", "", ""));
    }
  }

  /** One fact makes the reducer emit exactly the events it calls for. */
  lemma FactSays(facts: seq<Fact>)
    requires facts != []
    ensures Ingest(After(Front(facts)), Last(facts)).1 == Says(facts)
  {
    var f := Last(facts);
    hide Ingest, After, Ruling, ReviewTold, TurnTold, ToolTold, SteerTold, Closing;
    if AnsweredBy(f).Some? || (f.Notified? && f.notification.GuardianReviewCompleted?) {
      ReviewSays(facts);
      if Ruling(facts).None? { SilentReview(facts); }
    } else if OpensThread(f) {
      ThreadSays(facts);
    } else if f.ErrorResponded? || (f.ClientResponded? && f.response.TurnSteerResponse?) {
      SteerSays(facts);
    } else if f.Compaction? || f.GuardianReview? {
      ContextSays(facts);
    } else if f.Notified? && f.notification.ItemCompleted? {
      ItemSays(facts);
    } else {
      PlainSays(facts);
    }
  }

  lemma SilentReview(facts: seq<Fact>)
    requires facts != []
    requires AnsweredBy(Last(facts)).Some?
        || (Last(facts).Notified? && Last(facts).notification.GuardianReviewCompleted?)
    ensures TurnTold(facts) == []
  {
    hide Asked;
  }

  // --------------------------------------------------------- main results

  /** The reducer's output is the story the facts tell. */
  lemma {:induction false} OutputIsTheStory(facts: seq<Fact>)
    ensures Output(facts) == Story(facts)
  {
    if facts != [] {
      OutputIsTheStory(Front(facts));
      FactSays(facts);
      hide Ingest, Says;
    }
  }

  /** A turn is reported, once, by exactly the facts that complete it: the fact starts, configures or finishes the turn
      or tells of its tokens, and since its last report the turn was started on a connection that is known, was
      configured and has finished, and the thread named last is open. */
  lemma CompleteTurnsAreReported(facts: seq<Fact>, t: string)
    requires facts != []
    ensures var past, heard := Front(facts), Heard(facts);
      Emits(IsReportOf(t))(After(past), Last(facts))
      == if heard.Some? && heard.value.0 == t && Reports(past, Epoch(past, t), heard.value.1) then 1 else 0
  {
    var past, s, f := Front(facts), After(Front(facts)), Last(facts);
    OneReport(s, f, t);
    HeardIs(facts);
    EpochHistory(past, t);
    if Heard(facts).Some? && Heard(facts).value.0 == t { EpochStep(past, t, Heard(facts).value.1); }
    hide Ingest, After, SignalOf, Heard, Apply, Reportable, Reports, Epoch, EpochSignals, TurnOrNew, Emits;
  }

  /** The fact at `i` decides a review that counts towards the item. */
  predicate Rules(facts: seq<Fact>, i: nat, key: ItemKey)
    requires i < |facts|
  {
    var ruling := Ruling(facts[..i + 1]);
    ruling.Some? && ItemOf(ruling.value.pending) == Some(key)
  }

  /** The fact at `i` neither decides a review of the item nor closes it. */
  predicate Passes(facts: seq<Fact>, i: nat, key: ItemKey)
    requires i < |facts|
  {
    !Rules(facts, i, key) && !Closing(facts[..i + 1], key)
  }

  lemma ReviewsGrow(facts: seq<Fact>, key: ItemKey)
    requires facts != [] && Reviews(facts, key) != []
    ensures Rules(facts, |facts| - 1, key) ==> Last(Reviews(facts, key)).outcome == OutcomeFor(Last(facts))
    ensures !Rules(facts, |facts| - 1, key) ==>
      Passes(facts, |facts| - 1, key) && Reviews(facts, key) == Reviews(Front(facts), key)
  {
    hide Ruling, ItemOf, OutcomeFor, Closing;
    assert facts[..|facts| - 1 + 1] == facts;
  }

  lemma SameInPrefix(facts: seq<Fact>, j: nat, key: ItemKey)
    requires j < |facts| - 1
    ensures Front(facts)[j] == facts[j]
    ensures Rules(Front(facts), j, key) <==> Rules(facts, j, key)
    ensures Passes(Front(facts), j, key) <==> Passes(facts, j, key)
  {
    hide Ruling, ItemOf, Closing;
    assert Front(facts)[..j + 1] == facts[..j + 1];
  }

  /** The outcome an item's tool event will state is the one called for by the last answer it got. */
  lemma {:induction false} LastAnswerCounts(facts: seq<Fact>, key: ItemKey) returns (i: nat)
    requires Reviews(facts, key) != []
    ensures i < |facts| && Rules(facts, i, key) && Last(Reviews(facts, key)).outcome == OutcomeFor(facts[i])
    ensures forall j: nat :: i < j < |facts| ==> Passes(facts, j, key)
  {
    var last := |facts| - 1;
    ReviewsGrow(facts, key);
    hide Rules, Passes, OutcomeFor, Reviews;
    if Rules(facts, last, key) {
      i := last;
    } else {
      i := LastAnswerCounts(Front(facts), key);
      SameInPrefix(facts, i, key);
      forall j: nat | i < j < |facts| ensures Passes(facts, j, key) {
        if j < last { SameInPrefix(facts, j, key); }
      }
    }
  }

  /** So a tool event says what the last answer about its item was: denied by the user if the user declined, and so
      on; and nothing is known if there was none. */
  lemma ToolEventsTellTheLastAnswer(facts: seq<Fact>, e: Event) returns (i: nat)
    requires facts != [] && e in Says(facts) && e.ToolUsed?
    ensures Closing(facts, e.key)
    ensures Reviews(Front(facts), e.key) == [] ==> e.finalOutcome == Unknown
    ensures Reviews(Front(facts), e.key) != [] ==>
      && i < |facts| - 1 && Rules(Front(facts), i, e.key) && e.finalOutcome == OutcomeFor(facts[i])
      && forall j: nat :: i < j < |facts| - 1 ==> Passes(Front(facts), j, e.key)
  {
    ToolEventsClose(facts, e);
    hide Says, Closing, Reviews, Rules, Passes, OutcomeFor;
    i := 0;
    if Reviews(Front(facts), e.key) != [] { i := LastAnswerCounts(Front(facts), e.key); }
  }

  lemma ToolEventsClose(facts: seq<Fact>, e: Event)
    requires facts != [] && e in Says(facts) && e.ToolUsed?
    ensures Closing(facts, e.key)
    ensures var reviews := Reviews(Front(facts), e.key);
      e.finalOutcome == if reviews == [] then Unknown else Last(reviews).outcome
  {
    var f := Last(facts);
    if f.Notified? && f.notification.ItemCompleted? {
      hide Closing, Reviews;
    } else {
      OthersTellNoTool(facts);
      hide Says;
    }
  }

  /** Only the completion of an item tells of a tool. */
  lemma OthersTellNoTool(facts: seq<Fact>)
    requires facts != [] && !(Last(facts).Notified? && Last(facts).notification.ItemCompleted?)
    ensures forall e :: e in Says(facts) ==> !e.ToolUsed?
  {
    hide Closing, Ruling, Heard, Epoch, ThreadAt, Known, Asked, Complete, Digest, Latest, DiffScan.DiffCounts;
  }
}
