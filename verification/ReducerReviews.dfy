/** Approval reviews over whole runs: a live summary states exactly the reviews of
    its item since the item last closed, a tool event reports them, and none is
    lost or counted twice. */
module ReducerReviews {
  import opened Common
  import opened ReducerModel
  import opened ReducerRuns

  /** The user review an answer decides: whatever claim its request id holds. */
  function UserDecision(s: State, id: RequestId, result: (ReviewStatus, ReviewResolution),
      completedAtMs: nat): Option<Decided>
  {
    if id in s.pendingReviews then Some(Decided(s.pendingReviews[id], User, result.0, result.1, completedAtMs))
        else None
  }

  /** The review a fact decides, if any. */
  function DecidedBy(s: State, f: Fact): Option<Decided>
  {
    match f
    case ServerResponded(at, CommandApprovalResponse(id, decision)) => UserDecision(s, id, CommandResult(decision), at)
    case ServerResponded(at, FileChangeApprovalResponse(id, decision)) =>
        UserDecision(s, id, FileChangeResult(decision), at)
    case PermissionsResponded(at, id, noneGranted, scope) =>
        UserDecision(s, id, PermissionsResult(noneGranted, scope), at)
    case ServerRequestAborted(at, id) => UserDecision(s, id, (Aborted, NoResolution), at)
    case Notified(GuardianReviewCompleted(_, _, _, _, _, _, _, _)) => DecideGuardian(f.notification)
    case _ => None
  }

  /** A decided review counts towards the item it names, whether or not its event can be sent. */
  predicate Records(s: State, f: Fact, key: ItemKey)
  {
    DecidedBy(s, f).Some? && SummaryKey(DecidedBy(s, f).value.pending) == Some(key)
  }

  /** A completion closes its item once the turn, the start, the time and the thread are all known. */
  predicate Closes(s: State, f: Fact, key: ItemKey)
  {
    && f.Notified? && f.notification.ItemCompleted?
    && ItemTool(f.notification.item).Some?
    && ItemKey(f.notification.threadId, f.notification.turnId, f.notification.item.id) == key
    && key.turnId in s.turns && key in s.itemsStarted
    && f.notification.completedAtMs >= 0
    && ThreadContext(s, key.threadId).Found?
  }

  function ClosingReport(s: State, f: Fact, key: ItemKey): seq<Event>
    requires Closes(s, f, key)
  {
    var n, context := f.notification, ThreadContext(s, key.threadId);
    ToolReport(key, n.item, s.itemsStarted[key], n.completedAtMs, context.connection, context.metadata,
        SummaryOf(s, key))
  }

  // --------------------------------------------------------------- steps

  /** How one fact moves one item's summary and what it emits for the item. */
  ghost predicate SummaryMoves(s: State, f: Fact, key: ItemKey, after: State, out: seq<Event>)
  {
    && (Records(s, f, key) ==>
          key in after.reviewSummaries
              && after.reviewSummaries[key] == AddReview(SummaryOf(s, key), DecidedBy(s, f).value))
    && (Closes(s, f, key) ==> key !in after.reviewSummaries && out == ClosingReport(s, f, key))
    && (!Records(s, f, key) && !Closes(s, f, key) ==>
          && (key in after.reviewSummaries <==> key in s.reviewSummaries)
          && (key in s.reviewSummaries ==> after.reviewSummaries[key] == s.reviewSummaries[key]))
    && (!Closes(s, f, key) ==> forall e :: e in out ==> !IsToolEvent(key)(e))
  }

  lemma SettleMoves(s: State, id: RequestId, result: (ReviewStatus, ReviewResolution), at: nat)
    ensures var r, d := SettleUserReview(s, id, result, at), UserDecision(s, id, result, at);
      r.0.reviewSummaries
      == if d.Some? && SummaryKey(d.value.pending).Some?
         then s.reviewSummaries[SummaryKey(d.value.pending).value := AddReview(SummaryOf(s,
             SummaryKey(d.value.pending).value), d.value)]
         else s.reviewSummaries
    ensures forall e :: e in SettleUserReview(s, id, result, at).1 ==> e.Reviewed?
  {
    hide AddReview, ThreadContext;
  }

  /** Settling a claim moves the summaries as the decision it makes. */
  lemma SettledSummaries(s: State, f: Fact, id: RequestId, result: (ReviewStatus, ReviewResolution), at: nat,
      key: ItemKey)
    requires DecidedBy(s, f) == UserDecision(s, id, result, at) && !f.Notified?
    ensures var r := SettleUserReview(s, id, result, at); SummaryMoves(s, f, key, r.0, r.1)
  {
    SettleMoves(s, id, result, at);
    hide SettleUserReview, SummaryKey, AddReview, DecidedBy;
  }

  lemma PendingSummaries(s: State, f: Fact, key: ItemKey)
    requires TouchesPending(f)
    ensures SummaryMoves(s, f, key, Ingest(s, f).0, Ingest(s, f).1)
  {
    Dispatch(s, f);
    hide Ingest, SettleUserReview, CommandResult, FileChangeResult, PermissionsResult, PendingOf;
    match f {
      case ServerResponded(at, CommandApprovalResponse(id, d)) => SettledSummaries(s, f, id, CommandResult(d), at, key);
      case ServerResponded(at, FileChangeApprovalResponse(id, d)) =>
          SettledSummaries(s, f, id, FileChangeResult(d), at, key);
      case PermissionsResponded(at, id, noneGranted, scope) =>
          SettledSummaries(s, f, id, PermissionsResult(noneGranted, scope), at, key);
      case ServerRequestAborted(at, id) => SettledSummaries(s, f, id, (Aborted, NoResolution), at, key);
      case _ =>
    }
  }

  lemma CompletedSummaries(s: State, f: Fact, key: ItemKey)
    requires f.Notified? && f.notification.ItemCompleted?
    ensures var n := f.notification; var r := CompleteItem(s, n.threadId, n.turnId, n.item, n.completedAtMs);
      SummaryMoves(s, f, key, r.0, r.1)
  {
    hide SignalTurn, ToolReport, ThreadContext;
  }

  lemma EmitMoves(s: State, d: Decided)
    ensures EmitReview(s, d).0.reviewSummaries
         == var key := SummaryKey(d.pending);
            if key.Some? then s.reviewSummaries[key.value := AddReview(SummaryOf(s, key.value), d)]
                else s.reviewSummaries
  {
    hide AddReview, ThreadContext, SummaryKey;
  }

  lemma GuardianSummaries(s: State, f: Fact, key: ItemKey)
    requires f.Notified? && f.notification.GuardianReviewCompleted?
    ensures SummaryMoves(s, f, key, Notify(s, f.notification).0, Notify(s, f.notification).1)
  {
    hide DecideGuardian, AddReview, SummaryKey, EmitReview;
    if DecideGuardian(f.notification).Some? { EmitMoves(s, DecideGuardian(f.notification).value); }
  }

  lemma NotifySummaries(s: State, f: Fact, key: ItemKey)
    requires f.Notified?
    ensures SummaryMoves(s, f, key, Notify(s, f.notification).0, Notify(s, f.notification).1)
  {
    if f.notification.ItemCompleted? {
      CompletedSummaries(s, f, key);
      hide CompleteItem, SummaryMoves;
    } else if f.notification.GuardianReviewCompleted? {
      GuardianSummaries(s, f, key);
      hide SummaryMoves, Notify;
    } else {
      hide SignalTurn, Completion, ItemTool;
    }
  }

  lemma SummaryStep(s: State, f: Fact, key: ItemKey)
    ensures SummaryMoves(s, f, key, Ingest(s, f).0, Ingest(s, f).1)
  {
    if TouchesPending(f) {
      PendingSummaries(s, f, key);
      hide Ingest;
    } else if f.Notified? {
      NotifySummaries(s, f, key);
      hide SummaryMoves, Notify;
    } else {
      hide Ingest;
      Frames(s, f);
      forall e | e in Ingest(s, f).1 ensures !e.ToolUsed? { EventHasCause(s, f, e); }
    }
  }

  // ----------------------------------------------------------- live reviews

  /** The reviews of an item recorded since it last closed. */
  function LiveReviews(facts: seq<Fact>, key: ItemKey): seq<Decided>
  {
    if facts == [] then []
    else
      var s, f := After(Front(facts)), Last(facts);
      if Closes(s, f, key) then []
      else LiveReviews(Front(facts), key) + if Records(s, f, key) then [DecidedBy(s, f).value] else []
  }

  function ByGuardian(): Decided -> bool { (d: Decided) => d.reviewer.Guardian? }

  function ByUser(): Decided -> bool { (d: Decided) => d.reviewer.User? }

  function OutcomeOf(d: Decided): ApprovalOutcome { FinalOutcome(d.reviewer, d.status, d.resolution) }

  /** What a summary must say of a list of reviews. */
  ghost predicate Summarizes(sum: ReviewSummary, reviews: seq<Decided>)
  {
    && sum.reviews == |reviews|
    && sum.guardianReviews == Count(reviews, ByGuardian())
    && sum.userReviews == Count(reviews, ByUser())
    && sum.reviews == sum.guardianReviews + sum.userReviews
    && sum.outcome == (if reviews == [] then None else Some(OutcomeOf(Last(reviews))))
    && (sum.additionalPermissions <==> exists d :: d in reviews && d.pending.additionalPermissions)
    && (sum.networkAccess <==> exists d :: d in reviews && d.pending.networkAccess)
  }

  lemma SummaryGrows(sum: ReviewSummary, reviews: seq<Decided>, d: Decided)
    requires Summarizes(sum, reviews)
    ensures Summarizes(AddReview(sum, d), reviews + [d])
  {
    hide FinalOutcome;
    CountOfAppend(reviews, d, ByGuardian());
    CountOfAppend(reviews, d, ByUser());
    assert d in reviews + [d];
    assert forall x :: x in reviews ==> x in reviews + [d];
  }

  /** In every reachable state an item's summary states its live reviews. */
  lemma {:induction false} SummaryStatesLiveReviews(facts: seq<Fact>, key: ItemKey)
    ensures Summarizes(SummaryOf(After(facts), key), LiveReviews(facts, key))
    ensures key in After(facts).reviewSummaries <==> LiveReviews(facts, key) != []
  {
    hide Ingest, AddReview, DecidedBy, Closes, Summarizes, ClosingReport, SummaryKey;
    NoReviewsSummarized();
    if facts != [] {
      var s, f := After(Front(facts)), Last(facts);
      SummaryStatesLiveReviews(Front(facts), key);
      SummaryStep(s, f, key);
      if Records(s, f, key) {
        OneOfTwo(s, f, key);
        SummaryGrows(SummaryOf(s, key), LiveReviews(Front(facts), key), DecidedBy(s, f).value);
      } else {
        assert LiveReviews(Front(facts), key) + [] == LiveReviews(Front(facts), key);
      }
    }
  }

  lemma NoReviewsSummarized()
    ensures Summarizes(NO_REVIEWS, [])
  {
  }

  lemma OneOfTwo(s: State, f: Fact, key: ItemKey)
    ensures !(Records(s, f, key) && Closes(s, f, key))
  {
  }

  /** What a tool event says about reviews. */
  ghost predicate EventStates(e: Event, reviews: seq<Decided>)
    requires e.ToolUsed?
  {
    exists sum ::
      && Summarizes(sum, reviews)
      && e.reviewCount == sum.reviews && e.guardianReviewCount == sum.guardianReviews
          && e.userReviewCount == sum.userReviews
      && e.finalOutcome == (if sum.outcome.Some? then sum.outcome.value else Unknown)
      && e.additionalPermissions == sum.additionalPermissions && e.networkAccess == sum.networkAccess
  }

  /** A tool event is emitted only by the completion that closes its item with a final status; it
      states exactly the item's live reviews, and the times of the item's latest start and of the
      completion itself. */
  lemma ToolEventStatesItsItem(facts: seq<Fact>, e: Event)
    requires facts != [] && e in Ingest(After(Front(facts)), Last(facts)).1 && e.ToolUsed?
    ensures Closes(After(Front(facts)), Last(facts), e.key) && ToolOutcome(Last(facts).notification.item).Some?
    ensures EventStates(e, LiveReviews(Front(facts), e.key))
    ensures Latest(Front(facts), ItemStartFact(e.key)) == Some(e.startedAtMs)
    ensures e.completedAtMs == Last(facts).notification.completedAtMs
  {
    hide Ingest, ToolOutcome, ItemTool, Summarizes, LiveReviews;
    var s, f := After(Front(facts)), Last(facts);
    SummaryStep(s, f, e.key);
    assert IsToolEvent(e.key)(e);
    SummaryStatesLiveReviews(Front(facts), e.key);
    MapsHoldLatest(Front(facts), (0, StringId("")), e.key, StringId(""));
    assert Summarizes(SummaryOf(s, e.key), LiveReviews(Front(facts), e.key));
  }

  // ---------------------------------------------------------- conservation

  function Recorded(key: ItemKey): Meter { (s: State, f: Fact) => if Records(s, f, key) then 1 else 0 }

  function ReviewsReported(out: seq<Event>, key: ItemKey): nat
  {
    if out == [] then 0
    else ReviewsReported(Front(out), key) + if IsToolEvent(key)(Last(out)) then Last(out).reviewCount else 0
  }

  lemma {:induction false} ReportedOfAppend(xs: seq<Event>, ys: seq<Event>, key: ItemKey)
    ensures ReviewsReported(xs + ys, key) == ReviewsReported(xs, key) + ReviewsReported(ys, key)
  {
    if ys == [] {
      assert xs + ys == xs;
    } else {
      assert Front(xs + ys) == xs + Front(ys);
      ReportedOfAppend(xs, Front(ys), key);
    }
  }

  lemma {:induction false} NothingReported(out: seq<Event>, key: ItemKey)
    requires forall e :: e in out ==> !IsToolEvent(key)(e)
    ensures ReviewsReported(out, key) == 0
  {
    if out != [] { NothingReported(Front(out), key); }
  }

  /** Reviews thrown away by a completion whose status is not final. */
  function Discarded(key: ItemKey): Meter
  {
    (s: State, f: Fact) =>
        if Closes(s, f, key) && ToolOutcome(f.notification.item).None? then SummaryOf(s, key).reviews else 0
  }

  lemma ReviewStepBalances(s: State, f: Fact, key: ItemKey)
    ensures var r := Ingest(s, f);
      ReviewsReported(r.1, key) + Discarded(key)(s, f) + SummaryOf(r.0, key).reviews
          == SummaryOf(s, key).reviews + Recorded(key)(s, f)
  {
    hide Ingest, DecidedBy, ThreadContext;
    SummaryStep(s, f, key);
    OneOfTwo(s, f, key);
    if Closes(s, f, key) {
      var out := ClosingReport(s, f, key);
      assert out != [] ==> Front(out) == [] && Last(out) == out[0];
      assert out != [] ==> ReviewsReported(Front(out), key) == 0;
    } else {
      NothingReported(Ingest(s, f).1, key);
    }
  }

  /** Over every run, the reviews recorded for an item are those reported in its tool events, plus the
      live ones, plus those discarded by completions without a final status. */
  lemma {:induction false} ReviewsConserved(facts: seq<Fact>, key: ItemKey)
    ensures Total(facts, Recorded(key))
         == ReviewsReported(Output(facts), key) + SummaryOf(After(facts), key).reviews + Total(facts, Discarded(key))
  {
    if facts != [] {
      hide Ingest, Recorded, Discarded;
      var s, f := After(Front(facts)), Last(facts);
      ReviewsConserved(Front(facts), key);
      ReviewStepBalances(s, f, key);
      ReportedOfAppend(Output(Front(facts)), Ingest(s, f).1, key);
    }
  }
}
