/** Facts about every run of the reducer that concern its shared maps: the context
    invariant, what each map remembers, and how much can come out for what went in. */
module ReducerRuns {
  import opened Common
  import opened ReducerModel

  // ------------------------------------------------------------- frames

  predicate OpensThread(f: Fact)
  {
    f.SubAgentThreadStarted? || (f.ClientResponded? && f.response.ThreadOpened?)
  }

  predicate TouchesRequests(f: Fact) { f.ClientRequested? || f.ClientResponded? || f.ErrorResponded? }

  predicate TouchesItems(f: Fact) { f.Notified? && (f.notification.ItemStarted? || f.notification.ItemCompleted?) }

  predicate TouchesPending(f: Fact)
  {
    f.ServerRequested? || f.ServerResponded? || f.PermissionsResponded? || f.ServerRequestAborted?
  }

  /** Which handler deals with a fact that answers or notifies. */
  lemma Dispatch(s: State, f: Fact)
    ensures f.ClientResponded? ==> Ingest(s, f) == Respond(s, f.connectionId, f.requestId, f.response)
    ensures f.Notified? ==> Ingest(s, f) == Notify(s, f.notification)
    ensures f.ServerRequested? ==> Ingest(s, f) == (AskApproval(s, f.serverRequest), [])
    ensures f.ServerResponded? ==> Ingest(s, f) == AnswerApproval(s, f.completedAtMs, f.serverResponse)
    ensures f.PermissionsResponded? ==>
      Ingest(s, f) == SettleUserReview(s, f.requestId, PermissionsResult(f.noneGranted, f.scope), f.completedAtMs)
    ensures f.ServerRequestAborted? ==>
        Ingest(s, f) == SettleUserReview(s, f.requestId, (Aborted, NoResolution), f.completedAtMs)
  {
    hide SignalTurn, Notify, Respond, Fail, Request, AskApproval, AnswerApproval, SettleUserReview, StartSubAgentThread,
         ReportCompaction, ReportGuardian, PermissionsResult;
  }

  /** Which facts can change which map. */
  lemma Frames(s: State, f: Fact)
    ensures !f.Initialize? ==> Ingest(s, f).0.connections == s.connections
    ensures !OpensThread(f) ==> Ingest(s, f).0.threads == s.threads
    ensures !TouchesRequests(f) ==> Ingest(s, f).0.requests == s.requests
    ensures !TouchesItems(f) ==> Ingest(s, f).0.itemsStarted == s.itemsStarted
    ensures !TouchesPending(f) ==> Ingest(s, f).0.pendingReviews == s.pendingReviews
    ensures !f.Notified? && !TouchesPending(f) ==> Ingest(s, f).0.reviewSummaries == s.reviewSummaries
  {
    hide SignalTurn, Notify, Respond, Fail, Request, AskApproval, AnswerApproval, SettleUserReview, StartSubAgentThread;
    if f.Notified? { NotifyFrame(s, f.notification); }
    if f.ClientResponded? { RespondFrame(s, f); }
  }

  lemma NotifyFrame(s: State, n: Notification)
    ensures !n.ItemStarted? && !n.ItemCompleted? ==> Notify(s, n).0.itemsStarted == s.itemsStarted
  {
    hide SignalTurn, EmitReview, CompleteItem;
  }

  lemma RespondFrame(s: State, f: Fact)
    requires f.ClientResponded?
    ensures !f.response.ThreadOpened? ==> Respond(s, f.connectionId, f.requestId, f.response).0.threads == s.threads
  {
    hide SignalTurn, OpenThread;
  }

  /** Which facts can cause which kind of event. */
  predicate Causes(f: Fact, e: Event)
  {
    match e
    case ThreadInitialized(_, _, _, _, _, _, _) => OpensThread(f)
    case GuardianReviewed(_, _, _, _) => f.GuardianReview?
    case TurnReported(_, _, _, _) => TellsTurn(f)
    case AcceptedLines(_, _, _, _, _) => TellsTurn(f)
    case TurnSteered(_, _, _, _, _, _, _, _, _) =>
        f.ErrorResponded? || (f.ClientResponded? && f.response.TurnSteerResponse?)
    case Reviewed(_, _, _, _, _, _, _, _) =>
      if e.reviewer.User? then TouchesPending(f) && !f.ServerRequested?
      else f.Notified? && f.notification.GuardianReviewCompleted?
    case ToolUsed(_, _, _, _, _, _, _, _, _, _, _, _, _, _, _) => f.Notified? && f.notification.ItemCompleted?
    case Compacted(_, _, _, _, _) => f.Compaction?
  }

  predicate TellsTurn(f: Fact)
  {
    || f.TurnResolvedConfig? || f.TurnTokenUsage?
    || (f.Notified? && f.notification.TurnCompleted?)
    || (f.ClientResponded? && f.response.TurnStartResponse?)
  }

  lemma NotifyCauses(s: State, f: Fact, e: Event)
    requires f.Notified? && e in Notify(s, f.notification).1
    ensures Causes(f, e)
  {
    hide EmitReview, ToolReport, ThreadContext, SignalTurn, Completion;
    if f.notification.TurnStarted? || f.notification.TurnDiffUpdated? { QuietSignals(s, f.notification); }
  }

  /** These signals do not complete a turn. */
  lemma QuietSignals(s: State, n: Notification)
    requires n.TurnStarted? || n.TurnDiffUpdated?
    ensures Notify(s, n).1 == []
  {
    hide Apply;
  }

  /** Every event comes from a fact that can cause it. */
  lemma EventHasCause(s: State, f: Fact, e: Event)
    requires e in Ingest(s, f).1
    ensures Causes(f, e)
  {
    if f.Notified? {
      Dispatch(s, f);
      NotifyCauses(s, f, e);
      hide Ingest, Notify;
    } else if f.ClientResponded? || f.ErrorResponded? {
      hide SteerReport, Apply, TurnReport, Notify, AskApproval, AnswerApproval, SettleUserReview, StartSubAgentThread;
    } else {
      hide EmitReview, PendingOf, CommandResult, FileChangeResult, ThreadContext, SignalTurn, Request, Respond, Fail,
          Notify;
    }
  }

  // ------------------------------------------------------------ context

  /** Every stored thread has metadata, and a connection it is bound to is known. */
  ghost predicate ContextKnown(s: State)
  {
    forall t :: t in s.threads ==>
      && s.threads[t].metadata.Some?
      && (s.threads[t].connectionId.Some? ==> s.threads[t].connectionId.value in s.connections)
  }

  lemma IngestKeepsContext(s: State, f: Fact)
    requires ContextKnown(s)
    ensures ContextKnown(Ingest(s, f).0)
  {
    Frames(s, f);
    if OpensThread(f) {
      hide SignalTurn, Notify, Fail, Request, AskApproval, AnswerApproval, SettleUserReview;
      if f.ClientResponded? { hide StartSubAgentThread; } else { hide Respond; }
    } else {
      hide SignalTurn, Notify, Respond, Fail, Request, AskApproval, AnswerApproval, SettleUserReview,
          StartSubAgentThread;
    }
  }

  lemma {:induction false} ContextAlwaysKnown(facts: seq<Fact>)
    ensures ContextKnown(After(facts))
  {
    hide Ingest;
    if facts != [] {
      ContextAlwaysKnown(Front(facts));
      IngestKeepsContext(After(Front(facts)), Last(facts));
    }
  }

  /** The only live drop inside the context lookup is an unbound thread: a bound
      thread, however it came by its connection, is always resolved. */
  lemma ContextDropsOnlyUnboundThreads(facts: seq<Fact>, threadId: string)
    ensures var s := After(facts);
      && (ThreadContext(s, threadId).Dropped? <==> threadId !in s.threads || s.threads[threadId].connectionId.None?)
      && (ThreadContext(s, threadId).Dropped? ==> ThreadContext(s, threadId).missing == MissingThreadConnection)
  {
    ContextAlwaysKnown(facts);
  }

  // ------------------------------------------------ what the maps remember

  function ConnectionFact(c: nat): Fact -> Option<ConnectionState>
  {
    (f: Fact) => if f.Initialize? && f.connectionId == c then Some(ConnectionState(f.client, f.runtime)) else None
  }

  predicate IsTurnRequest(f: Fact, key: RequestKey)
  {
    f.ClientRequested? && (f.connectionId, f.requestId) == key && !f.request.OtherRequest?
  }

  function RequestFact(key: RequestKey): Fact -> Option<RequestState>
  {
    (f: Fact) =>
      if !IsTurnRequest(f, key) then None
      else if f.request.TurnStart? then Some(PendingTurnStart(f.request.threadId, NumInputImages(f.request.input)))
      else Some(PendingTurnSteer(f.request.threadId, f.request.expectedTurnId, NumInputImages(f.request.input),
          f.request.createdAt))
  }

  predicate IsItemStart(f: Fact, key: ItemKey)
  {
    && f.Notified? && f.notification.ItemStarted?
    && ItemTool(f.notification.item).Some?
    && ItemKey(f.notification.threadId, f.notification.turnId, f.notification.item.id) == key
    && f.notification.startedAtMs >= 0
  }

  function ItemStartFact(key: ItemKey): Fact -> Option<nat>
  {
    (f: Fact) => if IsItemStart(f, key) then Some(f.notification.startedAtMs) else None
  }

  predicate IsApprovalRequest(f: Fact, id: RequestId)
  {
    f.ServerRequested? && f.serverRequest.Approval? && f.serverRequest.requestId == id
        && f.serverRequest.startedAtMs >= 0
  }

  function ApprovalFact(id: RequestId): Fact -> Option<PendingReview>
  {
    (f: Fact) => if IsApprovalRequest(f, id) then Some(PendingOf(f.serverRequest, f.serverRequest.startedAtMs))
        else None
  }

  predicate Removes(f: Fact, key: RequestKey)
  {
    Answers(f, key) && (f.ErrorResponded? || f.response.TurnStartResponse? || f.response.TurnSteerResponse?)
  }

  /** How one fact moves one entry of the request map. */
  ghost predicate RequestMoves(s: State, f: Fact, key: RequestKey, after: map<RequestKey, RequestState>)
  {
    && (key in after <==> IsTurnRequest(f, key) || (key in s.requests && !Removes(f, key)))
    && (key in after ==> Some(after[key]) == if IsTurnRequest(f, key) then RequestFact(key)(f)
        else Some(s.requests[key]))
  }

  lemma RespondMoves(s: State, f: Fact, key: RequestKey)
    requires f.ClientResponded?
    ensures RequestMoves(s, f, key, Respond(s, f.connectionId, f.requestId, f.response).0.requests)
  {
    hide AnswerTurnStart, AnswerTurnSteer, OpenThread, NumInputImages;
  }

  /** What asking under a key puts there. */
  lemma AskPuts(s: State, f: Fact, key: RequestKey)
    requires f.ClientRequested?
    ensures var after := Request(s, (f.connectionId, f.requestId), f.request).requests;
      if IsTurnRequest(f, key) then key in after && Some(after[key]) == RequestFact(key)(f)
      else (key in after <==> key in s.requests) && (key in after ==> after[key] == s.requests[key])
  {
    hide NumInputImages;
    match f.request
    case TurnStart(_, _) =>
    case TurnSteer(_, _, _, _) =>
    case OtherRequest =>
  }

  lemma AskMoves(s: State, f: Fact, key: RequestKey)
    requires f.ClientRequested?
    ensures RequestMoves(s, f, key, Request(s, (f.connectionId, f.requestId), f.request).requests)
  {
    AskPuts(s, f, key);
    hide Request, RequestFact;
  }

  lemma RequestStep(s: State, f: Fact, key: RequestKey)
    ensures RequestMoves(s, f, key, Ingest(s, f).0.requests)
  {
    hide SignalTurn, Notify, AskApproval, AnswerApproval, SettleUserReview, StartSubAgentThread, Respond, SteerReport,
        Request, NumInputImages;
    Frames(s, f);
    if f.ClientResponded? { RespondMoves(s, f, key); }
    if f.ClientRequested? { AskMoves(s, f, key); }
    if !f.ErrorResponded? { hide Fail; }
  }

  lemma CompletedItem(s: State, n: Notification, key: ItemKey)
    requires n.ItemCompleted?
    ensures var after := CompleteItem(s, n.threadId, n.turnId, n.item, n.completedAtMs).0.itemsStarted;
      key in after ==> key in s.itemsStarted && after[key] == s.itemsStarted[key]
  {
    hide SignalTurn, ThreadContext, ToolReport, ItemTool;
  }

  lemma ItemStep(s: State, f: Fact, key: ItemKey)
    ensures var after := Ingest(s, f).0.itemsStarted;
      key in after ==> Some(after[key]) == if IsItemStart(f, key) then ItemStartFact(key)(f)
                                           else if key in s.itemsStarted then Some(s.itemsStarted[key]) else None
  {
    hide Ingest, CompleteItem, ItemTool;
    Frames(s, f);
    if TouchesItems(f) {
      Dispatch(s, f);
      if f.notification.ItemCompleted? { CompletedItem(s, f.notification, key); }
    } else {
      hide Notify;
    }
  }

  lemma SettleTakes(s: State, id: RequestId, result: (ReviewStatus, ReviewResolution), at: nat)
    ensures SettleUserReview(s, id, result, at).0.pendingReviews == s.pendingReviews - {id}
  {
    hide EmitReview;
  }

  ghost predicate PendingMoves(s: State, f: Fact, id: RequestId, after: map<RequestId, PendingReview>)
  {
    && (id in after <==> IsApprovalRequest(f, id) || (id in s.pendingReviews && !Settles(f, id)))
    && (id in after ==> Some(after[id]) == if IsApprovalRequest(f, id) then ApprovalFact(id)(f)
        else Some(s.pendingReviews[id]))
  }

  lemma AskPending(s: State, f: Fact, id: RequestId)
    requires f.ServerRequested?
    ensures PendingMoves(s, f, id, AskApproval(s, f.serverRequest).pendingReviews)
  {
    hide PendingOf;
  }

  lemma SettlePending(s: State, f: Fact, id: RequestId, settled: RequestId)
    requires !f.ServerRequested? && forall i :: Settles(f, i) <==> i == settled
    ensures PendingMoves(s, f, id, s.pendingReviews - {settled})
  {
    hide PendingOf;
  }

  lemma PendingStep(s: State, f: Fact, id: RequestId)
    ensures PendingMoves(s, f, id, Ingest(s, f).0.pendingReviews)
  {
    hide Ingest, SettleUserReview, AskApproval, CommandResult, FileChangeResult, PermissionsResult, PendingOf;
    Frames(s, f);
    Dispatch(s, f);
    match f
    case ServerRequested(_) => AskPending(s, f, id);
    case ServerResponded(at, CommandApprovalResponse(r, d)) =>
      SettleTakes(s, r, CommandResult(d), at);
      SettlePending(s, f, id, r);
    case ServerResponded(at, FileChangeApprovalResponse(r, d)) =>
      SettleTakes(s, r, FileChangeResult(d), at);
      SettlePending(s, f, id, r);
    case PermissionsResponded(at, r, noneGranted, scope) =>
      SettleTakes(s, r, PermissionsResult(noneGranted, scope), at);
      SettlePending(s, f, id, r);
    case ServerRequestAborted(at, r) =>
      SettleTakes(s, r, (Aborted, NoResolution), at);
      SettlePending(s, f, id, r);
    case _ =>
  }

  /** Each map holds, under a key, what the latest fact about that key said; a
      connection, once seen, is never forgotten. */
  lemma {:induction false} ConnectionsHoldLatest(facts: seq<Fact>, c: nat)
    ensures Latest(facts, ConnectionFact(c))
        == (if c in After(facts).connections then Some(After(facts).connections[c]) else None)
  {
    if facts != [] {
      ConnectionsHoldLatest(Front(facts), c);
      Frames(After(Front(facts)), Last(facts));
      if !Last(facts).Initialize? { hide Ingest; }
    }
  }

  lemma {:induction false} MapsHoldLatest(facts: seq<Fact>, key: RequestKey, item: ItemKey, id: RequestId)
    ensures var s := After(facts);
      && (key in s.requests ==> Latest(facts, RequestFact(key)) == Some(s.requests[key]))
      && (item in s.itemsStarted ==> Latest(facts, ItemStartFact(item)) == Some(s.itemsStarted[item]))
      && (id in s.pendingReviews ==> Latest(facts, ApprovalFact(id)) == Some(s.pendingReviews[id]))
  {
    hide Ingest;
    if facts != [] {
      MapsHoldLatest(Front(facts), key, item, id);
      var s, f := After(Front(facts)), Last(facts);
      RequestStep(s, f, key);
      ItemStep(s, f, item);
      PendingStep(s, f, id);
    }
  }

  // ------------------------------------------------------------- metering

  type Meter = (State, Fact) -> nat

  /** The reading of a meter summed over the steps of a run. */
  function Total(facts: seq<Fact>, m: Meter): nat
  {
    if facts == [] then 0 else Total(Front(facts), m) + m(After(Front(facts)), Last(facts))
  }

  function Emits(p: Event -> bool): Meter
  {
    (s: State, f: Fact) => |Filter(Ingest(s, f).1, p)|
  }

  function Sees(p: Fact -> bool): Meter
  {
    (s: State, f: Fact) => if p(f) then 1 else 0
  }

  lemma {:induction false} TotalEmitted(facts: seq<Fact>, p: Event -> bool)
    ensures Total(facts, Emits(p)) == |Filter(Output(facts), p)|
  {
    hide Ingest;
    if facts != [] {
      TotalEmitted(Front(facts), p);
      FilterAppend(Output(Front(facts)), Ingest(After(Front(facts)), Last(facts)).1, p);
    }
  }

  lemma {:induction false} TotalSeen(facts: seq<Fact>, p: Fact -> bool)
    ensures Total(facts, Sees(p)) == |Filter(facts, p)|
  {
    hide Ingest;
    if facts != [] { TotalSeen(Front(facts), p); }
  }

  /** Each step spends no more than it earns and has in hand. */
  ghost predicate Solvent(spend: Meter, earn: Meter, inHand: State -> nat)
  {
    && inHand(INITIAL) == 0
    && forall s, f :: spend(s, f) + inHand(Ingest(s, f).0) <= inHand(s) + earn(s, f)
  }

  lemma {:induction false} SolventRun(facts: seq<Fact>, spend: Meter, earn: Meter, inHand: State -> nat)
    requires Solvent(spend, earn, inHand)
    ensures Total(facts, spend) + inHand(After(facts)) <= Total(facts, earn)
  {
    hide Ingest;
    if facts != [] {
      SolventRun(Front(facts), spend, earn, inHand);
      assert After(facts) == Ingest(After(Front(facts)), Last(facts)).0;
    }
  }

  // ---------------------------------------------------------- tool events

  function IsToolEvent(key: ItemKey): Event -> bool { (e: Event) => e.ToolUsed? && e.key == key }

  function ItemStarts(key: ItemKey): Fact -> bool { (f: Fact) => IsItemStart(f, key) }

  function ItemOpen(key: ItemKey): State -> nat { (s: State) => if key in s.itemsStarted then 1 else 0 }

  lemma CompletionTakesStart(s: State, n: Notification, key: ItemKey)
    requires n.ItemCompleted?
    ensures var (after, out) := Notify(s, n);
      && |out| <= 1
      && (out != [] && out[0].ToolUsed? && out[0].key == key ==> key in s.itemsStarted && key !in after.itemsStarted)
  {
    hide SignalTurn, ToolReport, ThreadContext, EmitReview;
  }

  lemma ToolStepSolvent(s: State, f: Fact, key: ItemKey)
    ensures Emits(IsToolEvent(key))(s, f) + ItemOpen(key)(Ingest(s, f).0) <= ItemOpen(key)(s)
        + Sees(ItemStarts(key))(s, f)
  {
    ItemStep(s, f, key);
    var out := Ingest(s, f).1;
    if f.Notified? && f.notification.ItemCompleted? {
      CompletionTakesStart(s, f.notification, key);
      hide Notify, ToolReport, CompleteItem;
      assert |out| == 1 ==> Front(out) == [] && Filter(Front(out), IsToolEvent(key)) == [];
    } else {
      hide Ingest;
      forall e | e in out ensures !e.ToolUsed? { EventHasCause(s, f, e); }
      NoEvents(out, IsToolEvent(key));
    }
  }

  lemma {:induction false} NoEvents(out: seq<Event>, p: Event -> bool)
    requires forall e :: e in out ==> !p(e)
    ensures Filter(out, p) == []
  {
    if out != [] { NoEvents(Front(out), p); }
  }

  /** Tool events of an item never outnumber its start notifications, whatever order the facts come in. */
  lemma ToolEventsBounded(facts: seq<Fact>, key: ItemKey)
    ensures |Filter(Output(facts), IsToolEvent(key))| + (if key in After(facts).itemsStarted then 1 else 0)
            <= |Filter(facts, ItemStarts(key))|
  {
    hide Ingest;
    forall s, f ensures Emits(IsToolEvent(key))(s, f) + ItemOpen(key)(Ingest(s, f).0)
                        <= ItemOpen(key)(s) + Sees(ItemStarts(key))(s, f) {
      ToolStepSolvent(s, f, key);
    }
    SolventRun(facts, Emits(IsToolEvent(key)), Sees(ItemStarts(key)), ItemOpen(key));
    TotalEmitted(facts, IsToolEvent(key));
    TotalSeen(facts, ItemStarts(key));
  }

  // ------------------------------------------------------- no resurrection

  function TurnRequests(key: RequestKey): Fact -> bool { (f: Fact) => IsTurnRequest(f, key) }

  function RequestOpen(key: RequestKey): State -> nat { (s: State) => if key in s.requests then 1 else 0 }

  predicate Answers(f: Fact, key: RequestKey)
  {
    (f.ClientResponded? || f.ErrorResponded?) && (f.connectionId, f.requestId) == key
  }

  predicate MatchesTurnStart(s: State, f: Fact)
  {
    && f.ClientResponded? && f.response.TurnStartResponse?
    && (f.connectionId, f.requestId) in s.requests && s.requests[(f.connectionId, f.requestId)].PendingTurnStart?
  }

  function IsSteerEvent(): Event -> bool { (e: Event) => e.TurnSteered? }

  /** What an answer to a request yields: a steer event, or a turn start taken as matched. */
  function Yield(key: RequestKey): Meter
  {
    (s: State, f: Fact) =>
      if Answers(f, key) then |Filter(Ingest(s, f).1, IsSteerEvent())| + (if MatchesTurnStart(s, f) then 1 else 0)
          else 0
  }

  lemma AnswerStepSolvent(s: State, f: Fact, key: RequestKey)
    ensures Yield(key)(s, f) + RequestOpen(key)(Ingest(s, f).0) <= RequestOpen(key)(s) + Sees(TurnRequests(key))(s, f)
  {
    var out := Ingest(s, f).1;
    RequestStep(s, f, key);
    if f.ErrorResponded? || (f.ClientResponded? && f.response.TurnSteerResponse?) {
      SteerEventsAnswer(s, f);
      hide Ingest;
      assert |out| == 1 ==> Front(out) == [] && Filter(Front(out), IsSteerEvent()) == [];
    } else {
      hide Ingest;
      forall e | e in out ensures !e.TurnSteered? { EventHasCause(s, f, e); }
      NoEvents(out, IsSteerEvent());
    }
  }

  lemma SteerEventsAnswer(s: State, f: Fact)
    requires f.ErrorResponded? || (f.ClientResponded? && f.response.TurnSteerResponse?)
    ensures |Ingest(s, f).1| <= 1
    ensures Ingest(s, f).1 != [] ==> (f.connectionId, f.requestId) in s.requests
  {
    hide Notify, AskApproval, AnswerApproval, SettleUserReview, StartSubAgentThread, OpenThread, SteerReport,
        SignalTurn;
  }

  /** Steer events and matched turn starts for a connection's request id, together with a
      request still open, never exceed the requests seen. */
  lemma AnswersBounded(facts: seq<Fact>, key: RequestKey)
    ensures Total(facts, Yield(key))
        + (if key in After(facts).requests then 1 else 0) <= |Filter(facts, TurnRequests(key))|
  {
    hide Ingest;
    forall s, f ensures Yield(key)(s, f) + RequestOpen(key)(Ingest(s, f).0)
                        <= RequestOpen(key)(s) + Sees(TurnRequests(key))(s, f) {
      AnswerStepSolvent(s, f, key);
    }
    SolventRun(facts, Yield(key), Sees(TurnRequests(key)), RequestOpen(key));
    TotalSeen(facts, TurnRequests(key));
  }

  function Approvals(id: RequestId): Fact -> bool { (f: Fact) => IsApprovalRequest(f, id) }

  function ReviewOpen(id: RequestId): State -> nat { (s: State) => if id in s.pendingReviews then 1 else 0 }

  predicate Settles(f: Fact, id: RequestId)
  {
    || (f.ServerResponded? && !f.serverResponse.OtherServerResponse? && f.serverResponse.requestId == id)
    || (f.PermissionsResponded? && f.requestId == id)
    || (f.ServerRequestAborted? && f.requestId == id)
  }

  /** A user review is consumed when an answer finds a claim under its request id. */
  function Consumes(id: RequestId): Meter
  {
    (s: State, f: Fact) => if Settles(f, id) && id in s.pendingReviews then 1 else 0
  }

  /** Every review event attributed to a user consumes the claim it reports. */
  lemma UserReviewsConsume(s: State, f: Fact, e: Event) returns (id: RequestId)
    requires e in Ingest(s, f).1 && e.Reviewed? && e.reviewer.User?
    ensures Consumes(id)(s, f) == 1 && e.subject == s.pendingReviews[id]
  {
    EventHasCause(s, f, e);
    id := if f.ServerResponded? then f.serverResponse.requestId else f.requestId;
    hide EmitReview, CommandResult, FileChangeResult, PermissionsResult, Notify, Respond, SignalTurn;
  }

  /** For each request id value, consumed user reviews plus a pending one never exceed the approvals asked. */
  lemma UserReviewsBounded(facts: seq<Fact>, id: RequestId)
    ensures Total(facts, Consumes(id))
        + (if id in After(facts).pendingReviews then 1 else 0) <= |Filter(facts, Approvals(id))|
  {
    forall s, f ensures Consumes(id)(s, f) + ReviewOpen(id)(Ingest(s, f).0)
                        <= ReviewOpen(id)(s) + Sees(Approvals(id))(s, f) {
      hide Ingest;
      PendingStep(s, f, id);
    }
    hide Ingest;
    SolventRun(facts, Consumes(id), Sees(Approvals(id)), ReviewOpen(id));
    TotalSeen(facts, Approvals(id));
  }

  /** Once answered, a request stays answered until it is asked again. */
  lemma {:induction false} StaysAnswered(facts: seq<Fact>, later: seq<Fact>, key: RequestKey, id: RequestId)
    ensures key !in After(facts).requests && (forall f :: f in later ==> !IsTurnRequest(f, key))
            ==> key !in After(facts + later).requests
    ensures id !in After(facts).pendingReviews && (forall f :: f in later ==> !IsApprovalRequest(f, id))
            ==> id !in After(facts + later).pendingReviews
  {
    hide Ingest;
    if later == [] {
      assert facts + later == facts;
    } else {
      StaysAnswered(facts, Front(later), key, id);
      assert Front(facts + later) == facts + Front(later) && Last(facts + later) == Last(later);
      RequestStep(After(facts + Front(later)), Last(later), key);
      PendingStep(After(facts + Front(later)), Last(later), id);
      assert Last(later) in later;
    }
  }

  /** An answered or failed request yields nothing more, and a settled or aborted review is not
      consumed again, until a new request carries the same id. */
  lemma NoResurrection(before: seq<Fact>, answer: Fact, later: seq<Fact>, next: Fact, key: RequestKey, id: RequestId)
    ensures Removes(answer, key) && (forall f :: f in later ==> !IsTurnRequest(f, key))
            ==> Yield(key)(After(before + [answer] + later), next) == 0
    ensures Settles(answer, id) && (forall f :: f in later ==> !IsApprovalRequest(f, id))
            ==> Consumes(id)(After(before + [answer] + later), next) == 0
  {
    hide Ingest;
    assert Front(before + [answer]) == before && Last(before + [answer]) == answer;
    RequestStep(After(before), answer, key);
    PendingStep(After(before), answer, id);
    StaysAnswered(before + [answer], later, key, id);
    var s := After(before + [answer] + later);
    AnswerStepSolvent(s, next, key);
  }

  /** Keying reviews by the printed id would conflate two claims. */
  lemma PrintedIdIsNoKey()
    ensures Display(IntegerId(41)) == Display(StringId("41")) && IntegerId(41) != StringId("41")
  {
    assert Digits(4) == "4";
    assert Digits(41) == "4" + "1";
  }
}
