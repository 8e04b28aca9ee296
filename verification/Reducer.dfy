/** The reducer as the source has it: an object whose methods update seven maps in
    place and append to the caller's list of events.  Each method is tied to the
    transition function it carries out.  `reducer.rs` */
module Reducer {
  import opened Common
  import opened ReducerModel
  import ReducerRefinement
  import ReducerStory

  class AnalyticsReducer {
    var requests: map<RequestKey, RequestState>
    var turns: map<string, TurnState>
    var connections: map<nat, ConnectionState>
    var threads: map<string, ThreadState>
    var itemsStarted: map<ItemKey, nat>
    var pendingReviews: map<RequestId, PendingReview>
    var reviewSummaries: map<ItemKey, ReviewSummary>

    function View(): State
      reads this
    {
      State(requests, turns, connections, threads, itemsStarted, pendingReviews, reviewSummaries)
    }

    constructor ()
      ensures View() == INITIAL
    {
      requests, turns, connections, threads := map[], map[], map[], map[];
      itemsStarted, pendingReviews, reviewSummaries := map[], map[], map[];
    }

    /** `HashMap::remove`. */
    method TakeRequest(key: RequestKey) returns (taken: Option<RequestState>)
      modifies this`requests
      ensures requests == old(requests) - {key}
      ensures taken == if key in old(requests) then Some(old(requests)[key]) else None
    {
      taken := if key in requests then Some(requests[key]) else None;
      requests := requests - {key};
    }

    method TakePendingReview(id: RequestId) returns (taken: Option<PendingReview>)
      modifies this`pendingReviews
      ensures pendingReviews == old(pendingReviews) - {id}
      ensures taken == if id in old(pendingReviews) then Some(old(pendingReviews)[id]) else None
    {
      taken := if id in pendingReviews then Some(pendingReviews[id]) else None;
      pendingReviews := pendingReviews - {id};
    }

    // ------------------------------------------------------------- turns

    method MaybeEmitTurnEvent(turnId: string, out: seq<Event>) returns (out': seq<Event>)
      modifies this`turns
      ensures var r := MaybeEmitTurn(old(View()), turnId); View() == r.0 && out' == out + r.1
    {
      out' := out;
      if turnId !in turns { return; }
      var turn := turns[turnId];
      if turn.threadId.None? || turn.numInputImages.None? || turn.resolvedConfig.None?
          || turn.completed.None? { return; }
      if turn.connectionId.None? { return; }
      if turn.connectionId.value !in connections { return; }
      var metadata := if turn.threadId.value in threads then threads[turn.threadId.value].metadata else None;
      if metadata.None? { return; }
      var lines := AcceptedLinesOf(turnId, turn);
      out' := out' + [TurnReported(turnId, connections[turn.connectionId.value], metadata.value, turn)];
      if lines != [] { out' := out' + lines; }
      turns := turns - {turnId};
    }

    method IngestTurnResolvedConfig(turnId: string, threadId: string, images: nat, config: ResolvedConfig,
        out: seq<Event>)
      returns (out': seq<Event>)
      modifies this`turns
      ensures var r := SignalTurn(old(View()), turnId, Configured(threadId, images, config));
          View() == r.0 && out' == out + r.1
    {
      var turn := if turnId in turns then turns[turnId] else NEW_TURN;
      turn := turn.(threadId := Some(threadId));
      turn := turn.(numInputImages := Some(images));
      turn := turn.(resolvedConfig := Some(config));
      turns := turns[turnId := turn];
      out' := MaybeEmitTurnEvent(turnId, out);
    }

    method IngestTurnTokenUsage(turnId: string, threadId: string, usage: Payload, out: seq<Event>)
        returns (out': seq<Event>)
      modifies this`turns
      ensures var r := SignalTurn(old(View()), turnId, TokensUsed(threadId, usage)); View() == r.0 && out' == out + r.1
    {
      var turn := if turnId in turns then turns[turnId] else NEW_TURN;
      turn := turn.(threadId := Some(threadId));
      turn := turn.(tokenUsage := Some(usage));
      turns := turns[turnId := turn];
      out' := MaybeEmitTurnEvent(turnId, out);
    }

    method IngestTurnStarted(turnId: string, startedAt: Option<int>)
      modifies this`turns
      ensures View() == SignalTurn(old(View()), turnId, BeganAt(OptionToU64(startedAt))).0
    {
      var turn := if turnId in turns then turns[turnId] else NEW_TURN;
      turns := turns[turnId := turn.(startedAt := OptionToU64(startedAt))];
    }

    method IngestTurnDiffUpdated(threadId: string, turnId: string, diff: string)
      modifies this`turns
      ensures View() == SignalTurn(old(View()), turnId, DiffChanged(threadId, diff)).0
    {
      var turn := if turnId in turns then turns[turnId] else NEW_TURN;
      turn := turn.(threadId := Some(threadId));
      turns := turns[turnId := turn.(latestDiff := Some(diff))];
    }

    method IngestTurnCompleted(n: Notification, out: seq<Event>) returns (out': seq<Event>)
      requires n.TurnCompleted?
      modifies this`turns
      ensures var r := SignalTurn(old(View()), n.turnId, Finished(Completion(n))); View() == r.0 && out' == out + r.1
    {
      var turn := if n.turnId in turns then turns[n.turnId] else NEW_TURN;
      turns := turns[n.turnId := turn.(completed := Some(Completion(n)))];
      out' := MaybeEmitTurnEvent(n.turnId, out);
    }

    // ---------------------------------------------------------- requests

    method IngestRequest(connectionId: nat, id: RequestId, request: ClientRequest)
      modifies this`requests
      ensures View() == Request(old(View()), (connectionId, id), request)
    {
      match request
      case TurnStart(threadId, input) =>
        requests := requests[(connectionId, id) := PendingTurnStart(threadId, NumInputImages(input))];
      case TurnSteer(threadId, expectedTurnId, input, createdAt) =>
        requests := requests[(connectionId, id) := PendingTurnSteer(threadId, expectedTurnId, NumInputImages(input),
            createdAt)];
      case OtherRequest =>
    }

    method EmitTurnSteerEvent(connectionId: nat, p: RequestState, accepted: Option<string>, result: SteerResult,
                              reason: Option<RejectionReason>, out: seq<Event>) returns (out': seq<Event>)
      requires p.PendingTurnSteer?
      ensures out' == out + SteerReport(View(), connectionId, p, accepted, result, reason)
    {
      out' := out;
      if connectionId !in connections { return; }
      var metadata := if p.threadId in threads then threads[p.threadId].metadata else None;
      if metadata.None? { return; }
      out' := out' + [TurnSteered(p.threadId, p.expectedTurnId, accepted, connections[connectionId], metadata.value,
                                  p.numInputImages, result, reason, p.createdAt)];
    }

    method IngestTurnStartResponse(connectionId: nat, id: RequestId, turnId: string, out: seq<Event>)
        returns (out': seq<Event>)
      modifies this`requests, this`turns
      ensures var r := AnswerTurnStart(old(View()), (connectionId, id), turnId); View() == r.0 && out' == out + r.1
    {
      out' := out;
      var taken := TakeRequest((connectionId, id));
      if taken.None? || !taken.value.PendingTurnStart? { return; }
      var turn := if turnId in turns then turns[turnId] else NEW_TURN;
      turn := turn.(connectionId := Some(connectionId));
      turn := turn.(threadId := Some(taken.value.threadId));
      turn := turn.(numInputImages := Some(taken.value.numInputImages));
      turns := turns[turnId := turn];
      out' := MaybeEmitTurnEvent(turnId, out);
    }

    method IngestTurnSteerResponse(connectionId: nat, id: RequestId, turnId: string, out: seq<Event>)
        returns (out': seq<Event>)
      modifies this`requests, this`turns
      ensures var r := AnswerTurnSteer(old(View()), (connectionId, id), turnId); View() == r.0 && out' == out + r.1
    {
      out' := out;
      var taken := TakeRequest((connectionId, id));
      if taken.None? || !taken.value.PendingTurnSteer? { return; }
      if turnId in turns {
        turns := turns[turnId := turns[turnId].(steerCount := turns[turnId].steerCount + 1)];
      }
      out' := EmitTurnSteerEvent(connectionId, taken.value, Some(turnId), Accepted, None, out);
    }

    method IngestErrorResponse(connectionId: nat, id: RequestId, reason: Option<RejectionReason>, out: seq<Event>)
      returns (out': seq<Event>)
      modifies this`requests
      ensures var r := Fail(old(View()), (connectionId, id), reason); View() == r.0 && out' == out + r.1
    {
      out' := out;
      var taken := TakeRequest((connectionId, id));
      if taken.None? { return; }
      match taken.value
      case PendingTurnStart(_, _) =>
      case PendingTurnSteer(_, _, _, _) =>
          out' := EmitTurnSteerEvent(connectionId, taken.value, None, Rejected, reason, out);
    }

    // ----------------------------------------------------------- threads

    method EmitThreadInitialized(connectionId: nat, thread: Thread, model: string, mode: InitializationMode,
        out: seq<Event>)
      returns (out': seq<Event>)
      modifies this`threads
      ensures var r := OpenThread(old(View()), connectionId, thread, model, mode); View() == r.0 && out' == out + r.1
    {
      out' := out;
      if connectionId !in connections { return; }
      var metadata := Metadata(thread, mode);
      threads := threads[thread.id := ThreadState(Some(connectionId), Some(metadata))];
      var createdAt := ToU64(thread.createdAt);
      out' := out' + [ThreadInitialized(thread.id, connections[connectionId].client, connections[connectionId].runtime,
          model,
                                        thread.ephemeral, metadata, if createdAt.Some? then createdAt.value else 0)];
    }

    method IngestSubAgentThreadStarted(f: Fact, out: seq<Event>) returns (out': seq<Event>)
      requires f.SubAgentThreadStarted?
      modifies this`threads
      ensures var r := StartSubAgentThread(old(View()), f); View() == r.0 && out' == out + r.1
    {
      var parent := if f.parentThreadId.Some? then f.parentThreadId else SubAgentParent(f.source);
      var parentConnection := if parent.Some?
          && parent.value in threads then threads[parent.value].connectionId else None;
      var metadata := ThreadMetadata(f.sessionId, Some("subagent"), New, Some(SubAgentName(f.source)), parent);
      var thread := if f.threadId in threads then threads[f.threadId] else ThreadState(None, None);
      if thread.metadata.None? { thread := thread.(metadata := Some(metadata)); }
      if thread.connectionId.None? { thread := thread.(connectionId := parentConnection); }
      threads := threads[f.threadId := thread];
      out' := out + [ThreadInitialized(f.threadId, f.client, f.runtime, f.model, f.ephemeral, metadata, f.createdAt)];
    }

    // ----------------------------------------------------------- reviews

    method RecordItemReviewSummary(key: ItemKey, d: Decided)
      modifies this`reviewSummaries
      ensures reviewSummaries == old(reviewSummaries)[key := AddReview(SummaryOf(old(View()), key), d)]
    {
      var sum := if key in reviewSummaries then reviewSummaries[key] else NO_REVIEWS;
      sum := sum.(reviews := sum.reviews + 1);
      match d.reviewer {
        case Guardian => sum := sum.(guardianReviews := sum.guardianReviews + 1);
        case User => sum := sum.(userReviews := sum.userReviews + 1);
      }
      sum := sum.(outcome := Some(FinalOutcome(d.reviewer, d.status, d.resolution)));
      sum := sum.(additionalPermissions := sum.additionalPermissions || d.pending.additionalPermissions);
      sum := sum.(networkAccess := sum.networkAccess || d.pending.networkAccess);
      reviewSummaries := reviewSummaries[key := sum];
    }

    method EmitReviewEvent(d: Decided, out: seq<Event>) returns (out': seq<Event>)
      modifies this`reviewSummaries
      ensures var r := EmitReview(old(View()), d); View() == r.0 && out' == out + r.1
    {
      out' := out;
      var key := SummaryKey(d.pending);
      if key.Some? { RecordItemReviewSummary(key.value, d); }
      var context := ThreadContext(View(), d.pending.threadId);
      if context.Dropped? { return; }
      out' := out' + [Reviewed(d.pending, context.connection, context.metadata, d.reviewer, d.status, d.resolution,
                               d.completedAtMs, Duration(d.pending.startedAtMs, d.completedAtMs))];
    }

    method IngestServerRequest(request: ServerRequest)
      modifies this`pendingReviews
      ensures View() == AskApproval(old(View()), request)
    {
      match request
      case Approval(id, _, _, _, startedAtMs, _) =>
        var startedAt := ToU64(startedAtMs);
        if startedAt.None? { return; }
        pendingReviews := pendingReviews[id := PendingOf(request, startedAt.value)];
      case OtherServerRequest =>
    }

    /** The shared tail of the four ways a user review ends. */
    method EndUserReview(id: RequestId, result: (ReviewStatus, ReviewResolution), completedAtMs: nat, out: seq<Event>)
      returns (out': seq<Event>)
      modifies this`pendingReviews, this`reviewSummaries
      ensures var r := SettleUserReview(old(View()), id, result, completedAtMs); View() == r.0 && out' == out + r.1
    {
      var taken := TakePendingReview(id);
      if taken.None? {
        assert pendingReviews == old(pendingReviews);
        return out;
      }
      out' := EmitReviewEvent(Decided(taken.value, User, result.0, result.1, completedAtMs), out);
    }

    method IngestServerResponse(completedAtMs: nat, response: ServerResponse, out: seq<Event>)
        returns (out': seq<Event>)
      modifies this`pendingReviews, this`reviewSummaries
      ensures var r := AnswerApproval(old(View()), completedAtMs, response); View() == r.0 && out' == out + r.1
    {
      out' := out;
      match response
      case CommandApprovalResponse(id, decision) =>
          out' := EndUserReview(id, CommandResult(decision), completedAtMs, out);
      case FileChangeApprovalResponse(id, decision) =>
          out' := EndUserReview(id, FileChangeResult(decision), completedAtMs, out);
      case OtherServerResponse =>
    }

    // ------------------------------------------------------------- items

    method IngestItemStarted(threadId: string, turnId: string, item: ThreadItem, startedAtMs: int)
      modifies this`itemsStarted
      ensures View() == Notify(old(View()), ItemStarted(threadId, turnId, item, startedAtMs)).0
    {
      if ItemTool(item).None? { return; }
      var startedAt := ToU64(startedAtMs);
      if startedAt.None? { return; }
      itemsStarted := itemsStarted[ItemKey(threadId, turnId, item.id) := startedAt.value];
    }

    method CountTool(turnId: string, tool: ToolKind)
      requires turnId in turns
      modifies this`turns
      ensures View() == SignalTurn(old(View()), turnId, ToolRan(tool)).0
    {
      hide RecordTool;
      turns := turns[turnId := turns[turnId].(toolCounts := RecordTool(turns[turnId].toolCounts, tool))];
    }

    /** The start of the item is used up; its reviews go into the event, if there is one, and are forgotten. */
    method CloseItem(key: ItemKey, item: ThreadItem, completedAtMs: int, out: seq<Event>) returns (out': seq<Event>)
      requires key in itemsStarted
      modifies this`itemsStarted, this`reviewSummaries
      ensures itemsStarted == old(itemsStarted) - {key}
      ensures var context := ThreadContext(old(View()), key.threadId);
        if completedAtMs < 0 || context.Dropped? then reviewSummaries == old(reviewSummaries) && out' == out
        else
          && reviewSummaries == old(reviewSummaries) - {key}
          && out' == out + ToolReport(key, item, old(itemsStarted[key]), completedAtMs, context.connection,
              context.metadata,
                                      SummaryOf(old(View()), key))
    {
      hide ToolReport, ThreadContext;
      ghost var before := View();
      out' := out;
      var startedAtMs := itemsStarted[key];
      itemsStarted := itemsStarted - {key};
      var completedAt := ToU64(completedAtMs);
      if completedAt.None? { return; }
      SameContext(before, View(), key.threadId);
      var context := ThreadContext(View(), key.threadId);
      if context.Dropped? { return; }
      out' := out + ToolReport(key, item, startedAtMs, completedAt.value, context.connection, context.metadata,
                               SummaryOf(View(), key));
      reviewSummaries := reviewSummaries - {key};
    }

    method IngestItemCompleted(threadId: string, turnId: string, item: ThreadItem, completedAtMs: int, out: seq<Event>)
      returns (out': seq<Event>)
      modifies this`turns, this`itemsStarted, this`reviewSummaries
      ensures var r := CompleteItem(old(View()), threadId, turnId, item, completedAtMs);
          View() == r.0 && out' == out + r.1
    {
      hide SignalTurn, ToolReport, ThreadContext;
      ghost var before := View();
      out' := out;
      if ItemTool(item).None? { return; }
      if turnId !in turns { return; }
      CountTool(turnId, ItemTool(item).value);
      SameContext(before, View(), threadId);
      var key := ItemKey(threadId, turnId, item.id);
      if key !in itemsStarted { return; }
      out' := CloseItem(key, item, completedAtMs, out);
    }

    // ---------------------------------------------------------- dispatch

    method IngestNotification(n: Notification, out: seq<Event>) returns (out': seq<Event>)
      modifies this`turns, this`itemsStarted, this`reviewSummaries
      ensures var r := Notify(old(View()), n); View() == r.0 && out' == out + r.1
    {
      hide CompleteItem, MaybeEmitTurn, Apply, EmitReview, DecideGuardian, Completion;
      out' := out;
      match n
      case ItemStarted(threadId, turnId, item, startedAtMs) => IngestItemStarted(threadId, turnId, item, startedAtMs);
      case ItemCompleted(threadId, turnId, item, completedAtMs) =>
          out' := IngestItemCompleted(threadId, turnId, item, completedAtMs, out);
      case GuardianReviewStarted =>
      case GuardianReviewCompleted(_, _, _, _, _, _, _, _) =>
        var d := DecideGuardian(n);
        if d.Some? { out' := EmitReviewEvent(d.value, out); }
      case TurnStarted(turnId, startedAt) => IngestTurnStarted(turnId, startedAt);
      case TurnDiffUpdated(threadId, turnId, diff) => IngestTurnDiffUpdated(threadId, turnId, diff);
      case TurnCompleted(_, _, _, _, _) => out' := IngestTurnCompleted(n, out);
      case OtherNotification =>
    }

    method IngestResponse(connectionId: nat, id: RequestId, response: ClientResponse, out: seq<Event>)
        returns (out': seq<Event>)
      modifies this`threads, this`requests, this`turns
      ensures var r := Respond(old(View()), connectionId, id, response); View() == r.0 && out' == out + r.1
    {
      out' := out;
      match response
      case ThreadOpened(thread, model, mode) => out' := EmitThreadInitialized(connectionId, thread, model, mode, out);
      case TurnStartResponse(turnId) => out' := IngestTurnStartResponse(connectionId, id, turnId, out);
      case TurnSteerResponse(turnId) => out' := IngestTurnSteerResponse(connectionId, id, turnId, out);
      case OtherResponse =>
    }

    /** The reducer's entry point carries out the transition function exactly. */
    /** The facts the application records itself, as opposed to the protocol's messages. */
    method IngestCustom(input: Fact, out: seq<Event>) returns (out': seq<Event>)
      requires input.SubAgentThreadStarted? || input.Compaction? || input.GuardianReview? || input.TurnResolvedConfig?
      || input.TurnTokenUsage?
      modifies this`threads, this`turns
      ensures var r := ReducerModel.Ingest(old(View()), input); View() == r.0 && out' == out + r.1
    {
      hide SignalTurn, StartSubAgentThread, ReportCompaction, ReportGuardian;
      match input
      case SubAgentThreadStarted(_, _, _, _, _, _, _, _, _) => out' := IngestSubAgentThreadStarted(input, out);
      case Compaction(threadId, turnId, details) => out' := out + ReportCompaction(View(), threadId, turnId, details);
      case GuardianReview(threadId, turnId, review) => out' := out + ReportGuardian(View(), threadId, review);
      case TurnResolvedConfig(turnId, threadId, images, config) =>
        out' := IngestTurnResolvedConfig(turnId, threadId, images, config, out);
      case TurnTokenUsage(turnId, threadId, usage) => out' := IngestTurnTokenUsage(turnId, threadId, usage, out);
    }

    /** The answers to approval requests. */
    method IngestAnswer(input: Fact, out: seq<Event>) returns (out': seq<Event>)
      requires input.ServerResponded? || input.PermissionsResponded? || input.ServerRequestAborted?
      modifies this`pendingReviews, this`reviewSummaries
      ensures var r := ReducerModel.Ingest(old(View()), input); View() == r.0 && out' == out + r.1
    {
      hide AnswerApproval, SettleUserReview, PermissionsResult;
      match input
      case ServerResponded(at, response) => out' := IngestServerResponse(at, response, out);
      case PermissionsResponded(at, id, noneGranted, scope) =>
        out' := EndUserReview(id, PermissionsResult(noneGranted, scope), at, out);
      case ServerRequestAborted(at, id) => out' := EndUserReview(id, (Aborted, NoResolution), at, out);
    }

    method Ingest(input: Fact, out: seq<Event>) returns (out': seq<Event>)
      modifies this
      ensures var r := ReducerModel.Ingest(old(View()), input); View() == r.0 && out' == out + r.1
    {
      hide SignalTurn, Notify, Respond, Fail, Request, AskApproval, AnswerApproval, SettleUserReview,
      StartSubAgentThread,
           ReportCompaction, ReportGuardian, PermissionsResult;
      out' := out;
      match input
      case Initialize(connectionId, client, runtime) =>
        connections := connections[connectionId := ConnectionState(client, runtime)];
      case ClientRequested(connectionId, id, request) => IngestRequest(connectionId, id, request);
      case ClientResponded(connectionId, id, response) => out' := IngestResponse(connectionId, id, response, out);
      case ErrorResponded(connectionId, id, reason) => out' := IngestErrorResponse(connectionId, id, reason, out);
      case Notified(n) => out' := IngestNotification(n, out);
      case ServerRequested(request) => IngestServerRequest(request);
      case ServerResponded(_, _) => out' := IngestAnswer(input, out);
      case PermissionsResponded(_, _, _, _) => out' := IngestAnswer(input, out);
      case ServerRequestAborted(_, _) => out' := IngestAnswer(input, out);
      case _ => out' := IngestCustom(input, out);
    }
  }

  /** Feeding a fresh reducer a history leaves it where the run of that history ends, and makes it say the story the
      history tells. */
  method IngestAll(facts: seq<Fact>) returns (reducer: AnalyticsReducer, out: seq<Event>)
    ensures fresh(reducer)
    ensures reducer.View() == After(facts) && out == Output(facts)
    ensures out == ReducerStory.Story(facts)
  {
    hide ReducerModel.Ingest;
    reducer := new AnalyticsReducer();
    out := [];
    for i := 0 to |facts|
      invariant fresh(reducer)
      invariant reducer.View() == After(facts[..i]) && out == Output(facts[..i])
    {
      out := reducer.Ingest(facts[i], out);
      assert Front(facts[..i + 1]) == facts[..i] && Last(facts[..i + 1]) == facts[i];
    }
    assert facts[..|facts|] == facts;
    ReducerRefinement.OutputIsTheStory(facts);
  }

  /** A thread's context depends on threads and connections alone. */
  lemma SameContext(s: State, t: State, threadId: string)
    requires s.threads == t.threads && s.connections == t.connections
    ensures ThreadContext(s, threadId) == ThreadContext(t, threadId)
  {
  }
}
