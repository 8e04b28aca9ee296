/** What the reducer is to say, told from the facts alone: who is connected, which threads are open, what was asked and
    not yet answered, what each turn and item has been through, and so which events the latest fact calls for.  Nothing
    here looks at the reducer's maps. */
module ReducerStory {
  import opened Common
  import opened ReducerModel
  import opened ReducerRuns
  import opened ReducerTurns
  import DiffScan

  // ------------------------------------------------ connections and threads

  function Known(facts: seq<Fact>, c: nat): Option<ConnectionState> { Latest(facts, ConnectionFact(c)) }

  function NameOfSource(source: SubAgentSource): string
  {
    match source
    case Review => "review"
    case Compact => "compact"
    case ThreadSpawn(_) => "thread_spawn"
    case MemoryConsolidation => "memory_consolidation"
    case OtherSubAgent(name) => name
  }

  function Spawner(source: SubAgentSource): Option<string>
  {
    match source case ThreadSpawn(parent) => Some(parent) case _ => None
  }

  function OpenedAs(thread: Thread, mode: InitializationMode): ThreadMetadata
  {
    var subAgent := if thread.source.SubAgent? then Some(NameOfSource(thread.source.source)) else None;
    var parent := if thread.source.SubAgent? then Spawner(thread.source.source) else None;
    ThreadMetadata(thread.sessionId, thread.threadSource, mode, subAgent, parent)
  }

  function ParentOf(f: Fact): Option<string>
    requires f.SubAgentThreadStarted?
  {
    if f.parentThreadId.None? then Spawner(f.source) else f.parentThreadId
  }

  function SpawnedAs(f: Fact): ThreadMetadata
    requires f.SubAgentThreadStarted?
  {
    ThreadMetadata(f.sessionId, Some("subagent"), New, Some(NameOfSource(f.source)), ParentOf(f))
  }

  /** A thread is what it was last opened as on a connection that is known; a subagent's thread keeps what it has and
      takes the rest from its announcement and its parent. */
  function ThreadAt(facts: seq<Fact>, id: string): ThreadState
  {
    if facts == [] then ThreadState(None, None)
    else
      var past, f := Front(facts), Last(facts);
      var was := ThreadAt(past, id);
      match f
      case ClientResponded(c, _, ThreadOpened(thread, _, mode)) =>
        if thread.id == id && Known(past, c).Some? then ThreadState(Some(c), Some(OpenedAs(thread, mode))) else was
      case SubAgentThreadStarted(threadId, _, _, _, _, _, _, _, _) =>
        if threadId != id then was
        else
          ThreadState(
            if was.connectionId.Some? then was.connectionId
            else if ParentOf(f).Some? then ThreadAt(past, ParentOf(f).value).connectionId
            else None,
            if was.metadata.Some? then was.metadata else Some(SpawnedAs(f)))
      case _ => was
  }

  /** The connection and the metadata an event about a thread carries, if there are both. */
  function ContextAt(facts: seq<Fact>, id: string): Option<(ConnectionState, ThreadMetadata)>
  {
    var thread := ThreadAt(facts, id);
    if thread.connectionId.None? || thread.metadata.None? || Known(facts, thread.connectionId.value).None? then None
    else Some((Known(facts, thread.connectionId.value).value, thread.metadata.value))
  }

  // --------------------------------------------------------- client requests

  /** The turn request that was made under a key and is not answered yet. */
  function Asked(facts: seq<Fact>, key: RequestKey): Option<ClientRequest>
  {
    if facts == [] then None
    else
      var was := Asked(Front(facts), key);
      match Last(facts)
      case ClientRequested(c, id, request) => if (c, id) == key && !request.OtherRequest? then Some(request) else was
      case ClientResponded(c, id, response) =>
        if (c, id) == key && (response.TurnStartResponse? || response.TurnSteerResponse?) then None else was
      case ErrorResponded(c, id, _) => if (c, id) == key then None else was
      case _ => was
  }

  function IsImage(): UserInput -> bool { (i: UserInput) => i.Image? || i.LocalImage? }

  function AskedSteer(facts: seq<Fact>, key: RequestKey): Option<ClientRequest>
  {
    var asked := Asked(facts, key);
    if asked.Some? && asked.value.TurnSteer? then asked else None
  }

  // ------------------------------------------------------------------ turns

  function NotNegative(time: Option<int>): Option<nat> { if time.Some? && time.value >= 0 then time else None }

  function ToolOf(item: ThreadItem): Option<ToolKind>
  {
    match item
    case CommandExecution(_, _) => Some(ShellCommand)
    case FileChange(_, _) => Some(Patch)
    case McpToolCall(_, _) => Some(Mcp)
    case DynamicToolCall(_, _) => Some(Dynamic)
    case CollabAgentToolCall(_, _) => Some(Collab)
    case WebSearch(_) => Some(Search)
    case ImageGeneration(_, _) => Some(ImageGen)
    case UntrackedItem => None
  }

  /** Which turn the latest fact speaks to, and what it says. */
  function Heard(facts: seq<Fact>): Option<(string, Signal)>
    requires facts != []
  {
    match Last(facts)
    case TurnResolvedConfig(t, threadId, images, config) => Some((t, Configured(threadId, images, config)))
    case TurnTokenUsage(t, threadId, usage) => Some((t, TokensUsed(threadId, usage)))
    case ClientResponded(c, id, TurnStartResponse(t)) =>
      (match Asked(Front(facts), (c, id))
       case Some(TurnStart(threadId, input)) => Some((t, Started(c, threadId, Count(input, IsImage()))))
       case _ => None)
    case ClientResponded(c, id, TurnSteerResponse(t)) =>
      if AskedSteer(Front(facts), (c, id)).Some? then Some((t, Steered)) else None
    case Notified(ItemCompleted(_, t, item, _)) =>
      if ToolOf(item).Some? then Some((t, ToolRan(ToolOf(item).value))) else None
    case Notified(TurnStarted(t, at)) => Some((t, BeganAt(NotNegative(at))))
    case Notified(TurnDiffUpdated(threadId, t, diff)) => Some((t, DiffChanged(threadId, diff)))
    case Notified(TurnCompleted(t, status, error, at, duration)) =>
      Some((t, Finished(CompletedTurn(if status.TurnInProgress? then None else Some(status), error,
                                      if at.Some? && at.value >= 0 then at.value else 0, NotNegative(duration)))))
    case _ => None
  }

  /** The turn was started on a connection that is known, was configured, has finished, and the thread named last is
      open. */
  predicate Complete(facts: seq<Fact>, epoch: seq<Signal>)
  {
    var c, thread := Latest(epoch, Connection()), Latest(epoch, ThreadOf());
    && c.Some? && Known(facts, c.value).Some?
    && Latest(epoch, ConfigOf()).Some? && Latest(epoch, CompletionOf()).Some?
    && thread.Some? && ThreadAt(facts, thread.value).metadata.Some?
  }

  /** A turn is reported on the spot by a signal that starts, configures or finishes it, or tells of its tokens. */
  predicate Reports(facts: seq<Fact>, epoch: seq<Signal>, g: Signal)
  {
    (g.Started? || g.Configured? || g.Finished? || g.TokensUsed?) && Complete(facts, epoch + [g])
  }

  /** What a turn has heard since it was last reported; tools and steers do not begin it. */
  function Epoch(facts: seq<Fact>, t: string): seq<Signal>
  {
    if facts == [] then []
    else
      var past, heard, was := Front(facts), Heard(facts), Epoch(Front(facts), t);
      if heard.None? || heard.value.0 != t then was
      else if was == [] && (heard.value.1.ToolRan? || heard.value.1.Steered?) then []
      else if Reports(past, was, heard.value.1) then []
      else was + [heard.value.1]
  }

  /** The report of a turn, and the lines of its latest diff if there are any. */
  function Report(facts: seq<Fact>, t: string, epoch: seq<Signal>): seq<Event>
    requires Complete(facts, epoch)
  {
    var c, thread, diff := Latest(epoch, Connection()), Latest(epoch, ThreadOf()), Latest(epoch, DiffOf());
    var lines := if diff.Some? then DiffScan.DiffCounts(diff.value) else (0, 0);
    [TurnReported(t, Known(facts, c.value).value, ThreadAt(facts, thread.value).metadata.value, Digest(epoch))]
    + if lines == (0, 0) then []
      else [AcceptedLines(t, thread.value, Latest(epoch, ConfigOf()).value.model, lines.0, lines.1)]
  }

  // ------------------------------------------------------------------ items

  /** When an item that has not been completed was last started. */
  function StartedAt(facts: seq<Fact>, key: ItemKey): Option<nat>
  {
    if facts == [] then None
    else
      var past := Front(facts);
      match Last(facts)
      case Notified(ItemStarted(threadId, turnId, item, at)) =>
        if ToolOf(item).Some? && ItemKey(threadId, turnId, item.id) == key && at >= 0 then Some(at)
        else StartedAt(past, key)
      case Notified(ItemCompleted(threadId, turnId, item, _)) =>
        if ToolOf(item).Some? && ItemKey(threadId, turnId, item.id) == key && Epoch(past, turnId) != [] then None
        else StartedAt(past, key)
      case _ => StartedAt(past, key)
  }

  // ---------------------------------------------------------------- reviews

  function AnsweredBy(f: Fact): Option<RequestId>
  {
    match f
    case ServerResponded(_, CommandApprovalResponse(id, _)) => Some(id)
    case ServerResponded(_, FileChangeApprovalResponse(id, _)) => Some(id)
    case PermissionsResponded(_, id, _, _) => Some(id)
    case ServerRequestAborted(_, id) => Some(id)
    case _ => None
  }

  /** The approval request made last under an id, if it is not answered. */
  function Claim(facts: seq<Fact>, id: RequestId): Option<ServerRequest>
  {
    if facts == [] then None
    else
      var f := Last(facts);
      if f.ServerRequested? && f.serverRequest.Approval? && f.serverRequest.requestId == id
          && f.serverRequest.startedAtMs >= 0
      then Some(f.serverRequest)
      else if AnsweredBy(f) == Some(id) then None
      else Claim(Front(facts), id)
  }

  predicate Networked(p: PermissionProfile) { p.networkEnabled == Some(true) }

  predicate AsksNetwork(kind: ApprovalKind)
  {
    match kind
    case CommandApproval(_, context, amendments, additional) =>
      context || (amendments.Some? && amendments.value > 0) || (additional.Some? && Networked(additional.value))
    case FileChangeApproval(_) => false
    case PermissionsApproval(p) => Networked(p)
  }

  predicate AsksMore(kind: ApprovalKind)
  {
    match kind
    case CommandApproval(_, _, _, additional) => additional.Some?
    case FileChangeApproval(grantRoot) => grantRoot
    case PermissionsApproval(p) => Networked(p) || p.fileSystem
  }

  function AskedAbout(kind: ApprovalKind): (SubjectKind, string)
  {
    match kind
    case CommandApproval(_, true, _, _) => (NetworkSubject, "network_access")
    case CommandApproval(_, false, _, _) => (CommandSubject, "command_execution")
    case FileChangeApproval(_) => (FileChangeSubject, "apply_patch")
    case PermissionsApproval(_) => (PermissionsSubject, "permissions")
  }

  /** An intercepted call first, then the network, then more than the sandbox allows. */
  function Trigger(intercepted: bool, network: bool, more: bool): ReviewTrigger
  {
    if intercepted then ExecveIntercept else if network then NetworkPolicyDenial else if more then SandboxDenial
    else Initial
  }

  function ClaimOf(r: ServerRequest): PendingReview
    requires r.Approval? && r.startedAtMs >= 0
  {
    var network, more := AsksNetwork(r.kind), AsksMore(r.kind);
    PendingReview(r.threadId, r.turnId, Some(r.itemId), "user:" + Display(r.requestId),
      AskedAbout(r.kind).0, AskedAbout(r.kind).1,
      Trigger(r.kind.CommandApproval? && r.kind.hasApprovalId, network, more), r.startedAtMs, more, network)
  }

  predicate ReachesNetwork(a: GuardianAction)
  {
    a.NetworkAccessAction? || (a.RequestPermissionsAction? && Networked(a.permissions))
  }

  predicate ReachesFurther(a: GuardianAction)
  {
    || a.ApplyPatchAction? || ReachesNetwork(a)
    || (a.RequestPermissionsAction? && a.permissions.fileSystem)
  }

  function Guarded(a: GuardianAction): (SubjectKind, string)
  {
    match a
    case ApplyPatchAction => (FileChangeSubject, "apply_patch")
    case NetworkAccessAction => (NetworkSubject, "network_access")
    case RequestPermissionsAction(_) => (PermissionsSubject, "permissions")
    case McpToolCallAction(tool) => (McpSubject, tool)
    case _ => (CommandSubject, "command_execution")
  }

  function GuardianClaim(n: Notification): PendingReview
    requires n.GuardianReviewCompleted? && n.startedAtMs >= 0
  {
    var a := n.action;
    PendingReview(n.threadId, n.turnId, n.targetItemId, n.reviewId, Guarded(a).0, Guarded(a).1,
      Trigger(a.ExecveAction?, ReachesNetwork(a), ReachesFurther(a)), n.startedAtMs,
      ReachesFurther(a), ReachesNetwork(a))
  }

  /** What a fact that decides a review decides, how it settles the matter, and what it comes to for the item. */
  function StatusOf(f: Fact): ReviewStatus
  {
    match f
    case ServerResponded(_, CommandApprovalResponse(_, Decline)) => Denied
    case ServerResponded(_, CommandApprovalResponse(_, ApplyNetworkPolicyAmendment(false))) => Denied
    case ServerResponded(_, CommandApprovalResponse(_, Cancel)) => Aborted
    case ServerResponded(_, FileChangeApprovalResponse(_, FileDecline)) => Denied
    case ServerResponded(_, FileChangeApprovalResponse(_, FileCancel)) => Aborted
    case PermissionsResponded(_, _, true, _) => Denied
    case ServerRequestAborted(_, _) => Aborted
    case Notified(GuardianReviewCompleted(_, _, _, _, GuardianDenied, _, _, _)) => Denied
    case Notified(GuardianReviewCompleted(_, _, _, _, GuardianTimedOut, _, _, _)) => TimedOut
    case Notified(GuardianReviewCompleted(_, _, _, _, GuardianAborted, _, _, _)) => Aborted
    case _ => Approved
  }

  function ResolutionOf(f: Fact): ReviewResolution
  {
    match f
    case ServerResponded(_, CommandApprovalResponse(_, AcceptForSession)) => SessionApproval
    case ServerResponded(_, CommandApprovalResponse(_, AcceptWithExecPolicyAmendment)) => ExecPolicyAmendment
    case ServerResponded(_, CommandApprovalResponse(_, ApplyNetworkPolicyAmendment(_))) => NetworkPolicyAmendment
    case ServerResponded(_, FileChangeApprovalResponse(_, FileAcceptForSession)) => SessionApproval
    case PermissionsResponded(_, _, false, SessionScope) => SessionApproval
    case _ => NoResolution
  }

  function OutcomeFor(f: Fact): ApprovalOutcome
  {
    match f
    case ServerResponded(_, CommandApprovalResponse(_, decision)) =>
      (match decision
       case Accept => ByUserApproved
       case AcceptForSession => ByUserApprovedForSession
       case AcceptWithExecPolicyAmendment => ByUserApproved
       case ApplyNetworkPolicyAmendment(allow) => if allow then ByUserApproved else ByUserDenied
       case Decline => ByUserDenied
       case Cancel => ByUserAborted)
    case ServerResponded(_, FileChangeApprovalResponse(_, decision)) =>
      (match decision
       case FileAccept => ByUserApproved
       case FileAcceptForSession => ByUserApprovedForSession
       case FileDecline => ByUserDenied
       case FileCancel => ByUserAborted)
    case PermissionsResponded(_, _, none, scope) =>
      if none then ByUserDenied else if scope.TurnScope? then ByUserApproved else ByUserApprovedForSession
    case Notified(GuardianReviewCompleted(_, _, _, _, status, _, _, _)) =>
      (match status
       case GuardianApproved => ByGuardianApproved
       case GuardianDenied => ByGuardianDenied
       case _ => ByGuardianAborted)
    case _ => ByUserAborted
  }

  /** The review the latest fact decides: an answered claim, or a guardian's review with a final status. */
  function Ruling(facts: seq<Fact>): Option<Decided>
    requires facts != []
  {
    var f := Last(facts);
    if AnsweredBy(f).Some? then
      var claim := Claim(Front(facts), AnsweredBy(f).value);
      if claim.Some? && claim.value.Approval? && claim.value.startedAtMs >= 0
      then Some(Decided(ClaimOf(claim.value), User, StatusOf(f), ResolutionOf(f), f.completedAtMs)) else None
    else match f
      case Notified(GuardianReviewCompleted(_, _, _, _, status, _, startedAt, completedAt)) =>
        if status.GuardianInProgress? || startedAt < 0 || completedAt < 0 then None
        else Some(Decided(GuardianClaim(f.notification), Guardian, StatusOf(f), NoResolution, completedAt))
      case _ => None
  }

  datatype Verdict = Verdict(ruling: Decided, outcome: ApprovalOutcome)

  /** The item a decided review counts towards: one with a command, a file change or a tool call under review. */
  function ItemOf(p: PendingReview): Option<ItemKey>
  {
    match (p.subject, p.itemId)
    case (CommandSubject, Some(id)) => Some(ItemKey(p.threadId, p.turnId, id))
    case (FileChangeSubject, Some(id)) => Some(ItemKey(p.threadId, p.turnId, id))
    case (McpSubject, Some(id)) => Some(ItemKey(p.threadId, p.turnId, id))
    case _ => None
  }

  /** The latest fact completes an item that was started in a turn under way, on a thread with a known context. */
  predicate Closing(facts: seq<Fact>, key: ItemKey)
    requires facts != []
  {
    match Last(facts)
    case Notified(ItemCompleted(threadId, turnId, item, at)) =>
      && ToolOf(item).Some? && ItemKey(threadId, turnId, item.id) == key && at >= 0
      && Epoch(Front(facts), turnId) != [] && StartedAt(Front(facts), key).Some?
      && ContextAt(Front(facts), threadId).Some?
    case _ => false
  }

  /** The reviews of an item since it was last closed. */
  function Reviews(facts: seq<Fact>, key: ItemKey): seq<Verdict>
  {
    if facts == [] || Closing(facts, key) then []
    else
      var was, ruling := Reviews(Front(facts), key), Ruling(facts);
      if ruling.Some? && ItemOf(ruling.value.pending) == Some(key)
      then was + [Verdict(ruling.value, OutcomeFor(Last(facts)))] else was
  }

  function IsGuardians(): Verdict -> bool { (r: Verdict) => r.ruling.reviewer.Guardian? }

  function IsUsers(): Verdict -> bool { (r: Verdict) => r.ruling.reviewer.User? }

  function HadMore(): Verdict -> bool { (r: Verdict) => r.ruling.pending.additionalPermissions }

  function HadNetwork(): Verdict -> bool { (r: Verdict) => r.ruling.pending.networkAccess }

  // ----------------------------------------------------------------- events

  function Elapsed(from: nat, to: nat): Option<nat> { if from <= to then Some(to - from) else None }

  /** How a completed item ended, if it has. */
  function EndOf(item: ThreadItem): Option<(TerminalStatus, Option<FailureKind>)>
  {
    match item
    case CommandExecution(_, InProgress) => None
    case CommandExecution(_, Declined) => Some((ToolRejected, Some(ApprovalDenied)))
    case CommandExecution(_, Failed) => Some((ToolFailed, Some(ToolError)))
    case FileChange(_, InProgress) => None
    case FileChange(_, Declined) => Some((ToolRejected, Some(ApprovalDenied)))
    case FileChange(_, Failed) => Some((ToolFailed, Some(ToolError)))
    case McpToolCall(_, CallInProgress) => None
    case McpToolCall(_, CallFailed) => Some((ToolFailed, Some(ToolError)))
    case DynamicToolCall(_, CallInProgress) => None
    case DynamicToolCall(_, CallFailed) => Some((ToolFailed, Some(ToolError)))
    case CollabAgentToolCall(_, CallInProgress) => None
    case CollabAgentToolCall(_, CallFailed) => Some((ToolFailed, Some(ToolError)))
    case ImageGeneration(_, status) =>
      Some(if status in {"failed", "error"} then (ToolFailed, Some(ToolError)) else (ToolCompleted, None))
    case UntrackedItem => None
    case _ => Some((ToolCompleted, None))
  }

  function ToolTold(facts: seq<Fact>, key: ItemKey): seq<Event>
    requires facts != [] && Closing(facts, key)
  {
    var past, n := Front(facts), Last(facts).notification;
    var context, reviews, from := ContextAt(past, key.threadId).value, Reviews(past, key), StartedAt(past, key).value;
    if EndOf(n.item).None? then []
    else [ToolUsed(key, ToolOf(n.item).value, EndOf(n.item).value.0, EndOf(n.item).value.1, from, n.completedAtMs,
                   Elapsed(from, n.completedAtMs), context.0, context.1,
                   |reviews|, Count(reviews, IsGuardians()), Count(reviews, IsUsers()),
                   if reviews == [] then Unknown else Last(reviews).outcome,
                   Count(reviews, HadMore()) > 0, Count(reviews, HadNetwork()) > 0)]
  }

  function ReviewTold(past: seq<Fact>, d: Decided): seq<Event>
  {
    var context := ContextAt(past, d.pending.threadId);
    if context.None? then []
    else [Reviewed(d.pending, context.value.0, context.value.1, d.reviewer, d.status, d.resolution, d.completedAtMs,
                   Elapsed(d.pending.startedAtMs, d.completedAtMs))]
  }

  function SteerTold(past: seq<Fact>, key: RequestKey, accepted: Option<string>, reason: Option<RejectionReason>):
      seq<Event>
  {
    var asked, connection := AskedSteer(past, key), Known(past, key.0);
    if asked.None? || connection.None? || ThreadAt(past, asked.value.threadId).metadata.None? then []
    else [TurnSteered(asked.value.threadId, asked.value.expectedTurnId, accepted, connection.value,
                      ThreadAt(past, asked.value.threadId).metadata.value, Count(asked.value.input, IsImage()),
                      if accepted.Some? then Accepted else Rejected, reason, asked.value.createdAt)]
  }

  function TurnTold(facts: seq<Fact>): seq<Event>
    requires facts != []
  {
    var heard := Heard(facts);
    if heard.None? then []
    else
      var t, g := heard.value.0, heard.value.1;
      var was := Epoch(Front(facts), t);
      if Reports(Front(facts), was, g) then Report(Front(facts), t, was + [g]) else []
  }

  /** The events the latest fact calls for. */
  function Says(facts: seq<Fact>): seq<Event>
    requires facts != []
  {
    var past, f := Front(facts), Last(facts);
    match f
    case ClientResponded(c, _, ThreadOpened(thread, model, mode)) =>
      (match Known(past, c)
       case Some(k) => [ThreadInitialized(thread.id, k.client, k.runtime, model, thread.ephemeral,
                                          OpenedAs(thread, mode), if thread.createdAt < 0 then 0 else thread.createdAt)]
       case None => [])
    case SubAgentThreadStarted(id, _, _, _, client, runtime, model, ephemeral, createdAt) =>
      [ThreadInitialized(id, client, runtime, model, ephemeral, SpawnedAs(f), createdAt)]
    case ClientResponded(c, id, TurnSteerResponse(t)) => SteerTold(past, (c, id), Some(t), None)
    case ErrorResponded(c, id, reason) => SteerTold(past, (c, id), None, reason)
    case Notified(ItemCompleted(threadId, turnId, item, _)) =>
      if ToolOf(item).Some? && Closing(facts, ItemKey(threadId, turnId, item.id))
      then ToolTold(facts, ItemKey(threadId, turnId, item.id)) else []
    case Compaction(threadId, turnId, details) =>
      (match ContextAt(past, threadId)
       case Some((connection, metadata)) => [Compacted(threadId, turnId, details, connection, metadata)]
       case None => [])
    case GuardianReview(threadId, _, review) =>
      (match ContextAt(past, threadId)
       case Some((connection, metadata)) => [GuardianReviewed(threadId, connection, metadata.sessionId, review)]
       case None => [])
    case _ => if Ruling(facts).Some? then ReviewTold(past, Ruling(facts).value) else TurnTold(facts)
  }

  /** All the events of a run. */
  function Story(facts: seq<Fact>): seq<Event>
  {
    if facts == [] then [] else Story(Front(facts)) + Says(facts)
  }
}
