/** The analytics reducer as a transition function: the facts it is fed, the
    seven keyed maps it keeps, and the events one fact makes it emit.
    `facts.rs`, `events.rs`, `reducer.rs` */
module ReducerModel {
  import opened Common
  import DiffScan

  /** Content the reducer copies from facts to events without looking inside. */
  type Payload = string

  // ------------------------------------------------------ protocol values

  datatype RequestId = StringId(text: string) | IntegerId(number: int)

  datatype UserInput = Image | LocalImage | OtherInput

  datatype ClientRequest =
    | TurnStart(threadId: string, input: seq<UserInput>)
    | TurnSteer(threadId: string, expectedTurnId: string, input: seq<UserInput>, createdAt: nat)
    | OtherRequest

  datatype SubAgentSource =
    | Review | Compact | ThreadSpawn(parentThreadId: string) | MemoryConsolidation | OtherSubAgent(name: string)

  datatype SessionSource = SubAgent(source: SubAgentSource) | Interactive

  datatype InitializationMode = New | Forked | Resumed

  datatype Thread = Thread(id: string, sessionId: string, source: SessionSource, threadSource: Option<Payload>,
                           ephemeral: bool, createdAt: int)

  datatype ClientResponse =
    | ThreadOpened(thread: Thread, model: string, mode: InitializationMode)
    | TurnStartResponse(turnId: string)
    | TurnSteerResponse(turnId: string)
    | OtherResponse

  datatype ExecStatus = InProgress | Completed | Failed | Declined

  datatype CallStatus = CallInProgress | CallCompleted | CallFailed

  datatype ThreadItem =
    | CommandExecution(id: string, execStatus: ExecStatus)
    | FileChange(id: string, execStatus: ExecStatus)
    | McpToolCall(id: string, callStatus: CallStatus)
    | DynamicToolCall(id: string, callStatus: CallStatus)
    | CollabAgentToolCall(id: string, callStatus: CallStatus)
    | WebSearch(id: string)
    | ImageGeneration(id: string, imageStatus: string)
    | UntrackedItem

  datatype ToolKind = ShellCommand | Patch | Mcp | Dynamic | Collab | Search | ImageGen

  datatype TurnStatus = TurnCompletedOk | TurnFailed | TurnInterrupted | TurnInProgress

  datatype PermissionProfile = PermissionProfile(networkEnabled: Option<bool>, fileSystem: bool)

  datatype GuardianAction =
    | CommandAction | ExecveAction | ApplyPatchAction | NetworkAccessAction
    | RequestPermissionsAction(permissions: PermissionProfile)
    | McpToolCallAction(toolName: string)

  datatype GuardianStatus = GuardianInProgress | GuardianApproved | GuardianDenied | GuardianTimedOut | GuardianAborted

  datatype Notification =
    | ItemStarted(threadId: string, turnId: string, item: ThreadItem, startedAtMs: int)
    | ItemCompleted(threadId: string, turnId: string, item: ThreadItem, completedAtMs: int)
    | GuardianReviewStarted
    | GuardianReviewCompleted(threadId: string, turnId: string, targetItemId: Option<string>, reviewId: string,
                              guardianStatus: GuardianStatus, action: GuardianAction, startedAtMs: int,
                                  completedAtMs: int)
    | TurnStarted(turnId: string, startedAt: Option<int>)
    | TurnDiffUpdated(threadId: string, turnId: string, diff: string)
    | TurnCompleted(turnId: string, status: TurnStatus, error: Option<Payload>, completedAt: Option<int>,
        durationMs: Option<int>)
    | OtherNotification

  /** What an approval request asks for; which fields exist depends on its kind. */
  datatype ApprovalKind =
    | CommandApproval(hasApprovalId: bool, networkContext: bool, networkAmendments: Option<nat>,
        additional: Option<PermissionProfile>)
    | FileChangeApproval(grantRoot: bool)
    | PermissionsApproval(permissions: PermissionProfile)

  datatype ServerRequest =
    | Approval(requestId: RequestId, threadId: string, turnId: string, itemId: string, startedAtMs: int,
        kind: ApprovalKind)
    | OtherServerRequest

  datatype CommandDecision =
    | Accept | AcceptForSession | AcceptWithExecPolicyAmendment | ApplyNetworkPolicyAmendment(allow: bool)
    | Decline | Cancel

  datatype FileChangeDecision = FileAccept | FileAcceptForSession | FileDecline | FileCancel

  datatype ServerResponse =
    | CommandApprovalResponse(requestId: RequestId, commandDecision: CommandDecision)
    | FileChangeApprovalResponse(requestId: RequestId, fileDecision: FileChangeDecision)
    | OtherServerResponse

  datatype GrantScope = TurnScope | SessionScope

  datatype RejectionReason =
    | NoActiveTurn | ExpectedTurnMismatch | NonSteerableReview | NonSteerableCompact | EmptyInput
    | InputTooLarge

  /** Clock readings and runtime metadata the source takes from its surroundings arrive inside the facts. */
  datatype Fact =
    | Initialize(connectionId: nat, client: Payload, runtime: Payload)
    | ClientRequested(connectionId: nat, requestId: RequestId, request: ClientRequest)
    | ClientResponded(connectionId: nat, requestId: RequestId, response: ClientResponse)
    | ErrorResponded(connectionId: nat, requestId: RequestId, reason: Option<RejectionReason>)
    | Notified(notification: Notification)
    | ServerRequested(serverRequest: ServerRequest)
    | ServerResponded(completedAtMs: nat, serverResponse: ServerResponse)
    | PermissionsResponded(completedAtMs: nat, requestId: RequestId, noneGranted: bool, scope: GrantScope)
    | ServerRequestAborted(completedAtMs: nat, requestId: RequestId)
    | SubAgentThreadStarted(threadId: string, sessionId: string, parentThreadId: Option<string>, source: SubAgentSource,
                            client: Payload, runtime: Payload, model: string, ephemeral: bool, createdAt: nat)
    | Compaction(threadId: string, turnId: string, details: Payload)
    | GuardianReview(threadId: string, turnId: string, review: Payload)
    | TurnResolvedConfig(turnId: string, threadId: string, numInputImages: nat, config: ResolvedConfig)
    | TurnTokenUsage(turnId: string, threadId: string, usage: Payload)

  datatype ResolvedConfig = ResolvedConfig(model: string, settings: Payload)

  // ---------------------------------------------------------------- state

  datatype ConnectionState = ConnectionState(client: Payload, runtime: Payload)

  datatype ThreadMetadata = ThreadMetadata(sessionId: string, threadSource: Option<Payload>, mode: InitializationMode,
                                           subagentSource: Option<string>, parentThreadId: Option<string>)

  datatype ThreadState = ThreadState(connectionId: Option<nat>, metadata: Option<ThreadMetadata>)

  datatype RequestState =
    | PendingTurnStart(threadId: string, numInputImages: nat)
    | PendingTurnSteer(threadId: string, expectedTurnId: string, numInputImages: nat, createdAt: nat)

  datatype CompletedTurn = CompletedTurn(status: Option<TurnStatus>, error: Option<Payload>, completedAt: nat,
      durationMs: Option<nat>)

  datatype ToolCounts = ToolCounts(total: nat, shellCommand: nat, fileChange: nat, mcpToolCall: nat,
      dynamicToolCall: nat,
                                   subagentToolCall: nat, webSearch: nat, imageGeneration: nat)

  const NO_TOOLS := ToolCounts(0, 0, 0, 0, 0, 0, 0, 0)

  datatype TurnState = TurnState(connectionId: Option<nat>, threadId: Option<string>, numInputImages: Option<nat>,
                                 resolvedConfig: Option<ResolvedConfig>, startedAt: Option<nat>,
                                     tokenUsage: Option<Payload>,
                                 completed: Option<CompletedTurn>, latestDiff: Option<string>, steerCount: nat,
                                 toolCounts: ToolCounts)

  const NEW_TURN := TurnState(None, None, None, None, None, None, None, None, 0, NO_TOOLS)

  datatype ItemKey = ItemKey(threadId: string, turnId: string, itemId: string)

  datatype SubjectKind = CommandSubject | FileChangeSubject | McpSubject | PermissionsSubject | NetworkSubject

  datatype ReviewTrigger = Initial | SandboxDenial | NetworkPolicyDenial | ExecveIntercept

  datatype PendingReview = PendingReview(threadId: string, turnId: string, itemId: Option<string>, reviewId: string,
                                         subject: SubjectKind, subjectName: string, trigger: ReviewTrigger,
                                             startedAtMs: nat,
                                         additionalPermissions: bool, networkAccess: bool)

  datatype Reviewer = Guardian | User

  datatype ReviewStatus = Approved | Denied | Aborted | TimedOut

  datatype ReviewResolution = NoResolution | SessionApproval | ExecPolicyAmendment | NetworkPolicyAmendment

  datatype ApprovalOutcome =
    | Unknown | ByGuardianApproved | ByGuardianDenied | ByGuardianAborted
    | ByUserApproved | ByUserApprovedForSession | ByUserDenied | ByUserAborted

  datatype ReviewSummary = ReviewSummary(reviews: nat, guardianReviews: nat, userReviews: nat,
      outcome: Option<ApprovalOutcome>,
                                         additionalPermissions: bool, networkAccess: bool)

  const NO_REVIEWS := ReviewSummary(0, 0, 0, None, false, false)

  type RequestKey = (nat, RequestId)

  datatype State = State(
    requests: map<RequestKey, RequestState>,
    turns: map<string, TurnState>,
    connections: map<nat, ConnectionState>,
    threads: map<string, ThreadState>,
    itemsStarted: map<ItemKey, nat>,
    pendingReviews: map<RequestId, PendingReview>,
    reviewSummaries: map<ItemKey, ReviewSummary>)

  const INITIAL := State(map[], map[], map[], map[], map[], map[], map[])

  // --------------------------------------------------------------- events

  datatype TerminalStatus = ToolCompleted | ToolFailed | ToolRejected

  datatype FailureKind = ToolError | ApprovalDenied

  datatype SteerResult = Accepted | Rejected

  datatype Event =
    | ThreadInitialized(threadId: string, client: Payload, runtime: Payload, model: string, ephemeral: bool,
                        metadata: ThreadMetadata, createdAt: nat)
    | GuardianReviewed(threadId: string, connection: ConnectionState, sessionId: string, review: Payload)
    | TurnReported(turnId: string, connection: ConnectionState, metadata: ThreadMetadata, turn: TurnState)
    | AcceptedLines(turnId: string, threadId: string, model: string, added: nat, deleted: nat)
    | TurnSteered(threadId: string, expectedTurnId: string, acceptedTurnId: Option<string>, connection: ConnectionState,
                  metadata: ThreadMetadata, numInputImages: nat, result: SteerResult, reason: Option<RejectionReason>,
                      createdAt: nat)
    | Reviewed(subject: PendingReview, connection: ConnectionState, metadata: ThreadMetadata, reviewer: Reviewer,
               status: ReviewStatus, resolution: ReviewResolution, completedAtMs: nat, durationMs: Option<nat>)
    | ToolUsed(key: ItemKey, tool: ToolKind, terminal: TerminalStatus, failure: Option<FailureKind>, startedAtMs: nat,
               completedAtMs: nat, durationMs: Option<nat>, connection: ConnectionState, metadata: ThreadMetadata,
               reviewCount: nat, guardianReviewCount: nat, userReviewCount: nat, finalOutcome: ApprovalOutcome,
               additionalPermissions: bool, networkAccess: bool)
    | Compacted(threadId: string, turnId: string, details: Payload, connection: ConnectionState,
        metadata: ThreadMetadata)

  // -------------------------------------------------------- pure helpers

  function ToU64(value: int): Option<nat>
  {
    if value >= 0 then Some(value) else None
  }

  function OptionToU64(value: Option<int>): Option<nat>
  {
    if value.Some? then ToU64(value.value) else None
  }

  function NumInputImages(input: seq<UserInput>): nat
  {
    |Filter(input, (i: UserInput) => i.Image? || i.LocalImage?)|
  }

  function Digits(n: nat): string
  {
    if n < 10 then ["0123456789"[n]] else Digits(n / 10) + ["0123456789"[n % 10]]
  }

  /** How a request id prints.  Integer and string ids print alike, so the printed form is no key. */
  function Display(id: RequestId): string
  {
    match id
    case StringId(text) => text
    case IntegerId(number) => if number < 0 then "-" + Digits(-number) else Digits(number)
  }

  function UserReviewId(id: RequestId): string { "user:" + Display(id) }

  function ItemTool(item: ThreadItem): Option<ToolKind>
  {
    match item
    case CommandExecution(_, _) => Some(ShellCommand)
    case FileChange(_, _) => Some(Patch)
    case McpToolCall(_, _) => Some(Mcp)
    case DynamicToolCall(_, _) => Some(Dynamic)
    case CollabAgentToolCall(_, _) => Some(Collab)
    case WebSearch(_) => Some(Search)
    case ImageGeneration(_, _) => Some(ImageGen)
    case UntrackedItem => None
  }

  function ExecOutcome(status: ExecStatus): Option<(TerminalStatus, Option<FailureKind>)>
  {
    match status
    case InProgress => None
    case Completed => Some((ToolCompleted, None))
    case Failed => Some((ToolFailed, Some(ToolError)))
    case Declined => Some((ToolRejected, Some(ApprovalDenied)))
  }

  function CallOutcome(status: CallStatus): Option<(TerminalStatus, Option<FailureKind>)>
  {
    match status
    case CallInProgress => None
    case CallCompleted => Some((ToolCompleted, None))
    case CallFailed => Some((ToolFailed, Some(ToolError)))
  }

  function ToolOutcome(item: ThreadItem): Option<(TerminalStatus, Option<FailureKind>)>
  {
    match item
    case CommandExecution(_, status) => ExecOutcome(status)
    case FileChange(_, status) => ExecOutcome(status)
    case McpToolCall(_, status) => CallOutcome(status)
    case DynamicToolCall(_, status) => CallOutcome(status)
    case CollabAgentToolCall(_, status) => CallOutcome(status)
    case WebSearch(_) => Some((ToolCompleted, None))
    case ImageGeneration(_, status) =>
      Some(if status == "failed" || status == "error" then (ToolFailed, Some(ToolError)) else (ToolCompleted, None))
    case UntrackedItem => None
  }

  function Duration(startedAtMs: nat, completedAtMs: nat): Option<nat>
  {
    if completedAtMs >= startedAtMs then Some(completedAtMs - startedAtMs) else None
  }

  function SubAgentName(source: SubAgentSource): string
  {
    match source
    case Review => "review"
    case Compact => "compact"
    case ThreadSpawn(_) => "thread_spawn"
    case MemoryConsolidation => "memory_consolidation"
    case OtherSubAgent(name) => name
  }

  function SubAgentParent(source: SubAgentSource): Option<string>
  {
    if source.ThreadSpawn? then Some(source.parentThreadId) else None
  }

  function Metadata(thread: Thread, mode: InitializationMode): ThreadMetadata
  {
    match thread.source
    case SubAgent(source) =>
      ThreadMetadata(thread.sessionId, thread.threadSource, mode, Some(SubAgentName(source)), SubAgentParent(source))
    case Interactive => ThreadMetadata(thread.sessionId, thread.threadSource, mode, None, None)
  }

  function NetworkEnabled(p: PermissionProfile): bool { p.networkEnabled == Some(true) }

  function CommandResult(decision: CommandDecision): (ReviewStatus, ReviewResolution)
  {
    match decision
    case Accept => (Approved, NoResolution)
    case AcceptForSession => (Approved, SessionApproval)
    case AcceptWithExecPolicyAmendment => (Approved, ExecPolicyAmendment)
    case ApplyNetworkPolicyAmendment(allow) => (if allow then Approved else Denied, NetworkPolicyAmendment)
    case Decline => (Denied, NoResolution)
    case Cancel => (Aborted, NoResolution)
  }

  function FileChangeResult(decision: FileChangeDecision): (ReviewStatus, ReviewResolution)
  {
    match decision
    case FileAccept => (Approved, NoResolution)
    case FileAcceptForSession => (Approved, SessionApproval)
    case FileDecline => (Denied, NoResolution)
    case FileCancel => (Aborted, NoResolution)
  }

  function PermissionsResult(noneGranted: bool, scope: GrantScope): (ReviewStatus, ReviewResolution)
  {
    if noneGranted then (Denied, NoResolution)
    else if scope.TurnScope? then (Approved, NoResolution)
    else (Approved, SessionApproval)
  }

  function GuardianResult(status: GuardianStatus): Option<ReviewStatus>
  {
    match status
    case GuardianInProgress => None
    case GuardianApproved => Some(Approved)
    case GuardianDenied => Some(Denied)
    case GuardianTimedOut => Some(TimedOut)
    case GuardianAborted => Some(Aborted)
  }

  function GuardianSubject(action: GuardianAction): (SubjectKind, string, ReviewTrigger)
  {
    match action
    case CommandAction => (CommandSubject, "command_execution", Initial)
    case ExecveAction => (CommandSubject, "command_execution", ExecveIntercept)
    case ApplyPatchAction => (FileChangeSubject, "apply_patch", SandboxDenial)
    case NetworkAccessAction => (NetworkSubject, "network_access", NetworkPolicyDenial)
    case RequestPermissionsAction(p) =>
      (PermissionsSubject, "permissions",
          if NetworkEnabled(p) then NetworkPolicyDenial else if p.fileSystem then SandboxDenial else Initial)
    case McpToolCallAction(toolName) => (McpSubject, toolName, Initial)
  }

  predicate GuardianWantsPermissions(action: GuardianAction)
  {
    action.ApplyPatchAction? || action.NetworkAccessAction?
    || (action.RequestPermissionsAction? && (NetworkEnabled(action.permissions) || action.permissions.fileSystem))
  }

  predicate GuardianWantsNetwork(action: GuardianAction)
  {
    action.NetworkAccessAction? || (action.RequestPermissionsAction? && NetworkEnabled(action.permissions))
  }

  function FinalOutcome(reviewer: Reviewer, status: ReviewStatus, resolution: ReviewResolution): ApprovalOutcome
  {
    match reviewer
    case Guardian => if status.Approved? then ByGuardianApproved else if status.Denied? then ByGuardianDenied
        else ByGuardianAborted
    case User =>
      if status.Approved? then (if resolution.SessionApproval? then ByUserApprovedForSession else ByUserApproved)
      else if status.Denied? then ByUserDenied
      else ByUserAborted
  }

  /** The claim an approval request stakes under its request id. */
  function PendingOf(r: ServerRequest, startedAtMs: nat): PendingReview
    requires r.Approval?
  {
    var id := UserReviewId(r.requestId);
    match r.kind
    case CommandApproval(hasApprovalId, networkContext, amendments, additional) =>
      var network := networkContext || (amendments.Some? && amendments.value > 0)
          || (additional.Some? && NetworkEnabled(additional.value));
      PendingReview(r.threadId, r.turnId, Some(r.itemId), id,
        if networkContext then NetworkSubject else CommandSubject,
        if networkContext then "network_access" else "command_execution",
        if hasApprovalId then ExecveIntercept else if network then NetworkPolicyDenial else if additional.Some? then
        SandboxDenial else Initial,
        startedAtMs, additional.Some?, network)
    case FileChangeApproval(grantRoot) =>
      PendingReview(r.threadId, r.turnId, Some(r.itemId), id, FileChangeSubject, "apply_patch",
        if grantRoot then SandboxDenial else Initial, startedAtMs, grantRoot, false)
    case PermissionsApproval(p) =>
      var network := NetworkEnabled(p);
      PendingReview(r.threadId, r.turnId, Some(r.itemId), id, PermissionsSubject, "permissions",
        if network then NetworkPolicyDenial else if p.fileSystem then SandboxDenial else Initial,
        startedAtMs, network || p.fileSystem, network)
  }

  // ------------------------------------------------------------ context

  datatype Missing = MissingThreadConnection | MissingConnection(connectionId: nat) | MissingMetadata

  datatype Context = Found(connection: ConnectionState, metadata: ThreadMetadata) | Dropped(missing: Missing)

  function ThreadContext(s: State, threadId: string): Context
  {
    if threadId !in s.threads then Dropped(MissingThreadConnection)
    else
      var thread := s.threads[threadId];
      if thread.connectionId.None? then Dropped(MissingThreadConnection)
      else if thread.connectionId.value !in s.connections then Dropped(MissingConnection(thread.connectionId.value))
      else if thread.metadata.None? then Dropped(MissingMetadata)
      else Found(s.connections[thread.connectionId.value], thread.metadata.value)
  }

  function KnownMetadata(s: State, threadId: string): Option<ThreadMetadata>
  {
    if threadId in s.threads then s.threads[threadId].metadata else None
  }

  // -------------------------------------------------------------- turns

  /** What one fact tells one turn. */
  datatype Signal =
    | Started(connectionId: nat, threadId: string, numInputImages: nat)
    | Configured(threadId: string, numInputImages: nat, config: ResolvedConfig)
    | TokensUsed(threadId: string, usage: Payload)
    | BeganAt(startedAt: Option<nat>)
    | DiffChanged(threadId: string, diff: string)
    | Finished(completion: CompletedTurn)
    | ToolRan(tool: ToolKind)
    | Steered

  /** Tool and steer signals are lost on a turn that has no state yet. */
  predicate Opens(signal: Signal) { !signal.ToolRan? && !signal.Steered? }

  /** Signals after which the reducer checks whether the turn can be reported. */
  predicate MayComplete(signal: Signal)
  {
    signal.Started? || signal.Configured? || signal.TokensUsed? || signal.Finished?
  }

  function RecordTool(c: ToolCounts, tool: ToolKind): ToolCounts
  {
    var c := c.(total := c.total + 1);
    match tool
    case ShellCommand => c.(shellCommand := c.shellCommand + 1)
    case Patch => c.(fileChange := c.fileChange + 1)
    case Mcp => c.(mcpToolCall := c.mcpToolCall + 1)
    case Dynamic => c.(dynamicToolCall := c.dynamicToolCall + 1)
    case Collab => c.(subagentToolCall := c.subagentToolCall + 1)
    case Search => c.(webSearch := c.webSearch + 1)
    case ImageGen => c.(imageGeneration := c.imageGeneration + 1)
  }

  function Apply(turn: TurnState, signal: Signal): TurnState
  {
    match signal
    case Started(connectionId, threadId, images) =>
      turn.(connectionId := Some(connectionId), threadId := Some(threadId), numInputImages := Some(images))
    case Configured(threadId, images, config) =>
      turn.(threadId := Some(threadId), numInputImages := Some(images), resolvedConfig := Some(config))
    case TokensUsed(threadId, usage) => turn.(threadId := Some(threadId), tokenUsage := Some(usage))
    case BeganAt(startedAt) => turn.(startedAt := startedAt)
    case DiffChanged(threadId, diff) => turn.(threadId := Some(threadId), latestDiff := Some(diff))
    case Finished(completion) => turn.(completed := Some(completion))
    case ToolRan(tool) => turn.(toolCounts := RecordTool(turn.toolCounts, tool))
    case Steered => turn.(steerCount := turn.steerCount + 1)
  }

  predicate FullyPopulated(turn: TurnState)
  {
    turn.threadId.Some? && turn.numInputImages.Some? && turn.resolvedConfig.Some? && turn.completed.Some?
  }

  predicate Reportable(s: State, turn: TurnState)
  {
    && FullyPopulated(turn)
    && turn.connectionId.Some? && turn.connectionId.value in s.connections
    && KnownMetadata(s, turn.threadId.value).Some?
  }

  function AcceptedLinesOf(turnId: string, turn: TurnState): (r: seq<Event>)
    requires FullyPopulated(turn)
    ensures |r| <= 1 && forall e :: e in r ==> e.AcceptedLines? && e.turnId == turnId
  {
    if turn.latestDiff.None? then []
    else
      var (added, deleted) := DiffScan.DiffCounts(turn.latestDiff.value);
      if added == 0 && deleted == 0 then []
      else [AcceptedLines(turnId, turn.threadId.value, turn.resolvedConfig.value.model, added, deleted)]
  }

  function TurnReport(s: State, turnId: string, turn: TurnState): seq<Event>
    requires Reportable(s, turn)
  {
    [TurnReported(turnId, s.connections[turn.connectionId.value], KnownMetadata(s, turn.threadId.value).value, turn)]
    + AcceptedLinesOf(turnId, turn)
  }

  function MaybeEmitTurn(s: State, turnId: string): (State, seq<Event>)
  {
    if turnId in s.turns && Reportable(s, s.turns[turnId])
    then (s.(turns := s.turns - {turnId}), TurnReport(s, turnId, s.turns[turnId]))
    else (s, [])
  }

  function TurnOrNew(s: State, turnId: string): TurnState
  {
    if turnId in s.turns then s.turns[turnId] else NEW_TURN
  }

  /** A signal reaches the turn map and nothing else. */
  function SignalTurn(s: State, turnId: string, signal: Signal): (r: (State, seq<Event>))
    ensures r.0 == s.(turns := r.0.turns)
    ensures forall e :: e in r.1 ==> (e.TurnReported? || e.AcceptedLines?) && e.turnId == turnId
  {
    if turnId !in s.turns && !Opens(signal) then (s, [])
    else
      var told := s.(turns := s.turns[turnId := Apply(TurnOrNew(s, turnId), signal)]);
      if MayComplete(signal) then MaybeEmitTurn(told, turnId) else (told, [])
  }

  // ------------------------------------------------------------ reviews

  /** A review that has been decided. */
  datatype Decided = Decided(pending: PendingReview, reviewer: Reviewer, status: ReviewStatus,
      resolution: ReviewResolution, completedAtMs: nat)

  function SummaryKey(p: PendingReview): Option<ItemKey>
  {
    if (p.subject.CommandSubject? || p.subject.FileChangeSubject? || p.subject.McpSubject?) && p.itemId.Some?
    then Some(ItemKey(p.threadId, p.turnId, p.itemId.value))
    else None
  }

  function AddReview(sum: ReviewSummary, d: Decided): ReviewSummary
  {
    ReviewSummary(sum.reviews + 1,
      sum.guardianReviews + (if d.reviewer.Guardian? then 1 else 0),
      sum.userReviews + (if d.reviewer.User? then 1 else 0),
      Some(FinalOutcome(d.reviewer, d.status, d.resolution)),
      sum.additionalPermissions || d.pending.additionalPermissions,
      sum.networkAccess || d.pending.networkAccess)
  }

  function SummaryOf(s: State, key: ItemKey): ReviewSummary
  {
    if key in s.reviewSummaries then s.reviewSummaries[key] else NO_REVIEWS
  }

  /** A decided review is noted in its item's summary even when its event is dropped. */
  function EmitReview(s: State, d: Decided): (r: (State, seq<Event>))
    ensures r.0 == s.(reviewSummaries := r.0.reviewSummaries)
    ensures forall e :: e in r.1 ==> e.Reviewed? && e.subject == d.pending && e.reviewer == d.reviewer
  {
    var key := SummaryKey(d.pending);
    var noted := if key.Some?
        then s.(reviewSummaries := s.reviewSummaries[key.value := AddReview(SummaryOf(s, key.value), d)]) else s;
    var context := ThreadContext(s, d.pending.threadId);
    (noted,
     if context.Found?
     then [Reviewed(d.pending, context.connection, context.metadata, d.reviewer, d.status, d.resolution,
         d.completedAtMs,
                    Duration(d.pending.startedAtMs, d.completedAtMs))]
     else [])
  }

  /** Every answer to an approval request takes its claim away. */
  function SettleUserReview(s: State, id: RequestId, result: (ReviewStatus, ReviewResolution),
      completedAtMs: nat): (r: (State, seq<Event>))
    ensures r.0 == s.(pendingReviews := r.0.pendingReviews, reviewSummaries := r.0.reviewSummaries)
  {
    if id !in s.pendingReviews then (s, [])
    else EmitReview(s.(pendingReviews := s.pendingReviews - {id}),
                    Decided(s.pendingReviews[id], User, result.0, result.1, completedAtMs))
  }

  // -------------------------------------------------------------- facts

  function OpenThread(s: State, connectionId: nat, thread: Thread, model: string,
      mode: InitializationMode): (r: (State, seq<Event>))
    ensures r.0 == s.(threads := r.0.threads)
  {
    if connectionId !in s.connections then (s, [])
    else
      var connection, metadata := s.connections[connectionId], Metadata(thread, mode);
      (s.(threads := s.threads[thread.id := ThreadState(Some(connectionId), Some(metadata))]),
       [ThreadInitialized(thread.id, connection.client, connection.runtime, model, thread.ephemeral, metadata,
                          if thread.createdAt >= 0 then thread.createdAt else 0)])
  }

  function StartSubAgentThread(s: State, f: Fact): (r: (State, seq<Event>))
    requires f.SubAgentThreadStarted?
    ensures r.0 == s.(threads := r.0.threads)
  {
    var parent := if f.parentThreadId.Some? then f.parentThreadId else SubAgentParent(f.source);
    var inherited := if parent.Some? && parent.value in s.threads then s.threads[parent.value].connectionId else None;
    var existing := if f.threadId in s.threads then s.threads[f.threadId] else ThreadState(None, None);
    var metadata := ThreadMetadata(f.sessionId, Some("subagent"), New, Some(SubAgentName(f.source)), parent);
    (s.(threads := s.threads[f.threadId := ThreadState(
        if existing.connectionId.None? then inherited else existing.connectionId,
        if existing.metadata.None? then Some(metadata) else existing.metadata)]),
     [ThreadInitialized(f.threadId, f.client, f.runtime, f.model, f.ephemeral, metadata, f.createdAt)])
  }

  function Request(s: State, key: RequestKey, request: ClientRequest): (r: State)
    ensures r == s.(requests := r.requests)
  {
    match request
    case TurnStart(threadId, input) =>
      s.(requests := s.requests[key := PendingTurnStart(threadId, NumInputImages(input))])
    case TurnSteer(threadId, expectedTurnId, input, createdAt) =>
      s.(requests := s.requests[key := PendingTurnSteer(threadId, expectedTurnId, NumInputImages(input), createdAt)])
    case OtherRequest => s
  }

  function SteerReport(s: State, connectionId: nat, p: RequestState, accepted: Option<string>, result: SteerResult,
                       reason: Option<RejectionReason>): (r: seq<Event>)
    requires p.PendingTurnSteer?
    ensures |r| <= 1 && forall e :: e in r ==> e.TurnSteered?
  {
    var metadata := KnownMetadata(s, p.threadId);
    if connectionId !in s.connections || metadata.None? then []
    else [TurnSteered(p.threadId, p.expectedTurnId, accepted, s.connections[connectionId], metadata.value,
        p.numInputImages,
                      result, reason, p.createdAt)]
  }

  function AnswerTurnStart(s: State, key: RequestKey, turnId: string): (r: (State, seq<Event>))
    ensures r.0 == s.(requests := r.0.requests, turns := r.0.turns)
    ensures r.0.requests == s.requests - {key}
  {
    var s1 := s.(requests := s.requests - {key});
    if key in s.requests && s.requests[key].PendingTurnStart?
    then SignalTurn(s1, turnId, Started(key.0, s.requests[key].threadId, s.requests[key].numInputImages))
    else (s1, [])
  }

  function AnswerTurnSteer(s: State, key: RequestKey, turnId: string): (r: (State, seq<Event>))
    ensures r.0 == s.(requests := r.0.requests, turns := r.0.turns)
    ensures r.0.requests == s.requests - {key}
  {
    var s1 := s.(requests := s.requests - {key});
    if key in s.requests && s.requests[key].PendingTurnSteer?
    then (SignalTurn(s1, turnId, Steered).0, SteerReport(s, key.0, s.requests[key], Some(turnId), Accepted, None))
    else (s1, [])
  }

  function Respond(s: State, connectionId: nat, id: RequestId, response: ClientResponse): (r: (State, seq<Event>))
    ensures r.0 == s.(threads := r.0.threads, requests := r.0.requests, turns := r.0.turns)
  {
    match response
    case ThreadOpened(thread, model, mode) => OpenThread(s, connectionId, thread, model, mode)
    case TurnStartResponse(turnId) => AnswerTurnStart(s, (connectionId, id), turnId)
    case TurnSteerResponse(turnId) => AnswerTurnSteer(s, (connectionId, id), turnId)
    case OtherResponse => (s, [])
  }

  function Fail(s: State, key: RequestKey, reason: Option<RejectionReason>): (r: (State, seq<Event>))
    ensures r.0 == s.(requests := r.0.requests)
  {
    (s.(requests := s.requests - {key}),
     if key in s.requests && s.requests[key].PendingTurnSteer?
     then SteerReport(s, key.0, s.requests[key], None, Rejected, reason)
     else [])
  }

  function ToolReport(key: ItemKey, item: ThreadItem, startedAtMs: nat, completedAtMs: nat, connection: ConnectionState,
                      metadata: ThreadMetadata, sum: ReviewSummary): (r: seq<Event>)
    ensures |r| <= 1 && forall e :: e in r ==> e.ToolUsed? && e.key == key
  {
    var outcome := ToolOutcome(item);
    if ItemTool(item).None? || outcome.None? then []
    else [ToolUsed(key, ItemTool(item).value, outcome.value.0, outcome.value.1, startedAtMs, completedAtMs,
                   Duration(startedAtMs, completedAtMs), connection, metadata,
                   sum.reviews, sum.guardianReviews, sum.userReviews,
                   if sum.outcome.Some? then sum.outcome.value else Unknown,
                   sum.additionalPermissions, sum.networkAccess)]
  }

  function CompleteItem(s: State, threadId: string, turnId: string, item: ThreadItem,
      completedAtMs: int): (r: (State, seq<Event>))
    ensures r.0 == s.(turns := r.0.turns, itemsStarted := r.0.itemsStarted, reviewSummaries := r.0.reviewSummaries)
  {
    if ItemTool(item).None? || turnId !in s.turns then (s, [])
    else
      var counted := SignalTurn(s, turnId, ToolRan(ItemTool(item).value)).0;
      var key := ItemKey(threadId, turnId, item.id);
      if key !in s.itemsStarted then (counted, [])
      else
        var taken := counted.(itemsStarted := s.itemsStarted - {key});
        var at, context := ToU64(completedAtMs), ThreadContext(s, threadId);
        if at.None? || context.Dropped? then (taken, [])
        else (taken.(reviewSummaries := s.reviewSummaries - {key}),
              ToolReport(key, item, s.itemsStarted[key], at.value, context.connection, context.metadata,
                  SummaryOf(s, key)))
  }

  function DecideGuardian(n: Notification): Option<Decided>
    requires n.GuardianReviewCompleted?
  {
    var status, startedAt, completedAt := GuardianResult(n.guardianStatus), ToU64(n.startedAtMs),
        ToU64(n.completedAtMs);
    if status.None? || startedAt.None? || completedAt.None? then None
    else
      var (subject, name, trigger) := GuardianSubject(n.action);
      Some(Decided(PendingReview(n.threadId, n.turnId, n.targetItemId, n.reviewId, subject, name, trigger,
          startedAt.value,
                                 GuardianWantsPermissions(n.action), GuardianWantsNetwork(n.action)),
                   Guardian, status.value, NoResolution, completedAt.value))
  }

  function Completion(n: Notification): CompletedTurn
    requires n.TurnCompleted?
  {
    var at := OptionToU64(n.completedAt);
    CompletedTurn(if n.status.TurnInProgress? then None else Some(n.status), n.error,
                  if at.Some? then at.value else 0, OptionToU64(n.durationMs))
  }

  function Notify(s: State, n: Notification): (r: (State, seq<Event>))
    ensures r.0 == s.(turns := r.0.turns, itemsStarted := r.0.itemsStarted, reviewSummaries := r.0.reviewSummaries)
  {
    match n
    case ItemStarted(threadId, turnId, item, startedAtMs) =>
      if ItemTool(item).None? || ToU64(startedAtMs).None? then (s, [])
      else (s.(itemsStarted := s.itemsStarted[ItemKey(threadId, turnId, item.id) := startedAtMs]), [])
    case ItemCompleted(threadId, turnId, item, completedAtMs) => CompleteItem(s, threadId, turnId, item, completedAtMs)
    case GuardianReviewStarted => (s, [])
    case GuardianReviewCompleted(_, _, _, _, _, _, _, _) =>
      var d := DecideGuardian(n);
      if d.None? then (s, []) else EmitReview(s, d.value)
    case TurnStarted(turnId, startedAt) => SignalTurn(s, turnId, BeganAt(OptionToU64(startedAt)))
    case TurnDiffUpdated(threadId, turnId, diff) => SignalTurn(s, turnId, DiffChanged(threadId, diff))
    case TurnCompleted(turnId, _, _, _, _) => SignalTurn(s, turnId, Finished(Completion(n)))
    case OtherNotification => (s, [])
  }

  function AskApproval(s: State, request: ServerRequest): (r: State)
    ensures r == s.(pendingReviews := r.pendingReviews)
  {
    if request.Approval? && ToU64(request.startedAtMs).Some?
    then s.(pendingReviews := s.pendingReviews[request.requestId := PendingOf(request, request.startedAtMs)])
    else s
  }

  function AnswerApproval(s: State, completedAtMs: nat, response: ServerResponse): (r: (State, seq<Event>))
    ensures r.0 == s.(pendingReviews := r.0.pendingReviews, reviewSummaries := r.0.reviewSummaries)
  {
    match response
    case CommandApprovalResponse(id, decision) => SettleUserReview(s, id, CommandResult(decision), completedAtMs)
    case FileChangeApprovalResponse(id, decision) => SettleUserReview(s, id, FileChangeResult(decision), completedAtMs)
    case OtherServerResponse => (s, [])
  }

  function ReportCompaction(s: State, threadId: string, turnId: string, details: Payload): seq<Event>
  {
    var c := ThreadContext(s, threadId);
    if c.Found? then [Compacted(threadId, turnId, details, c.connection, c.metadata)] else []
  }

  function ReportGuardian(s: State, threadId: string, review: Payload): seq<Event>
  {
    var c := ThreadContext(s, threadId);
    if c.Found? then [GuardianReviewed(threadId, c.connection, c.metadata.sessionId, review)] else []
  }

  /** What one fact does to the reducer, and the events it emits. */
  function Ingest(s: State, f: Fact): (State, seq<Event>)
  {
    match f
    case Initialize(connectionId, client, runtime) =>
      (s.(connections := s.connections[connectionId := ConnectionState(client, runtime)]), [])
    case ClientRequested(connectionId, id, request) => (Request(s, (connectionId, id), request), [])
    case ClientResponded(connectionId, id, response) => Respond(s, connectionId, id, response)
    case ErrorResponded(connectionId, id, reason) => Fail(s, (connectionId, id), reason)
    case Notified(n) => Notify(s, n)
    case ServerRequested(r) => (AskApproval(s, r), [])
    case ServerResponded(at, r) => AnswerApproval(s, at, r)
    case PermissionsResponded(at, id, noneGranted, scope) =>
        SettleUserReview(s, id, PermissionsResult(noneGranted, scope), at)
    case ServerRequestAborted(at, id) => SettleUserReview(s, id, (Aborted, NoResolution), at)
    case SubAgentThreadStarted(_, _, _, _, _, _, _, _, _) => StartSubAgentThread(s, f)
    case Compaction(threadId, turnId, details) => (s, ReportCompaction(s, threadId, turnId, details))
    case GuardianReview(threadId, turnId, review) => (s, ReportGuardian(s, threadId, review))
    case TurnResolvedConfig(turnId, threadId, images, config) =>
        SignalTurn(s, turnId, Configured(threadId, images, config))
    case TurnTokenUsage(turnId, threadId, usage) => SignalTurn(s, turnId, TokensUsed(threadId, usage))
  }

  // ---------------------------------------------------------------- runs

  function Run(facts: seq<Fact>): (State, seq<Event>)
  {
    if facts == [] then (INITIAL, [])
    else
      var (s, out) := Run(Front(facts));
      var (s', emitted) := Ingest(s, Last(facts));
      (s', out + emitted)
  }

  function After(facts: seq<Fact>): State { Run(facts).0 }

  function Output(facts: seq<Fact>): seq<Event> { Run(facts).1 }
}
