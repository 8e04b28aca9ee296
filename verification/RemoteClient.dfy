/** The remote client: the initialize handshake, the worker that multiplexes commands and frames over one
    connection, and the event stream the caller reads.  Every await that can fail is an outcome carried by the
    input that provokes it.  `app-server-client/src/remote.rs` */
module RemoteClient {
  import opened Common

  datatype RequestId = StringId(text: string) | IntegerId(number: int)

  /** A JSON-RPC message.  `decoded` is what the typed protocol makes of it, if anything. */
  datatype Message =
    | Response(id: RequestId, result: string)
    | ErrorReply(id: RequestId, error: string)
    | Notification(decoded: Option<string>)
    | ServerRequest(id: RequestId, rpcMethod: string, known: bool)

  datatype Frame =
    | Text(message: Message)
    | InvalidText
    | Close
    | Uninteresting          // binary, ping, pong and raw frames
    | TransportError
    | EndOfStream

  /** A frame, and whether a write it provokes succeeds. */
  datatype Arrival = Arrival(frame: Frame, written: bool)

  datatype Event =
    | NotificationEvent(payload: string)
    | RequestEvent(id: RequestId, rpcMethod: string)
    | Disconnected(fault: Fault)

  datatype Fault = WriteFailed | InvalidJson | RemoteClosed | TransportFailed | UnexpectedEnd

  datatype ErrorKind = InvalidInput | InvalidData | BrokenPipe | ConnectionAborted | UnexpectedEof | TimedOut | Other

  function KindOf(fault: Fault): ErrorKind
  {
    match fault
    case WriteFailed => BrokenPipe
    case InvalidJson => InvalidData
    case RemoteClosed => ConnectionAborted
    case TransportFailed => InvalidData
    case UnexpectedEnd => UnexpectedEof
  }

  /** What the worker's loop takes in next: a command, a frame, or word that the consumer dropped the stream.
      A command is known by its position in the run. */
  datatype Input =
    | Request(id: RequestId, written: bool)
    | Notify(written: bool)
    | Resolve(id: RequestId, written: bool)
    | Reject(id: RequestId, written: bool)
    | Shutdown(closed: bool)
    | CommandsClosed
    | FromServer(arrival: Arrival)
    | ConsumerGone

  predicate IsCommand(i: Input) { i.Request? || i.Notify? || i.Resolve? || i.Reject? || i.Shutdown? }

  datatype Answer = Result(value: string) | RemoteError(error: string) | Failure(kind: ErrorKind) | Done(ok: bool)

  /** An answer sent to the command at position `waiter`. */
  datatype Reply = Reply(waiter: nat, answer: Answer)

  /** What the worker hands to the socket. */
  datatype Outgoing =
    | OutRequest(id: RequestId, waiter: nat)
    | OutNotification(waiter: nat)
    | OutResponse(id: RequestId, waiter: nat)
    | OutError(id: RequestId, waiter: nat)
    | OutUnsupported(id: RequestId)       // code -32601

  datatype Exit = Running | Left | Failed(fault: Fault)

  datatype Worker = Worker(pending: map<RequestId, nat>, replies: seq<Reply>, events: seq<Event>, wire: seq<Outgoing>,
                           consumerOpen: bool, exit: Exit, taken: nat)

  const START := Worker(map[], [], [], [], true, Running, 0)

  // ------------------------------------------------------------- the worker

  function EventOf(m: Message): Option<Event>
  {
    match m
    case Notification(Some(payload)) => Some(NotificationEvent(payload))
    case ServerRequest(id, rpcMethod, true) => Some(RequestEvent(id, rpcMethod))
    case _ => None
  }

  function Send(s: Worker, e: Event): Worker { if s.consumerOpen then s.(events := s.events + [e]) else s }

  function Fail(s: Worker, fault: Fault): Worker { Send(s, Disconnected(fault)).(exit := Failed(fault)) }

  function Tell(s: Worker, waiter: nat, a: Answer): Worker { s.(replies := s.replies + [Reply(waiter, a)]) }

  function Write(s: Worker, o: Outgoing): Worker { s.(wire := s.wire + [o]) }

  function TakeRequest(s: Worker, at: nat, id: RequestId, written: bool): Worker
  {
    if id in s.pending then Tell(s, at, Failure(InvalidInput))
    else
      var sent := Write(s, OutRequest(id, at));
      if written then sent.(pending := sent.pending[id := at])
      else Fail(Tell(sent, at, Failure(Other)), WriteFailed)
  }

  function TakeReply(s: Worker, id: RequestId, a: Answer): Worker
  {
    if id in s.pending then Tell(s, s.pending[id], a).(pending := s.pending - {id}) else s
  }

  function TakeMessage(s: Worker, m: Message, written: bool): Worker
  {
    if m.Response? then TakeReply(s, m.id, Result(m.result))
    else if m.ErrorReply? then TakeReply(s, m.id, RemoteError(m.error))
    else if EventOf(m).Some? then
      (if s.consumerOpen then Send(s, EventOf(m).value) else s.(exit := Left))
    else if m.ServerRequest? then
      (if written then Write(s, OutUnsupported(m.id)) else Fail(Write(s, OutUnsupported(m.id)), WriteFailed))
    else s
  }

  function TakeFrame(s: Worker, a: Arrival): Worker
  {
    match a.frame
    case Text(m) => TakeMessage(s, m, a.written)
    case InvalidText => Fail(s, InvalidJson)
    case Close => Fail(s, RemoteClosed)
    case Uninteresting => s
    case TransportError => Fail(s, TransportFailed)
    case EndOfStream => Fail(s, UnexpectedEnd)
  }

  function Take(s: Worker, at: nat, i: Input): Worker
  {
    match i
    case Request(id, written) => TakeRequest(s, at, id, written)
    case Notify(written) => Tell(Write(s, OutNotification(at)), at, Done(written))
    case Resolve(id, written) => Tell(Write(s, OutResponse(id, at)), at, Done(written))
    case Reject(id, written) => Tell(Write(s, OutError(id, at)), at, Done(written))
    case Shutdown(closed) => Tell(s, at, Done(closed)).(exit := Left)
    case CommandsClosed => s.(exit := Left)
    case FromServer(a) => TakeFrame(s, a)
    case ConsumerGone => s.(consumerOpen := false)
  }

  function Step(s: Worker, i: Input): Worker
  {
    if s.exit.Running? then Take(s, s.taken, i).(taken := s.taken + 1) else s
  }

  function Serve(inputs: seq<Input>): Worker
  {
    if inputs == [] then START else Step(Serve(Front(inputs)), Last(inputs))
  }

  /** What remaining waiters are told when the worker leaves. */
  function ExitKind(exit: Exit): ErrorKind { if exit.Failed? then KindOf(exit.fault) else BrokenPipe }

  // ------------------------------------------------- answered exactly once

  function Answers(replies: seq<Reply>, waiter: nat): nat
  {
    if replies == [] then 0 else Answers(Front(replies), waiter) + if Last(replies).waiter == waiter then 1 else 0
  }

  lemma AnswersOne(replies: seq<Reply>, r: Reply, waiter: nat)
    ensures Answers(replies + [r], waiter) == Answers(replies, waiter) + if r.waiter == waiter then 1 else 0
  {
    assert Front(replies + [r]) == replies && Last(replies + [r]) == r;
  }

  predicate Outstanding(inputs: seq<Input>, pending: map<RequestId, nat>, w: nat)
  {
    w < |inputs| && inputs[w].Request? && inputs[w].id in pending && pending[inputs[w].id] == w
  }

  /** A frame that answers requests with the given id. */
  predicate RepliesTo(i: Input, id: RequestId)
  {
    && i.FromServer? && i.arrival.frame.Text?
    && var m := i.arrival.frame.message; (m.Response? || m.ErrorReply?) && m.id == id
  }

  ghost predicate Silent(inputs: seq<Input>, id: RequestId, from: nat, to: nat)
  {
    forall k :: from < k < to && k < |inputs| ==> !RepliesTo(inputs[k], id)
  }

  /** Each waiter is known by the id it asked under, and nothing has answered it since. */
  ghost predicate WaitersKnown(inputs: seq<Input>, s: Worker)
  {
    && s.taken <= |inputs|
    && (s.exit.Running? ==> s.taken == |inputs|)
    && forall id :: id in s.pending ==>
         && s.pending[id] < s.taken && inputs[s.pending[id]].Request? && inputs[s.pending[id]].id == id
         && Silent(inputs, id, s.pending[id], s.taken)
  }

  /** Every command taken has one answer, outstanding requests have none, and nothing else is answered. */
  ghost predicate AnsweredOnce(inputs: seq<Input>, s: Worker)
  {
    && s.taken <= |inputs|
    && forall w: nat :: Answers(s.replies, w) ==
                        if w < s.taken && IsCommand(inputs[w]) && !Outstanding(inputs, s.pending, w) then 1 else 0
  }

  /** The answer is the right one. */
  ghost predicate Justified(inputs: seq<Input>, taken: nat, r: Reply)
  {
    && r.waiter < taken <= |inputs|
    && var i := inputs[r.waiter];
       match r.answer
       case Result(v) =>
         && i.Request?
         && exists k ::
              && r.waiter < k < taken && inputs[k].FromServer?
              && inputs[k].arrival.frame == Text(Response(i.id, v)) && Silent(inputs, i.id, r.waiter, k)
       case RemoteError(e) =>
         && i.Request?
         && exists k ::
              && r.waiter < k < taken && inputs[k].FromServer?
              && inputs[k].arrival.frame == Text(ErrorReply(i.id, e)) && Silent(inputs, i.id, r.waiter, k)
       case Failure(InvalidInput) =>
         && i.Request?
         && exists k ::
              0 <= k < r.waiter && inputs[k].Request? && inputs[k].id == i.id && Silent(inputs, i.id, k, r.waiter)
       case Failure(kind) => kind == Other && i.Request? && !i.written
       case Done(ok) =>
         match i
         case Notify(written) => ok == written
         case Resolve(_, written) => ok == written
         case Reject(_, written) => ok == written
         case Shutdown(closed) => ok == closed
         case _ => false
  }

  ghost predicate AllJustified(inputs: seq<Input>, s: Worker)
  {
    forall r :: r in s.replies ==> Justified(inputs, s.taken, r)
  }

  ghost predicate Inv(inputs: seq<Input>, s: Worker)
  {
    WaitersKnown(inputs, s) && AnsweredOnce(inputs, s) && AllJustified(inputs, s)
  }

  lemma StaysJustified(inputs: seq<Input>, taken: nat, r: Reply, x: Input)
    requires Justified(inputs, taken, r)
    ensures Justified(inputs + [x], taken, r) && Justified(inputs + [x], taken + 1, r)
  {
    var more := inputs + [x];
    var i := inputs[r.waiter];
    assert more[r.waiter] == i;
    match r.answer
    case Result(v) =>
      var k :| r.waiter < k < taken && inputs[k].FromServer? && inputs[k].arrival.frame == Text(Response(i.id, v))
               && Silent(inputs, i.id, r.waiter, k);
      assert more[k] == inputs[k] && Silent(more, i.id, r.waiter, k);
    case RemoteError(e) =>
      var k :| r.waiter < k < taken && inputs[k].FromServer? && inputs[k].arrival.frame == Text(ErrorReply(i.id, e))
               && Silent(inputs, i.id, r.waiter, k);
      assert more[k] == inputs[k] && Silent(more, i.id, r.waiter, k);
    case Failure(kind) =>
      if kind == InvalidInput {
        var k :| 0 <= k < r.waiter && inputs[k].Request? && inputs[k].id == i.id && Silent(inputs, i.id, k, r.waiter);
        assert more[k] == inputs[k] && Silent(more, i.id, k, r.waiter);
      }
    case Done(_) =>
  }

  lemma StayJustified(inputs: seq<Input>, s: Worker, x: Input)
    requires AllJustified(inputs, s)
    ensures forall r :: r in s.replies ==>
        Justified(inputs + [x], s.taken, r) && Justified(inputs + [x], s.taken + 1, r)
  {
    hide Justified;
    forall r | r in s.replies
      ensures Justified(inputs + [x], s.taken, r) && Justified(inputs + [x], s.taken + 1, r) {
      StaysJustified(inputs, s.taken, r, x);
    }
  }

  /** An input that answers nobody and is not itself to be answered. */
  lemma IdleKeeps(inputs: seq<Input>, s: Worker, x: Input, t: Worker)
    requires Inv(inputs, s) && s.exit.Running? && !IsCommand(x)
    requires t.pending == s.pending && t.replies == s.replies && t.taken == s.taken + 1
    requires forall id :: id in s.pending ==> !RepliesTo(x, id)
    ensures Inv(inputs + [x], t)
  {
    hide Justified;
    StayJustified(inputs, s, x);
  }

  /** A command answered on the spot. */
  lemma AnswerKeeps(inputs: seq<Input>, s: Worker, x: Input, t: Worker, a: Answer)
    requires Inv(inputs, s) && s.exit.Running? && IsCommand(x)
    requires t.pending == s.pending && t.replies == s.replies + [Reply(s.taken, a)] && t.taken == s.taken + 1
    requires Justified(inputs + [x], t.taken, Reply(s.taken, a))
    ensures Inv(inputs + [x], t)
  {
    hide Justified;
    StayJustified(inputs, s, x);
    assert !Outstanding(inputs + [x], t.pending, s.taken);
    forall w: nat ensures Answers(t.replies, w) ==
      if w < t.taken && IsCommand((inputs + [x])[w]) && !Outstanding(inputs + [x], t.pending, w) then 1 else 0 {
      AnswersOne(s.replies, Reply(s.taken, a), w);
    }
  }

  /** A request sent off: its caller starts to wait. */
  lemma AskKeeps(inputs: seq<Input>, s: Worker, x: Input, t: Worker)
    requires Inv(inputs, s) && s.exit.Running? && x.Request? && x.id !in s.pending
    requires t.pending == s.pending[x.id := s.taken] && t.replies == s.replies && t.taken == s.taken + 1
    ensures Inv(inputs + [x], t)
  {
    hide Justified;
    StayJustified(inputs, s, x);
  }

  /** A reply to an outstanding request: its caller, and no other, is answered. */
  lemma ReplyKeeps(inputs: seq<Input>, s: Worker, x: Input, t: Worker, id: RequestId, a: Answer)
    requires Inv(inputs, s) && s.exit.Running? && RepliesTo(x, id) && id in s.pending
    requires x.arrival.frame == Text(Response(id, if a.Result? then a.value else ""))
             || x.arrival.frame == Text(ErrorReply(id, if a.RemoteError? then a.error else ""))
    requires x.arrival.frame.message.Response? == a.Result? && x.arrival.frame.message.ErrorReply? == a.RemoteError?
    requires t.pending == s.pending - {id} && t.replies == s.replies + [Reply(s.pending[id], a)]
        && t.taken == s.taken + 1
    ensures Inv(inputs + [x], t)
  {
    var more, w := inputs + [x], s.pending[id];
    assert Justified(more, t.taken, Reply(w, a)) by {
      assert more[s.taken] == x && more[w] == inputs[w];
      assert Silent(more, id, w, s.taken);
    }
    hide Justified;
    StayJustified(inputs, s, x);
    assert Outstanding(inputs, s.pending, w);
    forall v: nat ensures Answers(t.replies, v) ==
      if v < t.taken && IsCommand(more[v]) && !Outstanding(more, t.pending, v) then 1 else 0 {
      AnswersOne(s.replies, Reply(w, a), v);
      assert Outstanding(more, t.pending, v) <==> Outstanding(inputs, s.pending, v) && v != w;
    }
  }

  lemma RequestKeeps(inputs: seq<Input>, s: Worker, x: Input)
    requires Inv(inputs, s) && s.exit.Running? && x.Request?
    ensures Inv(inputs + [x], Step(s, x))
  {
    var more := inputs + [x];
    assert more[s.taken] == x;
    if x.id in s.pending {
      var k := s.pending[x.id];
      assert more[k] == inputs[k] && Silent(more, x.id, k, s.taken);
      AnswerKeeps(inputs, s, x, Step(s, x), Failure(InvalidInput));
    } else if x.written {
      AskKeeps(inputs, s, x, Step(s, x));
    } else {
      AnswerKeeps(inputs, s, x, Step(s, x), Failure(Other));
    }
  }

  lemma FrameKeeps(inputs: seq<Input>, s: Worker, x: Input)
    requires Inv(inputs, s) && s.exit.Running? && x.FromServer?
    ensures Inv(inputs + [x], Step(s, x))
  {
    hide Inv;
    var f := x.arrival.frame;
    if f.Text? && f.message.Response? && f.message.id in s.pending {
      ReplyKeeps(inputs, s, x, Step(s, x), f.message.id, Result(f.message.result));
    } else if f.Text? && f.message.ErrorReply? && f.message.id in s.pending {
      ReplyKeeps(inputs, s, x, Step(s, x), f.message.id, RemoteError(f.message.error));
    } else {
      IdleKeeps(inputs, s, x, Step(s, x));
    }
  }

  lemma StepKeeps(inputs: seq<Input>, s: Worker, x: Input)
    requires Inv(inputs, s)
    ensures Inv(inputs + [x], Step(s, x))
  {
    if !s.exit.Running? {
      hide Justified;
      StayJustified(inputs, s, x);
    } else if x.Request? {
      RequestKeeps(inputs, s, x);
    } else if x.FromServer? {
      FrameKeeps(inputs, s, x);
    } else if x.CommandsClosed? || x.ConsumerGone? {
      IdleKeeps(inputs, s, x, Step(s, x));
    } else {
      assert (inputs + [x])[s.taken] == x;
      AnswerKeeps(inputs, s, x, Step(s, x), Last(Step(s, x).replies).answer);
    }
  }

  lemma {:induction false} ServeKeeps(inputs: seq<Input>)
    ensures Inv(inputs, Serve(inputs))
  {
    if inputs != [] {
      hide Inv, Step;
      ServeKeeps(Front(inputs));
      StepKeeps(Front(inputs), Serve(Front(inputs)), Last(inputs));
      assert inputs == Front(inputs) + [Last(inputs)];
    }
  }

  // -------------------------------------------------- wire and event stream

  function LiveOf(i: Input): seq<Event>
  {
    match i
    case FromServer(Arrival(Text(Notification(Some(payload))), _)) => [NotificationEvent(payload)]
    case FromServer(Arrival(Text(ServerRequest(id, rpcMethod, true)), _)) => [RequestEvent(id, rpcMethod)]
    case _ => []
  }

  /** The decodable notifications and requests among some inputs, in the order they came. */
  function Live(inputs: seq<Input>): seq<Event>
  {
    if inputs == [] then [] else Live(Front(inputs)) + LiveOf(Last(inputs))
  }

  function Farewell(exit: Exit): seq<Event> { if exit.Failed? then [Disconnected(exit.fault)] else [] }

  predicate Refused(replies: seq<Reply>, at: nat) { Reply(at, Failure(InvalidInput)) in replies }

  function SentFor(i: Input, at: nat, refused: bool): seq<Outgoing>
  {
    match i
    case Request(id, _) => if refused then [] else [OutRequest(id, at)]
    case Notify(_) => [OutNotification(at)]
    case Resolve(id, _) => [OutResponse(id, at)]
    case Reject(id, _) => [OutError(id, at)]
    case FromServer(a) =>
      if a.frame.Text? && a.frame.message.ServerRequest?
          && !a.frame.message.known then [OutUnsupported(a.frame.message.id)] else []
    case _ => []
  }

  /** What the first `n` inputs put on the wire when the requests answered as duplicates put nothing there. */
  function Sent(inputs: seq<Input>, n: nat, replies: seq<Reply>): seq<Outgoing>
    requires n <= |inputs|
  {
    if n == 0 then [] else Sent(inputs, n - 1, replies) + SentFor(inputs[n - 1], n - 1, Refused(replies, n - 1))
  }

  /** The consumer dropped the stream before the input at `k`. */
  ghost predicate Departed(inputs: seq<Input>, k: nat)
  {
    exists j :: 0 <= j < k && j < |inputs| && inputs[j].ConsumerGone?
  }

  ghost predicate StreamExact(inputs: seq<Input>, s: Worker)
  {
    && s.taken <= |inputs|
    && (s.consumerOpen <==> !Departed(inputs, s.taken))
    && (s.consumerOpen ==> s.events == Live(inputs[..s.taken]) + Farewell(s.exit))
    && (forall d: nat :: d < s.taken && inputs[d].ConsumerGone? && !Departed(inputs, d) ==>
          s.events == Live(inputs[..d]))
  }

  ghost predicate WireExact(inputs: seq<Input>, s: Worker)
  {
    s.taken <= |inputs| && s.wire == Sent(inputs, s.taken, s.replies)
  }

  /** Replies about later positions, or of another kind, do not change what was sent. */
  lemma {:induction false} SentStable(inputs: seq<Input>, n: nat, replies: seq<Reply>, more: seq<Input>, r: seq<Reply>)
    requires n <= |inputs| && inputs <= more
    requires forall at: nat :: at < n ==> Refused(r, at) == Refused(replies, at)
    ensures Sent(more, n, r) == Sent(inputs, n, replies)
  {
    if n > 0 { SentStable(inputs, n - 1, replies, more, r); }
  }

  lemma StepEmits(s: Worker, x: Input)
    requires s.exit.Running?
    ensures Step(s, x).taken == s.taken + 1
    ensures Step(s, x).consumerOpen <==> s.consumerOpen && !x.ConsumerGone?
    ensures Step(s, x).events == if s.consumerOpen then s.events + (LiveOf(x) + Farewell(Step(s, x).exit)) else s.events
    ensures x.ConsumerGone? ==> Step(s, x).exit.Running?
  {
    assert s.events + ([] + []) == s.events;
  }

  lemma DepartedOneMore(inputs: seq<Input>, x: Input, d: nat)
    ensures d <= |inputs| ==> (inputs + [x])[..d] == inputs[..d] && (Departed(inputs + [x], d) <==> Departed(inputs, d))
    ensures d == |inputs| ==> (Departed(inputs + [x], d + 1) <==> Departed(inputs, d) || x.ConsumerGone?)
  {
    var more := inputs + [x];
    assert forall j :: 0 <= j < |inputs| ==> more[j] == inputs[j];
    assert more[|inputs|] == x;
  }

  /** A consumer that is still there, after one more input. */
  lemma StepStreamsOn(inputs: seq<Input>, s: Worker, x: Input)
    requires s.exit.Running? && s.consumerOpen && s.events == Live(inputs)
    ensures var t := Step(s, x); t.events == Live(inputs + [x]) + Farewell(t.exit)
    ensures x.ConsumerGone? ==> Step(s, x).events == Live(inputs)
  {
    StepEmits(s, x);
    assert Front(inputs + [x]) == inputs && Last(inputs + [x]) == x;
    hide Step, LiveOf;
    var base, live, bye := Live(inputs), LiveOf(x), Farewell(Step(s, x).exit);
    assert base + (live + bye) == base + live + bye;
    if x.ConsumerGone? { LiveOfCommands(x); assert base + ([] + []) == base; }
  }

  lemma LiveOfCommands(x: Input)
    ensures !x.FromServer? ==> LiveOf(x) == []
  {
  }

  lemma StepStreams(inputs: seq<Input>, s: Worker, x: Input)
    requires StreamExact(inputs, s) && (s.exit.Running? ==> s.taken == |inputs|)
    ensures StreamExact(inputs + [x], Step(s, x))
  {
    var more, n, t := inputs + [x], s.taken, Step(s, x);
    forall d: nat | d <= n
      ensures more[..d] == inputs[..d] && (Departed(more, d) <==> Departed(inputs, d)) {
      DepartedOneMore(inputs, x, d);
    }
    assert forall d :: 0 <= d < |inputs| ==> more[d] == inputs[d];
    if s.exit.Running? {
      assert more[n] == x;
      StepEmits(s, x);
      DepartedOneMore(inputs, x, n);
      assert inputs[..n] == inputs && more[..n + 1] == more;
      if s.consumerOpen {
        assert Live(inputs) + [] == Live(inputs);
        StepStreamsOn(inputs, s, x);
      }
    } else {
      StaysOut(s, x);
    }
    hide Step, Live, LiveOf, Departed, Farewell;
  }

  lemma StepSends(s: Worker, x: Input)
    requires s.exit.Running?
    ensures Step(s, x).wire == s.wire + SentFor(x, s.taken, x.Request? && x.id in s.pending)
    ensures Step(s, x).taken == s.taken + 1
  {
    assert s.wire + [] == s.wire;
  }

  lemma StepWires(inputs: seq<Input>, s: Worker, x: Input)
    requires WireExact(inputs, s) && WaitersKnown(inputs, s) && AllJustified(inputs, s)
    ensures WireExact(inputs + [x], Step(s, x))
  {
    var more, t := inputs + [x], Step(s, x);
    if s.exit.Running? {
      forall r | r in s.replies ensures r.waiter < s.taken { assert Justified(inputs, s.taken, r); }
      RefusedNow(s, x);
      StepSends(s, x);
      assert more[s.taken] == x;
    }
    hide Step, Silent, Justified, SentFor;
    forall at: nat | at < s.taken ensures Refused(t.replies, at) == Refused(s.replies, at) { RefusedLater(s, x, at); }
    SentStable(inputs, s.taken, s.replies, more, t.replies);
  }

  lemma RefusedLater(s: Worker, x: Input, at: nat)
    requires at < s.taken
    ensures Refused(Step(s, x).replies, at) == Refused(s.replies, at)
  {
  }

  lemma RefusedNow(s: Worker, x: Input)
    requires s.exit.Running? && forall r :: r in s.replies ==> r.waiter < s.taken
    requires forall id :: id in s.pending ==> s.pending[id] < s.taken
    ensures Refused(Step(s, x).replies, s.taken) <==> x.Request? && x.id in s.pending
  {
    if x.Request? && x.id in s.pending {
      assert Last(Step(s, x).replies) == Reply(s.taken, Failure(InvalidInput));
      assert Last(Step(s, x).replies) in Step(s, x).replies;
    }
  }

  lemma {:induction false} ServeStreams(inputs: seq<Input>)
    ensures StreamExact(inputs, Serve(inputs)) && WireExact(inputs, Serve(inputs))
  {
    if inputs != [] {
      ServeStreams(Front(inputs));
      ServeKeeps(Front(inputs));
      var s := Serve(Front(inputs));
      assert inputs == Front(inputs) + [Last(inputs)];
      hide StreamExact, WireExact, Step, AnsweredOnce, AllJustified;
      StepStreams(Front(inputs), s, Last(inputs));
      StepWires(Front(inputs), s, Last(inputs));
    }
  }

  // ---------------------------------------------------------- main results

  predicate IsDisconnect(e: Event) { e.Disconnected? }

  lemma {:induction false} LiveIsAboutTheServer(inputs: seq<Input>, i: nat)
    requires i < |Live(inputs)|
    ensures !IsDisconnect(Live(inputs)[i])
  {
    if i < |Live(Front(inputs))| { LiveIsAboutTheServer(Front(inputs), i); }
  }

  /** A consumer that stays sees every decodable event in wire order, then, exactly when the remote side failed,
      one `Disconnected` saying how, at the very end; a local shutdown produces none.  A consumer that drops the stream
      has been sent exactly what was decodable before. */
  lemma DisconnectedClosesTheStream(inputs: seq<Input>)
    ensures var s := Serve(inputs); s.taken <= |inputs| && (s.consumerOpen ==>
      && s.events == Live(inputs[..s.taken]) + Farewell(s.exit)
      && (forall i :: 0 <= i < |s.events| && IsDisconnect(s.events[i]) ==>
          i == |s.events| - 1 && s.exit == Failed(s.events[i].fault))
      && (s.exit.Failed? ==> s.events != [] && Last(s.events) == Disconnected(s.exit.fault))
      && (s.exit.Left? ==> s.taken > 0 && (inputs[s.taken - 1].Shutdown? || inputs[s.taken - 1].CommandsClosed?)))
    ensures Serve(inputs).consumerOpen <==> !Departed(inputs, Serve(inputs).taken)
    ensures forall d: nat :: d < Serve(inputs).taken && inputs[d].ConsumerGone? && !Departed(inputs, d) ==>
      Serve(inputs).events == Live(inputs[..d])
  {
    hide Step, Serve, Live;
    ServeStreams(inputs);
    var s := Serve(inputs);
    if s.exit.Left? && s.consumerOpen { LeavesOnCommand(inputs); }
    var live := Live(inputs[..s.taken]);
    if s.consumerOpen {
      forall i | 0 <= i < |live| ensures !IsDisconnect(s.events[i]) { LiveIsAboutTheServer(inputs[..s.taken], i); }
    }
  }

  lemma LeavesOnCommand(inputs: seq<Input>)
    requires Serve(inputs).exit.Left? && Serve(inputs).consumerOpen
    ensures 0 < Serve(inputs).taken <= |inputs|
    ensures inputs[Serve(inputs).taken - 1].Shutdown? || inputs[Serve(inputs).taken - 1].CommandsClosed?
  {
    hide Step, Serve, IsDuplicate;
    FirstEndingDecides(inputs);
    ServeStreams(inputs);
  }

  lemma {:induction false} OnTheWire(inputs: seq<Input>, n: nat, replies: seq<Reply>, id: RequestId, w: nat)
    requires n <= |inputs|
    ensures OutRequest(id, w) in Sent(inputs, n, replies)
      <==> w < n && inputs[w].Request? && inputs[w].id == id && !Refused(replies, w)
  {
    if n > 0 { OnTheWire(inputs, n - 1, replies, id, w); }
  }

  /** An earlier request with the same id has had no reply when this one comes. */
  ghost predicate IsDuplicate(inputs: seq<Input>, w: nat)
  {
    && w < |inputs| && inputs[w].Request?
    && exists k :: 0 <= k < w && inputs[k].Request? && inputs[k].id == inputs[w].id
        && Silent(inputs, inputs[w].id, k, w)
  }

  lemma StepHolds(s: Worker, x: Input, id: RequestId)
    requires s.exit.Running? && Step(s, x).exit.Running?
    ensures id in s.pending && !RepliesTo(x, id) ==> id in Step(s, x).pending
    ensures x.Request? ==> x.id in Step(s, x).pending
  {
  }

  /** While the worker runs, an id that was asked for and not replied to since is held. */
  lemma {:induction false} HeldUntilReply(inputs: seq<Input>, k: nat)
    requires k < |inputs| && inputs[k].Request? && Serve(inputs).exit.Running?
        && Silent(inputs, inputs[k].id, k, |inputs|)
    ensures inputs[k].id in Serve(inputs).pending
  {
    hide Step;
    var s, x := Serve(Front(inputs)), Last(inputs);
    assert s.exit.Running? by { StaysOut(s, x); }
    StepHolds(s, x, inputs[k].id);
    if k < |inputs| - 1 {
      assert Silent(Front(inputs), inputs[k].id, k, |inputs| - 1);
      HeldUntilReply(Front(inputs), k);
    }
  }

  lemma StaysOut(s: Worker, x: Input)
    ensures !s.exit.Running? ==> Step(s, x) == s
  {
  }

  /** A request taken is refused if and only if its id was held when it came. */
  lemma {:induction false} RefusedIffHeld(inputs: seq<Input>, w: nat)
    requires w < Serve(inputs).taken && w < |inputs|
    ensures Serve(inputs[..w]).exit.Running?
    ensures Refused(Serve(inputs).replies, w) <==> inputs[w].Request? && inputs[w].id in Serve(inputs[..w]).pending
  {
    hide Step;
    var s, x := Serve(Front(inputs)), Last(inputs);
    ServeKeeps(Front(inputs));
    StaysOut(s, x);
    if w < s.taken {
      assert Front(inputs)[..w] == inputs[..w];
      RefusedIffHeld(Front(inputs), w);
      RefusedLater(s, x, w);
    } else {
      assert s.exit.Running?;
      StepTakesOne(s, x);
      assert inputs[..w] == Front(inputs);
      forall r | r in s.replies ensures r.waiter < s.taken { assert Justified(Front(inputs), s.taken, r); }
      RefusedNow(s, x);
    }
  }

  /** A request is on the wire exactly when it was not turned away, and it is turned away exactly when it is a
      duplicate of one that is still unanswered. */
  lemma DuplicatesNeverReachTheWire(inputs: seq<Input>, id: RequestId, w: nat)
    ensures var s := Serve(inputs);
      && s.taken <= |inputs|
      && (Refused(s.replies, w) <==> w < s.taken && IsDuplicate(inputs, w))
      && (OutRequest(id, w) in s.wire <==>
            w < s.taken && inputs[w].Request? && inputs[w].id == id && !IsDuplicate(inputs, w))
  {
    hide Serve, Sent, Step;
    ServeStreams(inputs);
    ServeKeeps(inputs);
    var s := Serve(inputs);
    OnTheWire(inputs, s.taken, s.replies, id, w);
    if Refused(s.replies, w) {
      assert Justified(inputs, s.taken, Reply(w, Failure(InvalidInput)));
    } else if w < s.taken && IsDuplicate(inputs, w) {
      DuplicateIsRefused(inputs, w);
    }
  }

  lemma DuplicateIsRefused(inputs: seq<Input>, w: nat)
    requires w < Serve(inputs).taken && IsDuplicate(inputs, w)
    ensures Refused(Serve(inputs).replies, w)
  {
    hide Serve;
    RefusedIffHeld(inputs, w);
    var k :| 0 <= k < w && inputs[k].Request? && inputs[k].id == inputs[w].id && Silent(inputs, inputs[w].id, k, w);
    assert inputs[..w][k] == inputs[k] && Silent(inputs[..w], inputs[k].id, k, w);
    HeldUntilReply(inputs[..w], k);
  }

  lemma StrangerStep(s: Worker, x: Input, id: RequestId)
    requires s.exit.Running?
    requires (x.Request? && x.id in s.pending) || (RepliesTo(x, id) && id !in s.pending)
    ensures Step(s, x) == s.(taken := s.taken + 1,
                             replies := if x.Request? then s.replies + [Reply(s.taken, Failure(InvalidInput))]
                                 else s.replies)
  {
  }

  /** Neither a duplicate nor a reply nobody waits for disturbs anything else. */
  lemma StrangersChangeNothing(inputs: seq<Input>, x: Input, id: RequestId)
    requires Serve(inputs).exit.Running?
    requires (x.Request? && x.id in Serve(inputs).pending) || (RepliesTo(x, id) && id !in Serve(inputs).pending)
    ensures var s := Serve(inputs);
      Serve(inputs + [x]) == s.(taken := s.taken + 1,
                                replies := if x.Request? then s.replies + [Reply(|inputs|, Failure(InvalidInput))]
                                    else s.replies)
  {
    hide Step;
    assert Serve(inputs).taken == |inputs| by { ServeKeeps(inputs); }
    assert Front(inputs + [x]) == inputs && Last(inputs + [x]) == x;
    StrangerStep(Serve(inputs), x, id);
  }

  /** A request that was accepted is answered by the first reply to its id, if one has come. */
  lemma FirstReplyAnswers(inputs: seq<Input>, w: nat)
    requires w < Serve(inputs).taken && w < |inputs| && inputs[w].Request?
    ensures var s := Serve(inputs); Answers(s.replies, w) <= 1
    ensures var s := Serve(inputs); Answers(s.replies, w) == 0 <==> Outstanding(inputs, s.pending, w)
    ensures var s := Serve(inputs); Answers(s.replies, w) == 0 ==> Silent(inputs, inputs[w].id, w, s.taken)
    ensures var s := Serve(inputs); forall r :: r in s.replies && r.waiter == w ==> Justified(inputs, s.taken, r)
  {
    hide Serve, Justified;
    ServeKeeps(inputs);
    var s := Serve(inputs);
    assert Answers(s.replies, w) ==
      if w < s.taken && IsCommand(inputs[w]) && !Outstanding(inputs, s.pending, w) then 1 else 0;
  }

  // -------------------------------------------------------- when a run ends

  /** An input that must end the run it reaches, given whether it would be a duplicate and whether the consumer has
      gone. */
  predicate Ends(i: Input, duplicate: bool, gone: bool)
  {
    match i
    case Request(_, written) => !written && !duplicate
    case Shutdown(_) => true
    case CommandsClosed => true
    case FromServer(Arrival(Text(Notification(decoded)), _)) => decoded.Some? && gone
    case FromServer(Arrival(Text(ServerRequest(_, _, known)), written)) => if known then gone else !written
    case FromServer(Arrival(Text(_), _)) => false
    case FromServer(Arrival(Uninteresting, _)) => false
    case FromServer(_) => true
    case _ => false
  }

  ghost predicate Ending(inputs: seq<Input>, k: nat)
    requires k < |inputs|
  {
    Ends(inputs[k], IsDuplicate(inputs, k), Departed(inputs, k))
  }

  /** How a run ends on an input that ends it. */
  function HowEnded(i: Input): Exit
  {
    match i
    case Request(_, _) => Failed(WriteFailed)
    case FromServer(Arrival(InvalidText, _)) => Failed(InvalidJson)
    case FromServer(Arrival(Close, _)) => Failed(RemoteClosed)
    case FromServer(Arrival(TransportError, _)) => Failed(TransportFailed)
    case FromServer(Arrival(EndOfStream, _)) => Failed(UnexpectedEnd)
    case FromServer(Arrival(Text(ServerRequest(_, _, false)), _)) => Failed(WriteFailed)
    case _ => Left
  }

  /** What that input makes of the requests still waiting. */
  function LastWord(i: Input): ErrorKind
  {
    match i
    case FromServer(Arrival(InvalidText, _)) => InvalidData
    case FromServer(Arrival(TransportError, _)) => InvalidData
    case FromServer(Arrival(Close, _)) => ConnectionAborted
    case FromServer(Arrival(EndOfStream, _)) => UnexpectedEof
    case _ => BrokenPipe
  }

  lemma EndingLooksBack(inputs: seq<Input>, k: nat)
    requires k < |inputs| - 1
    ensures Ending(Front(inputs), k) <==> Ending(inputs, k)
    ensures Departed(Front(inputs), k) <==> Departed(inputs, k)
  {
    var less := Front(inputs);
    assert forall j :: 0 <= j < |less| ==> less[j] == inputs[j];
    assert forall id, j :: Silent(less, id, j, k) <==> Silent(inputs, id, j, k);
  }

  /** An id is held when an input comes if and only if it would make a request a duplicate. */
  lemma HeldIsDuplicate(inputs: seq<Input>)
    requires inputs != [] && Serve(Front(inputs)).exit.Running? && Last(inputs).Request?
    ensures Last(inputs).id in Serve(Front(inputs)).pending <==> IsDuplicate(inputs, |inputs| - 1)
  {
    hide Serve, Step;
    var less, x, n := Front(inputs), Last(inputs), |inputs| - 1;
    ServeKeeps(less);
    assert forall j :: 0 <= j < n ==> less[j] == inputs[j];
    if x.id in Serve(less).pending {
      var k := Serve(less).pending[x.id];
      assert inputs[k] == less[k] && Silent(inputs, x.id, k, n);
    }
    if IsDuplicate(inputs, n) {
      var k :| 0 <= k < n && inputs[k].Request? && inputs[k].id == x.id && Silent(inputs, x.id, k, n);
      assert less[k] == inputs[k] && Silent(less, x.id, k, n);
      HeldUntilReply(less, k);
    }
  }

  lemma StepEnds(s: Worker, x: Input)
    requires s.exit.Running?
    ensures Step(s, x).taken == s.taken + 1
    ensures Step(s, x).exit
      == if Ends(x, x.Request? && x.id in s.pending, !s.consumerOpen) then HowEnded(x) else Running
  {
  }

  /** The last input of a run that got this far ends it exactly when it must. */
  lemma LastDecides(inputs: seq<Input>)
    requires inputs != [] && Serve(Front(inputs)).exit.Running?
    ensures var s, k := Serve(inputs), |inputs| - 1;
      && s.taken == |inputs|
      && s.exit == (if Ending(inputs, k) then HowEnded(inputs[k]) else Running)
  {
    var less, x, k := Front(inputs), Last(inputs), |inputs| - 1;
    var s := Serve(less);
    StepEnds(s, x);
    assert s.taken == k by { ServeKeeps(less); }
    assert s.consumerOpen <==> !Departed(inputs, k) by {
      ServeStreams(less);
      assert forall j :: 0 <= j < k ==> less[j] == inputs[j];
    }
    if x.Request? { HeldIsDuplicate(inputs); }
    hide Step, Ends, Departed;
  }

  /** A run goes on until the first input that must end it; that input fixes how many inputs are taken and how the run
      ends, and without one the run takes everything and is still running. */
  lemma {:induction false} FirstEndingDecides(inputs: seq<Input>)
    ensures Serve(inputs).exit.Running? <==> forall k :: 0 <= k < |inputs| ==> !Ending(inputs, k)
    ensures Serve(inputs).exit.Running? ==> Serve(inputs).taken == |inputs|
    ensures !Serve(inputs).exit.Running? ==>
      && 0 < Serve(inputs).taken <= |inputs|
      && Ending(inputs, Serve(inputs).taken - 1)
      && (forall k :: 0 <= k < Serve(inputs).taken - 1 ==> !Ending(inputs, k))
      && Serve(inputs).exit == HowEnded(inputs[Serve(inputs).taken - 1])
  {
    if inputs != [] {
      var less := Front(inputs);
      FirstEndingDecides(less);
      forall k: nat | k < |inputs| - 1 ensures Ending(less, k) <==> Ending(inputs, k) { EndingLooksBack(inputs, k); }
      if Serve(less).exit.Running? {
        LastDecides(inputs);
        hide Step, Serve, Ending;
      } else {
        StaysOut(Serve(less), Last(inputs));
        hide Step, Ending;
      }
    }
  }

  // ------------------------------------------------------ the source's form

  predicate OneEach(pending: map<RequestId, nat>)
  {
    forall a, b :: a in pending && b in pending && pending[a] == pending[b] ==> a == b
  }

  ghost predicate Waits(pending: map<RequestId, nat>, w: nat) { exists id :: id in pending && pending[id] == w }

  /** Tells every remaining waiter, in no particular order. */
  method TellRemaining(pending: map<RequestId, nat>, kind: ErrorKind) returns (told: seq<Reply>)
    requires OneEach(pending)
    ensures forall w: nat :: Answers(told, w) == if Waits(pending, w) then 1 else 0
    ensures forall r :: r in told ==> r.answer == Failure(kind)
  {
    told := [];
    var rest := pending;
    while rest.Keys != {}
      invariant rest.Keys <= pending.Keys && forall id :: id in rest ==> rest[id] == pending[id]
      invariant forall w: nat :: Answers(told, w) == if Waits(pending, w) && !Waits(rest, w) then 1 else 0
      invariant forall r :: r in told ==> r.answer == Failure(kind)
      decreases |rest.Keys|
    {
      var id :| id in rest.Keys;
      var before := told;
      ghost var left := rest - {id};
      forall w: nat ensures Answers(before + [Reply(rest[id], Failure(kind))], w) == if Waits(pending, w)
          && !Waits(left, w) then 1 else 0 {
        AnswersOne(before, Reply(rest[id], Failure(kind)), w);
        WaitsWithout(rest, id, w);
        assert Waits(rest, rest[id]) && Waits(pending, rest[id]) by { assert pending[id] == rest[id]; }
      }
      told := told + [Reply(rest[id], Failure(kind))];
      rest := rest - {id};
    }
  }

  lemma WaitsWithout(pending: map<RequestId, nat>, id: RequestId, w: nat)
    requires OneEach(pending) && id in pending
    ensures Waits(pending - {id}, w) <==> Waits(pending, w) && w != pending[id]
  {
    if Waits(pending, w) && w != pending[id] {
      var other :| other in pending && pending[other] == w;
      assert other in pending - {id};
    }
  }

  lemma WaitsIsOutstanding(inputs: seq<Input>, s: Worker, w: nat)
    requires WaitersKnown(inputs, s)
    ensures Waits(s.pending, w) <==> Outstanding(inputs, s.pending, w)
    ensures OneEach(s.pending)
  {
  }

  lemma {:induction false} ServeStops(inputs: seq<Input>, n: nat)
    requires n <= |inputs| && (n == |inputs| || !Serve(inputs[..n]).exit.Running?)
    ensures Serve(inputs) == Serve(inputs[..n])
    decreases |inputs|
  {
    if n == |inputs| {
      assert inputs[..n] == inputs;
    } else {
      assert Front(inputs)[..n] == inputs[..n];
      ServeStops(Front(inputs), n);
    }
  }

  lemma {:induction false} AnswersBoth(a: seq<Reply>, b: seq<Reply>, w: nat)
    ensures Answers(a + b, w) == Answers(a, w) + Answers(b, w)
  {
    if b == [] {
      assert a + b == a;
    } else {
      assert Front(a + b) == a + Front(b);
      AnswersBoth(a, Front(b), w);
    }
  }

  /** The worker task: its table of waiting callers, the socket, and the channel to the consumer. */
  class RemoteWorker {
    var pendingRequests: map<RequestId, nat>
    var replies: seq<Reply>
    var events: seq<Event>
    var wire: seq<Outgoing>
    var consumerOpen: bool
    var exit: Exit
    var taken: nat

    function View(): Worker
      reads this
    {
      Worker(pendingRequests, replies, events, wire, consumerOpen, exit, taken)
    }

    constructor ()
      ensures View() == START
    {
      pendingRequests, replies, events, wire := map[], [], [], [];
      consumerOpen, exit, taken := true, Running, 0;
    }

    method DeliverEvent(event: Event) returns (ok: bool)
      modifies this`events
      ensures ok == consumerOpen && View() == Send(old(View()), event)
    {
      if consumerOpen { events := events + [event]; }
      return consumerOpen;
    }

    method Disconnect(fault: Fault)
      modifies this`events, this`exit
      ensures View() == Fail(old(View()), fault)
    {
      var _ := DeliverEvent(Disconnected(fault));
      exit := Failed(fault);
    }

    method SendRequest(id: RequestId, written: bool)
      modifies this`pendingRequests, this`replies, this`wire, this`events, this`exit
      ensures View() == TakeRequest(old(View()), old(taken), id, written)
    {
      if id in pendingRequests {
        replies := replies + [Reply(taken, Failure(InvalidInput))];
        return;
      }
      var others := pendingRequests;
      pendingRequests := pendingRequests[id := taken];
      wire := wire + [OutRequest(id, taken)];
      if !written {
        replies := replies + [Reply(pendingRequests[id], Failure(Other))];
        pendingRequests := pendingRequests - {id};
        assert pendingRequests == others;
        Disconnect(WriteFailed);
      }
    }

    method SettleRequest(id: RequestId, answer: Answer)
      modifies this`pendingRequests, this`replies
      ensures View() == TakeReply(old(View()), id, answer)
    {
      if id in pendingRequests {
        replies := replies + [Reply(pendingRequests[id], answer)];
        pendingRequests := pendingRequests - {id};
      }
    }

    method HandleMessage(m: Message, written: bool)
      modifies this`pendingRequests, this`replies, this`wire, this`events, this`exit
      ensures View() == TakeMessage(old(View()), m, written)
    {
      match m
      case Response(id, result) => SettleRequest(id, Result(result));
      case ErrorReply(id, error) => SettleRequest(id, RemoteError(error));
      case Notification(decoded) =>
        if decoded.Some? {
          var ok := DeliverEvent(NotificationEvent(decoded.value));
          if !ok { exit := Left; }
        }
      case ServerRequest(id, rpcMethod, known) =>
        if known {
          var ok := DeliverEvent(RequestEvent(id, rpcMethod));
          if !ok { exit := Left; }
        } else {
          wire := wire + [OutUnsupported(id)];
          if !written { Disconnect(WriteFailed); }
        }
    }

    method HandleFrame(a: Arrival)
      modifies this`pendingRequests, this`replies, this`wire, this`events, this`exit
      ensures View() == TakeFrame(old(View()), a)
    {
      match a.frame
      case Text(m) => HandleMessage(m, a.written);
      case InvalidText => Disconnect(InvalidJson);
      case Close => Disconnect(RemoteClosed);
      case Uninteresting =>
      case TransportError => Disconnect(TransportFailed);
      case EndOfStream => Disconnect(UnexpectedEnd);
    }

    /** One turn of the loop. */
    method HandleInput(i: Input)
      requires exit.Running?
      modifies this
      ensures View() == Step(old(View()), i)
    {
      hide TakeRequest, TakeFrame;
      match i {
        case Request(id, written) => SendRequest(id, written);
        case Notify(written) =>
          wire := wire + [OutNotification(taken)];
          replies := replies + [Reply(taken, Done(written))];
        case Resolve(id, written) =>
          wire := wire + [OutResponse(id, taken)];
          replies := replies + [Reply(taken, Done(written))];
        case Reject(id, written) =>
          wire := wire + [OutError(id, taken)];
          replies := replies + [Reply(taken, Done(written))];
        case Shutdown(closed) =>
          replies := replies + [Reply(taken, Done(closed))];
          exit := Left;
        case CommandsClosed => exit := Left;
        case FromServer(a) => HandleFrame(a);
        case ConsumerGone => consumerOpen := false;
      }
      taken := taken + 1;
    }

    /** The whole task.  When it leaves, every command it took has been answered once: a waiter left over learns why
        the worker stopped. */
    method Work(inputs: seq<Input>)
      requires View() == START
      modifies this
      ensures var s := Serve(inputs);
        && events == s.events && wire == s.wire && exit == s.exit && taken == s.taken <= |inputs|
        && s.replies <= replies
      ensures exit.Running? <==> forall k :: 0 <= k < |inputs| ==> !Ending(inputs, k)
      ensures !exit.Running? ==>
        && 0 < taken && Ending(inputs, taken - 1) && (forall k :: 0 <= k < taken - 1 ==> !Ending(inputs, k))
        && exit == HowEnded(inputs[taken - 1])
        && forall r :: r in replies[|Serve(inputs).replies|..] ==> r.answer == Failure(LastWord(inputs[taken - 1]))
      ensures !exit.Running? ==>
        forall w: nat :: Answers(replies, w) == if w < taken && IsCommand(inputs[w]) then 1 else 0
    {
      hide Step, Ending, HowEnded, LastWord, Inv;
      assert inputs[..0] == [];
      while taken < |inputs| && exit.Running?
        invariant taken <= |inputs|
        invariant View() == Serve(inputs[..taken])
        decreases |inputs| - taken
      {
        assert Front(inputs[..taken + 1]) == inputs[..taken];
        StepTakesOne(View(), inputs[taken]);
        HandleInput(inputs[taken]);
      }
      ghost var s := Serve(inputs);
      ServeStops(inputs, taken);
      FirstEndingDecides(inputs);
      if !exit.Running? {
        hide Serve;
        WaitersAre(inputs);
        EndingTells(inputs[taken - 1]);
        var told := TellRemaining(pendingRequests, ExitKind(exit));
        AllAnswered(inputs, s, told);
        replies := replies + told;
      }
    }
  }

  lemma WaitersAre(inputs: seq<Input>)
    ensures var s := Serve(inputs); WaitersKnown(inputs, s) && AnsweredOnce(inputs, s) && OneEach(s.pending)
  {
    hide Serve, AllJustified;
    ServeKeeps(inputs);
    WaitsIsOutstanding(inputs, Serve(inputs), 0);
  }

  /** What remaining waiters are told when the worker leaves is what its last input calls for. */
  lemma EndingTells(i: Input)
    ensures ExitKind(HowEnded(i)) == LastWord(i)
  {
  }

  lemma StepTakesOne(s: Worker, i: Input)
    requires s.exit.Running?
    ensures Step(s, i).taken == s.taken + 1
  {
  }

  lemma AllAnswered(inputs: seq<Input>, s: Worker, told: seq<Reply>)
    requires WaitersKnown(inputs, s) && AnsweredOnce(inputs, s)
    requires forall w: nat :: Answers(told, w) == if Waits(s.pending, w) then 1 else 0
    ensures forall w: nat :: Answers(s.replies + told, w) == if w < s.taken && IsCommand(inputs[w]) then 1 else 0
  {
    hide Answers, Waits;
    forall w: nat ensures Answers(s.replies + told, w) == if w < s.taken && IsCommand(inputs[w]) then 1 else 0 {
      AnswersBoth(s.replies, told, w);
      WaitsIsOutstanding(inputs, s, w);
    }
  }
}
