/** A remote session from its first frame: the initialize handshake, and the caller's event stream made of what
    arrived during the handshake followed by what the worker delivers.  `app-server-client/src/remote.rs` */
module RemoteSession {
  import opened Common
  import opened RemoteClient

  const INITIALIZE := StringId("initialize")

  // -------------------------------------------------------------- handshake

  /** A frame that settles the handshake one way or the other. */
  predicate Decisive(a: Arrival)
  {
    match a.frame
    case Text(Response(id, _)) => id == INITIALIZE
    case Text(ErrorReply(id, _)) => id == INITIALIZE
    case Text(Notification(_)) => false
    case Text(ServerRequest(_, _, known)) => !known && !a.written
    case Uninteresting => false
    case _ => true
  }

  predicate Accepts(a: Arrival) { Decisive(a) && a.frame.Text? && a.frame.message.Response? }

  function HandshakeError(frame: Frame): ErrorKind
  {
    match frame
    case Close => ConnectionAborted
    case EndOfStream => UnexpectedEof
    case _ => Other
  }

  /** The position of the first decisive frame, or the number of frames when none came before the timeout. */
  function FirstDecisive(frames: seq<Arrival>): (k: nat)
    ensures k <= |frames|
    ensures forall i :: 0 <= i < k ==> !Decisive(frames[i])
    ensures k < |frames| ==> Decisive(frames[k])
  {
    if frames == [] || Decisive(frames[0]) then 0 else 1 + FirstDecisive(frames[1..])
  }

  lemma FirstDecisiveIs(frames: seq<Arrival>, k: nat)
    requires k <= |frames| && (k < |frames| ==> Decisive(frames[k]))
    requires forall i :: 0 <= i < k ==> !Decisive(frames[i])
    ensures FirstDecisive(frames) == k
  {
    hide Decisive;
  }

  /** Frames as the worker would see them. */
  function AsInputs(frames: seq<Arrival>): seq<Input>
  {
    seq(|frames|, i requires 0 <= i < |frames| => FromServer(frames[i]))
  }

  /** The error replies that requests of an unknown kind call for, one each, in order. */
  function Unsupported(frames: seq<Arrival>): seq<Outgoing>
  {
    if frames == [] then [] else Unsupported(Front(frames)) + SentFor(FromServer(Last(frames)), 0, false)
  }

  lemma UnsupportedOneMore(frames: seq<Arrival>, k: nat)
    requires k < |frames|
    ensures Unsupported(frames[..k + 1]) == Unsupported(frames[..k]) + SentFor(FromServer(frames[k]), 0, false)
    ensures SentFor(FromServer(frames[k]), 0, false) == [] ==> Unsupported(frames[..k + 1]) == Unsupported(frames[..k])
  {
    assert Front(frames[..k + 1]) == frames[..k];
  }

  datatype Handshake = Connected(events: seq<Event>, consumed: nat) | Refused(kind: ErrorKind)

  /** Asks the server to initialize and waits for its answer, keeping the events that come first and answering requests
      it does not know.  The frames are those that arrive before the timeout. */
  method InitializeRemoteConnection(asked: bool, frames: seq<Arrival>, confirmed: bool)
      returns (h: Handshake, wire: seq<Outgoing>)
    ensures var k := FirstDecisive(frames);
      && (h.Connected? <==> asked && confirmed && k < |frames| && Accepts(frames[k]))
      && (h.Connected? ==> h.consumed == k + 1 && h.events == Live(AsInputs(frames[..k])))
      && (h.Refused? ==> h.kind == if asked && k == |frames| then TimedOut
                                   else if asked && k < |frames|
                                       && !Accepts(frames[k]) then HandshakeError(frames[k].frame)
                                   else Other)
    ensures wire == Unsupported(if !asked then [] else if FirstDecisive(frames) < |frames|
        then frames[..FirstDecisive(frames) + 1] else frames)
  {
    wire := [];
    if !asked { return Refused(Other), wire; }
    var pendingEvents: seq<Event> := [];
    var k := 0;
    assert Live(AsInputs(frames[..0])) == [] && Unsupported(frames[..0]) == [];
    hide Live, LiveOf, SentFor, AsInputs, Unsupported, FirstDecisive, Decisive, Accepts;
    while true
      invariant k <= |frames|
      invariant forall i :: 0 <= i < k ==> !Decisive(frames[i])
      invariant pendingEvents == Live(AsInputs(frames[..k])) && wire == Unsupported(frames[..k])
      decreases |frames| - k
    {
      if k == |frames| {
        FirstDecisiveIs(frames, k);
        assert frames[..k] == frames;
        return Refused(TimedOut), wire;
      }
      LiveOneMore(frames, k);
      UnsupportedOneMore(frames, k);
      var events, replies, verdict := HandleFrame(frames[k]);
      pendingEvents, wire := pendingEvents + events, wire + replies;
      if !verdict.Undecided? {
        FirstDecisiveIs(frames, k);
        if verdict.Rejected? { return Refused(verdict.kind), wire; }
        if !confirmed { return Refused(Other), wire; }
        return Connected(pendingEvents, k + 1), wire;
      }
      k := k + 1;
    }
  }

  datatype Verdict = Undecided | Accepted | Rejected(kind: ErrorKind)

  /** What one frame is to the handshake: an event to keep, a request to answer, the server's word, or a failure. */
  method HandleFrame(a: Arrival) returns (events: seq<Event>, replies: seq<Outgoing>, verdict: Verdict)
    ensures events == LiveOf(FromServer(a)) && replies == SentFor(FromServer(a), 0, false)
    ensures verdict == if !Decisive(a) then Undecided else if Accepts(a) then Accepted
        else Rejected(HandshakeError(a.frame))
    ensures verdict.Accepted? ==> events == []
  {
    events, replies, verdict := [], [], Undecided;
    match a.frame
    case Text(m) =>
      match m {
        case Response(id, _) =>
          if id == INITIALIZE { verdict := Accepted; }
        case ErrorReply(id, _) =>
          if id == INITIALIZE { verdict := Rejected(Other); }
        case Notification(decoded) =>
          if decoded.Some? { events := [NotificationEvent(decoded.value)]; }
        case ServerRequest(id, rpcMethod, known) =>
          if known {
            events := [RequestEvent(id, rpcMethod)];
          } else {
            replies := [OutUnsupported(id)];
            if !a.written { verdict := Rejected(Other); }
          }
      }
    case Uninteresting =>
    case InvalidText => verdict := Rejected(Other);
    case Close => verdict := Rejected(ConnectionAborted);
    case TransportError => verdict := Rejected(Other);
    case EndOfStream => verdict := Rejected(UnexpectedEof);
  }

  lemma LiveOneMore(frames: seq<Arrival>, k: nat)
    requires k < |frames|
    ensures Live(AsInputs(frames[..k + 1])) == Live(AsInputs(frames[..k])) + LiveOf(FromServer(frames[k]))
    ensures LiveOf(FromServer(frames[k])) == [] ==> Live(AsInputs(frames[..k + 1])) == Live(AsInputs(frames[..k]))
  {
    assert Front(AsInputs(frames[..k + 1])) == AsInputs(frames[..k]);
    assert Last(AsInputs(frames[..k + 1])) == FromServer(frames[k]);
  }

  // -------------------------------------------------------- the whole stream

  lemma {:induction false} LiveJoins(a: seq<Input>, b: seq<Input>)
    ensures Live(a + b) == Live(a) + Live(b)
  {
    hide LiveOf;
    if b == [] {
      assert a + b == a;
    } else {
      assert Front(a + b) == a + Front(b) && Last(a + b) == Last(b);
      LiveJoins(a, Front(b));
      assert Live(a) + Live(Front(b)) + LiveOf(Last(b)) == Live(a) + (Live(Front(b)) + LiveOf(Last(b)));
    }
  }

  /** What the caller reads is everything decodable the server sent, in the order it was sent, whether it came before
      or after the handshake completed, and then how the connection ended. */
  lemma StreamIsWireOrder(frames: seq<Arrival>, k: nat, inputs: seq<Input>)
    requires k < |frames| && Accepts(frames[k])
    ensures var s := Serve(inputs); s.taken <= |inputs| && (s.consumerOpen ==>
      Live(AsInputs(frames[..k])) + s.events == Live(AsInputs(frames[..k + 1]) + inputs[..s.taken]) + Farewell(s.exit))
  {
    hide *;
    DisconnectedClosesTheStream(inputs);
    var s := Serve(inputs);
    AcceptanceIsNoEvent(frames, k);
    LiveJoins(AsInputs(frames[..k + 1]), inputs[..s.taken]);
    if s.consumerOpen {
      var early, live, bye := Live(AsInputs(frames[..k])), Live(inputs[..s.taken]), Farewell(s.exit);
      assert early + (live + bye) == (early + live) + bye;
    }
  }

  lemma AcceptanceIsNoEvent(frames: seq<Arrival>, k: nat)
    requires k < |frames| && Accepts(frames[k])
    ensures Live(AsInputs(frames[..k + 1])) == Live(AsInputs(frames[..k]))
  {
    LiveOneMore(frames, k);
  }

  /** What reading the next event finds. */
  datatype Next = Yielded(event: Event) | Ended | Waiting

  /** The caller's end of a session. */
  class RemoteAppServerClient {
    var pendingEvents: seq<Event>   // from the handshake
    var channel: seq<Event>         // delivered by the worker, not yet read
    var workerGone: bool
    ghost var yielded: seq<Event>

    /** Everything the caller has read or will read of what has arrived. */
    ghost function Story(): seq<Event>
      reads this
    {
      yielded + (pendingEvents + channel)
    }

    constructor (events: seq<Event>)
      ensures Story() == events && yielded == [] && !workerGone
    {
      pendingEvents, channel, workerGone, yielded := events, [], false, [];
    }

    method Deliver(e: Event)
      modifies this`channel
      ensures Story() == old(Story()) + [e]
    {
      assert pendingEvents + (channel + [e]) == (pendingEvents + channel) + [e];
      channel := channel + [e];
    }

    method WorkerExits()
      modifies this`workerGone
      ensures workerGone && Story() == old(Story())
    {
      workerGone := true;
    }

    /** Reads one event: the next of the story, unless all that has arrived was read. */
    method NextEvent() returns (next: Next)
      modifies this
      ensures Story() == old(Story()) && workerGone == old(workerGone)
      ensures next.Yielded? ==> yielded == old(yielded) + [next.event]
      ensures !next.Yielded? ==> yielded == old(yielded) == Story() && (next.Ended? <==> workerGone)
    {
      if pendingEvents != [] {
        next := Yielded(pendingEvents[0]);
        assert pendingEvents == [pendingEvents[0]] + pendingEvents[1..];
        pendingEvents := pendingEvents[1..];
        yielded := yielded + [next.event];
      } else if channel != [] {
        next := Yielded(channel[0]);
        assert channel == [channel[0]] + channel[1..];
        channel := channel[1..];
        yielded := yielded + [next.event];
      } else {
        next := if workerGone then Ended else Waiting;
      }
    }
  }

  // ------------------------------------------------------- a whole session

  /** After the handshake: the worker takes an input, or the caller reads. */
  datatype Move = Works(input: Input) | Reads

  function Fed(script: seq<Move>): seq<Input>
  {
    if script == [] then [] else Fed(Front(script)) + if Last(script).Works? then [Last(script).input] else []
  }

  /** All a caller can ever be told of a connection: what the server sent that could be decoded, in order, and then how
      the connection ended if it failed. */
  function Told(frames: seq<Arrival>, k: nat, inputs: seq<Input>): seq<Event>
    requires k < |frames| && Serve(inputs).taken <= |inputs|
  {
    Live(AsInputs(frames[..k + 1]) + inputs[..Serve(inputs).taken]) + Farewell(Serve(inputs).exit)
  }

  /** The worker takes an input; what it sends arrives at the client, and so does its leaving. */
  method TakeInput(worker: RemoteWorker, client: RemoteAppServerClient, input: Input)
    requires client.workerGone <==> !worker.exit.Running?
    modifies worker, client
    ensures worker.View() == Step(old(worker.View()), input)
    ensures client.workerGone <==> !worker.exit.Running?
    ensures client.yielded == old(client.yielded)
    ensures forall head: seq<Event> :: old(client.Story()) == head + old(worker.events) ==>
        client.Story() == head + worker.events
    ensures old(client.Story()) <= client.Story()
        && (old(client.workerGone) ==> client.Story() == old(client.Story()) && client.workerGone)
  {
    hide Step;
    StepGrows(worker.View(), input);
    if !worker.exit.Running? { return; }
    var before := worker.events;
    worker.HandleInput(input);
    if |worker.events| > |before| {
      client.Deliver(worker.events[|before|]);
      assert worker.events == before + [worker.events[|before|]];
      var last := [worker.events[|before|]];
      assert forall head: seq<Event> :: head + before + last == head + (before + last);
    }
    if !worker.exit.Running? { client.WorkerExits(); }
  }

  /** Interleaves the worker with the caller's reads. */
  method Converse(worker: RemoteWorker, client: RemoteAppServerClient, script: seq<Move>)
      returns (yielded: seq<Event>, ended: bool)
    requires worker.View() == START && client.yielded == [] && !client.workerGone
    modifies worker, client
    ensures worker.View() == Serve(Fed(script))
    ensures client.Story() == old(client.Story()) + worker.events
    ensures yielded <= client.Story()
    ensures ended ==> !worker.exit.Running? && yielded == client.Story()
  {
    yielded, ended := [], false;
    ghost var head := client.Story();
    assert script[..0] == [] && head + [] == head;
    hide Step;
    for i := 0 to |script|
      invariant worker.View() == Serve(Fed(script[..i]))
      invariant client.Story() == head + worker.events
      invariant client.workerGone <==> !worker.exit.Running?
      invariant yielded == client.yielded
      invariant ended ==> client.workerGone && yielded == client.Story()
      modifies worker, client
    {
      assert Front(script[..i + 1]) == script[..i] && Last(script[..i + 1]) == script[i];
      if script[i].Works? {
        assert Front(Fed(script[..i]) + [script[i].input]) == Fed(script[..i]);
        TakeInput(worker, client, script[i].input);
      } else {
        assert Fed(script[..i]) + [] == Fed(script[..i]);
        var next := client.NextEvent();
        if next.Yielded? {
          yielded := yielded + [next.event];
        } else if next.Ended? {
          ended := true;
        }
      }
    }
    assert script[..|script|] == script;
  }

  /** Connects, and then serves the caller.  A caller that stays is yielded what it can be told, in order and from the
      beginning; when its stream ends it has been yielded all of it. */
  method ConnectWithStream(asked: bool, frames: seq<Arrival>, confirmed: bool, script: seq<Move>)
    returns (h: Handshake, yielded: seq<Event>, ended: bool)
    ensures h.Connected? <==>
        asked && confirmed && FirstDecisive(frames) < |frames| && Accepts(frames[FirstDecisive(frames)])
    ensures h.Connected? ==>
      && Serve(Fed(script)).taken <= |Fed(script)|
      && (Serve(Fed(script)).consumerOpen ==> yielded <= Told(frames, FirstDecisive(frames), Fed(script)))
      && (Serve(Fed(script)).consumerOpen && ended ==>
            yielded == Told(frames, FirstDecisive(frames), Fed(script)) && !Serve(Fed(script)).exit.Running?)
  {
    hide FirstDecisive, Accepts, Live, AsInputs, Serve, Fed;
    yielded, ended := [], false;
    var wire;
    h, wire := InitializeRemoteConnection(asked, frames, confirmed);
    if h.Refused? { return; }
    var worker := new RemoteWorker();
    var client := new RemoteAppServerClient(h.events);
    yielded, ended := Converse(worker, client, script);
    StreamIsWireOrder(frames, h.consumed - 1, Fed(script));
  }

  /** A step delivers at most one event, and none after the worker has left. */
  lemma StepGrows(s: Worker, i: Input)
    ensures s.events <= Step(s, i).events && |Step(s, i).events| <= |s.events| + 1
    ensures !s.exit.Running? ==> Step(s, i) == s
  {
  }
}
