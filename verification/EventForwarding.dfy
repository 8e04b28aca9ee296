/** Forwarding server events to a consumer through a bounded queue: lossless events
    wait for room, the rest are dropped and accounted for by lag markers, and a
    dropped request is rejected.  The worker's awaits are explicit program points;
    between any two steps the consumer may receive or go away.
    `app-server-client/src/lib.rs` */
module EventForwarding {
  import opened Common

  datatype NotificationKind =
    | TurnCompleted | ThreadSettingsUpdated | ItemCompleted | AgentMessageDelta | PlanDelta
    | ReasoningSummaryTextDelta | ReasoningTextDelta | BestEffort

  /** What the embedded runtime hands over.  Its stream may itself carry lag reports. */
  datatype Event =
    | ServerNotification(kind: NotificationKind, payload: string)
    | ServerRequest(id: string, authTokensRefresh: bool)
    | Lagged(upstreamSkipped: nat)

  predicate RequiresDelivery(e: Event) { e.ServerNotification? && !e.kind.BestEffort? }

  /** What the consumer's queue holds: an event, or a marker the worker made itself. */
  datatype Slot = Passed(event: Event) | Marker(skipped: nat)

  const USIZE_MAX: nat := 0xFFFF_FFFF_FFFF_FFFF

  /** The error codes a rejected request is answered with. */
  const QUEUE_FULL := -32001
  const REFRESH_UNSUPPORTED := -32000

  datatype Rejection = Rejection(request: Event, code: int)

  /** Where the worker is: choosing what to do next, or somewhere inside the forwarding of an event. */
  datatype Point =
    | Selecting
    | TryMarker(event: Event)
    | AwaitMarker(event: Event)
    | TryEvent(event: Event)
    | AwaitEvent(event: Event)
    | Exited

  /** What has happened so far, for statements about whole runs. */
  datatype History = History(
    pulled: seq<Event>,       // events forwarding was begun for
    kept: seq<bool>,          // for each event forwarding is done with: was it enqueued?
    abandoned: seq<Event>,    // events given up because the consumer was gone
    enqueued: seq<Slot>,      // everything ever put in the queue
    received: seq<Slot>,      // everything the consumer took out
    saturated: nat)           // drops the full counter could not count

  datatype State = State(capacity: nat, queue: seq<Slot>, open: bool, streamEnabled: bool, skipped: nat, at: Point,
                         rejections: seq<Rejection>, history: History)

  function Start(channelCapacity: nat): State
  {
    State(if channelCapacity == 0 then 1 else channelCapacity, [], true, true, 0, Selecting, [],
          History([], [], [], [], [], 0))
  }

  // --------------------------------------------------------------- steps

  datatype Action =
    | Pull(event: Event)    // the runtime yields an event
    | EndOfEvents           // the runtime's stream ends
    | Resume                // the worker runs on from inside a forwarding
    | OtherCommand          // a command that does not concern events
    | Shutdown              // the shutdown command, or all command senders gone
    | Receive               // the consumer takes the next slot
    | CloseReceiver         // the consumer goes away, with whatever is queued

  predicate HasRoom(s: State) { |s.queue| < s.capacity }

  function Enqueue(s: State, slot: Slot): State
  {
    s.(queue := s.queue + [slot], history := s.history.(enqueued := s.history.enqueued + [slot]))
  }

  function Done(s: State, kept: bool): State
  {
    s.(at := Selecting, history := s.history.(kept := s.history.kept + [kept]))
  }

  function Deliver(s: State, e: Event): State { Done(Enqueue(s, Passed(e)), true) }

  function FlushMarker(s: State, next: Point): State { Enqueue(s, Marker(s.skipped)).(skipped := 0, at := next) }

  function Reject(s: State, e: Event, code: int): State { s.(rejections := s.rejections + [Rejection(e, code)]) }

  function Drop(s: State, e: Event): State
  {
    var counted :=
      if s.skipped < USIZE_MAX then s.(skipped := s.skipped + 1)
      else s.(history := s.history.(saturated := s.history.saturated + 1));
    Done(if e.ServerRequest? then Reject(counted, e, QUEUE_FULL) else counted, false)
  }

  function Abandon(s: State, e: Event): State
  {
    s.(at := Selecting, streamEnabled := false, history := s.history.(abandoned := s.history.abandoned + [e]))
  }

  function Begin(s: State, e: Event): State
  {
    if e.ServerRequest? && e.authTokensRefresh then Reject(s, e, REFRESH_UNSUPPORTED)
    else
      s.(history := s.history.(pulled := s.history.pulled + [e]),
         at := if s.skipped > 0 then (if RequiresDelivery(e) then AwaitMarker(e) else TryMarker(e))
               else if RequiresDelivery(e) then AwaitEvent(e) else TryEvent(e))
  }

  /** The worker waits for room the consumer has not made. */
  predicate Blocked(s: State) { (s.at.AwaitMarker? || s.at.AwaitEvent?) && s.open && !HasRoom(s) }

  function Advance(s: State): State
    requires !s.at.Selecting? && !s.at.Exited?
  {
    var e := s.at.event;
    if !s.open then Abandon(s, e)
    else if !HasRoom(s) then (if s.at.TryMarker? || s.at.TryEvent? then Drop(s, e) else s)
    else match s.at
      case TryMarker(_) => FlushMarker(s, TryEvent(e))
      case AwaitMarker(_) => FlushMarker(s, AwaitEvent(e))
      case TryEvent(_) => Deliver(s, e)
      case AwaitEvent(_) => Deliver(s, e)
  }

  /** One step; an action that is not possible in a state leaves it as it is. */
  function Step(s: State, a: Action): State
  {
    match a
    case Pull(e) => if s.at.Selecting? && s.streamEnabled then Begin(s, e) else s
    case EndOfEvents => if s.at.Selecting? && s.streamEnabled then s.(at := Exited) else s
    case Resume => if s.at.Selecting? || s.at.Exited? then s else Advance(s)
    case OtherCommand => s
    case Shutdown => if s.at.Selecting? then s.(at := Exited) else s
    case Receive =>
      if s.open && s.queue != []
      then s.(queue := s.queue[1..], history := s.history.(received := s.history.received + [s.queue[0]])) else s
    case CloseReceiver => s.(open := false, queue := [])
  }

  function Run(s: State, actions: seq<Action>): State
  {
    if actions == [] then s else Step(Run(s, Front(actions)), Last(actions))
  }

  // ---------------------------------------------------------- accounting

  /** What a list of slots says about the input: an event in its place, or as many holes as a marker counts. */
  function Expand(slots: seq<Slot>): seq<Option<Event>>
  {
    if slots == [] then []
    else Expand(Front(slots)) + match Last(slots) case Passed(e) => [Some(e)] case Marker(n) => Holes(n)
  }

  function Holes(n: nat): seq<Option<Event>> { seq(n, i => None) }

  /** What truly became of the events forwarding is done with. */
  function Fates(events: seq<Event>, kept: seq<bool>): seq<Option<Event>>
    requires |events| == |kept|
  {
    seq(|events|, i requires 0 <= i < |events| => if kept[i] then Some(events[i]) else None)
  }

  function InFlight(at: Point): seq<Event> { if at.Selecting? || at.Exited? then [] else [at.event] }

  /** The events of a list with the given fate, in order. */
  function Pick(events: seq<Event>, kept: seq<bool>, fate: bool): seq<Event>
    requires |events| == |kept|
  {
    if events == [] then []
    else Pick(Front(events), Front(kept), fate) + if Last(kept) == fate then [Last(events)] else []
  }

  function IsRequest(): Event -> bool { (e: Event) => e.ServerRequest? }

  function PassedEvents(slots: seq<Slot>): seq<Event>
  {
    if slots == [] then [] else PassedEvents(Front(slots)) + if Last(slots).Passed? then [Last(slots).event] else []
  }

  /** Requests rejected because the queue was full. */
  function Overloaded(rejections: seq<Rejection>): seq<Event>
  {
    if rejections == [] then []
    else Overloaded(Front(rejections)) + if Last(rejections).code == QUEUE_FULL then [Last(rejections).request] else []
  }

  ghost predicate Accounted(s: State)
  {
    var h := s.history;
    var settled := |h.kept|;
    && settled <= |h.pulled|
    && h.pulled == h.pulled[..settled] + h.abandoned + InFlight(s.at)
    && (h.abandoned != [] ==> |h.abandoned| == 1 && !s.streamEnabled && InFlight(s.at) == [] && !s.open)
    && (h.saturated > 0 ==> |h.pulled| > USIZE_MAX)
    && (!s.open || h.received + s.queue == h.enqueued)
  }

  /** The settled events against what was enqueued, turned away and counted. */
  ghost predicate Settled(done: seq<Event>, kept: seq<bool>, enqueued: seq<Slot>, rejections: seq<Rejection>,
                          skipped: nat, saturated: nat)
  {
    && |done| == |kept|
    && PassedEvents(enqueued) == Pick(done, kept, true)
    && Overloaded(rejections) == Filter(Pick(done, kept, false), IsRequest())
    && (forall i :: 0 <= i < |done| && !kept[i] ==> !RequiresDelivery(done[i]))
    && |Expand(enqueued)| + skipped + saturated == |done|
    && (saturated == 0 ==> Expand(enqueued) + Holes(skipped) == Fates(done, kept))
  }

  ghost predicate FatesKnown(s: State)
  {
    var h := s.history;
    && |h.kept| <= |h.pulled|
    && Settled(h.pulled[..|h.kept|], h.kept, h.enqueued, s.rejections, s.skipped, h.saturated)
  }

  ghost predicate PointValid(s: State)
  {
    && (s.at.TryMarker? || s.at.TryEvent? ==> !RequiresDelivery(s.at.event))
    && (s.at.TryMarker? || s.at.AwaitMarker? ==> s.skipped > 0)
    && (s.at.TryEvent? || s.at.AwaitEvent? ==> s.skipped == 0)
    && |s.queue| <= s.capacity && s.capacity > 0
  }

  ghost predicate Inv(s: State) { Accounted(s) && FatesKnown(s) && PointValid(s) }

  // ------------------------------------------------------- small lemmas

  lemma ExpandAppend(slots: seq<Slot>, slot: Slot)
    ensures Expand(slots + [slot]) == Expand(slots) + match slot case Passed(e) => [Some(e)] case Marker(n) => Holes(n)
  {
    assert Front(slots + [slot]) == slots && Last(slots + [slot]) == slot;
  }

  lemma PassedAppend(slots: seq<Slot>, slot: Slot)
    ensures PassedEvents(slots + [slot]) == PassedEvents(slots) + if slot.Passed? then [slot.event] else []
  {
    assert Front(slots + [slot]) == slots && Last(slots + [slot]) == slot;
  }

  lemma PickAppend(events: seq<Event>, kept: seq<bool>, e: Event, k: bool, fate: bool)
    requires |events| == |kept|
    ensures Pick(events + [e], kept + [k], fate) == Pick(events, kept, fate) + if k == fate then [e] else []
  {
    assert Front(events + [e]) == events && Front(kept + [k]) == kept;
    assert Last(events + [e]) == e && Last(kept + [k]) == k;
  }

  lemma OverloadedAppend(rs: seq<Rejection>, r: Rejection)
    ensures Overloaded(rs + [r]) == Overloaded(rs) + if r.code == QUEUE_FULL then [r.request] else []
  {
    assert Front(rs + [r]) == rs && Last(rs + [r]) == r;
  }

  lemma FatesAppend(events: seq<Event>, kept: seq<bool>, e: Event, k: bool)
    requires |events| == |kept|
    ensures Fates(events + [e], kept + [k]) == Fates(events, kept) + [if k then Some(e) else None]
  {
  }

  /** When a forwarding ends, the event it was about is the next settled one. */
  lemma NextSettled(s: State, e: Event)
    requires Accounted(s) && InFlight(s.at) == [e]
    ensures var h := s.history;
        h.abandoned == [] && |h.kept| + 1 == |h.pulled| && h.pulled[..|h.kept| + 1] == h.pulled[..|h.kept|] + [e]
    ensures s.history.pulled[..|s.history.kept| + 1] == s.history.pulled
  {
    var h := s.history;
    assert |h.pulled| == |h.kept| + 0 + 1;
    assert h.pulled[|h.kept|] == e;
  }

  // ---------------------------------------------------------- preservation

  lemma SettleDelivered(done: seq<Event>, kept: seq<bool>, enqueued: seq<Slot>, rejections: seq<Rejection>,
                        saturated: nat, e: Event)
    requires Settled(done, kept, enqueued, rejections, 0, saturated)
    ensures Settled(done + [e], kept + [true], enqueued + [Passed(e)], rejections, 0, saturated)
  {
    hide Expand, Pick, Fates, Filter, Overloaded, PassedEvents;
    ExpandAppend(enqueued, Passed(e));
    PassedAppend(enqueued, Passed(e));
    PickAppend(done, kept, e, true, true);
    PickAppend(done, kept, e, true, false);
    FatesAppend(done, kept, e, true);
    assert Pick(done, kept, false) + [] == Pick(done, kept, false);
    assert Holes(0) == [];
    assert Expand(enqueued) + [] == Expand(enqueued);
    assert Expand(enqueued + [Passed(e)]) + [] == Expand(enqueued + [Passed(e)]);
  }

  lemma SettleDropped(done: seq<Event>, kept: seq<bool>, enqueued: seq<Slot>, rejections: seq<Rejection>,
                      skipped: nat, saturated: nat, e: Event)
    requires Settled(done, kept, enqueued, rejections, skipped, saturated) && !RequiresDelivery(e)
    ensures var after := if e.ServerRequest? then rejections + [Rejection(e, QUEUE_FULL)] else rejections;
      && Settled(done + [e], kept + [false], enqueued, after, skipped + 1, saturated)
      && Settled(done + [e], kept + [false], enqueued, after, skipped, saturated + 1)
  {
    hide Expand, Pick, Fates, Filter, Overloaded, PassedEvents;
    PickAppend(done, kept, e, false, true);
    PickAppend(done, kept, e, false, false);
    FatesAppend(done, kept, e, false);
    OverloadedAppend(rejections, Rejection(e, QUEUE_FULL));
    FilterAppend(Pick(done, kept, false), [e], IsRequest());
    FilterOne(e);
    assert Pick(done, kept, true) + [] == Pick(done, kept, true);
    assert Overloaded(rejections) + [] == Overloaded(rejections);
    assert Holes(skipped + 1) == Holes(skipped) + [None];
    assert Expand(enqueued) + (Holes(skipped) + [None]) == (Expand(enqueued) + Holes(skipped)) + [None];
  }

  lemma FilterOne(e: Event)
    ensures Filter([e], IsRequest()) == if e.ServerRequest? then [e] else []
  {
    assert Front([e]) == [];
  }

  /** The event that was being forwarded counts as settled: everything pulled is. */
  lemma AllSettled(s: State, e: Event, kept: bool)
    requires Accounted(s) && InFlight(s.at) == [e]
    ensures var h := s.history;
      && h.pulled[..|h.kept + [kept]|] == h.pulled[..|h.kept|] + [e]
      && h.pulled == h.pulled[..|h.kept + [kept]|] + [] + []
  {
    NextSettled(s, e);
  }

  lemma DeliverKeeps(s: State, e: Event)
    requires Inv(s) && s.open && HasRoom(s) && s.at in {TryEvent(e), AwaitEvent(e)}
    ensures Inv(Deliver(s, e))
  {
    hide Settled;
    var h := s.history;
    NextSettled(s, e);
    AllSettled(s, e, true);
    SettleDelivered(h.pulled[..|h.kept|], h.kept, h.enqueued, s.rejections, h.saturated, e);
    assert h.received + (s.queue + [Passed(e)]) == (h.received + s.queue) + [Passed(e)];
  }

  lemma FatesCount(s: State)
    requires FatesKnown(s)
    ensures |s.history.kept| >= s.skipped
  {
    hide Expand;
  }

  lemma DropKeeps(s: State, e: Event)
    requires Inv(s) && s.at in {TryMarker(e), TryEvent(e)}
    ensures Inv(Drop(s, e))
  {
    hide Settled;
    var h := s.history;
    NextSettled(s, e);
    AllSettled(s, e, false);
    assert |h.kept| >= s.skipped by { FatesCount(s); }
    SettleDropped(h.pulled[..|h.kept|], h.kept, h.enqueued, s.rejections, s.skipped, h.saturated, e);
  }

  lemma FlushKeeps(s: State, e: Event)
    requires Inv(s) && s.open && HasRoom(s) && s.at in {TryMarker(e), AwaitMarker(e)}
    ensures Inv(FlushMarker(s, if s.at.TryMarker? then TryEvent(e) else AwaitEvent(e)))
  {
    var h := s.history;
    var r := FlushMarker(s, if s.at.TryMarker? then TryEvent(e) else AwaitEvent(e));
    ExpandAppend(h.enqueued, Marker(s.skipped));
    PassedAppend(h.enqueued, Marker(s.skipped));
    assert PassedEvents(h.enqueued) + [] == PassedEvents(h.enqueued);
    assert h.received + (s.queue + [Marker(s.skipped)]) == (h.received + s.queue) + [Marker(s.skipped)];
    assert Holes(0) == [] && Expand(r.history.enqueued) + [] == Expand(r.history.enqueued);
  }

  lemma AbandonKeeps(s: State, e: Event)
    requires Inv(s) && !s.open && InFlight(s.at) == [e]
    ensures Inv(Abandon(s, e))
  {
    NextSettled(s, e);
    var h := s.history;
    assert h.abandoned + [e] == [e];
    assert h.pulled == h.pulled[..|h.kept|] + [e] + [];
  }

  lemma AdvanceKeeps(s: State)
    requires Inv(s) && !s.at.Selecting? && !s.at.Exited?
    ensures Inv(Advance(s))
  {
    hide Inv, Deliver, Drop, FlushMarker, Abandon;
    var e := s.at.event;
    if !s.open {
      AbandonKeeps(s, e);
    } else if !HasRoom(s) {
      if s.at.TryMarker? || s.at.TryEvent? { DropKeeps(s, e); }
    } else if s.at.TryMarker? || s.at.AwaitMarker? {
      FlushKeeps(s, e);
    } else {
      DeliverKeeps(s, e);
    }
  }

  lemma BeginKeeps(s: State, e: Event)
    requires Inv(s) && s.at.Selecting? && s.streamEnabled
    ensures Inv(Begin(s, e))
  {
    var h, r := s.history, Begin(s, e);
    if e.ServerRequest? && e.authTokensRefresh {
      OverloadedAppend(s.rejections, Rejection(e, REFRESH_UNSUPPORTED));
      assert Overloaded(s.rejections) + [] == Overloaded(s.rejections);
    } else {
      assert h.pulled == h.pulled[..|h.kept|];
      assert r.history.pulled[..|h.kept|] == h.pulled[..|h.kept|];
      assert r.history.pulled == r.history.pulled[..|h.kept|] + [] + [e];
    }
  }

  lemma StepKeeps(s: State, a: Action)
    requires Inv(s)
    ensures Inv(Step(s, a))
  {
    match a
    case Pull(e) =>
      if s.at.Selecting? && s.streamEnabled { BeginKeeps(s, e); }
    case Resume =>
      if !s.at.Selecting? && !s.at.Exited? { AdvanceKeeps(s); }
    case Receive =>
      if s.open && s.queue != [] {
        var h := s.history;
        assert s.queue == [s.queue[0]] + s.queue[1..];
        assert (h.received + [s.queue[0]]) + s.queue[1..] == h.received + s.queue;
      }
    case _ =>
  }

  lemma {:induction false} RunKeeps(capacity: nat, actions: seq<Action>)
    ensures Inv(Run(Start(capacity), actions))
  {
    hide Step, Inv;
    if actions == [] {
      StartHolds(capacity);
    } else {
      RunKeeps(capacity, Front(actions));
      StepKeeps(Run(Start(capacity), Front(actions)), Last(actions));
    }
  }

  lemma StartHolds(capacity: nat)
    ensures Inv(Start(capacity))
  {
    assert Expand([]) + Holes(0) == [];
  }

  // --------------------------------------------------------- main results

  /** What a run must satisfy: expanding every marker into holes and adding the uncounted rest gives, place by
      place, the events forwarding has been done with; a hole is never a lossless event. */
  ghost predicate GapExact(s: State)
  {
    var h := s.history;
    var shape := Expand(h.enqueued) + Holes(s.skipped);
    && |h.kept| <= |h.pulled|
    && |shape| == |h.kept|
    && forall i :: 0 <= i < |shape| ==>
         if shape[i].Some? then shape[i].value == h.pulled[i] else !RequiresDelivery(h.pulled[i])
  }

  /** Lag reporting is exact in every run in which the counter never overflows, and in no other; it cannot overflow
      before more events were pulled than it can count. */
  lemma LagReportingIsGapExact(capacity: nat, actions: seq<Action>)
    ensures var s := Run(Start(capacity), actions);
      && |s.history.pulled| == |s.history.kept| + |s.history.abandoned| + |InFlight(s.at)|
      && (GapExact(s) <==> s.history.saturated == 0)
      && (|s.history.pulled| <= USIZE_MAX ==> s.history.saturated == 0)
  {
    hide Step, Run, Expand;
    RunKeeps(capacity, actions);
    var s := Run(Start(capacity), actions);
    var h := s.history;
    var shape := Expand(h.enqueued) + Holes(s.skipped);
    assert |shape| == |h.kept| - h.saturated;
    assert |h.pulled| == |h.pulled[..|h.kept|] + h.abandoned + InFlight(s.at)|;
    if h.saturated == 0 {
      forall i | 0 <= i < |shape|
        ensures if shape[i].Some? then shape[i].value == h.pulled[i] else !RequiresDelivery(h.pulled[i]) {
        assert shape[i] == Fates(h.pulled[..|h.kept|], h.kept)[i];
      }
    }
  }

  // ------------------------------------------------------- what was taken

  /** Whether the worker takes an event with this action. */
  predicate Takes(s: State, a: Action) { a.Pull? && s.at.Selecting? && s.streamEnabled }

  /** The events the worker takes from the runtime over a run, in order. */
  function Taken(s: State, actions: seq<Action>): seq<Event>
  {
    if actions == [] then []
    else Taken(s, Front(actions)) + if Takes(Run(s, Front(actions)), Last(actions)) then [Last(actions).event] else []
  }

  predicate IsAuthRefresh(e: Event) { e.ServerRequest? && e.authTokensRefresh }

  function Refresh(): Event -> bool { (e: Event) => IsAuthRefresh(e) }

  function Forwarded(): Event -> bool { (e: Event) => !IsAuthRefresh(e) }

  /** Requests refused because they ask for a token refresh. */
  function Refused(rejections: seq<Rejection>): seq<Event>
  {
    if rejections == [] then []
    else Refused(Front(rejections)) + if Last(rejections).code == REFRESH_UNSUPPORTED then [Last(rejections).request]
        else []
  }

  lemma RefusedAppend(rs: seq<Rejection>, r: Rejection)
    ensures Refused(rs + [r]) == Refused(rs) + if r.code == REFRESH_UNSUPPORTED then [r.request] else []
  {
    assert Front(rs + [r]) == rs && Last(rs + [r]) == r;
  }

  lemma AdvanceTakesNothing(s: State)
    requires !s.at.Selecting? && !s.at.Exited?
    ensures Advance(s).history.pulled == s.history.pulled && Refused(Advance(s).rejections) == Refused(s.rejections)
  {
    RefusedAppend(s.rejections, Rejection(s.at.event, QUEUE_FULL));
    assert Refused(s.rejections) + [] == Refused(s.rejections);
  }

  lemma FilterNothing()
    ensures Filter<Event>([], Forwarded()) == [] && Filter<Event>([], Refresh()) == []
  {
  }

  lemma BeginTakes(s: State, e: Event)
    ensures Begin(s, e).history.pulled == s.history.pulled + Filter([e], Forwarded())
    ensures Refused(Begin(s, e).rejections) == Refused(s.rejections) + Filter([e], Refresh())
  {
    assert Front([e]) == [];
    RefusedAppend(s.rejections, Rejection(e, REFRESH_UNSUPPORTED));
    assert s.history.pulled + [] == s.history.pulled && Refused(s.rejections) + [] == Refused(s.rejections);
  }

  /** Of what is taken, refresh requests are refused and everything else is forwarded. */
  lemma StepTakes(s: State, a: Action)
    ensures var more := if Takes(s, a) then [a.event] else [];
      && Step(s, a).history.pulled == s.history.pulled + Filter(more, Forwarded())
      && Refused(Step(s, a).rejections) == Refused(s.rejections) + Filter(more, Refresh())
  {
    hide Advance, Begin, Refused, Filter;
    assert s.history.pulled + [] == s.history.pulled && Refused(s.rejections) + [] == Refused(s.rejections);
    assert Filter([], Forwarded()) == [] && Filter([], Refresh()) == [] by { FilterNothing(); }
    if Takes(s, a) {
      BeginTakes(s, a.event);
    } else if a.Resume? {
      if !s.at.Selecting? && !s.at.Exited? { AdvanceTakesNothing(s); }
    }
  }

  /** Over every run, the requests refused as unsupported are, in order, the refresh requests taken, and what forwarding
      was begun for are, in order, the other events taken. */
  lemma {:induction false} TakenIsRefusedOrForwarded(capacity: nat, actions: seq<Action>)
    ensures var s, taken := Run(Start(capacity), actions), Taken(Start(capacity), actions);
      && Refused(s.rejections) == Filter(taken, Refresh())
      && s.history.pulled == Filter(taken, Forwarded())
  {
    hide Step;
    if actions != [] {
      var s, a := Run(Start(capacity), Front(actions)), Last(actions);
      TakenIsRefusedOrForwarded(capacity, Front(actions));
      StepTakes(s, a);
      var before, more := Taken(Start(capacity), Front(actions)), if Takes(s, a) then [a.event] else [];
      FilterAppend(before, more, Refresh());
      FilterAppend(before, more, Forwarded());
    }
  }

  /** Every event taken has one fate.  A refresh request is refused.  Any other event is delivered in its place,
      dropped in its turn (and rejected if it is a request), being forwarded, or the one event abandoned when the
      consumer closed.  Each list is in the order taken, and no request is rejected otherwise.  While the consumer is
      open nothing is abandoned, and what it has received and can still receive is everything enqueued. */
  lemma RequestsAreAccountedFor(capacity: nat, actions: seq<Action>)
    ensures var s, taken := Run(Start(capacity), actions), Taken(Start(capacity), actions); var h := s.history;
      && Refused(s.rejections) == Filter(taken, Refresh())
      && h.pulled == Filter(taken, Forwarded())
      && |h.kept| <= |h.pulled|
      && PassedEvents(h.enqueued) == Pick(h.pulled[..|h.kept|], h.kept, true)
      && Overloaded(s.rejections) == Filter(Pick(h.pulled[..|h.kept|], h.kept, false), IsRequest())
      && |s.rejections| == |Refused(s.rejections)| + |Overloaded(s.rejections)|
      && h.pulled[|h.kept|..] == h.abandoned + InFlight(s.at)
      && |h.abandoned| <= 1
      && (s.open ==> h.abandoned == [] && h.received + s.queue == h.enqueued)
  {
    hide Step, Inv;
    RunKeeps(capacity, actions);
    TakenIsRefusedOrForwarded(capacity, actions);
    RefreshIsNeverForwarded(capacity, actions);
    var s := Run(Start(capacity), actions);
    AccountedFor(s);
    TwoKinds(s.rejections);
  }

  /** A rejection has one of the two codes. */
  lemma {:induction false} TwoKinds(rejections: seq<Rejection>)
    requires forall r :: r in rejections ==> r.code == QUEUE_FULL || r.code == REFRESH_UNSUPPORTED
    ensures |rejections| == |Refused(rejections)| + |Overloaded(rejections)|
  {
    if rejections != [] {
      assert Last(rejections) in rejections;
      TwoKinds(Front(rejections));
    }
  }

  lemma AccountedFor(s: State)
    requires Inv(s)
    ensures var h := s.history;
        |h.kept| <= |h.pulled| && h.pulled[|h.kept|..] == h.abandoned + InFlight(s.at) && |h.abandoned| <= 1
    ensures PassedEvents(s.history.enqueued) == Pick(s.history.pulled[..|s.history.kept|], s.history.kept, true)
    ensures Overloaded(s.rejections)
        == Filter(Pick(s.history.pulled[..|s.history.kept|], s.history.kept, false), IsRequest())
    ensures s.open ==> s.history.abandoned == [] && s.history.received + s.queue == s.history.enqueued
  {
    var h := s.history;
    var front, rest := h.pulled[..|h.kept|], h.abandoned + InFlight(s.at);
    assert h.pulled == front + rest;
    assert |front| == |h.kept|;
  }

  /** Only token-refresh requests are refused outright, and they are never forwarded. */
  ghost predicate RefreshRefused(s: State)
  {
    && (forall e :: e in s.history.pulled ==> !IsAuthRefresh(e))
    && (forall r :: r in s.rejections ==>
        r.code == if IsAuthRefresh(r.request) then REFRESH_UNSUPPORTED else QUEUE_FULL)
    && (s.at.Selecting? || s.at.Exited? || !IsAuthRefresh(s.at.event))
  }

  lemma AdvanceRefuses(s: State)
    requires RefreshRefused(s) && !s.at.Selecting? && !s.at.Exited?
    ensures RefreshRefused(Advance(s))
  {
  }

  lemma {:induction false} RefreshIsNeverForwarded(capacity: nat, actions: seq<Action>)
    ensures RefreshRefused(Run(Start(capacity), actions))
  {
    hide Advance;
    if actions != [] {
      RefreshIsNeverForwarded(capacity, Front(actions));
      var s, a := Run(Start(capacity), Front(actions)), Last(actions);
      if a.Resume? {
        if !s.at.Selecting? && !s.at.Exited? { AdvanceRefuses(s); }
      }
    }
  }

  // --------------------------------------------------- when events are dropped

  /** A step that drops an event: one more settled event not enqueued, or one more rejection for a full queue. */
  predicate Drops(s: State, a: Action)
  {
    var v := Step(s, a);
    v.history.kept == s.history.kept + [false] || |Overloaded(v.rejections)| > |Overloaded(s.rejections)|
  }

  lemma BeginDropsNothing(s: State, e: Event)
    ensures Begin(s, e).history.kept == s.history.kept && Overloaded(Begin(s, e).rejections) == Overloaded(s.rejections)
  {
    OverloadedAppend(s.rejections, Rejection(e, REFRESH_UNSUPPORTED));
    assert Overloaded(s.rejections) + [] == Overloaded(s.rejections);
  }

  /** Over every run, an event is dropped, and a request rejected for it, only by a queue that is full. */
  lemma DropsOnlyWhenFull(capacity: nat, actions: seq<Action>, a: Action)
    ensures var s := Run(Start(capacity), actions); Drops(s, a) ==> s.open && |s.queue| == s.capacity
  {
    var s := Run(Start(capacity), actions);
    assert PointValid(s) by { RunKeeps(capacity, actions); }
    var kept := s.history.kept;
    assert |kept + [false]| == |kept| + 1 && (kept + [true])[|kept|] != (kept + [false])[|kept|];
    hide Run, Inv, Overloaded, Begin;
    if a.Pull? { BeginDropsNothing(s, a.event); }
  }

  /** What a pull into an open queue with two free places comes to by the worker's own steps: the event is delivered,
      directly behind a marker for what was skipped before it, and nothing is skipped any more. */
  lemma RoomMeansDelivery(s: State, e: Event)
    requires s.at.Selecting? && s.streamEnabled && s.open && |s.queue| + 2 <= s.capacity && !IsAuthRefresh(e)
    ensures var pulled := Step(s, Pull(e));
      var v := if s.skipped == 0 then Step(pulled, Resume) else Step(Step(pulled, Resume), Resume);
      && v.at.Selecting? && v.streamEnabled && v.skipped == 0 && v.rejections == s.rejections
      && v.history.pulled == s.history.pulled + [e] && v.history.kept == s.history.kept + [true]
      && v.queue == s.queue + (if s.skipped == 0 then [] else [Marker(s.skipped)]) + [Passed(e)]
      && v.history.enqueued == s.history.enqueued + (if s.skipped == 0 then [] else [Marker(s.skipped)]) + [Passed(e)]
  {
    assert s.queue + [] == s.queue && s.history.enqueued + [] == s.history.enqueued;
  }

  /** The notifications a consumer must not miss. */
  predicate Lossless(e: Event)
  {
    && e.ServerNotification?
    && e.kind in {TurnCompleted, ThreadSettingsUpdated, ItemCompleted, AgentMessageDelta, PlanDelta,
                  ReasoningSummaryTextDelta, ReasoningTextDelta}
  }

  /** A full queue: what must not be missed waits where it is, and anything else is dropped and counted. */
  lemma NoRoomMeansWaitOrDrop(s: State, e: Event)
    requires s.at.Selecting? && s.streamEnabled && s.open && |s.queue| == s.capacity && !IsAuthRefresh(e)
    ensures var pulled := Step(s, Pull(e)); var v := Step(pulled, Resume);
      if Lossless(e) then Blocked(pulled) && v == pulled
      else
        && v.at.Selecting? && v.queue == s.queue && v.history.kept == s.history.kept + [false]
        && v.skipped == (if s.skipped < USIZE_MAX then s.skipped + 1 else s.skipped)
        && v.rejections == s.rejections + if e.ServerRequest? then [Rejection(e, QUEUE_FULL)] else []
  {
    assert s.rejections + [] == s.rejections;
  }

  /** One free place while a lag is unreported: it goes to the marker, and the event fares as with a full queue. */
  lemma LastRoomGoesToTheMarker(s: State, e: Event)
    requires s.at.Selecting? && s.streamEnabled && s.open && |s.queue| + 1 == s.capacity && !IsAuthRefresh(e)
    requires s.skipped > 0
    ensures var flushed := Step(Step(s, Pull(e)), Resume); var v := Step(flushed, Resume);
      && flushed.queue == s.queue + [Marker(s.skipped)] && v.queue == flushed.queue
      && (if Lossless(e) then Blocked(flushed) && v == flushed
          else
            && v.at.Selecting? && v.skipped == 1 && v.history.kept == s.history.kept + [false]
            && v.rejections == s.rejections + if e.ServerRequest? then [Rejection(e, QUEUE_FULL)] else [])
  {
    assert s.rejections + [] == s.rejections;
  }

  /** The worker ends when the runtime's stream does, and only from where it chooses what to do. */
  lemma EndsWithTheStream(s: State, a: Action)
    ensures !s.at.Exited? && Step(s, a).at.Exited? <==>
      s.at.Selecting? && (a.Shutdown? || (a.EndOfEvents? && s.streamEnabled))
  {
    hide Advance;
    if a.Resume? && !s.at.Selecting? && !s.at.Exited? { AdvanceGoesOn(s); }
  }

  lemma AdvanceGoesOn(s: State)
    requires !s.at.Selecting? && !s.at.Exited?
    ensures !Advance(s).at.Exited?
  {
  }

  lemma {:induction false} ClosedStaysClosed(s: State, later: seq<Action>)
    requires !s.open
    ensures !Run(s, later).open
  {
    if later != [] { ClosedStaysClosed(s, Front(later)); }
  }

  /** A worker whose consumer is gone is never stuck, whatever happens after: at any time it leaves the forwarding it is
      in with one step of its own, stops the stream, and can then be shut down.  So shutdown needs no more than closing
      the receiver first. */
  lemma ShutdownIsNeverStuck(capacity: nat, actions: seq<Action>, later: seq<Action>)
    ensures var s := Run(Step(Run(Start(capacity), actions), CloseReceiver), later);
      && !Blocked(s)
      && (Step(s, Resume).at.Selecting? || Step(s, Resume).at.Exited?)
      && Step(Step(s, Resume), Shutdown).at.Exited?
      && (!s.at.Selecting? && !s.at.Exited? ==> !Step(s, Resume).streamEnabled)
  {
    hide Run;
    ClosedStaysClosed(Step(Run(Start(capacity), actions), CloseReceiver), later);
  }

  /** And the receiver must be closed: without that a full queue can hold the worker, and shutdown with it, for as
      long as nobody receives. */
  lemma OpenConsumerCanBlockShutdown()
    ensures var s := Run(Start(1),
        [Pull(ServerNotification(PlanDelta, "a")), Resume, Pull(ServerNotification(PlanDelta, "b"))]);
      Blocked(s) && Step(s, Resume) == s && Step(s, Shutdown) == s
  {
    var a, b := Pull(ServerNotification(PlanDelta, "a")), Pull(ServerNotification(PlanDelta, "b"));
    var one := [a];
    var two := one + [Resume];
    var three := two + [b];
    assert [a, Resume, b] == three;
    assert Front(one) == [] && Front(two) == one && Front(three) == two;
    assert Run(Start(1), one) == Step(Start(1), a);
    assert Run(Start(1), two) == Step(Step(Start(1), a), Resume);
  }

  /** The runtime yields the same event over and over, and nobody receives. */
  function Flood(e: Event, n: nat): seq<Action>
  {
    if n == 0 then [] else Flood(e, n - 1) + [Pull(e)] + [Resume]
  }

  lemma RunMore(s: State, actions: seq<Action>, a: Action)
    ensures Run(s, actions + [a]) == Step(Run(s, actions), a)
  {
    assert Front(actions + [a]) == actions && Last(actions + [a]) == a;
  }

  lemma DropsOne(s: State, e: Event)
    requires s.at.Selecting? && s.streamEnabled && s.open && !HasRoom(s) && !RequiresDelivery(e) && !IsAuthRefresh(e)
    ensures var v := Step(Step(s, Pull(e)), Resume);
      && v.at.Selecting? && v.streamEnabled && v.open && v.queue == s.queue && v.capacity == s.capacity
      && v.skipped == (if s.skipped < USIZE_MAX then s.skipped + 1 else s.skipped)
      && v.history.saturated == (if s.skipped < USIZE_MAX then s.history.saturated else s.history.saturated + 1)
  {
  }

  lemma {:induction false} FloodDrops(s: State, e: Event, n: nat)
    requires s.at.Selecting? && s.streamEnabled && s.open && !HasRoom(s) && !RequiresDelivery(e) && !IsAuthRefresh(e)
    requires s.skipped <= USIZE_MAX
    ensures var v := Run(s, Flood(e, n));
      && v.at.Selecting? && v.streamEnabled && v.open && v.queue == s.queue && v.capacity == s.capacity
      && v.skipped == (if s.skipped + n <= USIZE_MAX then s.skipped + n else USIZE_MAX)
      && v.history.saturated == s.history.saturated + (s.skipped + n - v.skipped)
  {
    hide Step;
    if n > 0 {
      FloodDrops(s, e, n - 1);
      RunMore(s, Flood(e, n - 1), Pull(e));
      RunMore(s, Flood(e, n - 1) + [Pull(e)], Resume);
      DropsOne(Run(s, Flood(e, n - 1)), e);
    }
  }

  lemma {:induction false} RunAppend(s: State, first: seq<Action>, rest: seq<Action>)
    ensures Run(s, first + rest) == Run(Run(s, first), rest)
  {
    hide Step;
    if rest == [] {
      assert first + rest == first;
    } else {
      assert Front(first + rest) == first + Front(rest) && Last(first + rest) == Last(rest);
      RunAppend(s, first, Front(rest));
    }
  }

  /** The counter does saturate: one event fills a queue of capacity one, and of `n` droppable events after it all are
      skipped, as many as it can count are counted, and with one more than that reporting is no longer exact. */
  lemma SaturationIsReached(e: Event, n: nat) returns (actions: seq<Action>)
    requires !RequiresDelivery(e) && !IsAuthRefresh(e)
    ensures var s := Run(Start(1), actions);
      && s.skipped == (if n <= USIZE_MAX then n else USIZE_MAX)
      && s.history.saturated == n - s.skipped
      && (n > USIZE_MAX <==> !GapExact(s))
  {
    var filled := Run(Start(1), Flood(e, 1));
    assert filled.queue == [Passed(e)] && filled.skipped == 0 && filled.history.saturated == 0
           && filled.at.Selecting? && filled.streamEnabled && filled.open && filled.capacity == 1 by { FirstFills(e); }
    hide Run, Step, GapExact;
    FloodDrops(filled, e, n);
    actions := Flood(e, 1) + Flood(e, n);
    RunAppend(Start(1), Flood(e, 1), Flood(e, n));
    LagReportingIsGapExact(1, actions);
  }

  lemma FirstFills(e: Event)
    requires !RequiresDelivery(e) && !IsAuthRefresh(e)
    ensures var filled := Run(Start(1), Flood(e, 1));
      && filled.queue == [Passed(e)] && filled.skipped == 0 && filled.history.saturated == 0
      && filled.at.Selecting? && filled.streamEnabled && filled.open && filled.capacity == 1
  {
    RunMore(Start(1), Flood(e, 0), Pull(e));
    RunMore(Start(1), Flood(e, 0) + [Pull(e)], Resume);
    assert Flood(e, 1) == Flood(e, 0) + [Pull(e)] + [Resume];
    assert Run(Start(1), []) == Start(1);
  }

  // ------------------------------------------------------ the source's form

  /** The worker with its two counters and the channel, updated in place. */
  class Worker {
    const capacity: nat
    var queue: seq<Slot>
    var open: bool
    var eventStreamEnabled: bool
    var skippedEvents: nat
    var at: Point
    var rejections: seq<Rejection>
    var history: History

    function View(): State
      reads this
    {
      State(capacity, queue, open, eventStreamEnabled, skippedEvents, at, rejections, history)
    }

    constructor (channelCapacity: nat)
      ensures View() == Start(channelCapacity)
    {
      capacity := if channelCapacity == 0 then 1 else channelCapacity;
      queue, open, eventStreamEnabled, skippedEvents := [], true, true, 0;
      at, rejections, history := Selecting, [], History([], [], [], [], [], 0);
    }

    method Push(slot: Slot)
      modifies this`queue, this`history
      ensures View() == Enqueue(old(View()), slot)
    {
      queue := queue + [slot];
      history := history.(enqueued := history.enqueued + [slot]);
    }

    method DeliverEvent(event: Event)
      modifies this`queue, this`history, this`at
      ensures View() == Deliver(old(View()), event)
    {
      Push(Passed(event));
      history := history.(kept := history.kept + [true]);
      at := Selecting;
    }

    /** A full queue: count the event as skipped and turn a request away. */
    method SkipEvent(event: Event)
      modifies this`skippedEvents, this`rejections, this`history, this`at
      ensures View() == Drop(old(View()), event)
    {
      if skippedEvents < USIZE_MAX {
        skippedEvents := skippedEvents + 1;
      } else {
        history := history.(saturated := history.saturated + 1);
      }
      if event.ServerRequest? {
        rejections := rejections + [Rejection(event, QUEUE_FULL)];
      }
      history := history.(kept := history.kept + [false]);
      at := Selecting;
    }

    method DisableStream(event: Event)
      modifies this`eventStreamEnabled, this`history, this`at
      ensures View() == Abandon(old(View()), event)
    {
      eventStreamEnabled := false;
      history := history.(abandoned := history.abandoned + [event]);
      at := Selecting;
    }

    /** The worker's loop picks up an event. */
    method TakeEvent(event: Event)
      requires at.Selecting? && eventStreamEnabled
      modifies this`rejections, this`history, this`at
      ensures View() == Begin(old(View()), event)
    {
      if event.ServerRequest? && event.authTokensRefresh {
        rejections := rejections + [Rejection(event, REFRESH_UNSUPPORTED)];
        return;
      }
      history := history.(pulled := history.pulled + [event]);
      if skippedEvents > 0 {
        at := if RequiresDelivery(event) then AwaitMarker(event) else TryMarker(event);
      } else {
        at := if RequiresDelivery(event) then AwaitEvent(event) else TryEvent(event);
      }
    }

    /** `forward_in_process_event`, run on to its next point of waiting. */
    method ForwardInProcessEvent()
      requires !at.Selecting? && !at.Exited?
      modifies this
      ensures View() == Advance(old(View()))
    {
      var event := at.event;
      if !open {
        DisableStream(event);
        return;
      }
      if |queue| >= capacity {
        if at.TryMarker? || at.TryEvent? { SkipEvent(event); }
        return;
      }
      match at
      case TryMarker(_) =>
        Push(Marker(skippedEvents));
        skippedEvents := 0;
        at := TryEvent(event);
      case AwaitMarker(_) =>
        Push(Marker(skippedEvents));
        skippedEvents := 0;
        at := AwaitEvent(event);
      case TryEvent(_) =>
        DeliverEvent(event);
      case AwaitEvent(_) =>
        DeliverEvent(event);
    }

    /** One turn of the worker, or one move of its surroundings. */
    method Turn(a: Action)
      modifies this
      ensures View() == Step(old(View()), a)
    {
      hide Begin, Advance;
      match a
      case Pull(e) =>
        if at.Selecting? && eventStreamEnabled { TakeEvent(e); }
      case EndOfEvents =>
        if at.Selecting? && eventStreamEnabled { at := Exited; }
      case Resume =>
        if !at.Selecting? && !at.Exited? { ForwardInProcessEvent(); }
      case OtherCommand =>
      case Shutdown =>
        if at.Selecting? { at := Exited; }
      case Receive =>
        if open && queue != [] {
          history := history.(received := history.received + [queue[0]]);
          queue := queue[1..];
        }
      case CloseReceiver =>
        open := false;
        queue := [];
    }

    /** The whole task in any surroundings: what it reports, delivers and rejects over the run. */
    method Work(actions: seq<Action>)
      requires View() == Start(capacity)
      modifies this
      ensures View() == Run(Start(capacity), actions)
      ensures GapExact(View()) <==> history.saturated == 0
      ensures |history.pulled| <= USIZE_MAX ==> history.saturated == 0
      ensures var taken := Taken(Start(capacity), actions);
        Refused(rejections) == Filter(taken, Refresh()) && history.pulled == Filter(taken, Forwarded())
      ensures |history.kept| <= |history.pulled|
        && PassedEvents(history.enqueued) == Pick(history.pulled[..|history.kept|], history.kept, true)
        && Overloaded(rejections) == Filter(Pick(history.pulled[..|history.kept|], history.kept, false), IsRequest())
        && history.pulled[|history.kept|..] == history.abandoned + InFlight(at) && |history.abandoned| <= 1
      ensures open ==> history.abandoned == [] && history.received + queue == history.enqueued
    {
      hide Step, GapExact, Filter, Pick, Overloaded, Refused, PassedEvents, Taken;
      assert actions[..0] == [];
      for i := 0 to |actions|
        invariant View() == Run(Start(capacity), actions[..i])
      {
        assert Front(actions[..i + 1]) == actions[..i] && Last(actions[..i + 1]) == actions[i];
        Turn(actions[i]);
      }
      assert actions[..|actions|] == actions;
      hide Run, Start;
      LagReportingIsGapExact(capacity, actions);
      RequestsAreAccountedFor(capacity, actions);
    }
  }
}
