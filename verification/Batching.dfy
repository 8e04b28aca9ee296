/** Splitting emitted events into request bodies: accepted-line fingerprints travel alone, everything else together
    with its neighbours.  `analytics/src/client.rs` */
module Batching {
  import opened Common
  import opened ReducerModel

  type Batch = seq<Event>

  predicate Isolated(e: Event) { e.AcceptedLines? }

  predicate Plain(b: Batch) { forall i :: 0 <= i < |b| ==> !Isolated(b[i]) }

  /** A request may carry several events or one isolated event; it may even be empty. */
  predicate Sendable(b: Batch) { Plain(b) || |b| == 1 }

  predicate AllSendable(bs: seq<Batch>) { forall i :: 0 <= i < |bs| ==> Sendable(bs[i]) }

  predicate NoneEmpty(bs: seq<Batch>) { forall i :: 0 <= i < |bs| ==> bs[i] != [] }

  /** A way to send these events, in this order. */
  predicate Sends(bs: seq<Batch>, events: seq<Event>) { AllSendable(bs) && Concat(bs) == events }

  /** A new event joins the batch before it. */
  predicate Joins(events: seq<Event>, e: Event) { events != [] && !Isolated(Last(events)) && !Isolated(e) }

  function Batches(events: seq<Event>): (bs: seq<Batch>)
    ensures events == [] <==> bs == []
  {
    if events == [] then []
    else
      var before := Batches(Front(events));
      if Joins(Front(events), Last(events)) then Front(before) + [Last(before) + [Last(events)]]
      else before + [[Last(events)]]
  }

  lemma ConcatOne(bs: seq<Batch>, b: Batch)
    ensures Concat(bs + [b]) == Concat(bs) + b
  {
    assert Front(bs + [b]) == bs && Last(bs + [b]) == b;
  }

  lemma JoinSends(before: seq<Batch>, e: Event)
    requires before != [] && AllSendable(before) && NoneEmpty(before) && Plain(Last(before)) && !Isolated(e)
    ensures var after := Front(before) + [Last(before) + [e]];
      AllSendable(after) && NoneEmpty(after) && Concat(after) == Concat(before) + [e]
  {
    ConcatOne(Front(before), Last(before) + [e]);
    assert Concat(Front(before)) + (Last(before) + [e]) == Concat(Front(before)) + Last(before) + [e];
  }

  /** Nothing is lost, added or reordered, no request is empty, and isolated events are alone. */
  lemma {:induction false} BatchesSend(events: seq<Event>)
    ensures Sends(Batches(events), events) && NoneEmpty(Batches(events))
    ensures events != [] ==> Last(Batches(events)) != [] && Last(Last(Batches(events))) == Last(events)
  {
    if events != [] {
      var front, e := Front(events), Last(events);
      BatchesSend(front);
      hide Concat;
      assert events == front + [e];
      var before := Batches(front);
      if Joins(front, e) {
        assert Sendable(Last(before)) && Plain(Last(before));
        JoinSends(before, e);
      } else {
        ConcatOne(before, [e]);
      }
    }
  }

  /** A batch more cannot add more than one to what is needed. */
  lemma {:induction false} OneBatchMore(a: seq<Event>, b: Batch)
    requires Sendable(b)
    ensures |Batches(a + b)| <= |Batches(a)| + 1
    ensures b != [] && a != [] && Plain(b) && !Isolated(Last(a)) ==> |Batches(a + b)| == |Batches(a)|
    decreases |b|
  {
    if b == [] {
      assert a + b == a;
    } else if |b| == 1 {
      assert Front(a + b) == a && Last(a + b) == b[0];
    } else {
      assert Front(a + b) == a + Front(b) && Last(a + b) == Last(b);
      assert Last(a + Front(b)) == Last(Front(b)) == b[|b| - 2];
      OneBatchMore(a, Front(b));
    }
  }

  /** No other way to send the events needs fewer requests, ... */
  lemma {:induction false} BatchesAreFewest(events: seq<Event>, bs: seq<Batch>)
    requires Sends(bs, events)
    ensures |Batches(events)| <= |bs|
    decreases |bs|
  {
    if bs != [] {
      BatchesAreFewest(Concat(Front(bs)), Front(bs));
      assert Sendable(Last(bs));
      OneBatchMore(Concat(Front(bs)), Last(bs));
    }
  }

  /** ... and no other needs as few. */
  lemma {:induction false} BatchesAreTheOnlyFewest(events: seq<Event>, bs: seq<Batch>)
    requires Sends(bs, events) && |bs| == |Batches(events)|
    ensures bs == Batches(events)
    decreases |events|
  {
    if bs != [] {
      var rest, last := Front(bs), Last(bs);
      assert bs == rest + [last] && Sendable(last);
      var front, e := Front(events), Last(events);
      if |last| <= 1 {
        ShortLast(events, bs);
        BatchesAreTheOnlyFewest(front, rest);
      } else {
        var shorter := rest + [Front(last)];
        assert last == Front(last) + [Last(last)];
        ConcatOne(rest, Front(last));
        assert events == Concat(rest) + (Front(last) + [Last(last)]) == (Concat(rest) + Front(last)) + [Last(last)];
        assert front == Concat(shorter) && e == Last(last);
        assert Last(front) == Last(Front(last)) == last[|last| - 2];
        assert Plain(last) && Plain(Front(last));
        BatchesAreTheOnlyFewest(front, shorter);
        assert Front(shorter) == rest && Last(shorter) == Front(last);
      }
    }
  }

  /** A last batch of at most one event that cannot be spared starts a batch of its own. */
  lemma ShortLast(events: seq<Event>, bs: seq<Batch>)
    requires bs != [] && Sends(bs, events) && |bs| == |Batches(events)| && |Last(bs)| <= 1
    ensures events != [] && Last(bs) == [Last(events)] && Concat(Front(bs)) == Front(events)
    ensures !Joins(Front(events), Last(events)) && |Front(bs)| == |Batches(Front(events))|
  {
    var rest := Front(bs);
    assert AllSendable(rest);
    BatchesAreFewest(Concat(rest), rest);
    assert Concat(bs) == Concat(rest) + Last(bs);
    assert Last(bs) == [] ==> Concat(rest) == events;
    assert |Last(bs)| == 1;
    assert Front(events) == Concat(rest);
  }

  /** The loop of `track_event_request_batches`. */
  method TrackEventRequestBatches(events: seq<Event>) returns (batches: seq<Batch>)
    ensures batches == Batches(events)
  {
    batches := [];
    var currentBatch: Batch := [];
    for i := 0 to |events|
      invariant batches + (if currentBatch == [] then [] else [currentBatch]) == Batches(events[..i])
      invariant currentBatch == [] <==> i == 0 || Isolated(events[i - 1])
    {
      var event := events[i];
      assert Front(events[..i + 1]) == events[..i] && Last(events[..i + 1]) == event;
      assert i > 0 ==> Last(events[..i]) == events[i - 1];
      ghost var before := Batches(events[..i]);
      assert batches + [] == batches;
      if Isolated(event) {
        if currentBatch != [] {
          batches := batches + [currentBatch];
          currentBatch := [];
        }
        batches := batches + [[event]];
        assert batches + [] == before + [[event]];
      } else {
        assert currentBatch != [] ==> Front(before) == batches && Last(before) == currentBatch;
        assert currentBatch == [] ==> currentBatch + [event] == [event] && before == batches;
        currentBatch := currentBatch + [event];
      }
    }
    assert events[..|events|] == events;
    if currentBatch != [] {
      batches := batches + [currentBatch];
    }
  }
}
