/** Redelivered events change nothing: a delivered stream is worth its first occurrences. */
module Replay {
  import opened Domain
  import opened Transactions

  predicate Delivered(stream: seq<Action>, event: EventId)
  {
    exists i :: 0 <= i < |stream| && IsRequest(stream[i]) && stream[i].event == event
  }

  /** The stream with only the first delivery of each event kept; inserts are all kept. */
  function Firsts(stream: seq<Action>): seq<Action>
  {
    if stream == [] then []
    else
      var init, last := stream[..|stream| - 1], stream[|stream| - 1];
      if IsRequest(last) && Delivered(init, last.event) then Firsts(init) else Firsts(init) + [last]
  }

  /** The outcomes that are published: executions and refusals, in order. */
  function Outcomes(t: Tables, stream: seq<Action>): seq<Reply>
  {
    if stream == [] then []
    else
      var init, last := stream[..|stream| - 1], stream[|stream| - 1];
      var reply := PlanOf(Run(t, init), last).reply;
      if reply.Filled? || reply.Refused? then Outcomes(t, init) + [reply] else Outcomes(t, init)
  }

  lemma OutcomesSnoc(t: Tables, stream: seq<Action>, a: Action)
    ensures var reply := PlanOf(Run(t, stream), a).reply;
            Outcomes(t, stream + [a])
            == if reply.Filled? || reply.Refused? then Outcomes(t, stream) + [reply] else Outcomes(t, stream)
  {
    assert (stream + [a])[..|stream|] == stream;
  }

  /** A handled event is in the ledger. */
  lemma HandledIsProcessed(t: Tables, a: Action)
    requires WellFormed(t) && Admissible(t, a) && IsRequest(a)
    ensures a.event in Apply(t, a).processed
  {
    if a.event in t.processed || !IsCreated(t, a.order) {
      SettledIsIdle(t, a);
    } else if a.Rejection? {
      RejectionRejects(t, a);
    } else if CanFill(t, a) {
      SettleFills(t, a);
    } else {
      SettleRefuses(t, a);
    }
  }

  lemma {:induction false} DeliveredIsProcessed(t: Tables, stream: seq<Action>)
    requires WellFormed(t) && AdmissibleRun(t, stream)
    ensures forall e :: Delivered(stream, e) ==> e in Run(t, stream).processed
  {
    if stream != [] {
      var init, last := stream[..|stream| - 1], stream[|stream| - 1];
      DeliveredIsProcessed(t, init);
      RunKeepsWellFormed(t, init);
      ApplyOnward(Run(t, init), last);
      forall e | Delivered(stream, e)
        ensures e in Run(t, stream).processed
      {
        var i :| 0 <= i < |stream| && IsRequest(stream[i]) && stream[i].event == e;
        if i < |init| {
          assert init[i] == stream[i];
        } else {
          HandledIsProcessed(Run(t, init), last);
        }
      }
    }
  }

  /** Whatever is repeated and however often, the tables and the published outcomes are those of the
   *  first occurrences. */
  lemma {:induction false} RepeatsChangeNothing(t: Tables, stream: seq<Action>)
    requires WellFormed(t) && AdmissibleRun(t, stream)
    ensures Run(t, Firsts(stream)) == Run(t, stream)
    ensures Outcomes(t, Firsts(stream)) == Outcomes(t, stream)
  {
    if stream != [] {
      var init, last := stream[..|stream| - 1], stream[|stream| - 1];
      RepeatsChangeNothing(t, init);
      if IsRequest(last) && Delivered(init, last.event) {
        DeliveredIsProcessed(t, init);
        var before := Run(t, init);
        SettledIsIdle(before, last);
        assert before.processed + {last.event} == before.processed;
      } else {
        RunSnoc(t, Firsts(init), last);
        OutcomesSnoc(t, Firsts(init), last);
      }
    }
  }

  predicate DistinctEvents(stream: seq<Action>)
  {
    forall i, j :: 0 <= i < j < |stream| && IsRequest(stream[i]) && IsRequest(stream[j]) ==> stream[i].event != stream[j].event
  }

  /** Each event is delivered once in the first occurrences, and none is missing. */
  lemma {:induction false} FirstsAreDistinct(stream: seq<Action>)
    ensures DistinctEvents(Firsts(stream))
    ensures forall e :: Delivered(Firsts(stream), e) <==> Delivered(stream, e)
  {
    if stream != [] {
      var init, last := stream[..|stream| - 1], stream[|stream| - 1];
      FirstsAreDistinct(init);
      assert stream == init + [last];
      DeliveredSnoc(init, last);
      DeliveredSnoc(Firsts(init), last);
      if IsRequest(last) && !Delivered(init, last.event) {
        assert !Delivered(Firsts(init), last.event);
      }
    }
  }

  lemma DeliveredSnoc(stream: seq<Action>, a: Action)
    ensures forall e :: Delivered(stream + [a], e) <==> Delivered(stream, e) || (IsRequest(a) && a.event == e)
  {
    var more := stream + [a];
    assert more[|stream|] == a;
    forall e
      ensures Delivered(more, e) <==> Delivered(stream, e) || (IsRequest(a) && a.event == e)
    {
      if Delivered(stream, e) {
        var i :| 0 <= i < |stream| && IsRequest(stream[i]) && stream[i].event == e;
        assert more[i] == stream[i];
      }
    }
  }
}
