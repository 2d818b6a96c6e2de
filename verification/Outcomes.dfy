/** Which orders have an outcome published once the saga is at rest, and how one is lost. */
module Outcomes {
  import opened Domain
  import opened Pricing
  import opened Transactions
  import opened Events
  import opened Saga
  import opened SagaProperties
  import opened Quiescence

  /** Settled by a quote: executed, or refused for a shortage. */
  predicate QuoteSettled(t: Tables, o: OrderId)
  {
    && o in t.orders
    && (t.orders[o].status.Executed?
        || (t.orders[o].reason.Some? && (t.orders[o].reason.value.ShortOfCash? || t.orders[o].reason.value.ShortOfAsset?)))
  }

  predicate Voiced(w: World, o: OrderId)
  {
    HasOutcome(w, o) || IsSending(w, o)
  }

  // ------------------------------------------------------------ one step

  /** The transaction of a message settles its own order with an outcome, or no order by a quote. */
  lemma RequestVoices(e: Engine, t: Tables, m: Envelope, o: OrderId)
    requires WellFormed(t) && ForPortfolio(m.payload) && TrueIn(e, t, m.order, m.payload) && IsCreated(t, o)
    ensures QuoteSettled(Apply(t, Request(m)), o) <==>
              m.order == o && OutcomeOf(PlanOf(t, Request(m)).reply).Some?
    ensures OutcomeOf(PlanOf(t, Request(m)).reply).Some? ==> IsCreated(t, m.order)
  {
    var a := Request(m);
    assert RowConsistent(t.orders[o]);
    if m.event in t.processed || !IsCreated(t, m.order) {
      SettledIsIdle(t, a);
    } else if a.Rejection? {
      RejectionRejects(t, a);
    } else if CanFill(t, a) {
      SettleFills(t, a);
    } else {
      SettleRefuses(t, a);
    }
  }

  lemma VoicedStays(e: Engine, w: World, m: Move, o: OrderId)
    requires Truthful(e, w) && Enabled(e, w, m) && !m.OutcomeDropped? && Voiced(w, o)
    ensures Voiced(Next(e, w, m), o)
  {
    var w' := Next(e, w, m);
    LogGrows(e, w, m);
    if HasOutcome(w, o) {
      var i :| 0 <= i < |w.log| && w.log[i].order == o && IsOutcome(w.log[i].payload);
      assert w'.log[i] == w.log[i];
    } else {
      var k :| k in w.sending && k < |w.log| && w.log[k].order == o;
      if m == OutcomeSent(k) {
        assert w'.log[|w.log|].order == o && IsOutcome(w'.log[|w.log|].payload);
      } else {
        assert k in w'.sending && w'.log[k].order == o;
      }
    }
  }

  /** An order without a voice gets one only by a quote that settles it. */
  lemma NewlyVoiced(e: Engine, w: World, m: Move, o: OrderId)
    requires e.Valid() && WellFormed(w.db) && Truthful(e, w) && Enabled(e, w, m) && !Voiced(w, o)
    requires !m.Transacts?
    ensures !Voiced(Next(e, w, m), o)
  {
    var w' := Next(e, w, m);
    LogGrows(e, w, m);
    NewMessageIsMute(e, w, m, o);
    SilentPublish(w, w', o);
    forall k | k in w'.sending && k < |w'.log|
      ensures w'.log[k].order != o
    {
      assert k in w.sending && w'.log[k] == w.log[k];
    }
  }

  lemma NewMessageIsMute(e: Engine, w: World, m: Move, o: OrderId)
    requires e.Valid() && Truthful(e, w) && Enabled(e, w, m) && !Voiced(w, o)
    ensures var w' := Next(e, w, m);
            && |w'.log| <= |w.log| + 1
            && (|w'.log| > |w.log| ==> w'.log[|w.log|].order != o || !IsOutcome(w'.log[|w.log|].payload))
  {
    match m
    case MarketReplies(msg, bps) => AnswerIsTrue(e, w.db.orders[w.log[msg].order], bps);
    case _ =>
  }

  lemma TransactVoices(e: Engine, w: World, m: Move, o: OrderId)
    requires WellFormed(w.db) && Truthful(e, w) && Enabled(e, w, m) && m.Transacts? && !Voiced(w, o)
    ensures Voiced(Next(e, w, m), o) <==>
              w.log[m.msg].order == o && OutcomeOf(PlanOf(w.db, Request(w.log[m.msg])).reply).Some?
  {
    var w' := Next(e, w, m);
    assert w'.log == w.log;
    if OutcomeOf(PlanOf(w.db, Request(w.log[m.msg])).reply).Some? {
      assert m.msg in w'.sending;
      forall k | k in w'.sending && k < |w.log| && k != m.msg
        ensures w.log[k].order != o
      {
        assert k in w.sending;
      }
    }
  }

  /** In one step that drops nothing, exactly the orders a quote settles gain a voice. */
  lemma StepVoices(e: Engine, t0: Tables, w: World, m: Move, o: OrderId)
    requires Inv(e, t0, w) && Enabled(e, w, m) && Quiet(w, m) && o in w.db.orders
    ensures o in Next(e, w, m).db.orders
    ensures Voiced(Next(e, w, m), o) <==> Voiced(w, o) || (IsCreated(w.db, o) && QuoteSettled(Next(e, w, m).db, o))
    ensures !IsCreated(w.db, o) ==> Next(e, w, m).db.orders[o] == w.db.orders[o]
  {
    DatabaseKept(e, t0, w, m);
    assert RowConsistent(w.db.orders[o]);
    if Voiced(w, o) {
      VoicedStays(e, w, m, o);
    } else if m.Transacts? {
      TransactVoices(e, w, m, o);
      if IsCreated(w.db, o) {
        RequestVoices(e, w.db, w.log[m.msg], o);
      } else {
        RequestSettles(e, w.db, w.log[m.msg]);
      }
    } else {
      NewlyVoiced(e, w, m, o);
    }
  }

  // ------------------------------------------------------------ whole runs

  lemma {:induction false} RunVoices(e: Engine, t0: Tables, w: World, moves: seq<Move>, o: OrderId)
    requires Inv(e, t0, w) && QuietRun(e, w, moves) && o in w.db.orders
    ensures Exec(e, w, moves).Some? && o in Exec(e, w, moves).value.db.orders
    ensures var end := Exec(e, w, moves).value;
            && (Voiced(end, o) <==> Voiced(w, o) || (IsCreated(w.db, o) && QuoteSettled(end.db, o)))
            && (!IsCreated(w.db, o) ==> end.db.orders[o] == w.db.orders[o])
  {
    QuietRunFalls(e, t0, w, moves);
    if moves != [] {
      var init, m := moves[..|moves| - 1], moves[|moves| - 1];
      RunVoices(e, t0, w, init, o);
      QuietRunFalls(e, t0, w, init);
      StepVoices(e, t0, Exec(e, w, init).value, m, o);
    } else {
      assert RowConsistent(w.db.orders[o]);
    }
  }

  /** Once such a run is at rest, exactly these orders have an outcome published: those that had one or
   *  were about to, and those a quote has settled during the run. */
  lemma OutcomesAtRest(e: Engine, t0: Tables, w: World, moves: seq<Move>, o: OrderId)
    requires e.Valid() && FreshDatabase(t0) && Reachable(e, t0, w) && QuietRun(e, w, moves) && o in w.db.orders
    requires Exec(e, w, moves).Some? && AtRest(Exec(e, w, moves).value)
    ensures var end := Exec(e, w, moves).value;
            HasOutcome(end, o) <==> HasOutcome(w, o) || IsSending(w, o) || (IsCreated(w.db, o) && QuoteSettled(end.db, o))
  {
    ReachableInv(e, t0, w);
    RunVoices(e, t0, w, moves, o);
  }

  // ------------------------------------------------------------ a dropped outcome

  /** An outcome dropped between commit and send is never published, by any later run; and a run to rest
   *  without it exists. */
  lemma DroppedIsLost(e: Engine, t0: Tables, w: World, k: nat) returns (moves: seq<Move>)
    requires e.Valid() && FreshDatabase(t0) && Reachable(e, t0, w) && k in w.sending
    ensures Enabled(e, w, OutcomeDropped(k)) && k < |w.log|
    ensures var w' := Next(e, w, OutcomeDropped(k));
            && Silent(w', w.log[k].order) && !CanPublish(e, w', w.log[k].order)
            && QuietRun(e, w', moves) && Exec(e, w', moves).Some? && AtRest(Exec(e, w', moves).value)
            && !HasOutcome(Exec(e, w', moves).value, w.log[k].order)
  {
    ReachableInv(e, t0, w);
    var w', o := Next(e, w, OutcomeDropped(k)), w.log[k].order;
    DroppedIsSilent(e, w, k);
    NextKeepsInv(e, t0, w, OutcomeDropped(k));
    forall later | Exec(e, w', later).Some?
      ensures !HasOutcome(Exec(e, w', later).value, o)
    {
      SilentForEver(e, t0, w', later, o);
    }
    moves := Drains(e, t0, w', []);
  }

  lemma DroppedIsSilent(e: Engine, w: World, k: nat)
    requires Truthful(e, w) && OneOutcome(w) && k in w.sending
    ensures k < |w.log| && Enabled(e, w, OutcomeDropped(k))
    ensures Silent(Next(e, w, OutcomeDropped(k)), w.log[k].order)
  {
    OutcomeTerminal(e, w.db, w.log[k].order, w.sending[k]);
  }

  /** Such a world arises from every accepted order for a listed symbol: POST, answer, transaction, and a
   *  death before the send. */
  lemma LossArises(e: Engine, t0: Tables, id: OrderId, request: NewOrder) returns (w: World)
    requires e.Valid() && FreshDatabase(t0) && request.Validate() && request.Stored() > 0 && request.user in t0.cash
    requires e.Lookup(NewRow(request).Asset()).Listed?
    ensures Reachable(e, t0, w) && Silent(w, id) && !CanPublish(e, w, id)
  {
    var w2 := Answerable(e, t0, id, request);
    ReachableInv(e, t0, w2);
    var w3 := Next(e, w2, MarketReplies(0, 0));
    ReachNext(e, t0, w2, MarketReplies(0, 0));
    ReachableInv(e, t0, w3);
    RequestSettles(e, w3.db, w3.log[1]);
    QuoteHasOutcome(e, w3.db, w3.log[1]);
    var w4 := Next(e, w3, Transacts(1));
    ReachNext(e, t0, w3, Transacts(1));
    var moves := DroppedIsLost(e, t0, w4, 1);
    ReachNext(e, t0, w4, OutcomeDropped(1));
    w := Next(e, w4, OutcomeDropped(1));
  }

  /** After a POST there is one OrderCreated to answer. */
  lemma Answerable(e: Engine, t0: Tables, id: OrderId, request: NewOrder) returns (w: World)
    requires FreshDatabase(t0) && request.Validate() && request.Stored() > 0 && request.user in t0.cash
    ensures Reachable(e, t0, w) && |w.log| == 1 && w.acked == {} && w.db.processed == {}
    ensures IsCreated(w.db, id) && w.log[0] == Envelope(0, id, CreatedPayload(NewRow(request))) && w.nextEvent == 1
  {
    assert Exec(e, Start(t0), []) == Some(Start(t0));
    PlaceEffect(t0, Place(id, request));
    ReachNext(e, t0, Start(t0), PostInserts(id, request));
    var w1 := Next(e, Start(t0), PostInserts(id, request));
    OrdersAndEventsKept(t0, Place(id, request));
    ReachNext(e, t0, w1, PostSends(id));
    w := Next(e, w1, PostSends(id));
  }

  lemma QuoteHasOutcome(e: Engine, t: Tables, m: Envelope)
    requires WellFormed(t) && m.payload.PriceQuoted? && m.payload.price >= 1
    requires m.event !in t.processed && IsCreated(t, m.order)
    ensures OutcomeOf(PlanOf(t, Request(m)).reply).Some?
  {
    if CanFill(t, Request(m)) {
      SettleFills(t, Request(m));
    } else {
      SettleRefuses(t, Request(m));
    }
  }
}
