/** Every interleaving equals running its returned transactions one at a time, in the order of their
 *  history: by commit, except that a transaction whose locking read found no row stands at that
 *  read. */
module Serial {
  import opened Domain
  import opened Transactions
  import opened Interleaving

  // ------------------------------------------------------------ serial histories

  function RunHistory(t: Tables, h: seq<Entry>): Tables
  {
    if h == [] then t else Apply(RunHistory(t, h[..|h| - 1]), h[|h| - 1].action)
  }

  function Actions(h: seq<Entry>): seq<Action>
  {
    if h == [] then [] else Actions(h[..|h| - 1]) + [h[|h| - 1].action]
  }

  lemma {:induction false} RunHistoryIsRun(t: Tables, h: seq<Entry>)
    ensures RunHistory(t, h) == Run(t, Actions(h))
  {
    if h != [] {
      RunHistoryIsRun(t, h[..|h| - 1]);
      RunSnoc(t, Actions(h[..|h| - 1]), h[|h| - 1].action);
    }
  }

  /** Run alone on these tables, the transaction returns and commits as recorded. */
  predicate Faithful(t: Tables, x: Entry)
  {
    var plan := PlanOf(t, x.action);
    && Admissible(t, x.action)
    && plan.reply == x.reply && !x.reply.Failed?
    && (plan.Commit? <==> x.committed)
  }

  predicate Replays(t: Tables, h: seq<Entry>)
  {
    h != [] ==> Replays(t, h[..|h| - 1]) && Faithful(RunHistory(t, h[..|h| - 1]), h[|h| - 1])
  }

  /** Strictly by time. */
  predicate Ordered(h: seq<Entry>, clock: nat)
  {
    && (forall i :: 0 <= i < |h| ==> h[i].at < clock)
    && (forall i, j :: 0 <= i < j < |h| ==> h[i].at < h[j].at)
  }

  /** The part of a history before a time. */
  function Before(h: seq<Entry>, at: nat): seq<Entry>
  {
    if h == [] || h[|h| - 1].at < at then h else Before(h[..|h| - 1], at)
  }

  predicate NotAt(h: seq<Entry>, at: nat)
  {
    forall i :: 0 <= i < |h| ==> h[i].at != at
  }

  lemma {:induction false} InsertOrdered(h: seq<Entry>, e: Entry, clock: nat)
    requires Ordered(h, clock) && e.at < clock && NotAt(h, e.at)
    ensures Ordered(Insert(h, e), clock)
    ensures forall x :: x in Insert(h, e) <==> x in h || x == e
  {
    if h == [] || h[|h| - 1].at < e.at {
    } else {
      var init, last := h[..|h| - 1], h[|h| - 1];
      InsertOrdered(init, e, clock);
      var r := Insert(init, e);
      forall i | 0 <= i < |r|
        ensures r[i].at < last.at
      {
        assert r[i] in r;
      }
    }
  }

  lemma InsertNotAt(h: seq<Entry>, e: Entry, at: nat, clock: nat)
    requires Ordered(h, clock) && e.at < clock && NotAt(h, e.at) && NotAt(h, at) && e.at != at
    ensures NotAt(Insert(h, e), at)
  {
    InsertOrdered(h, e, clock);
    var r := Insert(h, e);
    forall i | 0 <= i < |r|
      ensures r[i].at != at
    {
      assert r[i] in r;
    }
  }

  lemma {:induction false} BeforeInsert(h: seq<Entry>, e: Entry, at: nat, clock: nat)
    requires Ordered(h, clock) && e.at != at
    ensures e.at > at ==> Before(Insert(h, e), at) == Before(h, at)
    ensures e.at < at ==> Before(Insert(h, e), at) == Insert(Before(h, at), e)
  {
    var r := Insert(h, e);
    if h == [] || h[|h| - 1].at < e.at {
      assert r[..|r| - 1] == h;
    } else {
      var init, last := h[..|h| - 1], h[|h| - 1];
      assert r[..|r| - 1] == Insert(init, e);
      BeforeInsert(init, e, at, clock);
    }
  }

  /** Entries below a time form an ordered prefix whose members all lie before it. */
  lemma {:induction false} BeforeOrdered(h: seq<Entry>, at: nat, clock: nat)
    requires Ordered(h, clock)
    ensures Ordered(Before(h, at), clock)
    ensures forall x :: x in Before(h, at) ==> x in h
    ensures |Before(h, at)| <= |h|
  {
    if h != [] && h[|h| - 1].at >= at {
      BeforeOrdered(h[..|h| - 1], at, clock);
    }
  }

  lemma {:induction false} ReplaysBefore(t: Tables, h: seq<Entry>, at: nat)
    requires Replays(t, h)
    ensures Replays(t, Before(h, at))
  {
    if h != [] && h[|h| - 1].at >= at {
      ReplaysBefore(t, h[..|h| - 1], at);
    }
  }

  // ------------------------------------------------------------ commuting a late committer

  /** Writes that mark events and change orders only: all a transaction that missed a row ever makes. */
  predicate Narrow(w: Writes)
  {
    w.users == {} && w.cash == map[] && w.holdings == map[]
  }

  /** The entry neither marks those events nor reads those orders. A duplicate reads the ledger only. */
  predicate Apart(x: Entry, w: Writes)
  {
    match x.action
    case Quoted(o, e, _) => e !in w.processed && (x.committed ==> o !in w.orders)
    case Rejection(o, e, _) => e !in w.processed && (x.committed ==> o !in w.orders)
    case Place(id, _) => id !in w.orders && x.committed
    case _ => x.committed
  }

  /** What a plan may write: the event it marks, its own order, and no more orders. */
  predicate OwnWrites(a: Action, w: Writes)
  {
    match a
    case Quoted(o, e, _) => w.orders.Keys <= {o}
    case Rejection(o, e, _) => w.orders.Keys <= {o}
    case Place(id, _) => w.orders.Keys <= {id}
    case _ => w.orders == map[]
  }

  lemma PlanOwnWrites(t: Tables, a: Action)
    requires PlanOf(t, a).Commit?
    ensures OwnWrites(a, PlanOf(t, a).writes)
  {
  }

  lemma PlanIgnores(t: Tables, w: Writes, x: Entry)
    requires Narrow(w) && Apart(x, w) && Faithful(t, x)
    ensures PlanOf(Effect(t, w), x.action) == PlanOf(t, x.action)
    ensures Faithful(Effect(t, w), x)
  {
    UnionNone(t.cash);
    UnionNone(t.holdings);
    var t' := Effect(t, w);
    assert t' == t.(orders := t.orders + w.orders, processed := t.processed + w.processed);
    match x.action
    case Quoted(o, e, _) => QuotedIgnores(t, w, x);
    case Rejection(o, e, _) =>
    case Place(_, _) =>
    case _ =>
  }

  lemma QuotedIgnores(t: Tables, w: Writes, x: Entry)
    requires Apart(x, w) && Faithful(t, x) && x.action.Quoted?
    ensures var t' := t.(orders := t.orders + w.orders, processed := t.processed + w.processed);
            PlanOf(t', x.action) == PlanOf(t, x.action)
  {
    var a := x.action;
    var t' := t.(orders := t.orders + w.orders, processed := t.processed + w.processed);
    if x.committed {
      assert IsCreated(t', a.order) == IsCreated(t, a.order);
      if IsCreated(t, a.order) {
        assert t'.orders[a.order] == t.orders[a.order];
      }
    }
  }

  /** The entry and the narrow writes commute. */
  lemma LateFrame(t: Tables, w: Writes, x: Entry)
    requires Narrow(w) && Apart(x, w) && Faithful(t, x)
    ensures Faithful(Effect(t, w), x)
    ensures Apply(Effect(t, w), x.action) == Effect(Apply(t, x.action), w)
  {
    PlanIgnores(t, w, x);
    if x.committed {
      PlanOwnWrites(t, x.action);
      EffectsCommute(t, w, PlanOf(t, x.action).writes);
    }
  }

  lemma EffectsCommute(t: Tables, w: Writes, v: Writes)
    requires Narrow(w) && w.orders.Keys !! v.orders.Keys
    ensures Effect(Effect(t, w), v) == Effect(Effect(t, v), w)
  {
    UnionNone(t.cash);
    UnionNone(t.holdings);
    UnionNone(t.cash + v.cash);
    UnionNone(t.holdings + v.holdings);
    OrdersCommute(t.orders, w.orders, v.orders);
    assert t.users + w.users + v.users == t.users + v.users + w.users;
    assert t.processed + w.processed + v.processed == t.processed + v.processed + w.processed;
  }

  lemma OrdersCommute(m: map<OrderId, OrderRow>, a: map<OrderId, OrderRow>, b: map<OrderId, OrderRow>)
    requires a.Keys !! b.Keys
    ensures m + a + b == m + b + a
  {
  }

  /** An entry that planned its narrow writes at its own time can be put there afterwards: everything
   *  later replays unchanged, and the tables gain exactly its writes. */
  lemma {:induction false} InsertReplays(t: Tables, h: seq<Entry>, e: Entry, w: Writes, clock: nat)
    requires Ordered(h, clock) && NotAt(h, e.at) && Replays(t, h)
    requires Faithful(RunHistory(t, Before(h, e.at)), e)
    requires PlanOf(RunHistory(t, Before(h, e.at)), e.action) == Commit(w, e.reply) && Narrow(w)
    requires forall x <- h :: x.at > e.at ==> Apart(x, w)
    ensures Replays(t, Insert(h, e))
    ensures RunHistory(t, Insert(h, e)) == Effect(RunHistory(t, h), w)
  {
    var r := Insert(h, e);
    if h == [] || h[|h| - 1].at < e.at {
      assert r[..|r| - 1] == h;
    } else {
      var init, last := h[..|h| - 1], h[|h| - 1];
      assert r[..|r| - 1] == Insert(init, e);
      InsertReplays(t, init, e, w, clock);
      LateFrame(RunHistory(t, init), w, last);
    }
  }

  /** The newest entry goes to the end, whatever it writes. */
  lemma AppendReplays(t: Tables, h: seq<Entry>, e: Entry)
    requires Ordered(h, e.at) && Replays(t, h) && Faithful(RunHistory(t, h), e)
    ensures Insert(h, e) == h + [e]
    ensures Replays(t, Insert(h, e))
    ensures RunHistory(t, Insert(h, e)) == Apply(RunHistory(t, h), e.action)
  {
    assert (h + [e])[..|h|] == h;
  }
}
