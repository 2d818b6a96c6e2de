/** Runs of the saga with the time of each move, and a transaction put back to the time at which it
 *  read. */
module Trace {
  import opened Domain
  import opened Pricing
  import opened Transactions
  import opened Events
  import opened Saga
  import opened SagaProperties
  import I = Interleaving
  import S = Serial

  datatype Timed<T> = Timed(at: nat, what: T)

  /** Put something at its place in time. */
  function Put<T>(trace: seq<Timed<T>>, x: Timed<T>): seq<Timed<T>>
  {
    if trace == [] || trace[|trace| - 1].at < x.at then trace + [x] else Put(trace[..|trace| - 1], x) + [trace[|trace| - 1]]
  }

  /** All of it lies before this time. */
  predicate Past<T>(trace: seq<Timed<T>>, clock: nat)
  {
    trace != [] ==> trace[|trace| - 1].at < clock
  }

  lemma PutPast<T>(trace: seq<Timed<T>>, x: Timed<T>, clock: nat)
    requires Past(trace, clock) && x.at < clock
    ensures Past(Put(trace, x), clock)
  {
  }

  lemma PutNow<T>(trace: seq<Timed<T>>, x: Timed<T>)
    requires Past(trace, x.at)
    ensures Put(trace, x) == trace + [x]
  {
  }

  function Play(e: Engine, t0: Tables, trace: seq<Timed<Move>>): Option<World>
  {
    if trace == [] then Some(Start(t0))
    else
      var before, m := Play(e, t0, trace[..|trace| - 1]), trace[|trace| - 1].what;
      if before.Some? && Enabled(e, before.value, m) then Some(Next(e, before.value, m)) else None
  }

  lemma {:induction false} PlayReaches(e: Engine, t0: Tables, trace: seq<Timed<Move>>)
    requires Play(e, t0, trace).Some?
    ensures Reachable(e, t0, Play(e, t0, trace).value)
  {
    if trace == [] {
      assert Exec(e, Start(t0), []) == Some(Start(t0));
    } else {
      PlayReaches(e, t0, trace[..|trace| - 1]);
      ReachNext(e, t0, Play(e, t0, trace[..|trace| - 1]).value, trace[|trace| - 1].what);
    }
  }

  lemma PlaySnoc(e: Engine, t0: Tables, trace: seq<Timed<Move>>, x: Timed<Move>)
    requires Play(e, t0, trace).Some? && Enabled(e, Play(e, t0, trace).value, x.what)
    ensures Play(e, t0, trace + [x]) == Some(Next(e, Play(e, t0, trace).value, x.what))
  {
    assert (trace + [x])[..|trace|] == trace;
  }

  /** The entry of a transaction that runs as planned. */
  function EntryAt(at: nat, t: Tables, a: Action): I.Entry
  {
    I.Entry(at, a, PlanOf(t, a).reply, PlanOf(t, a).Commit?)
  }

  lemma MoveDb(e: Engine, w: World, m: Move)
    requires Enabled(e, w, m)
    ensures Next(e, w, m).db == if Committed(w, m).Some? then Apply(w.db, Committed(w, m).value) else w.db
  {
  }

  // ------------------------------------------------------------ worlds that differ in history only

  /** Equal but for the list of transactions so far. */
  predicate Alike(w: World, w': World)
  {
    w' == w.(history := w'.history)
  }

  lemma AlikeNext(e: Engine, w: World, w': World, m: Move)
    requires Alike(w, w') && Enabled(e, w, m)
    ensures Enabled(e, w', m) && Alike(Next(e, w, m), Next(e, w', m)) && Committed(w', m) == Committed(w, m)
  {
  }

  // ------------------------------------------------------------ a transaction that comes late

  /** A transaction whose read, at a time, found no row: the message it is for, and what it is to do. */
  datatype Miss = Miss(at: nat, msg: nat, action: Action, writes: Writes, outcome: Payload)

  /** The world it leaves, having changed no balance and having an outcome to send. */
  function Late(w: World, m: Miss): World
  {
    w.(db := Effect(w.db, m.writes), sending := w.sending[m.msg := m.outcome])
  }

  /** The orders written are there, with the same requests. */
  predicate RowsAgree(t: Tables, writes: Writes)
  {
    forall o <- writes.orders :: o in t.orders && SameRequest(t.orders[o], writes.orders[o])
  }

  /** What it needs of a world that it is to precede. */
  predicate Awaits(w: World, m: Miss)
  {
    && m.msg < |w.log| && m.msg !in w.sending && m.writes.processed == {w.log[m.msg].event}
    && S.Narrow(m.writes) && RowsAgree(w.db, m.writes)
  }

  /** The move is enabled; as a transaction, it would run alone as it does, and is apart from the late one. */
  predicate Beside(e: Engine, w: World, move: Move, m: Miss)
  {
    && Enabled(e, w, move)
    && (Committed(w, move).Some? ==>
          var x := EntryAt(0, w.db, Committed(w, move).value);
          S.Faithful(w.db, x) && S.Apart(x, m.writes))
  }

  lemma LateEnabled(e: Engine, w: World, move: Move, m: Miss)
    requires Awaits(w, m) && Beside(e, w, move, m)
    ensures Enabled(e, Late(w, m), move) && Committed(Late(w, m), move) == Committed(w, move)
    ensures Committed(w, move).Some? ==>
              var a := Committed(w, move).value;
              PlanOf(Late(w, m).db, a) == PlanOf(w.db, a) && S.Faithful(Late(w, m).db, EntryAt(0, w.db, a))
  {
    if Committed(w, move).Some? {
      S.PlanIgnores(w.db, m.writes, EntryAt(0, w.db, Committed(w, move).value));
    }
  }

  /** Every other move does the same before and after a late transaction. */
  lemma LateCommutes(e: Engine, w: World, move: Move, m: Miss)
    requires Awaits(w, m) && Beside(e, w, move, m) && Enabled(e, Late(w, m), move)
    ensures Alike(Late(Next(e, w, move), m), Next(e, Late(w, m), move))
  {
    match move
    case PostInserts(id, request) => S.LateFrame(w.db, m.writes, EntryAt(0, w.db, Place(id, request)));
    case Seeds(a) => S.LateFrame(w.db, m.writes, EntryAt(0, w.db, a));
    case Transacts(_) => LateTransactCommutes(e, w, move, m);
    case PostSends(id) =>
      assert CreatedPayload(Late(w, m).db.orders[id]) == CreatedPayload(w.db.orders[id]);
    case OutcomeSent(k) => SendingCommutes(w.sending, k, m.msg, m.outcome);
    case OutcomeDropped(k) => SendingCommutes(w.sending, k, m.msg, m.outcome);
    case _ =>
  }

  lemma SendingCommutes(sending: map<nat, Payload>, k: nat, msg: nat, outcome: Payload)
    requires k != msg
    ensures (sending - {k})[msg := outcome] == sending[msg := outcome] - {k}
  {
  }

  lemma LateTransactCommutes(e: Engine, w: World, move: Move, m: Miss)
    requires move.Transacts? && Awaits(w, m) && Beside(e, w, move, m) && Enabled(e, Late(w, m), move)
    ensures Alike(Late(Next(e, w, move), m), Next(e, Late(w, m), move))
  {
    var a := Request(w.log[move.msg]);
    var x := EntryAt(0, w.db, a);
    S.LateFrame(w.db, m.writes, x);
    S.PlanIgnores(w.db, m.writes, x);
    assert move.msg != m.msg;
    var reply := OutcomeOf(PlanOf(w.db, a).reply);
    if reply.Some? {
      assert w.sending[move.msg := reply.value][m.msg := m.outcome] == w.sending[m.msg := m.outcome][move.msg := reply.value];
    }
  }

  /** A world awaits a late transaction until it comes. */
  lemma AwaitsStays(e: Engine, w: World, move: Move, m: Miss)
    requires Awaits(w, m) && Beside(e, w, move, m)
    ensures Awaits(Next(e, w, move), m)
  {
    LogGrows(e, w, move);
    if Committed(w, move).Some? {
      ApplyOnward(w.db, Committed(w, move).value);
    }
  }

  /** One move on, and late still. */
  lemma LateStep(e: Engine, w: World, late: World, move: Move, m: Miss)
    requires Awaits(w, m) && Beside(e, w, move, m) && Alike(Late(w, m), late)
    ensures Enabled(e, late, move) && Alike(Late(Next(e, w, move), m), Next(e, late, move))
  {
    LateEnabled(e, w, move, m);
    LateCommutes(e, w, move, m);
    AlikeNext(e, Late(w, m), late, move);
  }

  /** The world in which the transaction could have run. */
  predicate Ripe(e: Engine, w: World, m: Miss)
  {
    && Enabled(e, w, Transacts(m.msg)) && Awaits(w, m) && Request(w.log[m.msg]) == m.action && Admissible(w.db, m.action)
    && (var plan := PlanOf(w.db, m.action); plan.Commit? && plan.writes == m.writes && OutcomeOf(plan.reply) == Some(m.outcome))
  }

  lemma RipeRuns(e: Engine, w: World, m: Miss)
    requires Ripe(e, w, m)
    ensures Alike(Late(w, m), Next(e, w, Transacts(m.msg)))
  {
  }

  // ------------------------------------------------------------ putting it back

  /** It can be put into the trace at the time of its read: it could have run there, and every later move
   *  is beside it. */
  predicate Insertable(e: Engine, t0: Tables, trace: seq<Timed<Move>>, m: Miss)
  {
    if trace == [] || trace[|trace| - 1].at < m.at then
      Play(e, t0, trace).Some? && Ripe(e, Play(e, t0, trace).value, m)
    else
      var before, last := Play(e, t0, trace[..|trace| - 1]), trace[|trace| - 1];
      Insertable(e, t0, trace[..|trace| - 1], m) && last.at > m.at && before.Some? && Beside(e, before.value, last.what, m)
  }

  /** What happens now, beside it, comes after it. */
  lemma InsertableMore(e: Engine, t0: Tables, trace: seq<Timed<Move>>, x: Timed<Move>, m: Miss)
    requires Insertable(e, t0, trace, m) && x.at > m.at && Play(e, t0, trace).Some?
    requires Beside(e, Play(e, t0, trace).value, x.what, m)
    ensures Insertable(e, t0, trace + [x], m)
  {
    assert (trace + [x])[..|trace|] == trace;
  }

  /** The moves after the read leave the world waiting. */
  lemma {:induction false} AwaitsAfter(e: Engine, t0: Tables, trace: seq<Timed<Move>>, m: Miss)
    requires Insertable(e, t0, trace, m)
    ensures Play(e, t0, trace).Some? && Awaits(Play(e, t0, trace).value, m)
  {
    if trace != [] && trace[|trace| - 1].at >= m.at {
      AwaitsAfter(e, t0, trace[..|trace| - 1], m);
      AwaitsStays(e, Play(e, t0, trace[..|trace| - 1]).value, trace[|trace| - 1].what, m);
    }
  }

  /** The second trace plays to what the late transaction makes of the first. */
  predicate Placed(e: Engine, t0: Tables, trace: seq<Timed<Move>>, put: seq<Timed<Move>>, m: Miss)
  {
    var now, late := Play(e, t0, trace), Play(e, t0, put);
    now.Some? && late.Some? && Alike(Late(now.value, m), late.value)
  }

  function MoveOf(m: Miss): Timed<Move>
  {
    Timed(m.at, Transacts(m.msg))
  }

  lemma PlaceLast(e: Engine, t0: Tables, trace: seq<Timed<Move>>, m: Miss)
    requires Play(e, t0, trace).Some? && Ripe(e, Play(e, t0, trace).value, m)
    ensures Placed(e, t0, trace, trace + [MoveOf(m)], m)
  {
    PlaySnoc(e, t0, trace, MoveOf(m));
    RipeRuns(e, Play(e, t0, trace).value, m);
  }

  lemma PlaceBefore(e: Engine, t0: Tables, init: seq<Timed<Move>>, put: seq<Timed<Move>>, last: Timed<Move>, m: Miss)
    requires Placed(e, t0, init, put, m) && Awaits(Play(e, t0, init).value, m)
    requires Beside(e, Play(e, t0, init).value, last.what, m)
    ensures Placed(e, t0, init + [last], put + [last], m)
  {
    LateStep(e, Play(e, t0, init).value, Play(e, t0, put).value, last.what, m);
    PlaySnoc(e, t0, init, last);
    PlaySnoc(e, t0, put, last);
  }

  lemma PlaceLater(e: Engine, t0: Tables, trace: seq<Timed<Move>>, put: seq<Timed<Move>>, m: Miss)
    requires Insertable(e, t0, trace, m) && trace != [] && trace[|trace| - 1].at >= m.at
    requires Placed(e, t0, trace[..|trace| - 1], put, m)
    ensures Placed(e, t0, trace, put + [trace[|trace| - 1]], m)
  {
    AwaitsAfter(e, t0, trace[..|trace| - 1], m);
    PlaceBefore(e, t0, trace[..|trace| - 1], put, trace[|trace| - 1], m);
    assert trace == trace[..|trace| - 1] + [trace[|trace| - 1]];
  }

  /** A transaction that could have run at its read can be put there: the trace still plays, to the world
   *  that the transaction leaves when it commits at the end. */
  lemma {:induction false} PutPlaces(e: Engine, t0: Tables, trace: seq<Timed<Move>>, m: Miss)
    requires Insertable(e, t0, trace, m)
    ensures Placed(e, t0, trace, Put(trace, MoveOf(m)), m)
  {
    if trace == [] || trace[|trace| - 1].at < m.at {
      PlaceLast(e, t0, trace, m);
    } else {
      PutPlaces(e, t0, trace[..|trace| - 1], m);
      PlaceLater(e, t0, trace, Put(trace[..|trace| - 1], MoveOf(m)), m);
    }
  }

  // ------------------------------------------------------------ two of them

  /** The one neither marks the other's event nor changes its order. */
  predicate Clear(m: Miss, other: Miss)
  {
    IsRequest(other.action) && other.action.event !in m.writes.processed && other.action.order !in m.writes.orders
  }

  /** Of two, the one that read earlier is clear of the later one. */
  predicate Paired(m: Miss, other: Miss)
  {
    && m.at != other.at && (m.at < other.at ==> Clear(m, other)) && (other.at < m.at ==> Clear(other, m))
  }

  lemma ClearBeside(e: Engine, w: World, m: Miss, other: Miss)
    requires Ripe(e, w, other) && Clear(m, other)
    ensures Beside(e, w, Transacts(other.msg), m)
  {
  }

  /** A late transaction leaves another, clear of it, as ripe as it was. */
  lemma StillRipe(e: Engine, w: World, late: World, m: Miss, other: Miss)
    requires Ripe(e, w, other) && Awaits(w, m) && Clear(m, other) && Alike(Late(w, m), late)
    ensures Ripe(e, late, other)
  {
    ClearBeside(e, w, m, other);
    LateEnabled(e, w, Transacts(other.msg), m);
    assert m.msg != other.msg;
  }

  /** What is beside a transaction is so after another late one too. */
  lemma StillBeside(e: Engine, w: World, late: World, move: Move, m: Miss, other: Miss)
    requires Awaits(w, m) && Beside(e, w, move, m) && Beside(e, w, move, other) && Alike(Late(w, m), late)
    ensures Beside(e, late, move, other)
  {
    LateEnabled(e, w, move, m);
    AlikeNext(e, Late(w, m), late, move);
  }

  lemma OtherAtEnd(e: Engine, t0: Tables, trace: seq<Timed<Move>>, m: Miss, other: Miss)
    requires Play(e, t0, trace).Some? && Ripe(e, Play(e, t0, trace).value, m) && Past(trace, m.at)
    requires Insertable(e, t0, trace, other) && Paired(m, other)
    ensures Insertable(e, t0, trace + [MoveOf(m)], other)
  {
    assert (trace + [MoveOf(m)])[..|trace|] == trace;
    if m.at < other.at {
      PlaceLast(e, t0, trace, m);
      StillRipe(e, Play(e, t0, trace).value, Play(e, t0, trace + [MoveOf(m)]).value, m, other);
    } else {
      ClearBeside(e, Play(e, t0, trace).value, other, m);
    }
  }

  lemma OtherRipe(e: Engine, t0: Tables, trace: seq<Timed<Move>>, put: seq<Timed<Move>>, m: Miss, other: Miss)
    requires Placed(e, t0, trace, put, m) && Awaits(Play(e, t0, trace).value, m)
    requires Ripe(e, Play(e, t0, trace).value, other) && Clear(m, other) && Past(put, other.at)
    ensures Insertable(e, t0, put, other)
  {
    StillRipe(e, Play(e, t0, trace).value, Play(e, t0, put).value, m, other);
  }

  lemma OtherBefore(e: Engine, t0: Tables, init: seq<Timed<Move>>, put: seq<Timed<Move>>, last: Timed<Move>, m: Miss, other: Miss)
    requires Placed(e, t0, init, put, m) && Awaits(Play(e, t0, init).value, m)
    requires Beside(e, Play(e, t0, init).value, last.what, m) && Beside(e, Play(e, t0, init).value, last.what, other)
    requires Insertable(e, t0, put, other) && last.at > other.at
    ensures Insertable(e, t0, put + [last], other)
  {
    StillBeside(e, Play(e, t0, init).value, Play(e, t0, put).value, last.what, m, other);
    InsertableMore(e, t0, put, last, other);
  }

  /** When one has been put back, another that could be put back still can. */
  lemma {:induction false} OtherInsertable(e: Engine, t0: Tables, trace: seq<Timed<Move>>, m: Miss, other: Miss)
    requires Insertable(e, t0, trace, m) && Insertable(e, t0, trace, other) && Paired(m, other)
    ensures Insertable(e, t0, Put(trace, MoveOf(m)), other)
  {
    if trace == [] || trace[|trace| - 1].at < m.at {
      OtherAtEnd(e, t0, trace, m, other);
    } else {
      var init, last := trace[..|trace| - 1], trace[|trace| - 1];
      PutPlaces(e, t0, trace, m);
      AwaitsAfter(e, t0, trace, m);
      if last.at < other.at {
        OtherRipe(e, t0, trace, Put(trace, MoveOf(m)), m, other);
      } else {
        PutPlaces(e, t0, init, m);
        AwaitsAfter(e, t0, init, m);
        OtherInsertable(e, t0, init, m, other);
        OtherBefore(e, t0, init, Put(init, MoveOf(m)), last, m, other);
      }
    }
  }
}
