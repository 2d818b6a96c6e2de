/** Stories of the cluster with the time of each occurrence, and a transaction put back to the time at
 *  which it read. */
module Chronicle {
  import opened Domain
  import opened Pricing
  import opened Transactions
  import opened Events
  import opened Kafka
  import opened Saga
  import opened Trace
  import opened Delivery
  import S = Serial

  type Diary = seq<Timed<Occurrence>>

  function Story(diary: Diary): seq<Occurrence>
  {
    if diary == [] then [] else Story(diary[..|diary| - 1]) + [diary[|diary| - 1].what]
  }

  /** What the story of a diary makes of the cluster. */
  function Told(e: Engine, t0: Tables, diary: Diary): Option<Cluster>
  {
    Life(e, t0, Story(diary))
  }

  lemma StorySnoc(diary: Diary, x: Timed<Occurrence>)
    ensures Story(diary + [x]) == Story(diary) + [x.what]
  {
    assert (diary + [x])[..|diary|] == diary;
  }

  lemma ToldSnoc(e: Engine, t0: Tables, diary: Diary, x: Timed<Occurrence>)
    requires Happens(e, Told(e, t0, diary), x.what)
    ensures Told(e, t0, diary + [x]) == Some(Occur(e, Told(e, t0, diary).value, x.what))
  {
    StorySnoc(diary, x);
    GoesSnoc(e, Booted(t0), Story(diary), x.what);
  }

  predicate Happens(e: Engine, c: Option<Cluster>, o: Occurrence)
  {
    c.Some? && |c.value.cursors| == PARTITIONS && CanOccur(e, c.value, o)
  }

  lemma {:induction false} StoryPut(diary: Diary, x: Timed<Occurrence>)
    ensures forall o :: o in Story(Put(diary, x)) <==> o in Story(diary) || o == x.what
  {
    if diary == [] || diary[|diary| - 1].at < x.at {
      StorySnoc(diary, x);
    } else {
      StoryPut(diary[..|diary| - 1], x);
      StorySnoc(Put(diary[..|diary| - 1], x), diary[|diary| - 1]);
    }
  }

  // ------------------------------------------------------------ clusters that differ in history only

  /** Equal but for the list of transactions so far. */
  predicate AlikeIn(c: Cluster, c': Cluster)
  {
    Alike(c.world, c'.world) && c' == c.(world := c'.world)
  }

  lemma AlikeOccur(e: Engine, c: Cluster, c': Cluster, o: Occurrence)
    requires AlikeIn(c, c') && Happens(e, Some(c), o)
    ensures Happens(e, Some(c'), o) && AlikeIn(Occur(e, c, o), Occur(e, c', o))
  {
  }

  // ------------------------------------------------------------ a transaction that comes late

  function Since(c: Cluster, m: Miss): Cluster
  {
    c.(world := Late(c.world, m))
  }

  /** The occurrence is apart from a late transaction: as a move it is, the handler does not return, and
   *  its consumer does not restart. */
  predicate BesideIn(e: Engine, c: Cluster, o: Occurrence, m: Miss)
  {
    match o
    case Service(move) => Beside(e, c.world, move, m)
    case Returned(msg, _) => msg != m.msg
    case Broker(_) => true
    case Restarts(group) => m.msg < |c.world.log| && PartitionOf(c.world.log[m.msg]) !in group
  }

  lemma SinceHappens(e: Engine, c: Cluster, o: Occurrence, m: Miss)
    requires Happens(e, Some(c), o) && Awaits(c.world, m) && BesideIn(e, c, o, m)
    ensures Happens(e, Some(Since(c, m)), o) && BesideIn(e, Since(c, m), o, m)
  {
    match o
    case Service(move) => LateEnabled(e, c.world, move, m);
    case _ =>
  }

  lemma SinceServed(e: Engine, c: Cluster, move: Move, m: Miss)
    requires Awaits(c.world, m) && Beside(e, c.world, move, m)
    ensures Served(Since(c, m).world, move) == Served(c.world, move)
  {
    LateEnabled(e, c.world, move, m);
  }

  /** Everything else does the same before and after a late transaction. */
  lemma SinceCommutes(e: Engine, c: Cluster, o: Occurrence, m: Miss)
    requires Happens(e, Some(c), o) && Awaits(c.world, m) && BesideIn(e, c, o, m)
    requires Happens(e, Some(Since(c, m)), o) && BesideIn(e, Since(c, m), o, m)
    ensures AlikeIn(Since(Occur(e, c, o), m), Occur(e, Since(c, m), o))
  {
    match o
    case Service(move) =>
      SinceServed(e, c, move, m);
      LateCommutes(e, c.world, move, m);
    case Returned(_, _) =>
    case Broker(h) =>
      if h.CommitLands? && h.partition < PARTITIONS {
        SinceLanding(c, h.partition, m);
      }
    case Restarts(group) =>
      SinceDrops(c, Within(c.world.log, group), m);
  }

  lemma SinceLanding(c: Cluster, p: nat, m: Miss)
    requires |c.cursors| == PARTITIONS && p < PARTITIONS
    ensures LandIn(Since(c, m), p) == Late(LandIn(c, p), m)
  {
    assert Landing(Since(c, m), p) == Landing(c, p);
  }

  lemma SinceDrops(c: Cluster, gone: set<nat>, m: Miss)
    requires m.msg !in gone
    ensures DropAll(Since(c, m).world, gone) == Late(DropAll(c.world, gone), m)
  {
    assert c.world.sending[m.msg := m.outcome] - gone == (c.world.sending - gone)[m.msg := m.outcome];
  }

  /** A cluster awaits a late transaction until it comes. */
  lemma AwaitsStaysIn(e: Engine, c: Cluster, o: Occurrence, m: Miss)
    requires Happens(e, Some(c), o) && Awaits(c.world, m) && BesideIn(e, c, o, m)
    ensures Awaits(Occur(e, c, o).world, m)
  {
    match o
    case Service(move) => AwaitsStays(e, c.world, move, m);
    case _ =>
  }

  /** One occurrence on, and late still. */
  lemma SinceStep(e: Engine, c: Cluster, late: Cluster, o: Occurrence, m: Miss)
    requires Happens(e, Some(c), o) && Awaits(c.world, m) && BesideIn(e, c, o, m) && AlikeIn(Since(c, m), late)
    ensures Happens(e, Some(late), o) && AlikeIn(Since(Occur(e, c, o), m), Occur(e, late, o))
  {
    SinceHappens(e, c, o, m);
    SinceCommutes(e, c, o, m);
    AlikeOccur(e, Since(c, m), late, o);
    AlikeTrans(Since(Occur(e, c, o), m), Occur(e, Since(c, m), o), Occur(e, late, o));
  }

  lemma AlikeTrans(a: Cluster, b: Cluster, c: Cluster)
    requires AlikeIn(a, b) && AlikeIn(b, c)
    ensures AlikeIn(a, c)
  {
  }

  // ------------------------------------------------------------ putting it back

  /** The cluster in which the transaction could have run. */
  predicate RipeIn(e: Engine, c: Cluster, m: Miss)
  {
    Happens(e, Some(c), Service(Transacts(m.msg))) && Ripe(e, c.world, m)
  }

  lemma RipeOccurs(e: Engine, c: Cluster, m: Miss)
    requires RipeIn(e, c, m)
    ensures AlikeIn(Since(c, m), Occur(e, c, Service(Transacts(m.msg))))
  {
    RipeRuns(e, c.world, m);
  }

  /** It can be put into the diary at the time of its read: it could have run there, and all that came
   *  later is beside it. */
  predicate Enterable(e: Engine, t0: Tables, diary: Diary, m: Miss)
  {
    if diary == [] || diary[|diary| - 1].at < m.at then
      Told(e, t0, diary).Some? && RipeIn(e, Told(e, t0, diary).value, m)
    else
      var init, last := diary[..|diary| - 1], diary[|diary| - 1];
      && Enterable(e, t0, init, m) && last.at > m.at
      && Happens(e, Told(e, t0, init), last.what) && BesideIn(e, Told(e, t0, init).value, last.what, m)
  }

  /** What happens now, beside it, comes after it. */
  lemma EnterableMore(e: Engine, t0: Tables, diary: Diary, x: Timed<Occurrence>, m: Miss)
    requires Enterable(e, t0, diary, m) && x.at > m.at
    requires Happens(e, Told(e, t0, diary), x.what) && BesideIn(e, Told(e, t0, diary).value, x.what, m)
    ensures Enterable(e, t0, diary + [x], m)
  {
    assert (diary + [x])[..|diary|] == diary;
  }

  lemma ToldLast(e: Engine, t0: Tables, diary: Diary)
    requires diary != [] && Happens(e, Told(e, t0, diary[..|diary| - 1]), diary[|diary| - 1].what)
    ensures Told(e, t0, diary) == Some(Occur(e, Told(e, t0, diary[..|diary| - 1]).value, diary[|diary| - 1].what))
  {
    ToldSnoc(e, t0, diary[..|diary| - 1], diary[|diary| - 1]);
    assert diary == diary[..|diary| - 1] + [diary[|diary| - 1]];
  }

  /** All that came after the read leaves the cluster waiting. */
  lemma {:induction false} AwaitsAfterIn(e: Engine, t0: Tables, diary: Diary, m: Miss)
    requires Enterable(e, t0, diary, m)
    ensures Told(e, t0, diary).Some? && Awaits(Told(e, t0, diary).value.world, m)
  {
    if diary != [] && diary[|diary| - 1].at >= m.at {
      AwaitsAfterIn(e, t0, diary[..|diary| - 1], m);
      AwaitsStaysIn(e, Told(e, t0, diary[..|diary| - 1]).value, diary[|diary| - 1].what, m);
      ToldLast(e, t0, diary);
    }
  }

  /** The second diary tells what the late transaction makes of the first. */
  predicate Entered(e: Engine, t0: Tables, diary: Diary, put: Diary, m: Miss)
  {
    var now, late := Told(e, t0, diary), Told(e, t0, put);
    now.Some? && late.Some? && AlikeIn(Since(now.value, m), late.value)
  }

  function Entry(m: Miss): Timed<Occurrence>
  {
    Timed(m.at, Service(Transacts(m.msg)))
  }

  lemma EnterLast(e: Engine, t0: Tables, diary: Diary, m: Miss)
    requires Told(e, t0, diary).Some? && RipeIn(e, Told(e, t0, diary).value, m)
    ensures Entered(e, t0, diary, diary + [Entry(m)], m)
  {
    ToldSnoc(e, t0, diary, Entry(m));
    RipeOccurs(e, Told(e, t0, diary).value, m);
  }

  lemma EnterBefore(e: Engine, t0: Tables, init: Diary, put: Diary, last: Timed<Occurrence>, m: Miss)
    requires Entered(e, t0, init, put, m) && Happens(e, Told(e, t0, init), last.what)
    requires Awaits(Told(e, t0, init).value.world, m) && BesideIn(e, Told(e, t0, init).value, last.what, m)
    ensures Entered(e, t0, init + [last], put + [last], m)
  {
    SinceStep(e, Told(e, t0, init).value, Told(e, t0, put).value, last.what, m);
    ToldSnoc(e, t0, init, last);
    ToldSnoc(e, t0, put, last);
  }

  /** A transaction that could have run at its read can be put there: the story still goes, and to the
   *  cluster that the transaction leaves when it commits at the end. */
  lemma {:induction false} EnterWorks(e: Engine, t0: Tables, diary: Diary, m: Miss)
    requires Enterable(e, t0, diary, m)
    ensures Entered(e, t0, diary, Put(diary, Entry(m)), m)
  {
    if diary == [] || diary[|diary| - 1].at < m.at {
      EnterLast(e, t0, diary, m);
    } else {
      var init, last := diary[..|diary| - 1], diary[|diary| - 1];
      EnterWorks(e, t0, init, m);
      AwaitsAfterIn(e, t0, init, m);
      EnterBefore(e, t0, init, Put(init, Entry(m)), last, m);
      assert diary == init + [last];
    }
  }

  // ------------------------------------------------------------ two of them

  /** A late transaction leaves another, clear of it, as ripe as it was. */
  lemma StillRipeIn(e: Engine, c: Cluster, late: Cluster, m: Miss, other: Miss)
    requires RipeIn(e, c, other) && Awaits(c.world, m) && Clear(m, other) && AlikeIn(Since(c, m), late)
    ensures RipeIn(e, late, other)
  {
    ClearBeside(e, c.world, m, other);
    SinceHappens(e, c, Service(Transacts(other.msg)), m);
    AlikeOccur(e, Since(c, m), late, Service(Transacts(other.msg)));
    StillRipe(e, c.world, late.world, m, other);
  }

  /** What is beside a transaction is so after another late one too. */
  lemma StillBesideIn(e: Engine, c: Cluster, late: Cluster, o: Occurrence, m: Miss, other: Miss)
    requires Happens(e, Some(c), o) && Awaits(c.world, m) && BesideIn(e, c, o, m) && BesideIn(e, c, o, other)
    requires AlikeIn(Since(c, m), late)
    ensures BesideIn(e, late, o, other)
  {
    match o
    case Service(move) => StillBeside(e, c.world, late.world, move, m, other);
    case _ =>
  }

  /** Putting one back at the end of the diary. */
  lemma OtherAtEndIn(e: Engine, t0: Tables, diary: Diary, m: Miss, other: Miss)
    requires Told(e, t0, diary).Some? && RipeIn(e, Told(e, t0, diary).value, m) && Past(diary, m.at)
    requires Enterable(e, t0, diary, other) && Paired(m, other)
    ensures Enterable(e, t0, diary + [Entry(m)], other)
  {
    var c := Told(e, t0, diary).value;
    assert (diary + [Entry(m)])[..|diary|] == diary;
    if m.at < other.at {
      EnterLast(e, t0, diary, m);
      StillRipeIn(e, c, Told(e, t0, diary + [Entry(m)]).value, m, other);
    } else {
      ClearBeside(e, c.world, other, m);
    }
  }

  /** Another one that read after the whole diary. */
  lemma OtherRipeIn(e: Engine, t0: Tables, diary: Diary, put: Diary, m: Miss, other: Miss)
    requires Entered(e, t0, diary, put, m) && Awaits(Told(e, t0, diary).value.world, m)
    requires RipeIn(e, Told(e, t0, diary).value, other) && Clear(m, other) && Past(put, other.at)
    ensures Enterable(e, t0, put, other)
  {
    StillRipeIn(e, Told(e, t0, diary).value, Told(e, t0, put).value, m, other);
  }

  /** Another one that read before the last occurrence. */
  lemma OtherBeforeIn(e: Engine, t0: Tables, init: Diary, put: Diary, last: Timed<Occurrence>, m: Miss, other: Miss)
    requires Entered(e, t0, init, put, m) && Awaits(Told(e, t0, init).value.world, m)
    requires Happens(e, Told(e, t0, init), last.what) && BesideIn(e, Told(e, t0, init).value, last.what, m)
    requires BesideIn(e, Told(e, t0, init).value, last.what, other)
    requires Enterable(e, t0, put, other) && last.at > other.at
    ensures Enterable(e, t0, put + [last], other)
  {
    SinceStep(e, Told(e, t0, init).value, Told(e, t0, put).value, last.what, m);
    StillBesideIn(e, Told(e, t0, init).value, Told(e, t0, put).value, last.what, m, other);
    EnterableMore(e, t0, put, last, other);
  }

  /** When one has been put back, another that could be put back still can. */
  lemma {:induction false} OtherEnterable(e: Engine, t0: Tables, diary: Diary, m: Miss, other: Miss)
    requires Enterable(e, t0, diary, m) && Enterable(e, t0, diary, other) && Paired(m, other)
    ensures Enterable(e, t0, Put(diary, Entry(m)), other)
  {
    if diary == [] || diary[|diary| - 1].at < m.at {
      OtherAtEndIn(e, t0, diary, m, other);
    } else {
      var init, last := diary[..|diary| - 1], diary[|diary| - 1];
      EnterWorks(e, t0, init, m);
      AwaitsAfterIn(e, t0, init, m);
      if last.at < other.at {
        EnterWorks(e, t0, diary, m);
        AwaitsAfterIn(e, t0, diary, m);
        OtherRipeIn(e, t0, diary, Put(diary, Entry(m)), m, other);
      } else {
        OtherEnterable(e, t0, init, m, other);
        OtherBeforeIn(e, t0, init, Put(init, Entry(m)), last, m, other);
      }
    }
  }
}
