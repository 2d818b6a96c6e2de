/** The Audit Service: a deduplicating log fed from every partition, and its per-order view. */
module Audit {
  import opened Domain
  import opened Events
  import opened Kafka

  /** A row of `audit_events`; rows are listed by their serial id, which is their position here. */
  datatype AuditRow = AuditRow(event: EventId, order: OrderId, kind: string, payload: Payload)

  function LabelOf(t: Topic): string
  {
    match t
    case CreatedTopic => "ORDER_CREATED"
    case QuotedTopic => "PRICE_QUOTED"
    case ExecutedTopic => "ORDER_EXECUTED"
    case RejectedTopic => "ORDER_REJECTED"
  }

  function RowOf(e: Envelope): AuditRow
  {
    AuditRow(e.event, e.order, LabelOf(TopicOf(e.payload)), e.payload)
  }

  // ------------------------------------------------------------ the log

  predicate Knows(audit: seq<Envelope>, event: EventId)
  {
    exists i :: 0 <= i < |audit| && audit[i].event == event
  }

  /** INSERT ... ON CONFLICT (event_id) DO NOTHING. */
  function Recorded(audit: seq<Envelope>, e: Envelope): seq<Envelope>
  {
    if Knows(audit, e.event) then audit else audit + [e]
  }

  /** What a log ends up holding after a stream of events. */
  function Dedup(stream: seq<Envelope>): seq<Envelope>
  {
    if stream == [] then [] else Recorded(Dedup(stream[..|stream| - 1]), stream[|stream| - 1])
  }

  datatype Selector = InPartition(partition: nat) | OfOrder(order: OrderId) | OfTopicAndOrder(topic: Topic, key: OrderId)

  predicate Selects(sel: Selector, e: Envelope)
  {
    match sel
    case InPartition(p) => PartitionOf(e) == p
    case OfOrder(o) => e.order == o
    case OfTopicAndOrder(t, o) => TopicOf(e.payload) == t && e.order == o
  }

  function Select(s: seq<Envelope>, sel: Selector): seq<Envelope>
  {
    if s == [] then []
    else if Selects(sel, s[|s| - 1]) then Select(s[..|s| - 1], sel) + [s[|s| - 1]]
    else Select(s[..|s| - 1], sel)
  }

  lemma SelectSnoc(s: seq<Envelope>, e: Envelope, sel: Selector)
    ensures Select(s + [e], sel) == if Selects(sel, e) then Select(s, sel) + [e] else Select(s, sel)
  {
    assert (s + [e])[..|s|] == s;
  }

  lemma {:induction false} SelectMembers(s: seq<Envelope>, sel: Selector)
    ensures forall e :: e in Select(s, sel) <==> e in s && Selects(sel, e)
  {
    if s != [] {
      SelectMembers(s[..|s| - 1], sel);
      assert s == s[..|s| - 1] + [s[|s| - 1]];
    }
  }

  lemma {:induction false} DedupMembers(stream: seq<Envelope>)
    ensures forall e :: e in Dedup(stream) ==> e in stream
    ensures forall e :: e in stream ==> Knows(Dedup(stream), e.event)
  {
    if stream != [] {
      var init, last := stream[..|stream| - 1], stream[|stream| - 1];
      DedupMembers(init);
      assert stream == init + [last];
      var d := Dedup(init);
      forall e | e in stream
        ensures Knows(Dedup(stream), e.event)
      {
        if e in init {
          var i :| 0 <= i < |d| && d[i].event == e.event;
          assert Recorded(d, last)[i] == d[i];
        } else if !Knows(d, last.event) {
          assert Dedup(stream)[|d|] == last;
        }
      }
    }
  }

  /** Events that carry one id are one event. */
  predicate OneEventPerId(stream: seq<Envelope>)
  {
    forall i, j :: 0 <= i < |stream| && 0 <= j < |stream| && stream[i].event == stream[j].event ==> stream[i] == stream[j]
  }

  /** Listing an order in the deduplicated log is deduplicating that order's own stream. */
  lemma {:induction false} ListingCommutes(stream: seq<Envelope>, o: OrderId)
    requires OneEventPerId(stream)
    ensures Select(Dedup(stream), OfOrder(o)) == Dedup(Select(stream, OfOrder(o)))
  {
    if stream != [] {
      var init, last, sel := stream[..|stream| - 1], stream[|stream| - 1], OfOrder(o);
      ListingCommutes(init, o);
      var d := Dedup(init);
      DedupMembers(init);
      SelectSnoc(init, last, sel);
      assert stream == init + [last];
      if last.order == o {
        KnownInListing(init, last, stream, o);
        var own := Select(init, sel);
        assert (own + [last])[..|own|] == own;
      }
      if !Knows(d, last.event) {
        SelectSnoc(d, last, sel);
      }
    }
  }

  lemma KnownInListing(init: seq<Envelope>, last: Envelope, stream: seq<Envelope>, o: OrderId)
    requires stream == init + [last] && OneEventPerId(stream) && last.order == o
    ensures Knows(Dedup(init), last.event) <==> Knows(Select(Dedup(init), OfOrder(o)), last.event)
  {
    var d, listing := Dedup(init), Select(Dedup(init), OfOrder(o));
    DedupMembers(init);
    SelectMembers(d, OfOrder(o));
    if Knows(d, last.event) {
      var i :| 0 <= i < |d| && d[i].event == last.event;
      assert d[i] in init;
      var j :| 0 <= j < |init| && init[j] == d[i];
      assert stream[j] == stream[|init|];
      assert d[i] in listing;
    }
    if Knows(listing, last.event) {
      var i :| 0 <= i < |listing| && listing[i].event == last.event;
      assert listing[i] in d;
    }
  }

  // ------------------------------------------------------------ the consuming service

  /** The partitions of all topics, where the audit group stands on each, and its log. */
  datatype Service = Service(logs: Logs, cursors: seq<Cursor>, audit: seq<Envelope>)

  datatype Event =
    | Publish(envelope: Envelope)
    | Consume(partition: nat)       // receive, record, and queue the commit
    | Fail(partition: nat)          // receive, and fail to decode or to record
    | Broker(happening: Happening)  // commits landing or lost, receive errors, restarts

  predicate CanHappen(s: Service, e: Event)
    requires |s.cursors| == PARTITIONS
  {
    match e
    case Publish(envelope) => FreshId(s.logs, envelope.event)
    case Consume(p) => p < PARTITIONS && s.cursors[p].position < |s.logs[p]|
    case Fail(p) => p < PARTITIONS && s.cursors[p].position < |s.logs[p]|
    case Broker(h) => !h.Received?
  }

  function AllStep(cursors: seq<Cursor>, h: Happening): seq<Cursor>
  {
    seq(|cursors|, p requires 0 <= p < |cursors| => Step(cursors[p], p, h))
  }

  function Happen(s: Service, e: Event): Service
    requires |s.cursors| == PARTITIONS && CanHappen(s, e)
  {
    match e
    case Publish(envelope) => s.(logs := Appended(s.logs, envelope))
    case Consume(p) =>
      s.(cursors := s.cursors[p := Receive(s.cursors[p], true)],
         audit := Recorded(s.audit, s.logs[p][s.cursors[p].position]))
    case Fail(p) => s.(cursors := s.cursors[p := Receive(s.cursors[p], false)])
    case Broker(h) => s.(cursors := AllStep(s.cursors, h))
  }

  function Opening(): Service
  {
    Service(EMPTY_LOGS, seq(PARTITIONS, _ => FRESH), [])
  }

  function Lived(s: Service, events: seq<Event>): Option<Service>
  {
    if events == [] then Some(s)
    else
      var before, e := Lived(s, events[..|events| - 1]), events[|events| - 1];
      if before.Some? && |before.value.cursors| == PARTITIONS && CanHappen(before.value, e) then Some(Happen(before.value, e))
      else None
  }

  /** The log holds an event of the partition exactly when its handler has returned Ok. */
  predicate Tallies(s: Service, p: nat)
    requires |s.cursors| == PARTITIONS && p < PARTITIONS
  {
    && CursorOk(s.cursors[p]) && s.cursors[p].seen <= |s.logs[p]|
    && (forall o :: 0 <= o < |s.logs[p]| ==> (s.logs[p][o] in s.audit <==> o in s.cursors[p].ok))
  }

  /** Each event at most once, and only published ones. */
  predicate Genuine(s: Service)
  {
    && (forall e <- s.audit :: e in s.logs[PartitionOf(e)])
    && (forall i, j :: 0 <= i < j < |s.audit| ==> s.audit[i].event != s.audit[j].event)
  }

  predicate ServiceOk(s: Service)
  {
    && |s.cursors| == PARTITIONS && Keyed(s.logs) && UniqueIds(s.logs) && Genuine(s)
    && (forall p :: 0 <= p < PARTITIONS ==> Tallies(s, p))
  }

  lemma OpeningOk()
    ensures ServiceOk(Opening())
  {
  }

  /** The log knows the id of a published event exactly when it holds the event. */
  lemma KnownIsHeld(s: Service, e: Envelope)
    requires Genuine(s) && UniqueIds(s.logs) && e in s.logs[PartitionOf(e)]
    ensures Knows(s.audit, e.event) <==> e in s.audit
  {
    if Knows(s.audit, e.event) {
      var i :| 0 <= i < |s.audit| && s.audit[i].event == e.event;
      var other := s.audit[i];
      var j :| 0 <= j < |s.logs[PartitionOf(e)]| && s.logs[PartitionOf(e)][j] == e;
      var k :| 0 <= k < |s.logs[PartitionOf(other)]| && s.logs[PartitionOf(other)][k] == other;
    }
    if e in s.audit {
      var i :| 0 <= i < |s.audit| && s.audit[i] == e;
    }
  }

  /** Two places of published events are one if their events are. */
  lemma OnePlace(logs: Logs, p: nat, i: nat, q: nat, j: nat)
    requires UniqueIds(logs) && p < PARTITIONS && q < PARTITIONS && i < |logs[p]| && j < |logs[q]| && logs[p][i] == logs[q][j]
    ensures p == q && i == j
  {
  }

  lemma ConsumeKeepsTallies(s: Service, p: nat, q: nat)
    requires ServiceOk(s) && CanHappen(s, Consume(p)) && q < PARTITIONS
    ensures |Happen(s, Consume(p)).cursors| == PARTITIONS && Tallies(Happen(s, Consume(p)), q)
  {
    var s', c := Happen(s, Consume(p)), s.cursors[p];
    var e := s.logs[p][c.position];
    assert Tallies(s, q) && Tallies(s, p);
    ReceiveKeepsOk(c, true);
    KnownIsHeld(s, e);
    forall o | 0 <= o < |s.logs[q]|
      ensures s.logs[q][o] in s'.audit <==> o in s'.cursors[q].ok
    {
      if s.logs[q][o] == e {
        OnePlace(s.logs, q, o, p, c.position);
      }
    }
  }

  lemma ConsumeKeepsOk(s: Service, p: nat)
    requires ServiceOk(s) && CanHappen(s, Consume(p))
    ensures ServiceOk(Happen(s, Consume(p)))
  {
    var s', e := Happen(s, Consume(p)), s.logs[p][s.cursors[p].position];
    assert PartitionOf(e) == p;
    assert forall x <- s'.audit :: x in s.audit || x == e;
    forall q | 0 <= q < PARTITIONS
      ensures Tallies(s', q)
    {
      ConsumeKeepsTallies(s, p, q);
    }
  }

  lemma FailKeepsOk(s: Service, p: nat)
    requires ServiceOk(s) && CanHappen(s, Fail(p))
    ensures ServiceOk(Happen(s, Fail(p)))
  {
    assert Tallies(s, p);
    ReceiveKeepsOk(s.cursors[p], false);
    forall q | 0 <= q < PARTITIONS
      ensures Tallies(Happen(s, Fail(p)), q)
    {
      assert Tallies(s, q);
    }
  }

  lemma BrokerKeepsOk(s: Service, h: Happening)
    requires ServiceOk(s) && !h.Received?
    ensures ServiceOk(Happen(s, Broker(h)))
  {
    forall p | 0 <= p < PARTITIONS
      ensures Tallies(Happen(s, Broker(h)), p)
    {
      assert Tallies(s, p);
      StepKeepsOk(s.cursors[p], p, h);
    }
  }

  lemma FreshIsUnrecorded(s: Service, e: Envelope)
    requires Genuine(s) && FreshId(s.logs, e.event)
    ensures e !in s.audit
  {
    forall x | x in s.audit
      ensures x != e
    {
      var j :| 0 <= j < |s.logs[PartitionOf(x)]| && s.logs[PartitionOf(x)][j] == x;
    }
  }

  lemma PublishKeepsOk(s: Service, e: Envelope)
    requires ServiceOk(s) && FreshId(s.logs, e.event)
    ensures ServiceOk(Happen(s, Publish(e)))
  {
    AppendKeepsLogs(s.logs, e);
    FreshIsUnrecorded(s, e);
    var s' := Happen(s, Publish(e));
    forall p | 0 <= p < PARTITIONS
      ensures Tallies(s', p)
    {
      assert Tallies(s, p);
    }
  }

  lemma HappenKeepsOk(s: Service, e: Event)
    requires ServiceOk(s) && CanHappen(s, e)
    ensures ServiceOk(Happen(s, e))
  {
    match e
    case Publish(envelope) => PublishKeepsOk(s, envelope);
    case Consume(p) => ConsumeKeepsOk(s, p);
    case Fail(p) => FailKeepsOk(s, p);
    case Broker(h) => BrokerKeepsOk(s, h);
  }

  lemma {:induction false} LivedOk(events: seq<Event>)
    requires Lived(Opening(), events).Some?
    ensures ServiceOk(Lived(Opening(), events).value)
  {
    if events == [] {
      OpeningOk();
    } else {
      LivedOk(events[..|events| - 1]);
      HappenKeepsOk(Lived(Opening(), events[..|events| - 1]).value, events[|events| - 1]);
    }
  }

  /** After any publishing, consuming, failures, lost commits, restarts and replays, an event is in the log
   *  exactly when its handler has returned Ok for its offset, and then once. */
  lemma RecordedExactly(events: seq<Event>, p: nat, offset: nat)
    requires Lived(Opening(), events).Some? && p < PARTITIONS
    ensures var s := Lived(Opening(), events).value;
            && |s.cursors| == PARTITIONS
            && (offset < |s.logs[p]| ==> (s.logs[p][offset] in s.audit <==> offset in s.cursors[p].ok))
            && (forall i, j :: 0 <= i < j < |s.audit| ==> s.audit[i].event != s.audit[j].event)
            && (forall e <- s.audit :: e in s.logs[PartitionOf(e)])
  {
    LivedOk(events);
    assert Tallies(Lived(Opening(), events).value, p);
  }

  // ------------------------------------------------------------ when the log mirrors a partition

  predicate ShowsPrefix(s: Service, p: nat)
    requires p < PARTITIONS
  {
    Select(s.audit, InPartition(p)) <= s.logs[p]
  }

  /** The handler is about to record an event though an earlier one is not recorded. */
  predicate Skips(s: Service, e: Event, p: nat)
    requires |s.cursors| == PARTITIONS && p < PARTITIONS
  {
    && e == Consume(p) && s.cursors[p].position !in s.cursors[p].ok
    && exists o :: 0 <= o < s.cursors[p].position && o !in s.cursors[p].ok
  }

  predicate NeverSkips(events: seq<Event>, p: nat)
    requires p < PARTITIONS
  {
    events != [] ==>
      var before := Lived(Opening(), events[..|events| - 1]);
      && NeverSkips(events[..|events| - 1], p)
      && (before.Some? && |before.value.cursors| == PARTITIONS ==> !Skips(before.value, events[|events| - 1], p))
  }

  /** A log that shows a prefix shows exactly the offsets handled with Ok. */
  lemma PrefixIsOk(s: Service, p: nat)
    requires ServiceOk(s) && p < PARTITIONS && ShowsPrefix(s, p)
    ensures forall o :: o in s.cursors[p].ok <==> 0 <= o < |Select(s.audit, InPartition(p))|
  {
    var shown := Select(s.audit, InPartition(p));
    assert Tallies(s, p);
    SelectMembers(s.audit, InPartition(p));
    forall o: nat
      ensures o in s.cursors[p].ok <==> o < |shown|
    {
      if o < |shown| {
        assert s.logs[p][o] == shown[o] && shown[o] in shown;
      }
      if o in s.cursors[p].ok {
        assert s.logs[p][o] in shown;
        var j :| 0 <= j < |shown| && shown[j] == s.logs[p][o];
        OnePlace(s.logs, p, j, p, o);
      }
    }
  }

  lemma ConsumeShows(s: Service, p: nat)
    requires ServiceOk(s) && CanHappen(s, Consume(p))
    ensures ShowsPrefix(Happen(s, Consume(p)), p) <==> ShowsPrefix(s, p) && !Skips(s, Consume(p), p)
  {
    var c, shown := s.cursors[p], Select(s.audit, InPartition(p));
    var e := s.logs[p][c.position];
    assert Tallies(s, p) && PartitionOf(e) == p;
    KnownIsHeld(s, e);
    if c.position !in c.ok {
      SelectSnoc(s.audit, e, InPartition(p));
      if ShowsPrefix(s, p) {
        PrefixIsOk(s, p);
        NextShows(s.logs, p, shown, c.position);
      }
    }
  }

  /** A prefix grows to a prefix by the next event only. */
  lemma NextShows(logs: Logs, p: nat, shown: seq<Envelope>, offset: nat)
    requires UniqueIds(logs) && p < PARTITIONS && shown <= logs[p] && |shown| <= offset < |logs[p]|
    ensures shown + [logs[p][offset]] <= logs[p] <==> offset == |shown|
  {
    if shown + [logs[p][offset]] <= logs[p] {
      assert (shown + [logs[p][offset]])[|shown|] == logs[p][|shown|];
      OnePlace(logs, p, offset, p, |shown|);
    }
  }

  /** No other event changes whether the log shows a prefix. */
  lemma OtherShows(s: Service, e: Event, p: nat)
    requires ServiceOk(s) && CanHappen(s, e) && p < PARTITIONS && e != Consume(p)
    ensures ShowsPrefix(Happen(s, e), p) <==> ShowsPrefix(s, p)
  {
    match e
    case Consume(q) => SelectSnoc(s.audit, s.logs[q][s.cursors[q].position], InPartition(p));
    case Publish(envelope) => PublishShows(s, envelope, p);
    case _ =>
  }

  lemma PublishShows(s: Service, e: Envelope, p: nat)
    requires ServiceOk(s) && CanHappen(s, Publish(e)) && p < PARTITIONS
    ensures ShowsPrefix(Happen(s, Publish(e)), p) <==> ShowsPrefix(s, p)
  {
    FreshIsUnrecorded(s, e);
    SelectMembers(s.audit, InPartition(p));
    if p == PartitionOf(e) {
      PrefixWithout(Select(s.audit, InPartition(p)), s.logs[p], e);
    }
  }

  lemma LastIsHeld(shown: seq<Envelope>, log: seq<Envelope>, e: Envelope)
    requires shown <= log + [e]
    ensures |shown| > |log| ==> e in shown
  {
    if |shown| > |log| {
      assert shown[|log|] == e;
    }
  }

  lemma PrefixWithout(shown: seq<Envelope>, log: seq<Envelope>, e: Envelope)
    requires e !in shown
    ensures shown <= log + [e] <==> shown <= log
  {
    if shown <= log + [e] {
      LastIsHeld(shown, log, e);
    }
  }

  /** Over all runs the log restricted to a partition is a prefix of it, in order, if and only if nothing
   *  was ever recorded past an offset not yet recorded. */
  lemma {:induction false} PrefixExactly(events: seq<Event>, p: nat)
    requires Lived(Opening(), events).Some? && p < PARTITIONS
    ensures ShowsPrefix(Lived(Opening(), events).value, p) <==> NeverSkips(events, p)
  {
    if events != [] {
      var init, e := events[..|events| - 1], events[|events| - 1];
      var s := Lived(Opening(), init).value;
      PrefixExactly(init, p);
      LivedOk(init);
      if e == Consume(p) {
        ConsumeShows(s, p);
      } else {
        OtherShows(s, e, p);
      }
    }
  }

  lemma LivedSnoc(events: seq<Event>, e: Event)
    requires Lived(Opening(), events).Some?
    ensures var s := Lived(Opening(), events).value;
            |s.cursors| == PARTITIONS && CanHappen(s, e) ==> Lived(Opening(), events + [e]) == Some(Happen(s, e))
  {
    assert (events + [e])[..|events|] == events;
  }

  /** Two events published to one partition, and nothing consumed. */
  lemma TwoPublished(a: Envelope, b: Envelope)
    requires PartitionOf(a) == PartitionOf(b) && a.event != b.event
    ensures var p, end := PartitionOf(a), Lived(Opening(), [Publish(a), Publish(b)]);
            && end.Some? && |end.value.cursors| == PARTITIONS && end.value.logs[p] == [a, b]
            && end.value.cursors[p] == FRESH && end.value.audit == []
  {
    LivedSnoc([], Publish(a));
    LivedSnoc([Publish(a)], Publish(b));
    assert [] + [Publish(a)] == [Publish(a)] && [Publish(a)] + [Publish(b)] == [Publish(a), Publish(b)];
  }

  /** One failure is enough: the event behind it is recorded, and the log shows no prefix. */
  lemma PrefixBroken(a: Envelope, b: Envelope)
    requires PartitionOf(a) == PartitionOf(b) && a.event != b.event
    ensures var p := PartitionOf(a);
            var end := Lived(Opening(), [Publish(a), Publish(b), Fail(p), Consume(p)]);
            && end.Some? && end.value.logs[p] == [a, b] && Select(end.value.audit, InPartition(p)) == [b]
            && !ShowsPrefix(end.value, p)
  {
    var p, two := PartitionOf(a), [Publish(a), Publish(b)];
    TwoPublished(a, b);
    LivedSnoc(two, Fail(p));
    LivedSnoc(two + [Fail(p)], Consume(p));
    assert two + [Fail(p)] + [Consume(p)] == [Publish(a), Publish(b), Fail(p), Consume(p)];
    assert [b][..0] == [];
  }

  /** Everything received has been handled with Ok. */
  ghost predicate Unfailed(c: Cursor)
  {
    c.position <= c.seen && forall o: nat :: o in c.ok <==> o < c.seen
  }

  lemma HappenUnfailed(s: Service, e: Event, p: nat)
    requires ServiceOk(s) && CanHappen(s, e) && p < PARTITIONS && e != Fail(p) && Unfailed(s.cursors[p])
    ensures |Happen(s, e).cursors| == PARTITIONS && Unfailed(Happen(s, e).cursors[p]) && !Skips(s, e, p)
  {
    assert Tallies(s, p);
  }

  lemma {:induction false} NoFailureNoSkip(events: seq<Event>, p: nat)
    requires Lived(Opening(), events).Some? && p < PARTITIONS && Fail(p) !in events
    ensures NeverSkips(events, p)
    ensures |Lived(Opening(), events).value.cursors| == PARTITIONS && Unfailed(Lived(Opening(), events).value.cursors[p])
  {
    if events != [] {
      var init := events[..|events| - 1];
      assert events == init + [events[|events| - 1]];
      NoFailureNoSkip(init, p);
      LivedOk(init);
      HappenUnfailed(Lived(Opening(), init).value, events[|events| - 1], p);
    }
  }

  /** With handlers succeeding on a partition, after any publishing, consuming, lost commits, restarts and
   *  replays, the log restricted to it is exactly a prefix of it, with each event once. */
  lemma PartitionPrefix(events: seq<Event>, p: nat)
    requires Lived(Opening(), events).Some? && p < PARTITIONS && Fail(p) !in events
    ensures var s := Lived(Opening(), events).value;
            && |s.cursors| == PARTITIONS && s.cursors[p].seen <= |s.logs[p]|
            && Select(s.audit, InPartition(p)) == s.logs[p][..s.cursors[p].seen]
            && (forall i, j :: 0 <= i < j < s.cursors[p].seen ==> s.logs[p][i].event != s.logs[p][j].event)
  {
    var s := Lived(Opening(), events).value;
    LivedOk(events);
    assert Tallies(s, p);
    NoFailureNoSkip(events, p);
    PrefixExactly(events, p);
    PrefixIsOk(s, p);
    var n := |Select(s.audit, InPartition(p))|;
    assert n == s.cursors[p].seen by {
      assert n in s.cursors[p].ok <==> n < n;
      assert s.cursors[p].seen in s.cursors[p].ok <==> s.cursors[p].seen < n;
    }
  }

  /** Selecting by topic and order can be done within the partition of that topic and order. */
  lemma {:induction false} SelectWithin(s: seq<Envelope>, t: Topic, o: OrderId)
    ensures Select(Select(s, InPartition(PartitionFor(t, o))), OfTopicAndOrder(t, o)) == Select(s, OfTopicAndOrder(t, o))
  {
    if s != [] {
      var init, last := s[..|s| - 1], s[|s| - 1];
      SelectWithin(init, t, o);
      assert Selects(OfTopicAndOrder(t, o), last) ==> Selects(InPartition(PartitionFor(t, o)), last);
      SelectSnoc(Select(init, InPartition(PartitionFor(t, o))), last, OfTopicAndOrder(t, o));
    }
  }

  lemma {:induction false} SelectListing(s: seq<Envelope>, t: Topic, o: OrderId)
    ensures Select(Select(s, OfOrder(o)), OfTopicAndOrder(t, o)) == Select(s, OfTopicAndOrder(t, o))
  {
    if s != [] {
      var init, last := s[..|s| - 1], s[|s| - 1];
      SelectListing(init, t, o);
      SelectSnoc(Select(init, OfOrder(o)), last, OfTopicAndOrder(t, o));
    }
  }

  /** Where nothing was recorded past an unrecorded offset, the listing of an order shows its events of one
   *  topic in the order they were published, each once, as far as they are recorded. */
  lemma ListingInTopicOrder(events: seq<Event>, t: Topic, o: OrderId)
    requires Lived(Opening(), events).Some? && NeverSkips(events, PartitionFor(t, o))
    ensures var s, p := Lived(Opening(), events).value, PartitionFor(t, o);
            var recorded := Select(s.audit, InPartition(p));
            && recorded <= s.logs[p]
            && Select(Select(s.audit, OfOrder(o)), OfTopicAndOrder(t, o)) == Select(recorded, OfTopicAndOrder(t, o))
  {
    PrefixExactly(events, PartitionFor(t, o));
    var s := Lived(Opening(), events).value;
    SelectWithin(s.audit, t, o);
    SelectListing(s.audit, t, o);
  }

  // ------------------------------------------------------------ the table

  function Rows(audit: seq<Envelope>): (rows: seq<AuditRow>)
    ensures |rows| == |audit| && forall i :: 0 <= i < |audit| ==> rows[i] == RowOf(audit[i])
  {
    seq(|audit|, i requires 0 <= i < |audit| => RowOf(audit[i]))
  }

  class AuditLog {
    var rows: seq<AuditRow>
    ghost var audit: seq<Envelope>

    ghost predicate Valid()
      reads this
    {
      rows == Rows(audit)
    }

    constructor ()
      ensures Valid() && audit == []
    {
      rows, audit := [], [];
    }

    /** Record an event unless its id is known; the answer says whether a row was inserted. */
    method Record(e: Envelope) returns (inserted: bool)
      requires Valid()
      modifies this
      ensures Valid() && audit == Recorded(old(audit), e)
      ensures inserted <==> forall i :: 0 <= i < |old(rows)| ==> old(rows)[i].event != e.event
      ensures !inserted ==> rows == old(rows)
      ensures inserted ==>
                var kind := match e.payload
                            case OrderCreated(_, _, _, _) => "ORDER_CREATED"
                            case PriceQuoted(_, _) => "PRICE_QUOTED"
                            case OrderExecuted(_, _, _, _, _) => "ORDER_EXECUTED"
                            case OrderRejected(_, _) => "ORDER_REJECTED";
                rows == old(rows) + [AuditRow(e.event, e.order, kind, e.payload)]
    {
      var row := AuditRow(e.event, e.order, LabelOf(TopicOf(e.payload)), e.payload);
      inserted := true;
      for i := 0 to |rows|
        invariant inserted <==> forall j :: 0 <= j < i ==> audit[j].event != e.event
      {
        if rows[i].event == e.event {
          inserted := false;
        }
      }
      if inserted {
        rows := rows + [row];
        audit := audit + [e];
      }
    }

    /** The rows of an order, in the order they were recorded. */
    method ListForOrder(order: OrderId) returns (listing: seq<AuditRow>)
      requires Valid()
      ensures listing == Rows(Select(audit, OfOrder(order)))
      ensures forall row :: row in listing <==> row in rows && row.order == order
    {
      listing := [];
      for i := 0 to |rows|
        invariant listing == Rows(Select(audit[..i], OfOrder(order)))
        invariant forall row :: row in listing <==> row in rows[..i] && row.order == order
      {
        assert audit[..i + 1] == audit[..i] + [audit[i]] && rows[..i + 1] == rows[..i] + [rows[i]];
        SelectSnoc(audit[..i], audit[i], OfOrder(order));
        if rows[i].order == order {
          listing := listing + [rows[i]];
        }
      }
      assert audit[..|rows|] == audit && rows[..|rows|] == rows;
    }
  }
}
