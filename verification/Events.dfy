/** Saga events and the topic partitions they are published to. */
module Events {
  import opened Domain

  datatype Payload =
    | OrderCreated(user: UserId, symbol: string, side: Side, quantity: Quantity)
    | PriceQuoted(symbol: string, price: int)
    | OrderExecuted(user: UserId, symbol: string, side: Side, quantity: Quantity, price: int)
    | OrderRejected(reason: RejectionReason, detail: Detail)

  /** An event: its dedupe key, the order it concerns, and what it says. */
  datatype Envelope = Envelope(event: EventId, order: OrderId, payload: Payload)

  datatype Topic = CreatedTopic | QuotedTopic | ExecutedTopic | RejectedTopic

  function TopicOf(p: Payload): Topic
  {
    match p
    case OrderCreated(_, _, _, _) => CreatedTopic
    case PriceQuoted(_, _) => QuotedTopic
    case OrderExecuted(_, _, _, _, _) => ExecutedTopic
    case OrderRejected(_, _) => RejectedTopic
  }

  function TopicIndex(t: Topic): nat
  {
    match t case CreatedTopic => 0 case QuotedTopic => 1 case ExecutedTopic => 2 case RejectedTopic => 3
  }

  const PARTITIONS_PER_TOPIC := 3
  const PARTITIONS := 12

  /** The partition of a key: a fixed function of topic and order, whatever hash computes it. */
  function PartitionFor(t: Topic, order: OrderId): (p: nat)
    ensures p < PARTITIONS
  {
    PARTITIONS_PER_TOPIC * TopicIndex(t) + order % PARTITIONS_PER_TOPIC
  }

  function PartitionOf(e: Envelope): (p: nat)
    ensures p < PARTITIONS
  {
    PartitionFor(TopicOf(e.payload), e.order)
  }

  /** The logs of all partitions, by partition number. */
  type Logs = logs: seq<seq<Envelope>> | |logs| == PARTITIONS witness EMPTY_LOGS

  const EMPTY_LOGS: seq<seq<Envelope>> := [[], [], [], [], [], [], [], [], [], [], [], []]

  function Appended(logs: Logs, e: Envelope): Logs
  {
    logs[PartitionOf(e) := logs[PartitionOf(e)] + [e]]
  }

  /** Every event lies in the partition of its key. */
  predicate Keyed(logs: Logs)
  {
    forall p, i :: 0 <= p < PARTITIONS && 0 <= i < |logs[p]| ==> PartitionOf(logs[p][i]) == p
  }

  /** No two events share an id. */
  predicate UniqueIds(logs: Logs)
  {
    forall p, i, q, j ::
      (0 <= p < PARTITIONS && 0 <= i < |logs[p]| && 0 <= q < PARTITIONS && 0 <= j < |logs[q]| &&
       logs[p][i].event == logs[q][j].event) ==> p == q && i == j
  }

  predicate FreshId(logs: Logs, event: EventId)
  {
    forall p, i :: 0 <= p < PARTITIONS && 0 <= i < |logs[p]| ==> logs[p][i].event != event
  }

  /** Publishing a fresh event keeps partitions keyed and ids unique. */
  lemma AppendKeepsLogs(logs: Logs, e: Envelope)
    requires Keyed(logs) && UniqueIds(logs) && FreshId(logs, e.event)
    ensures Keyed(Appended(logs, e)) && UniqueIds(Appended(logs, e))
  {
  }
}
