/** Retention: which envelopes survive (src/core/engine.ts:328-347, 1329-1348). */
module Retention {
  import opened Seqs
  import opened Types

  /** `Object.keys(state.messages)`, restricted to ids below `n`: minting order. */
  function IdsBelow(live: set<MessageId>, n: nat): (ids: seq<MessageId>)
    ensures forall id :: id in ids <==> id in live && id < n
    ensures Within(ids, n)
  {
    if n == 0 then []
    else
      var ids := IdsBelow(live, n - 1);
      if n - 1 in live then ids + [n - 1] else ids
  }

  lemma {:induction false} IdsBelowIncreasing(live: set<MessageId>, n: nat)
    ensures Increasing(IdsBelow(live, n))
  {
    if n > 0 {
      IdsBelowIncreasing(live, n - 1);
    }
  }

  ghost predicate ByTime(log: seq<Envelope>, ids: seq<MessageId>) {
    && Within(ids, |log|)
    && forall i, j :: 0 <= i < j < |ids| ==> log[ids[i]].timestamp <= log[ids[j]].timestamp
  }

  /** Insert `id` behind every id of `ids` that is not younger than it. */
  function InsertByTime(log: seq<Envelope>, ids: seq<MessageId>, id: MessageId): (r: seq<MessageId>)
    requires id < |log| && Within(ids, |log|)
    ensures |r| == |ids| + 1 && Within(r, |log|)
  {
    var last := |ids| - 1;
    if ids != [] && log[id].timestamp < log[ids[last]].timestamp then
      InsertByTime(log, ids[..last], id) + [ids[last]]
    else
      ids + [id]
  }

  /** JavaScript's stable sort of ids by their envelopes' timestamps. */
  function SortByTime(log: seq<Envelope>, ids: seq<MessageId>): (sorted: seq<MessageId>)
    requires Within(ids, |log|)
    ensures |sorted| == |ids| && Within(sorted, |log|)
  {
    if ids == [] then []
    else
      var last := |ids| - 1;
      InsertByTime(log, SortByTime(log, ids[..last]), ids[last])
  }

  lemma {:induction false} InsertAdds(log: seq<Envelope>, ids: seq<MessageId>, id: MessageId)
    requires id < |log| && Within(ids, |log|)
    ensures multiset(InsertByTime(log, ids, id)) == multiset(ids) + multiset{id}
  {
    var last := |ids| - 1;
    if ids != [] && log[id].timestamp < log[ids[last]].timestamp {
      InsertAdds(log, ids[..last], id);
      assert ids == ids[..last] + [ids[last]];
    }
  }

  ghost predicate NoneYounger(log: seq<Envelope>, ids: seq<MessageId>, bound: int) {
    Within(ids, |log|) && forall i :: 0 <= i < |ids| ==> log[ids[i]].timestamp <= bound
  }

  lemma NoneYoungerSnoc(log: seq<Envelope>, front: seq<MessageId>, last: MessageId, bound: int)
    requires NoneYounger(log, front, bound) && last < |log| && log[last].timestamp <= bound
    ensures NoneYounger(log, front + [last], bound)
  {
  }

  lemma ByTimeSnoc(log: seq<Envelope>, front: seq<MessageId>, last: MessageId)
    requires ByTime(log, front) && last < |log| && NoneYounger(log, front, log[last].timestamp)
    ensures ByTime(log, front + [last])
  {
  }

  lemma NoneYoungerFront(log: seq<Envelope>, ids: seq<MessageId>, k: nat, bound: int)
    requires NoneYounger(log, ids, bound) && k <= |ids|
    ensures NoneYounger(log, ids[..k], bound)
  {
  }

  lemma ByTimeFront(log: seq<Envelope>, ids: seq<MessageId>)
    requires ByTime(log, ids) && ids != []
    ensures var last := |ids| - 1;
            ByTime(log, ids[..last]) && NoneYounger(log, ids[..last], log[ids[last]].timestamp)
  {
  }

  /** Inserting into `ids` leaves nothing younger than `bound`. */
  lemma {:induction false} InsertBounded(log: seq<Envelope>, ids: seq<MessageId>, id: MessageId, bound: int)
    requires NoneYounger(log, ids, bound) && id < |log| && log[id].timestamp <= bound
    ensures NoneYounger(log, InsertByTime(log, ids, id), bound)
  {
    var last := |ids| - 1;
    if ids != [] && log[id].timestamp < log[ids[last]].timestamp {
      NoneYoungerFront(log, ids, last, bound);
      InsertBounded(log, ids[..last], id, bound);
      NoneYoungerSnoc(log, InsertByTime(log, ids[..last], id), ids[last], bound);
    } else {
      NoneYoungerSnoc(log, ids, id, bound);
    }
  }

  lemma {:induction false} InsertSorts(log: seq<Envelope>, ids: seq<MessageId>, id: MessageId)
    requires id < |log| && ByTime(log, ids)
    ensures ByTime(log, InsertByTime(log, ids, id))
  {
    var last := |ids| - 1;
    if ids == [] {
      assert ids + [id] == [id];
    } else if log[id].timestamp < log[ids[last]].timestamp {
      ByTimeFront(log, ids);
      InsertSorts(log, ids[..last], id);
      InsertBounded(log, ids[..last], id, log[ids[last]].timestamp);
      ByTimeSnoc(log, InsertByTime(log, ids[..last], id), ids[last]);
    } else {
      OldestFirst(log, ids, log[id].timestamp);
      ByTimeSnoc(log, ids, id);
    }
  }

  /** In an order by time the last is the youngest. */
  lemma OldestFirst(log: seq<Envelope>, ids: seq<MessageId>, bound: int)
    requires ByTime(log, ids) && ids != [] && log[ids[|ids| - 1]].timestamp <= bound
    ensures NoneYounger(log, ids, bound)
  {
  }

  /** The sort is a permutation, and by time. */
  lemma {:induction false} SortIsByTime(log: seq<Envelope>, ids: seq<MessageId>)
    requires Within(ids, |log|)
    ensures multiset(SortByTime(log, ids)) == multiset(ids) && ByTime(log, SortByTime(log, ids))
  {
    if ids != [] {
      var last := |ids| - 1;
      SortIsByTime(log, ids[..last]);
      InsertAdds(log, SortByTime(log, ids[..last]), ids[last]);
      InsertSorts(log, SortByTime(log, ids[..last]), ids[last]);
      assert ids == ids[..last] + [ids[last]];
    }
  }

  lemma SortKeepsMembers(log: seq<Envelope>, ids: seq<MessageId>)
    requires Within(ids, |log|)
    ensures forall x :: x in SortByTime(log, ids) <==> x in ids
  {
    SortIsByTime(log, ids);
    forall x
      ensures x in SortByTime(log, ids) <==> x in ids
    {
      assert x in SortByTime(log, ids) <==> x in multiset(SortByTime(log, ids));
      assert x in ids <==> x in multiset(ids);
    }
  }

  function LiveIds(s: State): seq<MessageId> {
    IdsBelow(s.live, |s.log|)
  }

  /** Drop envelopes together with their `delivered_to` rows and queue references. */
  function Forget(s: State, dead: set<MessageId>): State {
    s.(live := s.live - dead,
       deliveredTo := s.deliveredTo - dead,
       queues := map r | r in s.queues :: Without(s.queues[r], dead))
  }

  function Elements(q: seq<MessageId>): set<MessageId> {
    set id | id in q
  }

  /** The ids `pruneMessages` deletes: all but the newest MAX_PERSISTED_MESSAGES. */
  function Doomed(s: State): set<MessageId> {
    var ids := LiveIds(s);
    if |ids| <= MAX_PERSISTED_MESSAGES then {}
    else Elements(SortByTime(s.log, ids)[..|ids| - MAX_PERSISTED_MESSAGES])
  }

  function Prune(s: State): State {
    if |LiveIds(s)| <= MAX_PERSISTED_MESSAGES then s else Forget(s, Doomed(s))
  }

  function OfChannel(s: State, c: ChannelId): set<MessageId> {
    set id | id in s.live && id < |s.log| && s.log[id].channel == c
  }

  /** `commitSessionSave`, and the live branch of delete-session. */
  function Purge(s: State, c: ChannelId): State {
    Forget(s, OfChannel(s, c)).(channels := s.channels - {c})
  }

  /** `ArchiveStore.fromChannel`: the channel's envelopes by time, newest 2000 of them. */
  function Archive(s: State, c: ChannelId): seq<MessageId> {
    var sorted := SortByTime(s.log, IdsBelow(OfChannel(s, c), |s.log|));
    if |sorted| <= MAX_PERSISTED_MESSAGES then sorted else sorted[|sorted| - MAX_PERSISTED_MESSAGES..]
  }
}

/** Draining a queue and settling the drained batch (src/core/engine.ts:1106-1285). */
module Delivery {
  import opened Seqs
  import opened Types
  import opened Retention

  function FindMember(members: seq<Member>, r: Session): Option<Member> {
    if members == [] then None
    else if members[0].session == r then Some(members[0])
    else FindMember(members[1..], r)
  }

  /** `budgetRefusal` returns a message. */
  predicate OverBudget(c: Channel, now: int) {
    || (c.maxRuntime.Some? && now - c.createdAt > c.maxRuntime.value)
    || (c.maxDelivered.Some? && c.deliveredTotal >= c.maxDelivered.value)
  }

  function StaleWindow(c: Channel, r: Session): Option<int> {
    match FindMember(c.members, r)
    case None => Some(c.staleMs)
    case Some(m) =>
      match m.policy
      case Never => None
      case Window(ms) => Some(if ms.Some? then ms.value else c.staleMs)
  }

  predicate Expired(c: Channel, e: Envelope, now: int) {
    var window := StaleWindow(c, e.recipient);
    window.Some? && now - e.timestamp > window.value
  }

  function CooldownUntil(c: Channel, r: Session): int {
    if r in c.cooldownUntil then c.cooldownUntil[r] else 0
  }

  /** `opts.canDeliver`, which every caller decides by channel; None when absent. */
  type Gate = Option<set<ChannelId>>

  predicate Admits(gate: Gate, c: ChannelId) {
    gate.None? || c in gate.value
  }

  datatype Verdict = Skip | Keep | Drop(status: Status) | Take

  /** What one turn of drainQueue's loop decides for `id`; `first` while nothing is drained. */
  function Judge(s: State, r: Session, now: int, gate: Gate, id: MessageId, first: bool): Verdict {
    if !Has(s, id) then Skip
    else
      var e := s.log[id];
      if e.recipient != r then Skip
      else if e.channel !in s.channels then Drop(Rejected)
      else
        var c := s.channels[e.channel];
        if c.paused then Keep
        else if e.status == Delivered || e.status == InFlight then Skip
        else if Expired(c, e, now) then Drop(Stale)
        else if now < CooldownUntil(c, r) && first then Keep
        else if !Admits(gate, e.channel) then Keep
        else if OverBudget(c, now) then Keep
        else Take
  }

  function Unqueue(s: State, r: Session, i: nat): State
    requires i < |QueueOf(s, r)|
  {
    WithQueue(s, r, RemoveAt(QueueOf(s, r), i))
  }

  /** Remove the i-th queued id and give its envelope a status. */
  function Dequeue(s: State, r: Session, i: nat, status: Status): State
    requires i < |QueueOf(s, r)| && QueueOf(s, r)[i] < |s.log|
  {
    var id := QueueOf(s, r)[i];
    WithEnvelope(Unqueue(s, r, i), id, s.log[id].(status := status))
  }

  function Receipts(s: State, id: MessageId, r: Session): seq<Session> {
    var seen := if id in s.deliveredTo then s.deliveredTo[id] else [];
    if r in seen then seen else seen + [r]
  }

  /** One attempt, one unit of the channel's budget, a fresh cooldown, a delivered_to row. */
  function Charge(s: State, r: Session, id: MessageId, now: int): State
    requires id < |s.log| && s.log[id].channel in s.channels
  {
    var e := s.log[id];
    var c := s.channels[e.channel];
    WithEnvelope(s, id, e.(attempts := e.attempts + 1)).(
      channels := s.channels[e.channel := c.(
        deliveredTotal := c.deliveredTotal + 1,
        cooldownUntil := c.cooldownUntil[r := now + c.cooldownMs])],
      deliveredTo := s.deliveredTo[id := Receipts(s, id, r)])
  }

  /** Remove the i-th queued id and hand its envelope over, in flight. */
  function HandOver(s: State, r: Session, i: nat, now: int): State
    requires i < |QueueOf(s, r)| && QueueOf(s, r)[i] < |s.log|
    requires s.log[QueueOf(s, r)[i]].channel in s.channels
  {
    Charge(Dequeue(s, r, i, InFlight), r, QueueOf(s, r)[i], now)
  }

  datatype Drained = Drained(state: State, ids: seq<MessageId>)

  /** drainQueue's loop from position `i`: the ids before `i` were kept, `ids` drained. */
  function DrainFrom(s: State, r: Session, now: int, gate: Gate, i: nat, ids: seq<MessageId>): Drained
    decreases |QueueOf(s, r)| - i
  {
    if i >= |QueueOf(s, r)| then Drained(s, ids)
    else
      var id := QueueOf(s, r)[i];
      match Judge(s, r, now, gate, id, ids == [])
      case Keep => DrainFrom(s, r, now, gate, i + 1, ids)
      case Skip => DrainFrom(Unqueue(s, r, i), r, now, gate, i, ids)
      case Drop(status) => DrainFrom(Dequeue(s, r, i, status), r, now, gate, i, ids)
      case Take => DrainFrom(HandOver(s, r, i, now), r, now, gate, i, ids + [id])
  }

  /** Give `r` a queue entry, as every write-back of a local queue does. */
  function Touch(s: State, r: Session): State {
    WithQueue(s, r, QueueOf(s, r))
  }

  function Drain(s: State, r: Session, now: int, gate: Gate): Drained {
    var d := DrainFrom(Touch(s, r), r, now, gate, 0, []);
    if d.ids == [] then d else d.(state := Prune(d.state))
  }

  /** `id` is in flight to `r`. */
  predicate InFlightTo(s: State, r: Session, id: MessageId) {
    Has(s, id) && s.log[id].status == InFlight && s.log[id].recipient == r
  }

  function CommitOne(s: State, r: Session, id: MessageId, now: int, transport: Transport): State {
    if InFlightTo(s, r, id) then
      WithEnvelope(s, id, s.log[id].(status := Delivered, deliveredAt := Some(now), transport := Some(transport)))
    else s
  }

  /** `commitDelivery`. */
  function Commit(s: State, r: Session, ids: seq<MessageId>, now: int, transport: Transport): State
    decreases |ids|
  {
    if ids == [] then s else Commit(CommitOne(s, r, ids[0], now, transport), r, ids[1..], now, transport)
  }

  /** The status change requeueFailedDelivery makes to one envelope. */
  function Released(e: Envelope): Envelope {
    if e.status != Delivered && e.status != InFlight then e
    else if e.attempts >= MAX_DELIVERY_ATTEMPTS then e.(status := Failed, deliveredAt := None)
    else e.(status := Pending, deliveredAt := None)
  }

  /** Release one envelope and put it back at the front of `r`'s queue when pending. */
  function ReturnOne(s: State, r: Session, id: MessageId): State {
    if !Has(s, id) then s
    else
      var s1 := WithEnvelope(s, id, Released(s.log[id]));
      if s1.log[id].status == Pending && id !in QueueOf(s, r) then
        WithQueue(s1, r, [id] + QueueOf(s, r))
      else s1
  }

  function ReturnAll(s: State, r: Session, ids: seq<MessageId>): State
    decreases |ids|
  {
    if ids == [] then s
    else ReturnAll(ReturnOne(s, r, ids[|ids| - 1]), r, ids[..|ids| - 1])
  }

  /** `requeueFailedDelivery`, last id first. */
  function Requeue(s: State, r: Session, ids: seq<MessageId>): State {
    ReturnAll(Touch(s, r), r, ids)
  }

  /** sweepInFlight recovers `id`; `spared` are the recipients `shouldRecover` excludes. */
  predicate Stranded(s: State, spared: set<Session>, id: MessageId) {
    Has(s, id) && s.log[id].status == InFlight && s.log[id].recipient !in spared
  }

  function StrandedFor(s: State, spared: set<Session>, r: Session): set<MessageId> {
    set id | id in s.live && Stranded(s, spared, id) && s.log[id].recipient == r
  }

  /** `r`'s recovered ids, oldest first. */
  function Recovered(s: State, spared: set<Session>, r: Session): seq<MessageId> {
    SortByTime(s.log, IdsBelow(StrandedFor(s, spared, r), |s.log|))
  }

  function SweptQueue(s: State, spared: set<Session>, r: Session): seq<MessageId> {
    Without(Recovered(s, spared, r), Elements(QueueOf(s, r))) + QueueOf(s, r)
  }

  function SweptRecipients(s: State, spared: set<Session>): set<Session> {
    set id | id in s.live && Stranded(s, spared, id) :: s.log[id].recipient
  }

  function SweptLog(s: State, spared: set<Session>): seq<Envelope> {
    seq(|s.log|, id requires 0 <= id < |s.log| =>
      if Stranded(s, spared, id) then s.log[id].(status := Pending, deliveredAt := None) else s.log[id])
  }

  /** `sweepInFlight`: no attempt cap. */
  function Sweep(s: State, spared: set<Session>): State {
    s.(log := SweptLog(s, spared),
       queues := map r | r in s.queues.Keys + SweptRecipients(s, spared) :: SweptQueue(s, spared, r))
  }
}
