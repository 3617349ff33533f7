/** The state object as the engine updates it in place (src/core/engine.ts), each method
    proved against the operation on values that the run theorems are about. */
module LiveState {
  import opened Seqs
  import opened Types
  import opened Retention
  import opened Retained
  import opened Delivery
  import opened Sending
  import opened Membership
  import opened Queues
  import opened Effects
  import ChessClock

  /** What the drain does to the i-th envelope's record once it has judged it. */
  function Judged(s: State, r: Session, now: int, id: MessageId, verdict: Verdict): State
    requires verdict.Drop? || verdict.Take? ==> id < |s.log|
    requires verdict.Take? ==> s.log[id].channel in s.channels
  {
    match verdict
    case Drop(status) => WithEnvelope(s, id, s.log[id].(status := status))
    case Take => Charge(WithEnvelope(s, id, s.log[id].(status := InFlight)), r, id, now)
    case _ => s
  }

  /** The drain's loop on `r`'s queue with `kept` behind it and `rest` before it. */
  ghost function Onward(s: State, r: Session, now: int, gate: Gate, kept: seq<MessageId>, rest: seq<MessageId>,
        drained: seq<MessageId>): Drained {
    DrainFrom(WithQueue(s, r, kept + rest), r, now, gate, |kept|, drained)
  }

  lemma OnwardFromFront(s: State, r: Session, now: int, gate: Gate)
    ensures Onward(s, r, now, gate, [], QueueOf(s, r), []) == DrainFrom(Touch(s, r), r, now, gate, 0, [])
  {
    assert [] + QueueOf(s, r) == QueueOf(s, r);
  }

  lemma OnwardAtEnd(s: State, r: Session, now: int, gate: Gate, kept: seq<MessageId>, drained: seq<MessageId>)
    ensures Onward(s, r, now, gate, kept, [], drained) == Drained(WithQueue(s, r, kept), drained)
  {
    assert kept + [] == kept;
  }

  lemma KeepTurn(s: State, r: Session, now: int, gate: Gate, kept: seq<MessageId>, id: MessageId,
        rest: seq<MessageId>, drained: seq<MessageId>)
    requires Judge(s, r, now, gate, id, drained == []) == Keep
    ensures Onward(s, r, now, gate, kept, [id] + rest, drained) == Onward(s, r, now, gate, kept + [id], rest, drained)
  {
    var at := WithQueue(s, r, kept + ([id] + rest));
    AppendAssoc(kept, id, rest);
    assert QueueOf(at, r)[|kept|] == id;
    assert Judge(at, r, now, gate, id, drained == []) == Keep;
  }

  lemma AtFront(kept: seq<MessageId>, id: MessageId, rest: seq<MessageId>)
    ensures var q := kept + ([id] + rest);
            q[|kept|] == id && RemoveAt(q, |kept|) == kept + rest
  {
  }

  lemma SkipTurn(s: State, r: Session, now: int, gate: Gate, kept: seq<MessageId>, id: MessageId,
        rest: seq<MessageId>, drained: seq<MessageId>)
    requires Judge(s, r, now, gate, id, drained == []) == Skip
    ensures Onward(s, r, now, gate, kept, [id] + rest, drained) == Onward(s, r, now, gate, kept, rest, drained)
  {
    var at := WithQueue(s, r, kept + ([id] + rest));
    AtFront(kept, id, rest);
    assert Judge(at, r, now, gate, id, drained == []) == Skip;
    assert Unqueue(at, r, |kept|) == WithQueue(s, r, kept + rest);
  }

  lemma DropTurn(s: State, r: Session, now: int, gate: Gate, kept: seq<MessageId>, id: MessageId,
        rest: seq<MessageId>, drained: seq<MessageId>)
    requires Judge(s, r, now, gate, id, drained == []).Drop?
    ensures var t := Judged(s, r, now, id, Judge(s, r, now, gate, id, drained == []));
            Onward(s, r, now, gate, kept, [id] + rest, drained) == Onward(t, r, now, gate, kept, rest, drained)
  {
    var at := WithQueue(s, r, kept + ([id] + rest));
    var verdict := Judge(s, r, now, gate, id, drained == []);
    AtFront(kept, id, rest);
    assert Judge(at, r, now, gate, id, drained == []) == verdict;
    assert Dequeue(at, r, |kept|, verdict.status) == WithQueue(Judged(s, r, now, id, verdict), r, kept + rest);
  }

  lemma TakeTurn(s: State, r: Session, now: int, gate: Gate, kept: seq<MessageId>, id: MessageId,
        rest: seq<MessageId>, drained: seq<MessageId>)
    requires Judge(s, r, now, gate, id, drained == []) == Take
    ensures var t := Judged(s, r, now, id, Take);
            Onward(s, r, now, gate, kept, [id] + rest, drained) == Onward(t, r, now, gate, kept, rest, drained + [id])
  {
    var at := WithQueue(s, r, kept + ([id] + rest));
    AtFront(kept, id, rest);
    assert Judge(at, r, now, gate, id, drained == []) == Take;
    assert HandOver(at, r, |kept|, now) == WithQueue(Judged(s, r, now, id, Take), r, kept + rest);
  }

  /** What one turn leaves in front of the cursor, and adds to the batch. */
  function Kept(kept: seq<MessageId>, id: MessageId, verdict: Verdict): seq<MessageId> {
    if verdict == Keep then kept + [id] else kept
  }

  function Batch(drained: seq<MessageId>, id: MessageId, verdict: Verdict): seq<MessageId> {
    if verdict == Take then drained + [id] else drained
  }

  lemma DrainTurn(s: State, r: Session, now: int, gate: Gate, kept: seq<MessageId>, id: MessageId,
        rest: seq<MessageId>, drained: seq<MessageId>, verdict: Verdict)
    requires verdict == Judge(s, r, now, gate, id, drained == [])
    ensures var t := Judged(s, r, now, id, verdict);
            Onward(s, r, now, gate, kept, [id] + rest, drained) ==
            Onward(t, r, now, gate, Kept(kept, id, verdict), rest, Batch(drained, id, verdict))
  {
    match verdict {
      case Keep => KeepTurn(s, r, now, gate, kept, id, rest, drained);
      case Skip => SkipTurn(s, r, now, gate, kept, id, rest, drained);
      case Drop(_) => DropTurn(s, r, now, gate, kept, id, rest, drained);
      case Take => TakeTurn(s, r, now, gate, kept, id, rest, drained);
    }
  }

  /** Insertion by time splits the ids at the first one younger than `id`. */
  lemma {:induction false} InsertSplit(log: seq<Envelope>, ids: seq<MessageId>, id: MessageId, i: nat)
    requires id < |log| && Within(ids, |log|) && i <= |ids|
    requires forall j :: i <= j < |ids| ==> log[id].timestamp < log[ids[j]].timestamp
    requires i > 0 ==> log[id].timestamp >= log[ids[i - 1]].timestamp
    ensures InsertByTime(log, ids, id) == ids[..i] + [id] + ids[i..]
  {
    if i < |ids| {
      var last := |ids| - 1;
      InsertSplit(log, ids[..last], id, i);
      SplitTail(ids, i, id);
    } else {
      assert ids[..i] == ids && ids[i..] == [];
    }
  }

  lemma SplitTail(ids: seq<MessageId>, i: nat, id: MessageId)
    requires i < |ids|
    ensures var front := ids[..|ids| - 1];
            front[..i] + [id] + front[i..] + [ids[|ids| - 1]] == ids[..i] + [id] + ids[i..]
  {
  }

  lemma SortSnoc(log: seq<Envelope>, ids: seq<MessageId>, k: nat)
    requires Within(ids, |log|) && k < |ids|
    ensures Within(ids[..k], |log|) && Within(ids[..k + 1], |log|) && Within(SortByTime(log, ids[..k]), |log|)
    ensures SortByTime(log, ids[..k + 1]) == InsertByTime(log, SortByTime(log, ids[..k]), ids[k])
  {
    assert ids[..k + 1][..k] == ids[..k] && ids[..k + 1][k] == ids[k];
  }

  /** `log'` is `s.log` with the persisted envelopes of `ids` released. */
  ghost predicate ReleasedIn(s: State, ids: seq<MessageId>, log': seq<Envelope>) {
    && |log'| == |s.log|
    && forall id :: 0 <= id < |s.log| ==> log'[id] == if id in ids && Has(s, id) then Released(s.log[id]) else s.log[id]
  }

  function ReleaseOne(s: State, id: MessageId): State {
    if Has(s, id) then WithEnvelope(s, id, Released(s.log[id])) else s
  }

  lemma ReleasedSnoc(s: State, ids: seq<MessageId>, k: nat, log: seq<Envelope>)
    requires k < |ids| && ReleasedIn(s, ids[..k], log)
    ensures ReleasedIn(s, ids[..k + 1], ReleaseOne(s.(log := log), ids[k]).log)
  {
    assert ids[..k + 1] == ids[..k] + [ids[k]];
  }

  lemma SameRecord(s: State, ids: seq<MessageId>, a: seq<Envelope>, b: seq<Envelope>)
    requires ReleasedIn(s, ids, a) && ReleasedIn(s, ids, b)
    ensures a == b
  {
  }

  /** The ids that a release leaves pending. */
  function Ready(s: State): set<MessageId> {
    set id | id in s.live && Has(s, id) && Released(s.log[id]).status == Pending
  }

  /** Put the ready ids back at the front, last first, each once. */
  function PushFront(q: seq<MessageId>, ids: seq<MessageId>, ready: set<MessageId>): seq<MessageId>
    decreases |ids|
  {
    if ids == [] then q
    else
      var id := ids[|ids| - 1];
      PushFront(if id in ready && id !in q then [id] + q else q, ids[..|ids| - 1], ready)
  }

  lemma PendingAreReady(s: State, ids: seq<MessageId>, log: seq<Envelope>, pending: set<MessageId>)
    requires ReleasedIn(s, ids, log)
    requires forall id :: id in pending <==> id in s.live && id < |log| && log[id].status == Pending
    ensures forall id :: id in ids ==> (id in pending <==> id in Ready(s))
  {
  }

  lemma {:induction false} SameReady(q: seq<MessageId>, ids: seq<MessageId>, a: set<MessageId>, b: set<MessageId>)
    requires forall id :: id in ids ==> (id in a <==> id in b)
    ensures PushFront(q, ids, a) == PushFront(q, ids, b)
    decreases |ids|
  {
    if ids != [] {
      var id := ids[|ids| - 1];
      SameReady(if id in a && id !in q then [id] + q else q, ids[..|ids| - 1], a, b);
    }
  }

  /** Releasing all and then pushing all does what releasing and pushing one by one does. */
  lemma {:induction false} ReturnAllForm(s: State, r: Session, ids: seq<MessageId>)
    requires r in s.queues
    ensures var t := ReturnAll(s, r, ids);
            && t == s.(log := t.log, queues := s.queues[r := PushFront(QueueOf(s, r), ids, Ready(s))])
            && ReleasedIn(s, ids, t.log)
    decreases |ids|
  {
    ReturnAllEffects(s, r, ids);
    if ids != [] {
      var last := ids[|ids| - 1];
      var u := ReturnOne(s, r, last);
      assert Ready(u) == Ready(s);
      ReturnAllForm(u, r, ids[..|ids| - 1]);
      assert u.queues[r := PushFront(QueueOf(u, r), ids[..|ids| - 1], Ready(u))]
          == s.queues[r := PushFront(QueueOf(u, r), ids[..|ids| - 1], Ready(u))];
    } else {
      assert s.queues[r := s.queues[r]] == s.queues;
    }
  }

  lemma RequeueForm(s: State, r: Session, ids: seq<MessageId>, log: seq<Envelope>, queue: seq<MessageId>)
    requires ReleasedIn(s, ids, log) && queue == PushFront(QueueOf(s, r), ids, Ready(s))
    ensures Requeue(s, r, ids) == s.(log := log, queues := s.queues[r := queue])
  {
    var u := Touch(s, r);
    assert Ready(u) == Ready(s);
    ReturnAllForm(u, r, ids);
    SameRecord(s, ids, log, ReturnAll(u, r, ids).log);
    assert u.queues[r := queue] == s.queues[r := queue];
  }

  /** Of `ids`, in their order, those a sweep recovers for `r`. */
  function StrandedAmong(s: State, spared: set<Session>, r: Session, ids: seq<MessageId>): seq<MessageId> {
    if ids == [] then []
    else
      var last := ids[|ids| - 1];
      StrandedAmong(s, spared, r, ids[..|ids| - 1])
      + if Stranded(s, spared, last) && s.log[last].recipient == r then [last] else []
  }

  lemma StrandedSnoc(s: State, spared: set<Session>, r: Session, ids: seq<MessageId>, id: MessageId)
    ensures StrandedAmong(s, spared, r, ids + [id])
         == StrandedAmong(s, spared, r, ids) + if Stranded(s, spared, id) && s.log[id].recipient == r then [id] else []
  {
    assert (ids + [id])[..|ids|] == ids;
  }

  lemma {:induction false} StrandedInMintingOrder(s: State, spared: set<Session>, r: Session, n: nat)
    ensures StrandedAmong(s, spared, r, IdsBelow(s.live, n)) == IdsBelow(StrandedFor(s, spared, r), n)
  {
    if n > 0 {
      StrandedInMintingOrder(s, spared, r, n - 1);
      StrandedSnoc(s, spared, r, IdsBelow(s.live, n - 1), n - 1);
    }
  }

  /** The record with the stranded envelopes among `ids` pending again. */
  ghost predicate SweptIn(s: State, spared: set<Session>, ids: seq<MessageId>, log: seq<Envelope>) {
    && |log| == |s.log|
    && forall id :: 0 <= id < |s.log| ==>
         log[id] == if id in ids && Stranded(s, spared, id) then Restored(s.log[id]) else s.log[id]
  }

  function Restored(e: Envelope): Envelope {
    e.(status := Pending, deliveredAt := None)
  }

  lemma SweptSnoc(s: State, spared: set<Session>, ids: seq<MessageId>, id: MessageId, log: seq<Envelope>)
    requires SweptIn(s, spared, ids, log) && id < |log| && id !in ids
    ensures log[id] == s.log[id]
    ensures SweptIn(s, spared, ids + [id], if Stranded(s, spared, id) then log[id := Restored(log[id])] else log)
  {
  }

  function Grouped(byRecipient: map<Session, seq<MessageId>>, r: Session): seq<MessageId> {
    if r in byRecipient then byRecipient[r] else []
  }

  ghost predicate GroupsOf(s: State, spared: set<Session>, ids: seq<MessageId>,
        byRecipient: map<Session, seq<MessageId>>) {
    && (forall r :: Grouped(byRecipient, r) == StrandedAmong(s, spared, r, ids))
    && (forall r :: r in byRecipient ==> byRecipient[r] != [])
  }

  lemma GroupTurn(s: State, spared: set<Session>, ids: seq<MessageId>, id: MessageId,
        byRecipient: map<Session, seq<MessageId>>)
    requires GroupsOf(s, spared, ids, byRecipient) && id < |s.log|
    ensures var r := s.log[id].recipient;
            GroupsOf(s, spared, ids + [id],
                     if Stranded(s, spared, id) then byRecipient[r := Grouped(byRecipient, r) + [id]] else byRecipient)
  {
    var to := s.log[id].recipient;
    forall r
      ensures StrandedAmong(s, spared, r, ids + [id])
           == StrandedAmong(s, spared, r, ids) + if Stranded(s, spared, id) && to == r then [id] else []
    {
      StrandedSnoc(s, spared, r, ids, id);
    }
    forall r
      ensures Grouped(byRecipient[to := Grouped(byRecipient, to) + [id]], r)
           == Grouped(byRecipient, r) + if to == r then [id] else []
    {
    }
  }

  /** What the grouping loop has done once it has seen `ids`. */
  ghost predicate SweepProgress(s: State, spared: set<Session>, ids: seq<MessageId>, log: seq<Envelope>,
        byRecipient: map<Session, seq<MessageId>>) {
    SweptIn(s, spared, ids, log) && GroupsOf(s, spared, ids, byRecipient)
  }

  lemma SweepTurn(s: State, spared: set<Session>, ids: seq<MessageId>, id: MessageId, log: seq<Envelope>,
        byRecipient: map<Session, seq<MessageId>>)
    requires SweepProgress(s, spared, ids, log, byRecipient) && id < |s.log| && Has(s, id) && id !in ids
    ensures log[id] == s.log[id]
    ensures Stranded(s, spared, id) <==> log[id].status == InFlight && log[id].recipient !in spared
    ensures var r := s.log[id].recipient;
            if Stranded(s, spared, id)
            then SweepProgress(s, spared, ids + [id], log[id := Restored(log[id])],
                               byRecipient[r := Grouped(byRecipient, r) + [id]])
            else SweepProgress(s, spared, ids + [id], log, byRecipient)
  {
    SweptSnoc(s, spared, ids, id, log);
    GroupTurn(s, spared, ids, id, byRecipient);
  }

  /** A recipient is new exactly when it has no group yet. */
  lemma OrderTurn(s: State, spared: set<Session>, ids: seq<MessageId>, id: MessageId,
        byRecipient: map<Session, seq<MessageId>>)
    requires GroupsOf(s, spared, ids, byRecipient) && id < |s.log|
    ensures var r := s.log[id].recipient;
            Encountered(s, spared, ids + [id]) ==
              (if Stranded(s, spared, id) && r !in byRecipient then Encountered(s, spared, ids) + [r]
               else Encountered(s, spared, ids))
  {
    EncounteredSnoc(s, spared, ids, id);
    EncounteredOnce(s, spared, ids);
    var r := s.log[id].recipient;
    assert Grouped(byRecipient, r) == StrandedAmong(s, spared, r, ids);
  }

  lemma SweptWhole(s: State, spared: set<Session>, log: seq<Envelope>)
    requires SweptIn(s, spared, LiveIds(s), log)
    ensures log == SweptLog(s, spared)
  {
  }

  /** Unshifting absent ids, last first, puts them all in front in their order. */
  lemma {:induction false} PushFrontForm(q: seq<MessageId>, ids: seq<MessageId>, ready: set<MessageId>)
    requires NoDup(ids) && forall id :: id in ids ==> id in ready
    ensures PushFront(q, ids, ready) == Without(ids, Elements(q)) + q
    decreases |ids|
  {
    if ids != [] {
      var front, last := ids[..|ids| - 1], ids[|ids| - 1];
      assert ids == front + [last];
      assert last !in front && forall id :: id in front ==> id in ids;
      if last in q {
        PushFrontForm(q, front, ready);
        FrontStays(q, front, last, Elements(q));
      } else {
        PushFrontForm([last] + q, front, ready);
        ElementsCons(last, q);
        FrontGrows(q, front, last, Elements(q));
      }
    }
  }

  lemma ElementsCons(id: MessageId, q: seq<MessageId>)
    ensures Elements([id] + q) == Elements(q) + {id}
  {
  }

  lemma FrontStays(q: seq<MessageId>, front: seq<MessageId>, last: MessageId, dead: set<MessageId>)
    requires last in dead
    ensures Without(front + [last], dead) + q == Without(front, dead) + q
  {
    LastStaysOut(front, last, dead);
  }

  lemma FrontGrows(q: seq<MessageId>, front: seq<MessageId>, last: MessageId, dead: set<MessageId>)
    requires last !in front && last !in dead
    ensures Without(front + [last], dead) + q == Without(front, dead + {last}) + ([last] + q)
  {
    LastStaysOut(front, last, dead);
    WithoutSame(front, dead + {last}, dead);
    AppendAssoc(Without(front, dead), last, q);
  }

  lemma LastStaysOut(front: seq<MessageId>, last: MessageId, dead: set<MessageId>)
    ensures Without(front + [last], dead) == Without(front, dead) + if last in dead then [] else [last]
  {
    WithoutConcat(front, [last], dead);
    assert [last][1..] == [];
  }

  lemma {:induction false} WithoutSame(ids: seq<MessageId>, a: set<MessageId>, b: set<MessageId>)
    requires forall id :: id in ids ==> (id in a <==> id in b)
    ensures Without(ids, a) == Without(ids, b)
  {
    if ids != [] {
      WithoutSame(ids[1..], a, b);
    }
  }

  lemma {:induction false} InsertSame(log: seq<Envelope>, log': seq<Envelope>, ids: seq<MessageId>, id: MessageId)
    requires |log'| == |log| && (forall i :: 0 <= i < |log| ==> log'[i].timestamp == log[i].timestamp)
    requires id < |log| && Within(ids, |log|)
    ensures InsertByTime(log', ids, id) == InsertByTime(log, ids, id)
  {
    if ids != [] {
      InsertSame(log, log', ids[..|ids| - 1], id);
    }
  }

  /** Sorting reads nothing but timestamps. */
  lemma {:induction false} SortSame(log: seq<Envelope>, log': seq<Envelope>, ids: seq<MessageId>)
    requires |log'| == |log| && (forall i :: 0 <= i < |log| ==> log'[i].timestamp == log[i].timestamp)
    requires Within(ids, |log|)
    ensures SortByTime(log', ids) == SortByTime(log, ids)
  {
    if ids != [] {
      SortSame(log, log', ids[..|ids| - 1]);
      InsertSame(log, log', SortByTime(log, ids[..|ids| - 1]), ids[|ids| - 1]);
    }
  }

  /** The recipients of what a sweep recovers among `ids`, in the order they are met. */
  function Encountered(s: State, spared: set<Session>, ids: seq<MessageId>): seq<Session> {
    if ids == [] then []
    else
      var front, last := Encountered(s, spared, ids[..|ids| - 1]), ids[|ids| - 1];
      if Stranded(s, spared, last) && s.log[last].recipient !in front then front + [s.log[last].recipient] else front
  }

  lemma EncounteredSnoc(s: State, spared: set<Session>, ids: seq<MessageId>, id: MessageId)
    ensures Encountered(s, spared, ids + [id])
         == if Stranded(s, spared, id) && s.log[id].recipient !in Encountered(s, spared, ids)
            then Encountered(s, spared, ids) + [s.log[id].recipient] else Encountered(s, spared, ids)
  {
    assert (ids + [id])[..|ids|] == ids;
  }

  lemma {:induction false} EncounteredOnce(s: State, spared: set<Session>, ids: seq<MessageId>)
    ensures NoDup(Encountered(s, spared, ids))
    ensures forall r :: r in Encountered(s, spared, ids) <==> StrandedAmong(s, spared, r, ids) != []
  {
    if ids != [] {
      var front, last := ids[..|ids| - 1], ids[|ids| - 1];
      EncounteredOnce(s, spared, front);
    }
  }

  function Backwards(ids: seq<MessageId>): (r: seq<MessageId>)
    ensures |r| == |ids| && forall id :: id in r <==> id in ids
  {
    if ids == [] then [] else Backwards(ids[1..]) + [ids[0]]
  }

  /** Group by group, in the order of `order`, each backwards. */
  function Told(groups: map<Session, seq<MessageId>>, order: seq<Session>): seq<MessageId> {
    if order == [] then []
    else Told(groups, order[..|order| - 1]) + Backwards(Grouped(groups, order[|order| - 1]))
  }

  function RecoveredGroups(s: State, spared: set<Session>): map<Session, seq<MessageId>> {
    map r | r in SweptRecipients(s, spared) :: Recovered(s, spared, r)
  }

  /** What a sweep reports: recipient by recipient, each one's recovered ids youngest first. */
  function SweptIds(s: State, spared: set<Session>): seq<MessageId> {
    Told(RecoveredGroups(s, spared), Encountered(s, spared, LiveIds(s)))
  }

  predicate InGroup(groups: map<Session, seq<MessageId>>, r: Session, id: MessageId) {
    id in Grouped(groups, r)
  }

  lemma {:induction false} ToldMembers(groups: map<Session, seq<MessageId>>, order: seq<Session>)
    ensures forall id: MessageId :: id in Told(groups, order) <==> exists r :: r in order && InGroup(groups, r, id)
  {
    if order != [] {
      var front, last := order[..|order| - 1], order[|order| - 1];
      ToldMembers(groups, front);
      assert order == front + [last];
      forall id: MessageId
        ensures id in Told(groups, order) <==> id in Told(groups, front) || InGroup(groups, last, id)
      {
      }
      forall id: MessageId
        ensures (exists r :: r in order && InGroup(groups, r, id))
            <==> (exists r :: r in front && InGroup(groups, r, id)) || InGroup(groups, last, id)
      {
        assert InGroup(groups, last, id) ==> last in order;
      }
    }
  }

  lemma {:induction false} BackwardsOnce(ids: seq<MessageId>)
    requires NoDup(ids)
    ensures NoDup(Backwards(ids))
  {
    if ids != [] {
      BackwardsOnce(ids[1..]);
      assert ids[0] !in ids[1..];
    }
  }

  /** Groups without repeats that have nothing in common are told without repeats. */
  lemma {:induction false} ToldOnce(groups: map<Session, seq<MessageId>>, order: seq<Session>)
    requires NoDup(order) && forall r :: r in order ==> NoDup(Grouped(groups, r))
    requires forall r, r', id: MessageId :: r in order && r' in order && r != r' && id in Grouped(groups, r) ==>
               id !in Grouped(groups, r')
    ensures NoDup(Told(groups, order))
  {
    if order != [] {
      var front, last := order[..|order| - 1], order[|order| - 1];
      assert order == front + [last] && last !in front;
      ToldOnce(groups, front);
      ToldMembers(groups, front);
      BackwardsOnce(Grouped(groups, last));
      NoDupJoin(Told(groups, front), Backwards(Grouped(groups, last)));
    }
  }

  lemma NoDupJoin<T>(p: seq<T>, q: seq<T>)
    requires NoDup(p) && NoDup(q) && forall x :: x in p ==> x !in q
    ensures NoDup(p + q)
  {
    forall i, j | 0 <= i < j < |p + q|
      ensures (p + q)[i] != (p + q)[j]
    {
      if i < |p| && j >= |p| {
        assert p[i] in p && q[j - |p|] in q;
      }
    }
  }

  /** A sweep reports exactly what it recovers, each id once. */
  lemma SweepReportsExactly(s: State, spared: set<Session>)
    ensures NoDup(SweptIds(s, spared))
    ensures forall id: MessageId :: id in SweptIds(s, spared) <==> Stranded(s, spared, id)
  {
    var order, groups := Encountered(s, spared, LiveIds(s)), RecoveredGroups(s, spared);
    EncounteredOnce(s, spared, LiveIds(s));
    forall r
      ensures r in order <==> r in SweptRecipients(s, spared)
    {
      EncounteredStranded(s, spared, r);
    }
    forall r | r in order
      ensures NoDup(Grouped(groups, r))
      ensures forall id: MessageId :: id in Grouped(groups, r) <==> Stranded(s, spared, id) && s.log[id].recipient == r
    {
      RecoveredIds(s, spared, r);
    }
    ToldOnce(groups, order);
    ToldMembers(groups, order);
    assert forall id: MessageId :: Stranded(s, spared, id) ==> s.log[id].recipient in SweptRecipients(s, spared);
  }

  /** The recipients met are those of what is recovered. */
  lemma EncounteredStranded(s: State, spared: set<Session>, r: Session)
    ensures r in Encountered(s, spared, LiveIds(s)) <==> r in SweptRecipients(s, spared)
  {
    EncounteredOnce(s, spared, LiveIds(s));
    StrandedInMintingOrder(s, spared, r, |s.log|);
    var group := IdsBelow(StrandedFor(s, spared, r), |s.log|);
    if group != [] {
      assert group[0] in StrandedFor(s, spared, r);
    }
    if r in SweptRecipients(s, spared) {
      var id :| id in s.live && Stranded(s, spared, id) && s.log[id].recipient == r;
      assert id in group;
    }
  }

  lemma StrandedHaveRecipients(s: State, spared: set<Session>, byRecipient: map<Session, seq<MessageId>>)
    requires GroupsOf(s, spared, LiveIds(s), byRecipient)
    ensures byRecipient.Keys == SweptRecipients(s, spared)
  {
    forall r
      ensures r in byRecipient <==> r in SweptRecipients(s, spared)
    {
      StrandedInMintingOrder(s, spared, r, |s.log|);
      var group := IdsBelow(StrandedFor(s, spared, r), |s.log|);
      assert Grouped(byRecipient, r) == group;
      if group != [] {
        assert group[0] in StrandedFor(s, spared, r);
      }
      if r in SweptRecipients(s, spared) {
        var id :| id in s.live && Stranded(s, spared, id) && s.log[id].recipient == r;
        assert id in group;
      }
    }
  }

  /** The queues with the groups of `order` unshifted, one after another. */
  function Requeued(queues: map<Session, seq<MessageId>>, live: set<MessageId>, groups: map<Session, seq<MessageId>>,
        order: seq<Session>): map<Session, seq<MessageId>> {
    if order == [] then queues
    else
      var front, r := Requeued(queues, live, groups, order[..|order| - 1]), order[|order| - 1];
      front[r := PushFront(Grouped(front, r), Grouped(groups, r), live)]
  }

  /** One more recipient's turn. */
  lemma RestoredNext(queues: map<Session, seq<MessageId>>, live: set<MessageId>,
        groups: map<Session, seq<MessageId>>, order: seq<Session>, k: nat)
    requires k < |order|
    ensures var front, r := Requeued(queues, live, groups, order[..k]), order[k];
            && Requeued(queues, live, groups, order[..k + 1]) ==
               front[r := PushFront(Grouped(front, r), Grouped(groups, r), live)]
            && Told(groups, order[..k + 1]) == Told(groups, order[..k]) + Backwards(Grouped(groups, r))
  {
    assert order[..k + 1][..k] == order[..k];
  }

  /** Each recipient's queue is touched once, whatever the order. */
  lemma {:induction false} RequeuedAt(queues: map<Session, seq<MessageId>>, live: set<MessageId>,
        groups: map<Session, seq<MessageId>>, order: seq<Session>, r: Session)
    requires NoDup(order)
    ensures var all := Requeued(queues, live, groups, order);
            && (r in all <==> r in queues || r in order)
            && Grouped(all, r) ==
               (if r in order then PushFront(Grouped(queues, r), Grouped(groups, r), live) else Grouped(queues, r))
  {
    if order != [] {
      var front, last := order[..|order| - 1], order[|order| - 1];
      assert order == front + [last] && last !in front;
      RequeuedAt(queues, live, groups, front, r);
    }
  }

  lemma NextOf(ids: seq<MessageId>, k: nat)
    requires Increasing(ids) && k < |ids|
    ensures ids[..k + 1] == ids[..k] + [ids[k]] && ids[k] !in ids[..k] && ids[k] in ids
  {
  }

  /** `groups` are those of `byRecipient`, oldest first. */
  ghost predicate Sorted(log: seq<Envelope>, byRecipient: map<Session, seq<MessageId>>,
        groups: map<Session, seq<MessageId>>) {
    groups.Keys == byRecipient.Keys
    && forall r :: r in byRecipient ==> Within(byRecipient[r], |log|) && SortByTime(log, byRecipient[r]) == groups[r]
  }

  lemma GroupsAreRecovered(s: State, spared: set<Session>, byRecipient: map<Session, seq<MessageId>>)
    requires byRecipient.Keys == SweptRecipients(s, spared)
    requires forall r :: r in byRecipient ==> byRecipient[r] == StrandedAmong(s, spared, r, LiveIds(s))
    ensures forall r :: r in byRecipient <==> r in Encountered(s, spared, LiveIds(s))
    ensures Sorted(SweptLog(s, spared), byRecipient, RecoveredGroups(s, spared))
    ensures forall r, i :: r in byRecipient && 0 <= i < |byRecipient[r]| ==> byRecipient[r][i] in s.live
  {
    forall r
      ensures r in byRecipient <==> r in Encountered(s, spared, LiveIds(s))
    {
      EncounteredStranded(s, spared, r);
    }
    forall r | r in byRecipient
      ensures Within(byRecipient[r], |s.log|)
      ensures SortByTime(SweptLog(s, spared), byRecipient[r]) == Recovered(s, spared, r)
      ensures forall i :: 0 <= i < |byRecipient[r]| ==> byRecipient[r][i] in s.live
    {
      SweptQueueForm(s, spared, r, byRecipient[r]);
    }
  }

  /** Unshifting the recovered groups gives every queue its swept form. */
  lemma SweepRequeues(s: State, spared: set<Session>)
    ensures Requeued(s.queues, s.live, RecoveredGroups(s, spared), Encountered(s, spared, LiveIds(s)))
         == Sweep(s, spared).queues
  {
    var order := Encountered(s, spared, LiveIds(s));
    var all := Requeued(s.queues, s.live, RecoveredGroups(s, spared), order);
    EncounteredOnce(s, spared, LiveIds(s));
    forall r
      ensures r in all <==> r in Sweep(s, spared).queues
      ensures r in all ==> all[r] == Sweep(s, spared).queues[r]
    {
      RequeuedAt(s.queues, s.live, RecoveredGroups(s, spared), order, r);
      EncounteredStranded(s, spared, r);
      if r in order {
        RecoveredIds(s, spared, r);
        PushFrontForm(QueueOf(s, r), Recovered(s, spared, r), s.live);
      } else if r in s.queues {
        assert StrandedFor(s, spared, r) == {};
        NothingStranded(s, spared, r);
      }
    }
  }

  /** Oldest first, in front of what is queued. */
  lemma SweptQueueForm(s: State, spared: set<Session>, r: Session, ids: seq<MessageId>)
    requires ids == StrandedAmong(s, spared, r, LiveIds(s))
    ensures Within(ids, |s.log|) && forall i :: 0 <= i < |ids| ==> ids[i] in s.live
    ensures SortByTime(SweptLog(s, spared), ids) == Recovered(s, spared, r)
  {
    StrandedInMintingOrder(s, spared, r, |s.log|);
    assert forall i :: 0 <= i < |ids| ==> ids[i] in ids && ids[i] in StrandedFor(s, spared, r);
    SortSame(s.log, SweptLog(s, spared), ids);
  }

  /** Rejecting `m`'s queue when `rest` of it is left. */
  ghost function RejectRest(s: State, m: Session, rest: seq<MessageId>): State {
    RejectQueue(WithQueue(s, m, rest), m)
  }

  function RejectOne(s: State, id: MessageId): State {
    if Has(s, id) && s.log[id].status == Pending then WithEnvelope(s, id, s.log[id].(status := Rejected)) else s
  }

  lemma RejectTurn(s: State, m: Session, id: MessageId, rest: seq<MessageId>)
    ensures RejectRest(s, m, [id] + rest) == RejectRest(RejectOne(s, id), m, rest)
  {
    var at := WithQueue(s, m, [id] + rest);
    assert QueueOf(at, m)[0] == id && RemoveAt([id] + rest, 0) == rest;
    assert RejectHead(at, m) == WithQueue(RejectOne(s, id), m, rest);
  }

  lemma RejectWhole(s: State, m: Session)
    ensures RejectRest(s, m, QueueOf(s, m)) == RejectQueue(s, m)
    ensures RejectRest(s, m, []) == s.(queues := s.queues - {m})
  {
    assert m in s.queues ==> WithQueue(s, m, QueueOf(s, m)) == s;
    assert s.queues[m := []] - {m} == s.queues - {m};
  }

  lemma {:induction false} PostAllChannels(s: State, es: seq<Envelope>, channels: map<ChannelId, Channel>)
    ensures PostAll(s.(channels := channels), es) == PostAll(s, es).(channels := channels)
    decreases |es|
  {
    if es != [] {
      PostAllChannels(Post(s, es[0]), es[1..], channels);
      assert Post(s.(channels := channels), es[0]) == Post(s, es[0]).(channels := channels);
    }
  }

  /** The channel once a send is counted and seen, the clock not yet handed over. */
  function Counted(ch: Channel, sender: Session, content: Text, now: int): Channel {
    var (start, count) := RateWindow(ch, now);
    ch.(rateStart := start, rateCount := count + 1, seen := SweepSeen(ch, now)[(sender, content) := now])
  }

  /** What a send refused this late has already changed of the loaded channel. */
  function RefusedLate(ch: Channel, refusal: Refusal, now: int): Channel {
    var (start, count) := RateWindow(ch, now);
    var counted := ch.(rateStart := start, rateCount := count + 1);
    if refusal == RateLimited then counted else counted.(seen := SweepSeen(ch, now))
  }

  /** The sweep reads nothing that counting a send changes. */
  lemma SweepsSame(ch: Channel, ch': Channel, now: int)
    requires ch'.seen == ch.seen && ch'.staleMs == ch.staleMs
    ensures SweepSeen(ch', now) == SweepSeen(ch, now)
  {
  }

  predicate IsLate(refusal: Refusal) {
    refusal == RateLimited || refusal == Duplicate || refusal == TooDeep
  }

  /** A member's action on the clock that is not refused: a switch needs somebody who is not
      stale, a limit a positive time and a member if it names one. */
  predicate Acceptable(ch: Channel, m: Session, action: TimerAction) {
    match action
    case Switch(key) => SwitchTarget(ch, m, key).Some?
    case SetLimit(ms, key) => ms > 0 && (key.Some? ==> Named(ch.members, key.value).Some?)
    case _ => true
  }

  /** It does not matter whether the channel changes before the letters are posted. */
  lemma EnqueueAnyOrder(s: State, c: ChannelId, draft: Draft, sender: Session, now: int,
        before: map<ChannelId, Channel>, after: map<ChannelId, Channel>)
    requires c in s.channels && Resolve(s.channels[c], sender, draft.target) != []
    requires var to := Resolve(s.channels[c], sender, draft.target);
             after == s.channels[c := AfterSend(s.channels[c], sender, draft.content, to[0].session, now)]
    ensures var to := Resolve(s.channels[c], sender, draft.target);
            var letters := Letters(c, draft, sender, to, ThreadOf(s, draft.replyTo, |s.log|), now);
            Enqueue(s, c, draft, sender, now) == PostAll(s.(channels := before), letters).(channels := after)
  {
    var to := Resolve(s.channels[c], sender, draft.target);
    var letters := Letters(c, draft, sender, to, ThreadOf(s, draft.replyTo, |s.log|), now);
    PostAllChannels(s, letters, after);
    PostAllChannels(s, letters, before);
  }

  /** The persisted state. Ids are minted in order, so `messages` lists them by insertion;
      `history` remembers the envelopes that `messages` no longer holds. */
  class StateObject {
    var channels: map<ChannelId, Channel>
    var nextChannel: nat
    var messages: map<MessageId, Envelope>
    var minted: nat
    var queues: map<Session, seq<MessageId>>
    var deliveredTo: map<MessageId, seq<Session>>
    ghost var history: seq<Envelope>

    ghost predicate Valid()
      reads this
    {
      minted == |history| && forall id :: id in messages ==> id < |history| && messages[id] == history[id]
    }

    ghost function Value(): State
      reads this
    {
      State(channels, nextChannel, history, messages.Keys, queues, deliveredTo)
    }

    constructor ()
      ensures Valid() && Value() == State(map[], 0, [], {}, map[], map[])
    {
      channels, nextChannel, messages, minted, queues, deliveredTo := map[], 0, map[], 0, map[], map[];
      history := [];
    }

    method SetEnvelope(id: MessageId, e: Envelope)
      requires Valid() && id in messages
      modifies this
      ensures Valid() && Value() == WithEnvelope(old(Value()), id, e)
    {
      messages := messages[id := e];
      history := history[id := e];
      assert messages.Keys == old(messages.Keys);
    }

    /** A fresh envelope at the back of its recipient's queue. */
    method Push(e: Envelope) returns (id: MessageId)
      requires Valid()
      modifies this
      ensures Valid() && Value() == Post(old(Value()), e) && id == old(minted)
    {
      id := minted;
      messages := messages[id := e];
      assert messages.Keys == old(messages.Keys) + {id};
      var queue := if e.recipient in queues then queues[e.recipient] else [];
      queues := queues[e.recipient := queue + [id]];
      minted := minted + 1;
      history := history + [e];
    }

    /** The checks drainQueue makes on one queued id, and what they do to its record. */
    method Offer(r: Session, now: int, gate: Gate, id: MessageId, first: bool) returns (verdict: Verdict)
      requires Valid()
      modifies this
      ensures Valid() && verdict == Judge(old(Value()), r, now, gate, id, first)
      ensures Value() == Judged(old(Value()), r, now, id, verdict)
    {
      if id !in messages {
        return Skip;
      }
      var msg := messages[id];
      if msg.recipient != r {
        return Skip;
      }
      if msg.channel !in channels {
        SetEnvelope(id, msg.(status := Rejected));
        return Drop(Rejected);
      }
      var channel := channels[msg.channel];
      if channel.paused {
        return Keep;
      }
      if msg.status == Delivered || msg.status == InFlight {
        return Skip;
      }
      if Expired(channel, msg, now) {
        SetEnvelope(id, msg.(status := Stale));
        return Drop(Stale);
      }
      if (now < CooldownUntil(channel, r) && first) || !Admits(gate, msg.channel) || OverBudget(channel, now) {
        return Keep;
      }
      HandOverMessage(id, r, now);
      verdict := Take;
    }

    /** In flight, one attempt and one unit of the budget later. */
    method HandOverMessage(id: MessageId, r: Session, now: int)
      requires Valid() && id in messages && messages[id].channel in channels
      modifies this
      ensures Valid()
      ensures Value() == Charge(WithEnvelope(old(Value()), id, old(messages[id]).(status := InFlight)), r, id, now)
    {
      var msg, channel := messages[id], channels[messages[id].channel];
      SetEnvelope(id, msg.(status := InFlight, attempts := msg.attempts + 1));
      channels := channels[msg.channel := channel.(
        deliveredTotal := channel.deliveredTotal + 1,
        cooldownUntil := channel.cooldownUntil[r := now + channel.cooldownMs])];
      var seen := if id in deliveredTo then deliveredTo[id] else [];
      deliveredTo := deliveredTo[id := if r in seen then seen else seen + [r]];
    }

    /** One turn of drainQueue's loop: the id goes to what remains, to the batch, or away. */
    method TakeNext(r: Session, now: int, gate: Gate, id: MessageId, remaining: seq<MessageId>,
          drained: seq<MessageId>, ghost rest: seq<MessageId>)
        returns (remaining': seq<MessageId>, drained': seq<MessageId>)
      requires Valid()
      modifies this
      ensures Valid() && queues == old(queues)
      ensures Onward(Value(), r, now, gate, remaining', rest, drained')
           == Onward(old(Value()), r, now, gate, remaining, [id] + rest, drained)
    {
      var verdict := Offer(r, now, gate, id, drained == []);
      DrainTurn(old(Value()), r, now, gate, remaining, id, rest, drained, verdict);
      remaining' := Kept(remaining, id, verdict);
      drained' := Batch(drained, id, verdict);
    }

    /** drainQueue's loop and the write-back of what remains. */
    method TakeQueued(r: Session, now: int, gate: Gate) returns (drained: seq<MessageId>)
      requires Valid()
      modifies this
      ensures Valid() && Drained(Value(), drained) == DrainFrom(Touch(old(Value()), r), r, now, gate, 0, [])
    {
      ghost var goal := DrainFrom(Touch(Value(), r), r, now, gate, 0, []);
      var queue := if r in queues then queues[r] else [];
      var remaining: seq<MessageId> := [];
      drained := [];
      OnwardFromFront(Value(), r, now, gate);
      assert queue[0..] == queue;
      for k := 0 to |queue|
        invariant Valid() && queues == old(queues)
        invariant Onward(Value(), r, now, gate, remaining, queue[k..], drained) == goal
      {
        assert queue[k..] == [queue[k]] + queue[k + 1..];
        remaining, drained := TakeNext(r, now, gate, queue[k], remaining, drained, queue[k + 1..]);
      }
      assert queue[|queue|..] == [];
      OnwardAtEnd(Value(), r, now, gate, remaining, drained);
      queues := queues[r := remaining];
    }

    /** `drainQueue`. */
    method DrainQueue(r: Session, now: int, gate: Gate) returns (drained: seq<MessageId>)
      requires Valid()
      modifies this
      ensures Valid() && Drained(Value(), drained) == Drain(old(Value()), r, now, gate)
    {
      drained := TakeQueued(r, now, gate);
      if drained != [] {
        PruneMessages();
      }
    }

    /** `pruneMessages`. */
    method PruneMessages()
      requires Valid()
      modifies this
      ensures Valid() && Value() == Prune(old(Value()))
    {
      var ids := IdsBelow(messages.Keys, minted);
      if |ids| > MAX_PERSISTED_MESSAGES {
        var sorted := SortMessages(ids);
        var doomed := Elements(sorted[..|ids| - MAX_PERSISTED_MESSAGES]);
        assert doomed == Doomed(Value());
        ForgetMessages(doomed);
      }
    }

    ghost predicate Known(ids: seq<MessageId>)
      reads this
    {
      forall i :: 0 <= i < |ids| ==> ids[i] in messages
    }

    /** `id` behind everything not younger than it. */
    method InsertMessage(sorted: seq<MessageId>, id: MessageId) returns (r: seq<MessageId>)
      requires Valid() && Known(sorted) && id in messages
      ensures Within(sorted, |history|) && r == InsertByTime(history, sorted, id) && Known(r)
    {
      var i := |sorted|;
      while i > 0 && messages[id].timestamp < messages[sorted[i - 1]].timestamp
        invariant 0 <= i <= |sorted|
        invariant forall j :: i <= j < |sorted| ==> history[id].timestamp < history[sorted[j]].timestamp
      {
        i := i - 1;
      }
      InsertSplit(history, sorted, id, i);
      r := sorted[..i] + [id] + sorted[i..];
    }

    /** The stable sort of ids by their envelopes' timestamps. */
    method SortMessages(ids: seq<MessageId>) returns (sorted: seq<MessageId>)
      requires Valid() && Known(ids)
      ensures Within(ids, |history|) && sorted == SortByTime(history, ids)
    {
      sorted := [];
      for k := 0 to |ids|
        invariant Known(sorted) && Within(ids[..k], |history|)
        invariant sorted == SortByTime(history, ids[..k])
      {
        SortSnoc(history, ids, k);
        sorted := InsertMessage(sorted, ids[k]);
      }
      assert ids[..|ids|] == ids;
    }

    /** Filter `doomed` out of every queue. */
    method FilterQueues(doomed: set<MessageId>)
      modifies this`queues
      ensures queues == map r | r in old(queues) :: Without(old(queues)[r], doomed)
    {
      var keys := queues.Keys;
      while keys != {}
        invariant keys <= queues.Keys == old(queues.Keys)
        invariant forall r :: r in queues ==>
                    queues[r] == if r in keys then old(queues)[r] else Without(old(queues)[r], doomed)
        decreases keys
      {
        var r :| r in keys;
        queues := queues[r := Without(queues[r], doomed)];
        keys := keys - {r};
      }
    }

    /** Delete envelopes with their delivered_to rows and every queue reference to them. */
    method ForgetMessages(doomed: set<MessageId>)
      requires Valid()
      modifies this
      ensures Valid() && Value() == Forget(old(Value()), doomed)
    {
      messages := messages - doomed;
      deliveredTo := deliveredTo - doomed;
      FilterQueues(doomed);
      assert messages.Keys == old(messages.Keys) - doomed;
    }

    /** `commitDelivery`. */
    method CommitDelivery(r: Session, ids: seq<MessageId>, now: int, transport: Transport)
      requires Valid()
      modifies this
      ensures Valid() && Value() == Commit(old(Value()), r, ids, now, transport)
    {
      for k := 0 to |ids|
        invariant Valid()
        invariant Commit(Value(), r, ids[k..], now, transport) == Commit(old(Value()), r, ids, now, transport)
      {
        assert ids[k..][1..] == ids[k + 1..];
        var id := ids[k];
        if id in messages && messages[id].status == InFlight && messages[id].recipient == r {
          SetEnvelope(id, messages[id].(status := Delivered, deliveredAt := Some(now), transport := Some(transport)));
        }
      }
    }

    /** opencomms_pull: drain and commit in one locked step. */
    method Pull(r: Session, now: int) returns (batch: seq<MessageId>)
      requires Valid()
      modifies this
      ensures Valid() && batch == Drain(old(Value()), r, now, None).ids
      ensures Value() == Commit(Drain(old(Value()), r, now, None).state, r, batch, now, PullTransport)
    {
      batch := DrainQueue(r, now, None);
      CommitDelivery(r, batch, now, PullTransport);
    }

    method ReleaseMessage(id: MessageId)
      requires Valid()
      modifies this
      ensures Valid() && Value() == ReleaseOne(old(Value()), id)
    {
      if id in messages && (messages[id].status == Delivered || messages[id].status == InFlight) {
        var msg := messages[id];
        if msg.attempts >= MAX_DELIVERY_ATTEMPTS {
          SetEnvelope(id, msg.(status := Failed, deliveredAt := None));
        } else {
          SetEnvelope(id, msg.(status := Pending, deliveredAt := None));
        }
      }
    }

    /** The first loop of requeueFailedDelivery: give every envelope its new status. */
    method ReleaseMessages(ids: seq<MessageId>)
      requires Valid()
      modifies this
      ensures Valid() && Value() == old(Value()).(log := history) && ReleasedIn(old(Value()), ids, history)
    {
      for k := 0 to |ids|
        invariant Valid() && Value() == old(Value()).(log := history)
        invariant ReleasedIn(old(Value()), ids[..k], history)
      {
        ReleasedSnoc(old(Value()), ids, k, history);
        ReleaseMessage(ids[k]);
      }
      assert ids[..|ids|] == ids;
    }

    /** Put the eligible ids that are missing from a queue at its front, last first. */
    method Unshift(queue: seq<MessageId>, ids: seq<MessageId>, eligible: set<MessageId>) returns (r: seq<MessageId>)
      ensures r == PushFront(queue, ids, eligible)
    {
      r := queue;
      var i := |ids|;
      assert ids[..i] == ids;
      while i > 0
        invariant 0 <= i <= |ids|
        invariant PushFront(r, ids[..i], eligible) == PushFront(queue, ids, eligible)
      {
        i := i - 1;
        assert ids[..i + 1][..i] == ids[..i] && ids[..i + 1][i] == ids[i];
        if ids[i] in eligible && ids[i] !in r {
          r := [ids[i]] + r;
        }
      }
    }

    /** `requeueFailedDelivery`. */
    method RequeueFailedDelivery(r: Session, ids: seq<MessageId>)
      requires Valid()
      modifies this
      ensures Valid() && Value() == Requeue(old(Value()), r, ids)
    {
      ghost var s := Value();
      var queue := if r in queues then queues[r] else [];
      ReleaseMessages(ids);
      var pending := set id | id in messages && messages[id].status == Pending;
      PendingAreReady(s, ids, history, pending);
      SameReady(queue, ids, pending, Ready(s));
      queue := Unshift(queue, ids, pending);
      RequeueForm(s, r, ids, history, queue);
      queues := queues[r := queue];
    }

    /** One turn of sweepInFlight's first loop. */
    method GroupNext(spared: set<Session>, id: MessageId, byRecipient: map<Session, seq<MessageId>>,
          order: seq<Session>, ghost s: State, ghost seen: seq<MessageId>)
        returns (next: map<Session, seq<MessageId>>, nextOrder: seq<Session>)
      requires Valid() && Value() == s.(log := history) && SweepProgress(s, spared, seen, history, byRecipient)
      requires id in messages && id !in seen && order == Encountered(s, spared, seen)
      modifies this
      ensures Valid() && Value() == s.(log := history) && SweepProgress(s, spared, seen + [id], history, next)
      ensures nextOrder == Encountered(s, spared, seen + [id])
    {
      SweepTurn(s, spared, seen, id, history, byRecipient);
      OrderTurn(s, spared, seen, id, byRecipient);
      next, nextOrder := byRecipient, order;
      var msg := messages[id];
      if msg.status == InFlight && msg.recipient !in spared {
        if msg.recipient !in byRecipient {
          nextOrder := order + [msg.recipient];
        }
        SetEnvelope(id, Restored(msg));
        next := next[msg.recipient := Grouped(next, msg.recipient) + [id]];
      }
    }

    /** sweepInFlight's first loop: everything stranded is pending again, grouped by recipient
        in the order of the messages. */
    method GroupStranded(spared: set<Session>)
        returns (byRecipient: map<Session, seq<MessageId>>, order: seq<Session>)
      requires Valid()
      modifies this
      ensures Valid() && Value() == old(Value()).(log := SweptLog(old(Value()), spared))
      ensures order == Encountered(old(Value()), spared, LiveIds(old(Value())))
      ensures byRecipient.Keys == SweptRecipients(old(Value()), spared)
      ensures forall r :: r in byRecipient ==>
                byRecipient[r] == StrandedAmong(old(Value()), spared, r, LiveIds(old(Value())))
    {
      ghost var s := Value();
      var ids := IdsBelow(messages.Keys, minted);
      IdsBelowIncreasing(messages.Keys, minted);
      byRecipient, order := map[], [];
      for k := 0 to |ids|
        invariant Valid() && Value() == s.(log := history)
        invariant SweepProgress(s, spared, ids[..k], history, byRecipient)
        invariant order == Encountered(s, spared, ids[..k])
      {
        NextOf(ids, k);
        byRecipient, order := GroupNext(spared, ids[k], byRecipient, order, s, ids[..k]);
      }
      assert ids[..|ids|] == ids == LiveIds(s);
      SweptWhole(s, spared, history);
      StrandedHaveRecipients(s, spared, byRecipient);
    }

    /** `sweepInFlight`. */
    method SweepInFlight(spared: set<Session>) returns (swept: seq<MessageId>)
      requires Valid()
      modifies this
      ensures Valid() && Value() == Sweep(old(Value()), spared) && swept == SweptIds(old(Value()), spared)
    {
      ghost var s := Value();
      var byRecipient, order := GroupStranded(spared);
      GroupsAreRecovered(s, spared, byRecipient);
      SweepRequeues(s, spared);
      swept := RestoreQueues(byRecipient, order, RecoveredGroups(s, spared));
    }

    /** sweepInFlight's second loop, recipient by recipient. */
    method RestoreQueues(byRecipient: map<Session, seq<MessageId>>, order: seq<Session>,
          ghost groups: map<Session, seq<MessageId>>) returns (swept: seq<MessageId>)
      requires Valid() && Sorted(history, byRecipient, groups)
      requires forall k :: 0 <= k < |order| ==> order[k] in byRecipient
      requires forall r, i :: r in byRecipient && 0 <= i < |byRecipient[r]| ==> byRecipient[r][i] in messages
      modifies this`queues
      ensures Valid() && queues == Requeued(old(queues), messages.Keys, groups, order) && swept == Told(groups, order)
    {
      swept := [];
      for k := 0 to |order|
        invariant queues == Requeued(old(queues), messages.Keys, groups, order[..k])
        invariant swept == Told(groups, order[..k])
      {
        RestoredNext(old(queues), messages.Keys, groups, order, k);
        var back := RestoreNext(byRecipient, order[k], groups);
        swept := swept + back;
      }
      assert order[..|order|] == order;
    }

    /** One recipient's turn: its queue with its group back in front. */
    method RestoreNext(byRecipient: map<Session, seq<MessageId>>, r: Session,
          ghost groups: map<Session, seq<MessageId>>) returns (back: seq<MessageId>)
      requires Valid() && r in byRecipient && Sorted(history, byRecipient, groups)
      requires forall r, i :: r in byRecipient && 0 <= i < |byRecipient[r]| ==> byRecipient[r][i] in messages
      modifies this`queues
      ensures queues == old(queues)[r := PushFront(Grouped(old(queues), r), Grouped(groups, r), messages.Keys)]
      ensures back == Backwards(Grouped(groups, r))
    {
      var queue;
      queue, back := RestoreQueue(Grouped(queues, r), byRecipient[r]);
      queues := queues[r := queue];
    }

    /** Oldest first, in front of what is queued; reported as they are put back, last first. */
    method RestoreQueue(queue: seq<MessageId>, ids: seq<MessageId>)
        returns (r: seq<MessageId>, back: seq<MessageId>)
      requires Valid() && Known(ids)
      ensures Within(ids, |history|) && r == PushFront(queue, SortByTime(history, ids), messages.Keys)
      ensures back == Backwards(SortByTime(history, ids))
    {
      var sorted := SortMessages(ids);
      r, back := queue, [];
      var i := |sorted|;
      assert sorted[..i] == sorted && sorted[i..] == [];
      while i > 0
        invariant 0 <= i <= |sorted| && back == Backwards(sorted[i..])
        invariant PushFront(r, sorted[..i], messages.Keys) == PushFront(queue, sorted, messages.Keys)
      {
        i := i - 1;
        assert sorted[..i + 1][..i] == sorted[..i] && sorted[..i + 1][i] == sorted[i];
        assert sorted[i..][1..] == sorted[i + 1..] && sorted[i..][0] == sorted[i];
        if sorted[i] in messages && sorted[i] !in r {
          r := [sorted[i]] + r;
        }
        back := back + [sorted[i]];
      }
    }

    method RejectMessage(id: MessageId)
      requires Valid()
      modifies this
      ensures Valid() && Value() == RejectOne(old(Value()), id)
    {
      if id in messages && messages[id].status == Pending {
        SetEnvelope(id, messages[id].(status := Rejected));
      }
    }

    /** `removeMember`. */
    method RemoveMember(c: ChannelId, m: Session, now: int)
      requires Valid() && c in channels
      modifies this
      ensures Valid() && Value() == Remove(old(Value()), c, m, now)
    {
      var queue := if m in queues then queues[m] else [];
      channels := channels[c := Departed(channels[c], m, now)];
      ghost var s := Value();
      RejectWhole(s, m);
      assert queue[0..] == queue;
      for k := 0 to |queue|
        invariant Valid() && Value() == s.(log := history)
        invariant RejectRest(Value(), m, queue[k..]) == RejectQueue(s, m)
      {
        assert queue[k..] == [queue[k]] + queue[k + 1..];
        RejectTurn(Value(), m, queue[k], queue[k + 1..]);
        RejectMessage(queue[k]);
      }
      assert queue[|queue|..] == [];
      RejectWhole(Value(), m);
      queues := queues - {m};
    }

    /** Post a batch of fresh envelopes, one by one. */
    method PushAll(es: seq<Envelope>)
      requires Valid()
      modifies this
      ensures Valid() && Value() == PostAll(old(Value()), es) && channels == old(channels)
    {
      assert es[0..] == es;
      for k := 0 to |es|
        invariant Valid() && channels == old(channels)
        invariant PostAll(Value(), es[k..]) == PostAll(old(Value()), es)
      {
        assert es[k..][1..] == es[k + 1..];
        var id := Push(es[k]);
      }
      assert es[|es|..] == [];
    }

    /** removeMember, queueRemovalNotices and the final prune of a kick. */
    method KickMember(c: ChannelId, caller: Option<Session>, targetId: Option<string>, targetRole: Option<string>,
          now: int) returns (kicked: bool)
      requires Valid()
      modifies this
      ensures Valid() && Value() == Kick(old(Value()), c, caller, targetId, targetRole, now)
      ensures kicked <==> c in old(channels) && KickTarget(old(channels)[c], caller, targetId, targetRole).Some?
    {
      if c !in channels {
        return false;
      }
      var target := KickTarget(channels[c], caller, targetId, targetRole);
      if target.None? {
        return false;
      }
      var remaining := Others(channels[c].members, target.value);
      RemoveMember(c, target.value, now);
      PushAll(Notices(c, caller.GetOr(OPERATOR), remaining, minted, now));
      PruneMessages();
      kicked := true;
    }

    /** `commitSessionSave`. */
    method CommitSessionSave(c: ChannelId)
      requires Valid()
      modifies this
      ensures Valid() && Value() == Purge(old(Value()), c)
    {
      var doomed := set id | id in messages && messages[id].channel == c;
      assert doomed == OfChannel(Value(), c);
      ForgetMessages(doomed);
      channels := channels - {c};
    }

    /** `markStale`, channel by channel. */
    method MarkMemberStale(m: Session, now: int)
      requires Valid()
      modifies this
      ensures Valid() && Value() == MarkStale(old(Value()), m, now)
    {
      ghost var s := Value();
      var left := channels.Keys;
      while left != {}
        invariant Valid() && Value() == s.(channels := channels)
        invariant left <= channels.Keys == s.channels.Keys
        invariant forall c :: c in channels ==>
                    channels[c] == if c in left then s.channels[c] else MarkStale(s, m, now).channels[c]
        decreases left
      {
        var c :| c in left;
        var channel := channels[c];
        channels := channels[c := channel.(
          members := Flag(channel.members, m, true), timer := ChessClock.Leave(channel.timer, m, now))];
        left := left - {c};
      }
      assert channels == MarkStale(s, m, now).channels;
    }

    /** `clearStale`, channel by channel. */
    method ClearMemberStale(m: Session)
      requires Valid()
      modifies this
      ensures Valid() && Value() == ClearStale(old(Value()), m)
    {
      ghost var s := Value();
      var left := channels.Keys;
      while left != {}
        invariant Valid() && Value() == s.(channels := channels)
        invariant left <= channels.Keys == s.channels.Keys
        invariant forall c :: c in channels ==>
                    channels[c] == if c in left then s.channels[c] else ClearStale(s, m).channels[c]
        decreases left
      {
        var c :| c in left;
        channels := channels[c := channels[c].(members := Flag(channels[c].members, m, false))];
        left := left - {c};
      }
      assert channels == ClearStale(s, m).channels;
    }

    /** `createChannel`, and `createSessionAsOperator` without a founder. */
    method CreateChannel(config: Config, founder: Option<Member>, now: int) returns (c: ChannelId)
      requires Valid()
      modifies this
      ensures Valid() && Value() == Create(old(Value()), config, founder, now) && c == old(nextChannel)
    {
      c := nextChannel;
      var members := if founder.Some? then [founder.value] else [];
      channels := channels[c := NewChannel(config, members, now)];
      nextChannel := nextChannel + 1;
    }

    /** `joinChannel`: a place is for a newcomer, while there is room and the role is free. */
    method JoinChannel(c: ChannelId, m: Member) returns (joined: bool)
      requires Valid()
      modifies this
      ensures Valid() && Value() == Join(old(Value()), c, m)
      ensures joined <==> c in old(channels) && MayJoin(old(channels)[c], m)
    {
      if c !in channels || channels[c].lifecycle != Active {
        return false;
      }
      var channel := channels[c];
      if IsMember(channel, m.session) || |channel.members| >= channel.maxMembers {
        return false;
      }
      if ByRole(channel.members, m.role).Some? {
        return false;
      }
      channels := channels[c := channel.(members := channel.members + [m])];
      joined := true;
    }

    /** `setSessionPausedAsOperator`, which the members' pause and resume share. */
    method SetSessionPaused(c: ChannelId, paused: bool) returns (known: bool)
      requires Valid()
      modifies this
      ensures Valid() && Value() == SetPaused(old(Value()), c, paused) && known == (c in old(channels))
    {
      known := c in channels;
      if known && channels[c].paused != paused {
        channels := channels[c := channels[c].(paused := paused)];
      }
    }

    /** A task's pending message is withdrawn when the task is handed to somebody else. */
    method WithdrawMessage(id: MessageId)
      requires Valid()
      modifies this
      ensures Valid() && Value() == Withdraw(old(Value()), id)
    {
      if id in messages && messages[id].status == Pending {
        var r := messages[id].recipient;
        SetEnvelope(id, messages[id].(status := Rejected));
        queues := queues[r := Without(if r in queues then queues[r] else [], {id})];
      }
    }

    /** Reply lineage from the messages still held. */
    method FindThread(replyTo: Option<MessageId>) returns (thread: Thread)
      requires Valid()
      ensures thread == ThreadOf(Value(), replyTo, minted)
    {
      thread := Thread(minted, 0, None);
      if replyTo.Some? && replyTo.value in messages {
        var parent := messages[replyTo.value];
        thread := Thread(parent.correlation, parent.hop + 1, Some(parent.root.GetOr(replyTo.value)));
      }
    }

    /** The checks of enqueueMessage that change nothing, up to the recipients. */
    method CheckSend(c: ChannelId, draft: Draft, sender: Session, operator: bool,
          now: int) returns (refusal: Option<Refusal>, to: seq<Member>)
      requires Valid()
      ensures refusal.Some? ==>
                refusal == SendRefusal(Value(), c, draft, sender, operator, now) && !IsLate(refusal.value)
      ensures refusal.None? ==>
                && c in channels && to == Resolve(channels[c], sender, draft.target) && to != []
                && SendRefusal(Value(), c, draft, sender, operator, now) ==
                   LateRefusal(Value(), channels[c], draft, sender, now)
    {
      to := [];
      if operator && (!draft.target.Direct? || sender != OPERATOR) {
        return Some(NoRecipient), to;
      }
      if c !in channels {
        return Some(NoChannel), to;
      }
      var channel := channels[c];
      if !operator && !IsMember(channel, sender) {
        return Some(NotMember), to;
      }
      if channel.lifecycle != Active {
        return Some(Inactive), to;
      }
      if channel.paused {
        return Some(ChannelPaused), to;
      }
      if OverBudget(channel, now) {
        return Some(BudgetSpent), to;
      }
      if IsBlank(draft.content) {
        return Some(Blank), to;
      }
      if |draft.content| > MAX_CONTENT {
        return Some(TooLong), to;
      }
      if draft.kind == System || draft.kind == Unknown {
        return Some(BadType), to;
      }
      to := Resolve(channel, sender, draft.target);
      refusal := if to == [] then Some(NoRecipient) else None;
    }

    /** Rate limit, repeated content and hop limit, counted as they are checked. */
    method CountSend(c: ChannelId, draft: Draft, sender: Session, now: int)
        returns (refusal: Option<Refusal>, thread: Thread)
      requires Valid() && c in channels
      modifies this`channels
      ensures refusal == LateRefusal(old(Value()), old(channels)[c], draft, sender, now)
      ensures refusal.None? ==> thread == ThreadOf(old(Value()), draft.replyTo, minted)
      ensures channels == old(channels)[c := if refusal.None? then Counted(old(channels)[c], sender, draft.content, now)
                                             else RefusedLate(old(channels)[c], refusal.value, now)]
    {
      thread := Thread(minted, 0, None);
      var channel := channels[c];
      var (start, count) := RateWindow(channel, now);
      channel := channel.(rateStart := start, rateCount := count + 1);
      channels := channels[c := channel];
      if channel.rateCount > channel.rateLimit {
        return Some(RateLimited), thread;
      }
      var key := (sender, draft.content);
      SweepsSame(old(channels)[c], channel, now);
      channel := channel.(seen := SweepSeen(channel, now));
      channels := channels[c := channel];
      if key in channel.seen && now - channel.seen[key] < channel.staleMs {
        return Some(Duplicate), thread;
      }
      thread := FindThread(draft.replyTo);
      if thread.hop > channel.maxHops {
        return Some(TooDeep), thread;
      }
      channels := channels[c := channel.(seen := channel.seen[key := now])];
      refusal := None;
    }

    /** `enqueueMessage`: a send refused late has already counted in the rate window or swept
        the content cache of the object, which its caller then does not save. */
    method EnqueueMessage(c: ChannelId, draft: Draft, sender: Session, operator: bool,
          now: int) returns (refusal: Option<Refusal>)
      requires Valid()
      modifies this
      ensures Valid() && refusal == SendRefusal(old(Value()), c, draft, sender, operator, now)
      ensures refusal.None? ==> Value() == Send(old(Value()), c, draft, sender, operator, now)
      ensures refusal.Some? && !IsLate(refusal.value) ==> Value() == old(Value())
      ensures refusal.Some? && IsLate(refusal.value) ==> c in old(channels)
      ensures refusal.Some? && IsLate(refusal.value) ==>
                var late := RefusedLate(old(channels)[c], refusal.value, now);
                Value() == old(Value()).(channels := old(channels)[c := late])
    {
      ghost var s := Value();
      var to, thread;
      refusal, to := CheckSend(c, draft, sender, operator, now);
      if refusal.Some? {
        return;
      }
      refusal, thread := CountSend(c, draft, sender, now);
      if refusal.Some? {
        return;
      }
      PostLetters(c, draft, sender, to, thread, now, s);
    }

    /** The rest of an accepted send: a letter for each recipient, the clock to the first of
        them, and the final prune. */
    method PostLetters(c: ChannelId, draft: Draft, sender: Session, to: seq<Member>, thread: Thread, now: int,
          ghost s: State)
      requires Valid() && c in s.channels && to == Resolve(s.channels[c], sender, draft.target) && to != []
      requires thread == ThreadOf(s, draft.replyTo, |s.log|)
      requires Value() == s.(channels := s.channels[c := Counted(s.channels[c], sender, draft.content, now)])
      modifies this
      ensures Valid() && Value() == Prune(Enqueue(s, c, draft, sender, now))
    {
      ghost var counted := channels;
      PushAll(Letters(c, draft, sender, to, thread, now));
      channels := channels[c := channels[c].(timer := ChessClock.SwitchTo(channels[c].timer, to[0].session, now))];
      EnqueueAnyOrder(s, c, draft, sender, now, counted, channels);
      PruneMessages();
    }

    /** A caller of a send: what a refused one did to the loaded object is not saved. */
    method SendMessage(c: ChannelId, draft: Draft, sender: Session, operator: bool,
          now: int) returns (refusal: Option<Refusal>)
      requires Valid()
      modifies this
      ensures Valid() && refusal == SendRefusal(old(Value()), c, draft, sender, operator, now)
      ensures Value() == Send(old(Value()), c, draft, sender, operator, now)
    {
      var saved := channels;
      refusal := EnqueueMessage(c, draft, sender, operator, now);
      if refusal.Some? {
        channels := saved;
      }
    }

    /** `disconnectChannel`; the last member to leave takes the channel along. */
    method DisconnectMember(c: ChannelId, m: Session, now: int) returns (left: bool)
      requires Valid()
      modifies this
      ensures Valid() && Value() == Disconnect(old(Value()), c, m, now)
      ensures left <==> c in old(channels) && IsMember(old(channels)[c], m)
    {
      left := c in channels && IsMember(channels[c], m);
      if left {
        var remaining := Others(channels[c].members, m);
        RemoveMember(c, m, now);
        if remaining == [] {
          channels := channels - {c};
        }
      }
    }

    /** `foldRunningSegment` on a timer that is then put back. */
    method FoldSegment(timer: Timer, now: int) returns (t: Timer)
      ensures t == ChessClock.Fold(timer, now)
    {
      t := timer;
      if t.active.Some? && t.started.Some? {
        var id := t.active.value;
        var current := if id in t.elapsed then t.elapsed[id] else 0;
        t := t.(elapsed := t.elapsed[id := current + (now - t.started.value)]);
      }
    }

    /** `timerAction`: who is not a member, or names nobody, is refused and changes nothing. */
    method ActOnTimer(c: ChannelId, m: Session, action: TimerAction, now: int) returns (ok: bool)
      requires Valid()
      modifies this
      ensures Valid() && Value() == TimerOp(old(Value()), c, m, action, now)
      ensures ok <==> c in old(channels) && IsMember(old(channels)[c], m) && Acceptable(old(channels)[c], m, action)
      ensures !ok ==> Value() == old(Value())
    {
      if c !in channels || !IsMember(channels[c], m) {
        return false;
      }
      var timer;
      ok, timer := NextTimer(channels[c], m, action, now);
      channels := channels[c := channels[c].(timer := timer)];
      if !ok {
        assert channels == old(channels);
      }
    }

    method NextTimer(channel: Channel, m: Session, action: TimerAction, now: int) returns (ok: bool, timer: Timer)
      ensures timer == Tick(channel, m, action, now) && ok == Acceptable(channel, m, action)
      ensures !ok ==> timer == channel.timer
    {
      ok, timer := true, channel.timer;
      match action {
        case Start =>
          if timer.active.None? {
            timer := timer.(active := Some(m), started := Some(now));
          }
        case Halt =>
          if timer.active.Some? {
            timer := FoldSegment(timer, now);
            timer := timer.(active := None, started := None);
          }
        case Switch(key) =>
          var target := SwitchTarget(channel, m, key);
          ok := target.Some?;
          if ok {
            timer := FoldSegment(timer, now);
            timer := timer.(active := Some(target.value.session), started := Some(now));
          }
        case Reset =>
          timer := timer.(active := None, started := None, elapsed := map[]);
        case SetLimit(ms, key) =>
          var target := if key.Some? then Named(channel.members, key.value) else None;
          ok := ms > 0 && (key.Some? ==> target.Some?);
          if ok {
            timer := timer.(limit := Some(ms), limitMember := if key.Some? then Some(target.value.session) else None);
          }
        case ClearLimit =>
          timer := timer.(limit := None, limitMember := None);
      }
    }
  }
}
