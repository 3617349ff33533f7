/** Draining and requeueing a queue whose mail is from one channel
    (src/core/engine.ts:1106-1129, 1207-1285). */
module RoundTrip {
  import opened Seqs
  import opened Types
  import opened Retention
  import opened Delivery
  import opened Queues
  import opened Effects

  /** A drain at `now` discards `id` whatever else the queue holds. */
  predicate Lapses(s: State, now: int, id: MessageId) {
    id < |s.log| &&
    var e := s.log[id];
    e.channel in s.channels ==> !s.channels[e.channel].paused && Expired(s.channels[e.channel], e, now)
  }

  /** The ids a drain at `now` does not discard, in their order. */
  function Lasting(s: State, now: int, q: seq<MessageId>): (r: seq<MessageId>)
    ensures forall x :: x in r ==> x in q
  {
    if q == [] then []
    else (if Lapses(s, now, q[0]) then [] else [q[0]]) + Lasting(s, now, q[1..])
  }

  ghost predicate FromChannel(s: State, c: ChannelId, q: seq<MessageId>) {
    forall i :: 0 <= i < |q| ==> q[i] < |s.log| && s.log[q[i]].channel == c
  }

  /** Nothing of channel `c` can be handed to `r` now; `first` while nothing is drained. */
  predicate Blocked(s: State, r: Session, now: int, gate: Gate, c: ChannelId, first: bool) {
    c in s.channels &&
    var ch := s.channels[c];
    ch.paused || (now < CooldownUntil(ch, r) && first) || !Admits(gate, c) || OverBudget(ch, now)
  }

  /** What decides whether mail of `c` lapses is the same in `t`. */
  ghost predicate SameTerms(s: State, t: State, c: ChannelId) {
    && (c in s.channels <==> c in t.channels)
    && (c in s.channels ==>
          && t.channels[c].paused == s.channels[c].paused
          && t.channels[c].members == s.channels[c].members
          && t.channels[c].staleMs == s.channels[c].staleMs)
  }

  lemma {:induction false} LastingSame(s: State, t: State, now: int, c: ChannelId, q: seq<MessageId>)
    requires FromChannel(s, c, q) && SameTerms(s, t, c)
    requires |t.log| == |s.log| && forall i :: 0 <= i < |q| ==> t.log[q[i]] == s.log[q[i]]
    ensures Lasting(t, now, q) == Lasting(s, now, q)
  {
    if q != [] {
      LastingSame(s, t, now, c, q[1..]);
    }
  }

  /** The queue after position `i` when the id there leaves it. */
  lemma TailAfterRemoval(q: seq<MessageId>, i: nat)
    requires i < |q|
    ensures RemoveAt(q, i)[..i] == q[..i] && RemoveAt(q, i)[i..] == q[i..][1..] && q[i..][0] == q[i]
  {
  }

  /** `taken` and `rest` split what lasts of `r`'s queue from position `i` on: a drain from
      there adds `taken` to `ids` and leaves `rest`; once it has kept an id it takes nothing. */
  ghost predicate Splits(s: State, r: Session, now: int, i: nat, ids: seq<MessageId>, d: Drained,
        taken: seq<MessageId>, rest: seq<MessageId>) {
    && i <= |QueueOf(s, r)|
    && d.ids == ids + taken
    && QueueOf(d.state, r) == QueueOf(s, r)[..i] + rest
    && taken + rest == Lasting(s, now, QueueOf(s, r)[i..])
    && (i > 0 ==> taken == [])
  }

  /** `u` is `s` with the i-th id of `r`'s queue taken out. */
  ghost predicate TakesOut(s: State, u: State, r: Session, i: nat, c: ChannelId) {
    && i < |QueueOf(s, r)| && QueueOf(u, r) == RemoveAt(QueueOf(s, r), i)
    && |u.log| == |s.log| && SameTerms(s, u, c)
    && forall id :: 0 <= id < |s.log| ==>
         && u.log[id].channel == s.log[id].channel
         && (id != QueueOf(s, r)[i] ==> u.log[id] == s.log[id])
  }

  lemma RemovalKeepsChannel(s: State, u: State, r: Session, i: nat, c: ChannelId)
    requires TakesOut(s, u, r, i, c) && FromChannel(s, c, QueueOf(s, r))
    ensures FromChannel(u, c, QueueOf(u, r))
  {
    var q := QueueOf(s, r);
    forall k | 0 <= k < |QueueOf(u, r)|
      ensures QueueOf(u, r)[k] < |u.log| && u.log[QueueOf(u, r)[k]].channel == c
    {
      assert QueueOf(u, r)[k] == q[if k < i then k else k + 1];
    }
  }

  lemma RemovalKeepsLasting(s: State, u: State, r: Session, i: nat, now: int, c: ChannelId)
    requires TakesOut(s, u, r, i, c) && FromChannel(s, c, QueueOf(s, r)) && QueueInv(s)
    ensures var tail := QueueOf(s, r)[i..];
            Lasting(s, now, tail) == (if Lapses(s, now, tail[0]) then [] else [tail[0]]) + Lasting(u, now, tail[1..])
  {
    var q := QueueOf(s, r);
    var tail := q[i..];
    assert QueueOk(s, r, q);
    forall k | 0 <= k < |tail[1..]|
      ensures tail[1..][k] < |s.log| && s.log[tail[1..][k]].channel == c && u.log[tail[1..][k]] == s.log[tail[1..][k]]
    {
      assert tail[1..][k] == q[i + 1 + k] && q[i + 1 + k] != q[i];
    }
    LastingSame(s, u, now, c, tail[1..]);
  }

  /** `u` is what the loop goes on from, with `ids'` drained, once the i-th id is out. */
  ghost predicate Continues(s: State, u: State, r: Session, now: int, gate: Gate, i: nat, ids: seq<MessageId>,
        ids': seq<MessageId>, c: ChannelId) {
    && QueueInv(u) && FromChannel(u, c, QueueOf(u, r)) && TakesOut(s, u, r, i, c)
    && DrainFrom(s, r, now, gate, i, ids) == DrainFrom(u, r, now, gate, i, ids')
  }

  lemma HandOverContinues(s: State, r: Session, now: int, gate: Gate, ids: seq<MessageId>, c: ChannelId)
    requires QueueInv(s) && QueueOf(s, r) != [] && FromChannel(s, c, QueueOf(s, r))
    requires Judge(s, r, now, gate, QueueOf(s, r)[0], ids == []) == Take
    ensures Continues(s, HandOver(s, r, 0, now), r, now, gate, 0, ids, ids + [QueueOf(s, r)[0]], c)
    ensures !Lapses(s, now, QueueOf(s, r)[0])
  {
    HandOverKeeps(s, r, 0, now);
    RemovalKeepsChannel(s, HandOver(s, r, 0, now), r, 0, c);
  }

  lemma DropContinues(s: State, r: Session, now: int, gate: Gate, i: nat, ids: seq<MessageId>, status: Status,
        c: ChannelId)
    requires QueueInv(s) && i < |QueueOf(s, r)| && FromChannel(s, c, QueueOf(s, r))
    requires Judge(s, r, now, gate, QueueOf(s, r)[i], ids == []) == Drop(status)
    ensures Continues(s, Dequeue(s, r, i, status), r, now, gate, i, ids, ids, c)
    ensures Dequeue(s, r, i, status).channels == s.channels && Lapses(s, now, QueueOf(s, r)[i])
  {
    DequeueKeeps(s, r, i, status);
    RemovalKeepsChannel(s, Dequeue(s, r, i, status), r, i, c);
  }

  /** The id at position `i` is out: what the loop gives from `u` is what it gives from `s`. */
  lemma SplitsAfterDrop(s: State, u: State, r: Session, now: int, i: nat, ids: seq<MessageId>, d: Drained,
        taken: seq<MessageId>, rest: seq<MessageId>, c: ChannelId)
    requires QueueInv(s) && FromChannel(s, c, QueueOf(s, r)) && TakesOut(s, u, r, i, c)
    requires Lapses(s, now, QueueOf(s, r)[i]) && Splits(u, r, now, i, ids, d, taken, rest)
    ensures Splits(s, r, now, i, ids, d, taken, rest)
  {
    TailAfterRemoval(QueueOf(s, r), i);
    RemovalKeepsLasting(s, u, r, i, now, c);
  }

  lemma SplitsAfterTake(s: State, u: State, r: Session, now: int, ids: seq<MessageId>, d: Drained,
        more: seq<MessageId>, rest: seq<MessageId>, c: ChannelId)
    requires QueueInv(s) && FromChannel(s, c, QueueOf(s, r)) && TakesOut(s, u, r, 0, c)
    requires !Lapses(s, now, QueueOf(s, r)[0])
    requires Splits(u, r, now, 0, ids + [QueueOf(s, r)[0]], d, more, rest)
    ensures Splits(s, r, now, 0, ids, d, [QueueOf(s, r)[0]] + more, rest)
  {
    var q := QueueOf(s, r);
    TailAfterRemoval(q, 0);
    RemovalKeepsLasting(s, u, r, 0, now, c);
    AppendAssoc(ids, q[0], more);
    PrependAssoc(q[0], more, rest);
  }

  lemma SplitsAfterKeep(s: State, r: Session, now: int, i: nat, ids: seq<MessageId>, d: Drained,
        taken: seq<MessageId>, rest: seq<MessageId>)
    requires i < |QueueOf(s, r)| && !Lapses(s, now, QueueOf(s, r)[i])
    requires Splits(s, r, now, i + 1, ids, d, taken, rest)
    ensures Splits(s, r, now, i, ids, d, taken, [QueueOf(s, r)[i]] + rest)
  {
    var q := QueueOf(s, r);
    assert q[..i + 1] + rest == q[..i] + ([q[i]] + rest);
    assert q[i..][1..] == q[i + 1..] && q[i..][0] == q[i];
    assert [] + rest == rest;
  }

  lemma KeptMeansBlocked(s: State, r: Session, now: int, gate: Gate, i: nat, first: bool, c: ChannelId)
    requires QueueInv(s) && i < |QueueOf(s, r)| && FromChannel(s, c, QueueOf(s, r))
    requires Judge(s, r, now, gate, QueueOf(s, r)[i], first) == Keep
    ensures Blocked(s, r, now, gate, c, first) && !Lapses(s, now, QueueOf(s, r)[i])
  {
    DequeueKeeps(s, r, i, Stale);
  }

  lemma TakenMeansOpen(s: State, r: Session, now: int, gate: Gate, i: nat, first: bool, c: ChannelId)
    requires i < |QueueOf(s, r)| && FromChannel(s, c, QueueOf(s, r))
    requires Judge(s, r, now, gate, QueueOf(s, r)[i], first) == Take
    ensures !Blocked(s, r, now, gate, c, first)
  {
  }

  lemma {:induction false} DrainSplits(s: State, r: Session, now: int, gate: Gate, i: nat, ids: seq<MessageId>,
        c: ChannelId)
      returns (taken: seq<MessageId>, rest: seq<MessageId>)
    requires QueueInv(s) && i <= |QueueOf(s, r)| && FromChannel(s, c, QueueOf(s, r))
    requires i > 0 ==> Blocked(s, r, now, gate, c, ids == [])
    ensures Splits(s, r, now, i, ids, DrainFrom(s, r, now, gate, i, ids), taken, rest)
    decreases |QueueOf(s, r)| - i
  {
    var q := QueueOf(s, r);
    if i == |q| {
      assert q[..i] + [] == q;
      return [], [];
    }
    var verdict := Judge(s, r, now, gate, q[i], ids == []);
    match verdict
    case Keep =>
      KeptMeansBlocked(s, r, now, gate, i, ids == [], c);
      var kept;
      taken, kept := DrainSplits(s, r, now, gate, i + 1, ids, c);
      SplitsAfterKeep(s, r, now, i, ids, DrainFrom(s, r, now, gate, i, ids), taken, kept);
      rest := [q[i]] + kept;
    case Skip =>
      DequeueKeeps(s, r, i, Stale);
      assert false;
    case Drop(status) =>
      DropContinues(s, r, now, gate, i, ids, status, c);
      taken, rest := GoOnAfterDrop(s, Dequeue(s, r, i, status), r, now, gate, i, ids, c);
    case Take =>
      TakenMeansOpen(s, r, now, gate, i, ids == [], c);
      HandOverContinues(s, r, now, gate, ids, c);
      taken, rest := GoOnAfterTake(s, HandOver(s, r, 0, now), r, now, gate, ids, c);
  }

  lemma {:induction false} GoOnAfterDrop(s: State, u: State, r: Session, now: int, gate: Gate, i: nat,
        ids: seq<MessageId>, c: ChannelId)
      returns (taken: seq<MessageId>, rest: seq<MessageId>)
    requires QueueInv(s) && FromChannel(s, c, QueueOf(s, r)) && Continues(s, u, r, now, gate, i, ids, ids, c)
    requires u.channels == s.channels && Lapses(s, now, QueueOf(s, r)[i])
    requires i > 0 ==> Blocked(s, r, now, gate, c, ids == [])
    ensures Splits(s, r, now, i, ids, DrainFrom(s, r, now, gate, i, ids), taken, rest)
    decreases |QueueOf(s, r)| - i, 0
  {
    taken, rest := DrainSplits(u, r, now, gate, i, ids, c);
    SplitsAfterDrop(s, u, r, now, i, ids, DrainFrom(u, r, now, gate, i, ids), taken, rest, c);
  }

  lemma {:induction false} GoOnAfterTake(s: State, u: State, r: Session, now: int, gate: Gate, ids: seq<MessageId>,
        c: ChannelId)
      returns (taken: seq<MessageId>, rest: seq<MessageId>)
    requires QueueInv(s) && FromChannel(s, c, QueueOf(s, r)) && QueueOf(s, r) != []
    requires Continues(s, u, r, now, gate, 0, ids, ids + [QueueOf(s, r)[0]], c) && !Lapses(s, now, QueueOf(s, r)[0])
    ensures Splits(s, r, now, 0, ids, DrainFrom(s, r, now, gate, 0, ids), taken, rest)
    decreases |QueueOf(s, r)|, 0
  {
    var ids' := ids + [QueueOf(s, r)[0]];
    var more;
    more, rest := DrainSplits(u, r, now, gate, 0, ids', c);
    SplitsAfterTake(s, u, r, now, ids, DrainFrom(u, r, now, gate, 0, ids'), more, rest, c);
    taken := [QueueOf(s, r)[0]] + more;
  }

  /** Ids a requeue puts back: live, and not yet tried five times. */
  function Retryable(s: State, ids: seq<MessageId>): (r: seq<MessageId>)
    ensures forall x :: x in r <==> x in ids && Has(s, x) && s.log[x].attempts < MAX_DELIVERY_ATTEMPTS
  {
    if ids == [] then []
    else
      (if Has(s, ids[0]) && s.log[ids[0]].attempts < MAX_DELIVERY_ATTEMPTS then [ids[0]] else [])
      + Retryable(s, ids[1..])
  }

  lemma {:induction false} RetryableConcat(s: State, p: seq<MessageId>, q: seq<MessageId>)
    ensures Retryable(s, p + q) == Retryable(s, p) + Retryable(s, q)
  {
    if p == [] {
      assert p + q == q;
    } else {
      assert (p + q)[1..] == p[1..] + q;
      RetryableConcat(s, p[1..], q);
    }
  }

  lemma {:induction false} RetryableSame(s: State, t: State, ids: seq<MessageId>)
    requires |t.log| == |s.log| && t.live == s.live
    requires forall i :: 0 <= i < |ids| && Has(s, ids[i]) ==> t.log[ids[i]].attempts == s.log[ids[i]].attempts
    ensures Retryable(t, ids) == Retryable(s, ids)
  {
    if ids != [] {
      RetryableSame(s, t, ids[1..]);
    }
  }

  ghost predicate ReadyToReturn(s: State, r: Session, ids: seq<MessageId>) {
    && NoDup(ids)
    && forall i :: 0 <= i < |ids| ==> ids[i] !in QueueOf(s, r) && (Has(s, ids[i]) ==> s.log[ids[i]].status == InFlight)
  }

  lemma ReturnOneReady(s: State, r: Session, front: seq<MessageId>, last: MessageId)
    requires ReadyToReturn(s, r, front + [last])
    ensures var u := ReturnOne(s, r, last);
            && |u.log| == |s.log| && u.live == s.live
            && QueueOf(u, r) == Retryable(s, [last]) + QueueOf(s, r)
            && forall i :: 0 <= i < |front| ==>
                 front[i] != last && (Has(s, front[i]) ==> u.log[front[i]] == s.log[front[i]])
  {
    var ids := front + [last];
    assert ids[|front|] == last;
    forall i | 0 <= i < |front|
      ensures front[i] != last
    {
      assert front[i] == ids[i];
    }
  }

  lemma ReturnOneQueue(s: State, r: Session, front: seq<MessageId>, last: MessageId)
    requires ReadyToReturn(s, r, front + [last])
    ensures var u := ReturnOne(s, r, last);
            && QueueOf(u, r) == Retryable(s, [last]) + QueueOf(s, r)
            && ReadyToReturn(u, r, front) && Retryable(u, front) == Retryable(s, front)
  {
    var ids, u := front + [last], ReturnOne(s, r, last);
    ReturnOneReady(s, r, front, last);
    assert forall i :: 0 <= i < |front| ==> front[i] == ids[i];
    assert forall x :: x in QueueOf(u, r) ==> x == last || x in QueueOf(s, r);
    RetryableSame(s, u, front);
  }

  /** Requeueing a batch whose live envelopes are all in flight puts the retryable ones, in
      batch order, in front of the queue. */
  lemma {:induction false} ReturnAllQueue(s: State, r: Session, ids: seq<MessageId>)
    requires ReadyToReturn(s, r, ids)
    ensures QueueOf(ReturnAll(s, r, ids), r) == Retryable(s, ids) + QueueOf(s, r)
    decreases |ids|
  {
    if ids != [] {
      var front, last := ids[..|ids| - 1], ids[|ids| - 1];
      assert ids == front + [last];
      ReturnOneQueue(s, r, front, last);
      ReturnAllQueue(ReturnOne(s, r, last), r, front);
      RetryableConcat(s, front, [last]);
      ConcatAssoc(Retryable(s, front), Retryable(s, [last]), QueueOf(s, r));
    }
  }

  lemma DrainedReadyToReturn(s: State, r: Session, taken: seq<MessageId>, t: State)
    requires QueueInv(s) && QueueInv(t) && DrainsTo(s, r, taken, t)
    ensures ReadyToReturn(t, r, taken)
    ensures forall i :: 0 <= i < |taken| ==>
              Has(s, taken[i]) && Has(t, taken[i]) && t.log[taken[i]] == HandedOver(s.log[taken[i]])
  {
    forall i | 0 <= i < |taken|
      ensures Has(s, taken[i]) && Has(t, taken[i]) && t.log[taken[i]] == HandedOver(s.log[taken[i]])
      ensures taken[i] !in QueueOf(t, r)
    {
      assert Waits(s, r, taken[i]);
      PendingMeansQueuedOnce(t, taken[i]);
    }
  }

  /** On a one-channel queue a drain takes a prefix of what lasts and leaves the rest; giving
      the batch back restores the queue exactly, less the lapsed mail and the envelopes this
      was the fifth attempt of, in the same order. */
  lemma DrainThenRequeue(s: State, r: Session, now: int, gate: Gate, c: ChannelId)
      returns (taken: seq<MessageId>, rest: seq<MessageId>)
    requires QueueInv(s) && FromChannel(s, c, QueueOf(s, r)) && |LiveIds(s)| <= MAX_PERSISTED_MESSAGES
    ensures taken + rest == Lasting(s, now, QueueOf(s, r))
    ensures var d := Drain(s, r, now, gate);
            && d.ids == taken && QueueOf(d.state, r) == rest
            && QueueOf(Requeue(d.state, r, d.ids), r) == Retryable(d.state, taken) + rest
            && forall i :: 0 <= i < |taken| ==>
                 Has(s, taken[i]) && Has(d.state, taken[i]) && d.state.log[taken[i]] == HandedOver(s.log[taken[i]])
  {
    var d := DrainFrom(Touch(s, r), r, now, gate, 0, []);
    taken, rest := SplitFromFront(s, r, now, gate, c);
    assert ReadyToReturn(d.state, r, taken) by {
      DrainEffects(s, r, now, gate);
      DrainedReadyToReturn(s, r, taken, d.state);
    }
    var t := Touch(d.state, r);
    assert ReadyToReturn(t, r, taken);
    ReturnAllQueue(t, r, taken);
    RetryableSame(d.state, t, taken);
    assert Drain(s, r, now, gate) == d by {
      DrainEffects(s, r, now, gate);
    }
    assert forall i :: 0 <= i < |taken| ==>
             Has(s, taken[i]) && Has(d.state, taken[i]) && d.state.log[taken[i]] == HandedOver(s.log[taken[i]]) by {
      DrainEffects(s, r, now, gate);
      DrainedReadyToReturn(s, r, taken, d.state);
    }
  }

  lemma SplitFromFront(s: State, r: Session, now: int, gate: Gate, c: ChannelId)
      returns (taken: seq<MessageId>, rest: seq<MessageId>)
    requires QueueInv(s) && FromChannel(s, c, QueueOf(s, r))
    ensures var d := DrainFrom(Touch(s, r), r, now, gate, 0, []);
            d.ids == taken && QueueOf(d.state, r) == rest && taken + rest == Lasting(s, now, QueueOf(s, r))
  {
    var q := QueueOf(s, r);
    TouchKeeps(s, r);
    taken, rest := DrainSplits(Touch(s, r), r, now, gate, 0, [], c);
    assert [] + taken == taken && q[..0] + rest == rest && q[0..] == q;
    LastingSame(s, Touch(s, r), now, c, q);
  }
}
