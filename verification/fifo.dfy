/** Whole-run FIFO for a recipient whose mail is from one channel, with at most one
    outstanding batch. Both conditions are needed: `Runs` has a run without each. */
module Fifo {
  import opened Seqs
  import opened Types
  import opened Retention
  import opened Retained
  import opened Delivery
  import opened Sending
  import opened Membership
  import opened Queues
  import opened Effects
  import opened System
  import opened Safety
  import opened RoundTrip

  /** Every envelope ever addressed to `r` is from channel `c`. */
  ghost predicate OneChannel(s: State, r: Session, c: ChannelId) {
    forall id :: 0 <= id < |s.log| && s.log[id].recipient == r ==> s.log[id].channel == c
  }

  /** A live deliverer's unfinished batch for `r`. */
  predicate Working(w: World, j: nat, r: Session) {
    j < |w.jobs| && w.jobs[j].session == r && Alive(w.jobs[j])
  }

  ghost predicate Idle(w: World, r: Session) {
    forall j: nat :: !Working(w, j, r)
  }

  /** In the order handed over: committed before in flight before queued. */
  ghost predicate InOrder(w: World, r: Session) {
    && Increasing(QueueOf(w.s, r))
    && Increasing(CommittedTo(w, r))
    && Below(CommittedTo(w, r), QueueOf(w.s, r))
    && (forall id: MessageId, i :: InFlightTo(w.s, r, id) && 0 <= i < |CommittedTo(w, r)| ==> CommittedTo(w, r)[i] < id)
    && (forall id: MessageId, i :: InFlightTo(w.s, r, id) && 0 <= i < |QueueOf(w.s, r)| ==> id < QueueOf(w.s, r)[i])
    && Within(CommittedTo(w, r), |w.s.log|)
  }

  /** One live deliverer at most, whose batch is in order and holds all that is in flight. */
  ghost predicate OneWorker(w: World, r: Session) {
    && (forall j: nat, k: nat :: Working(w, j, r) && Working(w, k, r) ==> j == k)
    && (forall j: nat :: Working(w, j, r) ==>
          && Increasing(w.jobs[j].ids)
          && (forall id: MessageId :: InFlightTo(w.s, r, id) ==> id in w.jobs[j].ids)
          && (AllInFlight(w.s, w.jobs[j].ids) || NoneHandedOver(w.s, w.jobs[j].ids)))
  }

  /** The batch as drained. */
  ghost predicate AllInFlight(s: State, ids: seq<MessageId>) {
    forall id :: id in ids && Has(s, id) ==> s.log[id].status == InFlight
  }

  /** The batch once a sweep has taken it from its deliverer. */
  ghost predicate NoneHandedOver(s: State, ids: seq<MessageId>) {
    forall id :: id in ids && Has(s, id) ==> s.log[id].status !in {InFlight, Delivered}
  }

  /** The committed log is exactly what the record shows as delivered. */
  ghost predicate CommittedIsDelivered(w: World, r: Session) {
    forall id: MessageId :: Has(w.s, id) && w.s.log[id].recipient == r ==>
      (w.s.log[id].status == Delivered <==> id in CommittedTo(w, r))
  }

  ghost predicate FifoInv(w: World, r: Session) {
    InOrder(w, r) && OneWorker(w, r) && CommittedIsDelivered(w, r)
  }

  /** A batch for `r` is started only when none is outstanding. */
  ghost predicate Alone(w: World, step: Step, r: Session) {
    step.StartJob? && step.r == r ==> Idle(w, r) && !Busy(w.s, r)
  }

  /** The discipline: one batch for `r` at a time, and all of `r`'s mail on channel `c`. */
  ghost predicate Orderly(w: World, step: Step, r: Session, c: ChannelId)
    requires Enabled(w, step)
  {
    Alone(w, step, r) && OneChannel(Do(w, step).s, r, c)
  }

  /** `r`'s queue stays in order and gains only newer ids. */
  ghost predicate OrderKept(s: State, t: State, r: Session) {
    && |s.log| <= |t.log|
    && (Increasing(QueueOf(s, r)) && Within(QueueOf(s, r), |s.log|) ==> Increasing(QueueOf(t, r)))
    && (forall i :: 0 <= i < |QueueOf(t, r)| ==> QueueOf(t, r)[i] in QueueOf(s, r) || QueueOf(t, r)[i] >= |s.log|)
  }

  /** Nothing of `r`'s mail is handed over, settled or returned. */
  ghost predicate QuietFor(s: State, t: State, r: Session) {
    forall id: MessageId :: Has(t, id) && t.log[id].recipient == r ==>
      if id < |s.log| then Has(s, id) && s.log[id].recipient == r && Drift(s.log[id], t.log[id])
      else t.log[id].status !in {InFlight, Delivered}
  }

  lemma QueueWithin(s: State, r: Session)
    requires QueueInv(s)
    ensures Within(QueueOf(s, r), |s.log|)
  {
    assert QueueOk(s, r, QueueOf(s, r));
    forall i | 0 <= i < |QueueOf(s, r)|
      ensures QueueOf(s, r)[i] < |s.log|
    {
      assert Waits(s, r, QueueOf(s, r)[i]);
    }
  }

  /** A step that is quiet for `r` and brings no job to life keeps the order. */
  lemma KeptWhenQuiet(w: World, u: World, r: Session)
    requires BaseInv(w) && FifoInv(w, r) && Follows(w.s, u.s)
    requires OrderKept(w.s, u.s, r) && QuietFor(w.s, u.s, r)
    requires CommittedTo(u, r) == CommittedTo(w, r)
    requires forall j: nat :: Working(u, j, r) ==> Working(w, j, r) && u.jobs[j].ids == w.jobs[j].ids
    ensures FifoInv(u, r)
  {
    QueueWithin(w.s, r);
    assert InOrder(u, r) by {
      var done, q' := CommittedTo(w, r), QueueOf(u.s, r);
      forall i, j | 0 <= i < |done| && 0 <= j < |q'|
        ensures done[i] < q'[j]
      {
      }
      forall id: MessageId | InFlightTo(u.s, r, id)
        ensures InFlightTo(w.s, r, id)
      {
        assert Drift(w.s.log[id], u.s.log[id]);
      }
    }
    forall j: nat | Working(u, j, r)
      ensures AllInFlight(u.s, u.jobs[j].ids) || NoneHandedOver(u.s, u.jobs[j].ids)
      ensures forall id: MessageId :: InFlightTo(u.s, r, id) ==> id in u.jobs[j].ids
    {
      WorkerKept(w, u, r, j);
    }
    assert CommittedIsDelivered(u, r) by {
      forall id: MessageId | Has(u.s, id) && u.s.log[id].recipient == r
        ensures u.s.log[id].status == Delivered <==> id in CommittedTo(u, r)
      {
        assert id < |w.s.log| ==> Drift(w.s.log[id], u.s.log[id]);
      }
    }
  }

  lemma WorkerKept(w: World, u: World, r: Session, j: nat)
    requires BaseInv(w) && FifoInv(w, r) && Follows(w.s, u.s) && QuietFor(w.s, u.s, r)
    requires Working(w, j, r) && j < |u.jobs| && u.jobs[j].ids == w.jobs[j].ids
    ensures AllInFlight(u.s, u.jobs[j].ids) || NoneHandedOver(u.s, u.jobs[j].ids)
    ensures forall id: MessageId :: InFlightTo(u.s, r, id) ==> id in u.jobs[j].ids
  {
    assert BatchOf(w.s, w.jobs[j]);
    forall id | id in u.jobs[j].ids && Has(u.s, id)
      ensures Has(w.s, id) && Drift(w.s.log[id], u.s.log[id])
    {
      var i :| 0 <= i < |w.jobs[j].ids| && w.jobs[j].ids[i] == id;
      assert Identity(u.s.log[id]).recipient == Identity(w.s.log[id]).recipient == r;
    }
    forall id: MessageId | InFlightTo(u.s, r, id)
      ensures id in u.jobs[j].ids
    {
      assert Drift(w.s.log[id], u.s.log[id]);
    }
  }

  lemma ForgetKeepsOrder(s: State, dead: set<MessageId>, r: Session)
    ensures OrderKept(s, Forget(s, dead), r)
  {
    WithoutKeepsOrder(QueueOf(s, r), dead);
  }

  lemma WithdrawKeepsOrder(s: State, id: MessageId, r: Session)
    ensures OrderKept(s, Withdraw(s, id), r)
  {
    WithoutKeepsOrder(QueueOf(s, r), {id});
    assert forall i :: 0 <= i < |QueueOf(s, r)| ==> QueueOf(s, r)[i] in QueueOf(s, r);
  }

  lemma OrderKeptTrans(s: State, t: State, u: State, r: Session)
    requires OrderKept(s, t, r) && OrderKept(t, u, r) && QueueInv(s) && QueueInv(t)
    ensures OrderKept(s, u, r)
  {
    QueueWithin(t, r);
    QueueWithin(s, r);
    forall i | 0 <= i < |QueueOf(u, r)|
      ensures QueueOf(u, r)[i] in QueueOf(s, r) || QueueOf(u, r)[i] >= |s.log|
    {
      if QueueOf(u, r)[i] in QueueOf(t, r) {
        var k :| 0 <= k < |QueueOf(t, r)| && QueueOf(t, r)[k] == QueueOf(u, r)[i];
      }
    }
  }

  /** Appending freshly minted ids keeps the order. */
  lemma PostingKeepsOrder(s: State, t: State, es: seq<Envelope>, r: Session)
    requires QueueInv(s) && t.log == s.log + es && QueueOf(t, r) == QueueOf(s, r) + Arrivals(es, |s.log|, r)
    ensures OrderKept(s, t, r)
  {
    ArrivalsIncrease(es, |s.log|, r);
    QueueWithin(s, r);
    if Increasing(QueueOf(s, r)) {
      JoinIncreasing(QueueOf(s, r), Arrivals(es, |s.log|, r));
    }
  }

  lemma SendKeepsOrder(s: State, c: ChannelId, draft: Draft, sender: Session, operator: bool, now: int, r: Session)
    requires QueueInv(s)
    ensures OrderKept(s, Send(s, c, draft, sender, operator, now), r)
  {
    if SendRefusal(s, c, draft, sender, operator, now).None? {
      var v := Enqueue(s, c, draft, sender, now);
      var to := Resolve(s.channels[c], sender, draft.target);
      EnqueueForm(s, c, draft, sender, now);
      PostingKeepsOrder(s, v, Letters(c, draft, sender, to, ThreadOf(s, draft.replyTo, |s.log|), now), r);
      assert QueueInv(v) by { EnqueueKeeps(s, c, draft, sender, now); }
      PruneKeepsOrder(s, v, r);
    }
  }

  lemma RemoveKeepsOrder(s: State, c: ChannelId, m: Session, now: int, r: Session)
    requires QueueInv(s) && c in s.channels
    ensures OrderKept(s, Remove(s, c, m, now), r)
  {
    var u := WithChannel(s, c, Departed(s.channels[c], m, now));
    SameMail(s, u);
    RejectQueueForm(u, m);
  }

  lemma ExpelKeepsOrder(s: State, c: ChannelId, author: Session, target: Session, now: int, r: Session)
    requires QueueInv(s) && c in s.channels
    ensures OrderKept(s, Prune(Expel(s, c, author, target, now)), r)
  {
    var u := Remove(s, c, target, now);
    assert QueueInv(u) by { RemoveKeeps(s, c, target, now); }
    RemoveKeepsOrder(s, c, target, now, r);
    PostedKeepsOrder(s, u, Notices(c, author, Others(s.channels[c].members, target), |u.log|, now), r);
  }

  lemma PostedKeepsOrder(s: State, u: State, es: seq<Envelope>, r: Session)
    requires QueueInv(s) && QueueInv(u) && OrderKept(s, u, r)
    requires forall i :: 0 <= i < |es| ==> es[i].status == Pending
    ensures OrderKept(s, Prune(PostAll(u, es)), r)
  {
    NoticesKeepOrder(u, es, r);
    OrderKeptTrans(s, u, PostAll(u, es), r);
    PruneKeepsOrder(s, PostAll(u, es), r);
  }

  lemma PruneKeepsOrder(s: State, v: State, r: Session)
    requires QueueInv(s) && QueueInv(v) && OrderKept(s, v, r)
    ensures OrderKept(s, Prune(v), r)
  {
    ForgetKeepsOrder(v, Doomed(v), r);
    OrderKeptTrans(s, v, Forget(v, Doomed(v)), r);
  }

  lemma NoticesKeepOrder(u: State, es: seq<Envelope>, r: Session)
    requires QueueInv(u) && forall i :: 0 <= i < |es| ==> es[i].status == Pending
    ensures QueueInv(PostAll(u, es)) && OrderKept(u, PostAll(u, es), r)
  {
    PostAllKeeps(u, es);
    PostAllForm(u, es);
    PostingKeepsOrder(u, PostAll(u, es), es, r);
  }

  lemma KickKeepsOrder(s: State, c: ChannelId, caller: Option<Session>, targetId: Option<string>,
        targetRole: Option<string>, now: int, r: Session)
    requires QueueInv(s)
    ensures OrderKept(s, Kick(s, c, caller, targetId, targetRole, now), r)
  {
    if c in s.channels && KickTarget(s.channels[c], caller, targetId, targetRole).Some? {
      var target := KickTarget(s.channels[c], caller, targetId, targetRole).value;
      ExpelKeepsOrder(s, c, caller.GetOr(OPERATOR), target, now, r);
    }
  }

  lemma DisconnectKeepsOrder(s: State, c: ChannelId, m: Session, now: int, r: Session)
    requires QueueInv(s)
    ensures OrderKept(s, Disconnect(s, c, m, now), r)
  {
    var t := Disconnect(s, c, m, now);
    if c in s.channels && IsMember(s.channels[c], m) {
      RemoveKeepsOrder(s, c, m, now, r);
      assert QueueOf(t, r) == QueueOf(Remove(s, c, m, now), r);
    } else {
      assert forall i :: 0 <= i < |QueueOf(s, r)| ==> QueueOf(s, r)[i] in QueueOf(s, r);
    }
  }

  lemma ActKeepsOrder(s: State, op: Op, now: int, r: Session)
    requires QueueInv(s)
    ensures OrderKept(s, Apply(s, op, now), r)
  {
    match op {
      case DoSend(c, draft, sender, operator) => SendKeepsOrder(s, c, draft, sender, operator, now, r);
      case DoKick(c, caller, targetId, targetRole) => KickKeepsOrder(s, c, caller, targetId, targetRole, now, r);
      case DoDisconnect(c, m) =>
        DisconnectKeepsOrder(s, c, m, now, r);
      case DoPurge(c) => ForgetKeepsOrder(s, OfChannel(s, c), r);
      case DoWithdraw(id) => WithdrawKeepsOrder(s, id, r);
      case _ =>
    }
  }

  lemma ActKeepsFifo(w: World, op: Op, r: Session)
    requires BaseInv(w) && FifoInv(w, r)
    ensures FifoInv(Do(w, Act(op)), r)
  {
    var u := Do(w, Act(op));
    assert QuietFor(w.s, u.s, r) && Follows(w.s, u.s) by {
      ApplyKeeps(w.s, op, w.now);
      forall id: MessageId | Has(u.s, id) && u.s.log[id].recipient == r && id < |w.s.log|
        ensures Has(w.s, id) && w.s.log[id].recipient == r && Drift(w.s.log[id], u.s.log[id])
      {
      }
    }
    ActKeepsOrder(w.s, op, w.now, r);
    KeptWhenQuiet(w, u, r);
  }

  lemma {:induction false} LastingIncreases(s: State, now: int, q: seq<MessageId>)
    requires Increasing(q)
    ensures Increasing(Lasting(s, now, q))
  {
    if q != [] {
      var rest := Lasting(s, now, q[1..]);
      LastingIncreases(s, now, q[1..]);
      forall j | 0 <= j < |rest|
        ensures q[0] < rest[j]
      {
        assert rest[j] in q[1..];
      }
    }
  }

  lemma {:induction false} RetryableIncreases(s: State, ids: seq<MessageId>)
    requires Increasing(ids)
    ensures Increasing(Retryable(s, ids))
  {
    if ids != [] {
      var rest := Retryable(s, ids[1..]);
      RetryableIncreases(s, ids[1..]);
      forall j | 0 <= j < |rest|
        ensures ids[0] < rest[j]
      {
        assert rest[j] in ids[1..];
      }
    }
  }

  lemma {:induction false} CommittableMembers(s: State, r: Session, ids: seq<MessageId>)
    ensures forall id :: id in Committable(s, r, ids) <==> id in ids && InFlightTo(s, r, id)
  {
    if ids != [] {
      CommittableMembers(s, r, ids[1..]);
    }
  }

  lemma {:induction false} CommittableIncreases(s: State, r: Session, ids: seq<MessageId>)
    requires Increasing(ids)
    ensures Increasing(Committable(s, r, ids))
  {
    if ids != [] {
      var rest := Committable(s, r, ids[1..]);
      CommittableIncreases(s, r, ids[1..]);
      CommittableMembers(s, r, ids[1..]);
      forall j | 0 <= j < |rest|
        ensures ids[0] < rest[j]
      {
        assert rest[j] in ids[1..];
      }
    }
  }

  lemma {:induction false} CommittableAll(s: State, r: Session, ids: seq<MessageId>)
    requires forall i :: 0 <= i < |ids| ==> InFlightTo(s, r, ids[i])
    ensures Committable(s, r, ids) == ids
  {
    if ids != [] {
      CommittableAll(s, r, ids[1..]);
    }
  }

  lemma PartsIncrease(p: seq<nat>, q: seq<nat>)
    requires Increasing(p + q)
    ensures Increasing(p) && Increasing(q) && Below(p, q)
  {
    var all := p + q;
    assert forall i :: 0 <= i < |p| ==> p[i] == all[i];
    assert forall i :: 0 <= i < |q| ==> q[i] == all[|p| + i];
  }

  lemma QueueFromChannel(s: State, r: Session, c: ChannelId)
    requires QueueInv(s) && OneChannel(s, r, c)
    ensures FromChannel(s, c, QueueOf(s, r))
  {
    assert QueueOk(s, r, QueueOf(s, r));
    assert forall i :: 0 <= i < |QueueOf(s, r)| ==> Waits(s, r, QueueOf(s, r)[i]);
  }

  /** Handing over in order: what a drain takes precedes what it leaves. */
  lemma DrainInOrder(s: State, r: Session, now: int, gate: Gate, c: ChannelId)
    requires QueueInv(s) && OneChannel(s, r, c) && Increasing(QueueOf(s, r)) && |LiveIds(s)| <= MAX_PERSISTED_MESSAGES
    ensures var d := Drain(s, r, now, gate);
            && Increasing(d.ids) && Increasing(QueueOf(d.state, r)) && Below(d.ids, QueueOf(d.state, r))
            && (forall id :: id in d.ids || id in QueueOf(d.state, r) ==> id in QueueOf(s, r))
  {
    QueueFromChannel(s, r, c);
    var taken, rest := SplitFromFront(s, r, now, gate, c);
    assert Drain(s, r, now, gate) == DrainFrom(Touch(s, r), r, now, gate, 0, []) by {
      DrainPrunesNothing(s, r, now, gate);
    }
    LastingIncreases(s, now, QueueOf(s, r));
    PartsIncrease(taken, rest);
    forall id | id in taken || id in rest
      ensures id in QueueOf(s, r)
    {
      assert id in taken + rest;
    }
  }

  /** Committed, then taken, then left: what a start for `r` finds in order stays in order. */
  lemma OwnStartInOrder(w: World, kind: Kind, r: Session, c: ChannelId)
    requires BaseInv(w) && FifoInv(w, r) && OneChannel(w.s, r, c) && !Busy(w.s, r)
    ensures InOrder(Begin(w, r, kind), r)
  {
    var u := Begin(w, r, kind);
    var taken := Drain(w.s, r, w.now, GateFor(w.s, r, kind)).ids;
    DrainInOrder(w.s, r, w.now, GateFor(w.s, r, kind), c);
    assert QueueOf(u.s, r) == QueueOf(Drain(w.s, r, w.now, GateFor(w.s, r, kind)).state, r) by {
      var taken' := BeginEffects(w, r, kind);
    }
    BeganCommitted(w, r, kind, taken);
    BeganMail(w, r, kind, taken);
    TakenInOrder(w, r, taken, QueueOf(u.s, r));
    if kind != PullJob {
      assert CommittedTo(w, r) + [] == CommittedTo(w, r);
    }
  }

  /** What is taken from a queue and what is left of it come after what is committed. */
  lemma TakenInOrder(w: World, r: Session, taken: seq<MessageId>, rest: seq<MessageId>)
    requires QueueInv(w.s) && InOrder(w, r) && Increasing(taken) && Below(taken, rest)
    requires forall id :: id in taken || id in rest ==> id in QueueOf(w.s, r)
    ensures var done := CommittedTo(w, r);
            && Increasing(done + taken) && Within(done + taken, |w.s.log|)
            && Below(done, taken) && Below(done, rest) && Below(done + taken, rest)
  {
    var done := CommittedTo(w, r);
    QueueWithin(w.s, r);
    forall i | 0 <= i < |taken|
      ensures taken[i] < |w.s.log| && forall k :: 0 <= k < |done| ==> done[k] < taken[i]
    {
      assert taken[i] in QueueOf(w.s, r);
    }
    forall i | 0 <= i < |rest|
      ensures forall k :: 0 <= k < |done| ==> done[k] < rest[i]
    {
      assert rest[i] in QueueOf(w.s, r);
    }
    JoinIncreasing(done, taken);
  }

  lemma OwnStartKeepsFifo(w: World, kind: Kind, r: Session, c: ChannelId)
    requires BaseInv(w) && FifoInv(w, r) && OneChannel(w.s, r, c) && Idle(w, r) && !Busy(w.s, r)
    ensures FifoInv(Begin(w, r, kind), r)
  {
    var u := Begin(w, r, kind);
    OwnStartInOrder(w, kind, r, c);
    var taken := BeginEffects(w, r, kind);
    assert Increasing(taken) by { DrainInOrder(w.s, r, w.now, GateFor(w.s, r, kind), c); }
    BeganCommitted(w, r, kind, taken);
    BeganMail(w, r, kind, taken);
    forall j: nat | Working(u, j, r)
      ensures j == |w.jobs| && u.jobs[j].ids == taken && kind != PullJob
    {
      assert j < |w.jobs| ==> Working(w, j, r);
    }
  }

  lemma BeganCommitted(w: World, r: Session, kind: Kind, taken: seq<MessageId>)
    requires QueueInv(w.s) && |LiveIds(w.s)| <= MAX_PERSISTED_MESSAGES
    requires taken == Drain(w.s, r, w.now, GateFor(w.s, r, kind)).ids
    ensures CommittedTo(Begin(w, r, kind), r) == CommittedTo(w, r) + (if kind == PullJob then taken else [])
  {
    var d := Drain(w.s, r, w.now, GateFor(w.s, r, kind));
    DrainPrunesNothing(w.s, r, w.now, GateFor(w.s, r, kind));
    DrainEffects(w.s, r, w.now, GateFor(w.s, r, kind));
    forall i | 0 <= i < |taken|
      ensures InFlightTo(d.state, r, taken[i])
    {
      assert Waits(w.s, r, taken[i]);
    }
    CommittableAll(d.state, r, taken);
  }

  lemma BeganOne(w: World, r: Session, kind: Kind, taken: seq<MessageId>, id: MessageId)
    requires QueueInv(w.s) && |LiveIds(w.s)| <= MAX_PERSISTED_MESSAGES
    requires taken == Drain(w.s, r, w.now, GateFor(w.s, r, kind)).ids
    requires Has(Begin(w, r, kind).s, id) && Begin(w, r, kind).s.log[id].recipient == r
    ensures var u := Begin(w, r, kind);
            && |u.s.log| == |w.s.log| && Has(w.s, id) && w.s.log[id].recipient == r
            && if id in taken then BegunAs(kind, u.s.log[id].status) && w.s.log[id].status == Pending
               else Drift(w.s.log[id], u.s.log[id])
  {
    var u := Begin(w, r, kind);
    var taken' := BeginEffects(w, r, kind);
    if id in taken {
      var k :| 0 <= k < |taken| && taken[k] == id;
      assert Waits(w.s, r, taken[k]);
    }
  }

  /** The mail of `r` right after a start that found nothing in flight. */
  lemma BeganMail(w: World, r: Session, kind: Kind, taken: seq<MessageId>)
    requires BaseInv(w) && FifoInv(w, r) && !Busy(w.s, r)
    requires taken == Drain(w.s, r, w.now, GateFor(w.s, r, kind)).ids
    ensures var u := Begin(w, r, kind);
            && |u.s.log| == |w.s.log|
            && (forall id: MessageId :: InFlightTo(u.s, r, id) ==> id in taken && kind != PullJob)
            && (forall id: MessageId :: id in taken && Has(u.s, id) && kind != PullJob ==>
                  u.s.log[id].status == InFlight)
            && (forall id: MessageId :: Has(u.s, id) && u.s.log[id].recipient == r ==>
                  (u.s.log[id].status == Delivered <==> id in CommittedTo(w, r) || (kind == PullJob && id in taken)))
  {
    var u := Begin(w, r, kind);
    assert |u.s.log| == |w.s.log| by { var taken' := BeginEffects(w, r, kind); }
    forall id: MessageId | Has(u.s, id) && u.s.log[id].recipient == r
      ensures InFlightTo(u.s, r, id) ==> id in taken && kind != PullJob
      ensures u.s.log[id].status == Delivered <==> id in CommittedTo(w, r) || (kind == PullJob && id in taken)
    {
      BeganOne(w, r, kind, taken, id);
      assert !InFlightTo(w.s, r, id);
    }
    forall id: MessageId | id in taken && Has(u.s, id) && kind != PullJob
      ensures u.s.log[id].status == InFlight
    {
      var taken' := BeginEffects(w, r, kind);
      var k :| 0 <= k < |taken| && taken[k] == id;
    }
  }

  /** A start for another session is quiet for `r`. */
  lemma ForeignStartQuiet(w: World, m: Session, kind: Kind, r: Session)
    requires BaseInv(w) && m != r
    ensures var u := Begin(w, m, kind);
            && Follows(w.s, u.s) && QuietFor(w.s, u.s, r)
            && QueueOf(u.s, r) == QueueOf(w.s, r) && |u.s.log| == |w.s.log| && CommittedTo(u, r) == CommittedTo(w, r)
  {
    var u := Begin(w, m, kind);
    var taken := BeginEffects(w, m, kind);
    assert Follows(w.s, u.s) by { BeginKeepsState(w, m, kind); }
    forall id: MessageId | Has(u.s, id) && u.s.log[id].recipient == r
      ensures Has(w.s, id) && w.s.log[id].recipient == r && Drift(w.s.log[id], u.s.log[id])
    {
      assert Identity(u.s.log[id]).recipient == Identity(w.s.log[id]).recipient;
      assert forall k :: 0 <= k < |taken| ==> Waits(w.s, m, taken[k]);
    }
  }

  lemma ForeignStartKeepsFifo(w: World, m: Session, kind: Kind, r: Session)
    requires BaseInv(w) && FifoInv(w, r) && m != r
    ensures FifoInv(Begin(w, m, kind), r)
  {
    var u := Begin(w, m, kind);
    ForeignStartQuiet(w, m, kind, r);
    SameQueueInOrder(w.s, u.s, r);
    ForeignStartJobs(w, m, kind, r);
    KeptWhenQuiet(w, u, r);
  }

  lemma ForeignStartJobs(w: World, m: Session, kind: Kind, r: Session)
    requires BaseInv(w) && m != r
    ensures forall j: nat :: Working(Begin(w, m, kind), j, r) ==>
              Working(w, j, r) && Begin(w, m, kind).jobs[j].ids == w.jobs[j].ids
  {
    var taken := BeginEffects(w, m, kind);
  }

  lemma SameQueueInOrder(s: State, t: State, r: Session)
    requires QueueOf(t, r) == QueueOf(s, r) && |s.log| <= |t.log|
    ensures OrderKept(s, t, r)
  {
  }

  /** Confirming `r`'s batch extends the committed log in order and leaves nothing in flight. */
  lemma ConfirmedLog(w: World, j: nat, r: Session)
    requires BaseInv(w) && FifoInv(w, r) && Enabled(w, Confirm(j)) && w.jobs[j].session == r
    ensures var done := CommittedTo(w, r) + Committable(w.s, r, w.jobs[j].ids);
            Increasing(done) && Below(done, QueueOf(w.s, r)) && Within(done, |w.s.log|)
    ensures forall id :: id in Committable(w.s, r, w.jobs[j].ids) <==> InFlightTo(w.s, r, id)
  {
    var ids := w.jobs[j].ids;
    var done := Committable(w.s, r, ids);
    assert Working(w, j, r);
    CommittableMembers(w.s, r, ids);
    CommittableIncreases(w.s, r, ids);
    forall i | 0 <= i < |done|
      ensures InFlightTo(w.s, r, done[i])
    {
      assert done[i] in done;
    }
    JoinIncreasing(CommittedTo(w, r), done);
  }

  lemma ConfirmOwnKeepsFifo(w: World, j: nat, r: Session)
    requires BaseInv(w) && FifoInv(w, r) && Enabled(w, Confirm(j)) && w.jobs[j].session == r
    ensures FifoInv(Do(w, Confirm(j)), r)
  {
    var u, job := Do(w, Confirm(j)), w.jobs[j];
    assert Working(w, j, r);
    ConfirmedLog(w, j, r);
    CommitEffects(w.s, r, job.ids, w.now, TransportOf(job.kind));
    CommittableMembers(w.s, r, job.ids);
    forall k: nat | Working(u, k, r)
      ensures false
    {
      assert k != j && Working(w, k, r);
    }
    forall id: MessageId
      ensures !InFlightTo(u.s, r, id)
    {
    }
    assert CommittedTo(u, r) == CommittedTo(w, r) + Committable(w.s, r, job.ids);
    assert forall id :: id in CommittedTo(u, r) <==> id in CommittedTo(w, r) || InFlightTo(w.s, r, id);
  }

  lemma ConfirmOtherKeepsFifo(w: World, j: nat, r: Session)
    requires BaseInv(w) && FifoInv(w, r) && Enabled(w, Confirm(j)) && w.jobs[j].session != r
    ensures FifoInv(Do(w, Confirm(j)), r)
  {
    var u, job := Do(w, Confirm(j)), w.jobs[j];
    assert Follows(w.s, u.s) by { CommitKeeps(w.s, job.session, job.ids, w.now, TransportOf(job.kind)); }
    CommitQuiet(w.s, job.session, job.ids, w.now, TransportOf(job.kind), r);
    SameQueueInOrder(w.s, u.s, r);
    KeptWhenQuiet(w, u, r);
  }

  lemma CommitQuiet(s: State, m: Session, ids: seq<MessageId>, now: int, transport: Transport, r: Session)
    requires m != r
    ensures var t := Commit(s, m, ids, now, transport);
            QuietFor(s, t, r) && t.queues == s.queues && |t.log| == |s.log|
  {
    CommitEffects(s, m, ids, now, transport);
  }

  lemma GiveBackOwnKeepsFifo(w: World, j: nat, r: Session)
    requires BaseInv(w) && FifoInv(w, r) && Enabled(w, GiveBack(j)) && w.jobs[j].session == r
    ensures FifoInv(Do(w, GiveBack(j)), r)
  {
    var u, job := Do(w, GiveBack(j)), w.jobs[j];
    assert Working(w, j, r);
    GivenBackMail(w, j, r);
    assert InOrder(u, r) by { RequeuedQueue(w, j, r); }
    assert OneWorker(u, r) by {
      assert forall k: nat :: Working(u, k, r) ==> k != j && Working(w, k, r);
    }
  }

  lemma GivenBackMail(w: World, j: nat, r: Session)
    requires BaseInv(w) && FifoInv(w, r) && Enabled(w, GiveBack(j)) && w.jobs[j].session == r
    ensures var u := Do(w, GiveBack(j));
            && |u.s.log| == |w.s.log| && CommittedIsDelivered(u, r)
            && forall id: MessageId :: !InFlightTo(u.s, r, id)
  {
    assert Working(w, j, r) && BatchOf(w.s, w.jobs[j]);
    RequeueEffects(w.s, r, w.jobs[j].ids);
  }

  lemma WorkersBatchReady(w: World, j: nat, r: Session)
    requires BaseInv(w) && FifoInv(w, r) && Working(w, j, r) && AllInFlight(w.s, w.jobs[j].ids)
    ensures ReadyToReturn(w.s, r, w.jobs[j].ids)
    ensures forall id :: id in w.jobs[j].ids && Has(w.s, id) ==> InFlightTo(w.s, r, id)
  {
    var s, ids, q := w.s, w.jobs[j].ids, QueueOf(w.s, r);
    IncreasingIsNoDup(ids);
    assert BatchOf(s, w.jobs[j]) && QueueOk(s, r, q);
    forall i | 0 <= i < |ids|
      ensures ids[i] !in q && (Has(s, ids[i]) ==> InFlightTo(s, r, ids[i]))
    {
      assert ids[i] in ids;
      assert ids[i] in q ==> Waits(s, r, ids[i]);
    }
  }

  /** The queue after a give-back is in order and above everything committed. */
  lemma RequeuedQueue(w: World, j: nat, r: Session)
    requires BaseInv(w) && FifoInv(w, r) && Working(w, j, r)
    ensures var q := QueueOf(Requeue(w.s, r, w.jobs[j].ids), r);
            Increasing(q) && Below(CommittedTo(w, r), q)
  {
    var s, ids := w.s, w.jobs[j].ids;
    if NoneHandedOver(s, ids) {
      NothingToReturn(w, j, r);
      return;
    }
    WorkersBatchReady(w, j, r);
    ReturnedToFront(s, r, ids);
    var back := Retryable(s, ids);
    RetryableIncreases(s, ids);
    forall i | 0 <= i < |back|
      ensures InFlightTo(s, r, back[i])
    {
      assert back[i] in back;
    }
    PutBackInOrder(w, r, back);
  }

  /** Ids in flight, in order, fit between what is committed and what is queued. */
  lemma PutBackInOrder(w: World, r: Session, back: seq<MessageId>)
    requires InOrder(w, r) && Increasing(back)
    requires forall i :: 0 <= i < |back| ==> InFlightTo(w.s, r, back[i])
    ensures Increasing(back + QueueOf(w.s, r)) && Below(CommittedTo(w, r), back + QueueOf(w.s, r))
  {
    JoinIncreasing(back, QueueOf(w.s, r));
  }

  /** Giving back a batch that a sweep has already put back changes no queue. */
  lemma NothingToReturn(w: World, j: nat, r: Session)
    requires BaseInv(w) && Working(w, j, r) && NoneHandedOver(w.s, w.jobs[j].ids)
    ensures QueueOf(Requeue(w.s, r, w.jobs[j].ids), r) == QueueOf(w.s, r)
  {
    var ids := w.jobs[j].ids;
    assert BatchOf(w.s, w.jobs[j]);
    forall id | id in ids && Has(w.s, id) && w.s.log[id].status == Pending
      ensures id in QueueOf(w.s, r)
    {
      var i :| 0 <= i < |ids| && ids[i] == id;
      assert w.s.log[ids[i]].recipient == r;
    }
    ReturnsNothing(Touch(w.s, r), r, ids);
  }

  lemma {:induction false} ReturnsNothing(s: State, r: Session, ids: seq<MessageId>)
    requires NoneHandedOver(s, ids)
    requires forall id :: id in ids && Has(s, id) && s.log[id].status == Pending ==> id in QueueOf(s, r)
    ensures ReturnAll(s, r, ids) == s
    decreases |ids|
  {
    if ids != [] {
      var last := ids[|ids| - 1];
      assert last in ids;
      assert Has(s, last) ==> s.log[last := s.log[last]] == s.log;
      ReturnsNothing(s, r, ids[..|ids| - 1]);
    }
  }

  lemma ReturnedToFront(s: State, r: Session, ids: seq<MessageId>)
    requires ReadyToReturn(s, r, ids)
    ensures QueueOf(Requeue(s, r, ids), r) == Retryable(s, ids) + QueueOf(s, r)
  {
    var t := Touch(s, r);
    assert ReadyToReturn(t, r, ids);
    ReturnAllQueue(t, r, ids);
    RetryableSame(s, t, ids);
  }

  lemma GiveBackOtherKeepsFifo(w: World, j: nat, r: Session)
    requires BaseInv(w) && FifoInv(w, r) && Enabled(w, GiveBack(j)) && w.jobs[j].session != r
    ensures FifoInv(Do(w, GiveBack(j)), r)
  {
    var u, job := Do(w, GiveBack(j)), w.jobs[j];
    assert BatchOf(w.s, job);
    RequeueEffects(w.s, job.session, job.ids);
    assert Follows(w.s, u.s) by { RequeueKeeps(w.s, job.session, job.ids); }
    assert QuietFor(w.s, u.s, r) by {
      forall id: MessageId | Has(u.s, id) && u.s.log[id].recipient == r
        ensures Has(w.s, id) && w.s.log[id].recipient == r && u.s.log[id] == w.s.log[id]
      {
        assert Identity(u.s.log[id]).recipient == Identity(w.s.log[id]).recipient;
        assert forall k :: 0 <= k < |job.ids| ==> w.s.log[job.ids[k]].recipient == job.session;
      }
    }
    KeptWhenQuiet(w, u, r);
  }

  /** A sweep puts everything in flight back in front, oldest first. */
  lemma RecoverKeepsFifo(w: World, r: Session)
    requires BaseInv(w) && FifoInv(w, r)
    ensures FifoInv(Do(w, Recover), r)
  {
    var u, spared := Do(w, Recover), ManagedSessions(w.s);
    RecoveredMail(w, r);
    assert OneWorker(u, r) by {
      assert forall k: nat :: Working(u, k, r) ==> Working(w, k, r);
      forall j: nat | Working(u, j, r)
        ensures AllInFlight(u.s, u.jobs[j].ids) || NoneHandedOver(u.s, u.jobs[j].ids)
      {
        SweptBatch(w, j, r);
      }
    }
    assert InOrder(u, r) by {
      if r in spared {
        assert StrandedFor(w.s, spared, r) == {};
        NothingStranded(w.s, spared, r);
      } else {
        SweptInOrder(w, spared, r);
      }
    }
  }

  /** A sweep leaves a batch alone or takes all of it. */
  lemma SweptBatch(w: World, j: nat, r: Session)
    requires BaseInv(w) && Working(w, j, r)
    requires AllInFlight(w.s, w.jobs[j].ids) || NoneHandedOver(w.s, w.jobs[j].ids)
    ensures var t := Do(w, Recover).s;
            AllInFlight(t, w.jobs[j].ids) || NoneHandedOver(t, w.jobs[j].ids)
  {
    var t, ids := Do(w, Recover).s, w.jobs[j].ids;
    assert BatchOf(w.s, w.jobs[j]);
    forall id | id in ids && Has(w.s, id)
      ensures t.log[id].status == if w.s.log[id].status == InFlight && r !in ManagedSessions(w.s) then Pending
                                  else w.s.log[id].status
    {
      var i :| 0 <= i < |ids| && ids[i] == id;
      assert w.s.log[ids[i]].recipient == r;
    }
  }

  lemma RecoveredMail(w: World, r: Session)
    requires BaseInv(w) && FifoInv(w, r)
    ensures var u := Do(w, Recover);
            && CommittedIsDelivered(u, r)
            && forall id: MessageId :: InFlightTo(u.s, r, id) ==> InFlightTo(w.s, r, id) && r in ManagedSessions(w.s)
  {
  }

  /** What a sweep puts in front of `r`'s queue. */
  function SweptFront(s: State, spared: set<Session>, r: Session): seq<MessageId> {
    Without(Recovered(s, spared, r), Elements(QueueOf(s, r)))
  }

  lemma SweptFrontInOrder(s: State, spared: set<Session>, r: Session)
    requires TimeOrdered(s.log)
    ensures Increasing(SweptFront(s, spared, r))
    ensures forall i :: 0 <= i < |SweptFront(s, spared, r)| ==> InFlightTo(s, r, SweptFront(s, spared, r)[i])
  {
    var ids, back := StrandedFor(s, spared, r), Recovered(s, spared, r);
    IdsBelowIncreasing(ids, |s.log|);
    SortedAlready(s.log, IdsBelow(ids, |s.log|));
    RecoveredIds(s, spared, r);
    WithoutKeepsOrder(back, Elements(QueueOf(s, r)));
    forall i | 0 <= i < |SweptFront(s, spared, r)|
      ensures InFlightTo(s, r, SweptFront(s, spared, r)[i])
    {
      assert SweptFront(s, spared, r)[i] in back;
    }
  }

  lemma SweptInOrder(w: World, spared: set<Session>, r: Session)
    requires BaseInv(w) && InOrder(w, r)
    ensures var q := QueueOf(Sweep(w.s, spared), r);
            Increasing(q) && Below(CommittedTo(w, r), q)
  {
    SweptFrontInOrder(w.s, spared, r);
    PutBackInOrder(w, r, SweptFront(w.s, spared, r));
    SweptQueueIs(w.s, spared, r);
  }

  lemma SweptQueueIs(s: State, spared: set<Session>, r: Session)
    ensures QueueOf(Sweep(s, spared), r) in {QueueOf(s, r), SweptFront(s, spared, r) + QueueOf(s, r)}
  {
  }

  lemma StepKeepsFifo(w: World, step: Step, r: Session, c: ChannelId)
    requires BaseInv(w) && FifoInv(w, r) && Enabled(w, step) && Orderly(w, step, r, c)
    ensures FifoInv(Do(w, step), r)
  {
    var u := Do(w, step);
    match step {
      case Act(op) => ActKeepsFifo(w, op, r);
      case StartJob(m, kind) =>
        if m == r {
          OneChannelBefore(w, step, r, c);
          OwnStartKeepsFifo(w, kind, r, c);
        } else {
          ForeignStartKeepsFifo(w, m, kind, r);
        }
      case Confirm(j) =>
        if w.jobs[j].session == r { ConfirmOwnKeepsFifo(w, j, r); } else { ConfirmOtherKeepsFifo(w, j, r); }
      case GiveBack(j) =>
        if w.jobs[j].session == r { GiveBackOwnKeepsFifo(w, j, r); } else { GiveBackOtherKeepsFifo(w, j, r); }
      case Recover => RecoverKeepsFifo(w, r);
      case _ => KeptWhenQuiet(w, u, r);
    }
  }

  lemma OneChannelBefore(w: World, step: Step, r: Session, c: ChannelId)
    requires BaseInv(w) && Enabled(w, step) && OneChannel(Do(w, step).s, r, c)
    ensures OneChannel(w.s, r, c)
  {
    var t := Do(w, step).s;
    StepKeepsState(w, step);
    forall id | 0 <= id < |w.s.log| && w.s.log[id].recipient == r
      ensures w.s.log[id].channel == c
    {
      assert Identity(t.log[id]).recipient == Identity(w.s.log[id]).recipient;
      assert Identity(t.log[id]).channel == Identity(w.s.log[id]).channel;
    }
  }

  ghost predicate OrderlyRun(w: World, trace: seq<Event>, r: Session, c: ChannelId)
    requires Legal(w, trace)
    decreases |trace|
  {
    trace != [] ==>
      && Orderly(w.(now := trace[0].now), trace[0].step, r, c)
      && OrderlyRun(Next(w, trace[0]), trace[1..], r, c)
  }

  lemma {:induction false} RunKeepsFifo(w: World, trace: seq<Event>, r: Session, c: ChannelId)
    requires BaseInv(w) && FifoInv(w, r) && Legal(w, trace) && OrderlyRun(w, trace, r, c)
    ensures FifoInv(Run(w, trace), r)
    decreases |trace|
  {
    if trace != [] {
      var w1 := w.(now := trace[0].now);
      LaterIsFine(w, trace[0].now);
      KeptWhenQuiet(w, w1, r);
      NextKeepsBase(w, trace[0]);
      StepKeepsFifo(w1, trace[0].step, r, c);
      RunKeepsFifo(Next(w, trace[0]), trace[1..], r, c);
    }
  }

  /** Through failures, retries, prunes, sweeps and crashes, the log of ids delivered to `r`
      is in send order without repeats, is exactly what the record shows as delivered, and
      everything still in flight or queued comes after it, in order. */
  lemma DeliveredInSendOrder(trace: seq<Event>, r: Session, c: ChannelId)
    requires Legal(START, trace) && OrderlyRun(START, trace, r, c)
    ensures var w := Run(START, trace);
            Increasing(CommittedTo(w, r)) && InOrder(w, r) && CommittedIsDelivered(w, r)
  {
    RunKeepsFifo(START, trace, r, c);
  }
}
