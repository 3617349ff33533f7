/** The queue invariant: an envelope is pending exactly when its id occurs once in its own
    recipient's queue and in no other, and what every operation keeps of an envelope. */
module Queues {
  import opened Seqs
  import opened Types
  import opened Retention
  import opened Delivery
  import opened Sending
  import opened Membership

  ghost predicate Waits(s: State, r: Session, id: MessageId) {
    Has(s, id) && s.log[id].recipient == r && s.log[id].status == Pending
  }

  ghost predicate QueueOk(s: State, r: Session, q: seq<MessageId>) {
    NoDup(q) && forall i :: 0 <= i < |q| ==> Waits(s, r, q[i])
  }

  ghost predicate QueuesOk(s: State) {
    forall r :: r in s.queues ==> QueueOk(s, r, s.queues[r])
  }

  ghost predicate PendingQueued(s: State) {
    forall id: MessageId :: Has(s, id) && s.log[id].status == Pending ==> id in QueueOf(s, s.log[id].recipient)
  }

  ghost predicate ReceiptsOk(s: State) {
    forall id :: id in s.deliveredTo ==> Has(s, id) && s.deliveredTo[id] == [s.log[id].recipient]
  }

  ghost predicate QueueInv(s: State) {
    && (forall id :: id in s.live ==> id < |s.log|)
    && QueuesOk(s)
    && PendingQueued(s)
    && ReceiptsOk(s)
  }

  /** Statuses no operation leaves. */
  predicate Closed(status: Status) {
    status == Failed || status == Rejected || status == Stale
  }

  /** What any operation may do to the record: add envelopes, and change of an old one only
      its delivery fields, never leaving a closed status, never losing an attempt. */
  ghost predicate Follows(s: State, t: State) {
    && |s.log| <= |t.log|
    && forall id :: 0 <= id < |s.log| ==>
         && Identity(t.log[id]) == Identity(s.log[id])
         && s.log[id].attempts <= t.log[id].attempts
         && (Closed(s.log[id].status) ==> t.log[id].status == s.log[id].status)
  }

  lemma FollowsTrans(s: State, t: State, u: State)
    requires Follows(s, t) && Follows(t, u)
    ensures Follows(s, u)
  {
    forall id | 0 <= id < |s.log|
      ensures Identity(u.log[id]) == Identity(s.log[id])
    {
      assert Identity(t.log[id]) == Identity(s.log[id]);
    }
  }

  /** The property the invariant exists for. */
  lemma PendingMeansQueuedOnce(s: State, id: MessageId)
    requires QueueInv(s) && Has(s, id)
    ensures s.log[id].status == Pending <==> id in QueueOf(s, s.log[id].recipient)
    ensures forall r :: id in QueueOf(s, r) ==> r == s.log[id].recipient && s.log[id].status == Pending
    ensures forall r, i, j :: 0 <= i < j < |QueueOf(s, r)| ==> QueueOf(s, r)[i] != QueueOf(s, r)[j]
  {
    forall r | id in QueueOf(s, r)
      ensures r == s.log[id].recipient && s.log[id].status == Pending
    {
      var i :| 0 <= i < |QueueOf(s, r)| && QueueOf(s, r)[i] == id;
      assert Waits(s, r, QueueOf(s, r)[i]);
    }
    forall r, i, j | 0 <= i < j < |QueueOf(s, r)|
      ensures QueueOf(s, r)[i] != QueueOf(s, r)[j]
    {
      assert QueueOk(s, r, QueueOf(s, r));
    }
  }

  /** Removing an id from `r`'s queue leaves the other queues free of it. */
  lemma DequeuedQueueOk(s: State, r: Session, i: nat, status: Status, r': Session)
    requires QueueInv(s) && i < |QueueOf(s, r)| && Waits(s, r, QueueOf(s, r)[i])
    requires NoDup(RemoveAt(QueueOf(s, r), i))
    requires forall x :: x in RemoveAt(QueueOf(s, r), i) <==> x in QueueOf(s, r) && x != QueueOf(s, r)[i]
    ensures var t := Dequeue(s, r, i, status);
            r' in t.queues ==> QueueOk(t, r', t.queues[r'])
  {
    var t := Dequeue(s, r, i, status);
    if r' in t.queues {
      var q' := t.queues[r'];
      assert r' in s.queues && QueueOk(s, r', s.queues[r']);
      forall k | 0 <= k < |q'|
        ensures Waits(t, r', q'[k])
      {
        assert q'[k] in s.queues[r'];
        var j :| 0 <= j < |s.queues[r']| && s.queues[r'][j] == q'[k];
        assert Waits(s, r', s.queues[r'][j]);
      }
    }
  }

  lemma DequeueKeeps(s: State, r: Session, i: nat, status: Status)
    requires QueueInv(s) && i < |QueueOf(s, r)| && status != Pending
    ensures Waits(s, r, QueueOf(s, r)[i])
    ensures var t := Dequeue(s, r, i, status); QueueInv(t) && Follows(s, t)
  {
    var q := QueueOf(s, r);
    assert QueueOk(s, r, q) && Waits(s, r, q[i]);
    RemoveAtMembers(q, i);
    forall r'
      ensures var t := Dequeue(s, r, i, status); r' in t.queues ==> QueueOk(t, r', t.queues[r'])
    {
      DequeuedQueueOk(s, r, i, status, r');
    }
  }

  lemma ChargeKeeps(s: State, r: Session, id: MessageId, now: int)
    requires QueueInv(s) && Has(s, id) && s.log[id].channel in s.channels
    requires s.log[id].status == InFlight && s.log[id].recipient == r
    ensures var t := Charge(s, r, id, now); QueueInv(t) && Follows(s, t)
  {
    var t := Charge(s, r, id, now);
    forall r' | r' in t.queues
      ensures QueueOk(t, r', t.queues[r'])
    {
      assert QueueOk(s, r', s.queues[r']);
      assert forall i :: 0 <= i < |s.queues[r']| ==> Waits(s, r', s.queues[r'][i]);
    }
  }

  lemma HandOverKeeps(s: State, r: Session, i: nat, now: int)
    requires QueueInv(s) && i < |QueueOf(s, r)|
    requires s.log[QueueOf(s, r)[i]].channel in s.channels
    ensures var t := HandOver(s, r, i, now); QueueInv(t) && Follows(s, t)
  {
    var u := Dequeue(s, r, i, InFlight);
    DequeueKeeps(s, r, i, InFlight);
    ChargeKeeps(u, r, QueueOf(s, r)[i], now);
    FollowsTrans(s, u, HandOver(s, r, i, now));
  }

  lemma {:induction false} DrainFromKeeps(s: State, r: Session, now: int, gate: Gate, i: nat, ids: seq<MessageId>)
    requires QueueInv(s)
    ensures var t := DrainFrom(s, r, now, gate, i, ids).state; QueueInv(t) && Follows(s, t) && t.live == s.live
    decreases |QueueOf(s, r)| - i
  {
    var q := QueueOf(s, r);
    if i < |q| {
      assert QueueOk(s, r, q) && Waits(s, r, q[i]);
      var verdict := Judge(s, r, now, gate, q[i], ids == []);
      match verdict
      case Keep => DrainFromKeeps(s, r, now, gate, i + 1, ids);
      case Skip => assert false;
      case Drop(status) =>
        var u := Dequeue(s, r, i, status);
        DequeueKeeps(s, r, i, status);
        DrainFromKeeps(u, r, now, gate, i, ids);
        FollowsTrans(s, u, DrainFrom(u, r, now, gate, i, ids).state);
      case Take =>
        var u := HandOver(s, r, i, now);
        HandOverKeeps(s, r, i, now);
        DrainFromKeeps(u, r, now, gate, i, ids + [q[i]]);
        FollowsTrans(s, u, DrainFrom(u, r, now, gate, i, ids + [q[i]]).state);
    }
  }

  lemma TouchKeeps(s: State, r: Session)
    requires QueueInv(s)
    ensures QueueInv(Touch(s, r)) && Follows(s, Touch(s, r))
  {
    var t := Touch(s, r);
    forall r' | r' in t.queues
      ensures QueueOk(t, r', t.queues[r'])
    {
      assert QueueOk(s, r', QueueOf(s, r'));
      assert forall i :: 0 <= i < |t.queues[r']| ==> Waits(s, r', t.queues[r'][i]);
    }
  }

  lemma ForgetKeeps(s: State, dead: set<MessageId>)
    requires QueueInv(s)
    ensures QueueInv(Forget(s, dead))
  {
    var t := Forget(s, dead);
    forall r | r in t.queues
      ensures QueueOk(t, r, t.queues[r])
    {
      var q, q' := s.queues[r], t.queues[r];
      assert QueueOk(s, r, q);
      WithoutKeepsOrder(q, dead);
      forall k | 0 <= k < |q'|
        ensures Waits(t, r, q'[k])
      {
        assert q'[k] in q;
        var j :| 0 <= j < |q| && q[j] == q'[k];
        assert Waits(s, r, q[j]);
      }
    }
  }

  lemma PruneKeeps(s: State)
    requires QueueInv(s)
    ensures QueueInv(Prune(s)) && Follows(s, Prune(s))
  {
    ForgetKeeps(s, Doomed(s));
  }

  lemma PurgeKeeps(s: State, c: ChannelId)
    requires QueueInv(s)
    ensures QueueInv(Purge(s, c)) && Follows(s, Purge(s, c))
  {
    ForgetKeeps(s, OfChannel(s, c));
    SameMail(Forget(s, OfChannel(s, c)), Purge(s, c));
  }

  /** Operations on channels alone leave the mail, hence the invariant, as it is. */
  lemma SameMail(s: State, t: State)
    requires QueueInv(s)
    requires t.log == s.log && t.live == s.live && t.queues == s.queues && t.deliveredTo == s.deliveredTo
    ensures QueueInv(t) && Follows(s, t)
  {
    forall r | r in t.queues
      ensures QueueOk(t, r, t.queues[r])
    {
      assert QueueOk(s, r, s.queues[r]);
      assert forall i :: 0 <= i < |s.queues[r]| ==> Waits(s, r, s.queues[r][i]);
    }
    assert forall id: MessageId :: Has(t, id) ==> Has(s, id);
  }

  lemma DrainKeeps(s: State, r: Session, now: int, gate: Gate)
    requires QueueInv(s)
    ensures var t := Drain(s, r, now, gate).state; QueueInv(t) && Follows(s, t)
  {
    var d := DrainFrom(Touch(s, r), r, now, gate, 0, []);
    TouchKeeps(s, r);
    DrainFromKeeps(Touch(s, r), r, now, gate, 0, []);
    FollowsTrans(s, Touch(s, r), d.state);
    PruneKeeps(d.state);
    FollowsTrans(s, d.state, Prune(d.state));
  }

  /** Changing envelopes that are not pending, to a status that is not pending, is safe. */
  lemma SettleKeeps(s: State, id: MessageId, e: Envelope)
    requires QueueInv(s) && Has(s, id) && s.log[id].status != Pending && e.status != Pending
    requires Identity(e) == Identity(s.log[id]) && e.attempts == s.log[id].attempts && !Closed(s.log[id].status)
    ensures var t := WithEnvelope(s, id, e); QueueInv(t) && Follows(s, t)
  {
    var t := WithEnvelope(s, id, e);
    assert e.recipient == Identity(e).recipient == s.log[id].recipient;
    forall r | r in t.queues
      ensures QueueOk(t, r, t.queues[r])
    {
      assert QueueOk(s, r, s.queues[r]);
      assert forall i :: 0 <= i < |s.queues[r]| ==> Waits(s, r, s.queues[r][i]);
    }
  }

  lemma {:induction false} CommitKeeps(s: State, r: Session, ids: seq<MessageId>, now: int, transport: Transport)
    requires QueueInv(s)
    ensures var t := Commit(s, r, ids, now, transport); QueueInv(t) && Follows(s, t) && t.live == s.live
    decreases |ids|
  {
    if ids != [] {
      var u := CommitOne(s, r, ids[0], now, transport);
      if InFlightTo(s, r, ids[0]) {
        SettleKeeps(s, ids[0], u.log[ids[0]]);
      }
      CommitKeeps(u, r, ids[1..], now, transport);
      FollowsTrans(s, u, Commit(u, r, ids[1..], now, transport));
    }
  }

  /** Putting a released envelope back in front of its recipient's queue. */
  lemma FrontKeeps(s: State, r: Session, id: MessageId, e: Envelope)
    requires QueueInv(s) && Has(s, id) && s.log[id].recipient == r && s.log[id].status in {Delivered, InFlight}
    requires e == s.log[id].(status := Pending, deliveredAt := None)
    ensures var t := WithQueue(WithEnvelope(s, id, e), r, [id] + QueueOf(s, r)); QueueInv(t) && Follows(s, t)
    ensures id !in QueueOf(s, r)
  {
    var q := QueueOf(s, r);
    var t := WithQueue(WithEnvelope(s, id, e), r, [id] + q);
    assert QueueOk(s, r, q);
    assert forall i :: 0 <= i < |q| ==> Waits(s, r, q[i]) && q[i] != id;
    forall r' | r' in t.queues
      ensures QueueOk(t, r', t.queues[r'])
    {
      if r' != r {
        assert QueueOk(s, r', s.queues[r']);
        assert forall i :: 0 <= i < |s.queues[r']| ==> Waits(s, r', s.queues[r'][i]);
      }
    }
  }

  lemma ReturnOneKeeps(s: State, r: Session, id: MessageId)
    requires QueueInv(s)
    requires Has(s, id) ==> s.log[id].recipient == r
    ensures var t := ReturnOne(s, r, id); QueueInv(t) && Follows(s, t) && t.live == s.live
  {
    if Has(s, id) {
      var e := Released(s.log[id]);
      if s.log[id].status == Delivered || s.log[id].status == InFlight {
        if e.status == Failed {
          SettleKeeps(s, id, e);
        } else {
          FrontKeeps(s, r, id, e);
        }
      } else {
        assert WithEnvelope(s, id, e) == s;
      }
    }
  }

  lemma {:induction false} ReturnAllKeeps(s: State, r: Session, ids: seq<MessageId>)
    requires QueueInv(s)
    requires forall i :: 0 <= i < |ids| && Has(s, ids[i]) ==> s.log[ids[i]].recipient == r
    ensures var t := ReturnAll(s, r, ids); QueueInv(t) && Follows(s, t) && t.live == s.live
    decreases |ids|
  {
    if ids != [] {
      var last := ids[|ids| - 1];
      var u := ReturnOne(s, r, last);
      ReturnOneKeeps(s, r, last);
      forall i | 0 <= i < |ids| - 1 && Has(u, ids[i])
        ensures u.log[ids[i]].recipient == r
      {
        assert Identity(u.log[ids[i]]).recipient == Identity(s.log[ids[i]]).recipient;
      }
      ReturnAllKeeps(u, r, ids[..|ids| - 1]);
      FollowsTrans(s, u, ReturnAll(s, r, ids));
    }
  }

  lemma RequeueKeeps(s: State, r: Session, ids: seq<MessageId>)
    requires QueueInv(s)
    requires forall i :: 0 <= i < |ids| && Has(s, ids[i]) ==> s.log[ids[i]].recipient == r
    ensures var t := Requeue(s, r, ids); QueueInv(t) && Follows(s, t) && t.live == s.live
  {
    TouchKeeps(s, r);
    ReturnAllKeeps(Touch(s, r), r, ids);
    FollowsTrans(s, Touch(s, r), Requeue(s, r, ids));
  }

  lemma RecoveredIds(s: State, spared: set<Session>, r: Session)
    ensures NoDup(Recovered(s, spared, r))
    ensures forall id :: id in Recovered(s, spared, r) <==>
                id in s.live && Stranded(s, spared, id) && s.log[id].recipient == r
  {
    var ids := IdsBelow(StrandedFor(s, spared, r), |s.log|);
    IdsBelowIncreasing(StrandedFor(s, spared, r), |s.log|);
    SortKeepsMembers(s.log, ids);
    SortIsByTime(s.log, ids);
    PermutationNoDup(ids, SortByTime(s.log, ids));
  }

  lemma {:induction false} IdsBelowNone(n: nat)
    ensures IdsBelow({}, n) == []
  {
    if n > 0 {
      IdsBelowNone(n - 1);
    }
  }

  lemma NothingStranded(s: State, spared: set<Session>, r: Session)
    requires StrandedFor(s, spared, r) == {}
    ensures QueueOf(Sweep(s, spared), r) == QueueOf(s, r)
  {
    IdsBelowNone(|s.log|);
    assert Recovered(s, spared, r) == [];
    assert SweptQueue(s, spared, r) == QueueOf(s, r);
  }

  lemma SweptQueueOk(s: State, spared: set<Session>, r: Session)
    requires QueueInv(s)
    ensures QueueOk(Sweep(s, spared), r, SweptQueue(s, spared, r))
  {
    var t, q, back := Sweep(s, spared), QueueOf(s, r), Recovered(s, spared, r);
    assert QueueOk(s, r, q);
    RecoveredIds(s, spared, r);
    WithoutKeepsOrder(back, Elements(q));
    var front := Without(back, Elements(q));
    forall i | 0 <= i < |front|
      ensures Waits(t, r, front[i]) && front[i] !in q
    {
      assert front[i] in front;
      assert Stranded(s, spared, front[i]);
    }
    forall i | 0 <= i < |q|
      ensures Waits(t, r, q[i])
    {
      assert Waits(s, r, q[i]);
    }
  }

  lemma SweptPendingQueued(s: State, spared: set<Session>, id: MessageId)
    requires QueueInv(s) && Has(s, id) && Sweep(s, spared).log[id].status == Pending
    ensures id in QueueOf(Sweep(s, spared), s.log[id].recipient)
  {
    var r := s.log[id].recipient;
    RecoveredIds(s, spared, r);
    if Stranded(s, spared, id) {
      assert r in SweptRecipients(s, spared);
      assert id in Recovered(s, spared, r);
    } else {
      assert id in QueueOf(s, r);
    }
    assert id in SweptQueue(s, spared, r);
  }

  lemma SweepFollows(s: State, spared: set<Session>)
    ensures Follows(s, Sweep(s, spared))
    ensures QueueInv(s) ==> ReceiptsOk(Sweep(s, spared))
  {
    var t := Sweep(s, spared);
    forall id | 0 <= id < |s.log|
      ensures Identity(t.log[id]) == Identity(s.log[id])
      ensures s.log[id].attempts == t.log[id].attempts
    {
    }
  }

  lemma SweepKeeps(s: State, spared: set<Session>)
    requires QueueInv(s)
    ensures var t := Sweep(s, spared); QueueInv(t) && Follows(s, t) && t.live == s.live
  {
    var t := Sweep(s, spared);
    SweepFollows(s, spared);
    assert QueuesOk(t) by {
      forall r | r in t.queues
        ensures QueueOk(t, r, t.queues[r])
      {
        SweptQueueOk(s, spared, r);
      }
    }
    assert PendingQueued(t) by {
      forall id: MessageId | Has(t, id) && t.log[id].status == Pending
        ensures id in QueueOf(t, t.log[id].recipient)
      {
        assert t.log[id].recipient == s.log[id].recipient;
        SweptPendingQueued(s, spared, id);
      }
    }
  }

  lemma PostKeeps(s: State, e: Envelope)
    requires QueueInv(s) && e.status == Pending
    ensures QueueInv(Post(s, e)) && Follows(s, Post(s, e))
  {
    var t := Post(s, e);
    forall r | r in t.queues
      ensures QueueOk(t, r, t.queues[r])
    {
      var q := QueueOf(s, r);
      assert QueueOk(s, r, q);
      assert forall i :: 0 <= i < |q| ==> Waits(s, r, q[i]);
    }
    assert Follows(s, t) by {
      assert forall id :: 0 <= id < |s.log| ==> t.log[id] == s.log[id];
    }
    forall id: MessageId | Has(t, id) && t.log[id].status == Pending
      ensures id in QueueOf(t, t.log[id].recipient)
    {
      if id == |s.log| {
        var q := QueueOf(t, e.recipient);
        assert q[|q| - 1] == id;
      } else {
        assert Has(s, id);
      }
    }
  }

  lemma {:induction false} PostAllKeeps(s: State, es: seq<Envelope>)
    requires QueueInv(s) && forall i :: 0 <= i < |es| ==> es[i].status == Pending
    ensures QueueInv(PostAll(s, es)) && Follows(s, PostAll(s, es))
    decreases |es|
  {
    if es != [] {
      PostKeeps(s, es[0]);
      PostAllKeeps(Post(s, es[0]), es[1..]);
      FollowsTrans(s, Post(s, es[0]), PostAll(s, es));
    }
  }

  lemma {:induction false} RejectQueueKeeps(s: State, r: Session)
    requires QueueInv(s)
    ensures var t := RejectQueue(s, r);
            QueueInv(t) && Follows(s, t) && t.live == s.live && |t.log| == |s.log|
    decreases |QueueOf(s, r)|
  {
    var q := QueueOf(s, r);
    if q == [] {
      var t := RejectQueue(s, r);
      forall r' | r' in t.queues
        ensures QueueOk(t, r', t.queues[r'])
      {
        assert QueueOk(s, r', s.queues[r']);
        assert forall i :: 0 <= i < |s.queues[r']| ==> Waits(s, r', s.queues[r'][i]);
      }
    } else {
      assert QueueOk(s, r, q) && Waits(s, r, q[0]);
      DequeueKeeps(s, r, 0, Rejected);
      RejectQueueKeeps(RejectHead(s, r), r);
      FollowsTrans(s, RejectHead(s, r), RejectQueue(s, r));
    }
  }

  lemma RemoveKeeps(s: State, c: ChannelId, m: Session, now: int)
    requires QueueInv(s) && c in s.channels
    ensures var t := Remove(s, c, m, now);
            QueueInv(t) && Follows(s, t) && t.live == s.live && |t.log| == |s.log|
  {
    var u := WithChannel(s, c, Departed(s.channels[c], m, now));
    SameMail(s, u);
    RejectQueueKeeps(u, m);
    FollowsTrans(s, u, Remove(s, c, m, now));
  }

  lemma SendKeeps(s: State, c: ChannelId, draft: Draft, sender: Session, operator: bool, now: int)
    requires QueueInv(s)
    ensures var t := Send(s, c, draft, sender, operator, now); QueueInv(t) && Follows(s, t)
  {
    if SendRefusal(s, c, draft, sender, operator, now).None? {
      EnqueueKeeps(s, c, draft, sender, now);
      var v := Enqueue(s, c, draft, sender, now);
      PruneKeeps(v);
      FollowsTrans(s, v, Prune(v));
    }
  }

  lemma EnqueueKeeps(s: State, c: ChannelId, draft: Draft, sender: Session, now: int)
    requires QueueInv(s) && c in s.channels && Resolve(s.channels[c], sender, draft.target) != []
    ensures var v := Enqueue(s, c, draft, sender, now); QueueInv(v) && Follows(s, v)
  {
    var to := Resolve(s.channels[c], sender, draft.target);
    var u := WithChannel(s, c, AfterSend(s.channels[c], sender, draft.content, to[0].session, now));
    SameMail(s, u);
    PostAllKeeps(u, Letters(c, draft, sender, to, ThreadOf(s, draft.replyTo, |s.log|), now));
    FollowsTrans(s, u, Enqueue(s, c, draft, sender, now));
  }

  lemma KickKeeps(s: State, c: ChannelId, caller: Option<Session>, targetId: Option<string>,
        targetRole: Option<string>, now: int)
    requires QueueInv(s)
    ensures var t := Kick(s, c, caller, targetId, targetRole, now); QueueInv(t) && Follows(s, t)
  {
    if c in s.channels && KickTarget(s.channels[c], caller, targetId, targetRole).Some? {
      var target := KickTarget(s.channels[c], caller, targetId, targetRole).value;
      var author := caller.GetOr(OPERATOR);
      var u := Remove(s, c, target, now);
      RemoveKeeps(s, c, target, now);
      PostAllKeeps(u, Notices(c, author, Others(s.channels[c].members, target), |u.log|, now));
      var v := Expel(s, c, author, target, now);
      FollowsTrans(s, u, v);
      PruneKeeps(v);
      FollowsTrans(s, v, Prune(v));
    }
  }

  lemma DisconnectKeeps(s: State, c: ChannelId, m: Session, now: int)
    requires QueueInv(s)
    ensures var t := Disconnect(s, c, m, now); QueueInv(t) && Follows(s, t)
  {
    if c in s.channels && IsMember(s.channels[c], m) {
      RemoveKeeps(s, c, m, now);
      var u, t := Remove(s, c, m, now), Disconnect(s, c, m, now);
      SameMail(u, t);
      FollowsTrans(s, u, t);
    }
  }

  lemma WithoutOnceOk(s: State, t: State, r: Session, q: seq<MessageId>, id: MessageId)
    requires QueueOk(s, r, q)
    requires forall x: MessageId :: x != id && Has(s, x) ==> Has(t, x) && t.log[x] == s.log[x]
    ensures QueueOk(t, r, Without(q, {id}))
  {
    var q' := Without(q, {id});
    WithoutKeepsOrder(q, {id});
    forall k | 0 <= k < |q'|
      ensures Waits(t, r, q'[k])
    {
      assert q'[k] in q;
      var j :| 0 <= j < |q| && q[j] == q'[k];
      assert Waits(s, r, q[j]);
    }
  }

  /** Every queue without a pending id, which only its recipient's holds. */
  lemma WithdrawnQueue(s: State, id: MessageId, r: Session)
    requires QueueInv(s) && Has(s, id) && s.log[id].status == Pending
    ensures QueueOf(Withdraw(s, id), r) == Without(QueueOf(s, r), {id})
  {
    PendingMeansQueuedOnce(s, id);
    if r != s.log[id].recipient {
      WithoutNothing(QueueOf(s, r), {id});
    }
  }

  lemma WithdrawKeepsQueues(s: State, id: MessageId)
    requires QueueInv(s) && Has(s, id) && s.log[id].status == Pending
    ensures QueuesOk(Withdraw(s, id))
  {
    var t := Withdraw(s, id);
    forall r | r in t.queues
      ensures QueueOk(t, r, t.queues[r])
    {
      WithdrawnQueue(s, id, r);
      assert QueueOk(s, r, QueueOf(s, r));
      WithoutOnceOk(s, t, r, QueueOf(s, r), id);
    }
  }

  lemma WithdrawKeepsPending(s: State, id: MessageId)
    requires QueueInv(s) && Has(s, id) && s.log[id].status == Pending
    ensures PendingQueued(Withdraw(s, id))
  {
    var t := Withdraw(s, id);
    forall x: MessageId | Has(t, x) && t.log[x].status == Pending
      ensures x in QueueOf(t, t.log[x].recipient)
    {
      assert x != id && t.log[x] == s.log[x];
      WithdrawnQueue(s, id, s.log[x].recipient);
    }
  }

  lemma WithdrawKeeps(s: State, id: MessageId)
    requires QueueInv(s)
    ensures var t := Withdraw(s, id);
            QueueInv(t) && Follows(s, t) && t.live == s.live && |t.log| == |s.log| && t.channels == s.channels
  {
    if Has(s, id) && s.log[id].status == Pending {
      var t := Withdraw(s, id);
      assert QueuesOk(t) by { WithdrawKeepsQueues(s, id); }
      assert PendingQueued(t) by { WithdrawKeepsPending(s, id); }
      assert ReceiptsOk(t) && Follows(s, t);
    }
  }
}
