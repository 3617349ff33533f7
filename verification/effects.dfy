/** What each operation does to the envelopes, as relations between before and after. */
module Effects {
  import opened Seqs
  import opened Types
  import opened Retention
  import opened Delivery
  import opened Sending
  import opened Membership
  import opened Queues
  import opened System

  /** Untouched, or pending before and closed after. */
  predicate Drift(e: Envelope, e': Envelope) {
    || e' == e
    || (e.status == Pending && Closed(e'.status) && e' == e.(status := e'.status))
  }

  /** Nothing is handed over, settled or returned: old envelopes drift, new ones are
      untried, and nothing comes back to life. */
  ghost predicate Calm(s: State, t: State) {
    && |s.log| <= |t.log|
    && (forall id :: 0 <= id < |s.log| ==> Drift(s.log[id], t.log[id]) && (id in t.live ==> id in s.live))
    && (forall id :: |s.log| <= id < |t.log| ==> t.log[id].attempts == 0 && t.log[id].status !in {InFlight, Delivered})
  }

  lemma CalmTrans(s: State, t: State, u: State)
    requires Calm(s, t) && Calm(t, u)
    ensures Calm(s, u)
  {
  }

  /** The ids of the `es` addressed to `r`, when minting starts at `n`. */
  function Arrivals(es: seq<Envelope>, n: nat, r: Session): seq<MessageId> {
    if es == [] then []
    else (if es[0].recipient == r then [n] else []) + Arrivals(es[1..], n + 1, r)
  }

  lemma {:induction false} ArrivalsIncrease(es: seq<Envelope>, n: nat, r: Session)
    ensures Increasing(Arrivals(es, n, r))
    ensures forall i :: 0 <= i < |Arrivals(es, n, r)| ==> n <= Arrivals(es, n, r)[i] < n + |es|
  {
    if es != [] {
      ArrivalsIncrease(es[1..], n + 1, r);
    }
  }

  lemma {:induction false} PostAllQueue(s: State, es: seq<Envelope>, r: Session)
    ensures QueueOf(PostAll(s, es), r) == QueueOf(s, r) + Arrivals(es, |s.log|, r)
    decreases |es|
  {
    if es == [] {
      assert QueueOf(s, r) + [] == QueueOf(s, r);
    } else {
      var u := Post(s, es[0]);
      var first := if es[0].recipient == r then [|s.log|] else [];
      PostAllQueue(u, es[1..], r);
      assert QueueOf(u, r) == QueueOf(s, r) + first;
      ConcatAssoc(QueueOf(s, r), first, Arrivals(es[1..], |u.log|, r));
    }
  }

  lemma {:induction false} PostAllRecord(s: State, es: seq<Envelope>)
    ensures var t := PostAll(s, es);
            && t.log == s.log + es
            && t.channels == s.channels && t.nextChannel == s.nextChannel && t.deliveredTo == s.deliveredTo
            && (forall id :: id in t.live <==> id in s.live || |s.log| <= id < |s.log| + |es|)
    decreases |es|
  {
    if es != [] {
      var u := Post(s, es[0]);
      PostAllRecord(u, es[1..]);
      assert u.log + es[1..] == s.log + es;
    }
  }

  /** Posting appends to the record, makes exactly the new ids live, and puts each at the
      back of its recipient's queue. */
  lemma PostAllForm(s: State, es: seq<Envelope>)
    ensures var t := PostAll(s, es);
            && t.log == s.log + es
            && t.channels == s.channels && t.nextChannel == s.nextChannel && t.deliveredTo == s.deliveredTo
            && (forall id :: id in t.live <==> id in s.live || |s.log| <= id < |s.log| + |es|)
            && (forall r :: QueueOf(t, r) == QueueOf(s, r) + Arrivals(es, |s.log|, r))
  {
    PostAllRecord(s, es);
    forall r
      ensures QueueOf(PostAll(s, es), r) == QueueOf(s, r) + Arrivals(es, |s.log|, r)
    {
      PostAllQueue(s, es, r);
    }
  }

  lemma PostAllCalm(s: State, es: seq<Envelope>)
    requires forall i :: 0 <= i < |es| ==> es[i].status == Pending && es[i].attempts == 0
    ensures Calm(s, PostAll(s, es))
  {
    PostAllForm(s, es);
  }

  /** Rejecting a queue touches only that recipient's pending mail, and drops the queue. */
  lemma {:induction false} RejectQueueForm(s: State, r: Session)
    requires QueueInv(s)
    ensures var t := RejectQueue(s, r);
            && Calm(s, t) && |t.log| == |s.log| && t.live == s.live
            && t.channels == s.channels && t.nextChannel == s.nextChannel && t.deliveredTo == s.deliveredTo
            && (forall r' :: r' != r ==> QueueOf(t, r') == QueueOf(s, r'))
            && QueueOf(t, r) == []
    decreases |QueueOf(s, r)|
  {
    if QueueOf(s, r) != [] {
      DequeueKeeps(s, r, 0, Rejected);
      var u := RejectHead(s, r);
      assert Calm(s, u);
      RejectQueueForm(u, r);
      CalmTrans(s, u, RejectQueue(s, r));
    }
  }

  /** removeMember rejects every pending envelope addressed to the session. */
  lemma RemovedHaveNoPendingMail(s: State, c: ChannelId, m: Session, now: int, id: MessageId)
    requires QueueInv(s) && c in s.channels
    requires Has(s, id) && s.log[id].recipient == m && s.log[id].status == Pending
    ensures var t := Remove(s, c, m, now); Has(t, id) && t.log[id] == s.log[id].(status := Rejected)
  {
    var t := Remove(s, c, m, now);
    var u := WithChannel(s, c, Departed(s.channels[c], m, now));
    SameMail(s, u);
    RemoveKeeps(s, c, m, now);
    RejectedOnly(u, m);
    RejectQueueForm(u, m);
    assert Identity(t.log[id]).recipient == m;
  }

  lemma {:induction false} RejectedOnly(s: State, r: Session)
    requires QueueInv(s)
    ensures var t := RejectQueue(s, r);
            |t.log| == |s.log| && forall id :: 0 <= id < |s.log| ==>
              t.log[id] == s.log[id] || t.log[id] == s.log[id].(status := Rejected)
    decreases |QueueOf(s, r)|
  {
    if QueueOf(s, r) != [] {
      var u := RejectHead(s, r);
      assert QueueInv(u) && u == Dequeue(s, r, 0, Rejected) by { DequeueKeeps(s, r, 0, Rejected); }
      RejectedOnly(u, r);
    }
  }

  lemma RemoveCalm(s: State, c: ChannelId, m: Session, now: int)
    requires QueueInv(s) && c in s.channels
    ensures Calm(s, Remove(s, c, m, now))
  {
    var u := WithChannel(s, c, Departed(s.channels[c], m, now));
    SameMail(s, u);
    RejectQueueForm(u, m);
    assert Calm(s, u);
    CalmTrans(s, u, Remove(s, c, m, now));
  }

  lemma PruneCalm(s: State)
    ensures Calm(s, Prune(s))
  {
  }

  /** An accepted send appends its letters, and puts each at the back of its queue. */
  lemma EnqueueForm(s: State, c: ChannelId, draft: Draft, sender: Session, now: int)
    requires c in s.channels && Resolve(s.channels[c], sender, draft.target) != []
    ensures var v := Enqueue(s, c, draft, sender, now);
            var to := Resolve(s.channels[c], sender, draft.target);
            var letters := Letters(c, draft, sender, to, ThreadOf(s, draft.replyTo, |s.log|), now);
            && v.log == s.log + letters && v.nextChannel == s.nextChannel && v.deliveredTo == s.deliveredTo
            && v.channels == s.channels[c := AfterSend(s.channels[c], sender, draft.content, to[0].session, now)]
            && (forall id :: id in v.live <==> id in s.live || |s.log| <= id < |s.log| + |letters|)
            && (forall r :: QueueOf(v, r) == QueueOf(s, r) + Arrivals(letters, |s.log|, r))
  {
    var to := Resolve(s.channels[c], sender, draft.target);
    PostAllForm(WithChannel(s, c, AfterSend(s.channels[c], sender, draft.content, to[0].session, now)),
                Letters(c, draft, sender, to, ThreadOf(s, draft.replyTo, |s.log|), now));
  }

  /** The part of EnqueueForm that most callers need. */
  lemma EnqueueMints(s: State, c: ChannelId, draft: Draft, sender: Session, now: int)
    requires c in s.channels && Resolve(s.channels[c], sender, draft.target) != []
    ensures var v := Enqueue(s, c, draft, sender, now);
            && |s.log| <= |v.log| && v.nextChannel == s.nextChannel
            && (forall id: MessageId :: |s.log| <= id < |v.log| ==>
                  v.log[id].channel == c && v.log[id].timestamp == now)
            && (forall id :: id in v.live <==> id in s.live || |s.log| <= id < |v.log|)
            && v.channels.Keys == s.channels.Keys
            && forall c' :: c' in s.channels ==>
                 && v.channels[c'].deliveredTotal == s.channels[c'].deliveredTotal
                 && v.channels[c'].maxDelivered == s.channels[c'].maxDelivered
  {
    var to := Resolve(s.channels[c], sender, draft.target);
    PostAllRecord(WithChannel(s, c, AfterSend(s.channels[c], sender, draft.content, to[0].session, now)),
                  Letters(c, draft, sender, to, ThreadOf(s, draft.replyTo, |s.log|), now));
  }

  lemma SendCalm(s: State, c: ChannelId, draft: Draft, sender: Session, operator: bool, now: int)
    ensures Calm(s, Send(s, c, draft, sender, operator, now))
  {
    if SendRefusal(s, c, draft, sender, operator, now).None? {
      var v := Enqueue(s, c, draft, sender, now);
      EnqueueForm(s, c, draft, sender, now);
      assert Calm(s, v);
      PruneCalm(v);
      CalmTrans(s, v, Prune(v));
    }
  }

  lemma RemoveForm(s: State, c: ChannelId, m: Session, now: int)
    requires QueueInv(s) && c in s.channels
    ensures var t := Remove(s, c, m, now);
            && |t.log| == |s.log| && t.live == s.live && t.nextChannel == s.nextChannel
            && t.channels == s.channels[c := Departed(s.channels[c], m, now)]
  {
    var u := WithChannel(s, c, Departed(s.channels[c], m, now));
    SameMail(s, u);
    RejectQueueForm(u, m);
  }

  lemma ExpelForm(s: State, c: ChannelId, author: Session, target: Session, now: int)
    requires QueueInv(s) && c in s.channels
    ensures var v := Expel(s, c, author, target, now);
            && v.nextChannel == s.nextChannel
            && v.channels == s.channels[c := Departed(s.channels[c], target, now)]
            && v.log == Remove(s, c, target, now).log
                        + Notices(c, author, Others(s.channels[c].members, target), |s.log|, now)
  {
    var u := Remove(s, c, target, now);
    RemoveForm(s, c, target, now);
    PostAllForm(u, Notices(c, author, Others(s.channels[c].members, target), |u.log|, now));
  }

  /** What a kick mints: first envelopes of fresh threads on the channel, stamped now. */
  lemma ExpelMints(s: State, c: ChannelId, author: Session, target: Session, now: int)
    requires QueueInv(s) && c in s.channels
    ensures var v := Expel(s, c, author, target, now);
            && |s.log| <= |v.log|
            && (forall id: MessageId :: |s.log| <= id < |v.log| ==>
                  v.log[id].channel == c && v.log[id].timestamp == now && v.log[id].hop == 0 && v.log[id].root.None?)
            && (forall id :: id in v.live <==> id in s.live || |s.log| <= id < |v.log|)
  {
    var u := Remove(s, c, target, now);
    assert |u.log| == |s.log| && u.live == s.live by { RemoveForm(s, c, target, now); }
    NoticesMint(u, c, author, Others(s.channels[c].members, target), now);
  }

  lemma NoticesMint(u: State, c: ChannelId, author: Session, to: seq<Member>, now: int)
    ensures var v := PostAll(u, Notices(c, author, to, |u.log|, now));
            && |v.log| == |u.log| + |to|
            && (forall id: MessageId :: |u.log| <= id < |v.log| ==>
                  v.log[id].channel == c && v.log[id].timestamp == now && v.log[id].hop == 0 && v.log[id].root.None?)
            && (forall id :: id in v.live <==> id in u.live || |u.log| <= id < |v.log|)
  {
    PostAllRecord(u, Notices(c, author, to, |u.log|, now));
  }

  lemma KickCalm(s: State, c: ChannelId, caller: Option<Session>, targetId: Option<string>,
        targetRole: Option<string>, now: int)
    requires QueueInv(s)
    ensures Calm(s, Kick(s, c, caller, targetId, targetRole, now))
  {
    if c in s.channels && KickTarget(s.channels[c], caller, targetId, targetRole).Some? {
      var target := KickTarget(s.channels[c], caller, targetId, targetRole).value;
      var author := caller.GetOr(OPERATOR);
      var u, v := Remove(s, c, target, now), Expel(s, c, author, target, now);
      RemoveCalm(s, c, target, now);
      PostAllCalm(u, Notices(c, author, Others(s.channels[c].members, target), |u.log|, now));
      CalmTrans(s, u, v);
      PruneCalm(v);
      CalmTrans(s, v, Prune(v));
    }
  }

  /** Every operation outside a delivery is calm. */
  lemma ApplyKeeps(s: State, op: Op, now: int)
    requires QueueInv(s)
    ensures var t := Apply(s, op, now); QueueInv(t) && Follows(s, t) && Calm(s, t)
  {
    var t := Apply(s, op, now);
    match op
    case DoSend(c, draft, sender, operator) =>
      SendKeeps(s, c, draft, sender, operator, now);
      SendCalm(s, c, draft, sender, operator, now);
    case DoKick(c, caller, targetId, targetRole) =>
      KickKeeps(s, c, caller, targetId, targetRole, now);
      KickCalm(s, c, caller, targetId, targetRole, now);
    case DoDisconnect(c, m) => DisconnectCalm(s, c, m, now);
    case DoPurge(c) => PurgeKeeps(s, c);
    case DoWithdraw(id) => WithdrawCalm(s, id);
    case _ =>
      ChannelsOnly(s, op, now);
      SameMail(s, t);
  }

  lemma DisconnectCalm(s: State, c: ChannelId, m: Session, now: int)
    requires QueueInv(s)
    ensures var t := Disconnect(s, c, m, now); QueueInv(t) && Follows(s, t) && Calm(s, t)
  {
    DisconnectKeeps(s, c, m, now);
    if c in s.channels { RemoveCalm(s, c, m, now); }
  }

  lemma WithdrawCalm(s: State, id: MessageId)
    requires QueueInv(s)
    ensures var t := Withdraw(s, id); QueueInv(t) && Follows(s, t) && Calm(s, t)
  {
    WithdrawKeeps(s, id);
  }

  /** Operations that leave the mail as it is. */
  predicate OnChannels(op: Op) {
    match op
    case DoSend(_, _, _, _) => false
    case DoKick(_, _, _, _) => false
    case DoDisconnect(_, _) => false
    case DoPurge(_) => false
    case DoWithdraw(_) => false
    case _ => true
  }

  lemma ChannelsOnly(s: State, op: Op, now: int)
    requires OnChannels(op)
    ensures var t := Apply(s, op, now);
            t.log == s.log && t.live == s.live && t.queues == s.queues && t.deliveredTo == s.deliveredTo
  {
  }

  function HandedOver(e: Envelope): Envelope {
    e.(status := InFlight, attempts := e.attempts + 1)
  }

  /** A drain hands over the ids `taken`, each pending before; every other envelope
      drifts; other queues stay. */
  ghost predicate DrainsTo(s: State, r: Session, taken: seq<MessageId>, t: State) {
    && |t.log| == |s.log| && t.live == s.live && t.nextChannel == s.nextChannel
    && NoDup(taken)
    && (forall k :: 0 <= k < |taken| ==> Waits(s, r, taken[k]) && t.log[taken[k]] == HandedOver(s.log[taken[k]]))
    && (forall id :: 0 <= id < |s.log| && id !in taken ==> Drift(s.log[id], t.log[id]))
    && (forall r' :: r' != r ==> QueueOf(t, r') == QueueOf(s, r'))
  }

  lemma DrainsAfterDrop(s: State, u: State, r: Session, i: nat, status: Status, taken: seq<MessageId>, t: State)
    requires i < |QueueOf(s, r)| && Waits(s, r, QueueOf(s, r)[i]) && Closed(status)
    requires u == Dequeue(s, r, i, status) && DrainsTo(u, r, taken, t)
    ensures DrainsTo(s, r, taken, t)
  {
    forall k | 0 <= k < |taken|
      ensures Waits(s, r, taken[k]) && t.log[taken[k]] == HandedOver(s.log[taken[k]])
    {
      assert Waits(u, r, taken[k]);
    }
  }

  lemma DrainsAfterTake(s: State, u: State, r: Session, i: nat, now: int, rest: seq<MessageId>, t: State)
    requires i < |QueueOf(s, r)| && Waits(s, r, QueueOf(s, r)[i])
    requires s.log[QueueOf(s, r)[i]].channel in s.channels
    requires u == HandOver(s, r, i, now) && DrainsTo(u, r, rest, t)
    ensures DrainsTo(s, r, [QueueOf(s, r)[i]] + rest, t)
  {
    var id := QueueOf(s, r)[i];
    var taken := [id] + rest;
    assert u.log == s.log[id := HandedOver(s.log[id])];
    forall k | 0 <= k < |rest|
      ensures rest[k] != id && Waits(s, r, rest[k]) && t.log[rest[k]] == HandedOver(s.log[rest[k]])
    {
      assert Waits(u, r, rest[k]);
    }
    assert Drift(u.log[id], t.log[id]);
  }

  lemma {:induction false} DrainFromEffects(s: State, r: Session, now: int, gate: Gate, i: nat, ids: seq<MessageId>)
      returns (taken: seq<MessageId>)
    requires QueueInv(s)
    ensures var d := DrainFrom(s, r, now, gate, i, ids); d.ids == ids + taken && DrainsTo(s, r, taken, d.state)
    decreases |QueueOf(s, r)| - i, 1
  {
    var q := QueueOf(s, r);
    if i >= |q| {
      return [];
    }
    assert Waits(s, r, q[i]) by { DequeueKeeps(s, r, i, Stale); }
    var verdict := Judge(s, r, now, gate, q[i], ids == []);
    match verdict
    case Keep =>
      taken := DrainFromEffects(s, r, now, gate, i + 1, ids);
    case Skip => assert false;
    case Drop(status) =>
      var u := Dequeue(s, r, i, status);
      assert QueueInv(u) by { DequeueKeeps(s, r, i, status); }
      taken := DrainFromEffects(u, r, now, gate, i, ids);
      DrainsAfterDrop(s, u, r, i, status, taken, DrainFrom(u, r, now, gate, i, ids).state);
    case Take =>
      taken := TakeEffects(s, r, now, gate, i, ids);
  }

  lemma {:induction false} TakeEffects(s: State, r: Session, now: int, gate: Gate, i: nat, ids: seq<MessageId>)
      returns (taken: seq<MessageId>)
    requires QueueInv(s) && i < |QueueOf(s, r)| && Has(s, QueueOf(s, r)[i])
    requires Judge(s, r, now, gate, QueueOf(s, r)[i], ids == []) == Take
    ensures var d := DrainFrom(s, r, now, gate, i, ids); d.ids == ids + taken && DrainsTo(s, r, taken, d.state)
    decreases |QueueOf(s, r)| - i, 0
  {
    var id := QueueOf(s, r)[i];
    assert Waits(s, r, id) by { DequeueKeeps(s, r, i, Stale); }
    var u := HandOver(s, r, i, now);
    assert QueueInv(u) by { HandOverKeeps(s, r, i, now); }
    var d := DrainFrom(u, r, now, gate, i, ids + [id]);
    var rest := DrainFromEffects(u, r, now, gate, i, ids + [id]);
    taken := [id] + rest;
    assert d.ids == ids + taken by { AppendAssoc(ids, id, rest); }
    assert DrainsTo(s, r, taken, d.state) by { DrainsAfterTake(s, u, r, i, now, rest, d.state); }
  }

  /** Draining, before the final prune. */
  lemma DrainEffects(s: State, r: Session, now: int, gate: Gate)
    requires QueueInv(s)
    ensures var d := DrainFrom(Touch(s, r), r, now, gate, 0, []);
            QueueInv(d.state) && DrainsTo(s, r, d.ids, d.state)
  {
    var d := DrainFrom(Touch(s, r), r, now, gate, 0, []);
    assert QueueInv(Touch(s, r)) by { TouchKeeps(s, r); }
    assert QueueInv(d.state) by { DrainFromKeeps(Touch(s, r), r, now, gate, 0, []); }
    var taken := DrainFromEffects(Touch(s, r), r, now, gate, 0, []);
    assert [] + taken == taken;
    UntouchedDrain(s, r, taken, d.state);
  }

  lemma UntouchedDrain(s: State, r: Session, taken: seq<MessageId>, t: State)
    requires DrainsTo(Touch(s, r), r, taken, t)
    ensures DrainsTo(s, r, taken, t)
  {
    forall k | 0 <= k < |taken|
      ensures Waits(s, r, taken[k])
    {
      assert Waits(Touch(s, r), r, taken[k]);
    }
  }

  function Confirmed(e: Envelope, now: int, transport: Transport): Envelope {
    e.(status := Delivered, deliveredAt := Some(now), transport := Some(transport))
  }

  /** A commit delivers exactly the batch's envelopes that are in flight to the session. */
  lemma {:induction false} CommitEffects(s: State, r: Session, ids: seq<MessageId>, now: int, transport: Transport)
    ensures var t := Commit(s, r, ids, now, transport);
            && |t.log| == |s.log| && t == s.(log := t.log)
            && forall id :: 0 <= id < |s.log| ==>
                 t.log[id] ==
                 if id in ids && InFlightTo(s, r, id) then Confirmed(s.log[id], now, transport) else s.log[id]
    decreases |ids|
  {
    if ids != [] {
      CommitEffects(CommitOne(s, r, ids[0], now, transport), r, ids[1..], now, transport);
    }
  }

  /** A requeue releases exactly the batch's live envelopes. */
  lemma {:induction false} ReturnAllEffects(s: State, r: Session, ids: seq<MessageId>)
    ensures var t := ReturnAll(s, r, ids);
            && |t.log| == |s.log| && t.live == s.live && t.channels == s.channels && t.nextChannel == s.nextChannel
            && t.deliveredTo == s.deliveredTo
            && (forall r' :: r' != r ==> QueueOf(t, r') == QueueOf(s, r'))
            && forall id :: 0 <= id < |s.log| ==>
                 t.log[id] == if id in ids && Has(s, id) then Released(s.log[id]) else s.log[id]
    decreases |ids|
  {
    if ids != [] {
      var last := ids[|ids| - 1];
      assert ids == ids[..|ids| - 1] + [last];
      ReturnAllEffects(ReturnOne(s, r, last), r, ids[..|ids| - 1]);
    }
  }

  lemma RequeueEffects(s: State, r: Session, ids: seq<MessageId>)
    ensures var t := Requeue(s, r, ids);
            && |t.log| == |s.log| && t.live == s.live && t.channels == s.channels && t.nextChannel == s.nextChannel
            && (forall r' :: r' != r ==> QueueOf(t, r') == QueueOf(s, r'))
            && forall id :: 0 <= id < |s.log| ==>
                 t.log[id] == if id in ids && Has(s, id) then Released(s.log[id]) else s.log[id]
  {
    ReturnAllEffects(Touch(s, r), r, ids);
  }
}
