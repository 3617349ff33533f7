/** When mail is handed over at all: pauses, expiry, gates, runtime and cooldown
    (src/core/engine.ts:1218-1275). */
module Due {
  import opened Seqs
  import opened Types
  import opened Retention
  import opened Delivery
  import opened Queues
  import opened Effects
  import opened RoundTrip
  import opened Overtaking

  /** Nothing but a cooldown or a spent message budget may hold `id` back at `now`. */
  ghost predicate DueAt(s: State, r: Session, now: int, gate: Gate, id: MessageId) {
    && Waits(s, r, id) && s.log[id].channel in s.channels
    && var ch := s.channels[s.log[id].channel];
       && !ch.paused && !Expired(ch, s.log[id], now) && Admits(gate, s.log[id].channel)
       && (ch.maxRuntime.Some? ==> now - ch.createdAt <= ch.maxRuntime.value)
  }

  /** The channel's terms that no drain changes. */
  ghost predicate SameRuntime(s0: State, s: State) {
    forall c :: c in s0.channels && c in s.channels ==>
      s.channels[c].maxRuntime == s0.channels[c].maxRuntime && s.channels[c].createdAt == s0.channels[c].createdAt
  }

  ghost predicate AllDue(s: State, r: Session, now: int, gate: Gate, ids: seq<MessageId>) {
    forall k :: 0 <= k < |ids| ==> DueAt(s, r, now, gate, ids[k])
  }

  /** The drain of `s0` may pass through `s`, and what is queued there was pending in `s0`. */
  ghost predicate OnTheWay(s0: State, s: State, r: Session) {
    && QueueInv(s) && Kin(s0, s) && SameRuntime(s0, s)
    && forall k :: 0 <= k < |QueueOf(s, r)| ==> Waits(s0, r, QueueOf(s, r)[k])
  }

  /** Every turn of the loop takes only what was due when the drain began. */
  lemma {:induction false} TakesOnlyDue(s0: State, s: State, r: Session, now: int, gate: Gate, i: nat,
        ids: seq<MessageId>)
      returns (taken: seq<MessageId>)
    requires OnTheWay(s0, s, r)
    ensures DrainFrom(s, r, now, gate, i, ids).ids == ids + taken && AllDue(s0, r, now, gate, taken)
    decreases |QueueOf(s, r)| - i, 1
  {
    var q := QueueOf(s, r);
    if i >= |q| {
      return [];
    }
    TurnOf(s0, s, r, now, gate, i, ids == []);
    var verdict := Judge(s, r, now, gate, q[i], ids == []);
    if verdict == Keep {
      taken := TakesOnlyDue(s0, s, r, now, gate, i + 1, ids);
    } else if verdict.Drop? {
      DropOnTheWay(s0, s, r, i, verdict.status);
      taken := TakesOnlyDue(s0, Dequeue(s, r, i, verdict.status), r, now, gate, i, ids);
    } else {
      taken := TakesDue(s0, s, r, now, gate, i, ids);
    }
  }

  lemma {:induction false} TakesDue(s0: State, s: State, r: Session, now: int, gate: Gate, i: nat, ids: seq<MessageId>)
      returns (taken: seq<MessageId>)
    requires OnTheWay(s0, s, r) && i < |QueueOf(s, r)|
    requires Judge(s, r, now, gate, QueueOf(s, r)[i], ids == []) == Take
    ensures DrainFrom(s, r, now, gate, i, ids).ids == ids + taken && AllDue(s0, r, now, gate, taken)
    decreases |QueueOf(s, r)| - i, 0
  {
    var id := QueueOf(s, r)[i];
    TakenIsDue(s0, s, r, now, gate, id, ids == []);
    TakeOnTheWay(s0, s, r, now, gate, i, ids == []);
    var more := TakesOnlyDue(s0, HandOver(s, r, i, now), r, now, gate, i, ids + [id]);
    taken := [id] + more;
    AppendAssoc(ids, id, more);
  }

  lemma StillWaiting(s0: State, r: Session, q: seq<MessageId>, i: nat)
    requires i < |q| && forall k :: 0 <= k < |q| ==> Waits(s0, r, q[k])
    ensures forall k :: 0 <= k < |RemoveAt(q, i)| ==> Waits(s0, r, RemoveAt(q, i)[k])
  {
    forall k | 0 <= k < |RemoveAt(q, i)|
      ensures Waits(s0, r, RemoveAt(q, i)[k])
    {
      assert RemoveAt(q, i)[k] == q[if k < i then k else k + 1];
    }
  }

  lemma DropOnTheWay(s0: State, s: State, r: Session, i: nat, status: Status)
    requires OnTheWay(s0, s, r) && i < |QueueOf(s, r)| && status != Pending
    ensures QueueOf(s, r)[i] < |s.log| && OnTheWay(s0, Dequeue(s, r, i, status), r)
  {
    DequeueKeeps(s, r, i, status);
    KinDequeue(s0, s, r, i, status);
    StillWaiting(s0, r, QueueOf(s, r), i);
  }

  lemma TakeOnTheWay(s0: State, s: State, r: Session, now: int, gate: Gate, i: nat, first: bool)
    requires OnTheWay(s0, s, r) && i < |QueueOf(s, r)| && Judge(s, r, now, gate, QueueOf(s, r)[i], first) == Take
    ensures OnTheWay(s0, HandOver(s, r, i, now), r)
  {
    HandOverKeeps(s, r, i, now);
    KinHandOver(s0, s, r, i, now);
    StillWaiting(s0, r, QueueOf(s, r), i);
  }

  lemma TakenIsDue(s0: State, s: State, r: Session, now: int, gate: Gate, id: MessageId, first: bool)
    requires Kin(s0, s) && SameRuntime(s0, s) && Waits(s0, r, id) && Judge(s, r, now, gate, id, first) == Take
    ensures DueAt(s0, r, now, gate, id)
  {
    KinLapses(s0, s, now, id);
    assert SameTerms(s0, s, s0.log[id].channel);
  }

  /** A drain hands over nothing from a paused channel, nothing past its stale window, nothing
      its gate excludes and nothing past its channel's runtime. */
  lemma DrainedWasDue(s: State, r: Session, now: int, gate: Gate)
    requires QueueInv(s)
    ensures var d := DrainFrom(Touch(s, r), r, now, gate, 0, []);
            AllDue(s, r, now, gate, d.ids)
  {
    TouchKeeps(s, r);
    TouchUntaken(s, r);
    assert QueueOk(s, r, QueueOf(s, r));
    var taken := TakesOnlyDue(s, Touch(s, r), r, now, gate, 0, []);
    assert [] + taken == taken;
  }

  /** A blocked channel's mail is not taken while nothing else is. */
  lemma {:induction false} BlockedTakesNothing(s: State, r: Session, now: int, gate: Gate, i: nat, c: ChannelId)
    requires QueueInv(s) && FromChannel(s, c, QueueOf(s, r)) && Blocked(s, r, now, gate, c, true)
    ensures DrainFrom(s, r, now, gate, i, []).ids == []
    decreases |QueueOf(s, r)| - i
  {
    var q := QueueOf(s, r);
    if i < |q| {
      KinSelf(s);
      TurnOf(s, s, r, now, gate, i, true);
      var verdict := Judge(s, r, now, gate, q[i], true);
      if verdict == Keep {
        BlockedTakesNothing(s, r, now, gate, i + 1, c);
      } else {
        var u := Dequeue(s, r, i, verdict.status);
        assert QueueInv(u) by { DequeueKeeps(s, r, i, verdict.status); }
        RemovalKeepsChannel(s, u, r, i, c);
        BlockedTakesNothing(u, r, now, gate, i, c);
      }
    }
  }

  /** Handing over starts the cooldown of the channel it was from, at its own moment. */
  ghost predicate StartsCooldown(s: State, r: Session, now: int, ids: seq<MessageId>, c: ChannelId, d: Drained) {
    && FromChannel(d.state, c, QueueOf(d.state, r))
    && c in s.channels && c in d.state.channels && d.state.channels[c].cooldownMs == s.channels[c].cooldownMs
    && |ids| <= |d.ids|
    && CooldownUntil(d.state.channels[c], r)
       == (if |d.ids| == |ids| then CooldownUntil(s.channels[c], r) else now + s.channels[c].cooldownMs)
  }

  lemma {:induction false} HandoverStartsCooldown(s: State, r: Session, now: int, gate: Gate, i: nat,
        ids: seq<MessageId>, c: ChannelId)
    requires QueueInv(s) && FromChannel(s, c, QueueOf(s, r)) && c in s.channels
    ensures StartsCooldown(s, r, now, ids, c, DrainFrom(s, r, now, gate, i, ids))
    decreases |QueueOf(s, r)| - i
  {
    var q := QueueOf(s, r);
    if i < |q| {
      KinSelf(s);
      TurnOf(s, s, r, now, gate, i, ids == []);
      var verdict := Judge(s, r, now, gate, q[i], ids == []);
      if verdict == Keep {
        HandoverStartsCooldown(s, r, now, gate, i + 1, ids, c);
      } else if verdict.Drop? {
        var u := Dequeue(s, r, i, verdict.status);
        LessKeepsChannel(s, u, r, i, verdict.status, c);
        HandoverStartsCooldown(u, r, now, gate, i, ids, c);
      } else {
        HandedOverStarts(s, r, now, i, c);
        HandoverStartsCooldown(HandOver(s, r, i, now), r, now, gate, i, ids + [q[i]], c);
      }
    }
  }

  lemma LessKeepsChannel(s: State, u: State, r: Session, i: nat, status: Status, c: ChannelId)
    requires QueueInv(s) && FromChannel(s, c, QueueOf(s, r)) && i < |QueueOf(s, r)| && status != Pending
    requires u == Dequeue(s, r, i, status)
    ensures QueueInv(u) && FromChannel(u, c, QueueOf(u, r)) && u.channels == s.channels
  {
    assert QueueInv(u) by { DequeueKeeps(s, r, i, status); }
    RemovalKeepsChannel(s, u, r, i, c);
  }

  lemma HandedOverStarts(s: State, r: Session, now: int, i: nat, c: ChannelId)
    requires QueueInv(s) && FromChannel(s, c, QueueOf(s, r)) && c in s.channels && i < |QueueOf(s, r)|
    ensures var u := HandOver(s, r, i, now);
            && QueueInv(u) && FromChannel(u, c, QueueOf(u, r)) && c in u.channels
            && u.channels[c].cooldownMs == s.channels[c].cooldownMs
            && CooldownUntil(u.channels[c], r) == now + s.channels[c].cooldownMs
  {
    var u := HandOver(s, r, i, now);
    assert QueueInv(u) by { HandOverKeeps(s, r, i, now); }
    RemovalKeepsChannel(s, u, r, i, c);
  }

  lemma HandOverCools(s: State, m: Session, i: nat, now: int, r: Session)
    requires QueueInv(s) && m != r && i < |QueueOf(s, m)| && QueueOf(s, m)[i] < |s.log|
    requires s.log[QueueOf(s, m)[i]].channel in s.channels
    ensures var u := HandOver(s, m, i, now);
            && QueueInv(u) && u.channels.Keys == s.channels.Keys
            && forall c :: c in s.channels ==> CooldownUntil(u.channels[c], r) == CooldownUntil(s.channels[c], r)
  {
    assert QueueInv(HandOver(s, m, i, now)) by { HandOverKeeps(s, m, i, now); }
  }

  /** A drain for someone else starts no cooldown of `r`'s. */
  lemma {:induction false} OthersCool(s: State, m: Session, now: int, gate: Gate, i: nat, ids: seq<MessageId>,
        r: Session)
    requires QueueInv(s) && m != r
    ensures var t := DrainFrom(s, m, now, gate, i, ids).state;
            && t.channels.Keys == s.channels.Keys
            && forall c :: c in s.channels ==> CooldownUntil(t.channels[c], r) == CooldownUntil(s.channels[c], r)
    decreases |QueueOf(s, m)| - i
  {
    var q := QueueOf(s, m);
    if i < |q| {
      KinSelf(s);
      TurnOf(s, s, m, now, gate, i, ids == []);
      var verdict := Judge(s, m, now, gate, q[i], ids == []);
      if verdict == Keep {
        OthersCool(s, m, now, gate, i + 1, ids, r);
      } else if verdict.Drop? {
        assert QueueInv(Dequeue(s, m, i, verdict.status)) by { DequeueKeeps(s, m, i, verdict.status); }
        OthersCool(Dequeue(s, m, i, verdict.status), m, now, gate, i, ids, r);
      } else {
        HandOverCools(s, m, i, now, r);
        OthersCool(HandOver(s, m, i, now), m, now, gate, i, ids + [q[i]], r);
      }
    }
  }

  /** For a recipient on channel `c`: an empty batch leaves the cooldown as it is; any other is
      drained after the last cooldown and starts a new one. */
  ghost predicate Paced(s: State, r: Session, now: int, c: ChannelId, d: Drained) {
    && c in s.channels && c in d.state.channels && d.state.channels[c].cooldownMs == s.channels[c].cooldownMs
    && if d.ids == [] then CooldownUntil(d.state.channels[c], r) == CooldownUntil(s.channels[c], r)
       else && CooldownUntil(s.channels[c], r) <= now
            && CooldownUntil(d.state.channels[c], r) == now + s.channels[c].cooldownMs
  }

  lemma DrainsArePaced(s: State, r: Session, now: int, gate: Gate, c: ChannelId)
    requires QueueInv(s) && FromChannel(s, c, QueueOf(s, r)) && c in s.channels
    ensures Paced(s, r, now, c, DrainFrom(Touch(s, r), r, now, gate, 0, []))
  {
    TouchKeeps(s, r);
    assert FromChannel(Touch(s, r), c, QueueOf(Touch(s, r), r));
    HandoverStartsCooldown(Touch(s, r), r, now, gate, 0, [], c);
    if now < CooldownUntil(s.channels[c], r) {
      BlockedTakesNothing(Touch(s, r), r, now, gate, 0, c);
    }
  }

  /** Mail is handed over only while its channel exists. */
  lemma TakenHasChannel(s: State, r: Session, now: int, gate: Gate, c: ChannelId)
    requires QueueInv(s) && FromChannel(s, c, QueueOf(s, r))
    ensures DrainFrom(Touch(s, r), r, now, gate, 0, []).ids != [] ==> c in s.channels
  {
    DrainedWasDue(s, r, now, gate);
    var ids := DrainFrom(Touch(s, r), r, now, gate, 0, []).ids;
    if ids != [] {
      assert DueAt(s, r, now, gate, ids[0]);
      assert ids[0] in QueueOf(s, r);
    }
  }
}
