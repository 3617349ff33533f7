/** What a drain does with each queued envelope, in terms of the channel's roster, its stale
    window and the clock alone (src/core/engine.ts:1214-1280). */
module DrainLaw {
  import opened Seqs
  import opened Types
  import opened Retention
  import opened Retained
  import opened Delivery
  import opened Sending
  import opened Queues
  import opened Effects
  import opened System
  import opened Safety
  import opened RoundTrip
  import opened Overtaking
  import opened Due
  import opened Chronicle
  import opened Roster

  /** `members[i]` is the first with session `r`. */
  ghost predicate FirstAt(members: seq<Member>, r: Session, i: nat) {
    i < |members| && members[i].session == r && forall k: nat :: k < i ==> members[k].session != r
  }

  /** Mail for `r` may be this old: any age under policy Never, else the member's own window,
      else the channel's, which also holds for somebody no longer on the roster. */
  ghost predicate InTime(ch: Channel, r: Session, age: int) {
    && (forall i: nat :: FirstAt(ch.members, r, i) ==>
          match ch.members[i].policy
          case Never => true
          case Window(Some(ms)) => age <= ms
          case Window(None) => age <= ch.staleMs)
    && (!OnRoster(ch.members, r) ==> age <= ch.staleMs)
  }

  lemma {:induction false} FindsFirst(members: seq<Member>, r: Session) returns (i: nat)
    ensures if FindMember(members, r).None? then !OnRoster(members, r) && forall k: nat :: !FirstAt(members, r, k)
            else && FirstAt(members, r, i) && FindMember(members, r).value == members[i] && OnRoster(members, r)
                 && forall k: nat :: FirstAt(members, r, k) ==> k == i
  {
    i := 0;
    if members != [] && members[0].session != r {
      i := FindsFirst(members[1..], r);
      i := i + 1;
      forall k: nat
        ensures FirstAt(members, r, k) <==> k > 0 && FirstAt(members[1..], r, k - 1)
      {
        if k > 0 && FirstAt(members[1..], r, k - 1) {
          forall j: nat | j < k
            ensures members[j].session != r
          {
            assert j > 0 ==> members[j] == members[1..][j - 1];
          }
        }
        if FirstAt(members, r, k) {
          assert members[k] == members[1..][k - 1];
          forall j: nat | j < k - 1
            ensures members[1..][j].session != r
          {
            assert members[1..][j] == members[j + 1];
          }
        }
      }
      if OnRoster(members, r) {
        var k :| 0 <= k < |members| && members[k].session == r;
        assert members[1..][k - 1].session == r;
      }
    }
  }

  lemma ExpiredIff(ch: Channel, e: Envelope, now: int)
    ensures Expired(ch, e, now) <==> !InTime(ch, e.recipient, now - e.timestamp)
  {
    var i := FindsFirst(ch.members, e.recipient);
  }

  /** Too old for a channel that exists and is not paused. */
  ghost predicate Overdue(s: State, now: int, id: MessageId) {
    && id < |s.log| && s.log[id].channel in s.channels
    && var ch := s.channels[s.log[id].channel];
       !ch.paused && !InTime(ch, s.log[id].recipient, now - s.log[id].timestamp)
  }

  ghost predicate Homeless(s: State, id: MessageId) {
    id < |s.log| && s.log[id].channel !in s.channels
  }

  /** What has become of an id that the drain of `s0` has passed. */
  ghost predicate Fate(s0: State, now: int, id: MessageId, t: State) {
    && id < |s0.log| && id < |t.log|
    && t.log[id].status == if Homeless(s0, id) then Rejected else if Overdue(s0, now, id) then Stale
                           else if t.log[id].status == InFlight then InFlight else Pending
  }

  lemma LapsesIff(s: State, now: int, id: MessageId)
    ensures Lapses(s, now, id) <==> Homeless(s, id) || Overdue(s, now, id)
  {
    if id < |s.log| && s.log[id].channel in s.channels {
      ExpiredIff(s.channels[s.log[id].channel], s.log[id], now);
    }
  }

  /** One turn settles the id at the cursor. */
  lemma TurnFate(s0: State, s: State, r: Session, now: int, gate: Gate, i: nat, first: bool)
    requires OnTheWay(s0, s, r) && i < |QueueOf(s, r)|
    ensures var id := QueueOf(s, r)[i];
            var verdict := Judge(s, r, now, gate, id, first);
            && id < |s0.log| && id < |s.log| && s.log[id].status == Pending && verdict != Skip
            && (verdict.Drop? <==> Homeless(s0, id) || Overdue(s0, now, id))
            && (verdict.Drop? ==> verdict.status == if Homeless(s0, id) then Rejected else Stale)
            && (verdict == Take ==> s.log[id].channel in s.channels)
  {
    var id := QueueOf(s, r)[i];
    TurnOf(s0, s, r, now, gate, i, first);
    LapsesIff(s0, now, id);
    DequeueKeeps(s, r, i, Stale);
    KinLapses(s0, s, now, id);
    assert SameTerms(s0, s, s0.log[id].channel);
  }

  /** The ids of `tail` meet their fates, and the rest of the record stays. */
  ghost predicate Settles(s0: State, s: State, now: int, tail: seq<MessageId>, t: State) {
    && |t.log| == |s.log|
    && (forall k :: 0 <= k < |tail| ==> Fate(s0, now, tail[k], t))
    && (forall id: MessageId :: id < |s.log| && id !in tail ==> t.log[id] == s.log[id])
  }

  lemma SettlesMore(s0: State, s: State, u: State, now: int, id: MessageId, rest: seq<MessageId>, t: State)
    requires id !in rest && id < |s.log| && |u.log| == |s.log|
    requires forall x: MessageId :: x < |s.log| && x != id ==> u.log[x] == s.log[x]
    requires Settles(s0, u, now, rest, t) && Fate(s0, now, id, u)
    ensures Settles(s0, s, now, [id] + rest, t)
  {
    assert t.log[id] == u.log[id];
  }

  /** The tail behind the cursor once the id there is out of the queue. */
  lemma TailGone(q: seq<MessageId>, i: nat)
    requires i < |q| && NoDup(q)
    ensures q[i..] == [q[i]] + RemoveAt(q, i)[i..] && q[i] !in RemoveAt(q, i)[i..] && q[i..] == [q[i]] + q[i + 1..]
    ensures q[i] !in q[i + 1..]
  {
    assert RemoveAt(q, i)[i..] == q[i + 1..];
  }

  lemma {:induction false} DrainSettles(s0: State, s: State, r: Session, now: int, gate: Gate, i: nat,
        ids: seq<MessageId>)
    requires OnTheWay(s0, s, r) && i <= |QueueOf(s, r)|
    ensures Settles(s0, s, now, QueueOf(s, r)[i..], DrainFrom(s, r, now, gate, i, ids).state)
    decreases |QueueOf(s, r)| - i, 1
  {
    var q := QueueOf(s, r);
    if i < |q| {
      TurnFate(s0, s, r, now, gate, i, ids == []);
      assert QueueOk(s, r, q);
      TailGone(q, i);
      var verdict := Judge(s, r, now, gate, q[i], ids == []);
      var t := DrainFrom(s, r, now, gate, i, ids).state;
      if verdict == Keep {
        DrainSettles(s0, s, r, now, gate, i + 1, ids);
        SettlesMore(s0, s, s, now, q[i], q[i + 1..], t);
      } else {
        SettlesLess(s0, s, r, now, gate, i, ids);
      }
    }
  }

  lemma {:induction false} SettlesLess(s0: State, s: State, r: Session, now: int, gate: Gate, i: nat,
        ids: seq<MessageId>)
    requires OnTheWay(s0, s, r) && i < |QueueOf(s, r)|
    requires Judge(s, r, now, gate, QueueOf(s, r)[i], ids == []) != Keep
    ensures Settles(s0, s, now, QueueOf(s, r)[i..], DrainFrom(s, r, now, gate, i, ids).state)
    decreases |QueueOf(s, r)| - i, 0
  {
    var q := QueueOf(s, r);
    TurnFate(s0, s, r, now, gate, i, ids == []);
    assert QueueOk(s, r, q);
    TailGone(q, i);
    var verdict := Judge(s, r, now, gate, q[i], ids == []);
    if verdict.Drop? {
      var u := Dequeue(s, r, i, verdict.status);
      DropOnTheWay(s0, s, r, i, verdict.status);
      DropFate(s0, s, r, now, i, verdict.status);
      DrainSettles(s0, u, r, now, gate, i, ids);
      SettlesMore(s0, s, u, now, q[i], QueueOf(u, r)[i..], DrainFrom(u, r, now, gate, i, ids).state);
    } else {
      var u := HandOver(s, r, i, now);
      TakeOnTheWay(s0, s, r, now, gate, i, ids == []);
      TakeFate(s0, s, r, now, i);
      DrainSettles(s0, u, r, now, gate, i, ids + [q[i]]);
      SettlesMore(s0, s, u, now, q[i], QueueOf(u, r)[i..], DrainFrom(u, r, now, gate, i, ids + [q[i]]).state);
    }
  }

  lemma DropFate(s0: State, s: State, r: Session, now: int, i: nat, status: Status)
    requires i < |QueueOf(s, r)| && QueueOf(s, r)[i] < |s0.log| && |s.log| == |s0.log|
    requires Homeless(s0, QueueOf(s, r)[i]) || Overdue(s0, now, QueueOf(s, r)[i])
    requires status == if Homeless(s0, QueueOf(s, r)[i]) then Rejected else Stale
    ensures var id, u := QueueOf(s, r)[i], Dequeue(s, r, i, status);
            && Fate(s0, now, id, u) && |u.log| == |s.log| && QueueOf(u, r) == RemoveAt(QueueOf(s, r), i)
            && forall x: MessageId :: x < |s.log| && x != id ==> u.log[x] == s.log[x]
  {
  }

  lemma TakeFate(s0: State, s: State, r: Session, now: int, i: nat)
    requires i < |QueueOf(s, r)| && QueueOf(s, r)[i] < |s0.log| && |s.log| == |s0.log|
    requires !Homeless(s0, QueueOf(s, r)[i]) && !Overdue(s0, now, QueueOf(s, r)[i])
    requires s.log[QueueOf(s, r)[i]].channel in s.channels
    ensures var id, u := QueueOf(s, r)[i], HandOver(s, r, i, now);
            && Fate(s0, now, id, u) && |u.log| == |s.log| && QueueOf(u, r) == RemoveAt(QueueOf(s, r), i)
            && forall x: MessageId :: x < |s.log| && x != id ==> u.log[x] == s.log[x]
  {
  }

  /** The channel's message budget is used up. */
  predicate Spent(s: State, c: ChannelId) {
    c in s.channels && s.channels[c].maxDelivered.Some?
    && s.channels[c].deliveredTotal >= s.channels[c].maxDelivered.value
  }

  /** A drain never gives a budget back. */
  lemma {:induction false} SpentStays(s: State, r: Session, now: int, gate: Gate, i: nat, ids: seq<MessageId>,
        c: ChannelId)
    requires QueueInv(s) && Spent(s, c)
    ensures Spent(DrainFrom(s, r, now, gate, i, ids).state, c)
    decreases |QueueOf(s, r)| - i
  {
    var q := QueueOf(s, r);
    if i < |q| {
      KinSelf(s);
      TurnOf(s, s, r, now, gate, i, ids == []);
      var verdict := Judge(s, r, now, gate, q[i], ids == []);
      if verdict == Keep {
        SpentStays(s, r, now, gate, i + 1, ids, c);
      } else if verdict.Drop? {
        assert QueueInv(Dequeue(s, r, i, verdict.status)) by { DequeueKeeps(s, r, i, verdict.status); }
        SpentStays(Dequeue(s, r, i, verdict.status), r, now, gate, i, ids, c);
      } else {
        assert QueueInv(HandOver(s, r, i, now)) by { HandOverKeeps(s, r, i, now); }
        SpentStays(HandOver(s, r, i, now), r, now, gate, i, ids + [q[i]], c);
      }
    }
  }

  /** Nothing but a spent message budget may hold `id` back: its channel is open and not
      cooling for `r`, it is in time, and the gate admits it. */
  ghost predicate Ripe(s: State, r: Session, now: int, gate: Gate, id: MessageId) {
    && Waits(s, r, id) && s.log[id].channel in s.channels
    && var ch := s.channels[s.log[id].channel];
       && !ch.paused && InTime(ch, r, now - s.log[id].timestamp)
       && (gate.Some? ==> s.log[id].channel in gate.value)
       && (ch.maxRuntime.Some? ==> now - ch.createdAt <= ch.maxRuntime.value)
       && (r in ch.cooldownUntil ==> now >= ch.cooldownUntil[r]) && now >= 0
  }

  /** Until something is taken the channels are as at the start. */
  ghost predicate Underway(s0: State, s: State, r: Session, ids: seq<MessageId>) {
    OnTheWay(s0, s, r) && (ids == [] ==> s.channels == s0.channels)
  }

  /** Ripe, in the terms of the loop. */
  ghost predicate Unheld(s: State, r: Session, now: int, gate: Gate, id: MessageId) {
    DueAt(s, r, now, gate, id) && now >= CooldownUntil(s.channels[s.log[id].channel], r)
  }

  lemma RipeTurn(s0: State, s: State, r: Session, now: int, gate: Gate, i: nat, ids: seq<MessageId>)
    requires Underway(s0, s, r, ids) && i < |QueueOf(s, r)| && Unheld(s0, r, now, gate, QueueOf(s, r)[i])
    ensures var verdict := Judge(s, r, now, gate, QueueOf(s, r)[i], ids == []);
            verdict == Take || (verdict == Keep && Spent(s, s0.log[QueueOf(s, r)[i]].channel))
  {
    var id := QueueOf(s, r)[i];
    TurnOf(s0, s, r, now, gate, i, ids == []);
    assert SameTerms(s0, s, s0.log[id].channel);
  }

  lemma {:induction false} RipeIsTaken(s0: State, s: State, r: Session, now: int, gate: Gate, i: nat,
        ids: seq<MessageId>, id: MessageId)
    requires Underway(s0, s, r, ids) && i <= |QueueOf(s, r)|
    requires id in QueueOf(s, r)[i..] && Unheld(s0, r, now, gate, id)
    ensures var d := DrainFrom(s, r, now, gate, i, ids);
            id in d.ids || Spent(d.state, s0.log[id].channel)
    decreases |QueueOf(s, r)| - i
  {
    var q := QueueOf(s, r);
    Ahead(q, i, id);
    if id == q[i] {
      RipeAtCursor(s0, s, r, now, gate, i, ids);
      return;
    }
    var u, i', ids' := Passes(s0, s, r, now, gate, i, ids);
    RipeIsTaken(s0, u, r, now, gate, i', ids', id);
  }

  /** Whatever one turn does, the loop goes on with what is queued behind it. */
  ghost predicate Passed(s: State, u: State, r: Session, now: int, gate: Gate, i: nat, ids: seq<MessageId>, i': nat,
        ids': seq<MessageId>) {
    && i < |QueueOf(s, r)| && i' <= |QueueOf(u, r)|
    && DrainFrom(s, r, now, gate, i, ids) == DrainFrom(u, r, now, gate, i', ids')
    && QueueOf(u, r)[i'..] == QueueOf(s, r)[i + 1..]
    && |QueueOf(u, r)| - i' < |QueueOf(s, r)| - i
  }

  lemma Passes(s0: State, s: State, r: Session, now: int, gate: Gate, i: nat, ids: seq<MessageId>)
      returns (u: State, i': nat, ids': seq<MessageId>)
    requires Underway(s0, s, r, ids) && i < |QueueOf(s, r)|
    ensures Underway(s0, u, r, ids') && Passed(s, u, r, now, gate, i, ids, i', ids')
    ensures s.deliveredTo.Keys <= u.deliveredTo.Keys
    ensures ids' == ids || ids' == ids + [QueueOf(s, r)[i]]
    ensures ids' != ids ==> QueueOf(s, r)[i] in u.deliveredTo
    ensures ids' != ids && ids == [] ==> Warm(s0, r, now, QueueOf(s, r)[i])
  {
    var q := QueueOf(s, r);
    TurnOf(s0, s, r, now, gate, i, ids == []);
    var verdict := Judge(s, r, now, gate, q[i], ids == []);
    u, i', ids' := s, i, ids;
    if verdict == Keep {
      i' := i + 1;
    } else if verdict.Drop? {
      u := Dequeue(s, r, i, verdict.status);
      assert OnTheWay(s0, u, r) by { DropOnTheWay(s0, s, r, i, verdict.status); }
    } else {
      u, ids' := HandOver(s, r, i, now), ids + [q[i]];
      assert OnTheWay(s0, u, r) by { TakeOnTheWay(s0, s, r, now, gate, i, ids == []); }
    }
  }

  lemma RipeAtCursor(s0: State, s: State, r: Session, now: int, gate: Gate, i: nat, ids: seq<MessageId>)
    requires Underway(s0, s, r, ids) && i < |QueueOf(s, r)| && Unheld(s0, r, now, gate, QueueOf(s, r)[i])
    ensures var d, id := DrainFrom(s, r, now, gate, i, ids), QueueOf(s, r)[i];
            id in d.ids || Spent(d.state, s0.log[id].channel)
  {
    var id := QueueOf(s, r)[i];
    RipeTurn(s0, s, r, now, gate, i, ids);
    if Judge(s, r, now, gate, id, ids == []) == Keep {
      SpentStays(s, r, now, gate, i, ids, s0.log[id].channel);
    } else {
      var u := HandOver(s, r, i, now);
      assert OnTheWay(s0, u, r) by { TakeOnTheWay(s0, s, r, now, gate, i, ids == []); }
      var more := TakesOnlyDue(s0, u, r, now, gate, i, ids + [id]);
      assert DrainFrom(u, r, now, gate, i, ids + [id]).ids[|ids|] == id;
    }
  }

  lemma Ahead(q: seq<MessageId>, i: nat, id: MessageId)
    requires i <= |q| && id in q[i..]
    ensures i < |q| && (id == q[i] || (id in q[i + 1..] && id in RemoveAt(q, i)[i..]))
  {
    assert RemoveAt(q, i)[i..] == q[i + 1..];
  }

  /** The first id taken is from a channel that was not cooling. */
  lemma {:induction false} FirstIsWarm(s0: State, s: State, r: Session, now: int, gate: Gate, i: nat)
    requires Underway(s0, s, r, []) && i <= |QueueOf(s, r)|
    ensures var ids := DrainFrom(s, r, now, gate, i, []).ids;
            ids != [] ==> Warm(s0, r, now, ids[0])
    decreases |QueueOf(s, r)| - i
  {
    if i < |QueueOf(s, r)| {
      var u, i', ids' := Passes(s0, s, r, now, gate, i, []);
      if ids' == [] {
        FirstIsWarm(s0, u, r, now, gate, i');
      } else {
        FirstStaysFirst(s0, u, r, now, gate, i', ids');
      }
    }
  }

  lemma FirstStaysFirst(s0: State, s: State, r: Session, now: int, gate: Gate, i: nat, ids: seq<MessageId>)
    requires OnTheWay(s0, s, r) && ids != []
    ensures var all := DrainFrom(s, r, now, gate, i, ids).ids;
            all != [] && all[0] == ids[0]
  {
    var more := TakesOnlyDue(s0, s, r, now, gate, i, ids);
  }

  /** The channel of `id` is not cooling for `r`. */
  ghost predicate Warm(s: State, r: Session, now: int, id: MessageId) {
    && id < |s.log| && s.log[id].channel in s.channels
    && var until := s.channels[s.log[id].channel].cooldownUntil;
       if r in until then now >= until[r] else now >= 0
  }

  ghost predicate Receipted(s: State, ids: seq<MessageId>) {
    forall id :: id in ids ==> id in s.deliveredTo
  }

  lemma ReceiptedMore(s: State, u: State, ids: seq<MessageId>, ids': seq<MessageId>, id: MessageId)
    requires Receipted(s, ids) && s.deliveredTo.Keys <= u.deliveredTo.Keys
    requires ids' == ids || (ids' == ids + [id] && id in u.deliveredTo)
    ensures Receipted(u, ids')
  {
    forall x | x in ids'
      ensures x in u.deliveredTo
    {
      if x in ids {
        assert x in s.deliveredTo.Keys;
      }
    }
  }

  /** Whoever is handed an envelope is on its list of receipts. */
  lemma {:induction false} ReceiptsGiven(s0: State, s: State, r: Session, now: int, gate: Gate, i: nat,
        ids: seq<MessageId>)
    requires Underway(s0, s, r, ids) && i <= |QueueOf(s, r)| && Receipted(s, ids)
    ensures var d := DrainFrom(s, r, now, gate, i, ids); Receipted(d.state, d.ids)
    decreases |QueueOf(s, r)| - i
  {
    if i < |QueueOf(s, r)| {
      var u, i', ids' := Passes(s0, s, r, now, gate, i, ids);
      ReceiptedMore(s, u, ids, ids', QueueOf(s, r)[i]);
      ReceiptsGiven(s0, u, r, now, gate, i', ids');
    }
  }

  /** What may be handed over: mail of an open channel, in time, that the gate admits. */
  ghost predicate MayGo(s: State, r: Session, now: int, gate: Gate, id: MessageId) {
    && Waits(s, r, id) && s.log[id].channel in s.channels
    && var ch := s.channels[s.log[id].channel];
       && !ch.paused && InTime(ch, r, now - s.log[id].timestamp)
       && (gate.Some? ==> s.log[id].channel in gate.value)
       && (ch.maxRuntime.Some? ==> now - ch.createdAt <= ch.maxRuntime.value)
  }

  lemma RipeIsUnheld(s: State, r: Session, now: int, gate: Gate, id: MessageId)
    ensures DueAt(s, r, now, gate, id) <==> MayGo(s, r, now, gate, id)
    ensures Ripe(s, r, now, gate, id) ==> Unheld(s, r, now, gate, id)
  {
    if Waits(s, r, id) && s.log[id].channel in s.channels {
      ExpiredIff(s.channels[s.log[id].channel], s.log[id], now);
    }
  }

  /** Where a queued id is once the drain is over. */
  ghost predicate EndsUp(s: State, r: Session, now: int, gate: Gate, id: MessageId, d: Drained) {
    && id < |s.log| && id < |d.state.log|
    && (d.state.log[id].status == Rejected <==> Homeless(s, id))
    && (d.state.log[id].status == Stale <==> Overdue(s, now, id))
    && (d.state.log[id].status == InFlight <==> id in d.ids)
    && (d.state.log[id].status == Pending <==> id in QueueOf(d.state, r))
    && d.state.log[id].status in {Rejected, Stale, InFlight, Pending}
    && (Ripe(s, r, now, gate, id) ==> id in d.ids || Spent(d.state, s.log[id].channel))
  }

  /** An id taken might go, and is receipted. */
  ghost predicate Taken(s: State, r: Session, now: int, gate: Gate, id: MessageId, d: Drained) {
    && MayGo(s, r, now, gate, id) && id in d.state.deliveredTo && d.state.deliveredTo[id] == [r]
  }

  lemma QueuedEndsUp(s: State, r: Session, now: int, gate: Gate, id: MessageId)
    requires QueueInv(s) && id in QueueOf(s, r)
    ensures EndsUp(s, r, now, gate, id, DrainFrom(Touch(s, r), r, now, gate, 0, []))
  {
    var q, d := QueueOf(s, r), DrainFrom(Touch(s, r), r, now, gate, 0, []);
    AtStart(s, r);
    DrainSettles(s, Touch(s, r), r, now, gate, 0, []);
    assert q[0..] == q;
    var k :| 0 <= k < |q| && q[k] == id;
    assert Fate(s, now, q[k], d.state);
    DrainEffects(s, r, now, gate);
    assert Waits(s, r, q[k]);
    PlaceOf(s, r, id, d);
    RipeIsUnheld(s, r, now, gate, id);
    if Ripe(s, r, now, gate, id) {
      RipeIsTaken(s, Touch(s, r), r, now, gate, 0, [], id);
    }
  }

  lemma PlaceOf(s: State, r: Session, id: MessageId, d: Drained)
    requires Waits(s, r, id) && QueueInv(d.state) && DrainsTo(s, r, d.ids, d.state)
    ensures d.state.log[id].status == InFlight <==> id in d.ids
    ensures d.state.log[id].status == Pending <==> id in QueueOf(d.state, r)
  {
    if id in d.ids {
      var k :| 0 <= k < |d.ids| && d.ids[k] == id;
    } else {
      assert Drift(s.log[id], d.state.log[id]);
    }
    if id in QueueOf(d.state, r) {
      assert QueueOk(d.state, r, QueueOf(d.state, r));
      var k :| 0 <= k < |QueueOf(d.state, r)| && QueueOf(d.state, r)[k] == id;
    }
  }

  lemma AtStart(s: State, r: Session)
    requires QueueInv(s)
    ensures Underway(s, Touch(s, r), r, []) && QueueOf(Touch(s, r), r) == QueueOf(s, r)
    ensures forall k :: 0 <= k < |QueueOf(s, r)| ==> Waits(s, r, QueueOf(s, r)[k])
  {
    TouchKeeps(s, r);
    TouchUntaken(s, r);
    assert QueueOk(s, r, QueueOf(s, r));
  }

  lemma TakenProperly(s: State, r: Session, now: int, gate: Gate, id: MessageId)
    requires QueueInv(s) && id in DrainFrom(Touch(s, r), r, now, gate, 0, []).ids
    ensures Taken(s, r, now, gate, id, DrainFrom(Touch(s, r), r, now, gate, 0, []))
  {
    var d := DrainFrom(Touch(s, r), r, now, gate, 0, []);
    var k :| 0 <= k < |d.ids| && d.ids[k] == id;
    DrainedWasDue(s, r, now, gate);
    assert DueAt(s, r, now, gate, d.ids[k]);
    RipeIsUnheld(s, r, now, gate, id);
    AtStart(s, r);
    ReceiptsGiven(s, Touch(s, r), r, now, gate, 0, []);
    DrainEffects(s, r, now, gate);
    assert ReceiptsOk(d.state) && d.state.log[id] == HandedOver(s.log[id]);
  }

  /** The whole effect of a drain on its queue: mail of a vanished channel is rejected, mail of
      an open one too old for its recipient's policy is stale, what is handed over was free
      to go and is receipted, what stays is queued; and of what was ripe nothing stays, unless
      its channel's message budget is spent. The first one handed over was not cooling. */
  lemma DrainsExactly(s: State, r: Session, now: int, gate: Gate)
    requires QueueInv(s) && |LiveIds(s)| <= MAX_PERSISTED_MESSAGES
    ensures var d := Drain(s, r, now, gate);
            && (forall id :: id in QueueOf(s, r) ==> EndsUp(s, r, now, gate, id, d))
            && (forall id :: id in d.ids ==> Taken(s, r, now, gate, id, d))
            && (d.ids != [] ==> Warm(s, r, now, d.ids[0]))
  {
    var d := DrainFrom(Touch(s, r), r, now, gate, 0, []);
    DrainPrunesNothing(s, r, now, gate);
    forall id | id in QueueOf(s, r)
      ensures EndsUp(s, r, now, gate, id, d)
    {
      QueuedEndsUp(s, r, now, gate, id);
    }
    forall id | id in d.ids
      ensures Taken(s, r, now, gate, id, d)
    {
      TakenProperly(s, r, now, gate, id);
    }
    AtStart(s, r);
    FirstIsWarm(s, Touch(s, r), r, now, gate, 0);
  }

  /** Some member of the channel is session `r`, an API member that pulls. */
  ghost predicate ApiPulls(ch: Channel, r: Session) {
    exists i :: 0 <= i < |ch.members| && ch.members[i].session == r && ch.members[i].api && ch.members[i].mode == Pull
  }

  /** The coordinator's own drain hands over only mail of channels on which its endpoint is an
      API member that pulls; the other drains are not restricted, and a start of the process
      leaves alone exactly what is in flight to such endpoints. */
  lemma ManagedDrainsPullers(s: State, r: Session, now: int, id: MessageId)
    requires QueueInv(s) && |LiveIds(s)| <= MAX_PERSISTED_MESSAGES
    requires id in Drain(s, r, now, GateFor(s, r, ManagedJob)).ids
    ensures id < |s.log| && s.log[id].channel in s.channels && ApiPulls(s.channels[s.log[id].channel], r)
    ensures GateFor(s, r, PushJob).None? && GateFor(s, r, PullJob).None?
  {
    DrainsExactly(s, r, now, GateFor(s, r, ManagedJob));
    assert Taken(s, r, now, GateFor(s, r, ManagedJob), id, Drain(s, r, now, GateFor(s, r, ManagedJob)));
    assert ManagedOn(s.channels[s.log[id].channel], r);
  }

  /** The start of the process takes back everything in flight, except to endpoints that pull
      on some channel as API members, and nothing else. */
  lemma SweepsExactly(w: World, id: MessageId)
    requires Has(w.s, id)
    ensures var e := w.s.log[id];
            var e' := Do(w, Recover).s.log[id];
            if e.status == InFlight && !exists c :: c in w.s.channels && ApiPulls(w.s.channels[c], e.recipient)
            then e' == e.(status := Pending, deliveredAt := None) else e' == e
  {
    SparedIff(w.s, w.s.log[id].recipient);
  }

  /** What a start takes back for `r` stands in front of its queue, oldest first; the rest of
      the queue is as it was. */
  lemma SweepsInFront(w: World, r: Session) returns (back: seq<MessageId>)
    requires BaseInv(w)
    ensures QueueOf(Do(w, Recover).s, r) == back + QueueOf(w.s, r) && Increasing(back)
    ensures forall id: MessageId :: id in back <==>
              InFlightTo(w.s, r, id) && !exists c :: c in w.s.channels && ApiPulls(w.s.channels[c], r)
  {
    back := Recovered(w.s, ManagedSessions(w.s), r);
    RecoveredMembers(w.s, r);
    RecoveredInOrder(w.s, ManagedSessions(w.s), r);
    SweptQueueForm(w.s, ManagedSessions(w.s), r);
  }

  lemma RecoveredMembers(s: State, r: Session)
    requires forall id :: id in s.live ==> id < |s.log|
    ensures forall id: MessageId :: id in Recovered(s, ManagedSessions(s), r) <==>
              InFlightTo(s, r, id) && !exists c :: c in s.channels && ApiPulls(s.channels[c], r)
  {
    SparedIff(s, r);
    RecoveredIds(s, ManagedSessions(s), r);
  }

  lemma RecoveredInOrder(s: State, spared: set<Session>, r: Session)
    requires TimeOrdered(s.log)
    ensures Increasing(Recovered(s, spared, r))
  {
    var ids := StrandedFor(s, spared, r);
    IdsBelowIncreasing(ids, |s.log|);
    SortedAlready(s.log, IdsBelow(ids, |s.log|));
  }

  lemma RecoveredUnqueued(s: State, spared: set<Session>, r: Session)
    requires QueueInv(s)
    ensures forall id :: id in Recovered(s, spared, r) ==> id !in Elements(QueueOf(s, r))
  {
    var q := QueueOf(s, r);
    RecoveredIds(s, spared, r);
    assert QueueOk(s, r, q);
    forall id | id in q
      ensures Waits(s, r, id)
    {
      var k :| 0 <= k < |q| && q[k] == id;
      assert Waits(s, r, q[k]);
    }
  }

  lemma SweptQueueForm(s: State, spared: set<Session>, r: Session)
    requires QueueInv(s)
    ensures QueueOf(Sweep(s, spared), r) == Recovered(s, spared, r) + QueueOf(s, r)
  {
    var q, back := QueueOf(s, r), Recovered(s, spared, r);
    RecoveredUnqueued(s, spared, r);
    WithoutNothing(back, Elements(q));
    if back == [] {
      assert back + q == q;
    } else {
      RecoveredIds(s, spared, r);
      assert back[0] in back && r in SweptRecipients(s, spared);
    }
  }

  /** A start spares exactly who pulls on some channel as an API member. */
  lemma SparedIff(s: State, r: Session)
    ensures r in ManagedSessions(s) <==> exists c :: c in s.channels && ApiPulls(s.channels[c], r)
  {
    if c :| c in s.channels && ApiPulls(s.channels[c], r) {
      var i :| 0 <= i < |s.channels[c].members| && s.channels[c].members[i].session == r
               && s.channels[c].members[i].api && s.channels[c].members[i].mode == Pull;
      assert ManagedOn(s.channels[c], s.channels[c].members[i].session);
    }
    if r in ManagedSessions(s) {
      var c, i :| c in s.channels && 0 <= i < |s.channels[c].members|
                  && ManagedOn(s.channels[c], s.channels[c].members[i].session)
                  && s.channels[c].members[i].session == r;
      assert ApiPulls(s.channels[c], r);
    }
  }

  /** A give-back returns what the batch has out, a fifth attempt excepted, and nothing else. */
  lemma GivesBackExactly(s: State, r: Session, ids: seq<MessageId>, id: MessageId)
    requires Has(s, id)
    ensures |Requeue(s, r, ids).log| == |s.log|
    ensures var e, e' := s.log[id], Requeue(s, r, ids).log[id];
            if id in ids && e.status in {InFlight, Delivered}
            then e' == e.(status := if e.attempts >= 5 then Failed else Pending, deliveredAt := None) else e' == e
  {
    RequeueEffects(s, r, ids);
  }

  /** What an accepted delivery is recorded as. */
  function Recorded(e: Envelope, kind: Kind, now: int): Envelope {
    e.(status := Delivered, deliveredAt := Some(now),
       transport := Some(match kind case ManagedJob => PushTransport case PushJob => SpawnTransport
                                    case PullJob => PullTransport))
  }

  /** A confirmation records what the batch has in flight to its recipient, by its own way. */
  lemma ConfirmsExactly(w: World, j: nat, id: MessageId)
    requires Enabled(w, Confirm(j)) && Has(w.s, id)
    ensures |Do(w, Confirm(j)).s.log| == |w.s.log|
    ensures var e, job := w.s.log[id], w.jobs[j];
            Do(w, Confirm(j)).s.log[id] ==
            if id in job.ids && e.status == InFlight && e.recipient == job.session then Recorded(e, job.kind, w.now)
            else e
  {
    var job := w.jobs[j];
    CommitEffects(w.s, job.session, job.ids, w.now, TransportOf(job.kind));
  }

  /** So does a pull, at once, with what it has just drained. */
  lemma PullsExactly(w: World, r: Session, id: MessageId)
    requires QueueInv(w.s) && |LiveIds(w.s)| <= MAX_PERSISTED_MESSAGES
    requires id in Drain(w.s, r, w.now, None).ids
    ensures id < |w.s.log| && id < |Begin(w, r, PullJob).s.log|
    ensures var e := w.s.log[id];
            Begin(w, r, PullJob).s.log[id] == Recorded(e.(attempts := e.attempts + 1), PullJob, w.now)
  {
    var d := Drain(w.s, r, w.now, None);
    DrainPrunesNothing(w.s, r, w.now, None);
    DrainEffects(w.s, r, w.now, None);
    var k :| 0 <= k < |d.ids| && d.ids[k] == id;
    assert Waits(w.s, r, d.ids[k]);
    CommitEffects(d.state, r, d.ids, w.now, PullTransport);
  }
}
