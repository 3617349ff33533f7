/** Draining a queue that holds mail of several channels (src/core/engine.ts:1214-1280): a
    channel's own order is kept unless a cooling channel is overtaken. */
module Overtaking {
  import opened Seqs
  import opened Types
  import opened Retention
  import opened Delivery
  import opened Queues
  import opened Effects
  import opened RoundTrip

  /** The ids of channel `c`, in their order. */
  function OfOne(s: State, c: ChannelId, q: seq<MessageId>): seq<MessageId> {
    if q == [] then []
    else (if q[0] < |s.log| && s.log[q[0]].channel == c then [q[0]] else []) + OfOne(s, c, q[1..])
  }

  lemma {:induction false} OfOneConcat(s: State, c: ChannelId, p: seq<MessageId>, q: seq<MessageId>)
    ensures OfOne(s, c, p + q) == OfOne(s, c, p) + OfOne(s, c, q)
  {
    if p == [] {
      assert p + q == q;
    } else {
      assert (p + q)[1..] == p[1..] + q;
      OfOneConcat(s, c, p[1..], q);
    }
  }

  /** Drained, what is left, and what lasts, of one channel: in order. */
  ghost predicate KeepsOrderOf(s: State, c: ChannelId, taken: seq<MessageId>, rest: seq<MessageId>,
        lasting: seq<MessageId>) {
    OfOne(s, c, taken) + OfOne(s, c, rest) == OfOne(s, c, lasting)
  }

  /** `s` is a state the drain of `s0` passes through. */
  ghost predicate Kin(s0: State, s: State) {
    && |s.log| == |s0.log|
    && (forall id :: 0 <= id < |s0.log| ==> Identity(s.log[id]) == Identity(s0.log[id]))
    && (forall c :: SameTerms(s0, s, c))
  }

  lemma KinLapses(s0: State, s: State, now: int, id: MessageId)
    requires Kin(s0, s)
    ensures Lapses(s, now, id) <==> Lapses(s0, now, id)
    ensures id < |s.log| ==> s.log[id].channel == s0.log[id].channel
  {
    if id < |s.log| {
      var e, e0 := Identity(s.log[id]), Identity(s0.log[id]);
      assert e.channel == e0.channel && e.recipient == e0.recipient && e.timestamp == e0.timestamp;
      assert SameTerms(s0, s, e0.channel);
    }
  }

  lemma KinDequeue(s0: State, s: State, r: Session, i: nat, status: Status)
    requires Kin(s0, s) && i < |QueueOf(s, r)| && QueueOf(s, r)[i] < |s.log|
    ensures Kin(s0, Dequeue(s, r, i, status))
  {
    var t := Dequeue(s, r, i, status);
    forall c
      ensures SameTerms(s0, t, c)
    {
      assert SameTerms(s0, s, c);
    }
  }

  lemma KinHandOver(s0: State, s: State, r: Session, i: nat, now: int)
    requires Kin(s0, s) && i < |QueueOf(s, r)| && QueueOf(s, r)[i] < |s.log|
    requires s.log[QueueOf(s, r)[i]].channel in s.channels
    ensures Kin(s0, HandOver(s, r, i, now))
  {
    var t := HandOver(s, r, i, now);
    forall c
      ensures SameTerms(s0, t, c)
    {
      assert SameTerms(s0, s, c);
    }
  }

  /** What one turn of the loop does to a queued id, in terms of the state the drain began in. */
  lemma TurnOf(s0: State, s: State, r: Session, now: int, gate: Gate, i: nat, first: bool)
    requires QueueInv(s) && Kin(s0, s) && i < |QueueOf(s, r)|
    ensures var id := QueueOf(s, r)[i];
            var verdict := Judge(s, r, now, gate, id, first);
            && id < |s0.log| && Has(s, id) && verdict != Skip
            && (verdict.Drop? <==> Lapses(s0, now, id))
            && (verdict == Keep <==> !Lapses(s0, now, id) && Blocked(s, r, now, gate, s0.log[id].channel, first))
            && (verdict == Take ==> s0.log[id].channel in s.channels)
  {
    DequeueKeeps(s, r, i, Stale);
    KinLapses(s0, s, now, QueueOf(s, r)[i]);
  }

  lemma LastingHead(s0: State, now: int, q: seq<MessageId>, c: ChannelId)
    requires q != []
    ensures OfOne(s0, c, Lasting(s0, now, q))
         == (if !Lapses(s0, now, q[0]) && q[0] < |s0.log| && s0.log[q[0]].channel == c then [q[0]] else [])
            + OfOne(s0, c, Lasting(s0, now, q[1..]))
  {
    var head := if Lapses(s0, now, q[0]) then [] else [q[0]];
    OfOneConcat(s0, c, head, Lasting(s0, now, q[1..]));
    assert OfOne(s0, c, head) == if head != [] && q[0] < |s0.log| && s0.log[q[0]].channel == c then [q[0]] else [];
  }

  /** What the loop does from position `i` on, once something is drained. */
  ghost predicate Flows(s0: State, s: State, r: Session, now: int, gate: Gate, i: nat, ids: seq<MessageId>,
        c: ChannelId, d: Drained, taken: seq<MessageId>, rest: seq<MessageId>)
    requires i <= |QueueOf(s, r)|
  {
    var lasting := Lasting(s0, now, QueueOf(s, r)[i..]);
    && d.ids == ids + taken && QueueOf(d.state, r) == QueueOf(s, r)[..i] + rest
    && KeepsOrderOf(s0, c, taken, rest, lasting)
    && (OfOne(s0, c, taken) != [] <==> !Blocked(s, r, now, gate, c, false) && OfOne(s0, c, lasting) != [])
  }

  lemma OfOneCons(s: State, c: ChannelId, id: MessageId, q: seq<MessageId>)
    ensures OfOne(s, c, [id] + q) == (if id < |s.log| && s.log[id].channel == c then [id] else []) + OfOne(s, c, q)
  {
    assert ([id] + q)[1..] == q;
  }

  lemma FlowsAfterKeep(s0: State, s: State, r: Session, now: int, gate: Gate, i: nat, ids: seq<MessageId>, c: ChannelId,
                       d: Drained, taken: seq<MessageId>, rest: seq<MessageId>)
    requires i < |QueueOf(s, r)| && QueueOf(s, r)[i] < |s0.log|
    requires var id := QueueOf(s, r)[i]; !Lapses(s0, now, id) && Blocked(s, r, now, gate, s0.log[id].channel, false)
    requires Flows(s0, s, r, now, gate, i + 1, ids, c, d, taken, rest)
    ensures Flows(s0, s, r, now, gate, i, ids, c, d, taken, [QueueOf(s, r)[i]] + rest)
  {
    var q := QueueOf(s, r);
    assert q[i..][0] == q[i] && q[i..][1..] == q[i + 1..];
    assert q[..i + 1] + rest == q[..i] + ([q[i]] + rest);
    LastingHead(s0, now, q[i..], c);
    OfOneCons(s0, c, q[i], rest);
    if s0.log[q[i]].channel == c {
      assert OfOne(s0, c, taken) == [];
    }
  }

  lemma FlowsAfterDrop(s0: State, s: State, u: State, r: Session, now: int, gate: Gate, i: nat, ids: seq<MessageId>,
        c: ChannelId, d: Drained, taken: seq<MessageId>, rest: seq<MessageId>)
    requires i < |QueueOf(s, r)| && Lapses(s0, now, QueueOf(s, r)[i])
    requires QueueOf(u, r) == RemoveAt(QueueOf(s, r), i) && u.channels == s.channels
    requires Flows(s0, u, r, now, gate, i, ids, c, d, taken, rest)
    ensures Flows(s0, s, r, now, gate, i, ids, c, d, taken, rest)
  {
    TailAfterRemoval(QueueOf(s, r), i);
    LastingHead(s0, now, QueueOf(s, r)[i..], c);
  }

  lemma FlowsAfterTake(s0: State, s: State, u: State, r: Session, now: int, gate: Gate, i: nat, ids: seq<MessageId>,
        c: ChannelId, d: Drained, taken: seq<MessageId>, rest: seq<MessageId>)
    requires i < |QueueOf(s, r)| && QueueOf(s, r)[i] < |s0.log|
    requires var id := QueueOf(s, r)[i]; !Lapses(s0, now, id) && !Blocked(s, r, now, gate, s0.log[id].channel, false)
    requires QueueOf(u, r) == RemoveAt(QueueOf(s, r), i)
    requires c != s0.log[QueueOf(s, r)[i]].channel ==>
               (Blocked(u, r, now, gate, c, false) <==> Blocked(s, r, now, gate, c, false))
    requires Flows(s0, u, r, now, gate, i, ids + [QueueOf(s, r)[i]], c, d, taken, rest)
    ensures Flows(s0, s, r, now, gate, i, ids, c, d, [QueueOf(s, r)[i]] + taken, rest)
  {
    var q := QueueOf(s, r);
    TailAfterRemoval(q, i);
    AppendAssoc(ids, q[i], taken);
    LastingHead(s0, now, q[i..], c);
    OfOneCons(s0, c, q[i], taken);
    if s0.log[q[i]].channel == c {
      PrependAssoc(q[i], OfOne(s0, c, taken), OfOne(s0, c, rest));
    }
  }

  /** Once something is drained no cooldown holds anything back, so every channel's mail is
      taken in order until its own budget ends. */
  lemma {:induction false} DrainFlows(s0: State, s: State, r: Session, now: int, gate: Gate, i: nat,
        ids: seq<MessageId>, c: ChannelId)
      returns (taken: seq<MessageId>, rest: seq<MessageId>)
    requires QueueInv(s) && Kin(s0, s) && i <= |QueueOf(s, r)| && ids != []
    ensures Flows(s0, s, r, now, gate, i, ids, c, DrainFrom(s, r, now, gate, i, ids), taken, rest)
    decreases |QueueOf(s, r)| - i
  {
    var q := QueueOf(s, r);
    if i == |q| {
      assert q[i..] == [] && q[..i] + [] == q;
      return [], [];
    }
    TurnOf(s0, s, r, now, gate, i, false);
    var verdict := Judge(s, r, now, gate, q[i], false);
    if verdict == Keep {
      taken, rest := DrainFlows(s0, s, r, now, gate, i + 1, ids, c);
      FlowsAfterKeep(s0, s, r, now, gate, i, ids, c, DrainFrom(s, r, now, gate, i, ids), taken, rest);
      rest := [q[i]] + rest;
    } else if verdict.Drop? {
      var u := Dequeue(s, r, i, verdict.status);
      assert QueueInv(u) by { DequeueKeeps(s, r, i, verdict.status); }
      KinDequeue(s0, s, r, i, verdict.status);
      taken, rest := DrainFlows(s0, u, r, now, gate, i, ids, c);
      FlowsAfterDrop(s0, s, u, r, now, gate, i, ids, c, DrainFrom(s, r, now, gate, i, ids), taken, rest);
    } else {
      taken, rest := TakeFlows(s0, s, r, now, gate, i, ids, c);
    }
  }

  lemma {:induction false} TakeFlows(s0: State, s: State, r: Session, now: int, gate: Gate, i: nat,
        ids: seq<MessageId>, c: ChannelId)
      returns (taken: seq<MessageId>, rest: seq<MessageId>)
    requires QueueInv(s) && Kin(s0, s) && i < |QueueOf(s, r)|
    requires Judge(s, r, now, gate, QueueOf(s, r)[i], ids == []) == Take
    ensures Flows(s0, s, r, now, gate, i, ids, c, DrainFrom(s, r, now, gate, i, ids), taken, rest)
    decreases |QueueOf(s, r)| - i, 0
  {
    var q := QueueOf(s, r);
    var id := q[i];
    TurnOf(s0, s, r, now, gate, i, ids == []);
    assert s.log[id].channel == s0.log[id].channel by { KinLapses(s0, s, now, id); }
    var u := HandOver(s, r, i, now);
    assert QueueInv(u) by { HandOverKeeps(s, r, i, now); }
    KinHandOver(s0, s, r, i, now);
    var more;
    more, rest := DrainFlows(s0, u, r, now, gate, i, ids + [id], c);
    FlowsAfterTake(s0, s, u, r, now, gate, i, ids, c, DrainFrom(u, r, now, gate, i, ids + [id]), more, rest);
    taken := [id] + more;
  }

  /** The position of the first id that a drain would hand over, or the end. */
  function FirstTaken(s: State, r: Session, now: int, gate: Gate, q: seq<MessageId>): (j: nat)
    ensures j <= |q|
  {
    if q == [] || Judge(s, r, now, gate, q[0], true) == Take then 0 else 1 + FirstTaken(s, r, now, gate, q[1..])
  }

  /** Channel `c` is held back by its cooldown and by nothing else. */
  predicate Cooling(s: State, r: Session, now: int, gate: Gate, c: ChannelId) {
    c in s.channels && Blocked(s, r, now, gate, c, true) && !Blocked(s, r, now, gate, c, false)
  }

  /** Mail of a cooling channel lies both before and behind the first id handed over. */
  predicate Overtakes(s: State, r: Session, now: int, gate: Gate, c: ChannelId) {
    var q := QueueOf(s, r);
    var j := FirstTaken(s, r, now, gate, q);
    && Cooling(s, r, now, gate, c)
    && OfOne(s, c, Lasting(s, now, q[..j])) != [] && OfOne(s, c, Lasting(s, now, q[j..])) != []
  }

  /** Until something is drained, `s` differs from `s0` only in mail already discarded. */
  ghost predicate Untaken(s0: State, s: State, q: seq<MessageId>) {
    && Kin(s0, s) && s.channels == s0.channels && s.live == s0.live
    && forall i :: 0 <= i < |q| ==> q[i] < |s.log| && s.log[q[i]] == s0.log[q[i]]
  }

  lemma {:induction false} FirstTakenSame(s0: State, s: State, r: Session, now: int, gate: Gate, q: seq<MessageId>)
    requires Untaken(s0, s, q)
    ensures FirstTaken(s, r, now, gate, q) == FirstTaken(s0, r, now, gate, q)
  {
    if q != [] {
      assert Judge(s, r, now, gate, q[0], true) == Judge(s0, r, now, gate, q[0], true);
      FirstTakenSame(s0, s, r, now, gate, q[1..]);
    }
  }

  /** From position `i` with nothing drained: what lasts up to the first id taken is kept, and
      the loop flows from there. */
  ghost predicate Begins(s0: State, s: State, r: Session, now: int, gate: Gate, i: nat, c: ChannelId, d: Drained,
        rest: seq<MessageId>)
    requires i <= |QueueOf(s, r)|
  {
    var tail := QueueOf(s, r)[i..];
    var j := FirstTaken(s, r, now, gate, tail);
    var lasting := Lasting(s0, now, tail[j..]);
    && QueueOf(d.state, r) == QueueOf(s, r)[..i] + Lasting(s0, now, tail[..j]) + rest
    && KeepsOrderOf(s0, c, d.ids, rest, lasting)
    && (OfOne(s0, c, d.ids) != [] <==> !Blocked(s, r, now, gate, c, false) && OfOne(s0, c, lasting) != [])
  }

  lemma TailHead(q: seq<MessageId>, i: nat, j: nat)
    requires i < |q| && j <= |q| - i - 1
    ensures var tail, tail' := q[i..], q[i + 1..];
            && tail[0] == q[i] && tail[1..] == tail' && tail[j + 1..] == tail'[j..]
            && tail[..j + 1][0] == q[i] && tail[..j + 1][1..] == tail'[..j]
  {
  }

  lemma BeginsAfterKeep(s0: State, s: State, r: Session, now: int, gate: Gate, i: nat, c: ChannelId, d: Drained,
        rest: seq<MessageId>)
    requires i < |QueueOf(s, r)| && Judge(s, r, now, gate, QueueOf(s, r)[i], true) != Take
    requires !Lapses(s0, now, QueueOf(s, r)[i]) && Begins(s0, s, r, now, gate, i + 1, c, d, rest)
    ensures Begins(s0, s, r, now, gate, i, c, d, rest)
  {
    var q := QueueOf(s, r);
    var tail, tail' := q[i..], q[i + 1..];
    var j := FirstTaken(s, r, now, gate, tail');
    TailHead(q, i, j);
    var kept := Lasting(s0, now, tail'[..j]);
    assert Lasting(s0, now, tail[..j + 1]) == [q[i]] + kept;
    assert q[..i + 1] + kept + rest == q[..i] + ([q[i]] + kept) + rest;
  }

  /** The same position of `s` and of `u`, which lacks the i-th id, begins the same. */
  lemma BeginsShift(s0: State, s: State, u: State, r: Session, now: int, gate: Gate, i: nat, c: ChannelId,
        d: Drained, rest: seq<MessageId>, j: nat)
    requires i < |QueueOf(s, r)| && i <= |QueueOf(u, r)| && u.channels == s.channels
    requires QueueOf(u, r)[..i] == QueueOf(s, r)[..i]
    requires j == FirstTaken(u, r, now, gate, QueueOf(u, r)[i..])
    requires j + 1 == FirstTaken(s, r, now, gate, QueueOf(s, r)[i..])
    requires QueueOf(s, r)[i..][j + 1..] == QueueOf(u, r)[i..][j..]
    requires Lasting(s0, now, QueueOf(s, r)[i..][..j + 1]) == Lasting(s0, now, QueueOf(u, r)[i..][..j])
    requires Begins(s0, u, r, now, gate, i, c, d, rest)
    ensures Begins(s0, s, r, now, gate, i, c, d, rest)
  {
  }

  lemma BeginsAfterDrop(s0: State, s: State, u: State, r: Session, now: int, gate: Gate, i: nat, c: ChannelId,
        d: Drained, rest: seq<MessageId>)
    requires i < |QueueOf(s, r)| && Judge(s, r, now, gate, QueueOf(s, r)[i], true) != Take
    requires Lapses(s0, now, QueueOf(s, r)[i])
    requires QueueOf(u, r) == RemoveAt(QueueOf(s, r), i) && u.channels == s.channels
    requires Untaken(s, u, QueueOf(s, r)[i + 1..]) && Begins(s0, u, r, now, gate, i, c, d, rest)
    ensures Begins(s0, s, r, now, gate, i, c, d, rest)
  {
    var q := QueueOf(s, r);
    TailAfterRemoval(q, i);
    assert q[i..][1..] == q[i + 1..];
    FirstTakenSame(s, u, r, now, gate, q[i + 1..]);
    var j := FirstTaken(s, r, now, gate, q[i + 1..]);
    TailHead(q, i, j);
    assert FirstTaken(s, r, now, gate, q[i..]) == j + 1;
    BeginsShift(s0, s, u, r, now, gate, i, c, d, rest, j);
  }

  lemma {:induction false} DrainBegins(s0: State, s: State, r: Session, now: int, gate: Gate, i: nat, c: ChannelId)
      returns (rest: seq<MessageId>)
    requires QueueInv(s) && Kin(s0, s) && i <= |QueueOf(s, r)|
    ensures Begins(s0, s, r, now, gate, i, c, DrainFrom(s, r, now, gate, i, []), rest)
    decreases |QueueOf(s, r)| - i
  {
    var q := QueueOf(s, r);
    if i == |q| {
      BeginsAtEnd(s0, s, r, now, gate, c);
      return [];
    }
    TurnOf(s0, s, r, now, gate, i, true);
    var verdict := Judge(s, r, now, gate, q[i], true);
    if verdict == Keep {
      rest := KeepBegins(s0, s, r, now, gate, i, c);
    } else if verdict.Drop? {
      rest := DropBegins(s0, s, r, now, gate, i, c);
    } else {
      rest := TakeBegins(s0, s, r, now, gate, i, c);
    }
  }

  lemma TakeBegins(s0: State, s: State, r: Session, now: int, gate: Gate, i: nat, c: ChannelId)
      returns (rest: seq<MessageId>)
    requires QueueInv(s) && Kin(s0, s) && i < |QueueOf(s, r)|
    requires Judge(s, r, now, gate, QueueOf(s, r)[i], true) == Take
    ensures Begins(s0, s, r, now, gate, i, c, DrainFrom(s, r, now, gate, i, []), rest)
  {
    var taken;
    taken, rest := TakeFlows(s0, s, r, now, gate, i, [], c);
    BeginsWithTake(s0, s, r, now, gate, i, c, DrainFrom(s, r, now, gate, i, []), taken, rest);
  }

  lemma BeginsWithTake(s0: State, s: State, r: Session, now: int, gate: Gate, i: nat, c: ChannelId, d: Drained,
                       taken: seq<MessageId>, rest: seq<MessageId>)
    requires i < |QueueOf(s, r)| && Judge(s, r, now, gate, QueueOf(s, r)[i], true) == Take
    requires Flows(s0, s, r, now, gate, i, [], c, d, taken, rest)
    ensures Begins(s0, s, r, now, gate, i, c, d, rest)
  {
    var tail := QueueOf(s, r)[i..];
    assert [] + taken == taken;
    assert FirstTaken(s, r, now, gate, tail) == 0 && tail[..0] == [] && tail[0..] == tail;
    assert QueueOf(s, r)[..i] + [] + rest == QueueOf(s, r)[..i] + rest;
  }

  lemma BeginsAtEnd(s0: State, s: State, r: Session, now: int, gate: Gate, c: ChannelId)
    ensures Begins(s0, s, r, now, gate, |QueueOf(s, r)|, c, Drained(s, []), [])
  {
    var q := QueueOf(s, r);
    assert q[|q|..] == [] && q[..|q|] + [] + [] == q;
  }

  lemma {:induction false} KeepBegins(s0: State, s: State, r: Session, now: int, gate: Gate, i: nat, c: ChannelId)
      returns (rest: seq<MessageId>)
    requires QueueInv(s) && Kin(s0, s) && i < |QueueOf(s, r)|
    requires Judge(s, r, now, gate, QueueOf(s, r)[i], true) == Keep
    ensures Begins(s0, s, r, now, gate, i, c, DrainFrom(s, r, now, gate, i, []), rest)
    decreases |QueueOf(s, r)| - i, 0
  {
    TurnOf(s0, s, r, now, gate, i, true);
    rest := DrainBegins(s0, s, r, now, gate, i + 1, c);
    BeginsAfterKeep(s0, s, r, now, gate, i, c, DrainFrom(s, r, now, gate, i + 1, []), rest);
  }

  lemma {:induction false} DropBegins(s0: State, s: State, r: Session, now: int, gate: Gate, i: nat, c: ChannelId)
      returns (rest: seq<MessageId>)
    requires QueueInv(s) && Kin(s0, s) && i < |QueueOf(s, r)|
    requires Judge(s, r, now, gate, QueueOf(s, r)[i], true).Drop?
    ensures Begins(s0, s, r, now, gate, i, c, DrainFrom(s, r, now, gate, i, []), rest)
    decreases |QueueOf(s, r)| - i, 0
  {
    TurnOf(s0, s, r, now, gate, i, true);
    var status := Judge(s, r, now, gate, QueueOf(s, r)[i], true).status;
    var u := Dequeue(s, r, i, status);
    assert QueueInv(u) by { DequeueKeeps(s, r, i, status); }
    KinDequeue(s0, s, r, i, status);
    DropUntaken(s, r, i, status);
    rest := DrainBegins(s0, u, r, now, gate, i, c);
    BeginsAfterDrop(s0, s, u, r, now, gate, i, c, DrainFrom(u, r, now, gate, i, []), rest);
  }

  lemma DropUntaken(s: State, r: Session, i: nat, status: Status)
    requires QueueInv(s) && i < |QueueOf(s, r)|
    ensures QueueOf(s, r)[i] < |s.log| && Untaken(s, Dequeue(s, r, i, status), QueueOf(s, r)[i + 1..])
  {
    var q := QueueOf(s, r);
    assert QueueOk(s, r, q) && Waits(s, r, q[i]);
    KinSelf(s);
    KinDequeue(s, s, r, i, status);
    var behind := q[i + 1..];
    forall k | 0 <= k < |behind|
      ensures behind[k] < |s.log| && behind[k] != q[i]
    {
      assert behind[k] == q[i + 1 + k] && Waits(s, r, q[i + 1 + k]);
    }
  }

  lemma KinSelf(s: State)
    ensures Kin(s, s)
  {
  }

  /** Mail of a channel that is open now lies nowhere before the first id taken. */
  lemma {:induction false} OpenMailIsTaken(s: State, r: Session, now: int, gate: Gate, q: seq<MessageId>, c: ChannelId)
    requires QueueInv(s) && (forall i :: 0 <= i < |q| ==> Waits(s, r, q[i]))
    requires OfOne(s, c, Lasting(s, now, q[..FirstTaken(s, r, now, gate, q)])) != []
    ensures Blocked(s, r, now, gate, c, true)
  {
    var j := FirstTaken(s, r, now, gate, q);
    if j > 0 {
      assert q[..j][0] == q[0] && q[..j][1..] == q[1..][..j - 1];
      LastingHead(s, now, q[..j], c);
      assert Waits(s, r, q[0]);
      if OfOne(s, c, Lasting(s, now, q[1..][..j - 1])) != [] {
        OpenMailIsTaken(s, r, now, gate, q[1..], c);
      }
    }
  }

  /** Of one channel: what is kept before the first id taken, what is taken, what is left
      behind it, and what lasts in all. */
  lemma PartsOfDrain(s: State, r: Session, now: int, gate: Gate, c: ChannelId) returns (rest: seq<MessageId>)
    requires QueueInv(s)
    ensures var q := QueueOf(s, r);
            var d := DrainFrom(Touch(s, r), r, now, gate, 0, []);
            var j := FirstTaken(s, r, now, gate, q);
            var kept, behind := OfOne(s, c, Lasting(s, now, q[..j])), OfOne(s, c, Lasting(s, now, q[j..]));
            && OfOne(s, c, QueueOf(d.state, r)) == kept + OfOne(s, c, rest)
            && OfOne(s, c, Lasting(s, now, q)) == kept + behind
            && OfOne(s, c, d.ids) + OfOne(s, c, rest) == behind
            && (OfOne(s, c, d.ids) != [] <==> !Blocked(s, r, now, gate, c, false) && behind != [])
  {
    var q := QueueOf(s, r);
    rest := WholeBegins(s, r, now, gate, c);
    Assemble(s, now, c, q, FirstTaken(s, r, now, gate, q), rest);
  }

  lemma Assemble(s: State, now: int, c: ChannelId, q: seq<MessageId>, j: nat, rest: seq<MessageId>)
    requires j <= |q|
    ensures var kept, behind := Lasting(s, now, q[..j]), Lasting(s, now, q[j..]);
            && OfOne(s, c, kept + rest) == OfOne(s, c, kept) + OfOne(s, c, rest)
            && OfOne(s, c, Lasting(s, now, q)) == OfOne(s, c, kept) + OfOne(s, c, behind)
  {
    var kept, behind := Lasting(s, now, q[..j]), Lasting(s, now, q[j..]);
    assert q[..j] + q[j..] == q;
    LastingConcat(s, now, q[..j], q[j..]);
    OfOneConcat(s, c, kept, rest);
    OfOneConcat(s, c, kept, behind);
  }

  lemma WholeBegins(s: State, r: Session, now: int, gate: Gate, c: ChannelId) returns (rest: seq<MessageId>)
    requires QueueInv(s)
    ensures var q := QueueOf(s, r);
            var d := DrainFrom(Touch(s, r), r, now, gate, 0, []);
            var j := FirstTaken(s, r, now, gate, q);
            var behind := Lasting(s, now, q[j..]);
            && QueueOf(d.state, r) == Lasting(s, now, q[..j]) + rest
            && KeepsOrderOf(s, c, d.ids, rest, behind)
            && (OfOne(s, c, d.ids) != [] <==> !Blocked(s, r, now, gate, c, false) && OfOne(s, c, behind) != [])
  {
    var q := QueueOf(s, r);
    TouchKeeps(s, r);
    TouchUntaken(s, r);
    FirstTakenSame(s, Touch(s, r), r, now, gate, q);
    rest := DrainBegins(s, Touch(s, r), r, now, gate, 0, c);
    BeginsAtFront(s, Touch(s, r), r, now, gate, c, DrainFrom(Touch(s, r), r, now, gate, 0, []), rest);
  }

  lemma BeginsAtFront(s: State, t: State, r: Session, now: int, gate: Gate, c: ChannelId, d: Drained,
        rest: seq<MessageId>)
    requires QueueOf(t, r) == QueueOf(s, r) && t.channels == s.channels
    requires FirstTaken(t, r, now, gate, QueueOf(s, r)) == FirstTaken(s, r, now, gate, QueueOf(s, r))
    requires Begins(s, t, r, now, gate, 0, c, d, rest)
    ensures var q := QueueOf(s, r);
            var j := FirstTaken(s, r, now, gate, q);
            var behind := Lasting(s, now, q[j..]);
            && QueueOf(d.state, r) == Lasting(s, now, q[..j]) + rest
            && KeepsOrderOf(s, c, d.ids, rest, behind)
            && (OfOne(s, c, d.ids) != [] <==> !Blocked(s, r, now, gate, c, false) && OfOne(s, c, behind) != [])
  {
    var q := QueueOf(s, r);
    var kept := Lasting(s, now, q[..FirstTaken(s, r, now, gate, q)]);
    assert q[0..] == q && q[..0] + kept + rest == kept + rest;
  }

  /** A drain hands over a channel's mail in its order and leaves the rest in its order, with
      nothing left behind overtaken, exactly when no cooling channel has mail on both sides
      of the first id handed over. Of any other channel the drain takes a prefix. */
  lemma ChannelOrderKeptIffNotOvertaken(s: State, r: Session, now: int, gate: Gate, c: ChannelId)
    requires QueueInv(s)
    ensures var d := DrainFrom(Touch(s, r), r, now, gate, 0, []);
            KeepsOrderOf(s, c, d.ids, QueueOf(d.state, r), Lasting(s, now, QueueOf(s, r)))
            <==> !Overtakes(s, r, now, gate, c)
  {
    var q := QueueOf(s, r);
    var j := FirstTaken(s, r, now, gate, q);
    var taken := OfOne(s, c, DrainFrom(Touch(s, r), r, now, gate, 0, []).ids);
    var kept := OfOne(s, c, Lasting(s, now, q[..j]));
    var rest := PartsOfDrain(s, r, now, gate, c);
    PartsInOrder(taken, kept, OfOne(s, c, rest));
    if kept != [] {
      assert QueueOk(s, r, q);
      OpenMailIsTaken(s, r, now, gate, q, c);
      if taken != [] {
        PartsDiffer(s, r, now, c, j);
        assert taken[0] == (taken + OfOne(s, c, rest))[0];
      }
    }
  }

  /** Two parts and a third in either order are the same exactly when one part is empty, if
      their first ids differ. */
  lemma PartsInOrder(a: seq<MessageId>, k: seq<MessageId>, rest: seq<MessageId>)
    ensures a == [] || k == [] ==> a + (k + rest) == k + (a + rest)
    ensures a != [] && k != [] && a[0] != k[0] ==> a + (k + rest) != k + (a + rest)
  {
    if a == [] {
      assert a + (k + rest) == k + rest && a + rest == rest;
    } else if k == [] {
      assert k + rest == rest && k + (a + rest) == a + rest;
    } else {
      assert (a + (k + rest))[0] == a[0] && (k + (a + rest))[0] == k[0];
    }
  }

  lemma {:induction false} OfOneMembers(s: State, c: ChannelId, q: seq<MessageId>)
    ensures forall x :: x in OfOne(s, c, q) ==> x in q
  {
    if q != [] {
      OfOneMembers(s, c, q[1..]);
    }
  }

  /** What lasts before and behind a position of a queue has no id in common. */
  lemma PartsDiffer(s: State, r: Session, now: int, c: ChannelId, j: nat)
    requires QueueInv(s) && j <= |QueueOf(s, r)|
    requires OfOne(s, c, Lasting(s, now, QueueOf(s, r)[..j])) != []
    requires OfOne(s, c, Lasting(s, now, QueueOf(s, r)[j..])) != []
    ensures OfOne(s, c, Lasting(s, now, QueueOf(s, r)[..j]))[0] != OfOne(s, c, Lasting(s, now, QueueOf(s, r)[j..]))[0]
  {
    var q := QueueOf(s, r);
    assert QueueOk(s, r, q);
    OfOneMembers(s, c, Lasting(s, now, q[..j]));
    OfOneMembers(s, c, Lasting(s, now, q[j..]));
    var x, y := OfOne(s, c, Lasting(s, now, q[..j]))[0], OfOne(s, c, Lasting(s, now, q[j..]))[0];
    assert x in q[..j] && y in q[j..];
  }

  lemma TouchUntaken(s: State, r: Session)
    requires QueueInv(s)
    ensures Untaken(s, Touch(s, r), QueueOf(s, r))
  {
    KinSelf(s);
    assert QueueOk(s, r, QueueOf(s, r));
    assert forall i :: 0 <= i < |QueueOf(s, r)| ==> Waits(s, r, QueueOf(s, r)[i]);
  }

  lemma {:induction false} LastingConcat(s: State, now: int, p: seq<MessageId>, q: seq<MessageId>)
    ensures Lasting(s, now, p + q) == Lasting(s, now, p) + Lasting(s, now, q)
  {
    if p == [] {
      assert p + q == q;
    } else {
      assert (p + q)[1..] == p[1..] + q;
      LastingConcat(s, now, p[1..], q);
    }
  }
}
