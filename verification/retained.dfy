/** What pruning keeps and what an archive holds when ids are minted in time order. */
module Retained {
  import opened Seqs
  import opened Types
  import opened Retention

  ghost predicate TimeOrdered(log: seq<Envelope>) {
    forall i, j :: 0 <= i < j < |log| ==> log[i].timestamp <= log[j].timestamp
  }

  lemma InsertLast(log: seq<Envelope>, ids: seq<MessageId>, id: MessageId)
    requires TimeOrdered(log) && Within(ids, |log|) && id < |log|
    requires ids != [] ==> ids[|ids| - 1] < id
    ensures InsertByTime(log, ids, id) == ids + [id]
  {
  }

  lemma {:induction false} SortedAlready(log: seq<Envelope>, ids: seq<MessageId>)
    requires TimeOrdered(log) && Increasing(ids) && Within(ids, |log|)
    ensures SortByTime(log, ids) == ids
  {
    if ids != [] {
      var front, last := ids[..|ids| - 1], ids[|ids| - 1];
      SortedAlready(log, front);
      InsertLast(log, front, last);
      assert ids == front + [last];
    }
  }

  lemma {:induction false} IdsBelowMinus(live: set<MessageId>, dead: set<MessageId>, n: nat)
    ensures IdsBelow(live - dead, n) == Without(IdsBelow(live, n), dead)
  {
    if n > 0 {
      IdsBelowMinus(live, dead, n - 1);
      var ids := IdsBelow(live, n - 1);
      if n - 1 in live {
        WithoutConcat(ids, [n - 1], dead);
        if n - 1 in dead {
          assert Without([n - 1], dead) == [];
        } else {
          WithoutNothing([n - 1], dead);
        }
      }
    }
  }

  lemma {:induction false} WithoutAll(q: seq<MessageId>, dead: set<MessageId>)
    requires forall i :: 0 <= i < |q| ==> q[i] in dead
    ensures Without(q, dead) == []
  {
    if q != [] {
      WithoutAll(q[1..], dead);
    }
  }

  lemma WithoutPrefix(q: seq<MessageId>, k: nat)
    requires NoDup(q) && k <= |q|
    ensures Without(q, Elements(q[..k])) == q[k..]
  {
    var dead := Elements(q[..k]);
    assert q == q[..k] + q[k..];
    WithoutConcat(q[..k], q[k..], dead);
    WithoutAll(q[..k], dead);
    WithoutNothing(q[k..], dead);
  }

  /** How many of the oldest envelopes a prune of `s` deletes. */
  function Excess(s: State): nat {
    if |LiveIds(s)| <= MAX_PERSISTED_MESSAGES then 0 else |LiveIds(s)| - MAX_PERSISTED_MESSAGES
  }

  lemma DoomedAreOldest(s: State)
    requires TimeOrdered(s.log)
    ensures Doomed(s) == Elements(LiveIds(s)[..Excess(s)])
  {
    IdsBelowIncreasing(s.live, |s.log|);
    if Excess(s) > 0 {
      SortedAlready(s.log, LiveIds(s));
    }
  }

  lemma PruneIsForget(s: State, r: Session)
    ensures LiveIds(Prune(s)) == IdsBelow(s.live - Doomed(s), |s.log|)
    ensures QueueOf(Prune(s), r) == Without(QueueOf(s, r), Doomed(s))
  {
    if |LiveIds(s)| <= MAX_PERSISTED_MESSAGES {
      assert s.live - Doomed(s) == s.live;
      IdsBelowMinus(s.live, {}, |s.log|);
      WithoutNothing(QueueOf(s, r), {});
      WithoutNothing(LiveIds(s), {});
    }
  }

  /** Pruning keeps exactly the newest 2000 envelopes, and leaves of every queue the ids
      that survive, in their order. */
  lemma PruneKeepsNewest(s: State)
    requires TimeOrdered(s.log)
    ensures LiveIds(Prune(s)) == LiveIds(s)[Excess(s)..]
    ensures forall r :: QueueOf(Prune(s), r) == Without(QueueOf(s, r), Elements(LiveIds(s)[..Excess(s)]))
  {
    DoomedAreOldest(s);
    PruneIsForget(s, "");
    IdsBelowMinus(s.live, Doomed(s), |s.log|);
    IdsBelowIncreasing(s.live, |s.log|);
    WithoutPrefix(LiveIds(s), Excess(s));
    forall r
      ensures QueueOf(Prune(s), r) == Without(QueueOf(s, r), Elements(LiveIds(s)[..Excess(s)]))
    {
      PruneIsForget(s, r);
    }
  }

  lemma PruneBounds(s: State)
    requires TimeOrdered(s.log)
    ensures |LiveIds(Prune(s))| <= MAX_PERSISTED_MESSAGES
  {
    PruneKeepsNewest(s);
  }

  lemma {:induction false} FewerIds(live: set<MessageId>, more: set<MessageId>, n: nat)
    requires forall id :: id in live && id < n ==> id in more
    ensures |IdsBelow(live, n)| <= |IdsBelow(more, n)|
  {
    if n > 0 {
      FewerIds(live, more, n - 1);
    }
  }

  /** A saved session's archive: sorted by time, and exactly what the purge removes. */
  lemma ArchiveHoldsWhatPurgeRemoves(s: State, c: ChannelId)
    requires TimeOrdered(s.log) && |LiveIds(s)| <= MAX_PERSISTED_MESSAGES
    requires forall id :: id in s.live ==> id < |s.log|
    ensures ByTime(s.log, Archive(s, c)) && Increasing(Archive(s, c))
    ensures forall id: MessageId :: id in Archive(s, c) <==> Has(s, id) && !Has(Purge(s, c), id)
    ensures forall id: MessageId :: id in Archive(s, c) <==> Has(s, id) && s.log[id].channel == c
  {
    IdsBelowIncreasing(OfChannel(s, c), |s.log|);
    SortedAlready(s.log, IdsBelow(OfChannel(s, c), |s.log|));
    FewerIds(OfChannel(s, c), s.live, |s.log|);
  }

  /** The archive is full, and `id` is older than all of it. */
  ghost predicate Outlived(id: MessageId, archive: seq<MessageId>) {
    |archive| == 2_000 && forall k :: 0 <= k < |archive| ==> id < archive[k]
  }

  lemma NewestOf(ids: seq<MessageId>, n: nat, id: MessageId)
    requires Increasing(ids) && n <= |ids| && id in ids && id !in ids[n..]
    ensures forall k :: 0 <= k < |ids[n..]| ==> id < ids[n..][k]
  {
    forall j | n <= j < |ids|
      ensures ids[j] in ids[n..]
    {
      assert ids[n..][j - n] == ids[j];
    }
  }

  lemma ArchiveForm(s: State, c: ChannelId)
    requires TimeOrdered(s.log)
    ensures var ids := IdsBelow(OfChannel(s, c), |s.log|);
            Increasing(ids) && Archive(s, c) == if |ids| <= 2_000 then ids else ids[|ids| - 2_000..]
  {
    IdsBelowIncreasing(OfChannel(s, c), |s.log|);
    SortedAlready(s.log, IdsBelow(OfChannel(s, c), |s.log|));
  }

  /** Whatever there is, an archive holds the channel's newest 2000. */
  lemma ArchiveKeepsNewest(s: State, c: ChannelId, id: MessageId)
    requires TimeOrdered(s.log)
    ensures Increasing(Archive(s, c)) && |Archive(s, c)| <= 2_000
    ensures id in Archive(s, c) ==> Has(s, id) && s.log[id].channel == c
    ensures Has(s, id) && s.log[id].channel == c && id !in Archive(s, c) ==> Outlived(id, Archive(s, c))
  {
    ArchiveForm(s, c);
    var ids := IdsBelow(OfChannel(s, c), |s.log|);
    var n := if |ids| <= 2_000 then 0 else |ids| - 2_000;
    assert ids[0..] == ids;
    SuffixMembers(ids, n, id);
    if id in ids && id !in ids[n..] {
      NewestOf(ids, n, id);
    }
  }

  lemma SuffixMembers(ids: seq<MessageId>, n: nat, id: MessageId)
    requires n <= |ids|
    ensures id in ids[n..] ==> id in ids
    ensures Increasing(ids) ==> Increasing(ids[n..])
  {
  }

  /** Saving one session leaves every other channel's record and envelopes alone, and of
      every queue the other channels' ids in their order. */
  lemma PurgeSparesOthers(s: State, c: ChannelId, r: Session)
    ensures Purge(s, c).log == s.log && Purge(s, c).channels == s.channels - {c}
    ensures forall id: MessageId :: Has(Purge(s, c), id) <==> Has(s, id) && s.log[id].channel != c
    ensures QueueOf(Purge(s, c), r) == Without(QueueOf(s, r), OfChannel(s, c))
    ensures (forall id :: id in QueueOf(s, r) ==> id !in OfChannel(s, c)) ==>
              QueueOf(Purge(s, c), r) == QueueOf(s, r)
  {
    if forall id :: id in QueueOf(s, r) ==> id !in OfChannel(s, c) {
      WithoutNothing(QueueOf(s, r), OfChannel(s, c));
    }
  }
}
