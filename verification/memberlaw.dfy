/** Leaving, removal and their notices, in terms of the roster alone
    (src/core/engine.ts:700-892, 1748-1771). */
module MemberLaw {
  import opened Seqs
  import opened Types
  import opened Retention
  import opened Delivery
  import opened Sending
  import opened Membership
  import opened Queues
  import opened Effects
  import opened System
  import opened Safety
  import opened Roster
  import opened SendLaw
  import opened Rosters

  /** An id and a role given to a removal mean the i-th member: the first with that session,
      or, when there is none, the first with that role. */
  ghost predicate Meant(members: seq<Member>, id: Option<string>, role: Option<string>, i: nat) {
    if id.Some? && exists k: nat :: HasSession(members, id.value, k)
    then HasSession(members, id.value, i) && forall k: nat :: k < i ==> !HasSession(members, id.value, k)
    else role.Some? && HasRole(members, role.value, i) && forall k: nat :: k < i ==> !HasRole(members, role.value, k)
  }

  /** Who may remove the i-th member: the operator, or the first member, whom neither the id
      nor the role may mean. */
  ghost predicate Removes(members: seq<Member>, caller: Option<Session>, id: Option<string>, role: Option<string>,
        i: nat) {
    && Meant(members, id, role, i) && i < |members|
    && (caller.Some? ==>
          && members[0].session == caller.value && members[i].session != caller.value && id != caller
          && (role.Some? ==> Lower(role.value) != Lower(members[0].role)))
  }

  lemma KickTargetIff(ch: Channel, caller: Option<Session>, id: Option<string>, role: Option<string>)
    ensures KickTarget(ch, caller, id, role).None? ==> forall i: nat :: !Removes(ch.members, caller, id, role, i)
    ensures KickTarget(ch, caller, id, role).Some? ==> exists i: nat :: Removes(ch.members, caller, id, role, i)
    ensures forall i: nat :: Removes(ch.members, caller, id, role, i) ==>
              KickTarget(ch, caller, id, role) == Some(ch.members[i].session)
  {
    var s := SessionLookup(ch.members, if id.Some? then id.value else "");
    var r := RoleLookup(ch.members, if role.Some? then role.value else "");
    var i := if id.Some? && BySession(ch.members, id.value).Some? then s else r;
    if caller.Some? {
      MemberOnRoster(ch.members, caller.value);
    }
    if KickTarget(ch, caller, id, role).Some? {
      assert Removes(ch.members, caller, id, role, i);
    }
  }

  /** The notice of a removal that `to` gets. */
  ghost predicate NoticeTo(e: Envelope, c: ChannelId, author: Session, to: Session, now: int) {
    && e.recipient == to && e.kind == System && e.sender == author && e.channel == c && e.timestamp == now
    && e.status == Pending && e.attempts == 0 && e.hop == 0 && e.replyTo.None? && e.root.None?
    && e.deliveredAt.None? && e.transport.None?
  }

  ghost predicate Recipients(es: seq<Envelope>, to: seq<Session>) {
    |es| == |to| && forall k :: 0 <= k < |es| ==> es[k].recipient == to[k]
  }

  /** Of envelopes to different recipients each one's queue gets exactly one. */
  lemma {:induction false} ArrivesOnce(es: seq<Envelope>, n: nat, r: Session)
    requires forall i, j :: 0 <= i < j < |es| ==> es[i].recipient != es[j].recipient
    ensures (forall k :: 0 <= k < |es| ==> es[k].recipient != r) ==> Arrivals(es, n, r) == []
    ensures forall k :: 0 <= k < |es| && es[k].recipient == r ==> Arrivals(es, n, r) == [n + k]
  {
    if es != [] {
      ArrivesOnce(es[1..], n + 1, r);
      assert forall k :: 1 <= k < |es| ==> es[k] == es[1..][k - 1];
    }
  }

  /** Everybody but the i-th member. */
  ghost predicate AllBut(n: nat, i: nat, idx: seq<nat>) {
    Increasing(idx) && Within(idx, n) && forall k: nat :: k < n ==> (k in idx <==> k != i)
  }

  /** `idx` are the positions of those who remain when the i-th member goes. */
  ghost predicate Remain(members: seq<Member>, i: nat, idx: seq<nat>)
    requires i < |members|
  {
    AllBut(|members|, i, idx) && TheseOf(members, idx, Others(members, members[i].session))
  }

  lemma OthersAreAllBut(members: seq<Member>, i: nat) returns (idx: seq<nat>)
    requires AllDifferent(members) && i < |members|
    ensures Remain(members, i, idx)
  {
    idx := OthersInOrder(members, members[i].session, false);
    forall k: nat | k < |members|
      ensures k in idx <==> k != i
    {
      assert k in idx <==> Chosen(members[k], members[i].session, false);
    }
  }

  /** The roster in `ch` is that of `members` without the i-th. */
  ghost predicate RosterWithout(members: seq<Member>, i: nat, idx: seq<nat>, ch: Channel) {
    AllBut(|members|, i, idx) && TheseOf(members, idx, ch.members)
  }

  /** Everybody who remains has one notice, last in the queue. */
  ghost predicate AllTold(s: State, c: ChannelId, members: seq<Member>, author: Session, idx: seq<nat>, now: int,
        v: State) {
    && |v.log| == |s.log| + |idx|
    && forall k :: 0 <= k < |idx| ==>
         && idx[k] < |members| && |s.log| + k in v.live
         && NoticeTo(v.log[|s.log| + k], c, author, members[idx[k]].session, now)
         && QueueOf(v, members[idx[k]].session) == QueueOf(s, members[idx[k]].session) + [|s.log| + k]
  }

  /** The state a removal of the i-th member leaves before its final prune: off the roster, its
      queue gone, one notice, from who removed it, last in the queue of everybody else, and
      nobody else's queue changed. */
  ghost predicate RemovedAndTold(s: State, c: ChannelId, author: Session, i: nat, now: int, v: State, idx: seq<nat>)
    requires c in s.channels && i < |s.channels[c].members|
  {
    var members := s.channels[c].members;
    && c in v.channels && RosterWithout(members, i, idx, v.channels[c])
    && AllTold(s, c, members, author, idx, now, v)
    && QueueOf(v, members[i].session) == []
    && forall r :: !OnRoster(members, r) ==> QueueOf(v, r) == QueueOf(s, r)
  }

  lemma NoticesDiffer(members: seq<Member>, c: ChannelId, author: Session, i: nat, idx: seq<nat>, n: nat, now: int)
    requires AllDifferent(members) && i < |members| && Remain(members, i, idx)
    ensures var notices := Notices(c, author, Others(members, members[i].session), n, now);
            && |notices| == |idx|
            && (forall k :: 0 <= k < |idx| ==> NoticeTo(notices[k], c, author, members[idx[k]].session, now))
            && (forall j, k :: 0 <= j < k < |idx| ==> notices[j].recipient != notices[k].recipient)
            && (forall k :: 0 <= k < |idx| ==> notices[k].recipient != members[i].session)
  {
    var notices := Notices(c, author, Others(members, members[i].session), n, now);
    forall j, k | 0 <= j < k < |idx|
      ensures notices[j].recipient != notices[k].recipient
    {
      assert idx[j] < idx[k];
    }
    forall k | 0 <= k < |idx|
      ensures notices[k].recipient != members[i].session
    {
      assert idx[k] in idx && idx[k] != i;
    }
  }

  lemma NoticeAt(members: seq<Member>, c: ChannelId, author: Session, i: nat, idx: seq<nat>, n: nat, now: int, k: nat)
    requires AllDifferent(members) && i < |members| && Remain(members, i, idx) && k < |idx|
    ensures var notices := Notices(c, author, Others(members, members[i].session), n, now);
            && |notices| == |idx| && NoticeTo(notices[k], c, author, members[idx[k]].session, now)
            && Arrivals(notices, n, members[idx[k]].session) == [n + k]
            && members[idx[k]].session != members[i].session
  {
    NoticesDiffer(members, c, author, i, idx, n, now);
    ArrivesOnce(Notices(c, author, Others(members, members[i].session), n, now), n, members[idx[k]].session);
  }

  lemma NoNoticeFor(members: seq<Member>, c: ChannelId, author: Session, i: nat, idx: seq<nat>, n: nat, now: int,
        r: Session)
    requires AllDifferent(members) && i < |members| && Remain(members, i, idx)
    requires r == members[i].session || !OnRoster(members, r)
    ensures Arrivals(Notices(c, author, Others(members, members[i].session), n, now), n, r) == []
  {
    NoticesDiffer(members, c, author, i, idx, n, now);
    ArrivesOnce(Notices(c, author, Others(members, members[i].session), n, now), n, r);
  }

  lemma RemovedQueues(s: State, c: ChannelId, m: Session, now: int)
    requires QueueInv(s) && c in s.channels
    ensures var t := Remove(s, c, m, now);
            QueueOf(t, m) == [] && forall r :: r != m ==> QueueOf(t, r) == QueueOf(s, r)
  {
    var u := WithChannel(s, c, Departed(s.channels[c], m, now));
    SameMail(s, u);
    RejectQueueForm(u, m);
  }

  /** A removal before its prune, with its notices spelled out. */
  lemma ExpelPosts(s: State, c: ChannelId, author: Session, gone: Session, now: int)
    requires QueueInv(s) && c in s.channels
    ensures var v := Expel(s, c, author, gone, now);
            var notices := Notices(c, author, Others(s.channels[c].members, gone), |s.log|, now);
            && |v.log| == |s.log| + |notices| && v.log[|s.log|..] == notices
            && (forall id :: |s.log| <= id < |v.log| ==> id in v.live)
            && c in v.channels && v.channels[c].members == Others(s.channels[c].members, gone)
            && (forall r :: QueueOf(v, r) == (if r == gone then [] else QueueOf(s, r)) + Arrivals(notices, |s.log|, r))
  {
    ExpelForm(s, c, author, gone, now);
    RemoveForm(s, c, gone, now);
    RemovedQueues(s, c, gone, now);
    PostAllForm(Remove(s, c, gone, now), Notices(c, author, Others(s.channels[c].members, gone), |s.log|, now));
  }

  lemma EverybodyTold(s: State, c: ChannelId, author: Session, i: nat, now: int, idx: seq<nat>, v: State)
    requires c in s.channels && AllDifferent(s.channels[c].members) && i < |s.channels[c].members|
    requires Remain(s.channels[c].members, i, idx)
    requires var gone := s.channels[c].members[i].session;
             var notices := Notices(c, author, Others(s.channels[c].members, gone), |s.log|, now);
             && |v.log| == |s.log| + |notices| && v.log[|s.log|..] == notices
             && (forall id :: |s.log| <= id < |v.log| ==> id in v.live)
             && (forall r :: QueueOf(v, r) == (if r == gone then [] else QueueOf(s, r)) + Arrivals(notices, |s.log|, r))
    ensures AllTold(s, c, s.channels[c].members, author, idx, now, v)
  {
    forall k | 0 <= k < |idx|
      ensures |s.log| + k in v.live
      ensures NoticeTo(v.log[|s.log| + k], c, author, s.channels[c].members[idx[k]].session, now)
      ensures var m := s.channels[c].members[idx[k]].session; QueueOf(v, m) == QueueOf(s, m) + [|s.log| + k]
    {
      NoticeAt(s.channels[c].members, c, author, i, idx, |s.log|, now, k);
      assert v.log[|s.log| + k] == v.log[|s.log|..][k];
    }
  }

  lemma RemovalTells(s: State, c: ChannelId, author: Session, i: nat, now: int) returns (idx: seq<nat>)
    requires QueueInv(s) && c in s.channels && AllDifferent(s.channels[c].members) && i < |s.channels[c].members|
    ensures RemovedAndTold(s, c, author, i, now, Expel(s, c, author, s.channels[c].members[i].session, now), idx)
  {
    var members := s.channels[c].members;
    var gone := members[i].session;
    var v := Expel(s, c, author, gone, now);
    idx := OthersAreAllBut(members, i);
    ExpelPosts(s, c, author, gone, now);
    EverybodyTold(s, c, author, i, now, idx, v);
    forall r | r == gone || !OnRoster(members, r)
      ensures QueueOf(v, r) == if r == gone then [] else QueueOf(s, r)
    {
      NoNoticeFor(members, c, author, i, idx, |s.log|, now, r);
      assert QueueOf(s, r) + [] == QueueOf(s, r);
    }
    assert OnRoster(members, gone) by { assert members[i].session == gone; }
  }

  /** Every new envelope of a removal is the notice for somebody who stays. */
  lemma NoticeAmong(s: State, c: ChannelId, author: Session, i: nat, now: int, id: MessageId) returns (k: nat)
    requires QueueInv(s) && c in s.channels && AllDifferent(s.channels[c].members) && i < |s.channels[c].members|
    requires |s.log| <= id < |Expel(s, c, author, s.channels[c].members[i].session, now).log|
    ensures k < |s.channels[c].members| && k != i
    ensures NoticeTo(Expel(s, c, author, s.channels[c].members[i].session, now).log[id], c, author,
                     s.channels[c].members[k].session, now)
  {
    var idx := RemovalTells(s, c, author, i, now);
    ToldAt(s, c, s.channels[c].members, author, idx, now,
           Expel(s, c, author, s.channels[c].members[i].session, now), id - |s.log|);
    k := idx[id - |s.log|];
    assert k in idx;
  }

  lemma ToldAt(s: State, c: ChannelId, members: seq<Member>, author: Session, idx: seq<nat>, now: int, v: State, k: nat)
    requires AllTold(s, c, members, author, idx, now, v) && k < |v.log| - |s.log|
    ensures k < |idx| && idx[k] < |members|
    ensures NoticeTo(v.log[|s.log| + k], c, author, members[idx[k]].session, now)
  {
  }

  /** A kick or an operator's removal is accepted exactly when somebody is meant whom the caller
      may remove; then that member goes and everybody who stays is told. Otherwise nothing
      happens. */
  lemma KickTellsEverybody(trace: seq<Event>, c: ChannelId, caller: Option<Session>, id: Option<string>,
        role: Option<string>, now: int, i: nat) returns (v: State, idx: seq<nat>)
    requires Legal(START, trace) && c in Run(START, trace).s.channels
    requires Removes(Run(START, trace).s.channels[c].members, caller, id, role, i)
    ensures var s := Run(START, trace).s;
            && Kick(s, c, caller, id, role, now) == Prune(v)
            && RemovedAndTold(s, c, if caller.Some? then caller.value else "operator", i, now, v, idx)
  {
    var s := Run(START, trace).s;
    assert QueueInv(s) by { RunKeepsBase(START, trace); }
    assert AllDifferent(s.channels[c].members) by { RostersInEveryRun(trace, c); }
    KickTargetIff(s.channels[c], caller, id, role);
    var author := if caller.Some? then caller.value else "operator";
    v := Expel(s, c, author, s.channels[c].members[i].session, now);
    idx := RemovalTells(s, c, author, i, now);
  }

  lemma KickRefused(s: State, c: ChannelId, caller: Option<Session>, id: Option<string>, role: Option<string>, now: int)
    requires c in s.channels ==> forall i: nat :: !Removes(s.channels[c].members, caller, id, role, i)
    ensures Kick(s, c, caller, id, role, now) == s
  {
    if c in s.channels {
      KickTargetIff(s.channels[c], caller, id, role);
    }
  }

  ghost predicate TheseOf(members: seq<Member>, idx: seq<nat>, roster: seq<Member>) {
    |roster| == |idx| && forall k :: 0 <= k < |idx| ==> idx[k] < |members| && roster[k] == members[idx[k]]
  }

  /** A departure: who is not a member changes nothing; a member goes, with the queue, and the
      last one takes the channel along. */
  lemma DepartureIsExact(s: State, c: ChannelId, m: Session, now: int) returns (idx: seq<nat>)
    requires QueueInv(s) && c in s.channels
    ensures var t, members := Disconnect(s, c, m, now), s.channels[c].members;
            if !OnRoster(members, m) then t == s
            else
              && Increasing(idx) && Within(idx, |members|)
              && (forall k: nat :: k < |members| ==> (k in idx <==> members[k].session != m))
              && (c in t.channels <==> idx != [])
              && (c in t.channels ==> TheseOf(members, idx, t.channels[c].members))
              && (forall d :: d != c ==> (d in t.channels <==> d in s.channels))
              && (forall d :: d != c && d in s.channels ==> t.channels[d] == s.channels[d])
              && QueueOf(t, m) == [] && forall r :: r != m ==> QueueOf(t, r) == QueueOf(s, r)
  {
    MemberOnRoster(s.channels[c].members, m);
    idx := OthersInOrder(s.channels[c].members, m, false);
    RemoveForm(s, c, m, now);
    RemovedQueues(s, c, m, now);
    forall k: nat | k < |s.channels[c].members|
      ensures k in idx <==> s.channels[c].members[k].session != m
    {
      assert k in idx <==> Chosen(s.channels[c].members[k], m, false);
    }
  }

  /** Stale marks, set or cleared, are exactly the session's own, on every channel. */
  lemma MarksAreExact(s: State, m: Session, now: int, c: ChannelId, i: nat)
    requires c in s.channels && i < |s.channels[c].members|
    ensures MarkStale(s, m, now).channels.Keys == s.channels.Keys == ClearStale(s, m).channels.Keys
    ensures var was := s.channels[c].members[i];
            var marked, cleared := MarkStale(s, m, now).channels[c].members, ClearStale(s, m).channels[c].members;
            && |marked| == |cleared| == |s.channels[c].members|
            && marked[i] == (if was.session == m then was.(stale := true) else was)
            && cleared[i] == (if was.session == m then was.(stale := false) else was)
  {
  }

  /** Pausing and resuming set that one flag. */
  lemma PausesExactly(s: State, c: ChannelId, paused: bool)
    ensures var t := SetPaused(s, c, paused);
            && t == s.(channels := t.channels) && t.channels.Keys == s.channels.Keys
            && (c in s.channels ==>
                  t.channels[c].paused == paused && t.channels[c].(paused := false) == s.channels[c].(paused := false))
            && forall d :: d in s.channels && d != c ==> t.channels[d] == s.channels[d]
  {
  }

  /** Withdrawing rejects a pending message and takes it out of every queue; any other it
      leaves as it is. */
  lemma WithdrawsExactly(s: State, id: MessageId)
    requires QueueInv(s)
    ensures var t := Withdraw(s, id);
            if Has(s, id) && s.log[id].status == Pending then
              && t.log == s.log[id := s.log[id].(status := Rejected)] && t.live == s.live && t.channels == s.channels
              && forall r, x: MessageId :: x in QueueOf(t, r) <==> x in QueueOf(s, r) && x != id
            else t == s
  {
    if Has(s, id) && s.log[id].status == Pending {
      PendingMeansQueuedOnce(s, id);
    }
  }
}
