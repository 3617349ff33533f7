/** Rosters over whole runs (src/core/engine.ts:387-443, 584-634, 700-717, 1748-1771). */
module Rosters {
  import opened Seqs
  import opened Types
  import opened Retention
  import opened Delivery
  import opened Sending
  import opened Membership
  import opened Queues
  import opened Effects
  import opened System
  import opened Safety
  import opened Chronicle
  import opened Roster
  import opened SendLaw
  import ChessClock

  /** No two members share a session or, letter case aside, a role. */
  ghost predicate AllDifferent(members: seq<Member>) {
    forall i, j :: 0 <= i < j < |members| ==>
      members[i].session != members[j].session && Lower(members[i].role) != Lower(members[j].role)
  }

  ghost predicate RosterSound(ch: Channel) {
    AllDifferent(ch.members) && |ch.members| <= ch.maxMembers && 2 <= ch.maxMembers <= 32
  }

  lemma OthersDiffer(members: seq<Member>, m: Session)
    requires AllDifferent(members)
    ensures AllDifferent(Others(members, m)) && |Others(members, m)| <= |members|
  {
    var idx := OthersInOrder(members, m, false);
    OthersFewer(members, m);
  }

  lemma {:induction false} OthersFewer(members: seq<Member>, m: Session)
    ensures |Others(members, m)| <= |members|
  {
    if members != [] {
      OthersFewer(members[1..], m);
    }
  }

  lemma FlagDiffers(members: seq<Member>, m: Session, stale: bool)
    requires AllDifferent(members)
    ensures AllDifferent(Flag(members, m, stale)) && |Flag(members, m, stale)| == |members|
  {
    forall i | 0 <= i < |members|
      ensures Flag(members, m, stale)[i].session == members[i].session
      ensures Flag(members, m, stale)[i].role == members[i].role
    {
    }
  }

  /** A place is for a newcomer with a free role, while there is room on an active channel. */
  ghost predicate Room(ch: Channel, m: Member) {
    && ch.lifecycle == Active && |ch.members| < ch.maxMembers
    && forall i :: 0 <= i < |ch.members| ==>
         ch.members[i].session != m.session && Lower(ch.members[i].role) != Lower(m.role)
  }

  lemma MayJoinIff(ch: Channel, m: Member)
    ensures MayJoin(ch, m) <==> Room(ch, m)
  {
    MemberOnRoster(ch.members, m.session);
    var i := RoleLookup(ch.members, m.role);
    if ByRole(ch.members, m.role).Some? {
      assert HasRole(ch.members, m.role, i);
    } else {
      forall k | 0 <= k < |ch.members|
        ensures Lower(ch.members[k].role) != Lower(m.role)
      {
        assert !HasRole(ch.members, m.role, k);
      }
    }
  }

  /** What one operation may do to a channel's roster. */
  ghost predicate RosterStep(ch: Channel, ch': Channel) {
    ch'.maxMembers == ch.maxMembers && (SameRoster(ch, ch') || Leaves(ch, ch') || Flagged(ch, ch') || Enters(ch, ch'))
  }

  ghost predicate SameRoster(ch: Channel, ch': Channel) {
    ch'.members == ch.members
  }

  ghost predicate Leaves(ch: Channel, ch': Channel) {
    exists m :: ch'.members == Others(ch.members, m)
  }

  ghost predicate Flagged(ch: Channel, ch': Channel) {
    exists m, stale :: ch'.members == Flag(ch.members, m, stale)
  }

  ghost predicate Enters(ch: Channel, ch': Channel) {
    exists m :: Room(ch, m) && ch'.members == ch.members + [m]
  }

  lemma RosterStepSound(ch: Channel, ch': Channel)
    requires RosterSound(ch) && RosterStep(ch, ch')
    ensures RosterSound(ch')
  {
    if SameRoster(ch, ch') {
    } else if Leaves(ch, ch') {
      var m :| ch'.members == Others(ch.members, m);
      OthersDiffer(ch.members, m);
    } else if Flagged(ch, ch') {
      var m, stale :| ch'.members == Flag(ch.members, m, stale);
      FlagDiffers(ch.members, m, stale);
    }
  }

  lemma StaleStep(ch: Channel, m: Session, stale: bool, timer: Timer)
    ensures RosterStep(ch, ch.(members := Flag(ch.members, m, stale), timer := timer))
  {
  }

  lemma DepartStep(ch: Channel, m: Session, now: int)
    ensures RosterStep(ch, Departed(ch, m, now))
  {
    assert Departed(ch, m, now).members == Others(ch.members, m);
  }

  lemma JoinStep(ch: Channel, m: Member)
    requires MayJoin(ch, m)
    ensures RosterStep(ch, ch.(members := ch.members + [m]))
  {
    MayJoinIff(ch, m);
  }

  lemma KickStep(s: State, c': ChannelId, caller: Option<Session>, targetId: Option<string>,
        targetRole: Option<string>, now: int, c: ChannelId)
    requires QueueInv(s) && c in s.channels
    ensures var t := Kick(s, c', caller, targetId, targetRole, now);
            c in t.channels && RosterStep(s.channels[c], t.channels[c])
  {
    if c' in s.channels && KickTarget(s.channels[c'], caller, targetId, targetRole).Some? {
      var target := KickTarget(s.channels[c'], caller, targetId, targetRole).value;
      ExpelForm(s, c', caller.GetOr(OPERATOR), target, now);
      DepartStep(s.channels[c], target, now);
    }
  }

  lemma DisconnectStep(s: State, c': ChannelId, m: Session, now: int, c: ChannelId)
    requires QueueInv(s) && c in s.channels && c in Disconnect(s, c', m, now).channels
    ensures RosterStep(s.channels[c], Disconnect(s, c', m, now).channels[c])
  {
    if c' in s.channels {
      RemoveForm(s, c', m, now);
      DepartStep(s.channels[c], m, now);
    }
  }

  lemma ActRosters(s: State, op: Op, now: int, c: ChannelId)
    requires QueueInv(s) && c in s.channels && c < s.nextChannel && c in Apply(s, op, now).channels
    ensures RosterStep(s.channels[c], Apply(s, op, now).channels[c])
  {
    var ch := s.channels[c];
    match op {
      case DoSend(c', draft, sender, operator) => SendPulse(s, c', draft, sender, operator, now);
      case DoKick(c', caller, targetId, targetRole) => KickStep(s, c', caller, targetId, targetRole, now, c);
      case DoDisconnect(c', m) => DisconnectStep(s, c', m, now, c);
      case DoMarkStale(m) => StaleStep(ch, m, true, ChessClock.Leave(ch.timer, m, now));
      case DoClearStale(m) => StaleStep(ch, m, false, ch.timer);
      case DoJoin(c', m) =>
        if c' == c && MayJoin(ch, m) {
          JoinStep(ch, m);
        }
      case _ =>
    }
  }

  /** A number within its range stays, one outside comes to the nearer end. */
  ghost predicate Clamped(asked: Option<int>, lo: int, hi: int, got: Option<int>) {
    && (asked.None? <==> got.None?)
    && (asked.Some? ==>
          got.value == if asked.value < lo then lo else if asked.value > hi then hi else asked.value)
  }

  /** A new channel: open, with its founder at most, clamped limits and nothing spent. */
  lemma CreatesExactly(s: State, config: Config, founder: Option<Member>, now: int)
    ensures var t := Create(s, config, founder, now);
            && t == s.(channels := t.channels, nextChannel := s.nextChannel + 1)
            && t.channels == s.channels[s.nextChannel := t.channels[s.nextChannel]]
            && var ch := t.channels[s.nextChannel];
               && ch.lifecycle == Active && !ch.paused && ch.createdAt == now && ch.deliveredTotal == 0
               && ch.members == (if founder.Some? then [founder.value] else [])
               && Clamped(Some(config.maxMembers.GetOr(8)), 2, 32, Some(ch.maxMembers))
               && Clamped(Some(config.rateLimit.GetOr(20)), 1, 1000, Some(ch.rateLimit))
               && Clamped(Some(config.maxHops.GetOr(4)), 1, 50, Some(ch.maxHops))
               && Clamped(config.maxRuntime, 60_000, 30 * 24 * 60 * 60_000, ch.maxRuntime)
               && Clamped(config.maxDelivered, 1, 1_000_000, ch.maxDelivered)
               && ch.rateCount == 0 && ch.rateStart == now && ch.seen == map[] && ch.cooldownUntil == map[]
               && ch.cooldownMs == 1_000 && ch.staleMs == 300_000
               && ch.timer.active.None? && ch.timer.started.None? && ch.timer.elapsed == map[]
               && ch.timer.limit.None? && ch.timer.limitMember.None?
  {
  }

  /** Joining adds exactly the newcomer, last, and only while there is room. */
  lemma JoinsExactly(s: State, c: ChannelId, m: Member)
    ensures var t := Join(s, c, m);
            if c in s.channels && Room(s.channels[c], m)
            then t == s.(channels := s.channels[c := s.channels[c].(members := s.channels[c].members + [m])])
            else t == s
  {
    if c in s.channels {
      MayJoinIff(s.channels[c], m);
    }
  }

  ghost predicate RostersInv(s: State) {
    forall c :: c in s.channels ==> c < s.nextChannel && RosterSound(s.channels[c])
  }

  lemma CreatedSound(s: State, op: Op, now: int, c: ChannelId)
    requires QueueInv(s) && c in Apply(s, op, now).channels && c !in s.channels
    ensures RosterSound(Apply(s, op, now).channels[c])
  {
    ActCreates(s, op, now, c);
  }

  lemma StepKeepsRosters(w: World, step: Step)
    requires BaseInv(w) && RostersInv(w.s) && Enabled(w, step)
    ensures RostersInv(Do(w, step).s)
  {
    var t := Do(w, step).s;
    if step.Act? {
      ChannelCounter(w.s, step.op, w.now);
      forall c | c in t.channels
        ensures RosterSound(t.channels[c])
      {
        if c in w.s.channels {
          ActRosters(w.s, step.op, w.now, c);
          RosterStepSound(w.s.channels[c], t.channels[c]);
        } else {
          CreatedSound(w.s, step.op, w.now, c);
        }
      }
    } else {
      DeliverySteady(w, step);
      SteadyRosters(w.s, t);
    }
  }

  lemma SteadyRosters(s: State, t: State)
    requires RostersInv(s) && Steady(s, t)
    ensures RostersInv(t)
  {
    forall c | c in t.channels
      ensures c < t.nextChannel && RosterSound(t.channels[c])
    {
      assert Settings(t.channels[c]).members == Settings(s.channels[c]).members;
      assert Settings(t.channels[c]).maxMembers == Settings(s.channels[c]).maxMembers;
    }
  }

  lemma {:induction false} RunKeepsRosters(w: World, trace: seq<Event>)
    requires BaseInv(w) && RostersInv(w.s) && Legal(w, trace)
    ensures RostersInv(Run(w, trace).s)
    decreases |trace|
  {
    if trace != [] {
      LaterIsFine(w, trace[0].now);
      StepKeepsRosters(w.(now := trace[0].now), trace[0].step);
      NextKeepsBase(w, trace[0]);
      RunKeepsRosters(Next(w, trace[0]), trace[1..]);
    }
  }

  /** In every run the members of a channel have different sessions and roles, and there are
      at most as many as its limit, which is between 2 and 32. */
  lemma RostersInEveryRun(trace: seq<Event>, c: ChannelId)
    requires Legal(START, trace) && c in Run(START, trace).s.channels
    ensures RosterSound(Run(START, trace).s.channels[c])
  {
    RunKeepsRosters(START, trace);
  }
}
