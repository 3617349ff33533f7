/** The chess clock over whole runs (src/core/engine.ts:195-228, 712-716, 1044-1046,
    1650-1761): it loses no time, attributes all of it, and is held only by members. */
module ClockRuns {
  import opened Types
  import opened Retention
  import opened Delivery
  import opened Sending
  import opened Membership
  import opened Queues
  import opened Effects
  import opened System
  import opened Safety
  import opened Chronicle
  import opened ChessClock
  import opened Roster

  /** `timerElapsed`: `m`'s time, with the running segment when `m` holds the clock. */
  function Elapsed(t: Timer, m: Session, now: int): int {
    Banked(t.elapsed, m) + if Running(t) && t.active == Some(m) then now - t.started.value else 0
  }

  ghost function Sum(elapsed: map<Session, int>): int {
    if elapsed == map[] then 0
    else
      var m :| m in elapsed;
      elapsed[m] + Sum(elapsed - {m})
  }

  lemma {:induction false} SumWithout(elapsed: map<Session, int>, m: Session)
    ensures Sum(elapsed) == Banked(elapsed, m) + Sum(elapsed - {m})
    decreases |elapsed|
  {
    if m !in elapsed {
      assert elapsed - {m} == elapsed;
    } else {
      var k :| k in elapsed && Sum(elapsed) == elapsed[k] + Sum(elapsed - {k});
      if k != m {
        SumWithout(elapsed - {k}, m);
        SumWithout(elapsed - {m}, k);
        assert elapsed - {k} - {m} == elapsed - {m} - {k};
      }
    }
  }

  /** The sum depends only on what each member has banked. */
  lemma {:induction false} SumByBanked(a: map<Session, int>, b: map<Session, int>)
    requires forall m :: Banked(a, m) == Banked(b, m)
    ensures Sum(a) == Sum(b)
    decreases |a| + |b|
  {
    if a.Keys + b.Keys != {} {
      var k :| k in a.Keys + b.Keys;
      DropSame(a, b, k);
      SumByBanked(a - {k}, b - {k});
    } else {
      assert a == map[] && b == map[];
    }
  }

  /** What is left without `k` agrees too, is smaller, and decides the sums. */
  lemma DropSame(a: map<Session, int>, b: map<Session, int>, k: Session)
    requires forall m :: Banked(a, m) == Banked(b, m)
    requires k in a.Keys + b.Keys
    ensures forall m :: Banked(a - {k}, m) == Banked(b - {k}, m)
    ensures |a - {k}| + |b - {k}| < |a| + |b|
    ensures Sum(a) - Sum(a - {k}) == Sum(b) - Sum(b - {k})
  {
    assert forall m :: Banked(a - {k}, m) == Banked(b - {k}, m) by {
      BankedWithout(a, k);
      BankedWithout(b, k);
    }
    assert Sum(a) - Sum(a - {k}) == Sum(b) - Sum(b - {k}) by {
      SumWithout(a, k);
      SumWithout(b, k);
    }
    FewerEntries(a, k);
    FewerEntries(b, k);
  }

  lemma BankedWithout(a: map<Session, int>, k: Session)
    ensures forall m :: Banked(a - {k}, m) == if m == k then 0 else Banked(a, m)
  {
  }

  lemma FewerEntries(a: map<Session, int>, k: Session)
    ensures |a - {k}| == |a| - if k in a then 1 else 0
  {
    assert (a - {k}).Keys == a.Keys - {k};
  }

  /** `timerTotal`. */
  ghost function Total(t: Timer, now: int): int {
    Sum(ElapsedAll(t, now))
  }

  /** The snapshot agrees with the per-member reading. */
  lemma SnapshotIsElapsed(t: Timer, m: Session, now: int)
    ensures Banked(ElapsedAll(t, now), m) == Elapsed(t, m, now)
  {
  }

  /** `timerTotal`'s loop over the snapshot. */
  method TimerTotal(t: Timer, now: int) returns (sum: int)
    ensures sum == Total(t, now)
  {
    var elapsed := ElapsedAll(t, now);
    var keys := elapsed.Keys;
    sum := 0;
    assert elapsed - {} == elapsed;
    ghost var done: set<Session> := {};
    while keys != {}
      invariant done + keys == elapsed.Keys && done !! keys
      invariant sum + Sum(elapsed - done) == Sum(elapsed)
      decreases keys
    {
      var m :| m in keys;
      SumWithout(elapsed - done, m);
      assert elapsed - done - {m} == elapsed - (done + {m});
      sum := sum + elapsed[m];
      keys := keys - {m};
      done := done + {m};
    }
    assert elapsed - done == map[];
  }

  /** `timerLimitReached`. */
  ghost predicate LimitReached(t: Timer, now: int) {
    && t.limit.Some? && t.limit.value > 0
    && if t.limitMember.Some? then Elapsed(t, t.limitMember.value, now) >= t.limit.value
       else Total(t, now) >= t.limit.value
  }

  /** Nobody's time changes at `now`. */
  ghost predicate Conserves(t: Timer, t': Timer, now: int) {
    forall m :: Elapsed(t', m, now) == Elapsed(t, m, now)
  }

  lemma ConservedTotal(t: Timer, t': Timer, now: int)
    requires Conserves(t, t', now)
    ensures Total(t', now) == Total(t, now)
  {
    forall m ensures Banked(ElapsedAll(t', now), m) == Banked(ElapsedAll(t, now), m) {
      SnapshotIsElapsed(t, m, now);
      SnapshotIsElapsed(t', m, now);
      assert Elapsed(t', m, now) == Elapsed(t, m, now);
    }
    SumByBanked(ElapsedAll(t', now), ElapsedAll(t, now));
  }

  /** As time passes, the running member's reading grows by it and nobody else's does. */
  lemma TimePasses(t: Timer, before: int, now: int)
    ensures forall m ::
              Elapsed(t, m, now) ==
              Elapsed(t, m, before) + if Running(t) && t.active == Some(m) then now - before else 0
    ensures Total(t, now) == Total(t, before) + if Running(t) then now - before else 0
  {
    if Running(t) {
      var m := t.active.value;
      SumWithout(ElapsedAll(t, before), m);
      SumWithout(ElapsedAll(t, now), m);
      assert ElapsedAll(t, before) - {m} == ElapsedAll(t, now) - {m};
    }
  }

  /** A limit once reached stays reached: as time passes, and through every change of the
      clock that loses nobody's time and keeps the limit. */
  lemma LimitStaysReached(t: Timer, t': Timer, before: int, now: int)
    requires LimitReached(t, before) && before <= now
    requires Conserves(t, t', now) && t'.limit == t.limit && t'.limitMember == t.limitMember
    ensures LimitReached(t', now)
  {
    TimePasses(t, before, now);
    ConservedTotal(t, t', now);
  }

  /** The clock runs for a current member, since no later than now, or not at all; nobody
      has a negative time. */
  ghost predicate ClockOk(ch: Channel, now: int) {
    var t := ch.timer;
    && (t.active.Some? <==> t.started.Some?)
    && (t.active.Some? ==> OnRoster(ch.members, t.active.value) && t.started.value <= now)
    && (forall m :: m in t.elapsed ==> t.elapsed[m] >= 0)
  }

  lemma FoldConserves(t: Timer, now: int)
    requires t.active.Some? <==> t.started.Some?
    ensures Conserves(t, Stop(t, now), now)
    ensures forall m :: Conserves(t, SwitchTo(t, m, now), now) && Conserves(t, Leave(t, m, now), now)
  {
  }

  /** The clock of one channel across one operation: no time lost, and still well held. */
  ghost predicate Carries(ch: Channel, ch': Channel, now: int) {
    Conserves(ch.timer, ch'.timer, now) && ClockOk(ch', now)
  }

  lemma SendCarries(ch: Channel, sender: Session, content: Text, target: Target, now: int)
    requires ClockOk(ch, now) && Resolve(ch, sender, target) != []
    ensures Carries(ch, AfterSend(ch, sender, content, Resolve(ch, sender, target)[0].session, now), now)
  {
    var to := Resolve(ch, sender, target)[0];
    RecipientsAreLiveMembers(ch, sender, target);
    OnRosterIn(ch.members, to);
    FoldConserves(ch.timer, now);
  }

  lemma DepartureCarries(ch: Channel, m: Session, now: int)
    requires ClockOk(ch, now)
    ensures Carries(ch, Departed(ch, m, now), now)
    ensures Departed(ch, m, now).timer.active != Some(m)
  {
    FoldConserves(ch.timer, now);
    var t := ch.timer;
    if t.active.Some? && t.active.value != m {
      var i :| 0 <= i < |ch.members| && ch.members[i].session == t.active.value;
      OthersMembers(ch.members, m);
      OnRosterIn(Others(ch.members, m), ch.members[i]);
    }
  }

  lemma FlagKeepsRoster(members: seq<Member>, m: Session, stale: bool, who: Session)
    requires OnRoster(members, who)
    ensures OnRoster(Flag(members, m, stale), who)
  {
    var i :| 0 <= i < |members| && members[i].session == who;
    assert Flag(members, m, stale)[i].session == who;
  }

  lemma StaleCarries(ch: Channel, m: Session, now: int)
    requires ClockOk(ch, now)
    ensures var ch' := ch.(members := Flag(ch.members, m, true), timer := Leave(ch.timer, m, now));
            Carries(ch, ch', now) && ch'.timer.active != Some(m)
  {
    FoldConserves(ch.timer, now);
    if ch.timer.active.Some? {
      FlagKeepsRoster(ch.members, m, true, ch.timer.active.value);
    }
  }

  lemma SwitchTargetOnRoster(ch: Channel, m: Session, key: Option<string>)
    ensures SwitchTarget(ch, m, key).Some? ==> OnRoster(ch.members, SwitchTarget(ch, m, key).value.session)
  {
    var others, target := Others(ch.members, m), SwitchTarget(ch, m, key);
    OthersMembers(ch.members, m);
    if key.Some? {
      FoundByKey(others, key.value);
    }
    if target.Some? {
      assert target.value in others;
      OnRosterIn(ch.members, target.value);
    }
  }

  lemma TickCarries(ch: Channel, m: Session, action: TimerAction, now: int)
    requires ClockOk(ch, now) && IsMember(ch, m)
    ensures ClockOk(ch.(timer := Tick(ch, m, action, now)), now)
    ensures !action.Reset? ==> Conserves(ch.timer, Tick(ch, m, action, now), now)
  {
    match action {
      case Start => MemberOnRoster(ch.members, m);
      case Halt => FoldConserves(ch.timer, now);
      case Switch(key) =>
        FoldConserves(ch.timer, now);
        SwitchTargetOnRoster(ch, m, key);
      case _ =>
    }
  }

  /** `op` is an accepted reset of channel `c`'s clock. */
  predicate Resets(s: State, op: Op, c: ChannelId) {
    op.DoTimer? && op.c == c && op.action.Reset? && c in s.channels && IsMember(s.channels[c], op.m)
  }

  lemma KickCarries(s: State, c': ChannelId, caller: Option<Session>, targetId: Option<string>,
        targetRole: Option<string>, now: int, c: ChannelId)
    requires QueueInv(s) && c in s.channels && ClockOk(s.channels[c], now)
    ensures var t := Kick(s, c', caller, targetId, targetRole, now);
            c in t.channels && Carries(s.channels[c], t.channels[c], now)
  {
    if c' in s.channels && KickTarget(s.channels[c'], caller, targetId, targetRole).Some? {
      var target := KickTarget(s.channels[c'], caller, targetId, targetRole).value;
      ExpelForm(s, c', caller.GetOr(OPERATOR), target, now);
      DepartureCarries(s.channels[c], target, now);
    }
  }

  lemma DisconnectCarries(s: State, c': ChannelId, m: Session, now: int, c: ChannelId)
    requires QueueInv(s) && c in s.channels && ClockOk(s.channels[c], now)
    requires c in Disconnect(s, c', m, now).channels
    ensures Carries(s.channels[c], Disconnect(s, c', m, now).channels[c], now)
  {
    if c' in s.channels {
      RemoveForm(s, c', m, now);
      DepartureCarries(s.channels[c], m, now);
    }
  }

  lemma JoinCarries(ch: Channel, m: Member, now: int)
    requires ClockOk(ch, now)
    ensures Carries(ch, ch.(members := ch.members + [m]), now)
  {
    if ch.timer.active.Some? {
      var i :| 0 <= i < |ch.members| && ch.members[i].session == ch.timer.active.value;
      assert (ch.members + [m])[i].session == ch.timer.active.value;
    }
  }

  lemma ClearStaleCarries(ch: Channel, m: Session, now: int)
    requires ClockOk(ch, now)
    ensures Carries(ch, ch.(members := Flag(ch.members, m, false)), now)
  {
    if ch.timer.active.Some? {
      FlagKeepsRoster(ch.members, m, false, ch.timer.active.value);
    }
  }

  lemma SendOpCarries(s: State, c': ChannelId, draft: Draft, sender: Session, operator: bool, now: int, c: ChannelId)
    requires c in s.channels && ClockOk(s.channels[c], now)
    ensures var t := Send(s, c', draft, sender, operator, now);
            c in t.channels && Carries(s.channels[c], t.channels[c], now)
  {
    SendPulse(s, c', draft, sender, operator, now);
    if SendRefusal(s, c', draft, sender, operator, now).None? && c' == c {
      SendCarries(s.channels[c], sender, draft.content, draft.target, now);
    }
  }

  lemma TimerOpCarries(s: State, c': ChannelId, m: Session, action: TimerAction, now: int, c: ChannelId)
    requires c in s.channels && ClockOk(s.channels[c], now)
    ensures var ch' := TimerOp(s, c', m, action, now).channels[c];
            && ClockOk(ch', now)
            && if Resets(s, DoTimer(c', m, action), c) then ch'.timer.elapsed == map[] && ch'.timer.active.None?
               else Carries(s.channels[c], ch', now)
  {
    if c' == c && IsMember(s.channels[c], m) {
      TickCarries(s.channels[c], m, action, now);
    }
  }

  lemma RosterOpCarries(s: State, op: Op, now: int, c: ChannelId)
    requires c in s.channels && ClockOk(s.channels[c], now)
    requires op.DoMarkStale? || op.DoClearStale? || op.DoJoin?
    ensures c in Apply(s, op, now).channels && Carries(s.channels[c], Apply(s, op, now).channels[c], now)
  {
    match op {
      case DoMarkStale(m) => StaleCarries(s.channels[c], m, now);
      case DoClearStale(m) => ClearStaleCarries(s.channels[c], m, now);
      case DoJoin(c', member) => JoinCarries(s.channels[c], member, now);
      case _ =>
    }
  }

  /** Every operation except a reset leaves every member's time at that instant alone. */
  lemma ActCarries(s: State, op: Op, now: int, c: ChannelId)
    requires QueueInv(s) && c in s.channels && c < s.nextChannel && ClockOk(s.channels[c], now)
    requires c in Apply(s, op, now).channels
    ensures var ch' := Apply(s, op, now).channels[c];
            ClockOk(ch', now) && if Resets(s, op, c) then ch'.timer.elapsed == map[] && ch'.timer.active.None?
                                 else Carries(s.channels[c], ch', now)
  {
    match op {
      case DoSend(c', draft, sender, operator) => SendOpCarries(s, c', draft, sender, operator, now, c);
      case DoKick(c', caller, targetId, targetRole) => KickCarries(s, c', caller, targetId, targetRole, now, c);
      case DoDisconnect(c', m) => DisconnectCarries(s, c', m, now, c);
      case DoTimer(c', m, action) => TimerOpCarries(s, c', m, action, now, c);
      case DoCreate(_, _) =>
      case DoPause(_, _) =>
      case DoPurge(_) =>
      case DoWithdraw(_) =>
      case _ => RosterOpCarries(s, op, now, c);
    }
  }

  /** The clock of `c` is running, for `who` alone or for anybody. */
  predicate Ticking(s: State, c: ChannelId, who: Option<Session>) {
    c in s.channels && Running(s.channels[c].timer) && (who.None? || s.channels[c].timer.active == who)
  }

  /** A stopwatch beside a run: how long the clock of `c` ran since its last reset. */
  ghost function Stopwatch(w: World, trace: seq<Event>, c: ChannelId, who: Option<Session>, shown: int): int
    requires Legal(w, trace)
    decreases |trace|
  {
    if trace == [] then shown
    else
      var e := trace[0];
      Stopwatch(Next(w, e), trace[1..], c, who,
                if e.step.Act? && Resets(w.s, e.step.op, c) then 0
                else if Ticking(w.s, c, who) then shown + (e.now - w.now) else shown)
  }

  /** What the clock itself shows. */
  ghost function Shown(w: World, c: ChannelId, who: Option<Session>): int
    requires c in w.s.channels
  {
    var t := w.s.channels[c].timer;
    if who.Some? then Elapsed(t, who.value, w.now) else Total(t, w.now)
  }

  ghost predicate ClocksInv(w: World) {
    forall c :: c in w.s.channels ==> c < w.s.nextChannel && ClockOk(w.s.channels[c], w.now)
  }

  /** The clock of `c` agrees with a stopwatch at `shown`; a channel yet to come needs 0. */
  ghost predicate Agrees(w: World, c: ChannelId, who: Option<Session>, shown: int) {
    && (c in w.s.channels ==> Shown(w, c, who) == shown)
    && (c >= w.s.nextChannel ==> shown == 0)
  }

  lemma SteadyClock(s: State, t: State, c: ChannelId)
    requires Steady(s, t) && c in t.channels
    ensures c in s.channels && t.channels[c].timer == s.channels[c].timer
    ensures t.channels[c].members == s.channels[c].members
  {
    assert Settings(t.channels[c]).timer == Settings(s.channels[c]).timer;
    assert Settings(t.channels[c]).members == Settings(s.channels[c]).members;
  }

  lemma StepKeepsClocks(w: World, step: Step)
    requires BaseInv(w) && ClocksInv(w) && Enabled(w, step)
    ensures ClocksInv(Do(w, step)) && w.s.nextChannel <= Do(w, step).s.nextChannel
  {
    var u := Do(w, step);
    if step.Act? {
      ChannelCounter(w.s, step.op, w.now);
      forall c | c in u.s.channels
        ensures ClockOk(u.s.channels[c], u.now)
      {
        if c in w.s.channels {
          ActCarries(w.s, step.op, w.now, c);
        } else {
          ActCreates(w.s, step.op, w.now, c);
        }
      }
    } else {
      DeliverySteady(w, step);
      forall c | c in u.s.channels
        ensures c < u.s.nextChannel && ClockOk(u.s.channels[c], u.now)
      {
        SteadyClock(w.s, u.s, c);
        assert ClockOk(w.s.channels[c], w.now);
      }
    }
  }

  lemma ActAgrees(w: World, op: Op, c: ChannelId, who: Option<Session>, shown: int)
    requires QueueInv(w.s) && ClocksInv(w) && Agrees(w, c, who, shown)
    requires c in w.s.channels && c in Apply(w.s, op, w.now).channels
    ensures Shown(Do(w, Act(op)), c, who) == if Resets(w.s, op, c) then 0 else shown
  {
    ActCarries(w.s, op, w.now, c);
    if !Resets(w.s, op, c) {
      ConservedTotal(w.s.channels[c].timer, Do(w, Act(op)).s.channels[c].timer, w.now);
    }
  }

  lemma StepAgrees(w: World, step: Step, c: ChannelId, who: Option<Session>, shown: int)
    requires BaseInv(w) && ClocksInv(w) && Enabled(w, step) && Agrees(w, c, who, shown)
    ensures Agrees(Do(w, step), c, who, if step.Act? && Resets(w.s, step.op, c) then 0 else shown)
  {
    var u := Do(w, step);
    assert w.s.nextChannel <= u.s.nextChannel by { StepKeepsClocks(w, step); }
    if c in u.s.channels {
      if !step.Act? {
        DeliverySteady(w, step);
        SteadyClock(w.s, u.s, c);
      } else if c in w.s.channels {
        ActAgrees(w, step.op, c, who, shown);
      } else {
        ActCreates(w.s, step.op, w.now, c);
      }
    }
  }

  lemma LaterKeepsClocks(w: World, now: int)
    requires ClocksInv(w) && w.now <= now
    ensures ClocksInv(w.(now := now))
  {
    forall c | c in w.s.channels
      ensures ClockOk(w.s.channels[c], now)
    {
      assert ClockOk(w.s.channels[c], w.now);
    }
  }

  lemma LaterAgrees(w: World, now: int, c: ChannelId, who: Option<Session>, shown: int)
    requires ClocksInv(w) && Agrees(w, c, who, shown)
    ensures Agrees(w.(now := now), c, who, if Ticking(w.s, c, who) then shown + (now - w.now) else shown)
  {
    if c in w.s.channels {
      TimePasses(w.s.channels[c].timer, w.now, now);
    }
  }

  lemma NextAgrees(w: World, e: Event, c: ChannelId, who: Option<Session>, shown: int)
    requires BaseInv(w) && ClocksInv(w) && Possible(w, e) && Agrees(w, c, who, shown)
    ensures ClocksInv(Next(w, e))
    ensures Agrees(Next(w, e), c, who, if e.step.Act? && Resets(w.s, e.step.op, c) then 0
                                       else if Ticking(w.s, c, who) then shown + (e.now - w.now) else shown)
  {
    var w1 := w.(now := e.now);
    LaterIsFine(w, e.now);
    LaterKeepsClocks(w, e.now);
    LaterAgrees(w, e.now, c, who, shown);
    StepKeepsClocks(w1, e.step);
    StepAgrees(w1, e.step, c, who, if Ticking(w.s, c, who) then shown + (e.now - w.now) else shown);
  }

  lemma {:induction false} RunAgrees(w: World, trace: seq<Event>, c: ChannelId, who: Option<Session>, shown: int)
    requires BaseInv(w) && ClocksInv(w) && Legal(w, trace) && Agrees(w, c, who, shown)
    ensures ClocksInv(Run(w, trace)) && Agrees(Run(w, trace), c, who, Stopwatch(w, trace, c, who, shown))
    decreases |trace|
  {
    if trace != [] {
      var e := trace[0];
      NextAgrees(w, e, c, who, shown);
      NextKeepsBase(w, e);
      RunAgrees(Next(w, e), trace[1..], c, who,
                if e.step.Act? && Resets(w.s, e.step.op, c) then 0
                else if Ticking(w.s, c, who) then shown + (e.now - w.now) else shown);
    }
  }

  /** In every run, through sends, kicks, departures, stale marks and switches, each member's
      clock shows exactly how long it ran for them since the last reset, the total exactly
      how long it ran at all, and only a current member holds it. */
  lemma ClockShowsTheTimeItRan(trace: seq<Event>, c: ChannelId, m: Session)
    requires Legal(START, trace) && c in Run(START, trace).s.channels
    ensures var w := Run(START, trace);
            && Elapsed(w.s.channels[c].timer, m, w.now) == Stopwatch(START, trace, c, Some(m), 0)
            && Total(w.s.channels[c].timer, w.now) == Stopwatch(START, trace, c, None, 0)
            && ClockOk(w.s.channels[c], w.now)
  {
    RunAgrees(START, trace, c, Some(m), 0);
    RunAgrees(START, trace, c, None, 0);
  }
}
