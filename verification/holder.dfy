/** Who holds a channel's clock, from the events that hand it over (src/core/engine.ts:711-717,
    1040-1046, 1650-1761), and the readings of a stopwatch driven by those events. */
module ClockHolder {
  import opened Types
  import opened Retention
  import opened Delivery
  import opened Sending
  import opened Membership
  import opened Queues
  import opened Effects
  import opened System
  import opened Safety
  import opened Chronicle
  import opened ChessClock
  import opened Roster
  import opened SendLaw
  import opened MemberLaw
  import opened ClockRuns

  /** The primary recipient of a send is its first addressee. */
  ghost predicate Primary(members: seq<Member>, sender: Session, target: Target, i: nat) {
    Addressee(members, sender, target, i) && forall k: nat :: k < i ==> !Addressee(members, sender, target, k)
  }

  /** `m` may switch the clock to the i-th member: the one the key means among the others, or
      the only other one; somebody stale is refused. */
  ghost predicate SwitchesTo(members: seq<Member>, m: Session, key: Option<string>, i: nat) {
    Addressee(members, m, if key.Some? then Direct(key.value) else Peer, i)
  }

  /** Who holds the clock of `c` after `op`, given who holds it before. */
  ghost function NextHolder(s: State, op: Op, now: int, c: ChannelId, holder: Option<Session>): Option<Session>
    requires c in s.channels
  {
    var members := s.channels[c].members;
    match op
    case DoSend(d, draft, sender, operator) =>
      if d == c && Accepts(s, c, draft, sender, operator, now)
         && exists i: nat :: Primary(members, sender, draft.target, i) then
        var i: nat :| Primary(members, sender, draft.target, i);
        Some(members[i].session)
      else holder
    case DoTimer(d, m, action) =>
      if d == c && OnRoster(members, m) then AfterAction(members, m, action, holder) else holder
    case DoDisconnect(d, m) => if d == c && holder == Some(m) then None else holder
    case DoKick(d, caller, id, role) =>
      if d == c && exists i: nat :: Removes(members, caller, id, role, i) && holder == Some(members[i].session)
      then None else holder
    case DoMarkStale(m) => if holder == Some(m) then None else holder
    case _ => holder
  }

  ghost function AfterAction(members: seq<Member>, m: Session, action: TimerAction,
        holder: Option<Session>): Option<Session> {
    match action
    case Start => if holder.None? then Some(m) else holder
    case Halt => None
    case Reset => None
    case Switch(key) =>
      if exists i: nat :: SwitchesTo(members, m, key, i) then
        var i: nat :| SwitchesTo(members, m, key, i);
        Some(members[i].session)
      else holder
    case SetLimit(_, _) => holder
    case ClearLimit => holder
  }

  /** At most one member is the primary recipient, and a switch means at most one. */
  lemma OneOnly(members: seq<Member>, sender: Session, target: Target, i: nat, j: nat)
    requires Addressee(members, sender, target, i) && Addressee(members, sender, target, j)
    ensures !target.Everyone? ==> i == j
    ensures Primary(members, sender, target, i) && Primary(members, sender, target, j) ==> i == j
  {
  }

  /** The first recipient is the primary one. */
  lemma FirstIsPrimary(ch: Channel, sender: Session, target: Target) returns (i: nat)
    requires Resolve(ch, sender, target) != []
    ensures Primary(ch.members, sender, target, i) && Resolve(ch, sender, target)[0] == ch.members[i]
  {
    var idx := ResolveExactly(ch, sender, target);
    i := idx[0];
    assert idx[0] in idx;
    forall k: nat | k < i
      ensures !Addressee(ch.members, sender, target, k)
    {
      assert k !in idx;
    }
  }

  lemma SwitchTargetIff(ch: Channel, m: Session, key: Option<string>)
    ensures SwitchTarget(ch, m, key).None? ==> forall i: nat :: !SwitchesTo(ch.members, m, key, i)
    ensures SwitchTarget(ch, m, key).Some? ==> exists i: nat :: SwitchesTo(ch.members, m, key, i)
    ensures forall i: nat :: SwitchesTo(ch.members, m, key, i) ==> SwitchTarget(ch, m, key) == Some(ch.members[i])
  {
    var target := if key.Some? then Direct(key.value) else Peer;
    var idx := ResolveExactly(ch, m, target);
    if SwitchTarget(ch, m, key).Some? {
      assert idx[0] in idx && SwitchesTo(ch.members, m, key, idx[0]);
    }
    forall i: nat | SwitchesTo(ch.members, m, key, i)
      ensures SwitchTarget(ch, m, key) == Some(ch.members[i])
    {
      assert i in idx;
      assert idx[0] in idx;
      OneOnly(ch.members, m, target, i, idx[0]);
    }
  }

  lemma TickHolder(ch: Channel, m: Session, action: TimerAction, now: int)
    ensures Tick(ch, m, action, now).active == AfterAction(ch.members, m, action, ch.timer.active)
  {
    if action.Switch? {
      SwitchTargetIff(ch, m, action.key);
    }
  }

  lemma SendHolder(s: State, op: Op, now: int, c: ChannelId)
    requires op.DoSend? && c in s.channels
    ensures c in Apply(s, op, now).channels
    ensures Apply(s, op, now).channels[c].timer.active == NextHolder(s, op, now, c, s.channels[c].timer.active)
  {
    SendPulse(s, op.c, op.draft, op.sender, op.operator, now);
    AcceptedIff(s, op.c, op.draft, op.sender, op.operator, now);
    if op.c == c && Accepts(s, c, op.draft, op.sender, op.operator, now) {
      SomeAddressee(s.channels[c], op.sender, op.draft.target);
      var i := FirstIsPrimary(s.channels[c], op.sender, op.draft.target);
      forall j: nat | Primary(s.channels[c].members, op.sender, op.draft.target, j)
        ensures j == i
      {
        OneOnly(s.channels[c].members, op.sender, op.draft.target, i, j);
      }
    }
  }

  lemma KickHolder(s: State, op: Op, now: int, c: ChannelId)
    requires QueueInv(s) && op.DoKick? && c in s.channels && ClockOk(s.channels[c], now)
    ensures c in Apply(s, op, now).channels
    ensures Apply(s, op, now).channels[c].timer.active == NextHolder(s, op, now, c, s.channels[c].timer.active)
  {
    if op.c in s.channels {
      var ch := s.channels[op.c];
      KickTargetIff(ch, op.caller, op.targetId, op.targetRole);
      var target := KickTarget(ch, op.caller, op.targetId, op.targetRole);
      if target.Some? {
        ExpelForm(s, op.c, op.caller.GetOr(OPERATOR), target.value, now);
      }
    }
  }

  lemma DisconnectHolder(s: State, op: Op, now: int, c: ChannelId)
    requires QueueInv(s) && op.DoDisconnect? && c in s.channels && ClockOk(s.channels[c], now)
    requires c in Apply(s, op, now).channels
    ensures Apply(s, op, now).channels[c].timer.active == NextHolder(s, op, now, c, s.channels[c].timer.active)
  {
    if op.c in s.channels {
      MemberOnRoster(s.channels[op.c].members, op.m);
      RemoveForm(s, op.c, op.m, now);
    }
  }

  /** Who holds the clock changes by these events and no others. */
  lemma ActHolder(s: State, op: Op, now: int, c: ChannelId)
    requires QueueInv(s) && c in s.channels && c < s.nextChannel && ClockOk(s.channels[c], now)
    requires c in Apply(s, op, now).channels
    ensures Apply(s, op, now).channels[c].timer.active == NextHolder(s, op, now, c, s.channels[c].timer.active)
  {
    match op {
      case DoSend(_, _, _, _) => SendHolder(s, op, now, c);
      case DoKick(_, _, _, _) => KickHolder(s, op, now, c);
      case DoDisconnect(_, _) => DisconnectHolder(s, op, now, c);
      case DoTimer(d, m, action) =>
        MemberOnRoster(s.channels[c].members, m);
        TickHolder(s.channels[c], m, action, now);
      case _ =>
    }
  }

  /** A member resets the clock of `c`. */
  ghost predicate ResetBy(s: State, op: Op, c: ChannelId) {
    op.DoTimer? && op.c == c && op.action.Reset? && c in s.channels && OnRoster(s.channels[c].members, op.m)
  }

  /** The holder after one event; a channel that is not there has none. */
  ghost function HolderAfter(w: World, e: Event, c: ChannelId, holder: Option<Session>): Option<Session> {
    if e.step.Act? && c in w.s.channels then NextHolder(w.s, e.step.op, e.now, c, holder) else holder
  }

  /** A stopwatch beside a run that looks at the events alone: how long the clock of `c` ran,
      for `who` or for anybody, since its last reset. */
  ghost function EventWatch(w: World, trace: seq<Event>, c: ChannelId, who: Option<Session>,
        holder: Option<Session>, shown: int): int
    requires Legal(w, trace)
    decreases |trace|
  {
    if trace == [] then shown
    else
      var e := trace[0];
      var runs := c in w.s.channels && holder.Some? && (who.None? || holder == who);
      EventWatch(Next(w, e), trace[1..], c, who, HolderAfter(w, e, c, holder),
                 if e.step.Act? && ResetBy(w.s, e.step.op, c) then 0
                 else if runs then shown + (e.now - w.now) else shown)
  }

  /** The holder by the events is the one the channel records. */
  ghost predicate HolderRight(w: World, c: ChannelId, holder: Option<Session>) {
    && (c in w.s.channels ==> w.s.channels[c].timer.active == holder)
    && (c >= w.s.nextChannel ==> holder.None?)
  }

  lemma StepHolder(w: World, e: Event, c: ChannelId, holder: Option<Session>)
    requires BaseInv(w) && ClocksInv(w) && Possible(w, e) && HolderRight(w, c, holder)
    ensures HolderRight(Next(w, e), c, HolderAfter(w, e, c, holder))
  {
    var w1 := w.(now := e.now);
    LaterIsFine(w, e.now);
    LaterKeepsClocks(w, e.now);
    assert w1.s.nextChannel <= Next(w, e).s.nextChannel by { StepKeepsClocks(w1, e.step); }
    if c in Next(w, e).s.channels {
      if !e.step.Act? {
        DeliverySteady(w1, e.step);
        SteadyClock(w.s, Next(w, e).s, c);
      } else if c in w.s.channels {
        ActHolder(w.s, e.step.op, e.now, c);
      } else {
        ActCreates(w.s, e.step.op, e.now, c);
      }
    }
  }

  lemma {:induction false} WatchesAgree(w: World, trace: seq<Event>, c: ChannelId, who: Option<Session>,
        holder: Option<Session>, shown: int)
    requires BaseInv(w) && ClocksInv(w) && Legal(w, trace) && HolderRight(w, c, holder)
    ensures EventWatch(w, trace, c, who, holder, shown) == Stopwatch(w, trace, c, who, shown)
    decreases |trace|
  {
    if trace != [] {
      var e := trace[0];
      StepHolder(w, e, c, holder);
      NextKeepsBase(w, e);
      LaterIsFine(w, e.now);
      LaterKeepsClocks(w, e.now);
      StepKeepsClocks(w.(now := e.now), e.step);
      WatchStep(w, e, c, who, holder);
      var more := if e.step.Act? && ResetBy(w.s, e.step.op, c) then 0
                  else if Ticking(w.s, c, who) then shown + (e.now - w.now) else shown;
      WatchesAgree(Next(w, e), trace[1..], c, who, HolderAfter(w, e, c, holder), more);
    }
  }

  lemma WatchStep(w: World, e: Event, c: ChannelId, who: Option<Session>, holder: Option<Session>)
    requires ClocksInv(w) && HolderRight(w, c, holder)
    ensures Ticking(w.s, c, who) <==> c in w.s.channels && holder.Some? && (who.None? || holder == who)
    ensures e.step.Act? ==> (Resets(w.s, e.step.op, c) <==> ResetBy(w.s, e.step.op, c))
  {
    if c in w.s.channels {
      assert ClockOk(w.s.channels[c], w.now);
      if e.step.Act? && e.step.op.DoTimer? {
        MemberOnRoster(w.s.channels[c].members, e.step.op.m);
      }
    }
  }

  /** In every run, each member's clock shows how long it ran for them by the events: from a
      send to its primary recipient, a start, or a switch to them, until the next hand-over, a
      stop, a reset, their departure, removal or stale mark; and the total how long it ran. */
  lemma ClockFollowsItsEvents(trace: seq<Event>, c: ChannelId, m: Session)
    requires Legal(START, trace) && c in Run(START, trace).s.channels
    ensures var w := Run(START, trace);
            && Elapsed(w.s.channels[c].timer, m, w.now) == EventWatch(START, trace, c, Some(m), None, 0)
            && Total(w.s.channels[c].timer, w.now) == EventWatch(START, trace, c, None, None, 0)
  {
    WatchesAgree(START, trace, c, Some(m), None, 0);
    WatchesAgree(START, trace, c, None, None, 0);
    ClockShowsTheTimeItRan(trace, c, m);
  }

  /** The limit of `c` after `op`: what a member set last, for whom it named, or nothing. */
  ghost predicate LimitAfter(s: State, op: Op, c: ChannelId, t: Timer)
    requires c in s.channels
  {
    var ch := s.channels[c];
    if op.DoTimer? && op.c == c && OnRoster(ch.members, op.m) && op.action.SetLimit? && op.action.ms > 0
       && (op.action.key.None? || exists i: nat :: Names(ch.members, op.action.key.value, i)) then
      && t.limit == Some(op.action.ms)
      && if op.action.key.None? then t.limitMember.None?
         else exists i: nat :: Names(ch.members, op.action.key.value, i) && t.limitMember == Some(ch.members[i].session)
    else if op.DoTimer? && op.c == c && OnRoster(ch.members, op.m) && op.action.ClearLimit? then
      t.limit.None? && t.limitMember.None?
    else t.limit == ch.timer.limit && t.limitMember == ch.timer.limitMember
  }

  lemma TickLimit(s: State, c: ChannelId, m: Session, action: TimerAction, now: int)
    requires c in s.channels && OnRoster(s.channels[c].members, m)
    ensures LimitAfter(s, DoTimer(c, m, action), c, Tick(s.channels[c], m, action, now))
  {
    var ch := s.channels[c];
    if action.SetLimit? && action.key.Some? {
      LookupNames(ch.members, action.key.value);
      if Named(ch.members, action.key.value).Some? {
        SomebodyNamed(ch.members, action.key.value);
      }
    }
  }

  lemma KickKeepsLimit(s: State, op: Op, now: int, c: ChannelId)
    requires QueueInv(s) && op.DoKick? && c in s.channels
    ensures var t := Apply(s, op, now);
            && c in t.channels && t.channels[c].timer.limit == s.channels[c].timer.limit
            && t.channels[c].timer.limitMember == s.channels[c].timer.limitMember
  {
    if op.c in s.channels {
      var target := KickTarget(s.channels[op.c], op.caller, op.targetId, op.targetRole);
      if target.Some? {
        ExpelForm(s, op.c, op.caller.GetOr(OPERATOR), target.value, now);
      }
    }
  }

  /** A limit changes by a member's own action and by nothing else. */
  lemma LimitFollows(s: State, op: Op, now: int, c: ChannelId)
    requires QueueInv(s) && c in s.channels && c < s.nextChannel && c in Apply(s, op, now).channels
    ensures LimitAfter(s, op, c, Apply(s, op, now).channels[c].timer)
  {
    match op {
      case DoSend(d, draft, sender, operator) => SendPulse(s, d, draft, sender, operator, now);
      case DoKick(_, _, _, _) => KickKeepsLimit(s, op, now, c);
      case DoDisconnect(d, m) =>
        if d in s.channels {
          RemoveForm(s, d, m, now);
        }
      case DoTimer(d, m, action) =>
        MemberOnRoster(s.channels[c].members, m);
        if d == c && OnRoster(s.channels[c].members, m) {
          TickLimit(s, c, m, action, now);
        }
      case _ =>
    }
  }
}
