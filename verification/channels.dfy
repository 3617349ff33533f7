/** The chess clock (src/core/engine.ts:195-237, 1650-1761). */
module ChessClock {
  import opened Types

  const STOPPED := Timer(None, None, map[], None, None)

  function Banked(elapsed: map<Session, int>, m: Session): int {
    if m in elapsed then elapsed[m] else 0
  }

  predicate Running(t: Timer) {
    t.active.Some? && t.started.Some?
  }

  /** `foldRunningSegment`: bank the running segment; who is active does not change. */
  function Fold(t: Timer, now: int): Timer {
    if !Running(t) then t
    else
      var m := t.active.value;
      t.(elapsed := t.elapsed[m := Banked(t.elapsed, m) + (now - t.started.value)])
  }

  function Stop(t: Timer, now: int): Timer {
    Fold(t, now).(active := None, started := None)
  }

  function SwitchTo(t: Timer, m: Session, now: int): Timer {
    Fold(t, now).(active := Some(m), started := Some(now))
  }

  /** removeMember and markStale stop the clock when the session holds it. */
  function Leave(t: Timer, m: Session, now: int): Timer {
    if t.active == Some(m) && t.started.Some? then Stop(t, now) else t
  }

  /** `timerElapsedAll`. */
  function ElapsedAll(t: Timer, now: int): map<Session, int> {
    if !Running(t) then t.elapsed
    else t.elapsed[t.active.value := Banked(t.elapsed, t.active.value) + (now - t.started.value)]
  }
}

/** Sending, channel by channel (src/core/engine.ts:268-326, 350-380, 930-1062). */
module Sending {
  import opened Types
  import opened Delivery
  import opened Retention
  import ChessClock

  datatype Target = Direct(key: string) | Everyone | Peer

  datatype Draft = Draft(content: Text, kind: MessageType, target: Target, replyTo: Option<MessageId>)

  datatype Refusal =
    | NoChannel | NotMember | Inactive | ChannelPaused | BudgetSpent | Blank | TooLong | BadType
    | NoRecipient | RateLimited | Duplicate | TooDeep

  /** The sender recorded for trusted local actions. */
  const OPERATOR := "operator"

  function Lower(s: string): string {
    seq(|s|, i requires 0 <= i < |s| => if 'A' <= s[i] <= 'Z' then (s[i] as int + 32) as char else s[i])
  }

  function Others(members: seq<Member>, sender: Session): seq<Member> {
    if members == [] then []
    else (if members[0].session == sender then [] else [members[0]]) + Others(members[1..], sender)
  }

  function Fresh(members: seq<Member>): seq<Member> {
    if members == [] then []
    else (if members[0].stale then [] else [members[0]]) + Fresh(members[1..])
  }

  function BySession(members: seq<Member>, key: string): Option<Member> {
    if members == [] then None
    else if Lower(members[0].session) == Lower(key) then Some(members[0])
    else BySession(members[1..], key)
  }

  function ByRole(members: seq<Member>, key: string): Option<Member> {
    if members == [] then None
    else if Lower(members[0].role) == Lower(key) then Some(members[0])
    else ByRole(members[1..], key)
  }

  /** An explicit target: a session id first, else a role label. */
  function Named(members: seq<Member>, key: string): Option<Member> {
    var bySession := BySession(members, key);
    if bySession.Some? then bySession else ByRole(members, key)
  }

  /** `resolveRecipients`; an empty list stands for every refusal it can give. */
  function Resolve(c: Channel, sender: Session, target: Target): seq<Member> {
    var others := Others(c.members, sender);
    match target
    case Everyone => Fresh(others)
    case Direct(key) =>
      var m := Named(others, key);
      if m.None? || m.value.stale then [] else [m.value]
    case Peer =>
      if |others| != 1 || others[0].stale then [] else [others[0]]
  }

  /** The rate window as the send at `now` finds it, before it is counted. */
  function RateWindow(c: Channel, now: int): (int, nat) {
    if now - c.rateStart > RATE_WINDOW_MS then (now, 0) else (c.rateStart, c.rateCount)
  }

  /** `sweepSeenContent`. */
  function SweepSeen(c: Channel, now: int): map<(Session, Text), int> {
    map key | key in c.seen && now - c.seen[key] < c.staleMs :: c.seen[key]
  }

  predicate Repeats(c: Channel, key: (Session, Text), now: int) {
    var seen := SweepSeen(c, now);
    key in seen && now - seen[key] < c.staleMs
  }

  predicate IsBlank(content: Text) {
    forall i :: 0 <= i < |content| ==> IsSpace(content[i] as int)
  }

  datatype Thread = Thread(correlation: MessageId, hop: nat, root: Option<MessageId>)

  /** Lineage of a send whose first envelope will be `next`: that id names the correlation
      it would mint. A reply to an envelope that is still persisted joins its thread. */
  function ThreadOf(s: State, replyTo: Option<MessageId>, next: MessageId): Thread {
    if replyTo.Some? && Has(s, replyTo.value) then
      var parent := s.log[replyTo.value];
      Thread(parent.correlation, parent.hop + 1, Some(parent.root.GetOr(replyTo.value)))
    else Thread(next, 0, None)
  }

  predicate IsMember(c: Channel, m: Session) {
    FindMember(c.members, m).Some?
  }

  /** The refusals that come once the recipients are known. */
  function LateRefusal(s: State, ch: Channel, draft: Draft, sender: Session, now: int): Option<Refusal> {
    if RateWindow(ch, now).1 + 1 > ch.rateLimit then Some(RateLimited)
    else if Repeats(ch, (sender, draft.content), now) then Some(Duplicate)
    else if ThreadOf(s, draft.replyTo, |s.log|).hop > ch.maxHops then Some(TooDeep)
    else None
  }

  /** The refusals of a channel that does exist, up to the recipients. */
  function EarlyRefusal(ch: Channel, draft: Draft, sender: Session, operator: bool, now: int): Option<Refusal> {
    if !operator && !IsMember(ch, sender) then Some(NotMember)
    else if ch.lifecycle != Active then Some(Inactive)
    else if ch.paused then Some(ChannelPaused)
    else if OverBudget(ch, now) then Some(BudgetSpent)
    else if IsBlank(draft.content) then Some(Blank)
    else if |draft.content| > MAX_CONTENT then Some(TooLong)
    else if draft.kind == System || draft.kind == Unknown then Some(BadType)
    else if Resolve(ch, sender, draft.target) == [] then Some(NoRecipient)
    else None
  }

  /** Why enqueueMessage refuses, in the order it checks; None when it accepts. */
  function SendRefusal(s: State, c: ChannelId, draft: Draft, sender: Session, operator: bool,
        now: int): Option<Refusal> {
    if operator && (!draft.target.Direct? || sender != OPERATOR) then Some(NoRecipient)
    else if c !in s.channels then Some(NoChannel)
    else
      var early := EarlyRefusal(s.channels[c], draft, sender, operator, now);
      if early.Some? then early else LateRefusal(s, s.channels[c], draft, sender, now)
  }

  /** The channel after an accepted send: rate counted, content seen, clock handed over. */
  function AfterSend(ch: Channel, sender: Session, content: Text, to: Session, now: int): Channel {
    var (start, count) := RateWindow(ch, now);
    ch.(rateStart := start,
        rateCount := count + 1,
        seen := SweepSeen(ch, now)[(sender, content) := now],
        timer := ChessClock.SwitchTo(ch.timer, to, now))
  }

  function Addressed(c: ChannelId, draft: Draft, sender: Session, to: Session, thread: Thread, now: int): Envelope {
    Envelope(c, sender, to, now, draft.kind, draft.content, draft.replyTo, thread.root, thread.hop,
             thread.correlation, Pending, None, 0, None)
  }

  /** Mint one envelope: recorded, live, last in its recipient's queue. */
  function Post(s: State, e: Envelope): State {
    var id := |s.log|;
    s.(log := s.log + [e],
       live := s.live + {id},
       queues := s.queues[e.recipient := QueueOf(s, e.recipient) + [id]])
  }

  function PostAll(s: State, es: seq<Envelope>): State
    decreases |es|
  {
    if es == [] then s else PostAll(Post(s, es[0]), es[1..])
  }

  function Letters(c: ChannelId, draft: Draft, sender: Session, to: seq<Member>, thread: Thread,
        now: int): seq<Envelope> {
    seq(|to|, i requires 0 <= i < |to| => Addressed(c, draft, sender, to[i].session, thread, now))
  }

  /** An accepted send before its final prune. */
  function Enqueue(s: State, c: ChannelId, draft: Draft, sender: Session, now: int): State
    requires c in s.channels && Resolve(s.channels[c], sender, draft.target) != []
  {
    var ch := s.channels[c];
    var to := Resolve(ch, sender, draft.target);
    var letters := Letters(c, draft, sender, to, ThreadOf(s, draft.replyTo, |s.log|), now);
    PostAll(s.(channels := s.channels[c := AfterSend(ch, sender, draft.content, to[0].session, now)]), letters)
  }

  /** `sendMessage` and `sendMessageAsOperator`; a refused send is not saved. */
  function Send(s: State, c: ChannelId, draft: Draft, sender: Session, operator: bool, now: int): State {
    if SendRefusal(s, c, draft, sender, operator, now).Some? then s
    else Prune(Enqueue(s, c, draft, sender, now))
  }
}

/** Channels and their members (src/core/engine.ts:387-466, 573-932, 1763-1787). */
module Membership {
  import opened Types
  import opened Seqs
  import opened Delivery
  import opened Retention
  import opened Sending
  import ChessClock

  const DEFAULT_MAX_MEMBERS := 8
  const MAX_MEMBERS_CEILING := 32
  const DEFAULT_MAX_HOPS := 4
  const DEFAULT_RATE_LIMIT := 20

  datatype Config = Config(
    maxMembers: Option<int>,
    rateLimit: Option<int>,
    maxHops: Option<int>,
    maxRuntime: Option<int>,
    maxDelivered: Option<int>)

  function Clamp(v: int, lo: int, hi: int): int
    requires lo <= hi
  {
    if v < lo then lo else if v > hi then hi else v
  }

  function ClampOr(v: Option<int>, lo: nat, hi: nat, fallback: nat): nat
    requires lo <= hi
  {
    if v.None? then fallback else Clamp(v.value, lo, hi)
  }

  function ClampOptional(v: Option<int>, lo: int, hi: int): Option<int>
    requires lo <= hi
  {
    if v.None? then None else Some(Clamp(v.value, lo, hi))
  }

  /** The channel record createSessionAsOperator, createChannel and resumeSession build. */
  function NewChannel(config: Config, members: seq<Member>, now: int): Channel {
    Channel(Active, false, members, ClampOr(config.maxMembers, 2, MAX_MEMBERS_CEILING, DEFAULT_MAX_MEMBERS), now,
            now, 0, ClampOr(config.rateLimit, 1, 1000, DEFAULT_RATE_LIMIT), map[], map[],
            ClampOr(config.maxHops, 1, 50, DEFAULT_MAX_HOPS), DEFAULT_COOLDOWN_MS, DEFAULT_STALE_MS,
            ChessClock.STOPPED,
            ClampOptional(config.maxRuntime, 60_000, 2_592_000_000),
            ClampOptional(config.maxDelivered, 1, 1_000_000), 0)
  }

  function WithChannel(s: State, c: ChannelId, ch: Channel): State {
    s.(channels := s.channels[c := ch])
  }

  function Create(s: State, config: Config, founder: Option<Member>, now: int): State {
    var members := if founder.Some? then [founder.value] else [];
    WithChannel(s, s.nextChannel, NewChannel(config, members, now)).(nextChannel := s.nextChannel + 1)
  }

  predicate MayJoin(ch: Channel, m: Member) {
    && ch.lifecycle == Active
    && !IsMember(ch, m.session)
    && |ch.members| < ch.maxMembers
    && ByRole(ch.members, m.role).None?
  }

  function Join(s: State, c: ChannelId, m: Member): State {
    if c in s.channels && MayJoin(s.channels[c], m) then
      WithChannel(s, c, s.channels[c].(members := s.channels[c].members + [m]))
    else s
  }

  function SetPaused(s: State, c: ChannelId, paused: bool): State {
    if c in s.channels then WithChannel(s, c, s.channels[c].(paused := paused)) else s
  }

  /** Reject the pending envelope at the head of `r`'s queue and take it off. */
  function RejectHead(s: State, r: Session): State
    requires QueueOf(s, r) != []
  {
    var id := QueueOf(s, r)[0];
    if Has(s, id) && s.log[id].status == Pending then Dequeue(s, r, 0, Rejected) else Unqueue(s, r, 0)
  }

  function RejectQueue(s: State, r: Session): State
    decreases |QueueOf(s, r)|
  {
    if QueueOf(s, r) == [] then s.(queues := s.queues - {r}) else RejectQueue(RejectHead(s, r), r)
  }

  /** A task handed to somebody else takes its pending message out of the old queue
      (src/orchestrator/api.ts:1573-1580). */
  function Withdraw(s: State, id: MessageId): State {
    if !Has(s, id) || s.log[id].status != Pending then s
    else
      var e := s.log[id];
      WithEnvelope(WithQueue(s, e.recipient, Without(QueueOf(s, e.recipient), {id})), id, e.(status := Rejected))
  }

  /** The channel once `m` has left: off the roster and off the clock. */
  function Departed(ch: Channel, m: Session, now: int): Channel {
    ch.(members := Others(ch.members, m), timer := ChessClock.Leave(ch.timer, m, now))
  }

  /** `removeMember`: the departing session's whole queue goes, whatever its channels. */
  function Remove(s: State, c: ChannelId, m: Session, now: int): State
    requires c in s.channels
  {
    RejectQueue(WithChannel(s, c, Departed(s.channels[c], m, now)), m)
  }

  function Disconnect(s: State, c: ChannelId, m: Session, now: int): State {
    if c !in s.channels || !IsMember(s.channels[c], m) then s
    else
      var s1 := Remove(s, c, m, now);
      if Others(s.channels[c].members, m) == [] then s1.(channels := s1.channels - {c}) else s1
  }

  /** The wording of a notice is left out. */
  const NOTICE: Text := []

  function Notice(c: ChannelId, caller: Session, to: Session, next: MessageId, now: int): Envelope {
    Envelope(c, caller, to, now, System, NOTICE, None, None, 0, next, Pending, None, 0, None)
  }

  /** `queueRemovalNotices`: one system envelope for every remaining member. */
  function Notices(c: ChannelId, caller: Session, to: seq<Member>, next: MessageId, now: int): seq<Envelope> {
    seq(|to|, i requires 0 <= i < |to| => Notice(c, caller, to[i].session, next + i, now))
  }

  /** Whom a kick removes: None when it is refused. `caller` is None for the operator. */
  function KickTarget(ch: Channel, caller: Option<Session>, targetId: Option<string>,
        targetRole: Option<string>): Option<Session> {
    var byId := if targetId.Some? then BySession(ch.members, targetId.value) else None;
    var target := if byId.Some? then byId
                  else if targetRole.Some? then ByRole(ch.members, targetRole.value) else None;
    if target.None? then None
    else if caller.None? then Some(target.value.session)
    else
      var self := FindMember(ch.members, caller.value);
      if self.None? || ch.members[0].session != caller.value then None
      else if targetId == caller || target.value.session == caller.value then None
      else if targetRole.Some? && Lower(targetRole.value) == Lower(self.value.role) then None
      else Some(target.value.session)
  }

  /** A kick before its final prune. */
  function Expel(s: State, c: ChannelId, caller: Session, target: Session, now: int): State
    requires c in s.channels
  {
    var s1 := Remove(s, c, target, now);
    PostAll(s1, Notices(c, caller, Others(s.channels[c].members, target), |s1.log|, now))
  }

  /** `kickChannel` and `removeMemberAsOperator`. */
  function Kick(s: State, c: ChannelId, caller: Option<Session>, targetId: Option<string>,
        targetRole: Option<string>, now: int): State {
    if c !in s.channels then s
    else
      var target := KickTarget(s.channels[c], caller, targetId, targetRole);
      if target.None? then s else Prune(Expel(s, c, caller.GetOr(OPERATOR), target.value, now))
  }

  function Flag(members: seq<Member>, m: Session, stale: bool): seq<Member> {
    seq(|members|, i requires 0 <= i < |members| =>
      if members[i].session == m then members[i].(stale := stale) else members[i])
  }

  function MarkStale(s: State, m: Session, now: int): State {
    s.(channels := map c | c in s.channels ::
      s.channels[c].(members := Flag(s.channels[c].members, m, true),
                     timer := ChessClock.Leave(s.channels[c].timer, m, now)))
  }

  function ClearStale(s: State, m: Session): State {
    s.(channels := map c | c in s.channels ::
      s.channels[c].(members := Flag(s.channels[c].members, m, false)))
  }

  datatype TimerAction = Start | Halt | Switch(key: Option<string>) | Reset
                       | SetLimit(ms: int, key: Option<string>) | ClearLimit

  /** `resolveSwitchTarget` and the stale check of its caller. */
  function SwitchTarget(ch: Channel, m: Session, key: Option<string>): Option<Member> {
    var others := Others(ch.members, m);
    var target := if key.Some? then Named(others, key.value)
                  else if |others| == 1 then Some(others[0]) else None;
    if target.Some? && target.value.stale then None else target
  }

  /** `timerAction` on one channel, by a member. */
  function Tick(ch: Channel, m: Session, action: TimerAction, now: int): Timer {
    var t := ch.timer;
    match action
    case Start => if t.active.Some? then t else t.(active := Some(m), started := Some(now))
    case Halt => if t.active.None? then t else ChessClock.Stop(t, now)
    case Switch(key) =>
      var target := SwitchTarget(ch, m, key);
      if target.None? then t else ChessClock.SwitchTo(t, target.value.session, now)
    case Reset => t.(active := None, started := None, elapsed := map[])
    case SetLimit(ms, key) =>
      if ms <= 0 then t
      else if key.None? then t.(limit := Some(ms), limitMember := None)
      else
        var target := Named(ch.members, key.value);
        if target.None? then t else t.(limit := Some(ms), limitMember := Some(target.value.session))
    case ClearLimit => t.(limit := None, limitMember := None)
  }

  function TimerOp(s: State, c: ChannelId, m: Session, action: TimerAction, now: int): State {
    if c in s.channels && IsMember(s.channels[c], m) then
      WithChannel(s, c, s.channels[c].(timer := Tick(s.channels[c], m, action, now)))
    else s
  }
}
