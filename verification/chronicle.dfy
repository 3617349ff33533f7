/** What every step does to the channels: only an accepted send moves a channel's rate
    window and content cache, and deliveries touch only its counters. */
module Chronicle {
  import opened Seqs
  import opened Types
  import opened Retention
  import opened Delivery
  import opened Sending
  import opened Membership
  import opened Queues
  import opened Effects
  import opened System
  import opened Safety

  /** A channel less what a handover changes. */
  function Settings(ch: Channel): Channel {
    ch.(deliveredTotal := 0, cooldownUntil := map[])
  }

  ghost predicate SteadyChannels(s: State, t: State) {
    && t.channels.Keys == s.channels.Keys
    && forall c :: c in s.channels ==> Settings(t.channels[c]) == Settings(s.channels[c])
  }

  lemma {:induction false} DrainFromSteady(s: State, r: Session, now: int, gate: Gate, i: nat, ids: seq<MessageId>)
    requires QueueInv(s)
    ensures SteadyChannels(s, DrainFrom(s, r, now, gate, i, ids).state)
    decreases |QueueOf(s, r)| - i
  {
    var q := QueueOf(s, r);
    if i < |q| {
      assert Waits(s, r, q[i]) by { DequeueKeeps(s, r, i, Stale); }
      var verdict := Judge(s, r, now, gate, q[i], ids == []);
      match verdict
      case Keep => DrainFromSteady(s, r, now, gate, i + 1, ids);
      case Skip => assert false;
      case Drop(status) =>
        assert QueueInv(Dequeue(s, r, i, status)) by { DequeueKeeps(s, r, i, status); }
        DrainFromSteady(Dequeue(s, r, i, status), r, now, gate, i, ids);
      case Take =>
        assert QueueInv(HandOver(s, r, i, now)) by { HandOverKeeps(s, r, i, now); }
        DrainFromSteady(HandOver(s, r, i, now), r, now, gate, i, ids + [q[i]]);
    }
  }

  ghost predicate Steady(s: State, t: State) {
    SteadyChannels(s, t) && t.nextChannel == s.nextChannel
  }

  lemma BeginSteady(w: World, r: Session, kind: Kind)
    requires BaseInv(w)
    ensures Steady(w.s, Begin(w, r, kind).s)
  {
    var gate := GateFor(w.s, r, kind);
    var d := DrainFrom(Touch(w.s, r), r, w.now, gate, 0, []);
    assert Drain(w.s, r, w.now, gate) == d && d.state.nextChannel == w.s.nextChannel by {
      DrainPrunesNothing(w.s, r, w.now, gate);
      DrainEffects(w.s, r, w.now, gate);
    }
    assert SteadyChannels(w.s, d.state) by {
      TouchKeeps(w.s, r);
      DrainFromSteady(Touch(w.s, r), r, w.now, gate, 0, []);
    }
    CommitEffects(d.state, r, d.ids, w.now, TransportOf(kind));
  }

  /** No step outside Act changes a channel's settings, or adds a channel. */
  lemma DeliverySteady(w: World, step: Step)
    requires BaseInv(w) && Enabled(w, step) && !step.Act?
    ensures Steady(w.s, Do(w, step).s)
  {
    match step {
      case StartJob(r, kind) => BeginSteady(w, r, kind);
      case Confirm(j) => CommitEffects(w.s, w.jobs[j].session, w.jobs[j].ids, w.now, TransportOf(w.jobs[j].kind));
      case GiveBack(j) => RequeueEffects(w.s, w.jobs[j].session, w.jobs[j].ids);
      case _ =>
    }
  }

  /** What no operation but an accepted send moves, cooldowns not even that. */
  datatype Pulse = Pulse(
    rateStart: int,
    rateCount: nat,
    rateLimit: nat,
    seen: map<(Session, Text), int>,
    staleMs: int,
    maxHops: nat,
    cooldownUntil: map<Session, int>,
    cooldownMs: int)

  function PulseOf(ch: Channel): Pulse {
    Pulse(ch.rateStart, ch.rateCount, ch.rateLimit, ch.seen, ch.staleMs, ch.maxHops, ch.cooldownUntil, ch.cooldownMs)
  }

  lemma SendPulse(s: State, c': ChannelId, draft: Draft, sender: Session, operator: bool, now: int)
    ensures var t := Send(s, c', draft, sender, operator, now);
            if SendRefusal(s, c', draft, sender, operator, now).Some? then t == s
            else
              var to := Resolve(s.channels[c'], sender, draft.target);
              t.channels == s.channels[c' := AfterSend(s.channels[c'], sender, draft.content, to[0].session, now)]
  {
    if SendRefusal(s, c', draft, sender, operator, now).None? {
      EnqueueForm(s, c', draft, sender, now);
    }
  }

  lemma KickPulse(s: State, c': ChannelId, caller: Option<Session>, targetId: Option<string>,
        targetRole: Option<string>, now: int)
    requires QueueInv(s)
    ensures var t := Kick(s, c', caller, targetId, targetRole, now);
            t.channels.Keys == s.channels.Keys
            && forall c :: c in s.channels ==> PulseOf(t.channels[c]) == PulseOf(s.channels[c])
  {
    if c' in s.channels && KickTarget(s.channels[c'], caller, targetId, targetRole).Some? {
      ExpelForm(s, c', caller.GetOr(OPERATOR), KickTarget(s.channels[c'], caller, targetId, targetRole).value, now);
    }
  }

  lemma DisconnectPulse(s: State, c': ChannelId, m: Session, now: int)
    requires QueueInv(s)
    ensures var t := Disconnect(s, c', m, now);
            forall c :: c in t.channels ==> c in s.channels && PulseOf(t.channels[c]) == PulseOf(s.channels[c])
  {
    if c' in s.channels && IsMember(s.channels[c'], m) {
      RemoveForm(s, c', m, now);
    }
  }

  lemma ActPulse(s: State, op: Op, now: int, c: ChannelId)
    requires QueueInv(s) && c in Apply(s, op, now).channels && c in s.channels && c < s.nextChannel
    ensures var t := Apply(s, op, now);
            if SendsTo(s, op, now, c) then
              t.channels[c] == AfterSend(s.channels[c], op.sender, op.draft.content,
                                         Resolve(s.channels[c], op.sender, op.draft.target)[0].session, now)
            else PulseOf(t.channels[c]) == PulseOf(s.channels[c])
  {
    match op {
      case DoSend(c', draft, sender, operator) => SendPulse(s, c', draft, sender, operator, now);
      case DoKick(c', caller, targetId, targetRole) => KickPulse(s, c', caller, targetId, targetRole, now);
      case DoDisconnect(c', m) => DisconnectPulse(s, c', m, now);
      case _ =>
    }
  }

  /** Only a creation adds a channel, and a new channel starts empty. */
  lemma ActCreates(s: State, op: Op, now: int, c: ChannelId)
    requires QueueInv(s) && c in Apply(s, op, now).channels && c !in s.channels
    ensures op.DoCreate? && c == s.nextChannel && Apply(s, op, now).log == s.log
    ensures exists config, members :: Apply(s, op, now).channels[c] == NewChannel(config, members, now)
  {
    match op {
      case DoSend(c', draft, sender, operator) => SendPulse(s, c', draft, sender, operator, now);
      case DoKick(c', caller, targetId, targetRole) => KickPulse(s, c', caller, targetId, targetRole, now);
      case DoDisconnect(c', m) => DisconnectPulse(s, c', m, now);
      case DoCreate(config, founder) =>
        var members := if founder.Some? then [founder.value] else [];
        assert Apply(s, op, now).channels[c] == NewChannel(config, members, now);
      case _ =>
    }
  }

  lemma ChannelCounter(s: State, op: Op, now: int)
    requires QueueInv(s) && forall c :: c in s.channels ==> c < s.nextChannel
    ensures var t := Apply(s, op, now);
            s.nextChannel <= t.nextChannel && forall c :: c in t.channels ==> c < t.nextChannel
  {
    match op {
      case DoSend(c', draft, sender, operator) =>
        if SendRefusal(s, c', draft, sender, operator, now).None? { EnqueueForm(s, c', draft, sender, now); }
      case DoKick(c', caller, targetId, targetRole) =>
        if c' in s.channels && KickTarget(s.channels[c'], caller, targetId, targetRole).Some? {
          ExpelForm(s, c', caller.GetOr(OPERATOR), KickTarget(s.channels[c'], caller, targetId, targetRole).value, now);
        }
      case DoDisconnect(c', m) => if c' in s.channels { RemoveForm(s, c', m, now); }
      case _ =>
    }
  }
}
