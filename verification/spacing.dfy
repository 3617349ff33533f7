/** Cooldowns over whole runs (src/core/engine.ts:1250-1254, 1270-1275). */
module Spacing {
  import opened Seqs
  import opened Types
  import opened Retention
  import opened Delivery
  import opened Sending
  import opened Membership
  import opened Queues
  import opened Effects
  import opened System
  import opened Safety
  import opened RoundTrip
  import opened Chronicle
  import opened Attempts
  import opened Lossless
  import opened Fifo
  import opened Due

  /** Any two batches for `r` were drained at least the cooldown apart. */
  ghost predicate Spaced(w: World, r: Session) {
    forall j, k :: 0 <= j < k < |w.jobs| && w.jobs[j].session == r && w.jobs[k].session == r ==>
      w.jobs[j].at + DEFAULT_COOLDOWN_MS <= w.jobs[k].at
  }

  /** While channel `c` exists its cooldown for `r` covers every batch so far. */
  ghost predicate Covered(w: World, r: Session, c: ChannelId) {
    c in w.s.channels ==>
      && w.s.channels[c].cooldownMs == DEFAULT_COOLDOWN_MS
      && forall j :: 0 <= j < |w.jobs| && w.jobs[j].session == r ==>
           w.jobs[j].at + DEFAULT_COOLDOWN_MS <= CooldownUntil(w.s.channels[c], r)
  }

  ghost predicate SpacingInv(w: World, r: Session, c: ChannelId) {
    && Spaced(w, r) && Covered(w, r, c)
    && forall j :: 0 <= j < |w.jobs| ==> w.jobs[j].ids != []
  }

  /** The jobs of `u` are those of `w`, further on. */
  ghost predicate SameBatches(w: World, u: World) {
    && |u.jobs| == |w.jobs|
    && forall j :: 0 <= j < |w.jobs| ==>
         u.jobs[j].ids == w.jobs[j].ids && u.jobs[j].session == w.jobs[j].session && u.jobs[j].at == w.jobs[j].at
  }

  lemma SameBatchesSpaced(w: World, u: World, r: Session, c: ChannelId)
    requires SpacingInv(w, r, c) && SameBatches(w, u)
    requires c in u.s.channels ==>
               && c in w.s.channels && u.s.channels[c].cooldownMs == w.s.channels[c].cooldownMs
               && CooldownUntil(u.s.channels[c], r) == CooldownUntil(w.s.channels[c], r)
    ensures SpacingInv(u, r, c)
  {
  }

  lemma ActKeepsSpacing(w: World, op: Op, r: Session, c: ChannelId)
    requires BaseInv(w) && CountInv(w) && SpacingInv(w, r, c) && OneChannel(w.s, r, c)
    ensures SpacingInv(Do(w, Act(op)), r, c)
  {
    var u := Do(w, Act(op));
    if c in u.s.channels {
      if c in w.s.channels {
        ActPulse(w.s, op, w.now, c);
        SameCooldown(w.s.channels[c], u.s.channels[c]);
        SameBatchesSpaced(w, u, r, c);
      } else {
        ActCreates(w.s, op, w.now, c);
        BatchesNeedChannel(w, r, c);
      }
    } else {
      SameBatchesSpaced(w, u, r, c);
    }
  }

  lemma SameCooldown(ch: Channel, ch': Channel)
    requires PulseOf(ch') == PulseOf(ch) || exists m, content, to, now :: ch' == AfterSend(ch, m, content, to, now)
    ensures ch'.cooldownMs == ch.cooldownMs && ch'.cooldownUntil == ch.cooldownUntil
  {
    if PulseOf(ch') == PulseOf(ch) {
      assert PulseOf(ch').cooldownMs == PulseOf(ch).cooldownMs;
      assert PulseOf(ch').cooldownUntil == PulseOf(ch).cooldownUntil;
    }
  }

  /** `r` has batches only once its channel was created. */
  lemma BatchesNeedChannel(w: World, r: Session, c: ChannelId)
    requires BaseInv(w) && CountInv(w) && SpacingInv(w, r, c) && OneChannel(w.s, r, c)
    ensures forall j :: 0 <= j < |w.jobs| && w.jobs[j].session == r ==> c < w.s.nextChannel
  {
    forall j | 0 <= j < |w.jobs| && w.jobs[j].session == r
      ensures c < w.s.nextChannel
    {
      assert BatchOf(w.s, w.jobs[j]);
      assert w.s.log[w.jobs[j].ids[0]].recipient == r;
    }
  }

  lemma BeginChannels(w: World, r: Session, kind: Kind)
    requires QueueInv(w.s) && |LiveIds(w.s)| <= MAX_PERSISTED_MESSAGES
    ensures var d := DrainFrom(Touch(w.s, r), r, w.now, GateFor(w.s, r, kind), 0, []);
            && Begin(w, r, kind).s.channels == d.state.channels
            && d.ids == Drain(w.s, r, w.now, GateFor(w.s, r, kind)).ids
  {
    var d := Drain(w.s, r, w.now, GateFor(w.s, r, kind));
    DrainPrunesNothing(w.s, r, w.now, GateFor(w.s, r, kind));
    CommitEffects(d.state, r, d.ids, w.now, TransportOf(kind));
  }

  lemma OwnStartKeepsSpacing(w: World, r: Session, kind: Kind, c: ChannelId)
    requires BaseInv(w) && SpacingInv(w, r, c) && OneChannel(w.s, r, c)
    ensures SpacingInv(Begin(w, r, kind), r, c)
  {
    var gate := GateFor(w.s, r, kind);
    BeginChannels(w, r, kind);
    QueueFromChannel(w.s, r, c);
    var taken := BeginEffects(w, r, kind);
    if c in w.s.channels {
      DrainsArePaced(w.s, r, w.now, gate, c);
      NextBatchSpaced(w, Begin(w, r, kind), r, c, taken);
    } else {
      TakenHasChannel(w.s, r, w.now, gate, c);
      SteadyDrain(w.s, r, w.now, gate);
      SameBatchesSpaced(w, Begin(w, r, kind), r, c);
    }
  }

  lemma SteadyDrain(s: State, r: Session, now: int, gate: Gate)
    requires QueueInv(s)
    ensures SteadyChannels(s, DrainFrom(Touch(s, r), r, now, gate, 0, []).state)
  {
    TouchKeeps(s, r);
    DrainFromSteady(Touch(s, r), r, now, gate, 0, []);
  }

  lemma NextBatchSpaced(w: World, u: World, r: Session, c: ChannelId, taken: seq<MessageId>)
    requires SpacingInv(w, r, c) && c in w.s.channels && c in u.s.channels
    requires u.s.channels[c].cooldownMs == w.s.channels[c].cooldownMs
    requires if taken == [] then CooldownUntil(u.s.channels[c], r) == CooldownUntil(w.s.channels[c], r)
             else && CooldownUntil(w.s.channels[c], r) <= w.now
                  && CooldownUntil(u.s.channels[c], r) == w.now + w.s.channels[c].cooldownMs
    requires if taken == [] then u.jobs == w.jobs
             else && |u.jobs| == |w.jobs| + 1 && u.jobs[..|w.jobs|] == w.jobs
                  && u.jobs[|w.jobs|].at == w.now && u.jobs[|w.jobs|].ids == taken
    ensures SpacingInv(u, r, c)
  {
    assert forall j :: 0 <= j < |w.jobs| ==> u.jobs[j] == u.jobs[..|w.jobs|][j];
  }

  lemma OtherStartCools(w: World, m: Session, kind: Kind, r: Session, c: ChannelId)
    requires BaseInv(w) && m != r && c in Begin(w, m, kind).s.channels
    ensures var t := Begin(w, m, kind).s;
            && c in w.s.channels && t.channels[c].cooldownMs == w.s.channels[c].cooldownMs
            && CooldownUntil(t.channels[c], r) == CooldownUntil(w.s.channels[c], r)
  {
    var gate := GateFor(w.s, m, kind);
    BeginChannels(w, m, kind);
    SteadyDrain(w.s, m, w.now, gate);
    assert QueueInv(Touch(w.s, m)) by { TouchKeeps(w.s, m); }
    OthersCool(Touch(w.s, m), m, w.now, gate, 0, [], r);
    assert Settings(Begin(w, m, kind).s.channels[c]).cooldownMs == Settings(w.s.channels[c]).cooldownMs;
  }

  lemma OtherStartKeepsSpacing(w: World, m: Session, kind: Kind, r: Session, c: ChannelId)
    requires BaseInv(w) && SpacingInv(w, r, c) && m != r
    ensures SpacingInv(Begin(w, m, kind), r, c)
  {
    var taken := BeginEffects(w, m, kind);
    if c in Begin(w, m, kind).s.channels {
      OtherStartCools(w, m, kind, r, c);
    }
  }

  lemma SettlingKeepsSpacing(w: World, step: Step, r: Session, c: ChannelId)
    requires SpacingInv(w, r, c) && Enabled(w, step) && !step.Act? && !step.StartJob?
    ensures SpacingInv(Do(w, step), r, c)
  {
    var u := Do(w, step);
    assert u.s.channels == w.s.channels by {
      if step.Confirm? {
        var job := w.jobs[step.j];
        CommitEffects(w.s, job.session, job.ids, w.now, TransportOf(job.kind));
      } else if step.GiveBack? {
        RequeueEffects(w.s, w.jobs[step.j].session, w.jobs[step.j].ids);
      }
    }
    SameBatchesSpaced(w, u, r, c);
  }

  lemma StepKeepsSpacing(w: World, step: Step, r: Session, c: ChannelId)
    requires BaseInv(w) && CountInv(w) && SpacingInv(w, r, c) && OneChannel(w.s, r, c) && Enabled(w, step)
    ensures SpacingInv(Do(w, step), r, c)
  {
    match step {
      case Act(op) => ActKeepsSpacing(w, op, r, c);
      case StartJob(m, kind) =>
        if m == r {
          OwnStartKeepsSpacing(w, r, kind, c);
        } else {
          OtherStartKeepsSpacing(w, m, kind, r, c);
        }
      case _ => SettlingKeepsSpacing(w, step, r, c);
    }
  }

  lemma OneChannelEarlier(w: World, trace: seq<Event>, r: Session, c: ChannelId)
    requires BaseInv(w) && Legal(w, trace) && OneChannel(Run(w, trace).s, r, c)
    ensures OneChannel(w.s, r, c)
  {
    var t := Run(w, trace).s;
    RecordIsStable(w, trace);
    forall id | 0 <= id < |w.s.log| && w.s.log[id].recipient == r
      ensures w.s.log[id].channel == c
    {
      assert Identity(t.log[id]).recipient == Identity(w.s.log[id]).recipient;
      assert Identity(t.log[id]).channel == Identity(w.s.log[id]).channel;
    }
  }

  lemma {:induction false} RunKeepsSpacing(w: World, trace: seq<Event>, r: Session, c: ChannelId)
    requires BaseInv(w) && CountInv(w) && SpacingInv(w, r, c)
    requires Legal(w, trace) && OneChannel(Run(w, trace).s, r, c)
    ensures SpacingInv(Run(w, trace), r, c)
    decreases |trace|
  {
    if trace != [] {
      var w1 := w.(now := trace[0].now);
      OneChannelEarlier(w, trace, r, c);
      assert BaseInv(w1) by { LaterIsFine(w, trace[0].now); }
      assert SpacingInv(w1, r, c) by { SameBatchesSpaced(w, w1, r, c); }
      StepKeepsSpacing(w1, trace[0].step, r, c);
      StepKeepsCounts(w1, trace[0].step);
      NextKeepsBase(w, trace[0]);
      RunKeepsSpacing(Next(w, trace[0]), trace[1..], r, c);
    }
  }

  /** Whatever happens in between, two batches for a recipient whose mail is from one channel
      are drained at least the channel's cooldown apart. */
  lemma CooldownSpacesBatches(trace: seq<Event>, r: Session, c: ChannelId, j: nat, k: nat)
    requires Legal(START, trace) && OneChannel(Run(START, trace).s, r, c)
    requires j < k < |Run(START, trace).jobs|
    requires Run(START, trace).jobs[j].session == r && Run(START, trace).jobs[k].session == r
    ensures var w := Run(START, trace);
            w.jobs[k].at - w.jobs[j].at >= DEFAULT_COOLDOWN_MS
  {
    RunKeepsSpacing(START, trace, r, c);
  }
}
