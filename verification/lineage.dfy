/** Reply lineage over the history of all envelopes (src/core/engine.ts:433, 977-1024). */
module Lineage {
  import opened Types
  import opened Retention
  import opened Delivery
  import opened Sending
  import opened Membership
  import opened Queues
  import opened Effects
  import opened System
  import opened Safety
  import opened Chronicle

  const MAX_HOPS_CEILING := 50

  /** An envelope starts a thread, or is one hop below an older envelope whose correlation
      and root it carries on. */
  predicate Linked(log: seq<Envelope>, id: MessageId)
    requires id < |log|
  {
    var e := log[id];
    if e.hop == 0 then e.root.None?
    else
      && e.replyTo.Some? && e.replyTo.value < id
      && var p := e.replyTo.value;
         && e.hop == log[p].hop + 1
         && e.correlation == log[p].correlation
         && e.root == Some(log[p].root.GetOr(p))
  }

  ghost predicate AllLinked(log: seq<Envelope>) {
    forall id: MessageId :: id < |log| ==> Linked(log, id)
  }

  /** `id` and its recorded ancestors, nearest first. */
  ghost function Chain(log: seq<Envelope>, id: MessageId): seq<MessageId>
    requires id < |log| && AllLinked(log)
  {
    if log[id].hop == 0 then [id]
    else
      assert Linked(log, id);
      [id] + Chain(log, log[id].replyTo.value)
  }

  /** A chain has exactly hop + 1 envelopes, each replying to the next, older one, all of one
      correlation, and ends at the root every one of them names. */
  ghost predicate Threaded(log: seq<Envelope>, id: MessageId, chain: seq<MessageId>)
    requires id < |log|
  {
    && |chain| == log[id].hop + 1 && chain[0] == id
    && (forall i :: 0 <= i < |chain| ==>
          && chain[i] < |log| && log[chain[i]].correlation == log[id].correlation
          && log[chain[i]].hop == log[id].hop - i)
    && (forall i, j :: 0 <= i && j == i + 1 && j < |chain| ==>
          chain[j] < chain[i] < |log| && log[chain[i]].replyTo == Some(chain[j]))
    && (forall i :: 0 <= i < |chain| - 1 ==> chain[i] < |log| && log[chain[i]].root == Some(chain[|chain| - 1]))
  }

  lemma {:induction false} ChainsEndAtTheirRoot(log: seq<Envelope>, id: MessageId)
    requires id < |log| && AllLinked(log)
    ensures Threaded(log, id, Chain(log, id))
    decreases id
  {
    assert Linked(log, id);
    if log[id].hop > 0 {
      var p := log[id].replyTo.value;
      ChainsEndAtTheirRoot(log, p);
      var up, chain := Chain(log, p), Chain(log, id);
      assert chain == [id] + up;
      forall i | 0 <= i < |chain|
        ensures chain[i] < |log| && log[chain[i]].correlation == log[id].correlation
        ensures log[chain[i]].hop == log[id].hop - i
        ensures i < |chain| - 1 ==> log[chain[i]].root == Some(chain[|chain| - 1])
      {
        if i > 0 {
          assert chain[i] == up[i - 1];
        }
        assert chain[|chain| - 1] == up[|up| - 1];
        assert log[p].hop == 0 ==> Linked(log, p) && up == [p];
      }
      forall i, j | 0 <= i && j == i + 1 && j < |chain|
        ensures chain[j] < chain[i] < |log| && log[chain[i]].replyTo == Some(chain[j])
      {
        if i > 0 {
          assert chain[i] == up[i - 1] && chain[j] == up[j - 1];
        }
      }
    }
  }

  /** Every envelope is linked and within its channel's hop limit, which is at most 50. */
  ghost predicate LineageInv(s: State) {
    && AllLinked(s.log)
    && (forall c :: c in s.channels ==> c < s.nextChannel && s.channels[c].maxHops <= MAX_HOPS_CEILING)
    && (forall id :: 0 <= id < |s.log| ==> s.log[id].channel < s.nextChannel && s.log[id].hop <= MAX_HOPS_CEILING)
    && (forall id :: 0 <= id < |s.log| && s.log[id].channel in s.channels ==>
          s.log[id].hop <= s.channels[s.log[id].channel].maxHops)
  }

  /** A fresh envelope is linked and obeys the limits. */
  ghost predicate BornLinked(s: State, t: State, id: MessageId)
    requires id < |t.log|
  {
    && Linked(t.log, id)
    && t.log[id].hop <= MAX_HOPS_CEILING
    && t.log[id].channel in s.channels
    && t.log[id].hop <= s.channels[t.log[id].channel].maxHops
  }

  /** Hop limits are fixed for life, and only fresh channels appear. */
  ghost predicate LimitsKept(s: State, t: State) {
    && s.nextChannel <= t.nextChannel
    && (forall c :: c in t.channels ==>
          && c < t.nextChannel
          && (c in s.channels ==> t.channels[c].maxHops == s.channels[c].maxHops)
          && (c !in s.channels ==> c >= s.nextChannel && t.channels[c].maxHops <= MAX_HOPS_CEILING))
  }

  lemma LinkedFollows(s: State, t: State, id: MessageId)
    requires Follows(s, t) && id < |s.log| && Linked(s.log, id)
    ensures Linked(t.log, id)
  {
    var e, e' := Identity(s.log[id]), Identity(t.log[id]);
    assert e'.hop == e.hop && e'.replyTo == e.replyTo && e'.root == e.root && e'.correlation == e.correlation;
    if e.hop > 0 {
      var p, p' := Identity(s.log[e.replyTo.value]), Identity(t.log[e.replyTo.value]);
      assert p'.hop == p.hop && p'.root == p.root && p'.correlation == p.correlation;
    }
  }

  lemma KeptWhenBornLinked(s: State, t: State)
    requires LineageInv(s) && Follows(s, t) && LimitsKept(s, t)
    requires forall id :: |s.log| <= id < |t.log| ==> BornLinked(s, t, id)
    ensures LineageInv(t)
  {
    forall id: MessageId | id < |t.log|
      ensures Linked(t.log, id)
      ensures t.log[id].channel < t.nextChannel && t.log[id].hop <= MAX_HOPS_CEILING
      ensures t.log[id].channel in t.channels ==> t.log[id].hop <= t.channels[t.log[id].channel].maxHops
    {
      if id < |s.log| {
        LinkedFollows(s, t, id);
        assert Identity(t.log[id]).hop == Identity(s.log[id]).hop;
        assert Identity(t.log[id]).channel == Identity(s.log[id]).channel;
      } else {
        assert BornLinked(s, t, id);
      }
    }
  }

  lemma LettersBornLinked(s: State, c: ChannelId, draft: Draft, sender: Session, now: int, id: MessageId)
    requires LineageInv(s) && c in s.channels && Resolve(s.channels[c], sender, draft.target) != []
    requires ThreadOf(s, draft.replyTo, |s.log|).hop <= s.channels[c].maxHops
    requires |s.log| <= id < |Enqueue(s, c, draft, sender, now).log|
    ensures BornLinked(s, Enqueue(s, c, draft, sender, now), id)
  {
    EnqueueForm(s, c, draft, sender, now);
  }

  lemma SendLineage(s: State, c: ChannelId, draft: Draft, sender: Session, operator: bool, now: int)
    requires LineageInv(s)
    ensures var t := Send(s, c, draft, sender, operator, now);
            forall id :: |s.log| <= id < |t.log| ==> BornLinked(s, t, id)
  {
    if SendRefusal(s, c, draft, sender, operator, now).None? {
      var v := Enqueue(s, c, draft, sender, now);
      forall id | |s.log| <= id < |v.log|
        ensures BornLinked(s, v, id)
      {
        LettersBornLinked(s, c, draft, sender, now, id);
      }
      var t := Prune(v);
      assert t.log == v.log;
      forall id | |s.log| <= id < |t.log|
        ensures BornLinked(s, t, id)
      {
        assert BornLinked(s, v, id);
      }
    }
  }

  lemma KickLineage(s: State, c: ChannelId, author: Session, target: Session, now: int)
    requires QueueInv(s) && c in s.channels
    ensures var t := Prune(Expel(s, c, author, target, now));
            forall id :: |s.log| <= id < |t.log| ==> BornLinked(s, t, id)
  {
    ExpelMints(s, c, author, target, now);
  }

  lemma ActLineage(s: State, op: Op, now: int)
    requires QueueInv(s) && LineageInv(s)
    ensures var t := Apply(s, op, now);
            forall id :: |s.log| <= id < |t.log| ==> BornLinked(s, t, id)
  {
    match op {
      case DoSend(c, draft, sender, operator) => SendLineage(s, c, draft, sender, operator, now);
      case DoKick(c, caller, targetId, targetRole) =>
        if c in s.channels && KickTarget(s.channels[c], caller, targetId, targetRole).Some? {
          KickLineage(s, c, caller.GetOr(OPERATOR), KickTarget(s.channels[c], caller, targetId, targetRole).value, now);
        }
      case DoDisconnect(c, m) => if c in s.channels { RemoveForm(s, c, m, now); }
      case _ =>
    }
  }

  lemma ActLimits(s: State, op: Op, now: int)
    requires QueueInv(s) && LineageInv(s)
    ensures LimitsKept(s, Apply(s, op, now))
  {
    var t := Apply(s, op, now);
    ChannelCounter(s, op, now);
    forall c | c in t.channels
      ensures c in s.channels ==> t.channels[c].maxHops == s.channels[c].maxHops
      ensures c !in s.channels ==> c >= s.nextChannel && t.channels[c].maxHops <= MAX_HOPS_CEILING
    {
      if c in s.channels {
        ActPulse(s, op, now, c);
        assert PulseOf(t.channels[c]).maxHops == PulseOf(s.channels[c]).maxHops;
      } else {
        ActCreates(s, op, now, c);
      }
    }
  }

  lemma SteadyKeepsLimits(s: State, t: State)
    requires LineageInv(s) && Steady(s, t)
    ensures LimitsKept(s, t)
  {
    forall c | c in t.channels
      ensures t.channels[c].maxHops == s.channels[c].maxHops
    {
      assert Settings(t.channels[c]).maxHops == Settings(s.channels[c]).maxHops;
    }
  }

  lemma DeliveryMintsNothing(w: World, step: Step)
    requires BaseInv(w) && Enabled(w, step) && !step.Act?
    ensures |Do(w, step).s.log| == |w.s.log|
  {
    match step {
      case StartJob(r, kind) => BeginKeepsState(w, r, kind);
      case Confirm(j) => CommitEffects(w.s, w.jobs[j].session, w.jobs[j].ids, w.now, TransportOf(w.jobs[j].kind));
      case GiveBack(j) => RequeueEffects(w.s, w.jobs[j].session, w.jobs[j].ids);
      case _ =>
    }
  }

  lemma StepKeepsLineage(w: World, step: Step)
    requires BaseInv(w) && LineageInv(w.s) && Enabled(w, step)
    ensures LineageInv(Do(w, step).s)
  {
    var t := Do(w, step).s;
    assert Follows(w.s, t) by { StepKeepsState(w, step); }
    if step.Act? {
      ActLineage(w.s, step.op, w.now);
      ActLimits(w.s, step.op, w.now);
    } else {
      DeliveryMintsNothing(w, step);
      DeliverySteady(w, step);
      SteadyKeepsLimits(w.s, t);
    }
    KeptWhenBornLinked(w.s, t);
  }

  lemma {:induction false} RunKeepsLineage(w: World, trace: seq<Event>)
    requires BaseInv(w) && LineageInv(w.s) && Legal(w, trace)
    ensures LineageInv(Run(w, trace).s)
    decreases |trace|
  {
    if trace != [] {
      LaterIsFine(w, trace[0].now);
      StepKeepsLineage(w.(now := trace[0].now), trace[0].step);
      NextKeepsBase(w, trace[0]);
      RunKeepsLineage(Next(w, trace[0]), trace[1..]);
    }
  }

  /** In every run, over all envelopes ever sent, pruned ones included: an envelope has no
      root exactly at hop 0; its recorded parents form a chain of exactly hop + 1 envelopes
      down to its root, of one correlation; and hops stay within the channel's limit, so no
      chain has more than 51 envelopes. */
  lemma ThreadsInEveryRun(trace: seq<Event>, id: MessageId)
    requires Legal(START, trace) && id < |Run(START, trace).s.log|
    ensures var s := Run(START, trace).s;
            && AllLinked(s.log)
            && Threaded(s.log, id, Chain(s.log, id)) && |Chain(s.log, id)| <= MAX_HOPS_CEILING + 1
            && (s.log[id].hop == 0 <==> s.log[id].root.None?)
            && (s.log[id].channel in s.channels ==> s.log[id].hop <= s.channels[s.log[id].channel].maxHops)
  {
    RunKeepsLineage(START, trace);
    var log := Run(START, trace).s.log;
    ChainsEndAtTheirRoot(log, id);
    assert Linked(log, id);
  }
}
