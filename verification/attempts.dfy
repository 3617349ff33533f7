/** Handover accounting: the lifetime budget, the retry cap, and how many handovers a run
    can make (src/core/engine.ts:370-380, 1106-1129, 1166-1178, 1261-1280). */
module Attempts {
  import opened Seqs
  import opened Types
  import opened Retention
  import opened Delivery
  import opened Sending
  import opened Membership
  import opened Queues
  import opened Effects
  import opened System
  import opened Safety

  /** Handovers ever made of envelopes on the admitted channels, pruned ones included. */
  function Handovers(log: seq<Envelope>, on: Gate): nat {
    if log == [] then 0
    else (if Admits(on, log[0].channel) then log[0].attempts else 0) + Handovers(log[1..], on)
  }

  lemma {:induction false} SameHandovers(log: seq<Envelope>, log': seq<Envelope>, on: Gate)
    requires |log| == |log'|
    requires forall i :: 0 <= i < |log| ==> log'[i].channel == log[i].channel && log'[i].attempts == log[i].attempts
    ensures Handovers(log', on) == Handovers(log, on)
  {
    if log != [] {
      SameHandovers(log[1..], log'[1..], on);
    }
  }

  lemma {:induction false} OneMoreHandover(log: seq<Envelope>, id: MessageId, e: Envelope, on: Gate)
    requires id < |log| && e.channel == log[id].channel && e.attempts == log[id].attempts + 1
    ensures Handovers(log[id := e], on) == Handovers(log, on) + if Admits(on, e.channel) then 1 else 0
  {
    if id == 0 {
      assert log[id := e][1..] == log[1..];
    } else {
      assert log[id := e][1..] == log[1..][id - 1 := e];
      OneMoreHandover(log[1..], id - 1, e, on);
    }
  }

  lemma {:induction false} UntriedAddNothing(log: seq<Envelope>, es: seq<Envelope>, on: Gate)
    requires forall i :: 0 <= i < |es| ==> es[i].attempts == 0 || !Admits(on, es[i].channel)
    ensures Handovers(log + es, on) == Handovers(log, on)
  {
    if log != [] {
      assert (log + es)[1..] == log[1..] + es;
      UntriedAddNothing(log[1..], es, on);
    } else if es != [] {
      assert log + es == es;
      UntriedAddNothing(log, es[1..], on);
      assert log + es[1..] == es[1..];
    }
  }

  /** Every live channel's `delivered_total` counts exactly its handovers and is within its
      message budget; channel ids are fresh. */
  ghost predicate BudgetInv(s: State) {
    && (forall c :: c in s.channels ==>
          && c < s.nextChannel
          && s.channels[c].deliveredTotal == Handovers(s.log, Some({c}))
          && (s.channels[c].maxDelivered.Some? ==> s.channels[c].deliveredTotal <= s.channels[c].maxDelivered.value))
    && (forall id :: 0 <= id < |s.log| ==> s.log[id].channel < s.nextChannel)
  }

  /** The retry cap after `k` sweeps. */
  ghost predicate RetryInv(s: State, k: nat) {
    forall id: MessageId :: id < |s.log| ==>
      && s.log[id].attempts <= MAX_DELIVERY_ATTEMPTS + k
      && (Has(s, id) && s.log[id].status == Pending ==> s.log[id].attempts < MAX_DELIVERY_ATTEMPTS + k)
  }

  lemma HandOverKeepsRetry(s: State, r: Session, i: nat, now: int, k: nat)
    requires RetryInv(s, k) && i < |QueueOf(s, r)| && Waits(s, r, QueueOf(s, r)[i])
    requires s.log[QueueOf(s, r)[i]].channel in s.channels
    ensures RetryInv(HandOver(s, r, i, now), k)
    ensures var id := QueueOf(s, r)[i]; HandOver(s, r, i, now).log == s.log[id := HandedOver(s.log[id])]
  {
    var id := QueueOf(s, r)[i];
    assert HandOver(s, r, i, now).log == s.log[id := HandedOver(s.log[id])];
  }

  lemma HandOverCounts(s: State, r: Session, i: nat, now: int, k: nat)
    requires BudgetInv(s) && RetryInv(s, k)
    requires i < |QueueOf(s, r)| && Waits(s, r, QueueOf(s, r)[i])
    requires var c := s.log[QueueOf(s, r)[i]].channel; c in s.channels && !OverBudget(s.channels[c], now)
    ensures BudgetInv(HandOver(s, r, i, now)) && RetryInv(HandOver(s, r, i, now), k)
    ensures Handovers(HandOver(s, r, i, now).log, None) == Handovers(s.log, None) + 1
  {
    var id := QueueOf(s, r)[i];
    var t := HandOver(s, r, i, now);
    HandOverKeepsRetry(s, r, i, now, k);
    OneMoreHandover(s.log, id, HandedOver(s.log[id]), None);
    forall c | c in t.channels
      ensures t.channels[c].deliveredTotal == Handovers(t.log, Some({c}))
    {
      OneMoreHandover(s.log, id, HandedOver(s.log[id]), Some({c}));
    }
  }

  lemma DropCounts(s: State, r: Session, i: nat, status: Status, k: nat)
    requires BudgetInv(s) && RetryInv(s, k) && Closed(status)
    requires i < |QueueOf(s, r)| && Waits(s, r, QueueOf(s, r)[i])
    ensures BudgetInv(Dequeue(s, r, i, status)) && RetryInv(Dequeue(s, r, i, status), k)
    ensures Handovers(Dequeue(s, r, i, status).log, None) == Handovers(s.log, None)
  {
    var t := Dequeue(s, r, i, status);
    SameHandovers(s.log, t.log, None);
    forall c | c in t.channels
      ensures t.channels[c].deliveredTotal == Handovers(t.log, Some({c}))
    {
      SameHandovers(s.log, t.log, Some({c}));
    }
  }

  /** What a drain from `s` to `d` counts: one handover for every id it adds to `ids`. */
  ghost predicate Accounted(s: State, ids: seq<MessageId>, d: Drained, k: nat) {
    && BudgetInv(d.state) && RetryInv(d.state, k) && |ids| <= |d.ids|
    && Handovers(d.state.log, None) == Handovers(s.log, None) + |d.ids| - |ids|
  }

  /** Inside one multi-message drain no channel overruns its budget, no envelope its cap, and
      every drained envelope is one handover. */
  lemma {:induction false} DrainFromCounts(s: State, r: Session, now: int, gate: Gate, i: nat, ids: seq<MessageId>,
        k: nat)
    requires QueueInv(s) && BudgetInv(s) && RetryInv(s, k)
    ensures Accounted(s, ids, DrainFrom(s, r, now, gate, i, ids), k)
    decreases |QueueOf(s, r)| - i, 1
  {
    var q := QueueOf(s, r);
    if i < |q| {
      assert Waits(s, r, q[i]) by { DequeueKeeps(s, r, i, Stale); }
      var verdict := Judge(s, r, now, gate, q[i], ids == []);
      match verdict
      case Keep => DrainFromCounts(s, r, now, gate, i + 1, ids, k);
      case Skip => assert false;
      case Drop(status) => DropThenCounts(s, r, now, gate, i, ids, k, status);
      case Take => TakeThenCounts(s, r, now, gate, i, ids, k);
    }
  }

  lemma {:induction false} DropThenCounts(s: State, r: Session, now: int, gate: Gate, i: nat, ids: seq<MessageId>,
        k: nat, status: Status)
    requires QueueInv(s) && BudgetInv(s) && RetryInv(s, k) && i < |QueueOf(s, r)| && Waits(s, r, QueueOf(s, r)[i])
    requires Judge(s, r, now, gate, QueueOf(s, r)[i], ids == []) == Drop(status)
    ensures Accounted(s, ids, DrainFrom(s, r, now, gate, i, ids), k)
    decreases |QueueOf(s, r)| - i, 0
  {
    var u := Dequeue(s, r, i, status);
    assert QueueInv(u) by { DequeueKeeps(s, r, i, status); }
    DropCounts(s, r, i, status, k);
    DrainFromCounts(u, r, now, gate, i, ids, k);
  }

  lemma {:induction false} TakeThenCounts(s: State, r: Session, now: int, gate: Gate, i: nat, ids: seq<MessageId>,
        k: nat)
    requires QueueInv(s) && BudgetInv(s) && RetryInv(s, k) && i < |QueueOf(s, r)| && Waits(s, r, QueueOf(s, r)[i])
    requires Judge(s, r, now, gate, QueueOf(s, r)[i], ids == []) == Take
    ensures Accounted(s, ids, DrainFrom(s, r, now, gate, i, ids), k)
    decreases |QueueOf(s, r)| - i, 0
  {
    var u := HandOver(s, r, i, now);
    assert QueueInv(u) by { HandOverKeeps(s, r, i, now); }
    HandOverCounts(s, r, i, now, k);
    DrainFromCounts(u, r, now, gate, i, ids + [QueueOf(s, r)[i]], k);
  }

  /** A state change that neither hands over nor renews budgets. */
  ghost predicate TotalsKept(s: State, t: State) {
    && s.nextChannel <= t.nextChannel
    && (forall c :: c in t.channels ==>
          if c in s.channels then
            && t.channels[c].deliveredTotal == s.channels[c].deliveredTotal
            && t.channels[c].maxDelivered == s.channels[c].maxDelivered
          else
            && c == s.nextChannel < t.nextChannel && t.channels[c].deliveredTotal == 0 && t.log == s.log
            && (t.channels[c].maxDelivered.Some? ==> t.channels[c].maxDelivered.value >= 0))
    && (forall id :: |s.log| <= id < |t.log| ==> t.log[id].channel < t.nextChannel)
  }

  lemma {:induction false} NoChannelNoHandovers(log: seq<Envelope>, c: ChannelId)
    requires forall i :: 0 <= i < |log| ==> log[i].channel != c
    ensures Handovers(log, Some({c})) == 0
  {
    if log != [] {
      NoChannelNoHandovers(log[1..], c);
    }
  }

  lemma CalmCounts(s: State, t: State, on: Gate)
    requires Calm(s, t)
    ensures Handovers(t.log, on) == Handovers(s.log, on)
  {
    var old', new' := t.log[..|s.log|], t.log[|s.log|..];
    assert t.log == old' + new';
    forall i | 0 <= i < |s.log|
      ensures old'[i].channel == s.log[i].channel && old'[i].attempts == s.log[i].attempts
    {
      assert Drift(s.log[i], t.log[i]);
    }
    SameHandovers(s.log, old', on);
    UntriedAddNothing(old', new', on);
  }

  lemma CalmKeepsBudget(s: State, t: State, k: nat)
    requires BudgetInv(s) && RetryInv(s, k) && Calm(s, t) && TotalsKept(s, t)
    ensures BudgetInv(t) && RetryInv(t, k)
  {
    forall c | c in t.channels
      ensures t.channels[c].deliveredTotal == Handovers(t.log, Some({c}))
    {
      CalmCounts(s, t, Some({c}));
      if c !in s.channels {
        NoChannelNoHandovers(s.log, c);
      }
    }
    forall id | 0 <= id < |s.log|
      ensures t.log[id].channel < t.nextChannel && t.log[id].attempts <= MAX_DELIVERY_ATTEMPTS + k
      ensures Has(t, id) && t.log[id].status == Pending ==> t.log[id].attempts < MAX_DELIVERY_ATTEMPTS + k
    {
      assert Drift(s.log[id], t.log[id]);
    }
  }

  lemma SendTotals(s: State, c: ChannelId, draft: Draft, sender: Session, operator: bool, now: int)
    requires BudgetInv(s)
    ensures TotalsKept(s, Send(s, c, draft, sender, operator, now))
  {
    if SendRefusal(s, c, draft, sender, operator, now).None? {
      EnqueueMints(s, c, draft, sender, now);
    } else {
      assert Send(s, c, draft, sender, operator, now) == s;
    }
  }

  lemma KickTotals(s: State, c: ChannelId, author: Session, target: Session, now: int)
    requires QueueInv(s) && BudgetInv(s) && c in s.channels
    ensures TotalsKept(s, Prune(Expel(s, c, author, target, now)))
  {
    var v := Expel(s, c, author, target, now);
    ExpelForm(s, c, author, target, now);
    ExpelMints(s, c, author, target, now);
    assert TotalsKept(s, v);
  }

  lemma DisconnectTotals(s: State, c: ChannelId, m: Session, now: int)
    requires QueueInv(s) && BudgetInv(s)
    ensures TotalsKept(s, Disconnect(s, c, m, now))
  {
    if c in s.channels {
      RemoveForm(s, c, m, now);
    }
  }

  lemma ApplyTotals(s: State, op: Op, now: int)
    requires QueueInv(s) && BudgetInv(s)
    ensures TotalsKept(s, Apply(s, op, now))
  {
    match op {
      case DoSend(c, draft, sender, operator) => SendTotals(s, c, draft, sender, operator, now);
      case DoKick(c, caller, targetId, targetRole) =>
        if c in s.channels && KickTarget(s.channels[c], caller, targetId, targetRole).Some? {
          KickTotals(s, c, caller.GetOr(OPERATOR), KickTarget(s.channels[c], caller, targetId, targetRole).value, now);
        }
      case DoDisconnect(c, m) => DisconnectTotals(s, c, m, now);
      case DoCreate(_, _) => CreateTotals(s, op, now);
      case DoWithdraw(id) => WithdrawKeeps(s, id);
      case DoPurge(_) =>
      case _ => QuietTotals(s, op, now);
    }
  }

  /** Operations that mint nothing and create nothing. */
  lemma QuietTotals(s: State, op: Op, now: int)
    requires OnChannels(op) && !op.DoCreate?
    ensures TotalsKept(s, Apply(s, op, now))
  {
    ChannelsOnly(s, op, now);
  }

  lemma CreateTotals(s: State, op: Op, now: int)
    requires BudgetInv(s) && op.DoCreate?
    ensures TotalsKept(s, Apply(s, op, now))
  {
  }

  /** Changes of status alone count nothing. */
  lemma StatusOnlyKeepsBudget(s: State, t: State)
    requires BudgetInv(s) && t.channels == s.channels && t.nextChannel == s.nextChannel && |t.log| == |s.log|
    requires forall i :: 0 <= i < |s.log| ==>
               t.log[i].channel == s.log[i].channel && t.log[i].attempts == s.log[i].attempts
    ensures BudgetInv(t) && Handovers(t.log, None) == Handovers(s.log, None)
  {
    SameHandovers(s.log, t.log, None);
    forall c | c in t.channels
      ensures t.channels[c].deliveredTotal == Handovers(t.log, Some({c}))
    {
      SameHandovers(s.log, t.log, Some({c}));
    }
  }

  ghost predicate CountInv(w: World) {
    BudgetInv(w.s) && RetryInv(w.s, w.sweeps)
  }

  lemma DrainCounts(s: State, r: Session, now: int, gate: Gate, k: nat)
    requires QueueInv(s) && BudgetInv(s) && RetryInv(s, k) && |LiveIds(s)| <= MAX_PERSISTED_MESSAGES
    ensures Accounted(s, [], Drain(s, r, now, gate), k)
  {
    DrainPrunesNothing(s, r, now, gate);
    TouchKeeps(s, r);
    DrainFromCounts(Touch(s, r), r, now, gate, 0, [], k);
  }

  lemma CommitCounts(s: State, r: Session, ids: seq<MessageId>, now: int, transport: Transport, k: nat)
    requires BudgetInv(s) && RetryInv(s, k)
    ensures var t := Commit(s, r, ids, now, transport);
            BudgetInv(t) && RetryInv(t, k) && Handovers(t.log, None) == Handovers(s.log, None)
  {
    CommitEffects(s, r, ids, now, transport);
    StatusOnlyKeepsBudget(s, Commit(s, r, ids, now, transport));
  }

  lemma RequeueCounts(s: State, r: Session, ids: seq<MessageId>, k: nat)
    requires BudgetInv(s) && RetryInv(s, k)
    ensures BudgetInv(Requeue(s, r, ids)) && RetryInv(Requeue(s, r, ids), k)
  {
    RequeueEffects(s, r, ids);
    StatusOnlyKeepsBudget(s, Requeue(s, r, ids));
  }

  lemma BeginCounts(w: World, r: Session, kind: Kind)
    requires BaseInv(w) && CountInv(w)
    ensures CountInv(Begin(w, r, kind))
    ensures Handovers(Begin(w, r, kind).s.log, None)
         == Handovers(w.s.log, None) + |Drain(w.s, r, w.now, GateFor(w.s, r, kind)).ids|
  {
    var d := Drain(w.s, r, w.now, GateFor(w.s, r, kind));
    DrainCounts(w.s, r, w.now, GateFor(w.s, r, kind), w.sweeps);
    if kind == PullJob && d.ids != [] {
      CommitCounts(d.state, r, d.ids, w.now, TransportOf(kind), w.sweeps);
    }
  }

  lemma ActCounts(w: World, op: Op)
    requires BaseInv(w) && CountInv(w)
    ensures CountInv(Do(w, Act(op)))
  {
    ApplyKeeps(w.s, op, w.now);
    ApplyTotals(w.s, op, w.now);
    CalmKeepsBudget(w.s, Do(w, Act(op)).s, w.sweeps);
  }

  lemma StepKeepsCounts(w: World, step: Step)
    requires BaseInv(w) && CountInv(w) && Enabled(w, step)
    ensures CountInv(Do(w, step))
  {
    match step {
      case Act(op) => ActCounts(w, op);
      case StartJob(r, kind) => BeginCounts(w, r, kind);
      case Confirm(j) =>
        var job := w.jobs[j];
        CommitCounts(w.s, job.session, job.ids, w.now, TransportOf(job.kind), w.sweeps);
      case GiveBack(j) => RequeueCounts(w.s, w.jobs[j].session, w.jobs[j].ids, w.sweeps);
      case Recover => SweepCounts(w);
      case _ =>
    }
  }

  lemma SweepCounts(w: World)
    requires CountInv(w)
    ensures CountInv(Do(w, Recover))
  {
    StatusOnlyKeepsBudget(w.s, Sweep(w.s, ManagedSessions(w.s)));
  }

  lemma {:induction false} RunKeepsCounts(w: World, trace: seq<Event>)
    requires BaseInv(w) && CountInv(w) && Legal(w, trace)
    ensures CountInv(Run(w, trace))
    decreases |trace|
  {
    if trace != [] {
      LaterIsFine(w, trace[0].now);
      StepKeepsCounts(w.(now := trace[0].now), trace[0].step);
      NextKeepsBase(w, trace[0]);
      RunKeepsCounts(Next(w, trace[0]), trace[1..]);
    }
  }

  /** In every reachable state a channel's `delivered_total` is the number of handovers ever
      made of its envelopes, retries and pruned ones included, and within its budget. */
  lemma BudgetHoldsInEveryRun(trace: seq<Event>, c: ChannelId)
    requires Legal(START, trace) && c in Run(START, trace).s.channels
    ensures var s := Run(START, trace).s;
            && s.channels[c].deliveredTotal == Handovers(s.log, Some({c}))
            && (s.channels[c].maxDelivered.Some? ==> s.channels[c].deliveredTotal <= s.channels[c].maxDelivered.value)
  {
    RunKeepsCounts(START, trace);
  }

  /** An envelope is handed over at most five times, plus once for every sweep. */
  lemma AttemptsAreCapped(trace: seq<Event>, id: MessageId)
    requires Legal(START, trace) && id < |Run(START, trace).s.log|
    ensures var w := Run(START, trace);
            && w.s.log[id].attempts <= MAX_DELIVERY_ATTEMPTS + w.sweeps
            && (Has(w.s, id) && w.s.log[id].status == Pending ==>
                  w.s.log[id].attempts < MAX_DELIVERY_ATTEMPTS + w.sweeps)
  {
    RunKeepsCounts(START, trace);
  }

  lemma {:induction false} HandoversBounded(log: seq<Envelope>, cap: nat)
    requires forall i :: 0 <= i < |log| ==> log[i].attempts <= cap
    ensures Handovers(log, None) <= cap * |log|
  {
    if log != [] {
      HandoversBounded(log[1..], cap);
    }
  }

  /** How many more handovers the envelopes minted so far can get without a sweep. */
  ghost function Allowance(w: World): int {
    (MAX_DELIVERY_ATTEMPTS + w.sweeps) * |w.s.log| - Handovers(w.s.log, None)
  }

  lemma CountedBounded(w: World)
    requires CountInv(w)
    ensures Handovers(w.s.log, None) <= (MAX_DELIVERY_ATTEMPTS + w.sweeps) * |w.s.log|
  {
    HandoversBounded(w.s.log, MAX_DELIVERY_ATTEMPTS + w.sweeps);
  }

  /** Retries end: the allowance is never negative, and every envelope a drain hands over
      uses up one unit of it. */
  lemma DrainsUseUpTheAllowance(w: World, r: Session, kind: Kind)
    requires BaseInv(w) && CountInv(w)
    ensures 0 <= Allowance(Begin(w, r, kind))
         == Allowance(w) - |Drain(w.s, r, w.now, GateFor(w.s, r, kind)).ids|
  {
    var u := Begin(w, r, kind);
    assert |u.s.log| == |w.s.log| && u.sweeps == w.sweeps by { BeginKeepsState(w, r, kind); }
    BeginCounts(w, r, kind);
    CountedBounded(u);
    AllowanceDrops(w, u, |Drain(w.s, r, w.now, GateFor(w.s, r, kind)).ids|);
  }

  lemma AllowanceDrops(w: World, u: World, more: nat)
    requires |u.s.log| == |w.s.log| && u.sweeps == w.sweeps
    requires Handovers(u.s.log, None) == Handovers(w.s.log, None) + more
    requires Handovers(u.s.log, None) <= (MAX_DELIVERY_ATTEMPTS + u.sweeps) * |u.s.log|
    ensures 0 <= Allowance(u) == Allowance(w) - more
  {
  }

  /** A run without sweeps makes at most five handovers per envelope ever sent. */
  lemma HandoversEnd(trace: seq<Event>)
    requires Legal(START, trace)
    ensures var w := Run(START, trace);
            Handovers(w.s.log, None) <= (MAX_DELIVERY_ATTEMPTS + w.sweeps) * |w.s.log|
  {
    RunKeepsCounts(START, trace);
    CountedBounded(Run(START, trace));
  }
}
