/** Whole-run theorems: queues stay exact, nothing is lost, and delivered means accepted. */
module Lossless {
  import opened Seqs
  import opened Types
  import opened Retention
  import opened Retained
  import opened Delivery
  import opened Sending
  import opened Membership
  import opened Queues
  import opened Effects
  import opened System
  import opened Safety

  /** In every state any run reaches, an envelope is pending exactly when its id is in its
      own recipient's queue, no queue repeats an id or holds a foreign or missing one,
      `delivered_to` names only live envelopes and their recipient, and at most 2000
      envelopes are kept. */
  lemma QueuesExactInEveryRun(trace: seq<Event>, r: Session)
    requires Legal(START, trace)
    ensures var s := Run(START, trace).s;
            && (forall id :: id in QueueOf(s, r) <==> Waits(s, r, id))
            && NoDup(QueueOf(s, r))
            && (forall id :: id in s.deliveredTo ==> Has(s, id) && s.deliveredTo[id] == [s.log[id].recipient])
            && |LiveIds(s)| <= MAX_PERSISTED_MESSAGES
  {
    RunKeepsBase(START, trace);
    var s := Run(START, trace).s;
    forall id
      ensures id in QueueOf(s, r) <==> Waits(s, r, id)
    {
      assert QueueOk(s, r, QueueOf(s, r));
      if id in QueueOf(s, r) {
        var i :| 0 <= i < |QueueOf(s, r)| && QueueOf(s, r)[i] == id;
        assert Waits(s, r, QueueOf(s, r)[i]);
      }
    }
  }

  /** A delivered envelope was in a batch whose host accepted it. */
  lemma DeliveredWasAccepted(trace: seq<Event>, id: MessageId)
    requires Legal(START, trace)
    requires Has(Run(START, trace).s, id) && Run(START, trace).s.log[id].status == Delivered
    ensures var w := Run(START, trace);
            exists j: nat :: AcceptedIn(w, j, id) && w.jobs[j].session == w.s.log[id].recipient
  {
    RunKeepsBase(START, trace);
    var w := Run(START, trace);
    var j: nat :| AcceptedIn(w, j, id);
    assert BatchOf(w.s, w.jobs[j]);
    assert AcceptedIn(w, j, id) && w.jobs[j].session == w.s.log[id].recipient;
  }

  /** Closed statuses are left by no step, and the record of an envelope never changes
      beyond its delivery fields. */
  lemma {:induction false} RecordIsStable(w: World, trace: seq<Event>)
    requires BaseInv(w) && Legal(w, trace)
    ensures Follows(w.s, Run(w, trace).s)
    decreases |trace|
  {
    if trace != [] {
      var w1 := w.(now := trace[0].now);
      LaterIsFine(w, trace[0].now);
      StepKeepsState(w1, trace[0].step);
      NextKeepsBase(w, trace[0]);
      RecordIsStable(Next(w, trace[0]), trace[1..]);
      FollowsTrans(w.s, Next(w, trace[0]).s, Run(w, trace).s);
    }
  }

  lemma {:induction false} IncreasingGap(q: seq<nat>, i: nat, j: nat)
    requires Increasing(q) && i <= j < |q|
    ensures q[j] - q[i] >= j - i
    decreases j
  {
    if i < j {
      IncreasingGap(q, i, j - 1);
    }
  }

  /** Pruned envelopes have at least 2000 younger ones. */
  lemma DoomedAreOld(s: State, id: MessageId)
    requires TimeOrdered(s.log) && id in Doomed(s)
    ensures |s.log| - id > MAX_PERSISTED_MESSAGES
  {
    var ids := LiveIds(s);
    DoomedAreOldest(s);
    IdsBelowIncreasing(s.live, |s.log|);
    var k :| 0 <= k < Excess(s) && ids[k] == id;
    IncreasingGap(ids, k, |ids| - 1);
  }

  predicate PurgesChannel(step: Step, c: ChannelId) {
    step == Act(DoPurge(c))
  }

  lemma SendLoses(s: State, c: ChannelId, draft: Draft, sender: Session, operator: bool, now: int, id: MessageId)
    requires QueueInv(s)
    requires var t := Send(s, c, draft, sender, operator, now);
             TimeOrdered(t.log) && id < |t.log| && (id < |s.log| ==> Has(s, id)) && !Has(t, id)
    ensures |Send(s, c, draft, sender, operator, now).log| - id > MAX_PERSISTED_MESSAGES
  {
    var v := Enqueue(s, c, draft, sender, now);
    assert Has(v, id) && v.log == Send(s, c, draft, sender, operator, now).log by {
      EnqueueMints(s, c, draft, sender, now);
    }
    PruneLoses(v, id);
  }

  lemma PruneLoses(v: State, id: MessageId)
    requires TimeOrdered(v.log) && Has(v, id) && !Has(Prune(v), id)
    ensures |v.log| - id > MAX_PERSISTED_MESSAGES
  {
    DoomedAreOld(v, id);
  }

  lemma ExpelLoses(s: State, c: ChannelId, author: Session, target: Session, now: int, id: MessageId)
    requires QueueInv(s) && c in s.channels
    requires var t := Prune(Expel(s, c, author, target, now));
             TimeOrdered(t.log) && id < |t.log| && (id < |s.log| ==> Has(s, id)) && !Has(t, id)
    ensures |Prune(Expel(s, c, author, target, now)).log| - id > MAX_PERSISTED_MESSAGES
  {
    var v := Expel(s, c, author, target, now);
    assert Has(v, id) by { ExpelMints(s, c, author, target, now); }
    PruneLoses(v, id);
  }

  lemma ApplyLoses(s: State, op: Op, now: int, id: MessageId)
    requires QueueInv(s)
    requires var t := Apply(s, op, now);
             TimeOrdered(t.log) && id < |t.log| && (id < |s.log| ==> Has(s, id)) && !Has(t, id)
    ensures var t := Apply(s, op, now);
            op == DoPurge(t.log[id].channel) || |t.log| - id > MAX_PERSISTED_MESSAGES
  {
    match op {
      case DoSend(c, draft, sender, operator) => SendLoses(s, c, draft, sender, operator, now, id);
      case DoKick(c, caller, targetId, targetRole) =>
        var target := KickTarget(s.channels[c], caller, targetId, targetRole).value;
        ExpelLoses(s, c, caller.GetOr(OPERATOR), target, now, id);
      case DoDisconnect(c, m) =>
        if c in s.channels { RemoveKeeps(s, c, m, now); }
      case DoWithdraw(id') => WithdrawKeeps(s, id');
      case _ =>
    }
  }

  /** An envelope that a step removes, or mints and removes, goes by a purge of its own
      channel or leaves 2000 younger ones behind. */
  lemma StepLoses(w: World, step: Step, id: MessageId)
    requires BaseInv(w) && Enabled(w, step)
    requires id < |Do(w, step).s.log| && (id < |w.s.log| ==> Has(w.s, id)) && !Has(Do(w, step).s, id)
    ensures var t := Do(w, step).s;
            PurgesChannel(step, t.log[id].channel) || |t.log| - id > MAX_PERSISTED_MESSAGES
  {
    match step {
      case Act(op) =>
        StepKeepsState(w, step);
        ApplyLoses(w.s, op, w.now, id);
      case StartJob(r, kind) => BeginKeepsState(w, r, kind);
      case Confirm(j) => CommitEffects(w.s, w.jobs[j].session, w.jobs[j].ids, w.now, TransportOf(w.jobs[j].kind));
      case GiveBack(j) => RequeueEffects(w.s, w.jobs[j].session, w.jobs[j].ids);
      case _ =>
    }
  }

  /** Over a whole run an envelope minted in it is still live, or its own channel was
      purged, or 2000 younger envelopes have been minted. */
  lemma {:induction false} NothingIsLost(w: World, trace: seq<Event>, id: MessageId)
    requires BaseInv(w) && Legal(w, trace)
    requires id < |Run(w, trace).s.log| && (id < |w.s.log| ==> Has(w.s, id))
    ensures var s := Run(w, trace).s;
            || Has(s, id)
            || |s.log| - id > MAX_PERSISTED_MESSAGES
            || exists k :: 0 <= k < |trace| && PurgesChannel(trace[k].step, s.log[id].channel)
    decreases |trace|
  {
    if trace != [] {
      var e, rest := trace[0], trace[1..];
      var u := Next(w, e);
      LaterIsFine(w, e.now);
      NextKeepsBase(w, e);
      RecordIsStable(u, rest);
      if id < |u.s.log| && !Has(u.s, id) {
        StepLoses(w.(now := e.now), e.step, id);
        assert Identity(Run(u, rest).s.log[id]).channel == Identity(u.s.log[id]).channel;
        assert PurgesChannel(e.step, u.s.log[id].channel) ==> PurgesChannel(trace[0].step, u.s.log[id].channel);
      } else {
        NothingIsLost(u, rest, id);
        var s := Run(w, trace).s;
        if exists k :: 0 <= k < |rest| && PurgesChannel(rest[k].step, s.log[id].channel) {
          var k :| 0 <= k < |rest| && PurgesChannel(rest[k].step, s.log[id].channel);
          assert PurgesChannel(trace[k + 1].step, s.log[id].channel);
        }
      }
    }
  }

  /** The archive of `c`, by time, is exactly what the purge that follows removes. */
  ghost predicate ArchiveIsWhole(s: State, c: ChannelId) {
    && ByTime(s.log, Archive(s, c))
    && forall id: MessageId :: id in Archive(s, c) <==> Has(s, id) && !Has(Purge(s, c), id)
  }

  lemma ArchivesWhole(w: World, c: ChannelId)
    requires BaseInv(w)
    ensures ArchiveIsWhole(w.s, c)
  {
    ArchiveHoldsWhatPurgeRemoves(w.s, c);
  }

  /** In every reachable state saving a session keeps everything it removes. */
  lemma SavingKeepsEverything(trace: seq<Event>, c: ChannelId)
    requires Legal(START, trace)
    ensures ArchiveIsWhole(Run(START, trace).s, c)
  {
    RunKeepsBase(START, trace);
    ArchivesWhole(Run(START, trace), c);
  }

  /** A live envelope is queued, in flight in an unfinished batch, delivered, or closed. */
  lemma EveryEnvelopeAccountedFor(trace: seq<Event>, id: MessageId)
    requires Legal(START, trace) && Has(Run(START, trace).s, id)
    ensures var w := Run(START, trace);
            var e := w.s.log[id];
            match e.status
            case Pending => id in QueueOf(w.s, e.recipient)
            case InFlight => exists j: nat :: Holds(w, j, id) && w.jobs[j].session == e.recipient
            case Delivered => exists j :: AcceptedIn(w, j, id)
            case _ => forall r :: id !in QueueOf(w.s, r)
  {
    RunKeepsBase(START, trace);
    var w := Run(START, trace);
    PendingMeansQueuedOnce(w.s, id);
    if w.s.log[id].status == InFlight {
      var j: nat :| Holds(w, j, id);
      assert BatchOf(w.s, w.jobs[j]);
      assert Holds(w, j, id) && w.jobs[j].session == w.s.log[id].recipient;
    }
  }
}
