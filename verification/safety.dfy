/** The inductive invariant of every run: queues, clock order, retention, and who holds or
    accepted each envelope. */
module Safety {
  import opened Seqs
  import opened Types
  import opened Retention
  import opened Retained
  import opened Delivery
  import opened Sending
  import opened Membership
  import opened Queues
  import opened Effects
  import opened System

  ghost predicate ClockInv(s: State, now: int) {
    && TimeOrdered(s.log)
    && forall id :: 0 <= id < |s.log| ==> s.log[id].timestamp <= now
  }

  ghost predicate BatchOf(s: State, job: Job) {
    && NoDup(job.ids)
    && forall i :: 0 <= i < |job.ids| ==> job.ids[i] < |s.log| && s.log[job.ids[i]].recipient == job.session
  }

  /** `j` is an unfinished batch holding `id`; its deliverer may be dead. */
  predicate Holds(w: World, j: nat, id: MessageId) {
    j < |w.jobs| && w.jobs[j].fate == Open && id in w.jobs[j].ids
  }

  /** The host of batch `j` accepted `id`. */
  predicate AcceptedIn(w: World, j: nat, id: MessageId) {
    j < |w.jobs| && w.jobs[j].answer == Some(Accepted) && id in w.jobs[j].ids
  }

  ghost predicate JobInv(w: World) {
    && (forall j :: 0 <= j < |w.jobs| ==> BatchOf(w.s, w.jobs[j]))
    && (forall j :: 0 <= j < |w.jobs| && w.jobs[j].fate == Settled ==> w.jobs[j].answer == Some(Accepted))
    && (forall id: MessageId :: Has(w.s, id) && w.s.log[id].status == InFlight ==> exists j :: Holds(w, j, id))
    && (forall id: MessageId :: Has(w.s, id) && w.s.log[id].status == Delivered ==> exists j :: AcceptedIn(w, j, id))
  }

  ghost predicate BaseInv(w: World) {
    && QueueInv(w.s)
    && ClockInv(w.s, w.now)
    && |LiveIds(w.s)| <= MAX_PERSISTED_MESSAGES
    && JobInv(w)
  }

  /** Everything minted carries the time of its step. */
  ghost predicate MintsAt(s: State, t: State, now: int) {
    |s.log| <= |t.log| && forall id :: |s.log| <= id < |t.log| ==> t.log[id].timestamp == now
  }

  lemma ClockKept(s: State, t: State, before: int, now: int)
    requires ClockInv(s, before) && before <= now && Follows(s, t) && MintsAt(s, t, now)
    ensures ClockInv(t, now)
  {
    forall id | 0 <= id < |s.log|
      ensures t.log[id].timestamp == s.log[id].timestamp
    {
      assert Identity(t.log[id]).timestamp == Identity(s.log[id]).timestamp;
    }
  }

  lemma SendMints(s: State, c: ChannelId, draft: Draft, sender: Session, operator: bool, now: int)
    ensures MintsAt(s, Send(s, c, draft, sender, operator, now), now)
  {
    if SendRefusal(s, c, draft, sender, operator, now).None? {
      EnqueueMints(s, c, draft, sender, now);
    }
  }

  lemma KickMints(s: State, c: ChannelId, caller: Option<Session>, targetId: Option<string>,
        targetRole: Option<string>, now: int)
    requires QueueInv(s)
    ensures MintsAt(s, Kick(s, c, caller, targetId, targetRole, now), now)
  {
    if c in s.channels && KickTarget(s.channels[c], caller, targetId, targetRole).Some? {
      ExpelMints(s, c, caller.GetOr(OPERATOR), KickTarget(s.channels[c], caller, targetId, targetRole).value, now);
    }
  }

  lemma ApplyMints(s: State, op: Op, now: int)
    requires QueueInv(s)
    ensures MintsAt(s, Apply(s, op, now), now)
  {
    match op {
      case DoSend(c, draft, sender, operator) => SendMints(s, c, draft, sender, operator, now);
      case DoKick(c, caller, targetId, targetRole) => KickMints(s, c, caller, targetId, targetRole, now);
      case DoDisconnect(c, m) =>
        if c in s.channels { RemoveKeeps(s, c, m, now); }
      case DoWithdraw(id) => WithdrawKeeps(s, id);
      case _ =>
    }
  }

  lemma ApplyBounded(s: State, op: Op, now: int)
    requires QueueInv(s) && |LiveIds(s)| <= MAX_PERSISTED_MESSAGES
    requires TimeOrdered(Apply(s, op, now).log)
    ensures |LiveIds(Apply(s, op, now))| <= MAX_PERSISTED_MESSAGES
  {
    var t := Apply(s, op, now);
    match op
    case DoSend(c, draft, sender, operator) =>
      if SendRefusal(s, c, draft, sender, operator, now).None? {
        PruneBounds(Enqueue(s, c, draft, sender, now));
      }
    case DoKick(c, caller, targetId, targetRole) =>
      if c in s.channels && KickTarget(s.channels[c], caller, targetId, targetRole).Some? {
        var target := KickTarget(s.channels[c], caller, targetId, targetRole).value;
        PruneBounds(Expel(s, c, caller.GetOr(OPERATOR), target, now));
      }
    case DoDisconnect(c, m) => if c in s.channels { RemoveKeeps(s, c, m, now); }
    case DoPurge(c) => FewerIds(t.live, s.live, |s.log|);
    case DoWithdraw(id) => WithdrawKeeps(s, id);
    case _ =>
  }

  /** In a bounded state the drain's final prune does nothing. */
  lemma DrainPrunesNothing(s: State, r: Session, now: int, gate: Gate)
    requires QueueInv(s) && |LiveIds(s)| <= MAX_PERSISTED_MESSAGES
    ensures Drain(s, r, now, gate) == DrainFrom(Touch(s, r), r, now, gate, 0, [])
  {
    DrainEffects(s, r, now, gate);
  }

  lemma BeginKeepsState(w: World, r: Session, kind: Kind)
    requires QueueInv(w.s) && |LiveIds(w.s)| <= MAX_PERSISTED_MESSAGES
    ensures var t := Begin(w, r, kind).s;
            QueueInv(t) && Follows(w.s, t) && t.live == w.s.live && |t.log| == |w.s.log|
  {
    var gate := GateFor(w.s, r, kind);
    var d := Drain(w.s, r, w.now, gate);
    DrainPrunesNothing(w.s, r, w.now, gate);
    DrainKeeps(w.s, r, w.now, gate);
    DrainEffects(w.s, r, w.now, gate);
    if kind == PullJob {
      CommitKeeps(d.state, r, d.ids, w.now, TransportOf(kind));
      CommitEffects(d.state, r, d.ids, w.now, TransportOf(kind));
      FollowsTrans(w.s, d.state, Commit(d.state, r, d.ids, w.now, TransportOf(kind)));
    }
  }

  /** Every step keeps the queue invariant and the immutable record. */
  lemma StepKeepsState(w: World, step: Step)
    requires BaseInv(w) && Enabled(w, step)
    ensures var t := Do(w, step).s;
            && QueueInv(t) && Follows(w.s, t) && MintsAt(w.s, t, w.now)
            && ClockInv(t, w.now) && |LiveIds(t)| <= MAX_PERSISTED_MESSAGES
  {
    var t := Do(w, step).s;
    match step {
      case Act(op) =>
        ApplyKeeps(w.s, op, w.now);
        ApplyMints(w.s, op, w.now);
      case StartJob(r, kind) => BeginKeepsState(w, r, kind);
      case Confirm(j) =>
        CommitKeeps(w.s, w.jobs[j].session, w.jobs[j].ids, w.now, TransportOf(w.jobs[j].kind));
        CommitEffects(w.s, w.jobs[j].session, w.jobs[j].ids, w.now, TransportOf(w.jobs[j].kind));
      case GiveBack(j) =>
        assert BatchOf(w.s, w.jobs[j]);
        RequeueKeeps(w.s, w.jobs[j].session, w.jobs[j].ids);
        RequeueEffects(w.s, w.jobs[j].session, w.jobs[j].ids);
      case Recover => SweepKeeps(w.s, ManagedSessions(w.s));
      case _ =>
    }
    ClockKept(w.s, t, w.now, w.now);
    if step.Act? {
      ApplyBounded(w.s, step.op, w.now);
    }
  }

  lemma BatchesKept(w: World, t: State)
    requires JobInv(w) && Follows(w.s, t)
    ensures forall j :: 0 <= j < |w.jobs| ==> BatchOf(t, w.jobs[j])
  {
    forall j | 0 <= j < |w.jobs|
      ensures BatchOf(t, w.jobs[j])
    {
      assert BatchOf(w.s, w.jobs[j]);
      forall i | 0 <= i < |w.jobs[j].ids|
        ensures t.log[w.jobs[j].ids[i]].recipient == w.jobs[j].session
      {
        assert Identity(t.log[w.jobs[j].ids[i]]).recipient == Identity(w.s.log[w.jobs[j].ids[i]]).recipient;
      }
    }
  }

  /** The two existence clauses survive when `u` keeps every job's ids, never reopens or
      forgets an answer, and what is in flight or delivered in `u` was so in `w` or is
      covered by a witness in `u`. */
  ghost predicate JobsExtend(w: World, u: World) {
    && |w.jobs| <= |u.jobs|
    && forall j :: 0 <= j < |w.jobs| ==>
         && u.jobs[j].ids == w.jobs[j].ids && u.jobs[j].session == w.jobs[j].session
         && u.jobs[j].kind == w.jobs[j].kind
         && (w.jobs[j].answer.Some? ==> u.jobs[j].answer == w.jobs[j].answer)
         && (w.jobs[j].fate != Open ==> u.jobs[j].fate == w.jobs[j].fate)
  }

  lemma AcceptanceKept(w: World, u: World, id: MessageId)
    requires JobsExtend(w, u) && exists j :: AcceptedIn(w, j, id)
    ensures exists j :: AcceptedIn(u, j, id)
  {
    var j :| AcceptedIn(w, j, id);
    assert AcceptedIn(u, j, id);
  }

  lemma HoldKept(w: World, u: World, id: MessageId)
    requires JobsExtend(w, u) && exists j: nat :: Holds(w, j, id) && u.jobs[j].fate == Open
    ensures exists j :: Holds(u, j, id)
  {
    var j: nat :| Holds(w, j, id) && u.jobs[j].fate == Open;
    assert Holds(u, j, id);
  }

  lemma ActKeepsJobs(w: World, op: Op)
    requires BaseInv(w)
    ensures JobInv(Do(w, Act(op)))
  {
    var u := Do(w, Act(op));
    ApplyKeeps(w.s, op, w.now);
    BatchesKept(w, u.s);
    forall id: MessageId | Has(u.s, id) && u.s.log[id].status in {InFlight, Delivered}
      ensures Has(w.s, id) && u.s.log[id] == w.s.log[id]
    {
      assert id < |w.s.log| && Drift(w.s.log[id], u.s.log[id]);
    }
    forall id: MessageId | Has(u.s, id) && u.s.log[id].status == InFlight
      ensures exists j :: Holds(u, j, id)
    {
      HoldKept(w, u, id);
    }
    forall id: MessageId | Has(u.s, id) && u.s.log[id].status == Delivered
      ensures exists j :: AcceptedIn(u, j, id)
    {
      AcceptanceKept(w, u, id);
    }
  }

  lemma ReportKeepsJobs(w: World, j: nat, job: Job)
    requires BaseInv(w) && j < |w.jobs|
    requires job.ids == w.jobs[j].ids && job.session == w.jobs[j].session && job.kind == w.jobs[j].kind
    requires job.fate == w.jobs[j].fate && (w.jobs[j].answer.Some? ==> job.answer == w.jobs[j].answer)
    ensures JobInv(WithJob(w, j, job)) && JobsExtend(w, WithJob(w, j, job))
  {
    var u := WithJob(w, j, job);
    forall k | 0 <= k < |u.jobs|
      ensures BatchOf(u.s, u.jobs[k])
    {
      assert BatchOf(w.s, w.jobs[k]);
    }
    forall id: MessageId | Has(u.s, id) && u.s.log[id].status == InFlight
      ensures exists j :: Holds(u, j, id)
    {
      HoldKept(w, u, id);
    }
    forall id: MessageId | Has(u.s, id) && u.s.log[id].status == Delivered
      ensures exists j :: AcceptedIn(u, j, id)
    {
      AcceptanceKept(w, u, id);
    }
  }

  /** What a confirmation leaves in flight, and what it leaves delivered. */
  lemma ConfirmedStatus(w: World, j: nat, id: MessageId)
    requires BaseInv(w) && Enabled(w, Confirm(j)) && Has(w.s, id)
    ensures var u, job := Do(w, Confirm(j)), w.jobs[j];
            && |u.s.log| == |w.s.log|
            && (u.s.log[id].status == InFlight ==> w.s.log[id].status == InFlight && id !in job.ids)
            && (u.s.log[id].status == Delivered ==> w.s.log[id].status == Delivered || id in job.ids)
  {
    var job := w.jobs[j];
    CommitEffects(w.s, job.session, job.ids, w.now, TransportOf(job.kind));
    assert BatchOf(w.s, job);
  }

  lemma ConfirmKeepsWitnesses(w: World, j: nat, id: MessageId)
    requires BaseInv(w) && Enabled(w, Confirm(j)) && Has(w.s, id)
    ensures var u := Do(w, Confirm(j));
            && |u.s.log| == |w.s.log|
            && (u.s.log[id].status == InFlight ==> exists k :: Holds(u, k, id))
            && (u.s.log[id].status == Delivered ==> exists k :: AcceptedIn(u, k, id))
  {
    var u := Do(w, Confirm(j));
    ConfirmedStatus(w, j, id);
    if u.s.log[id].status == InFlight {
      var k :| Holds(w, k, id);
      assert Holds(u, k, id);
    } else if u.s.log[id].status == Delivered {
      if w.s.log[id].status == Delivered {
        AcceptanceKept(w, u, id);
      } else {
        assert AcceptedIn(u, j, id);
      }
    }
  }

  lemma ConfirmKeepsJobs(w: World, j: nat)
    requires BaseInv(w) && Enabled(w, Confirm(j))
    ensures JobInv(Do(w, Confirm(j)))
  {
    var u, job := Do(w, Confirm(j)), w.jobs[j];
    CommitKeeps(w.s, job.session, job.ids, w.now, TransportOf(job.kind));
    assert u.s.live == w.s.live && |u.s.log| == |w.s.log| by {
      CommitEffects(w.s, job.session, job.ids, w.now, TransportOf(job.kind));
    }
    BatchesKept(w, u.s);
    forall id: MessageId | Has(u.s, id)
      ensures u.s.log[id].status == InFlight ==> exists k :: Holds(u, k, id)
      ensures u.s.log[id].status == Delivered ==> exists k :: AcceptedIn(u, k, id)
    {
      ConfirmKeepsWitnesses(w, j, id);
    }
  }

  /** After a requeue nothing of the batch is in flight or delivered any more. */
  lemma RequeueReleases(s: State, r: Session, ids: seq<MessageId>)
    ensures var t := Requeue(s, r, ids);
            |t.log| == |s.log| && t.live == s.live && forall id: MessageId ::
              Has(t, id) && t.log[id].status in {InFlight, Delivered} ==> id !in ids && t.log[id] == s.log[id]
  {
    RequeueEffects(s, r, ids);
  }

  lemma GiveBackKeepsJobs(w: World, j: nat)
    requires BaseInv(w) && Enabled(w, GiveBack(j))
    ensures JobInv(Do(w, GiveBack(j)))
  {
    var u, job := Do(w, GiveBack(j)), w.jobs[j];
    assert Follows(w.s, u.s) by {
      assert BatchOf(w.s, job);
      RequeueKeeps(w.s, job.session, job.ids);
    }
    BatchesKept(w, u.s);
    assert u.s.live == w.s.live && |u.s.log| == |w.s.log| by { RequeueReleases(w.s, job.session, job.ids); }
    forall id: MessageId | Has(u.s, id)
      ensures u.s.log[id].status == InFlight ==> exists k :: Holds(u, k, id)
      ensures u.s.log[id].status == Delivered ==> exists k :: AcceptedIn(u, k, id)
    {
      GiveBackKeepsWitnesses(w, j, id);
    }
  }

  lemma GiveBackKeepsWitnesses(w: World, j: nat, id: MessageId)
    requires BaseInv(w) && Enabled(w, GiveBack(j)) && Has(w.s, id)
    ensures var u := Do(w, GiveBack(j));
            && |u.s.log| == |w.s.log|
            && (u.s.log[id].status == InFlight ==> exists k :: Holds(u, k, id))
            && (u.s.log[id].status == Delivered ==> exists k :: AcceptedIn(u, k, id))
  {
    var u := Do(w, GiveBack(j));
    RequeueReleases(w.s, w.jobs[j].session, w.jobs[j].ids);
    if u.s.log[id].status == InFlight {
      var k :| Holds(w, k, id);
      assert Holds(u, k, id);
    } else if u.s.log[id].status == Delivered {
      AcceptanceKept(w, u, id);
    }
  }

  lemma RecoverKeepsJobs(w: World)
    requires BaseInv(w)
    ensures JobInv(Do(w, Recover))
  {
    var u := Do(w, Recover);
    SweepKeeps(w.s, ManagedSessions(w.s));
    BatchesKept(w, u.s);
    forall id: MessageId | Has(u.s, id) && u.s.log[id].status in {InFlight, Delivered}
      ensures u.s.log[id] == w.s.log[id]
    {
    }
    forall id: MessageId | Has(u.s, id) && u.s.log[id].status == InFlight
      ensures exists j :: Holds(u, j, id)
    {
      HoldKept(w, u, id);
    }
    forall id: MessageId | Has(u.s, id) && u.s.log[id].status == Delivered
      ensures exists j :: AcceptedIn(u, j, id)
    {
      AcceptanceKept(w, u, id);
    }
  }

  /** The status a batch starts in. */
  predicate BegunAs(kind: Kind, status: Status) {
    status == if kind == PullJob then Delivered else InFlight
  }

  /** What starting a job does to each envelope: the batch is in flight, or already
      delivered when the recipient pulled it; the rest drifts. */
  lemma BeginEffects(w: World, r: Session, kind: Kind) returns (taken: seq<MessageId>)
    requires QueueInv(w.s) && |LiveIds(w.s)| <= MAX_PERSISTED_MESSAGES
    ensures var u := Begin(w, r, kind);
            var d := Drain(w.s, r, w.now, GateFor(w.s, r, kind));
            && taken == d.ids && QueueOf(u.s, r) == QueueOf(d.state, r)
            && |u.s.log| == |w.s.log| && u.s.live == w.s.live && NoDup(taken)
            && (forall k :: 0 <= k < |taken| ==> Waits(w.s, r, taken[k]) && BegunAs(kind, u.s.log[taken[k]].status))
            && (forall id :: 0 <= id < |w.s.log| && id !in taken ==> Drift(w.s.log[id], u.s.log[id]))
            && (forall r' :: r' != r ==> QueueOf(u.s, r') == QueueOf(w.s, r'))
            && u.jobs == (if taken == [] then w.jobs
                 else if kind == PullJob then
                   w.jobs + [Job(kind, r, taken, true, Some(Accepted), Settled, false, w.now)]
                 else w.jobs + [Job(kind, r, taken, false, None, Open, false, w.now)])
  {
    var gate := GateFor(w.s, r, kind);
    var d := Drain(w.s, r, w.now, gate);
    taken := d.ids;
    DrainPrunesNothing(w.s, r, w.now, gate);
    DrainEffects(w.s, r, w.now, gate);
    if kind == PullJob && taken != [] {
      PulledAtOnce(w.s, d.state, r, taken, w.now);
    }
  }

  /** A pull's commit delivers its whole batch and touches nothing else. */
  lemma PulledAtOnce(s: State, t: State, r: Session, taken: seq<MessageId>, now: int)
    requires DrainsTo(s, r, taken, t)
    ensures var u := Commit(t, r, taken, now, PullTransport);
            && u == t.(log := u.log) && |u.log| == |t.log|
            && (forall k :: 0 <= k < |taken| ==> u.log[taken[k]].status == Delivered)
            && (forall id :: 0 <= id < |t.log| && id !in taken ==> u.log[id] == t.log[id])
  {
    CommitEffects(t, r, taken, now, PullTransport);
    forall k | 0 <= k < |taken|
      ensures InFlightTo(t, r, taken[k])
    {
      assert Waits(s, r, taken[k]);
    }
  }

  lemma BeginKeepsBatches(w: World, r: Session, kind: Kind)
    requires BaseInv(w)
    ensures forall j :: 0 <= j < |Begin(w, r, kind).jobs| ==> BatchOf(Begin(w, r, kind).s, Begin(w, r, kind).jobs[j])
  {
    var u := Begin(w, r, kind);
    var taken := BeginEffects(w, r, kind);
    assert Follows(w.s, u.s) by { BeginKeepsState(w, r, kind); }
    BatchesKept(w, u.s);
    forall k | 0 <= k < |taken|
      ensures taken[k] < |u.s.log| && u.s.log[taken[k]].recipient == r
    {
      assert Waits(w.s, r, taken[k]);
      assert Identity(u.s.log[taken[k]]).recipient == Identity(w.s.log[taken[k]]).recipient;
    }
  }

  /** The envelopes a job starts with have a witness in it; others keep the one they had. */
  lemma BeginKeepsWitnesses(w: World, r: Session, kind: Kind, id: MessageId)
    requires BaseInv(w) && Has(Begin(w, r, kind).s, id)
    ensures Begin(w, r, kind).s.log[id].status == InFlight ==> exists j :: Holds(Begin(w, r, kind), j, id)
    ensures Begin(w, r, kind).s.log[id].status == Delivered ==> exists j :: AcceptedIn(Begin(w, r, kind), j, id)
  {
    var u := Begin(w, r, kind);
    var taken := BeginEffects(w, r, kind);
    if id in taken {
      assert Holds(u, |w.jobs|, id) || AcceptedIn(u, |w.jobs|, id);
    } else {
      assert Drift(w.s.log[id], u.s.log[id]);
      if u.s.log[id].status == InFlight {
        HoldKept(w, u, id);
      } else if u.s.log[id].status == Delivered {
        AcceptanceKept(w, u, id);
      }
    }
  }

  lemma BeginKeepsJobs(w: World, r: Session, kind: Kind)
    requires BaseInv(w)
    ensures JobInv(Begin(w, r, kind))
  {
    var u := Begin(w, r, kind);
    BeginKeepsBatches(w, r, kind);
    assert forall j :: 0 <= j < |u.jobs| && u.jobs[j].fate == Settled ==> u.jobs[j].answer == Some(Accepted) by {
      var taken := BeginEffects(w, r, kind);
    }
    forall id: MessageId | Has(u.s, id)
      ensures u.s.log[id].status == InFlight ==> exists j :: Holds(u, j, id)
      ensures u.s.log[id].status == Delivered ==> exists j :: AcceptedIn(u, j, id)
    {
      BeginKeepsWitnesses(w, r, kind, id);
    }
  }

  lemma StepKeepsBase(w: World, step: Step)
    requires BaseInv(w) && Enabled(w, step)
    ensures BaseInv(Do(w, step))
  {
    StepKeepsState(w, step);
    StepKeepsJobs(w, step);
    assert Do(w, step).now == w.now;
  }

  lemma StepKeepsJobs(w: World, step: Step)
    requires BaseInv(w) && Enabled(w, step)
    ensures JobInv(Do(w, step))
  {
    match step {
      case Act(op) => ActKeepsJobs(w, op);
      case StartJob(r, kind) => BeginKeepsJobs(w, r, kind);
      case CallHost(j) => ReportKeepsJobs(w, j, w.jobs[j].(called := true));
      case HostAnswers(j, answer) => ReportKeepsJobs(w, j, w.jobs[j].(answer := Some(answer)));
      case Confirm(j) => ConfirmKeepsJobs(w, j);
      case GiveBack(j) => GiveBackKeepsJobs(w, j);
      case Die(j) => ReportKeepsJobs(w, j, w.jobs[j].(dead := true));
      case Recover => RecoverKeepsJobs(w);
    }
  }

  lemma LaterIsFine(w: World, now: int)
    requires BaseInv(w) && w.now <= now
    ensures BaseInv(w.(now := now))
  {
    var u := w.(now := now);
    forall id: MessageId | Has(w.s, id) && w.s.log[id].status == InFlight
      ensures exists j :: Holds(u, j, id)
    {
      HoldKept(w, u, id);
    }
    forall id: MessageId | Has(w.s, id) && w.s.log[id].status == Delivered
      ensures exists j :: AcceptedIn(u, j, id)
    {
      AcceptanceKept(w, u, id);
    }
  }

  lemma NextKeepsBase(w: World, e: Event)
    requires BaseInv(w) && Possible(w, e)
    ensures BaseInv(Next(w, e))
  {
    LaterIsFine(w, e.now);
    StepKeepsBase(w.(now := e.now), e.step);
  }

  lemma {:induction false} RunKeepsBase(w: World, trace: seq<Event>)
    requires BaseInv(w) && Legal(w, trace)
    ensures BaseInv(Run(w, trace))
    decreases |trace|
  {
    if trace != [] {
      NextKeepsBase(w, trace[0]);
      RunKeepsBase(Next(w, trace[0]), trace[1..]);
    }
  }
}
