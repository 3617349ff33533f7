/** Managed delivery never replays a prompt whose outcome is not an explicit failure
    (src/orchestrator/managed-delivery.ts:78-144), with any number of coordinators ticking
    and dying at any point. */
module NoReplay {
  import opened Seqs
  import opened Types
  import opened Retention
  import opened Delivery
  import opened Membership
  import opened Queues
  import opened Effects
  import opened System
  import opened Safety

  /** A batch for `m` that was not given back. */
  predicate Outstanding(w: World, j: nat, m: Session) {
    j < |w.jobs| && w.jobs[j].session == m && w.jobs[j].fate != Returned
  }

  ghost predicate OutstandingNotPending(w: World, m: Session) {
    forall j: nat, i :: Outstanding(w, j, m) && 0 <= i < |w.jobs[j].ids| ==> !Waits(w.s, m, w.jobs[j].ids[i])
  }

  ghost predicate OutstandingDisjoint(w: World, m: Session) {
    forall j: nat, k: nat, id :: Outstanding(w, j, m) && Outstanding(w, k, m) && j != k ==>
      !(id in w.jobs[j].ids && id in w.jobs[k].ids)
  }

  ghost predicate ReturnedOnlyAfterFailure(w: World, m: Session) {
    forall j :: 0 <= j < |w.jobs| && w.jobs[j].session == m ==>
      && w.jobs[j].kind != PushJob
      && (w.jobs[j].fate == Returned ==> !w.jobs[j].called || w.jobs[j].answer == Some(Refused))
  }

  ghost predicate OneBatchInFlight(w: World, m: Session) {
    forall j: nat, id, id' ::
      Outstanding(w, j, m) && id in w.jobs[j].ids && InFlightTo(w.s, m, id) && InFlightTo(w.s, m, id') ==>
        id' in w.jobs[j].ids
  }

  ghost predicate NoReplayInv(w: World, m: Session) {
    && OutstandingNotPending(w, m)
    && OutstandingDisjoint(w, m)
    && ReturnedOnlyAfterFailure(w, m)
    && OneBatchInFlight(w, m)
  }

  /** `m` is delivered only by the coordinator's loop and its own pulls, and is a managed
      endpoint whenever a process start sweeps. */
  predicate Coordinated(w: World, step: Step, m: Session) {
    && step != StartJob(m, PushJob)
    && (step == Recover ==> Managed(w.s, m))
  }

  /** What the steps other than a start for `m` and a give-back to `m` leave of `m`'s mail:
      nothing becomes pending, nothing goes in flight. */
  ghost predicate MailSettles(s: State, t: State, m: Session) {
    && |s.log| <= |t.log|
    && (forall id :: 0 <= id < |s.log| && Waits(t, m, id) ==> Waits(s, m, id))
    && (forall id: MessageId :: InFlightTo(t, m, id) ==> InFlightTo(s, m, id))
  }

  lemma KeptWhenMailSettles(w: World, u: World, m: Session)
    requires BaseInv(w) && NoReplayInv(w, m) && MailSettles(w.s, u.s, m)
    requires JobsExtend(w, u) && |u.jobs| == |w.jobs|
    requires forall j :: 0 <= j < |w.jobs| ==>
               u.jobs[j].fate == w.jobs[j].fate || w.jobs[j].session != m || u.jobs[j].fate == Settled
    requires forall j :: 0 <= j < |w.jobs| && w.jobs[j].fate == Returned ==> u.jobs[j] == w.jobs[j]
    ensures NoReplayInv(u, m)
  {
    forall j: nat, i | Outstanding(u, j, m) && 0 <= i < |u.jobs[j].ids|
      ensures !Waits(u.s, m, u.jobs[j].ids[i])
    {
      assert Outstanding(w, j, m) && BatchOf(w.s, w.jobs[j]);
    }
    forall j: nat | Outstanding(u, j, m) ensures Outstanding(w, j, m) {}
  }

  lemma ActSettles(w: World, op: Op, m: Session)
    requires BaseInv(w)
    ensures MailSettles(w.s, Do(w, Act(op)).s, m)
  {
    var t := Do(w, Act(op)).s;
    ApplyKeeps(w.s, op, w.now);
    forall id: MessageId | Has(t, id) && id < |w.s.log|
      ensures Has(w.s, id) && Drift(w.s.log[id], t.log[id])
    {
    }
  }

  lemma ForeignStartSettles(w: World, r: Session, kind: Kind, m: Session)
    requires BaseInv(w) && r != m
    ensures MailSettles(w.s, Begin(w, r, kind).s, m)
  {
    var t := Begin(w, r, kind).s;
    assert |t.log| == |w.s.log| && t.live == w.s.live by { BeginKeepsState(w, r, kind); }
    forall id: MessageId | id < |w.s.log| && t.log[id].recipient == m
      ensures Drift(w.s.log[id], t.log[id])
    {
      ForeignDrifts(w, r, kind, m, id);
    }
  }

  lemma ForeignDrifts(w: World, r: Session, kind: Kind, m: Session, id: MessageId)
    requires BaseInv(w) && r != m && id < |w.s.log|
    requires |Begin(w, r, kind).s.log| == |w.s.log| && Begin(w, r, kind).s.log[id].recipient == m
    ensures Drift(w.s.log[id], Begin(w, r, kind).s.log[id])
  {
    var t := Begin(w, r, kind).s;
    var taken := BeginEffects(w, r, kind);
    assert Follows(w.s, t) by { BeginKeepsState(w, r, kind); }
    assert Identity(t.log[id]).recipient == Identity(w.s.log[id]).recipient;
    assert forall k :: 0 <= k < |taken| ==> Waits(w.s, r, taken[k]);
    assert id !in taken;
  }

  lemma ForeignStartKeeps(w: World, r: Session, kind: Kind, m: Session)
    requires BaseInv(w) && NoReplayInv(w, m) && r != m
    ensures NoReplayInv(Begin(w, r, kind), m)
  {
    var u := Begin(w, r, kind);
    ForeignStartSettles(w, r, kind, m);
    var taken := BeginEffects(w, r, kind);
    KeptWhenMailSettles(w, w.(s := u.s), m);
    forall j: nat | Outstanding(u, j, m) ensures Outstanding(w.(s := u.s), j, m) && u.jobs[j] == w.jobs[j] {}
  }

  /** Starting a batch for `m` takes only pending mail, so it overlaps no outstanding one;
      a managed start finds nothing in flight, and a pull leaves nothing in flight. */
  lemma OwnStartKeeps(w: World, kind: Kind, m: Session)
    requires BaseInv(w) && NoReplayInv(w, m) && Enabled(w, StartJob(m, kind)) && kind != PushJob
    ensures NoReplayInv(Begin(w, m, kind), m)
  {
    var u := Begin(w, m, kind);
    var taken := BeginEffects(w, m, kind);
    forall j: nat | Outstanding(u, j, m)
      ensures j < |w.jobs| ==> Outstanding(w, j, m) && u.jobs[j] == w.jobs[j]
      ensures j >= |w.jobs| ==> u.jobs[j].ids == taken && j == |w.jobs|
    {
    }
    forall j: nat, id | Outstanding(w, j, m) && id in w.jobs[j].ids
      ensures id !in taken
    {
      var i :| 0 <= i < |w.jobs[j].ids| && w.jobs[j].ids[i] == id;
      assert !Waits(w.s, m, w.jobs[j].ids[i]);
    }
    forall id: MessageId | id < |w.s.log| && Has(u.s, id) && id !in taken
      ensures Has(w.s, id) && Drift(w.s.log[id], u.s.log[id])
    {
    }
    assert OutstandingNotPending(u, m) by {
      forall j: nat, i | Outstanding(u, j, m) && 0 <= i < |u.jobs[j].ids|
        ensures !Waits(u.s, m, u.jobs[j].ids[i])
      {
        assert j < |w.jobs| ==> BatchOf(w.s, w.jobs[j]) && !Waits(w.s, m, w.jobs[j].ids[i]);
      }
    }
    assert OneBatchInFlight(u, m) by {
      OwnStartOneBatch(w, kind, m);
    }
  }

  lemma OwnStartOneBatch(w: World, kind: Kind, m: Session)
    requires BaseInv(w) && NoReplayInv(w, m) && Enabled(w, StartJob(m, kind)) && kind != PushJob
    ensures OneBatchInFlight(Begin(w, m, kind), m)
  {
    var u := Begin(w, m, kind);
    var taken := BeginEffects(w, m, kind);
    forall id: MessageId | InFlightTo(u.s, m, id)
      ensures if kind == PullJob then id !in taken && InFlightTo(w.s, m, id) else id in taken
    {
      if id !in taken {
        assert Drift(w.s.log[id], u.s.log[id]);
        assert InFlightTo(w.s, m, id);
      }
    }
    forall j: nat, id, id' |
      Outstanding(u, j, m) && id in u.jobs[j].ids && InFlightTo(u.s, m, id) && InFlightTo(u.s, m, id')
      ensures id' in u.jobs[j].ids
    {
      if j < |w.jobs| {
        assert Outstanding(w, j, m) && id in w.jobs[j].ids;
      }
    }
  }

  lemma ConfirmKeeps(w: World, j: nat, m: Session)
    requires BaseInv(w) && NoReplayInv(w, m) && Enabled(w, Confirm(j))
    ensures NoReplayInv(Do(w, Confirm(j)), m)
  {
    var u, job := Do(w, Confirm(j)), w.jobs[j];
    CommitSettles(w.s, job.session, job.ids, w.now, TransportOf(job.kind), m);
    KeptWhenMailSettles(w, u, m);
  }

  lemma CommitSettles(s: State, r: Session, ids: seq<MessageId>, now: int, transport: Transport, m: Session)
    ensures MailSettles(s, Commit(s, r, ids, now, transport), m)
  {
    CommitEffects(s, r, ids, now, transport);
  }

  /** What a give-back to `m` or to another session makes pending again was in that batch. */
  lemma GivenBack(w: World, j: nat, m: Session, id: MessageId)
    requires BaseInv(w) && Enabled(w, GiveBack(j)) && id < |w.s.log|
    ensures var t := Do(w, GiveBack(j)).s;
            && |t.log| == |w.s.log|
            && (InFlightTo(t, m, id) ==> InFlightTo(w.s, m, id))
            && (Waits(t, m, id) && !Waits(w.s, m, id) ==> id in w.jobs[j].ids && w.jobs[j].session == m)
  {
    var job := w.jobs[j];
    RequeueEffects(w.s, job.session, job.ids);
    assert BatchOf(w.s, job);
  }

  lemma GiveBackKeeps(w: World, j: nat, m: Session)
    requires BaseInv(w) && NoReplayInv(w, m) && Enabled(w, GiveBack(j))
    ensures NoReplayInv(Do(w, GiveBack(j)), m)
  {
    var u := Do(w, GiveBack(j));
    forall k: nat | Outstanding(u, k, m)
      ensures k != j && Outstanding(w, k, m) && u.jobs[k] == w.jobs[k]
    {
    }
    forall k: nat, i | Outstanding(u, k, m) && 0 <= i < |u.jobs[k].ids|
      ensures !Waits(u.s, m, u.jobs[k].ids[i])
    {
      var id := w.jobs[k].ids[i];
      assert BatchOf(w.s, w.jobs[k]) && !Waits(w.s, m, id);
      assert w.jobs[j].session == m ==> Outstanding(w, j, m);
      GivenBack(w, j, m, id);
    }
    forall id: MessageId | InFlightTo(u.s, m, id)
      ensures InFlightTo(w.s, m, id)
    {
      assert |u.s.log| == |w.s.log| by { RequeueEffects(w.s, w.jobs[j].session, w.jobs[j].ids); }
      GivenBack(w, j, m, id);
    }
  }

  lemma RecoverKeeps(w: World, m: Session)
    requires BaseInv(w) && NoReplayInv(w, m) && Managed(w.s, m)
    ensures NoReplayInv(Do(w, Recover), m)
  {
    var u := Do(w, Recover);
    var c :| c in w.s.channels && ManagedOn(w.s.channels[c], m);
    var i :| 0 <= i < |w.s.channels[c].members| && w.s.channels[c].members[i].session == m;
    assert ManagedOn(w.s.channels[c], w.s.channels[c].members[i].session);
    assert m in ManagedSessions(w.s);
    assert MailSettles(w.s, u.s, m);
    KeptWhenMailSettles(w, u, m);
  }

  lemma StepKeepsNoReplay(w: World, step: Step, m: Session)
    requires BaseInv(w) && NoReplayInv(w, m) && Enabled(w, step) && Coordinated(w, step, m)
    ensures NoReplayInv(Do(w, step), m)
  {
    match step {
      case Act(op) =>
        ActSettles(w, op, m);
        KeptWhenMailSettles(w, Do(w, step), m);
      case StartJob(r, kind) =>
        if r == m { OwnStartKeeps(w, kind, m); } else { ForeignStartKeeps(w, r, kind, m); }
      case CallHost(j) => ReportKeepsNoReplay(w, j, w.jobs[j].(called := true), m);
      case HostAnswers(j, answer) => ReportKeepsNoReplay(w, j, w.jobs[j].(answer := Some(answer)), m);
      case Confirm(j) => ConfirmKeeps(w, j, m);
      case GiveBack(j) => GiveBackKeeps(w, j, m);
      case Die(j) => ReportKeepsNoReplay(w, j, w.jobs[j].(dead := true), m);
      case Recover => RecoverKeeps(w, m);
    }
  }

  lemma ReportKeepsNoReplay(w: World, j: nat, job: Job, m: Session)
    requires BaseInv(w) && NoReplayInv(w, m) && j < |w.jobs| && w.jobs[j].fate == Open
    requires job.ids == w.jobs[j].ids && job.session == w.jobs[j].session && job.kind == w.jobs[j].kind
    requires job.fate == w.jobs[j].fate && (w.jobs[j].answer.Some? ==> job.answer == w.jobs[j].answer)
    ensures NoReplayInv(WithJob(w, j, job), m)
  {
    ReportKeepsJobs(w, j, job);
    KeptWhenMailSettles(w, WithJob(w, j, job), m);
  }

  ghost predicate CoordinatedRun(w: World, trace: seq<Event>, m: Session)
    requires Legal(w, trace)
    decreases |trace|
  {
    trace != [] ==>
      && Coordinated(w.(now := trace[0].now), trace[0].step, m)
      && CoordinatedRun(Next(w, trace[0]), trace[1..], m)
  }

  lemma {:induction false} RunKeepsNoReplay(w: World, trace: seq<Event>, m: Session)
    requires BaseInv(w) && NoReplayInv(w, m) && Legal(w, trace) && CoordinatedRun(w, trace, m)
    ensures BaseInv(Run(w, trace)) && NoReplayInv(Run(w, trace), m)
    decreases |trace|
  {
    if trace != [] {
      var w1 := w.(now := trace[0].now);
      LaterIsFine(w, trace[0].now);
      KeptWhenMailSettles(w, w1, m);
      NextKeepsBase(w, trace[0]);
      StepKeepsNoReplay(w1, trace[0].step, m);
      RunKeepsNoReplay(Next(w, trace[0]), trace[1..], m);
    }
  }

  /** Of all the batches that ever held an envelope for a managed endpoint, at most one was
      not given back; every other was given back after an explicit refusal or before any
      call was made. So at most one host call for it ended accepted, uncertain or in a
      crash, and all in-flight mail of the endpoint belongs to one batch. */
  lemma ManagedNeverReplays(trace: seq<Event>, m: Session, id: MessageId, j: nat, k: nat)
    requires Legal(START, trace) && CoordinatedRun(START, trace, m)
    requires var w := Run(START, trace);
             && j < |w.jobs| && k < |w.jobs| && j != k
             && w.jobs[j].session == m && w.jobs[k].session == m
             && id in w.jobs[j].ids && id in w.jobs[k].ids
    ensures var w := Run(START, trace);
            exists x: nat :: (x == j || x == k) && w.jobs[x].fate == Returned
              && (!w.jobs[x].called || w.jobs[x].answer == Some(Refused))
  {
    RunKeepsNoReplay(START, trace, m);
    var w := Run(START, trace);
    assert !(Outstanding(w, j, m) && Outstanding(w, k, m));
    var x := if Outstanding(w, j, m) then k else j;
    assert w.jobs[x].fate == Returned;
  }

  /** Batch `j` is outstanding and holds all of `m`'s in-flight mail. */
  ghost predicate HoldsAllInFlight(w: World, j: nat, m: Session) {
    Outstanding(w, j, m) && forall id: MessageId :: InFlightTo(w.s, m, id) ==> id in w.jobs[j].ids
  }

  lemma OneBatchHoldsAll(w: World, m: Session)
    requires BaseInv(w) && NoReplayInv(w, m) && Busy(w.s, m)
    ensures exists j :: HoldsAllInFlight(w, j, m)
  {
    var id :| id in w.s.live && InFlightTo(w.s, m, id);
    var j: nat :| Holds(w, j, id);
    assert BatchOf(w.s, w.jobs[j]);
    assert HoldsAllInFlight(w, j, m);
  }

  lemma ManagedInFlightIsOneBatch(trace: seq<Event>, m: Session)
    requires Legal(START, trace) && CoordinatedRun(START, trace, m)
    requires Busy(Run(START, trace).s, m)
    ensures exists j :: HoldsAllInFlight(Run(START, trace), j, m)
  {
    var w := Run(START, trace);
    assert BaseInv(w) && NoReplayInv(w, m) by { RunKeepsNoReplay(START, trace, m); }
    OneBatchHoldsAll(w, m);
  }
}
