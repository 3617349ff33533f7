/** Where the envelopes of a run come from (src/core/engine.ts:754-778, 899-1062). */
module Origins {
  import opened Types
  import opened Retention
  import opened Delivery
  import opened Sending
  import opened Membership
  import opened Queues
  import opened Effects
  import opened System
  import opened Safety
  import opened Lineage
  import opened Lossless
  import opened SendLaw
  import opened Rosters
  import opened MemberLaw

  /** `e` is what `op` may mint: a letter to an addressee of an acceptable send, or a notice,
      to somebody who stays, of a removal its caller may make. */
  ghost predicate MintedBy(s: State, op: Op, now: int, e: Envelope) {
    match op
    case DoSend(c, draft, sender, operator) =>
      && Accepts(s, c, draft, sender, operator, now)
      && exists i: nat :: Addressee(s.channels[c].members, sender, draft.target, i)
                          && LetterFor(s, c, draft, sender, now, i, e)
    case DoKick(c, caller, id, role) =>
      && c in s.channels
      && exists i: nat, k: nat ::
           && Removes(s.channels[c].members, caller, id, role, i) && k < |s.channels[c].members| && k != i
           && NoticeTo(e, c, if caller.Some? then caller.value else "operator", s.channels[c].members[k].session, now)
    case _ => false
  }

  /** Somewhere in the run an event minted `id` as `e`. */
  ghost predicate Origin(w: World, trace: seq<Event>, id: MessageId, e: Envelope)
    requires Legal(w, trace)
    decreases |trace|
  {
    trace != [] &&
    var next := Next(w, trace[0]);
    || (trace[0].step.Act? && |w.s.log| <= id < |next.s.log| && MintedBy(w.s, trace[0].step.op, trace[0].now, e))
    || Origin(next, trace[1..], id, e)
  }

  lemma LetterIsMinted(s: State, op: Op, now: int, i: nat, e: Envelope)
    requires op.DoSend? && Accepts(s, op.c, op.draft, op.sender, op.operator, now)
    requires Addressee(s.channels[op.c].members, op.sender, op.draft.target, i)
    requires LetterFor(s, op.c, op.draft, op.sender, now, i, e)
    ensures MintedBy(s, op, now, Identity(e))
  {
    assert LetterFor(s, op.c, op.draft, op.sender, now, i, Identity(e));
  }

  lemma SendMintsLetters(s: State, op: Op, now: int, id: MessageId)
    requires op.DoSend? && |s.log| <= id < |Apply(s, op, now).log|
    ensures MintedBy(s, op, now, Identity(Apply(s, op, now).log[id]))
  {
    assert Accepts(s, op.c, op.draft, op.sender, op.operator, now) by {
      AcceptedIff(s, op.c, op.draft, op.sender, op.operator, now);
    }
    var i := LetterAt(s, op.c, op.draft, op.sender, op.operator, now, id);
    LetterIsMinted(s, op, now, i, Apply(s, op, now).log[id]);
  }

  lemma NoticeIsMinted(s: State, op: Op, now: int, i: nat, k: nat, e: Envelope)
    requires op.DoKick? && op.c in s.channels
    requires Removes(s.channels[op.c].members, op.caller, op.targetId, op.targetRole, i)
    requires k < |s.channels[op.c].members| && k != i
    requires NoticeTo(e, op.c, if op.caller.Some? then op.caller.value else "operator",
                      s.channels[op.c].members[k].session, now)
    ensures MintedBy(s, op, now, Identity(e))
  {
    assert NoticeTo(Identity(e), op.c, if op.caller.Some? then op.caller.value else "operator",
                    s.channels[op.c].members[k].session, now);
  }

  lemma KickMintsNotices(s: State, op: Op, now: int, id: MessageId)
    requires QueueInv(s) && RostersInv(s) && op.DoKick? && |s.log| <= id < |Apply(s, op, now).log|
    ensures MintedBy(s, op, now, Identity(Apply(s, op, now).log[id]))
  {
    var ch := s.channels[op.c];
    KickTargetIff(ch, op.caller, op.targetId, op.targetRole);
    var i: nat :| Removes(ch.members, op.caller, op.targetId, op.targetRole, i);
    assert RosterSound(ch);
    NoticesMinted(s, op, now, i, id);
  }

  lemma NoticesMinted(s: State, op: Op, now: int, i: nat, id: MessageId)
    requires QueueInv(s) && op.DoKick? && op.c in s.channels && AllDifferent(s.channels[op.c].members)
    requires Removes(s.channels[op.c].members, op.caller, op.targetId, op.targetRole, i)
    requires |s.log| <= id < |Apply(s, op, now).log|
    requires KickTarget(s.channels[op.c], op.caller, op.targetId, op.targetRole)
          == Some(s.channels[op.c].members[i].session)
    ensures MintedBy(s, op, now, Identity(Apply(s, op, now).log[id]))
  {
    var author := op.caller.GetOr(OPERATOR);
    var v := Expel(s, op.c, author, s.channels[op.c].members[i].session, now);
    assert Apply(s, op, now).log == v.log;
    var k := NoticeAmong(s, op.c, author, i, now, id);
    NoticeIsMinted(s, op, now, i, k, v.log[id]);
  }

  lemma StepMints(w: World, step: Step, id: MessageId)
    requires BaseInv(w) && RostersInv(w.s) && Enabled(w, step)
    requires |w.s.log| <= id < |Do(w, step).s.log|
    ensures step.Act? && MintedBy(w.s, step.op, w.now, Identity(Do(w, step).s.log[id]))
  {
    if !step.Act? {
      DeliveryMintsNothing(w, step);
    } else {
      match step.op {
        case DoSend(_, _, _, _) => SendMintsLetters(w.s, step.op, w.now, id);
        case DoKick(_, _, _, _) => KickMintsNotices(w.s, step.op, w.now, id);
        case DoDisconnect(c, m) => if c in w.s.channels { RemoveForm(w.s, c, m, w.now); }
        case _ =>
      }
    }
  }

  lemma {:induction false} RunMints(w: World, trace: seq<Event>, id: MessageId)
    requires BaseInv(w) && RostersInv(w.s) && Legal(w, trace) && |w.s.log| <= id < |Run(w, trace).s.log|
    ensures Origin(w, trace, id, Identity(Run(w, trace).s.log[id]))
    decreases |trace|
  {
    if trace != [] {
      var e, rest := trace[0], trace[1..];
      var next := Next(w, e);
      LaterIsFine(w, e.now);
      StepKeepsRosters(w.(now := e.now), e.step);
      NextKeepsBase(w, e);
      if id < |next.s.log| {
        StepMints(w.(now := e.now), e.step, id);
        RecordIsStable(next, rest);
        assert Identity(Run(next, rest).s.log[id]) == Identity(next.s.log[id]);
      } else {
        RunMints(next, rest, id);
      }
    }
  }

  /** Every envelope of every run, whatever became of it, is a letter some acceptable send
      wrote to one of its addressees, on an open channel and from one of its members or the
      operator, or the notice of a permitted removal to somebody who stayed. */
  lemma EveryEnvelopeHasItsOrigin(trace: seq<Event>, id: MessageId)
    requires Legal(START, trace) && id < |Run(START, trace).s.log|
    ensures Origin(START, trace, id, Identity(Run(START, trace).s.log[id]))
  {
    RunMints(START, trace, id);
  }
}
