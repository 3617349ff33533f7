/** The two host deliverers as they run (src/hosts/spawn-delivery.ts:295-494,
    src/orchestrator/managed-delivery.ts:75-149). What happens outside the lock is recorded by
    the methods that stand for it, and by nothing else. */
module Deliverers {
  import opened Types
  import opened Retention
  import opened Delivery
  import opened Queues
  import opened System
  import opened LiveState
  import opened Argv
  import opened Conduct

  /** One spawn delivery that began at `start`: the phases in between, and where it ends. */
  ghost predicate SpawnTurn(start: State, phases: seq<Phase<Text>>, r: Session, fixed: seq<Text>,
        frame: Envelope -> Text, platform: Platform, now: int, later: int, outcome: Outcome, ids: seq<MessageId>,
        final: State) {
    var found := if phases == [] then start else phases[0].after;
    && (phases != [] ==> phases[0] == Passed(start, found))
    && match outcome
       case AlreadyActive => phases == [] && ids == [] && final == start
       case OverLong => |phases| <= 1 && ids == [] && final == found && !Fits(found, r, fixed, frame, platform)
       case NoMail =>
         && |phases| == 1 && ids == [] && Fits(found, r, fixed, frame, platform)
         && Drained(final, []) == Drain(found, r, now, None)
       case _ =>
         && |phases| > 1 && Fits(found, r, fixed, frame, platform)
         && Served(PushJob, found, phases[1..], r, ids, now, later, outcome, final)
         && Conveys(phases[1..], Joined(Texts(phases[1].before, frame, ids, false)))
  }

  /** The host is called with `message`, and not at all when that is empty. */
  ghost predicate Conveys(phases: seq<Phase<Text>>, message: Text) {
    if message == [] then phases == [] || |phases| == 1 || !phases[1].Called?
    else |phases| > 1 && phases[1].Called? && phases[1].call == message
  }

  /** How a turn that left the state at `met` is concluded. */
  ghost predicate EndsTurn(ok: bool, met: State, missed: seq<Phase<Text>>, r: Session, ids: seq<MessageId>, later: int,
        outcome: Outcome, final: State) {
    && AllMissed(missed, 0) && Idling(missed, 0) && |missed| <= 2 && (missed != [] ==> missed[0].before == met)
    && var last := if missed == [] then met else missed[|missed| - 1].after;
       if |missed| == 2 then outcome == Unrecorded && final == last
       else if !ok then outcome == GivenBack && final == Requeue(last, r, ids)
       else if missed == [] then outcome == HandedOver && final == Commit(last, r, ids, later, SpawnTransport)
       else outcome == CommitFailed && final == Requeue(last, r, ids)
  }

  lemma TurnConcludes(wait: Phase<Text>, turn: Phase<Text>, ok: bool, missed: seq<Phase<Text>>, r: Session,
        ids: seq<MessageId>, later: int, outcome: Outcome, final: State)
    requires wait.Passed? && turn.Called? && turn.before == wait.after
    requires turn.answer == if ok then Accepted else Refused
    requires EndsTurn(ok, turn.after, missed, r, ids, later, outcome, final)
    ensures Concluded(PushJob, [wait, turn] + missed, r, ids, later, outcome, final)
  {
    var phases := [wait, turn] + missed;
    assert phases[1] == turn && (forall k :: 2 <= k < |phases| ==> phases[k] == missed[k - 2]);
  }

  /** What every state of a run is. */
  ghost predicate Sound(s: State) {
    QueueInv(s) && |LiveIds(s)| <= MAX_PERSISTED_MESSAGES
  }

  /** `call` is the framed envelopes of `ids`, in this order, with just `gap` between them. */
  ghost predicate Spells(s: State, frame: Envelope -> Text, ids: seq<MessageId>, gap: Text, call: Text) {
    exists at :: SpelledAt(s, frame, ids, gap, call, at)
  }

  /** What the host is called with fits the platform's command line, and spells out the batch
      in its order. */
  lemma CallsFit(start: State, phases: seq<Phase<Text>>, r: Session, fixed: seq<Text>, frame: Envelope -> Text,
        platform: Platform, now: int, later: int, outcome: Outcome, ids: seq<MessageId>, final: State)
    requires SpawnTurn(start, phases, r, fixed, frame, platform, now, later, outcome, ids, final)
    ensures forall k :: 0 <= k < |phases| && phases[k].Called? && Sound(phases[0].after) ==>
              && CommandCost(fixed, phases[k].call, platform) <= (if platform.Windows? then 30_000 else 120_000)
              && Spells(phases[0].after, frame, ids, [10, 10, 45, 45, 45, 10, 10], phases[k].call)
  {
    forall k | 0 <= k < |phases| && phases[k].Called? && Sound(phases[0].after)
      ensures CommandCost(fixed, phases[k].call, platform) <= (if platform.Windows? then 30_000 else 120_000)
      ensures Spells(phases[0].after, frame, ids, [10, 10, 45, 45, 45, 10, 10], phases[k].call)
    {
      OnlyCall(PushJob, phases[1..], r, ids, later, outcome, final, k - 1);
      PreparedFits(phases[0].after, r, now, fixed, frame, platform);
      DrainSpells(phases[0].after, r, now, None, frame, SEPARATOR);
    }
  }

  lemma OnlyCall<C>(kind: Kind, phases: seq<Phase<C>>, r: Session, ids: seq<MessageId>, later: int,
        outcome: Outcome, final: State, k: nat)
    requires Concluded(kind, phases, r, ids, later, outcome, final) && k < |phases| && phases[k].Called?
    ensures k == 1
  {
  }

  lemma TrailGoesOn<C>(trail: seq<Phase<C>>, wait: Phase<C>, phases: seq<Phase<C>>, before: seq<Phase<C>>)
    requires before == trail + [wait] && phases != [] && phases[0] == wait
    ensures before + phases[1..] == trail + phases
  {
  }

  lemma RefusedTurn(start: State, phases: seq<Phase<Text>>, r: Session, fixed: seq<Text>, frame: Envelope -> Text,
        platform: Platform, now: int, later: int, final: State)
    requires !Fits(final, r, fixed, frame, platform)
    requires if phases == [] then final == start else phases == [Passed(start, final)]
    ensures SpawnTurn(start, phases, r, fixed, frame, platform, now, later, OverLong, [], final)
  {
  }

  lemma EmptyTurn(start: State, found: State, r: Session, fixed: seq<Text>, frame: Envelope -> Text,
        platform: Platform, now: int, later: int, message: Text, final: State)
    requires Some(Prepared(final, [], message)) == Prepare(found, r, now, fixed, frame, platform)
    ensures SpawnTurn(start, [Passed(start, found)], r, fixed, frame, platform, now, later, NoMail, [], final)
  {
  }

  lemma ServedTurn(start: State, wait: Phase<Text>, phases: seq<Phase<Text>>, r: Session, fixed: seq<Text>,
        frame: Envelope -> Text, platform: Platform, now: int, later: int, outcome: Outcome, ids: seq<MessageId>,
        message: Text, drained: State, final: State)
    requires wait.Passed? && wait.before == start && ids != []
    requires Some(Prepared(drained, ids, message)) == Prepare(wait.after, r, now, fixed, frame, platform)
    requires Concluded(PushJob, phases, r, ids, later, outcome, final) && phases[0].before == drained
    requires Conveys(phases, message)
    ensures SpawnTurn(start, [wait] + phases, r, fixed, frame, platform, now, later, outcome, ids, final)
  {
    assert ([wait] + phases)[1..] == phases && ([wait] + phases)[1] == phases[0];
  }

  /** The framed texts of those of `ids` still held, and pending if `onlyPending`. */
  method FramedTexts(o: StateObject, ids: seq<MessageId>, frame: Envelope -> Text, onlyPending: bool)
      returns (texts: seq<Text>)
    requires o.Valid()
    ensures texts == Texts(o.Value(), frame, ids, onlyPending)
  {
    texts := [];
    var i := |ids|;
    while i > 0
      invariant 0 <= i <= |ids| && texts == Texts(o.Value(), frame, ids[i..], onlyPending)
    {
      i := i - 1;
      assert ids[i..][1..] == ids[i + 1..];
      if ids[i] in o.messages && (onlyPending ==> o.messages[ids[i]].status == Pending) {
        texts := [frame(Identity(o.messages[ids[i]]))] + texts;
      }
    }
  }

  class SpawnDeliverer {
    /** The members a delivery of this process is under way for. */
    var active: set<Session>

    /** For each member, the times its deliveries did not hold the lock; the call is the
        text given to the host. */
    ghost var trails: map<Session, seq<Phase<Text>>>

    constructor ()
      ensures active == {} && trails == map[]
    {
      active, trails := {}, map[];
    }

    ghost function Trail(r: Session): seq<Phase<Text>>
      reads this
    {
      if r in trails then trails[r] else []
    }

    /** Time outside the lock, or waiting for it, on a member this process has reserved: other
        deliverers, senders and sweeps may change the state meanwhile, but no other delivery
        of this process serves this member. */
    method Elapse(o: StateObject, r: Session) returns (ghost phase: Phase<Text>)
      requires o.Valid() && r in active
      modifies this, o
      ensures o.Valid() && r in active && Trail(r) == old(Trail(r)) + [phase]
      ensures phase == Passed(old(o.Value()), o.Value())
    {
      phase := Passed(o.Value(), o.Value());
      trails := trails[r := Trail(r) + [phase]];
    }

    /** The host works on `message`; then the lock for the outcome is waited for. */
    method HostTurn(o: StateObject, r: Session, message: Text) returns (ok: bool, ghost phase: Phase<Text>)
      requires o.Valid() && r in active
      modifies this, o
      ensures o.Valid() && r in active && Trail(r) == old(Trail(r)) + [phase]
      ensures phase == Called(old(o.Value()), o.Value(), message, if ok then Accepted else Refused)
    {
      ok := *;
      phase := Called(o.Value(), o.Value(), message, if ok then Accepted else Refused);
      trails := trails[r := Trail(r) + [phase]];
    }

    /** Whether the outcome can be recorded now; if not, time has passed. */
    method Obtain(o: StateObject, r: Session) returns (obtained: bool, ghost missed: seq<Phase<Text>>)
      requires o.Valid() && r in active
      modifies this, o
      ensures o.Valid() && r in active && Trail(r) == old(Trail(r)) + missed
      ensures obtained ==> missed == [] && o.Value() == old(o.Value())
      ensures !obtained ==> missed == [Missed(old(o.Value()), o.Value())]
    {
      obtained, missed := *, [];
      if !obtained {
        missed := [Missed(o.Value(), o.Value())];
      }
      trails := trails[r := Trail(r) + missed];
    }

    /** The guard before the drain; it lets through everything the exact check would. */
    method PassesEstimate(o: StateObject, r: Session, fixed: seq<Text>, frame: Envelope -> Text,
          platform: Platform) returns (passes: bool)
      requires o.Valid()
      ensures !passes ==> !Fits(o.Value(), r, fixed, frame, platform)
    {
      var pending := FramedTexts(o, if r in o.queues then o.queues[r] else [], frame, true);
      var oversized, estimated := Estimate(pending, OVERHEAD + CostSum(fixed, platform), Budget(platform), platform);
      passes := oversized == {};
      if !passes {
        EstimateAgainstExact(pending, fixed, platform);
      }
    }

    /** The locked first part: nothing if the mail does not fit, else the drain and its text. */
    method DrainFitting(o: StateObject, r: Session, fixed: seq<Text>, frame: Envelope -> Text, platform: Platform,
          now: int) returns (fits: bool, ids: seq<MessageId>, message: Text)
      requires o.Valid()
      modifies o
      ensures o.Valid() && fits == Fits(old(o.Value()), r, fixed, frame, platform)
      ensures !fits ==> o.Value() == old(o.Value()) && ids == []
      ensures fits ==>
                Some(Prepared(o.Value(), ids, message)) == Prepare(old(o.Value()), r, now, fixed, frame, platform)
    {
      ids, message := [], [];
      var pending := FramedTexts(o, if r in o.queues then o.queues[r] else [], frame, true);
      fits := CommandCost(fixed, Joined(pending), platform) <= Budget(platform);
      if fits {
        ids := o.DrainQueue(r, now, None);
        var texts := FramedTexts(o, ids, frame, false);
        message := Joined(texts);
      }
    }

    /** The locked outcome: a commit after an accepted turn, else the batch is given back; a
        give-back is also tried once more when the outcome could not be recorded. */
    method Conclude(o: StateObject, r: Session, ids: seq<MessageId>, ok: bool, later: int)
        returns (outcome: Outcome, ghost missed: seq<Phase<Text>>)
      requires o.Valid() && r in active
      modifies this, o
      ensures o.Valid() && r in active && Trail(r) == old(Trail(r)) + missed
      ensures EndsTurn(ok, old(o.Value()), missed, r, ids, later, outcome, o.Value())
    {
      var obtained;
      obtained, missed := Obtain(o, r);
      if obtained && ok {
        o.CommitDelivery(r, ids, later, SpawnTransport);
        return HandedOver, missed;
      }
      if !obtained {
        ghost var more;
        obtained, more := Obtain(o, r);
        missed := missed + more;
        if !obtained {
          return Unrecorded, missed;
        }
      }
      o.RequeueFailedDelivery(r, ids);
      outcome := if ok then CommitFailed else GivenBack;
    }

    /** What follows the drain: the turn and its outcome, or a batch without text goes back. */
    method Serve(o: StateObject, r: Session, ids: seq<MessageId>, message: Text, later: int)
        returns (outcome: Outcome, ghost phases: seq<Phase<Text>>)
      requires o.Valid() && r in active
      modifies this, o
      ensures o.Valid() && r in active && Trail(r) == old(Trail(r)) + phases
      ensures Concluded(PushJob, phases, r, ids, later, outcome, o.Value())
      ensures phases[0].before == old(o.Value()) && Conveys(phases, message)
    {
      ghost var wait := Elapse(o, r);
      if message == [] {
        var obtained;
        ghost var missed;
        obtained, missed := Obtain(o, r);
        phases := [wait] + missed;
        if !obtained {
          return Unrecorded, phases;
        }
        o.RequeueFailedDelivery(r, ids);
        return Uncalled, phases;
      }
      var ok;
      ghost var turn, missed;
      ok, turn := HostTurn(o, r, message);
      outcome, missed := Conclude(o, r, ids, ok, later);
      TurnConcludes(wait, turn, ok, missed, r, ids, later, outcome, o.Value());
      phases := [wait, turn] + missed;
    }

    /** `deliverViaSpawnInner`: the state found after the estimate decides. */
    method DeliverInner(o: StateObject, r: Session, fixed: seq<Text>, frame: Envelope -> Text, platform: Platform,
          now: int, later: int) returns (outcome: Outcome, ids: seq<MessageId>, ghost phases: seq<Phase<Text>>)
      requires o.Valid() && r in active
      modifies this, o
      ensures o.Valid() && r in active && Trail(r) == old(Trail(r)) + phases && outcome != AlreadyActive
      ensures SpawnTurn(old(o.Value()), phases, r, fixed, frame, platform, now, later, outcome, ids, o.Value())
    {
      ghost var start := o.Value();
      var passes := PassesEstimate(o, r, fixed, frame, platform);
      if !passes {
        RefusedTurn(start, [], r, fixed, frame, platform, now, later, start);
        return OverLong, [], [];
      }
      ghost var wait := Elapse(o, r);
      ghost var before := Trail(r);
      outcome, ids, phases := DrainAndServe(o, r, fixed, frame, platform, now, later, start, wait);
      TrailGoesOn(old(Trail(r)), wait, phases, before);
    }

    method DrainAndServe(o: StateObject, r: Session, fixed: seq<Text>, frame: Envelope -> Text, platform: Platform,
          now: int, later: int, ghost start: State, ghost wait: Phase<Text>)
        returns (outcome: Outcome, ids: seq<MessageId>, ghost phases: seq<Phase<Text>>)
      requires o.Valid() && r in active && wait == Passed(start, o.Value())
      modifies this, o
      ensures o.Valid() && r in active && phases != [] && phases[0] == wait
      ensures Trail(r) == old(Trail(r)) + phases[1..] && outcome != AlreadyActive
      ensures SpawnTurn(start, phases, r, fixed, frame, platform, now, later, outcome, ids, o.Value())
    {
      var fits, message;
      phases := [wait];
      fits, ids, message := DrainFitting(o, r, fixed, frame, platform, now);
      ghost var drained, more := o.Value(), [];
      if !fits {
        RefusedTurn(start, phases, r, fixed, frame, platform, now, later, drained);
        return OverLong, [], phases;
      }
      if ids == [] {
        EmptyTurn(start, wait.after, r, fixed, frame, platform, now, later, message, drained);
        return NoMail, [], phases;
      }
      outcome, more := Serve(o, r, ids, message, later);
      ServedTurn(start, wait, more, r, fixed, frame, platform, now, later, outcome, ids, message, drained, o.Value());
      phases := [wait] + more;
    }

    /** `deliverViaSpawn`: one delivery for a member at a time. `phases` is what its trail gains. */
    method Deliver(o: StateObject, r: Session, fixed: seq<Text>, frame: Envelope -> Text, platform: Platform,
          now: int, later: int) returns (outcome: Outcome, ids: seq<MessageId>, ghost phases: seq<Phase<Text>>)
      requires o.Valid()
      modifies this, o
      ensures o.Valid() && Trail(r) == old(Trail(r)) + phases
      ensures outcome == AlreadyActive <==> r in old(active)
      ensures if r in old(active) then active == old(active) else r !in active
      ensures SpawnTurn(old(o.Value()), phases, r, fixed, frame, platform, now, later, outcome, ids, o.Value())
      ensures forall k :: 0 <= k < |phases| && phases[k].Called? && Sound(phases[0].after) ==>
                && CommandCost(fixed, phases[k].call, platform) <= (if platform.Windows? then 30_000 else 120_000)
                && Spells(phases[0].after, frame, ids, [10, 10, 45, 45, 45, 10, 10], phases[k].call)
    {
      if r in active {
        return AlreadyActive, [], [];
      }
      active := active + {r};
      ghost var start := o.Value();
      outcome, ids, phases := DeliverInner(o, r, fixed, frame, platform, now, later);
      CallsFit(start, phases, r, fixed, frame, platform, now, later, outcome, ids, o.Value());
      active := active - {r};
    }
  }

  /** What joins the framed messages of a prompt. */
  const BLANK_LINE: Text := [10, 10]

  datatype Prompt = Prompt(to: Session, ids: seq<MessageId>, message: Text)

  /** One agent of a tick: where it begins, the phases in between, and where it ends. */
  datatype Turn = Turn(
    r: Session,
    start: State,
    phases: seq<Phase<Prompt>>,
    outcome: Outcome,
    ids: seq<MessageId>,
    final: State)

  /** Nothing is drained unless the host is idle and nothing is in flight to it; what is
      drained is prompted once at most, and ends as its answer says. */
  ghost predicate AgentTurn(turn: Turn, frame: Envelope -> Text, now: int, later: int) {
    && turn.phases != [] && turn.phases[0].Observed? && turn.phases[0].before == turn.start
    && var found := turn.phases[0].after;
       if turn.outcome == NoMail then
         && |turn.phases| == 1 && turn.ids == []
         && (turn.final == found || (turn.phases[0].idle && DrainedNothing(found, turn.r, now, turn.final)))
       else
         && turn.phases[0].idle
         && Served(ManagedJob, found, turn.phases[1..], turn.r, turn.ids, now, later, turn.outcome, turn.final)
         && Prompts(turn.phases) ==
            (if turn.outcome == Uncalled || !turn.phases[2].Called? then [] else [Wanted(turn, frame)])
  }

  /** The prompt of a turn: the framed batch, a blank line between. */
  ghost function Wanted(turn: Turn, frame: Envelope -> Text): Prompt
    requires |turn.phases| > 1
  {
    Prompt(turn.r, turn.ids, JoinedBy(Texts(turn.phases[1].before, frame, turn.ids, false), BLANK_LINE))
  }

  /** It spells out what was drained, in order. */
  lemma PromptSpells(turn: Turn, frame: Envelope -> Text, now: int, later: int, k: nat)
    requires AgentTurn(turn, frame, now, later) && k < |turn.phases| && turn.phases[k].Called?
    requires Sound(turn.phases[0].after)
    ensures turn.phases[k].call.to == turn.r && turn.phases[k].call.ids == turn.ids
    ensures Spells(turn.phases[0].after, frame, turn.ids, [10, 10], turn.phases[k].call.message)
  {
    OnlyCall(ManagedJob, turn.phases[1..], turn.r, turn.ids, later, turn.outcome, turn.final, k - 1);
    OneCall(turn.phases);
    var found := turn.phases[0].after;
    DrainSpells(found, turn.r, now, GateFor(found, turn.r, ManagedJob), frame, BLANK_LINE);
  }

  /** Every prompt of a turn spells out what was drained, a blank line between. */
  ghost predicate PromptsSpell(turn: Turn, frame: Envelope -> Text) {
    turn.phases != [] && forall k :: 0 <= k < |turn.phases| && turn.phases[k].Called? ==>
      Spells(turn.phases[0].after, frame, turn.ids, [10, 10], turn.phases[k].call.message)
  }

  lemma TurnSpells(turn: Turn, frame: Envelope -> Text, now: int, later: int)
    requires AgentTurn(turn, frame, now, later)
    ensures Sound(turn.phases[0].after) ==> PromptsSpell(turn, frame)
  {
    forall k | 0 <= k < |turn.phases| && turn.phases[k].Called? && Sound(turn.phases[0].after)
      ensures Spells(turn.phases[0].after, frame, turn.ids, [10, 10], turn.phases[k].call.message)
    {
      PromptSpells(turn, frame, now, later, k);
    }
  }

  lemma OneCall(phases: seq<Phase<Prompt>>)
    requires |phases| > 2 && !phases[0].Called? && !phases[1].Called? && phases[2].Called? && AllMissed(phases, 3)
    ensures Prompts(phases) == [phases[2].call]
  {
    var rest := phases[3..];
    assert phases == [phases[0]] + ([phases[1]] + ([phases[2]] + rest));
    NothingCalled(rest);
    PromptsOnce(phases[2], rest);
    PromptsOnce(phases[1], [phases[2]] + rest);
    PromptsOnce(phases[0], [phases[1]] + ([phases[2]] + rest));
  }

  lemma {:induction false} NothingCalled(phases: seq<Phase<Prompt>>)
    requires AllMissed(phases, 0)
    ensures Prompts(phases) == []
  {
    if phases != [] {
      assert phases[0].Missed?;
      NothingCalled(phases[1..]);
    }
  }

  ghost predicate DrainedNothing(found: State, r: Session, now: int, final: State) {
    !Busy(found, r) && Drained(final, []) == Drain(found, r, now, GateFor(found, r, ManagedJob))
  }

  /** The prompts made, in order. */
  function Prompts(phases: seq<Phase<Prompt>>): seq<Prompt> {
    if phases == [] then []
    else (if phases[0].Called? then [phases[0].call] else []) + Prompts(phases[1..])
  }

  lemma {:induction false} PromptsJoin(a: seq<Phase<Prompt>>, b: seq<Phase<Prompt>>)
    ensures Prompts(a + b) == Prompts(a) + Prompts(b)
  {
    if a == [] {
      assert a + b == b;
    } else {
      var head := if a[0].Called? then [a[0].call] else [];
      assert (a + b)[0] == a[0] && (a + b)[1..] == a[1..] + b;
      PromptsJoin(a[1..], b);
      assert Prompts(a + b) == head + Prompts(a[1..] + b) && Prompts(a) == head + Prompts(a[1..]);
    }
  }

  lemma PromptsOnce(phase: Phase<Prompt>, rest: seq<Phase<Prompt>>)
    ensures Prompts([phase] + rest) == (if phase.Called? then [phase.call] else []) + Prompts(rest)
    ensures AllMissed(rest, 0) && |rest| <= 1 ==> Prompts(rest) == []
  {
    assert ([phase] + rest)[1..] == rest;
    if |rest| == 1 {
      assert rest[1..] == [];
    }
  }

  lemma CallsOnce(wait: Phase<Prompt>, turn: Phase<Prompt>, missed: seq<Phase<Prompt>>)
    requires wait.Passed? && turn.Called? && AllMissed(missed, 0) && |missed| <= 1
    ensures var phases := [wait, turn] + missed;
            phases[0] == wait && phases[1] == turn && Prompts(phases) == [turn.call]
  {
    PromptsOnce(turn, missed);
    PromptsOnce(wait, [turn] + missed);
    assert [wait, turn] + missed == [wait] + ([turn] + missed);
  }

  lemma TurnWithoutMail(look: Phase<Prompt>, r: Session, final: State, frame: Envelope -> Text, now: int, later: int)
    requires look.Observed?
    requires final == look.after || (look.idle && DrainedNothing(look.after, r, now, final))
    ensures AgentTurn(Turn(r, look.before, [look], NoMail, [], final), frame, now, later)
  {
  }

  lemma TurnWithMail(look: Phase<Prompt>, r: Session, ids: seq<MessageId>, message: Text, drained: State,
        phases: seq<Phase<Prompt>>,
        outcome: Outcome, final: State, frame: Envelope -> Text, now: int, later: int)
    requires look.Observed? && look.idle && !Busy(look.after, r) && ids != []
    requires Drained(drained, ids) == Drain(look.after, r, now, GateFor(look.after, r, ManagedJob))
    requires Concluded(ManagedJob, phases, r, ids, later, outcome, final) && phases[0].before == drained
    requires outcome in {HandedOver, GivenBack, LeftInFlight, Uncalled, Unrecorded}
    requires message == JoinedBy(Texts(drained, frame, ids, false), BLANK_LINE)
    requires Prompts(phases) == if |phases| > 1 && phases[1].Called? then [Prompt(r, ids, message)] else []
    ensures AgentTurn(Turn(r, look.before, [look] + phases, outcome, ids, final), frame, now, later)
  {
    PromptsOnce(look, phases);
    assert ([look] + phases)[1..] == phases && (|phases| > 1 ==> ([look] + phases)[2] == phases[1]);
  }

  lemma UncalledConcludes(wait: Phase<Prompt>, missed: seq<Phase<Prompt>>, r: Session, ids: seq<MessageId>, later: int,
        outcome: Outcome, final: State)
    requires wait.Passed? && |missed| <= 1 && AllMissed(missed, 0)
    requires if missed == [] then outcome == Uncalled && final == Requeue(wait.after, r, ids)
             else outcome == Unrecorded && missed[0].before == wait.after && final == missed[0].after
    ensures Concluded(ManagedJob, [wait] + missed, r, ids, later, outcome, final)
    ensures Prompts([wait] + missed) == []
    ensures |missed| == 1 ==> ([wait] + missed)[1] == missed[0]
  {
    PromptsOnce(wait, missed);
  }

  function AllPhases(turns: seq<Turn>): seq<Phase<Prompt>> {
    if turns == [] then [] else AllPhases(turns[..|turns| - 1]) + turns[|turns| - 1].phases
  }

  /** The agents' turns in order, each from where the last one ended; only the last had mail. */
  ghost predicate InTurn(agents: seq<Session>, turns: seq<Turn>, start: State, final: State,
        frame: Envelope -> Text, now: int, later: int) {
    Chained(agents, turns, start, final) && AllProper(turns, frame, now, later)
  }

  ghost predicate Chained(agents: seq<Session>, turns: seq<Turn>, start: State, final: State) {
    && |turns| <= |agents| && (forall i :: 0 <= i < |turns| ==> turns[i].r == agents[i])
    && (forall i: nat :: i + 1 < |turns| ==> Linked(turns, i))
    && if turns == [] then final == start else turns[0].start == start && turns[|turns| - 1].final == final
  }

  predicate Linked(turns: seq<Turn>, i: nat)
    requires i + 1 < |turns|
  {
    turns[i].outcome == NoMail && turns[i + 1].start == turns[i].final
  }

  ghost predicate AllProper(turns: seq<Turn>, frame: Envelope -> Text, now: int, later: int) {
    forall i {:trigger AgentTurn(turns[i], frame, now, later)} :: 0 <= i < |turns| ==>
      AgentTurn(turns[i], frame, now, later)
  }

  lemma OneMoreProper(turns: seq<Turn>, turn: Turn, frame: Envelope -> Text, now: int, later: int)
    requires AllProper(turns, frame, now, later) && AgentTurn(turn, frame, now, later)
    ensures AllProper(turns + [turn], frame, now, later)
  {
    forall i | 0 <= i < |turns| + 1
      ensures AgentTurn((turns + [turn])[i], frame, now, later)
    {
      if i < |turns| {
        assert (turns + [turn])[i] == turns[i] && AgentTurn(turns[i], frame, now, later);
      } else {
        assert (turns + [turn])[i] == turn;
      }
    }
  }

  lemma OneMoreTurn(agents: seq<Session>, turns: seq<Turn>, turn: Turn, start: State)
    requires Chained(agents, turns, start, turn.start) && |turns| < |agents| && turn.r == agents[|turns|]
    requires turns != [] ==> turns[|turns| - 1].outcome == NoMail
    ensures Chained(agents, turns + [turn], start, turn.final)
  {
    forall i: nat | i + 1 < |turns + [turn]|
      ensures Linked(turns + [turn], i)
    {
      if i + 1 < |turns| {
        assert Linked(turns, i);
      }
    }
  }

  function LastOutcome(turns: seq<Turn>): Outcome {
    if turns == [] then NoMail else turns[|turns| - 1].outcome
  }

  lemma NextTurn(agents: seq<Session>, turns: seq<Turn>, turn: Turn, start: State, frame: Envelope -> Text,
        now: int, later: int)
    requires InTurn(agents, turns, start, turn.start, frame, now, later) && LastOutcome(turns) == NoMail
    requires |turns| < |agents| && turn.r == agents[|turns|] && AgentTurn(turn, frame, now, later)
    ensures InTurn(agents, turns + [turn], start, turn.final, frame, now, later)
    ensures LastOutcome(turns + [turn]) == turn.outcome
    ensures AllPhases(turns + [turn]) == AllPhases(turns) + turn.phases
  {
    OneMoreTurn(agents, turns, turn, start);
    OneMoreProper(turns, turn, frame, now, later);
    PhasesSnoc(turns, turn);
  }

  lemma PhasesSnoc(turns: seq<Turn>, turn: Turn)
    ensures AllPhases(turns + [turn]) == AllPhases(turns) + turn.phases
  {
    assert (turns + [turn])[..|turns|] == turns;
  }

  lemma ProperFront(turns: seq<Turn>, frame: Envelope -> Text, now: int, later: int)
    requires AllProper(turns, frame, now, later) && turns != []
    ensures AllProper(turns[..|turns| - 1], frame, now, later)
  {
    var front := turns[..|turns| - 1];
    forall i | 0 <= i < |front|
      ensures AgentTurn(front[i], frame, now, later)
    {
      assert AgentTurn(turns[i], frame, now, later) && front[i] == turns[i];
    }
  }

  /** Turns without mail make no prompt. */
  lemma {:induction false} NoMailNoPrompts(turns: seq<Turn>, frame: Envelope -> Text, now: int, later: int)
    requires AllProper(turns, frame, now, later) && forall i :: 0 <= i < |turns| ==> turns[i].outcome == NoMail
    ensures Prompts(AllPhases(turns)) == []
  {
    if turns != [] {
      var last := |turns| - 1;
      assert AgentTurn(turns[last], frame, now, later);
      ProperFront(turns, frame, now, later);
      NoMailNoPrompts(turns[..last], frame, now, later);
      PromptsJoin(AllPhases(turns[..last]), turns[last].phases);
      assert turns[last].phases[1..] == [];
    }
  }

  /** A tick prompts at most once, and that is the agent whose turn comes last. */
  lemma AtMostOnePrompt(agents: seq<Session>, turns: seq<Turn>, start: State, final: State,
        frame: Envelope -> Text, now: int, later: int)
    requires InTurn(agents, turns, start, final, frame, now, later)
    ensures var prompts := Prompts(AllPhases(turns));
            && |prompts| <= 1
            && (prompts != [] ==> turns != [] && prompts[0].to == agents[|turns| - 1])
  {
    if turns != [] {
      var last := |turns| - 1;
      forall i | 0 <= i < last
        ensures turns[..last][i].outcome == NoMail
      {
        assert Linked(turns, i);
      }
      assert AgentTurn(turns[last], frame, now, later);
      ProperFront(turns, frame, now, later);
      NoMailNoPrompts(turns[..last], frame, now, later);
      PromptsJoin(AllPhases(turns[..last]), turns[last].phases);
      if turns[last].outcome == NoMail {
        assert turns[last].phases[1..] == [];
      }
    }
  }

  class ManagedDelivery {
    var stopped: bool
    var running: bool

    /** The times ticks did not hold the lock. */
    ghost var trail: seq<Phase<Prompt>>

    constructor ()
      ensures !stopped && !running && trail == []
    {
      stopped, running, trail := false, false, [];
    }

    /** Time outside the lock, or waiting for it: the state may change, and the coordinator
        may be told to stop. */
    method Elapse(o: StateObject) returns (ghost phase: Phase<Prompt>)
      requires o.Valid() && running
      modifies this, o
      ensures o.Valid() && running && (old(stopped) ==> stopped)
      ensures trail == old(trail) + [phase] && phase == Passed(old(o.Value()), o.Value())
    {
      var asked := *;
      phase := Passed(o.Value(), o.Value());
      stopped, trail := stopped || asked, trail + [phase];
    }

    /** Resume the agent's session and ask whether it is idle. */
    method Observe(o: StateObject) returns (idle: bool, ghost phase: Phase<Prompt>)
      requires o.Valid() && running
      modifies this, o
      ensures o.Valid() && running && (old(stopped) ==> stopped)
      ensures trail == old(trail) + [phase] && phase == Observed(old(o.Value()), o.Value(), idle)
    {
      var asked;
      idle, asked := *, *;
      phase := Observed(o.Value(), o.Value(), idle);
      stopped, trail := stopped || asked, trail + [phase];
    }

    /** The runtime at work on a prompt. */
    method RuntimeTurn(o: StateObject, r: Session, ids: seq<MessageId>, message: Text)
        returns (answer: Answer, ghost phase: Phase<Prompt>)
      requires o.Valid() && running
      modifies this, o
      ensures o.Valid() && running && (old(stopped) ==> stopped)
      ensures trail == old(trail) + [phase]
      ensures phase == Called(old(o.Value()), o.Value(), Prompt(r, ids, message), answer)
    {
      var asked;
      answer, asked := *, *;
      phase := Called(o.Value(), o.Value(), Prompt(r, ids, message), answer);
      stopped, trail := stopped || asked, trail + [phase];
    }

    /** Whether the outcome can be recorded now; if not, the tick fails. */
    method Obtain(o: StateObject) returns (obtained: bool, ghost missed: seq<Phase<Prompt>>)
      requires o.Valid() && running
      modifies this, o
      ensures o.Valid() && running && stopped == old(stopped) && trail == old(trail) + missed
      ensures obtained ==> missed == [] && o.Value() == old(o.Value())
      ensures !obtained ==> missed == [Missed(old(o.Value()), o.Value())]
    {
      obtained, missed := *, [];
      if !obtained {
        missed := [Missed(o.Value(), o.Value())];
      }
      trail := trail + missed;
    }

    /** The locked drain: nothing while a prompt for the endpoint is in flight. */
    method DrainIdle(o: StateObject, r: Session, now: int) returns (ids: seq<MessageId>)
      requires o.Valid()
      modifies o
      ensures o.Valid()
      ensures Busy(old(o.Value()), r) ==> ids == [] && o.Value() == old(o.Value())
      ensures !Busy(old(o.Value()), r) ==>
                Drained(o.Value(), ids) == Drain(old(o.Value()), r, now, GateFor(old(o.Value()), r, ManagedJob))
    {
      var inFlight := set id | id in o.messages && o.messages[id].status == InFlight && o.messages[id].recipient == r;
      if inFlight != {} {
        var id :| id in inFlight;
        assert InFlightTo(o.Value(), r, id);
        return [];
      }
      assert forall id: MessageId :: id in o.Value().live && InFlightTo(o.Value(), r, id) ==> id in inFlight;
      ids := o.DrainQueue(r, now, Some(set c | c in o.channels && ManagedOn(o.channels[c], r)));
    }

    /** The locked outcome of a prompt: committed if accepted, given back after an explicit
        failure, left in flight when nobody knows. */
    method Conclude(o: StateObject, r: Session, ids: seq<MessageId>, ghost message: Text, answer: Answer, later: int,
          ghost wait: Phase<Prompt>, ghost turn: Phase<Prompt>)
        returns (outcome: Outcome, ghost missed: seq<Phase<Prompt>>)
      requires o.Valid() && running
      requires wait.Passed? && turn == Called(wait.after, o.Value(), Prompt(r, ids, message), answer)
      modifies this, o
      ensures o.Valid() && running && stopped == old(stopped) && trail == old(trail) + missed
      ensures outcome in {HandedOver, GivenBack, LeftInFlight, Unrecorded}
      ensures Concluded(ManagedJob, [wait, turn] + missed, r, ids, later, outcome, o.Value())
      ensures |missed| <= 1 && AllMissed(missed, 0)
    {
      var obtained;
      obtained, missed := Obtain(o);
      assert ([wait, turn] + missed)[1] == turn;
      if !obtained {
        return Unrecorded, missed;
      }
      match answer {
        case Accepted =>
          o.CommitDelivery(r, ids, later, PushTransport);
          outcome := HandedOver;
        case Refused =>
          o.RequeueFailedDelivery(r, ids);
          outcome := GivenBack;
        case Uncertain =>
          outcome := LeftInFlight;
      }
    }

    /** What follows a drain that took something: the prompt and its outcome; told to stop, the
        tick gives the batch back uncalled. */
    method Serve(o: StateObject, r: Session, ids: seq<MessageId>, message: Text, later: int)
        returns (outcome: Outcome, ghost phases: seq<Phase<Prompt>>)
      requires o.Valid() && running
      modifies this, o
      ensures o.Valid() && running && (old(stopped) ==> stopped) && trail == old(trail) + phases
      ensures outcome in {HandedOver, GivenBack, LeftInFlight, Uncalled, Unrecorded}
      ensures Concluded(ManagedJob, phases, r, ids, later, outcome, o.Value())
      ensures phases[0].before == old(o.Value())
      ensures Prompts(phases) == if |phases| > 1 && phases[1].Called? then [Prompt(r, ids, message)] else []
      ensures outcome == Uncalled ==> stopped
    {
      ghost var wait, turn, missed;
      wait := Elapse(o);
      if stopped {
        var obtained;
        obtained, missed := Obtain(o);
        phases, outcome := [wait] + missed, Unrecorded;
        if obtained {
          o.RequeueFailedDelivery(r, ids);
          outcome := Uncalled;
        }
        UncalledConcludes(wait, missed, r, ids, later, outcome, o.Value());
        return;
      }
      var answer;
      answer, turn := RuntimeTurn(o, r, ids, message);
      outcome, missed := Conclude(o, r, ids, message, answer, later, wait, turn);
      CallsOnce(wait, turn, missed);
      phases := [wait, turn] + missed;
    }

    /** One agent of a tick: drained under the lock, prompted without it, settled under it
        again. A batch goes back only uncalled or after an explicit failure; uncertain, it
        stays in flight. */
    method TickAgent(o: StateObject, r: Session, frame: Envelope -> Text, now: int, later: int)
        returns (outcome: Outcome, ghost turn: Turn)
      requires o.Valid() && running
      modifies this, o
      ensures o.Valid() && running && (old(stopped) ==> stopped) && trail == old(trail) + turn.phases
      ensures turn == Turn(r, old(o.Value()), turn.phases, outcome, turn.ids, o.Value())
      ensures AgentTurn(turn, frame, now, later)
      ensures Sound(turn.phases[0].after) ==> PromptsSpell(turn, frame)
      ensures old(stopped) ==> outcome == NoMail && turn.final == turn.phases[0].after
      ensures outcome == Uncalled ==> stopped
    {
      var idle;
      ghost var look;
      idle, look := Observe(o);
      if !idle || stopped {
        TurnWithoutMail(look, r, o.Value(), frame, now, later);
        return NoMail, Turn(r, look.before, [look], NoMail, [], o.Value());
      }
      ghost var before := trail;
      outcome, turn := DrainAndServe(o, r, frame, now, later, look);
      TrailGoesOn(old(trail), look, turn.phases, before);
      TurnSpells(turn, frame, now, later);
    }

    method DrainAndServe(o: StateObject, r: Session, frame: Envelope -> Text, now: int, later: int,
          ghost look: Phase<Prompt>)
        returns (outcome: Outcome, ghost turn: Turn)
      requires o.Valid() && running && look == Observed(look.before, o.Value(), true)
      modifies this, o
      ensures o.Valid() && running && (old(stopped) ==> stopped) && (outcome == Uncalled ==> stopped)
      ensures turn.phases != [] && turn.phases[0] == look && trail == old(trail) + turn.phases[1..]
      ensures turn == Turn(r, look.before, turn.phases, outcome, turn.ids, o.Value())
      ensures AgentTurn(turn, frame, now, later)
    {
      var ids := DrainIdle(o, r, now);
      ghost var drained, phases := o.Value(), [];
      if ids == [] {
        TurnWithoutMail(look, r, drained, frame, now, later);
        return NoMail, Turn(r, look.before, [look], NoMail, [], drained);
      }
      var texts := FramedTexts(o, ids, frame, false);
      var message := JoinedBy(texts, BLANK_LINE);
      outcome, phases := Serve(o, r, ids, message, later);
      TurnWithMail(look, r, ids, message, drained, phases, outcome, o.Value(), frame, now, later);
      turn := Turn(r, look.before, [look] + phases, outcome, ids, o.Value());
      assert turn.phases[1..] == phases;
    }

    /** `tick`: the agents in turn, until one had mail; a second tick meanwhile, or one after the
        coordinator was told to stop, does nothing. */
    method Tick(o: StateObject, agents: seq<Session>, frame: Envelope -> Text, now: int, later: int)
        returns (outcome: Outcome, ghost turns: seq<Turn>)
      requires o.Valid()
      modifies this, o
      ensures o.Valid() && running == old(running) && trail == old(trail) + AllPhases(turns)
      ensures old(running) || old(stopped) ==> turns == []
      ensures InTurn(agents, turns, old(o.Value()), o.Value(), frame, now, later)
      ensures outcome == LastOutcome(turns)
      ensures outcome == NoMail && |turns| < |agents| ==> old(running) || stopped
      ensures |Prompts(AllPhases(turns))| <= 1
    {
      if running || stopped {
        return NoMail, [];
      }
      running := true;
      ghost var start := o.Value();
      outcome, turns := ServeInTurn(o, agents, frame, now, later);
      running := false;
      AtMostOnePrompt(agents, turns, start, o.Value(), frame, now, later);
    }

    method ServeInTurn(o: StateObject, agents: seq<Session>, frame: Envelope -> Text, now: int, later: int)
        returns (outcome: Outcome, ghost turns: seq<Turn>)
      requires o.Valid() && running
      modifies this, o
      ensures o.Valid() && running && trail == old(trail) + AllPhases(turns)
      ensures InTurn(agents, turns, old(o.Value()), o.Value(), frame, now, later) && outcome == LastOutcome(turns)
      ensures outcome == NoMail && |turns| < |agents| ==> stopped
    {
      outcome, turns := NoMail, [];
      ghost var start := o.Value();
      var i := 0;
      while i < |agents| && !stopped && outcome == NoMail
        invariant i == |turns| <= |agents| && o.Valid() && running && trail == old(trail) + AllPhases(turns)
        invariant InTurn(agents, turns, start, o.Value(), frame, now, later) && outcome == LastOutcome(turns)
        decreases |agents| - i
      {
        outcome, turns := ServeNext(o, agents, i, frame, now, later, start, turns, old(trail));
        i := i + 1;
      }
    }

    method ServeNext(o: StateObject, agents: seq<Session>, i: nat, frame: Envelope -> Text, now: int, later: int,
          ghost start: State,
          ghost turns: seq<Turn>, ghost before: seq<Phase<Prompt>>) returns (outcome: Outcome, ghost more: seq<Turn>)
      requires o.Valid() && running && i == |turns| < |agents| && LastOutcome(turns) == NoMail
      requires InTurn(agents, turns, start, o.Value(), frame, now, later) && trail == before + AllPhases(turns)
      modifies this, o
      ensures o.Valid() && running && |more| == i + 1 && outcome == LastOutcome(more)
      ensures InTurn(agents, more, start, o.Value(), frame, now, later) && trail == before + AllPhases(more)
    {
      ghost var turn;
      outcome, turn := TickAgent(o, agents[i], frame, now, later);
      NextTurn(agents, turns, turn, start, frame, now, later);
      more := turns + [turn];
      assert before + AllPhases(turns) + turn.phases == before + AllPhases(more);
    }
  }
}
