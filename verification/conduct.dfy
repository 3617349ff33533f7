/** What a host deliverer does with one batch, and that it is a run of the system: a locked
    drain, an unlocked host call during which anything else may happen, a locked outcome. */
module Conduct {
  import opened Types
  import opened Retention
  import opened Delivery
  import opened System
  import opened Runs

  datatype Outcome =
    | AlreadyActive
    | OverLong
    | NoMail
    | HandedOver
    | GivenBack
    | LeftInFlight
    | Uncalled
    | CommitFailed
    | Unrecorded

  /** One stretch of time in which a deliverer does not hold the lock: the state it left and
      the state it finds. `Observed` is a look at the host, `Called` the host at work on its
      call, `Missed` a locked section that failed and changed nothing. */
  datatype Phase<C> =
    | Passed(before: State, after: State)
    | Observed(before: State, after: State, idle: bool)
    | Called(before: State, after: State, call: C, answer: Answer)
    | Missed(before: State, after: State)

  /** The batch is what a drain of the state it found hands over. */
  ghost predicate Drew(kind: Kind, found: State, r: Session, now: int, ids: seq<MessageId>) {
    && ids != [] && ids == Drain(found, r, now, GateFor(found, r, kind)).ids
    && (kind == ManagedJob ==> !Busy(found, r))
  }

  /** Between the phases from the `i`-th on the deliverer leaves the state alone. */
  ghost predicate Idling<C>(phases: seq<Phase<C>>, i: nat) {
    forall k :: i < k < |phases| ==> phases[k].before == phases[k - 1].after
  }

  /** From the `i`-th phase on every locked section failed. */
  ghost predicate AllMissed<C>(phases: seq<Phase<C>>, i: nat) {
    forall k :: i <= k < |phases| ==> phases[k].Missed?
  }

  /** How a batch ends, from the phases behind its drain: the first before any call, then the
      call if there is one, then the locked sections that failed. */
  ghost predicate Concluded<C>(kind: Kind, phases: seq<Phase<C>>, r: Session, ids: seq<MessageId>, later: int,
        outcome: Outcome, final: State) {
    && phases != [] && phases[0].Passed? && Idling(phases, 0)
    && var met := phases[|phases| - 1].after;
       if |phases| == 1 || !phases[1].Called? then
         && AllMissed(phases, 1)
         && if outcome == Uncalled then |phases| == 1 && final == Requeue(met, r, ids)
            else outcome == Unrecorded && |phases| == 2 && final == met
       else
         && AllMissed(phases, 2)
         && (kind == PushJob ==> phases[1].answer != Uncertain)
         && match outcome
            case HandedOver =>
              |phases| == 2 && phases[1].answer == Accepted && final == Commit(met, r, ids, later, TransportOf(kind))
            case GivenBack =>
              && (kind == ManagedJob ==> |phases| == 2)
              && phases[1].answer == Refused && final == Requeue(met, r, ids)
            case CommitFailed =>
              kind == PushJob && |phases| == 3 && phases[1].answer == Accepted && final == Requeue(met, r, ids)
            case LeftInFlight =>
              kind == ManagedJob && |phases| == 2 && phases[1].answer == Uncertain && final == met
            case Unrecorded => |phases| > 2 && final == met
            case _ => false
  }

  /** A batch is drained from the state `found`, and the phases behind it conclude it. */
  ghost predicate Served<C>(kind: Kind, found: State, phases: seq<Phase<C>>, r: Session, ids: seq<MessageId>,
        now: int, later: int, outcome: Outcome, final: State) {
    && Drew(kind, found, r, now, ids) && Concluded(kind, phases, r, ids, later, outcome, final)
    && phases[0].before == Drain(found, r, now, GateFor(found, r, kind)).state
  }

  /** `step` is one of batch `j`'s own. */
  predicate Concerns(step: Step, j: nat) {
    match step
    case CallHost(k) => k == j
    case HostAnswers(k, _) => k == j
    case Confirm(k) => k == j
    case GiveBack(k) => k == j
    case Die(k) => k == j
    case _ => false
  }

  ghost predicate Foreign(trace: seq<Event>, j: nat) {
    forall i :: 0 <= i < |trace| ==> !Concerns(trace[i].step, j)
  }

  /** What everybody else does leaves a batch as it is. */
  lemma {:induction false} ForeignKeepsJob(w: World, trace: seq<Event>, j: nat)
    requires Legal(w, trace) && Foreign(trace, j) && j < |w.jobs|
    ensures j < |Run(w, trace).jobs| && Run(w, trace).jobs[j] == w.jobs[j]
    decreases |trace|
  {
    if trace != [] {
      assert !Concerns(trace[0].step, j);
      assert Foreign(trace[1..], j);
      ForeignKeepsJob(Next(w, trace[0]), trace[1..], j);
    }
  }

  /** The batch's own events at its end: its answer and what follows from it. */
  function Ending(j: nat, answer: Answer, outcome: Outcome, later: int): seq<Event> {
    [Event(later, HostAnswers(j, answer))]
    + match outcome
      case HandedOver => [Event(later, Confirm(j))]
      case GivenBack => [Event(later, GiveBack(j))]
      case CommitFailed => [Event(later, GiveBack(j))]
      case Unrecorded => [Event(later, Die(j))]
      case _ => []
  }

  /** The batch in the system's books once its delivery is over. */
  function Booked(kind: Kind, r: Session, ids: seq<MessageId>, at: int, answer: Option<Answer>, outcome: Outcome): Job {
    Job(kind, r, ids, answer.Some?, answer,
        FateOf(outcome), outcome == Unrecorded, at)
  }

  function FateOf(outcome: Outcome): Fate {
    match outcome
    case HandedOver => Settled
    case LeftInFlight => Open
    case Unrecorded => Open
    case _ => Returned
  }

  /** The events of one delivery: its own, and those of everybody else between them. */
  function Story(r: Session, kind: Kind, now: int, first: seq<Event>, rest: seq<Event>): seq<Event> {
    [Event(now, StartJob(r, kind))] + first + rest
  }

  lemma StartsJob(w: World, r: Session, kind: Kind, now: int, ids: seq<MessageId>)
    requires w.now <= now && kind != PullJob && Drew(kind, w.s, r, now, ids)
    ensures var start := Event(now, StartJob(r, kind));
            && Possible(w, start)
            && Next(w, start).s == Drain(w.s, r, now, GateFor(w.s, r, kind)).state && Next(w, start).now == now
            && Next(w, start).jobs == w.jobs + [Job(kind, r, ids, false, None, Open, false, now)]
  {
  }

  /** Two events in a row. */
  lemma TwoStepRun(w: World, a: Event, b: Event)
    requires Possible(w, a) && Possible(Next(w, a), b)
    ensures Legal(w, [a] + [b]) && Run(w, [a] + [b]) == Next(Next(w, a), b)
  {
    OneStepRun(w, a);
    OneStepRun(Next(w, a), b);
    RunsJoin(w, [a], [b]);
  }

  /** A called batch ends as its outcome says. */
  lemma EndsAs(w: World, j: nat, kind: Kind, r: Session, ids: seq<MessageId>, answer: Answer, outcome: Outcome,
        later: int)
    requires j < |w.jobs| && w.now <= later
    requires outcome in {HandedOver, GivenBack, CommitFailed, LeftInFlight, Unrecorded}
    requires w.jobs[j] == Job(kind, r, ids, true, None, Open, false, w.jobs[j].at)
    requires kind == PushJob ==> answer != Uncertain
    requires outcome == HandedOver ==> answer == Accepted
    requires outcome == GivenBack ==> answer == Refused
    requires outcome == CommitFailed ==> answer == Accepted && kind == PushJob
    ensures Legal(w, Ending(j, answer, outcome, later))
    ensures var u := Run(w, Ending(j, answer, outcome, later));
            j < |u.jobs| && u.jobs[j] == Booked(kind, r, ids, w.jobs[j].at, Some(answer), outcome)
    ensures Run(w, Ending(j, answer, outcome, later)).s ==
            if outcome == HandedOver then Commit(w.s, r, ids, later, TransportOf(kind))
            else if outcome in {GivenBack, CommitFailed} then Requeue(w.s, r, ids) else w.s
  {
    var answers := Event(later, HostAnswers(j, answer));
    assert Possible(w, answers);
    var u := Next(w, answers);
    match outcome {
      case HandedOver => TwoStepRun(w, answers, Event(later, Confirm(j)));
      case GivenBack => TwoStepRun(w, answers, Event(later, GiveBack(j)));
      case CommitFailed => TwoStepRun(w, answers, Event(later, GiveBack(j)));
      case Unrecorded => TwoStepRun(w, answers, Event(later, Die(j)));
      case LeftInFlight =>
        assert [answers] + [] == [answers];
        OneStepRun(w, answers);
    }
  }

  /** What the others did between the drain and the call, or the end if there is no call. */
  ghost predicate Meanwhile(w: World, trace: seq<Event>, j: nat, after: State, until: int) {
    Legal(w, trace) && Foreign(trace, j) && Run(w, trace).s == after && Run(w, trace).now <= until
  }

  /** A delivery that makes no call is a run: the batch is started and given back uncalled,
      or its deliverer is gone. */
  lemma UncalledIsARun<C>(w: World, kind: Kind, phases: seq<Phase<C>>, r: Session, ids: seq<MessageId>, now: int,
        later: int, outcome: Outcome, final: State, others: seq<Event>)
    requires kind != PullJob && Served(kind, w.s, phases, r, ids, now, later, outcome, final)
    requires |phases| == 1 || !phases[1].Called?
    requires w.now <= now
    requires Meanwhile(Next(w, Event(now, StartJob(r, kind))), others, |w.jobs|, phases[|phases| - 1].after, later)
    ensures var j := |w.jobs|;
            var last := Event(later, if outcome == Uncalled then GiveBack(j) else Die(j));
            var trace := Story(r, kind, now, others, [last]);
            && Legal(w, trace) && Run(w, trace).s == final
            && j < |Run(w, trace).jobs| && Run(w, trace).jobs[j] == Booked(kind, r, ids, now, None, outcome)
  {
    var j := |w.jobs|;
    var start := Event(now, StartJob(r, kind));
    var last := Event(later, if outcome == Uncalled then GiveBack(j) else Die(j));
    StartsJob(w, r, kind, now, ids);
    var w1 := Next(w, start);
    ForeignKeepsJob(w1, others, j);
    OneStepRun(w, start);
    RunsJoin(w, [start], others);
    OneStepRun(Run(w1, others), last);
    RunsJoin(w, [start] + others, [last]);
  }

  /** An event, what others do, another event, and the rest. */
  lemma GoesOnWith(w: World, a: Event, others: seq<Event>, b: Event, rest: seq<Event>)
    requires Possible(w, a) && Legal(Next(w, a), others) && Possible(Run(Next(w, a), others), b)
    requires Legal(Next(Run(Next(w, a), others), b), rest)
    ensures Legal(w, [a] + others + ([b] + rest))
    ensures Run(w, [a] + others + ([b] + rest)) == Run(Next(Run(Next(w, a), others), b), rest)
  {
    var v := Run(Next(w, a), others);
    OneStepRun(w, a);
    RunsJoin(w, [a], others);
    OneStepRun(v, b);
    RunsJoin(v, [b], rest);
    RunsJoin(w, [a] + others, [b] + rest);
  }

  /** A delivery that makes its call is a run: started, called, and ended as its outcome and
      the host's answer say, with whatever legal events of others in between. */
  lemma CalledIsARun<C>(w: World, kind: Kind, phases: seq<Phase<C>>, r: Session, ids: seq<MessageId>, now: int,
        later: int, outcome: Outcome, final: State, first: seq<Event>, at: int, second: seq<Event>)
    requires kind != PullJob && Served(kind, w.s, phases, r, ids, now, later, outcome, final)
    requires |phases| > 1 && phases[1].Called?
    requires w.now <= now
    requires var w1 := Next(w, Event(now, StartJob(r, kind)));
             && Meanwhile(w1, first, |w.jobs|, phases[0].after, at)
             && Possible(Run(w1, first), Event(at, CallHost(|w.jobs|)))
             && Meanwhile(Next(Run(w1, first), Event(at, CallHost(|w.jobs|))), second, |w.jobs|,
                          phases[|phases| - 1].after, later)
    ensures var j := |w.jobs|;
            var rest := [Event(at, CallHost(j))] + second + Ending(j, phases[1].answer, outcome, later);
            var trace := Story(r, kind, now, first, rest);
            && Legal(w, trace) && Run(w, trace).s == final
            && j < |Run(w, trace).jobs|
            && Run(w, trace).jobs[j] == Booked(kind, r, ids, now, Some(phases[1].answer), outcome)
  {
    var j, answer := |w.jobs|, phases[1].answer;
    var start, call := Event(now, StartJob(r, kind)), Event(at, CallHost(j));
    StartsJob(w, r, kind, now, ids);
    var w1 := Next(w, start);
    ForeignKeepsJob(w1, first, j);
    var u := Next(Run(w1, first), call);
    ForeignKeepsJob(u, second, j);
    EndsAs(Run(u, second), j, kind, r, ids, answer, outcome, later);
    var rest := second + Ending(j, answer, outcome, later);
    RunsJoin(u, second, Ending(j, answer, outcome, later));
    GoesOnWith(w, start, first, call, rest);
    assert [call] + second + Ending(j, answer, outcome, later) == [call] + rest;
  }
}
