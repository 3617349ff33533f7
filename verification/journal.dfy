/** Creating agents: the record is persisted before the host session is asked for
    (src/orchestrator/api.ts:506-627). */
module AgentJournal {
  import opened Types
  import opened Sending

  const MAX_AGENTS := 64

  datatype AgentStatus = Starting | AgentRunning | AgentIdle | AgentFailed | AgentStopped | AgentStale

  /** A record of `state.agents`; its id is its position, as records are never removed. */
  datatype Agent = Agent(
    name: string,
    operation: Option<string>,
    fingerprint: string,
    lead: bool,
    host: Option<string>,
    status: AgentStatus)

  datatype Request = Request(name: string, operation: Option<string>, fingerprint: string, lead: bool)

  datatype Reservation =
    | Reserved
    | Reused(id: nat)
    | Mismatch
    | Unfinished(id: nat)
    | NameTaken
    | CapReached
    | LeadTaken

  /** `state.agents.find` by operation id. */
  function FindOperation(agents: seq<Agent>, operation: string): (r: Option<nat>)
    ensures r.Some? ==> r.value < |agents| && agents[r.value].operation == Some(operation)
    ensures r.None? ==> forall i :: 0 <= i < |agents| ==> agents[i].operation != Some(operation)
  {
    if agents == [] then None
    else if agents[0].operation == Some(operation) then Some(0)
    else match FindOperation(agents[1..], operation) case None => None case Some(i) => Some(i + 1)
  }

  predicate SomeoneNamed(agents: seq<Agent>, name: string) {
    exists i :: 0 <= i < |agents| && Lower(agents[i].name) == Lower(name)
  }

  predicate HasLead(agents: seq<Agent>) {
    exists i :: 0 <= i < |agents| && agents[i].lead
  }

  /** What the locked part of createAgent decides. */
  function Decide(agents: seq<Agent>, req: Request): Reservation {
    var prior := if req.operation.Some? then FindOperation(agents, req.operation.value) else None;
    if prior.Some? then
      var agent := agents[prior.value];
      if agent.fingerprint != req.fingerprint then Mismatch
      else if agent.host.Some? then Reused(prior.value)
      else Unfinished(prior.value)
    else if SomeoneNamed(agents, req.name) then NameTaken
    else if |agents| >= MAX_AGENTS then CapReached
    else if req.lead && HasLead(agents) then LeadTaken
    else Reserved
  }

  function RecordFor(req: Request): Agent {
    Agent(req.name, req.operation, if req.operation.Some? then req.fingerprint else "", req.lead, None, Starting)
  }

  datatype Phase = Prepared | Called | Answered(host: Option<string>) | Ended

  /** A createAgent call past its locked part, working on record `id`. */
  datatype Creator = Creator(id: nat, phase: Phase)

  /** `calls` lists the record of every `runtime.create` made by createAgent, in order. */
  datatype World = World(agents: seq<Agent>, creators: seq<Creator>, calls: seq<nat>)

  datatype Step =
    | Ask(req: Request)
    | WorktreeFails(k: nat)
    | CallRuntime(k: nat)
    | RuntimeAnswers(k: nat, host: Option<string>)
    | SaveOutcome(k: nat)
    | Die(k: nat)
    | Change(id: nat, host: Option<string>, status: AgentStatus)

  predicate Enabled(w: World, step: Step) {
    match step
    case Ask(_) => true
    case WorktreeFails(k) => k < |w.creators| && w.creators[k].phase.Prepared? && w.creators[k].id < |w.agents|
    case CallRuntime(k) => k < |w.creators| && w.creators[k].phase.Prepared?
    case RuntimeAnswers(k, _) => k < |w.creators| && w.creators[k].phase.Called?
    case SaveOutcome(k) => k < |w.creators| && w.creators[k].phase.Answered? && w.creators[k].id < |w.agents|
    case Die(k) => k < |w.creators|
    case Change(id, _, _) => id < |w.agents|
  }

  function Advance(w: World, k: nat, phase: Phase): World
    requires k < |w.creators|
  {
    w.(creators := w.creators[k := w.creators[k].(phase := phase)])
  }

  function WithAgent(w: World, id: nat, host: Option<string>, status: AgentStatus): World
    requires id < |w.agents|
  {
    w.(agents := w.agents[id := w.agents[id].(host := host, status := status)])
  }

  /** One locked section, or one unlocked host call. Every other API operation changes at most
      a record's session and status. */
  function Do(w: World, step: Step): World
    requires Enabled(w, step)
  {
    match step
    case Ask(req) =>
      if Decide(w.agents, req).Reserved? then
        w.(agents := w.agents + [RecordFor(req)], creators := w.creators + [Creator(|w.agents|, Prepared)])
      else w
    case WorktreeFails(k) =>
      var id := w.creators[k].id;
      WithAgent(Advance(w, k, Ended), id, w.agents[id].host, AgentFailed)
    case CallRuntime(k) => Advance(w, k, Called).(calls := w.calls + [w.creators[k].id])
    case RuntimeAnswers(k, host) => Advance(w, k, Answered(host))
    case SaveOutcome(k) =>
      var id, host := w.creators[k].id, w.creators[k].phase.host;
      if host.Some? then WithAgent(Advance(w, k, Ended), id, host, AgentRunning)
      else WithAgent(Advance(w, k, Ended), id, w.agents[id].host, AgentFailed)
    case Die(k) => Advance(w, k, Ended)
    case Change(id, host, status) => WithAgent(w, id, host, status)
  }

  ghost predicate Legal(w: World, trace: seq<Step>)
    decreases |trace|
  {
    trace != [] ==> Enabled(w, trace[0]) && Legal(Do(w, trace[0]), trace[1..])
  }

  function Run(w: World, trace: seq<Step>): World
    requires Legal(w, trace)
    decreases |trace|
  {
    if trace == [] then w else Run(Do(w, trace[0]), trace[1..])
  }

  const START := World([], [], [])

  /** No two records share an operation or, case aside, a name; at most one is the lead. */
  ghost predicate Distinct(agents: seq<Agent>) {
    && |agents| <= MAX_AGENTS
    && forall i, j :: 0 <= i < j < |agents| ==>
         && Lower(agents[i].name) != Lower(agents[j].name)
         && (agents[i].operation.Some? ==> agents[i].operation != agents[j].operation)
         && !(agents[i].lead && agents[j].lead)
  }

  ghost predicate Inv(w: World) {
    && Distinct(w.agents)
    && (forall k :: 0 <= k < |w.creators| ==> w.creators[k].id < |w.agents|)
    && (forall k, l :: 0 <= k < l < |w.creators| ==> w.creators[k].id != w.creators[l].id)
    && (forall i :: 0 <= i < |w.calls| ==> w.calls[i] < |w.agents|)
    && (forall i, j :: 0 <= i < j < |w.calls| ==> w.calls[i] != w.calls[j])
    && (forall i, k :: 0 <= i < |w.calls| && 0 <= k < |w.creators| && w.creators[k].phase.Prepared? ==>
          w.calls[i] != w.creators[k].id)
  }

  lemma ReserveKeepsDistinct(agents: seq<Agent>, req: Request)
    requires Distinct(agents) && Decide(agents, req).Reserved?
    ensures Distinct(agents + [RecordFor(req)])
  {
  }

  lemma AskKeeps(w: World, req: Request)
    requires Inv(w)
    ensures Inv(Do(w, Ask(req)))
  {
    if Decide(w.agents, req).Reserved? {
      ReserveKeepsDistinct(w.agents, req);
    }
  }

  lemma AdvanceKeeps(w: World, k: nat, phase: Phase)
    requires Inv(w) && k < |w.creators| && !phase.Prepared?
    ensures Inv(Advance(w, k, phase))
  {
  }

  lemma AgentKeeps(w: World, id: nat, host: Option<string>, status: AgentStatus)
    requires Inv(w) && id < |w.agents|
    ensures Inv(WithAgent(w, id, host, status))
  {
  }

  lemma CallKeeps(w: World, k: nat)
    requires Inv(w) && k < |w.creators| && w.creators[k].phase.Prepared?
    ensures Inv(Do(w, CallRuntime(k)))
  {
  }

  lemma StepKeeps(w: World, step: Step)
    requires Inv(w) && Enabled(w, step)
    ensures Inv(Do(w, step))
  {
    match step {
      case Ask(req) => AskKeeps(w, req);
      case CallRuntime(k) => CallKeeps(w, k);
      case RuntimeAnswers(k, host) => AdvanceKeeps(w, k, Answered(host));
      case Change(id, host, status) => AgentKeeps(w, id, host, status);
      case Die(k) => AdvanceKeeps(w, k, Ended);
      case WorktreeFails(k) =>
        AdvanceKeeps(w, k, Ended);
        AgentKeeps(Advance(w, k, Ended), w.creators[k].id, w.agents[w.creators[k].id].host, AgentFailed);
      case SaveOutcome(k) =>
        var id, host := w.creators[k].id, w.creators[k].phase.host;
        AdvanceKeeps(w, k, Ended);
        AgentKeeps(Advance(w, k, Ended), id, host, AgentRunning);
        AgentKeeps(Advance(w, k, Ended), id, w.agents[id].host, AgentFailed);
    }
  }

  /** What is written once: later operations keep every record and these fields of it. */
  ghost predicate Recorded(agents: seq<Agent>, later: seq<Agent>) {
    && |agents| <= |later|
    && forall i :: 0 <= i < |agents| ==>
         && later[i].name == agents[i].name && later[i].operation == agents[i].operation
         && later[i].fingerprint == agents[i].fingerprint && later[i].lead == agents[i].lead
  }

  lemma StepRecords(w: World, step: Step)
    requires Enabled(w, step)
    ensures Recorded(w.agents, Do(w, step).agents) && w.calls <= Do(w, step).calls
  {
  }

  lemma {:induction false} RunKeeps(w: World, trace: seq<Step>)
    requires Inv(w) && Legal(w, trace)
    ensures Inv(Run(w, trace)) && Recorded(w.agents, Run(w, trace).agents) && w.calls <= Run(w, trace).calls
    decreases |trace|
  {
    if trace != [] {
      StepKeeps(w, trace[0]);
      StepRecords(w, trace[0]);
      RunKeeps(Do(w, trace[0]), trace[1..]);
    }
  }

  /** Over all interleavings, retries and crashes: every host session createAgent asked for
      has a persisted record, no two were asked for under one operation id or one name, and
      there are at most 64 of them. */
  lemma OneCallPerOperationAndName(trace: seq<Step>, i: nat, j: nat)
    requires Legal(START, trace) && i < j < |Run(START, trace).calls|
    ensures var w := Run(START, trace);
            && w.calls[i] < |w.agents| && w.calls[j] < |w.agents| && |w.agents| <= MAX_AGENTS
            && w.calls[i] != w.calls[j]
            && var a, b := w.agents[w.calls[i]], w.agents[w.calls[j]];
               Lower(a.name) != Lower(b.name) && (a.operation.Some? ==> a.operation != b.operation)
  {
    RunKeeps(START, trace);
  }

  /** A request is reserved exactly when its operation has no record, nobody has its name,
      letter case aside, there is room, and it asks for no second lead. */
  lemma ReservedIff(agents: seq<Agent>, req: Request)
    ensures Decide(agents, req).Reserved? <==>
              && (req.operation.Some? ==> forall i :: 0 <= i < |agents| ==> agents[i].operation != req.operation)
              && (forall i :: 0 <= i < |agents| ==> Lower(agents[i].name) != Lower(req.name))
              && |agents| < 64
              && (req.lead ==> forall i :: 0 <= i < |agents| ==> !agents[i].lead)
  {
  }

  /** Once an operation has a record, repeating it in any later state reserves nothing: it
      returns the recorded session if there is one, reports it unfinished if there is none,
      or is refused when its inputs differ. */
  lemma RepeatingReservesNothing(w: World, trace: seq<Step>, req: Request)
    requires Inv(w) && req.operation.Some? && Decide(w.agents, req).Reserved?
    requires Legal(Do(w, Ask(req)), trace)
    ensures var later := Run(Do(w, Ask(req)), trace);
            && later.agents == Do(later, Ask(req)).agents && |w.agents| < |later.agents|
            && var again := Decide(later.agents, req);
               again == if later.agents[|w.agents|].host.Some? then Reused(|w.agents|) else Unfinished(|w.agents|)
    ensures forall other: Request :: other.operation == req.operation && other.fingerprint != req.fingerprint ==>
              Decide(Run(Do(w, Ask(req)), trace).agents, other) == Mismatch
  {
    var v := Do(w, Ask(req));
    StepKeeps(w, Ask(req));
    RunKeeps(v, trace);
    var later := Run(v, trace);
    assert v.agents[|w.agents|] == RecordFor(req);
    assert later.agents[|w.agents|].operation == req.operation;
    forall other: Request | other.operation == req.operation
      ensures FindOperation(later.agents, other.operation.value) == Some(|w.agents|)
    {
      var found := FindOperation(later.agents, req.operation.value);
      assert found.Some?;
    }
  }
}

/** Assigning and handing over tasks: the operation is journaled before its message is
    persisted, both inside one lock (src/orchestrator/api.ts:1224-1345, 1435-1602). */
module TaskJournal {
  import opened Types

  const MAX_TASKS := 2_000
  const MAX_TASK_REASSIGNMENTS := 16

  datatype Dispatch = Dispatching | Sent | Failed | Legacy

  datatype Handoff = Handoff(request: string, fingerprint: string, dispatch: Dispatch)

  /** A task record; its id is its position, as records are never removed. */
  datatype Task = Task(request: Option<string>, fingerprint: string, dispatch: Dispatch, handoffs: seq<Handoff>)

  /** A journaled operation: the assignment of a task, or one of its handoffs. */
  datatype Ref = Assignment(t: nat) | Move(t: nat, h: nat)

  predicate Valid(tasks: seq<Task>, ref: Ref) {
    && ref.t < |tasks|
    && (ref.Move? ==> ref.h < |tasks[ref.t].handoffs|)
  }

  function RequestOf(tasks: seq<Task>, ref: Ref): Option<string>
    requires Valid(tasks, ref)
  {
    match ref
    case Assignment(t) => tasks[t].request
    case Move(t, h) => Some(tasks[t].handoffs[h].request)
  }

  function FingerprintOf(tasks: seq<Task>, ref: Ref): string
    requires Valid(tasks, ref)
  {
    match ref
    case Assignment(t) => tasks[t].fingerprint
    case Move(t, h) => tasks[t].handoffs[h].fingerprint
  }

  /** `request_id` is journaled, by an assignment or a handoff. */
  ghost predicate Used(tasks: seq<Task>, request: string) {
    exists ref :: Valid(tasks, ref) && RequestOf(tasks, ref) == Some(request)
  }

  /** What `taskViews` and task transitions may do: rewrite states, and append legacy tasks
      found in the messages; no task, handoff, request id or fingerprint changes. */
  ghost predicate ViewOf(tasks: seq<Task>, view: seq<Task>) {
    && |tasks| <= |view|
    && (forall i :: 0 <= i < |tasks| ==>
          && view[i].request == tasks[i].request && view[i].fingerprint == tasks[i].fingerprint
          && |view[i].handoffs| == |tasks[i].handoffs|
          && forall h :: 0 <= h < |tasks[i].handoffs| ==>
               && view[i].handoffs[h].request == tasks[i].handoffs[h].request
               && view[i].handoffs[h].fingerprint == tasks[i].handoffs[h].fingerprint)
    && (forall i :: |tasks| <= i < |view| ==> view[i].request.None? && view[i].handoffs == [])
  }

  predicate Uncertain(task: Task) {
    exists h :: 0 <= h < |task.handoffs| && task.handoffs[h].dispatch == Dispatching
  }

  /** The locked operation under way, and whether its message is persisted. */
  datatype Work = Work(ref: Ref, persisted: bool)

  /** `sends` lists the operation of every persisted task message, `answers` what callers were
      definitely told: sent, or refused. */
  datatype World = World(tasks: seq<Task>, work: Option<Work>, sends: seq<Ref>, answers: seq<(Ref, bool)>)

  /** `eligible` sums up the agent, node, dependency, ownership and revision checks. */
  datatype Step =
    | Assign(view: seq<Task>, request: Option<string>, fingerprint: string, eligible: bool)
    | Reassign(view: seq<Task>, t: nat, operation: string, fingerprint: string, eligible: bool)
    | EngineRefuses
    | PersistMessage
    | Finish
    | Interrupt
    | Update(view: seq<Task>)

  ghost predicate Enabled(w: World, step: Step) {
    match step
    case Assign(view, _, _, _) => w.work.None? && ViewOf(w.tasks, view)
    case Reassign(view, t, _, _, _) => w.work.None? && ViewOf(w.tasks, view) && t < |view|
    case EngineRefuses => w.work.Some? && !w.work.value.persisted && Valid(w.tasks, w.work.value.ref)
    case PersistMessage => w.work.Some? && !w.work.value.persisted
    case Finish => w.work.Some? && w.work.value.persisted && Valid(w.tasks, w.work.value.ref)
    case Interrupt => w.work.Some?
    case Update(view) => w.work.None? && ViewOf(w.tasks, view)
  }

  function Marked(tasks: seq<Task>, ref: Ref, dispatch: Dispatch): seq<Task>
    requires Valid(tasks, ref)
  {
    var task := tasks[ref.t];
    match ref
    case Assignment(t) => tasks[t := task.(dispatch := dispatch)]
    case Move(t, h) =>
      var handoffs := task.handoffs[h := task.handoffs[h].(dispatch := dispatch)];
      tasks[t := task.(dispatch := dispatch, handoffs := handoffs)]
  }

  ghost function Do(w: World, step: Step): World
    requires Enabled(w, step)
  {
    match step
    case Assign(view, request, fingerprint, eligible) =>
      if (request.Some? && Used(view, request.value)) || |view| >= MAX_TASKS || !eligible then w
      else
        w.(tasks := view + [Task(request, fingerprint, Dispatching, [])],
           work := Some(Work(Assignment(|view|), false)))
    case Reassign(view, t, request, fingerprint, eligible) =>
      if Used(view, request) || |view| > MAX_TASKS || Uncertain(view[t])
         || |view[t].handoffs| >= MAX_TASK_REASSIGNMENTS || !eligible then w
      else
        w.(tasks := view[t := view[t].(handoffs := view[t].handoffs + [Handoff(request, fingerprint, Dispatching)])],
           work := Some(Work(Move(t, |view[t].handoffs|), false)))
    case EngineRefuses =>
      w.(tasks := Marked(w.tasks, w.work.value.ref, Dispatch.Failed), work := None,
         answers := w.answers + [(w.work.value.ref, false)])
    case PersistMessage => w.(work := Some(w.work.value.(persisted := true)), sends := w.sends + [w.work.value.ref])
    case Finish =>
      w.(tasks := Marked(w.tasks, w.work.value.ref, Sent), work := None,
         answers := w.answers + [(w.work.value.ref, true)])
    case Interrupt => w.(work := None)
    case Update(view) => w.(tasks := view)
  }

  ghost predicate Legal(w: World, trace: seq<Step>)
    decreases |trace|
  {
    trace != [] ==> Enabled(w, trace[0]) && Legal(Do(w, trace[0]), trace[1..])
  }

  ghost function Run(w: World, trace: seq<Step>): World
    requires Legal(w, trace)
    decreases |trace|
  {
    if trace == [] then w else Run(Do(w, trace[0]), trace[1..])
  }

  const START := World([], None, [], [])

  /** An assignment is acted on exactly when its request is new, there is room and its checks
      pass; a handoff also needs a task no earlier handoff of which is unsettled. */
  lemma ActedOnIff(w: World, step: Step)
    requires Enabled(w, step) && (step.Assign? || step.Reassign?)
    ensures Do(w, step).work.Some? <==>
              && step.eligible
              && (step.Assign? ==>
                    |step.view| < 2_000 && (step.request.Some? ==> !Used(step.view, step.request.value)))
              && (step.Reassign? ==>
                    && |step.view| <= 2_000 && !Used(step.view, step.operation)
                    && |step.view[step.t].handoffs| < 16
                    && forall h :: 0 <= h < |step.view[step.t].handoffs| ==>
                         step.view[step.t].handoffs[h].dispatch != Dispatching)
    ensures Do(w, step).work.None? ==> Do(w, step) == w
  {
  }

  /** Every journaled operation survives, with its request id and fingerprint. */
  ghost predicate Journaled(tasks: seq<Task>, later: seq<Task>) {
    forall ref :: Valid(tasks, ref) ==>
      && Valid(later, ref) && RequestOf(later, ref) == RequestOf(tasks, ref)
      && FingerprintOf(later, ref) == FingerprintOf(tasks, ref)
  }

  ghost predicate OneUsePerRequest(tasks: seq<Task>) {
    forall a, b :: Valid(tasks, a) && Valid(tasks, b) && a != b && RequestOf(tasks, a).Some? ==>
      RequestOf(tasks, a) != RequestOf(tasks, b)
  }

  ghost predicate Inv(w: World) {
    && OneUsePerRequest(w.tasks)
    && (forall i :: 0 <= i < |w.sends| ==> Valid(w.tasks, w.sends[i]))
    && (forall i, j :: 0 <= i < j < |w.sends| ==> w.sends[i] != w.sends[j])
    && (w.work.Some? ==>
          && Valid(w.tasks, w.work.value.ref)
          && (w.work.value.persisted <==> w.work.value.ref in w.sends)
          && forall i :: 0 <= i < |w.answers| ==> w.answers[i].0 != w.work.value.ref)
    && (forall i :: 0 <= i < |w.answers| ==>
          Valid(w.tasks, w.answers[i].0) && (w.answers[i].1 <==> w.answers[i].0 in w.sends))
  }

  lemma ViewKeeps(tasks: seq<Task>, view: seq<Task>)
    requires ViewOf(tasks, view)
    ensures Journaled(tasks, view)
    ensures forall ref :: Valid(view, ref) && !Valid(tasks, ref) ==> RequestOf(view, ref).None?
    ensures OneUsePerRequest(tasks) ==> OneUsePerRequest(view)
  {
  }

  /** `ref` is the one new operation of `later`. */
  ghost predicate Adds(tasks: seq<Task>, later: seq<Task>, ref: Ref) {
    && Journaled(tasks, later)
    && !Valid(tasks, ref) && Valid(later, ref)
    && forall other :: Valid(later, other) && other != ref ==> Valid(tasks, other)
  }

  lemma PushAdds(tasks: seq<Task>, task: Task)
    requires task.handoffs == []
    ensures Adds(tasks, tasks + [task], Assignment(|tasks|))
  {
  }

  lemma HandoffAdds(tasks: seq<Task>, t: nat, handoff: Handoff)
    requires t < |tasks|
    ensures Adds(tasks, tasks[t := tasks[t].(handoffs := tasks[t].handoffs + [handoff])], Move(t, |tasks[t].handoffs|))
  {
  }

  lemma AddingKeepsOneUse(tasks: seq<Task>, later: seq<Task>, ref: Ref)
    requires OneUsePerRequest(tasks) && Adds(tasks, later, ref)
    requires RequestOf(later, ref).Some? ==> !Used(tasks, RequestOf(later, ref).value)
    ensures OneUsePerRequest(later)
  {
    forall a, b | Valid(later, a) && Valid(later, b) && a != b && RequestOf(later, a).Some?
      ensures RequestOf(later, a) != RequestOf(later, b)
    {
      assert a != ref ==> RequestOf(later, a) == RequestOf(tasks, a);
      assert b != ref ==> RequestOf(later, b) == RequestOf(tasks, b);
    }
  }

  lemma MarkedKeeps(tasks: seq<Task>, ref: Ref, dispatch: Dispatch)
    requires Valid(tasks, ref)
    ensures ViewOf(tasks, Marked(tasks, ref, dispatch))
  {
  }

  lemma BeginKeeps(w: World, later: seq<Task>, ref: Ref)
    requires Inv(w) && w.work.None? && Journaled(w.tasks, later) && OneUsePerRequest(later)
    requires Valid(later, ref) && !Valid(w.tasks, ref)
    ensures Inv(w.(tasks := later, work := Some(Work(ref, false))))
  {
  }

  lemma AssignKeeps(w: World, view: seq<Task>, request: Option<string>, fingerprint: string, eligible: bool)
    requires Inv(w) && Enabled(w, Assign(view, request, fingerprint, eligible))
    ensures var u := Do(w, Assign(view, request, fingerprint, eligible)); Inv(u) && Journaled(w.tasks, u.tasks)
  {
    var u := Do(w, Assign(view, request, fingerprint, eligible));
    if u.work.Some? {
      ViewKeeps(w.tasks, view);
      PushAdds(view, Task(request, fingerprint, Dispatching, []));
      AddingKeepsOneUse(view, u.tasks, Assignment(|view|));
      BeginKeeps(w, u.tasks, Assignment(|view|));
    }
  }

  lemma ReassignKeeps(w: World, view: seq<Task>, t: nat, request: string, fingerprint: string, eligible: bool)
    requires Inv(w) && Enabled(w, Reassign(view, t, request, fingerprint, eligible))
    ensures var u := Do(w, Reassign(view, t, request, fingerprint, eligible)); Inv(u) && Journaled(w.tasks, u.tasks)
  {
    var u := Do(w, Reassign(view, t, request, fingerprint, eligible));
    if u.work.Some? {
      var ref := Move(t, |view[t].handoffs|);
      ViewKeeps(w.tasks, view);
      HandoffAdds(view, t, Handoff(request, fingerprint, Dispatching));
      AddingKeepsOneUse(view, u.tasks, ref);
      BeginKeeps(w, u.tasks, ref);
    }
  }

  lemma StepKeeps(w: World, step: Step)
    requires Inv(w) && Enabled(w, step)
    ensures Inv(Do(w, step)) && Journaled(w.tasks, Do(w, step).tasks) && w.sends <= Do(w, step).sends
  {
    match step {
      case Assign(view, request, fingerprint, eligible) => AssignKeeps(w, view, request, fingerprint, eligible);
      case Reassign(view, t, request, fingerprint, eligible) =>
        ReassignKeeps(w, view, t, request, fingerprint, eligible);
      case EngineRefuses =>
        MarkedKeeps(w.tasks, w.work.value.ref, Dispatch.Failed);
        ViewKeeps(w.tasks, Marked(w.tasks, w.work.value.ref, Dispatch.Failed));
      case Finish =>
        MarkedKeeps(w.tasks, w.work.value.ref, Sent);
        ViewKeeps(w.tasks, Marked(w.tasks, w.work.value.ref, Sent));
      case Update(view) => ViewKeeps(w.tasks, view);
      case _ =>
    }
  }

  lemma {:induction false} RunKeeps(w: World, trace: seq<Step>)
    requires Inv(w) && Legal(w, trace)
    ensures Inv(Run(w, trace)) && Journaled(w.tasks, Run(w, trace).tasks) && w.sends <= Run(w, trace).sends
    decreases |trace|
  {
    if trace != [] {
      StepKeeps(w, trace[0]);
      RunKeeps(Do(w, trace[0]), trace[1..]);
    }
  }

  /** Over all retries and interruptions: every persisted task message has a persisted journal
      record, no operation has two, and no two share a request id, whether they assign or
      hand over. */
  lemma OneMessagePerRequest(trace: seq<Step>, i: nat, j: nat)
    requires Legal(START, trace) && i < j < |Run(START, trace).sends|
    ensures var w := Run(START, trace);
            && Valid(w.tasks, w.sends[i]) && Valid(w.tasks, w.sends[j]) && w.sends[i] != w.sends[j]
            && (RequestOf(w.tasks, w.sends[i]).Some? ==>
                  RequestOf(w.tasks, w.sends[i]) != RequestOf(w.tasks, w.sends[j]))
  {
    RunKeeps(START, trace);
  }

  /** What callers were told stays true: a refused operation never has a message, a confirmed
      one always does. */
  lemma AnswersAreFinal(trace: seq<Step>, i: nat)
    requires Legal(START, trace) && i < |Run(START, trace).answers|
    ensures var w := Run(START, trace);
            Valid(w.tasks, w.answers[i].0) && (w.answers[i].1 <==> w.answers[i].0 in w.sends)
  {
    RunKeeps(START, trace);
  }

  /** A journaled request is never acted on again: in every later state an assignment or
      handoff under it changes nothing. */
  lemma RepeatingSendsNothing(w: World, trace: seq<Step>, ref: Ref, step: Step)
    requires Inv(w) && Legal(w, trace) && Valid(w.tasks, ref) && RequestOf(w.tasks, ref).Some?
    requires Enabled(Run(w, trace), step)
    requires (step.Assign? && step.request == RequestOf(w.tasks, ref))
          || (step.Reassign? && Some(step.operation) == RequestOf(w.tasks, ref))
    ensures Do(Run(w, trace), step) == Run(w, trace)
  {
    RunKeeps(w, trace);
    var tasks := Run(w, trace).tasks;
    ViewKeeps(tasks, step.view);
    assert Valid(step.view, ref) && RequestOf(step.view, ref) == RequestOf(w.tasks, ref);
    assert Used(step.view, RequestOf(w.tasks, ref).value);
  }
}
