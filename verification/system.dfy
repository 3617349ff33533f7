/** The whole delivery system as a state machine: every locked engine call is one step, and
    between a locked drain and its locked outcome lies an unlocked host call, during which
    any other step may happen and the deliverer may die. */
module System {
  import opened Types
  import opened Retention
  import opened Delivery
  import opened Sending
  import opened Membership

  /** One locked engine call that is not part of a delivery. */
  datatype Op =
    | DoCreate(config: Config, founder: Option<Member>)
    | DoJoin(c: ChannelId, member: Member)
    | DoPause(c: ChannelId, paused: bool)
    | DoSend(c: ChannelId, draft: Draft, sender: Session, operator: bool)
    | DoDisconnect(c: ChannelId, m: Session)
    | DoKick(c: ChannelId, caller: Option<Session>, targetId: Option<string>, targetRole: Option<string>)
    | DoMarkStale(m: Session)
    | DoClearStale(m: Session)
    | DoTimer(c: ChannelId, m: Session, action: TimerAction)
    | DoPurge(c: ChannelId)
    | DoWithdraw(id: MessageId)

  function Apply(s: State, op: Op, now: int): State {
    match op
    case DoCreate(config, founder) => Create(s, config, founder, now)
    case DoJoin(c, member) => Join(s, c, member)
    case DoPause(c, paused) => SetPaused(s, c, paused)
    case DoSend(c, draft, sender, operator) => Send(s, c, draft, sender, operator, now)
    case DoDisconnect(c, m) => Disconnect(s, c, m, now)
    case DoKick(c, caller, targetId, targetRole) => Kick(s, c, caller, targetId, targetRole, now)
    case DoMarkStale(m) => MarkStale(s, m, now)
    case DoClearStale(m) => ClearStale(s, m)
    case DoTimer(c, m, action) => TimerOp(s, c, m, action, now)
    case DoPurge(c) => if c in s.channels then Purge(s, c) else s
    case DoWithdraw(id) => Withdraw(s, id)
  }

  /** Who delivers: the coordinator's managed loop, a push into a host (spawned CLI or
      in-process prompt), or the recipient's own pull. */
  datatype Kind = ManagedJob | PushJob | PullJob

  datatype Answer = Accepted | Refused | Uncertain

  /** Where a batch ends: still held, committed, or given back to its queue. */
  datatype Fate = Open | Settled | Returned

  /** A deliverer and its batch, drained at `at`; `called` once the host call was made. */
  datatype Job = Job(
    kind: Kind,
    session: Session,
    ids: seq<MessageId>,
    called: bool,
    answer: Option<Answer>,
    fate: Fate,
    dead: bool,
    at: int)

  /** An accepted logical send: when, in which rate window, and as which of its window. */
  datatype SendRecord = SendRecord(key: (Session, Text), time: int, window: int, ordinal: nat, limit: nat)

  /** The state together with what has happened: every batch ever drained, every accepted
      send, the ids committed to each recipient in order, and the number of sweeps. */
  datatype World = World(
    s: State,
    now: int,
    jobs: seq<Job>,
    sends: map<ChannelId, seq<SendRecord>>,
    committed: map<Session, seq<MessageId>>,
    sweeps: nat)

  datatype Step =
    | Act(op: Op)
    | StartJob(r: Session, kind: Kind)
    | CallHost(j: nat)
    | HostAnswers(j: nat, answer: Answer)
    | Confirm(j: nat)
    | GiveBack(j: nat)
    | Die(j: nat)
    | Recover

  datatype Event = Event(now: int, step: Step)

  const START := World(State(map[], 0, [], {}, map[], map[]), 0, [], map[], map[], 0)

  /** `r` is an endpoint of the coordinator's own loop: an API member that pulls. */
  predicate ManagedOn(ch: Channel, r: Session) {
    exists i :: 0 <= i < |ch.members| && ch.members[i].session == r && ch.members[i].api && ch.members[i].mode == Pull
  }

  predicate Managed(s: State, r: Session) {
    exists c :: c in s.channels && ManagedOn(s.channels[c], r)
  }

  function ManagedSessions(s: State): set<Session> {
    set c, i | c in s.channels && 0 <= i < |s.channels[c].members|
               && ManagedOn(s.channels[c], s.channels[c].members[i].session) :: s.channels[c].members[i].session
  }

  /** Only a managed drain filters by channel. */
  function GateFor(s: State, r: Session, kind: Kind): Gate {
    if kind == ManagedJob then Some(set c | c in s.channels && ManagedOn(s.channels[c], r)) else None
  }

  function TransportOf(kind: Kind): Transport {
    match kind
    case ManagedJob => PushTransport
    case PushJob => SpawnTransport
    case PullJob => PullTransport
  }

  predicate Busy(s: State, r: Session) {
    exists id :: id in s.live && InFlightTo(s, r, id)
  }

  predicate Enabled(w: World, step: Step) {
    match step
    case Act(op) => true
    case StartJob(r, kind) => kind == ManagedJob ==> !Busy(w.s, r)
    case CallHost(j) => j < |w.jobs| && Alive(w.jobs[j]) && !w.jobs[j].called
    case HostAnswers(j, answer) =>
      && j < |w.jobs| && Alive(w.jobs[j]) && w.jobs[j].called && w.jobs[j].answer.None?
      && (w.jobs[j].kind == PushJob ==> answer != Uncertain)
    case Confirm(j) => j < |w.jobs| && Alive(w.jobs[j]) && w.jobs[j].answer == Some(Accepted)
    case GiveBack(j) => j < |w.jobs| && Alive(w.jobs[j]) && MayGiveBack(w.jobs[j])
    case Die(j) => j < |w.jobs| && Alive(w.jobs[j])
    case Recover => true
  }

  predicate Alive(job: Job) {
    job.fate == Open && !job.dead
  }

  /** A managed batch goes back only uncalled or refused; a push batch also when the commit
      after an accepted call failed. */
  predicate MayGiveBack(job: Job) {
    || !job.called
    || job.answer == Some(Refused)
    || (job.answer == Some(Accepted) && job.kind == PushJob)
  }

  function CommittedTo(w: World, r: Session): seq<MessageId> {
    if r in w.committed then w.committed[r] else []
  }

  /** The ids of a batch that a commit to `r` would mark delivered, in batch order. */
  function Committable(s: State, r: Session, ids: seq<MessageId>): seq<MessageId> {
    if ids == [] then []
    else (if InFlightTo(s, r, ids[0]) then [ids[0]] else []) + Committable(s, r, ids[1..])
  }

  function CommitBatch(w: World, r: Session, ids: seq<MessageId>, kind: Kind): World {
    w.(s := Commit(w.s, r, ids, w.now, TransportOf(kind)),
       committed := w.committed[r := CommittedTo(w, r) + Committable(w.s, r, ids)])
  }

  function SendsOn(w: World, c: ChannelId): seq<SendRecord> {
    if c in w.sends then w.sends[c] else []
  }

  /** `op` is an accepted send on `c`. */
  predicate SendsTo(s: State, op: Op, now: int, c: ChannelId) {
    op.DoSend? && op.c == c && SendRefusal(s, op.c, op.draft, op.sender, op.operator, now).None?
  }

  function RecordOf(ch: Channel, key: (Session, Text), now: int): SendRecord {
    var (start, count) := RateWindow(ch, now);
    SendRecord(key, now, start, count + 1, ch.rateLimit)
  }

  function RecordSend(w: World, op: Op): map<ChannelId, seq<SendRecord>> {
    if op.DoSend? && SendsTo(w.s, op, w.now, op.c) then
      w.sends[op.c := SendsOn(w, op.c) + [RecordOf(w.s.channels[op.c], (op.sender, op.draft.content), w.now)]]
    else w.sends
  }

  /** A drain opens a job for its batch; a pull commits it in the same step. */
  function Begin(w: World, r: Session, kind: Kind): World {
    var d := Drain(w.s, r, w.now, GateFor(w.s, r, kind));
    var w1 := w.(s := d.state);
    if d.ids == [] then w1
    else if kind == PullJob then
      CommitBatch(w1, r, d.ids, PullJob).(
        jobs := w.jobs + [Job(kind, r, d.ids, true, Some(Accepted), Settled, false, w.now)])
    else w1.(jobs := w.jobs + [Job(kind, r, d.ids, false, None, Open, false, w.now)])
  }

  function WithJob(w: World, j: nat, job: Job): World
    requires j < |w.jobs|
  {
    w.(jobs := w.jobs[j := job])
  }

  /** One step at the world's current time. */
  function Do(w: World, step: Step): World
    requires Enabled(w, step)
  {
    match step
    case Act(op) => w.(s := Apply(w.s, op, w.now), sends := RecordSend(w, op))
    case StartJob(r, kind) => Begin(w, r, kind)
    case CallHost(j) => WithJob(w, j, w.jobs[j].(called := true))
    case HostAnswers(j, answer) => WithJob(w, j, w.jobs[j].(answer := Some(answer)))
    case Confirm(j) =>
      CommitBatch(WithJob(w, j, w.jobs[j].(fate := Settled)), w.jobs[j].session, w.jobs[j].ids, w.jobs[j].kind)
    case GiveBack(j) =>
      WithJob(w, j, w.jobs[j].(fate := Returned)).(s := Requeue(w.s, w.jobs[j].session, w.jobs[j].ids))
    case Die(j) => WithJob(w, j, w.jobs[j].(dead := true))
    case Recover => w.(s := Sweep(w.s, ManagedSessions(w.s)), sweeps := w.sweeps + 1)
  }

  predicate Possible(w: World, e: Event) {
    w.now <= e.now && Enabled(w.(now := e.now), e.step)
  }

  function Next(w: World, e: Event): World
    requires Possible(w, e)
  {
    Do(w.(now := e.now), e.step)
  }

  ghost predicate Legal(w: World, trace: seq<Event>)
    decreases |trace|
  {
    trace != [] ==> Possible(w, trace[0]) && Legal(Next(w, trace[0]), trace[1..])
  }

  function Run(w: World, trace: seq<Event>): World
    requires Legal(w, trace)
    decreases |trace|
  {
    if trace == [] then w else Run(Next(w, trace[0]), trace[1..])
  }
}
