/** The cross-process state lock and the updates made under it
    (src/core/store.ts:286-349, 515-528): one step per file operation, any number of
    processes, any interleaving, crashes included. */
module StateLock {
  import opened Types

  const LOCK_STALE_MS := 15_000
  const LOCK_TIMEOUT_MS := 5_000

  type Edit = nat

  /** Where a process stands in withLock around an update. */
  datatype Phase =
    | Idle
    | Trying(deadline: int)
    | Blocked(deadline: int)
    | Breaking(deadline: int)
    | Waiting(deadline: int)
    | Holding(since: int)
    | Loaded(since: int, copy: seq<Edit>)
    | Finished(since: int)
    | Crashed

  datatype LockFile = LockFile(owner: nat, mtime: int)

  /** `file` is the persisted state, as the edits it contains; `saved` is every edit whose
      save completed, in order. */
  datatype World = World(now: int, lock: Option<LockFile>, file: seq<Edit>, saved: seq<Edit>, procs: seq<Phase>)

  datatype Step =
    | Enter(i: nat)
    | Create(i: nat)
    | Inspect(i: nat)
    | Break(i: nat)
    | Retry(i: nat)
    | Stamp(i: nat)
    | Load(i: nat)
    | Save(i: nat, edit: Edit)
    | Abort(i: nat)
    | Release(i: nat)
    | Crash(i: nat)
    | Pass(ms: nat)

  predicate Inside(p: Phase) {
    p.Holding? || p.Loaded? || p.Finished?
  }

  predicate Enabled(w: World, step: Step) {
    if step.Pass? then true
    else
      step.i < |w.procs| &&
      var p := w.procs[step.i];
      match step
      case Enter(_) => p.Idle?
      case Create(_) => p.Trying?
      case Inspect(_) => p.Blocked?
      case Break(_) => p.Breaking?
      case Retry(_) => p.Waiting?
      case Stamp(_) => p.Holding?
      case Load(_) => p.Holding?
      case Save(_, _) => p.Loaded?
      case Abort(_) => p.Holding? || p.Loaded?
      case Release(_) => p.Finished?
      case Crash(_) => !p.Crashed?
  }

  function At(w: World, i: nat, p: Phase): World
    requires i < |w.procs|
  {
    w.(procs := w.procs[i := p])
  }

  function Do(w: World, step: Step): World
    requires Enabled(w, step)
  {
    match step
    case Pass(ms) => w.(now := w.now + ms)
    case Enter(i) => At(w, i, Trying(w.now + LOCK_TIMEOUT_MS))
    case Create(i) =>
      if w.lock.None? then At(w, i, Holding(w.now)).(lock := Some(LockFile(i, w.now)))
      else At(w, i, Blocked(w.procs[i].deadline))
    case Inspect(i) =>
      if w.lock.Some? && w.now - w.lock.value.mtime > LOCK_STALE_MS then At(w, i, Breaking(w.procs[i].deadline))
      else At(w, i, Waiting(w.procs[i].deadline))
    case Break(i) => At(w, i, Waiting(w.procs[i].deadline)).(lock := None)
    case Retry(i) => At(w, i, if w.now >= w.procs[i].deadline then Idle else Trying(w.procs[i].deadline))
    case Stamp(i) =>
      if w.lock.Some? && w.lock.value.owner == i then w.(lock := Some(LockFile(i, w.now))) else w
    case Load(i) => At(w, i, Loaded(w.procs[i].since, w.file))
    case Save(i, edit) =>
      At(w, i, Finished(w.procs[i].since)).(file := w.procs[i].copy + [edit], saved := w.saved + [edit])
    case Abort(i) => At(w, i, Finished(w.procs[i].since))
    case Release(i) => At(w, i, Idle).(lock := None)
    case Crash(i) => At(w, i, Crashed)
  }

  ghost predicate Legal(w: World, trace: seq<Step>)
    decreases |trace|
  {
    trace != [] ==> Enabled(w, trace[0]) && Legal(Do(w, trace[0]), trace[1..])
  }

  function Run(w: World, trace: seq<Step>): World
    requires Legal(w, trace)
    decreases |trace|
  {
    if trace == [] then w else Run(Do(w, trace[0]), trace[1..])
  }

  /** The lock file is no older than `age`. */
  predicate Young(w: World, age: int) {
    w.lock.Some? ==> w.now - w.lock.value.mtime <= age
  }

  /** A run whose lock file never gets older than `age`: no section outlasts it, and a
      crashed holder's file does not outlive it. */
  ghost predicate YoungRun(w: World, trace: seq<Step>, age: int)
    requires Legal(w, trace)
    decreases |trace|
  {
    Young(w, age) && (trace != [] ==> YoungRun(Do(w, trace[0]), trace[1..], age))
  }

  /** Nobody has been inside for more than `limit`. */
  ghost predicate Prompt(w: World, limit: int) {
    forall i :: 0 <= i < |w.procs| && Inside(w.procs[i]) ==> w.now - w.procs[i].since <= limit
  }

  /** A run without crashes in which no section takes longer than `limit`. */
  ghost predicate PromptRun(w: World, trace: seq<Step>, limit: int)
    requires Legal(w, trace)
    decreases |trace|
  {
    Prompt(w, limit) && (trace != [] ==> !trace[0].Crash? && PromptRun(Do(w, trace[0]), trace[1..], limit))
  }

  function Start(n: nat): World {
    World(0, None, [], [], seq(n, _ => Idle))
  }

  ghost predicate Exclusive(w: World) {
    forall i, j :: 0 <= i < j < |w.procs| ==> !(Inside(w.procs[i]) && Inside(w.procs[j]))
  }

  /** Updates took effect one after another: the state holds every saved edit, in order. */
  predicate Serial(w: World) {
    w.file == w.saved
  }

  ghost predicate Inv(w: World) {
    && Serial(w)
    && (forall i :: 0 <= i < |w.procs| ==> !w.procs[i].Breaking?)
    && (forall i :: 0 <= i < |w.procs| && Inside(w.procs[i]) ==> w.lock.Some? && w.lock.value.owner == i)
    && (forall i :: 0 <= i < |w.procs| && w.procs[i].Loaded? ==> w.procs[i].copy == w.file)
  }

  lemma StepKeeps(w: World, step: Step)
    requires Inv(w) && Young(w, LOCK_STALE_MS) && Enabled(w, step)
    ensures Inv(Do(w, step))
  {
  }

  lemma {:induction false} RunKeeps(w: World, trace: seq<Step>, age: int)
    requires Inv(w) && Legal(w, trace) && YoungRun(w, trace, age) && age <= LOCK_STALE_MS
    ensures Inv(Run(w, trace))
    decreases |trace|
  {
    if trace != [] {
      StepKeeps(w, trace[0]);
      RunKeeps(Do(w, trace[0]), trace[1..], age);
    }
  }

  /** Without crashes every lock file has a process inside that made or stamped it. */
  ghost predicate Attended(w: World) {
    && (w.lock.Some? ==> w.lock.value.owner < |w.procs|)
    && (w.lock.Some? ==> Inside(w.procs[w.lock.value.owner]))
    && (w.lock.Some? ==> w.procs[w.lock.value.owner].since <= w.lock.value.mtime)
    && forall i :: 0 <= i < |w.procs| && Inside(w.procs[i]) ==> w.procs[i].since <= w.now
  }

  lemma StepAttended(w: World, step: Step)
    requires Inv(w) && Attended(w) && Enabled(w, step) && !step.Crash?
    ensures Attended(Do(w, step))
  {
  }

  /** Short sections keep the lock file young. */
  lemma {:induction false} PromptIsYoung(w: World, trace: seq<Step>, limit: int)
    requires Inv(w) && Attended(w) && Legal(w, trace) && PromptRun(w, trace, limit) && limit <= LOCK_STALE_MS
    ensures YoungRun(w, trace, limit)
    decreases |trace|
  {
    if trace != [] {
      StepKeeps(w, trace[0]);
      StepAttended(w, trace[0]);
      PromptIsYoung(Do(w, trace[0]), trace[1..], limit);
    }
  }

  /** Every run whose lock file stays within `age` excludes and loses no update. */
  ghost predicate SafeWithin(age: int) {
    forall n: nat, trace :: Legal(Start(n), trace) && YoungRun(Start(n), trace, age) ==>
      Exclusive(Run(Start(n), trace)) && Serial(Run(Start(n), trace))
  }

  /** So does every run without crashes whose sections stay within `limit`. */
  ghost predicate SafeSections(limit: int) {
    forall n: nat, trace :: Legal(Start(n), trace) && PromptRun(Start(n), trace, limit) ==>
      Exclusive(Run(Start(n), trace)) && Serial(Run(Start(n), trace))
  }

  /** A run from `start` to `w` within `age`; a `prompt` one has short sections and no crash. */
  ghost predicate RunsTo(start: World, trace: seq<Step>, w: World, age: int, prompt: bool) {
    && Legal(start, trace) && Run(start, trace) == w && YoungRun(start, trace, age)
    && (prompt ==> PromptRun(start, trace, age))
  }

  ghost predicate Allowed(w: World, step: Step, age: int, prompt: bool) {
    Enabled(w, step) && Young(Do(w, step), age) && (prompt ==> !step.Crash? && Prompt(Do(w, step), age))
  }

  /** A run goes on with one more step. */
  lemma {:induction false} Then(start: World, trace: seq<Step>, w: World, step: Step, age: int, prompt: bool)
      returns (longer: seq<Step>, next: World)
    requires RunsTo(start, trace, w, age, prompt) && Allowed(w, step, age, prompt)
    ensures longer == trace + [step] && next == Do(w, step) && RunsTo(start, longer, next, age, prompt)
    decreases |trace|
  {
    longer, next := trace + [step], Do(w, step);
    if trace != [] {
      var rest, end := Then(Do(start, trace[0]), trace[1..], w, step, age, prompt);
      assert longer[1..] == rest;
    } else {
      assert longer[1..] == [];
    }
  }

  /** Process `i` finds the lock free and loads the state. */
  lemma Take(start: World, trace: seq<Step>, w: World, i: nat, age: int, prompt: bool)
      returns (longer: seq<Step>, next: World)
    requires RunsTo(start, trace, w, age, prompt) && (prompt ==> Prompt(w, age))
    requires i < |w.procs| && w.procs[i].Idle? && w.lock.None? && age >= 0
    ensures next == At(w, i, Loaded(w.now, w.file)).(lock := Some(LockFile(i, w.now)))
    ensures RunsTo(start, longer, next, age, prompt)
  {
    longer, next := Then(start, trace, w, Enter(i), age, prompt);
    longer, next := Then(start, longer, next, Create(i), age, prompt);
    longer, next := Then(start, longer, next, Load(i), age, prompt);
  }

  /** Process `i` finds a stale lock and is about to break it. */
  lemma FindStale(start: World, trace: seq<Step>, w: World, i: nat, age: int, prompt: bool)
      returns (longer: seq<Step>, next: World)
    requires RunsTo(start, trace, w, age, prompt) && (prompt ==> Prompt(w, age))
    requires i < |w.procs| && w.procs[i].Idle?
    requires w.lock.Some? && LOCK_STALE_MS < w.now - w.lock.value.mtime <= age
    ensures next == At(w, i, Breaking(w.now + LOCK_TIMEOUT_MS)) && RunsTo(start, longer, next, age, prompt)
  {
    longer, next := Then(start, trace, w, Enter(i), age, prompt);
    longer, next := Then(start, longer, next, Create(i), age, prompt);
    longer, next := Then(start, longer, next, Inspect(i), age, prompt);
  }

  /** Process `i` breaks whatever lock is there, takes its place and loads the state. */
  lemma Steal(start: World, trace: seq<Step>, w: World, i: nat, age: int, prompt: bool)
      returns (longer: seq<Step>, next: World)
    requires RunsTo(start, trace, w, age, prompt) && (prompt ==> Prompt(w, age))
    requires i < |w.procs| && w.procs[i].Breaking? && w.now < w.procs[i].deadline && age >= 0
    ensures next == At(w, i, Loaded(w.now, w.file)).(lock := Some(LockFile(i, w.now)))
    ensures RunsTo(start, longer, next, age, prompt)
  {
    longer, next := Then(start, trace, w, Break(i), age, prompt);
    longer, next := Then(start, longer, next, Retry(i), age, prompt);
    longer, next := Then(start, longer, next, Create(i), age, prompt);
    longer, next := Then(start, longer, next, Load(i), age, prompt);
  }

  /** The first of two processes is still inside when the second is about to break its lock. */
  lemma SectionOverruns(age: int) returns (trace: seq<Step>, w: World)
    requires age > LOCK_STALE_MS
    ensures RunsTo(Start(2), trace, w, age, true)
    ensures w.procs == [Loaded(0, []), Breaking(w.now + LOCK_TIMEOUT_MS)]
    ensures w.now == LOCK_STALE_MS + 1 && w.file == [] && w.saved == []
  {
    var start := Start(2);
    trace, w := Take(start, [], start, 0, age, true);
    trace, w := Then(start, trace, w, Pass(LOCK_STALE_MS + 1), age, true);
    trace, w := FindStale(start, trace, w, 1, age, true);
  }

  /** Two processes, no crash; the first stays inside, with what it loaded, for longer than
      the limit. */
  lemma OverrunLosesAnUpdate(age: int) returns (trace: seq<Step>)
    requires age > LOCK_STALE_MS
    ensures Legal(Start(2), trace) && YoungRun(Start(2), trace, age) && PromptRun(Start(2), trace, age)
    ensures var w := Run(Start(2), trace); !Exclusive(w) && w.saved == [7, 9] && w.file == [9]
  {
    var start := Start(2);
    var w;
    trace, w := SectionOverruns(age);
    trace, w := Steal(start, trace, w, 1, age, true);
    trace, w := Then(start, trace, w, Save(1, 7), age, true);
    trace, w := Then(start, trace, w, Save(0, 9), age, true);
    assert Inside(w.procs[0]) && Inside(w.procs[1]);
  }

  /** Three processes: the first dies inside, the others find its lock stale. */
  lemma DeadHolderFound(age: int) returns (trace: seq<Step>, w: World)
    requires age > LOCK_STALE_MS
    ensures RunsTo(Start(3), trace, w, age, false)
    ensures w.procs == [Crashed, Breaking(w.now + LOCK_TIMEOUT_MS), Breaking(w.now + LOCK_TIMEOUT_MS)]
    ensures w.now == LOCK_STALE_MS + 1 && w.file == [] && w.saved == []
  {
    var start := Start(3);
    trace, w := Take(start, [], start, 0, age, false);
    trace, w := Then(start, trace, w, Crash(0), age, false);
    trace, w := Then(start, trace, w, Pass(LOCK_STALE_MS + 1), age, false);
    trace, w := FindStale(start, trace, w, 1, age, false);
    trace, w := FindStale(start, trace, w, 2, age, false);
  }

  /** No section need take any time: the first process dies inside, two others find its lock
      stale, and the second breaks the first one's new lock. */
  lemma TwoBreakersOverlap(age: int) returns (trace: seq<Step>)
    requires age > LOCK_STALE_MS
    ensures Legal(Start(3), trace) && YoungRun(Start(3), trace, age)
    ensures var w := Run(Start(3), trace);
            |w.procs| == 3 && w.procs[0].Crashed? && w.now == LOCK_STALE_MS + 1 && w.saved == [7, 9] && w.file == [9]
  {
    var start := Start(3);
    var w;
    trace, w := DeadHolderFound(age);
    trace, w := Steal(start, trace, w, 1, age, false);
    trace, w := Steal(start, trace, w, 2, age, false);
    trace, w := Then(start, trace, w, Save(1, 7), age, false);
    trace, w := Then(start, trace, w, Save(2, 9), age, false);
  }

  /** The lock excludes, and no update is lost, exactly for runs in which no lock file gets
      older than LOCK_STALE_MS. */
  lemma SafeIffWithinTheStaleLimit(age: int)
    requires age >= 0
    ensures SafeWithin(age) <==> age <= 15_000
  {
    if age <= LOCK_STALE_MS {
      forall n: nat, trace | Legal(Start(n), trace) && YoungRun(Start(n), trace, age)
        ensures Exclusive(Run(Start(n), trace)) && Serial(Run(Start(n), trace))
      {
        RunKeeps(Start(n), trace, age);
      }
    } else {
      var trace := OverrunLosesAnUpdate(age);
    }
  }

  /** What a caller controls: while no process dies inside, the lock is safe exactly when no
      section takes longer than LOCK_STALE_MS. */
  lemma SafeIffSectionsAreShort(limit: int)
    requires limit >= 0
    ensures SafeSections(limit) <==> limit <= 15_000
  {
    if limit <= LOCK_STALE_MS {
      forall n: nat, trace | Legal(Start(n), trace) && PromptRun(Start(n), trace, limit)
        ensures Exclusive(Run(Start(n), trace)) && Serial(Run(Start(n), trace))
      {
        PromptIsYoung(Start(n), trace, limit);
        RunKeeps(Start(n), trace, limit);
      }
    } else {
      var trace := OverrunLosesAnUpdate(limit);
    }
  }
}
