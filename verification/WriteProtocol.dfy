// The worker side of durable steps: claim, note the head, write, journal, complete or
// report failure - with crashes, lost answers, lease recovery, verification of writes
// whose outcome is unknown, and other people pushing to the branch at any point.
module WriteProtocol {
  import opened Common
  import opened Git
  import opened Continuity
  import opened ContinuityRuns

  datatype Phase =
    | Claimed                                  // lease granted
    | HeadKnown(base: Commit)                  // the branch head was read
    | Checkpointed(base: Commit)               // ... and stored in the step
    | Prepared(base: Commit, commit: Commit)   // the commit object exists
    | HeadChecked(base: Commit, commit: Commit)
    | Published(commit: Commit)                // the branch moved and the worker knows
    | Journaled(commit: Commit)
    | Failing                                  // an exception is on its way to the report
    | Stopped

  // The token also names the operation the worker journals.
  datatype Worker = Worker(task: string, key: string, token: nat, until: int, writes: bool, phase: Phase)

  datatype JournalEntry = JournalEntry(task: string, key: string, operationId: nat, commit: Commit)

  datatype Publication = Publication(task: string, key: string, commit: Commit)

  // A verification in progress: what it has found, and how often the step had been
  // claimed when it looked.
  datatype Verifier = Verifier(task: string, key: string, attempts: nat, finding: Decision)

  datatype World = World(
    now: int, store: Store, head: Commit, workers: map<nat, Worker>,
    journal: seq<JournalEntry>, verifiers: seq<Verifier>, publications: seq<Publication>)

  datatype Action =
    | Tick(ms: nat)
    | Push(target: Commit)
    | Start(task: string, key: string, leaseMs: int, digest: string, writes: bool)
    | ReadHead(token: nat)
    | SaveHead(token: nat)
    | Prepare(token: nat, tree: Tree, message: string, stamp: nat)
    | CheckHead(token: nat)
    | MoveBranch(token: nat, answered: bool)
    | Record(token: nat)
    | Finish(token: nat, digest: string)
    | Break(token: nat)
    | Report(token: nat)
    | Crash(token: nat)
    | RecoverLeases
    | BeginVerify(task: string, key: string)
    | EndVerify(i: nat)
    | Engine(call: Call)

  function StepOf(st: Store, task: string, key: string): Option<Step>
  {
    if task !in st.tasks then None
    else
      var steps := st.tasks[task].steps;
      if FindStep(steps, key) < |steps| then Some(steps[FindStep(steps, key)]) else None
  }

  function Advance(w: World, worker: Worker, phase: Phase): World
  {
    w.(workers := w.workers[worker.token := worker.(phase := phase)])
  }

  predicate IsEntryFor(e: JournalEntry, task: string, key: string)
  {
    e.task == task && e.key == key
  }

  // The journal is newest first; a verification takes the first success it meets.
  function FindEntry(journal: seq<JournalEntry>, task: string, key: string): (r: Option<JournalEntry>)
    ensures r.Some? ==> r.value in journal && IsEntryFor(r.value, task, key)
    ensures r.None? ==> forall e :: e in journal ==> !IsEntryFor(e, task, key)
  {
    if journal == [] then None
    else if IsEntryFor(journal[0], task, key) then Some(journal[0])
    else FindEntry(journal[1..], task, key)
  }

  // What a verification decides from the journal and, failing that, from the head.
  function Finding(w: World, s: Step, task: string): Decision
  {
    var entry := FindEntry(w.journal, task, s.key);
    if entry.Some? then Verified(Reference(Some(entry.value.operationId), Some(entry.value.commit), ""))
    else if s.checkpoint == Some(HeadBeforeWrite(w.head)) then VerifiedAbsent
    else Undecided
  }

  function WorkerNext(w: World, a: Action, worker: Worker): World
  {
    match a
    case ReadHead(_) =>
      if worker.phase == Claimed && worker.writes then Advance(w, worker, HeadKnown(w.head)) else w
    case SaveHead(_) =>
      if !worker.phase.HeadKnown? then w
      else
        var (st, r) := Apply(w.store, SaveCheckpoint(worker.task, worker.key, Some(HeadBeforeWrite(worker.phase.base))), w.now);
        if r.Err? then Advance(w, worker, Stopped)
        else Advance(w.(store := st), worker, Checkpointed(worker.phase.base))
    case Prepare(_, tree, message, stamp) =>
      if worker.phase.Checkpointed? then
        Advance(w, worker,
          if w.head == worker.phase.base
          then Prepared(worker.phase.base, Commit([worker.phase.base], tree, message, stamp)) else Failing)
      else w
    case CheckHead(_) =>
      if worker.phase.Prepared? then
        Advance(w, worker,
          if w.head == worker.phase.base then HeadChecked(worker.phase.base, worker.phase.commit) else Failing)
      else w
    case MoveBranch(_, answered) =>
      if !worker.phase.HeadChecked? then w
      else if !FastForward(w.head, worker.phase.commit) then Advance(w, worker, Failing)
      else
        var moved := w.(head := worker.phase.commit,
                        publications := w.publications + [Publication(worker.task, worker.key, worker.phase.commit)]);
        Advance(moved, worker, if answered then Published(worker.phase.commit) else Failing)
    case Record(_) =>
      if worker.phase.Published? then
        Advance(w.(journal := [JournalEntry(worker.task, worker.key, worker.token, worker.phase.commit)] + w.journal),
                worker, Journaled(worker.phase.commit))
      else w
    case Finish(_, digest) =>
      if !(worker.phase.Journaled? || (worker.phase == Claimed && !worker.writes)) then w
      else
        var reference := Reference(Some(worker.token),
          if worker.phase.Journaled? then Some(worker.phase.commit) else None, digest);
        var (st, r) := Apply(w.store, Complete(worker.task, worker.key, Some(worker.token), reference, None), w.now);
        Advance(w.(store := st), worker, if r.Ok? then Stopped else Failing)
    case Break(_) =>
      if worker.phase == Stopped then w
      else if worker.writes && (worker.phase == Claimed || worker.phase.HeadKnown?) then Advance(w, worker, Stopped)
      else Advance(w, worker, Failing)
    case Report(_) =>
      if worker.phase != Failing then w
      else
        var (st, _) := Apply(w.store, Fail(worker.task, worker.key, Some(worker.token), worker.writes), w.now);
        Advance(w.(store := st), worker, Stopped)
    case _ => Advance(w, worker, Stopped)
  }

  predicate IsWorkerAction(a: Action)
  {
    a.ReadHead? || a.SaveHead? || a.Prepare? || a.CheckHead? || a.MoveBranch? || a.Record?
    || a.Finish? || a.Break? || a.Report? || a.Crash?
  }

  // Actions that are not possible leave the world as it is.
  function Next(w: World, a: Action): World
  {
    match a
    case Tick(ms) => w.(now := w.now + ms)
    case Push(target) => if FastForward(w.head, target) then w.(head := target) else w
    case Start(task, key, leaseMs, digest, writes) =>
      var (st, r) := Apply(w.store, Claim(task, key, leaseMs, digest), w.now);
      if r.Ok? && r.value.Granted? then
        w.(store := st,
           workers := w.workers[r.value.token := Worker(task, key, r.value.token, r.value.until, writes, Claimed)])
      else w
    case RecoverLeases => w.(store := Apply(w.store, Recover, w.now).0)
    case BeginVerify(task, key) =>
      var s := StepOf(w.store, task, key);
      if s.Some? && s.value.status == VerificationRequired
      then w.(verifiers := w.verifiers + [Verifier(task, s.value.key, s.value.attempts, Finding(w, s.value, task))])
      else w
    case EndVerify(i) =>
      if i < |w.verifiers| && w.verifiers[i].finding != Undecided then
        var v := w.verifiers[i];
        w.(store := Apply(w.store, Resolve(v.task, v.key, v.finding), w.now).0)
      else w
    case Engine(call) => w.(store := Apply(w.store, call, w.now).0)
    case _ =>
      if a.token in w.workers && w.workers[a.token].token == a.token then WorkerNext(w, a, w.workers[a.token]) else w
  }

  function Play(w: World, actions: seq<Action>): World
    decreases |actions|
  {
    if actions == [] then w else Play(Next(w, actions[0]), actions[1..])
  }

  // ---------------------------------------------------------------- what the protocol relies on

  predicate ClearNames(steps: seq<Step>)
  {
    forall i, j :: 0 <= i < |steps| && 0 <= j < |steps| && steps[i].id == steps[j].key ==> i == j
  }

  predicate FreshDescriptors(descriptors: seq<Descriptor>)
  {
    forall i :: 0 <= i < |descriptors| ==> descriptors[i].status == Queued && descriptors[i].attempts == 0
  }

  predicate Disciplined(w: World, a: Action)
  {
    match a
    // Recovery has run before a write with an expired lease is claimed again, and the
    // caller names the step by its idempotency key.
    case Start(task, key, _, _, _) =>
      task in w.store.tasks ==>
        && HasKey(w.store.tasks[task].steps, key)
        && forall i | 0 <= i < |w.store.tasks[task].steps| ::
             w.store.tasks[task].steps[i].mode == WriteMode && w.store.tasks[task].steps[i].key == key ==>
             !Expired(w.store.tasks[task].steps[i], w.now)
    // Nobody claimed the step between what a verification saw and what it decides.
    case EndVerify(i) =>
      i < |w.verifiers| && w.verifiers[i].finding == VerifiedAbsent ==>
        var s := StepOf(w.store, w.verifiers[i].task, w.verifiers[i].key);
        s.Some? ==> s.value.attempts == w.verifiers[i].attempts
    // Other callers only create, define, resume and cancel; new steps start queued,
    // and the ids and keys of a task do not collide.
    case Engine(call) =>
      && (call.Create? || call.Define? || call.Resume? || call.Cancel?)
      && (call.Define? ==> FreshDescriptors(call.descriptors))
      && (call.Define? && call.task in w.store.tasks ==>
            ClearNames(Apply(w.store, call, w.now).0.tasks[call.task].steps))
    // A worker does nothing more once its lease has run out.
    case _ => IsWorkerAction(a) && a.token in w.workers ==> w.now < w.workers[a.token].until
  }

  predicate DisciplinedPlay(w: World, actions: seq<Action>)
    decreases |actions|
  {
    actions == [] || (Disciplined(w, actions[0]) && DisciplinedPlay(Next(w, actions[0]), actions[1..]))
  }

  function CountFor(publications: seq<Publication>, task: string, key: string): nat
  {
    if publications == [] then 0
    else
      CountFor(publications[..|publications| - 1], task, key)
      + (if publications[|publications| - 1].task == task && publications[|publications| - 1].key == key then 1 else 0)
  }

  predicate Initial(w: World)
  {
    w.store.tasks == map[] && w.workers == map[] && w.journal == [] && w.verifiers == [] && w.publications == []
  }
}
