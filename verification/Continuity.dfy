// The durable-step engine: what every call does to the stored tasks, as functions on
// values. ContinuityEngine.dfy holds the object that carries the calls out.
module Continuity {
  import opened Common
  import opened Git

  const DEFAULT_LEASE_MS := 90_000
  const MAX_STEPS := 80

  datatype Mode = ReadMode | WriteMode | InferenceMode

  datatype StepStatus = Queued | Running | Interrupted | VerificationRequired | Completed | Failed | Cancelled

  datatype TaskStatus =
    | TaskCreated | TaskRunning | TaskInterrupted | TaskVerificationRequired
    | TaskCompleted | TaskFailed | TaskCancelled

  // The token and the expiry time are always written and erased together.
  datatype Lease = NoLease | Lease(token: nat, until: int)

  datatype Checkpoint = HeadBeforeWrite(head: Commit) | OtherCheckpoint(kind: string)

  // Where a finished step says its result is.
  datatype Reference = Reference(operationId: Option<nat>, commitSha: Option<Commit>, outputDigest: string)
  {
    predicate Present() { operationId.Some? || commitSha.Some? }
  }

  datatype Step = Step(
    id: string, key: string, index: nat, mode: Mode, status: StepStatus,
    attempts: nat, maxAttempts: nat, resumable: bool, retrySafe: bool,
    lease: Lease, inputDigest: string, result: Reference, checkpoint: Option<Checkpoint>)

  datatype Task = Task(status: TaskStatus, steps: seq<Step>, resumeCount: nat)

  datatype Store = Store(tasks: map<string, Task>, nextToken: nat)

  datatype Code =
    | TaskNotFound | StepNotFound | TaskIsCancelled | TaskClosed | StepsRequired | TooManySteps | KeyRequired
    | WriteVerificationRequired | StepClosed | MaxAttemptsExceeded
    | LeaseMismatch | LeaseExpired | WriteResultReferenceRequired
    | StepNotAwaitingVerification | VerifiedWriteReferenceRequired | WriteRetryNotSafe
    | VerificationDecisionRequired | VerificationRequiredBeforeResume

  datatype Decision = Verified(reference: Reference) | VerifiedAbsent | Undecided

  datatype Call =
    | Create(task: string)
    | Define(task: string, descriptors: seq<Descriptor>)
    | Claim(task: string, key: string, leaseMs: int, digest: string)
    | Complete(task: string, key: string, token: Option<nat>, reference: Reference, checkpoint: Option<Checkpoint>)
    | Fail(task: string, key: string, token: Option<nat>, outcomeUnknown: bool)
    | Resolve(task: string, key: string, decision: Decision)
    | Recover
    | Resume(task: string)
    | Cancel(task: string)
    | SaveCheckpoint(task: string, key: string, checkpoint: Option<Checkpoint>)

  datatype Reply = Granted(token: nat, until: int) | Busy | Replayed(reference: Reference) | Ignored | Done

  // ---------------------------------------------------------------- descriptors

  datatype Descriptor = Descriptor(
    id: string, key: string, index: Option<nat>, mode: Mode, status: StepStatus,
    attempts: nat, maxAttempts: Option<int>, resumable: bool, retrySafe: Option<bool>,
    result: Reference, checkpoint: Option<Checkpoint>)

  // A new step never carries a lease, and its attempt budget is between one and eight: the
  // one asked for where that is possible, else two for a write and four for the rest.
  function Normalize(d: Descriptor, position: nat): (s: Step)
    ensures 1 <= s.maxAttempts <= 8 && s.lease == NoLease
    ensures d.maxAttempts.Some? && 1 <= d.maxAttempts.value <= 8 ==> s.maxAttempts == d.maxAttempts.value
    ensures d.maxAttempts == None ==> s.maxAttempts == if d.mode == WriteMode then 2 else 4
    ensures (s.id, s.key, s.mode, s.status, s.attempts) == (d.id, d.key, d.mode, d.status, d.attempts)
    ensures d.index == None ==> s.index == position
    ensures s.mode == WriteMode ==> (s.retrySafe <==> d.retrySafe == Some(true))
  {
    var budget := match d.maxAttempts
      case Some(n) => if n != 0 then n else if d.mode == WriteMode then 2 else 4
      case None => if d.mode == WriteMode then 2 else 4;
    Step(d.id, d.key, if d.index.Some? then d.index.value else position, d.mode, d.status, d.attempts,
         Max(1, Min(8, budget)), d.resumable,
         if d.mode == WriteMode then d.retrySafe == Some(true) else d.retrySafe != Some(false),
         NoLease, "", d.result, d.checkpoint)
  }

  // ---------------------------------------------------------------- looking up

  predicate Matches(s: Step, key: string)
  {
    s.id == key || s.key == key
  }

  // The first step whose id or idempotency key is `key`; `|steps|` when there is none.
  function FindStep(steps: seq<Step>, key: string): (i: nat)
    ensures i <= |steps|
    ensures i < |steps| ==> Matches(steps[i], key)
    ensures forall j :: 0 <= j < i ==> !Matches(steps[j], key)
  {
    if steps == [] then 0
    else if Matches(steps[0], key) then 0
    else
      var i := FindStep(steps[1..], key);
      assert forall j :: 1 <= j < i + 1 ==> steps[j] == steps[1..][j - 1];
      i + 1
  }

  predicate HasKey(steps: seq<Step>, key: string)
  {
    exists i :: 0 <= i < |steps| && steps[i].key == key
  }

  predicate LeaseLive(s: Step, now: int)
  {
    s.lease.Lease? && s.lease.until > now
  }

  // ---------------------------------------------------------------- task status

  predicate AllCompleted(steps: seq<Step>)
  {
    forall i :: 0 <= i < |steps| ==> steps[i].status == Completed
  }

  predicate SomeStatus(steps: seq<Step>, status: StepStatus)
  {
    exists i :: 0 <= i < |steps| && steps[i].status == status
  }

  predicate SomeFinalFailure(steps: seq<Step>)
  {
    exists i :: 0 <= i < |steps| && steps[i].status == Failed && !steps[i].resumable
  }

  function Refresh(t: Task): (r: Task)
    ensures r.steps == t.steps
  {
    if t.status == TaskCancelled then t
    else if t.steps != [] && AllCompleted(t.steps) then t.(status := TaskCompleted)
    else if SomeStatus(t.steps, VerificationRequired) then t.(status := TaskVerificationRequired)
    else if SomeStatus(t.steps, Running) then t.(status := TaskRunning)
    else if SomeStatus(t.steps, Interrupted) then t.(status := TaskInterrupted)
    else if SomeFinalFailure(t.steps) then t.(status := TaskFailed)
    else if SomeStatus(t.steps, Failed) then t.(status := TaskInterrupted)
    else if t.steps != [] then t.(status := TaskCreated)
    else t
  }

  // ---------------------------------------------------------------- steps of one task

  function SafeLease(leaseMs: int): (ms: int)
    ensures 15_000 <= ms <= 600_000
  {
    Max(15_000, Min(600_000, if leaseMs == 0 then DEFAULT_LEASE_MS else leaseMs))
  }

  function GrantStep(s: Step, token: nat, until: int, digest: string): Step
  {
    s.(status := Running, attempts := s.attempts + 1, lease := Lease(token, until),
       inputDigest := if digest != "" then digest else s.inputDigest)
  }

  function ClaimTask(t: Task, key: string, now: int, leaseMs: int, token: nat, digest: string): Result<(Task, Reply), Code>
  {
    var i := FindStep(t.steps, key);
    if t.status == TaskCancelled then Err(TaskIsCancelled)
    else if i == |t.steps| then Err(StepNotFound)
    else
      var s := t.steps[i];
      if s.status == Completed then Ok((t, Replayed(s.result)))
      else if s.status == VerificationRequired then Err(WriteVerificationRequired)
      else if s.status == Cancelled || (!s.resumable && s.status == Failed) then Err(StepClosed)
      else if s.status == Running && LeaseLive(s, now) then Ok((t, Busy))
      else if s.attempts >= s.maxAttempts then Err(MaxAttemptsExceeded)
      else
        var until := now + SafeLease(leaseMs);
        Ok((t.(status := TaskRunning, steps := t.steps[i := GrantStep(s, token, until, digest)]),
            Granted(token, until)))
  }

  function CheckLease(s: Step, token: Option<nat>, now: int): Option<Code>
  {
    if !s.lease.Lease? || token != Some(s.lease.token) then Some(LeaseMismatch)
    else if s.lease.until <= now then Some(LeaseExpired)
    else None
  }

  function CompleteTask(t: Task, key: string, token: Option<nat>, reference: Reference,
                        checkpoint: Option<Checkpoint>, now: int): Result<(Task, Reply), Code>
  {
    var i := FindStep(t.steps, key);
    if i == |t.steps| then Err(StepNotFound)
    else
      var s := t.steps[i];
      if s.status == Completed then Ok((t, Replayed(s.result)))
      else
        var refused := CheckLease(s, token, now);
        if refused.Some? then Err(refused.value)
        else if s.mode == WriteMode && !reference.Present() then Err(WriteResultReferenceRequired)
        else
          var s' := s.(status := Completed, result := reference, checkpoint := checkpoint, lease := NoLease);
          Ok((Refresh(t.(steps := t.steps[i := s'])), Done))
  }

  function FailedStatus(s: Step): StepStatus
  {
    if s.resumable && s.attempts < s.maxAttempts then Interrupted else Failed
  }

  function FailTask(t: Task, key: string, token: Option<nat>, outcomeUnknown: bool, now: int): Result<(Task, Reply), Code>
  {
    var i := FindStep(t.steps, key);
    if i == |t.steps| then Err(StepNotFound)
    else
      var s := t.steps[i];
      if s.status == Completed then Ok((t, Ignored))
      else
        var refused := if token.Some? then CheckLease(s, token, now) else None;
        if refused.Some? then Err(refused.value)
        else
          var unknownWrite := s.mode == WriteMode && outcomeUnknown;
          var s' := s.(status := if unknownWrite then VerificationRequired else FailedStatus(s), lease := NoLease);
          Ok((Refresh(t.(steps := t.steps[i := s'])), Done))
  }

  function ResolveTask(t: Task, key: string, decision: Decision): Result<(Task, Reply), Code>
  {
    var i := FindStep(t.steps, key);
    if i == |t.steps| then Err(StepNotFound)
    else
      var s := t.steps[i];
      if s.status != VerificationRequired then Err(StepNotAwaitingVerification)
      else match decision
        case Verified(reference) =>
          if !reference.Present() then Err(VerifiedWriteReferenceRequired)
          else Ok((Refresh(t.(steps := t.steps[i := s.(status := Completed, result := reference)])), Done))
        case VerifiedAbsent =>
          if !s.retrySafe then Err(WriteRetryNotSafe)
          else Ok((Refresh(t.(steps := t.steps[i := s.(status := Interrupted)])), Done))
        case Undecided => Err(VerificationDecisionRequired)
  }

  predicate Expired(s: Step, now: int)
  {
    s.status == Running && !LeaseLive(s, now)
  }

  function RecoverStep(s: Step, now: int): Step
  {
    if !Expired(s, now) then s
    else s.(status := if s.mode == WriteMode then VerificationRequired else FailedStatus(s), lease := NoLease)
  }

  function RecoverTask(t: Task, now: int): Task
  {
    if exists i :: 0 <= i < |t.steps| && Expired(t.steps[i], now) then
      Refresh(t.(steps := seq(|t.steps|, i requires 0 <= i < |t.steps| => RecoverStep(t.steps[i], now)),
                 resumeCount := t.resumeCount + 1))
    else t
  }

  function ResumeStep(s: Step): Step
  {
    if s.status == Failed && s.resumable && s.attempts < s.maxAttempts then s.(status := Interrupted) else s
  }

  function ResumeTask(t: Task): Result<(Task, Reply), Code>
  {
    if t.status == TaskCancelled || t.status == TaskCompleted then Err(TaskClosed)
    else if SomeStatus(t.steps, VerificationRequired) then Err(VerificationRequiredBeforeResume)
    else Ok((t.(status := TaskRunning, resumeCount := t.resumeCount + 1,
                steps := seq(|t.steps|, i requires 0 <= i < |t.steps| => ResumeStep(t.steps[i]))), Done))
  }

  function CancelStep(s: Step): Step
  {
    s.(status := if s.status == Completed then Completed else Cancelled, lease := NoLease)
  }

  function CancelTask(t: Task): Task
  {
    t.(status := TaskCancelled, steps := seq(|t.steps|, i requires 0 <= i < |t.steps| => CancelStep(t.steps[i])))
  }

  function CheckpointTask(t: Task, key: string, checkpoint: Option<Checkpoint>): Result<(Task, Reply), Code>
  {
    var i := FindStep(t.steps, key);
    if i == |t.steps| then Err(StepNotFound)
    else Ok((t.(steps := t.steps[i := t.steps[i].(checkpoint := checkpoint)]), Done))
  }

  // Descriptors whose key is already known are skipped; the rest go to the end. The default
  // index counts the steps so far and the `done` descriptors, so it may leave gaps.
  function AddSteps(steps: seq<Step>, descriptors: seq<Descriptor>, done: nat): seq<Step>
    decreases |descriptors|
  {
    if descriptors == [] then steps
    else
      var s := Normalize(descriptors[0], |steps| + done);
      AddSteps(if HasKey(steps, s.key) then steps else steps + [s], descriptors[1..], done + 1)
  }

  // A stable sort by index.
  function InsertByIndex(sorted: seq<Step>, s: Step): (r: seq<Step>)
    ensures |r| == |sorted| + 1
  {
    if sorted != [] && sorted[|sorted| - 1].index > s.index
    then InsertByIndex(sorted[..|sorted| - 1], s) + [sorted[|sorted| - 1]]
    else sorted + [s]
  }

  function SortByIndex(steps: seq<Step>): (r: seq<Step>)
    ensures |r| == |steps|
  {
    if steps == [] then [] else InsertByIndex(SortByIndex(steps[..|steps| - 1]), steps[|steps| - 1])
  }

  function DefineTask(t: Task, descriptors: seq<Descriptor>): Result<(Task, Reply), Code>
  {
    if t.status == TaskCompleted || t.status == TaskCancelled then Err(TaskClosed)
    else if exists i :: 0 <= i < |descriptors| && descriptors[i].key == "" then Err(KeyRequired)
    else Ok((Refresh(t.(steps := SortByIndex(AddSteps(t.steps, descriptors, 0)))), Done))
  }

  // ---------------------------------------------------------------- the store

  function TaskCall(t: Task, call: Call, now: int, token: nat): Result<(Task, Reply), Code>
    requires !call.Create? && !call.Recover?
  {
    match call
    case Define(_, descriptors) => DefineTask(t, descriptors)
    case Claim(_, key, leaseMs, digest) => ClaimTask(t, key, now, leaseMs, token, digest)
    case Complete(_, key, presented, reference, checkpoint) => CompleteTask(t, key, presented, reference, checkpoint, now)
    case Fail(_, key, presented, outcomeUnknown) => FailTask(t, key, presented, outcomeUnknown, now)
    case Resolve(_, key, decision) => ResolveTask(t, key, decision)
    case Resume(_) => ResumeTask(t)
    case Cancel(_) => Ok((CancelTask(t), Done))
    case SaveCheckpoint(_, key, checkpoint) => CheckpointTask(t, key, checkpoint)
  }

  // One call on the stored tasks. A rejected call is a mutator that threw: the working
  // copy is thrown away, so the store is what it was.
  function Apply(st: Store, call: Call, now: int): (r: (Store, Result<Reply, Code>))
    ensures r.1.Err? ==> r.0 == st
  {
    if call.Create? then
      (if call.task in st.tasks then st else st.(tasks := st.tasks[call.task := Task(TaskCreated, [], 0)]), Ok(Done))
    else if call.Recover? then
      (st.(tasks := map id | id in st.tasks :: RecoverTask(st.tasks[id], now)), Ok(Done))
    else if call.Define? && call.descriptors == [] then (st, Err(StepsRequired))
    else if call.Define? && |call.descriptors| > MAX_STEPS then (st, Err(TooManySteps))
    else if call.task !in st.tasks then (st, Err(TaskNotFound))
    else match TaskCall(st.tasks[call.task], call, now, st.nextToken)
      case Err(code) => (st, Err(code))
      case Ok((t, reply)) =>
        (Store(st.tasks[call.task := t], if reply.Granted? then st.nextToken + 1 else st.nextToken), Ok(reply))
  }
}
