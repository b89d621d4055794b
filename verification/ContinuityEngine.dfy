// The engine as the object the runtime calls: each method loads the stored tasks,
// changes them in place and stores them, and leaves them alone when it rejects.
module ContinuityEngine {
  import opened Common
  import opened Continuity

  class Engine {
    var tasks: map<string, Task>
    var nextToken: nat

    function Snapshot(): Store
      reads this
    {
      Store(tasks, nextToken)
    }

    constructor ()
      ensures Snapshot() == Store(map[], 0)
    {
      tasks, nextToken := map[], 0;
    }

    method CreateTask(id: string)
      modifies this
      ensures Snapshot() == Apply(old(Snapshot()), Create(id), 0).0
    {
      if id !in tasks {
        tasks := tasks[id := Task(TaskCreated, [], 0)];
      }
    }

    method DefineSteps(id: string, descriptors: seq<Descriptor>) returns (r: Result<Reply, Code>)
      modifies this
      ensures (Snapshot(), r) == Apply(old(Snapshot()), Define(id, descriptors), 0)
    {
      if descriptors == [] { return Err(StepsRequired); }
      if |descriptors| > MAX_STEPS { return Err(TooManySteps); }
      if id !in tasks { return Err(TaskNotFound); }
      var task := tasks[id];
      if task.status == TaskCompleted || task.status == TaskCancelled { return Err(TaskClosed); }
      if exists i :: 0 <= i < |descriptors| && descriptors[i].key == "" { return Err(KeyRequired); }
      var steps := AddNew(task.steps, descriptors);
      tasks := tasks[id := Refresh(task.(steps := SortByIndex(steps)))];
      return Ok(Done);
    }

    // The loop over the descriptors, with the set of known keys it keeps.
    static method AddNew(known: seq<Step>, descriptors: seq<Descriptor>) returns (steps: seq<Step>)
      ensures steps == AddSteps(known, descriptors, 0)
    {
      steps := known;
      var existing := Keys(steps);
      ghost var goal := AddSteps(known, descriptors, 0);
      for i := 0 to |descriptors|
        invariant existing == Keys(steps)
        invariant Leads(steps, descriptors, i, goal)
      {
        var step := Normalize(descriptors[i], |steps| + i);
        if step.key !in existing {
          steps := steps + [step];
          existing := existing + {step.key};
        }
      }
    }

    method ClaimStep(id: string, key: string, leaseMs: int, digest: string, now: int) returns (r: Result<Reply, Code>)
      modifies this
      ensures (Snapshot(), r) == Apply(old(Snapshot()), Claim(id, key, leaseMs, digest), now)
      // The new token, and no other, holds the step from now on.
      ensures r.Ok? && r.value.Granted? ==> r.value.token == old(nextToken) && Owns(Snapshot(), id, key, Some(r.value.token), now)
      ensures KeepsResults(old(Snapshot()), Snapshot())
    {
      ClaimPromises(Snapshot(), id, key, leaseMs, digest, now);
      if id !in tasks { return Err(TaskNotFound); }
      var task := tasks[id];
      if task.status == TaskCancelled { return Err(TaskIsCancelled); }
      var i := FindStep(task.steps, key);
      if i == |task.steps| { return Err(StepNotFound); }
      var step := task.steps[i];
      if step.status == Completed {
        tasks := tasks[id := task];
        return Ok(Replayed(step.result));
      }
      if step.status == VerificationRequired { return Err(WriteVerificationRequired); }
      if step.status == Cancelled || (!step.resumable && step.status == Failed) { return Err(StepClosed); }
      if step.status == Running && LeaseLive(step, now) {
        tasks := tasks[id := task];
        return Ok(Busy);
      }
      if step.attempts >= step.maxAttempts { return Err(MaxAttemptsExceeded); }
      var token := nextToken;
      nextToken := nextToken + 1;
      var until := now + SafeLease(leaseMs);
      step := step.(status := Running, attempts := step.attempts + 1);
      step := step.(lease := Lease(token, until));
      if digest != "" {
        step := step.(inputDigest := digest);
      }
      task := task.(steps := task.steps[i := step], status := TaskRunning);
      tasks := tasks[id := task];
      return Ok(Granted(token, until));
    }

    method CompleteStep(id: string, key: string, token: Option<nat>, reference: Reference,
                        checkpoint: Option<Checkpoint>, now: int) returns (r: Result<Reply, Code>)
      modifies this
      ensures (Snapshot(), r) == Apply(old(Snapshot()), Complete(id, key, token, reference, checkpoint), now)
      // Without the live lease nothing changes.
      ensures !Owns(old(Snapshot()), id, key, token, now) ==> Snapshot() == old(Snapshot())
      ensures KeepsResults(old(Snapshot()), Snapshot())
    {
      ReportPromises(Snapshot(), Complete(id, key, token, reference, checkpoint), now);
      if id !in tasks { return Err(TaskNotFound); }
      var task := tasks[id];
      var i := FindStep(task.steps, key);
      if i == |task.steps| { return Err(StepNotFound); }
      var step := task.steps[i];
      if step.status == Completed {
        tasks := tasks[id := task];
        return Ok(Replayed(step.result));
      }
      var refused := CheckLease(step, token, now);
      if refused.Some? { return Err(refused.value); }
      if step.mode == WriteMode && !reference.Present() { return Err(WriteResultReferenceRequired); }
      step := step.(status := Completed, result := reference, checkpoint := checkpoint);
      step := step.(lease := NoLease);
      tasks := tasks[id := Refresh(task.(steps := task.steps[i := step]))];
      return Ok(Done);
    }

    method FailStep(id: string, key: string, token: Option<nat>, outcomeUnknown: bool, now: int) returns (r: Result<Reply, Code>)
      modifies this
      ensures (Snapshot(), r) == Apply(old(Snapshot()), Fail(id, key, token, outcomeUnknown), now)
      ensures token.Some? && !Owns(old(Snapshot()), id, key, token, now) ==> Snapshot() == old(Snapshot())
      ensures KeepsResults(old(Snapshot()), Snapshot())
    {
      ReportPromises(Snapshot(), Fail(id, key, token, outcomeUnknown), now);
      if id !in tasks { return Err(TaskNotFound); }
      var task := tasks[id];
      var i := FindStep(task.steps, key);
      if i == |task.steps| { return Err(StepNotFound); }
      var step := task.steps[i];
      if step.status == Completed {
        tasks := tasks[id := task];
        return Ok(Ignored);
      }
      if token.Some? {
        var refused := CheckLease(step, token, now);
        if refused.Some? { return Err(refused.value); }
      }
      if step.mode == WriteMode && outcomeUnknown {
        step := step.(status := VerificationRequired);
      } else {
        step := step.(status := FailedStatus(step));
      }
      step := step.(lease := NoLease);
      tasks := tasks[id := Refresh(task.(steps := task.steps[i := step]))];
      return Ok(Done);
    }

    method ResolveWrite(id: string, key: string, decision: Decision) returns (r: Result<Reply, Code>)
      modifies this
      ensures (Snapshot(), r) == Apply(old(Snapshot()), Resolve(id, key, decision), 0)
      ensures !Parked(old(Snapshot()), id, key) ==> r.Err? && Snapshot() == old(Snapshot())
      ensures KeepsResults(old(Snapshot()), Snapshot())
    {
      ResolvePromises(Snapshot(), id, key, decision);
      if id !in tasks { return Err(TaskNotFound); }
      var task := tasks[id];
      var i := FindStep(task.steps, key);
      if i == |task.steps| { return Err(StepNotFound); }
      var step := task.steps[i];
      if step.status != VerificationRequired { return Err(StepNotAwaitingVerification); }
      match decision {
        case Verified(reference) =>
          if !reference.Present() { return Err(VerifiedWriteReferenceRequired); }
          step := step.(status := Completed, result := reference);
        case VerifiedAbsent =>
          if !step.retrySafe { return Err(WriteRetryNotSafe); }
          step := step.(status := Interrupted);
        case Undecided =>
          return Err(VerificationDecisionRequired);
      }
      tasks := tasks[id := Refresh(task.(steps := task.steps[i := step]))];
      return Ok(Done);
    }

    static method RecoverSteps(task: Task, now: int) returns (r: Task)
      ensures r == RecoverTask(task, now)
    {
      var steps := task.steps;
      var touched := false;
      for i := 0 to |steps|
        invariant |steps| == |task.steps|
        invariant touched <==> exists j :: 0 <= j < i && Expired(task.steps[j], now)
        invariant forall j :: 0 <= j < |steps| ==> steps[j] == if j < i then RecoverStep(task.steps[j], now) else task.steps[j]
      {
        var step := steps[i];
        if step.status == Running && !LeaseLive(step, now) {
          if step.mode == WriteMode {
            step := step.(status := VerificationRequired, lease := NoLease);
          } else {
            step := step.(status := FailedStatus(step), lease := NoLease);
          }
          steps := steps[i := step];
          touched := true;
        }
      }
      r := task;
      if touched {
        assert steps == seq(|task.steps|, i requires 0 <= i < |task.steps| => RecoverStep(task.steps[i], now));
        r := Refresh(task.(steps := steps, resumeCount := task.resumeCount + 1));
      }
    }

    method RecoverExpired(now: int)
      modifies this
      ensures Snapshot() == Apply(old(Snapshot()), Recover, now).0
      ensures KeepsResults(old(Snapshot()), Snapshot())
    {
      RecoverPromises(Snapshot(), now);
      ghost var before := tasks;
      var pending := tasks.Keys;
      while pending != {}
        invariant pending <= before.Keys && tasks.Keys == before.Keys && nextToken == old(nextToken)
        invariant forall id :: id in before ==> tasks[id] == if id in pending then before[id] else RecoverTask(before[id], now)
        decreases |pending|
      {
        var id :| id in pending;
        var recovered := RecoverSteps(tasks[id], now);
        tasks := tasks[id := recovered];
        pending := pending - {id};
      }
      assert tasks == map id | id in before :: RecoverTask(before[id], now);
    }

    method ResumeSteps(id: string) returns (r: Result<Reply, Code>)
      modifies this
      ensures (Snapshot(), r) == Apply(old(Snapshot()), Resume(id), 0)
      ensures KeepsResults(old(Snapshot()), Snapshot())
    {
      OtherPromises(Snapshot(), Resume(id));
      if id !in tasks { return Err(TaskNotFound); }
      var task := tasks[id];
      if task.status == TaskCancelled || task.status == TaskCompleted { return Err(TaskClosed); }
      if SomeStatus(task.steps, VerificationRequired) { return Err(VerificationRequiredBeforeResume); }
      var steps := task.steps;
      for i := 0 to |steps|
        invariant |steps| == |task.steps|
        invariant forall j :: 0 <= j < |steps| ==> steps[j] == if j < i then ResumeStep(task.steps[j]) else task.steps[j]
      {
        if steps[i].status == Failed && steps[i].resumable && steps[i].attempts < steps[i].maxAttempts {
          steps := steps[i := steps[i].(status := Interrupted)];
        }
      }
      assert steps == seq(|task.steps|, i requires 0 <= i < |task.steps| => ResumeStep(task.steps[i]));
      tasks := tasks[id := Task(TaskRunning, steps, task.resumeCount + 1)];
      return Ok(Done);
    }

    method CancelSteps(id: string) returns (r: Result<Reply, Code>)
      modifies this
      ensures (Snapshot(), r) == Apply(old(Snapshot()), Cancel(id), 0)
      ensures KeepsResults(old(Snapshot()), Snapshot())
    {
      OtherPromises(Snapshot(), Cancel(id));
      if id !in tasks { return Err(TaskNotFound); }
      var task := tasks[id];
      var steps := task.steps;
      for i := 0 to |steps|
        invariant |steps| == |task.steps|
        invariant forall j :: 0 <= j < |steps| ==> steps[j] == if j < i then CancelStep(task.steps[j]) else task.steps[j]
      {
        var step := steps[i];
        if step.status != Completed && step.status != Cancelled {
          step := step.(status := Cancelled);
        }
        steps := steps[i := step.(lease := NoLease)];
      }
      assert steps == seq(|task.steps|, i requires 0 <= i < |task.steps| => CancelStep(task.steps[i]));
      tasks := tasks[id := task.(status := TaskCancelled, steps := steps)];
      return Ok(Done);
    }

    method CheckpointStep(id: string, key: string, checkpoint: Option<Checkpoint>) returns (r: Result<Reply, Code>)
      modifies this
      ensures (Snapshot(), r) == Apply(old(Snapshot()), SaveCheckpoint(id, key, checkpoint), 0)
      ensures KeepsResults(old(Snapshot()), Snapshot())
    {
      OtherPromises(Snapshot(), SaveCheckpoint(id, key, checkpoint));
      if id !in tasks { return Err(TaskNotFound); }
      var task := tasks[id];
      var i := FindStep(task.steps, key);
      if i == |task.steps| { return Err(StepNotFound); }
      tasks := tasks[id := task.(steps := task.steps[i := task.steps[i].(checkpoint := checkpoint)])];
      return Ok(Done);
    }
  }

  // The token is that of the step's lease, and the lease is live.
  predicate Owns(st: Store, id: string, key: string, token: Option<nat>, now: int)
  {
    && id in st.tasks && FindStep(st.tasks[id].steps, key) < |st.tasks[id].steps|
    && CheckLease(st.tasks[id].steps[FindStep(st.tasks[id].steps, key)], token, now) == None
  }

  predicate Parked(st: Store, id: string, key: string)
  {
    && id in st.tasks && FindStep(st.tasks[id].steps, key) < |st.tasks[id].steps|
    && st.tasks[id].steps[FindStep(st.tasks[id].steps, key)].status == VerificationRequired
  }

  // Every completed step is still there with its result.
  predicate KeepsResults(before: Store, after: Store)
  {
    forall id, i | id in before.tasks && 0 <= i < |before.tasks[id].steps| ::
      before.tasks[id].steps[i].status == Completed ==>
        && id in after.tasks && i < |after.tasks[id].steps|
        && after.tasks[id].steps[i].status == Completed && after.tasks[id].steps[i].result == before.tasks[id].steps[i].result
  }

  lemma {:induction false} ClaimKeepsResults(st: Store, call: Call, now: int)
    requires call.Claim?
    ensures KeepsResults(st, Apply(st, call, now).0)
  {
  }

  lemma {:induction false} ClaimPromises(st: Store, id: string, key: string, leaseMs: int, digest: string, now: int)
    ensures var (st', r) := Apply(st, Claim(id, key, leaseMs, digest), now);
            && (r.Ok? && r.value.Granted? ==> r.value.token == st.nextToken && Owns(st', id, key, Some(r.value.token), now))
            && KeepsResults(st, st')
  {
    var call := Claim(id, key, leaseMs, digest);
    ClaimKeepsResults(st, call, now);
    var (st', r) := Apply(st, call, now);
    if r.Ok? && r.value.Granted? {
      var steps, i := st.tasks[id].steps, FindStep(st.tasks[id].steps, key);
      var s := GrantStep(steps[i], st.nextToken, now + SafeLease(leaseMs), digest);
      StillFound(steps, key, s);
      assert st'.tasks[id].steps == steps[i := s];
    }
  }

  // A step changed in place is found where it was.
  lemma {:induction false} StillFound(steps: seq<Step>, key: string, s: Step)
    requires FindStep(steps, key) < |steps|
    requires s.id == steps[FindStep(steps, key)].id && s.key == steps[FindStep(steps, key)].key
    ensures FindStep(steps[FindStep(steps, key) := s], key) == FindStep(steps, key)
  {
    var i := FindStep(steps, key);
    var changed := steps[i := s];
    assert Matches(changed[i], key);
    assert forall j :: 0 <= j < i ==> !Matches(changed[j], key);
  }

  lemma {:induction false} ReportPromises(st: Store, call: Call, now: int)
    requires call.Complete? || call.Fail?
    ensures var st' := Apply(st, call, now).0;
            && ((call.Complete? || call.token.Some?) && !Owns(st, call.task, call.key, call.token, now) ==> st' == st)
            && KeepsResults(st, st')
  {
    if call.task in st.tasks {
      assert st.tasks[call.task := st.tasks[call.task]] == st.tasks;
    }
  }

  lemma {:induction false} ResolvePromises(st: Store, id: string, key: string, decision: Decision)
    ensures var (st', r) := Apply(st, Resolve(id, key, decision), 0);
            && (!Parked(st, id, key) ==> r.Err? && st' == st)
            && KeepsResults(st, st')
  {
  }

  lemma {:induction false} RecoverPromises(st: Store, now: int)
    ensures KeepsResults(st, Apply(st, Recover, now).0)
  {
  }

  lemma {:induction false} OtherPromises(st: Store, call: Call)
    requires call.Resume? || call.Cancel? || call.SaveCheckpoint?
    ensures KeepsResults(st, Apply(st, call, 0).0)
  {
  }

  function Keys(steps: seq<Step>): set<string>
  {
    set s | s in steps :: s.key
  }

  // With the descriptors from `i` on, `steps` becomes `goal`.
  predicate Leads(steps: seq<Step>, descriptors: seq<Descriptor>, i: nat, goal: seq<Step>)
  {
    i <= |descriptors| && AddSteps(steps, descriptors[i..], i) == goal
  }
}
