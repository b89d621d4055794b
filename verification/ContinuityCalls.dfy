// What each call does, said of the store alone: when it is accepted, what it answers, and
// what becomes of the step it names.
module ContinuityCalls {
  import opened Common
  import opened Continuity
  import opened ContinuityRuns

  // The call's key names step `i`: the first step with that id or idempotency key.
  predicate Addressed(st: Store, task: string, key: string, i: nat)
  {
    && task in st.tasks && i < |st.tasks[task].steps|
    && (st.tasks[task].steps[i].id == key || st.tasks[task].steps[i].key == key)
    && forall j :: 0 <= j < i ==> st.tasks[task].steps[j].id != key && st.tasks[task].steps[j].key != key
  }

  lemma {:induction false} AddressedIsFound(st: Store, task: string, key: string, i: nat)
    requires Addressed(st, task, key, i)
    ensures FindStep(st.tasks[task].steps, key) == i
  {
    var steps := st.tasks[task].steps;
    assert Matches(steps[i], key);
    assert forall j :: 0 <= j < i ==> !Matches(steps[j], key);
  }

  // Only this step of this task changed; the task may have another status.
  predicate BecomesStep(st: Store, st': Store, task: string, i: nat, s': Step)
    requires task in st.tasks && i < |st.tasks[task].steps|
  {
    && task in st'.tasks && st'.tasks == st.tasks[task := st'.tasks[task]]
    && st'.tasks[task].steps == st.tasks[task].steps[i := s'] && st'.tasks[task].resumeCount == st.tasks[task].resumeCount
  }

  predicate LeaseRuns(s: Step, now: int)
  {
    s.lease.Lease? && s.lease.until > now
  }

  predicate Owned(s: Step, token: Option<nat>, now: int)
  {
    LeaseRuns(s, now) && token == Some(s.lease.token)
  }

  // ---------------------------------------------------------------- claiming

  predicate Claimable(s: Step, now: int)
  {
    && s.status != Completed && s.status != VerificationRequired && s.status != Cancelled
    && (s.status == Failed ==> s.resumable) && (s.status == Running ==> !LeaseRuns(s, now))
  }

  // What a claim is answered, and when.
  lemma {:induction false} ClaimAnswers(st: Store, task: string, key: string, leaseMs: int, digest: string, now: int, i: nat)
    requires Addressed(st, task, key, i)
    ensures var (st', r) := Apply(st, Claim(task, key, leaseMs, digest), now);
            var s, open := st.tasks[task].steps[i], st.tasks[task].status != TaskCancelled;
            && (r == Err(TaskIsCancelled) <==> !open)
            && (r == Ok(Replayed(s.result)) <==> open && s.status == Completed)
            && (r == Err(WriteVerificationRequired) <==> open && s.status == VerificationRequired)
            && (r == Err(StepClosed) <==> open && (s.status == Cancelled || (s.status == Failed && !s.resumable)))
            && (r == Ok(Busy) <==> open && s.status == Running && LeaseRuns(s, now))
            && (r == Err(MaxAttemptsExceeded) <==> open && Claimable(s, now) && s.attempts >= s.maxAttempts)
            && (r.Ok? && r.value.Granted? <==> open && Claimable(s, now) && s.attempts < s.maxAttempts)
            && (r.Err? || !r.value.Granted? ==> st' == st)
  {
    AddressedIsFound(st, task, key, i);
    assert st.tasks[task := st.tasks[task]] == st.tasks;
  }

  // A claim is granted exactly where the task is not cancelled and the step neither done,
  // nor parked, nor closed, nor held, with attempts left. It is for the asked time, between
  // fifteen seconds and ten minutes, and uses up one attempt and one token.
  lemma {:induction false} ClaimExactly(st: Store, task: string, key: string, leaseMs: int, digest: string, now: int, i: nat)
    requires Addressed(st, task, key, i) && st.tasks[task].status != TaskCancelled
    requires Claimable(st.tasks[task].steps[i], now) && st.tasks[task].steps[i].attempts < st.tasks[task].steps[i].maxAttempts
    ensures var (st', r) := Apply(st, Claim(task, key, leaseMs, digest), now);
            var s := st.tasks[task].steps[i];
            var asked := if leaseMs == 0 then 90_000 else leaseMs;
            var until := now + (if asked < 15_000 then 15_000 else if asked > 600_000 then 600_000 else asked);
            && r == Ok(Granted(st.nextToken, until)) && st'.nextToken == st.nextToken + 1 && task in st'.tasks
            && st'.tasks[task].status == TaskRunning
            && BecomesStep(st, st', task, i, s.(status := Running, attempts := s.attempts + 1, lease := Lease(st.nextToken, until),
                                                inputDigest := if digest == "" then s.inputDigest else digest))
  {
    AddressedIsFound(st, task, key, i);
  }

  // ---------------------------------------------------------------- defining

  // A step that came in with a definition: the first descriptor of its key, placed by its
  // own index or after the `known` steps there were.
  predicate CameIn(known: nat, descriptors: seq<Descriptor>, s: Step, k: nat, position: nat)
  {
    && k < |descriptors| && s == Normalize(descriptors[k], position) && known + k <= position <= known + 2 * k
    && forall j :: 0 <= j < k ==> descriptors[j].key != s.key
  }

  ghost predicate IsNew(known: nat, descriptors: seq<Descriptor>, s: Step)
  {
    exists k: nat, position: nat :: CameIn(known, descriptors, s, k, position)
  }

  lemma {:induction false} AddedKey(steps: seq<Step>, descriptors: seq<Descriptor>, done: nat, d: Descriptor)
    requires DistinctKeys(steps) && d in descriptors
    ensures exists s :: s in AddSteps(steps, descriptors, done) && s.key == d.key
    decreases |descriptors|
  {
    var s := Normalize(descriptors[0], |steps| + done);
    var next := if HasKey(steps, s.key) then steps else steps + [s];
    AddStepsKeeps(next, descriptors[1..], done + 1);
    var r := AddSteps(next, descriptors[1..], done + 1);
    if d == descriptors[0] {
      var i :| 0 <= i < |next| && next[i].key == d.key;
      assert r[..|next|][i] == r[i] && r[i] in r;
    } else {
      AddedKey(next, descriptors[1..], done + 1, d);
    }
  }

  lemma {:induction false} AddedStep(steps: seq<Step>, descriptors: seq<Descriptor>, done: nat, s: Step)
    requires s in AddSteps(steps, descriptors, done)
    ensures s in steps || (!HasKey(steps, s.key) && IsNew(|steps| + done, descriptors, s))
    decreases |descriptors|
  {
    if descriptors != [] {
      var n := Normalize(descriptors[0], |steps| + done);
      var next := if HasKey(steps, n.key) then steps else steps + [n];
      AddedStep(next, descriptors[1..], done + 1, s);
      assert HasKey(next, n.key) by {
        if !HasKey(steps, n.key) {
          assert next[|steps|] == n;
        }
      }
      if s in next {
        assert s !in steps ==> CameIn(|steps| + done, descriptors, s, 0, |steps| + done);
      } else {
        NewLater(steps, next, descriptors, done, s);
      }
    }
  }

  lemma {:induction false} NewLater(steps: seq<Step>, next: seq<Step>, descriptors: seq<Descriptor>, done: nat, s: Step)
    requires descriptors != [] && !HasKey(next, s.key) && HasKey(next, descriptors[0].key)
    requires next == steps || exists n :: next == steps + [n]
    requires IsNew(|next| + done + 1, descriptors[1..], s)
    ensures !HasKey(steps, s.key) && IsNew(|steps| + done, descriptors, s)
  {
    forall i | 0 <= i < |steps| ensures steps[i].key != s.key {
      assert next[i] == steps[i];
    }
    var k: nat, position: nat :| CameIn(|next| + done + 1, descriptors[1..], s, k, position);
    assert forall j :: 1 <= j < k + 1 ==> descriptors[1..][j - 1] == descriptors[j];
    assert CameIn(|steps| + done, descriptors, s, k + 1, position);
  }

  // Every old step is kept, every key has a step, and every new step is the first
  // descriptor of a new key.
  ghost predicate Defined(known: seq<Step>, descriptors: seq<Descriptor>, steps: seq<Step>)
  {
    && (forall s :: s in known ==> s in steps)
    && (forall d :: d in descriptors ==> exists s :: s in steps && s.key == d.key)
    && (forall s :: s in steps && s !in known ==> !HasKey(known, s.key) && IsNew(|known|, descriptors, s))
  }

  lemma {:induction false} SortedIsDefined(known: seq<Step>, descriptors: seq<Descriptor>)
    requires DistinctKeys(known)
    ensures Defined(known, descriptors, SortByIndex(AddSteps(known, descriptors, 0)))
  {
    var added := AddSteps(known, descriptors, 0);
    AddStepsKeeps(known, descriptors, 0);
    SortKeeps(added);
    assert forall s :: s in known ==> s in added[..|known|] && s in added;
    forall d | d in descriptors ensures exists s :: s in SortByIndex(added) && s.key == d.key {
      AddedKey(known, descriptors, 0, d);
      var s :| s in added && s.key == d.key;
      assert s in SortByIndex(added);
    }
    forall s | s in SortByIndex(added) && s !in known ensures !HasKey(known, s.key) && IsNew(|known|, descriptors, s) {
      AddedStep(known, descriptors, 0, s);
    }
  }

  // A definition is refused, without change, where there is nothing or too much to define,
  // the task is unknown or closed, or a key is missing.
  lemma {:induction false} DefineAnswers(st: Store, task: string, descriptors: seq<Descriptor>, now: int)
    ensures var (st', r) := Apply(st, Define(task, descriptors), now);
            var closed := task in st.tasks && (st.tasks[task].status == TaskCompleted || st.tasks[task].status == TaskCancelled);
            && (r == Err(StepsRequired) <==> descriptors == [])
            && (r == Err(TooManySteps) <==> |descriptors| > 80)
            && (r == Err(TaskNotFound) <==> 0 < |descriptors| <= 80 && task !in st.tasks)
            && (r == Err(TaskClosed) <==> 0 < |descriptors| <= 80 && closed)
            && (r == Err(KeyRequired) <==>
                  0 < |descriptors| <= 80 && task in st.tasks && !closed && exists k :: 0 <= k < |descriptors| && descriptors[k].key == "")
            && (r == Ok(Done) <==>
                  0 < |descriptors| <= 80 && task in st.tasks && !closed && forall k :: 0 <= k < |descriptors| ==> descriptors[k].key != "")
            && (r.Err? ==> st' == st)
  {
  }

  lemma {:induction false} DefineExactly(st: Store, task: string, descriptors: seq<Descriptor>, now: int)
    requires Sound(st) && Apply(st, Define(task, descriptors), now).1 == Ok(Done)
    ensures var st' := Apply(st, Define(task, descriptors), now).0;
            && task in st.tasks && task in st'.tasks && st'.tasks == st.tasks[task := st'.tasks[task]]
            && Defined(st.tasks[task].steps, descriptors, st'.tasks[task].steps)
            && InOrder(st'.tasks[task].steps)
  {
    assert SoundTask(st.tasks[task], st.nextToken);
    SortedIsDefined(st.tasks[task].steps, descriptors);
    SortOrders(AddSteps(st.tasks[task].steps, descriptors, 0));
  }

  // ---------------------------------------------------------------- reporting

  // Completed by the holder of the live lease, a write only with a result to refer to.
  lemma {:induction false} CompleteExactly(st: Store, task: string, key: string, token: Option<nat>, reference: Reference,
                                           checkpoint: Option<Checkpoint>, now: int, i: nat)
    requires Addressed(st, task, key, i)
    ensures var (st', r) := Apply(st, Complete(task, key, token, reference, checkpoint), now);
            var s := st.tasks[task].steps[i];
            && (r == Ok(Replayed(s.result)) <==> s.status == Completed)
            && (r == Err(LeaseMismatch) <==> s.status != Completed && !(s.lease.Lease? && token == Some(s.lease.token)))
            && (r == Err(LeaseExpired) <==> s.status != Completed && s.lease.Lease? && token == Some(s.lease.token) && s.lease.until <= now)
            && (r == Err(WriteResultReferenceRequired) <==>
                  s.status != Completed && Owned(s, token, now) && s.mode == WriteMode && reference.operationId == None && reference.commitSha == None)
            && (r == Ok(Done) <==>
                  && s.status != Completed && Owned(s, token, now)
                  && (s.mode == WriteMode ==> reference.operationId.Some? || reference.commitSha.Some?))
            && if r == Ok(Done)
               then BecomesStep(st, st', task, i, s.(status := Completed, result := reference, checkpoint := checkpoint, lease := NoLease))
               else st' == st
  {
    AddressedIsFound(st, task, key, i);
    assert st.tasks[task := st.tasks[task]] == st.tasks;
  }

  // A failure: a write of unknown outcome is parked for verification; any other step may be
  // tried again exactly when it is resumable and has attempts left.
  lemma {:induction false} FailExactly(st: Store, task: string, key: string, token: Option<nat>, outcomeUnknown: bool, now: int, i: nat)
    requires Addressed(st, task, key, i)
    ensures var (st', r) := Apply(st, Fail(task, key, token, outcomeUnknown), now);
            var s := st.tasks[task].steps[i];
            && (r == Ok(Ignored) <==> s.status == Completed)
            && (r == Ok(Done) <==> s.status != Completed && (token.Some? ==> Owned(s, token, now)))
            && (r == Err(LeaseExpired) <==> s.status != Completed && s.lease.Lease? && token == Some(s.lease.token) && s.lease.until <= now)
            && (r == Err(LeaseMismatch) <==> s.status != Completed && token.Some? && !(s.lease.Lease? && token == Some(s.lease.token)))
            && if r == Ok(Done)
               then BecomesStep(st, st', task, i, s.(lease := NoLease, status :=
                      if s.mode == WriteMode && outcomeUnknown then VerificationRequired
                      else if s.resumable && s.attempts < s.maxAttempts then Interrupted else Failed))
               else st' == st
  {
    AddressedIsFound(st, task, key, i);
    assert st.tasks[task := st.tasks[task]] == st.tasks;
  }

  lemma {:induction false} ResolveExactly(st: Store, task: string, key: string, decision: Decision, now: int, i: nat)
    requires Addressed(st, task, key, i)
    ensures var (st', r) := Apply(st, Resolve(task, key, decision), now);
            var s := st.tasks[task].steps[i];
            && (r == Err(StepNotAwaitingVerification) <==> s.status != VerificationRequired)
            && (r == Err(VerificationDecisionRequired) <==> s.status == VerificationRequired && decision == Undecided)
            && (r == Err(WriteRetryNotSafe) <==> s.status == VerificationRequired && decision == VerifiedAbsent && !s.retrySafe)
            && (r == Err(VerifiedWriteReferenceRequired) <==>
                  s.status == VerificationRequired && decision.Verified? && decision.reference.operationId == None && decision.reference.commitSha == None)
            && match (decision, r)
               case (Verified(reference), Ok(_)) => BecomesStep(st, st', task, i, s.(status := Completed, result := reference))
               case (_, Ok(_)) => decision == VerifiedAbsent && BecomesStep(st, st', task, i, s.(status := Interrupted))
               case (_, Err(_)) => st' == st
  {
    AddressedIsFound(st, task, key, i);
  }

  lemma {:induction false} CheckpointExactly(st: Store, task: string, key: string, checkpoint: Option<Checkpoint>, now: int, i: nat)
    requires Addressed(st, task, key, i)
    ensures var (st', r) := Apply(st, SaveCheckpoint(task, key, checkpoint), now);
            && r == Ok(Done) && BecomesStep(st, st', task, i, st.tasks[task].steps[i].(checkpoint := checkpoint))
            && st'.tasks[task].status == st.tasks[task].status
  {
    AddressedIsFound(st, task, key, i);
  }

  // ---------------------------------------------------------------- whole tasks

  // Recovery touches exactly the running steps without a live lease: a write is parked, any
  // other step may be tried again exactly when it is resumable and has attempts left.
  lemma {:induction false} RecoverExactly(st: Store, now: int, task: string, i: nat)
    requires task in st.tasks && i < |st.tasks[task].steps|
    ensures var (st', r) := Apply(st, Recover, now);
            var s := st.tasks[task].steps[i];
            && r == Ok(Done) && st'.tasks.Keys == st.tasks.Keys && st'.nextToken == st.nextToken
            && |st'.tasks[task].steps| == |st.tasks[task].steps|
            && st'.tasks[task].steps[i] ==
               (if s.status == Running && !LeaseRuns(s, now) then
                  s.(lease := NoLease, status :=
                       if s.mode == WriteMode then VerificationRequired
                       else if s.resumable && s.attempts < s.maxAttempts then Interrupted else Failed)
                else s)
            && (s.status == Running && !LeaseRuns(s, now) ==> st'.tasks[task].resumeCount == st.tasks[task].resumeCount + 1)
  {
  }

  // A task without such a step stays as it is.
  lemma {:induction false} RecoverLeavesAlone(st: Store, now: int, task: string)
    requires task in st.tasks
    requires forall i :: 0 <= i < |st.tasks[task].steps| ==> st.tasks[task].steps[i].status != Running || LeaseRuns(st.tasks[task].steps[i], now)
    ensures Apply(st, Recover, now).0.tasks[task] == st.tasks[task]
  {
  }

  lemma {:induction false} ResumeExactly(st: Store, task: string, now: int)
    requires task in st.tasks
    ensures var (st', r) := Apply(st, Resume(task), now);
            var t := st.tasks[task];
            && (r == Err(TaskClosed) <==> t.status == TaskCancelled || t.status == TaskCompleted)
            && (r == Err(VerificationRequiredBeforeResume) <==>
                  && t.status != TaskCancelled && t.status != TaskCompleted
                  && exists i :: 0 <= i < |t.steps| && t.steps[i].status == VerificationRequired)
            && (if r == Ok(Done) then
                  && st'.tasks == st.tasks[task := st'.tasks[task]] && st'.tasks[task].status == TaskRunning
                  && st'.tasks[task].resumeCount == t.resumeCount + 1 && |st'.tasks[task].steps| == |t.steps|
                  && forall i :: 0 <= i < |t.steps| ==>
                       st'.tasks[task].steps[i] ==
                       (if t.steps[i].status == Failed && t.steps[i].resumable && t.steps[i].attempts < t.steps[i].maxAttempts
                        then t.steps[i].(status := Interrupted) else t.steps[i])
                else r.Err? && st' == st)
  {
  }

  // Everything unfinished is cancelled and every lease withdrawn.
  lemma {:induction false} CancelExactly(st: Store, task: string, now: int)
    requires task in st.tasks
    ensures var (st', r) := Apply(st, Cancel(task), now);
            var t := st.tasks[task];
            && r == Ok(Done) && st'.tasks == st.tasks[task := st'.tasks[task]] && st'.tasks[task].status == TaskCancelled
            && |st'.tasks[task].steps| == |t.steps|
            && forall i :: 0 <= i < |t.steps| ==>
                 st'.tasks[task].steps[i] == t.steps[i].(lease := NoLease, status := if t.steps[i].status == Completed then Completed else Cancelled)
  {
  }

  // The status a task shows after a report, a decision, a recovery or a definition: done
  // only when all is done, else the most urgent thing first.
  predicate Shows(t: Task)
  {
    && (t.status == TaskCompleted <==> t.steps != [] && forall i :: 0 <= i < |t.steps| ==> t.steps[i].status == Completed)
    && (t.status == TaskVerificationRequired <==> exists i :: 0 <= i < |t.steps| && t.steps[i].status == VerificationRequired)
    && (t.status == TaskRunning <==>
          && (exists i :: 0 <= i < |t.steps| && t.steps[i].status == Running)
          && !exists i :: 0 <= i < |t.steps| && t.steps[i].status == VerificationRequired)
    && (t.status == TaskFailed <==>
          && (exists i :: 0 <= i < |t.steps| && t.steps[i].status == Failed && !t.steps[i].resumable)
          && !exists i :: 0 <= i < |t.steps| && t.steps[i].status in {VerificationRequired, Running, Interrupted})
    && (t.status == TaskInterrupted <==>
          && !(exists i :: 0 <= i < |t.steps| && t.steps[i].status in {VerificationRequired, Running})
          && ((exists i :: 0 <= i < |t.steps| && t.steps[i].status == Interrupted)
              || ((exists i :: 0 <= i < |t.steps| && t.steps[i].status == Failed)
                  && !exists i :: 0 <= i < |t.steps| && t.steps[i].status == Failed && !t.steps[i].resumable)))
  }

  lemma {:induction false} RefreshShows(t: Task)
    requires t.steps != [] && t.status != TaskCancelled
    ensures Shows(Refresh(t))
  {
  }

  lemma {:induction false} StatusShows(st: Store, call: Call, now: int)
    requires (call.Complete? && Apply(st, call, now).1 == Ok(Done)) || (call.Fail? && Apply(st, call, now).1 == Ok(Done))
             || (call.Resolve? && Apply(st, call, now).1.Ok?)
    requires st.tasks[call.task].status != TaskCancelled
    ensures Shows(Apply(st, call, now).0.tasks[call.task])
  {
    var t := st.tasks[call.task];
    var t' := Apply(st, call, now).0.tasks[call.task];
    assert t'.steps != [];
    RefreshShows(t.(steps := t'.steps));
  }

  lemma {:induction false} RecoveredShows(st: Store, now: int, task: string, i: nat)
    requires task in st.tasks && i < |st.tasks[task].steps| && st.tasks[task].status != TaskCancelled
    requires st.tasks[task].steps[i].status == Running && !LeaseRuns(st.tasks[task].steps[i], now)
    ensures Shows(Apply(st, Recover, now).0.tasks[task])
  {
    RecoveredTaskShows(st.tasks[task], now, i);
  }

  lemma {:induction false} RecoveredTaskShows(t: Task, now: int, i: nat)
    requires i < |t.steps| && t.status != TaskCancelled && t.steps[i].status == Running && !LeaseRuns(t.steps[i], now)
    ensures Shows(RecoverTask(t, now))
  {
    var r := RecoverTask(t, now);
    RecoverRefreshes(t, now, i);
    RefreshShows(r.(status := t.status));
  }

  lemma {:induction false} RecoverRefreshes(t: Task, now: int, i: nat)
    requires i < |t.steps| && t.steps[i].status == Running && !LeaseRuns(t.steps[i], now)
    ensures var r := RecoverTask(t, now); r == Refresh(r.(status := t.status)) && r.steps != []
  {
    assert Expired(t.steps[i], now);
  }

  // ---------------------------------------------------------------- what is offered next

  // The first step that is queued or interrupted.
  function NextStep(steps: seq<Step>): (r: Option<Step>)
  {
    if steps == [] then None
    else if steps[0].status == Queued || steps[0].status == Interrupted then Some(steps[0])
    else NextStep(steps[1..])
  }

  lemma {:induction false} NextStepIsFirst(steps: seq<Step>, i: nat)
    requires i < |steps| && (steps[i].status == Queued || steps[i].status == Interrupted)
    ensures NextStep(steps).Some? && NextStep(steps).value in steps[..i + 1]
    ensures NextStep(steps).value.status == Queued || NextStep(steps).value.status == Interrupted
    ensures (forall j :: 0 <= j < i ==> steps[j].status != Queued && steps[j].status != Interrupted) ==> NextStep(steps).value == steps[i]
  {
    if steps[0].status != Queued && steps[0].status != Interrupted {
      NextStepIsFirst(steps[1..], i - 1);
      assert steps[1..][..i] == steps[..i + 1][1..];
    }
  }

  // A step that failed with attempts left is offered again and, claimed, granted.
  lemma {:induction false} FailedStepIsRetried(st: Store, task: string, key: string, token: Option<nat>, now: int, later: int,
                                               leaseMs: int, digest: string, i: nat)
    requires Sound(st) && Addressed(st, task, key, i) && st.tasks[task].status != TaskCancelled
    requires var s := st.tasks[task].steps[i]; s.resumable && s.attempts < s.maxAttempts && s.status != Completed
    requires Apply(st, Fail(task, key, token, false), now).1 == Ok(Done)
    ensures var st' := Apply(st, Fail(task, key, token, false), now).0;
            && task in st'.tasks && NextStep(st'.tasks[task].steps).Some?
            && Apply(st', Claim(task, key, leaseMs, digest), later).1.Ok? && Apply(st', Claim(task, key, leaseMs, digest), later).1.value.Granted?
  {
    FailExactly(st, task, key, token, false, now, i);
    var st' := Apply(st, Fail(task, key, token, false), now).0;
    StillAddressed(st, st', task, key, i, st'.tasks[task].steps[i]);
    NextStepIsFirst(st'.tasks[task].steps, i);
    FailKeepsOpen(st, Fail(task, key, token, false), now);
    ClaimExactly(st', task, key, leaseMs, digest, later, i);
  }

  lemma {:induction false} StillAddressed(st: Store, st': Store, task: string, key: string, i: nat, s': Step)
    requires Addressed(st, task, key, i) && BecomesStep(st, st', task, i, s')
    requires s'.id == st.tasks[task].steps[i].id && s'.key == st.tasks[task].steps[i].key
    ensures Addressed(st', task, key, i)
  {
  }

  lemma {:induction false} FailKeepsOpen(st: Store, call: Call, now: int)
    requires call.Fail? && call.task in st.tasks && st.tasks[call.task].status != TaskCancelled
    ensures call.task in Apply(st, call, now).0.tasks && Apply(st, call, now).0.tasks[call.task].status != TaskCancelled
  {
  }
}
