// At most one published commit per write step, over every disciplined run.
module WriteSafety {
  import opened Common
  import opened Git
  import opened Continuity
  import opened ContinuityRuns
  import opened WriteProtocol

  // ---------------------------------------------------------------- the invariant of one step

  ghost predicate OnStep(worker: Worker, task: string, key: string)
  {
    worker.task == task && worker.key == key
  }

  // The worker can still move the branch.
  ghost predicate Armed(worker: Worker)
  {
    worker.writes && (worker.phase.Claimed? || worker.phase.HeadKnown? || worker.phase.Checkpointed?
                      || worker.phase.Prepared? || worker.phase.HeadChecked?)
  }

  function SavedBase(phase: Phase): Option<Commit>
  {
    if phase.Checkpointed? || phase.Prepared? || phase.HeadChecked? then Some(phase.base) else None
  }

  ghost predicate ArmedOn(w: World, t: nat, task: string, key: string)
  {
    t in w.workers && OnStep(w.workers[t], task, key) && Armed(w.workers[t]) && w.now < w.workers[t].until
  }

  // A published write leaves a mark: the head noted before it is behind the branch for ever.
  ghost predicate Traced(w: World, task: string, s: Step)
  {
    CountFor(w.publications, task, s.key) == 1 ==>
      || s.status == Completed || s.status == Cancelled
      || ((s.status == Running || s.status == VerificationRequired)
          && s.checkpoint.Some? && s.checkpoint.value.HeadBeforeWrite? && StrictAncestor(s.checkpoint.value.head, w.head))
  }

  ghost predicate ArmedFits(w: World, task: string, s: Step)
  {
    forall t :: ArmedOn(w, t, task, s.key) ==>
      && CountFor(w.publications, task, s.key) == 0
      && (s.status == Cancelled || (s.status == Running && s.lease == Lease(t, w.workers[t].until)))
      && (s.status == Running && SavedBase(w.workers[t].phase).Some? ==>
            s.checkpoint == Some(HeadBeforeWrite(SavedBase(w.workers[t].phase).value)))
  }

  ghost predicate ArmedAlone(w: World, task: string, key: string)
  {
    forall t, t' :: ArmedOn(w, t, task, key) && ArmedOn(w, t', task, key) ==> t == t'
  }

  ghost predicate LeaseFits(w: World, task: string, s: Step)
  {
    s.lease.Lease? ==>
      && s.status == Running
      && (s.lease.token in w.workers && !w.workers[s.lease.token].writes ==> CountFor(w.publications, task, s.key) == 0)
  }

  ghost predicate VerifierFits(w: World, v: Verifier, task: string, s: Step)
  {
    v.task == task && v.key == s.key ==>
      && v.attempts <= s.attempts
      && (v.finding == VerifiedAbsent && v.attempts == s.attempts ==>
            && CountFor(w.publications, task, s.key) == 0
            && forall t :: !ArmedOn(w, t, task, s.key))
  }

  ghost predicate StepInv(w: World, task: string, s: Step)
  {
    && CountFor(w.publications, task, s.key) <= 1
    && Traced(w, task, s)
    && ArmedFits(w, task, s)
    && ArmedAlone(w, task, s.key)
    && LeaseFits(w, task, s)
    && forall i :: 0 <= i < |w.verifiers| ==> VerifierFits(w, w.verifiers[i], task, s)
  }

  // ---------------------------------------------------------------- the invariant of the world

  ghost predicate KnownKey(st: Store, task: string, key: string)
  {
    task in st.tasks && HasKey(st.tasks[task].steps, key)
  }

  ghost predicate NamesClear(st: Store)
  {
    forall task :: task in st.tasks ==> ClearNames(st.tasks[task].steps)
  }

  ghost predicate WorkerSane(w: World, t: nat)
    requires t in w.workers
  {
    var worker := w.workers[t];
    && worker.token == t && t < w.store.nextToken
    && KnownKey(w.store, worker.task, worker.key)
    && (worker.phase.HeadKnown? || worker.phase.Checkpointed? || worker.phase.Prepared? || worker.phase.HeadChecked? ==>
          IsAncestor(worker.phase.base, w.head))
    && (worker.phase.Prepared? || worker.phase.HeadChecked? ==> worker.phase.commit.parents == [worker.phase.base])
    && (worker.writes || worker.phase == Claimed || worker.phase == Failing || worker.phase == Stopped)
  }

  ghost predicate WritesSafe(w: World)
  {
    forall task, i | task in w.store.tasks && 0 <= i < |w.store.tasks[task].steps| ::
      w.store.tasks[task].steps[i].mode == WriteMode ==> StepInv(w, task, w.store.tasks[task].steps[i])
  }

  ghost predicate Inv(w: World)
  {
    && Sound(w.store) && NamesClear(w.store)
    && (forall t :: t in w.workers ==> WorkerSane(w, t))
    && (forall i :: 0 <= i < |w.publications| ==> KnownKey(w.store, w.publications[i].task, w.publications[i].key))
    && (forall i :: 0 <= i < |w.verifiers| ==> KnownKey(w.store, w.verifiers[i].task, w.verifiers[i].key))
    && WritesSafe(w)
  }

  // ---------------------------------------------------------------- looking up

  lemma {:induction false} FindByKey(steps: seq<Step>, key: string, i: nat)
    requires ClearNames(steps) && DistinctKeys(steps) && i < |steps| && steps[i].key == key
    ensures FindStep(steps, key) == i
  {
    var j := FindStep(steps, key);
    assert Matches(steps[i], key);
    assert steps[j].id == key ==> steps[j].id == steps[i].key;
    assert steps[j].key == key ==> !(j < i);
  }

  // The position of a known key, and what it means for the engine's lookup.
  lemma {:induction false} KeyAt(w: World, task: string, key: string) returns (i: nat)
    requires Inv(w) && KnownKey(w.store, task, key)
    ensures i < |w.store.tasks[task].steps| && w.store.tasks[task].steps[i].key == key
    ensures FindStep(w.store.tasks[task].steps, key) == i
  {
    i :| 0 <= i < |w.store.tasks[task].steps| && w.store.tasks[task].steps[i].key == key;
    FindByKey(w.store.tasks[task].steps, key, i);
  }

  lemma {:induction false} CountAppend(ps: seq<Publication>, p: Publication, task: string, key: string)
    ensures CountFor(ps + [p], task, key)
            == CountFor(ps, task, key) + (if p.task == task && p.key == key then 1 else 0)
  {
    assert (ps + [p])[..|ps|] == ps;
  }

  lemma {:induction false} CountUnknown(ps: seq<Publication>, task: string, key: string)
    requires forall i :: 0 <= i < |ps| ==> !(ps[i].task == task && ps[i].key == key)
    ensures CountFor(ps, task, key) == 0
  {
    if ps != [] {
      CountUnknown(ps[..|ps| - 1], task, key);
    }
  }

  // ---------------------------------------------------------------- steps nothing happened to

  // Time passes, the branch grows, workers of this step lose the power to write: the
  // invariant of an untouched step survives.
  lemma {:induction false} Untouched(w: World, w': World, task: string, s: Step)
    requires StepInv(w, task, s)
    requires w.now <= w'.now && IsAncestor(w.head, w'.head)
    requires CountFor(w'.publications, task, s.key) == CountFor(w.publications, task, s.key)
    requires w'.verifiers == w.verifiers
    requires forall t :: ArmedOn(w', t, task, s.key) ==>
               && ArmedOn(w, t, task, s.key) && w'.workers[t].until == w.workers[t].until
               && SavedBase(w'.workers[t].phase) == SavedBase(w.workers[t].phase)
    requires forall t :: t in w'.workers && !w'.workers[t].writes && s.lease.Lease? && s.lease.token == t ==>
               t in w.workers && !w.workers[t].writes
    ensures StepInv(w', task, s)
  {
    if CountFor(w.publications, task, s.key) == 1 && s.checkpoint.Some? && s.checkpoint.value.HeadBeforeWrite?
       && StrictAncestor(s.checkpoint.value.head, w.head) {
      StrictAncestorExtends(s.checkpoint.value.head, w.head, w'.head);
    }
    forall i | 0 <= i < |w'.verifiers| ensures VerifierFits(w', w'.verifiers[i], task, s) {
      assert VerifierFits(w, w.verifiers[i], task, s);
    }
  }

  lemma {:induction false} StoreGrows(w: World, w': World)
    requires Inv(w) && Sound(w'.store) && NamesClear(w'.store)
    requires w.store.nextToken <= w'.store.nextToken && IsAncestor(w.head, w'.head)
    requires forall task, key :: KnownKey(w.store, task, key) ==> KnownKey(w'.store, task, key)
    ensures forall t :: t in w.workers && WorkerSane(w, t) && t in w'.workers && w'.workers[t] == w.workers[t] ==> WorkerSane(w', t)
  {
    forall t | t in w.workers && WorkerSane(w, t) && t in w'.workers && w'.workers[t] == w.workers[t]
      ensures WorkerSane(w', t)
    {
      var phase := w.workers[t].phase;
      if phase.HeadKnown? || phase.Checkpointed? || phase.Prepared? || phase.HeadChecked? {
        AncestorTransitive(phase.base, w.head, w'.head);
      }
    }
  }

  // ---------------------------------------------------------------- actions that leave the store alone

  lemma {:induction false} QuietKeeps(w: World, a: Action)
    requires Inv(w) && Disciplined(w, a)
    requires a.Tick? || a.Push?
    ensures Inv(Next(w, a))
  {
    var w' := Next(w, a);
    StoreGrows(w, w');
    forall task, i | task in w.store.tasks && 0 <= i < |w.store.tasks[task].steps|
                     && w.store.tasks[task].steps[i].mode == WriteMode
      ensures StepInv(w', task, w.store.tasks[task].steps[i])
    {
      Untouched(w, w', task, w.store.tasks[task].steps[i]);
    }
  }

  // One worker in another phase, not nearer to writing than before.
  ghost predicate OnlyPhase(w: World, w': World, t: nat, phase: Phase)
  {
    && t in w.workers
    && w'.store == w.store && w'.now == w.now && w'.head == w.head
    && w'.publications == w.publications && w'.verifiers == w.verifiers
    && w'.workers == w.workers[t := w.workers[t].(phase := phase)]
    && (Armed(w'.workers[t]) ==> Armed(w.workers[t]) && SavedBase(phase) == SavedBase(w.workers[t].phase))
  }

  lemma {:induction false} PhaseKeepsStep(w: World, w': World, t: nat, phase: Phase, task: string, s: Step)
    requires OnlyPhase(w, w', t, phase) && StepInv(w, task, s)
    ensures StepInv(w', task, s)
  {
    Untouched(w, w', task, s);
  }

  lemma {:induction false} PhaseChange(w: World, w': World, t: nat, phase: Phase)
    requires Inv(w) && OnlyPhase(w, w', t, phase)
    requires WorkerSane(w', t)
    ensures Inv(w')
  {
    StoreGrows(w, w');
    forall task, i | task in w.store.tasks && 0 <= i < |w.store.tasks[task].steps|
                     && w.store.tasks[task].steps[i].mode == WriteMode
      ensures StepInv(w', task, w.store.tasks[task].steps[i])
    {
      PhaseKeepsStep(w, w', t, phase, task, w.store.tasks[task].steps[i]);
    }
  }

  lemma {:induction false} AdvancedWorld(w: World, a: Action, worker: Worker)
    requires a.ReadHead? || a.Prepare? || a.CheckHead? || a.Record? || a.Break? || a.Crash?
    requires a.token in w.workers && worker == w.workers[a.token] && WorkerSane(w, a.token)
    ensures var w' := WorkerNext(w, a, worker);
            && w'.store == w.store && w'.now == w.now && w'.head == w.head
            && w'.publications == w.publications && w'.verifiers == w.verifiers
            && a.token in w'.workers && w'.workers == w.workers[a.token := worker.(phase := w'.workers[a.token].phase)]
            && (Armed(w'.workers[a.token]) ==> Armed(worker) && SavedBase(w'.workers[a.token].phase) == SavedBase(worker.phase))
            && WorkerSane(w', a.token)
  {
    var w' := WorkerNext(w, a, worker);
    assert w.workers == w.workers[a.token := worker];
    assert IsAncestor(w.head, w.head);
  }

  lemma {:induction false} AdvanceKeeps(w: World, a: Action, worker: Worker)
    requires Inv(w)
    requires a.ReadHead? || a.Prepare? || a.CheckHead? || a.Record? || a.Break? || a.Crash?
    requires a.token in w.workers && worker == w.workers[a.token]
    ensures Inv(WorkerNext(w, a, worker))
  {
    var w' := WorkerNext(w, a, worker);
    assert WorkerSane(w, a.token);
    AdvancedWorld(w, a, worker);
    PhaseChange(w, w', a.token, w'.workers[a.token].phase);
  }

  lemma {:induction false} MoveKeepsStep(w: World, w': World, t: nat, task: string, s: Step)
    requires StepInv(w, task, s) && t in w.workers && Armed(w.workers[t]) && w.now < w.workers[t].until
    requires w.workers[t].phase.HeadChecked? && w.workers[t].phase.commit.parents == [w.workers[t].phase.base]
    requires FastForward(w.head, w.workers[t].phase.commit)
    requires w'.now == w.now && w'.head == w.workers[t].phase.commit && w'.verifiers == w.verifiers
    requires w'.publications == w.publications + [Publication(w.workers[t].task, w.workers[t].key, w.workers[t].phase.commit)]
    requires t in w'.workers && w'.workers == w.workers[t := w.workers[t].(phase := w'.workers[t].phase)]
    requires !Armed(w'.workers[t])
    ensures StepInv(w', task, s)
  {
    var worker := w.workers[t];
    CountAppend(w.publications, Publication(worker.task, worker.key, worker.phase.commit), task, s.key);
    if OnStep(worker, task, s.key) {
      assert ArmedOn(w, t, task, s.key);
      ParentIsStrictAncestor(worker.phase.commit, 0);
      assert forall t' :: ArmedOn(w', t', task, s.key) ==> ArmedOn(w, t', task, s.key);
      assert forall t' :: !ArmedOn(w', t', task, s.key);
      forall i | 0 <= i < |w'.verifiers| ensures VerifierFits(w', w'.verifiers[i], task, s) {
        assert VerifierFits(w, w.verifiers[i], task, s);
      }
    } else {
      Untouched(w, w', task, s);
    }
  }

  // The write itself.
  lemma {:induction false} MovedKeeps(w: World, w': World, t: nat)
    requires Inv(w) && t in w.workers && Armed(w.workers[t]) && w.now < w.workers[t].until
    requires w.workers[t].phase.HeadChecked? && FastForward(w.head, w.workers[t].phase.commit)
    requires w'.store == w.store && w'.now == w.now && w'.head == w.workers[t].phase.commit && w'.verifiers == w.verifiers
    requires w'.publications == w.publications + [Publication(w.workers[t].task, w.workers[t].key, w.workers[t].phase.commit)]
    requires t in w'.workers && w'.workers == w.workers[t := w.workers[t].(phase := w'.workers[t].phase)]
    requires w'.workers[t].phase.Published? || w'.workers[t].phase == Failing
    ensures Inv(w')
  {
    assert WorkerSane(w, t);
    StoreGrows(w, w');
    forall task, i | task in w.store.tasks && 0 <= i < |w.store.tasks[task].steps|
                     && w.store.tasks[task].steps[i].mode == WriteMode
      ensures StepInv(w', task, w.store.tasks[task].steps[i])
    {
      MoveKeepsStep(w, w', t, task, w.store.tasks[task].steps[i]);
    }
    forall i | 0 <= i < |w'.publications|
      ensures KnownKey(w'.store, w'.publications[i].task, w'.publications[i].key)
    {
      if i == |w.publications| {
        assert KnownKey(w.store, w.workers[t].task, w.workers[t].key);
      }
    }
  }

  lemma {:induction false} MoveKeeps(w: World, a: Action, worker: Worker)
    requires Inv(w) && a.MoveBranch?
    requires a.token in w.workers && worker == w.workers[a.token] && w.now < worker.until
    requires worker.phase.HeadChecked? && FastForward(w.head, worker.phase.commit)
    ensures Inv(WorkerNext(w, a, worker))
  {
    assert WorkerSane(w, a.token);
    MovedKeeps(w, WorkerNext(w, a, worker), a.token);
  }

  // ---------------------------------------------------------------- actions on one stored step

  // The worlds differ in one step and in the workers of that step.
  ghost predicate OneStepApart(w: World, w': World, task: string, j: nat, s': Step)
  {
    && task in w.store.tasks && j < |w.store.tasks[task].steps|
    && s'.key == w.store.tasks[task].steps[j].key && s'.id == w.store.tasks[task].steps[j].id
    && s'.mode == w.store.tasks[task].steps[j].mode
    && task in w'.store.tasks
    && w'.store.tasks == w.store.tasks[task := w'.store.tasks[task]]
    && w'.store.tasks[task].steps == w.store.tasks[task].steps[j := s']
    && w.store.nextToken <= w'.store.nextToken
    && w'.now == w.now && w'.head == w.head && w'.publications == w.publications && w'.verifiers == w.verifiers
    && (forall t :: t in w'.workers && (t !in w.workers || w'.workers[t] != w.workers[t]) ==>
          && OnStep(w'.workers[t], task, s'.key)
          && (t !in w.workers ==> t == w.store.nextToken)
          && (t in w.workers ==> OnStep(w.workers[t], task, s'.key) && w.workers[t].writes == w'.workers[t].writes))
  }

  lemma {:induction false} OneStepKeys(w: World, w': World, task: string, j: nat, s': Step)
    requires Inv(w) && OneStepApart(w, w', task, j, s')
    ensures forall task', key :: KnownKey(w.store, task', key) ==> KnownKey(w'.store, task', key)
    ensures NamesClear(w'.store)
  {
    forall task', key | KnownKey(w.store, task', key) ensures KnownKey(w'.store, task', key) {
      var i :| 0 <= i < |w.store.tasks[task'].steps| && w.store.tasks[task'].steps[i].key == key;
      assert w'.store.tasks[task'].steps[i].key == key;
    }
  }

  lemma {:induction false} OtherSteps(w: World, w': World, task: string, j: nat, s': Step, task2: string, i: nat)
    requires Inv(w) && OneStepApart(w, w', task, j, s') && Sound(w'.store)
    requires task2 in w.store.tasks && i < |w.store.tasks[task2].steps| && w.store.tasks[task2].steps[i].mode == WriteMode
    requires !(task2 == task && i == j)
    ensures w'.store.tasks[task2].steps[i] == w.store.tasks[task2].steps[i]
    ensures StepInv(w', task2, w'.store.tasks[task2].steps[i])
  {
    var s := w.store.tasks[task2].steps[i];
    assert SoundTask(w.store.tasks[task2], w.store.nextToken);
    assert task2 == task ==> s.key != s'.key;
    assert forall t :: ArmedOn(w', t, task2, s.key) ==> ArmedOn(w, t, task2, s.key) && w'.workers[t] == w.workers[t];
    Untouched(w, w', task2, s);
  }

  lemma {:induction false} OneStepKeeps(w: World, w': World, task: string, j: nat, s': Step)
    requires Inv(w) && OneStepApart(w, w', task, j, s') && Sound(w'.store)
    requires s'.mode == WriteMode ==> StepInv(w', task, s')
    requires forall t :: t in w'.workers && (t !in w.workers || w'.workers[t] != w.workers[t]) ==> WorkerSane(w', t)
    ensures Inv(w')
  {
    OneStepKeys(w, w', task, j, s');
    StoreGrows(w, w');
    forall task2, i | task2 in w'.store.tasks && 0 <= i < |w'.store.tasks[task2].steps|
                      && w'.store.tasks[task2].steps[i].mode == WriteMode
      ensures StepInv(w', task2, w'.store.tasks[task2].steps[i])
    {
      if !(task2 == task && i == j) {
        OtherSteps(w, w', task, j, s', task2, i);
      }
    }
  }

  // What an accepted call on a known step writes into the store.
  ghost predicate Writes(st: Store, st': Store, task: string, j: nat, s': Step)
  {
    && task in st.tasks && j < |st.tasks[task].steps|
    && s'.key == st.tasks[task].steps[j].key && s'.id == st.tasks[task].steps[j].id
    && s'.mode == st.tasks[task].steps[j].mode
    && task in st'.tasks && st'.tasks == st.tasks[task := st'.tasks[task]]
    && st'.tasks[task].steps == st.tasks[task].steps[j := s']
    && st.nextToken <= st'.nextToken
  }

  lemma {:induction false} SaveCheckpointWrites(st: Store, task: string, key: string, checkpoint: Option<Checkpoint>, now: int, j: nat)
    requires task in st.tasks && j < |st.tasks[task].steps| && FindStep(st.tasks[task].steps, key) == j
    ensures var (st', r) := Apply(st, SaveCheckpoint(task, key, checkpoint), now);
            r.Ok? && Writes(st, st', task, j, st.tasks[task].steps[j].(checkpoint := checkpoint))
  {
  }

  lemma {:induction false} CompleteWrites(st: Store, task: string, key: string, token: nat, reference: Reference, now: int, j: nat)
    requires task in st.tasks && j < |st.tasks[task].steps| && FindStep(st.tasks[task].steps, key) == j
    ensures var (st', r) := Apply(st, Complete(task, key, Some(token), reference, None), now);
            var s := st.tasks[task].steps[j];
            if r == Ok(Done) then
              && s.lease.Lease? && s.lease.token == token
              && Writes(st, st', task, j, s.(status := Completed, result := reference, checkpoint := None, lease := NoLease))
            else st' == st
  {
    var (st', r) := Apply(st, Complete(task, key, Some(token), reference, None), now);
    assert st'.tasks == st.tasks[task := st'.tasks[task]];
  }

  lemma {:induction false} FailWrites(st: Store, task: string, key: string, token: nat, unknown: bool, now: int, j: nat)
    requires task in st.tasks && j < |st.tasks[task].steps| && FindStep(st.tasks[task].steps, key) == j
    ensures var (st', r) := Apply(st, Fail(task, key, Some(token), unknown), now);
            var s := st.tasks[task].steps[j];
            if r == Ok(Done) then
              && s.lease.Lease? && s.lease.token == token
              && Writes(st, st', task, j,
                   s.(status := if s.mode == WriteMode && unknown then VerificationRequired else FailedStatus(s), lease := NoLease))
            else st' == st
  {
    var (st', r) := Apply(st, Fail(task, key, Some(token), unknown), now);
    assert st'.tasks == st.tasks[task := st'.tasks[task]];
  }

  lemma {:induction false} ClaimWrites(st: Store, call: Call, now: int, j: nat)
    requires call.Claim?
    requires call.task in st.tasks && j < |st.tasks[call.task].steps| && FindStep(st.tasks[call.task].steps, call.key) == j
    ensures var (st', r) := Apply(st, call, now);
            var s := st.tasks[call.task].steps[j];
            r.Ok? && r.value.Granted? ==>
              && r.value.token == st.nextToken && st'.nextToken == st.nextToken + 1
              && Claimable(s, now) && s.attempts < s.maxAttempts
              && Writes(st, st', call.task, j, GrantStep(s, st.nextToken, r.value.until, call.digest))
  {
  }

  ghost predicate Claimable(s: Step, now: int)
  {
    s.status != Completed && s.status != VerificationRequired && s.status != Cancelled
    && !(s.status == Running && LeaseLive(s, now))
  }

  lemma {:induction false} WritesApart(w: World, w': World, task: string, j: nat, s': Step)
    requires Writes(w.store, w'.store, task, j, s')
    requires w'.now == w.now && w'.head == w.head && w'.publications == w.publications && w'.verifiers == w.verifiers
    requires forall t :: t in w'.workers && (t !in w.workers || w'.workers[t] != w.workers[t]) ==>
               && OnStep(w'.workers[t], task, s'.key)
               && (t !in w.workers ==> t == w.store.nextToken)
               && (t in w.workers ==> OnStep(w.workers[t], task, s'.key) && w.workers[t].writes == w'.workers[t].writes)
    ensures OneStepApart(w, w', task, j, s')
  {
  }

  lemma {:induction false} SavedStep(w: World, w': World, task: string, s: Step, t: nat)
    requires StepInv(w, task, s) && ArmedOn(w, t, task, s.key) && w.workers[t].phase.HeadKnown?
    requires w'.workers == w.workers[t := w.workers[t].(phase := Checkpointed(w.workers[t].phase.base))]
    requires w'.now == w.now && w'.head == w.head && w'.publications == w.publications && w'.verifiers == w.verifiers
    ensures StepInv(w', task, s.(checkpoint := Some(HeadBeforeWrite(w.workers[t].phase.base))))
  {
    var s' := s.(checkpoint := Some(HeadBeforeWrite(w.workers[t].phase.base)));
    assert forall t' :: ArmedOn(w', t', task, s.key) ==> ArmedOn(w, t', task, s.key);
    forall i | 0 <= i < |w'.verifiers| ensures VerifierFits(w', w'.verifiers[i], task, s') {
      assert VerifierFits(w, w.verifiers[i], task, s);
    }
  }

  lemma {:induction false} SavedKeeps(w: World, w': World, t: nat, j: nat, s': Step)
    requires Inv(w) && t in w.workers && w.workers[t].phase.HeadKnown? && w.now < w.workers[t].until && Sound(w'.store)
    requires OneStepApart(w, w', w.workers[t].task, j, s') && w.workers[t].key == s'.key
    requires w'.workers == w.workers[t := w.workers[t].(phase := Checkpointed(w.workers[t].phase.base))]
    requires s' == w.store.tasks[w.workers[t].task].steps[j].(checkpoint := Some(HeadBeforeWrite(w.workers[t].phase.base)))
    ensures Inv(w')
  {
    var task := w.workers[t].task;
    var s := w.store.tasks[task].steps[j];
    assert WorkerSane(w, t);
    OneStepKeys(w, w', task, j, s');
    if s.mode == WriteMode {
      assert ArmedOn(w, t, task, s.key);
      SavedStep(w, w', task, s, t);
    }
    assert WorkerSane(w', t);
    OneStepKeeps(w, w', task, j, s');
  }

  lemma {:induction false} SavedWorld(w: World, a: Action, worker: Worker, j: nat) returns (s': Step)
    requires a.SaveHead? && a.token in w.workers && worker == w.workers[a.token] && worker.token == a.token && worker.phase.HeadKnown?
    requires worker.task in w.store.tasks && j < |w.store.tasks[worker.task].steps|
    requires FindStep(w.store.tasks[worker.task].steps, worker.key) == j && w.store.tasks[worker.task].steps[j].key == worker.key
    ensures var w' := WorkerNext(w, a, worker);
            && OneStepApart(w, w', worker.task, j, s')
            && w'.workers == w.workers[a.token := worker.(phase := Checkpointed(worker.phase.base))]
            && s' == w.store.tasks[worker.task].steps[j].(checkpoint := Some(HeadBeforeWrite(worker.phase.base)))
  {
    var saved := Some(HeadBeforeWrite(worker.phase.base));
    SaveCheckpointWrites(w.store, worker.task, worker.key, saved, w.now, j);
    s' := w.store.tasks[worker.task].steps[j].(checkpoint := saved);
    WritesApart(w, WorkerNext(w, a, worker), worker.task, j, s');
  }

  lemma {:induction false} SaveIsSound(w: World, a: Action, worker: Worker)
    requires Sound(w.store) && a.SaveHead?
    ensures Sound(WorkerNext(w, a, worker).store)
  {
    if worker.phase.HeadKnown? {
      ApplySound(w.store, SaveCheckpoint(worker.task, worker.key, Some(HeadBeforeWrite(worker.phase.base))), w.now);
    }
  }

  lemma {:induction false} SaveHeadKeeps(w: World, a: Action, worker: Worker)
    requires Inv(w) && a.SaveHead?
    requires a.token in w.workers && worker == w.workers[a.token] && w.now < worker.until && worker.phase.HeadKnown?
    ensures Inv(WorkerNext(w, a, worker))
  {
    assert WorkerSane(w, a.token);
    var j := KeyAt(w, worker.task, worker.key);
    var s' := SavedWorld(w, a, worker, j);
    SaveIsSound(w, a, worker);
    SavedKeeps(w, WorkerNext(w, a, worker), a.token, j, s');
  }

  lemma {:induction false} ReturnedStep(w: World, w': World, t: nat, task: string, s: Step, s': Step)
    requires StepInv(w, task, s) && t in w.workers && !Armed(w.workers[t])
    requires t in w'.workers && w'.workers == w.workers[t := w'.workers[t]] && !Armed(w'.workers[t])
    requires w'.now == w.now && w'.head == w.head && w'.publications == w.publications && w'.verifiers == w.verifiers
    requires s'.key == s.key && s.lease.Lease? && s.lease.token == t && s'.lease == NoLease && s'.attempts == s.attempts
    requires s'.status == Completed
             || (s'.status == VerificationRequired && s'.checkpoint == s.checkpoint)
             || (!w.workers[t].writes && (s'.status == Interrupted || s'.status == Failed))
    ensures StepInv(w', task, s')
  {
    assert LeaseFits(w, task, s);
    forall t' ensures !ArmedOn(w', t', task, s.key) {
      if ArmedOn(w', t', task, s.key) {
        assert ArmedOn(w, t', task, s.key);
      }
    }
    forall i | 0 <= i < |w'.verifiers| ensures VerifierFits(w', w'.verifiers[i], task, s') {
      assert VerifierFits(w, w.verifiers[i], task, s);
    }
  }

  // A step whose lease is held by the worker, when the worker reports back.
  lemma {:induction false} ReturnKeeps(w: World, w': World, t: nat, phase: Phase, j: nat, s': Step)
    requires Inv(w) && t in w.workers && Sound(w'.store)
    requires OneStepApart(w, w', w.workers[t].task, j, s') && w.workers[t].key == s'.key
    requires w'.workers == w.workers[t := w.workers[t].(phase := phase)]
    requires !Armed(w'.workers[t]) && !Armed(w.workers[t]) && (phase == Stopped || phase == Failing)
    requires var s := w.store.tasks[w.workers[t].task].steps[j];
             && s.lease.Lease? && s.lease.token == t && s'.lease == NoLease && s'.attempts == s.attempts
             && (s'.status == Completed
                 || (s'.status == VerificationRequired && s'.checkpoint == s.checkpoint)
                 || ((s.mode != WriteMode || !w.workers[t].writes) && (s'.status == Interrupted || s'.status == Failed)))
    ensures Inv(w')
  {
    var task := w.workers[t].task;
    var s := w.store.tasks[task].steps[j];
    assert WorkerSane(w, t);
    OneStepKeys(w, w', task, j, s');
    if s.mode == WriteMode {
      ReturnedStep(w, w', t, task, s, s');
    }
    assert WorkerSane(w', t);
    OneStepKeeps(w, w', task, j, s');
  }

  lemma {:induction false} FinishedWorld(w: World, a: Action, worker: Worker, j: nat) returns (s': Step)
    requires a.Finish? && a.token in w.workers && worker == w.workers[a.token] && worker.token == a.token
    requires worker.phase.Journaled? || (worker.phase == Claimed && !worker.writes)
    requires worker.task in w.store.tasks && j < |w.store.tasks[worker.task].steps|
    requires FindStep(w.store.tasks[worker.task].steps, worker.key) == j && w.store.tasks[worker.task].steps[j].key == worker.key
    ensures var w' := WorkerNext(w, a, worker);
            var s := w.store.tasks[worker.task].steps[j];
            || (&& OneStepApart(w, w', worker.task, j, s') && w'.workers == w.workers[a.token := worker.(phase := Stopped)]
                && s.lease.Lease? && s.lease.token == a.token
                && s'.lease == NoLease && s'.attempts == s.attempts && s'.status == Completed)
            || w' == w.(workers := w.workers[a.token := worker.(phase := Stopped)])
            || w' == w.(workers := w.workers[a.token := worker.(phase := Failing)])
  {
    var w' := WorkerNext(w, a, worker);
    var reference := Reference(Some(worker.token),
      if worker.phase.Journaled? then Some(worker.phase.commit) else None, a.digest);
    CompleteWrites(w.store, worker.task, worker.key, worker.token, reference, w.now, j);
    var (st, r) := Apply(w.store, Complete(worker.task, worker.key, Some(worker.token), reference, None), w.now);
    s' := w.store.tasks[worker.task].steps[j].(status := Completed, result := reference, checkpoint := None, lease := NoLease);
    if r == Ok(Done) {
      WritesApart(w, w', worker.task, j, s');
    }
  }

  lemma {:induction false} FinishKeeps(w: World, a: Action, worker: Worker)
    requires Inv(w) && a.Finish?
    requires a.token in w.workers && worker == w.workers[a.token]
    requires worker.phase.Journaled? || (worker.phase == Claimed && !worker.writes)
    ensures Inv(WorkerNext(w, a, worker))
  {
    var w' := WorkerNext(w, a, worker);
    assert WorkerSane(w, a.token);
    var j := KeyAt(w, worker.task, worker.key);
    var s' := FinishedWorld(w, a, worker, j);
    FinishIsSound(w, a, worker);
    FinishedKeeps(w, w', a.token, j, s');
  }

  lemma {:induction false} FinishedKeeps(w: World, w': World, t: nat, j: nat, s': Step)
    requires Inv(w) && t in w.workers && Sound(w'.store)
    requires w.workers[t].phase.Journaled? || (w.workers[t].phase == Claimed && !w.workers[t].writes)
    requires || (&& OneStepApart(w, w', w.workers[t].task, j, s') && w'.workers == w.workers[t := w.workers[t].(phase := Stopped)]
                 && w.workers[t].key == s'.key
                 && var s := w.store.tasks[w.workers[t].task].steps[j];
                    && s.lease.Lease? && s.lease.token == t
                    && s'.lease == NoLease && s'.attempts == s.attempts && s'.status == Completed)
             || w' == w.(workers := w.workers[t := w.workers[t].(phase := Stopped)])
             || w' == w.(workers := w.workers[t := w.workers[t].(phase := Failing)])
    ensures Inv(w')
  {
    assert WorkerSane(w, t);
    if w' == w.(workers := w.workers[t := w.workers[t].(phase := Stopped)]) {
      PhaseChange(w, w', t, Stopped);
    } else if w' == w.(workers := w.workers[t := w.workers[t].(phase := Failing)]) {
      PhaseChange(w, w', t, Failing);
    } else {
      ReturnKeeps(w, w', t, Stopped, j, s');
    }
  }

  lemma {:induction false} FinishIsSound(w: World, a: Action, worker: Worker)
    requires Sound(w.store) && a.Finish?
    ensures Sound(WorkerNext(w, a, worker).store)
  {
    var reference := Reference(Some(worker.token),
      if worker.phase.Journaled? then Some(worker.phase.commit) else None, a.digest);
    ApplySound(w.store, Complete(worker.task, worker.key, Some(worker.token), reference, None), w.now);
  }

  lemma {:induction false} ReportedWorld(w: World, a: Action, worker: Worker, j: nat) returns (s': Step)
    requires a.Report? && a.token in w.workers && worker == w.workers[a.token] && worker.token == a.token && worker.phase == Failing
    requires worker.task in w.store.tasks && j < |w.store.tasks[worker.task].steps|
    requires FindStep(w.store.tasks[worker.task].steps, worker.key) == j && w.store.tasks[worker.task].steps[j].key == worker.key
    ensures var w' := WorkerNext(w, a, worker);
            var s := w.store.tasks[worker.task].steps[j];
            && w'.workers == w.workers[a.token := worker.(phase := Stopped)]
            && (|| (&& OneStepApart(w, w', worker.task, j, s') && s.lease.Lease? && s.lease.token == a.token
                    && s'.lease == NoLease && s'.attempts == s.attempts && s'.checkpoint == s.checkpoint
                    && s'.status == (if s.mode == WriteMode && worker.writes then VerificationRequired else FailedStatus(s)))
                || w' == w.(workers := w'.workers))
  {
    var w' := WorkerNext(w, a, worker);
    FailWrites(w.store, worker.task, worker.key, worker.token, worker.writes, w.now, j);
    var (st, r) := Apply(w.store, Fail(worker.task, worker.key, Some(worker.token), worker.writes), w.now);
    var s := w.store.tasks[worker.task].steps[j];
    s' := s.(status := if s.mode == WriteMode && worker.writes then VerificationRequired else FailedStatus(s), lease := NoLease);
    if r == Ok(Done) {
      WritesApart(w, w', worker.task, j, s');
    }
  }

  lemma {:induction false} ReportKeeps(w: World, a: Action, worker: Worker)
    requires Inv(w) && a.Report?
    requires a.token in w.workers && worker == w.workers[a.token] && worker.phase == Failing
    ensures Inv(WorkerNext(w, a, worker))
  {
    var w' := WorkerNext(w, a, worker);
    assert WorkerSane(w, a.token);
    var j := KeyAt(w, worker.task, worker.key);
    var s' := ReportedWorld(w, a, worker, j);
    ReportIsSound(w, a, worker);
    if w' == w.(workers := w'.workers) {
      PhaseChange(w, w', a.token, Stopped);
    } else {
      ReturnKeeps(w, w', a.token, Stopped, j, s');
    }
  }

  lemma {:induction false} ReportIsSound(w: World, a: Action, worker: Worker)
    requires Sound(w.store) && a.Report?
    ensures Sound(WorkerNext(w, a, worker).store)
  {
    ApplySound(w.store, Fail(worker.task, worker.key, Some(worker.token), worker.writes), w.now);
  }

  lemma {:induction false} StartedWorld(w: World, a: Action, j: nat) returns (s': Step)
    requires a.Start? && Next(w, a) != w && w.store.nextToken !in w.workers
    requires a.task in w.store.tasks && j < |w.store.tasks[a.task].steps|
    requires FindStep(w.store.tasks[a.task].steps, a.key) == j && w.store.tasks[a.task].steps[j].key == a.key
    ensures var w' := Next(w, a);
            var s, t := w.store.tasks[a.task].steps[j], w.store.nextToken;
            && OneStepApart(w, w', a.task, j, s') && Claimable(s, w.now) && w'.store.nextToken == t + 1
            && s'.attempts == s.attempts + 1 && s'.status == Running && s'.lease.Lease? && s'.lease.token == t
            && w'.workers == w.workers[t := Worker(a.task, a.key, t, s'.lease.until, a.writes, Claimed)]
  {
    var call := Claim(a.task, a.key, a.leaseMs, a.digest);
    var (st, r) := Apply(w.store, call, w.now);
    ClaimWrites(w.store, call, w.now, j);
    s' := GrantStep(w.store.tasks[a.task].steps[j], w.store.nextToken, r.value.until, a.digest);
    WritesApart(w, Next(w, a), a.task, j, s');
  }

  lemma {:induction false} StartIsSound(w: World, a: Action)
    requires Sound(w.store) && a.Start?
    ensures Sound(Next(w, a).store)
    ensures Next(w, a) != w ==> a.task in w.store.tasks
  {
    ApplySound(w.store, Claim(a.task, a.key, a.leaseMs, a.digest), w.now);
  }

  lemma {:induction false} FreshToken(w: World)
    requires Inv(w)
    ensures w.store.nextToken !in w.workers
  {
    forall t | t in w.workers ensures t < w.store.nextToken {
      assert WorkerSane(w, t);
    }
  }

  lemma {:induction false} StartKeeps(w: World, a: Action)
    requires Inv(w) && a.Start? && Disciplined(w, a)
    ensures Inv(Next(w, a))
  {
    var w' := Next(w, a);
    StartIsSound(w, a);
    if w' != w {
      FreshToken(w);
      var j := KeyAt(w, a.task, a.key);
      var s := w.store.tasks[a.task].steps[j];
      var s' := StartedWorld(w, a, j);
      StartedKeeps(w, w', a.task, a.key, j, s');
    }
  }

  lemma {:induction false} StartedKeeps(w: World, w': World, task: string, key: string, j: nat, s': Step)
    requires Inv(w) && Sound(w'.store) && OneStepApart(w, w', task, j, s') && w'.store.nextToken == w.store.nextToken + 1
    requires var s, t := w.store.tasks[task].steps[j], w.store.nextToken;
             && s.key == key && t !in w.workers && Claimable(s, w.now)
             && (s.mode == WriteMode ==> !Expired(s, w.now))
             && s'.attempts == s.attempts + 1 && s'.status == Running && s'.lease.Lease? && s'.lease.token == t
             && t in w'.workers && w'.workers == w.workers[t := w'.workers[t]]
             && w'.workers[t].task == task && w'.workers[t].key == key && w'.workers[t].token == t
             && w'.workers[t].phase == Claimed && w'.workers[t].until == s'.lease.until
    ensures Inv(w')
  {
    var s, t := w.store.tasks[task].steps[j], w.store.nextToken;
    OneStepKeys(w, w', task, j, s');
    if s.mode == WriteMode {
      StartedStep(w, w', task, s, s', t);
    }
    assert KnownKey(w.store, task, key);
    OneStepKeeps(w, w', task, j, s');
  }

  lemma {:induction false} StartedStep(w: World, w': World, task: string, s: Step, s': Step, t: nat)
    requires StepInv(w, task, s) && t !in w.workers
    requires s.status != Running || !Expired(s, w.now)
    requires s.status != Completed && s.status != VerificationRequired && s.status != Cancelled
    requires !(s.status == Running && LeaseLive(s, w.now))
    requires s'.key == s.key && s'.attempts == s.attempts + 1 && s'.status == Running && s'.lease.Lease? && s'.lease.token == t
    requires t in w'.workers && w'.workers == w.workers[t := w'.workers[t]]
    requires w'.workers[t].phase == Claimed && w'.workers[t].until == s'.lease.until
    requires w'.now == w.now && w'.head == w.head && w'.publications == w.publications && w'.verifiers == w.verifiers
    ensures StepInv(w', task, s')
  {
    assert forall t' :: !ArmedOn(w, t', task, s.key);
    forall t' | ArmedOn(w', t', task, s.key) ensures t' == t {
      assert t' != t ==> ArmedOn(w, t', task, s.key);
    }
    forall i | 0 <= i < |w'.verifiers| ensures VerifierFits(w', w'.verifiers[i], task, s') {
      assert VerifierFits(w, w.verifiers[i], task, s);
    }
  }

  lemma {:induction false} VerifierSees(w: World, w': World, v: Verifier, task: string, s: Step)
    requires StepInv(w, task, s)
    requires v.task == task && v.key == s.key ==>
               s.status == VerificationRequired && v.attempts == s.attempts && v.finding == Finding(w, s, task)
    requires w' == w.(verifiers := w.verifiers + [v])
    ensures StepInv(w', task, s)
  {
    assert forall t :: ArmedOn(w', t, task, s.key) <==> ArmedOn(w, t, task, s.key);
    forall k | 0 <= k < |w'.verifiers| ensures VerifierFits(w', w'.verifiers[k], task, s) {
      assert k < |w.verifiers| ==> VerifierFits(w, w.verifiers[k], task, s);
    }
  }

  lemma {:induction false} BeginVerifyKeeps(w: World, a: Action)
    requires Inv(w) && a.BeginVerify?
    ensures Inv(Next(w, a))
  {
    var w' := Next(w, a);
    var found := StepOf(w.store, a.task, a.key);
    if found.Some? && found.value.status == VerificationRequired {
      StoreGrows(w, w');
      var v := Verifier(a.task, found.value.key, found.value.attempts, Finding(w, found.value, a.task));
      var j := FindStep(w.store.tasks[a.task].steps, a.key);
      forall task, i | task in w.store.tasks && 0 <= i < |w.store.tasks[task].steps|
                       && w.store.tasks[task].steps[i].mode == WriteMode
        ensures StepInv(w', task, w.store.tasks[task].steps[i])
      {
        var s := w.store.tasks[task].steps[i];
        assert SoundTask(w.store.tasks[task], w.store.nextToken);
        assert v.task == task && v.key == s.key ==> i == j;
        VerifierSees(w, w', v, task, s);
      }
      forall i | 0 <= i < |w'.verifiers| ensures KnownKey(w'.store, w'.verifiers[i].task, w'.verifiers[i].key) {
        if i == |w.verifiers| {
          assert w.store.tasks[a.task].steps[j].key == v.key;
        }
      }
    }
  }

  lemma {:induction false} DecidedKeeps(w: World, w': World, v: Verifier, j: nat, s': Step)
    requires Inv(w) && Sound(w'.store) && v in w.verifiers && v.finding != Undecided
    requires OneStepApart(w, w', v.task, j, s') && w'.workers == w.workers
    requires var s := w.store.tasks[v.task].steps[j];
             && s.key == v.key && s.status == VerificationRequired
             && s' == s.(status := s'.status, result := s'.result)
             && (v.finding.Verified? ==> s'.status == Completed)
             && (v.finding == VerifiedAbsent ==> s'.status == Interrupted && s.attempts == v.attempts)
    ensures Inv(w')
  {
    var s := w.store.tasks[v.task].steps[j];
    if s.mode == WriteMode {
      assert StepInv(w, v.task, s);
      assert VerifierFits(w, v, v.task, s);
      assert forall t :: ArmedOn(w', t, v.task, s.key) <==> ArmedOn(w, t, v.task, s.key);
      forall i | 0 <= i < |w'.verifiers| ensures VerifierFits(w', w'.verifiers[i], v.task, s') {
        assert VerifierFits(w, w.verifiers[i], v.task, s);
      }
    }
    OneStepKeeps(w, w', v.task, j, s');
  }

  lemma {:induction false} DecidedWorld(w: World, a: Action, j: nat) returns (s': Step)
    requires a.EndVerify? && a.i < |w.verifiers| && Next(w, a) != w
    requires var v := w.verifiers[a.i];
             && v.task in w.store.tasks && j < |w.store.tasks[v.task].steps|
             && FindStep(w.store.tasks[v.task].steps, v.key) == j && w.store.tasks[v.task].steps[j].key == v.key
    ensures var v, w' := w.verifiers[a.i], Next(w, a);
            var s := w.store.tasks[v.task].steps[j];
            && OneStepApart(w, w', v.task, j, s') && w'.workers == w.workers && v.finding != Undecided
            && s.status == VerificationRequired && s' == s.(status := s'.status, result := s'.result)
            && s'.status == if v.finding.Verified? then Completed else Interrupted
  {
    var v := w.verifiers[a.i];
    var s := w.store.tasks[v.task].steps[j];
    s' := if v.finding.Verified? then s.(status := Completed, result := v.finding.reference) else s.(status := Interrupted);
  }

  lemma {:induction false} EndVerifyKeeps(w: World, a: Action)
    requires Inv(w) && a.EndVerify? && Disciplined(w, a)
    ensures Inv(Next(w, a))
  {
    var w' := Next(w, a);
    if w' != w {
      var v := w.verifiers[a.i];
      ApplySound(w.store, Resolve(v.task, v.key, v.finding), w.now);
      var j := KeyAt(w, v.task, v.key);
      var s' := DecidedWorld(w, a, j);
      assert StepOf(w.store, v.task, v.key) == Some(w.store.tasks[v.task].steps[j]);
      DecidedKeeps(w, w', v, j, s');
    }
  }

  // ---------------------------------------------------------------- actions on many steps

  // The workers, the branch and the records are untouched; every step either survives
  // in place with a change that cannot enable a write, or is new.
  ghost predicate Harmless(w: World, task: string, s: Step, s': Step)
  {
    && s'.key == s.key && s'.mode == s.mode && s'.attempts == s.attempts && s'.checkpoint == s.checkpoint
    && (|| s' == s
        || (s'.status == VerificationRequired && Expired(s, w.now) && s'.lease == NoLease)
        || (s'.status == Cancelled && s.status != Completed && s'.lease == NoLease)
        || (s'.status == Completed && s.status == Completed && s'.lease == NoLease)
        || (s'.status == Interrupted && s.status == Failed && s'.lease == s.lease))
  }

  lemma {:induction false} HarmlessStep(w: World, w': World, task: string, s: Step, s': Step)
    requires StepInv(w, task, s) && Harmless(w, task, s, s')
    requires w' == w.(store := w'.store)
    ensures StepInv(w', task, s')
  {
    assert forall t :: ArmedOn(w', t, task, s.key) <==> ArmedOn(w, t, task, s.key);
    forall i | 0 <= i < |w'.verifiers| ensures VerifierFits(w', w'.verifiers[i], task, s') {
      assert VerifierFits(w, w.verifiers[i], task, s);
    }
  }

  lemma {:induction false} InPlaceKeeps(w: World, w': World)
    requires Inv(w) && w' == w.(store := w'.store) && Sound(w'.store)
    requires w.store.nextToken <= w'.store.nextToken
    requires forall task :: task in w.store.tasks ==>
               && task in w'.store.tasks && |w'.store.tasks[task].steps| == |w.store.tasks[task].steps|
    requires forall task, i :: task in w.store.tasks && 0 <= i < |w.store.tasks[task].steps| ==>
               && w'.store.tasks[task].steps[i].id == w.store.tasks[task].steps[i].id
               && w'.store.tasks[task].steps[i].key == w.store.tasks[task].steps[i].key
               && w'.store.tasks[task].steps[i].mode == w.store.tasks[task].steps[i].mode
               && (w.store.tasks[task].steps[i].mode == WriteMode ==>
                     Harmless(w, task, w.store.tasks[task].steps[i], w'.store.tasks[task].steps[i]))
    requires forall task :: task in w'.store.tasks && task !in w.store.tasks ==> w'.store.tasks[task].steps == []
    ensures Inv(w')
  {
    forall task, key | KnownKey(w.store, task, key) ensures KnownKey(w'.store, task, key) {
      var i :| 0 <= i < |w.store.tasks[task].steps| && w.store.tasks[task].steps[i].key == key;
      assert w'.store.tasks[task].steps[i].key == key;
    }
    forall task | task in w'.store.tasks ensures ClearNames(w'.store.tasks[task].steps) {
      if task in w.store.tasks {
        assert ClearNames(w.store.tasks[task].steps);
      }
    }
    StoreGrows(w, w');
    forall task, i | task in w'.store.tasks && 0 <= i < |w'.store.tasks[task].steps|
                     && w'.store.tasks[task].steps[i].mode == WriteMode
      ensures StepInv(w', task, w'.store.tasks[task].steps[i])
    {
      HarmlessStep(w, w', task, w.store.tasks[task].steps[i], w'.store.tasks[task].steps[i]);
    }
  }

  lemma {:induction false} RecoverIsHarmless(w: World, task: string, t: Task, t': Task)
    requires t' == RecoverTask(t, w.now)
    ensures |t'.steps| == |t.steps|
    ensures forall i :: 0 <= i < |t.steps| ==>
              && t'.steps[i].id == t.steps[i].id && t'.steps[i].key == t.steps[i].key && t'.steps[i].mode == t.steps[i].mode
              && (t.steps[i].mode == WriteMode ==> Harmless(w, task, t.steps[i], t'.steps[i]))
  {
  }

  lemma {:induction false} RecoverKeeps(w: World)
    requires Inv(w)
    ensures Inv(Next(w, RecoverLeases))
  {
    var w' := Next(w, RecoverLeases);
    ApplySound(w.store, Recover, w.now);
    assert w'.store.tasks.Keys == w.store.tasks.Keys;
    RecoveredKeeps(w, w');
  }

  lemma {:induction false} RecoveredKeeps(w: World, w': World)
    requires Inv(w) && Sound(w'.store) && w' == w.(store := w'.store) && w'.store.nextToken == w.store.nextToken
    requires w'.store.tasks.Keys == w.store.tasks.Keys
    requires forall task :: task in w.store.tasks ==> w'.store.tasks[task] == RecoverTask(w.store.tasks[task], w.now)
    ensures Inv(w')
  {
    forall task | task in w.store.tasks ensures |w'.store.tasks[task].steps| == |w.store.tasks[task].steps| {
      RecoverIsHarmless(w, task, w.store.tasks[task], w'.store.tasks[task]);
    }
    forall task, i | task in w.store.tasks && 0 <= i < |w.store.tasks[task].steps|
      ensures && w'.store.tasks[task].steps[i].id == w.store.tasks[task].steps[i].id
              && w'.store.tasks[task].steps[i].key == w.store.tasks[task].steps[i].key
              && w'.store.tasks[task].steps[i].mode == w.store.tasks[task].steps[i].mode
              && (w.store.tasks[task].steps[i].mode == WriteMode ==>
                    Harmless(w, task, w.store.tasks[task].steps[i], w'.store.tasks[task].steps[i]))
    {
      RecoverIsHarmless(w, task, w.store.tasks[task], w'.store.tasks[task]);
    }
    InPlaceKeeps(w, w');
  }

  lemma {:induction false} ResumeIsHarmless(w: World, task: string, t: Task, t': Task)
    requires ResumeTask(t).Ok? && t' == ResumeTask(t).value.0
    ensures |t'.steps| == |t.steps|
    ensures forall i :: 0 <= i < |t.steps| ==> t'.steps[i].id == t.steps[i].id && Harmless(w, task, t.steps[i], t'.steps[i])
  {
  }

  lemma {:induction false} CancelIsHarmless(w: World, task: string, t: Task, t': Task)
    requires t' == CancelTask(t)
    ensures |t'.steps| == |t.steps|
    ensures forall i :: 0 <= i < |t.steps| ==> t'.steps[i].id == t.steps[i].id && Harmless(w, task, t.steps[i], t'.steps[i])
  {
  }

  lemma {:induction false} EngineKeeps(w: World, call: Call)
    requires Inv(w) && Disciplined(w, Engine(call))
    ensures Inv(Next(w, Engine(call)))
  {
    var w' := Next(w, Engine(call));
    ApplySound(w.store, call, w.now);
    if Apply(w.store, call, w.now).1.Err? {
      assert w' == w;
    } else if call.Define? {
      DefineKeeps(w, call);
    } else if call.Create? {
      CreateKeeps(w, call);
    } else {
      var t, t' := w.store.tasks[call.task], w'.store.tasks[call.task];
      if call.Resume? {
        ResumeIsHarmless(w, call.task, t, t');
      } else {
        CancelIsHarmless(w, call.task, t, t');
      }
      ReplacedTask(w, w', call.task);
    }
  }

  lemma {:induction false} CreateKeeps(w: World, call: Call)
    requires Inv(w) && call.Create? && Sound(Apply(w.store, call, w.now).0)
    ensures Inv(Next(w, Engine(call)))
  {
    var w' := Next(w, Engine(call));
    forall task, i | task in w.store.tasks && 0 <= i < |w.store.tasks[task].steps|
      ensures Harmless(w, task, w.store.tasks[task].steps[i], w'.store.tasks[task].steps[i])
    {
      assert w'.store.tasks[task] == w.store.tasks[task];
    }
    InPlaceKeeps(w, w');
  }

  lemma {:induction false} ReplacedTask(w: World, w': World, task: string)
    requires Inv(w) && task in w.store.tasks && task in w'.store.tasks && Sound(w'.store)
    requires w' == w.(store := Store(w.store.tasks[task := w'.store.tasks[task]], w.store.nextToken))
    requires |w'.store.tasks[task].steps| == |w.store.tasks[task].steps|
    requires forall i :: 0 <= i < |w.store.tasks[task].steps| ==>
               && w'.store.tasks[task].steps[i].id == w.store.tasks[task].steps[i].id
               && Harmless(w, task, w.store.tasks[task].steps[i], w'.store.tasks[task].steps[i])
    ensures Inv(w')
  {
    forall task', i | task' in w.store.tasks && 0 <= i < |w.store.tasks[task'].steps|
      ensures w'.store.tasks[task'].steps[i].id == w.store.tasks[task'].steps[i].id
      ensures Harmless(w, task', w.store.tasks[task'].steps[i], w'.store.tasks[task'].steps[i])
    {
      if task' != task {
        assert w'.store.tasks[task'] == w.store.tasks[task'];
      }
    }
    InPlaceKeeps(w, w');
  }

  lemma {:induction false} AddedSteps(steps: seq<Step>, descriptors: seq<Descriptor>, done: nat, s: Step)
    requires FreshDescriptors(descriptors) && s in AddSteps(steps, descriptors, done)
    ensures s in steps || (s.status == Queued && s.attempts == 0 && s.lease == NoLease && !HasKey(steps, s.key))
    decreases |descriptors|
  {
    if descriptors != [] {
      var n := Normalize(descriptors[0], |steps| + done);
      var next := if HasKey(steps, n.key) then steps else steps + [n];
      AddedSteps(next, descriptors[1..], done + 1, s);
      if s !in steps && s !in next {
        forall i | 0 <= i < |steps| ensures steps[i].key != s.key {
          assert next[i] == steps[i];
        }
      }
    }
  }

  // Nothing refers to a key that is not known yet.
  lemma {:induction false} NewStep(w: World, w': World, task: string, s: Step)
    requires Inv(w) && !KnownKey(w.store, task, s.key)
    requires w' == w.(store := w'.store)
    requires s.status == Queued && s.lease == NoLease
    ensures StepInv(w', task, s)
  {
    CountUnknown(w.publications, task, s.key);
    forall t ensures !ArmedOn(w', t, task, s.key) {
      if t in w.workers {
        assert WorkerSane(w, t);
      }
    }
  }

  // Defining keeps every known key and clear names.
  lemma {:induction false} DefineKnows(w: World, w': World, call: Call)
    requires Inv(w) && call.Define? && Disciplined(w, Engine(call)) && w' == Next(w, Engine(call))
    requires call.task in w.store.tasks && Apply(w.store, call, w.now).1.Ok?
    ensures forall task, key :: KnownKey(w.store, task, key) ==> KnownKey(w'.store, task, key)
    ensures NamesClear(w'.store)
  {
    assert SoundTask(w.store.tasks[call.task], w.store.nextToken);
    DefinedSteps(w.store.tasks[call.task], call.descriptors);
    forall task, key | KnownKey(w.store, task, key) ensures KnownKey(w'.store, task, key) {
      var i :| 0 <= i < |w.store.tasks[task].steps| && w.store.tasks[task].steps[i].key == key;
      assert w.store.tasks[task].steps[i] in w'.store.tasks[task].steps;
    }
  }

  lemma {:induction false} DefineKeeps(w: World, call: Call)
    requires Inv(w) && call.Define? && Disciplined(w, Engine(call))
    requires call.task in w.store.tasks && Apply(w.store, call, w.now).1.Ok? && Sound(Apply(w.store, call, w.now).0)
    ensures Inv(Next(w, Engine(call)))
  {
    var w' := Next(w, Engine(call));
    DefineKnows(w, w', call);
    StoreGrows(w, w');
    forall task, i | task in w'.store.tasks && 0 <= i < |w'.store.tasks[task].steps|
                     && w'.store.tasks[task].steps[i].mode == WriteMode
      ensures StepInv(w', task, w'.store.tasks[task].steps[i])
    {
      DefinedStepInv(w, w', call, task, w'.store.tasks[task].steps[i]);
    }
  }

  lemma {:induction false} DefinedStepInv(w: World, w': World, call: Call, task: string, s: Step)
    requires Inv(w) && call.Define? && FreshDescriptors(call.descriptors) && s.mode == WriteMode
    requires call.task in w.store.tasks && w' == w.(store := w'.store)
    requires task in w.store.tasks
    requires if task == call.task
             then s in SortByIndex(AddSteps(w.store.tasks[task].steps, call.descriptors, 0))
             else s in w.store.tasks[task].steps
    ensures StepInv(w', task, s)
  {
    var steps := w.store.tasks[task].steps;
    if s in steps {
      var i :| 0 <= i < |steps| && steps[i] == s;
      HarmlessStep(w, w', task, s, s);
    } else {
      assert SoundTask(w.store.tasks[task], w.store.nextToken);
      AddStepsKeeps(steps, call.descriptors, 0);
      SortKeeps(AddSteps(steps, call.descriptors, 0));
      AddedSteps(steps, call.descriptors, 0, s);
      NewStep(w, w', task, s);
    }
  }

  // ---------------------------------------------------------------- over whole runs

  lemma {:induction false} NextKeeps(w: World, a: Action)
    requires Inv(w) && Disciplined(w, a)
    ensures Inv(Next(w, a))
  {
    match a
    case Tick(_) => QuietKeeps(w, a);
    case Push(_) => QuietKeeps(w, a);
    case Start(_, _, _, _, _) => StartKeeps(w, a);
    case RecoverLeases => RecoverKeeps(w);
    case BeginVerify(_, _) => BeginVerifyKeeps(w, a);
    case EndVerify(_) => EndVerifyKeeps(w, a);
    case Engine(call) => EngineKeeps(w, call);
    case _ => if a.token in w.workers { WorkerKeeps(w, a, w.workers[a.token]); }
  }

  lemma {:induction false} WorkerKeeps(w: World, a: Action, worker: Worker)
    requires Inv(w) && Disciplined(w, a) && IsWorkerAction(a)
    requires a.token in w.workers && worker == w.workers[a.token]
    ensures Inv(WorkerNext(w, a, worker))
  {
    match a
    case SaveHead(_) => if worker.phase.HeadKnown? { SaveHeadKeeps(w, a, worker); }
    case MoveBranch(_, _) =>
      if worker.phase.HeadChecked? {
        if FastForward(w.head, worker.phase.commit) {
          MoveKeeps(w, a, worker);
        } else {
          assert WorkerSane(w, a.token);
          PhaseChange(w, WorkerNext(w, a, worker), a.token, Failing);
        }
      }
    case Finish(_, _) =>
      if worker.phase.Journaled? || (worker.phase == Claimed && !worker.writes) { FinishKeeps(w, a, worker); }
    case Report(_) => if worker.phase == Failing { ReportKeeps(w, a, worker); }
    case _ => AdvanceKeeps(w, a, worker);
  }

  lemma {:induction false} PlayKeeps(w: World, actions: seq<Action>)
    requires Inv(w) && DisciplinedPlay(w, actions)
    ensures Inv(Play(w, actions))
    decreases |actions|
  {
    if actions != [] {
      NextKeeps(w, actions[0]);
      PlayKeeps(Next(w, actions[0]), actions[1..]);
    }
  }

  // In every disciplined run, however claims, writes, crashes, lost answers, recoveries,
  // verifications and other people's pushes interleave, a write step publishes at most
  // one commit.
  lemma {:induction false} AtMostOnceWrites(w: World, actions: seq<Action>, task: string, i: nat)
    requires Initial(w) && DisciplinedPlay(w, actions)
    requires var end := Play(w, actions);
             task in end.store.tasks && i < |end.store.tasks[task].steps| && end.store.tasks[task].steps[i].mode == WriteMode
    ensures var end := Play(w, actions);
            CountFor(end.publications, task, end.store.tasks[task].steps[i].key) <= 1
  {
    assert Inv(w);
    PlayKeeps(w, actions);
    var end := Play(w, actions);
    assert StepInv(end, task, end.store.tasks[task].steps[i]);
  }

  // ... and a write that may be tried again has published nothing so far.
  lemma {:induction false} RetriesAreClean(w: World, actions: seq<Action>, task: string, i: nat)
    requires Initial(w) && DisciplinedPlay(w, actions)
    requires var end := Play(w, actions);
             task in end.store.tasks && i < |end.store.tasks[task].steps| && end.store.tasks[task].steps[i].mode == WriteMode
    requires var s := Play(w, actions).store.tasks[task].steps[i];
             s.status == Queued || s.status == Interrupted || s.status == Failed
    ensures var end := Play(w, actions);
            CountFor(end.publications, task, end.store.tasks[task].steps[i].key) == 0
  {
    assert Inv(w);
    PlayKeeps(w, actions);
    var end := Play(w, actions);
    assert StepInv(end, task, end.store.tasks[task].steps[i]);
  }
}
