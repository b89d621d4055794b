// A completed step never names a commit that is not there: whatever the journal, a
// worker or a verification reports was published for that very step and is part of
// the branch's history.
module WriteTruth {
  import opened Common
  import opened Git
  import opened Continuity
  import opened ContinuityRuns
  import opened WriteProtocol
  import opened WriteSafety

  ghost predicate Really(w: World, task: string, key: string, commit: Commit)
  {
    Publication(task, key, commit) in w.publications
  }

  ghost predicate TrueResult(w: World, task: string, s: Step)
  {
    s.status == Completed && s.result.commitSha.Some? ==> Really(w, task, s.key, s.result.commitSha.value)
  }

  ghost predicate TrueFinding(w: World, v: Verifier)
  {
    v.finding.Verified? ==>
      v.finding.reference.commitSha.Some? && Really(w, v.task, v.key, v.finding.reference.commitSha.value)
  }

  ghost predicate TrueWorker(w: World, worker: Worker)
  {
    worker.phase.Published? || worker.phase.Journaled? ==> Really(w, worker.task, worker.key, worker.phase.commit)
  }

  ghost predicate TrueSteps(w: World)
  {
    forall task, i | task in w.store.tasks && 0 <= i < |w.store.tasks[task].steps| ::
      TrueResult(w, task, w.store.tasks[task].steps[i])
  }

  ghost predicate Honest(w: World)
  {
    && (forall t :: t in w.workers ==> TrueWorker(w, w.workers[t]))
    && (forall e :: e in w.journal ==> Really(w, e.task, e.key, e.commit))
    && (forall i :: 0 <= i < |w.verifiers| ==> TrueFinding(w, w.verifiers[i]))
    && (forall i :: 0 <= i < |w.publications| ==> IsAncestor(w.publications[i].commit, w.head))
    && TrueSteps(w)
  }

  // The step was completed, with the same result, in `st` already.
  ghost predicate WasCompleted(st: Store, task: string, s: Step)
  {
    task in st.tasks
    && exists j | 0 <= j < |st.tasks[task].steps| ::
         && st.tasks[task].steps[j].status == Completed && st.tasks[task].steps[j].key == s.key
         && st.tasks[task].steps[j].result == s.result
  }

  // Calls that finish no step.
  ghost predicate NoNewResults(st: Store, st': Store)
  {
    forall task, i | task in st'.tasks && 0 <= i < |st'.tasks[task].steps| ::
      st'.tasks[task].steps[i].status == Completed ==> WasCompleted(st, task, st'.tasks[task].steps[i])
  }

  lemma {:induction false} InPlaceFinishesNothing(t: Task, call: Call, now: int, token: nat)
    requires !call.Complete? && !call.Resolve? && !call.Define? && !call.Create? && !call.Recover?
    requires TaskCall(t, call, now, token).Ok?
    ensures var t' := TaskCall(t, call, now, token).value.0;
            && |t'.steps| == |t.steps|
            && forall i :: 0 <= i < |t.steps| && t'.steps[i].status == Completed ==>
                 t.steps[i].status == Completed && t.steps[i].key == t'.steps[i].key && t.steps[i].result == t'.steps[i].result
  {
  }

  lemma {:induction false} DefineFinishesNothing(t: Task, descriptors: seq<Descriptor>, s: Step)
    requires DistinctKeys(t.steps) && FreshDescriptors(descriptors)
    requires s in SortByIndex(AddSteps(t.steps, descriptors, 0)) && s.status == Completed
    ensures s in t.steps
  {
    AddStepsKeeps(t.steps, descriptors, 0);
    SortKeeps(AddSteps(t.steps, descriptors, 0));
    AddedSteps(t.steps, descriptors, 0, s);
  }

  lemma {:induction false} FinishesNothing(st: Store, call: Call, now: int)
    requires Sound(st) && !call.Complete? && !call.Resolve?
    requires call.Define? ==> FreshDescriptors(call.descriptors)
    ensures NoNewResults(st, Apply(st, call, now).0)
  {
    var (st', r) := Apply(st, call, now);
    forall task, i | task in st'.tasks && 0 <= i < |st'.tasks[task].steps| && st'.tasks[task].steps[i].status == Completed
      ensures WasCompleted(st, task, st'.tasks[task].steps[i])
    {
      if call.Create? || r.Err? || (!call.Recover? && task != call.task) {
        assert st'.tasks[task] == st.tasks[task];
      } else if call.Recover? {
        RecoverTaskEvolves(st.tasks[task], now, st.nextToken);
        assert st.tasks[task].steps[i].status == Completed;
      } else if call.Define? {
        DefineFinishesNothing(st.tasks[task], call.descriptors, st'.tasks[task].steps[i]);
      } else {
        InPlaceFinishesNothing(st.tasks[task], call, now, st.nextToken);
      }
    }
  }

  lemma {:induction false} QuietStaysTrue(w: World, w': World)
    requires TrueSteps(w) && NoNewResults(w.store, w'.store)
    requires forall task, key, commit :: Really(w, task, key, commit) ==> Really(w', task, key, commit)
    ensures TrueSteps(w')
  {
    forall task, i | task in w'.store.tasks && 0 <= i < |w'.store.tasks[task].steps|
      ensures TrueResult(w', task, w'.store.tasks[task].steps[i])
    {
      var s' := w'.store.tasks[task].steps[i];
      if s'.status == Completed {
        var j :| 0 <= j < |w.store.tasks[task].steps|
          && w.store.tasks[task].steps[j].status == Completed && w.store.tasks[task].steps[j].key == s'.key
          && w.store.tasks[task].steps[j].result == s'.result;
        assert TrueResult(w, task, w.store.tasks[task].steps[j]);
      }
    }
  }

  // The store is that of a call which finishes at most step `j` of `task`.
  lemma {:induction false} OneResultStaysTrue(w: World, st': Store, task: string, j: nat, s': Step)
    requires TrueSteps(w) && Writes(w.store, st', task, j, s') && TrueResult(w, task, s')
    ensures TrueSteps(w.(store := st'))
  {
    forall task2, i | task2 in st'.tasks && 0 <= i < |st'.tasks[task2].steps|
      ensures TrueResult(w.(store := st'), task2, st'.tasks[task2].steps[i])
    {
      if task2 == task && i == j {
      } else {
        assert TrueResult(w, task2, w.store.tasks[task2].steps[i]);
      }
    }
  }

  lemma {:induction false} MovedHead(w: World, head: Commit)
    requires Honest(w) && IsAncestor(w.head, head)
    ensures forall i :: 0 <= i < |w.publications| ==> IsAncestor(w.publications[i].commit, head)
  {
    forall i | 0 <= i < |w.publications| ensures IsAncestor(w.publications[i].commit, head) {
      AncestorTransitive(w.publications[i].commit, w.head, head);
    }
  }

  // A worker moved on; at most the store changed with it.
  lemma {:induction false} WorkerMoved(w: World, w': World, t: nat, phase: Phase)
    requires Honest(w) && t in w.workers
    requires w' == w.(store := w'.store, workers := w.workers[t := w.workers[t].(phase := phase)])
    requires phase.Published? || phase.Journaled? ==> w.workers[t].phase == phase
    requires TrueSteps(w.(store := w'.store))
    ensures Honest(w')
  {
    assert TrueWorker(w, w.workers[t]);
    assert forall i :: 0 <= i < |w.verifiers| ==> TrueFinding(w, w.verifiers[i]);
    forall task, i | task in w'.store.tasks && 0 <= i < |w'.store.tasks[task].steps|
      ensures TrueResult(w', task, w'.store.tasks[task].steps[i])
    {
      assert TrueResult(w.(store := w'.store), task, w'.store.tasks[task].steps[i]);
    }
    forall x | x in w'.workers ensures TrueWorker(w', w'.workers[x]) {
      if x != t {
        assert TrueWorker(w, w.workers[x]);
      }
    }
  }

  lemma {:induction false} RecordStaysHonest(w: World, a: Action, worker: Worker)
    requires Honest(w) && a.Record? && a.token in w.workers && worker == w.workers[a.token] && worker.phase.Published?
    requires worker.token == a.token
    ensures Honest(WorkerNext(w, a, worker))
  {
    var w' := WorkerNext(w, a, worker);
    assert TrueWorker(w, worker);
    assert forall i :: 0 <= i < |w.verifiers| ==> TrueFinding(w, w.verifiers[i]);
    forall task, i | task in w'.store.tasks && 0 <= i < |w'.store.tasks[task].steps|
      ensures TrueResult(w', task, w'.store.tasks[task].steps[i])
    {
      assert TrueResult(w, task, w.store.tasks[task].steps[i]);
    }
    forall x | x in w'.workers ensures TrueWorker(w', w'.workers[x]) {
      if x != a.token {
        assert TrueWorker(w, w.workers[x]);
      }
    }
  }

  lemma {:induction false} StoreOfWorker(w: World, a: Action, worker: Worker)
    requires Inv(w) && Honest(w) && IsWorkerAction(a) && !a.MoveBranch? && !a.Record?
    requires a.token in w.workers && worker == w.workers[a.token]
    ensures TrueSteps(w.(store := WorkerNext(w, a, worker).store))
  {
    var w' := WorkerNext(w, a, worker);
    assert WorkerSane(w, a.token);
    assert w.(store := w.store) == w;
    if a.SaveHead? && worker.phase.HeadKnown? {
      FinishesNothing(w.store, SaveCheckpoint(worker.task, worker.key, Some(HeadBeforeWrite(worker.phase.base))), w.now);
      if w'.store != w.store { QuietStaysTrue(w, w.(store := w'.store)); }
    } else if a.Report? && worker.phase == Failing {
      FinishesNothing(w.store, Fail(worker.task, worker.key, Some(worker.token), worker.writes), w.now);
      QuietStaysTrue(w, w.(store := w'.store));
    } else if a.Finish? && (worker.phase.Journaled? || (worker.phase == Claimed && !worker.writes)) {
      FinishStaysTrue(w, worker, a.digest);
    }
  }

  lemma {:induction false} WorkerStaysHonest(w: World, a: Action, worker: Worker)
    requires Inv(w) && Honest(w) && IsWorkerAction(a)
    requires a.token in w.workers && worker == w.workers[a.token]
    ensures Honest(WorkerNext(w, a, worker))
  {
    var w' := WorkerNext(w, a, worker);
    assert WorkerSane(w, a.token);
    if a.MoveBranch? {
      if worker.phase.HeadChecked? {
        if FastForward(w.head, worker.phase.commit) {
          MoveStaysHonest(w, a, worker);
        } else {
          WorkerMoved(w, w', a.token, Failing);
        }
      }
    } else if a.Record? {
      if worker.phase.Published? { RecordStaysHonest(w, a, worker); }
    } else if w' != w {
      StoreOfWorker(w, a, worker);
      OnlyItself(w, a, worker);
      WorkerMoved(w, w', a.token, w'.workers[a.token].phase);
    }
  }

  // Apart from moving the branch and journaling, a worker changes itself and the store.
  lemma {:induction false} OnlyItself(w: World, a: Action, worker: Worker)
    requires IsWorkerAction(a) && !a.MoveBranch? && !a.Record?
    requires a.token in w.workers && worker == w.workers[a.token] && worker.token == a.token && WorkerNext(w, a, worker) != w
    ensures var w' := WorkerNext(w, a, worker);
            && a.token in w'.workers
            && w' == w.(store := w'.store, workers := w.workers[a.token := worker.(phase := w'.workers[a.token].phase)])
            && !w'.workers[a.token].phase.Published? && !w'.workers[a.token].phase.Journaled?
  {
  }

  lemma {:induction false} MoveStaysHonest(w: World, a: Action, worker: Worker)
    requires Honest(w) && a.MoveBranch? && a.token in w.workers && worker == w.workers[a.token] && worker.token == a.token
    requires worker.phase.HeadChecked? && FastForward(w.head, worker.phase.commit)
    ensures Honest(WorkerNext(w, a, worker))
  {
    var w' := WorkerNext(w, a, worker);
    MovedHead(w, worker.phase.commit);
    assert w'.publications[|w.publications|] == Publication(worker.task, worker.key, worker.phase.commit);
    assert Really(w', worker.task, worker.key, worker.phase.commit);
    assert forall task, key, commit :: Really(w, task, key, commit) ==> Really(w', task, key, commit);
    forall i | 0 <= i < |w'.verifiers| ensures TrueFinding(w', w'.verifiers[i]) {
      assert TrueFinding(w, w.verifiers[i]);
    }
    forall t | t in w'.workers ensures TrueWorker(w', w'.workers[t]) {
      if t != a.token {
        assert TrueWorker(w, w.workers[t]);
      }
    }
    forall task, i | task in w'.store.tasks && 0 <= i < |w'.store.tasks[task].steps|
      ensures TrueResult(w', task, w'.store.tasks[task].steps[i])
    {
      assert TrueResult(w, task, w.store.tasks[task].steps[i]);
    }
  }

  lemma {:induction false} FinishStaysTrue(w: World, worker: Worker, digest: string)
    requires Inv(w) && Honest(w) && worker.token in w.workers && worker == w.workers[worker.token]
    requires worker.phase.Journaled? || (worker.phase == Claimed && !worker.writes)
    ensures var reference := Reference(Some(worker.token),
              if worker.phase.Journaled? then Some(worker.phase.commit) else None, digest);
            TrueSteps(w.(store := Apply(w.store, Complete(worker.task, worker.key, Some(worker.token), reference, None), w.now).0))
  {
    var reference := Reference(Some(worker.token),
      if worker.phase.Journaled? then Some(worker.phase.commit) else None, digest);
    assert WorkerSane(w, worker.token) && TrueWorker(w, worker);
    var j := KeyAt(w, worker.task, worker.key);
    var (st', r) := Apply(w.store, Complete(worker.task, worker.key, Some(worker.token), reference, None), w.now);
    if r == Ok(Done) {
      OneResultStaysTrue(w, st', worker.task, j,
        w.store.tasks[worker.task].steps[j].(status := Completed, result := reference, checkpoint := None, lease := NoLease));
    }
  }

  lemma {:induction false} EndVerifyStaysTrue(w: World, i: nat)
    requires Inv(w) && Honest(w) && i < |w.verifiers|
    ensures TrueSteps(w.(store := Apply(w.store, Resolve(w.verifiers[i].task, w.verifiers[i].key, w.verifiers[i].finding), w.now).0))
  {
    var v := w.verifiers[i];
    assert TrueFinding(w, v);
    var j := KeyAt(w, v.task, v.key);
    var (st', r) := Apply(w.store, Resolve(v.task, v.key, v.finding), w.now);
    if r.Ok? {
      var s := w.store.tasks[v.task].steps[j];
      OneResultStaysTrue(w, st', v.task, j,
        if v.finding.Verified? then s.(status := Completed, result := v.finding.reference) else s.(status := Interrupted));
    }
  }

  lemma {:induction false} StartStaysHonest(w: World, a: Action)
    requires Inv(w) && Honest(w) && a.Start?
    ensures Honest(Next(w, a))
  {
    var w' := Next(w, a);
    FinishesNothing(w.store, Claim(a.task, a.key, a.leaseMs, a.digest), w.now);
    if w' != w {
      QuietStaysTrue(w, w.(store := w'.store));
    }
  }

  lemma {:induction false} BeginVerifyStaysHonest(w: World, a: Action)
    requires Honest(w) && a.BeginVerify?
    ensures Honest(Next(w, a))
  {
    var w' := Next(w, a);
    if w' != w {
      forall i | 0 <= i < |w'.verifiers| ensures TrueFinding(w', w'.verifiers[i]) {
        assert i < |w.verifiers| ==> TrueFinding(w, w.verifiers[i]);
      }
      forall t | t in w'.workers ensures TrueWorker(w', w'.workers[t]) {
        assert TrueWorker(w, w.workers[t]);
      }
    }
  }

  lemma {:induction false} PushStaysHonest(w: World, a: Action)
    requires Honest(w) && (a.Tick? || a.Push?)
    ensures Honest(Next(w, a))
  {
    if a.Push? && FastForward(w.head, a.target) {
      MovedHead(w, a.target);
    }
    HeadStaysHonest(w, Next(w, a));
  }

  // Only the store changes, and every result in it is true.
  lemma {:induction false} StoreStaysHonest(w: World, w': World)
    requires Honest(w) && w' == w.(store := w'.store) && TrueSteps(w')
    ensures Honest(w')
  {
    forall t | t in w'.workers ensures TrueWorker(w', w'.workers[t]) {
      assert TrueWorker(w, w.workers[t]);
    }
    forall i | 0 <= i < |w'.verifiers| ensures TrueFinding(w', w'.verifiers[i]) {
      assert TrueFinding(w, w.verifiers[i]);
    }
  }

  lemma {:induction false} CallStaysHonest(w: World, call: Call)
    requires Sound(w.store) && Honest(w) && !call.Complete? && !call.Resolve?
    requires call.Define? ==> FreshDescriptors(call.descriptors)
    ensures Honest(w.(store := Apply(w.store, call, w.now).0))
  {
    var w' := w.(store := Apply(w.store, call, w.now).0);
    FinishesNothing(w.store, call, w.now);
    QuietStaysTrue(w, w');
    StoreStaysHonest(w, w');
  }

  lemma {:induction false} EndVerifyStaysHonest(w: World, a: Action)
    requires Inv(w) && Honest(w) && a.EndVerify?
    ensures Honest(Next(w, a))
  {
    if Next(w, a) != w {
      EndVerifyStaysTrue(w, a.i);
      StoreStaysHonest(w, Next(w, a));
    }
  }

  lemma {:induction false} NextStaysHonest(w: World, a: Action)
    requires Inv(w) && Honest(w) && Disciplined(w, a)
    ensures Honest(Next(w, a))
  {
    match a
    case Tick(_) => PushStaysHonest(w, a);
    case Push(_) => PushStaysHonest(w, a);
    case Start(_, _, _, _, _) => StartStaysHonest(w, a);
    case BeginVerify(_, _) => BeginVerifyStaysHonest(w, a);
    case RecoverLeases => CallStaysHonest(w, Recover);
    case EndVerify(_) => EndVerifyStaysHonest(w, a);
    case Engine(call) => CallStaysHonest(w, call);
    case _ => if a.token in w.workers { WorkerStaysHonest(w, a, w.workers[a.token]); }
  }

  lemma {:induction false} HeadStaysHonest(w: World, w': World)
    requires Honest(w) && w' == w.(head := w'.head, now := w'.now)
    requires forall i :: 0 <= i < |w.publications| ==> IsAncestor(w.publications[i].commit, w'.head)
    ensures Honest(w')
  {
    forall t | t in w'.workers ensures TrueWorker(w', w'.workers[t]) {
      assert TrueWorker(w, w.workers[t]);
    }
    forall i | 0 <= i < |w'.verifiers| ensures TrueFinding(w', w'.verifiers[i]) {
      assert TrueFinding(w, w.verifiers[i]);
    }
  }

  lemma {:induction false} PlayStaysHonest(w: World, actions: seq<Action>)
    requires Inv(w) && Honest(w) && DisciplinedPlay(w, actions)
    ensures Inv(Play(w, actions)) && Honest(Play(w, actions))
    decreases |actions|
  {
    if actions != [] {
      NextKeeps(w, actions[0]);
      NextStaysHonest(w, actions[0]);
      PlayStaysHonest(Next(w, actions[0]), actions[1..]);
    }
  }

  lemma {:induction false} CountOne(ps: seq<Publication>, p: Publication)
    requires p in ps
    ensures CountFor(ps, p.task, p.key) >= 1
  {
    if ps[|ps| - 1] != p {
      assert ps == ps[..|ps| - 1] + [ps[|ps| - 1]];
      CountOne(ps[..|ps| - 1], p);
    }
  }

  // In every disciplined run, a completed write that names a commit published exactly
  // one commit, that one, and the branch still contains it.
  lemma {:induction false} CompletedMeansPublished(w: World, actions: seq<Action>, task: string, i: nat)
    requires Initial(w) && DisciplinedPlay(w, actions)
    requires var end := Play(w, actions);
             task in end.store.tasks && i < |end.store.tasks[task].steps|
             && end.store.tasks[task].steps[i].mode == WriteMode && end.store.tasks[task].steps[i].status == Completed
             && end.store.tasks[task].steps[i].result.commitSha.Some?
    ensures var end := Play(w, actions);
            var s := end.store.tasks[task].steps[i];
            && Publication(task, s.key, s.result.commitSha.value) in end.publications
            && CountFor(end.publications, task, s.key) == 1
            && IsAncestor(s.result.commitSha.value, end.head)
  {
    PlayStaysHonest(w, actions);
    AtMostOnceWrites(w, actions, task, i);
    var end := Play(w, actions);
    var s := end.store.tasks[task].steps[i];
    assert TrueResult(end, task, s);
    CountOne(end.publications, Publication(task, s.key, s.result.commitSha.value));
  }
}
