// A write whose outcome nobody can know any more: the journal is silent, nobody is about to
// write to it, and the branch has left the head noted before the write. Whatever happens,
// the step stays as it is, or is cancelled.
module WriteParked {
  import opened Common
  import opened Git
  import opened Continuity
  import opened ContinuityRuns
  import opened WriteProtocol
  import opened WriteSafety

  // ---------------------------------------------------------------- what stays

  ghost predicate NobodyWrites(w: World, task: string, key: string)
  {
    forall t :: t in w.workers && OnStep(w.workers[t], task, key) ==> !w.workers[t].phase.Published? && !ArmedOn(w, t, task, key)
  }

  // A finding that may not be used any more, or decides nothing.
  predicate Useless(v: Verifier, task: string, s: Step)
  {
    v.task == task && v.key == s.key ==> v.finding == Undecided || (v.finding == VerifiedAbsent && v.attempts < s.attempts)
  }

  // The branch cannot stand on the noted head again.
  ghost predicate BranchIsPast(head: Commit, s: Step)
  {
    s.checkpoint.Some? && s.checkpoint.value.HeadBeforeWrite? ==> !IsAncestor(head, s.checkpoint.value.head)
  }

  ghost predicate Stuck(w: World, task: string, s: Step)
  {
    && HasStep(w.store, task, s) && s.mode == WriteMode && s.lease == NoLease
    && (s.status == VerificationRequired || s.status == Cancelled)
    && NobodyWrites(w, task, s.key)
    && FindEntry(w.journal, task, s.key) == None
    && BranchIsPast(w.head, s)
    && forall i :: 0 <= i < |w.verifiers| ==> Useless(w.verifiers[i], task, s)
  }

  // The step itself, or the step cancelled.
  predicate SameOrCancelled(s: Step, s': Step)
  {
    s' == s || s' == s.(status := Cancelled)
  }

  // Time passes, the branch grows, nobody gains the power to write the step or to journal it.
  ghost predicate Calm(w: World, w': World, task: string, s: Step)
  {
    && IsAncestor(w.head, w'.head)
    && NobodyWrites(w', task, s.key)
    && FindEntry(w'.journal, task, s.key) == None
    && forall i :: 0 <= i < |w'.verifiers| ==> Useless(w'.verifiers[i], task, s)
  }

  lemma {:induction false} CalmKeeps(w: World, w': World, task: string, s: Step, s': Step)
    requires Stuck(w, task, s) && Calm(w, w', task, s) && SameOrCancelled(s, s') && HasStep(w'.store, task, s')
    ensures Stuck(w', task, s')
  {
    if s.checkpoint.Some? && s.checkpoint.value.HeadBeforeWrite? && IsAncestor(w'.head, s.checkpoint.value.head) {
      AncestorTransitive(w.head, w'.head, s.checkpoint.value.head);
    }
    forall i | 0 <= i < |w'.verifiers| ensures Useless(w'.verifiers[i], task, s') {
      assert Useless(w'.verifiers[i], task, s);
    }
  }

  lemma {:induction false} SameIsCalm(w: World, w': World, task: string, s: Step)
    requires Stuck(w, task, s) && w' == w.(store := w'.store)
    ensures Calm(w, w', task, s)
  {
    assert forall t :: ArmedOn(w', t, task, s.key) ==> ArmedOn(w, t, task, s.key);
    assert IsAncestor(w.head, w.head);
  }

  // A change to another step leaves this one alone.
  lemma {:induction false} Elsewhere(w: World, w': World, task: string, s: Step, task2: string, j: nat, s2: Step)
    requires HasStep(w.store, task, s) && OneStepApart(w, w', task2, j, s2)
    requires task2 == task ==> w.store.tasks[task].steps[j] != s
    ensures HasStep(w'.store, task, s)
  {
    var steps := w.store.tasks[task].steps;
    var i :| 0 <= i < |steps| && steps[i] == s;
    assert w'.store.tasks[task].steps[i] == s;
  }

  lemma {:induction false} KeyPlace(w: World, task: string, s: Step)
    requires Inv(w) && HasStep(w.store, task, s)
    ensures var steps := w.store.tasks[task].steps;
            && FindStep(steps, s.key) < |steps| && steps[FindStep(steps, s.key)] == s && StepOf(w.store, task, s.key) == Some(s)
  {
    var steps := w.store.tasks[task].steps;
    var i :| 0 <= i < |steps| && steps[i] == s;
    assert SoundTask(w.store.tasks[task], w.store.nextToken);
    FindByKey(steps, s.key, i);
  }

  // ---------------------------------------------------------------- time, pushes, calls

  lemma {:induction false} QuietStays(w: World, a: Action, task: string, s: Step)
    requires Stuck(w, task, s) && (a.Tick? || a.Push?)
    ensures Stuck(Next(w, a), task, s)
  {
    var w' := Next(w, a);
    assert IsAncestor(w.head, w.head);
    assert forall t :: ArmedOn(w', t, task, s.key) ==> ArmedOn(w, t, task, s.key);
    CalmKeeps(w, w', task, s, s);
  }

  lemma {:induction false} TaskCallKeeps(t: Task, call: Call, now: int, token: nat, i: nat)
    requires DistinctKeys(t.steps) && i < |t.steps| && t.steps[i].lease == NoLease
    requires t.steps[i].status == VerificationRequired || t.steps[i].status == Cancelled
    requires call.Resume? || call.Cancel?
    requires TaskCall(t, call, now, token).Ok?
    ensures var t' := TaskCall(t, call, now, token).value.0; i < |t'.steps| && SameOrCancelled(t.steps[i], t'.steps[i])
  {
  }

  lemma {:induction false} CallStays(w: World, call: Call, task: string, s: Step) returns (s': Step)
    requires Sound(w.store) && Stuck(w, task, s)
    requires call.Recover? || call.Create? || call.Define? || call.Resume? || call.Cancel?
    ensures SameOrCancelled(s, s') && Stuck(w.(store := Apply(w.store, call, w.now).0), task, s')
  {
    var (st, r) := Apply(w.store, call, w.now);
    var w' := w.(store := st);
    SameIsCalm(w, w', task, s);
    var steps := w.store.tasks[task].steps;
    var i :| 0 <= i < |steps| && steps[i] == s;
    s' := s;
    if call.Recover? {
      RecoverTaskEvolves(w.store.tasks[task], w.now, w.store.nextToken);
      assert st.tasks[task].steps[i] == s;
    } else if r.Err? || call.Create? || call.task != task {
      assert HasStep(st, task, s);
    } else if call.Define? {
      assert SoundTask(w.store.tasks[task], w.store.nextToken);
      DefinedSteps(w.store.tasks[task], call.descriptors);
    } else {
      assert SoundTask(w.store.tasks[task], w.store.nextToken);
      TaskCallKeeps(w.store.tasks[task], call, w.now, w.store.nextToken, i);
      s' := st.tasks[task].steps[i];
      assert s' in st.tasks[task].steps;
    }
    CalmKeeps(w, w', task, s, s');
  }

  // ---------------------------------------------------------------- claims and verifications

  lemma {:induction false} StartStays(w: World, a: Action, task: string, s: Step)
    requires Inv(w) && Stuck(w, task, s) && a.Start? && Disciplined(w, a)
    ensures Stuck(Next(w, a), task, s)
  {
    var w' := Next(w, a);
    StartIsSound(w, a);
    if w' != w {
      FreshToken(w);
      var j := KeyAt(w, a.task, a.key);
      var s2 := StartedWorld(w, a, j);
      Elsewhere(w, w', task, s, a.task, j, s2);
      StartedIsCalm(w, w', a.task, j, s2, task, s);
      CalmKeeps(w, w', task, s, s);
    }
  }

  lemma {:induction false} StartedIsCalm(w: World, w': World, task2: string, j: nat, s2: Step, task: string, s: Step)
    requires Stuck(w, task, s) && OneStepApart(w, w', task2, j, s2) && !(task2 == task && s2.key == s.key)
    requires w.store.nextToken !in w.workers && w.store.nextToken in w'.workers && w'.journal == w.journal
    requires w'.workers == w.workers[w.store.nextToken := w'.workers[w.store.nextToken]]
    ensures Calm(w, w', task, s)
  {
    assert IsAncestor(w.head, w.head);
    forall t | t in w'.workers && OnStep(w'.workers[t], task, s.key)
      ensures !w'.workers[t].phase.Published? && !ArmedOn(w', t, task, s.key)
    {
      assert t in w.workers && w'.workers[t] == w.workers[t];
      assert !ArmedOn(w, t, task, s.key);
    }
  }

  lemma {:induction false} BeginVerifyStays(w: World, a: Action, task: string, s: Step)
    requires Inv(w) && Stuck(w, task, s) && a.BeginVerify?
    ensures Stuck(Next(w, a), task, s)
  {
    var w' := Next(w, a);
    assert IsAncestor(w.head, w.head);
    if w' != w {
      var found := StepOf(w.store, a.task, a.key).value;
      if a.task == task && found.key == s.key {
        assert HasStep(w.store, task, found);
        KeyIsUnique(w.store, task, found, s);
      }
      forall i | 0 <= i < |w'.verifiers| ensures Useless(w'.verifiers[i], task, s) {
        assert i < |w.verifiers| ==> Useless(w.verifiers[i], task, s);
      }
      assert forall t :: ArmedOn(w', t, task, s.key) ==> ArmedOn(w, t, task, s.key);
      CalmKeeps(w, w', task, s, s);
    }
  }

  lemma {:induction false} EndVerifyStays(w: World, a: Action, task: string, s: Step)
    requires Inv(w) && Stuck(w, task, s) && a.EndVerify? && Disciplined(w, a)
    ensures Stuck(Next(w, a), task, s)
  {
    var w' := Next(w, a);
    if w' != w {
      var v := w.verifiers[a.i];
      var j := KeyAt(w, v.task, v.key);
      var s2 := DecidedWorld(w, a, j);
      assert Useless(v, task, s);
      KeyPlace(w, task, s);
      Elsewhere(w, w', task, s, v.task, j, s2);
      SameIsCalm(w, w', task, s);
      CalmKeeps(w, w', task, s, s);
    }
  }

  // ---------------------------------------------------------------- workers

  // A worker of the step that is still about can neither write nor report.
  lemma {:induction false} OwnWorkerIsIdle(w: World, a: Action, worker: Worker, task: string, s: Step)
    requires Inv(w) && Stuck(w, task, s) && IsWorkerAction(a)
    requires a.token in w.workers && worker == w.workers[a.token] && w.now < worker.until && OnStep(worker, task, s.key)
    ensures OnlyEnds(w, WorkerNext(w, a, worker), a.token)
  {
    assert WorkerSane(w, a.token);
    assert !ArmedOn(w, a.token, task, s.key) && !worker.phase.Published?;
    KeyPlace(w, task, s);
    if a.Finish? {
      OwnFinishIsRefused(w, a, worker, s);
    } else if a.Report? {
      OwnReportIsRefused(w, a, worker, s);
    } else {
      UnarmedMovesOn(w, a, worker);
    }
  }

  // At most the worker changes, into a phase from which it does not write.
  ghost predicate OnlyEnds(w: World, w': World, t: nat)
  {
    && t in w.workers && t in w'.workers && w' == w.(workers := w.workers[t := w.workers[t].(phase := w'.workers[t].phase)])
    && !Armed(w'.workers[t]) && !w'.workers[t].phase.Published?
  }

  lemma {:induction false} OwnFinishIsRefused(w: World, a: Action, worker: Worker, s: Step)
    requires a.Finish? && a.token in w.workers && worker == w.workers[a.token] && worker.token == a.token
    requires !Armed(worker) && !worker.phase.Published?
    requires StepOf(w.store, worker.task, worker.key) == Some(s) && s.lease == NoLease && s.status != Completed
    ensures OnlyEnds(w, WorkerNext(w, a, worker), a.token)
  {
    assert w.workers[a.token := worker] == w.workers;
  }

  lemma {:induction false} OwnReportIsRefused(w: World, a: Action, worker: Worker, s: Step)
    requires a.Report? && a.token in w.workers && worker == w.workers[a.token] && worker.token == a.token
    requires !Armed(worker) && !worker.phase.Published?
    requires StepOf(w.store, worker.task, worker.key) == Some(s) && s.lease == NoLease && s.status != Completed
    ensures OnlyEnds(w, WorkerNext(w, a, worker), a.token)
  {
    assert w.workers[a.token := worker] == w.workers;
  }

  lemma {:induction false} UnarmedMovesOn(w: World, a: Action, worker: Worker)
    requires IsWorkerAction(a) && !a.Finish? && !a.Report?
    requires a.token in w.workers && worker == w.workers[a.token] && worker.token == a.token
    requires !Armed(worker) && !worker.phase.Published?
    requires worker.writes || worker.phase == Claimed || worker.phase == Failing || worker.phase == Stopped
    ensures OnlyEnds(w, WorkerNext(w, a, worker), a.token)
  {
    assert w.workers[a.token := worker] == w.workers;
  }

  lemma {:induction false} OwnWorkerStays(w: World, a: Action, worker: Worker, task: string, s: Step)
    requires Inv(w) && Stuck(w, task, s) && IsWorkerAction(a)
    requires a.token in w.workers && worker == w.workers[a.token] && w.now < worker.until && OnStep(worker, task, s.key)
    ensures Stuck(WorkerNext(w, a, worker), task, s)
  {
    var w' := WorkerNext(w, a, worker);
    OwnWorkerIsIdle(w, a, worker, task, s);
    assert IsAncestor(w.head, w.head);
    forall t | t in w'.workers && OnStep(w'.workers[t], task, s.key)
      ensures !w'.workers[t].phase.Published? && !ArmedOn(w', t, task, s.key)
    {
      assert t != a.token ==> w'.workers[t] == w.workers[t] && !ArmedOn(w, t, task, s.key);
    }
    CalmKeeps(w, w', task, s, s);
  }

  // A worker of another step changes itself, the branch, the journal and that step.
  lemma {:induction false} OtherWorkerIsCalm(w: World, w': World, t: nat, task: string, s: Step)
    requires Stuck(w, task, s) && t in w.workers && !OnStep(w.workers[t], task, s.key)
    requires t in w'.workers && w'.workers == w.workers[t := w.workers[t].(phase := w'.workers[t].phase)]
    requires w'.now == w.now && w'.verifiers == w.verifiers && IsAncestor(w.head, w'.head)
    requires w'.journal == w.journal
             || exists e :: w'.journal == [e] + w.journal && !IsEntryFor(e, task, s.key)
    ensures Calm(w, w', task, s)
  {
    forall x | x in w'.workers && OnStep(w'.workers[x], task, s.key)
      ensures !w'.workers[x].phase.Published? && !ArmedOn(w', x, task, s.key)
    {
      assert w'.workers[x] == w.workers[x] && !ArmedOn(w, x, task, s.key);
    }
    if w'.journal != w.journal {
      var e :| w'.journal == [e] + w.journal && !IsEntryFor(e, task, s.key);
      assert w'.journal[1..] == w.journal;
    }
  }

  // What a worker's step does to everything but the store.
  ghost predicate Recorded(w: World, w': World, t: nat, task: string, key: string)
  {
    && t in w.workers && t in w'.workers && w'.workers == w.workers[t := w.workers[t].(phase := w'.workers[t].phase)]
    && w'.now == w.now && w'.verifiers == w.verifiers && IsAncestor(w.head, w'.head)
    && (w'.journal == w.journal || exists e :: w'.journal == [e] + w.journal && !IsEntryFor(e, task, key))
  }

  lemma {:induction false} OtherWorkerRecords(w: World, a: Action, worker: Worker, task: string, key: string)
    requires IsWorkerAction(a) && a.token in w.workers && worker == w.workers[a.token] && worker.token == a.token
    requires !OnStep(worker, task, key)
    ensures Recorded(w, WorkerNext(w, a, worker), a.token, task, key)
  {
    assert w.workers[a.token := worker] == w.workers;
    assert IsAncestor(w.head, w.head);
    if a.Record? && worker.phase.Published? {
      var e := JournalEntry(worker.task, worker.key, worker.token, worker.phase.commit);
      assert WorkerNext(w, a, worker).journal == [e] + w.journal && !IsEntryFor(e, task, key);
    } else {
      NoOtherRecord(w, a, worker);
    }
  }

  lemma {:induction false} NoOtherRecord(w: World, a: Action, worker: Worker)
    requires IsWorkerAction(a) && a.token in w.workers && worker == w.workers[a.token] && worker.token == a.token
    requires !(a.Record? && worker.phase.Published?)
    ensures var w' := WorkerNext(w, a, worker);
            && a.token in w'.workers && w'.workers == w.workers[a.token := worker.(phase := w'.workers[a.token].phase)]
            && w'.now == w.now && w'.verifiers == w.verifiers && w'.journal == w.journal
            && (w'.head == w.head || FastForward(w.head, w'.head))
  {
    assert w.workers[a.token := worker] == w.workers;
  }

  lemma {:induction false} OtherWorkerKeepsStep(w: World, a: Action, worker: Worker, task: string, s: Step)
    requires Inv(w) && Stuck(w, task, s) && IsWorkerAction(a) && a.token in w.workers && worker == w.workers[a.token]
    requires !OnStep(worker, task, s.key)
    ensures HasStep(WorkerNext(w, a, worker).store, task, s)
  {
    var w' := WorkerNext(w, a, worker);
    assert WorkerSane(w, a.token);
    if w'.store != w.store {
      var j := KeyAt(w, worker.task, worker.key);
      var s2;
      if a.SaveHead? {
        s2 := SavedWorld(w, a, worker, j);
      } else if a.Finish? {
        s2 := FinishedWorld(w, a, worker, j);
      } else {
        s2 := ReportedWorld(w, a, worker, j);
      }
      Elsewhere(w, w', task, s, worker.task, j, s2);
    }
  }

  lemma {:induction false} WorkerStays(w: World, a: Action, worker: Worker, task: string, s: Step)
    requires Inv(w) && Stuck(w, task, s) && IsWorkerAction(a) && Disciplined(w, a)
    requires a.token in w.workers && worker == w.workers[a.token]
    ensures Stuck(WorkerNext(w, a, worker), task, s)
  {
    if OnStep(worker, task, s.key) {
      OwnWorkerStays(w, a, worker, task, s);
    } else {
      assert WorkerSane(w, a.token);
      OtherWorkerRecords(w, a, worker, task, s.key);
      OtherWorkerIsCalm(w, WorkerNext(w, a, worker), a.token, task, s);
      OtherWorkerKeepsStep(w, a, worker, task, s);
      CalmKeeps(w, WorkerNext(w, a, worker), task, s, s);
    }
  }

  // ---------------------------------------------------------------- over whole runs

  lemma {:induction false} NextStays(w: World, a: Action, task: string, s: Step) returns (s': Step)
    requires Inv(w) && Stuck(w, task, s) && Disciplined(w, a)
    ensures SameOrCancelled(s, s') && Stuck(Next(w, a), task, s')
  {
    s' := s;
    match a
    case Tick(_) => QuietStays(w, a, task, s);
    case Push(_) => QuietStays(w, a, task, s);
    case Start(_, _, _, _, _) => StartStays(w, a, task, s);
    case RecoverLeases => s' := CallStays(w, Recover, task, s);
    case BeginVerify(_, _) => BeginVerifyStays(w, a, task, s);
    case EndVerify(_) => EndVerifyStays(w, a, task, s);
    case Engine(call) => s' := CallStays(w, call, task, s);
    case _ => if a.token in w.workers { WorkerStays(w, a, w.workers[a.token], task, s); }
  }

  lemma {:induction false} PlayStays(w: World, actions: seq<Action>, task: string, s: Step) returns (s': Step)
    requires Inv(w) && Stuck(w, task, s) && DisciplinedPlay(w, actions)
    ensures SameOrCancelled(s, s') && Stuck(Play(w, actions), task, s')
    decreases |actions|
  {
    s' := s;
    if actions != [] {
      NextKeeps(w, actions[0]);
      var s1 := NextStays(w, actions[0], task, s);
      s' := PlayStays(Next(w, actions[0]), actions[1..], task, s1);
    }
  }

  // A write that was published without leaving an entry in the journal, and that waits for
  // verification: the branch contains the commit, so it is past the head noted before.
  ghost predicate Lost(w: World, task: string, i: nat)
  {
    && task in w.store.tasks && i < |w.store.tasks[task].steps|
    && var s := w.store.tasks[task].steps[i];
       && s.mode == WriteMode && s.status == VerificationRequired
       && FindEntry(w.journal, task, s.key) == None
       && (forall t :: t in w.workers && OnStep(w.workers[t], task, s.key) ==> !w.workers[t].phase.Published?)
       && (forall k :: 0 <= k < |w.verifiers| ==> Useless(w.verifiers[k], task, s))
       && (CountFor(w.publications, task, s.key) == 1 || BranchIsPast(w.head, s))
  }

  lemma {:induction false} LostIsStuck(w: World, task: string, i: nat)
    requires Inv(w) && Lost(w, task, i)
    ensures Stuck(w, task, w.store.tasks[task].steps[i])
  {
    var s := w.store.tasks[task].steps[i];
    assert StepInv(w, task, s);
    if s.checkpoint.Some? && s.checkpoint.value.HeadBeforeWrite? && IsAncestor(w.head, s.checkpoint.value.head) {
      if CountFor(w.publications, task, s.key) == 1 {
        NoReturn(w.head, s.checkpoint.value.head);
      }
    }
  }

  // In every disciplined run from there the step is never decided and never written again:
  // it waits for verification, or is cancelled, with attempts and checkpoint as they were.
  lemma {:induction false} UnknownStaysParked(w: World, actions: seq<Action>, task: string, i: nat) returns (s': Step)
    requires Inv(w) && Lost(w, task, i) && DisciplinedPlay(w, actions)
    ensures SameOrCancelled(w.store.tasks[task].steps[i], s') && HasStep(Play(w, actions).store, task, s')
    ensures s'.status == VerificationRequired || s'.status == Cancelled
    ensures CountFor(Play(w, actions).publications, task, s'.key) == CountFor(w.publications, task, s'.key)
  {
    LostIsStuck(w, task, i);
    s' := PlayStays(w, actions, task, w.store.tasks[task].steps[i]);
    PublishesNothing(w, actions, task, w.store.tasks[task].steps[i]);
  }

  lemma {:induction false} PublishesNothing(w: World, actions: seq<Action>, task: string, s: Step)
    requires Inv(w) && Stuck(w, task, s) && DisciplinedPlay(w, actions)
    ensures CountFor(Play(w, actions).publications, task, s.key) == CountFor(w.publications, task, s.key)
    decreases |actions|
  {
    if actions != [] {
      NextKeeps(w, actions[0]);
      var s1 := NextStays(w, actions[0], task, s);
      PublishesNothing(Next(w, actions[0]), actions[1..], task, s1);
      OneActionPublishesNothing(w, actions[0], task, s);
    }
  }

  lemma {:induction false} OneActionPublishesNothing(w: World, a: Action, task: string, s: Step)
    requires Inv(w) && Stuck(w, task, s) && Disciplined(w, a)
    ensures CountFor(Next(w, a).publications, task, s.key) == CountFor(w.publications, task, s.key)
  {
    if a.MoveBranch? && a.token in w.workers && w.workers[a.token].phase.HeadChecked? {
      assert WorkerSane(w, a.token);
      var worker := w.workers[a.token];
      assert OnStep(worker, task, s.key) ==> ArmedOn(w, a.token, task, s.key);
      MovePublishes(w, a, worker);
      CountAppend(w.publications, Publication(worker.task, worker.key, worker.phase.commit), task, s.key);
    } else {
      OthersPublishNothing(w, a);
    }
  }

  lemma {:induction false} MovePublishes(w: World, a: Action, worker: Worker)
    requires a.MoveBranch? && a.token in w.workers && worker == w.workers[a.token] && worker.token == a.token && worker.phase.HeadChecked?
    ensures var w' := Next(w, a);
            w'.publications == w.publications
            || w'.publications == w.publications + [Publication(worker.task, worker.key, worker.phase.commit)]
  {
  }

  lemma {:induction false} OthersPublishNothing(w: World, a: Action)
    requires a.MoveBranch? && a.token in w.workers ==> !w.workers[a.token].phase.HeadChecked?
    ensures Next(w, a).publications == w.publications
  {
  }
}
