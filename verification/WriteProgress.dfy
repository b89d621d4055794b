// What a write comes to: an undisturbed one is completed with its commit, a published one is
// journaled and repaired, one whose branch moved on is given up, a failed one is parked.
module WriteProgress {
  import opened Common
  import opened Git
  import opened Continuity
  import opened ContinuityRuns
  import opened ContinuityCalls
  import opened WriteProtocol
  import opened WriteSafety
  import opened WriteRepair
  import WL = WriteLimits

  // ---------------------------------------------------------------- the journal is written

  // Every worker that has journaled its commit has an entry that says so.
  ghost predicate Journals(w: World)
  {
    forall t :: t in w.workers ==>
      w.workers[t].token == t
      && (w.workers[t].phase.Journaled? ==>
            JournalEntry(w.workers[t].task, w.workers[t].key, t, w.workers[t].phase.commit) in w.journal)
  }

  lemma {:induction false} JournalGrows(w: World, a: Action)
    requires Journals(w)
    ensures forall e :: e in w.journal ==> e in Next(w, a).journal
    ensures Journals(Next(w, a))
  {
    var w' := Next(w, a);
    if IsWorkerAction(a) && a.token in w.workers {
      WorkerJournals(w, a, w.workers[a.token]);
    }
  }

  lemma {:induction false} WorkerJournals(w: World, a: Action, worker: Worker)
    requires Journals(w) && IsWorkerAction(a) && a.token in w.workers && worker == w.workers[a.token]
    ensures forall e :: e in w.journal ==> e in WorkerNext(w, a, worker).journal
    ensures Journals(WorkerNext(w, a, worker))
  {
    var w' := WorkerNext(w, a, worker);
    if a.Record? && worker.phase.Published? {
      assert w'.journal[0] == JournalEntry(worker.task, worker.key, worker.token, worker.phase.commit);
    }
    forall e | e in w.journal ensures e in w'.journal {
    }
  }

  // In every run, a worker that has journaled its commit left an entry with its step, its
  // operation and the commit, which no later action removes.
  lemma {:induction false} JournaledIsWritten(w: World, actions: seq<Action>, t: nat)
    requires Initial(w) || Journals(w)
    requires t in Play(w, actions).workers && Play(w, actions).workers[t].phase.Journaled?
    ensures var v := Play(w, actions);
            JournalEntry(v.workers[t].task, v.workers[t].key, t, v.workers[t].phase.commit) in v.journal
    decreases |actions|
  {
    if actions != [] {
      JournalGrows(w, actions[0]);
      JournaledIsWritten(Next(w, actions[0]), actions[1..], t);
    }
  }

  // ---------------------------------------------------------------- a worker with its step

  // Worker `t` holds step `i` by a live lease and has got as far as `phase`.
  predicate Works(w: World, task: string, i: nat, t: nat, phase: Phase)
  {
    && task in w.store.tasks && i < |w.store.tasks[task].steps| && t in w.workers
    && var s := w.store.tasks[task].steps[i];
       && s.mode == WriteMode && s.status == Running && s.lease.Lease? && s.lease.token == t && w.now < s.lease.until
       && w.workers[t] == Worker(task, s.key, t, s.lease.until, true, phase)
  }

  function StepAt(w: World, task: string, i: nat): Step
    requires task in w.store.tasks && i < |w.store.tasks[task].steps|
  {
    w.store.tasks[task].steps[i]
  }

  // Nothing but workers changed.
  predicate OnlyWorkers(w: World, v: World)
  {
    v == w.(workers := v.workers)
  }

  lemma {:induction false} ReadingHead(w: World, task: string, i: nat, t: nat)
    requires Inv(w) && Works(w, task, i, t, Claimed)
    ensures var v := Next(w, ReadHead(t));
            Disciplined(w, ReadHead(t)) && Inv(v) && Works(v, task, i, t, HeadKnown(w.head)) && OnlyWorkers(w, v)
  {
    NextKeeps(w, ReadHead(t));
  }

  lemma {:induction false} SavingHead(w: World, task: string, i: nat, t: nat)
    requires Inv(w) && Works(w, task, i, t, HeadKnown(w.head))
    ensures Disciplined(w, SaveHead(t)) && Inv(Next(w, SaveHead(t))) && HeadSaved(w, Next(w, SaveHead(t)), task, i, t)
  {
    NextKeeps(w, SaveHead(t));
    AddressedByKey(w, task, i);
    SavedHead(w, task, i, t);
  }

  ghost predicate HeadSaved(w: World, v: World, task: string, i: nat, t: nat)
    requires task in w.store.tasks && i < |w.store.tasks[task].steps|
  {
    && Works(v, task, i, t, Checkpointed(w.head)) && v == w.(store := v.store, workers := v.workers)
    && v.store.tasks[task].steps == w.store.tasks[task].steps[i := StepAt(w, task, i).(checkpoint := Some(HeadBeforeWrite(w.head)))]
  }

  lemma {:induction false} SavedHead(w: World, task: string, i: nat, t: nat)
    requires Works(w, task, i, t, HeadKnown(w.head)) && Addressed(w.store, task, StepAt(w, task, i).key, i)
    ensures HeadSaved(w, Next(w, SaveHead(t)), task, i, t)
  {
    CheckpointExactly(w.store, task, StepAt(w, task, i).key, Some(HeadBeforeWrite(w.head)), w.now, i);
  }

  lemma {:induction false} PreparingAndChecking(w: World, task: string, i: nat, t: nat, tree: Tree, message: string, stamp: nat)
    requires Inv(w) && Works(w, task, i, t, Checkpointed(w.head))
    ensures var u := Next(w, Prepare(t, tree, message, stamp));
            var v := Next(u, CheckHead(t));
            && Disciplined(w, Prepare(t, tree, message, stamp)) && Disciplined(u, CheckHead(t)) && Inv(v)
            && Works(v, task, i, t, HeadChecked(w.head, Commit([w.head], tree, message, stamp))) && OnlyWorkers(w, v)
  {
    NextKeeps(w, Prepare(t, tree, message, stamp));
    var u := Next(w, Prepare(t, tree, message, stamp));
    assert Works(u, task, i, t, Prepared(w.head, Commit([w.head], tree, message, stamp)));
    NextKeeps(u, CheckHead(t));
  }

  // The branch moves; the worker knows it exactly when it is answered.
  lemma {:induction false} MovingBranch(w: World, task: string, i: nat, t: nat, c: Commit, answered: bool)
    requires Inv(w) && Works(w, task, i, t, HeadChecked(w.head, c))
    ensures var v := Next(w, MoveBranch(t, answered));
            && Disciplined(w, MoveBranch(t, answered)) && Inv(v)
            && Works(v, task, i, t, if answered then Published(c) else Failing)
            && v == w.(workers := v.workers, head := c,
                       publications := w.publications + [Publication(task, StepAt(w, task, i).key, c)])
  {
    assert WorkerSane(w, t);
    assert c.parents[0] == w.head;
    ParentIsStrictAncestor(c, 0);
    NextKeeps(w, MoveBranch(t, answered));
  }

  lemma {:induction false} Recording(w: World, task: string, i: nat, t: nat, c: Commit)
    requires Inv(w) && Works(w, task, i, t, Published(c))
    ensures var v := Next(w, Record(t));
            && Disciplined(w, Record(t)) && Inv(v) && Works(v, task, i, t, Journaled(c))
            && v == w.(workers := v.workers, journal := [JournalEntry(task, StepAt(w, task, i).key, t, c)] + w.journal)
  {
    NextKeeps(w, Record(t));
  }

  lemma {:induction false} Finishing(w: World, task: string, i: nat, t: nat, c: Commit, digest: string)
    requires Inv(w) && Works(w, task, i, t, Journaled(c))
    ensures Disciplined(w, Finish(t, digest)) && Inv(Next(w, Finish(t, digest)))
    ensures Finished(w, Next(w, Finish(t, digest)), task, i, t, Reference(Some(t), Some(c), digest))
  {
    NextKeeps(w, Finish(t, digest));
    AddressedByKey(w, task, i);
    Finishes(w, task, i, t, c, digest);
  }

  ghost predicate Finished(w: World, v: World, task: string, i: nat, t: nat, result: Reference)
    requires task in w.store.tasks && i < |w.store.tasks[task].steps|
  {
    && v == w.(store := v.store, workers := v.workers) && task in v.store.tasks
    && v.store.tasks[task].steps == w.store.tasks[task].steps[i := StepAt(w, task, i).(
         status := Completed, result := result, checkpoint := None, lease := NoLease)]
  }

  lemma {:induction false} Finishes(w: World, task: string, i: nat, t: nat, c: Commit, digest: string)
    requires Works(w, task, i, t, Journaled(c)) && Addressed(w.store, task, StepAt(w, task, i).key, i)
    ensures Finished(w, Next(w, Finish(t, digest)), task, i, t, Reference(Some(t), Some(c), digest))
  {
    CompleteExactly(w.store, task, StepAt(w, task, i).key, Some(t), Reference(Some(t), Some(c), digest), None, w.now, i);
  }

  // ---------------------------------------------------------------- the undisturbed write

  // Anybody may claim the write now.
  predicate Open(w: World, task: string, i: nat)
  {
    && task in w.store.tasks && i < |w.store.tasks[task].steps| && w.store.tasks[task].status != TaskCancelled
    && StepAt(w, task, i).mode == WriteMode && StepAt(w, task, i).status != Running
    && ContinuityCalls.Claimable(StepAt(w, task, i), w.now) && StepAt(w, task, i).attempts < StepAt(w, task, i).maxAttempts
  }

  predicate Started(w: World, v: World, task: string, i: nat, digest: string)
    requires task in w.store.tasks && i < |w.store.tasks[task].steps|
  {
    var s, t := StepAt(w, task, i), w.store.nextToken;
    && Works(v, task, i, t, Claimed) && v == w.(store := v.store, workers := v.workers)
    && v.store.tasks[task].steps == w.store.tasks[task].steps[i := s.(
         status := Running, attempts := s.attempts + 1, lease := StepAt(v, task, i).lease,
         inputDigest := if digest == "" then s.inputDigest else digest)]
  }

  lemma {:induction false} Starting(w: World, task: string, i: nat, leaseMs: int, digest: string)
    requires Inv(w) && Open(w, task, i)
    ensures var a := Start(task, StepAt(w, task, i).key, leaseMs, digest, true);
            Disciplined(w, a) && Inv(Next(w, a)) && Started(w, Next(w, a), task, i, digest)
  {
    AddressedByKey(w, task, i);
    Starts(w, task, i, leaseMs, digest);
    StartIsDisciplined(w, task, i, leaseMs, digest);
    NextKeeps(w, Start(task, StepAt(w, task, i).key, leaseMs, digest, true));
  }

  lemma {:induction false} StartIsDisciplined(w: World, task: string, i: nat, leaseMs: int, digest: string)
    requires Inv(w) && Open(w, task, i)
    ensures Disciplined(w, Start(task, StepAt(w, task, i).key, leaseMs, digest, true))
  {
    OnlyThisKey(w, task, i);
  }

  lemma {:induction false} Starts(w: World, task: string, i: nat, leaseMs: int, digest: string)
    requires Open(w, task, i) && Addressed(w.store, task, StepAt(w, task, i).key, i)
    ensures Started(w, Next(w, Start(task, StepAt(w, task, i).key, leaseMs, digest, true)), task, i, digest)
  {
    ClaimExactly(w.store, task, StepAt(w, task, i).key, leaseMs, digest, w.now, i);
  }

  lemma {:induction false} AddressedByKey(w: World, task: string, i: nat)
    requires Inv(w) && task in w.store.tasks && i < |w.store.tasks[task].steps|
    ensures Addressed(w.store, task, StepAt(w, task, i).key, i)
  {
    FoundByKey(w, task, i);
    var steps := w.store.tasks[task].steps;
    assert Matches(steps[i], steps[i].key);
    assert forall j :: 0 <= j < i ==> !Matches(steps[j], steps[i].key);
  }

  lemma {:induction false} OnlyThisKey(w: World, task: string, i: nat)
    requires Inv(w) && task in w.store.tasks && i < |w.store.tasks[task].steps|
    ensures forall j :: 0 <= j < |w.store.tasks[task].steps| && w.store.tasks[task].steps[j].key == StepAt(w, task, i).key ==> j == i
  {
    assert SoundTask(w.store.tasks[task], w.store.nextToken);
  }

  function Claiming(task: string, key: string, leaseMs: int, digest: string, t: nat): seq<Action>
  {
    [Start(task, key, leaseMs, digest, true), ReadHead(t), SaveHead(t)]
  }

  // The step is claimed and the head noted in it.
  predicate Noted(w: World, v: World, task: string, i: nat, digest: string)
    requires task in w.store.tasks && i < |w.store.tasks[task].steps|
  {
    var s, t := StepAt(w, task, i), w.store.nextToken;
    && Works(v, task, i, t, Checkpointed(w.head)) && v == w.(store := v.store, workers := v.workers)
    && v.store.tasks[task].steps == w.store.tasks[task].steps[i := s.(
         status := Running, attempts := s.attempts + 1, lease := StepAt(v, task, i).lease,
         inputDigest := if digest == "" then s.inputDigest else digest, checkpoint := Some(HeadBeforeWrite(w.head)))]
  }

  lemma {:induction false} StartedAndSaved(w: World, w1: World, w2: World, v: World, task: string, i: nat, digest: string)
    requires task in w.store.tasks && i < |w.store.tasks[task].steps| && Started(w, w1, task, i, digest)
    requires OnlyWorkers(w1, w2) && HeadSaved(w2, v, task, i, w.store.nextToken)
    ensures Noted(w, v, task, i, digest)
  {
  }

  lemma {:induction false} ClaimRuns(w: World, task: string, i: nat, leaseMs: int, digest: string) returns (v: World)
    requires Inv(w) && Open(w, task, i)
    ensures WL.Leads(w, Claiming(task, StepAt(w, task, i).key, leaseMs, digest, w.store.nextToken), [], v)
    ensures Inv(v) && Noted(w, v, task, i, digest)
  {
    var s, t := StepAt(w, task, i), w.store.nextToken;
    var a := Start(task, s.key, leaseMs, digest, true);
    Starting(w, task, i, leaseMs, digest);
    var w1 := Next(w, a);
    ReadingHead(w1, task, i, t);
    var w2 := Next(w1, ReadHead(t));
    SavingHead(w2, task, i, t);
    v := Next(w2, SaveHead(t));
    StartedAndSaved(w, w1, w2, v, task, i, digest);
    ThreeOrderly(w, a, ReadHead(t), SaveHead(t));
  }

  lemma {:induction false} ThreeOrderly(w: World, a: Action, b: Action, c: Action)
    requires Disciplined(w, a) && Disciplined(Next(w, a), b) && Disciplined(Next(Next(w, a), b), c)
    ensures WL.Leads(w, [a, b, c], [], Next(Next(Next(w, a), b), c))
  {
    WL.LeadsThree(w, a, b, c);
  }

  function Publishing(t: nat, tree: Tree, message: string, stamp: nat): seq<Action>
  {
    [Prepare(t, tree, message, stamp), CheckHead(t), MoveBranch(t, true)]
  }

  lemma {:induction false} PublishRuns(w: World, task: string, i: nat, t: nat, tree: Tree, message: string, stamp: nat) returns (v: World)
    requires Inv(w) && Works(w, task, i, t, Checkpointed(w.head))
    ensures var c := Commit([w.head], tree, message, stamp);
            && WL.Leads(w, Publishing(t, tree, message, stamp), [], v) && Inv(v) && Works(v, task, i, t, Published(c))
            && v == w.(workers := v.workers, head := c, publications := w.publications + [Publication(task, StepAt(w, task, i).key, c)])
  {
    var c := Commit([w.head], tree, message, stamp);
    WL.LeadsThree(w, Prepare(t, tree, message, stamp), CheckHead(t), MoveBranch(t, true));
    PreparingAndChecking(w, task, i, t, tree, message, stamp);
    var u := Next(Next(w, Prepare(t, tree, message, stamp)), CheckHead(t));
    MovingBranch(u, task, i, t, c, true);
    v := Next(u, MoveBranch(t, true));
  }

  function Closing(t: nat, result: string): seq<Action>
  {
    [Record(t), Finish(t, result), Tick(0)]
  }

  // Journaled and completed: nothing else changed.
  ghost predicate Closed(w: World, v: World, task: string, i: nat, t: nat, c: Commit, result: string)
    requires task in w.store.tasks && i < |w.store.tasks[task].steps|
  {
    && v == w.(store := v.store, workers := v.workers, journal := [JournalEntry(task, StepAt(w, task, i).key, t, c)] + w.journal)
    && task in v.store.tasks
    && v.store.tasks[task].steps == w.store.tasks[task].steps[i := StepAt(w, task, i).(
         status := Completed, result := Reference(Some(t), Some(c), result), checkpoint := None, lease := NoLease)]
  }

  lemma {:induction false} RecordedAndFinished(w: World, u: World, v: World, task: string, i: nat, t: nat, c: Commit, result: string)
    requires task in w.store.tasks && i < |w.store.tasks[task].steps|
    requires u == w.(workers := u.workers, journal := [JournalEntry(task, StepAt(w, task, i).key, t, c)] + w.journal)
    requires Finished(u, v, task, i, t, Reference(Some(t), Some(c), result))
    ensures Closed(w, v, task, i, t, c, result)
  {
  }

  lemma {:induction false} CloseRuns(w: World, task: string, i: nat, t: nat, c: Commit, result: string) returns (v: World)
    requires Inv(w) && Works(w, task, i, t, Published(c))
    ensures WL.Leads(w, Closing(t, result), [], v) && Inv(v) && Closed(w, v, task, i, t, c, result)
  {
    var u := Next(w, Record(t));
    v := Next(u, Finish(t, result));
    Recording(w, task, i, t, c);
    Finishing(u, task, i, t, c, result);
    RecordedAndFinished(w, u, v, task, i, t, c, result);
    TwoAndWait(w, Record(t), Finish(t, result));
  }

  lemma {:induction false} TwoAndWait(w: World, a: Action, b: Action)
    requires Disciplined(w, a) && Disciplined(Next(w, a), b)
    ensures WL.Leads(w, [a, b, Tick(0)], [], Next(Next(w, a), b))
  {
    ThreeOrderly(w, a, b, Tick(0));
    var v := Next(Next(w, a), b);
    assert Next(v, Tick(0)) == v;
  }

  // Left alone, a write that may be claimed is completed: one commit with the tree and the
  // message of the write on the head there was, published once, journaled under the token,
  // and named by the step.
  lemma {:induction false} UndisturbedWrite(w: World, task: string, i: nat, leaseMs: int, digest: string,
                                            tree: Tree, message: string, stamp: nat, result: string) returns (run: seq<Action>, v: World)
    requires Inv(w) && Open(w, task, i)
    ensures var s, t, c := StepAt(w, task, i), w.store.nextToken, Commit([w.head], tree, message, stamp);
            && WL.Leads(w, run, [], v) && Inv(v) && task in v.store.tasks && i < |v.store.tasks[task].steps|
            && StepAt(v, task, i).status == Completed && StepAt(v, task, i).result == Reference(Some(t), Some(c), result)
            && StepAt(v, task, i).attempts == s.attempts + 1
            && v.head == c && v.publications == w.publications + [Publication(task, s.key, c)]
            && v.journal == [JournalEntry(task, s.key, t, c)] + w.journal
  {
    var s, t, c := StepAt(w, task, i), w.store.nextToken, Commit([w.head], tree, message, stamp);
    var a, b, d := Claiming(task, s.key, leaseMs, digest, t), Publishing(t, tree, message, stamp), Closing(t, result);
    var w1 := ClaimRuns(w, task, i, leaseMs, digest);
    var w2 := PublishRuns(w1, task, i, t, tree, message, stamp);
    WL.LeadsOn(w, a, [], w1, b, [], w2);
    v := CloseRuns(w2, task, i, t, c, result);
    WL.LeadsOn(w, a + b, [], w2, d, [], v);
    run := a + b + d;
  }

  // ---------------------------------------------------------------- the undisturbed read

  // Worker `t` runs a step that is not a write.
  predicate Reads(w: World, task: string, i: nat, t: nat, phase: Phase)
  {
    && task in w.store.tasks && i < |w.store.tasks[task].steps| && t in w.workers
    && var s := w.store.tasks[task].steps[i];
       && s.mode != WriteMode && s.status == Running && s.lease.Lease? && s.lease.token == t && w.now < s.lease.until
       && w.workers[t] == Worker(task, s.key, t, s.lease.until, false, phase)
  }

  lemma {:induction false} ReadFinishes(w: World, task: string, i: nat, t: nat, digest: string)
    requires Reads(w, task, i, t, Claimed) && Addressed(w.store, task, StepAt(w, task, i).key, i)
    ensures Disciplined(w, Finish(t, digest))
    ensures Finished(w, Next(w, Finish(t, digest)), task, i, t, Reference(Some(t), None, digest))
  {
    CompleteExactly(w.store, task, StepAt(w, task, i).key, Some(t), Reference(Some(t), None, digest), None, w.now, i);
  }

  lemma {:induction false} ReadStarts(w: World, task: string, i: nat, leaseMs: int, digest: string)
    requires Inv(w) && task in w.store.tasks && i < |w.store.tasks[task].steps| && w.store.tasks[task].status != TaskCancelled
    requires StepAt(w, task, i).mode != WriteMode && ContinuityCalls.Claimable(StepAt(w, task, i), w.now)
    requires StepAt(w, task, i).attempts < StepAt(w, task, i).maxAttempts
    ensures var a := Start(task, StepAt(w, task, i).key, leaseMs, digest, false);
            var v := Next(w, a);
            && Disciplined(w, a) && Inv(v) && Reads(v, task, i, w.store.nextToken, Claimed) && v == w.(store := v.store, workers := v.workers)
            && StepAt(v, task, i).attempts == StepAt(w, task, i).attempts + 1
  {
    var a := Start(task, StepAt(w, task, i).key, leaseMs, digest, false);
    AddressedByKey(w, task, i);
    OnlyThisKey(w, task, i);
    ClaimExactly(w.store, task, StepAt(w, task, i).key, leaseMs, digest, w.now, i);
    NextKeeps(w, a);
  }

  // Left alone, a step that does not write is completed under its token.
  lemma {:induction false} UndisturbedRead(w: World, task: string, i: nat, leaseMs: int, digest: string, result: string)
    returns (run: seq<Action>, v: World)
    requires Inv(w) && task in w.store.tasks && i < |w.store.tasks[task].steps| && w.store.tasks[task].status != TaskCancelled
    requires StepAt(w, task, i).mode != WriteMode && ContinuityCalls.Claimable(StepAt(w, task, i), w.now)
    requires StepAt(w, task, i).attempts < StepAt(w, task, i).maxAttempts
    ensures WL.Leads(w, run, [], v) && task in v.store.tasks && i < |v.store.tasks[task].steps|
    ensures StepAt(v, task, i).status == Completed && StepAt(v, task, i).result == Reference(Some(w.store.nextToken), None, result)
    ensures v.head == w.head && v.publications == w.publications && v.journal == w.journal
  {
    var t := w.store.nextToken;
    var a := Start(task, StepAt(w, task, i).key, leaseMs, digest, false);
    ReadStarts(w, task, i, leaseMs, digest);
    var u := Next(w, a);
    AddressedByKey(u, task, i);
    ReadFinishes(u, task, i, t, result);
    TwoAndWait(w, a, Finish(t, result));
    run, v := [a, Finish(t, result), Tick(0)], Next(u, Finish(t, result));
  }

  // ---------------------------------------------------------------- failures

  // A failure is reported: a write is parked with the head noted before it, any other step
  // may be tried again exactly when it is resumable and has attempts left.
  lemma {:induction false} FailureIsReported(w: World, task: string, i: nat, t: nat)
    requires Inv(w) && (Works(w, task, i, t, Failing) || Reads(w, task, i, t, Failing))
    ensures var s, v := StepAt(w, task, i), Next(w, Report(t));
            && Disciplined(w, Report(t)) && v == w.(store := v.store, workers := w.workers[t := w.workers[t].(phase := Stopped)])
            && task in v.store.tasks && v.store.tasks[task].steps == w.store.tasks[task].steps[i := s.(lease := NoLease, status :=
                 if s.mode == WriteMode then VerificationRequired
                 else if s.resumable && s.attempts < s.maxAttempts then Interrupted else Failed)]
  {
    AddressedByKey(w, task, i);
    Reporting(w, task, i, t);
  }

  lemma {:induction false} Reporting(w: World, task: string, i: nat, t: nat)
    requires Works(w, task, i, t, Failing) || Reads(w, task, i, t, Failing)
    requires Addressed(w.store, task, StepAt(w, task, i).key, i)
    ensures var s, v := StepAt(w, task, i), Next(w, Report(t));
            && v == w.(store := v.store, workers := w.workers[t := w.workers[t].(phase := Stopped)])
            && task in v.store.tasks && v.store.tasks[task].steps == w.store.tasks[task].steps[i := s.(lease := NoLease, status :=
                 if s.mode == WriteMode then VerificationRequired
                 else if s.resumable && s.attempts < s.maxAttempts then Interrupted else Failed)]
  {
    FailExactly(w.store, task, StepAt(w, task, i).key, Some(t), w.workers[t].writes, w.now, i);
  }

  // An exception before the head is noted leaves the step to its lease; any later one is on
  // its way to the report.
  lemma {:induction false} ExceptionsAreReported(w: World, t: nat)
    requires t in w.workers && w.workers[t].token == t && w.workers[t].phase != Stopped
    ensures var v := Next(w, Break(t));
            v == w.(workers := w.workers[t := w.workers[t].(phase :=
              if w.workers[t].writes && (w.workers[t].phase.Claimed? || w.workers[t].phase.HeadKnown?) then Stopped else Failing)])
  {
  }

  // Where the branch has left the noted head, the worker gives up before it publishes
  // anything - at the next of its looks, or by the refused push.
  lemma {:induction false} MovedHeadStops(w: World, task: string, i: nat, t: nat, phase: Phase, tree: Tree, message: string, stamp: nat, answered: bool)
    requires Inv(w) && Works(w, task, i, t, phase) && (phase.Checkpointed? || phase.Prepared? || phase.HeadChecked?)
    requires w.head != phase.base && (phase.Checkpointed? || w.head != phase.commit)
    ensures var a := match phase
                     case Checkpointed(_) => Prepare(t, tree, message, stamp)
                     case Prepared(_, _) => CheckHead(t)
                     case _ => MoveBranch(t, answered);
            Next(w, a) == w.(workers := w.workers[t := w.workers[t].(phase := Failing)])
  {
    assert WorkerSane(w, t);
    if phase.HeadChecked? {
      ChildAcceptance(w.head, phase.base, phase.commit);
    }
  }

  lemma {:induction false} PushedAway(w: World, task: string, i: nat, t: nat, target: Commit)
    requires Inv(w) && Works(w, task, i, t, Checkpointed(w.head)) && FastForward(w.head, target)
    ensures Inv(Next(w, Push(target))) && Next(w, Push(target)) == w.(head := target)
    ensures Works(Next(w, Push(target)), task, i, t, Checkpointed(w.head)) && Disciplined(w, Push(target))
  {
    NextKeeps(w, Push(target));
  }

  // A push of somebody else between the noted head and the write: the write is given up,
  // the step parked, and the branch is past the noted head for good.
  lemma {:induction false} ForeignPushParks(w: World, task: string, i: nat, t: nat, target: Commit, tree: Tree, message: string, stamp: nat)
    returns (v: World)
    requires Inv(w) && Works(w, task, i, t, Checkpointed(w.head)) && StepAt(w, task, i).checkpoint == Some(HeadBeforeWrite(w.head))
    requires FastForward(w.head, target) && target != w.head
    ensures WL.Leads(w, [Push(target), Prepare(t, tree, message, stamp), Report(t)], [], v)
    ensures task in v.store.tasks && i < |v.store.tasks[task].steps| && v.head == target && v.publications == w.publications
    ensures StepAt(v, task, i) == StepAt(w, task, i).(status := VerificationRequired, lease := NoLease)
    ensures StepAt(v, task, i).checkpoint == Some(HeadBeforeWrite(w.head)) && !IsAncestor(v.head, w.head)
  {
    var w1 := Next(w, Push(target));
    PushedAway(w, task, i, t, target);
    MovedHeadStops(w1, task, i, t, Checkpointed(w.head), tree, message, stamp, true);
    NextKeeps(w1, Prepare(t, tree, message, stamp));
    var w2 := Next(w1, Prepare(t, tree, message, stamp));
    FailureIsReported(w2, task, i, t);
    v := Next(w2, Report(t));
    ThreeOrderly(w, Push(target), Prepare(t, tree, message, stamp), Report(t));
    if IsAncestor(target, w.head) {
      NoReturn(target, w.head);
    }
  }

  // ---------------------------------------------------------------- the published write

  // The worker records its commit and is lost; its lease runs out.
  function Losing(t: nat, wait: nat): seq<Action>
  {
    [Record(t), Crash(t), Tick(wait)]
  }

  // What is left of it: the entry.
  predicate LeftBehind(w: World, v: World, e: JournalEntry)
  {
    v == w.(now := v.now, workers := v.workers, journal := [e] + w.journal)
  }

  lemma {:induction false} Lost(w: World, task: string, i: nat, t: nat, c: Commit) returns (run: seq<Action>, v: World)
    requires Inv(w) && Works(w, task, i, t, Published(c))
    ensures WL.Leads(w, run, [], v) && Inv(v) && Stranded(v, task, i)
    ensures LeftBehind(w, v, JournalEntry(task, StepAt(w, task, i).key, t, c))
  {
    var wait: nat := w.workers[t].until - w.now;
    Recording(w, task, i, t, c);
    var u := Next(w, Record(t));
    Expiring(u, task, i, t, c, wait);
    v := Next(Next(u, Crash(t)), Tick(wait));
    ThreeOrderly(w, Record(t), Crash(t), Tick(wait));
    run := Losing(t, wait);
  }

  lemma {:induction false} NewestIsFound(e: JournalEntry, journal: seq<JournalEntry>)
    ensures FindEntry([e] + journal, e.task, e.key) == Some(e)
  {
  }

  lemma {:induction false} Expiring(w: World, task: string, i: nat, t: nat, c: Commit, wait: nat)
    requires Inv(w) && Works(w, task, i, t, Journaled(c)) && w.now + wait == w.workers[t].until
    ensures var u := Next(w, Crash(t));
            var v := Next(u, Tick(wait));
            && Disciplined(w, Crash(t)) && Disciplined(u, Tick(wait)) && Inv(v) && Stranded(v, task, i)
            && v == w.(now := w.now + wait, workers := v.workers)
  {
    NextKeeps(w, Crash(t));
    var u := Next(w, Crash(t));
    assert u == w.(workers := u.workers);
    NextKeeps(u, Tick(wait));
  }

  // A write that was published and recorded, whose worker died before it completed the step:
  // after the lease, recovery and one verification complete it with that very commit, and
  // publish nothing.
  lemma {:induction false} PublishedWriteIsRepaired(w: World, task: string, i: nat, t: nat, c: Commit) returns (run: seq<Action>)
    requires Inv(w) && Works(w, task, i, t, Published(c))
    ensures var v := Play(w, run);
            && WL.Leads(w, run, [], v) && Inv(v) && task in v.store.tasks && i < |v.store.tasks[task].steps|
            && StepAt(v, task, i) == StepAt(w, task, i).(status := Completed, result := Reference(Some(t), Some(c), ""), lease := NoLease)
            && v.publications == w.publications && v.head == w.head
  {
    var e := JournalEntry(task, StepAt(w, task, i).key, t, c);
    var losing, u := Lost(w, task, i, t, c);
    NewestIsFound(e, w.journal);
    JournaledWriteIsCompleted(u, task, i, e);
    WL.NoLapseIsDiscipline(u, Repair(u, task, i));
    run := losing + Repair(u, task, i);
    WL.LeadsOn(w, losing, [], u, Repair(u, task, i), [], Play(u, Repair(u, task, i)));
  }
}
