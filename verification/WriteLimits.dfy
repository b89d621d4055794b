// What the write protocol relies on: runs from the first step of the store on that keep all
// of its rules but one, once, and publish a write twice.
module WriteLimits {
  import opened Common
  import opened Git
  import opened Continuity
  import opened ContinuityRuns
  import opened WriteProtocol

  const LEASE := 15_000

  // ---------------------------------------------------------------- playing short runs

  // The actions of a run that broke a rule when they were taken.
  function Lapses(w: World, actions: seq<Action>): seq<Action>
    decreases |actions|
  {
    if actions == [] then [] else Lapse(w, actions[0]) + Lapses(Next(w, actions[0]), actions[1..])
  }

  function Lapse(w: World, a: Action): seq<Action>
  {
    if Disciplined(w, a) then [] else [a]
  }

  // The run leads from `w` to `v`, and these are its lapses.
  predicate Leads(w: World, actions: seq<Action>, lapses: seq<Action>, v: World)
  {
    Play(w, actions) == v && Lapses(w, actions) == lapses
  }

  lemma {:induction false} RunsOn(w: World, a: seq<Action>, b: seq<Action>)
    ensures Play(w, a + b) == Play(Play(w, a), b)
    ensures Lapses(w, a + b) == Lapses(w, a) + Lapses(Play(w, a), b)
    decreases |a|
  {
    if a == [] {
      assert a + b == b;
    } else {
      assert (a + b)[0] == a[0] && (a + b)[1..] == a[1..] + b;
      RunsOn(Next(w, a[0]), a[1..], b);
    }
  }

  lemma {:induction false} LeadsOn(w: World, a: seq<Action>, la: seq<Action>, u: World, b: seq<Action>, lb: seq<Action>, v: World)
    requires Leads(w, a, la, u) && Leads(u, b, lb, v)
    ensures Leads(w, a + b, la + lb, v)
  {
    RunsOn(w, a, b);
  }

  lemma {:induction false} NoLapseIsDiscipline(w: World, actions: seq<Action>)
    ensures DisciplinedPlay(w, actions) <==> Lapses(w, actions) == []
    decreases |actions|
  {
    if actions != [] {
      NoLapseIsDiscipline(Next(w, actions[0]), actions[1..]);
    }
  }

  lemma {:induction false} LeadsThree(w: World, a: Action, b: Action, c: Action)
    ensures var w1 := Next(w, a);
            var w2 := Next(w1, b);
            Leads(w, [a, b, c], Lapse(w, a) + Lapse(w1, b) + Lapse(w2, c), Next(w2, c))
  {
    assert [a, b, c][1..] == [b, c] && [b, c][1..] == [c] && [c][1..] == [];
    var w1 := Next(w, a);
    var w2 := Next(w1, b);
    assert Lapses(w2, [c]) == Lapse(w2, c) + [] == Lapse(w2, c);
    assert Play(w2, [c]) == Next(w2, c);
    assert Play(w1, [b, c]) == Play(w2, [c]) && Lapses(w1, [b, c]) == Lapse(w1, b) + Lapse(w2, c);
  }

  // ---------------------------------------------------------------- the write

  // A resumable write that is safe to retry, with attempts to spare.
  predicate Retryable(d: Descriptor)
  {
    d.key != "" && d.mode == WriteMode && d.resumable && d.retrySafe == Some(true) && d.status == Queued && d.attempts == 0
  }

  // This step is the only one.
  predicate Holding(w: World, task: string, s: Step)
  {
    && s.mode == WriteMode && s.resumable && s.retrySafe
    && task in w.store.tasks && w.store.tasks[task].steps == [s] && w.store.tasks[task].status != TaskCancelled
    && forall t :: t in w.workers ==> t < w.store.nextToken
  }

  // Worker `t` holds the step and has got as far as `phase`.
  predicate Writing(w: World, task: string, s: Step, t: nat, phase: Phase)
  {
    && Holding(w, task, s) && t + 1 == w.store.nextToken
    && s.status == Running && s.lease == Lease(t, w.now + LEASE)
    && t in w.workers && w.workers[t] == Worker(task, s.key, t, w.now + LEASE, true, phase)
  }

  // Nothing was published, journaled or found out between the worlds.
  predicate SameRecords(w: World, w': World)
  {
    w'.now == w.now && w'.verifiers == w.verifiers && w'.journal == w.journal && w'.head == w.head && w'.publications == w.publications
  }

  // The step as it was, with one attempt more or less spent.
  predicate SameBudget(s: Step, s': Step, attempts: nat)
  {
    s'.key == s.key && s'.attempts == attempts && s'.maxAttempts == s.maxAttempts
  }

  function SetUp(task: string, d: Descriptor): seq<Action>
  {
    [Engine(Create(task)), Engine(Define(task, [d])), Tick(0)]
  }

  // Every run starts from a world where nothing has happened yet.
  lemma {:induction false} SettingUp(w: World, task: string, d: Descriptor) returns (s: Step, v: World)
    requires Initial(w) && Retryable(d)
    ensures Leads(w, SetUp(task, d), [], v)
    ensures Holding(v, task, s) && s == Normalize(d, 0) && SameRecords(w, v) && v.store.nextToken == w.store.nextToken
  {
    LeadsThree(w, Engine(Create(task)), Engine(Define(task, [d])), Tick(0));
    var w1 := Next(w, Engine(Create(task)));
    s, v := Defining(w1, task, d);
    assert Next(v, Tick(0)) == v;
  }

  lemma {:induction false} Defining(w: World, task: string, d: Descriptor) returns (s: Step, v: World)
    requires Retryable(d) && w.workers == map[] && w.store.tasks == map[task := Task(TaskCreated, [], 0)]
    ensures v == Next(w, Engine(Define(task, [d]))) && Disciplined(w, Engine(Define(task, [d])))
    ensures Holding(v, task, s) && s == Normalize(d, 0) && SameRecords(w, v) && v.store.nextToken == w.store.nextToken
  {
    OneStepDefined(d);
    s := Normalize(d, 0);
    v := Next(w, Engine(Define(task, [d])));
    assert v.store.tasks[task].steps == [s];
  }

  lemma {:induction false} OneStepDefined(d: Descriptor)
    ensures SortByIndex(AddSteps([], [d], 0)) == [Normalize(d, 0)]
  {
    var s := Normalize(d, 0);
    assert [d][1..] == [] && [] + [s] == [s];
    assert AddSteps([], [d], 0) == [s];
    assert [s][..0] == [];
    assert SortByIndex([]) == [];
  }

  function Claiming(task: string, key: string, t: nat): seq<Action>
  {
    [Start(task, key, LEASE, "", true), ReadHead(t), SaveHead(t)]
  }

  function Publishing(t: nat): seq<Action>
  {
    [Prepare(t, map[], "write", t), CheckHead(t), MoveBranch(t, false)]
  }

  // A claim, the head noted, the branch moved, the answer lost; the worker is never
  // heard of again.
  function LostWrite(task: string, key: string, t: nat): seq<Action>
  {
    Claiming(task, key, t) + Publishing(t)
  }

  lemma {:induction false} Starting(w: World, task: string, s: Step) returns (s': Step)
    requires Holding(w, task, s)
    requires s.status == Queued || s.status == Interrupted || Expired(s, w.now)
    requires s.attempts < s.maxAttempts
    ensures var a := Start(task, s.key, LEASE, "", true);
            && s' == GrantStep(s, w.store.nextToken, w.now + LEASE, "")
            && Writing(Next(w, a), task, s', w.store.nextToken, Claimed) && SameRecords(w, Next(w, a))
            && (Disciplined(w, a) <==> !Expired(s, w.now))
  {
    s' := GrantStep(s, w.store.nextToken, w.now + LEASE, "");
    assert [s][0 := s'] == [s'];
    assert w.store.tasks[task].steps[0] == s;
  }

  lemma {:induction false} Saving(w: World, task: string, s: Step, t: nat) returns (s': Step)
    requires Writing(w, task, s, t, HeadKnown(w.head))
    ensures s' == s.(checkpoint := Some(HeadBeforeWrite(w.head)))
    ensures Writing(Next(w, SaveHead(t)), task, s', t, Checkpointed(w.head)) && SameRecords(w, Next(w, SaveHead(t)))
    ensures Disciplined(w, SaveHead(t))
  {
    s' := s.(checkpoint := Some(HeadBeforeWrite(w.head)));
    assert [s][0 := s'] == [s'];
  }

  lemma {:induction false} ClaimingWorks(w: World, task: string, s: Step) returns (s': Step, v: World)
    requires Holding(w, task, s)
    requires s.status == Queued || s.status == Interrupted || Expired(s, w.now)
    requires s.attempts < s.maxAttempts
    ensures var t, a := w.store.nextToken, Start(task, s.key, LEASE, "", true);
            && Leads(w, Claiming(task, s.key, t), if Expired(s, w.now) then [a] else [], v)
            && Writing(v, task, s', t, Checkpointed(w.head)) && SameBudget(s, s', s.attempts + 1)
            && s'.checkpoint == Some(HeadBeforeWrite(w.head)) && SameRecords(w, v)
  {
    var t := w.store.nextToken;
    LeadsThree(w, Start(task, s.key, LEASE, "", true), ReadHead(t), SaveHead(t));
    var s1 := Starting(w, task, s);
    var w1 := Next(w, Start(task, s.key, LEASE, "", true));
    var w2 := Next(w1, ReadHead(t));
    assert Writing(w2, task, s1, t, HeadKnown(w.head));
    s' := Saving(w2, task, s1, t);
    v := Next(w2, SaveHead(t));
  }

  lemma {:induction false} Building(w: World, task: string, s: Step, t: nat) returns (v: World)
    requires Writing(w, task, s, t, Checkpointed(w.head))
    ensures v == Next(Next(w, Prepare(t, map[], "write", t)), CheckHead(t))
    ensures Disciplined(w, Prepare(t, map[], "write", t)) && Disciplined(Next(w, Prepare(t, map[], "write", t)), CheckHead(t))
    ensures Writing(v, task, s, t, HeadChecked(w.head, Commit([w.head], map[], "write", t))) && SameRecords(w, v)
  {
    v := Next(Next(w, Prepare(t, map[], "write", t)), CheckHead(t));
  }

  // The worker's commit is still on the head: the move goes through, late or not.
  lemma {:induction false} Moving(w: World, task: string, key: string, t: nat)
    requires t in w.workers && w.workers[t].token == t && w.workers[t].task == task && w.workers[t].key == key
    requires w.workers[t].phase == HeadChecked(w.head, Commit([w.head], map[], "write", t))
    ensures var v := Next(w, MoveBranch(t, false));
            && v == w.(head := v.head, publications := v.publications, workers := w.workers[t := w.workers[t].(phase := Failing)])
            && CountFor(v.publications, task, key) == CountFor(w.publications, task, key) + 1
            && (Disciplined(w, MoveBranch(t, false)) <==> w.now < w.workers[t].until)
  {
    var commit := Commit([w.head], map[], "write", t);
    assert commit.parents[0] == w.head;
    ParentIsStrictAncestor(commit, 0);
    var v := Next(w, MoveBranch(t, false));
    assert v.publications == w.publications + [Publication(task, key, commit)];
    assert v.publications[..|w.publications|] == w.publications;
  }

  lemma {:induction false} PublishingWorks(w: World, task: string, s: Step, t: nat) returns (v: World)
    requires Writing(w, task, s, t, Checkpointed(w.head))
    ensures Leads(w, Publishing(t), [], v) && Writing(v, task, s, t, Failing)
    ensures v.now == w.now && v.verifiers == w.verifiers && v.journal == w.journal
    ensures CountFor(v.publications, task, s.key) == CountFor(w.publications, task, s.key) + 1
  {
    LeadsThree(w, Prepare(t, map[], "write", t), CheckHead(t), MoveBranch(t, false));
    var w2 := Building(w, task, s, t);
    Moving(w2, task, s.key, t);
    v := Next(w2, MoveBranch(t, false));
  }

  lemma {:induction false} LostWriteWorks(w: World, task: string, s: Step) returns (s': Step, v: World)
    requires Holding(w, task, s)
    requires s.status == Queued || s.status == Interrupted || Expired(s, w.now)
    requires s.attempts < s.maxAttempts
    ensures var t, a := w.store.nextToken, Start(task, s.key, LEASE, "", true);
            && Leads(w, LostWrite(task, s.key, t), if Expired(s, w.now) then [a] else [], v)
            && Writing(v, task, s', t, Failing) && SameBudget(s, s', s.attempts + 1)
            && v.now == w.now && v.verifiers == w.verifiers && v.journal == w.journal
            && CountFor(v.publications, task, s.key) == CountFor(w.publications, task, s.key) + 1
  {
    var t, a := w.store.nextToken, Start(task, s.key, LEASE, "", true);
    var u;
    s', u := ClaimingWorks(w, task, s);
    v := PublishingWorks(u, task, s', t);
    LeadsOn(w, Claiming(task, s.key, t), if Expired(s, w.now) then [a] else [], u, Publishing(t), [], v);
  }

  // A run goes on with one write more.
  lemma {:induction false} OneWriteMore(w: World, before: seq<Action>, lapses: seq<Action>, u: World, task: string, s: Step)
    returns (run: seq<Action>, s': Step, v: World)
    requires Leads(w, before, lapses, u) && Holding(u, task, s) && s.attempts < s.maxAttempts
    requires s.status == Queued || s.status == Interrupted || Expired(s, u.now)
    ensures Leads(w, run, lapses + (if Expired(s, u.now) then [Start(task, s.key, LEASE, "", true)] else []), v)
    ensures Writing(v, task, s', u.store.nextToken, Failing) && SameBudget(s, s', s.attempts + 1)
    ensures v.verifiers == u.verifiers
    ensures CountFor(v.publications, task, s.key) == CountFor(u.publications, task, s.key) + 1
  {
    var t, a := u.store.nextToken, Start(task, s.key, LEASE, "", true);
    s', v := LostWriteWorks(u, task, s);
    run := before + LostWrite(task, s.key, t);
    LeadsOn(w, before, lapses, u, LostWrite(task, s.key, t), if Expired(s, u.now) then [a] else [], v);
  }

  // ---------------------------------------------------------------- claimed again before recovery

  function Pause(): seq<Action>
  {
    [Tick(LEASE), Tick(0), Tick(0)]
  }

  lemma {:induction false} Pausing(w: World, task: string, s: Step, t: nat, phase: Phase) returns (v: World)
    requires Writing(w, task, s, t, phase)
    ensures Leads(w, Pause(), [], v) && Holding(v, task, s) && Expired(s, v.now)
    ensures v == w.(now := w.now + LEASE)
  {
    LeadsThree(w, Tick(LEASE), Tick(0), Tick(0));
    v := w.(now := w.now + LEASE);
  }

  // All rules but the first: the expired write is claimed again before recovery has run.
  lemma {:induction false} ReclaimWithoutRecovery(w: World, task: string, d: Descriptor) returns (run: seq<Action>)
    requires Initial(w) && Retryable(d) && Normalize(d, 0).maxAttempts >= 2
    ensures Lapses(w, run) == [Start(task, d.key, LEASE, "", true)]
    ensures CountFor(Play(w, run).publications, task, d.key) == 2
  {
    var s0, w0 := SettingUp(w, task, d);
    var first, s1, w1 := OneWriteMore(w, SetUp(task, d), [], w0, task, s0);
    var w2 := Pausing(w1, task, s1, w.store.nextToken, Failing);
    LeadsOn(w, first, [], w1, Pause(), [], w2);
    var s3, w3;
    run, s3, w3 := OneWriteMore(w, first + Pause(), [], w2, task, s1);
  }

  // ---------------------------------------------------------------- an answer used too late

  lemma {:induction false} Recovering(w: World, task: string, s: Step) returns (s': Step, v: World)
    requires Holding(w, task, s) && Expired(s, w.now)
    ensures v == Next(w, RecoverLeases) && Disciplined(w, RecoverLeases)
    ensures Holding(v, task, s') && s' == s.(status := VerificationRequired, lease := NoLease)
    ensures v == w.(store := v.store) && v.store.nextToken == w.store.nextToken
  {
    v := Next(w, RecoverLeases);
    s' := s.(status := VerificationRequired, lease := NoLease);
    var t0 := w.store.tasks[task];
    assert Expired(t0.steps[0], w.now);
    assert RecoverTask(t0, w.now).steps == [s'];
  }

  lemma {:induction false} Looking(w: World, task: string, s: Step)
    requires Holding(w, task, s) && s.status == VerificationRequired
    requires s.checkpoint == Some(HeadBeforeWrite(w.head)) && w.journal == []
    ensures Next(w, BeginVerify(task, s.key))
            == w.(verifiers := w.verifiers + [Verifier(task, s.key, s.attempts, VerifiedAbsent)])
    ensures Disciplined(w, BeginVerify(task, s.key))
  {
  }

  lemma {:induction false} Resolving(w: World, task: string, s: Step, i: nat) returns (s': Step)
    requires Holding(w, task, s) && s.status == VerificationRequired
    requires i < |w.verifiers| && w.verifiers[i].task == task && w.verifiers[i].key == s.key
    requires w.verifiers[i].finding == VerifiedAbsent
    ensures var v := Next(w, EndVerify(i));
            && Holding(v, task, s') && s' == s.(status := Interrupted)
            && v == w.(store := v.store) && v.store.nextToken == w.store.nextToken
    ensures Disciplined(w, EndVerify(i)) <==> s.attempts == w.verifiers[i].attempts
  {
    s' := s.(status := Interrupted);
    assert [s][0 := s'] == [s'];
    assert StepOf(w.store, task, s.key) == Some(s);
  }

  // Two verifications find that nothing was written; one answer is used at once.
  function TwoLooks(task: string, key: string): seq<Action>
  {
    [Tick(LEASE), RecoverLeases, BeginVerify(task, key)] + [BeginVerify(task, key), EndVerify(0), Tick(0)]
  }

  lemma {:induction false} FirstLook(w: World, task: string, s: Step, t: nat) returns (s': Step, v: World)
    requires Writing(w, task, s, t, Checkpointed(w.head)) && s.checkpoint == Some(HeadBeforeWrite(w.head))
    requires w.journal == [] && w.verifiers == []
    ensures Leads(w, [Tick(LEASE), RecoverLeases, BeginVerify(task, s.key)], [], v)
    ensures Holding(v, task, s') && s' == s.(status := VerificationRequired, lease := NoLease)
    ensures v.store.nextToken == t + 1 && v.head == w.head && v.journal == [] && v.publications == w.publications
    ensures v.verifiers == [Verifier(task, s.key, s.attempts, VerifiedAbsent)]
  {
    LeadsThree(w, Tick(LEASE), RecoverLeases, BeginVerify(task, s.key));
    var u;
    s', u := Recovering(Next(w, Tick(LEASE)), task, s);
    Looking(u, task, s');
    v := Next(u, BeginVerify(task, s.key));
  }

  lemma {:induction false} TwoLooksWork(w: World, task: string, s: Step, t: nat) returns (s': Step, v: World)
    requires Writing(w, task, s, t, Checkpointed(w.head)) && s.checkpoint == Some(HeadBeforeWrite(w.head))
    requires w.journal == [] && w.verifiers == []
    ensures Leads(w, TwoLooks(task, s.key), [], v)
    ensures Holding(v, task, s') && s'.status == Interrupted && SameBudget(s, s', s.attempts) && v.store.nextToken == t + 1
    ensures |v.verifiers| == 2 && v.verifiers[1] == Verifier(task, s.key, s.attempts, VerifiedAbsent)
    ensures v.publications == w.publications
  {
    var s1, w1 := FirstLook(w, task, s, t);
    LeadsThree(w1, BeginVerify(task, s.key), EndVerify(0), Tick(0));
    Looking(w1, task, s1);
    var w2 := Next(w1, BeginVerify(task, s.key));
    s' := Resolving(w2, task, s1, 0);
    v := Next(Next(w2, EndVerify(0)), Tick(0));
    LeadsOn(w, [Tick(LEASE), RecoverLeases, BeginVerify(task, s.key)], [], w1, [BeginVerify(task, s.key), EndVerify(0), Tick(0)], [], v);
  }

  // The lease runs out, recovery runs, a verification answer is used.
  function Recheck(i: nat): seq<Action>
  {
    [Tick(LEASE), RecoverLeases, EndVerify(i)]
  }

  lemma {:induction false} RecheckWorks(w: World, task: string, s: Step, t: nat, phase: Phase, i: nat) returns (s': Step, v: World)
    requires Writing(w, task, s, t, phase)
    requires i < |w.verifiers| && w.verifiers[i].task == task && w.verifiers[i].key == s.key
    requires w.verifiers[i].finding == VerifiedAbsent
    ensures Leads(w, Recheck(i), if s.attempts == w.verifiers[i].attempts then [] else [EndVerify(i)], v)
    ensures Holding(v, task, s') && s'.status == Interrupted && SameBudget(s, s', s.attempts) && v.store.nextToken == w.store.nextToken
    ensures v.publications == w.publications
  {
    LeadsThree(w, Tick(LEASE), RecoverLeases, EndVerify(i));
    var s2, u := Recovering(Next(w, Tick(LEASE)), task, s);
    s' := Resolving(u, task, s2, i);
    v := Next(u, EndVerify(i));
  }

  // All rules but the second: two looks, a write, the second answer, a write.
  lemma {:induction false} StaleVerification(w: World, task: string, d: Descriptor) returns (run: seq<Action>)
    requires Initial(w) && Retryable(d) && Normalize(d, 0).maxAttempts >= 3
    ensures Lapses(w, run) == [EndVerify(1)]
    ensures CountFor(Play(w, run).publications, task, d.key) == 2
  {
    var t := w.store.nextToken;
    var s0, w0 := SettingUp(w, task, d);
    var s1, w1 := ClaimingWorks(w0, task, s0);
    LeadsOn(w, SetUp(task, d), [], w0, Claiming(task, d.key, t), [], w1);
    var s2, w2 := TwoLooksWork(w1, task, s1, t);
    var a2 := SetUp(task, d) + Claiming(task, d.key, t) + TwoLooks(task, d.key);
    LeadsOn(w, SetUp(task, d) + Claiming(task, d.key, t), [], w1, TwoLooks(task, d.key), [], w2);
    run := LateAnswer(w, a2, w2, task, s2);
  }

  // The write is made and interrupted, the second answer is used, the write is made again.
  lemma {:induction false} LateAnswer(w: World, before: seq<Action>, w2: World, task: string, s: Step) returns (run: seq<Action>)
    requires Leads(w, before, [], w2) && CountFor(w2.publications, task, s.key) == 0
    requires Holding(w2, task, s) && s.status == Interrupted && s.attempts + 1 < s.maxAttempts
    requires |w2.verifiers| == 2 && w2.verifiers[1] == Verifier(task, s.key, s.attempts, VerifiedAbsent)
    ensures Lapses(w, run) == [EndVerify(1)]
    ensures CountFor(Play(w, run).publications, task, s.key) == 2
  {
    var t := w2.store.nextToken;
    var first, s3, w3 := OneWriteMore(w, before, [], w2, task, s);
    var s4, w4 := RecheckWorks(w3, task, s3, t, Failing, 1);
    LeadsOn(w, first, [], w3, Recheck(1), [EndVerify(1)], w4);
    var s5, w5;
    run, s5, w5 := OneWriteMore(w, first + Recheck(1), [EndVerify(1)], w4, task, s4);
  }

  // ---------------------------------------------------------------- a worker that goes on

  // The commit is built and checked, then the worker falls asleep past its lease.
  function Dozing(t: nat): seq<Action>
  {
    [Prepare(t, map[], "write", t), CheckHead(t), Tick(LEASE)]
  }

  function Freeing(task: string, key: string): seq<Action>
  {
    [RecoverLeases, BeginVerify(task, key), EndVerify(0)]
  }

  // It wakes up and moves the branch.
  function Waking(t: nat): seq<Action>
  {
    [MoveBranch(t, false), Tick(0), Tick(0)]
  }

  // Worker `t` has a commit on the head that it was not to use any more.
  predicate Asleep(w: World, task: string, key: string, t: nat)
  {
    && t in w.workers
    && w.workers[t] == Worker(task, key, t, w.workers[t].until, true, HeadChecked(w.head, Commit([w.head], map[], "write", t)))
    && w.workers[t].until <= w.now
  }

  lemma {:induction false} DozingWorks(w: World, task: string, s: Step, t: nat) returns (v: World)
    requires Writing(w, task, s, t, Checkpointed(w.head))
    ensures Leads(w, Dozing(t), [], v) && Holding(v, task, s) && Expired(s, v.now) && Asleep(v, task, s.key, t)
    ensures v.store == w.store && v.head == w.head && v.journal == w.journal && v.verifiers == w.verifiers
    ensures v.publications == w.publications
  {
    LeadsThree(w, Prepare(t, map[], "write", t), CheckHead(t), Tick(LEASE));
    var u := Building(w, task, s, t);
    v := Next(u, Tick(LEASE));
  }

  lemma {:induction false} FreeingWorks(w: World, task: string, s: Step, t: nat) returns (s': Step, v: World)
    requires Holding(w, task, s) && Expired(s, w.now) && Asleep(w, task, s.key, t)
    requires s.checkpoint == Some(HeadBeforeWrite(w.head)) && w.journal == [] && w.verifiers == []
    ensures Leads(w, Freeing(task, s.key), [], v) && Holding(v, task, s') && Asleep(v, task, s.key, t)
    ensures s'.status == Interrupted && SameBudget(s, s', s.attempts)
    ensures v.store.nextToken == w.store.nextToken && v.publications == w.publications
  {
    LeadsThree(w, RecoverLeases, BeginVerify(task, s.key), EndVerify(0));
    var s1, u := Recovering(w, task, s);
    Looking(u, task, s1);
    s' := Resolving(Next(u, BeginVerify(task, s.key)), task, s1, 0);
    v := Next(Next(u, BeginVerify(task, s.key)), EndVerify(0));
  }

  lemma {:induction false} WakingWorks(w: World, task: string, s: Step, t: nat) returns (v: World)
    requires Holding(w, task, s) && Asleep(w, task, s.key, t)
    ensures Leads(w, Waking(t), [MoveBranch(t, false)], v) && Holding(v, task, s) && v.store == w.store
    ensures CountFor(v.publications, task, s.key) == CountFor(w.publications, task, s.key) + 1
  {
    LeadsThree(w, MoveBranch(t, false), Tick(0), Tick(0));
    Moving(w, task, s.key, t);
    v := Next(w, MoveBranch(t, false));
  }

  // All rules but the third: a worker moves the branch after its lease ran out, the write
  // having been found absent in the meantime - and it is made again.
  lemma {:induction false} WorkerAfterLease(w: World, task: string, d: Descriptor) returns (run: seq<Action>)
    requires Initial(w) && Retryable(d) && Normalize(d, 0).maxAttempts >= 2
    ensures Lapses(w, run) == [MoveBranch(w.store.nextToken, false)]
    ensures CountFor(Play(w, run).publications, task, d.key) == 2
  {
    var t := w.store.nextToken;
    var s0, w0 := SettingUp(w, task, d);
    var s1, w1 := ClaimingWorks(w0, task, s0);
    LeadsOn(w, SetUp(task, d), [], w0, Claiming(task, d.key, t), [], w1);
    var w2 := DozingWorks(w1, task, s1, t);
    var a2 := SetUp(task, d) + Claiming(task, d.key, t) + Dozing(t);
    LeadsOn(w, SetUp(task, d) + Claiming(task, d.key, t), [], w1, Dozing(t), [], w2);
    var s3, w3 := FreeingWorks(w2, task, s1, t);
    LeadsOn(w, a2, [], w2, Freeing(task, d.key), [], w3);
    run := LateMove(w, a2 + Freeing(task, d.key), w3, task, s3, t);
  }

  lemma {:induction false} LateMove(w: World, before: seq<Action>, w3: World, task: string, s: Step, t: nat) returns (run: seq<Action>)
    requires Leads(w, before, [], w3) && CountFor(w3.publications, task, s.key) == 0
    requires Holding(w3, task, s) && Asleep(w3, task, s.key, t) && s.status == Interrupted && s.attempts < s.maxAttempts
    ensures Lapses(w, run) == [MoveBranch(t, false)]
    ensures CountFor(Play(w, run).publications, task, s.key) == 2
  {
    var w4 := WakingWorks(w3, task, s, t);
    LeadsOn(w, before, [], w3, Waking(t), [MoveBranch(t, false)], w4);
    var s5, w5;
    run, s5, w5 := OneWriteMore(w, before + Waking(t), [MoveBranch(t, false)], w4, task, s);
  }
}
