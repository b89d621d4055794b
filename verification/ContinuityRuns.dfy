// What holds over every run of the durable-step engine, whoever calls it, in any
// order and at any times.
module ContinuityRuns {
  import opened Common
  import opened Continuity

  datatype Timed = Timed(call: Call, now: int)

  function Run(st: Store, calls: seq<Timed>): Store
    decreases |calls|
  {
    if calls == [] then st else Run(Apply(st, calls[0].call, calls[0].now).0, calls[1..])
  }

  // ---------------------------------------------------------------- one step by its key

  predicate DistinctKeys(steps: seq<Step>)
  {
    forall i, j :: 0 <= i < j < |steps| ==> steps[i].key != steps[j].key
  }

  predicate HasStep(st: Store, task: string, s: Step)
  {
    task in st.tasks && s in st.tasks[task].steps
  }

  // The step a granted claim went to.
  function GrantedTo(st: Store, call: Call, now: int): Option<(string, string)>
  {
    var (_, r) := Apply(st, call, now);
    if r.Ok? && r.value.Granted? && call.Claim? && call.task in st.tasks
       && FindStep(st.tasks[call.task].steps, call.key) < |st.tasks[call.task].steps|
    then Some((call.task, st.tasks[call.task].steps[FindStep(st.tasks[call.task].steps, call.key)].key))
    else None
  }

  // All that one call can do to one step.
  predicate Evolves(s: Step, s': Step, granted: bool, token: nat)
  {
    && s'.key == s.key && s'.id == s.id && s'.mode == s.mode
    && s'.maxAttempts == s.maxAttempts && s'.resumable == s.resumable && s'.retrySafe == s.retrySafe
    && s'.attempts == s.attempts + (if granted then 1 else 0)
    && (s.status == Completed ==> s'.status == Completed && s'.result == s.result && !granted)
    && (granted ==> s'.attempts <= s'.maxAttempts && s'.lease.Lease? && s'.lease.token == token)
    && (!granted ==> s'.lease == s.lease || s'.lease == NoLease)
    && (s'.status == Completed && s.status != Completed && s.mode == WriteMode ==> s'.result.Present())
  }

  // ---------------------------------------------------------------- defining steps

  lemma {:induction false} AddStepsKeeps(steps: seq<Step>, descriptors: seq<Descriptor>, done: nat)
    requires DistinctKeys(steps)
    ensures var r := AddSteps(steps, descriptors, done);
            && DistinctKeys(r) && |steps| <= |r| && r[..|steps|] == steps
            && forall j :: |steps| <= j < |r| ==> r[j].lease == NoLease
    decreases |descriptors|
  {
    if descriptors != [] {
      var s := Normalize(descriptors[0], |steps| + done);
      var next := if HasKey(steps, s.key) then steps else steps + [s];
      AddStepsKeeps(next, descriptors[1..], done + 1);
      var r := AddSteps(steps, descriptors, done);
      assert r[..|steps|] == r[..|next|][..|steps|];
      forall j | |steps| <= j < |r| ensures r[j].lease == NoLease {
        if j < |next| {
          assert r[j] == r[..|next|][j];
        }
      }
    }
  }

  lemma {:induction false} InsertKeeps(sorted: seq<Step>, s: Step)
    requires DistinctKeys(sorted) && !HasKey(sorted, s.key)
    ensures DistinctKeys(InsertByIndex(sorted, s))
    ensures forall x :: x in InsertByIndex(sorted, s) <==> x in sorted || x == s
  {
    if sorted != [] && sorted[|sorted| - 1].index > s.index {
      var front, last := sorted[..|sorted| - 1], sorted[|sorted| - 1];
      assert sorted == front + [last];
      InsertKeeps(front, s);
      var r := InsertByIndex(front, s);
      forall i | 0 <= i < |r| ensures r[i].key != last.key {
        assert r[i] in r;
      }
    }
  }

  lemma {:induction false} SortKeeps(steps: seq<Step>)
    requires DistinctKeys(steps)
    ensures DistinctKeys(SortByIndex(steps))
    ensures forall x :: x in SortByIndex(steps) <==> x in steps
  {
    if steps != [] {
      var front, last := steps[..|steps| - 1], steps[|steps| - 1];
      assert steps == front + [last];
      SortKeeps(front);
      forall i | 0 <= i < |SortByIndex(front)| ensures SortByIndex(front)[i].key != last.key {
        assert SortByIndex(front)[i] in front;
      }
      InsertKeeps(SortByIndex(front), last);
    }
  }

  predicate InOrder(steps: seq<Step>)
  {
    forall i, j :: 0 <= i < j < |steps| ==> steps[i].index <= steps[j].index
  }

  lemma {:induction false} InsertOrders(sorted: seq<Step>, s: Step, top: nat)
    requires InOrder(sorted) && s.index <= top && forall i :: 0 <= i < |sorted| ==> sorted[i].index <= top
    ensures InOrder(InsertByIndex(sorted, s))
    ensures forall i :: 0 <= i < |sorted| + 1 ==> InsertByIndex(sorted, s)[i].index <= top
  {
    if sorted != [] && sorted[|sorted| - 1].index > s.index {
      InsertOrders(sorted[..|sorted| - 1], s, sorted[|sorted| - 1].index);
    }
  }

  // Steps are handed out by index.
  lemma {:induction false} DefinedInOrder(t: Task, descriptors: seq<Descriptor>)
    requires DefineTask(t, descriptors).Ok?
    ensures InOrder(DefineTask(t, descriptors).value.0.steps)
  {
    SortOrders(AddSteps(t.steps, descriptors, 0));
  }

  lemma {:induction false} SortOrders(steps: seq<Step>)
    ensures InOrder(SortByIndex(steps))
  {
    if steps != [] {
      SortOrders(steps[..|steps| - 1]);
      var front, last := SortByIndex(steps[..|steps| - 1]), steps[|steps| - 1];
      InsertOrders(front, last, Max(last.index, if front == [] then 0 else front[|front| - 1].index));
    }
  }

  lemma {:induction false} DefinedSteps(t: Task, descriptors: seq<Descriptor>)
    requires DistinctKeys(t.steps)
    ensures var r := SortByIndex(AddSteps(t.steps, descriptors, 0));
            && DistinctKeys(r)
            && (forall s :: s in t.steps ==> s in r)
            && (forall s :: s in r ==> s in t.steps || s.lease == NoLease)
  {
    AddStepsKeeps(t.steps, descriptors, 0);
    var added := AddSteps(t.steps, descriptors, 0);
    SortKeeps(added);
    assert added == t.steps + added[|t.steps|..];
  }

  // ---------------------------------------------------------------- the invariant

  predicate StatusAgrees(t: Task)
  {
    t.status != TaskCancelled ==>
      (t.status == TaskCompleted <==> t.steps != [] && AllCompleted(t.steps))
  }

  predicate SoundTask(t: Task, nextToken: nat)
  {
    && DistinctKeys(t.steps)
    && StatusAgrees(t)
    && forall i :: 0 <= i < |t.steps| && t.steps[i].lease.Lease? ==> t.steps[i].lease.token < nextToken
  }

  predicate Sound(st: Store)
  {
    forall id :: id in st.tasks ==> SoundTask(st.tasks[id], st.nextToken)
  }

  // What a call on a known set of steps may do to them.
  ghost predicate StepsEvolve(t: Task, t': Task, reply: Reply, key: string, claim: bool, token: nat)
  {
    && |t'.steps| == |t.steps|
    && (reply.Granted? ==> claim && reply.token == token && FindStep(t.steps, key) < |t.steps|)
    && (forall i :: 0 <= i < |t.steps| ==>
          Evolves(t.steps[i], t'.steps[i], reply.Granted? && i == FindStep(t.steps, key), token))
  }

  lemma {:induction false} ClaimEvolves(t: Task, key: string, now: int, leaseMs: int, token: nat, digest: string)
    requires ClaimTask(t, key, now, leaseMs, token, digest).Ok?
    ensures var (t', reply) := ClaimTask(t, key, now, leaseMs, token, digest).value; StepsEvolve(t, t', reply, key, true, token)
  {
  }

  lemma {:induction false} ReportEvolves(t: Task, call: Call, now: int, token: nat)
    requires (call.Complete? || call.Fail?) && TaskCall(t, call, now, token).Ok?
    ensures var (t', reply) := TaskCall(t, call, now, token).value; StepsEvolve(t, t', reply, call.key, false, token)
  {
  }

  lemma {:induction false} WholeTaskEvolves(t: Task, call: Call, now: int, token: nat)
    requires (call.Resume? || call.Cancel?) && TaskCall(t, call, now, token).Ok?
    ensures var (t', reply) := TaskCall(t, call, now, token).value; !reply.Granted? && StepsEvolve(t, t', reply, "", false, token)
  {
  }

  lemma {:induction false} OtherCallEvolves(t: Task, call: Call, now: int, token: nat)
    requires (call.Resolve? || call.Resume? || call.Cancel? || call.SaveCheckpoint?) && TaskCall(t, call, now, token).Ok?
    ensures var (t', reply) := TaskCall(t, call, now, token).value; !reply.Granted? && StepsEvolve(t, t', reply, "", false, token)
  {
    if call.Resume? || call.Cancel? {
      WholeTaskEvolves(t, call, now, token);
    }
  }

  // Calls other than Define keep every step in its place.
  lemma {:induction false} TaskCallEvolves(t: Task, call: Call, now: int, token: nat)
    requires SoundTask(t, token)
    requires !call.Create? && !call.Recover? && !call.Define?
    requires TaskCall(t, call, now, token).Ok?
    ensures var (t', reply) := TaskCall(t, call, now, token).value;
            && |t'.steps| == |t.steps|
            && (reply.Granted? ==> call.Claim? && reply.token == token && FindStep(t.steps, call.key) < |t.steps|)
            && (forall i :: 0 <= i < |t.steps| ==>
                  Evolves(t.steps[i], t'.steps[i], reply.Granted? && i == FindStep(t.steps, call.key), token))
  {
    match call
    case Claim(_, key, leaseMs, digest) => ClaimEvolves(t, key, now, leaseMs, token, digest);
    case Complete(_, _, _, _, _) => ReportEvolves(t, call, now, token);
    case Fail(_, _, _, _) => ReportEvolves(t, call, now, token);
    case _ => OtherCallEvolves(t, call, now, token);
  }

  lemma {:induction false} ClaimAgrees(t: Task, key: string, now: int, leaseMs: int, token: nat, digest: string)
    requires StatusAgrees(t) && ClaimTask(t, key, now, leaseMs, token, digest).Ok?
    ensures StatusAgrees(ClaimTask(t, key, now, leaseMs, token, digest).value.0)
  {
    var t' := ClaimTask(t, key, now, leaseMs, token, digest).value.0;
    var i := FindStep(t.steps, key);
    assert t.steps[i].status != Completed ==> t'.steps[i].status == Running;
  }

  lemma {:induction false} ResumeAgrees(t: Task)
    requires StatusAgrees(t) && ResumeTask(t).Ok?
    ensures StatusAgrees(ResumeTask(t).value.0)
  {
    var t' := ResumeTask(t).value.0;
    if AllCompleted(t'.steps) {
      forall i | 0 <= i < |t.steps| ensures t.steps[i].status == Completed {
        assert t'.steps[i].status == Completed;
      }
    }
  }

  lemma {:induction false} CheckpointAgrees(t: Task, key: string, checkpoint: Option<Checkpoint>)
    requires StatusAgrees(t) && CheckpointTask(t, key, checkpoint).Ok?
    ensures StatusAgrees(CheckpointTask(t, key, checkpoint).value.0)
  {
    var t' := CheckpointTask(t, key, checkpoint).value.0;
    assert forall j :: 0 <= j < |t.steps| ==> t'.steps[j].status == t.steps[j].status;
  }

  lemma {:induction false} RefreshAgrees(t: Task)
    requires t.steps == [] ==> t.status != TaskCompleted
    ensures StatusAgrees(Refresh(t))
  {
  }

  lemma {:induction false} TaskCallAgrees(t: Task, call: Call, now: int, token: nat)
    requires StatusAgrees(t) && !call.Create? && !call.Recover?
    requires TaskCall(t, call, now, token).Ok?
    ensures StatusAgrees(TaskCall(t, call, now, token).value.0)
  {
    match call
    case Claim(_, key, leaseMs, digest) => ClaimAgrees(t, key, now, leaseMs, token, digest);
    case Resume(_) => ResumeAgrees(t);
    case SaveCheckpoint(_, key, checkpoint) => CheckpointAgrees(t, key, checkpoint);
    case Define(_, descriptors) => RefreshAgrees(t.(steps := SortByIndex(AddSteps(t.steps, descriptors, 0))));
    case _ =>
  }

  lemma {:induction false} DefineSound(t: Task, descriptors: seq<Descriptor>, token: nat)
    requires SoundTask(t, token) && DefineTask(t, descriptors).Ok?
    ensures SoundTask(DefineTask(t, descriptors).value.0, token)
  {
    var t' := DefineTask(t, descriptors).value.0;
    RefreshAgrees(t.(steps := SortByIndex(AddSteps(t.steps, descriptors, 0))));
    DefinedSteps(t, descriptors);
    forall i | 0 <= i < |t'.steps| && t'.steps[i].lease.Lease? ensures t'.steps[i].lease.token < token {
      assert t'.steps[i] in t'.steps;
    }
  }

  lemma {:induction false} TaskCallSound(t: Task, call: Call, now: int, token: nat)
    requires SoundTask(t, token) && !call.Create? && !call.Recover?
    requires TaskCall(t, call, now, token).Ok?
    ensures var (t', reply) := TaskCall(t, call, now, token).value;
            SoundTask(t', if reply.Granted? then token + 1 else token)
  {
    if call.Define? {
      DefineSound(t, call.descriptors, token);
    } else {
      TaskCallAgrees(t, call, now, token);
      TaskCallEvolves(t, call, now, token);
      var (t', reply) := TaskCall(t, call, now, token).value;
      assert forall i :: 0 <= i < |t.steps| ==> t'.steps[i].key == t.steps[i].key;
    }
  }

  lemma {:induction false} RecoverTaskEvolves(t: Task, now: int, token: nat)
    requires SoundTask(t, token)
    ensures var t' := RecoverTask(t, now);
            && SoundTask(t', token) && |t'.steps| == |t.steps|
            && forall i :: 0 <= i < |t.steps| ==> Evolves(t.steps[i], t'.steps[i], false, token)
  {
  }

  lemma {:induction false} ApplySound(st: Store, call: Call, now: int)
    requires Sound(st)
    ensures Sound(Apply(st, call, now).0)
  {
    var (st', r) := Apply(st, call, now);
    forall id | id in st'.tasks ensures SoundTask(st'.tasks[id], st'.nextToken) {
      if call.Recover? {
        RecoverTaskEvolves(st.tasks[id], now, st.nextToken);
      } else if r.Ok? && !call.Create? && id == call.task {
        TaskCallSound(st.tasks[id], call, now, st.nextToken);
      }
    }
  }

  lemma {:induction false} RecoverEvolves(st: Store, now: int, task: string, i: nat)
    requires Sound(st) && task in st.tasks && i < |st.tasks[task].steps|
    ensures var st' := Apply(st, Recover, now).0;
            && task in st'.tasks && i < |st'.tasks[task].steps| && HasStep(st', task, st'.tasks[task].steps[i])
            && Evolves(st.tasks[task].steps[i], st'.tasks[task].steps[i], false, st.nextToken)
  {
    RecoverTaskEvolves(st.tasks[task], now, st.nextToken);
  }

  lemma {:induction false} CallEvolves(st: Store, call: Call, now: int, i: nat)
    requires Sound(st) && !call.Create? && !call.Recover? && !call.Define? && Apply(st, call, now).1.Ok?
    requires call.task in st.tasks && i < |st.tasks[call.task].steps|
    ensures var st' := Apply(st, call, now).0;
            var s := st.tasks[call.task].steps[i];
            && call.task in st'.tasks && i < |st'.tasks[call.task].steps| && HasStep(st', call.task, st'.tasks[call.task].steps[i])
            && Evolves(s, st'.tasks[call.task].steps[i], GrantedTo(st, call, now) == Some((call.task, s.key)), st.nextToken)
  {
    TaskCallEvolves(st.tasks[call.task], call, now, st.nextToken);
    var st' := Apply(st, call, now).0;
    assert st'.tasks[call.task].steps[i] in st'.tasks[call.task].steps;
  }

  // The step a step turns into under one call.
  ghost function After(st: Store, call: Call, now: int, task: string, s: Step): (s': Step)
    requires Sound(st) && HasStep(st, task, s)
    ensures HasStep(Apply(st, call, now).0, task, s')
    ensures Evolves(s, s', GrantedTo(st, call, now) == Some((task, s.key)), st.nextToken)
  {
    var (st', r) := Apply(st, call, now);
    var steps := st.tasks[task].steps;
    var i :| 0 <= i < |steps| && steps[i] == s;
    if call.Recover? then
      RecoverEvolves(st, now, task, i);
      st'.tasks[task].steps[i]
    else if r.Err? || call.Create? || task != call.task then s
    else if call.Define? then
      DefinedSteps(st.tasks[task], call.descriptors);
      s
    else
      CallEvolves(st, call, now, i);
      st'.tasks[task].steps[i]
  }

  lemma {:induction false} KeyIsUnique(st: Store, task: string, a: Step, b: Step)
    requires Sound(st) && HasStep(st, task, a) && HasStep(st, task, b) && a.key == b.key
    ensures a == b
  {
    var steps := st.tasks[task].steps;
    var i :| 0 <= i < |steps| && steps[i] == a;
    var j :| 0 <= j < |steps| && steps[j] == b;
    assert i == j;
  }

  // ---------------------------------------------------------------- over whole runs

  // The step a step turns into over a run.
  ghost function AfterRun(st: Store, calls: seq<Timed>, task: string, s: Step): (s': Step)
    requires Sound(st) && HasStep(st, task, s)
    ensures HasStep(Run(st, calls), task, s') && s'.key == s.key
    decreases |calls|
  {
    if calls == [] then s
    else
      var (call, now) := (calls[0].call, calls[0].now);
      ApplySound(st, call, now);
      AfterRun(Apply(st, call, now).0, calls[1..], task, After(st, call, now, task, s))
  }

  lemma {:induction false} RunSound(st: Store, calls: seq<Timed>)
    requires Sound(st)
    ensures Sound(Run(st, calls))
    decreases |calls|
  {
    if calls != [] {
      ApplySound(st, calls[0].call, calls[0].now);
      RunSound(Apply(st, calls[0].call, calls[0].now).0, calls[1..]);
    }
  }

  // Every store reached from the empty one: distinct keys, tokens that were really
  // issued, and a task that is completed exactly when it has steps and all of them are.
  lemma {:induction false} StatusAgreement(calls: seq<Timed>, task: string)
    requires task in Run(Store(map[], 0), calls).tasks
    ensures var t := Run(Store(map[], 0), calls).tasks[task];
            && DistinctKeys(t.steps)
            && (t.status != TaskCancelled ==>
                  (t.status == TaskCompleted <==> t.steps != [] && AllCompleted(t.steps)))
  {
    RunSound(Store(map[], 0), calls);
  }

  // A completed step never changes its status or its result, whatever is called.
  lemma {:induction false} CompletedIsAbsorbing(st: Store, calls: seq<Timed>, task: string, s: Step)
    requires Sound(st) && HasStep(st, task, s) && s.status == Completed
    ensures var s' := AfterRun(st, calls, task, s);
            s'.status == Completed && s'.result == s.result
    decreases |calls|
  {
    if calls != [] {
      var (call, now) := (calls[0].call, calls[0].now);
      ApplySound(st, call, now);
      CompletedIsAbsorbing(Apply(st, call, now).0, calls[1..], task, After(st, call, now, task, s));
    }
  }

  // A write that becomes completed during a run names an operation or a commit.
  lemma {:induction false} CompletedWriteHasReference(st: Store, calls: seq<Timed>, task: string, s: Step)
    requires Sound(st) && HasStep(st, task, s) && s.mode == WriteMode && s.status != Completed
    ensures var s' := AfterRun(st, calls, task, s);
            s'.status == Completed ==> s'.result.Present()
    decreases |calls|
  {
    if calls != [] {
      var (call, now) := (calls[0].call, calls[0].now);
      ApplySound(st, call, now);
      var s1 := After(st, call, now, task, s);
      var st1 := Apply(st, call, now).0;
      if s1.status == Completed {
        CompletedIsAbsorbing(st1, calls[1..], task, s1);
      } else {
        CompletedWriteHasReference(st1, calls[1..], task, s1);
      }
    }
  }

  function GrantCount(st: Store, calls: seq<Timed>, task: string, key: string): nat
    decreases |calls|
  {
    if calls == [] then 0
    else
      var (call, now) := (calls[0].call, calls[0].now);
      (if GrantedTo(st, call, now) == Some((task, key)) then 1 else 0)
      + GrantCount(Apply(st, call, now).0, calls[1..], task, key)
  }

  // Granted claims are exactly the attempts, and no claim is granted past the budget.
  lemma {:induction false} GrantsAreAttempts(st: Store, calls: seq<Timed>, task: string, s: Step)
    requires Sound(st) && HasStep(st, task, s)
    ensures var s' := AfterRun(st, calls, task, s);
            && s'.maxAttempts == s.maxAttempts
            && s'.attempts == s.attempts + GrantCount(st, calls, task, s.key)
            && (GrantCount(st, calls, task, s.key) > 0 ==> s'.attempts <= s'.maxAttempts)
    decreases |calls|
  {
    if calls != [] {
      var (call, now) := (calls[0].call, calls[0].now);
      ApplySound(st, call, now);
      GrantsAreAttempts(Apply(st, call, now).0, calls[1..], task, After(st, call, now, task, s));
    }
  }

  predicate Holds(s: Step, token: nat)
  {
    s.lease.Lease? && s.lease.token == token
  }

  // The call presents `token` as its proof of ownership.
  predicate Presents(call: Call, token: nat)
  {
    (call.Complete? || call.Fail?) && call.token == Some(token)
  }

  lemma {:induction false} NextTokenGrows(st: Store, call: Call, now: int)
    ensures st.nextToken <= Apply(st, call, now).0.nextToken
  {
  }

  lemma {:induction false} SupersededStays(st: Store, calls: seq<Timed>, task: string, s: Step, token: nat)
    requires Sound(st) && HasStep(st, task, s) && token < st.nextToken && !Holds(s, token)
    ensures !Holds(AfterRun(st, calls, task, s), token) && token < Run(st, calls).nextToken
    decreases |calls|
  {
    if calls != [] {
      var (call, now) := (calls[0].call, calls[0].now);
      ApplySound(st, call, now);
      NextTokenGrows(st, call, now);
      SupersededStays(Apply(st, call, now).0, calls[1..], task, After(st, call, now, task, s), token);
    }
  }

  lemma {:induction false} WrongTokenIsIdle(st: Store, call: Call, now: int, task: string, s: Step, token: nat)
    requires Sound(st) && HasStep(st, task, s) && !Holds(s, token) && Presents(call, token)
    ensures HasStep(Apply(st, call, now).0, task, s)
  {
    var (st', r) := Apply(st, call, now);
    if r.Ok? && call.task == task {
      var steps := st.tasks[task].steps;
      var i :| 0 <= i < |steps| && steps[i] == s;
      var j := FindStep(steps, call.key);
      if j == i {
        assert CheckLease(s, call.token, now).Some?;
      }
      assert st'.tasks[task].steps[i] == s;
    }
  }

  // Fencing: once a step no longer carries an issued token - after a later claim, a
  // recovery, a failure, a completion or a cancellation - no call that presents the
  // token ever changes the step again.
  lemma {:induction false} LeaseFencing(st: Store, calls: seq<Timed>, task: string, s: Step, token: nat, call: Call, now: int)
    requires Sound(st) && HasStep(st, task, s) && token < st.nextToken && !Holds(s, token)
    requires Presents(call, token)
    ensures HasStep(Apply(Run(st, calls), call, now).0, task, AfterRun(st, calls, task, s))
  {
    SupersededStays(st, calls, task, s, token);
    RunSound(st, calls);
    WrongTokenIsIdle(Run(st, calls), call, now, task, AfterRun(st, calls, task, s), token);
  }

  // A granted claim, a recovery of an expired lease, a failure, a completion and a
  // cancellation all take the token away from the step they act on.
  lemma {:induction false} WhatSupersedes(st: Store, call: Call, now: int, task: string, s: Step, token: nat)
    requires Sound(st) && HasStep(st, task, s) && Holds(s, token)
    requires || GrantedTo(st, call, now) == Some((task, s.key))
             || (call.Recover? && Expired(s, now))
             || (call == Cancel(task))
             || ((call.Fail? || call.Complete?) && call.task == task && Apply(st, call, now).1 == Ok(Done)
                 && st.tasks[task].steps[FindStep(st.tasks[task].steps, call.key)] == s)
    ensures !Holds(After(st, call, now, task, s), token)
  {
    var s' := After(st, call, now, task, s);
    var st' := Apply(st, call, now).0;
    ApplySound(st, call, now);
    var steps := st.tasks[task].steps;
    var i :| 0 <= i < |steps| && steps[i] == s;
    if GrantedTo(st, call, now) != Some((task, s.key)) {
      assert st'.tasks[task].steps[i].lease == NoLease;
      assert st'.tasks[task].steps[i].key == s.key;
      KeyIsUnique(st', task, s', st'.tasks[task].steps[i]);
    }
  }

  // The calls that may end a live lease: its holder's, a cancellation, a failure reported
  // without a token.
  predicate MayEnd(call: Call, task: string, token: nat)
  {
    || call == Cancel(task)
    || ((call.Complete? || call.Fail?) && call.task == task && call.token == Some(token))
    || (call.Fail? && call.task == task && call.token == None)
  }

  predicate Leased(s: Step, token: nat, until: int)
  {
    s.status == Running && s.lease == Lease(token, until)
  }

  lemma {:induction false} LeaseSurvives(t: Task, call: Call, now: int, next: nat, id: string, i: nat, token: nat, until: int)
    requires SoundTask(t, next) && i < |t.steps| && Leased(t.steps[i], token, until) && now < until
    requires !call.Create? && !call.Recover? && !call.Define? && call.task == id && !MayEnd(call, id, token)
    requires TaskCall(t, call, now, next).Ok?
    ensures var t' := TaskCall(t, call, now, next).value.0; i < |t'.steps| && Leased(t'.steps[i], token, until)
  {
  }

  lemma {:induction false} LeaseSurvivesCall(st: Store, call: Call, now: int, task: string, s: Step, token: nat, until: int)
    requires Sound(st) && HasStep(st, task, s) && Leased(s, token, until) && now < until && !MayEnd(call, task, token)
    ensures Leased(After(st, call, now, task, s), token, until)
  {
    var s' := After(st, call, now, task, s);
    var (st', r) := Apply(st, call, now);
    ApplySound(st, call, now);
    var steps := st.tasks[task].steps;
    var i :| 0 <= i < |steps| && steps[i] == s;
    if call.Recover? {
      RecoverTaskEvolves(st.tasks[task], now, st.nextToken);
      assert !Expired(s, now);
      assert st'.tasks[task].steps[i] == s;
      KeyIsUnique(st', task, s', s);
    } else if r.Ok? && !call.Create? && !call.Define? && task == call.task {
      LeaseSurvives(st.tasks[task], call, now, st.nextToken, task, i, token, until);
      TaskCallEvolves(st.tasks[task], call, now, st.nextToken);
      assert st'.tasks[task].steps[i] in st'.tasks[task].steps;
      KeyIsUnique(st', task, s', st'.tasks[task].steps[i]);
    }
  }

  // Exclusion: until a lease runs out nobody but its holder, a cancellation or a failure
  // reported without a token takes it away; in particular no second claim is granted.
  lemma {:induction false} LiveLeaseIsExclusive(st: Store, calls: seq<Timed>, task: string, s: Step, token: nat, until: int)
    requires Sound(st) && HasStep(st, task, s) && Leased(s, token, until)
    requires forall i :: 0 <= i < |calls| ==> calls[i].now < until && !MayEnd(calls[i].call, task, token)
    ensures Leased(AfterRun(st, calls, task, s), token, until)
    ensures GrantCount(st, calls, task, s.key) == 0
    decreases |calls|
  {
    if calls != [] {
      var (call, now) := (calls[0].call, calls[0].now);
      ApplySound(st, call, now);
      LeaseSurvivesCall(st, call, now, task, s, token, until);
      var s1 := After(st, call, now, task, s);
      LiveLeaseIsExclusive(Apply(st, call, now).0, calls[1..], task, s1, token, until);
      assert s1.lease.token < st.nextToken;
    }
  }

  lemma {:induction false} CancelledStays(st: Store, calls: seq<Timed>, task: string)
    requires task in st.tasks && st.tasks[task].status == TaskCancelled
    ensures task in Run(st, calls).tasks && Run(st, calls).tasks[task].status == TaskCancelled
    decreases |calls|
  {
    if calls != [] {
      CancelledStays(Apply(st, calls[0].call, calls[0].now).0, calls[1..], task);
    }
  }

  // After a cancellation no claim is ever granted, whatever is called between.
  lemma {:induction false} NoClaimAfterCancel(st: Store, cancelledAt: int, calls: seq<Timed>, task: string, call: Call, now: int)
    requires task in st.tasks
    requires call.Claim? && call.task == task
    ensures Apply(Run(Apply(st, Cancel(task), cancelledAt).0, calls), call, now).1 == Err(TaskIsCancelled)
  {
    CancelledStays(Apply(st, Cancel(task), cancelledAt).0, calls, task);
  }
}
