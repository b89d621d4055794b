// The promise chain that serialises changes to a stored value: every job loads, changes
// and saves at its own pace, and may throw. Whatever the interleaving, the stored value
// is what running the jobs one after another would have left.
module MutationQueue {
  import opened Common
  import opened Continuity
  import opened ContinuityRuns

  datatype Phase<T> = Waiting | Loaded(copy: T) | Mutated(copy: T) | Saved | Rejected

  // A mutator that throws has no result.
  datatype Job<!T> = Job(mutate: T -> Option<T>, phase: Phase<T>)

  datatype Queue<!T> = Queue(stored: T, jobs: seq<Job<T>>)

  datatype Event<!T> = Enqueue(mutate: T -> Option<T>) | Advance(i: nat)

  predicate Settled<T>(job: Job<T>)
  {
    job.phase.Saved? || job.phase.Rejected?
  }

  function SetPhase<T>(q: Queue<T>, i: nat, phase: Phase<T>): Queue<T>
    requires i < |q.jobs|
  {
    q.(jobs := q.jobs[i := q.jobs[i].(phase := phase)])
  }

  // A job starts when the promise it was chained to has settled, either way.
  function Step<T>(q: Queue<T>, e: Event<T>): Queue<T>
  {
    match e
    case Enqueue(mutate) => q.(jobs := q.jobs + [Job(mutate, Waiting)])
    case Advance(i) =>
      if i >= |q.jobs| then q
      else match q.jobs[i].phase
        case Waiting => if i == 0 || Settled(q.jobs[i - 1]) then SetPhase(q, i, Loaded(q.stored)) else q
        case Loaded(copy) =>
          var next := q.jobs[i].mutate(copy);
          SetPhase(q, i, if next.Some? then Mutated(next.value) else Rejected)
        case Mutated(copy) => SetPhase(q, i, Saved).(stored := copy)
        case Saved => q
        case Rejected => q
  }

  function Play<T>(q: Queue<T>, events: seq<Event<T>>): Queue<T>
    decreases |events|
  {
    if |events| == 0 then q else Play(Step(q, events[0]), events[1..])
  }

  // Running the jobs one after another: a job that throws contributes nothing.
  function Fold<T>(initial: T, jobs: seq<Job<T>>): T
  {
    if |jobs| == 0 then initial
    else
      var before := Fold(initial, jobs[..|jobs| - 1]);
      var next := jobs[|jobs| - 1].mutate(before);
      if next.Some? then next.value else before
  }

  // Jobs before `n` have settled, job `n` may be under way, the rest have not started.
  ghost predicate At<T(!new)>(initial: T, q: Queue<T>, n: nat)
  {
    && n <= |q.jobs|
    && (forall i :: 0 <= i < n ==> Settled(q.jobs[i]))
    && (forall i :: n < i < |q.jobs| ==> q.jobs[i].phase.Waiting?)
    && q.stored == Fold(initial, q.jobs[..n])
    && (n < |q.jobs| ==> match q.jobs[n].phase
          case Waiting => true
          case Loaded(copy) => copy == q.stored
          case Mutated(copy) => q.jobs[n].mutate(q.stored) == Some(copy)
          case Saved => false
          case Rejected => false)
  }

  lemma {:induction false} FoldIgnoresPhases<T>(initial: T, a: seq<Job<T>>, b: seq<Job<T>>)
    requires |a| == |b| && forall i :: 0 <= i < |a| ==> a[i].mutate == b[i].mutate
    ensures Fold(initial, a) == Fold(initial, b)
  {
    if |a| > 0 {
      FoldIgnoresPhases(initial, a[..|a| - 1], b[..|b| - 1]);
    }
  }

  lemma {:induction false} FoldOneMore<T>(initial: T, jobs: seq<Job<T>>, n: nat)
    requires n < |jobs|
    ensures Fold(initial, jobs[..n + 1]) ==
            var next := jobs[n].mutate(Fold(initial, jobs[..n]));
            if next.Some? then next.value else Fold(initial, jobs[..n])
  {
    assert jobs[..n + 1][..n] == jobs[..n];
  }

  lemma {:induction false} StepKeeps<T(!new)>(initial: T, q: Queue<T>, e: Event<T>, n: nat) returns (n': nat)
    requires At(initial, q, n)
    ensures At(initial, Step(q, e), n')
  {
    var q' := Step(q, e);
    if e.Enqueue? {
      n' := n;
      assert q'.jobs[..n] == q.jobs[..n];
    } else if e.i != n || e.i >= |q.jobs| {
      n' := n;
      assert e.i > n && e.i < |q.jobs| && e.i > n + 1 ==> !Settled(q.jobs[e.i - 1]);
      assert q' == q;
    } else {
      FoldIgnoresPhases(initial, q'.jobs[..n], q.jobs[..n]);
      FoldIgnoresPhases(initial, q'.jobs[..n + 1], q.jobs[..n + 1]);
      FoldOneMore(initial, q.jobs, n);
      n' := if Settled(q'.jobs[n]) then n + 1 else n;
    }
  }

  lemma {:induction false} PlayKeeps<T(!new)>(initial: T, q: Queue<T>, events: seq<Event<T>>, n: nat) returns (n': nat)
    requires At(initial, q, n)
    ensures At(initial, Play(q, events), n')
    decreases |events|
  {
    if |events| == 0 {
      n' := n;
    } else {
      n' := StepKeeps(initial, q, events[0], n);
      n' := PlayKeeps(initial, Step(q, events[0]), events[1..], n');
    }
  }

  // Under every schedule the stored value is the fold of the jobs settled so far, they
  // are the oldest ones, and with nothing left to do it is the fold of all jobs.
  lemma {:induction false} QueueRefinesFold<T(!new)>(initial: T, events: seq<Event<T>>) returns (n: nat)
    ensures var q := Play(Queue(initial, []), events);
            && n <= |q.jobs|
            && q.stored == Fold(initial, q.jobs[..n])
            && (forall i :: 0 <= i < |q.jobs| ==> (Settled(q.jobs[i]) <==> i < n))
            && (n == |q.jobs| ==> q.stored == Fold(initial, q.jobs))
  {
    n := PlayKeeps(initial, Queue(initial, []), events, 0);
    var q := Play(Queue(initial, []), events);
    assert n == |q.jobs| ==> q.jobs[..n] == q.jobs;
  }

  function Rank<T>(phase: Phase<T>): nat
  {
    match phase
    case Waiting => 0
    case Loaded(_) => 1
    case Mutated(_) => 2
    case Saved => 3
    case Rejected => 3
  }

  // Nothing blocks the queue, a job that threw included: while a job is unsettled, the
  // oldest such job can move on.
  lemma {:induction false} NeverStuck<T(!new)>(initial: T, events: seq<Event<T>>) returns (n: nat)
    ensures var q := Play(Queue(initial, []), events);
            && n <= |q.jobs| && (forall i :: 0 <= i < n ==> Settled(q.jobs[i]))
            && (n < |q.jobs| ==> Rank(Step(q, Advance(n)).jobs[n].phase) > Rank(q.jobs[n].phase))
  {
    n := PlayKeeps(initial, Queue(initial, []), events, 0);
  }

  // ---------------------------------------------------------------- the engine's own queue

  function Mutator(c: Timed): Store -> Option<Store>
  {
    (st: Store) => if Apply(st, c.call, c.now).1.Ok? then Some(Apply(st, c.call, c.now).0) else None
  }

  lemma {:induction false} RunAppend(st: Store, calls: seq<Timed>, c: Timed)
    ensures Run(st, calls + [c]) == AfterCall(Run(st, calls), c)
    decreases |calls|
  {
    if calls == [] {
      assert calls + [c] == [c];
      assert [c][1..] == [];
    } else {
      assert (calls + [c])[1..] == calls[1..] + [c];
      RunAppend(Apply(st, calls[0].call, calls[0].now).0, calls[1..], c);
    }
  }

  ghost predicate Carries(job: Job<Store>, c: Timed)
  {
    job.mutate == Mutator(c)
  }

  function AfterCall(st: Store, c: Timed): Store
  {
    Apply(st, c.call, c.now).0
  }

  lemma {:induction false} FoldRunOneMore(st: Store, jobs: seq<Job<Store>>, calls: seq<Timed>, job: Job<Store>, c: Timed)
    requires Agree(st, jobs, calls) && Carries(job, c)
    ensures Agree(st, jobs + [job], calls + [c])
  {
    RunAppend(st, calls, c);
  }

  ghost predicate CarriesAll(jobs: seq<Job<Store>>, calls: seq<Timed>)
  {
    |jobs| == |calls| && forall i :: 0 <= i < |jobs| ==> Carries(jobs[i], calls[i])
  }

  ghost predicate Agree(st: Store, jobs: seq<Job<Store>>, calls: seq<Timed>)
  {
    Fold(st, jobs) == Run(st, calls)
  }

  lemma {:induction false} CarriesFront(jobs: seq<Job<Store>>, calls: seq<Timed>, k: nat)
    requires CarriesAll(jobs, calls) && |jobs| == k + 1
    ensures CarriesAll(jobs[..k], calls[..k]) && Carries(jobs[k], calls[k])
    ensures jobs == jobs[..k] + [jobs[k]] && calls == calls[..k] + [calls[k]]
  {
  }

  // The fold of the engine's mutators is the run of its calls, so everything proved of
  // runs holds of the stored tasks however the calls' awaits interleave.
  lemma {:induction false} FoldIsRun(st: Store, jobs: seq<Job<Store>>, calls: seq<Timed>)
    requires CarriesAll(jobs, calls)
    ensures Agree(st, jobs, calls)
  {
    if |jobs| == 0 {
    } else {
      var k := |jobs| - 1;
      CarriesFront(jobs, calls, k);
      FoldIsRun(st, jobs[..k], calls[..k]);
      FoldRunOneMore(st, jobs[..k], calls[..k], jobs[k], calls[k]);
    }
  }

  // The enqueuings of a schedule, in order.
  function Enqueuings<T>(events: seq<Event<T>>): seq<Event<T>>
  {
    if |events| == 0 then []
    else if events[0].Enqueue? then [events[0]] + Enqueuings(events[1..])
    else Enqueuings(events[1..])
  }

  ghost predicate ComesFrom<T(!new)>(job: Job<T>, e: Event<T>)
  {
    e.Enqueue? && job.mutate == e.mutate
  }

  ghost predicate ComeFrom<T(!new)>(jobs: seq<Job<T>>, events: seq<Event<T>>)
  {
    |jobs| == |events| && forall i :: 0 <= i < |jobs| ==> ComesFrom(jobs[i], events[i])
  }

  lemma {:induction false} StepEnqueues<T(!new)>(q: Queue<T>, all: seq<Event<T>>, e: Event<T>)
    requires ComeFrom(q.jobs, all)
    ensures ComeFrom(Step(q, e).jobs, if e.Enqueue? then all + [e] else all)
  {
    var q' := Step(q, e);
    if e.Advance? {
      assert |q'.jobs| == |q.jobs|;
      forall i | 0 <= i < |q'.jobs| ensures ComesFrom(q'.jobs[i], all[i]) {
        assert ComesFrom(q.jobs[i], all[i]);
      }
    }
  }

  lemma Joined<A>(a: seq<A>, b: seq<A>, c: seq<A>)
    ensures (a + b) + c == a + (b + c) && a + [] == a && [] + a == a
  {
  }

  lemma {:induction false} PlayEnqueues<T(!new)>(q: Queue<T>, all: seq<Event<T>>, events: seq<Event<T>>)
    requires ComeFrom(q.jobs, all)
    ensures ComeFrom(Play(q, events).jobs, all + Enqueuings(events))
    decreases |events|
  {
    if |events| == 0 {
      Joined(all, [], []);
    } else {
      StepEnqueues(q, all, events[0]);
      var rest := Enqueuings(events[1..]);
      if events[0].Enqueue? {
        PlayEnqueues(Step(q, events[0]), all + [events[0]], events[1..]);
        Joined(all, [events[0]], rest);
      } else {
        PlayEnqueues(Step(q, events[0]), all, events[1..]);
      }
    }
  }

  ghost predicate IsCall(e: Event<Store>, c: Timed)
  {
    e == Enqueue(Mutator(c))
  }

  ghost predicate AreCalls(events: seq<Event<Store>>, calls: seq<Timed>)
  {
    |events| == |calls| && forall i :: 0 <= i < |events| ==> IsCall(events[i], calls[i])
  }

  lemma {:induction false} CarryCalls(jobs: seq<Job<Store>>, events: seq<Event<Store>>, calls: seq<Timed>, n: nat)
    requires ComeFrom(jobs, events) && AreCalls(events, calls) && n <= |jobs|
    ensures CarriesAll(jobs[..n], calls[..n])
  {
    forall i | 0 <= i < n ensures Carries(jobs[..n][i], calls[..n][i]) {
      assert ComesFrom(jobs[i], events[i]) && IsCall(events[i], calls[i]);
    }
  }

  lemma {:induction false} RunOfJobs(st: Store, jobs: seq<Job<Store>>, events: seq<Event<Store>>, calls: seq<Timed>, n: nat)
    requires ComeFrom(jobs, events) && AreCalls(events, calls) && n <= |jobs|
    ensures Fold(st, jobs[..n]) == Run(st, calls[..n])
  {
    CarryCalls(jobs, events, calls, n);
    FoldIsRun(st, jobs[..n], calls[..n]);
  }

  lemma {:induction false} JobsComeFrom<T(!new)>(initial: T, events: seq<Event<T>>)
    ensures ComeFrom(Play(Queue(initial, []), events).jobs, Enqueuings(events))
  {
    PlayEnqueues(Queue(initial, []), [], events);
    Joined(Enqueuings(events), [], []);
  }

  // The settled jobs are the oldest `n`, and they left `value` behind.
  ghost predicate SettledWith<T(!new)>(q: Queue<T>, n: nat, value: T)
  {
    && n <= |q.jobs| && (forall i :: 0 <= i < |q.jobs| ==> (Settled(q.jobs[i]) <==> i < n))
    && q.stored == value
  }

  lemma {:induction false} SettledWithFold<T(!new)>(initial: T, events: seq<Event<T>>) returns (n: nat)
    ensures var q := Play(Queue(initial, []), events);
            n <= |q.jobs| && SettledWith(q, n, Fold(initial, q.jobs[..n]))
  {
    n := QueueRefinesFold(initial, events);
  }

  // Whatever the schedule of the engine's calls, the stored tasks are what the run of the
  // settled calls, in the order they were made, leaves behind.
  lemma {:induction false} StoredTasksAreTheRun(st: Store, events: seq<Event<Store>>, calls: seq<Timed>) returns (n: nat)
    requires AreCalls(Enqueuings(events), calls)
    ensures n <= |calls| && SettledWith(Play(Queue(st, []), events), n, Run(st, calls[..n]))
  {
    n := SettledWithFold(st, events);
    JobsComeFrom(st, events);
    RunOfJobs(st, Play(Queue(st, []), events).jobs, Enqueuings(events), calls, n);
  }
}
