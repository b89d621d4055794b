// How a write whose worker was lost comes to an end: recovery parks it, a verification
// reads the journal and the head and decides - or cannot, and then nobody ever can.
module WriteRepair {
  import opened Common
  import opened Git
  import opened Continuity
  import opened ContinuityRuns
  import opened WriteProtocol
  import opened WriteSafety

  // ---------------------------------------------------------------- recovery and a look

  // A write step, anywhere in the store, whose lease has run out.
  predicate Stranded(w: World, task: string, i: nat)
  {
    && task in w.store.tasks && i < |w.store.tasks[task].steps|
    && w.store.tasks[task].steps[i].mode == WriteMode && Expired(w.store.tasks[task].steps[i], w.now)
  }

  // Recovery parks the step, a verification looks and its finding is used.
  function Repair(w: World, task: string, i: nat): seq<Action>
    requires Stranded(w, task, i)
  {
    [RecoverLeases, BeginVerify(task, w.store.tasks[task].steps[i].key), EndVerify(|w.verifiers|)]
  }

  function ParkedStep(s: Step): Step
  {
    s.(status := VerificationRequired, lease := NoLease)
  }

  lemma {:induction false} Parked(w: World, task: string, i: nat) returns (v: World)
    requires Inv(w) && Stranded(w, task, i)
    ensures v == Next(w, RecoverLeases) && Inv(v) && v == w.(store := v.store)
    ensures task in v.store.tasks && v.store.tasks[task].steps == RecoverTask(w.store.tasks[task], w.now).steps
    ensures i < |v.store.tasks[task].steps| && v.store.tasks[task].steps[i] == ParkedStep(w.store.tasks[task].steps[i])
  {
    RecoverKeeps(w);
    v := Next(w, RecoverLeases);
  }

  // A step of the store is found by its key.
  lemma {:induction false} FoundByKey(w: World, task: string, i: nat)
    requires Inv(w) && task in w.store.tasks && i < |w.store.tasks[task].steps|
    ensures var steps := w.store.tasks[task].steps;
            FindStep(steps, steps[i].key) == i && StepOf(w.store, task, steps[i].key) == Some(steps[i])
  {
    assert SoundTask(w.store.tasks[task], w.store.nextToken);
    FindByKey(w.store.tasks[task].steps, w.store.tasks[task].steps[i].key, i);
  }

  lemma {:induction false} Looked(w: World, task: string, i: nat) returns (v: World)
    requires Inv(w) && Stranded(w, task, i)
    ensures var s := w.store.tasks[task].steps[i];
            && v == Next(Next(w, RecoverLeases), BeginVerify(task, s.key)) && Inv(v)
            && v == w.(store := v.store, verifiers := w.verifiers + [Verifier(task, s.key, s.attempts, Finding(w, s, task))])
            && task in v.store.tasks && v.store.tasks[task].steps == RecoverTask(w.store.tasks[task], w.now).steps
            && i < |v.store.tasks[task].steps| && v.store.tasks[task].steps[i] == ParkedStep(s)
  {
    var u := Parked(w, task, i);
    var s := w.store.tasks[task].steps[i];
    FoundByKey(u, task, i);
    BeginVerifyKeeps(u, BeginVerify(task, s.key));
    LookIs(u, task, s.key, ParkedStep(s));
    SameFinding(w, u, s, task);
    v := Next(u, BeginVerify(task, s.key));
  }

  lemma {:induction false} LookIs(u: World, task: string, key: string, s: Step)
    requires StepOf(u.store, task, key) == Some(s) && s.status == VerificationRequired && s.key == key
    ensures Next(u, BeginVerify(task, key))
            == u.(verifiers := u.verifiers + [Verifier(task, key, s.attempts, Finding(u, s, task))])
  {
  }

  lemma {:induction false} SameFinding(w: World, u: World, s: Step, task: string)
    requires u.journal == w.journal && u.head == w.head
    ensures Finding(u, ParkedStep(s), task) == Finding(w, s, task)
  {
  }

  lemma {:induction false} RepairIs(w: World, task: string, i: nat)
    requires Inv(w) && Stranded(w, task, i)
    ensures var u := Next(Next(w, RecoverLeases), BeginVerify(task, w.store.tasks[task].steps[i].key));
            && Play(w, Repair(w, task, i)) == Next(u, EndVerify(|w.verifiers|))
            && (DisciplinedPlay(w, Repair(w, task, i)) <==> Disciplined(u, EndVerify(|w.verifiers|)))
  {
    var r := Repair(w, task, i);
    assert r[1..] == [r[1], r[2]] && r[1..][1..] == [r[2]] && r[1..][1..][1..] == [];
    var u := Next(Next(w, r[0]), r[1]);
    assert Play(u, [r[2]]) == Next(u, r[2]);
    assert DisciplinedPlay(u, [r[2]]) <==> Disciplined(u, r[2]);
  }

  // What the repair makes of the step; the other steps are only recovered.
  ghost predicate Ends(w: World, task: string, i: nat, s': Step)
    requires Stranded(w, task, i)
  {
    var end := Play(w, Repair(w, task, i));
    && DisciplinedPlay(w, Repair(w, task, i)) && Inv(end)
    && task in end.store.tasks && i < |RecoverTask(w.store.tasks[task], w.now).steps|
    && end.store.tasks[task].steps == RecoverTask(w.store.tasks[task], w.now).steps[i := s']
    && end.publications == w.publications && end.head == w.head && end.journal == w.journal && end.workers == w.workers
  }

  function Decided(s: Step, decision: Decision): Step
  {
    match decision
    case Verified(reference) => s.(status := Completed, result := reference)
    case VerifiedAbsent => if s.retrySafe then s.(status := Interrupted) else s
    case Undecided => s
  }

  lemma {:induction false} Resolves(st: Store, task: string, key: string, decision: Decision, now: int, i: nat)
    requires task in st.tasks && i < |st.tasks[task].steps| && FindStep(st.tasks[task].steps, key) == i
    requires st.tasks[task].steps[i].status == VerificationRequired
    requires decision.Verified? ==> decision.reference.Present()
    ensures var st' := Apply(st, Resolve(task, key, decision), now).0;
            && task in st'.tasks && st'.tasks[task].steps == st.tasks[task].steps[i := Decided(st.tasks[task].steps[i], decision)]
  {
    var steps := st.tasks[task].steps;
    assert steps[i := steps[i]] == steps;
  }

  // A finding is used while the step is still as it was when the verification looked.
  lemma {:induction false} Used(u: World, task: string, i: nat, k: nat)
    requires Inv(u) && task in u.store.tasks && i < |u.store.tasks[task].steps| && k < |u.verifiers|
    requires var s := u.store.tasks[task].steps[i];
             && s.status == VerificationRequired
             && u.verifiers[k] == Verifier(task, s.key, s.attempts, u.verifiers[k].finding)
             && (u.verifiers[k].finding.Verified? ==> u.verifiers[k].finding.reference.Present())
    ensures var v := Next(u, EndVerify(k));
            && Disciplined(u, EndVerify(k)) && Inv(v) && v == u.(store := v.store) && task in v.store.tasks
            && v.store.tasks[task].steps
               == u.store.tasks[task].steps[i := Decided(u.store.tasks[task].steps[i], u.verifiers[k].finding)]
  {
    var s := u.store.tasks[task].steps[i];
    FoundByKey(u, task, i);
    Resolves(u.store, task, s.key, u.verifiers[k].finding, u.now, i);
    EndVerifyKeeps(u, EndVerify(k));
    assert u.store.tasks[task].steps[i := s] == u.store.tasks[task].steps;
  }

  // Whatever the verification finds is used at once.
  lemma {:induction false} Repaired(w: World, task: string, i: nat)
    requires Inv(w) && Stranded(w, task, i)
    ensures var s := w.store.tasks[task].steps[i]; Ends(w, task, i, Decided(ParkedStep(s), Finding(w, s, task)))
  {
    var u := Looked(w, task, i);
    RepairIs(w, task, i);
    Used(u, task, i, |w.verifiers|);
  }

  // The write was made and journaled, only its completion was lost: the repair completes
  // the step with the journaled commit and publishes nothing.
  lemma {:induction false} JournaledWriteIsCompleted(w: World, task: string, i: nat, e: JournalEntry)
    requires Inv(w) && Stranded(w, task, i)
    requires FindEntry(w.journal, task, w.store.tasks[task].steps[i].key) == Some(e)
    ensures Ends(w, task, i, w.store.tasks[task].steps[i].(
              status := Completed, result := Reference(Some(e.operationId), Some(e.commit), ""), lease := NoLease))
  {
    Repaired(w, task, i);
  }

  // Nothing was written: the repair frees the step for another try exactly when the step
  // may be tried again.
  lemma {:induction false} UnwrittenIsFreed(w: World, task: string, i: nat)
    requires Inv(w) && Stranded(w, task, i)
    requires FindEntry(w.journal, task, w.store.tasks[task].steps[i].key) == None
    requires w.store.tasks[task].steps[i].checkpoint == Some(HeadBeforeWrite(w.head))
    ensures var s := w.store.tasks[task].steps[i];
            Ends(w, task, i, s.(status := if s.retrySafe then Interrupted else VerificationRequired, lease := NoLease))
  {
    Repaired(w, task, i);
  }

  // Otherwise the step stays parked.
  lemma {:induction false} UnknownIsParked(w: World, task: string, i: nat)
    requires Inv(w) && Stranded(w, task, i)
    requires FindEntry(w.journal, task, w.store.tasks[task].steps[i].key) == None
    requires w.store.tasks[task].steps[i].checkpoint != Some(HeadBeforeWrite(w.head))
    ensures Ends(w, task, i, ParkedStep(w.store.tasks[task].steps[i]))
  {
    Repaired(w, task, i);
  }
}
