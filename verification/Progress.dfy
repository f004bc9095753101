/** What enrolments have executed: redelivered, duplicated and replayed messages and
    failing handlers never make a committed step run twice or out of order. */
module Progress {
  import opened Jobs
  import opened Database
  import opened Worker

  /** Identifiers drawn from now on are new. */
  ghost predicate Numbered(db: Db, nextId: Id) {
    && (forall i :: i in db.enrollments ==> i < nextId)
    && (forall x :: x in db.log ==> x.enrollment < nextId)
  }

  /** Every enrolment has executed as many steps as its index says. */
  ghost predicate Counted(db: Db) {
    forall i :: i in db.enrollments ==> |LogOf(db.log, i)| == db.enrollments[i].index
  }

  /** The enrolment has executed exactly the first `index` steps of its sequence, in
      (order_index, id) order, and is completed only when it has executed them all. */
  ghost predicate InStep(db: Db, i: Id)
    requires i in db.enrollments
  {
    var e := db.enrollments[i];
    var ids := StepIds(OrderedSteps(db.steps, e.sequence));
    && e.index <= |ids|
    && LogOf(db.log, i) == ids[..e.index]
    && (e.status.Completed? ==> e.index == |ids|)
  }

  ghost predicate SequenceInStep(db: Db, sequence: Id) {
    forall i :: i in db.enrollments && db.enrollments[i].sequence == sequence ==> InStep(db, i)
  }

  lemma {:induction false} NoLogYet(log: seq<Executed>, i: Id)
    requires forall x :: x in log ==> x.enrollment != i
    ensures LogOf(log, i) == []
  {
    if log != [] {
      assert log[|log| - 1] in log;
      NoLogYet(log[..|log| - 1], i);
    }
  }

  // ---------- one commit ----------

  /** New enrolments have executed nothing; the others are as they were. */
  lemma TriggerAdds(db: Db, nextId: Id, p: Payload, i: Id)
    requires Numbered(db, nextId) && TriggerPlan(db, nextId, p).commit.Some?
    requires i in TriggerPlan(db, nextId, p).commit.value.enrollments
    ensures var plan := TriggerPlan(db, nextId, p);
      var e := plan.commit.value.enrollments[i];
      && i < nextId + plan.draws
      && if i in db.enrollments then e == db.enrollments[i]
         else e.index == 0 && e.status.Active? && LogOf(db.log, i) == []
  {
    if i !in db.enrollments { NoLogYet(db.log, i); }
  }

  lemma TriggerKeeps(db: Db, nextId: Id, p: Payload, sequence: Id)
    requires Numbered(db, nextId) && Counted(db)
    ensures var plan := TriggerPlan(db, nextId, p);
      plan.commit.Some? ==>
        && Numbered(plan.commit.value, nextId + plan.draws) && Counted(plan.commit.value)
        && (SequenceInStep(db, sequence) ==> SequenceInStep(plan.commit.value, sequence))
  {
    var plan := TriggerPlan(db, nextId, p);
    if plan.commit.Some? {
      var db' := plan.commit.value;
      assert db'.log == db.log && db'.steps == db.steps;
      forall i | i in db'.enrollments
        ensures i < nextId + plan.draws && |LogOf(db'.log, i)| == db'.enrollments[i].index
      {
        TriggerAdds(db, nextId, p, i);
      }
      if SequenceInStep(db, sequence) {
        forall i | i in db'.enrollments && db'.enrollments[i].sequence == sequence ensures InStep(db', i) {
          TriggerAdds(db, nextId, p, i);
          if i in db.enrollments { assert InStep(db, i); }
        }
      }
    }
  }

  lemma ExecuteKeeps(db: Db, nextId: Id, id: Id, day: int, sequence: Id)
    requires Numbered(db, nextId) && Counted(db)
    requires id in db.enrollments && db.enrollments[id].lead in db.leads
    requires db.enrollments[id].index < |OrderedSteps(db.steps, db.enrollments[id].sequence)|
    ensures var e := db.enrollments[id];
      var steps := OrderedSteps(db.steps, e.sequence);
      var db' := ExecuteStep(db, id, steps[e.index], e.index + 1 >= |steps|, day);
      && Numbered(db', nextId) && Counted(db')
      && (SequenceInStep(db, sequence) ==> SequenceInStep(db', sequence))
  {
    var e := db.enrollments[id];
    var steps := OrderedSteps(db.steps, e.sequence);
    var db' := ExecuteStep(db, id, steps[e.index], e.index + 1 >= |steps|, day);
    var x := db'.log[|db.log|];
    assert db'.log == db.log + [x] && x.enrollment == id && x.step == steps[e.index];
    forall i | true ensures LogOf(db'.log, i) == LogOf(db.log, i) + (if i == id then [x.step.id] else []) {
      LogAppend(db.log, x, i);
    }
    if SequenceInStep(db, sequence) {
      forall i | i in db'.enrollments && db'.enrollments[i].sequence == sequence ensures InStep(db', i) {
        assert InStep(db, i);
        if i == id {
          var ids := StepIds(steps);
          assert ids[..e.index + 1] == ids[..e.index] + [ids[e.index]];
        }
      }
    }
  }

  lemma StepKeeps(db: Db, nextId: Id, p: Payload, day: int, sequence: Id)
    requires Numbered(db, nextId) && Counted(db)
    ensures var plan := StepPlan(db, p, day);
      plan.commit.Some? ==>
        && Numbered(plan.commit.value, nextId) && Counted(plan.commit.value)
        && (SequenceInStep(db, sequence) ==> SequenceInStep(plan.commit.value, sequence))
  {
    if StepActs(db, p) {
      var id := p.enrollment.value;
      var e := db.enrollments[id];
      if e.index < |OrderedSteps(db.steps, e.sequence)| {
        ExecuteKeeps(db, nextId, id, day, sequence);
      } else if SequenceInStep(db, sequence) {
        var db' := StepPlan(db, p, day).commit.value;
        forall i | i in db'.enrollments && db'.enrollments[i].sequence == sequence ensures InStep(db', i) {
          assert InStep(db, i);
        }
      }
    }
  }

  lemma SameProgress(db: Db, db': Db, nextId: Id, sequence: Id)
    requires Numbered(db, nextId) && Counted(db)
    requires db'.enrollments == db.enrollments && db'.log == db.log && db'.steps == db.steps
    ensures Numbered(db', nextId) && Counted(db')
    ensures SequenceInStep(db, sequence) ==> SequenceInStep(db', sequence)
  {
    if SequenceInStep(db, sequence) {
      forall i | i in db'.enrollments && db'.enrollments[i].sequence == sequence ensures InStep(db', i) {
        assert InStep(db, i);
      }
    }
  }

  lemma CommitKeeps(db: Db, nextId: Id, p: Payload, day: int, sequence: Id)
    requires Numbered(db, nextId) && Counted(db)
    ensures var plan := PlanFor(db, nextId, p, day);
      plan.commit.Some? ==>
        && Numbered(plan.commit.value, nextId + plan.draws) && Counted(plan.commit.value)
        && (SequenceInStep(db, sequence) ==> SequenceInStep(plan.commit.value, sequence))
  {
    var plan := PlanFor(db, nextId, p, day);
    match p.event
    case SequenceTrigger => TriggerKeeps(db, nextId, p, sequence);
    case SequenceStep => StepKeeps(db, nextId, p, day, sequence);
    case _ => if plan.commit.Some? { SameProgress(db, plan.commit.value, nextId, sequence); }
  }

  // ---------- one step of the system ----------

  /** The steps of the sequence are not edited; everything else may be. */
  ghost predicate LeavesSteps(w: World, a: Action, sequence: Id) {
    a.AAdmin? ==> OrderedSteps(a.steps, sequence) == OrderedSteps(w.db.steps, sequence)
  }

  ghost predicate Progressed(w: World, sequence: Id) {
    Numbered(w.db, w.nextId) && Counted(w.db) && SequenceInStep(w.db, sequence)
  }

  lemma CountedNext(w: World, a: Action, sequence: Id)
    requires Numbered(w.db, w.nextId) && Counted(w.db)
    ensures Numbered(Next(w, a).db, Next(w, a).nextId) && Counted(Next(w, a).db)
    ensures SequenceInStep(w.db, sequence) && LeavesSteps(w, a, sequence) ==> SequenceInStep(Next(w, a).db, sequence)
  {
    var w' := Next(w, a);
    match a
    case ARun(budget, day) => if w.batch != [] && w.phase.Idle? { CountedRun(w, budget, day, sequence); }
    case AEnrol(tenant, s, lead, _) =>
      if HasSequence(w.db, tenant, s) && HasLead(w.db, tenant, lead) { EnrolKeeps(w, a, sequence); }
    case AAdmin(_, _, _, _, _) => AdminKeeps(w, a, sequence);
    case _ =>
  }

  lemma CountedRun(w: World, budget: nat, day: int, sequence: Id)
    requires Numbered(w.db, w.nextId) && Counted(w.db) && w.batch != [] && w.phase.Idle?
    ensures var w' := RunHandler(w, budget, day);
      && Numbered(w'.db, w'.nextId) && Counted(w'.db)
      && (SequenceInStep(w.db, sequence) ==> SequenceInStep(w'.db, sequence))
  {
    if !w.batch[0].payload.event.Other? {
      ExecQueues(w, PlanOf(w, day), budget);
      CommitKeeps(w.db, w.nextId, w.batch[0].payload, day, sequence);
    }
  }

  lemma EnrolKeeps(w: World, a: Action, sequence: Id)
    requires Numbered(w.db, w.nextId) && Counted(w.db)
    requires a.AEnrol? && HasSequence(w.db, a.tenant, a.sequence) && HasLead(w.db, a.tenant, a.lead)
    ensures Numbered(Next(w, a).db, Next(w, a).nextId) && Counted(Next(w, a).db)
    ensures SequenceInStep(w.db, sequence) ==> SequenceInStep(Next(w, a).db, sequence)
  {
    var w' := Next(w, a);
    NoLogYet(w.db.log, w.nextId);
    if SequenceInStep(w.db, sequence) {
      forall i | i in w'.db.enrollments && w'.db.enrollments[i].sequence == sequence ensures InStep(w'.db, i) {
        if i in w.db.enrollments { assert InStep(w.db, i); }
      }
    }
  }

  lemma AdminKeeps(w: World, a: Action, sequence: Id)
    requires Numbered(w.db, w.nextId) && Counted(w.db) && a.AAdmin?
    ensures Numbered(Next(w, a).db, Next(w, a).nextId) && Counted(Next(w, a).db)
    ensures SequenceInStep(w.db, sequence) && LeavesSteps(w, a, sequence) ==> SequenceInStep(Next(w, a).db, sequence)
  {
    var w' := Next(w, a);
    if SequenceInStep(w.db, sequence) && LeavesSteps(w, a, sequence) {
      forall i | i in w'.db.enrollments && w'.db.enrollments[i].sequence == sequence ensures InStep(w'.db, i) {
        assert InStep(w.db, i);
      }
    }
  }

  // ---------- whole runs ----------

  /** Under any actions, edits of steps included, an enrolment's index counts its
      committed steps. */
  lemma {:induction false} IndexCountsCommittedSteps(urls: Urls, actions: seq<Action>)
    ensures var w := Run(Init(urls, EMPTY, 0), actions);
      Numbered(w.db, w.nextId) && Counted(w.db)
  {
    if actions != [] {
      IndexCountsCommittedSteps(urls, actions[..|actions| - 1]);
      CountedNext(Run(Init(urls, EMPTY, 0), actions[..|actions| - 1]), actions[|actions| - 1], 0);
    }
  }

  ghost predicate RunLeavesSteps(w: World, actions: seq<Action>, sequence: Id) {
    forall i :: 0 <= i < |actions| ==> LeavesSteps(Run(w, actions[..i]), actions[i], sequence)
  }

  /** From any consistent state, through any run that leaves the sequence's steps
      alone, with crashes, failures, duplicates and replays anywhere: each enrolment
      of the sequence has executed exactly the first `index` steps, once each. */
  lemma {:induction false} StepsExecuteExactlyOnce(w: World, actions: seq<Action>, sequence: Id)
    requires Progressed(w, sequence) && RunLeavesSteps(w, actions, sequence)
    ensures Progressed(Run(w, actions), sequence)
  {
    if actions != [] {
      var n := |actions| - 1;
      assert LeavesSteps(Run(w, actions[..n]), actions[n], sequence);
      forall i | 0 <= i < n ensures LeavesSteps(Run(w, actions[..n][..i]), actions[..n][i], sequence) {
        assert actions[..n][..i] == actions[..i];
        assert LeavesSteps(Run(w, actions[..i]), actions[i], sequence);
      }
      StepsExecuteExactlyOnce(w, actions[..n], sequence);
      CountedNext(Run(w, actions[..n]), actions[n], sequence);
    }
  }

  /** Enrolments only move forward, a completed one is never touched again, the log
      only grows, and an identifier below `nextId` never comes back. */
  ghost predicate Advances(db: Db, nextId: Id, db': Db) {
    && db.log <= db'.log
    && (forall i :: i in db'.enrollments && i < nextId ==> i in db.enrollments)
    && (forall i :: i in db.enrollments && i in db'.enrollments ==>
          EnrollmentAdvances(db.enrollments[i], db'.enrollments[i]))
  }

  ghost predicate EnrollmentAdvances(e: Enrollment, e': Enrollment) {
    && e'.tenant == e.tenant && e'.lead == e.lead && e'.sequence == e.sequence
    && e.index <= e'.index && (e.status.Completed? ==> e' == e)
  }

  lemma CommitAdvances(db: Db, nextId: Id, p: Payload, day: int)
    requires Numbered(db, nextId)
    ensures var plan := PlanFor(db, nextId, p, day);
      plan.commit.Some? ==> Advances(db, nextId, plan.commit.value)
  {
    var plan := PlanFor(db, nextId, p, day);
    match p.event
    case SequenceTrigger =>
    case SequenceStep =>
    case _ =>
  }

  lemma SameAdvances(db: Db, nextId: Id)
    ensures Advances(db, nextId, db)
  {
  }

  lemma ApiAdvances(w: World, a: Action)
    requires Numbered(w.db, w.nextId) && (a.AAdmin? || a.AEnrol?)
    ensures Advances(w.db, w.nextId, Next(w, a).db) && w.nextId <= Next(w, a).nextId
  {
    match a
    case AAdmin(_, _, _, _, _) =>
    case AEnrol(_, _, _, _) =>
  }

  lemma AdvancesNext(w: World, a: Action)
    requires Numbered(w.db, w.nextId)
    ensures Advances(w.db, w.nextId, Next(w, a).db) && w.nextId <= Next(w, a).nextId
  {
    match a
    case ARun(budget, day) =>
      if w.batch != [] && w.phase.Idle? { RunAdvances(w, budget, day); } else { SameAdvances(w.db, w.nextId); }
    case AAdmin(_, _, _, _, _) => ApiAdvances(w, a);
    case AEnrol(_, _, _, _) => ApiAdvances(w, a);
    case _ => SameAdvances(w.db, w.nextId);
  }

  lemma RunAdvances(w: World, budget: nat, day: int)
    requires Numbered(w.db, w.nextId) && w.batch != [] && w.phase.Idle?
    ensures var w' := RunHandler(w, budget, day);
      Advances(w.db, w.nextId, w'.db) && w.nextId <= w'.nextId
  {
    if !w.batch[0].payload.event.Other? {
      ExecQueues(w, PlanOf(w, day), budget);
      CommitAdvances(w.db, w.nextId, w.batch[0].payload, day);
    }
  }

  /** Over any run whatsoever, enrolments only advance. */
  lemma {:induction false} EnrollmentsOnlyAdvance(w: World, actions: seq<Action>)
    requires Numbered(w.db, w.nextId) && Counted(w.db)
    ensures var w' := Run(w, actions);
      && Numbered(w'.db, w'.nextId) && Counted(w'.db)
      && w.nextId <= w'.nextId && Advances(w.db, w.nextId, w'.db)
  {
    if actions != [] {
      var v, a := Run(w, actions[..|actions| - 1]), actions[|actions| - 1];
      EnrollmentsOnlyAdvance(w, actions[..|actions| - 1]);
      CountedNext(v, a, 0);
      AdvancesNext(v, a);
      var w' := Next(v, a);
      forall i | i in w.db.enrollments && i in w'.db.enrollments
        ensures EnrollmentAdvances(w.db.enrollments[i], w'.db.enrollments[i])
      {
        assert i in v.db.enrollments;
      }
    }
  }
}
