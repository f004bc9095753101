/** Each active enrolment is driven by exactly one pending step job, on the queue or
    waiting in failed_jobs; a completed one by none. */
module StepTokens {
  import opened Jobs
  import opened Database
  import opened Worker
  import Custody
  import Progress

  predicate IsToken(p: Payload, e: Id) {
    p.event.SequenceStep? && p.enrollment == Some(e)
  }

  datatype Place = Queued(id: nat) | Dead(row: nat)

  /** The message is still queued but its job is done: only the delete is missing. */
  predicate Spent(w: World, id: nat) {
    (w.phase.Ran? || w.phase.Saved?) && w.phase.m.id == id
  }

  predicate PendingAt(w: World, place: Place) {
    match place
    case Queued(id) => id in w.queue && !Spent(w, id)
    case Dead(k) => k < |w.rows| && !w.rows[k].replayed
  }

  function PayloadAt(w: World, place: Place): Payload
    requires PendingAt(w, place)
  {
    match place
    case Queued(id) => w.queue[id].payload
    case Dead(k) => w.rows[k].payload
  }

  predicate TokenAt(w: World, e: Id, place: Place) {
    PendingAt(w, place) && IsToken(PayloadAt(w, place), e)
  }

  ghost predicate OneToken(w: World, e: Id) {
    exists place :: TokenAt(w, e, place) && forall other :: TokenAt(w, e, other) ==> other == place
  }

  ghost predicate NoToken(w: World, e: Id) {
    forall place :: !TokenAt(w, e, place)
  }

  ghost predicate ReferencesExist(db: Db) {
    forall i :: i in db.enrollments ==>
      && db.enrollments[i].lead in db.leads
      && exists s :: s in db.sequences && s.id == db.enrollments[i].sequence
  }

  /** Step jobs name an enrolment that was drawn, under the enrolment's tenant. */
  ghost predicate Addressed(db: Db, nextId: Id, job: Job) {
    job.payload.event.SequenceStep? ==>
      && job.payload.enrollment.Some? && job.payload.enrollment.value < nextId
      && (job.payload.enrollment.value in db.enrollments ==>
            job.payload.tenant == Some(db.enrollments[job.payload.enrollment.value].tenant))
  }

  /** The step jobs pending for a visible enrolment. */
  ghost predicate Driven(w: World, i: Id)
    requires i in w.db.enrollments
  {
    var e := w.db.enrollments[i];
    Visible(w.db, e) ==> if e.status.Active? then OneToken(w, i) else NoToken(w, i)
  }

  ghost predicate Conserved(w: World) {
    && Configured(w.urls, SEQUENCE_JOBS)
    && Custody.Consistent(w)
    && Progress.Numbered(w.db, w.nextId) && Progress.Counted(w.db)
    && ReferencesExist(w.db)
    && (forall k :: 0 <= k < |w.accepted| ==> Addressed(w.db, w.nextId, w.accepted[k]))
    && (forall i :: i in w.db.enrollments ==> Driven(w, i))
  }

  /** A pending step job is for an enrolment that was drawn. */
  lemma TokenDrawn(w: World, e: Id, place: Place)
    requires Conserved(w) && TokenAt(w, e, place)
    ensures e < w.nextId
  {
    match place
    case Queued(id) => assert Addressed(w.db, w.nextId, w.accepted[id]);
    case Dead(k) =>
      assert Custody.GenuineRow(w, w.rows[k]);
      assert Addressed(w.db, w.nextId, w.accepted[w.rows[k].origin]);
  }

  /** Jobs stay addressed while enrolments keep their tenants and new ones are drawn. */
  lemma AddressedKept(db: Db, nextId: Id, db': Db, nextId': Id, job: Job)
    requires Addressed(db, nextId, job) && nextId <= nextId'
    requires forall i :: i in db'.enrollments && i < nextId ==>
      i in db.enrollments && db'.enrollments[i].tenant == db.enrollments[i].tenant
    ensures Addressed(db', nextId', job)
  {
  }

  // ---------- the runs this holds for ----------

  /** API writes never move a lead or a sequence to another tenant. */
  ghost predicate TenantsKept(db: Db, a: Action)
    requires a.AAdmin?
  {
    && (forall l :: l in db.leads && l in a.leads ==> a.leads[l].tenant == db.leads[l].tenant)
    && (forall s, s' :: s in db.sequences && s' in a.sequences && s.id == s'.id ==> s'.tenant == s.tenant)
  }

  /** The step handler either ends or stops before its first call; a finished step
      job is deleted; step jobs are not forged, duplicated or replayed twice. Every
      other handler may stop anywhere, and steps, sequences and leads may be edited
      and deleted at any time. */
  ghost predicate Orderly(w: World, a: Action) {
    match a
    case ARun(budget, day) =>
      w.batch != [] && w.batch[0].payload.event.SequenceStep? ==> budget == 0 || Returns(PlanOf(w, day), budget)
    case AAbort => w.phase.Ran? || w.phase.Saved? ==> !w.phase.m.payload.event.SequenceStep?
    case ADuplicate(id) => id < |w.accepted| ==> !w.accepted[id].payload.event.SequenceStep?
    case AReplay(k, committed) =>
      k < |w.rows| && w.rows[k].payload.event.SequenceStep? ==>
        committed && !w.rows[k].replayed && Configured(w.urls, w.rows[k].queueName)
    case AEnrol(_, _, _, published) => published
    case APost(job) => !job.payload.event.SequenceStep?
    case AAdmin(_, _, _, _, _) => TenantsKept(w.db, a)
    case _ => true
  }

  // ---------- steps that move no token ----------

  ghost predicate SameTokens(w: World, w': World) {
    forall place ::
      (PendingAt(w', place) && PayloadAt(w', place).event.SequenceStep?) ==
      (PendingAt(w, place) && PayloadAt(w, place).event.SequenceStep?)
      && (PendingAt(w, place) && PendingAt(w', place) ==> PayloadAt(w, place) == PayloadAt(w', place))
  }

  lemma SameTokensAt(w: World, w': World, e: Id, place: Place)
    requires SameTokens(w, w')
    ensures TokenAt(w', e, place) == TokenAt(w, e, place)
  {
    assert (PendingAt(w', place) && PayloadAt(w', place).event.SequenceStep?) ==
      (PendingAt(w, place) && PayloadAt(w, place).event.SequenceStep?);
  }

  lemma DrivenAlike(w: World, w': World, i: Id)
    requires i in w.db.enrollments && Driven(w, i)
    requires i in w'.db.enrollments && w'.db.enrollments[i] == w.db.enrollments[i]
    requires Visible(w'.db, w'.db.enrollments[i]) ==> Visible(w.db, w.db.enrollments[i])
    requires forall place :: TokenAt(w', i, place) <==> TokenAt(w, i, place)
    ensures Driven(w', i)
  {
    OneTokenKept(w, w', i);
  }

  lemma OneTokenKept(w: World, w': World, e: Id)
    requires forall place :: TokenAt(w', e, place) <==> TokenAt(w, e, place)
    ensures OneToken(w', e) == OneToken(w, e) && NoToken(w', e) == NoToken(w, e)
  {
    if OneToken(w, e) {
      var place :| TokenAt(w, e, place) && forall other :: TokenAt(w, e, other) ==> other == place;
      assert TokenAt(w', e, place);
    }
    if OneToken(w', e) {
      var place :| TokenAt(w', e, place) && forall other :: TokenAt(w', e, other) ==> other == place;
      assert TokenAt(w, e, place);
    }
  }

  /** Nothing that concerns enrolments changed; new jobs are not step jobs. */
  lemma ConservedAlike(w: World, w': World)
    requires Conserved(w) && Custody.Consistent(w') && w'.urls == w.urls
    requires SameTokens(w, w') && w'.nextId >= w.nextId && w.accepted <= w'.accepted
    requires forall k :: |w.accepted| <= k < |w'.accepted| ==> !w'.accepted[k].payload.event.SequenceStep?
    requires w'.db.enrollments == w.db.enrollments && w'.db.leads == w.db.leads
    requires w'.db.sequences == w.db.sequences && w'.db.log == w.db.log
    ensures Conserved(w')
  {
    forall i | i in w'.db.enrollments ensures Driven(w', i) {
      forall place | true ensures TokenAt(w', i, place) <==> TokenAt(w, i, place) { SameTokensAt(w, w', i, place); }
      DrivenAlike(w, w', i);
    }
    forall k | 0 <= k < |w'.accepted| ensures Addressed(w'.db, w'.nextId, w'.accepted[k]) {
      if k < |w.accepted| { AddressedKept(w.db, w.nextId, w'.db, w'.nextId, w.accepted[k]); }
    }
  }

  /** The enrolments that are left are as they were, and no more of them are visible. */
  lemma AdminEnrolments(w: World, a: Action, i: Id)
    requires a.AAdmin? && TenantsKept(w.db, a) && ReferencesExist(w.db) && i in Next(w, a).db.enrollments
    ensures var db, db' := w.db, Next(w, a).db;
      && i in db.enrollments && db'.enrollments[i] == db.enrollments[i]
      && (Visible(db', db'.enrollments[i]) ==> Visible(db, db.enrollments[i]))
  {
  }

  lemma AdminReferences(w: World, a: Action)
    requires a.AAdmin?
    ensures ReferencesExist(Next(w, a).db)
  {
  }

  lemma AdminDriven(w: World, a: Action, i: Id)
    requires a.AAdmin? && TenantsKept(w.db, a) && ReferencesExist(w.db) && i in Next(w, a).db.enrollments
    requires i in w.db.enrollments && Driven(w, i)
    ensures Driven(Next(w, a), i)
  {
    AdminEnrolments(w, a, i);
    forall place | true ensures TokenAt(Next(w, a), i, place) <==> TokenAt(w, i, place) {}
    DrivenAlike(w, Next(w, a), i);
  }

  lemma AdminAddressed(w: World, a: Action)
    requires a.AAdmin? && TenantsKept(w.db, a) && ReferencesExist(w.db)
    requires forall k :: 0 <= k < |w.accepted| ==> Addressed(w.db, w.nextId, w.accepted[k])
    ensures forall k :: 0 <= k < |w.accepted| ==> Addressed(Next(w, a).db, w.nextId, w.accepted[k])
  {
    var db' := Next(w, a).db;
    forall i | i in db'.enrollments
      ensures i in w.db.enrollments && db'.enrollments[i].tenant == w.db.enrollments[i].tenant
    {
      AdminEnrolments(w, a, i);
    }
    forall k | 0 <= k < |w.accepted| ensures Addressed(db', w.nextId, w.accepted[k]) {
      AddressedKept(w.db, w.nextId, db', w.nextId, w.accepted[k]);
    }
  }

  lemma ConservedAdmin(w: World, a: Action)
    requires Conserved(w) && a.AAdmin? && TenantsKept(w.db, a)
    ensures Conserved(Next(w, a))
  {
    var w' := Next(w, a);
    Custody.ConsistentNext(w, a);
    Progress.AdminKeeps(w, a, 0);
    AdminReferences(w, a);
    AdminAddressed(w, a);
    forall i | i in w'.db.enrollments ensures Driven(w', i) {
      AdminEnrolments(w, a, i);
      AdminDriven(w, a, i);
    }
  }

  // ---------- steps that add, move or spend a token ----------

  /** The step job `p` left `from`, if anywhere, and is now at `to`, if anywhere;
      all other step jobs are where they were. */
  ghost predicate Moved(w: World, w': World, p: Payload, from: Option<Place>, to: Option<Place>) {
    forall e: Id, place ::
      TokenAt(w', e, place) <==> (to == Some(place) && IsToken(p, e)) || (from != Some(place) && TokenAt(w, e, place))
  }

  /** A moved job still drives its enrolment, and every other one is undisturbed. */
  lemma MoveKeepsTokens(w: World, w': World, p: Payload, from: Place, to: Place, e: Id)
    requires Moved(w, w', p, Some(from), Some(to))
    requires PendingAt(w, from) && PayloadAt(w, from) == p && (OneToken(w, e) || NoToken(w, e))
    ensures OneToken(w', e) == OneToken(w, e) && NoToken(w', e) == NoToken(w, e)
  {
    if IsToken(p, e) {
      assert TokenAt(w, e, from);
      assert TokenAt(w', e, to);
    } else {
      OneTokenKept(w, w', e);
    }
  }

  lemma ConservedMove(w: World, w': World, p: Payload, from: Place, to: Place)
    requires Conserved(w) && Custody.Consistent(w') && Moved(w, w', p, Some(from), Some(to))
    requires PendingAt(w, from) && PayloadAt(w, from) == p
    requires w'.db == w.db && w'.nextId == w.nextId && w'.urls == w.urls
    requires forall k :: 0 <= k < |w'.accepted| ==> Addressed(w.db, w.nextId, w'.accepted[k])
    ensures Conserved(w')
  {
    forall i | i in w'.db.enrollments ensures Driven(w', i) {
      assert Driven(w, i);
      if Visible(w.db, w.db.enrollments[i]) { MoveKeepsTokens(w, w', p, from, to, i); }
    }
  }

  lemma ConservedSave(w: World)
    requires Conserved(w) && w.phase.Raised? && w.phase.m.receives >= MAX_RETRIES
    ensures Conserved(SaveFailedJob(w))
  {
    var w' := SaveFailedJob(w);
    var m := w.phase.m;
    Custody.ConsistentSave(w);
    assert Custody.Genuine(w, m);
    assert w'.rows[|w.rows|].payload == m.payload;
    assert PayloadAt(w, Queued(m.id)) == m.payload;
    ConservedMove(w, w', m.payload, Queued(m.id), Dead(|w.rows|));
  }

  lemma ReplayMovesToken(w: World, k: nat)
    requires Conserved(w) && k < |w.rows| && !w.rows[k].replayed && Configured(w.urls, w.rows[k].queueName)
    ensures Conserved(Replay(w, k, true))
  {
    var w' := Replay(w, k, true);
    var r := w.rows[k];
    var to := Queued(|w.accepted|);
    Custody.ConsistentReplay(w, k, true);
    assert Custody.GenuineRow(w, r);
    assert |w.accepted| !in w.queue;
    assert w'.queue == w.queue[|w.accepted| := Message(w.urls[r.queueName], r.payload, 0)];
    assert w'.rows == w.rows[k := w'.rows[k]] && w'.rows[k].replayed;
    assert !w.phase.Idle? ==> Custody.Genuine(w, w.phase.m);
    assert PendingAt(w', to) && PayloadAt(w', to) == r.payload;
    assert Addressed(w.db, w.nextId, w.accepted[r.origin]);
    forall place | PendingAt(w', place) && place != to
      ensures place != Dead(k) && PendingAt(w, place) && PayloadAt(w', place) == PayloadAt(w, place)
    {
    }
    forall place | PendingAt(w, place) && place != Dead(k)
      ensures place != to && PendingAt(w', place) && PayloadAt(w', place) == PayloadAt(w, place)
    {
    }
    ConservedMove(w, w', r.payload, Dead(k), to);
  }

  lemma ConservedReplay(w: World, k: nat, committed: bool)
    requires Conserved(w) && k < |w.rows| && Orderly(w, AReplay(k, committed))
    ensures Conserved(Replay(w, k, committed))
  {
    if w.rows[k].payload.event.SequenceStep? {
      ReplayMovesToken(w, k);
    } else {
      ReplayOfOtherJob(w, k, committed);
    }
  }

  lemma ReplayOfOtherJob(w: World, k: nat, committed: bool)
    requires Conserved(w) && k < |w.rows| && !w.rows[k].payload.event.SequenceStep?
    ensures Conserved(Replay(w, k, committed))
  {
    Custody.ConsistentReplay(w, k, committed);
    OtherReplayTokens(w, k, committed);
    ConservedAlike(w, Replay(w, k, committed));
  }

  lemma OtherReplayTokens(w: World, k: nat, committed: bool)
    requires Custody.Consistent(w) && k < |w.rows| && !w.rows[k].payload.event.SequenceStep?
    ensures SameTokens(w, Replay(w, k, committed))
  {
    var w' := Replay(w, k, committed);
    assert |w.accepted| !in w.queue;
    forall j | 0 <= j < |w.rows| && j != k ensures w'.rows[j] == w.rows[j] {
    }
    assert w'.rows[k].payload == w.rows[k].payload;
  }

  // ---------- handlers ----------

  /** From `w` to `w'` the worker went on to message `m`, and messages from `base` on
      were queued; nothing else about queues and rows changed. */
  ghost predicate Handled(w: World, w': World, m: Received) {
    && w.phase.Idle? && (w'.phase == Ran(m) || w'.phase == Raised(m))
    && m.id in w.queue && w.queue[m.id].payload == m.payload
    && w'.urls == w.urls && w'.rows == w.rows && w.accepted <= w'.accepted && w.nextId <= w'.nextId
    && (forall id :: id in w.queue ==> id < |w.accepted| && id in w'.queue && w'.queue[id] == w.queue[id])
    && (forall id :: id in w'.queue ==> id in w.queue || |w.accepted| <= id < |w'.accepted|)
    && (forall id :: |w.accepted| <= id < |w'.accepted| ==>
          id in w'.queue && w'.queue[id].payload == w'.accepted[id].payload)
  }

  lemma RunHandles(w: World, budget: nat, day: int)
    requires Custody.Consistent(w) && w.batch != [] && w.phase.Idle? && !w.batch[0].payload.event.Other?
    ensures var w' := RunHandler(w, budget, day);
      var p := PlanOf(w, day);
      && Handled(w, w', w.batch[0]) && w'.phase.Ran? == Returns(p, budget) && w'.nextId == w.nextId + p.draws
      && (w'.db == w.db || (p.commit.Some? && w'.db == p.commit.value))
      && (forall id :: |w.accepted| <= id < |w'.accepted| ==> w'.accepted[id] in p.before + p.after)
  {
    RunPlanHandles(w, PlanOf(w, day), budget);
  }

  lemma RunPlanHandles(w: World, p: Plan, budget: nat)
    requires Custody.Consistent(w) && w.batch != [] && w.phase.Idle? && !w.batch[0].payload.event.Other?
    ensures var w' := RunPlan(w, p, budget);
      && Handled(w, w', w.batch[0]) && w'.phase.Ran? == Returns(p, budget) && w'.nextId == w.nextId + p.draws
      && (w'.db == w.db || (p.commit.Some? && w'.db == p.commit.value))
      && (forall id :: |w.accepted| <= id < |w'.accepted| ==> w'.accepted[id] in p.before + p.after)
  {
    assert Custody.Genuine(w, w.batch[0]);
    ExecQueues(w, p, budget);
  }

  lemma QuietTokens(w: World, w': World, m: Received)
    requires Handled(w, w', m)
    requires m.payload.event.SequenceStep? ==> w'.phase.Raised?
    requires forall id :: |w.accepted| <= id < |w'.accepted| ==> !w'.accepted[id].payload.event.SequenceStep?
    ensures SameTokens(w, w')
  {
  }

  /** The handler neither published a step job nor changed an enrolment. */
  lemma ConservedQuietRun(w: World, budget: nat, day: int)
    requires Conserved(w) && w.batch != [] && w.phase.Idle? && !w.batch[0].payload.event.Other?
    requires var p := PlanOf(w, day);
      || p.commit.None? || budget == 0
      || (!w.batch[0].payload.event.SequenceTrigger? && !w.batch[0].payload.event.SequenceStep?)
    requires w.batch[0].payload.event.SequenceStep? ==> !Returns(PlanOf(w, day), budget)
    ensures Conserved(RunHandler(w, budget, day))
  {
    var w' := RunHandler(w, budget, day);
    Custody.ConsistentRun(w, budget, day);
    RunHandles(w, budget, day);
    QuietRunEffect(w, budget, day);
    QuietTokens(w, w', w.batch[0]);
    ConservedAlike(w, w');
  }

  /** Only the two sequence handlers touch enrolments or send step jobs. */
  lemma OtherPlansAreQuiet(db: Db, nextId: Id, p: Payload, day: int)
    requires !p.event.SequenceTrigger? && !p.event.SequenceStep?
    ensures var plan := PlanFor(db, nextId, p, day);
      && (forall job :: job in plan.before + plan.after ==> !job.payload.event.SequenceStep?)
      && (plan.commit.Some? ==>
            var db' := plan.commit.value;
            db'.enrollments == db.enrollments && db'.leads == db.leads && db'.sequences == db.sequences && db'.log == db.log)
  {
  }

  lemma QuietRunEffect(w: World, budget: nat, day: int)
    requires Custody.Consistent(w)
    requires w.batch != [] && w.phase.Idle? && !w.batch[0].payload.event.Other?
    requires var p := PlanOf(w, day);
      || p.commit.None? || budget == 0
      || (!w.batch[0].payload.event.SequenceTrigger? && !w.batch[0].payload.event.SequenceStep?)
    ensures var w' := RunHandler(w, budget, day);
      && w'.db.enrollments == w.db.enrollments && w'.db.leads == w.db.leads
      && w'.db.sequences == w.db.sequences && w'.db.log == w.db.log
      && forall id :: |w.accepted| <= id < |w'.accepted| ==> !w'.accepted[id].payload.event.SequenceStep?
  {
    var p := PlanOf(w, day);
    if p.commit.None? || budget == 0 {
      NothingDone(w, p, budget);
    } else {
      RunHandles(w, budget, day);
      OtherPlansAreQuiet(w.db, w.nextId, w.batch[0].payload, day);
    }
  }

  lemma NothingDone(w: World, p: Plan, budget: nat)
    requires p.commit.None? || budget == 0
    ensures Exec(w, p, budget) == w.(nextId := w.nextId + p.draws)
  {
    assert p.before[..0] == [];
  }

  lemma ConservedNoHandler(w: World, budget: nat, day: int)
    requires Conserved(w) && w.batch != [] && w.phase.Idle? && w.batch[0].payload.event.Other?
    ensures Conserved(RunHandler(w, budget, day))
  {
    assert Custody.Genuine(w, w.batch[0]);
    Custody.ConsistentRun(w, budget, day);
    ConservedAlike(w, RunHandler(w, budget, day));
  }

  /** A step job whose message was handled is spent; others are where they were,
      apart from the new ones. */
  lemma SpentTokens(w: World, w': World, m: Received, e: Id, place: Place)
    requires Handled(w, w', m) && w'.phase.Ran? && m.payload.event.SequenceStep?
    ensures place.Queued? && place.id >= |w.accepted| ==>
      (TokenAt(w', e, place) <==> place.id < |w'.accepted| && IsToken(w'.accepted[place.id].payload, e))
    ensures place.Dead? || place.id < |w.accepted| ==>
      (TokenAt(w', e, place) <==> TokenAt(w, e, place) && place != Queued(m.id))
  {
  }

  /** A step job that has nothing to act on is used up. */
  lemma IdleStep(w: World, w': World, m: Received)
    requires Conserved(w) && Custody.Consistent(w') && Handled(w, w', m) && w'.phase.Ran? && m.payload.event.SequenceStep?
    requires !StepActs(w.db, m.payload)
    requires w'.db == w.db && w'.accepted == w.accepted && w'.nextId == w.nextId
    ensures Conserved(w')
  {
    var from := Queued(m.id);
    forall e: Id, place | true ensures TokenAt(w', e, place) <==> TokenAt(w, e, place) && place != from {
      SpentTokens(w, w', m, e, place);
    }
    forall i | i in w'.db.enrollments ensures Driven(w', i) {
      assert Driven(w, i);
      if IsToken(m.payload, i) {
        assert TokenAt(w, i, from);
        assert Addressed(w.db, w.nextId, w.accepted[m.id]);
      } else {
        assert !TokenAt(w, i, from);
        DrivenAlike(w, w', i);
      }
    }
  }

  lemma IdleRun(w: World, w': World, budget: nat, day: int)
    requires Custody.Consistent(w) && w.batch != [] && w.phase.Idle? && w.batch[0].payload.event.SequenceStep?
    requires !StepActs(w.db, w.batch[0].payload) && Returns(PlanOf(w, day), budget)
    requires w' == RunHandler(w, budget, day)
    ensures Custody.Consistent(w') && Handled(w, w', w.batch[0]) && w'.phase.Ran?
    ensures w'.db == w.db && w'.accepted == w.accepted && w'.nextId == w.nextId
  {
    RunHandles(w, budget, day);
    Custody.ConsistentRun(w, budget, day);
    assert Exec(w, NO_EFFECT, budget) == w;
  }

  lemma ConservedIdleStep(w: World, budget: nat, day: int)
    requires Conserved(w) && w.batch != [] && w.phase.Idle? && w.batch[0].payload.event.SequenceStep?
    requires !StepActs(w.db, w.batch[0].payload) && Returns(PlanOf(w, day), budget)
    ensures Conserved(RunHandler(w, budget, day))
  {
    var w' := RunHandler(w, budget, day);
    IdleRun(w, w', budget, day);
    IdleStep(w, w', w.batch[0]);
  }

  /** What a step job that acts leaves behind: its own message spent, the enrolment
      moved on, and one new job unless the enrolment is completed. */
  ghost predicate Stepped(w: World, w': World, id: Id) {
    && id in w.db.enrollments && id in w'.db.enrollments
    && w'.db.leads == w.db.leads && w'.db.sequences == w.db.sequences
    && w'.db.enrollments == w.db.enrollments[id := w'.db.enrollments[id]]
    && var e, e' := w.db.enrollments[id], w'.db.enrollments[id];
    && e.status.Active? && e'.(status := e.status, index := e.index) == e
    && w'.accepted == w.accepted + (if e'.status.Active? then [StepToken(e.tenant, id)] else [])
  }

  lemma StepRunEffect(w: World, budget: nat, day: int)
    requires Configured(w.urls, SEQUENCE_JOBS)
    requires w.batch != [] && w.phase.Idle? && w.batch[0].payload.event.SequenceStep?
    requires StepActs(w.db, w.batch[0].payload) && Returns(PlanOf(w, day), budget)
    ensures Stepped(w, RunHandler(w, budget, day), w.batch[0].payload.enrollment.value)
  {
    var p := PlanOf(w, day);
    ExecToCommit(w, p, budget);
    PublishAllAccepts(w.(nextId := w.nextId + p.draws), p.before);
  }

  lemma StepMovesToken(w: World, w': World, m: Received, id: Id)
    requires Conserved(w) && Handled(w, w', m) && w'.phase.Ran? && w'.nextId == w.nextId
    requires Stepped(w, w', id) && IsToken(m.payload, id)
    requires Progress.Numbered(w'.db, w'.nextId) && Progress.Counted(w'.db) && Custody.Consistent(w')
    ensures Conserved(w')
  {
    var active := w'.db.enrollments[id].status.Active?;
    forall e: Id, place | true
      ensures TokenAt(w', e, place) <==>
        (active && place == Queued(|w.accepted|) && e == id) || (place != Queued(m.id) && TokenAt(w, e, place))
    {
      SpentTokens(w, w', m, e, place);
    }
    forall i | i in w'.db.enrollments ensures Driven(w', i) {
      SteppedDrives(w, w', m, id, i);
    }
    forall k | 0 <= k < |w'.accepted| ensures Addressed(w'.db, w'.nextId, w'.accepted[k]) {
      if k < |w.accepted| { AddressedKept(w.db, w.nextId, w'.db, w'.nextId, w.accepted[k]); }
    }
  }

  lemma SteppedDrives(w: World, w': World, m: Received, id: Id, i: Id)
    requires Stepped(w, w', id) && i in w.db.enrollments && i in w'.db.enrollments && Driven(w, i)
    requires TokenAt(w, id, Queued(m.id)) && (forall e: Id :: IsToken(m.payload, e) ==> e == id)
    requires TokenAt(w, i, Queued(m.id)) ==> IsToken(m.payload, i)
    requires forall e: Id, place ::
      TokenAt(w', e, place) <==>
        (w'.db.enrollments[id].status.Active? && place == Queued(|w.accepted|) && e == id)
        || (place != Queued(m.id) && TokenAt(w, e, place))
    ensures Driven(w', i)
  {
    assert Visible(w'.db, w'.db.enrollments[i]) == Visible(w.db, w.db.enrollments[i]);
    if i != id {
      assert !TokenAt(w, i, Queued(m.id));
      DrivenAlike(w, w', i);
    } else if w'.db.enrollments[id].status.Active? {
      assert TokenAt(w', id, Queued(|w.accepted|));
    }
  }

  lemma StepHandles(w: World, budget: nat, day: int)
    requires Custody.Consistent(w) && Configured(w.urls, SEQUENCE_JOBS)
    requires w.batch != [] && w.phase.Idle? && w.batch[0].payload.event.SequenceStep?
    requires StepActs(w.db, w.batch[0].payload) && Returns(PlanOf(w, day), budget)
    ensures var w', m := RunHandler(w, budget, day), w.batch[0];
      && Handled(w, w', m) && w'.phase.Ran? && w'.nextId == w.nextId
      && IsToken(m.payload, m.payload.enrollment.value) && Stepped(w, w', m.payload.enrollment.value)
  {
    RunHandles(w, budget, day);
    StepRunEffect(w, budget, day);
  }

  lemma ConservedStep(w: World, w': World, budget: nat, day: int)
    requires Conserved(w) && w.batch != [] && w.phase.Idle? && w.batch[0].payload.event.SequenceStep?
    requires StepActs(w.db, w.batch[0].payload) && Returns(PlanOf(w, day), budget)
    requires w' == RunHandler(w, budget, day) && Custody.Consistent(w')
    requires Progress.Numbered(w'.db, w'.nextId) && Progress.Counted(w'.db)
    ensures Conserved(w')
  {
    StepHandles(w, budget, day);
    StepMovesToken(w, w', w.batch[0], w.batch[0].payload.enrollment.value);
  }

  // ---------- new enrolments ----------

  /** `draws` identifiers were drawn for new enrolments of one tenant and the first
      `n` step jobs were sent; the enrolments are there if they were committed. */
  ghost predicate Enrolled(w: World, w': World, tenant: Id, draws: nat, n: nat, committed: bool) {
    && w'.nextId == w.nextId + draws && n <= draws && (committed ==> n == draws)
    && w'.urls == w.urls && w'.rows == w.rows
    && w'.db.leads == w.db.leads && w'.db.sequences == w.db.sequences
    && (forall i :: i in w'.db.enrollments <==>
          i in w.db.enrollments || (committed && w.nextId <= i < w.nextId + draws))
    && (forall i :: i in w.db.enrollments && i < w.nextId ==> w'.db.enrollments[i] == w.db.enrollments[i])
    && (forall i :: i in w'.db.enrollments && w.nextId <= i ==>
          w'.db.enrollments[i].tenant == tenant && w'.db.enrollments[i].status.Active?)
    && w'.accepted == w.accepted + Tokens(tenant, w.nextId, n)
    && (forall id :: id in w'.queue <==> id in w.queue || |w.accepted| <= id < |w.accepted| + n)
    && (forall id :: id in w.queue && id < |w.accepted| ==> w'.queue[id] == w.queue[id])
    && (w'.phase == w.phase
        || (w.phase.Idle? && !w'.phase.Idle? && w'.phase.m.id in w.queue
            && !w.queue[w'.phase.m.id].payload.event.SequenceStep?))
  }

  lemma NewTokenAt(w: World, w': World, tenant: Id, draws: nat, n: nat, committed: bool, e: Id, place: Place)
    requires Custody.Consistent(w) && Custody.Consistent(w') && Enrolled(w, w', tenant, draws, n, committed)
    ensures TokenAt(w', e, place) <==>
      TokenAt(w, e, place) || (w.nextId <= e < w.nextId + n && place == Queued(|w.accepted| + (e - w.nextId)))
  {
    assert !w.phase.Idle? ==> Custody.Genuine(w, w.phase.m);
    if place.Queued? && |w.accepted| <= place.id < |w.accepted| + n {
      assert w'.accepted[place.id] == StepToken(tenant, w.nextId + (place.id - |w.accepted|));
      assert w'.queue[place.id].payload == w'.accepted[place.id].payload;
      assert place.id !in w.queue;
    }
  }

  lemma ConservedNewEnrolments(w: World, w': World, tenant: Id, draws: nat, n: nat, committed: bool)
    requires Conserved(w) && Enrolled(w, w', tenant, draws, n, committed) && Custody.Consistent(w')
    requires Progress.Numbered(w'.db, w'.nextId) && Progress.Counted(w'.db) && ReferencesExist(w'.db)
    ensures Conserved(w')
  {
    forall i | i in w'.db.enrollments ensures Driven(w', i) {
      NewEnrolmentDriven(w, w', tenant, draws, n, committed, i);
    }
    forall k | 0 <= k < |w'.accepted| ensures Addressed(w'.db, w'.nextId, w'.accepted[k]) {
      if k < |w.accepted| {
        AddressedKept(w.db, w.nextId, w'.db, w'.nextId, w.accepted[k]);
      } else {
        assert w'.accepted[k] == StepToken(tenant, w.nextId + (k - |w.accepted|));
      }
    }
  }

  lemma NewEnrolmentDriven(w: World, w': World, tenant: Id, draws: nat, n: nat, committed: bool, i: Id)
    requires Conserved(w) && Enrolled(w, w', tenant, draws, n, committed)
    requires Custody.Consistent(w') && i in w'.db.enrollments
    ensures Driven(w', i)
  {
    forall place | true
      ensures TokenAt(w', i, place) <==>
        TokenAt(w, i, place) || (w.nextId <= i < w.nextId + n && place == Queued(|w.accepted| + (i - w.nextId)))
    {
      NewTokenAt(w, w', tenant, draws, n, committed, i, place);
    }
    if i in w.db.enrollments {
      DrivenAlike(w, w', i);
    } else {
      forall place | true ensures !TokenAt(w, i, place) { if TokenAt(w, i, place) { TokenDrawn(w, i, place); } }
      assert TokenAt(w', i, Queued(|w.accepted| + (i - w.nextId)));
    }
  }

  /** A trigger cut off anywhere: how many step jobs were sent, and whether the
      enrolments were committed. */
  lemma TriggerPublishes(w: World, budget: nat, day: int) returns (n: nat, committed: bool)
    requires Configured(w.urls, SEQUENCE_JOBS)
    requires w.batch != [] && w.phase.Idle? && w.batch[0].payload.event.SequenceTrigger?
    requires PlanOf(w, day).commit.Some?
    ensures var w', p := RunHandler(w, budget, day), PlanOf(w, day);
      && n <= p.draws && (committed ==> n == p.draws)
      && w'.accepted == w.accepted + Tokens(w.batch[0].payload.tenant.value, w.nextId, n)
      && w'.db == (if committed then p.commit.value else w.db)
  {
    var p := PlanOf(w, day);
    var w0 := w.(nextId := w.nextId + p.draws);
    n, committed := Min(budget, |p.before|), budget > |p.before|;
    var sent := p.before[..n];
    ExecToCommit(w, p, budget);
    TriggerTokens(w.db, w.nextId, w.batch[0].payload, n);
    PublishAllAccepts(w0, sent);
    assert committed ==> sent == p.before;
  }

  lemma TriggerTokens(db: Db, nextId: Id, p: Payload, n: nat)
    requires TriggerPlan(db, nextId, p).commit.Some? && n <= TriggerPlan(db, nextId, p).draws
    ensures var plan := TriggerPlan(db, nextId, p);
      |plan.before| == plan.draws && plan.before[..n] == Tokens(p.tenant.value, nextId, n)
  {
  }

  lemma TriggerCommits(db: Db, nextId: Id, p: Payload)
    requires TriggerPlan(db, nextId, p).commit.Some? && ReferencesExist(db) && Progress.Numbered(db, nextId)
    ensures var plan := TriggerPlan(db, nextId, p);
      var db' := plan.commit.value;
      && ReferencesExist(db') && db'.leads == db.leads && db'.sequences == db.sequences
      && (forall i :: i in db'.enrollments <==> i in db.enrollments || nextId <= i < nextId + plan.draws)
      && (forall i :: i in db.enrollments ==> db'.enrollments[i] == db.enrollments[i])
      && (forall i :: nextId <= i < nextId + plan.draws ==>
            db'.enrollments[i].tenant == p.tenant.value && db'.enrollments[i].status.Active?)
  {
    var active := ActiveFor(db.sequences, p.tenant.value, p.trigger.value);
    var added := NewEnrollments(p.tenant.value, p.lead.value, active, nextId);
    var db' := TriggerPlan(db, nextId, p).commit.value;
    assert db'.enrollments == db.enrollments + added;
    NewReferencesExist(db, p.tenant.value, p.lead.value, active, nextId);
    forall i | i in db'.enrollments
      ensures db'.enrollments[i].lead in db'.leads
      ensures exists s :: s in db'.sequences && s.id == db'.enrollments[i].sequence
    {
      assert db'.enrollments[i] == if i in added then added[i] else db.enrollments[i];
    }
  }

  lemma NewReferencesExist(db: Db, tenant: Id, lead: Id, active: seq<SequenceRow>, nextId: Id)
    requires active != [] ==> lead in db.leads
    requires forall s :: s in active ==> s in db.sequences
    ensures var added := NewEnrollments(tenant, lead, active, nextId);
      forall i :: i in added ==>
        added[i].lead in db.leads && exists s :: s in db.sequences && s.id == added[i].sequence
  {
    var added := NewEnrollments(tenant, lead, active, nextId);
    forall i | i in added
      ensures added[i].lead in db.leads && exists s :: s in db.sequences && s.id == added[i].sequence
    {
      assert active[i - nextId] in active;
    }
  }

  lemma TriggerRunEffect(w: World, w': World, p: Plan, budget: nat, day: int) returns (n: nat, committed: bool)
    requires Conserved(w) && w.batch != [] && w.phase.Idle? && w.batch[0].payload.event.SequenceTrigger?
    requires p == PlanOf(w, day) && p.commit.Some? && w' == RunHandler(w, budget, day)
    ensures Enrolled(w, w', w.batch[0].payload.tenant.value, p.draws, n, committed) && ReferencesExist(w'.db)
  {
    RunHandles(w, budget, day);
    n, committed := TriggerPublishes(w, budget, day);
    TriggerCommits(w.db, w.nextId, w.batch[0].payload);
    TriggerEnrols(w, w', w.batch[0], p, n, committed);
  }

  lemma TriggerEnrols(w: World, w': World, m: Received, p: Plan, n: nat, committed: bool)
    requires Handled(w, w', m) && !m.payload.event.SequenceStep? && m.payload.tenant.Some?
    requires Progress.Numbered(w.db, w.nextId)
    requires w'.nextId == w.nextId + p.draws && n <= p.draws && (committed ==> n == p.draws)
    requires w'.accepted == w.accepted + Tokens(m.payload.tenant.value, w.nextId, n)
    requires p.commit.Some? && w'.db == (if committed then p.commit.value else w.db)
    requires var db' := p.commit.value;
      && db'.leads == w.db.leads && db'.sequences == w.db.sequences
      && (forall i :: i in db'.enrollments <==> i in w.db.enrollments || w.nextId <= i < w.nextId + p.draws)
      && (forall i :: i in w.db.enrollments ==> db'.enrollments[i] == w.db.enrollments[i])
      && (forall i :: w.nextId <= i < w.nextId + p.draws ==>
            db'.enrollments[i].tenant == m.payload.tenant.value && db'.enrollments[i].status.Active?)
    ensures Enrolled(w, w', m.payload.tenant.value, p.draws, n, committed)
  {
    assert |w'.accepted| == |w.accepted| + n;
  }

  lemma TriggerRun(w: World, w': World, budget: nat, day: int) returns (draws: nat, n: nat, committed: bool)
    requires Conserved(w) && w.batch != [] && w.phase.Idle? && w.batch[0].payload.event.SequenceTrigger?
    requires PlanOf(w, day).commit.Some? && w' == RunHandler(w, budget, day)
    ensures Enrolled(w, w', w.batch[0].payload.tenant.value, draws, n, committed) && ReferencesExist(w'.db)
    ensures Custody.Consistent(w') && Progress.Numbered(w'.db, w'.nextId) && Progress.Counted(w'.db)
  {
    draws := PlanOf(w, day).draws;
    n, committed := TriggerRunEffect(w, w', PlanOf(w, day), budget, day);
    Custody.ConsistentRun(w, budget, day);
    Progress.CountedRun(w, budget, day, 0);
  }

  lemma ConservedTrigger(w: World, budget: nat, day: int)
    requires Conserved(w) && w.batch != [] && w.phase.Idle? && w.batch[0].payload.event.SequenceTrigger?
    requires PlanOf(w, day).commit.Some?
    ensures Conserved(RunHandler(w, budget, day))
  {
    var w' := RunHandler(w, budget, day);
    var draws, n, committed := TriggerRun(w, w', budget, day);
    ConservedNewEnrolments(w, w', w.batch[0].payload.tenant.value, draws, n, committed);
  }

  lemma ConservedRun(w: World, budget: nat, day: int)
    requires Conserved(w) && w.batch != [] && w.phase.Idle? && Orderly(w, ARun(budget, day))
    ensures Conserved(RunHandler(w, budget, day))
  {
    var p := PlanOf(w, day);
    match w.batch[0].payload.event
    case Other(_) => ConservedNoHandler(w, budget, day);
    case SequenceStep =>
      if !Returns(p, budget) { ConservedQuietRun(w, budget, day); }
      else if StepActs(w.db, w.batch[0].payload) {
        Custody.ConsistentRun(w, budget, day);
        Progress.CountedRun(w, budget, day, 0);
        ConservedStep(w, RunHandler(w, budget, day), budget, day);
      }
      else { ConservedIdleStep(w, budget, day); }
    case SequenceTrigger =>
      if p.commit.Some? { ConservedTrigger(w, budget, day); }
      else { ConservedQuietRun(w, budget, day); }
    case _ => ConservedQuietRun(w, budget, day);
  }

  lemma EnrolEffect(w: World, tenant: Id, sequence: Id, lead: Id)
    requires Configured(w.urls, SEQUENCE_JOBS) && Progress.Numbered(w.db, w.nextId) && ReferencesExist(w.db)
    requires HasSequence(w.db, tenant, sequence) && HasLead(w.db, tenant, lead)
    ensures Enrolled(w, Enrol(w, tenant, sequence, lead, true), tenant, 1, 1, true)
    ensures ReferencesExist(Enrol(w, tenant, sequence, lead, true).db)
  {
    assert Tokens(tenant, w.nextId, 1) == [StepToken(tenant, w.nextId)];
  }

  lemma ConservedEnrol(w: World, tenant: Id, sequence: Id, lead: Id)
    requires Conserved(w)
    ensures Conserved(Enrol(w, tenant, sequence, lead, true))
  {
    if HasSequence(w.db, tenant, sequence) && HasLead(w.db, tenant, lead) {
      var a := AEnrol(tenant, sequence, lead, true);
      Custody.ConsistentNext(w, a);
      Progress.CountedNext(w, a, 0);
      EnrolEffect(w, tenant, sequence, lead);
      ConservedNewEnrolments(w, Next(w, a), tenant, 1, 1, true);
    }
  }

  lemma ConservedPublish(w: World, job: Job)
    requires Conserved(w) && !job.payload.event.SequenceStep?
    ensures Conserved(Publish(w, job))
  {
    Custody.PublishQueues(w, job);
    Custody.ConsistentWhenQueued(w, Publish(w, job));
    assert |w.accepted| !in w.queue;
    ConservedAlike(w, Publish(w, job));
  }

  lemma ConservedQueueOnly(w: World, a: Action)
    requires Conserved(w) && Orderly(w, a) && (a.AReceive? || a.ASkip? || a.AAbort? || a.ADelete?)
    ensures Conserved(Next(w, a))
  {
    Custody.ConsistentNext(w, a);
    assert !w.phase.Idle? ==> Custody.Genuine(w, w.phase.m);
    ConservedAlike(w, Next(w, a));
  }

  lemma ConservedNext(w: World, a: Action)
    requires Conserved(w) && Orderly(w, a)
    ensures Conserved(Next(w, a))
  {
    match a
    case ARun(budget, day) => if w.batch != [] && w.phase.Idle? { ConservedRun(w, budget, day); }
    case ASave => if w.phase.Raised? && w.phase.m.receives >= MAX_RETRIES { ConservedSave(w); }
    case AReplay(k, committed) => if k < |w.rows| { ConservedReplay(w, k, committed); }
    case AEnrol(tenant, sequence, lead, _) => ConservedEnrol(w, tenant, sequence, lead);
    case APost(job) => ConservedPublish(w, job);
    case ADuplicate(id) => if id < |w.accepted| { ConservedPublish(w, w.accepted[id]); }
    case AAdmin(_, _, _, _, _) => ConservedAdmin(w, a);
    case _ => ConservedQueueOnly(w, a);
  }

  /** Exactly when a call of the step handler keeps the balance: it published a
      successor it did not commit, or committed and still failed, in all other cases. */
  lemma StepHandlerConservesIff(w: World, budget: nat, day: int)
    requires Conserved(w) && w.batch != [] && w.phase.Idle? && w.batch[0].payload.event.SequenceStep?
    requires StepActs(w.db, w.batch[0].payload)
    ensures Conserved(RunHandler(w, budget, day)) <==> budget == 0 || Returns(PlanOf(w, day), budget)
  {
    if budget == 0 || Returns(PlanOf(w, day), budget) {
      ConservedRun(w, budget, day);
    } else {
      CutStepUnbalances(w, budget, day);
    }
  }

  lemma CutStepUnbalances(w: World, budget: nat, day: int)
    requires Conserved(w) && w.batch != [] && w.phase.Idle? && w.batch[0].payload.event.SequenceStep?
    requires StepActs(w.db, w.batch[0].payload) && budget > 0 && !Returns(PlanOf(w, day), budget)
    ensures !Conserved(RunHandler(w, budget, day))
  {
    var id := w.batch[0].payload.enrollment.value;
    RunHandles(w, budget, day);
    CutStepEffect(w, budget, day);
    Unbalanced(w, RunHandler(w, budget, day), w.batch[0], id, PlanOf(w, day).before);
  }

  /** The message is still pending, and either it has a successor or there is nothing
      left to do. */
  lemma Unbalanced(w: World, w': World, m: Received, id: Id, sent: seq<Job>)
    requires Handled(w, w', m) && w'.phase.Raised? && IsToken(m.payload, id)
    requires id in w.db.enrollments && Visible(w.db, w.db.enrollments[id])
    requires CutShort(w, w', id, sent)
    ensures !Conserved(w')
  {
    assert TokenAt(w', id, Queued(m.id));
    assert Visible(w'.db, w'.db.enrollments[id]) == Visible(w.db, w.db.enrollments[id]);
    if sent != [] {
      assert w'.accepted[|w.accepted|] == StepToken(w.db.enrollments[id].tenant, id);
      assert TokenAt(w', id, Queued(|w.accepted|));
      assert !OneToken(w', id);
    }
    assert !Driven(w', id);
  }

  ghost predicate CutShort(w: World, w': World, id: Id, sent: seq<Job>)
    requires id in w.db.enrollments
  {
    && id in w'.db.enrollments && w'.db.leads == w.db.leads && w'.db.sequences == w.db.sequences
    && w'.db.enrollments[id].(status := Active, index := 0) == w.db.enrollments[id].(status := Active, index := 0)
    && w'.accepted == w.accepted + sent
    && (sent != [] ==> sent == [StepToken(w.db.enrollments[id].tenant, id)])
    && (sent == [] ==> w'.db.enrollments[id].status.Completed?)
  }

  lemma CutStepEffect(w: World, budget: nat, day: int)
    requires Configured(w.urls, SEQUENCE_JOBS)
    requires w.batch != [] && w.phase.Idle? && w.batch[0].payload.event.SequenceStep?
    requires StepActs(w.db, w.batch[0].payload) && 0 < budget <= Calls(PlanOf(w, day))
    ensures CutShort(w, RunHandler(w, budget, day), w.batch[0].payload.enrollment.value, PlanOf(w, day).before)
  {
    var p := PlanOf(w, day);
    var w0 := w.(nextId := w.nextId + p.draws);
    ExecToCommit(w, p, budget);
    PublishAllAccepts(w0, p.before);
    assert p.before[..|p.before|] == p.before;
  }

  /** Exactly when losing the delete of a finished step job, or of one just saved to
      failed_jobs, breaks the balance: when its enrolment is still there. The message
      comes back for an enrolment that has its one job elsewhere or needs none. */
  lemma LostDeleteConservesIff(w: World)
    requires Conserved(w) && (w.phase.Ran? || w.phase.Saved?) && w.phase.m.payload.event.SequenceStep?
    ensures var p := w.phase.m.payload;
      Conserved(Next(w, AAbort)) <==>
        !(p.enrollment.Some? && p.enrollment.value in w.db.enrollments
          && Visible(w.db, w.db.enrollments[p.enrollment.value]))
  {
    var w', m := Next(w, AAbort), w.phase.m;
    assert Custody.Genuine(w, m);
    assert Addressed(w.db, w.nextId, w.accepted[m.id]);
    var e := m.payload.enrollment.value;
    ReturnedToken(w);
    if e in w.db.enrollments && Visible(w.db, w.db.enrollments[e]) {
      assert Driven(w, e);
      assert TokenAt(w', e, Queued(m.id)) && !TokenAt(w, e, Queued(m.id));
      if w.db.enrollments[e].status.Active? {
        var place :| TokenAt(w, e, place);
        assert TokenAt(w', e, place);
      }
      assert !Driven(w', e);
    } else {
      Custody.ConsistentNext(w, AAbort);
      forall i | i in w'.db.enrollments ensures Driven(w', i) {
        if i != e { DrivenAlike(w, w', i); }
      }
    }
  }

  /** The finished message is pending again; nothing else moved. */
  lemma ReturnedToken(w: World)
    requires Custody.Consistent(w) && (w.phase.Ran? || w.phase.Saved?)
    ensures forall e: Id, place ::
      TokenAt(Next(w, AAbort), e, place) <==>
        TokenAt(w, e, place) || (place == Queued(w.phase.m.id) && IsToken(w.phase.m.payload, e))
  {
    assert Custody.Genuine(w, w.phase.m);
  }

  /** Stopping between the commit of an API enrolment and its publish breaks the balance
      whenever there was an enrolment to commit. */
  lemma UnpublishedEnrolConservesIff(w: World, tenant: Id, sequence: Id, lead: Id)
    requires Conserved(w)
    ensures Conserved(Enrol(w, tenant, sequence, lead, false)) <==>
      !(HasSequence(w.db, tenant, sequence) && HasLead(w.db, tenant, lead))
  {
    if HasSequence(w.db, tenant, sequence) && HasLead(w.db, tenant, lead) {
      var w' := Enrol(w, tenant, sequence, lead, false);
      forall place | true ensures !TokenAt(w', w.nextId, place) {
        if TokenAt(w', w.nextId, place) {
          assert TokenAt(w, w.nextId, place);
          TokenDrawn(w, w.nextId, place);
        }
      }
      assert !Driven(w', w.nextId);
    }
  }

  /** With nothing queued, the enrolments still active are those whose step job waits in
      failed_jobs: each in exactly one row, and a completed one in none. */
  lemma EmptyQueuesLeaveRows(w: World, i: Id)
    requires Conserved(w) && w.queue == map[] && i in w.db.enrollments && Visible(w.db, w.db.enrollments[i])
    ensures w.db.enrollments[i].status.Active? <==>
      exists k :: 0 <= k < |w.rows| && !w.rows[k].replayed && IsToken(w.rows[k].payload, i)
    ensures forall j, k :: 0 <= j < k < |w.rows| && !w.rows[j].replayed && !w.rows[k].replayed ==>
      !(IsToken(w.rows[j].payload, i) && IsToken(w.rows[k].payload, i))
  {
    assert Driven(w, i);
    forall k | 0 <= k < |w.rows|
      ensures !w.rows[k].replayed && IsToken(w.rows[k].payload, i) <==> TokenAt(w, i, Dead(k))
    {
    }
    if w.db.enrollments[i].status.Active? {
      var place :| TokenAt(w, i, place);
      assert place.Dead? && TokenAt(w, i, Dead(place.row));
    }
  }

  ghost predicate OrderlyRun(w: World, actions: seq<Action>) {
    forall i :: 0 <= i < |actions| ==> Orderly(Run(w, actions[..i]), actions[i])
  }

  lemma {:induction false} ConservedAlways(urls: Urls, actions: seq<Action>)
    requires Configured(urls, SEQUENCE_JOBS) && OrderlyRun(Init(urls, EMPTY, 0), actions)
    ensures Conserved(Run(Init(urls, EMPTY, 0), actions))
  {
    if actions != [] {
      var n := |actions| - 1;
      var w := Init(urls, EMPTY, 0);
      assert Orderly(Run(w, actions[..n]), actions[n]);
      forall i | 0 <= i < n ensures Orderly(Run(w, actions[..n][..i]), actions[..n][i]) {
        assert actions[..n][..i] == actions[..i];
        assert Orderly(Run(w, actions[..i]), actions[i]);
      }
      ConservedAlways(urls, actions[..n]);
      ConservedNext(Run(w, actions[..n]), actions[n]);
    }
  }

  /** A sequence of two steps, a lead, and its enrolment, whose first step job is received. */
  function CutOffRun(url: string): seq<Action> {
    [AAdmin(map[0 := LeadRow(0, true, true)], [SequenceRow(0, 0, "t", true)],
            [StepRow(0, 0, 0, EmailStep), StepRow(1, 0, 1, SmsStep)], map[], map[]),
     AEnrol(0, 0, 0, true),
     AReceive(url, [0])]
  }

  const TWO_STEPS := EMPTY.(
    leads := map[0 := LeadRow(0, true, true)],
    sequences := [SequenceRow(0, 0, "t", true)],
    steps := [StepRow(0, 0, 0, EmailStep), StepRow(1, 0, 1, SmsStep)])

  const ENROLLED := TWO_STEPS.(enrollments := map[0 := Enrollment(0, 0, 0, Active, 0)])

  lemma CutOffStates(urls: Urls)
    requires Configured(urls, SEQUENCE_JOBS)
    ensures var run, w0 := CutOffRun(urls[SEQUENCE_JOBS]), Init(urls, EMPTY, 0);
      && Next(w0, run[0]) == Init(urls, TWO_STEPS, 0)
      && Next(Init(urls, TWO_STEPS, 0), run[1]) ==
           Publish(Init(urls, ENROLLED, 1), StepToken(0, 0))
  {
    var run, w0 := CutOffRun(urls[SEQUENCE_JOBS]), Init(urls, EMPTY, 0);
    assert Next(w0, run[0]).db.enrollments == map[];
    assert HasSequence(TWO_STEPS, 0, 0) by { assert TWO_STEPS.sequences[0].id == 0; }
    assert TWO_STEPS.enrollments[0 := Enrollment(0, 0, 0, Active, 0)] == ENROLLED.enrollments;
  }

  lemma CutOffReached(urls: Urls)
    requires Configured(urls, SEQUENCE_JOBS)
    ensures var w := Run(Init(urls, EMPTY, 0), CutOffRun(urls[SEQUENCE_JOBS]));
      && w.db == ENROLLED && w.phase.Idle?
      && w.batch == [Received(0, urls[SEQUENCE_JOBS], StepToken(0, 0).payload, 1)]
    ensures OrderlyRun(Init(urls, EMPTY, 0), CutOffRun(urls[SEQUENCE_JOBS]))
  {
    var w, run := Init(urls, EMPTY, 0), CutOffRun(urls[SEQUENCE_JOBS]);
    var w2 := Publish(Init(urls, ENROLLED, 1), StepToken(0, 0));
    CutOffStates(urls);
    RunOneAction(w, run[0]);
    RunExtend(w, [run[0]], run[1]);
    RunExtend(w, [run[0], run[1]], run[2]);
    assert run[..0] == [] && run[..1] == [run[0]] && run[..2] == [run[0]] + [run[1]] == [run[0], run[1]];
    assert run == [run[0], run[1]] + [run[2]];
    assert Receivable(w2, urls[SEQUENCE_JOBS], [0]);
  }

  lemma TwoStepsLeft()
    ensures StepActs(ENROLLED, StepToken(0, 0).payload)
    ensures Calls(StepPlan(ENROLLED, StepToken(0, 0).payload, 0)) == 2
  {
    assert ENROLLED.sequences[0].id == 0;
    var rows := StepsOf(ENROLLED.steps, 0);
    assert ENROLLED.steps[1..] == [ENROLLED.steps[1]] && ENROLLED.steps[1..][1..] == [];
    assert |rows| == 2;
    OrderedStepsListsTheRows(ENROLLED.steps, 0);
    assert |OrderedSteps(ENROLLED.steps, 0)| == |multiset(OrderedSteps(ENROLLED.steps, 0))| == |multiset(rows)|;
  }

  /** A handler with a successor to publish stops after that publish. */
  lemma PublishedNotCommitted(w: World, p: Payload, day: int)
    requires Conserved(w) && w.phase.Idle? && w.batch != [] && w.batch[0].payload == p && p.event.SequenceStep?
    requires StepActs(w.db, p) && Calls(StepPlan(w.db, p, day)) == 2
    ensures !Conserved(Next(w, ARun(1, day)))
  {
    assert PlanOf(w, day) == StepPlan(w.db, p, day);
    CutStepUnbalances(w, 1, day);
  }

  /** After that run the first step is executed; the handler publishes the second step's
      job and stops before its commit. The enrolment has two step jobs from then on. */
  lemma CutOffHandlerUnbalances(urls: Urls)
    requires Configured(urls, SEQUENCE_JOBS)
    ensures var run := CutOffRun(urls[SEQUENCE_JOBS]);
      && OrderlyRun(Init(urls, EMPTY, 0), run)
      && Conserved(Run(Init(urls, EMPTY, 0), run)) && !Conserved(Next(Run(Init(urls, EMPTY, 0), run), ARun(1, 0)))
  {
    CutOffReached(urls);
    ConservedAlways(urls, CutOffRun(urls[SEQUENCE_JOBS]));
    TwoStepsLeft();
    PublishedNotCommitted(Run(Init(urls, EMPTY, 0), CutOffRun(urls[SEQUENCE_JOBS])), StepToken(0, 0).payload, 0);
  }

  /** In every orderly run from an empty system, an active enrolment whose sequence
      and lead exist has exactly one pending step job; a completed one has none. */
  lemma OneStepJobPerActiveEnrolment(urls: Urls, actions: seq<Action>, i: Id)
    requires Configured(urls, SEQUENCE_JOBS) && OrderlyRun(Init(urls, EMPTY, 0), actions)
    requires var db := Run(Init(urls, EMPTY, 0), actions).db; i in db.enrollments && Visible(db, db.enrollments[i])
    ensures var w := Run(Init(urls, EMPTY, 0), actions);
      if w.db.enrollments[i].status.Active? then OneToken(w, i) else NoToken(w, i)
  {
    ConservedAlways(urls, actions);
    assert Driven(Run(Init(urls, EMPTY, 0), actions), i);
  }
}
