/** What each handler reads, changes and publishes, said of the tables and of the fields of
    the jobs. */
module Handlers {
  import opened Jobs
  import opened Database
  import Usage
  import Progress
  import Worker

  // ---------- the trigger handler ----------

  /** An active sequence that the tenant runs on the trigger. */
  predicate RunsOn(s: SequenceRow, tenant: Id, trigger: string) {
    s.tenant == tenant && s.trigger == trigger && s.active
  }

  /** `at` says where each listed row stands in the table. */
  ghost predicate Stands(rows: seq<SequenceRow>, listed: seq<SequenceRow>, at: seq<nat>) {
    |at| == |listed| && forall i :: 0 <= i < |at| ==> at[i] < |rows| && listed[i] == rows[at[i]]
  }

  ghost predicate Increasing(at: seq<nat>) {
    forall i, j :: 0 <= i < j < |at| ==> at[i] < at[j]
  }

  /** `listed` holds exactly the rows that run on the trigger, each as often as it is there
      and in the order of the table. */
  ghost predicate Lists(rows: seq<SequenceRow>, tenant: Id, trigger: string, listed: seq<SequenceRow>, at: seq<nat>) {
    && Stands(rows, listed, at) && Increasing(at)
    && (forall i :: 0 <= i < |listed| ==> RunsOn(listed[i], tenant, trigger))
    && (forall k :: 0 <= k < |rows| && RunsOn(rows[k], tenant, trigger) ==> k in at)
  }

  /** Positions in a list, seen from one row further up. */
  function Shifted(at: seq<nat>): (r: seq<nat>)
    ensures |r| == |at| && forall i :: 0 <= i < |at| ==> r[i] == at[i] + 1
  {
    seq(|at|, i requires 0 <= i < |at| => at[i] + 1)
  }

  lemma ShiftedMember(at: seq<nat>, k: nat)
    requires k > 0 && k - 1 in at
    ensures k in Shifted(at)
  {
    var i :| 0 <= i < |at| && at[i] == k - 1;
    assert Shifted(at)[i] == k;
  }

  lemma ListsWithoutFirst(rows: seq<SequenceRow>, tenant: Id, trigger: string, listed: seq<SequenceRow>, at: seq<nat>)
    requires rows != [] && !RunsOn(rows[0], tenant, trigger) && Lists(rows[1..], tenant, trigger, listed, at)
    ensures Lists(rows, tenant, trigger, listed, Shifted(at))
  {
    forall k | 0 <= k < |rows| && RunsOn(rows[k], tenant, trigger) ensures k in Shifted(at) {
      assert rows[1..][k - 1] == rows[k];
      ShiftedMember(at, k);
    }
  }

  lemma StandsWithFirst(rows: seq<SequenceRow>, listed: seq<SequenceRow>, at: seq<nat>)
    requires rows != [] && Stands(rows[1..], listed, at) && Increasing(at)
    ensures Stands(rows, [rows[0]] + listed, [0] + Shifted(at)) && Increasing([0] + Shifted(at))
  {
    var listed', at' := [rows[0]] + listed, [0] + Shifted(at);
    forall i | 0 <= i < |at'| ensures at'[i] < |rows| && listed'[i] == rows[at'[i]] {
      if i > 0 { assert listed[i - 1] == rows[1..][at[i - 1]]; }
    }
    forall i, j | 0 <= i < j < |at'| ensures at'[i] < at'[j] {
      if i > 0 { assert at[i - 1] < at[j - 1]; }
    }
  }

  lemma ListsWithFirst(rows: seq<SequenceRow>, tenant: Id, trigger: string, listed: seq<SequenceRow>, at: seq<nat>)
    requires rows != [] && RunsOn(rows[0], tenant, trigger) && Lists(rows[1..], tenant, trigger, listed, at)
    ensures Lists(rows, tenant, trigger, [rows[0]] + listed, [0] + Shifted(at))
  {
    StandsWithFirst(rows, listed, at);
    forall k | 0 <= k < |rows| && RunsOn(rows[k], tenant, trigger) ensures k in [0] + Shifted(at) {
      if k > 0 {
        assert rows[1..][k - 1] == rows[k];
        ShiftedMember(at, k);
      }
    }
  }

  lemma {:induction false} ActiveForLists(rows: seq<SequenceRow>, tenant: Id, trigger: string) returns (at: seq<nat>)
    ensures Lists(rows, tenant, trigger, ActiveFor(rows, tenant, trigger), at)
  {
    if rows == [] {
      at := [];
    } else {
      var rest := ActiveForLists(rows[1..], tenant, trigger);
      if RunsOn(rows[0], tenant, trigger) {
        ListsWithFirst(rows, tenant, trigger, ActiveFor(rows[1..], tenant, trigger), rest);
        at := [0] + Shifted(rest);
      } else {
        ListsWithoutFirst(rows, tenant, trigger, ActiveFor(rows[1..], tenant, trigger), rest);
        at := Shifted(rest);
        assert [] + ActiveFor(rows[1..], tenant, trigger) == ActiveFor(rows[1..], tenant, trigger);
      }
    }
  }

  /** The identifier is the primary key of the table. */
  ghost predicate UniqueSequences(rows: seq<SequenceRow>) {
    forall i, j :: 0 <= i < j < |rows| ==> rows[i].id != rows[j].id
  }

  /** The payload names a tenant, a lead and a trigger that is not blank. */
  predicate NamesTrigger(p: Payload) {
    p.tenant.Some? && p.lead.Some? && p.trigger.Some? && p.trigger.value != ""
  }

  /** A fresh enrolment of the payload's lead in a sequence that runs on the trigger. */
  ghost predicate EnrolsInActive(db: Db, p: Payload, e: Enrollment)
    requires NamesTrigger(p)
  {
    && e.tenant == p.tenant.value && e.lead == p.lead.value && e.status.Active? && e.index == 0
    && exists k :: 0 <= k < |db.sequences| && db.sequences[k].id == e.sequence
                   && RunsOn(db.sequences[k], p.tenant.value, p.trigger.value)
  }

  ghost predicate IsNew(db: Db, db': Db, i: Id) {
    i in db'.enrollments && i !in db.enrollments
  }

  /** One new enrolment for each active sequence that the tenant runs on the trigger, and
      none for any other. */
  ghost predicate OnePerActive(db: Db, db': Db, p: Payload)
    requires NamesTrigger(p)
  {
    && (forall i: Id :: IsNew(db, db', i) ==> EnrolsInActive(db, p, db'.enrollments[i]))
    && (forall i: Id, j: Id :: IsNew(db, db', i) && IsNew(db, db', j) && i != j ==>
          db'.enrollments[i].sequence != db'.enrollments[j].sequence)
    && (forall k :: 0 <= k < |db.sequences| && RunsOn(db.sequences[k], p.tenant.value, p.trigger.value) ==>
          exists i: Id :: IsNew(db, db', i) && db'.enrollments[i].sequence == db.sequences[k].id)
  }

  /** When nothing stops it, the handler enrols the lead exactly once in each of those
      sequences and changes nothing else. It does nothing for an incomplete payload, and the
      database rejects an enrolment of a lead that is gone. */
  lemma TriggerEnrolsExactly(db: Db, nextId: Id, p: Payload)
    requires UniqueSequences(db.sequences) && Progress.Numbered(db, nextId)
    ensures var plan := TriggerPlan(db, nextId, p);
      && (plan.commit.Some? <==> NamesTrigger(p) && !plan.raises)
      && (plan.raises <==>
            && NamesTrigger(p) && p.lead.value !in db.leads
            && exists s :: s in db.sequences && RunsOn(s, p.tenant.value, p.trigger.value))
    ensures TriggerPlan(db, nextId, p).commit.Some? ==>
      var db' := TriggerPlan(db, nextId, p).commit.value;
      && db' == db.(enrollments := db'.enrollments)
      && (forall i :: i in db.enrollments ==> i in db'.enrollments && db'.enrollments[i] == db.enrollments[i])
      && OnePerActive(db, db', p)
  {
    if NamesTrigger(p) {
      var at := ActiveForLists(db.sequences, p.tenant.value, p.trigger.value);
      ListedWhenSomeRun(db.sequences, p.tenant.value, p.trigger.value, at);
      if TriggerPlan(db, nextId, p).commit.Some? { NewOnePerActive(db, nextId, p, at); }
    }
  }

  lemma ListedWhenSomeRun(rows: seq<SequenceRow>, tenant: Id, trigger: string, at: seq<nat>)
    requires Lists(rows, tenant, trigger, ActiveFor(rows, tenant, trigger), at)
    ensures ActiveFor(rows, tenant, trigger) != [] <==> exists s :: s in rows && RunsOn(s, tenant, trigger)
  {
    if at != [] { assert ActiveFor(rows, tenant, trigger)[0] == rows[at[0]]; }
    forall s | s in rows && RunsOn(s, tenant, trigger) ensures at != [] {
      var k :| 0 <= k < |rows| && rows[k] == s;
      assert k in at;
    }
  }

  /** What the plan adds, in the order of the list. */
  ghost predicate Adds(db: Db, nextId: Id, p: Payload, db': Db, at: seq<nat>)
    requires NamesTrigger(p)
  {
    && (forall i: Id :: IsNew(db, db', i) <==> nextId <= i < nextId + |at|)
    && forall k :: 0 <= k < |at| ==>
         at[k] < |db.sequences| && nextId + k in db'.enrollments
         && db'.enrollments[nextId + k] ==
              Enrollment(p.tenant.value, p.lead.value, db.sequences[at[k]].id, Active, 0)
  }

  /** One enrolment for each listed row, named from `nextId` on. */
  ghost predicate RowsAdded(rows: seq<SequenceRow>, tenant: Id, lead: Id, nextId: Id, added: map<Id, Enrollment>,
                            at: seq<nat>)
  {
    && (forall i: Id :: i in added <==> nextId <= i < nextId + |at|)
    && forall k :: 0 <= k < |at| ==>
         at[k] < |rows| && nextId + k in added
         && added[nextId + k] == Enrollment(tenant, lead, rows[at[k]].id, Active, 0)
  }

  lemma AddedRows(rows: seq<SequenceRow>, tenant: Id, lead: Id, listed: seq<SequenceRow>, nextId: Id, at: seq<nat>)
    requires Stands(rows, listed, at)
    ensures RowsAdded(rows, tenant, lead, nextId, NewEnrollments(tenant, lead, listed, nextId), at)
  {
    var added := NewEnrollments(tenant, lead, listed, nextId);
    forall k | 0 <= k < |at|
      ensures at[k] < |rows| && added[nextId + k] == Enrollment(tenant, lead, rows[at[k]].id, Active, 0)
    {
      assert listed[k] == rows[at[k]] && nextId + k in added;
    }
  }

  lemma PlanAdds(db: Db, nextId: Id, p: Payload, at: seq<nat>)
    requires Progress.Numbered(db, nextId) && NamesTrigger(p) && TriggerPlan(db, nextId, p).commit.Some?
    requires Stands(db.sequences, ActiveFor(db.sequences, p.tenant.value, p.trigger.value), at)
    ensures Adds(db, nextId, p, TriggerPlan(db, nextId, p).commit.value, at)
  {
    var listed := ActiveFor(db.sequences, p.tenant.value, p.trigger.value);
    AddedRows(db.sequences, p.tenant.value, p.lead.value, listed, nextId, at);
    UnionAdds(db, nextId, p, TriggerPlan(db, nextId, p).commit.value,
              NewEnrollments(p.tenant.value, p.lead.value, listed, nextId), at);
  }

  lemma UnionAdds(db: Db, nextId: Id, p: Payload, db': Db, added: map<Id, Enrollment>, at: seq<nat>)
    requires Progress.Numbered(db, nextId) && NamesTrigger(p) && db'.enrollments == db.enrollments + added
    requires RowsAdded(db.sequences, p.tenant.value, p.lead.value, nextId, added, at)
    ensures Adds(db, nextId, p, db', at)
  {
    forall k | 0 <= k < |at|
      ensures at[k] < |db.sequences| && nextId + k in db'.enrollments
      ensures db'.enrollments[nextId + k] == added[nextId + k]
    {
      assert nextId + k in added;
    }
    forall i: Id | true ensures IsNew(db, db', i) <==> nextId <= i < nextId + |at| {
      assert i in added <==> nextId <= i < nextId + |at|;
      assert i in db'.enrollments <==> i in db.enrollments || i in added;
    }
  }

  lemma AddedApart(db: Db, nextId: Id, p: Payload, db': Db, at: seq<nat>, i: Id, j: Id)
    requires UniqueSequences(db.sequences) && NamesTrigger(p) && Adds(db, nextId, p, db', at) && Increasing(at)
    requires IsNew(db, db', i) && IsNew(db, db', j) && i < j
    ensures db'.enrollments[i].sequence != db'.enrollments[j].sequence
  {
    var m, n := i - nextId, j - nextId;
    assert at[m] < at[n] && nextId + m == i && nextId + n == j;
  }

  lemma AddsOnePerActive(db: Db, nextId: Id, p: Payload, db': Db, listed: seq<SequenceRow>, at: seq<nat>)
    requires UniqueSequences(db.sequences) && NamesTrigger(p) && Adds(db, nextId, p, db', at)
    requires Lists(db.sequences, p.tenant.value, p.trigger.value, listed, at)
    ensures OnePerActive(db, db', p)
  {
    forall i: Id | IsNew(db, db', i) ensures EnrolsInActive(db, p, db'.enrollments[i]) {
      var k := i - nextId;
      assert at[k] < |db.sequences| && nextId + k == i;
      assert RunsOn(listed[k], p.tenant.value, p.trigger.value);
    }
    forall i: Id, j: Id | IsNew(db, db', i) && IsNew(db, db', j) && i != j
      ensures db'.enrollments[i].sequence != db'.enrollments[j].sequence
    {
      if i < j { AddedApart(db, nextId, p, db', at, i, j); } else { AddedApart(db, nextId, p, db', at, j, i); }
    }
    forall k | 0 <= k < |db.sequences| && RunsOn(db.sequences[k], p.tenant.value, p.trigger.value)
      ensures exists i: Id :: IsNew(db, db', i) && db'.enrollments[i].sequence == db.sequences[k].id
    {
      var n :| 0 <= n < |at| && at[n] == k;
      assert IsNew(db, db', nextId + n);
    }
  }

  lemma NewOnePerActive(db: Db, nextId: Id, p: Payload, at: seq<nat>)
    requires UniqueSequences(db.sequences) && Progress.Numbered(db, nextId)
    requires NamesTrigger(p) && TriggerPlan(db, nextId, p).commit.Some?
    requires Lists(db.sequences, p.tenant.value, p.trigger.value,
                   ActiveFor(db.sequences, p.tenant.value, p.trigger.value), at)
    ensures OnePerActive(db, TriggerPlan(db, nextId, p).commit.value, p)
  {
    PlanAdds(db, nextId, p, at);
    AddsOnePerActive(db, nextId, p, TriggerPlan(db, nextId, p).commit.value,
                     ActiveFor(db.sequences, p.tenant.value, p.trigger.value), at);
  }

  /** The handler publishes the first step job of each new enrolment, in order, and no other
      job, and it does so before its commit. */
  lemma TriggerPublishesFirstSteps(db: Db, nextId: Id, p: Payload)
    requires Progress.Numbered(db, nextId) && TriggerPlan(db, nextId, p).commit.Some?
    ensures var plan := TriggerPlan(db, nextId, p);
      && plan.after == []
      && (forall i: Id :: IsNew(db, plan.commit.value, i) <==> nextId <= i < nextId + |plan.before|)
      && (forall k :: 0 <= k < |plan.before| ==> IsStepJob(plan.before[k], p.tenant.value, nextId + k))
  {
    var plan := TriggerPlan(db, nextId, p);
    var added := NewEnrollments(p.tenant.value, p.lead.value,
                                ActiveFor(db.sequences, p.tenant.value, p.trigger.value), nextId);
    forall i: Id | true ensures IsNew(db, plan.commit.value, i) <==> nextId <= i < nextId + |plan.before| {
      assert i in plan.commit.value.enrollments <==> i in db.enrollments || i in added;
    }
  }

  /** A job that asks for the next step of an enrolment. */
  predicate IsStepJob(job: Job, tenant: Id, enrollment: Id) {
    && job.queueName == "sequence_jobs" && job.payload.event.SequenceStep?
    && job.payload.tenant == Some(tenant) && job.payload.enrollment == Some(enrollment)
  }

  // ---------- the step handler ----------

  /** The enrolment that a step job is for: the tenant's, active, of a lead and a sequence
      that the tenant still has. */
  ghost predicate Due(db: Db, p: Payload) {
    && p.tenant.Some? && p.enrollment.Some? && p.enrollment.value in db.enrollments
    && var e := db.enrollments[p.enrollment.value];
    && e.tenant == p.tenant.value && e.status == Active
    && e.lead in db.leads && db.leads[e.lead].tenant == e.tenant
    && exists s :: s in db.sequences && s.id == e.sequence && s.tenant == e.tenant
  }

  /** The handler acts exactly when the enrolment is due. It moves that enrolment and no
      other; while steps are left it executes the one the index names, publishes a job for
      the next one or completes the enrolment, and counts what went out; past the last step
      it completes the enrolment and does nothing else. */
  lemma StepHandlerMoves(db: Db, p: Payload, day: int)
    ensures StepPlan(db, p, day).commit.Some? <==> Due(db, p)
    ensures Due(db, p) ==>
      var plan, id := StepPlan(db, p, day), p.enrollment.value;
      var db', e := plan.commit.value, db.enrollments[id];
      var steps := OrderedSteps(db.steps, e.sequence);
      var done := e.index + 1 >= |steps|;
      && plan.after == []
      && db' == db.(enrollments := db'.enrollments, usage := db'.usage, log := db'.log)
      && db'.enrollments == db.enrollments[id := db'.enrollments[id]]
      && db'.enrollments[id] ==
           Enrollment(e.tenant, e.lead, e.sequence, if done then Completed else Active,
                      if e.index < |steps| then e.index + 1 else e.index)
      && (if done then plan.before == [] else |plan.before| == 1 && IsStepJob(plan.before[0], e.tenant, id))
      && db'.log == db.log +
           (if e.index < |steps| then [Executed(e.tenant, id, steps[e.index], db.leads[e.lead])] else [])
      && db'.usage ==
           (if e.index < |steps| && steps[e.index].kind == EmailStep && db.leads[e.lead].hasEmail
            then Usage.Increment(db.usage, e.tenant, day, Usage.Counters(0, 0, 1, 0, 0, 0))
            else if e.index < |steps| && steps[e.index].kind == SmsStep && db.leads[e.lead].hasPhone
            then Usage.Increment(db.usage, e.tenant, day, Usage.Counters(0, 0, 0, 1, 0, 0))
            else db.usage)
  {
    if Due(db, p) { assert StepActs(db, p); }
  }

  // ---------- the analysis handler ----------

  /** The tenant's message in that session. */
  predicate HasMessage(db: Db, p: Payload) {
    && p.tenant.Some? && p.session.Some? && p.message.Some? && p.message.value in db.messages
    && db.messages[p.message.value].tenant == p.tenant.value && db.messages[p.message.value].session == p.session.value
  }

  /** The handler acts exactly on a message of the tenant in the session it names. It records
      the analysis and its tokens, and after its commit announces the new score of the
      session's lead, when the tenant has that session and it has a lead. */
  lemma MessageHandlerAnnounces(db: Db, p: Payload, day: int)
    ensures MessagePlan(db, p, day).commit.Some? <==> HasMessage(db, p)
    ensures HasMessage(db, p) ==>
      var plan, m := MessagePlan(db, p, day), db.messages[p.message.value];
      var db' := plan.commit.value;
      var known := p.session.value in db.sessions && db.sessions[p.session.value].tenant == m.tenant;
      && plan.before == []
      && db' == db.(usage := Usage.Increment(db.usage, m.tenant, day, Usage.Counters(m.tokens, 1, 0, 0, 0, 0)),
                    analyses := db.analyses + [Analyzed(m.tenant, m.tokens)])
      && (if known && db.sessions[p.session.value].lead.Some?
          then Announces(plan.after, LeadScoreUpdated, IntegrationScoreUpdated, "score_updated",
                         m.tenant, db.sessions[p.session.value].lead.value)
          else plan.after == [])
  {
    if HasMessage(db, p) { assert MessageFound(db, p); }
  }

  /** Routing and integration handlers act exactly on a lead that the tenant has, and
      publish nothing. */
  lemma LeadHandlersPublishNothing(db: Db, p: Payload)
    ensures LeadPlan(db, p).commit.Some? <==>
      p.tenant.Some? && p.lead.Some? && p.lead.value in db.leads && db.leads[p.lead.value].tenant == p.tenant.value
    ensures LeadPlan(db, p).before == [] && LeadPlan(db, p).after == []
  {
  }

  // ---------- tenants ----------

  /** Usage rows, enrolments and history of the tenant are as they were. */
  ghost predicate TenantUntouched(db: Db, db': Db, t: Id) {
    && (forall r: Usage.UsageRow :: r.tenant == t ==> (r in db'.usage <==> r in db.usage))
    && (forall i :: i in db.enrollments && db.enrollments[i].tenant == t ==>
          i in db'.enrollments && db'.enrollments[i] == db.enrollments[i])
    && (forall i :: i in db'.enrollments && db'.enrollments[i].tenant == t ==> i in db.enrollments)
    && db.log <= db'.log && (forall k :: |db.log| <= k < |db'.log| ==> db'.log[k].tenant != t)
    && db.analyses <= db'.analyses && (forall k :: |db.analyses| <= k < |db'.analyses| ==> db'.analyses[k].tenant != t)
  }

  lemma JobsOfOneTenant(db: Db, nextId: Id, p: Payload, day: int)
    ensures var plan := PlanFor(db, nextId, p, day);
      forall job :: job in plan.before + plan.after ==> job.payload.tenant == p.tenant
  {
    if p.event.SequenceStep? && StepActs(db, p) { StepHandlerMoves(db, p, day); }
  }

  /** A handler only touches the tenant its payload names, and only publishes jobs of that
      tenant; leads, sequences, steps, sessions and messages it does not write at all. */
  lemma HandlersTouchOneTenant(db: Db, nextId: Id, p: Payload, day: int, t: Id)
    requires Progress.Numbered(db, nextId) && Usage.OneRowPerDay(db.usage) && p.tenant != Some(t)
    ensures var plan := PlanFor(db, nextId, p, day);
      && (forall job :: job in plan.before + plan.after ==> job.payload.tenant == p.tenant)
      && (plan.commit.Some? ==>
            && TenantUntouched(db, plan.commit.value, t)
            && plan.commit.value == db.(enrollments := plan.commit.value.enrollments, usage := plan.commit.value.usage,
                                        log := plan.commit.value.log, analyses := plan.commit.value.analyses))
  {
    JobsOfOneTenant(db, nextId, p, day);
    match p.event
    case MessageCreated => if MessageFound(db, p) { MessageTouches(db, p, day, t); }
    case SequenceStep => StepTouches(db, p, day, t);
    case SequenceTrigger => TriggerTouches(db, nextId, p, t);
    case _ =>
  }

  lemma MessageTouches(db: Db, p: Payload, day: int, t: Id)
    requires MessageFound(db, p) && Usage.OneRowPerDay(db.usage) && p.tenant != Some(t)
    ensures TenantUntouched(db, MessagePlan(db, p, day).commit.value, t)
  {
    var delta := Usage.NONE.(aiTokens := db.messages[p.message.value].tokens, messages := 1);
    var _ := Usage.IncrementRow(db.usage, p.tenant.value, day, delta);
  }

  lemma StepTouches(db: Db, p: Payload, day: int, t: Id)
    requires Usage.OneRowPerDay(db.usage) && p.tenant != Some(t)
    ensures StepPlan(db, p, day).commit.Some? ==> TenantUntouched(db, StepPlan(db, p, day).commit.value, t)
  {
    if StepActs(db, p) {
      var id := p.enrollment.value;
      var e := db.enrollments[id];
      var steps := OrderedSteps(db.steps, e.sequence);
      if e.index < |steps| {
        ExecuteTouches(db, id, steps[e.index], e.index + 1 >= |steps|, day, t);
      }
    }
  }

  lemma ExecuteTouches(db: Db, id: Id, step: StepRow, last: bool, day: int, t: Id)
    requires id in db.enrollments && db.enrollments[id].lead in db.leads && db.enrollments[id].tenant != t
    requires Usage.OneRowPerDay(db.usage)
    ensures TenantUntouched(db, ExecuteStep(db, id, step, last, day), t)
  {
    var e, db' := db.enrollments[id], ExecuteStep(db, id, step, last, day);
    var x := Executed(e.tenant, id, step, db.leads[e.lead]);
    UsageTouches(db, e.tenant, day, Deliver(step.kind, db.leads[e.lead]), t);
    assert db'.log == db.log + [x];
  }

  lemma UsageTouches(db: Db, tenant: Id, day: int, d: Delivery, t: Id)
    requires Usage.OneRowPerDay(db.usage) && tenant != t
    ensures var usage := Usage.Increment(db.usage, tenant, day, DeliveryCounters(d));
      forall r: Usage.UsageRow :: r.tenant == t ==> (r in usage <==> r in db.usage)
  {
    var _ := Usage.IncrementRow(db.usage, tenant, day, DeliveryCounters(d));
  }

  lemma TriggerTouches(db: Db, nextId: Id, p: Payload, t: Id)
    requires Progress.Numbered(db, nextId) && p.tenant != Some(t)
    ensures TriggerPlan(db, nextId, p).commit.Some? ==> TenantUntouched(db, TriggerPlan(db, nextId, p).commit.value, t)
  {
    if TriggerPlan(db, nextId, p).commit.Some? {
      var listed := ActiveFor(db.sequences, p.tenant.value, p.trigger.value);
      var db' := TriggerPlan(db, nextId, p).commit.value;
      assert db'.enrollments == db.enrollments + NewEnrollments(p.tenant.value, p.lead.value, listed, nextId);
    }
  }

  // ---------- references ----------

  /** Every enrolment is of a lead and a sequence that are there. */
  ghost predicate Refers(db: Db) {
    forall i :: i in db.enrollments ==>
      db.enrollments[i].lead in db.leads && exists s :: s in db.sequences && s.id == db.enrollments[i].sequence
  }

  lemma TriggerRefers(db: Db, nextId: Id, p: Payload)
    requires Refers(db)
    ensures TriggerPlan(db, nextId, p).commit.Some? ==> Refers(TriggerPlan(db, nextId, p).commit.value)
  {
    if TriggerPlan(db, nextId, p).commit.Some? {
      var listed := ActiveFor(db.sequences, p.tenant.value, p.trigger.value);
      var db' := TriggerPlan(db, nextId, p).commit.value;
      forall i | i in db'.enrollments && !(i in db.enrollments && db'.enrollments[i] == db.enrollments[i])
        ensures db'.enrollments[i].lead in db.leads
        ensures exists s :: s in db.sequences && s.id == db'.enrollments[i].sequence
      {
        assert listed[i - nextId] in listed;
      }
    }
  }

  lemma StepRefersTo(db: Db, p: Payload, day: int)
    requires Refers(db)
    ensures StepPlan(db, p, day).commit.Some? ==> Refers(StepPlan(db, p, day).commit.value)
  {
    if StepActs(db, p) {
      var db' := StepPlan(db, p, day).commit.value;
      var id := p.enrollment.value;
      assert db'.enrollments == db.enrollments[id := db'.enrollments[id]];
    }
  }

  lemma PlansRefer(db: Db, nextId: Id, p: Payload, day: int)
    requires Refers(db)
    ensures PlanFor(db, nextId, p, day).commit.Some? ==> Refers(PlanFor(db, nextId, p, day).commit.value)
  {
    if p.event.SequenceTrigger? { TriggerRefers(db, nextId, p); }
    if p.event.SequenceStep? { StepRefersTo(db, p, day); }
  }

  /** In every run that starts so every enrolment is of a lead and a sequence that are
      there: a deletion takes the enrolments with it, and a trigger or a request that finds
      no lead or no sequence enrols nothing. */
  lemma {:induction false} ReferencesHold(w: Worker.World, actions: seq<Worker.Action>)
    requires Refers(w.db)
    ensures Refers(Worker.Run(w, actions).db)
  {
    if actions != [] {
      var n := |actions| - 1;
      ReferencesHold(w, actions[..n]);
      StepRefers(Worker.Run(w, actions[..n]), actions[n]);
    }
  }

  lemma StepRefers(w: Worker.World, a: Worker.Action)
    requires Refers(w.db)
    ensures Refers(Worker.Next(w, a).db)
  {
    if a.ARun? && w.batch != [] && w.phase.Idle? {
      var p := w.batch[0].payload;
      PlansRefer(w.db, w.nextId, p, a.day);
      Worker.ExecQueues(w, PlanFor(w.db, w.nextId, p, a.day), a.budget);
    }
  }

  /** A write of the tables takes away exactly the enrolments of leads and sequences that
      are gone, and leaves the others, the usage and the history as they are. */
  lemma DeletionCascades(w: Worker.World, a: Worker.Action)
    requires a.AAdmin?
    ensures var db := Worker.Next(w, a).db;
      && (forall i :: i in db.enrollments <==>
            && i in w.db.enrollments && w.db.enrollments[i].lead in a.leads
            && exists s :: s in a.sequences && s.id == w.db.enrollments[i].sequence)
      && (forall i :: i in db.enrollments ==> db.enrollments[i] == w.db.enrollments[i])
      && db == Db(a.leads, a.sequences, a.steps, db.enrollments, a.sessions, a.messages,
                  w.db.usage, w.db.log, w.db.analyses)
  {
  }
}
