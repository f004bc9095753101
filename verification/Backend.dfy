/** The worker and the API calls that feed it, as they change the queues and tables
    step by step. Each method is one run of the transition system of `Worker`.

    A call that can fail takes its fate as a parameter: `budget` calls of a handler
    succeed, and a `Fate` says what becomes of the calls around it. */
module Backend {
  import opened Jobs
  import opened Database
  import opened Worker
  import opened Polls
  import Custody
  import Usage

  lemma {:induction false} PublishAllAppend(w: World, jobs: seq<Job>, job: Job)
    ensures PublishAll(w, jobs + [job]) == Publish(PublishAll(w, jobs), job)
    decreases jobs
  {
    if jobs == [] {
      assert ([job])[1..] == [];
    } else {
      assert (jobs + [job])[1..] == jobs[1..] + [job];
      PublishAllAppend(Publish(w, jobs[0]), jobs[1..], job);
    }
  }

  /** One turn of the enrolment loop. */
  lemma OneMoreEnrollment(w: World, tenant: Id, lead: Id, active: seq<SequenceRow>, first: Id, i: nat)
    requires i < |active|
    ensures NewEnrollments(tenant, lead, active[..i + 1], first) ==
      NewEnrollments(tenant, lead, active[..i], first)[first + i := Enrollment(tenant, lead, active[i].id, Active, 0)]
    ensures PublishAll(w, Tokens(tenant, first, i + 1)) ==
      Publish(PublishAll(w, Tokens(tenant, first, i)), StepToken(tenant, first + i))
  {
    assert active[..i + 1][..i] == active[..i];
    PublishAllAppend(w, Tokens(tenant, first, i), StepToken(tenant, first + i));
    assert Tokens(tenant, first, i + 1) == Tokens(tenant, first, i) + [StepToken(tenant, first + i)];
  }

  /** The enrolment loop and its commit, up to the calls they are granted. */
  function EnrolledUpTo(w: World, tenant: Id, lead: Id, active: seq<SequenceRow>, budget: nat): World {
    var sent := PublishAll(w.(nextId := w.nextId + |active|), Tokens(tenant, w.nextId, Min(budget, |active|)));
    if budget <= |active| then sent
    else sent.(db := w.db.(enrollments := w.db.enrollments + NewEnrollments(tenant, lead, active, w.nextId)))
  }

  /** They are what the trigger's plan says. */
  lemma ExecTrigger(w: World, p: Payload, budget: nat)
    requires TriggerComplete(p) && !TriggerPlan(w.db, w.nextId, p).raises
    ensures var plan := TriggerPlan(w.db, w.nextId, p);
      var active := ActiveFor(w.db.sequences, p.tenant.value, p.trigger.value);
      Exec(w, plan, budget) == EnrolledUpTo(w, p.tenant.value, p.lead.value, active, budget)
  {
    var plan := TriggerPlan(w.db, w.nextId, p);
    var n := |ActiveFor(w.db.sequences, p.tenant.value, p.trigger.value)|;
    ExecToCommit(w, plan, budget);
    assert plan.before[..Min(budget, n)] == Tokens(p.tenant.value, w.nextId, Min(budget, n));
    assert budget > n ==> plan.before[..n] == plan.before;
  }

  class Service {
    const urls: Urls
    var db: Db
    var nextId: Id
    var accepted: seq<Job>
    var queue: map<nat, Message>
    var failedJobs: seq<FailedRow>
    ghost var batch: seq<Received>
    ghost var phase: Phase
    ghost var handled: set<nat>
    ghost var attempts: multiset<nat>

    constructor (urls: Urls)
      ensures Snapshot() == Init(urls, EMPTY, 0)
    {
      this.urls := urls;
      db, nextId, accepted, queue, failedJobs := EMPTY, 0, [], map[], [];
      batch, phase, handled, attempts := [], Idle, {}, multiset{};
    }

    ghost function Snapshot(): World
      reads this
    {
      World(urls, db, nextId, accepted, queue, failedJobs, batch, phase, handled, attempts)
    }

    method PublishJob(job: Job) returns (sent: bool)
      modifies this
      ensures Snapshot() == Publish(old(Snapshot()), job)
      ensures sent <==> job.queueName in urls && urls[job.queueName] != ""
    {
      sent := Configured(urls, job.queueName);
      if sent {
        queue := queue[|accepted| := Message(urls[job.queueName], job.payload, 0)];
        accepted := accepted + [job];
      }
    }

    /** The loop over the active sequences: a row is added to the session, then its
        first step job is published. Stops after `budget` publishes. */
    method EnrolInEach(tenant: Id, lead: Id, active: seq<SequenceRow>, first: Id, budget: nat)
      returns (added: map<Id, Enrollment>, done: bool)
      modifies this
      ensures Snapshot() == PublishAll(old(Snapshot()), Tokens(tenant, first, Min(budget, |active|)))
      ensures done == (|active| <= budget)
      ensures done ==> added == NewEnrollments(tenant, lead, active, first)
    {
      added := map[];
      var i := 0;
      ghost var start := Snapshot();
      assert Tokens(tenant, first, 0) == [];
      while i < |active|
        invariant 0 <= i <= |active| && i <= budget
        invariant added == NewEnrollments(tenant, lead, active[..i], first)
        invariant Snapshot() == PublishAll(start, Tokens(tenant, first, i))
      {
        if i == budget {
          return added, false;
        }
        OneMoreEnrollment(start, tenant, lead, active, first, i);
        added := added[first + i := Enrollment(tenant, lead, active[i].id, Active, 0)];
        var _ := PublishJob(StepToken(tenant, first + i));
        i := i + 1;
      }
      assert active[..i] == active;
      done := true;
    }

    /** Enrols the lead in every active sequence of the trigger; one commit at the end. */
    method ProcessSequenceTriggerEvent(p: Payload, budget: nat) returns (ok: bool)
      modifies this
      ensures var plan := TriggerPlan(old(db), old(nextId), p);
        Snapshot() == Exec(old(Snapshot()), plan, budget) && ok == Returns(plan, budget)
    {
      if !TriggerComplete(p) {
        return budget > 0;
      }
      var tenant, lead := p.tenant.value, p.lead.value;
      var active := ActiveFor(db.sequences, tenant, p.trigger.value);
      if active != [] && lead !in db.leads {
        return false;
      }
      ExecTrigger(Snapshot(), p, budget);
      ok := EnrolAndCommit(tenant, lead, active, budget);
    }

    /** Draws the identifiers, enrols, and commits if every publish succeeded. */
    method EnrolAndCommit(tenant: Id, lead: Id, active: seq<SequenceRow>, budget: nat) returns (ok: bool)
      modifies this
      ensures Snapshot() == EnrolledUpTo(old(Snapshot()), tenant, lead, active, budget) && ok == (budget > |active| + 1)
    {
      var first := nextId;
      nextId := nextId + |active|;
      PublishAllQueues(Snapshot(), Tokens(tenant, first, Min(budget, |active|)));
      var added, done := EnrolInEach(tenant, lead, active, first, budget);
      if !done || budget == |active| {
        return false;
      }
      db := db.(enrollments := db.enrollments + added);
      return budget > |active| + 1;
    }

    /** Executes the enrolment's current step, publishes the next one, commits. */
    method ProcessSequenceStepEvent(p: Payload, budget: nat, day: int) returns (ok: bool)
      modifies this
      ensures var plan := StepPlan(old(db), p, day);
        Snapshot() == Exec(old(Snapshot()), plan, budget) && ok == Returns(plan, budget)
    {
      if !StepActs(db, p) {
        return budget > 0;
      }
      ghost var plan := StepPlan(db, p, day);
      ExecToCommit(Snapshot(), plan, budget);
      if budget == 0 {
        assert plan.before[..0] == [];
        return false;
      }
      var id := p.enrollment.value;
      var e := db.enrollments[id];
      var steps := OrderedSteps(db.steps, e.sequence);
      if e.index >= |steps| {
        db := db.(enrollments := db.enrollments[id := e.(status := Completed)]);
        return budget > 1;
      }
      var last := e.index + 1 >= |steps|;
      if !last {
        assert plan.before[..1] == plan.before && plan.before[1..] == [];
        assert PublishAll(Snapshot(), plan.before) == Publish(Snapshot(), StepToken(e.tenant, id));
        var _ := PublishJob(StepToken(e.tenant, id));
        if budget == 1 {
          return false;
        }
      }
      db := ExecuteStep(db, id, steps[e.index], last, day);
      return budget > if last then 1 else 2;
    }

    /** Stores the analysis and the usage, commits, then publishes three jobs when the
        session has a lead. */
    method ProcessMessageCreatedEvent(p: Payload, budget: nat, day: int) returns (ok: bool)
      modifies this
      ensures var plan := MessagePlan(old(db), p, day);
        Snapshot() == Exec(old(Snapshot()), plan, budget) && ok == Returns(plan, budget)
    {
      ghost var plan := MessagePlan(db, p, day);
      if !MessageFound(db, p) {
        return budget > 0;
      }
      assert plan.before[..0] == [];
      if budget == 0 {
        return false;
      }
      var lead := SessionLead(db, p);
      var delta := Usage.NONE.(aiTokens := db.messages[p.message.value].tokens, messages := 1);
      db := db.(usage := Usage.Increment(db.usage, p.tenant.value, day, delta),
                analyses := db.analyses + [Analyzed(p.tenant.value, delta.aiTokens)]);
      ghost var start := Snapshot();
      var jobs := if lead.Some? then FanOut(p.tenant.value, lead.value) else [];
      var i := 0;
      while i < |jobs|
        invariant 0 <= i <= |jobs| && i + 1 <= budget
        invariant Snapshot() == PublishAll(start, jobs[..i])
      {
        if i + 1 == budget {
          assert plan.after[..Min(budget - 1, |plan.after|)] == jobs[..i];
          return false;
        }
        assert jobs[..i + 1] == jobs[..i] + [jobs[i]];
        PublishAllAppend(start, jobs[..i], jobs[i]);
        var _ := PublishJob(jobs[i]);
        i := i + 1;
      }
      assert plan.after[..Min(budget - 1, |plan.after|)] == jobs[..i];
      return i + 1 < budget;
    }

    /** Routing and integration events: commits for a lead that exists. */
    method ProcessLeadEvent(p: Payload, budget: nat) returns (ok: bool)
      modifies this
      ensures var plan := LeadPlan(old(db), p);
        Snapshot() == Exec(old(Snapshot()), plan, budget) && ok == Returns(plan, budget)
    {
      if p.tenant.None? || p.lead.None? || !HasLead(db, p.tenant.value, p.lead.value) {
        return budget > 0;
      }
      ExecToCommit(Snapshot(), LeadPlan(db, p), budget);
      return budget > 1;
    }

    /** Calls the handler of the payload's event. */
    method HandleEvent(p: Payload, budget: nat, day: int) returns (ok: bool)
      requires !p.event.Other?
      modifies this
      ensures var plan := PlanFor(old(db), old(nextId), p, day);
        Snapshot() == Exec(old(Snapshot()), plan, budget) && ok == Returns(plan, budget)
    {
      if p.event.MessageCreated? {
        ok := ProcessMessageCreatedEvent(p, budget, day);
      } else if p.event.SequenceTrigger? {
        ok := ProcessSequenceTriggerEvent(p, budget);
      } else if p.event.SequenceStep? {
        ok := ProcessSequenceStepEvent(p, budget, day);
      } else {
        ok := ProcessLeadEvent(p, budget);
      }
    }

    method ReceiveMessages(url: string, ids: seq<nat>) returns (messages: seq<Received>)
      requires Receivable(Snapshot(), url, ids)
      modifies this
      ensures Snapshot() == Run(old(Snapshot()), [AReceive(url, ids)]) == Next(old(Snapshot()), AReceive(url, ids))
      ensures batch == messages && |messages| == |ids| && phase.Idle?
    {
      ghost var start := Snapshot();
      queue := Bump(queue, ids);
      messages := Take(queue, ids);
      batch := messages;
      RunOneAction(start, AReceive(url, ids));
    }

    /** Receives a batch of at most five messages from one queue and takes each to its
        end: handled and deleted, left for redelivery, or saved and deleted. Any call
        may fail; then the poll is over and the rest of the batch is redelivered. */
    method PollQueue(url: string, ids: seq<nat>, fates: seq<Fate>) returns (trace: seq<Action>)
      requires Receivable(Snapshot(), url, ids) && |fates| == |ids|
      modifies this
      ensures Snapshot() == Run(old(Snapshot()), trace)
      ensures trace == PollTrace(old(Snapshot()), Poll(url, ids, fates))
      ensures Snapshot() == AfterPoll(old(Snapshot()), Poll(url, ids, fates))
      ensures phase.Idle? && batch == []
      ensures Custody.Safe(old(Snapshot())) ==> Custody.Safe(Snapshot())
    {
      ghost var start := Snapshot();
      var messages := ReceiveMessages(url, ids);
      ghost var received := Snapshot();
      trace := [];
      var i, stopped := 0, false;
      while i < |messages| && !stopped
        invariant 0 <= i <= |messages| == |fates|
        invariant phase.Idle? && batch == if stopped then [] else messages[i..]
        invariant Snapshot() == Run(received, trace) && NoReplay(trace)
        invariant BatchTrace(received, fates) == trace + if stopped then [] else BatchTrace(Snapshot(), fates[i..])
      {
        NextInBatch(received, trace, Snapshot(), fates, i);
        var more;
        stopped, more := ProcessMessage(messages[i], fates[i]);
        trace := trace + more;
        i := i + 1;
      }
      RunAppend(start, [AReceive(url, ids)], trace);
      trace := [AReceive(url, ids)] + trace;
      if Custody.Safe(start) { PollIsSafe(start, trace); }
    }

    /** One turn of the loop. `stopped`: an exception left `poll_queue`. */
    method ProcessMessage(m: Received, fate: Fate) returns (stopped: bool, trace: seq<Action>)
      requires batch != [] && batch[0] == m && phase.Idle?
      modifies this
      ensures Snapshot() == Run(old(Snapshot()), trace) && NoReplay(trace) && phase.Idle?
      ensures trace == MessageTrace(old(Snapshot()), fate) && stopped == MessageStops(old(Snapshot()), fate)
      ensures batch == if stopped then [] else old(batch)[1..]
    {
      ghost var start := Snapshot();
      if !fate.parses {
        batch := [];
        RunOneAction(start, AAbort);
        return true, [AAbort];
      }
      var ok := true;
      batch := batch[1..];
      if !m.payload.event.Other? {
        ok := RunHandlerOf(m, fate.budget, fate.day, start);
      }
      phase := if ok then Ran(m) else Raised(m);
      var run := ARun(fate.budget, fate.day);
      RunOneAction(start, run);
      assert Snapshot() == Run(start, [run]);
      var more;
      stopped, more := Settle(m, ok, fate);
      RunAppend(start, [run], more);
      trace := [run] + more;
    }

    /** After the handler: deletes the message, leaves it for redelivery, or saves it to
        failed_jobs and deletes it. */
    method Settle(m: Received, ok: bool, fate: Fate) returns (stopped: bool, trace: seq<Action>)
      requires phase == if ok then Ran(m) else Raised(m)
      modifies this
      ensures Snapshot() == Run(old(Snapshot()), trace) && NoReplay(trace) && phase.Idle?
      ensures trace == SettleTrace(m, ok, fate) && stopped == Stops(m, ok, fate)
      ensures batch == if stopped then [] else old(batch)
      ensures queue == if Leaves(m, ok, fate) then old(queue) - {m.id} else old(queue)
      ensures failedJobs == old(failedJobs) +
        if !ok && Exhausted(m) && fate.saves
        then [FailedRow(LastSegment(m.url), m.payload, m.receives, false, m.id, None)] else []
    {
      ghost var start := Snapshot();
      if ok {
        stopped, trace := DeleteHandled(m, fate);
      } else if m.receives < MAX_RETRIES {
        phase := Idle;
        RunOneAction(start, ASkip);
        return false, [ASkip];
      } else if !fate.saves {
        batch, phase := [], Idle;
        RunOneAction(start, AAbort);
        return true, [AAbort];
      } else {
        failedJobs := failedJobs + [FailedRow(LastSegment(m.url), m.payload, m.receives, false, m.id, None)];
        phase := Saved(m);
        RunOneAction(start, ASave);
        assert Snapshot() == Run(start, [ASave]);
        var more;
        stopped, more := DeleteHandled(m, fate);
        RunAppend(start, [ASave], more);
        trace := [ASave] + more;
      }
    }

    method DeleteHandled(m: Received, fate: Fate) returns (stopped: bool, trace: seq<Action>)
      requires phase == Ran(m) || phase == Saved(m)
      modifies this
      ensures Snapshot() == Run(old(Snapshot()), trace) && NoReplay(trace) && phase.Idle?
      ensures trace == [DeleteStep(fate)] && stopped == !fate.deletes
      ensures batch == if stopped then [] else old(batch)
      ensures queue == if fate.deletes then old(queue) - {m.id} else old(queue)
      ensures failedJobs == old(failedJobs)
    {
      ghost var start := Snapshot();
      if fate.deletes {
        queue := queue - {m.id};
        phase := Idle;
      } else {
        batch, phase := [], Idle;
      }
      RunOneAction(start, DeleteStep(fate));
      return !fate.deletes, [DeleteStep(fate)];
    }

    /** Calls the handler for a message already taken off the batch. */
    method RunHandlerOf(m: Received, budget: nat, day: int, ghost start: World) returns (ok: bool)
      requires start.batch != [] && start.batch[0] == m && start.phase.Idle? && !m.payload.event.Other?
      requires Snapshot() == start.(batch := start.batch[1..])
      modifies this
      ensures Snapshot().(phase := if ok then Ran(m) else Raised(m)) == RunHandler(start, budget, day)
      ensures ok == Returns(PlanOf(start, day), budget)
    {
      ghost var p := PlanOf(start, day);
      ok := HandleEvent(m.payload, budget, day);
      ExecIgnoresBatch(start, p, budget, start.batch[1..]);
      ExecQueues(start, p, budget);
      attempts := attempts + multiset{m.id};
      if ok { handled := handled + {m.id}; }
    }

    /** `POST /sequences/{id}/enroll`; the process may stop before it publishes. */
    method EnrollLead(tenant: Id, sequence: Id, lead: Id, published: bool) returns (enrollment: Option<Id>)
      modifies this
      ensures Snapshot() == Enrol(old(Snapshot()), tenant, sequence, lead, published)
      ensures enrollment.Some? == (HasSequence(old(db), tenant, sequence) && HasLead(old(db), tenant, lead))
      ensures enrollment.Some? ==> enrollment.value in db.enrollments && enrollment.value == old(nextId)
    {
      if !HasSequence(db, tenant, sequence) || !HasLead(db, tenant, lead) {
        return None;
      }
      var id := nextId;
      nextId := id + 1;
      db := db.(enrollments := db.enrollments[id := Enrollment(tenant, lead, sequence, Active, 0)]);
      if published {
        var _ := PublishJob(StepToken(tenant, id));
      }
      return Some(id);
    }

    /** `POST /admin/dlq/{id}/replay`; the commit that marks the row may fail. */
    method ReplayDlqJob(row: nat, committed: bool) returns (found: bool)
      modifies this
      ensures found == (row < |old(failedJobs)|)
      ensures Snapshot() == if found then Replay(old(Snapshot()), row, committed) else old(Snapshot())
    {
      if row >= |failedJobs| {
        return false;
      }
      var job := failedJobs[row];
      var next := |accepted|;
      var sent := PublishJob(Job(job.queueName, job.payload));
      if committed {
        failedJobs := failedJobs[row := job.(replayed := true, requeuedAs := if sent then Some(next) else None)];
      }
      return true;
    }
  }

  lemma {:induction false} PublishAllIgnoresBatch(w: World, jobs: seq<Job>, batch: seq<Received>)
    ensures PublishAll(w.(batch := batch), jobs) == PublishAll(w, jobs).(batch := batch)
    decreases jobs
  {
    if jobs != [] {
      PublishAllIgnoresBatch(Publish(w, jobs[0]), jobs[1..], batch);
    }
  }

  /** Handlers do not see the rest of the batch. */
  lemma ExecIgnoresBatch(w: World, p: Plan, budget: nat, batch: seq<Received>)
    ensures Exec(w.(batch := batch), p, budget) == Exec(w, p, budget).(batch := batch)
  {
    var w0 := w.(nextId := w.nextId + p.draws);
    if p.commit.Some? {
      if budget <= |p.before| {
        PublishAllIgnoresBatch(w0, p.before[..budget], batch);
      } else {
        PublishAllIgnoresBatch(w0, p.before, batch);
        var w1 := PublishAll(w0, p.before).(db := p.commit.value);
        PublishAllIgnoresBatch(w1, p.after[..Min(budget - |p.before| - 1, |p.after|)], batch);
      }
    }
  }
}
