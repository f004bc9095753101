/** How many handler calls one job causes, and what a handler call that nothing stops
    does: it replaces a job by jobs that weigh one less. */
module Cascade {
  import opened Jobs
  import opened Database
  import opened Worker
  import opened Polls
  import Custody

  // ---------- the weight of a job ----------

  function StepsLeft(steps: nat, index: nat): nat {
    if index >= steps then 1 else steps - index
  }

  /** Handler calls one new enrolment costs. */
  function EnrolmentWeight(db: Db, tenant: Id, lead: Id, sequence: Id): nat {
    if HasLead(db, tenant, lead) then StepsLeft(|OrderedSteps(db.steps, sequence)|, 0) else 1
  }

  function EnrolmentsWeight(db: Db, tenant: Id, lead: Id, active: seq<SequenceRow>): nat {
    if active == [] then 0
    else
      var n := |active| - 1;
      EnrolmentsWeight(db, tenant, lead, active[..n]) + EnrolmentWeight(db, tenant, lead, active[n].id)
  }

  function TriggerWeight(db: Db, tenant: Id, lead: Id, trigger: string): nat {
    1 + EnrolmentsWeight(db, tenant, lead, ActiveFor(db.sequences, tenant, trigger))
  }

  /** Handler calls a job causes, its own included. */
  function Weight(db: Db, p: Payload): (n: nat)
    ensures n > 0
  {
    match p.event
    case SequenceStep =>
      if StepActs(db, p) then
        var e := db.enrollments[p.enrollment.value];
        StepsLeft(|OrderedSteps(db.steps, e.sequence)|, e.index)
      else 1
    case SequenceTrigger =>
      if TriggerComplete(p) then TriggerWeight(db, p.tenant.value, p.lead.value, p.trigger.value) else 1
    case MessageCreated =>
      if MessageFound(db, p) && SessionLead(db, p).Some?
      then 3 + TriggerWeight(db, p.tenant.value, SessionLead(db, p).value, SCORE_UPDATED)
      else 1
    case _ => 1
  }

  function Weights(db: Db, jobs: seq<Job>): (ws: seq<nat>)
    ensures |ws| == |jobs| && forall j :: 0 <= j < |ws| ==> ws[j] == Weight(db, jobs[j].payload)
  {
    seq(|jobs|, j requires 0 <= j < |jobs| => Weight(db, jobs[j].payload))
  }

  function WeightAt(w: World, id: nat): nat {
    if id in w.queue then Weight(w.db, w.queue[id].payload) else 0
  }

  /** The weights of the accepted jobs, zero for those that left the queues. */
  function QueueWeights(w: World): (ws: seq<nat>)
    ensures |ws| == |w.accepted| && forall id :: 0 <= id < |ws| ==> ws[id] == WeightAt(w, id)
  {
    seq(|w.accepted|, id requires 0 <= id < |w.accepted| => WeightAt(w, id))
  }

  /** The weight of everything queued. */
  function TotalWeight(w: World): nat {
    Sum(QueueWeights(w))
  }

  // ---------- sums ----------

  function Sum(xs: seq<nat>): nat {
    if xs == [] then 0 else Sum(xs[..|xs| - 1]) + xs[|xs| - 1]
  }

  lemma {:induction false} SumAppend(xs: seq<nat>, ys: seq<nat>)
    ensures Sum(xs + ys) == Sum(xs) + Sum(ys)
  {
    if ys == [] {
      assert xs + ys == xs;
    } else {
      SumAppend(xs, ys[..|ys| - 1]);
      assert (xs + ys)[..|xs + ys| - 1] == xs + ys[..|ys| - 1];
    }
  }

  /** No entry grows: the sum stays when and only when no entry changes. */
  lemma {:induction false} SumAtMost(xs: seq<nat>, ys: seq<nat>)
    requires |ys| == |xs| && forall k :: 0 <= k < |xs| ==> ys[k] <= xs[k]
    ensures Sum(ys) <= Sum(xs)
    ensures Sum(ys) == Sum(xs) <==> forall k :: 0 <= k < |xs| ==> ys[k] == xs[k]
  {
    if xs != [] { SumAtMost(xs[..|xs| - 1], ys[..|ys| - 1]); }
  }

  /** One entry becomes zero and no other grows: the sum drops by at least that entry,
      and by exactly that entry when and only when no other entry changes. */
  lemma {:induction false} SumDrops(xs: seq<nat>, ys: seq<nat>, x: nat)
    requires |ys| == |xs| && x < |xs| && ys[x] == 0
    requires forall k :: 0 <= k < |xs| && k != x ==> ys[k] <= xs[k]
    ensures Sum(ys) + xs[x] <= Sum(xs)
    ensures Sum(ys) + xs[x] == Sum(xs) <==> forall k :: 0 <= k < |xs| && k != x ==> ys[k] == xs[k]
  {
    var n := |xs| - 1;
    if x == n { SumAtMost(xs[..n], ys[..n]); } else { SumDrops(xs[..n], ys[..n], x); }
  }

  // ---------- one job ----------

  ghost predicate QueuesConfigured(urls: Urls) {
    Configured(urls, SEQUENCE_JOBS) && Configured(urls, ROUTING_JOBS) && Configured(urls, INTEGRATION_JOBS)
  }

  function DbAfter(db: Db, p: Plan): Db {
    if p.commit.Some? then p.commit.value else db
  }

  /** The handler of the message at hand returned; jobs without a queue were dropped. */
  ghost predicate Returned(w: World, w': World, p: Plan)
    requires w.batch != []
  {
    var m := w.batch[0];
    && w'.phase == Ran(m) && w'.batch == w.batch[1..] && w'.urls == w.urls
    && w'.handled == (if m.payload.event.Other? then w.handled else w.handled + {m.id})
    && w'.accepted == w.accepted + Sent(w.urls, p.before + p.after)
    && w'.db == DbAfter(w.db, p) && w'.nextId == w.nextId + p.draws && w'.rows == w.rows
    && (forall k :: k in w'.queue <==> k in w.queue || |w.accepted| <= k < |w'.accepted|)
  }

  /** The message at hand was run to its end and deleted. */
  ghost predicate Effect(w: World, w': World, p: Plan)
    requires w.batch != []
  {
    var m := w.batch[0];
    && m.id in w.queue && m.id < |w.accepted| && m.payload == w.queue[m.id].payload
    && w'.phase.Idle? && w'.batch == w.batch[1..] && w'.urls == w.urls
    && w'.handled == (if m.payload.event.Other? then w.handled else w.handled + {m.id})
    && w'.accepted == w.accepted + Sent(w.urls, p.before + p.after)
    && w'.db == DbAfter(w.db, p) && w'.nextId == w.nextId + p.draws && w'.rows == w.rows
    && (forall k :: k in w'.queue <==> (k in w.queue && k != m.id) || |w.accepted| <= k < |w'.accepted|)
    && (forall k :: k in w'.queue ==> k < |w'.accepted| && w'.queue[k].payload == w'.accepted[k].payload)
  }

  ghost predicate NothingWithoutCommit(p: Plan) {
    p.commit.None? ==> p.before == [] && p.after == []
  }

  lemma PlansPublishWithCommit(db: Db, nextId: Id, p: Payload, day: int)
    ensures NothingWithoutCommit(PlanFor(db, nextId, p, day))
  {
  }

  lemma ExecWhole(w: World, p: Plan, budget: nat)
    requires budget > Calls(p) && NothingWithoutCommit(p)
    ensures Exec(w, p, budget).accepted == w.accepted + Sent(w.urls, p.before + p.after)
    ensures Exec(w, p, budget).db == DbAfter(w.db, p)
  {
    var w0 := w.(nextId := w.nextId + p.draws);
    if p.commit.Some? {
      PublishAllSends(w0, p.before);
      var w1 := PublishAll(w0, p.before).(db := p.commit.value);
      PublishAllSends(w1, p.after);
      SentAppend(w.urls, p.before, p.after);
      assert p.after[..|p.after|] == p.after;
      assert (w.accepted + Sent(w.urls, p.before)) + Sent(w.urls, p.after)
          == w.accepted + (Sent(w.urls, p.before) + Sent(w.urls, p.after));
    } else {
      assert p.before + p.after == [];
    }
  }

  lemma RunWholePlan(w: World, p: Plan, budget: nat)
    requires w.phase.Idle? && w.batch != [] && !w.batch[0].payload.event.Other?
    requires Custody.Consistent(w) && Returns(p, budget) && NothingWithoutCommit(p)
    ensures Returned(w, RunPlan(w, p, budget), p)
  {
    ExecWhole(w, p, budget);
    ExecQueues(w, p, budget);
  }

  lemma HandlerReturns(w: World, fate: Fate)
    requires Custody.Consistent(w) && w.phase.Idle? && w.batch != [] && Handles(w, fate)
    ensures Returned(w, RunHandler(w, fate.budget, fate.day), PlanOf(w, fate.day))
  {
    var p := PlanOf(w, fate.day);
    if w.batch[0].payload.event.Other? {
      assert p == NO_EFFECT && w.accepted + Sent(w.urls, p.before + p.after) == w.accepted;
    } else {
      PlansPublishWithCommit(w.db, w.nextId, w.batch[0].payload, fate.day);
      RunWholePlan(w, p, fate.budget);
    }
  }

  /** Deleting the handled message completes its effect. */
  lemma DeleteCompletes(w: World, w1: World, p: Plan)
    requires Custody.Consistent(w) && w.batch != [] && Returned(w, w1, p)
    requires Custody.Consistent(DeleteMessage(w1))
    ensures Effect(w, DeleteMessage(w1), p)
  {
    var w' := DeleteMessage(w1);
    assert Custody.Genuine(w, w.batch[0]);
    assert Custody.IsJob(w, w.batch[0].id, w.queue[w.batch[0].id].payload, w.queue[w.batch[0].id].url);
    forall k | k in w'.queue ensures k < |w'.accepted| && w'.queue[k].payload == w'.accepted[k].payload {
      assert Custody.IsJob(w', k, w'.queue[k].payload, w'.queue[k].url);
    }
  }

  /** The body parses, the handler returns and the delete succeeds. */
  predicate Succeeds(w: World, fate: Fate)
    requires w.batch != []
  {
    fate.parses && fate.deletes && Handles(w, fate)
  }

  /** One message of a poll in which nothing fails. */
  lemma MessageSucceeds(w: World, fate: Fate)
    requires Custody.Consistent(w) && w.phase.Idle? && w.batch != [] && Succeeds(w, fate)
    ensures var w' := Run(w, MessageTrace(w, fate));
      Effect(w, w', PlanOf(w, fate.day)) && Custody.Consistent(w')
  {
    var run := ARun(fate.budget, fate.day);
    var w1 := RunHandler(w, fate.budget, fate.day);
    HandlerReturns(w, fate);
    Custody.ConsistentRun(w, fate.budget, fate.day);
    Custody.ConsistentDelete(w1);
    DeleteCompletes(w, w1, PlanOf(w, fate.day));
    SuccessTrace(w, w1, fate);
  }

  lemma SuccessTrace(w: World, w1: World, fate: Fate)
    requires w.phase.Idle? && w.batch != [] && Succeeds(w, fate)
    requires w1 == RunHandler(w, fate.budget, fate.day) && w1.phase.Ran?
    ensures Run(w, MessageTrace(w, fate)) == DeleteMessage(w1)
  {
    var run := ARun(fate.budget, fate.day);
    RunOneAction(w, run);
    RunOneAction(w1, ADelete);
    RunAppend(w, [run], [ADelete]);
  }

  // ---------- weights balance ----------

  /** What handling a job adds to the queue weighs one less than the job. */
  lemma PlanBalances(db: Db, nextId: Id, p: Payload, day: int)
    requires forall i :: i in db.enrollments ==> i < nextId
    requires !PlanFor(db, nextId, p, day).raises
    ensures var plan := PlanFor(db, nextId, p, day);
      var db' := DbAfter(db, plan);
      Sum(Weights(db', plan.before + plan.after)) + 1 == Weight(db, p)
  {
    match p.event
    case SequenceTrigger => if TriggerComplete(p) { TriggerBalances(db, nextId, p); }
    case SequenceStep => StepBalances(db, p, day);
    case MessageCreated => MessageBalances(db, p, day);
    case _ =>
  }

  lemma SumOfOne(xs: seq<nat>)
    requires |xs| == 1
    ensures Sum(xs) == xs[0]
  {
    assert xs[..0] == [];
  }

  lemma SumOfThree(xs: seq<nat>)
    requires |xs| == 3
    ensures Sum(xs) == xs[0] + xs[1] + xs[2]
  {
    assert xs[..2][..1] == [xs[0]];
    SumOfOne(xs[..2][..1]);
  }

  lemma StepBalances(db: Db, p: Payload, day: int)
    requires p.event.SequenceStep?
    ensures var plan := StepPlan(db, p, day);
      Sum(Weights(DbAfter(db, plan), plan.before + plan.after)) + 1 == Weight(db, p)
  {
    var plan := StepPlan(db, p, day);
    assert plan.before + plan.after == plan.before;
    if plan.before != [] {
      SumOfOne(Weights(DbAfter(db, plan), plan.before));
      NextStepWeight(db, p.enrollment.value, day);
    }
  }

  /** The job for the next step weighs one less. */
  lemma NextStepWeight(db: Db, id: Id, day: int)
    requires id in db.enrollments && Visible(db, db.enrollments[id]) && db.enrollments[id].status.Active?
    requires db.enrollments[id].index + 1 < |OrderedSteps(db.steps, db.enrollments[id].sequence)|
    ensures var e := db.enrollments[id];
      var steps := OrderedSteps(db.steps, e.sequence);
      Weight(ExecuteStep(db, id, steps[e.index], false, day), StepToken(e.tenant, id).payload) + 1
        == StepsLeft(|steps|, e.index)
  {
    var e := db.enrollments[id];
    var steps := OrderedSteps(db.steps, e.sequence);
    var db' := ExecuteStep(db, id, steps[e.index], false, day);
    assert db'.enrollments[id] == e.(index := e.index + 1);
    assert Visible(db', db'.enrollments[id]);
  }

  lemma MessageBalances(db: Db, p: Payload, day: int)
    requires p.event.MessageCreated?
    ensures var plan := MessagePlan(db, p, day);
      var db' := DbAfter(db, plan);
      Sum(Weights(db', plan.before + plan.after)) + 1 == Weight(db, p)
  {
    var plan := MessagePlan(db, p, day);
    if plan.after != [] {
      var tenant, lead := p.tenant.value, SessionLead(db, p).value;
      var db' := plan.commit.value;
      var jobs := plan.before + plan.after;
      assert jobs == FanOut(tenant, lead);
      EnrolmentsWeightStable(db, db', tenant, lead, ActiveFor(db.sequences, tenant, SCORE_UPDATED));
      assert Weight(db', jobs[2].payload) == TriggerWeight(db, tenant, lead, SCORE_UPDATED);
      var ws := Weights(db', jobs);
      assert ws[0] == 1 && ws[1] == 1;
      SumOfThree(ws);
    }
  }

  lemma {:induction false} EnrolmentsWeightStable(db: Db, db': Db, tenant: Id, lead: Id, active: seq<SequenceRow>)
    requires db'.leads == db.leads && db'.steps == db.steps
    ensures EnrolmentsWeight(db', tenant, lead, active) == EnrolmentsWeight(db, tenant, lead, active)
  {
    if active != [] { EnrolmentsWeightStable(db, db', tenant, lead, active[..|active| - 1]); }
  }

  lemma TriggerBalances(db: Db, nextId: Id, p: Payload)
    requires forall i :: i in db.enrollments ==> i < nextId
    requires TriggerComplete(p) && p.event.SequenceTrigger? && !TriggerPlan(db, nextId, p).raises
    ensures var plan := TriggerPlan(db, nextId, p);
      && plan.commit.Some?
      && Sum(Weights(plan.commit.value, plan.before + plan.after)) + 1 == Weight(db, p)
  {
    var plan := TriggerPlan(db, nextId, p);
    var db' := plan.commit.value;
    var tenant, lead := p.tenant.value, p.lead.value;
    var active := ActiveFor(db.sequences, tenant, p.trigger.value);
    assert plan.before + plan.after == plan.before;
    forall j | 0 <= j < |active|
      ensures Weight(db', StepToken(tenant, nextId + j).payload) == EnrolmentWeight(db, tenant, lead, active[j].id)
    {
      NewEnrolmentWeight(db, db', tenant, lead, active, nextId, j);
    }
    NewTokensWeight(db, db', tenant, lead, active, nextId);
  }

  lemma NewEnrolmentWeight(db: Db, db': Db, tenant: Id, lead: Id, active: seq<SequenceRow>, nextId: Id, j: nat)
    requires j < |active| && active[j] in db.sequences && active[j].tenant == tenant
    requires db' == db.(enrollments := db.enrollments + NewEnrollments(tenant, lead, active, nextId))
    ensures Weight(db', StepToken(tenant, nextId + j).payload) == EnrolmentWeight(db, tenant, lead, active[j].id)
  {
    assert db'.enrollments[nextId + j] == Enrollment(tenant, lead, active[j].id, Active, 0);
    assert HasSequence(db', tenant, active[j].id);
  }

  lemma {:induction false} NewTokensWeight(db: Db, db': Db, tenant: Id, lead: Id, active: seq<SequenceRow>, nextId: Id)
    requires forall j :: 0 <= j < |active| ==>
      Weight(db', StepToken(tenant, nextId + j).payload) == EnrolmentWeight(db, tenant, lead, active[j].id)
    ensures Sum(Weights(db', Tokens(tenant, nextId, |active|))) == EnrolmentsWeight(db, tenant, lead, active)
  {
    if active != [] {
      var n := |active| - 1;
      NewTokensWeight(db, db', tenant, lead, active[..n], nextId);
      WeightsOfTokens(db', tenant, nextId, n);
      assert Weight(db', StepToken(tenant, nextId + n).payload) == EnrolmentWeight(db, tenant, lead, active[n].id);
    }
  }

  /** Dropping jobs lowers the weight, and only that does. */
  lemma {:induction false} SentWeighs(db: Db, urls: Urls, jobs: seq<Job>)
    ensures Sum(Weights(db, Sent(urls, jobs))) <= Sum(Weights(db, jobs))
    ensures Sum(Weights(db, Sent(urls, jobs))) == Sum(Weights(db, jobs)) <==> AllConfigured(urls, jobs)
  {
    if jobs != [] {
      SentWeighs(db, urls, jobs[1..]);
      FirstSentWeighs(db, urls, jobs);
      assert AllConfigured(urls, jobs) <==> Configured(urls, jobs[0].queueName) && AllConfigured(urls, jobs[1..]);
    }
  }

  lemma FirstSentWeighs(db: Db, urls: Urls, jobs: seq<Job>)
    requires jobs != []
    ensures var first := Weight(db, jobs[0].payload);
      && Sum(Weights(db, jobs)) == first + Sum(Weights(db, jobs[1..]))
      && Sum(Weights(db, Sent(urls, jobs)))
           == (if Configured(urls, jobs[0].queueName) then first else 0) + Sum(Weights(db, Sent(urls, jobs[1..])))
  {
    var first, rest := [jobs[0]], Sent(urls, jobs[1..]);
    SumOfOne(Weights(db, first));
    WeightsAppend(db, first, jobs[1..]);
    assert first + jobs[1..] == jobs;
    WeightsAppend(db, first, rest);
    assert Sent(urls, jobs) == if Configured(urls, jobs[0].queueName) then first + rest else rest;
  }

  lemma WeightsAppend(db: Db, xs: seq<Job>, ys: seq<Job>)
    ensures Sum(Weights(db, xs + ys)) == Sum(Weights(db, xs)) + Sum(Weights(db, ys))
  {
    assert Weights(db, xs + ys) == Weights(db, xs) + Weights(db, ys);
    SumAppend(Weights(db, xs), Weights(db, ys));
  }

  lemma WeightsOfTokens(db: Db, tenant: Id, nextId: Id, n: nat)
    ensures var ws := Weights(db, Tokens(tenant, nextId, n + 1));
      && ws[..n] == Weights(db, Tokens(tenant, nextId, n))
      && ws[n] == Weight(db, StepToken(tenant, nextId + n).payload)
      && Sum(ws) == Sum(ws[..n]) + ws[n]
  {
  }
}
