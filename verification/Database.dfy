/** The tables the worker's handlers read and write, and what each handler does
    to them: the jobs it publishes before its commit, the commit, the jobs after. */
module Database {
  import opened Jobs
  import Sorting
  import Usage

  /** A lead; the flags say whether the stored contact is non-blank. */
  datatype LeadRow = LeadRow(tenant: Id, hasEmail: bool, hasPhone: bool)

  /** Sequences in order of creation. `active` is `status == "active"`. */
  datatype SequenceRow = SequenceRow(id: Id, tenant: Id, trigger: string, active: bool)

  datatype StepKind = EmailStep | SmsStep | WaitStep | TaskStep | UnknownStep

  datatype StepRow = StepRow(id: Id, sequence: Id, orderIndex: int, kind: StepKind)

  datatype EnrollmentStatus = Active | Completed

  datatype Enrollment = Enrollment(
    tenant: Id, lead: Id, sequence: Id, status: EnrollmentStatus, index: nat)

  datatype SessionRow = SessionRow(tenant: Id, lead: Option<Id>)

  /** A message; `tokens` is what its analysis reports as tokens used. */
  datatype MessageRow = MessageRow(tenant: Id, session: Id, tokens: nat)

  datatype Delivery = EmailSent | SmsSent | NothingSent

  /** One committed `sequence_step_executed` timeline event, with the step and the
      lead as they were. */
  datatype Executed = Executed(tenant: Id, enrollment: Id, step: StepRow, lead: LeadRow)

  /** One committed message analysis. */
  datatype Analyzed = Analyzed(tenant: Id, tokens: nat)

  /** The tables. `log` and `analyses` only grow: they keep what was committed even
      when the timeline rows themselves are deleted with their lead. */
  datatype Db = Db(
    leads: map<Id, LeadRow>,
    sequences: seq<SequenceRow>,
    steps: seq<StepRow>,
    enrollments: map<Id, Enrollment>,
    sessions: map<Id, SessionRow>,
    messages: map<Id, MessageRow>,
    usage: seq<Usage.UsageRow>,
    log: seq<Executed>,
    analyses: seq<Analyzed>)

  const EMPTY := Db(map[], [], [], map[], map[], map[], [], [], [])

  // ---------- queries ----------

  predicate HasLead(db: Db, tenant: Id, lead: Id) {
    lead in db.leads && db.leads[lead].tenant == tenant
  }

  predicate HasSequence(db: Db, tenant: Id, sequence: Id) {
    exists s :: s in db.sequences && s.id == sequence && s.tenant == tenant
  }

  function ActiveFor(rows: seq<SequenceRow>, tenant: Id, trigger: string): (r: seq<SequenceRow>)
    ensures forall s :: s in r ==> s in rows && s.tenant == tenant
  {
    if rows == [] then []
    else
      (if rows[0].tenant == tenant && rows[0].trigger == trigger && rows[0].active then [rows[0]] else [])
      + ActiveFor(rows[1..], tenant, trigger)
  }

  function StepsOf(rows: seq<StepRow>, sequence: Id): seq<StepRow> {
    if rows == [] then []
    else (if rows[0].sequence == sequence then [rows[0]] else []) + StepsOf(rows[1..], sequence)
  }

  /** The steps of a sequence by (order_index, id). */
  function OrderedSteps(rows: seq<StepRow>, sequence: Id): seq<StepRow> {
    Sorting.By(StepsOf(rows, sequence), (s: StepRow) => (s.orderIndex, s.id))
  }

  function StepIds(steps: seq<StepRow>): (ids: seq<Id>)
    ensures |ids| == |steps| && forall i :: 0 <= i < |ids| ==> ids[i] == steps[i].id
  {
    seq(|steps|, i requires 0 <= i < |steps| => steps[i].id)
  }

  /** The steps an enrolment has executed, oldest first. */
  function LogOf(log: seq<Executed>, enrollment: Id): seq<Id> {
    if log == [] then []
    else
      var last := log[|log| - 1];
      LogOf(log[..|log| - 1], enrollment) + (if last.enrollment == enrollment then [last.step.id] else [])
  }

  /** What executing a step delivers, given the lead's contacts. */
  function Deliver(kind: StepKind, lead: LeadRow): Delivery {
    if kind.EmailStep? && lead.hasEmail then EmailSent
    else if kind.SmsStep? && lead.hasPhone then SmsSent
    else NothingSent
  }

  function DeliveryCounters(d: Delivery): Usage.Counters {
    match d
    case EmailSent => Usage.NONE.(emails := 1)
    case SmsSent => Usage.NONE.(sms := 1)
    case NothingSent => Usage.NONE
  }

  // ---------- handlers ----------

  /** What a handler does when nothing stops it. `raises`: the database rejects it
      before anything is published. `draws`: identifiers taken for new rows. */
  datatype Plan = Plan(before: seq<Job>, commit: Option<Db>, after: seq<Job>, raises: bool, draws: nat)

  const NO_EFFECT := Plan([], None, [], false, 0)

  /** Number of calls of the plan that can fail: every publish and the commit. */
  function Calls(p: Plan): nat {
    |p.before| + (if p.commit.Some? then 1 else 0) + |p.after|
  }

  function PlanFor(db: Db, nextId: Id, p: Payload, day: int): Plan {
    match p.event
    case MessageCreated => MessagePlan(db, p, day)
    case SequenceTrigger => TriggerPlan(db, nextId, p)
    case SequenceStep => StepPlan(db, p, day)
    case Other(_) => NO_EFFECT
    case _ => LeadPlan(db, p)
  }

  /** Routing and integration jobs commit for a lead that exists; the columns
      they write are not read by any other handler. */
  function LeadPlan(db: Db, p: Payload): Plan {
    if p.tenant.None? || p.lead.None? || !HasLead(db, p.tenant.value, p.lead.value) then NO_EFFECT
    else Plan([], Some(db), [], false, 0)
  }

  predicate MessageFound(db: Db, p: Payload) {
    && p.tenant.Some? && p.session.Some? && p.message.Some?
    && p.message.value in db.messages
    && db.messages[p.message.value].tenant == p.tenant.value
    && db.messages[p.message.value].session == p.session.value
  }

  /** The lead of the message's session, when the tenant has that session. */
  function SessionLead(db: Db, p: Payload): Option<Id>
    requires p.tenant.Some? && p.session.Some?
  {
    if p.session.value in db.sessions && db.sessions[p.session.value].tenant == p.tenant.value
    then db.sessions[p.session.value].lead
    else None
  }

  function FanOut(tenant: Id, lead: Id): seq<Job> {
    [LeadJob(ROUTING_JOBS, LeadScoreUpdated, tenant, lead),
     LeadJob(INTEGRATION_JOBS, IntegrationScoreUpdated, tenant, lead),
     TriggerJob(tenant, lead, SCORE_UPDATED)]
  }

  function MessagePlan(db: Db, p: Payload, day: int): Plan {
    if !MessageFound(db, p) then NO_EFFECT
    else
      var delta := Usage.NONE.(aiTokens := db.messages[p.message.value].tokens, messages := 1);
      var db' := db.(usage := Usage.Increment(db.usage, p.tenant.value, day, delta),
                     analyses := db.analyses + [Analyzed(p.tenant.value, db.messages[p.message.value].tokens)]);
      var lead := SessionLead(db, p);
      Plan([], Some(db'), if lead.Some? then FanOut(p.tenant.value, lead.value) else [], false, 0)
  }

  predicate TriggerComplete(p: Payload) {
    p.tenant.Some? && p.lead.Some? && p.trigger.Some? && p.trigger.value != ""
  }

  /** New enrolments, one per sequence, named from `nextId` on. */
  function NewEnrollments(tenant: Id, lead: Id, active: seq<SequenceRow>, nextId: Id): (added: map<Id, Enrollment>)
    ensures forall i :: i in added <==> nextId <= i < nextId + |active|
    ensures forall i :: i in added ==> added[i] == Enrollment(tenant, lead, active[i - nextId].id, Active, 0)
  {
    if active == [] then map[]
    else
      var n := |active| - 1;
      NewEnrollments(tenant, lead, active[..n], nextId)[nextId + n := Enrollment(tenant, lead, active[n].id, Active, 0)]
  }

  /** The first step jobs of `n` new enrolments. */
  function Tokens(tenant: Id, nextId: Id, n: nat): (jobs: seq<Job>)
    ensures |jobs| == n && forall i :: 0 <= i < n ==> jobs[i] == StepToken(tenant, nextId + i)
  {
    seq(n, i requires 0 <= i < n => StepToken(tenant, nextId + i))
  }

  /** Enrols the lead in every active sequence of the trigger; each first step is
      published before the enrolments are committed. */
  function TriggerPlan(db: Db, nextId: Id, p: Payload): Plan {
    if !TriggerComplete(p) then NO_EFFECT
    else
      var active := ActiveFor(db.sequences, p.tenant.value, p.trigger.value);
      if active != [] && p.lead.value !in db.leads then
        NO_EFFECT.(raises := true)  // the foreign key of the enrolment
      else
        var added := NewEnrollments(p.tenant.value, p.lead.value, active, nextId);
        Plan(Tokens(p.tenant.value, nextId, |active|),
             Some(db.(enrollments := db.enrollments + added)), [], false, |active|)
  }

  /** The enrolment a step job acts on, when there is one to act on. */
  predicate StepActs(db: Db, p: Payload) {
    && p.tenant.Some? && p.enrollment.Some?
    && p.enrollment.value in db.enrollments
    && var e := db.enrollments[p.enrollment.value];
    && e.tenant == p.tenant.value && e.status.Active?
    && Visible(db, e)
  }

  /** The tenant still has the enrolment's sequence and lead. */
  predicate Visible(db: Db, e: Enrollment) {
    HasSequence(db, e.tenant, e.sequence) && HasLead(db, e.tenant, e.lead)
  }

  function StepPlan(db: Db, p: Payload, day: int): Plan {
    if !StepActs(db, p) then NO_EFFECT
    else
      var id := p.enrollment.value;
      var e := db.enrollments[id];
      var steps := OrderedSteps(db.steps, e.sequence);
      if e.index >= |steps| then
        Plan([], Some(db.(enrollments := db.enrollments[id := e.(status := Completed)])), [], false, 0)
      else
        var last := e.index + 1 >= |steps|;
        Plan(if last then [] else [StepToken(e.tenant, id)],
             Some(ExecuteStep(db, id, steps[e.index], last, day)), [], false, 0)
  }

  function ExecuteStep(db: Db, id: Id, step: StepRow, last: bool, day: int): Db
    requires id in db.enrollments && db.enrollments[id].lead in db.leads
  {
    var e := db.enrollments[id];
    var delivery := Deliver(step.kind, db.leads[e.lead]);
    db.(enrollments := db.enrollments[id := e.(index := e.index + 1, status := if last then Completed else e.status)],
        usage := if delivery.NothingSent? then db.usage
                 else Usage.Increment(db.usage, e.tenant, day, DeliveryCounters(delivery)),
        log := db.log + [Executed(e.tenant, id, step, db.leads[e.lead])])
  }

  // ---------- facts the proofs share ----------

  lemma LogAppend(log: seq<Executed>, x: Executed, e: Id)
    ensures LogOf(log + [x], e) == LogOf(log, e) + (if x.enrollment == e then [x.step.id] else [])
  {
    assert (log + [x])[..|log|] == log;
  }

  lemma {:induction false} StepsOfMembers(rows: seq<StepRow>, sequence: Id, r: StepRow)
    ensures multiset(StepsOf(rows, sequence))[r] == if r.sequence == sequence then multiset(rows)[r] else 0
  {
    if rows != [] {
      StepsOfMembers(rows[1..], sequence, r);
      var first := if rows[0].sequence == sequence then [rows[0]] else [];
      assert multiset(first + StepsOf(rows[1..], sequence)) == multiset(first) + multiset(StepsOf(rows[1..], sequence));
      assert rows == [rows[0]] + rows[1..];
    }
  }

  /** The queues that handlers publish to. */
  lemma PublishedQueues(db: Db, nextId: Id, p: Payload, day: int)
    ensures var plan := PlanFor(db, nextId, p, day);
      forall job :: job in plan.before + plan.after ==> job.queueName in {SEQUENCE_JOBS, ROUTING_JOBS, INTEGRATION_JOBS}
  {
  }

  /** Listing a sequence's steps returns exactly its rows, in step order. */
  lemma OrderedStepsListsTheRows(rows: seq<StepRow>, sequence: Id)
    ensures var l := OrderedSteps(rows, sequence);
      && (forall i, j :: 0 <= i < j < |l| ==>
            l[i].orderIndex < l[j].orderIndex || (l[i].orderIndex == l[j].orderIndex && l[i].id <= l[j].id))
      && multiset(l) == multiset(StepsOf(rows, sequence))
      && (forall r: StepRow :: multiset(l)[r] == if r.sequence == sequence then multiset(rows)[r] else 0)
      && (forall r :: r in l <==> r in rows && r.sequence == sequence)
  {
    var key := (s: StepRow) => (s.orderIndex, s.id);
    var rs := StepsOf(rows, sequence);
    var l := OrderedSteps(rows, sequence);
    Sorting.BySorts(rs, key);
    forall r: StepRow | true ensures multiset(l)[r] == if r.sequence == sequence then multiset(rows)[r] else 0 {
      StepsOfMembers(rows, sequence, r);
    }
    forall r: StepRow | true ensures r in l <==> r in rows && r.sequence == sequence {
      assert r in l <==> multiset(l)[r] > 0;
      assert r in rows <==> multiset(rows)[r] > 0;
    }
    forall i, j | 0 <= i < j < |l|
      ensures l[i].orderIndex < l[j].orderIndex || (l[i].orderIndex == l[j].orderIndex && l[i].id <= l[j].id)
    {
      assert Sorting.Le(key(l[i]), key(l[j]));
    }
  }
}
