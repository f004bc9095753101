/** The usage ledger agrees with what was committed: messages analysed, and steps that
    delivered an e-mail or an SMS. */
module Deliveries {
  import opened Jobs
  import opened Database
  import opened Worker
  import Usage

  /** The committed step went out as an e-mail: an e-mail step for a lead with one. */
  predicate ByEmail(x: Executed) {
    x.step.kind.EmailStep? && x.lead.hasEmail
  }

  predicate BySms(x: Executed) {
    x.step.kind.SmsStep? && x.lead.hasPhone
  }

  /** The tenant's committed steps that pass a test. */
  function CountSteps(log: seq<Executed>, tenant: Id, test: Executed -> bool): nat {
    if log == [] then 0
    else
      var last := log[|log| - 1];
      CountSteps(log[..|log| - 1], tenant, test) + (if last.tenant == tenant && test(last) then 1 else 0)
  }

  function CountAnalyses(analyses: seq<Analyzed>, tenant: Id): nat {
    if analyses == [] then 0
    else CountAnalyses(analyses[..|analyses| - 1], tenant) + (if analyses[|analyses| - 1].tenant == tenant then 1 else 0)
  }

  function SumTokens(analyses: seq<Analyzed>, tenant: Id): nat {
    if analyses == [] then 0
    else
      var last := analyses[|analyses| - 1];
      SumTokens(analyses[..|analyses| - 1], tenant) + (if last.tenant == tenant then last.tokens else 0)
  }

  /** What the tenant's rows should add up to. */
  function Expected(db: Db, tenant: Id): Usage.Counters {
    Usage.Counters(SumTokens(db.analyses, tenant), CountAnalyses(db.analyses, tenant),
                   CountSteps(db.log, tenant, ByEmail), CountSteps(db.log, tenant, BySms), 0, 0)
  }

  ghost predicate TenantBalanced(db: Db, tenant: Id) {
    Usage.Total(db.usage, tenant) == Expected(db, tenant)
  }

  ghost predicate Balanced(db: Db) {
    Usage.OneRowPerDay(db.usage) && forall tenant: Id :: TenantBalanced(db, tenant)
  }

  lemma CountStepsAppend(log: seq<Executed>, x: Executed, tenant: Id, test: Executed -> bool)
    ensures CountSteps(log + [x], tenant, test)
         == CountSteps(log, tenant, test) + (if x.tenant == tenant && test(x) then 1 else 0)
  {
    assert (log + [x])[..|log|] == log;
  }

  lemma MessageBalanced(db: Db, p: Payload, day: int)
    requires Balanced(db)
    ensures MessagePlan(db, p, day).commit.Some? ==> Balanced(MessagePlan(db, p, day).commit.value)
  {
    if MessageFound(db, p) {
      var tokens := db.messages[p.message.value].tokens;
      AnalysisBalanced(db, MessagePlan(db, p, day).commit.value, p.tenant.value, day, tokens);
    }
  }

  lemma AnalysisBalanced(db: Db, db': Db, tenant: Id, day: int, tokens: nat)
    requires Balanced(db) && db'.log == db.log
    requires db'.usage == Usage.Increment(db.usage, tenant, day, Usage.NONE.(aiTokens := tokens, messages := 1))
    requires db'.analyses == db.analyses + [Analyzed(tenant, tokens)]
    ensures Balanced(db')
  {
    var delta := Usage.NONE.(aiTokens := tokens, messages := 1);
    Usage.IncrementKeepsOneRowPerDay(db.usage, tenant, day, delta);
    forall t: Id | true ensures TenantBalanced(db', t) {
      assert TenantBalanced(db, t);
      Usage.IncrementTotal(db.usage, tenant, day, delta, t);
      AnalysisExpected(db, db', tenant, tokens, t);
    }
  }

  lemma AnalysisExpected(db: Db, db': Db, tenant: Id, tokens: nat, t: Id)
    requires db'.log == db.log && db'.analyses == db.analyses + [Analyzed(tenant, tokens)]
    ensures Expected(db', t) ==
      Usage.Add(Expected(db, t), if t == tenant then Usage.NONE.(aiTokens := tokens, messages := 1) else Usage.NONE)
  {
    assert db'.analyses[..|db.analyses|] == db.analyses;
  }

  lemma StepExpected(db: Db, db': Db, x: Executed, t: Id)
    requires db'.log == db.log + [x] && db'.analyses == db.analyses
    ensures Expected(db', t) ==
      Usage.Add(Expected(db, t), if t == x.tenant then DeliveryCounters(Deliver(x.step.kind, x.lead)) else Usage.NONE)
  {
    CountStepsAppend(db.log, x, t, ByEmail);
    CountStepsAppend(db.log, x, t, BySms);
  }

  lemma StepBalanced(db: Db, db': Db, x: Executed, day: int)
    requires Balanced(db) && db'.log == db.log + [x] && db'.analyses == db.analyses
    requires db'.usage == Usage.Increment(db.usage, x.tenant, day, DeliveryCounters(Deliver(x.step.kind, x.lead)))
    ensures Balanced(db')
  {
    var delta := DeliveryCounters(Deliver(x.step.kind, x.lead));
    Usage.IncrementKeepsOneRowPerDay(db.usage, x.tenant, day, delta);
    forall t: Id | true ensures TenantBalanced(db', t) {
      assert TenantBalanced(db, t);
      Usage.IncrementTotal(db.usage, x.tenant, day, delta, t);
      StepExpected(db, db', x, t);
    }
  }

  /** A step that delivers nothing is expected to count nothing. */
  lemma SilentExpected(db: Db, db': Db, x: Executed, t: Id)
    requires db'.log == db.log + [x] && db'.analyses == db.analyses && Deliver(x.step.kind, x.lead).NothingSent?
    ensures Expected(db', t) == Expected(db, t)
  {
    StepExpected(db, db', x, t);
  }

  lemma SilentStepBalanced(db: Db, db': Db, x: Executed)
    requires Balanced(db) && db'.log == db.log + [x] && db'.analyses == db.analyses
    requires db'.usage == db.usage && Deliver(x.step.kind, x.lead).NothingSent?
    ensures Balanced(db')
  {
    forall t: Id | true ensures TenantBalanced(db', t) {
      assert TenantBalanced(db, t);
      SilentExpected(db, db', x, t);
    }
  }

  lemma ExecuteBalanced(db: Db, id: Id, step: StepRow, last: bool, day: int)
    requires Balanced(db) && id in db.enrollments && db.enrollments[id].lead in db.leads
    ensures Balanced(ExecuteStep(db, id, step, last, day))
  {
    var e := db.enrollments[id];
    var x := Executed(e.tenant, id, step, db.leads[e.lead]);
    if Deliver(step.kind, db.leads[e.lead]).NothingSent? {
      SilentStepBalanced(db, ExecuteStep(db, id, step, last, day), x);
    } else {
      StepBalanced(db, ExecuteStep(db, id, step, last, day), x, day);
    }
  }

  lemma SameLedger(db: Db, db': Db)
    requires Balanced(db) && db'.usage == db.usage && db'.log == db.log && db'.analyses == db.analyses
    ensures Balanced(db')
  {
    forall t: Id | true ensures TenantBalanced(db', t) { assert TenantBalanced(db, t); }
  }

  lemma CommitBalanced(db: Db, nextId: Id, p: Payload, day: int)
    requires Balanced(db)
    ensures PlanFor(db, nextId, p, day).commit.Some? ==> Balanced(PlanFor(db, nextId, p, day).commit.value)
  {
    var plan := PlanFor(db, nextId, p, day);
    match p.event
    case MessageCreated => MessageBalanced(db, p, day);
    case SequenceStep =>
      if StepActs(db, p) {
        var e := db.enrollments[p.enrollment.value];
        var steps := OrderedSteps(db.steps, e.sequence);
        if e.index < |steps| {
          ExecuteBalanced(db, p.enrollment.value, steps[e.index], e.index + 1 >= |steps|, day);
        } else {
          SameLedger(db, plan.commit.value);
        }
      }
    case _ => if plan.commit.Some? { SameLedger(db, plan.commit.value); }
  }

  lemma RunBalanced(w: World, budget: nat, day: int)
    requires Balanced(w.db) && w.batch != [] && w.phase.Idle?
    ensures Balanced(RunHandler(w, budget, day).db)
  {
    if !w.batch[0].payload.event.Other? {
      ExecQueues(w, PlanOf(w, day), budget);
      CommitBalanced(w.db, w.nextId, w.batch[0].payload, day);
    }
  }

  lemma BalancedNext(w: World, a: Action)
    requires Balanced(w.db)
    ensures Balanced(Next(w, a).db)
  {
    match a
    case ARun(budget, day) => if w.batch != [] && w.phase.Idle? { RunBalanced(w, budget, day); }
    case _ => SameLedger(w.db, Next(w, a).db);
  }

  /** In every run, with failures and redeliveries anywhere: a tenant's counters, summed
      over all days, are its committed analyses and their tokens, its committed e-mail
      steps to leads with an e-mail and its committed SMS steps to leads with a phone;
      and there is one row per tenant and day. */
  lemma {:induction false} LedgerMatchesCommits(urls: Urls, actions: seq<Action>)
    ensures Balanced(Run(Init(urls, EMPTY, 0), actions).db)
  {
    if actions != [] {
      LedgerMatchesCommits(urls, actions[..|actions| - 1]);
      BalancedNext(Run(Init(urls, EMPTY, 0), actions[..|actions| - 1]), actions[|actions| - 1]);
    } else {
      forall t: Id | true ensures TenantBalanced(EMPTY, t) {}
    }
  }
}
