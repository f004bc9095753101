/** The queue worker as a transition system: the queues, the database, the
    `failed_jobs` table and one sequential worker that may stop at any point. */
module Worker {
  import opened Jobs
  import opened Database

  const MAX_RETRIES := 3
  const BATCH := 5

  /** A message on a queue. Its identifier is its position in `accepted`. */
  datatype Message = Message(url: string, payload: Payload, receives: nat)

  /** A row of `failed_jobs`. The last two fields are history, not columns: the
      message the row was written for, and the message its last replay sent. */
  datatype FailedRow = FailedRow(
    queueName: string, payload: Payload, attempts: nat, replayed: bool,
    origin: nat, requeuedAs: Option<nat>)

  /** A message as received: its copy of the body and of the receive count. */
  datatype Received = Received(id: nat, url: string, payload: Payload, receives: nat)

  /** Where the worker stands with the message at hand. */
  datatype Phase =
    | Idle
    | Ran(m: Received)     // handled, or no handler: to be deleted
    | Raised(m: Received)  // the handler raised
    | Saved(m: Received)   // written to failed_jobs: to be deleted

  /** `batch` and `phase` live in the worker's memory and are lost when it stops.
      `accepted`, `handled` and `attempts` are history: every job a queue took,
      the messages whose handler returned, and one entry per handler call. */
  datatype World = World(
    urls: Urls,
    db: Db,
    nextId: Id,
    accepted: seq<Job>,
    queue: map<nat, Message>,
    rows: seq<FailedRow>,
    batch: seq<Received>,
    phase: Phase,
    handled: set<nat>,
    attempts: multiset<nat>)

  function Init(urls: Urls, db: Db, nextId: Id): World {
    World(urls, db, nextId, [], map[], [], [], Idle, {}, multiset{})
  }

  // ---------- publishing ----------

  /** `SQSPublisher.publish`: a job for a queue without a URL is dropped. */
  function Publish(w: World, job: Job): World {
    if !Configured(w.urls, job.queueName) then w
    else w.(accepted := w.accepted + [job],
            queue := w.queue[|w.accepted| := Message(w.urls[job.queueName], job.payload, 0)])
  }

  function PublishAll(w: World, jobs: seq<Job>): World
    decreases jobs
  {
    if jobs == [] then w else PublishAll(Publish(w, jobs[0]), jobs[1..])
  }

  /** Runs a plan until it ends or `budget` calls have succeeded. */
  function Exec(w: World, p: Plan, budget: nat): World {
    var w0 := w.(nextId := w.nextId + p.draws);
    if p.commit.None? then w0
    else if budget <= |p.before| then PublishAll(w0, p.before[..budget])
    else
      var w1 := PublishAll(w0, p.before).(db := p.commit.value);
      PublishAll(w1, p.after[..Min(budget - |p.before| - 1, |p.after|)])
  }

  /** The handler returns: every call succeeded, and so did what follows them. */
  predicate Returns(p: Plan, budget: nat) {
    !p.raises && budget > Calls(p)
  }

  // ---------- the worker's steps ----------

  predicate Receivable(w: World, url: string, ids: seq<nat>) {
    && w.batch == [] && w.phase.Idle? && |ids| <= BATCH
    && (forall i :: 0 <= i < |ids| ==> ids[i] in w.queue && w.queue[ids[i]].url == url)
    && (forall i, j :: 0 <= i < j < |ids| ==> ids[i] != ids[j])
  }

  function Bump(queue: map<nat, Message>, ids: seq<nat>): map<nat, Message> {
    map id | id in queue ::
      if id in ids then queue[id].(receives := queue[id].receives + 1) else queue[id]
  }

  function Take(queue: map<nat, Message>, ids: seq<nat>): (b: seq<Received>)
    requires forall i :: 0 <= i < |ids| ==> ids[i] in queue
    ensures |b| == |ids|
    ensures forall i :: 0 <= i < |b| ==>
      var q := queue[ids[i]]; b[i] == Received(ids[i], q.url, q.payload, q.receives)
  {
    seq(|ids|, i requires 0 <= i < |ids| =>
      var q := queue[ids[i]]; Received(ids[i], q.url, q.payload, q.receives))
  }

  /** `receive_message`: up to five messages of one queue, each count raised. */
  function Receive(w: World, url: string, ids: seq<nat>): World
    requires Receivable(w, url, ids)
  {
    var queue := Bump(w.queue, ids);
    w.(queue := queue, batch := Take(queue, ids))
  }

  function PlanOf(w: World, day: int): Plan
    requires w.batch != []
  {
    PlanFor(w.db, w.nextId, w.batch[0].payload, day)
  }

  /** Takes the next message of the batch and carries out the handler's plan. */
  function RunPlan(w: World, p: Plan, budget: nat): World
    requires w.batch != [] && w.phase.Idle?
  {
    var m := w.batch[0];
    var w' := Exec(w, p, budget).(batch := w.batch[1..], attempts := w.attempts + multiset{m.id});
    if Returns(p, budget) then w'.(handled := w.handled + {m.id}, phase := Ran(m))
    else w'.(phase := Raised(m))
  }

  /** Takes the next message of the batch and calls its handler, if it has one. */
  function RunHandler(w: World, budget: nat, day: int): World
    requires w.batch != [] && w.phase.Idle?
  {
    var m := w.batch[0];
    if m.payload.event.Other? then w.(batch := w.batch[1..], phase := Ran(m))
    else RunPlan(w, PlanOf(w, day), budget)
  }

  function SaveFailedJob(w: World): World
    requires w.phase.Raised?
  {
    var m := w.phase.m;
    w.(rows := w.rows + [FailedRow(LastSegment(m.url), m.payload, m.receives, false, m.id, None)],
       phase := Saved(m))
  }

  function DeleteMessage(w: World): World
    requires w.phase.Ran? || w.phase.Saved?
  {
    w.(queue := w.queue - {w.phase.m.id}, phase := Idle)
  }

  // ---------- everyone else's steps ----------

  /** API writes to the tables. Rows of a deleted lead or sequence take their
      enrolments with them (ON DELETE CASCADE). */
  function Admin(w: World, leads: map<Id, LeadRow>, sequences: seq<SequenceRow>, steps: seq<StepRow>,
                 sessions: map<Id, SessionRow>, messages: map<Id, MessageRow>): World
  {
    var kept := map i | i in w.db.enrollments && w.db.enrollments[i].lead in leads
                        && (exists s :: s in sequences && s.id == w.db.enrollments[i].sequence)
                      :: w.db.enrollments[i];
    w.(db := w.db.(leads := leads, sequences := sequences, steps := steps,
                   enrollments := kept, sessions := sessions, messages := messages))
  }

  /** `enroll_lead`: commits the enrolment, then publishes its first step. The API
      process may stop in between (`published == false`). */
  function Enrol(w: World, tenant: Id, sequence: Id, lead: Id, published: bool): World {
    if !HasSequence(w.db, tenant, sequence) || !HasLead(w.db, tenant, lead) then w
    else
      var id := w.nextId;
      var w' := w.(nextId := id + 1,
                   db := w.db.(enrollments := w.db.enrollments[id := Enrollment(tenant, lead, sequence, Active, 0)]));
      if published then Publish(w', StepToken(tenant, id)) else w'
  }

  /** `replay_dlq_job`: publishes the row's payload to the row's queue name, then
      marks the row replayed whatever `publish` returned. The commit may fail. */
  function Replay(w: World, k: nat, committed: bool): World
    requires k < |w.rows|
  {
    var r := w.rows[k];
    var w' := Publish(w, Job(r.queueName, r.payload));
    if !committed then w'
    else
      var sent := if Configured(w.urls, r.queueName) then Some(|w.accepted|) else None;
      w'.(rows := w.rows[k := r.(replayed := true, requeuedAs := sent)])
  }

  datatype Action =
    | AReceive(url: string, ids: seq<nat>)
    | ARun(budget: nat, day: int)
    | ASave
    | ASkip
    | ADelete
    | AAbort
    | AAdmin(leads: map<Id, LeadRow>, sequences: seq<SequenceRow>, steps: seq<StepRow>,
             sessions: map<Id, SessionRow>, messages: map<Id, MessageRow>)
    | AEnrol(tenant: Id, sequence: Id, lead: Id, published: bool)
    | APost(job: Job)
    | ADuplicate(id: nat)
    | AReplay(row: nat, committed: bool)

  /** One step. An action that is not possible now changes nothing.
      AAbort: the process stops, or an exception leaves `poll_queue`.
      ADuplicate: the queue delivers a job it once took another time. */
  function Next(w: World, a: Action): World {
    match a
    case AReceive(url, ids) => if Receivable(w, url, ids) then Receive(w, url, ids) else w
    case ARun(budget, day) => if w.batch != [] && w.phase.Idle? then RunHandler(w, budget, day) else w
    case ASave => if w.phase.Raised? && w.phase.m.receives >= MAX_RETRIES then SaveFailedJob(w) else w
    case ASkip => if w.phase.Raised? && w.phase.m.receives < MAX_RETRIES then w.(phase := Idle) else w
    case ADelete => if w.phase.Ran? || w.phase.Saved? then DeleteMessage(w) else w
    case AAbort => w.(batch := [], phase := Idle)
    case AAdmin(leads, sequences, steps, sessions, messages) =>
      Admin(w, leads, sequences, steps, sessions, messages)
    case AEnrol(tenant, sequence, lead, published) => Enrol(w, tenant, sequence, lead, published)
    case APost(job) => Publish(w, job)
    case ADuplicate(id) => if id < |w.accepted| then Publish(w, w.accepted[id]) else w
    case AReplay(k, committed) => if k < |w.rows| then Replay(w, k, committed) else w
  }

  /** The state after a run: any interleaving of the steps above. */
  function Run(w: World, actions: seq<Action>): World {
    if actions == [] then w
    else Next(Run(w, actions[..|actions| - 1]), actions[|actions| - 1])
  }

  lemma RunExtend(w: World, actions: seq<Action>, a: Action)
    ensures Run(w, actions + [a]) == Next(Run(w, actions), a)
  {
    assert (actions + [a])[..|actions|] == actions;
  }

  lemma RunOneAction(w: World, a: Action)
    ensures Run(w, [a]) == Next(w, a)
  {
    RunExtend(w, [], a);
    assert [] + [a] == [a];
  }

  lemma {:induction false} RunAppend(w: World, first: seq<Action>, second: seq<Action>)
    ensures Run(w, first + second) == Run(Run(w, first), second)
  {
    if second == [] {
      assert first + second == first;
    } else {
      var n := |second| - 1;
      RunAppend(w, first, second[..n]);
      assert first + second == (first + second[..n]) + [second[n]];
      assert second == second[..n] + [second[n]];
      RunExtend(w, first + second[..n], second[n]);
      RunExtend(Run(w, first), second[..n], second[n]);
    }
  }

  // ---------- what publishing and handlers leave alone ----------

  /** `w'` is `w` with more jobs accepted and queued, and perhaps another database. */
  ghost predicate MoreQueued(w: World, w': World) {
    && w'.urls == w.urls && w'.rows == w.rows && w'.batch == w.batch && w'.phase == w.phase
    && w'.handled == w.handled && w'.attempts == w.attempts
    && w.accepted <= w'.accepted
    && (forall id :: id in w.queue && id < |w.accepted| ==> id in w'.queue && w'.queue[id] == w.queue[id])
    && (forall id :: id in w'.queue ==> id in w.queue || |w.accepted| <= id < |w'.accepted|)
    && (forall id :: |w.accepted| <= id < |w'.accepted| ==>
          id in w'.queue && Configured(w.urls, w'.accepted[id].queueName)
          && w'.queue[id] == Message(w.urls[w'.accepted[id].queueName], w'.accepted[id].payload, 0))
  }

  lemma OneQueued(w: World, job: Job)
    ensures var w' := Publish(w, job);
      && MoreQueued(w, w') && w'.db == w.db && w'.nextId == w.nextId
      && forall id :: |w.accepted| <= id < |w'.accepted| ==> w'.accepted[id] in [job]
  {
  }

  lemma QueuedTwice(w: World, w1: World, w2: World, first: seq<Job>, second: seq<Job>)
    requires MoreQueued(w, w1) && MoreQueued(w1, w2)
    requires forall id :: |w.accepted| <= id < |w1.accepted| ==> w1.accepted[id] in first
    requires forall id :: |w1.accepted| <= id < |w2.accepted| ==> w2.accepted[id] in second
    ensures MoreQueued(w, w2)
    ensures forall id :: |w.accepted| <= id < |w2.accepted| ==> w2.accepted[id] in first + second
  {
  }

  lemma {:induction false} PublishAllQueues(w: World, jobs: seq<Job>)
    ensures MoreQueued(w, PublishAll(w, jobs))
    ensures PublishAll(w, jobs).db == w.db && PublishAll(w, jobs).nextId == w.nextId
    ensures forall id :: |w.accepted| <= id < |PublishAll(w, jobs).accepted| ==> PublishAll(w, jobs).accepted[id] in jobs
    decreases jobs
  {
    if jobs != [] {
      var w1 := Publish(w, jobs[0]);
      OneQueued(w, jobs[0]);
      PublishAllQueues(w1, jobs[1..]);
      QueuedTwice(w, w1, PublishAll(w1, jobs[1..]), [jobs[0]], jobs[1..]);
      assert [jobs[0]] + jobs[1..] == jobs;
    }
  }

  lemma ExecQueues(w: World, p: Plan, budget: nat)
    ensures var w' := Exec(w, p, budget);
      && MoreQueued(w, w') && w'.nextId == w.nextId + p.draws
      && (w'.db == w.db || (p.commit.Some? && w'.db == p.commit.value))
      && (forall id :: |w.accepted| <= id < |w'.accepted| ==> w'.accepted[id] in p.before + p.after)
  {
    var w0 := w.(nextId := w.nextId + p.draws);
    if p.commit.Some? {
      if budget <= |p.before| {
        PublishAllQueues(w0, p.before[..budget]);
      } else {
        var sent := p.after[..Min(budget - |p.before| - 1, |p.after|)];
        PublishAllQueues(w0, p.before);
        var w1 := PublishAll(w0, p.before).(db := p.commit.value);
        PublishAllQueues(w1, sent);
        QueuedTwice(w0, w1, PublishAll(w1, sent), p.before, sent);
      }
    }
  }

  /** The jobs that have a queue are accepted, in order. */
  lemma {:induction false} PublishAllSends(w: World, jobs: seq<Job>)
    ensures PublishAll(w, jobs).accepted == w.accepted + Sent(w.urls, jobs)
    ensures PublishAll(w, jobs).urls == w.urls && PublishAll(w, jobs).db == w.db
    decreases jobs
  {
    if jobs != [] {
      PublishAllSends(Publish(w, jobs[0]), jobs[1..]);
    }
  }

  /** Jobs for configured queues are all accepted. */
  lemma PublishAllAccepts(w: World, jobs: seq<Job>)
    requires AllConfigured(w.urls, jobs)
    ensures PublishAll(w, jobs).accepted == w.accepted + jobs
    ensures PublishAll(w, jobs).urls == w.urls && PublishAll(w, jobs).db == w.db
  {
    PublishAllSends(w, jobs);
    SentAll(w.urls, jobs);
  }

  /** A plan that publishes nothing after its commit. */
  lemma ExecToCommit(w: World, p: Plan, budget: nat)
    requires p.commit.Some? && p.after == []
    ensures var w0 := w.(nextId := w.nextId + p.draws);
      Exec(w, p, budget) ==
        if budget <= |p.before| then PublishAll(w0, p.before[..budget])
        else PublishAll(w0, p.before).(db := p.commit.value)
  {
    if budget > |p.before| {
      assert p.after[..Min(budget - |p.before| - 1, |p.after|)] == [];
    }
  }
}
