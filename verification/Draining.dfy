/** Draining the queues by polls in which nothing fails. It ends from every state a run can
    reach, crashes, lost and doubled step jobs and unset queues included; and when all
    queues are set and every enrolment has at most one queued step job, the state fixes
    the number of handler calls in advance. */
module Draining {
  import opened Jobs
  import opened Database
  import opened Worker
  import opened Polls
  import opened Cascade
  import Custody
  import Leads
  import Progress
  import StepTokens

  /** A step job names an enrolment that was drawn. */
  ghost predicate Drawn(nextId: Id, p: Payload) {
    p.event.SequenceStep? && p.enrollment.Some? ==> p.enrollment.value < nextId
  }

  /** Between two messages, with a batch at hand or none. Nothing is asked about which
      enrolments have a step job: two, one or none may be queued for any of them. */
  ghost predicate Ready(w: World) {
    && w.phase.Idle? && Custody.Consistent(w) && Progress.Numbered(w.db, w.nextId) && Progress.Counted(w.db)
    && forall k :: k in w.queue ==> Drawn(w.nextId, w.queue[k].payload)
  }

  /** Two step jobs that would move the same enrolment. */
  predicate Rivals(db: Db, p: Payload, q: Payload) {
    && p.event.SequenceStep? && q.event.SequenceStep?
    && StepActs(db, p) && StepActs(db, q) && p.enrollment == q.enrollment
  }

  /** No enrolment has two step jobs queued. */
  ghost predicate NoRivals(w: World) {
    forall j, k :: j in w.queue && k in w.queue && j != k ==> !Rivals(w.db, w.queue[j].payload, w.queue[k].payload)
  }

  // ---------- what one commit does to the weight of other jobs ----------

  lemma TablesUntouched(db: Db, nextId: Id, p: Payload, day: int)
    requires PlanFor(db, nextId, p, day).commit.Some?
    ensures var db' := PlanFor(db, nextId, p, day).commit.value;
      && db'.steps == db.steps && db'.leads == db.leads && db'.sequences == db.sequences
      && db'.sessions == db.sessions && db'.messages == db.messages
  {
    match p.event
    case SequenceTrigger =>
    case SequenceStep =>
    case MessageCreated =>
    case _ =>
  }

  lemma EnrolmentUntouched(db: Db, nextId: Id, p: Payload, day: int, e: Id)
    requires e < nextId && !(p.event.SequenceStep? && p.enrollment == Some(e))
    ensures var plan := PlanFor(db, nextId, p, day);
      plan.commit.Some? ==>
        && var db' := plan.commit.value;
        && (e in db'.enrollments <==> e in db.enrollments)
        && (e in db.enrollments ==> db'.enrollments[e] == db.enrollments[e])
  {
    match p.event
    case SequenceTrigger =>
    case SequenceStep =>
    case _ =>
  }

  /** A queued step job gets lighter when its rival is handled with steps to go, and
      keeps its weight in every other case. */
  lemma StepJobWeighs(db: Db, nextId: Id, p: Payload, day: int, q: Payload)
    requires q.event.SequenceStep? && Drawn(nextId, q) && PlanFor(db, nextId, p, day).commit.Some?
    ensures var db' := PlanFor(db, nextId, p, day).commit.value;
      && Weight(db', q) <= Weight(db, q)
      && (Weight(db', q) == Weight(db, q) <==> !(Rivals(db, p, q) && Weight(db, q) > 1))
      && (StepActs(db', q) ==> StepActs(db, q))
  {
    var db' := PlanFor(db, nextId, p, day).commit.value;
    TablesUntouched(db, nextId, p, day);
    assert forall x :: Visible(db', x) == Visible(db, x);
    if q.enrollment.Some? && !(p.event.SequenceStep? && p.enrollment == q.enrollment) {
      EnrolmentUntouched(db, nextId, p, day, q.enrollment.value);
    }
  }

  /** No queued job gets heavier by another one's commit. */
  lemma OtherJobWeighs(db: Db, nextId: Id, p: Payload, day: int, q: Payload)
    requires Drawn(nextId, q) && PlanFor(db, nextId, p, day).commit.Some?
    ensures var db' := PlanFor(db, nextId, p, day).commit.value;
      && Weight(db', q) <= Weight(db, q)
      && (Weight(db', q) == Weight(db, q) <==> !(Rivals(db, p, q) && Weight(db, q) > 1))
  {
    var db' := PlanFor(db, nextId, p, day).commit.value;
    TablesUntouched(db, nextId, p, day);
    if q.event.SequenceStep? {
      StepJobWeighs(db, nextId, p, day, q);
    } else if q.event.SequenceTrigger? && TriggerComplete(q) {
      EnrolmentsWeightStable(db, db', q.tenant.value, q.lead.value,
                             ActiveFor(db.sequences, q.tenant.value, q.trigger.value));
    } else if q.event.MessageCreated? && MessageFound(db, q) && SessionLead(db, q).Some? {
      EnrolmentsWeightStable(db, db', q.tenant.value, SessionLead(db, q).value,
                             ActiveFor(db.sequences, q.tenant.value, SCORE_UPDATED));
    }
  }

  // ---------- one message ----------

  /** Another queued job loses weight when the message at hand is handled. */
  ghost predicate Lightens(w: World, k: nat)
    requires w.batch != []
  {
    && k in w.queue && k != w.batch[0].id
    && Rivals(w.db, w.batch[0].payload, w.queue[k].payload) && WeightAt(w, k) > 1
  }

  /** What becomes of the weight of a job that waits meanwhile. */
  ghost predicate Waits(w: World, db': Db, k: nat)
    requires w.batch != []
  {
    k in w.queue && k != w.batch[0].id ==>
      && Weight(db', w.queue[k].payload) <= Weight(w.db, w.queue[k].payload)
      && (Weight(db', w.queue[k].payload) == Weight(w.db, w.queue[k].payload) <==> !Lightens(w, k))
  }

  lemma OtherJobsWait(w: World, day: int)
    requires Ready(w) && w.batch != []
    ensures forall k: nat :: Waits(w, DbAfter(w.db, PlanOf(w, day)), k)
  {
    var db' := DbAfter(w.db, PlanOf(w, day));
    forall k: nat | k in w.queue && k != w.batch[0].id ensures Waits(w, db', k) {
      if PlanOf(w, day).commit.Some? {
        OtherJobWeighs(w.db, w.nextId, w.batch[0].payload, day, w.queue[k].payload);
      } else {
        NothingActs(w.db, w.nextId, w.batch[0].payload, day);
      }
    }
  }

  lemma NothingActs(db: Db, nextId: Id, p: Payload, day: int)
    requires PlanFor(db, nextId, p, day).commit.None?
    ensures !(p.event.SequenceStep? && StepActs(db, p))
  {
  }

  /** Queued messages are accepted jobs. */
  ghost predicate Filed(w: World) {
    forall k :: k in w.queue ==> k < |w.accepted| && w.queue[k].payload == w.accepted[k].payload
  }

  lemma ConsistentIsFiled(w: World)
    requires Custody.Consistent(w)
    ensures Filed(w)
  {
    forall k | k in w.queue ensures k < |w.accepted| && w.queue[k].payload == w.accepted[k].payload {
      assert Custody.IsJob(w, k, w.queue[k].payload, w.queue[k].url);
    }
  }

  lemma OldWeightAfter(w: World, w': World, p: Plan, k: nat)
    requires w.batch != [] && Filed(w) && Effect(w, w', p) && Waits(w, w'.db, k)
    requires k < |w.accepted| && k != w.batch[0].id
    ensures WeightAt(w', k) <= WeightAt(w, k)
    ensures WeightAt(w', k) == WeightAt(w, k) <==> !Lightens(w, k)
  {
    assert w'.accepted[k] == w.accepted[k];
  }

  lemma TailWeighs(w: World, n: nat, jobs: seq<Job>)
    requires n + |jobs| == |w.accepted|
    requires forall k :: n <= k < |w.accepted| ==> k in w.queue && w.queue[k].payload == jobs[k - n].payload
    ensures QueueWeights(w)[n..] == Weights(w.db, jobs)
  {
    var ys, ws := QueueWeights(w)[n..], Weights(w.db, jobs);
    forall k | 0 <= k < |ys| ensures ys[k] == ws[k] { assert n + k in w.queue; }
  }

  /** The weights after, entry by entry: those of the jobs that were there before. */
  lemma OldWeightsAfter(w: World, w': World, p: Plan)
    requires w.batch != [] && Filed(w) && Effect(w, w', p) && forall k: nat :: Waits(w, w'.db, k)
    ensures var xs, ys, n, id := QueueWeights(w), QueueWeights(w'), |w.accepted|, w.batch[0].id;
      && id < n <= |ys| && ys[id] == 0
      && forall k :: 0 <= k < n && k != id ==> ys[k] <= xs[k] && (ys[k] == xs[k] <==> !Lightens(w, k))
  {
    var xs, ys, id := QueueWeights(w), QueueWeights(w'), w.batch[0].id;
    forall k | 0 <= k < |xs| && k != id ensures ys[k] <= xs[k] && (ys[k] == xs[k] <==> !Lightens(w, k)) {
      assert Waits(w, w'.db, k);
      OldWeightAfter(w, w', p, k);
    }
  }

  /** Those of the new jobs. */
  lemma NewWeightsAfter(w: World, w': World, p: Plan)
    requires w.batch != [] && Effect(w, w', p)
    ensures |w.accepted| <= |w'.accepted|
    ensures QueueWeights(w')[|w.accepted|..] == Weights(w'.db, Sent(w.urls, p.before + p.after))
  {
    var jobs, n := Sent(w.urls, p.before + p.after), |w.accepted|;
    forall k | n <= k < |w'.accepted| ensures k in w'.queue && w'.queue[k].payload == jobs[k - n].payload {
      assert w'.accepted[k] == jobs[k - n];
    }
    TailWeighs(w', n, jobs);
  }

  lemma SumAfter(xs: seq<nat>, ys: seq<nat>, id: nat)
    requires id < |xs| <= |ys| && ys[id] == 0
    requires forall k :: 0 <= k < |xs| && k != id ==> ys[k] <= xs[k]
    ensures Sum(ys) + xs[id] <= Sum(xs) + Sum(ys[|xs|..])
    ensures Sum(ys) + xs[id] == Sum(xs) + Sum(ys[|xs|..]) <==> forall k :: 0 <= k < |xs| && k != id ==> ys[k] == xs[k]
  {
    var kept := ys[..|xs|];
    SumDrops(xs, kept, id);
    SumAppend(kept, ys[|xs|..]);
    assert kept + ys[|xs|..] == ys;
    assert forall k :: 0 <= k < |xs| ==> kept[k] == ys[k];
  }

  lemma TotalAfter(w: World, w': World, p: Plan)
    requires w.batch != [] && Filed(w) && Effect(w, w', p) && forall k: nat :: Waits(w, w'.db, k)
    ensures var before := TotalWeight(w) + Sum(Weights(w'.db, Sent(w.urls, p.before + p.after)));
      && TotalWeight(w') + WeightAt(w, w.batch[0].id) <= before
      && (TotalWeight(w') + WeightAt(w, w.batch[0].id) == before <==> forall k: nat :: !Lightens(w, k))
  {
    OldWeightsAfter(w, w', p);
    NewWeightsAfter(w, w', p);
    SumAfter(QueueWeights(w), QueueWeights(w'), w.batch[0].id);
    assert forall k: nat :: Lightens(w, k) ==> k < |w.accepted| && k != w.batch[0].id;
  }

  /** What is sent weighs at most one less than the message, and exactly that when no
      job is dropped. */
  lemma SentBalances(w: World, fate: Fate)
    requires Ready(w) && w.batch != [] && Succeeds(w, fate)
    ensures var p := PlanOf(w, fate.day);
      var added := Sum(Weights(DbAfter(w.db, p), Sent(w.urls, p.before + p.after)));
      && added < Weight(w.db, w.batch[0].payload)
      && (added + 1 == Weight(w.db, w.batch[0].payload) <==> AllConfigured(w.urls, p.before + p.after))
  {
    var p := PlanOf(w, fate.day);
    PlanBalances(w.db, w.nextId, w.batch[0].payload, fate.day);
    SentWeighs(DbAfter(w.db, p), w.urls, p.before + p.after);
  }

  /** Handling a message without failure lowers the total weight of the queues: by exactly
      one, unless a job it publishes has no queue, or a second job is queued for the
      enrolment it moves and more than one step is left; then by more. */
  lemma MessageLowersWeight(w: World, fate: Fate)
    requires Ready(w) && w.batch != [] && Succeeds(w, fate)
    ensures var w', p := Run(w, MessageTrace(w, fate)), PlanOf(w, fate.day);
      && Ready(w') && TotalWeight(w') < TotalWeight(w)
      && (TotalWeight(w') + 1 == TotalWeight(w) <==>
            (forall k: nat :: !Lightens(w, k)) && AllConfigured(w.urls, p.before + p.after))
  {
    var w', p := Run(w, MessageTrace(w, fate)), PlanOf(w, fate.day);
    MessageSucceeds(w, fate);
    SentBalances(w, fate);
    OtherJobsWait(w, fate.day);
    ConsistentIsFiled(w);
    TotalAfter(w, w', p);
    StaysReady(w, w', fate.day);
  }

  /** New step jobs name enrolments that were drawn. */
  lemma NewJobsDrawn(db: Db, nextId: Id, p: Payload, day: int, job: Job)
    requires Progress.Numbered(db, nextId)
    requires var plan := PlanFor(db, nextId, p, day); job in plan.before + plan.after
    ensures Drawn(nextId + PlanFor(db, nextId, p, day).draws, job.payload)
  {
    match p.event
    case SequenceTrigger =>
    case SequenceStep =>
    case _ =>
  }

  lemma StaysReady(w: World, w': World, day: int)
    requires Ready(w) && w.batch != [] && Effect(w, w', PlanOf(w, day)) && Custody.Consistent(w')
    ensures Ready(w')
  {
    var p := PlanOf(w, day);
    Progress.CommitKeeps(w.db, w.nextId, w.batch[0].payload, day, 0);
    SentAll(w.urls, p.before + p.after);
    ConsistentIsFiled(w);
    forall k | k in w'.queue ensures Drawn(w'.nextId, w'.queue[k].payload) {
      if k < |w.accepted| {
        assert w'.accepted[k] == w.accepted[k];
      } else {
        assert w'.accepted[k] in Sent(w.urls, p.before + p.after);
        NewJobsDrawn(w.db, w.nextId, w.batch[0].payload, day, w'.accepted[k]);
      }
    }
  }

  // ---------- one poll ----------

  /** Every message of the batch is handled to its end. */
  ghost predicate NothingFails(w: World, fates: seq<Fate>)
    decreases fates
  {
    if fates == [] then w.batch == []
    else
      && w.batch != [] && Succeeds(w, fates[0])
      && NothingFails(Run(w, MessageTrace(w, fates[0])), fates[1..])
  }

  /** Up to five messages of one queue are received, and nothing fails. */
  ghost predicate CleanPoll(w: World, p: Poll) {
    && Receivable(w, p.url, p.ids) && |p.fates| == |p.ids|
    && NothingFails(Next(w, AReceive(p.url, p.ids)), p.fates)
  }

  /** Receiving changes counts and the batch; nothing gets lighter or heavier. */
  lemma ReceivingWeighsNothing(w: World, url: string, ids: seq<nat>)
    requires Ready(w) && Receivable(w, url, ids)
    ensures var w1 := Next(w, AReceive(url, ids));
      && Ready(w1) && TotalWeight(w1) == TotalWeight(w) && (NoRivals(w) ==> NoRivals(w1))
      && w1 == w.(queue := w1.queue, batch := w1.batch) && |w1.batch| == |ids| <= 5
      && w1.queue.Keys == w.queue.Keys && forall k :: k in w.queue ==> w1.queue[k].payload == w.queue[k].payload
  {
    var w1 := Next(w, AReceive(url, ids));
    Custody.ConsistentReceive(w, url, ids);
    assert w1.queue.Keys == w.queue.Keys;
    assert forall k :: k in w1.queue <==> k in w.queue;
    assert QueueWeights(w1) == QueueWeights(w);
  }

  /** Each message of the batch lowers the weight. */
  lemma {:induction false} BatchLowersWeight(w: World, fates: seq<Fate>)
    requires Ready(w) && NothingFails(w, fates)
    ensures var w' := Run(w, BatchTrace(w, fates));
      Ready(w') && w'.batch == [] && TotalWeight(w') + |fates| <= TotalWeight(w)
    decreases fates
  {
    if fates != [] {
      MessageLowersWeight(w, fates[0]);
      TurnUnfolds(w, fates);
      BatchLowersWeight(Run(w, MessageTrace(w, fates[0])), fates[1..]);
    }
  }

  lemma PollLowersWeight(w: World, p: Poll)
    requires Ready(w) && CleanPoll(w, p)
    ensures Ready(AfterPoll(w, p)) && AfterPoll(w, p).batch == []
    ensures TotalWeight(AfterPoll(w, p)) + |p.ids| <= TotalWeight(w)
  {
    ReceivingWeighsNothing(w, p.url, p.ids);
    BatchLowersWeight(Next(w, AReceive(p.url, p.ids)), p.fates);
    PollUnfolds(w, p);
  }

  // ---------- draining ----------

  /** Polls of any queues, in any order, with any messages in them. */
  ghost predicate Schedule(w: World, polls: seq<Poll>)
    decreases polls
  {
    polls == [] || (CleanPoll(w, polls[0]) && Schedule(AfterPoll(w, polls[0]), polls[1..]))
  }

  function Drain(w: World, polls: seq<Poll>): World
    decreases polls
  {
    if polls == [] then w else Drain(AfterPoll(w, polls[0]), polls[1..])
  }

  /** How many messages the polls handle. */
  function Handled(polls: seq<Poll>): nat {
    if polls == [] then 0 else |polls[0].ids| + Handled(polls[1..])
  }

  /** Whatever the polls return, a drain ends: it handles at most `TotalWeight` messages. */
  lemma {:induction false} DrainEnds(w: World, polls: seq<Poll>)
    requires Ready(w) && Schedule(w, polls)
    ensures Ready(Drain(w, polls))
    ensures TotalWeight(Drain(w, polls)) + Handled(polls) <= TotalWeight(w)
    decreases polls
  {
    if polls != [] {
      PollLowersWeight(w, polls[0]);
      DrainEnds(AfterPoll(w, polls[0]), polls[1..]);
    }
  }

  /** The leads that queued triggers and sessions name exist. */
  ghost predicate LeadsPresent(w: World) {
    && (forall id :: id in w.queue && w.queue[id].payload.event.SequenceTrigger? && TriggerComplete(w.queue[id].payload) ==>
          w.queue[id].payload.lead.value in w.db.leads)
    && (forall s :: s in w.db.sessions && w.db.sessions[s].lead.Some? ==> w.db.sessions[s].lead.value in w.db.leads)
  }

  /** A handler only triggers sequences for a lead that a session names. */
  lemma NewTriggersName(db: Db, nextId: Id, p: Payload, day: int, job: Job)
    requires var plan := PlanFor(db, nextId, p, day); job in plan.before + plan.after
    requires job.payload.event.SequenceTrigger?
    ensures exists s :: s in db.sessions && db.sessions[s].lead == job.payload.lead
  {
    match p.event
    case MessageCreated => assert db.sessions[p.session.value].lead == job.payload.lead;
    case _ =>
  }

  lemma LeadsStayPresent(w: World, w': World, day: int)
    requires LeadsPresent(w) && w.batch != [] && Filed(w) && Effect(w, w', PlanOf(w, day))
    ensures LeadsPresent(w')
  {
    var p, n := PlanOf(w, day), |w.accepted|;
    if p.commit.Some? { TablesUntouched(w.db, w.nextId, w.batch[0].payload, day); }
    SentAll(w.urls, p.before + p.after);
    forall k | k in w'.queue && w'.queue[k].payload.event.SequenceTrigger? && TriggerComplete(w'.queue[k].payload)
      ensures w'.queue[k].payload.lead.value in w'.db.leads
    {
      if k < n {
        assert w'.accepted[k] == w.accepted[k];
      } else {
        assert w'.accepted[k] in Sent(w.urls, p.before + p.after);
        NewTriggersName(w.db, w.nextId, w.batch[0].payload, day, w'.accepted[k]);
      }
    }
  }

  /** Granted every call, the message at hand is handled to its end. */
  lemma MessageCanSucceed(w: World, day: int) returns (fate: Fate)
    requires Ready(w) && LeadsPresent(w) && w.batch != []
    ensures Succeeds(w, fate)
    ensures var w' := Run(w, MessageTrace(w, fate)); Ready(w') && LeadsPresent(w') && w'.batch == w.batch[1..]
  {
    fate := Fate(true, Calls(PlanOf(w, day)) + 1, true, true, day);
    assert Custody.Genuine(w, w.batch[0]);
    ConsistentIsFiled(w);
    MessageSucceeds(w, fate);
    StaysReady(w, Run(w, MessageTrace(w, fate)), day);
    LeadsStayPresent(w, Run(w, MessageTrace(w, fate)), day);
  }

  lemma BatchCanSucceed(w: World, day: int) returns (fates: seq<Fate>)
    requires Ready(w) && LeadsPresent(w)
    ensures |fates| == |w.batch| && NothingFails(w, fates) && LeadsPresent(Run(w, BatchTrace(w, fates)))
    decreases |w.batch|
  {
    if w.batch == [] {
      fates := [];
    } else {
      var fate := MessageCanSucceed(w, day);
      var rest := BatchCanSucceed(Run(w, MessageTrace(w, fate)), day);
      fates := [fate] + rest;
      assert fates[0] == fate && fates[1..] == rest;
      TurnUnfolds(w, fates);
    }
  }

  /** While the leads are present, whatever a poll returns can be handled to its end. */
  lemma DrainGoesOn(w: World, url: string, ids: seq<nat>, day: int) returns (p: Poll)
    requires Ready(w) && LeadsPresent(w) && Receivable(w, url, ids)
    ensures p.url == url && p.ids == ids && CleanPoll(w, p) && LeadsPresent(AfterPoll(w, p))
  {
    var w1 := Next(w, AReceive(url, ids));
    ReceivingWeighsNothing(w, url, ids);
    assert forall k :: k in w1.queue <==> k in w.queue.Keys;
    var fates := BatchCanSucceed(w1, day);
    p := Poll(url, ids, fates);
    PollUnfolds(w, p);
  }

  /** So the queues can be drained: some schedule of polls empties them. */
  lemma {:induction false} QueuesCanBeDrained(w: World, day: int) returns (polls: seq<Poll>)
    requires Ready(w) && LeadsPresent(w) && w.batch == []
    ensures Schedule(w, polls) && Drain(w, polls).queue == map[]
    decreases TotalWeight(w)
  {
    if w.queue == map[] {
      polls := [];
    } else {
      var id :| id in w.queue;
      var p := DrainGoesOn(w, w.queue[id].url, [id], day);
      PollLowersWeight(w, p);
      var rest := QueuesCanBeDrained(AfterPoll(w, p), day);
      polls := [p] + rest;
      assert polls[0] == p && polls[1..] == rest;
    }
  }

  // ---------- every state a run reaches ----------

  /** Every job ever accepted names a drawn enrolment, if it is a step job. */
  ghost predicate AllDrawn(w: World) {
    forall k :: 0 <= k < |w.accepted| ==> Drawn(w.nextId, w.accepted[k].payload)
  }

  /** The API posts no step job for an enrolment that does not exist yet. */
  ghost predicate PostsDrawn(w: World, a: Action) {
    a.APost? ==> Drawn(w.nextId, a.job.payload)
  }

  lemma DrawnNext(w: World, a: Action)
    requires Custody.Consistent(w) && Progress.Numbered(w.db, w.nextId) && AllDrawn(w) && PostsDrawn(w, a)
    ensures AllDrawn(Next(w, a))
  {
    match a
    case ARun(budget, day) => if w.batch != [] && w.phase.Idle? { DrawnRun(w, budget, day); }
    case AReplay(k, _) => if k < |w.rows| { assert Custody.GenuineRow(w, w.rows[k]); }
    case _ =>
  }

  lemma DrawnRun(w: World, budget: nat, day: int)
    requires Progress.Numbered(w.db, w.nextId) && AllDrawn(w) && w.batch != [] && w.phase.Idle?
    ensures AllDrawn(RunHandler(w, budget, day))
  {
    if !w.batch[0].payload.event.Other? {
      var p, w' := PlanOf(w, day), RunHandler(w, budget, day);
      ExecQueues(w, p, budget);
      forall k | 0 <= k < |w'.accepted| ensures Drawn(w'.nextId, w'.accepted[k].payload) {
        if k < |w.accepted| {
          assert w'.accepted[k] == w.accepted[k];
        } else {
          NewJobsDrawn(w.db, w.nextId, w.batch[0].payload, day, w'.accepted[k]);
        }
      }
    }
  }

  ghost predicate RunPostsDrawn(w: World, actions: seq<Action>) {
    forall i :: 0 <= i < |actions| ==> PostsDrawn(Run(w, actions[..i]), actions[i])
  }

  lemma {:induction false} DrawnAlways(urls: Urls, actions: seq<Action>)
    requires RunPostsDrawn(Init(urls, EMPTY, 0), actions)
    ensures AllDrawn(Run(Init(urls, EMPTY, 0), actions))
  {
    if actions != [] {
      var n := |actions| - 1;
      var w := Init(urls, EMPTY, 0);
      assert PostsDrawn(Run(w, actions[..n]), actions[n]);
      forall i | 0 <= i < n ensures PostsDrawn(Run(w, actions[..n][..i]), actions[..n][i]) {
        assert actions[..n][..i] == actions[..i];
        assert PostsDrawn(Run(w, actions[..i]), actions[i]);
      }
      DrawnAlways(urls, actions[..n]);
      Custody.ConsistentAlways(urls, EMPTY, 0, actions[..n]);
      Progress.IndexCountsCommittedSteps(urls, actions[..n]);
      DrawnNext(Run(w, actions[..n]), actions[n]);
    }
  }

  lemma ReachedIsReady(urls: Urls, actions: seq<Action>)
    requires RunPostsDrawn(Init(urls, EMPTY, 0), actions) && Run(Init(urls, EMPTY, 0), actions).phase.Idle?
    ensures Ready(Run(Init(urls, EMPTY, 0), actions))
  {
    var w := Run(Init(urls, EMPTY, 0), actions);
    DrawnAlways(urls, actions);
    Custody.ConsistentAlways(urls, EMPTY, 0, actions);
    Progress.IndexCountsCommittedSteps(urls, actions);
    ConsistentIsFiled(w);
  }

  /** After any run at all, with handlers cut off between a publish and a commit, lost
      deletes, duplicates and replays anywhere, and with any queues set: once failures
      stop, draining ends. */
  lemma DrainEndsAfterAnyRun(urls: Urls, actions: seq<Action>, polls: seq<Poll>)
    requires RunPostsDrawn(Init(urls, EMPTY, 0), actions)
    requires Run(Init(urls, EMPTY, 0), actions).phase.Idle? && Schedule(Run(Init(urls, EMPTY, 0), actions), polls)
    ensures var w := Run(Init(urls, EMPTY, 0), actions);
      Handled(polls) + TotalWeight(Drain(w, polls)) <= TotalWeight(w)
  {
    ReachedIsReady(urls, actions);
    DrainEnds(Run(Init(urls, EMPTY, 0), actions), polls);
  }

  // ---------- the exact number of calls ----------

  lemma PlanPublishesToConfigured(w: World, day: int)
    requires w.batch != [] && QueuesConfigured(w.urls)
    ensures var p := PlanOf(w, day);
      AllConfigured(w.urls, p.before + p.after) && Sent(w.urls, p.before + p.after) == p.before + p.after
  {
    PublishedQueues(w.db, w.nextId, w.batch[0].payload, day);
    SentAll(w.urls, PlanOf(w, day).before + PlanOf(w, day).after);
  }

  /** The step jobs of a plan: one for each new enrolment, or one for the enrolment that
      is moved. */
  ghost predicate StepJobsOf(w: World, p: Plan)
    requires w.batch != []
  {
    var q, jobs := w.batch[0].payload, p.before + p.after;
    forall x :: 0 <= x < |jobs| && jobs[x].payload.event.SequenceStep? ==>
      || (q.event.SequenceTrigger? && jobs[x].payload.enrollment == Some(w.nextId + x))
      || (q.event.SequenceStep? && StepActs(w.db, q) && |jobs| == 1 && jobs[x].payload.enrollment == q.enrollment)
  }

  lemma PlanStepJobs(w: World, day: int)
    requires w.batch != []
    ensures StepJobsOf(w, PlanOf(w, day))
  {
    match w.batch[0].payload.event
    case SequenceTrigger =>
    case SequenceStep =>
    case _ =>
  }

  lemma NoOldRivals(w: World, w': World, day: int, j: nat, k: nat)
    requires Ready(w) && NoRivals(w) && w.batch != [] && Effect(w, w', PlanOf(w, day))
    requires j in w'.queue && k in w'.queue && j < k < |w.accepted|
    ensures !Rivals(w'.db, w'.queue[j].payload, w'.queue[k].payload)
  {
    assert j in w.queue && k in w.queue ==> !Rivals(w.db, w.queue[j].payload, w.queue[k].payload);
    if Rivals(w'.db, w'.queue[j].payload, w'.queue[k].payload) {
      OldStepJob(w, w', day, j);
      OldStepJob(w, w', day, k);
    }
  }

  /** Nothing is dropped, and the plan's step jobs are as they should be. */
  ghost predicate AllSent(w: World, w': World, p: Plan)
    requires w.batch != []
  {
    Effect(w, w', p) && Sent(w.urls, p.before + p.after) == p.before + p.after && StepJobsOf(w, p)
  }

  lemma NewStepJobAt(w: World, w': World, p: Plan, k: nat)
    requires w.batch != [] && AllSent(w, w', p)
    requires k in w'.queue && |w.accepted| <= k && w'.queue[k].payload.event.SequenceStep?
    ensures NewStepJob(w, w', k)
  {
    assert w'.accepted[k] == (p.before + p.after)[k - |w.accepted|];
  }

  /** The queued message `k` is for an enrolment just drawn, or the successor of the
      message at hand. */
  ghost predicate NewStepJob(w: World, w': World, k: nat)
    requires w.batch != [] && k in w'.queue && |w.accepted| <= k
  {
    var p, q := w.batch[0].payload, w'.queue[k].payload;
    || (p.event.SequenceTrigger? && q.enrollment == Some(w.nextId + (k - |w.accepted|)))
    || (p.event.SequenceStep? && StepActs(w.db, p) && |w'.accepted| == |w.accepted| + 1 && q.enrollment == p.enrollment)
  }

  /** The successor's enrolment has no other job, and a new enrolment has no old one. */
  lemma NoOldRivalOfNew(w: World, w': World, day: int, j: nat, k: nat)
    requires Ready(w) && NoRivals(w) && w.batch != [] && AllSent(w, w', PlanOf(w, day))
    requires j in w'.queue && k in w'.queue && j < |w.accepted| <= k
    ensures !Rivals(w'.db, w'.queue[j].payload, w'.queue[k].payload)
  {
    assert j in w.queue && j != w.batch[0].id ==> !Rivals(w.db, w.queue[w.batch[0].id].payload, w.queue[j].payload);
    if Rivals(w'.db, w'.queue[j].payload, w'.queue[k].payload) {
      OldStepJob(w, w', day, j);
      NewStepJobAt(w, w', PlanOf(w, day), k);
    }
  }

  lemma NoTwoNewRivals(w: World, w': World, p: Plan, j: nat, k: nat)
    requires w.batch != [] && AllSent(w, w', p)
    requires j in w'.queue && k in w'.queue && |w.accepted| <= j < k
    ensures !Rivals(w'.db, w'.queue[j].payload, w'.queue[k].payload)
  {
    if Rivals(w'.db, w'.queue[j].payload, w'.queue[k].payload) {
      NewStepJobAt(w, w', p, j);
      NewStepJobAt(w, w', p, k);
    }
  }

  lemma RivalsStayApart(w: World, w': World, day: int)
    requires Ready(w) && NoRivals(w) && w.batch != [] && AllSent(w, w', PlanOf(w, day))
    ensures NoRivals(w')
  {
    forall j, k | j in w'.queue && k in w'.queue && j != k
      ensures !Rivals(w'.db, w'.queue[j].payload, w'.queue[k].payload)
    {
      var a, b := if j < k then j else k, if j < k then k else j;
      if b < |w.accepted| { NoOldRivals(w, w', day, a, b); }
      else if a < |w.accepted| { NoOldRivalOfNew(w, w', day, a, b); }
      else { NoTwoNewRivals(w, w', PlanOf(w, day), a, b); }
    }
  }

  /** A queued step job that acts after the commit acted before, if it was there. */
  lemma OldStepJob(w: World, w': World, day: int, k: nat)
    requires Ready(w) && w.batch != [] && Effect(w, w', PlanOf(w, day))
    requires k in w'.queue && k < |w.accepted| && w'.queue[k].payload.event.SequenceStep?
    requires StepActs(w'.db, w'.queue[k].payload)
    ensures k in w.queue && k != w.batch[0].id
    ensures w.queue[k].payload == w'.queue[k].payload && StepActs(w.db, w.queue[k].payload)
  {
    assert w'.accepted[k] == w.accepted[k];
    assert Custody.IsJob(w, k, w.queue[k].payload, w.queue[k].url);
    if PlanOf(w, day).commit.Some? {
      StepJobWeighs(w.db, w.nextId, w.batch[0].payload, day, w.queue[k].payload);
    }
  }

  lemma MessageCountsDown(w: World, fate: Fate)
    requires Ready(w) && NoRivals(w) && QueuesConfigured(w.urls) && w.batch != [] && Succeeds(w, fate)
    ensures var w' := Run(w, MessageTrace(w, fate));
      Ready(w') && NoRivals(w') && w'.urls == w.urls && TotalWeight(w') + 1 == TotalWeight(w)
  {
    MessageLowersWeight(w, fate);
    MessageSucceeds(w, fate);
    PlanPublishesToConfigured(w, fate.day);
    PlanStepJobs(w, fate.day);
    RivalsStayApart(w, Run(w, MessageTrace(w, fate)), fate.day);
    assert Custody.Genuine(w, w.batch[0]);
    ConsistentIsFiled(w);
    assert forall k: nat :: !Lightens(w, k);
  }

  lemma {:induction false} BatchCountsDown(w: World, fates: seq<Fate>)
    requires Ready(w) && NoRivals(w) && QueuesConfigured(w.urls) && NothingFails(w, fates)
    ensures var w' := Run(w, BatchTrace(w, fates));
      && Ready(w') && NoRivals(w') && w'.urls == w.urls && w'.batch == []
      && TotalWeight(w') + |fates| == TotalWeight(w)
    decreases fates
  {
    if fates != [] {
      MessageCountsDown(w, fates[0]);
      TurnUnfolds(w, fates);
      BatchCountsDown(Run(w, MessageTrace(w, fates[0])), fates[1..]);
    }
  }

  lemma PollCountsDown(w: World, p: Poll)
    requires Ready(w) && NoRivals(w) && QueuesConfigured(w.urls) && CleanPoll(w, p)
    ensures var w' := AfterPoll(w, p);
      && Ready(w') && NoRivals(w') && w'.urls == w.urls && TotalWeight(w') + |p.ids| == TotalWeight(w)
  {
    ReceivingWeighsNothing(w, p.url, p.ids);
    BatchCountsDown(Next(w, AReceive(p.url, p.ids)), p.fates);
    PollUnfolds(w, p);
  }

  /** While no enrolment has two step jobs queued, every handler call lowers the weight
      by one: a drain empties the queues after exactly `TotalWeight` calls, no matter
      what its polls return. */
  lemma {:induction false} DrainCountsDown(w: World, polls: seq<Poll>)
    requires Ready(w) && NoRivals(w) && QueuesConfigured(w.urls) && Schedule(w, polls)
    ensures Ready(Drain(w, polls)) && NoRivals(Drain(w, polls))
    ensures TotalWeight(Drain(w, polls)) + Handled(polls) == TotalWeight(w)
    ensures Drain(w, polls).queue == map[] <==> Handled(polls) == TotalWeight(w)
    decreases polls
  {
    if polls != [] {
      PollCountsDown(w, polls[0]);
      DrainCountsDown(AfterPoll(w, polls[0]), polls[1..]);
    } else {
      ConsistentIsFiled(w);
      EmptyWeighsNothing(w);
    }
  }

  lemma EmptyWeighsNothing(w: World)
    requires Filed(w)
    ensures w.queue == map[] <==> TotalWeight(w) == 0
  {
    var ws := QueueWeights(w);
    if w.queue == map[] {
      SumOfNothing(ws);
    } else {
      var id :| id in w.queue;
      assert ws[id] > 0;
      SumAtLeast(ws, id);
    }
  }

  lemma {:induction false} SumOfNothing(xs: seq<nat>)
    requires forall k :: 0 <= k < |xs| ==> xs[k] == 0
    ensures Sum(xs) == 0
  {
    if xs != [] { SumOfNothing(xs[..|xs| - 1]); }
  }

  lemma {:induction false} SumAtLeast(xs: seq<nat>, x: nat)
    requires x < |xs|
    ensures Sum(xs) >= xs[x]
  {
    if x < |xs| - 1 { SumAtLeast(xs[..|xs| - 1], x); }
  }

  lemma OneRivalOnly(w: World, j: nat, k: nat)
    requires StepTokens.Conserved(w) && w.phase.Idle? && j in w.queue && k in w.queue
    requires Rivals(w.db, w.queue[j].payload, w.queue[k].payload)
    ensures j == k
  {
    var e := w.queue[j].payload.enrollment.value;
    assert StepTokens.Driven(w, e);
    assert StepTokens.TokenAt(w, e, StepTokens.Queued(j)) && StepTokens.TokenAt(w, e, StepTokens.Queued(k));
  }

  /** Balanced step jobs are no rivals, so the count is exact in every orderly run. */
  lemma BalancedHasNoRivals(w: World)
    requires StepTokens.Conserved(w) && w.phase.Idle?
    ensures Ready(w) && NoRivals(w)
  {
    forall k | k in w.queue ensures Drawn(w.nextId, w.queue[k].payload) {
      assert Custody.IsJob(w, k, w.queue[k].payload, w.queue[k].url);
      assert StepTokens.Addressed(w.db, w.nextId, w.accepted[k]);
    }
    forall j, k | j in w.queue && k in w.queue && Rivals(w.db, w.queue[j].payload, w.queue[k].payload)
      ensures j == k
    {
      OneRivalOnly(w, j, k);
    }
  }

  // ---------- two cascades ----------

  /** The sum over sequences of max(1, number of steps). */
  function SumOfSteps(db: Db, active: seq<SequenceRow>): nat {
    if active == [] then 0
    else
      var steps := |OrderedSteps(db.steps, active[0].id)|;
      (if steps > 1 then steps else 1) + SumOfSteps(db, active[1..])
  }

  lemma {:induction false} SumOfStepsIsWeight(db: Db, tenant: Id, lead: Id, active: seq<SequenceRow>)
    requires HasLead(db, tenant, lead)
    ensures EnrolmentsWeight(db, tenant, lead, active) == SumOfSteps(db, active)
  {
    if active != [] {
      var n := |active| - 1;
      SumOfStepsIsWeight(db, tenant, lead, active[..n]);
      SumOfStepsSplit(db, active[..n], active[n]);
      assert active[..n] + [active[n]] == active;
    }
  }

  lemma {:induction false} SumOfStepsSplit(db: Db, active: seq<SequenceRow>, s: SequenceRow)
    ensures SumOfSteps(db, active + [s]) == SumOfSteps(db, active) + SumOfSteps(db, [s])
  {
    if active != [] {
      SumOfStepsSplit(db, active[1..], s);
      assert (active + [s])[1..] == active[1..] + [s];
    }
  }

  /** The same over the table: what each row that runs on the trigger adds. */
  function StepsDue(db: Db, rows: seq<SequenceRow>, tenant: Id, trigger: string): nat {
    if rows == [] then 0
    else
      var s, steps := rows[0], |OrderedSteps(db.steps, rows[0].id)|;
      (if s.tenant == tenant && s.trigger == trigger && s.active then if steps > 1 then steps else 1 else 0)
      + StepsDue(db, rows[1..], tenant, trigger)
  }

  lemma {:induction false} SumOverTable(db: Db, rows: seq<SequenceRow>, tenant: Id, trigger: string)
    ensures SumOfSteps(db, ActiveFor(rows, tenant, trigger)) == StepsDue(db, rows, tenant, trigger)
  {
    if rows != [] {
      var s, rest := rows[0], ActiveFor(rows[1..], tenant, trigger);
      SumOverTable(db, rows[1..], tenant, trigger);
      assert ActiveFor(rows, tenant, trigger) ==
        if s.tenant == tenant && s.trigger == trigger && s.active then [s] + rest else rest;
      assert ([s] + rest)[1..] == rest;
    }
  }

  lemma {:induction false} SumOfSingle(xs: seq<nat>, x: nat)
    requires x < |xs| && forall k :: 0 <= k < |xs| && k != x ==> xs[k] == 0
    ensures Sum(xs) == xs[x]
  {
    var n := |xs| - 1;
    if x == n { SumOfNothing(xs[..n]); } else { SumOfSingle(xs[..n], x); }
  }

  lemma OnlyOneWeighs(w: World, id: nat)
    requires w.queue.Keys == {id} && id < |w.accepted|
    ensures TotalWeight(w) == Weight(w.db, w.queue[id].payload)
  {
    var ws := QueueWeights(w);
    forall k | 0 <= k < |ws| && k != id ensures ws[k] == 0 { assert k !in w.queue.Keys; }
    SumOfSingle(ws, id);
  }

  /** One `message.created` on a session with a lead, alone on the queues: draining
      handles exactly 4 jobs plus, for each active `score_updated` sequence of the
      tenant, one job per step and at least one; fewer when a queue is not set.
      Enrolments that lost their step job stay as they are. */
  lemma MessageCascade(w: World, id: nat, polls: seq<Poll>)
    requires Ready(w) && w.queue.Keys == {id} && Schedule(w, polls)
    requires var p := w.queue[id].payload;
      p.event.MessageCreated? && MessageFound(w.db, p) && SessionLead(w.db, p).Some?
      && HasLead(w.db, p.tenant.value, SessionLead(w.db, p).value)
    ensures var p := w.queue[id].payload;
      var expected := 4 + StepsDue(w.db, w.db.sequences, p.tenant.value, "score_updated");
      && Handled(polls) <= expected
      && (QueuesConfigured(w.urls) ==> (Drain(w, polls).queue == map[] <==> Handled(polls) == expected))
  {
    var p := w.queue[id].payload;
    assert forall k :: k in w.queue ==> k in w.queue.Keys;
    ConsistentIsFiled(w);
    DrainEnds(w, polls);
    if QueuesConfigured(w.urls) { DrainCountsDown(w, polls); }
    OnlyOneWeighs(w, id);
    SumOverTable(w.db, w.db.sequences, p.tenant.value, "score_updated");
    SumOfStepsIsWeight(w.db, p.tenant.value, SessionLead(w.db, p).value,
                       ActiveFor(w.db.sequences, p.tenant.value, SCORE_UPDATED));
  }

  lemma PublishingStaysReady(w: World, w': World)
    requires Ready(w) && MoreQueued(w, w') && w'.db == w.db && w'.nextId == w.nextId
    requires forall k :: |w.accepted| <= k < |w'.accepted| ==> !w'.accepted[k].payload.event.SequenceStep?
    ensures Ready(w') && (NoRivals(w) ==> NoRivals(w'))
  {
    Custody.ConsistentWhenQueued(w, w');
    ConsistentIsFiled(w);
  }

  lemma SameQueueWeighs(w: World, w': World)
    requires w'.db == w.db && |w.accepted| <= |w'.accepted|
    requires forall k :: 0 <= k < |w.accepted| ==>
      (k in w'.queue <==> k in w.queue) && (k in w.queue ==> w'.queue[k].payload == w.queue[k].payload)
    ensures QueueWeights(w')[..|w.accepted|] == QueueWeights(w)
  {
    var xs, ys := QueueWeights(w), QueueWeights(w');
    forall k | 0 <= k < |xs| ensures ys[k] == xs[k] { assert k in w'.queue <==> k in w.queue; }
  }

  lemma PublishedTail(w: World, w': World, jobs: seq<Job>)
    requires MoreQueued(w, w') && w'.accepted == w.accepted + jobs
    ensures QueueWeights(w')[|w.accepted|..] == Weights(w'.db, jobs)
  {
    var n := |w.accepted|;
    forall k | n <= k < |w'.accepted| ensures k in w'.queue && w'.queue[k].payload == jobs[k - n].payload {
      assert w'.accepted[k] == jobs[k - n];
    }
    TailWeighs(w', n, jobs);
  }

  lemma PublishedWeights(w: World, w': World, jobs: seq<Job>)
    requires Filed(w) && MoreQueued(w, w') && w'.db == w.db && w'.accepted == w.accepted + jobs
    ensures QueueWeights(w') == QueueWeights(w) + Weights(w.db, jobs)
  {
    QueuedAsBefore(w, w');
    SameQueueWeighs(w, w');
    PublishedTail(w, w', jobs);
    JoinedAt(QueueWeights(w'), |w.accepted|, QueueWeights(w), Weights(w'.db, jobs));
  }

  lemma QueuedAsBefore(w: World, w': World)
    requires MoreQueued(w, w')
    ensures forall k :: 0 <= k < |w.accepted| ==>
      (k in w'.queue <==> k in w.queue) && (k in w.queue ==> w'.queue[k].payload == w.queue[k].payload)
  {
  }

  lemma JoinedAt(all: seq<nat>, n: nat, first: seq<nat>, second: seq<nat>)
    requires n <= |all| && all[..n] == first && all[n..] == second
    ensures all == first + second
  {
  }

  lemma PublishingAddsWeight(w: World, w': World, jobs: seq<Job>)
    requires Filed(w) && MoreQueued(w, w') && w'.db == w.db && w'.accepted == w.accepted + jobs
    ensures TotalWeight(w') == TotalWeight(w) + Sum(Weights(w.db, jobs))
  {
    PublishedWeights(w, w', jobs);
    SumAppend(QueueWeights(w), Weights(w.db, jobs));
  }

  /** Publishing adds exactly the weight of the jobs that have a queue. */
  lemma PublishAddsWeight(w: World, jobs: seq<Job>)
    requires Ready(w) && forall job :: job in jobs ==> !job.payload.event.SequenceStep?
    ensures var w' := PublishAll(w, jobs);
      && Ready(w') && (NoRivals(w) ==> NoRivals(w')) && w'.urls == w.urls
      && TotalWeight(w') == TotalWeight(w) + Sum(Weights(w.db, Sent(w.urls, jobs)))
  {
    PublishAllQueues(w, jobs);
    PublishAllSends(w, jobs);
    PublishingStaysReady(w, PublishAll(w, jobs));
    ConsistentIsFiled(w);
    PublishingAddsWeight(w, PublishAll(w, jobs), Sent(w.urls, jobs));
  }

  /** Jobs published on empty queues are drained after at most their weight in calls, and
      after exactly that many when all queues are set. */
  lemma DrainOfJobs(w: World, jobs: seq<Job>, w1: World, polls: seq<Poll>)
    requires Ready(w) && w.queue == map[] && w1 == PublishAll(w, jobs) && Schedule(w1, polls)
    requires forall job :: job in jobs ==> !job.payload.event.SequenceStep?
    ensures var n := Sum(Weights(w.db, jobs));
      && Handled(polls) <= n
      && (QueuesConfigured(w.urls) && AllConfigured(w.urls, jobs) ==>
            (Drain(w1, polls).queue == map[] <==> Handled(polls) == n))
  {
    PublishAddsWeight(w, jobs);
    ConsistentIsFiled(w);
    EmptyWeighsNothing(w);
    SentWeighs(w.db, w.urls, jobs);
    DrainEnds(w1, polls);
    if QueuesConfigured(w.urls) { DrainCountsDown(w1, polls); }
  }

  function Announcement(tenant: Id, lead: Id): seq<Job> {
    Leads.Lifecycle(tenant, lead, LeadCreated, IntegrationLeadCreated, "lead_created")
  }

  lemma JobsOfAnnouncement(db: Db, tenant: Id, lead: Id)
    ensures var ws := Weights(db, Announcement(tenant, lead));
      ws == [1, 1, TriggerWeight(db, tenant, lead, "lead_created")]
  {
  }

  lemma AnnouncementWeighs(db: Db, tenant: Id, lead: Id)
    requires HasLead(db, tenant, lead)
    ensures Sum(Weights(db, Announcement(tenant, lead)))
         == 3 + StepsDue(db, db.sequences, tenant, "lead_created")
  {
    JobsOfAnnouncement(db, tenant, lead);
    SumOfThree([1, 1, TriggerWeight(db, tenant, lead, "lead_created")]);
    TriggerWeighs(db, tenant, lead);
  }

  lemma TriggerWeighs(db: Db, tenant: Id, lead: Id)
    requires HasLead(db, tenant, lead)
    ensures TriggerWeight(db, tenant, lead, "lead_created") == 1 + StepsDue(db, db.sequences, tenant, "lead_created")
  {
    SumOverTable(db, db.sequences, tenant, "lead_created");
    SumOfStepsIsWeight(db, tenant, lead, ActiveFor(db.sequences, tenant, "lead_created"));
  }

  /** A new lead announces itself with three jobs. Published on empty queues, they are
      drained after exactly 3 handler calls plus, for each active `lead_created`
      sequence of the tenant, one call per step and at least one; after fewer when a
      queue is not set. */
  lemma LeadCreatedCascade(w: World, tenant: Id, lead: Id, w1: World, polls: seq<Poll>)
    requires Ready(w) && w.queue == map[] && HasLead(w.db, tenant, lead)
    requires w1 == PublishAll(w, Announcement(tenant, lead)) && Schedule(w1, polls)
    ensures var expected := 3 + StepsDue(w.db, w.db.sequences, tenant, "lead_created");
      && Handled(polls) <= expected
      && (QueuesConfigured(w.urls) ==> (Drain(w1, polls).queue == map[] <==> Handled(polls) == expected))
  {
    AnnouncementWeighs(w.db, tenant, lead);
    DrainOfJobs(w, Announcement(tenant, lead), w1, polls);
  }

  // ---------- what a drain leaves behind ----------

  /** `w'` is balanced and between messages, its failed jobs are those of `w`, and the
      sequence's enrolments are in step if they were. */
  ghost predicate KeepsOrder(w: World, w': World, sequence: Id) {
    && StepTokens.Conserved(w') && w'.phase.Idle? && w'.rows == w.rows
    && (Progress.SequenceInStep(w.db, sequence) ==> Progress.SequenceInStep(w'.db, sequence))
  }

  /** The balance of step jobs survives a message that nothing stops. */
  lemma MessageKeepsOrder(w: World, fate: Fate, sequence: Id)
    requires StepTokens.Conserved(w) && w.phase.Idle? && w.batch != [] && Succeeds(w, fate)
    ensures KeepsOrder(w, Run(w, MessageTrace(w, fate)), sequence)
  {
    var run := ARun(fate.budget, fate.day);
    MessageSucceeds(w, fate);
    HandlerReturns(w, fate);
    SuccessTrace(w, Next(w, run), fate);
    StepTokens.ConservedNext(w, run);
    StepTokens.ConservedNext(Next(w, run), ADelete);
    Progress.CommitKeeps(w.db, w.nextId, w.batch[0].payload, fate.day, sequence);
  }

  lemma {:induction false} BatchKeepsOrder(w: World, fates: seq<Fate>, sequence: Id)
    requires StepTokens.Conserved(w) && w.phase.Idle? && NothingFails(w, fates)
    ensures KeepsOrder(w, Run(w, BatchTrace(w, fates)), sequence)
    decreases fates
  {
    if fates != [] {
      MessageKeepsOrder(w, fates[0], sequence);
      TurnUnfolds(w, fates);
      BatchKeepsOrder(Run(w, MessageTrace(w, fates[0])), fates[1..], sequence);
    }
  }

  lemma {:induction false} DrainKeepsOrder(w: World, polls: seq<Poll>, sequence: Id)
    requires StepTokens.Conserved(w) && w.phase.Idle? && Schedule(w, polls)
    ensures KeepsOrder(w, Drain(w, polls), sequence)
    decreases polls
  {
    if polls != [] {
      var receive := AReceive(polls[0].url, polls[0].ids);
      StepTokens.ConservedNext(w, receive);
      BatchKeepsOrder(Next(w, receive), polls[0].fates, sequence);
      PollUnfolds(w, polls[0]);
      DrainKeepsOrder(AfterPoll(w, polls[0]), polls[1..], sequence);
    }
  }

  /** From a balanced state in which no step job waits in failed_jobs, a drain that
      empties the queues has completed every enrolment whose lead and sequence exist,
      and each has executed every step of its sequence, once, in order. */
  lemma DrainCompletesEnrolments(w: World, polls: seq<Poll>, i: Id)
    requires StepTokens.Conserved(w) && w.phase.Idle?
    requires forall k :: 0 <= k < |w.rows| && !w.rows[k].replayed ==> !w.rows[k].payload.event.SequenceStep?
    requires Schedule(w, polls) && Drain(w, polls).queue == map[]
    requires var db := Drain(w, polls).db; i in db.enrollments && Visible(db, db.enrollments[i])
    requires Progress.SequenceInStep(w.db, Drain(w, polls).db.enrollments[i].sequence)
    ensures var db := Drain(w, polls).db;
      && db.enrollments[i].status.Completed?
      && LogOf(db.log, i) == StepIds(OrderedSteps(db.steps, db.enrollments[i].sequence))
  {
    var w' := Drain(w, polls);
    DrainKeepsOrder(w, polls, w'.db.enrollments[i].sequence);
    assert Progress.InStep(w'.db, i);
    StepTokens.EmptyQueuesLeaveRows(w', i);
  }
}
