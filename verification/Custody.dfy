/** No accepted job is lost, wherever the worker stops: every job a queue took is
    still queued, or was handled, or has no handler, or is kept in failed_jobs. */
module Custody {
  import opened Jobs
  import opened Database
  import opened Worker

  // ---------- the records of the worker agree with each other ----------

  /** The body and the URL are those of the accepted job. */
  ghost predicate IsJob(w: World, id: nat, payload: Payload, url: string) {
    && id < |w.accepted| && payload == w.accepted[id].payload
    && Configured(w.urls, w.accepted[id].queueName) && url == w.urls[w.accepted[id].queueName]
  }

  ghost predicate Genuine(w: World, m: Received) {
    IsJob(w, m.id, m.payload, m.url) && m.id in w.queue
  }

  /** A row holds an accepted job, after at least MAX_RETRIES deliveries, under the last
      segment of its queue's URL. */
  ghost predicate GenuineRow(w: World, r: FailedRow) {
    && r.origin < |w.accepted| && r.payload == w.accepted[r.origin].payload
    && Configured(w.urls, w.accepted[r.origin].queueName)
    && r.queueName == LastSegment(w.urls[w.accepted[r.origin].queueName])
    && r.attempts >= MAX_RETRIES
  }

  ghost predicate Consistent(w: World) {
    && (forall id :: id in w.queue ==> IsJob(w, id, w.queue[id].payload, w.queue[id].url))
    && (forall i :: 0 <= i < |w.batch| ==> Genuine(w, w.batch[i]))
    && (forall i, j :: 0 <= i < j < |w.batch| ==> w.batch[i].id != w.batch[j].id)
    && (!w.phase.Idle? ==> Genuine(w, w.phase.m) && forall i :: 0 <= i < |w.batch| ==> w.batch[i].id != w.phase.m.id)
    && (forall k :: 0 <= k < |w.rows| ==> GenuineRow(w, w.rows[k]))
  }

  lemma ConsistentWhenQueued(w: World, w': World)
    requires Consistent(w) && MoreQueued(w, w')
    ensures Consistent(w')
  {
    forall id | id in w'.queue ensures IsJob(w', id, w'.queue[id].payload, w'.queue[id].url) {
      if id in w.queue { assert IsJob(w, id, w.queue[id].payload, w.queue[id].url); }
    }
    forall k | 0 <= k < |w'.rows| ensures GenuineRow(w', w'.rows[k]) {
      assert GenuineRow(w, w.rows[k]);
    }
  }

  lemma PublishQueues(w: World, job: Job)
    ensures MoreQueued(w, Publish(w, job))
  {
  }

  /** The next message is taken from the batch. */
  lemma ConsistentTake(w: World, w': World)
    requires Consistent(w) && w.batch != [] && w.phase.Idle?
    requires w'.urls == w.urls && w'.accepted == w.accepted && w'.queue == w.queue && w'.rows == w.rows
    requires w'.batch == w.batch[1..] && !w'.phase.Idle? && w'.phase.m == w.batch[0]
    ensures Consistent(w')
  {
    assert Genuine(w, w.batch[0]);
    forall i | 0 <= i < |w'.batch| ensures Genuine(w', w'.batch[i]) { assert Genuine(w, w.batch[i + 1]); }
    forall k | 0 <= k < |w'.rows| ensures GenuineRow(w', w'.rows[k]) { assert GenuineRow(w, w.rows[k]); }
  }

  lemma ConsistentRunPlan(w: World, p: Plan, budget: nat)
    requires Consistent(w) && w.batch != [] && w.phase.Idle?
    ensures Consistent(RunPlan(w, p, budget))
  {
    ExecQueues(w, p, budget);
    var w1 := Exec(w, p, budget);
    ConsistentWhenQueued(w, w1);
    ConsistentTake(w1, RunPlan(w, p, budget));
  }

  lemma ConsistentRun(w: World, budget: nat, day: int)
    requires Consistent(w) && w.batch != [] && w.phase.Idle?
    ensures Consistent(RunHandler(w, budget, day))
  {
    if w.batch[0].payload.event.Other? {
      ConsistentTake(w, RunHandler(w, budget, day));
    } else {
      ConsistentRunPlan(w, PlanOf(w, day), budget);
    }
  }

  lemma ConsistentReplay(w: World, k: nat, committed: bool)
    requires Consistent(w) && k < |w.rows|
    ensures Consistent(Replay(w, k, committed))
  {
    var r := w.rows[k];
    PublishQueues(w, Job(r.queueName, r.payload));
    ConsistentWhenQueued(w, Publish(w, Job(r.queueName, r.payload)));
    assert GenuineRow(w, r);
    var w' := Replay(w, k, committed);
    forall i | 0 <= i < |w'.rows| ensures GenuineRow(w', w'.rows[i]) {
      assert GenuineRow(w, w.rows[i]);
    }
  }

  lemma ConsistentSave(w: World)
    requires Consistent(w) && w.phase.Raised? && w.phase.m.receives >= MAX_RETRIES
    ensures Consistent(SaveFailedJob(w))
  {
    var w' := SaveFailedJob(w);
    forall k | 0 <= k < |w'.rows| ensures GenuineRow(w', w'.rows[k]) {
      if k < |w.rows| { assert GenuineRow(w, w.rows[k]); }
    }
  }

  lemma ConsistentDelete(w: World)
    requires Consistent(w) && (w.phase.Ran? || w.phase.Saved?)
    ensures Consistent(DeleteMessage(w))
  {
    var w' := DeleteMessage(w);
    forall k | 0 <= k < |w'.rows| ensures GenuineRow(w', w'.rows[k]) {
      assert GenuineRow(w, w.rows[k]);
    }
  }

  lemma ConsistentNext(w: World, a: Action)
    requires Consistent(w)
    ensures Consistent(Next(w, a))
  {
    match a
    case ARun(budget, day) => if w.batch != [] && w.phase.Idle? { ConsistentRun(w, budget, day); }
    case ASave => if w.phase.Raised? && w.phase.m.receives >= MAX_RETRIES { ConsistentSave(w); }
    case ADelete => if w.phase.Ran? || w.phase.Saved? { ConsistentDelete(w); }
    case AReplay(k, committed) => if k < |w.rows| { ConsistentReplay(w, k, committed); }
    case AReceive(url, ids) => if Receivable(w, url, ids) { ConsistentReceive(w, url, ids); }
    case ASkip => ConsistentLetGo(w, Next(w, a));
    case AAbort => ConsistentLetGo(w, Next(w, a));
    case _ => ApiQueues(w, a); ConsistentWhenQueued(w, Next(w, a));
  }

  /** What the API and the queues do adds messages at most. */
  lemma ApiQueues(w: World, a: Action)
    requires a.APost? || a.ADuplicate? || a.AEnrol? || a.AAdmin?
    ensures MoreQueued(w, Next(w, a))
  {
  }

  lemma ConsistentReceive(w: World, url: string, ids: seq<nat>)
    requires Consistent(w) && Receivable(w, url, ids)
    ensures Consistent(Receive(w, url, ids))
  {
    var w' := Receive(w, url, ids);
    forall i | 0 <= i < |w'.batch| ensures Genuine(w', w'.batch[i]) {
      assert IsJob(w, ids[i], w.queue[ids[i]].payload, w.queue[ids[i]].url);
    }
    forall k | 0 <= k < |w'.rows| ensures GenuineRow(w', w'.rows[k]) { assert GenuineRow(w, w.rows[k]); }
  }

  lemma ConsistentLetGo(w: World, w': World)
    requires Consistent(w) && (w' == w.(phase := Idle) || w' == w.(batch := [], phase := Idle) || w' == w)
    ensures Consistent(w')
  {
    forall k | 0 <= k < |w'.rows| ensures GenuineRow(w', w'.rows[k]) { assert GenuineRow(w, w.rows[k]); }
  }

  /** In every run: queue bodies are the accepted ones, the worker holds only queued
      messages, and each failed_jobs row has at least MAX_RETRIES attempts. */
  lemma {:induction false} ConsistentAlways(urls: Urls, db: Db, nextId: Id, actions: seq<Action>)
    ensures Consistent(Run(Init(urls, db, nextId), actions))
  {
    if actions != [] {
      ConsistentAlways(urls, db, nextId, actions[..|actions| - 1]);
      ConsistentNext(Run(Init(urls, db, nextId), actions[..|actions| - 1]), actions[|actions| - 1]);
    }
  }

  // ---------- where a job is ----------

  /** The row holds its job until it is replayed; then the message it was sent as
      has to be accounted for. */
  ghost predicate Covers(w: World, k: nat, id: nat)
    decreases if id <= |w.accepted| then |w.accepted| - id else 0, 0
  {
    && k < |w.rows| && w.rows[k].origin == id
    && (!w.rows[k].replayed
        || (w.rows[k].requeuedAs.Some?
            && id < w.rows[k].requeuedAs.value < |w.accepted|
            && Accounted(w, w.rows[k].requeuedAs.value)))
  }

  ghost predicate Settled(w: World, id: nat)
    decreases if id <= |w.accepted| then |w.accepted| - id else 0, 1
  {
    || id in w.handled
    || (id < |w.accepted| && w.accepted[id].payload.event.Other?)
    || exists k: nat :: Covers(w, k, id)
  }

  ghost predicate Accounted(w: World, id: nat)
    decreases if id <= |w.accepted| then |w.accepted| - id else 0, 2
  {
    id in w.queue || Settled(w, id)
  }

  ghost predicate NothingLost(w: World) {
    forall id :: 0 <= id < |w.accepted| ==> Accounted(w, id)
  }

  /** What the worker is about to delete is settled without the queue. */
  ghost predicate DeletesSettled(w: World) {
    w.phase.Ran? || w.phase.Saved? ==> Settled(w, w.phase.m.id)
  }

  // ---------- steps keep it ----------

  ghost predicate RowKept(w: World, w': World, k: nat)
    requires k < |w.rows| && k < |w'.rows|
  {
    var r, r' := w.rows[k], w'.rows[k];
    || r' == r
    || (r'.origin == r.origin && r'.requeuedAs.Some?
        && r.origin < r'.requeuedAs.value < |w'.accepted| && r'.requeuedAs.value in w'.queue)
  }

  /** From `w` to `w'` nothing forgets a job: messages leave the queue only once
      settled, rows stay, and a replayed row has its message on a queue. */
  ghost predicate KeepsJobs(w: World, w': World) {
    && w.accepted <= w'.accepted && w.handled <= w'.handled
    && |w.rows| <= |w'.rows|
    && (forall k :: 0 <= k < |w.rows| ==> RowKept(w, w', k))
    && (forall id :: id in w.queue ==> id in w'.queue || Settled(w, id))
  }

  lemma {:induction false} SettledKept(w: World, w': World, id: nat)
    requires KeepsJobs(w, w') && id < |w.accepted| && Settled(w, id)
    ensures Settled(w', id)
    decreases |w.accepted| - id, 0
  {
    if id !in w.handled && !w.accepted[id].payload.event.Other? {
      var k: nat :| Covers(w, k, id);
      assert RowKept(w, w', k);
      if w'.rows[k] == w.rows[k] && w.rows[k].replayed {
        var next := w.rows[k].requeuedAs.value;
        AccountedKept(w, w', next);
      }
      assert Covers(w', k, id);
    }
  }

  lemma {:induction false} AccountedKept(w: World, w': World, id: nat)
    requires KeepsJobs(w, w') && id < |w.accepted| && Accounted(w, id)
    ensures Accounted(w', id)
    decreases |w.accepted| - id, 1
  {
    if id !in w'.queue { SettledKept(w, w', id); }
  }

  /** The rows that will be replayed name a queue the publisher knows. */
  ghost predicate ReplayResolves(w: World, a: Action) {
    a.AReplay? && a.committed && a.row < |w.rows| ==> Configured(w.urls, w.rows[a.row].queueName)
  }

  lemma QueuedKeepsJobs(w: World, w': World)
    requires Consistent(w) && MoreQueued(w, w')
    ensures KeepsJobs(w, w')
  {
  }

  lemma RunKeepsJobs(w: World, budget: nat, day: int)
    requires Consistent(w) && w.batch != [] && w.phase.Idle?
    ensures KeepsJobs(w, RunHandler(w, budget, day))
  {
    if !w.batch[0].payload.event.Other? {
      RunPlanKeepsJobs(w, PlanOf(w, day), budget);
    }
  }

  lemma RunPlanKeepsJobs(w: World, p: Plan, budget: nat)
    requires Consistent(w) && w.batch != [] && w.phase.Idle?
    ensures KeepsJobs(w, RunPlan(w, p, budget))
  {
    ExecQueues(w, p, budget);
    QueuedKeepsJobs(w, Exec(w, p, budget));
  }

  lemma SaveKeepsJobs(w: World)
    requires w.phase.Raised?
    ensures KeepsJobs(w, SaveFailedJob(w))
  {
  }

  lemma StepKeepsJobs(w: World, a: Action)
    requires Consistent(w) && DeletesSettled(w) && ReplayResolves(w, a)
    ensures KeepsJobs(w, Next(w, a))
  {
    match a
    case ARun(budget, day) => if w.batch != [] && w.phase.Idle? { RunKeepsJobs(w, budget, day); }
    case AReplay(k, committed) => if k < |w.rows| { ReplayKeepsJobs(w, k, committed); }
    case ASave => if w.phase.Raised? { SaveKeepsJobs(w); }
    case AReceive(url, ids) => KeptQueue(w, Next(w, a));
    case ASkip => KeptQueue(w, Next(w, a));
    case AAbort => KeptQueue(w, Next(w, a));
    case ADelete => if w.phase.Ran? || w.phase.Saved? { DeleteKeepsJobs(w); }
    case _ => ApiQueues(w, a); QueuedKeepsJobs(w, Next(w, a));
  }

  lemma KeptQueue(w: World, w': World)
    requires w'.queue.Keys == w.queue.Keys && w'.rows == w.rows && w'.accepted == w.accepted && w'.handled == w.handled
    ensures KeepsJobs(w, w')
  {
    assert forall id :: id in w.queue ==> id in w'.queue.Keys;
  }

  lemma DeleteKeepsJobs(w: World)
    requires DeletesSettled(w) && (w.phase.Ran? || w.phase.Saved?)
    ensures KeepsJobs(w, DeleteMessage(w))
  {
  }

  lemma ReplayKeepsJobs(w: World, k: nat, committed: bool)
    requires Consistent(w) && k < |w.rows| && (committed ==> Configured(w.urls, w.rows[k].queueName))
    ensures KeepsJobs(w, Replay(w, k, committed))
  {
    assert GenuineRow(w, w.rows[k]);
  }

  /** Later deletions stay justified; new ones are justified when they arise. */
  lemma StepSettles(w: World, a: Action)
    requires Consistent(w) && DeletesSettled(w) && ReplayResolves(w, a)
    ensures DeletesSettled(Next(w, a))
  {
    var w' := Next(w, a);
    StepKeepsJobs(w, a);
    if w'.phase.Ran? || w'.phase.Saved? {
      if w.phase == w'.phase {
        SettledKept(w, w', w.phase.m.id);
      } else if a.ASave? {
        assert Covers(w', |w.rows|, w.phase.m.id);
      } else {
        RunSettles(w, a);
      }
    }
  }

  lemma RunSettles(w: World, a: Action)
    requires Consistent(w) && Next(w, a).phase.Ran? && w.phase != Next(w, a).phase
    ensures Settled(Next(w, a), Next(w, a).phase.m.id)
  {
    if a.ARun? && w.batch != [] && !w.batch[0].payload.event.Other? {
      ExecQueues(w, PlanOf(w, a.day), a.budget);
    }
    match a
    case AEnrol(_, _, _, _) =>
    case _ =>
  }

  lemma StepLosesNothing(w: World, a: Action)
    requires Consistent(w) && DeletesSettled(w) && NothingLost(w) && ReplayResolves(w, a)
    ensures NothingLost(Next(w, a)) && DeletesSettled(Next(w, a))
  {
    var w' := Next(w, a);
    StepKeepsJobs(w, a);
    StepSettles(w, a);
    forall id | 0 <= id < |w'.accepted| ensures Accounted(w', id) {
      if id < |w.accepted| {
        AccountedKept(w, w', id);
      } else {
        NewJobsAreQueued(w, a);
      }
    }
  }

  lemma NewJobsAreQueued(w: World, a: Action)
    requires Consistent(w)
    ensures forall id :: |w.accepted| <= id < |Next(w, a).accepted| ==> id in Next(w, a).queue
  {
    if a.ARun? && w.batch != [] && w.phase.Idle? && !w.batch[0].payload.event.Other? {
      ExecQueues(w, PlanOf(w, a.day), a.budget);
    } else if a.APost? || a.ADuplicate? || a.AEnrol? || a.AAdmin? {
      ApiQueues(w, a);
    }
  }

  // ---------- whole runs ----------

  ghost predicate EveryReplayResolves(w: World, actions: seq<Action>) {
    forall i :: 0 <= i < |actions| ==> ReplayResolves(Run(w, actions[..i]), actions[i])
  }

  /** Nothing accepted so far is lost, and nothing about to be deleted would be. */
  ghost predicate Safe(w: World) {
    Consistent(w) && DeletesSettled(w) && NothingLost(w)
  }

  /** Whatever the worker, the API and the queues do, and wherever they stop: a run
      whose committed replays all find a configured queue loses no accepted job. */
  lemma {:induction false} NoJobIsLost(w: World, actions: seq<Action>)
    requires Safe(w) && EveryReplayResolves(w, actions)
    ensures Safe(Run(w, actions))
  {
    if actions != [] {
      var n := |actions| - 1;
      assert ReplayResolves(Run(w, actions[..n]), actions[n]);
      assert EveryReplayResolves(w, actions[..n]) by {
        forall i | 0 <= i < n ensures ReplayResolves(Run(w, actions[..n][..i]), actions[..n][i]) {
          assert actions[..n][..i] == actions[..i];
          assert ReplayResolves(Run(w, actions[..i]), actions[i]);
        }
      }
      NoJobIsLost(w, actions[..n]);
      ConsistentNext(Run(w, actions[..n]), actions[n]);
      StepLosesNothing(Run(w, actions[..n]), actions[n]);
    }
  }

  lemma {:induction false} UrlsFixed(w: World, actions: seq<Action>)
    ensures Run(w, actions).urls == w.urls
  {
    if actions != [] {
      var v, a := Run(w, actions[..|actions| - 1]), actions[|actions| - 1];
      UrlsFixed(w, actions[..|actions| - 1]);
      if a.ARun? && v.batch != [] && v.phase.Idle? && !v.batch[0].payload.event.Other? {
        ExecQueues(v, PlanOf(v, a.day), a.budget);
      }
    }
  }

  // ---------- queue names ----------

  /** The name is that of a queue the code publishes to, after some replays. */
  ghost predicate ReachableName(urls: Urls, name: string) {
    exists first, k: nat :: Published(first) && Configured(urls, first) && name == NameAfter(urls, first, k)
  }

  ghost predicate NamesKnown(w: World) {
    forall id :: 0 <= id < |w.accepted| ==> ReachableName(w.urls, w.accepted[id].queueName)
  }

  /** The API posts to the queues it knows. */
  ghost predicate PublishedPosts(actions: seq<Action>) {
    forall a :: a in actions && a.APost? ==> Published(a.job.queueName)
  }

  lemma PublishedIsReachable(urls: Urls, name: string)
    requires Published(name) && Configured(urls, name)
    ensures ReachableName(urls, name)
  {
    assert name == NameAfter(urls, name, 0);
  }

  lemma SegmentIsReachable(urls: Urls, name: string)
    requires ReachableName(urls, name) && Configured(urls, name)
    ensures ReachableName(urls, LastSegment(urls[name]))
  {
    var first, k: nat :| Published(first) && Configured(urls, first) && name == NameAfter(urls, first, k);
    assert LastSegment(urls[name]) == NameAfter(urls, first, k + 1);
  }

  lemma NamesKnownRun(w: World, budget: nat, day: int)
    requires NamesKnown(w) && w.batch != [] && w.phase.Idle?
    ensures NamesKnown(RunHandler(w, budget, day))
  {
    if !w.batch[0].payload.event.Other? {
      var p, w' := PlanOf(w, day), RunHandler(w, budget, day);
      ExecQueues(w, p, budget);
      PublishedQueues(w.db, w.nextId, w.batch[0].payload, day);
      forall id | |w.accepted| <= id < |w'.accepted| ensures ReachableName(w.urls, w'.accepted[id].queueName) {
        PublishedIsReachable(w.urls, w'.accepted[id].queueName);
      }
    }
  }

  lemma NamesKnownNext(w: World, a: Action)
    requires Consistent(w) && NamesKnown(w) && PublishedPosts([a])
    ensures NamesKnown(Next(w, a))
  {
    assert a in [a];
    match a
    case ARun(budget, day) => if w.batch != [] && w.phase.Idle? { NamesKnownRun(w, budget, day); }
    case APost(job) => if Configured(w.urls, job.queueName) { PublishedIsReachable(w.urls, job.queueName); }
    case AEnrol(_, _, _, _) => if Configured(w.urls, SEQUENCE_JOBS) { PublishedIsReachable(w.urls, SEQUENCE_JOBS); }
    case AReplay(k, _) => if k < |w.rows| { RowNameReachable(w, k); }
    case _ =>
  }

  lemma RowNameReachable(w: World, k: nat)
    requires Consistent(w) && NamesKnown(w) && k < |w.rows|
    ensures ReachableName(w.urls, w.rows[k].queueName)
  {
    assert GenuineRow(w, w.rows[k]);
    SegmentIsReachable(w.urls, w.accepted[w.rows[k].origin].queueName);
  }

  lemma {:induction false} NamesKnownAlways(urls: Urls, db: Db, nextId: Id, actions: seq<Action>)
    requires PublishedPosts(actions)
    ensures NamesKnown(Run(Init(urls, db, nextId), actions))
  {
    if actions != [] {
      var n := |actions| - 1;
      assert actions[n] in actions;
      NamesKnownAlways(urls, db, nextId, actions[..n]);
      ConsistentAlways(urls, db, nextId, actions[..n]);
      NamesKnownNext(Run(Init(urls, db, nextId), actions[..n]), actions[n]);
    }
  }

  lemma NamesResolveReplays(urls: Urls, db: Db, nextId: Id, actions: seq<Action>)
    requires NamesResolve(urls) && PublishedPosts(actions)
    ensures EveryReplayResolves(Init(urls, db, nextId), actions)
  {
    var w := Init(urls, db, nextId);
    forall i | 0 <= i < |actions| ensures ReplayResolves(Run(w, actions[..i]), actions[i]) {
      var v, a := Run(w, actions[..i]), actions[i];
      UrlsFixed(w, actions[..i]);
      if a.AReplay? && a.row < |v.rows| {
        ConsistentAlways(urls, db, nextId, actions[..i]);
        NamesKnownAlways(urls, db, nextId, actions[..i]);
        RowNameReachable(v, a.row);
      }
    }
  }

  /** With conventional URLs a row carries the name of the queue its job was on, replays
      reach that queue again, and no run loses a job, whatever the API posts. */
  lemma ConventionalUrlsLoseNothing(urls: Urls, db: Db, nextId: Id, actions: seq<Action>)
    requires Conventional(urls)
    ensures NamesResolve(urls)
    ensures var w := Run(Init(urls, db, nextId), actions);
      && NothingLost(w)
      && forall k :: 0 <= k < |w.rows| ==>
           w.rows[k].origin < |w.accepted| && w.rows[k].queueName == w.accepted[w.rows[k].origin].queueName
  {
    var w := Init(urls, db, nextId);
    ConventionalNamesResolve(urls);
    forall i | 0 <= i < |actions| ensures ReplayResolves(Run(w, actions[..i]), actions[i]) {
      if actions[i].AReplay? && actions[i].row < |Run(w, actions[..i]).rows| {
        ConventionalRow(urls, db, nextId, actions[..i], actions[i].row);
      }
    }
    NoJobIsLost(w, actions);
    forall k | 0 <= k < |Run(w, actions).rows|
      ensures Run(w, actions).rows[k].queueName == Run(w, actions).accepted[Run(w, actions).rows[k].origin].queueName
    {
      ConventionalRow(urls, db, nextId, actions, k);
    }
  }

  lemma ConventionalRow(urls: Urls, db: Db, nextId: Id, actions: seq<Action>, k: nat)
    requires Conventional(urls) && k < |Run(Init(urls, db, nextId), actions).rows|
    ensures var w := Run(Init(urls, db, nextId), actions);
      && w.urls == urls && w.rows[k].origin < |w.accepted|
      && w.rows[k].queueName == w.accepted[w.rows[k].origin].queueName && Configured(urls, w.rows[k].queueName)
  {
    var w := Run(Init(urls, db, nextId), actions);
    ConsistentAlways(urls, db, nextId, actions);
    UrlsFixed(Init(urls, db, nextId), actions);
    assert GenuineRow(w, w.rows[k]);
    ConventionalSegment(urls, w.accepted[w.rows[k].origin].queueName);
  }

  lemma ConventionalNamesResolve(urls: Urls)
    requires Conventional(urls)
    ensures NamesResolve(urls)
  {
    forall name, k: nat | Published(name) && Configured(urls, name) ensures Configured(urls, NameAfter(urls, name, k)) {
      ConventionalNameAfter(urls, name, k);
    }
  }

  lemma {:induction false} ConventionalNameAfter(urls: Urls, name: string, k: nat)
    requires Conventional(urls) && Configured(urls, name)
    ensures NameAfter(urls, name, k) == name
  {
    if k > 0 {
      ConventionalNameAfter(urls, name, k - 1);
      ConventionalSegment(urls, name);
    }
  }

  // ---------- how a job is lost ----------

  /** A delivery of the only message whose handler raises at once, in its first read. */
  lemma FailedDelivery(w: World, id: nat, m: Message)
    requires w.batch == [] && w.phase.Idle? && w.queue == map[id := m] && !m.payload.event.Other?
    ensures var w' := Next(Next(w, AReceive(m.url, [id])), ARun(0, 0));
      w' == w.(queue := map[id := m.(receives := m.receives + 1)],
               phase := Raised(Received(id, m.url, m.payload, m.receives + 1)),
               attempts := w'.attempts, nextId := w'.nextId)
  {
    var w1 := Next(w, AReceive(m.url, [id]));
    assert Receivable(w, m.url, [id]);
    assert Bump(w.queue, [id]) == map[id := m.(receives := m.receives + 1)];
    assert w1.batch == [Received(id, m.url, m.payload, m.receives + 1)];
    assert PlanOf(w1, 0).before[..0] == [];
  }

  function FailedAttempt(id: nat, url: string): seq<Action> {
    [AReceive(url, [id]), ARun(0, 0)]
  }

  lemma RunTwo(w: World, a: Action, b: Action)
    ensures Run(w, [a, b]) == Next(Next(w, a), b)
  {
    RunOneAction(w, a);
    RunExtend(w, [a], b);
    assert [a] + [b] == [a, b];
  }

  /** From `w` to `w'` only the queues, the rows and the counters changed. */
  ghost predicate FailedTo(w: World, w': World, queue: map<nat, Message>, rows: seq<FailedRow>) {
    w' == w.(queue := queue, rows := rows, attempts := w'.attempts, nextId := w'.nextId)
  }

  ghost predicate OnlyQueued(w: World, id: nat, m: Message) {
    w.batch == [] && w.phase.Idle? && w.queue == map[id := m] && !m.payload.event.Other?
  }

  function RowFor(id: nat, m: Message): FailedRow {
    FailedRow(LastSegment(m.url), m.payload, 3, false, id, None)
  }

  /** After one more delivery the handler has raised. */
  ghost predicate RaisedAgain(w: World, w': World, id: nat, m: Message) {
    FailedTo(w.(phase := Raised(Received(id, m.url, m.payload, m.receives + 1))), w',
             map[id := m.(receives := m.receives + 1)], w.rows)
  }

  lemma AttemptFails(w: World, id: nat, m: Message)
    requires OnlyQueued(w, id, m)
    ensures RaisedAgain(w, Run(w, FailedAttempt(id, m.url)), id, m)
  {
    FailedDelivery(w, id, m);
    RunTwo(w, AReceive(m.url, [id]), ARun(0, 0));
  }

  lemma SkipAfter(w: World, w1: World, id: nat, m: Message)
    requires OnlyQueued(w, id, m) && RaisedAgain(w, w1, id, m) && m.receives < 2
    ensures FailedTo(w, Next(w1, ASkip), map[id := m.(receives := m.receives + 1)], w.rows)
  {
  }

  lemma SaveAfter(w: World, w1: World, id: nat, m: Message)
    requires OnlyQueued(w, id, m) && RaisedAgain(w, w1, id, m) && m.receives == 2
    ensures FailedTo(w, Next(Next(w1, ASave), ADelete), map[], w.rows + [RowFor(id, m)])
  {
    assert w1.queue - {id} == map[];
  }

  /** The first two failures leave the message for redelivery. */
  lemma FailedAndSkipped(w: World, id: nat, m: Message)
    requires OnlyQueued(w, id, m) && m.receives < 2
    ensures FailedTo(w, Run(w, FailedAttempt(id, m.url) + [ASkip]), map[id := m.(receives := m.receives + 1)], w.rows)
  {
    AttemptFails(w, id, m);
    RunExtend(w, FailedAttempt(id, m.url), ASkip);
    SkipAfter(w, Run(w, FailedAttempt(id, m.url)), id, m);
  }

  /** The third saves it and deletes it. */
  lemma FailedAndSaved(w: World, id: nat, m: Message)
    requires OnlyQueued(w, id, m) && m.receives == 2
    ensures FailedTo(w, Run(w, FailedAttempt(id, m.url) + [ASave, ADelete]), map[], w.rows + [RowFor(id, m)])
  {
    var w1 := Run(w, FailedAttempt(id, m.url));
    AttemptFails(w, id, m);
    RunTwo(w1, ASave, ADelete);
    RunAppend(w, FailedAttempt(id, m.url), [ASave, ADelete]);
    SaveAfter(w, w1, id, m);
  }

  /** Three failures. */
  function FailThrice(id: nat, url: string): seq<Action> {
    (FailedAttempt(id, url) + [ASkip]) + ((FailedAttempt(id, url) + [ASkip]) + (FailedAttempt(id, url) + [ASave, ADelete]))
  }

  lemma FailedLastTwo(w: World, id: nat, m: Message)
    requires OnlyQueued(w, id, m) && m.receives == 1
    ensures FailedTo(w, Run(w, (FailedAttempt(id, m.url) + [ASkip]) + (FailedAttempt(id, m.url) + [ASave, ADelete])),
                     map[], w.rows + [RowFor(id, m)])
  {
    var skip, save := FailedAttempt(id, m.url) + [ASkip], FailedAttempt(id, m.url) + [ASave, ADelete];
    FailedAndSkipped(w, id, m);
    FailedAndSaved(Run(w, skip), id, m.(receives := 2));
    RunAppend(w, skip, save);
  }

  lemma FailedThrice(w: World, id: nat, m: Message)
    requires OnlyQueued(w, id, m) && m.receives == 0
    ensures FailedTo(w, Run(w, FailThrice(id, m.url)), map[], w.rows + [RowFor(id, m)])
  {
    var skip, save := FailedAttempt(id, m.url) + [ASkip], FailedAttempt(id, m.url) + [ASave, ADelete];
    FailedAndSkipped(w, id, m);
    FailedLastTwo(Run(w, skip), id, m.(receives := 1));
    RunAppend(w, skip, skip + save);
  }

  /** The job has been saved and replayed `j` times; its latest message is fresh on the
      queue of its latest name, and nothing else is. */
  ghost predicate ReplayedTimes(w: World, name: string, payload: Payload, j: nat) {
    && w.batch == [] && w.phase.Idle? && w.handled == {} && |w.accepted| == j + 1 && |w.rows| == j
    && (forall i :: 0 <= i < j ==> w.rows[i].origin == i)
    && w.accepted[j] == Job(NameAfter(w.urls, name, j), payload)
    && Configured(w.urls, NameAfter(w.urls, name, j))
    && w.queue == map[j := Message(w.urls[NameAfter(w.urls, name, j)], payload, 0)]
  }

  function FailAndReplay(urls: Urls, name: string, j: nat): seq<Action>
    requires Configured(urls, NameAfter(urls, name, j))
  {
    FailThrice(j, urls[NameAfter(urls, name, j)]) + [AReplay(j, true)]
  }

  /** A row that was replayed without being sent covers nothing. */
  lemma DroppedIsLost(w: World, j: nat)
    requires j < |w.accepted| && j !in w.queue && j !in w.handled && !w.accepted[j].payload.event.Other?
    requires forall k :: 0 <= k < |w.rows| && w.rows[k].origin == j ==> w.rows[k].replayed && w.rows[k].requeuedAs.None?
    ensures !NothingLost(w)
  {
    forall k: nat | true ensures !Covers(w, k, j) {}
    assert !Settled(w, j);
    assert !Accounted(w, j);
  }

  lemma ReplayedOnceMore(w: World, name: string, payload: Payload, j: nat)
    requires ReplayedTimes(w, name, payload, j) && !payload.event.Other?
    ensures var w' := Run(w, FailAndReplay(w.urls, name, j));
      && w'.urls == w.urls
      && (Configured(w.urls, NameAfter(w.urls, name, j + 1)) ==> ReplayedTimes(w', name, payload, j + 1))
      && (!Configured(w.urls, NameAfter(w.urls, name, j + 1)) ==> !NothingLost(w'))
  {
    var url := w.urls[NameAfter(w.urls, name, j)];
    var w1 := Run(w, FailThrice(j, url));
    FailedThrice(w, j, w.queue[j]);
    RunExtend(w, FailThrice(j, url), AReplay(j, true));
    var w' := Next(w1, AReplay(j, true));
    assert w1.rows[j] == FailedRow(NameAfter(w.urls, name, j + 1), payload, 3, false, j, None);
    if !Configured(w.urls, NameAfter(w.urls, name, j + 1)) { DroppedIsLost(w', j); }
  }

  lemma {:induction false} ConfiguredBefore(urls: Urls, name: string, i: nat, j: nat)
    requires i <= j && Configured(urls, NameAfter(urls, name, j))
    ensures Configured(urls, NameAfter(urls, name, i))
  {
    if i < j { ConfiguredBefore(urls, name, i, j - 1); }
  }

  /** Failing and replaying until the name has no URL. */
  lemma {:induction false} ReplaysLoseJob(w: World, name: string, payload: Payload, j: nat, k: nat)
    returns (actions: seq<Action>)
    requires ReplayedTimes(w, name, payload, j) && !payload.event.Other? && j < k
    requires Configured(w.urls, NameAfter(w.urls, name, k - 1)) && !Configured(w.urls, NameAfter(w.urls, name, k))
    ensures PublishedPosts(actions) && !NothingLost(Run(w, actions))
    decreases k - j
  {
    var hop := FailAndReplay(w.urls, name, j);
    var w1 := Run(w, hop);
    ReplayedOnceMore(w, name, payload, j);
    HopPosts(w.urls, name, j);
    if j + 1 == k {
      actions := hop;
    } else {
      ConfiguredBefore(w.urls, name, j + 1, k - 1);
      var rest := ReplaysLoseJob(w1, name, payload, j + 1, k);
      actions := hop + rest;
      RunAppend(w, hop, rest);
    }
  }

  lemma HopPosts(urls: Urls, name: string, j: nat)
    requires Configured(urls, NameAfter(urls, name, j))
    ensures PublishedPosts(FailAndReplay(urls, name, j))
  {
  }

  /** The first replay that finds no URL. */
  lemma {:induction false} FirstUnresolved(urls: Urls, name: string, k: nat) returns (j: nat)
    requires Configured(urls, name) && !Configured(urls, NameAfter(urls, name, k))
    ensures j > 0 && Configured(urls, NameAfter(urls, name, j - 1)) && !Configured(urls, NameAfter(urls, name, j))
  {
    if Configured(urls, NameAfter(urls, name, k - 1)) { j := k; } else { j := FirstUnresolved(urls, name, k - 1); }
  }

  /** A queue whose name stops resolving after some replays: any job with a handler that
      is published to it can be lost, by failing three times and being replayed, again
      and again. */
  lemma MisnamedQueueLosesJob(urls: Urls, name: string, payload: Payload, k: nat) returns (actions: seq<Action>)
    requires Published(name) && !payload.event.Other?
    requires Configured(urls, name) && !Configured(urls, NameAfter(urls, name, k))
    ensures PublishedPosts(actions) && APost(Job(name, payload)) in actions
    ensures !NothingLost(Run(Init(urls, EMPTY, 0), actions))
  {
    var w, post := Init(urls, EMPTY, 0), APost(Job(name, payload));
    var j := FirstUnresolved(urls, name, k);
    RunOneAction(w, post);
    var rest := ReplaysLoseJob(Next(w, post), name, payload, 0, j);
    actions := [post] + rest;
    RunAppend(w, [post], rest);
  }

  /** A job of the kind that is published to the queue; its handler starts by reading
      the database, a read that can fail. */
  function JobFor(name: string): Payload {
    var event :=
      if name == AI_JOBS then MessageCreated
      else if name == ROUTING_JOBS then LeadCreated
      else if name == INTEGRATION_JOBS then IntegrationLeadCreated
      else SequenceTrigger;
    Payload(event, Some(0), Some(0), Some("lead_created"), None, Some(0), Some(0))
  }

  /** No run in which the API posts to its own queues loses an accepted job, if and only
      if the names of those queues keep resolving however often a job is replayed. */
  lemma NothingLostIffNamesResolve(urls: Urls)
    ensures (forall db, nextId, actions :: PublishedPosts(actions) ==> NothingLost(Run(Init(urls, db, nextId), actions)))
      <==> NamesResolve(urls)
  {
    if NamesResolve(urls) {
      forall db, nextId: Id, actions | PublishedPosts(actions)
        ensures NothingLost(Run(Init(urls, db, nextId), actions))
      {
        NamesResolveReplays(urls, db, nextId, actions);
        NoJobIsLost(Init(urls, db, nextId), actions);
      }
    } else {
      var name, k: nat :| Published(name) && Configured(urls, name) && !Configured(urls, NameAfter(urls, name, k));
      var actions := MisnamedQueueLosesJob(urls, name, JobFor(name), k);
    }
  }
}
