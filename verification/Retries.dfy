/** How often a handler runs for one delivered message, and what is left of a
    message that always fails. */
module Retries {
  import opened Jobs
  import opened Database
  import opened Worker
  import Custody

  /** Deletes and saves succeed: the worker is only interrupted between messages,
      and in an `exact` run never, so receive counts count handler calls. */
  ghost predicate Uninterrupted(w: World, a: Action, exact: bool) {
    a.AAbort? ==> !exact && w.phase.Idle?
  }

  predicate InBatch(w: World, id: nat) {
    exists i :: 0 <= i < |w.batch| && w.batch[i].id == id
  }

  predicate AtHand(w: World, id: nat) {
    !w.phase.Idle? && w.phase.m.id == id
  }

  ghost predicate HasRow(w: World, id: nat) {
    exists k :: 0 <= k < |w.rows| && w.rows[k].origin == id
  }

  /** Why a message may leave its queue. */
  ghost predicate Explained(w: World, id: nat) {
    id in w.handled || (id < |w.accepted| && w.accepted[id].payload.event.Other?) || HasRow(w, id)
  }

  ghost predicate AttemptsBounded(w: World) {
    && (forall id: nat :: w.attempts[id] <= MAX_RETRIES)
    && (forall id: nat :: id >= |w.accepted| ==> w.attempts[id] == 0)
    && (forall id :: id in w.queue ==> w.attempts[id] <= w.queue[id].receives)
    && (forall id :: id in w.queue && !AtHand(w, id) ==> w.attempts[id] < MAX_RETRIES)
  }

  ghost predicate CopiesCurrent(w: World) {
    && (forall i :: 0 <= i < |w.batch| ==>
          var m := w.batch[i];
          m.id in w.queue && m.receives == w.queue[m.id].receives && w.attempts[m.id] < m.receives)
    && (!w.phase.Idle? ==> w.phase.m.id in w.queue && w.phase.m.receives == w.queue[w.phase.m.id].receives)
    && (w.phase.Raised? ==> !w.phase.m.payload.event.Other?)
  }

  ghost predicate OneRowEach(w: World) {
    && (forall j, k :: 0 <= j < k < |w.rows| ==> w.rows[j].origin != w.rows[k].origin)
    && (forall k :: 0 <= k < |w.rows| && w.rows[k].origin in w.queue ==> w.phase.Saved? && AtHand(w, w.rows[k].origin))
  }

  ghost predicate LeftForAReason(w: World) {
    && (forall id :: 0 <= id < |w.accepted| && id !in w.queue ==> Explained(w, id))
    && (w.phase.Ran? || w.phase.Saved? ==> Explained(w, w.phase.m.id))
  }

  /** Receive counts equal handler calls, for messages that have a handler. */
  ghost predicate CountsExact(w: World) {
    && (forall id :: id in w.queue && !w.queue[id].payload.event.Other? ==>
          w.queue[id].receives == w.attempts[id] + (if InBatch(w, id) then 1 else 0))
    && (forall k :: 0 <= k < |w.rows| ==>
          w.rows[k].attempts == MAX_RETRIES && w.attempts[w.rows[k].origin] == MAX_RETRIES)
  }

  ghost predicate Retried(w: World, exact: bool) {
    && Custody.Consistent(w) && AttemptsBounded(w) && CopiesCurrent(w) && OneRowEach(w) && LeftForAReason(w)
    && (exact ==> CountsExact(w))
  }

  lemma RetriedWhenQueued(w: World, w': World, exact: bool)
    requires Retried(w, exact) && MoreQueued(w, w')
    ensures Retried(w', exact)
  {
    Custody.ConsistentWhenQueued(w, w');
    forall id | 0 <= id < |w'.accepted| && id !in w'.queue ensures Explained(w', id) {
      assert Explained(w, id);
    }
    assert forall id: nat :: InBatch(w', id) == InBatch(w, id);
    forall k | 0 <= k < |w'.rows| && w'.rows[k].origin in w'.queue
      ensures w'.phase.Saved? && AtHand(w', w'.rows[k].origin)
    {
      assert Custody.GenuineRow(w, w.rows[k]);
    }
  }

  lemma ReceivedAreInBatch(w: World, url: string, ids: seq<nat>)
    requires Receivable(w, url, ids)
    ensures forall id: nat :: InBatch(Receive(w, url, ids), id) <==> id in ids
  {
    var w' := Receive(w, url, ids);
    forall id: nat | id in ids ensures InBatch(w', id) {
      var i :| 0 <= i < |ids| && ids[i] == id;
      assert w'.batch[i].id == id;
    }
  }

  lemma ReceiveBounded(w: World, url: string, ids: seq<nat>)
    requires AttemptsBounded(w) && CopiesCurrent(w) && LeftForAReason(w) && Receivable(w, url, ids)
    ensures var w' := Receive(w, url, ids); AttemptsBounded(w') && CopiesCurrent(w') && LeftForAReason(w')
  {
    var w' := Receive(w, url, ids);
    forall id | 0 <= id < |w'.accepted| && id !in w'.queue ensures Explained(w', id) {
      assert Explained(w, id);
    }
  }

  lemma RetriedReceive(w: World, url: string, ids: seq<nat>, exact: bool)
    requires Retried(w, exact) && Receivable(w, url, ids)
    ensures Retried(Receive(w, url, ids), exact)
  {
    Custody.ConsistentReceive(w, url, ids);
    ReceivedAreInBatch(w, url, ids);
    ReceiveBounded(w, url, ids);
  }

  lemma SaveExplained(w: World)
    requires LeftForAReason(w) && w.phase.Raised?
    ensures LeftForAReason(SaveFailedJob(w))
  {
    var w' := SaveFailedJob(w);
    assert w'.rows[|w.rows|].origin == w.phase.m.id;
    forall id | 0 <= id < |w'.accepted| && id !in w'.queue ensures Explained(w', id) {
      assert Explained(w, id);
      if HasRow(w, id) { var k :| 0 <= k < |w.rows| && w.rows[k].origin == id; assert w'.rows[k].origin == id; }
    }
  }

  lemma RetriedSave(w: World, exact: bool)
    requires Retried(w, exact) && w.phase.Raised? && w.phase.m.receives >= MAX_RETRIES
    ensures Retried(SaveFailedJob(w), exact)
  {
    var w' := SaveFailedJob(w);
    Custody.ConsistentSave(w);
    SaveExplained(w);
    assert !InBatch(w, w.phase.m.id);
    assert forall id: nat :: InBatch(w', id) == InBatch(w, id);
  }

  lemma RetriedDelete(w: World, exact: bool)
    requires Retried(w, exact) && (w.phase.Ran? || w.phase.Saved?)
    ensures Retried(DeleteMessage(w), exact)
  {
    var w' := DeleteMessage(w);
    Custody.ConsistentDelete(w);
    assert w'.rows == w.rows;
    forall id | 0 <= id < |w'.accepted| && id !in w'.queue ensures Explained(w', id) {
      assert Explained(w, id);
    }
    assert forall id: nat :: InBatch(w', id) == InBatch(w, id);
  }

  /** From `w` to `w'` the next message was taken from the batch and run. */
  ghost predicate Takes(w: World, w': World) {
    && w.batch != [] && w.phase.Idle?
    && w'.urls == w.urls && w'.accepted == w.accepted && w'.queue == w.queue && w'.rows == w.rows
    && w'.batch == w.batch[1..] && w.handled <= w'.handled
    && var m := w.batch[0];
    && if m.payload.event.Other? then w'.phase == Ran(m) && w'.attempts == w.attempts
       else
         && w'.attempts == w.attempts + multiset{m.id}
         && (w'.phase == Raised(m) || (w'.phase == Ran(m) && m.id in w'.handled))
  }

  lemma TakeShrinksBatch(w: World, w': World)
    requires Custody.Consistent(w) && Takes(w, w')
    ensures forall id: nat :: InBatch(w', id) == (InBatch(w, id) && id != w.batch[0].id)
    ensures InBatch(w, w.batch[0].id)
  {
    var m := w.batch[0];
    forall id: nat | true ensures InBatch(w', id) == (InBatch(w, id) && id != m.id) {
      if InBatch(w', id) { var i :| 0 <= i < |w'.batch| && w'.batch[i].id == id; assert w.batch[i + 1].id == id; }
      if InBatch(w, id) && id != m.id {
        var i :| 0 <= i < |w.batch| && w.batch[i].id == id; assert w'.batch[i - 1].id == id;
      }
    }
  }

  lemma TakeBounded(w: World, w': World)
    requires Custody.Consistent(w) && Takes(w, w') && AttemptsBounded(w) && CopiesCurrent(w)
    ensures AttemptsBounded(w') && CopiesCurrent(w')
  {
    assert Custody.Genuine(w, w.batch[0]);
    forall i | 0 <= i < |w'.batch|
      ensures var b := w'.batch[i];
        b.id in w'.queue && b.receives == w'.queue[b.id].receives && w'.attempts[b.id] < b.receives
    {
      assert w'.batch[i] == w.batch[i + 1] && w.batch[0].id != w.batch[i + 1].id;
    }
  }

  lemma TakeExplained(w: World, w': World)
    requires Custody.Consistent(w) && Takes(w, w') && LeftForAReason(w) && OneRowEach(w)
    ensures LeftForAReason(w') && OneRowEach(w')
  {
    assert Custody.Genuine(w, w.batch[0]);
    forall id | 0 <= id < |w'.accepted| && id !in w'.queue ensures Explained(w', id) {
      assert Explained(w, id);
    }
  }

  lemma TakeExact(w: World, w': World)
    requires Custody.Consistent(w) && Takes(w, w') && CountsExact(w) && OneRowEach(w)
    ensures CountsExact(w')
  {
    TakeShrinksBatch(w, w');
    assert Custody.Genuine(w, w.batch[0]);
    forall k | 0 <= k < |w'.rows| ensures w'.rows[k].origin != w.batch[0].id {
      assert w.rows[k].origin !in w.queue;
    }
  }

  lemma RetriedTake(w: World, w': World, exact: bool)
    requires Retried(w, exact) && Takes(w, w') && Custody.Consistent(w')
    ensures Retried(w', exact)
  {
    TakeBounded(w, w');
    TakeExplained(w, w');
    if exact { TakeExact(w, w'); }
  }

  lemma RunTakes(w: World, p: Plan, budget: nat)
    requires w.batch != [] && w.phase.Idle? && !w.batch[0].payload.event.Other?
    ensures MoreQueued(w, Exec(w, p, budget))
    ensures Takes(Exec(w, p, budget), RunPlan(w, p, budget))
  {
    ExecQueues(w, p, budget);
  }

  lemma RetriedRun(w: World, budget: nat, day: int, exact: bool)
    requires Retried(w, exact) && w.batch != [] && w.phase.Idle?
    ensures Retried(RunHandler(w, budget, day), exact)
  {
    Custody.ConsistentRun(w, budget, day);
    if w.batch[0].payload.event.Other? {
      RetriedTake(w, RunHandler(w, budget, day), exact);
    } else {
      RunTakes(w, PlanOf(w, day), budget);
      var w1 := Exec(w, PlanOf(w, day), budget);
      RetriedWhenQueued(w, w1, exact);
      RetriedTake(w1, RunHandler(w, budget, day), exact);
    }
  }

  lemma RetriedReplay(w: World, k: nat, committed: bool, exact: bool)
    requires Retried(w, exact) && k < |w.rows|
    ensures Retried(Replay(w, k, committed), exact)
  {
    var r := w.rows[k];
    var w1 := Publish(w, Job(r.queueName, r.payload));
    var w' := Replay(w, k, committed);
    Custody.PublishQueues(w, Job(r.queueName, r.payload));
    RetriedWhenQueued(w, w1, exact);
    Custody.ConsistentReplay(w, k, committed);
    forall j | 0 <= j < |w'.rows|
      ensures w'.rows[j].origin == w1.rows[j].origin && w'.rows[j].attempts == w1.rows[j].attempts
    {
    }
    forall id | 0 <= id < |w'.accepted| && id !in w'.queue ensures Explained(w', id) {
      assert Explained(w1, id);
      if HasRow(w1, id) { var j :| 0 <= j < |w1.rows| && w1.rows[j].origin == id; assert w'.rows[j].origin == id; }
    }
    assert forall id: nat :: InBatch(w', id) == InBatch(w1, id);
    RowsMatter(w1, w', exact);
  }

  /** Only the origins and the attempts of the rows count here. */
  lemma RowsMatter(w: World, w': World, exact: bool)
    requires Retried(w, exact) && Custody.Consistent(w') && LeftForAReason(w')
    requires w' == w.(rows := w'.rows) && |w'.rows| == |w.rows|
    requires forall j :: 0 <= j < |w.rows| ==>
      w'.rows[j].origin == w.rows[j].origin && w'.rows[j].attempts == w.rows[j].attempts
    ensures Retried(w', exact)
  {
    assert forall id: nat :: InBatch(w', id) == InBatch(w, id);
  }

  lemma RetriedNext(w: World, a: Action, exact: bool)
    requires Retried(w, exact) && Uninterrupted(w, a, exact)
    ensures Retried(Next(w, a), exact)
  {
    match a
    case AReceive(url, ids) => if Receivable(w, url, ids) { RetriedReceive(w, url, ids, exact); }
    case ARun(budget, day) => if w.batch != [] && w.phase.Idle? { RetriedRun(w, budget, day, exact); }
    case ASave => if w.phase.Raised? && w.phase.m.receives >= MAX_RETRIES { RetriedSave(w, exact); }
    case ADelete => if w.phase.Ran? || w.phase.Saved? { RetriedDelete(w, exact); }
    case AReplay(k, committed) => if k < |w.rows| { RetriedReplay(w, k, committed, exact); }
    case ASkip => RetriedSkip(w, exact);
    case AAbort => RetriedAbort(w);
    case _ => Custody.ApiQueues(w, a); RetriedWhenQueued(w, Next(w, a), exact);
  }

  lemma LetGoExplained(w: World, w': World)
    requires LeftForAReason(w) && w'.phase.Idle?
    requires w'.accepted == w.accepted && w'.queue == w.queue && w'.handled == w.handled && w'.rows == w.rows
    ensures LeftForAReason(w')
  {
    forall id | 0 <= id < |w'.accepted| && id !in w'.queue ensures Explained(w', id) { assert Explained(w, id); }
  }

  lemma RetriedSkip(w: World, exact: bool)
    requires Retried(w, exact)
    ensures Retried(Next(w, ASkip), exact)
  {
    var w' := Next(w, ASkip);
    Custody.ConsistentNext(w, ASkip);
    if w' != w { LetGoExplained(w, w'); }
    assert forall id: nat :: InBatch(w', id) == InBatch(w, id);
  }

  lemma RetriedAbort(w: World)
    requires Retried(w, false) && w.phase.Idle?
    ensures Retried(Next(w, AAbort), false)
  {
    Custody.ConsistentNext(w, AAbort);
    LetGoExplained(w, Next(w, AAbort));
  }

  ghost predicate UninterruptedRun(w: World, actions: seq<Action>, exact: bool) {
    forall i :: 0 <= i < |actions| ==> Uninterrupted(Run(w, actions[..i]), actions[i], exact)
  }

  lemma {:induction false} RetriedAlways(urls: Urls, db: Db, nextId: Id, actions: seq<Action>, exact: bool)
    requires UninterruptedRun(Init(urls, db, nextId), actions, exact)
    ensures Retried(Run(Init(urls, db, nextId), actions), exact)
  {
    if actions != [] {
      var n := |actions| - 1;
      var w := Init(urls, db, nextId);
      assert Uninterrupted(Run(w, actions[..n]), actions[n], exact);
      forall i | 0 <= i < n ensures Uninterrupted(Run(w, actions[..n][..i]), actions[..n][i], exact) {
        assert actions[..n][..i] == actions[..i];
        assert Uninterrupted(Run(w, actions[..i]), actions[i], exact);
      }
      RetriedAlways(urls, db, nextId, actions[..n], exact);
      RetriedNext(Run(w, actions[..n]), actions[n], exact);
    }
  }

  /** While saves and deletes succeed, no message has its handler called more than
      three times, and none is written to failed_jobs twice. */
  lemma RetryBound(urls: Urls, db: Db, nextId: Id, actions: seq<Action>, id: nat)
    requires UninterruptedRun(Init(urls, db, nextId), actions, false)
    ensures var w := Run(Init(urls, db, nextId), actions);
      && w.attempts[id] <= MAX_RETRIES
      && forall j, k :: 0 <= j < k < |w.rows| ==> w.rows[j].origin != w.rows[k].origin
  {
    RetriedAlways(urls, db, nextId, actions, false);
  }

  /** A message that has a handler, left its queue and was never handled has exactly
      one row, written after exactly three calls. */
  lemma AlwaysFailingJobIsSavedOnce(urls: Urls, db: Db, nextId: Id, actions: seq<Action>, id: nat) returns (k: nat)
    requires UninterruptedRun(Init(urls, db, nextId), actions, true)
    requires var w := Run(Init(urls, db, nextId), actions);
      id < |w.accepted| && id !in w.queue && id !in w.handled && !w.accepted[id].payload.event.Other?
    ensures var w := Run(Init(urls, db, nextId), actions);
      && k < |w.rows| && w.rows[k].origin == id && w.rows[k].attempts == 3 && w.attempts[id] == 3
      && w.rows[k].payload == w.accepted[id].payload
      && forall j :: 0 <= j < |w.rows| && w.rows[j].origin == id ==> j == k
  {
    var w := Run(Init(urls, db, nextId), actions);
    RetriedAlways(urls, db, nextId, actions, true);
    assert Explained(w, id);
    k :| 0 <= k < |w.rows| && w.rows[k].origin == id;
    assert Custody.GenuineRow(w, w.rows[k]);
  }
}
