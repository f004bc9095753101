/** One poll of the worker: a batch of at most five messages of one queue, each taken to
    its end. What becomes of every call decides which run of `Worker` the poll is. */
module Polls {
  import opened Jobs
  import opened Database
  import opened Worker
  import Custody

  /** How one message fares: whether its body parses, how many calls of its handler
      succeed, whether the insert into failed_jobs and the delete succeed. */
  datatype Fate = Fate(parses: bool, budget: nat, saves: bool, deletes: bool, day: int)

  // ---------- what one poll does ----------

  /** The handler returned, or there is none. */
  predicate Handles(w: World, fate: Fate)
    requires w.batch != []
  {
    w.batch[0].payload.event.Other? || Returns(PlanOf(w, fate.day), fate.budget)
  }

  predicate Exhausted(m: Received) {
    m.receives >= MAX_RETRIES
  }

  /** The message leaves its queue: it was handled, or saved after its third delivery. */
  predicate Leaves(m: Received, ok: bool, fate: Fate) {
    fate.deletes && (ok || (Exhausted(m) && fate.saves))
  }

  /** The insert or the delete raises, and the exception leaves `poll_queue`. */
  predicate Stops(m: Received, ok: bool, fate: Fate) {
    (ok || Exhausted(m)) && !Leaves(m, ok, fate)
  }

  function DeleteStep(fate: Fate): Action {
    if fate.deletes then ADelete else AAbort
  }

  function SettleTrace(m: Received, ok: bool, fate: Fate): seq<Action> {
    if ok then [DeleteStep(fate)]
    else if !Exhausted(m) then [ASkip]
    else if !fate.saves then [AAbort]
    else [ASave, DeleteStep(fate)]
  }

  function MessageTrace(w: World, fate: Fate): seq<Action>
    requires w.batch != []
  {
    if !fate.parses then [AAbort]
    else [ARun(fate.budget, fate.day)] + SettleTrace(w.batch[0], Handles(w, fate), fate)
  }

  predicate MessageStops(w: World, fate: Fate)
    requires w.batch != []
  {
    !fate.parses || Stops(w.batch[0], Handles(w, fate), fate)
  }

  /** The messages of the batch one after another, until one stops the poll. */
  function BatchTrace(w: World, fates: seq<Fate>): seq<Action>
    decreases fates
  {
    if fates == [] || w.batch == [] then []
    else
      var first := MessageTrace(w, fates[0]);
      if MessageStops(w, fates[0]) then first else first + BatchTrace(Run(w, first), fates[1..])
  }

  /** A poll: which messages of which queue are received, and how each fares. */
  datatype Poll = Poll(url: string, ids: seq<nat>, fates: seq<Fate>)

  function PollTrace(w: World, p: Poll): seq<Action> {
    [AReceive(p.url, p.ids)] + BatchTrace(Next(w, AReceive(p.url, p.ids)), p.fates)
  }

  function AfterPoll(w: World, p: Poll): World {
    Run(w, PollTrace(w, p))
  }

  lemma PollUnfolds(w: World, p: Poll)
    ensures var w1 := Next(w, AReceive(p.url, p.ids)); AfterPoll(w, p) == Run(w1, BatchTrace(w1, p.fates))
  {
    var w1 := Next(w, AReceive(p.url, p.ids));
    RunOneAction(w, AReceive(p.url, p.ids));
    RunAppend(w, [AReceive(p.url, p.ids)], BatchTrace(w1, p.fates));
  }

  lemma BatchUnfolds(w: World, fates: seq<Fate>, i: nat)
    requires i < |fates| && w.batch != []
    ensures BatchTrace(w, fates[i..]) == MessageTrace(w, fates[i]) + RestOfBatch(w, fates, i)
  {
    assert fates[i..][0] == fates[i] && fates[i..][1..] == fates[i + 1..];
  }

  function RestOfBatch(w: World, fates: seq<Fate>, i: nat): seq<Action>
    requires i < |fates| && w.batch != []
  {
    if MessageStops(w, fates[i]) then [] else BatchTrace(Run(w, MessageTrace(w, fates[i])), fates[i + 1..])
  }

  /** One turn of the loop over the batch. */
  lemma NextInBatch(start: World, done: seq<Action>, w: World, fates: seq<Fate>, i: nat)
    requires i < |fates| && w.batch != [] && w == Run(start, done)
    ensures Run(w, MessageTrace(w, fates[i])) == Run(start, done + MessageTrace(w, fates[i]))
    ensures done + BatchTrace(w, fates[i..]) == (done + MessageTrace(w, fates[i])) + RestOfBatch(w, fates, i)
  {
    RunAppend(start, done, MessageTrace(w, fates[i]));
    BatchUnfolds(w, fates, i);
    Associate(done, MessageTrace(w, fates[i]), RestOfBatch(w, fates, i));
  }

  lemma Associate(a: seq<Action>, b: seq<Action>, c: seq<Action>)
    ensures a + (b + c) == (a + b) + c
  {
  }

  ghost predicate NoReplay(actions: seq<Action>) {
    forall a :: a in actions ==> !a.AReplay?
  }

  lemma PollIsSafe(w: World, trace: seq<Action>)
    requires Custody.Safe(w) && NoReplay(trace)
    ensures Custody.Safe(Run(w, trace))
  {
    forall i | 0 <= i < |trace| ensures Custody.ReplayResolves(Run(w, trace[..i]), trace[i]) {
      assert trace[i] in trace;
    }
    Custody.NoJobIsLost(w, trace);
  }

  // ---------- what a poll leaves behind ----------

  /** The row that saving the message writes, if it is saved. */
  function RowOf(m: Received, ok: bool, fate: Fate): seq<FailedRow> {
    if !ok && Exhausted(m) && fate.saves
    then [FailedRow(LastSegment(m.url), m.payload, m.receives, false, m.id, None)] else []
  }

  lemma SettleEffect(w: World, m: Received, ok: bool, fate: Fate)
    requires w.phase == if ok then Ran(m) else Raised(m)
    ensures Run(w, SettleTrace(m, ok, fate)) ==
      w.(queue := if Leaves(m, ok, fate) then w.queue - {m.id} else w.queue,
         rows := w.rows + RowOf(m, ok, fate), phase := Idle, batch := if Stops(m, ok, fate) then [] else w.batch)
  {
    if !ok && Exhausted(m) && fate.saves {
      SaveEffect(w, m, fate);
    } else {
      RunOneAction(w, SettleTrace(m, ok, fate)[0]);
    }
  }

  lemma SaveEffect(w: World, m: Received, fate: Fate)
    requires w.phase == Raised(m) && Exhausted(m)
    ensures Run(w, [ASave, DeleteStep(fate)]) ==
      w.(queue := if fate.deletes then w.queue - {m.id} else w.queue,
         rows := w.rows + [FailedRow(LastSegment(m.url), m.payload, m.receives, false, m.id, None)],
         phase := Idle, batch := if fate.deletes then w.batch else [])
  {
    RunOneAction(w, ASave);
    RunOneAction(Next(w, ASave), DeleteStep(fate));
    RunAppend(w, [ASave], [DeleteStep(fate)]);
    assert [ASave] + [DeleteStep(fate)] == [ASave, DeleteStep(fate)];
  }

  /** Every message but `m` is as it was; `m` too, if it is still queued. */
  ghost predicate Undisturbed(w: World, w': World, m: Received) {
    && w.accepted <= w'.accepted
    && forall id :: 0 <= id < |w.accepted| && (id != m.id || id in w'.queue) ==>
         (id in w'.queue <==> id in w.queue) && (id in w.queue ==> w'.queue[id] == w.queue[id])
  }

  /** From `w` to `w'` the first message of the batch met its fate: it leaves its queue
      when it was handled, or saved after its third delivery, and the delete succeeded. */
  ghost predicate MetFate(w: World, w': World, fate: Fate)
    requires w.batch != []
  {
    var m, ok := w.batch[0], Handles(w, fate);
    && w'.phase.Idle?
    && w'.batch == (if MessageStops(w, fate) then [] else w.batch[1..])
    && (m.id in w'.queue <==> !(fate.parses && Leaves(m, ok, fate)))
    && w'.handled == w.handled + (if fate.parses && ok && !m.payload.event.Other? then {m.id} else {})
    && w'.rows == w.rows + (if fate.parses then RowOf(m, ok, fate) else [])
    && Undisturbed(w, w', m)
  }

  /** One message of a poll, whatever happens to it. */
  lemma MessageSettled(w: World, fate: Fate)
    requires Custody.Consistent(w) && w.batch != [] && w.phase.Idle?
    ensures Custody.Consistent(Run(w, MessageTrace(w, fate))) && MetFate(w, Run(w, MessageTrace(w, fate)), fate)
  {
    if !fate.parses {
      UnparsedSettled(w, fate);
    } else {
      ParsedSettled(w, fate);
    }
  }

  lemma UnparsedSettled(w: World, fate: Fate)
    requires Custody.Consistent(w) && w.batch != [] && w.phase.Idle? && !fate.parses
    ensures Custody.Consistent(Run(w, [AAbort])) && MetFate(w, Run(w, [AAbort]), fate)
  {
    assert Custody.Genuine(w, w.batch[0]);
    RunOneAction(w, AAbort);
    Custody.ConsistentNext(w, AAbort);
  }

  lemma ParsedSettled(w: World, fate: Fate)
    requires Custody.Consistent(w) && w.batch != [] && w.phase.Idle? && fate.parses
    ensures Custody.Consistent(Run(w, MessageTrace(w, fate))) && MetFate(w, Run(w, MessageTrace(w, fate)), fate)
  {
    var m, ok, run := w.batch[0], Handles(w, fate), ARun(fate.budget, fate.day);
    var w1 := Next(w, run);
    assert Custody.Genuine(w, m);
    RunOneAction(w, run);
    HandlerLeaves(w, fate);
    Custody.ConsistentRun(w, fate.budget, fate.day);
    RunAppend(w, [run], SettleTrace(m, ok, fate));
    SettleEffect(w1, m, ok, fate);
    SettledConsistent(w1, m, ok, fate);
    FateAfterHandler(w, w1, Run(w1, SettleTrace(m, ok, fate)), fate);
  }

  lemma FateAfterHandler(w: World, w1: World, w': World, fate: Fate)
    requires w.batch != [] && w.batch[0].id in w.queue && w.batch[0].id < |w.accepted| && fate.parses
    requires AfterHandler(w, w1, fate)
    requires var m, ok := w.batch[0], Handles(w, fate);
      w' == w1.(queue := if Leaves(m, ok, fate) then w1.queue - {m.id} else w1.queue,
                rows := w1.rows + RowOf(m, ok, fate), phase := Idle, batch := if Stops(m, ok, fate) then [] else w1.batch)
    ensures MetFate(w, w', fate)
  {
  }

  /** The handler call adds messages at most. */
  ghost predicate AfterHandler(w: World, w1: World, fate: Fate)
    requires w.batch != []
  {
    var m, ok := w.batch[0], Handles(w, fate);
    && w1.phase == (if ok then Ran(m) else Raised(m)) && w1.batch == w.batch[1..] && w1.rows == w.rows
    && w1.handled == w.handled + (if ok && !m.payload.event.Other? then {m.id} else {})
    && w.accepted <= w1.accepted
    && forall id :: 0 <= id < |w.accepted| ==>
         (id in w1.queue <==> id in w.queue) && (id in w.queue ==> w1.queue[id] == w.queue[id])
  }

  lemma HandlerLeaves(w: World, fate: Fate)
    requires Custody.Consistent(w) && w.batch != [] && w.phase.Idle?
    ensures AfterHandler(w, RunHandler(w, fate.budget, fate.day), fate)
  {
    if !w.batch[0].payload.event.Other? {
      ExecQueues(w, PlanOf(w, fate.day), fate.budget);
    }
  }

  lemma SettledConsistent(w: World, m: Received, ok: bool, fate: Fate)
    requires Custody.Consistent(w) && w.phase == if ok then Ran(m) else Raised(m)
    ensures Custody.Consistent(Run(w, SettleTrace(m, ok, fate)))
  {
    var a := SettleTrace(m, ok, fate)[0];
    RunOneAction(w, a);
    Custody.ConsistentNext(w, a);
    if !ok && Exhausted(m) && fate.saves {
      RunOneAction(Next(w, a), DeleteStep(fate));
      RunAppend(w, [a], [DeleteStep(fate)]);
      Custody.ConsistentNext(Next(w, a), DeleteStep(fate));
    }
  }

  /** What becomes of messages that are not in the batch: nothing. */
  lemma {:induction false} PollKeeps(w: World, fates: seq<Fate>, id: nat)
    requires Custody.Consistent(w) && w.phase.Idle? && id < |w.accepted|
    requires forall i :: 0 <= i < |w.batch| ==> w.batch[i].id != id
    ensures var w' := Run(w, BatchTrace(w, fates));
      && (id in w'.queue <==> id in w.queue) && (id in w.queue ==> w'.queue[id] == w.queue[id])
      && w.handled <= w'.handled && w.rows <= w'.rows && w.accepted <= w'.accepted
    decreases fates
  {
    if fates != [] && w.batch != [] {
      var first := MessageTrace(w, fates[0]);
      MessageSettled(w, fates[0]);
      if !MessageStops(w, fates[0]) {
        PollKeeps(Run(w, first), fates[1..], id);
        RunAppend(w, first, BatchTrace(Run(w, first), fates[1..]));
      }
    }
  }

  /** Nothing around the handlers fails. */
  ghost predicate Calm(fates: seq<Fate>) {
    forall i :: 0 <= i < |fates| ==> fates[i].parses && fates[i].saves && fates[i].deletes
  }

  /** Where a message of the batch is after a poll. */
  ghost predicate SettledIn(w: World, w': World, m: Received) {
    if m.id in w'.queue then !Exhausted(m) && m.id in w.queue && w'.queue[m.id] == w.queue[m.id]
    else m.id in w'.handled || m.payload.event.Other? || exists r :: r in w'.rows && r.origin == m.id
  }

  lemma FirstSettled(w: World, w1: World, w': World, fate: Fate)
    requires w.batch != [] && w.batch[0].id in w.queue && w.batch[0].id < |w.accepted|
    requires MetFate(w, w1, fate) && Calm([fate])
    requires var id := w.batch[0].id;
      && (id in w'.queue <==> id in w1.queue) && (id in w1.queue ==> w'.queue[id] == w1.queue[id])
      && w1.handled <= w'.handled && w1.rows <= w'.rows
    ensures SettledIn(w, w', w.batch[0])
  {
    var m, ok := w.batch[0], Handles(w, fate);
    assert [fate][0] == fate;
    if !ok && Exhausted(m) { assert w1.rows[|w.rows|] == RowOf(m, ok, fate)[0] && w1.rows[|w.rows|] in w'.rows; }
  }

  lemma LaterSettled(w: World, w1: World, w': World, m: Received)
    requires w.batch != [] && Undisturbed(w, w1, w.batch[0]) && m.id != w.batch[0].id && m.id < |w.accepted|
    requires SettledIn(w1, w', m)
    ensures SettledIn(w, w', m)
  {
  }

  lemma TurnUnfolds(w: World, fates: seq<Fate>)
    requires fates != [] && w.batch != [] && !MessageStops(w, fates[0])
    ensures Run(w, BatchTrace(w, fates)) ==
      Run(Run(w, MessageTrace(w, fates[0])), BatchTrace(Run(w, MessageTrace(w, fates[0])), fates[1..]))
  {
    var first := MessageTrace(w, fates[0]);
    RunAppend(w, first, BatchTrace(Run(w, first), fates[1..]));
  }

  /** The first turn of a calm poll. */
  lemma CalmTurn(w: World, fates: seq<Fate>) returns (w1: World)
    requires Custody.Consistent(w) && w.phase.Idle? && fates != [] && w.batch != [] && Calm(fates)
    ensures Custody.Consistent(w1) && w1.phase.Idle? && w1.batch == w.batch[1..] && MetFate(w, w1, fates[0])
    ensures Run(w, BatchTrace(w, fates)) == Run(w1, BatchTrace(w1, fates[1..]))
  {
    w1 := Run(w, MessageTrace(w, fates[0]));
    assert !MessageStops(w, fates[0]);
    MessageSettled(w, fates[0]);
    TurnUnfolds(w, fates);
  }

  lemma CalmFirstSettles(w: World, fates: seq<Fate>)
    requires Custody.Consistent(w) && w.phase.Idle? && fates != [] && w.batch != [] && Calm(fates)
    ensures SettledIn(w, Run(w, BatchTrace(w, fates)), w.batch[0])
  {
    assert Custody.Genuine(w, w.batch[0]);
    var w1 := CalmTurn(w, fates);
    PollKeeps(w1, fates[1..], w.batch[0].id);
    FirstSettled(w, w1, Run(w1, BatchTrace(w1, fates[1..])), fates[0]);
  }

  /** After the first turn the later messages are as they were. */
  lemma CalmTurnLeaves(w: World, fates: seq<Fate>) returns (w1: World)
    requires Custody.Consistent(w) && w.phase.Idle? && fates != [] && w.batch != [] && Calm(fates)
    ensures Custody.Consistent(w1) && w1.phase.Idle? && w1.batch == w.batch[1..] && Undisturbed(w, w1, w.batch[0])
    ensures Run(w, BatchTrace(w, fates)) == Run(w1, BatchTrace(w1, fates[1..]))
  {
    w1 := CalmTurn(w, fates);
  }

  lemma BatchIsGenuine(w: World, i: nat)
    requires Custody.Consistent(w) && 0 < i < |w.batch|
    ensures w.batch[i].id < |w.accepted| && w.batch[i].id != w.batch[0].id
  {
    assert Custody.Genuine(w, w.batch[i]);
  }

  lemma LaterOfBatchSettled(w: World, w1: World, end: World, i: nat)
    requires Custody.Consistent(w) && 0 < i < |w.batch| && Undisturbed(w, w1, w.batch[0])
    requires w1.batch == w.batch[1..] && SettledIn(w1, end, w1.batch[i - 1])
    ensures SettledIn(w, end, w.batch[i])
  {
    BatchIsGenuine(w, i);
    LaterSettled(w, w1, end, w1.batch[i - 1]);
  }

  lemma {:induction false} CalmBatchSettles(w: World, fates: seq<Fate>, i: nat, end: World)
    requires Custody.Consistent(w) && w.phase.Idle? && |fates| == |w.batch| && Calm(fates) && i < |w.batch|
    requires end == Run(w, BatchTrace(w, fates))
    ensures SettledIn(w, end, w.batch[i])
    decreases fates
  {
    if i == 0 {
      CalmFirstSettles(w, fates);
    } else {
      var w1 := CalmTurnLeaves(w, fates);
      CalmBatchSettles(w1, fates[1..], i - 1, end);
      LaterOfBatchSettled(w, w1, end, i);
    }
  }

  /** A poll in which only handlers fail: afterwards a received message is still queued
      only if its handler failed before the third delivery, with its body and its count
      as received; every other one was handled, has no handler, or has a row. */
  lemma CalmPollSettles(w: World, fates: seq<Fate>, i: nat)
    requires Custody.Consistent(w) && w.phase.Idle? && |fates| == |w.batch| && Calm(fates) && i < |w.batch|
    ensures SettledIn(w, Run(w, BatchTrace(w, fates)), w.batch[i])
  {
    CalmBatchSettles(w, fates, i, Run(w, BatchTrace(w, fates)));
  }

  /** The worker is between batches, and the identifiers are of at most five different
      messages, all on the queue polled. */
  ghost predicate CanReceive(w: World, url: string, ids: seq<nat>) {
    && w.batch == [] && w.phase == Idle && |ids| <= 5
    && (forall i, j :: 0 <= i < j < |ids| ==> ids[i] != ids[j])
    && forall id :: id in ids ==> id in w.queue && w.queue[id].url == url
  }

  /** A receive hands out copies of the messages asked for, in that order, with their counts
      one higher than they were, here and on the queue; other messages stay as they are. A
      receive that is not possible changes nothing. */
  lemma ReceiveTakes(w: World, url: string, ids: seq<nat>)
    ensures var w' := Next(w, AReceive(url, ids));
      if !CanReceive(w, url, ids) then w' == w
      else
        && w' == w.(batch := w'.batch, queue := w'.queue) && |w'.batch| == |ids|
        && (forall i :: 0 <= i < |ids| ==>
              w'.batch[i] == Received(ids[i], url, w.queue[ids[i]].payload, w.queue[ids[i]].receives + 1))
        && (forall id :: id in w'.queue <==> id in w.queue)
        && (forall id :: id in w.queue ==>
              w'.queue[id] == Message(w.queue[id].url, w.queue[id].payload,
                                      w.queue[id].receives + if id in ids then 1 else 0))
  {
    if CanReceive(w, url, ids) {
      forall i | 0 <= i < |ids| ensures ids[i] in ids { }
    }
    assert Receivable(w, url, ids) <==> CanReceive(w, url, ids);
  }
}
