/** Daily usage counters: one row per tenant and day. */
module Usage {
  import opened Jobs

  datatype Counters = Counters(
    aiTokens: nat, messages: nat, emails: nat, sms: nat, leads: nat, sessions: nat)

  const NONE := Counters(0, 0, 0, 0, 0, 0)

  function Add(a: Counters, b: Counters): Counters {
    Counters(a.aiTokens + b.aiTokens, a.messages + b.messages, a.emails + b.emails,
             a.sms + b.sms, a.leads + b.leads, a.sessions + b.sessions)
  }

  datatype UsageRow = UsageRow(tenant: Id, day: int, counters: Counters)

  /** Adds to the tenant's row of the day, creating the row when there is none. */
  function Increment(rows: seq<UsageRow>, tenant: Id, day: int, delta: Counters): seq<UsageRow> {
    if rows == [] then [UsageRow(tenant, day, Add(NONE, delta))]
    else if rows[0].tenant == tenant && rows[0].day == day then
      [UsageRow(tenant, day, Add(rows[0].counters, delta))] + rows[1..]
    else [rows[0]] + Increment(rows[1..], tenant, day, delta)
  }

  /** The tenant's counters summed over all days. */
  function Total(rows: seq<UsageRow>, tenant: Id): Counters {
    if rows == [] then NONE
    else Add(if rows[0].tenant == tenant then rows[0].counters else NONE, Total(rows[1..], tenant))
  }

  ghost predicate OneRowPerDay(rows: seq<UsageRow>) {
    forall i, j :: 0 <= i < j < |rows| ==> rows[i].tenant != rows[j].tenant || rows[i].day != rows[j].day
  }

  /** An increment moves exactly the tenant's totals, by exactly the delta. */
  lemma {:induction false} IncrementTotal(rows: seq<UsageRow>, tenant: Id, day: int, delta: Counters, t: Id)
    ensures Total(Increment(rows, tenant, day, delta), t)
         == Add(Total(rows, t), if t == tenant then delta else NONE)
  {
    if rows != [] && !(rows[0].tenant == tenant && rows[0].day == day) {
      IncrementTotal(rows[1..], tenant, day, delta, t);
    }
  }

  lemma {:induction false} IncrementRowOrigin(
    rows: seq<UsageRow>, tenant: Id, day: int, delta: Counters, r: UsageRow)
    requires r in Increment(rows, tenant, day, delta)
    ensures (r.tenant == tenant && r.day == day)
         || exists q :: q in rows && q.tenant == r.tenant && q.day == r.day
  {
    if rows != [] && !(rows[0].tenant == tenant && rows[0].day == day) {
      if r != rows[0] {
        IncrementRowOrigin(rows[1..], tenant, day, delta, r);
      }
    }
  }

  /** The uniqueness constraint on (tenant, day) is never violated. */
  lemma {:induction false} IncrementKeepsOneRowPerDay(
    rows: seq<UsageRow>, tenant: Id, day: int, delta: Counters)
    requires OneRowPerDay(rows)
    ensures OneRowPerDay(Increment(rows, tenant, day, delta))
  {
    if rows != [] && !(rows[0].tenant == tenant && rows[0].day == day) {
      var rest := Increment(rows[1..], tenant, day, delta);
      IncrementKeepsOneRowPerDay(rows[1..], tenant, day, delta);
      forall j | 0 <= j < |rest|
        ensures rows[0].tenant != rest[j].tenant || rows[0].day != rest[j].day
      {
        IncrementRowOrigin(rows[1..], tenant, day, delta, rest[j]);
      }
    }
  }

  /** Each counter on its own. */
  ghost predicate SumsTo(a: Counters, b: Counters, c: Counters) {
    && c.aiTokens == a.aiTokens + b.aiTokens && c.messages == a.messages + b.messages
    && c.emails == a.emails + b.emails && c.sms == a.sms + b.sms
    && c.leads == a.leads + b.leads && c.sessions == a.sessions + b.sessions
  }

  predicate Keyed(r: UsageRow, tenant: Id, day: int) {
    r.tenant == tenant && r.day == day
  }

  /** An increment touches the row of that tenant and day and no other: each of its counters
      grows by the delta, from zero when the row is new. */
  lemma {:induction false} IncrementRow(rows: seq<UsageRow>, tenant: Id, day: int, delta: Counters) returns (row: UsageRow)
    requires OneRowPerDay(rows)
    ensures var after := Increment(rows, tenant, day, delta);
      && row in after && Keyed(row, tenant, day)
      && forall r :: !Keyed(r, tenant, day) ==> (r in after <==> r in rows)
    ensures forall q :: q in rows && Keyed(q, tenant, day) ==> SumsTo(q.counters, delta, row.counters)
    ensures (forall q :: q in rows ==> !Keyed(q, tenant, day)) ==> row.counters == delta
  {
    var after := Increment(rows, tenant, day, delta);
    if rows == [] {
      row := after[0];
    } else if Keyed(rows[0], tenant, day) {
      row := after[0];
      forall q | q in rows && Keyed(q, tenant, day) ensures q == rows[0] {
        var i :| 0 <= i < |rows| && rows[i] == q;
      }
      assert rows == [rows[0]] + rows[1..];
    } else {
      row := IncrementRow(rows[1..], tenant, day, delta);
      assert rows == [rows[0]] + rows[1..];
    }
  }

  lemma {:induction false} IncrementAt(rows: seq<UsageRow>, tenant: Id, day: int, delta: Counters, i: nat)
    requires i <= |rows| && (forall j :: 0 <= j < i ==> !Keyed(rows[j], tenant, day))
    requires i < |rows| ==> Keyed(rows[i], tenant, day)
    ensures Increment(rows, tenant, day, delta) ==
      if i == |rows| then rows + [UsageRow(tenant, day, delta)]
      else rows[i := UsageRow(tenant, day, Add(rows[i].counters, delta))]
  {
    if i > 0 { IncrementAt(rows[1..], tenant, day, delta, i - 1); }
  }

  /** The service: the records are fields that `increment` updates. */
  class UsageTrackingService {
    var records: seq<UsageRow>

    constructor ()
      ensures records == []
    {
      records := [];
    }

    /** Finds the row of the day, creates it when it is missing, then adds in place. */
    method IncrementUsage(tenant: Id, today: int, delta: Counters)
      modifies this
      ensures records == Increment(old(records), tenant, today, delta)
    {
      var i := 0;
      while i < |records| && !Keyed(records[i], tenant, today)
        invariant 0 <= i <= |records|
        invariant forall j :: 0 <= j < i ==> !Keyed(records[j], tenant, today)
      {
        i := i + 1;
      }
      IncrementAt(records, tenant, today, delta, i);
      if i == |records| {
        records := records + [UsageRow(tenant, today, NONE)];
      }
      records := records[i := UsageRow(tenant, today, Add(records[i].counters, delta))];
    }
  }
}
