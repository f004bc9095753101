/** The tenant rate limiter: one fixed one-minute window and counter per tenant, and
    what that guarantees about any interval of time. */
module RateLimit {
  import opened Jobs

  /** One minute, in the microseconds of a timestamp. */
  const MINUTE := 60_000_000

  datatype Window = Window(startedAt: int, count: int)

  type Windows = map<Id, Window>

  datatype Request = Request(tenant: Id, at: int)

  // ---------- one call ----------

  /** A request opens a window when there is none, or when the last one is a minute old. */
  predicate Opens(ws: Windows, r: Request) {
    r.tenant !in ws || r.at - ws[r.tenant].startedAt >= MINUTE
  }

  predicate Admits(ws: Windows, limit: int, r: Request) {
    Opens(ws, r) || ws[r.tenant].count < limit
  }

  function After(ws: Windows, limit: int, r: Request): Windows {
    if Opens(ws, r) then ws[r.tenant := Window(r.at, 1)]
    else if Admits(ws, limit, r) then ws[r.tenant := ws[r.tenant].(count := ws[r.tenant].count + 1)]
    else ws
  }

  // ---------- runs ----------

  /** The windows after a run of requests. */
  function State(limit: int, run: seq<Request>): Windows {
    if run == [] then map[]
    else After(State(limit, run[..|run| - 1]), limit, run[|run| - 1])
  }

  predicate Admitted(limit: int, run: seq<Request>, i: nat)
    requires i < |run|
  {
    Admits(State(limit, run[..i]), limit, run[i])
  }

  /** Admitted requests of the tenant with `from <= at < to`. */
  function Count(limit: int, run: seq<Request>, tenant: Id, from: int, to: int): nat {
    if run == [] then 0
    else
      var n := |run| - 1;
      Count(limit, run[..n], tenant, from, to)
      + (if run[n].tenant == tenant && from <= run[n].at < to && Admitted(limit, run, n) then 1 else 0)
  }

  ghost predicate InOrder(run: seq<Request>) {
    forall i, j :: 0 <= i < j < |run| ==> run[i].at <= run[j].at
  }

  /** The number of requests one window admits: the opening one is never refused. */
  function Capacity(limit: int): (m: int)
    ensures m >= 1 && m >= limit
  {
    if limit < 1 then 1 else limit
  }

  /** What windows that began before `x` microseconds ago can add to a count. */
  function Carried(m: int, x: int): int {
    m * (x / MINUTE) + (if x % MINUTE == 0 then 0 else m - 1)
  }

  lemma CarriedPerMinute(m: int, x: int)
    ensures Carried(m, x + MINUTE) == Carried(m, x) + m
  {
    assert (x + MINUTE) / MINUTE == x / MINUTE + 1 && (x + MINUTE) % MINUTE == x % MINUTE;
    assert m * (x / MINUTE + 1) == m * (x / MINUTE) + m;
  }

  lemma CarriedGrows(m: int, x: int, y: int)
    requires m >= 1 && x <= y
    ensures Carried(m, x) <= Carried(m, y)
  {
    var a, b := x / MINUTE, y / MINUTE;
    assert a <= b;
    if a < b {
      assert m * b >= m * (a + 1) by { MulGrows(m, a + 1, b); }
      assert m * (a + 1) == m * a + m;
    }
  }

  lemma MulGrows(m: int, a: int, b: int)
    requires m >= 0 && a <= b
    ensures m * a <= m * b
  {
    assert m * b - m * a == m * (b - a);
  }

  /** A count `n` bounded by the window of `count` requests from `s` on. */
  ghost predicate WindowBounds(m: int, s: int, count: int, from: int, n: int) {
    && 1 <= count <= m
    && (s + MINUTE <= from ==> n == 0)
    && (s + MINUTE > from ==> n <= count + Carried(m, s - from))
  }

  /** The windows tell, for one tenant, how many requests were admitted since `from`. */
  ghost predicate Bounded(limit: int, run: seq<Request>, tenant: Id, from: int, to: int) {
    var ws := State(limit, run);
    var n := Count(limit, run, tenant, from, to);
    if tenant !in ws then n == 0
    else WindowBounds(Capacity(limit), ws[tenant].startedAt, ws[tenant].count, from, n)
  }

  lemma InOrderPrefix(run: seq<Request>, n: nat)
    requires InOrder(run) && n <= |run|
    ensures InOrder(run[..n])
  {
  }

  ghost predicate WindowsBefore(ws: Windows, at: int) {
    forall t :: t in ws ==> ws[t].startedAt <= at
  }

  lemma {:induction false} WindowsInThePast(limit: int, run: seq<Request>, at: int)
    requires forall i :: 0 <= i < |run| ==> run[i].at <= at
    ensures WindowsBefore(State(limit, run), at)
  {
    if run != [] { WindowsInThePast(limit, run[..|run| - 1], at); }
  }

  /** The first request of a new window, after another window or none. */
  lemma OpeningKeepsBounds(m: int, s: int, count: int, from: int, n: nat, at: int)
    requires m >= 1 && (n == 0 || (WindowBounds(m, s, count, from, n) && at >= s + MINUTE))
    ensures WindowBounds(m, at, 1, from, n + if from <= at then 1 else 0)
  {
    CarriedSmall(m, at - from);
    if n > 0 {
      CarriedPerMinute(m, s - from);
      CarriedGrows(m, s + MINUTE - from, at - from);
    }
  }

  lemma CountAppend(limit: int, run: seq<Request>, r: Request, tenant: Id, from: int, to: int)
    ensures State(limit, run + [r]) == After(State(limit, run), limit, r)
    ensures Count(limit, run + [r], tenant, from, to) ==
      Count(limit, run, tenant, from, to)
      + (if r.tenant == tenant && from <= r.at < to && Admits(State(limit, run), limit, r) then 1 else 0)
  {
    assert (run + [r])[..|run|] == run;
  }

  lemma OneMoreRequest(limit: int, run: seq<Request>, r: Request, tenant: Id, from: int, to: int)
    requires Bounded(limit, run, tenant, from, to) && r.at < to
    requires WindowsBefore(State(limit, run), r.at)
    ensures Bounded(limit, run + [r], tenant, from, to)
  {
    var ws := State(limit, run);
    var n := Count(limit, run, tenant, from, to);
    CountAppend(limit, run, r, tenant, from, to);
    if r.tenant == tenant && Opens(ws, r) {
      if tenant in ws {
        OpeningKeepsBounds(Capacity(limit), ws[tenant].startedAt, ws[tenant].count, from, n, r.at);
      } else {
        OpeningKeepsBounds(Capacity(limit), 0, 0, from, n, r.at);
      }
    }
  }

  lemma CarriedSmall(m: int, x: int)
    requires m >= 1
    ensures x >= 0 ==> Carried(m, x) >= 0
    ensures -MINUTE < x < 0 ==> Carried(m, x) == -1
  {
    if x >= 0 { CarriedGrows(m, 0, x); }
    if -MINUTE < x < 0 { assert x / MINUTE == -1 && x % MINUTE == x + MINUTE; }
  }

  lemma {:induction false} AlwaysBounded(limit: int, run: seq<Request>, tenant: Id, from: int, to: int)
    requires InOrder(run) && forall i :: 0 <= i < |run| ==> run[i].at < to
    ensures Bounded(limit, run, tenant, from, to)
  {
    if run != [] {
      var n := |run| - 1;
      InOrderPrefix(run, n);
      AlwaysBounded(limit, run[..n], tenant, from, to);
      WindowsInThePast(limit, run[..n], run[n].at);
      OneMoreRequest(limit, run[..n], run[n], tenant, from, to);
      assert run[..n] + [run[n]] == run;
    }
  }

  /** In any run, any `k` minutes hold at most (k + 1) * max(1, limit) - 1 admitted
      requests of a tenant, wherever the interval starts. */
  lemma {:induction false} SlidingIntervalBound(limit: int, run: seq<Request>, tenant: Id, from: int, k: int)
    requires InOrder(run) && k >= 1
    ensures Count(limit, run, tenant, from, from + k * 60_000_000) <= (k + 1) * (if limit < 1 then 1 else limit) - 1
  {
    var to := from + k * MINUTE;
    var m := Capacity(limit);
    if run == [] {
      assert (k + 1) * m >= 1 by { MulGrows(m, 1, k + 1); }
    } else if run[|run| - 1].at >= to {
      InOrderPrefix(run, |run| - 1);
      SlidingIntervalBound(limit, run[..|run| - 1], tenant, from, k);
    } else {
      AlwaysBounded(limit, run, tenant, from, to);
      assert (k + 1) * m >= 1 by { MulGrows(m, 1, k + 1); }
      if tenant in State(limit, run) {
        var s := State(limit, run)[tenant].startedAt;
        WindowsInThePast(limit, run, to - 1);
        if s + MINUTE > from {
          CarriedGrows(m, s - from, k * MINUTE - 1);
          FullMinutes(m, k);
        }
      }
    }
  }

  lemma FullMinutes(m: int, k: int)
    ensures Carried(m, k * MINUTE - 1) + m == (k + 1) * m - 1
  {
    assert (k * MINUTE - 1) / MINUTE == k - 1 && (k * MINUTE - 1) % MINUTE == MINUTE - 1;
    assert m * (k - 1) + m == m * k && (k + 1) * m == m * k + m;
  }

  // ---------- the bound is attained ----------

  function Burst(tenant: Id, at: int, n: nat): (b: seq<Request>)
    ensures |b| == n && forall i :: 0 <= i < n ==> b[i] == Request(tenant, at)
  {
    if n == 0 then [] else Burst(tenant, at, n - 1) + [Request(tenant, at)]
  }

  /** One request at 0, the rest of its window's capacity at the last microsecond of
      the minute, then a full window at the start of each of the next `k` minutes. */
  function WorstRun(limit: int, tenant: Id, k: nat): seq<Request> {
    var m := Capacity(limit);
    if k == 0 then [Request(tenant, 0)] + Burst(tenant, MINUTE - 1, m - 1)
    else WorstRun(limit, tenant, k - 1) + Burst(tenant, k * MINUTE, m)
  }

  /** The tenant's window after a run. */
  ghost predicate InWindow(limit: int, run: seq<Request>, tenant: Id, startedAt: int, count: int) {
    tenant in State(limit, run) && State(limit, run)[tenant] == Window(startedAt, count)
  }

  /** A request that fits into the open window is admitted and counted. */
  lemma OneFits(limit: int, run: seq<Request>, r: Request, startedAt: int, count: int, from: int, to: int)
    requires InWindow(limit, run, r.tenant, startedAt, count)
    requires r.at - startedAt < MINUTE && 1 <= count < Capacity(limit) && from <= r.at < to
    ensures InWindow(limit, run + [r], r.tenant, startedAt, count + 1)
    ensures Count(limit, run + [r], r.tenant, from, to) == Count(limit, run, r.tenant, from, to) + 1
  {
    CountAppend(limit, run, r, r.tenant, from, to);
  }

  /** Requests that fit into the open window are all admitted. */
  lemma {:induction false} BurstFits(
    limit: int, run: seq<Request>, tenant: Id, at: int, n: nat, startedAt: int, count: int, from: int, to: int)
    requires InWindow(limit, run, tenant, startedAt, count)
    requires at - startedAt < MINUTE && 1 <= count && count + n <= Capacity(limit) && from <= at < to
    ensures InWindow(limit, run + Burst(tenant, at, n), tenant, startedAt, count + n)
    ensures Count(limit, run + Burst(tenant, at, n), tenant, from, to) == Count(limit, run, tenant, from, to) + n
  {
    if n == 0 {
      assert run + Burst(tenant, at, 0) == run;
    } else {
      BurstFits(limit, run, tenant, at, n - 1, startedAt, count, from, to);
      BurstSplits(run, tenant, at, n);
      OneFits(limit, run + Burst(tenant, at, n - 1), Request(tenant, at), startedAt, count + n - 1, from, to);
    }
  }

  lemma BurstSplits(run: seq<Request>, tenant: Id, at: int, n: nat)
    requires n > 0
    ensures run + Burst(tenant, at, n) == (run + Burst(tenant, at, n - 1)) + [Request(tenant, at)]
  {
  }

  lemma {:induction false} BurstShifts(tenant: Id, at: int, n: nat)
    requires n > 0
    ensures Burst(tenant, at, n) == [Request(tenant, at)] + Burst(tenant, at, n - 1)
  {
    if n > 1 { BurstShifts(tenant, at, n - 1); }
  }

  lemma FirstOpens(limit: int, run: seq<Request>, r: Request, from: int, to: int)
    requires Opens(State(limit, run), r) && from <= r.at < to
    ensures InWindow(limit, run + [r], r.tenant, r.at, 1)
    ensures Count(limit, run + [r], r.tenant, from, to) == Count(limit, run, r.tenant, from, to) + 1
  {
    CountAppend(limit, run, r, r.tenant, from, to);
  }

  lemma BurstOpens(limit: int, run: seq<Request>, tenant: Id, at: int, from: int, to: int)
    requires Opens(State(limit, run), Request(tenant, at)) && from <= at < to
    ensures InWindow(limit, run + Burst(tenant, at, Capacity(limit)), tenant, at, Capacity(limit))
    ensures Count(limit, run + Burst(tenant, at, Capacity(limit)), tenant, from, to)
         == Count(limit, run, tenant, from, to) + Capacity(limit)
  {
    var m := Capacity(limit);
    var begun := run + [Request(tenant, at)];
    FirstOpens(limit, run, Request(tenant, at), from, to);
    BurstFits(limit, begun, tenant, at, m - 1, at, 1, from, to);
    BurstShifts(tenant, at, m);
    assert begun + Burst(tenant, at, m - 1) == run + Burst(tenant, at, m);
  }

  lemma {:induction false} WorstRunInOrder(limit: int, tenant: Id, k: nat)
    ensures InOrder(WorstRun(limit, tenant, k))
    ensures forall i :: 0 <= i < |WorstRun(limit, tenant, k)| ==> WorstRun(limit, tenant, k)[i].at < (k + 1) * MINUTE
  {
    if k > 0 { WorstRunInOrder(limit, tenant, k - 1); }
  }

  lemma {:induction false} WorstRunCounts(limit: int, tenant: Id, k: nat, to: int)
    requires to > k * MINUTE && to >= MINUTE
    ensures InWindow(limit, WorstRun(limit, tenant, k), tenant, k * MINUTE, Capacity(limit))
    ensures Count(limit, WorstRun(limit, tenant, k), tenant, 1, to) == (k + 1) * Capacity(limit) - 1
  {
    if k == 0 {
      FirstMinuteCounts(limit, tenant, to);
    } else {
      WorstRunCounts(limit, tenant, k - 1, to);
      NextMinuteCounts(limit, WorstRun(limit, tenant, k - 1), tenant, k, to);
      OneMoreWindow(Capacity(limit), k);
    }
  }

  /** A full window at the start of minute `k`, after one at the start of the minute before. */
  lemma NextMinuteCounts(limit: int, run: seq<Request>, tenant: Id, k: nat, to: int)
    requires k > 0 && to > k * MINUTE && InWindow(limit, run, tenant, (k - 1) * MINUTE, Capacity(limit))
    ensures var run' := run + Burst(tenant, k * MINUTE, Capacity(limit));
      && InWindow(limit, run', tenant, k * MINUTE, Capacity(limit))
      && Count(limit, run', tenant, 1, to) == Count(limit, run, tenant, 1, to) + Capacity(limit)
  {
    BurstOpens(limit, run, tenant, k * MINUTE, 1, to);
  }

  lemma FirstRequest(limit: int, tenant: Id, to: int)
    ensures InWindow(limit, [Request(tenant, 0)], tenant, 0, 1)
    ensures Count(limit, [Request(tenant, 0)], tenant, 1, to) == 0
  {
    CountAppend(limit, [], Request(tenant, 0), tenant, 1, to);
    assert [] + [Request(tenant, 0)] == [Request(tenant, 0)];
  }

  lemma FirstMinuteCounts(limit: int, tenant: Id, to: int)
    requires to >= MINUTE
    ensures var run := WorstRun(limit, tenant, 0);
      InWindow(limit, run, tenant, 0, Capacity(limit)) && Count(limit, run, tenant, 1, to) == Capacity(limit) - 1
  {
    var first := [Request(tenant, 0)];
    FirstRequest(limit, tenant, to);
    BurstFits(limit, first, tenant, MINUTE - 1, Capacity(limit) - 1, 0, 1, 1, to);
  }

  lemma OneMoreWindow(m: int, k: int)
    ensures (k + 1) * m == k * m + m
  {
  }

  /** For every limit and length there is a run that admits as many as the bound allows. */
  lemma SlidingIntervalBoundIsAttained(limit: int, tenant: Id, k: nat)
    requires k >= 1
    ensures InOrder(WorstRun(limit, tenant, k))
    ensures Count(limit, WorstRun(limit, tenant, k), tenant, 1, 1 + k * 60_000_000)
         == (k + 1) * (if limit < 1 then 1 else limit) - 1
  {
    WorstRunInOrder(limit, tenant, k);
    WorstRunCounts(limit, tenant, k, 1 + k * MINUTE);
  }

  // ---------- tenants do not affect each other ----------

  function Project(run: seq<Request>, tenant: Id): seq<Request> {
    if run == [] then []
    else
      var n := |run| - 1;
      Project(run[..n], tenant) + (if run[n].tenant == tenant then [run[n]] else [])
  }

  /** The answers a tenant gets, in order. */
  function Decisions(limit: int, run: seq<Request>, tenant: Id): seq<bool> {
    if run == [] then []
    else
      var n := |run| - 1;
      Decisions(limit, run[..n], tenant)
      + (if run[n].tenant == tenant then [Admitted(limit, run, n)] else [])
  }

  /** A tenant is answered exactly as if nobody else had called. */
  lemma {:induction false} TenantIsolation(limit: int, run: seq<Request>, tenant: Id)
    ensures var ws, own := State(limit, run), State(limit, Project(run, tenant));
      (tenant in own <==> tenant in ws) && (tenant in ws ==> own[tenant] == ws[tenant])
    ensures Decisions(limit, run, tenant) == Decisions(limit, Project(run, tenant), tenant)
  {
    if run != [] {
      var n := |run| - 1;
      var rest := Project(run[..n], tenant);
      TenantIsolation(limit, run[..n], tenant);
      if run[n].tenant == tenant {
        assert (rest + [run[n]])[..|rest|] == rest;
      } else {
        assert Project(run, tenant) == rest;
      }
    }
  }

  // ---------- when a request is refused ----------

  lemma {:induction false} WindowCountsAdmitted(limit: int, run: seq<Request>, tenant: Id, to: int)
    requires InOrder(run) && forall i :: 0 <= i < |run| ==> run[i].at < to
    requires tenant in State(limit, run)
    ensures var w := State(limit, run)[tenant]; w.count == Count(limit, run, tenant, w.startedAt, to)
  {
    var n := |run| - 1;
    var r, before := run[n], State(limit, run[..n]);
    InOrderPrefix(run, n);
    WindowsInThePast(limit, run[..n], r.at);
    if r.tenant == tenant && Opens(before, r) {
      AlwaysBounded(limit, run[..n], tenant, r.at, to);
    } else {
      WindowCountsAdmitted(limit, run[..n], tenant, to);
    }
  }

  /** A request is refused exactly when its tenant's window is under a minute old and
      max(1, limit) requests have been admitted since it began. */
  lemma RefusedIff(limit: int, run: seq<Request>, i: nat)
    requires InOrder(run) && i < |run|
    ensures var ws, r := State(limit, run[..i]), run[i];
      !Admitted(limit, run, i) <==>
        && r.tenant in ws
        && r.at - ws[r.tenant].startedAt < 60_000_000
        && Count(limit, run[..i], r.tenant, ws[r.tenant].startedAt, r.at + 1) == if limit < 1 then 1 else limit
  {
    var ws, r := State(limit, run[..i]), run[i];
    InOrderPrefix(run, i);
    if r.tenant in ws {
      WindowCountsAdmitted(limit, run[..i], r.tenant, r.at + 1);
      AlwaysBounded(limit, run[..i], r.tenant, r.at, r.at + 1);
    }
  }

  // ---------- the limiter ----------

  class WindowState {
    var windowStartedAt: int
    var count: int

    constructor (now: int)
      ensures windowStartedAt == now && count == 1
    {
      windowStartedAt, count := now, 1;
    }
  }

  class TenantRateLimiter {
    const enabled: bool
    const limit: int
    var windows: map<Id, WindowState>

    constructor (enabled: bool, limit: int)
      ensures Valid() && Abstract() == map[] && windows == map[]
      ensures this.enabled == enabled && this.limit == limit
    {
      this.enabled, this.limit := enabled, limit;
      windows := map[];
    }

    /** No two tenants share a window object. */
    ghost predicate Valid()
      reads this
    {
      forall s, t :: s in windows && t in windows && s != t ==> windows[s] != windows[t]
    }

    ghost function Abstract(): Windows
      reads this, windows.Values
    {
      map t | t in windows :: Window(windows[t].windowStartedAt, windows[t].count)
    }

    /** The call is one atomic step: it does not yield between its read and its write. */
    method Allow(tenant: Id, now: int) returns (allowed: bool)
      requires Valid()
      modifies this, windows.Values
      ensures Valid() && fresh(windows.Values - old(windows.Values))
      ensures !enabled ==> allowed && Abstract() == old(Abstract())
      ensures enabled ==>
        && allowed == Admits(old(Abstract()), limit, Request(tenant, now))
        && Abstract() == After(old(Abstract()), limit, Request(tenant, now))
    {
      if !enabled {
        return true;
      }
      if tenant !in windows || now - windows[tenant].windowStartedAt >= MINUTE {
        var state := new WindowState(now);
        windows := windows[tenant := state];
        return true;
      }
      var state := windows[tenant];
      if state.count >= limit {
        return false;
      }
      state.count := state.count + 1;
      return true;
    }
  }
}
