/** Plan limits: a plan's defaults, overridden tenant by tenant. */
module PlanLimits {
  import opened Jobs

  /** `overrides` holds the integer entries of `settings["plan_limits"]`. */
  datatype TenantRow = TenantRow(plan: string, overrides: map<string, int>)

  const STARTER := "starter"
  const MAX_LEADS := "max_leads"
  const LIMIT_KEYS: seq<string> := [MAX_LEADS, "max_sessions", "max_messages"]

  const DEFAULT_LIMITS: map<string, map<string, int>> := map[
    STARTER := map[MAX_LEADS := 500, "max_sessions" := 3000, "max_messages" := 20000],
    "growth" := map[MAX_LEADS := 5000, "max_sessions" := 30000, "max_messages" := 250000],
    "enterprise" := map[MAX_LEADS := 1000000, "max_sessions" := 1000000, "max_messages" := 10000000]]

  function PlanOf(tenant: Option<TenantRow>): (plan: string)
    ensures plan in DEFAULT_LIMITS
  {
    if tenant.Some? && tenant.value.plan in DEFAULT_LIMITS then tenant.value.plan else STARTER
  }

  /** The limit in force for one key. */
  function LimitFor(tenant: Option<TenantRow>, key: string): (n: int)
    requires key in LIMIT_KEYS
    ensures n > 0
  {
    if tenant.Some? && key in tenant.value.overrides && tenant.value.overrides[key] > 0
    then tenant.value.overrides[key]
    else DEFAULT_LIMITS[PlanOf(tenant)][key]
  }

  /** The plan's own limits: those of the two named plans, and the starter's for any other. */
  ghost predicate Standard(plan: string, key: string, n: int) {
    if plan == "growth" then
      (key == "max_leads" && n == 5_000) || (key == "max_sessions" && n == 30_000)
      || (key == "max_messages" && n == 250_000)
    else if plan == "enterprise" then
      (key == "max_leads" && n == 1_000_000) || (key == "max_sessions" && n == 1_000_000)
      || (key == "max_messages" && n == 10_000_000)
    else
      (key == "max_leads" && n == 500) || (key == "max_sessions" && n == 3_000)
      || (key == "max_messages" && n == 20_000)
  }

  /** A positive override is the limit in force, and otherwise the plan's; without a tenant
      the starter's. */
  lemma LimitInForce(tenant: Option<TenantRow>, key: string)
    requires key in LIMIT_KEYS
    ensures tenant.None? ==> Standard("starter", key, LimitFor(tenant, key))
    ensures tenant.Some? ==>
      var overrides := tenant.value.overrides;
      if key in overrides && overrides[key] > 0 then LimitFor(tenant, key) == overrides[key]
      else Standard(tenant.value.plan, key, LimitFor(tenant, key))
  {
  }

  method GetPlanLimits(tenant: Option<TenantRow>) returns (limits: map<string, int>)
    ensures forall key :: key in limits <==> key in {"max_leads", "max_sessions", "max_messages"}
    ensures forall key :: key in LIMIT_KEYS ==> limits[key] == LimitFor(tenant, key)
  {
    limits := DEFAULT_LIMITS[PlanOf(tenant)];
    if tenant.None? {
      return;
    }
    for i := 0 to |LIMIT_KEYS|
      invariant forall key :: key in limits <==> key in LIMIT_KEYS
      invariant forall j :: 0 <= j < i ==> limits[LIMIT_KEYS[j]] == LimitFor(tenant, LIMIT_KEYS[j])
      invariant forall j :: i <= j < |LIMIT_KEYS| ==> limits[LIMIT_KEYS[j]] == DEFAULT_LIMITS[PlanOf(tenant)][LIMIT_KEYS[j]]
    {
      var key := LIMIT_KEYS[i];
      if key in tenant.value.overrides && tenant.value.overrides[key] > 0 {
        limits := limits[key := tenant.value.overrides[key]];
      }
    }
  }
}
