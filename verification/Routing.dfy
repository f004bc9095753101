/** The routing engine: prioritised rules over a lead, first match wins, and the
    assignment it makes. */
module Routing {
  import opened Jobs
  import Sorting
  import Text

  /** JSON values as the rules and the lead's columns hold them. */
  datatype Value = Null | Bool(b: bool) | Num(r: real) | Str(s: string) | List(items: seq<Value>)

  /** What the comparators take from Python: `float(str)`, `str(value).lower()`, and
      `str(value)`. */
  datatype Runtime = Runtime(parse: string -> Option<real>, lowered: Value -> string, show: Value -> string)

  const OWNER := "owner_user_id"
  const TEAM := "assigned_team_id"
  const QUEUE := "assigned_queue_name"
  const UPDATED_AT := "updated_at"
  const CUSTOM := "custom_fields."

  datatype Condition = Condition(field: Option<string>, op: Option<string>, expected: Value)

  datatype Rule = Rule(
    id: Id, tenant: Id, priority: int, enabled: bool, conditions: seq<Condition>,
    action: string, payload: map<string, Value>)

  datatype Decision = Decision(rule: Option<Id>, action: Option<string>, payload: map<string, Value>)

  const NO_DECISION := Decision(None, None, map[])

  /** A lead: the three assignment columns, its other columns, `updated_at` among them,
      and its custom fields. */
  datatype LeadState = LeadState(
    columns: map<string, Value>, customFields: map<string, Value>,
    owner: Option<string>, team: Option<string>, queue: Option<string>)

  // ---------- conditions ----------

  function FieldOf(c: Condition): string {
    Text.Strip(if c.field.Some? then c.field.value else "")
  }

  function OpOf(c: Condition): string {
    Text.Strip(if c.op.Some? then c.op.value else "eq")
  }

  function OfOption(s: Option<string>): Value {
    if s.Some? then Str(s.value) else Null
  }

  function ReadField(lead: LeadState, field: string): Value {
    if field == OWNER then OfOption(lead.owner)
    else if field == TEAM then OfOption(lead.team)
    else if field == QUEUE then OfOption(lead.queue)
    else if field in lead.columns then lead.columns[field]
    else if CUSTOM <= field then
      var key := field[|CUSTOM|..];
      if key in lead.customFields then lead.customFields[key] else Null
    else Null
  }

  function ToFloat(rt: Runtime, v: Value): Option<real> {
    match v
    case Num(r) => Some(r)
    case Bool(b) => Some(if b then 1.0 else 0.0)
    case Str(s) => rt.parse(s)
    case _ => None
  }

  /** Python's `==`: booleans are numbers, lists compare element by element. */
  predicate Equal(a: Value, b: Value) {
    match (a, b)
    case (Null, Null) => true
    case (Str(s), Str(t)) => s == t
    case (List(xs), List(ys)) => |xs| == |ys| && forall i :: 0 <= i < |xs| ==> Equal(xs[i], ys[i])
    case (Num(x), Num(y)) => x == y
    case (Bool(x), Bool(y)) => x == y
    case (Num(x), Bool(y)) => x == if y then 1.0 else 0.0
    case (Bool(x), Num(y)) => y == if x then 1.0 else 0.0
    case _ => false
  }

  predicate Substring(sub: string, s: string) {
    sub <= s || (s != "" && Substring(sub, s[1..]))
  }

  predicate Ordered(rt: Runtime, a: Value, b: Value, test: (real, real) -> bool) {
    var x, y := ToFloat(rt, a), ToFloat(rt, b);
    x.Some? && y.Some? && test(x.value, y.value)
  }

  /** An operator that is not in the table fails the rule. */
  predicate Compare(rt: Runtime, op: string, actual: Value, expected: Value) {
    if op == "eq" then Equal(actual, expected)
    else if op == "neq" then !Equal(actual, expected)
    else if op == "contains" then Substring(rt.lowered(expected), rt.lowered(actual))
    else if op == "gt" then Ordered(rt, actual, expected, (x, y) => x > y)
    else if op == "gte" then Ordered(rt, actual, expected, (x, y) => x >= y)
    else if op == "lt" then Ordered(rt, actual, expected, (x, y) => x < y)
    else if op == "lte" then Ordered(rt, actual, expected, (x, y) => x <= y)
    else if op == "in" then
      expected.List? && exists i :: 0 <= i < |expected.items| && Equal(actual, expected.items[i])
    else false
  }

  /** The four orderings agree with each other and with equality on numbers, and are
      all false when a side has no numeric value. */
  lemma OrderingsAgree(rt: Runtime, a: Value, b: Value)
    ensures var numeric := ToFloat(rt, a).Some? && ToFloat(rt, b).Some?;
      && (Compare(rt, "gte", a, b) <==> numeric && !Compare(rt, "lt", a, b))
      && (Compare(rt, "lte", a, b) <==> numeric && !Compare(rt, "gt", a, b))
      && (Compare(rt, "gt", a, b) <==> Compare(rt, "lt", b, a))
      && (a.Num? && b.Num? ==>
            (Compare(rt, "eq", a, b) <==> Compare(rt, "gte", a, b) && Compare(rt, "lte", a, b)))
    ensures Compare(rt, "neq", a, b) <==> !Compare(rt, "eq", a, b)
    ensures Compare(rt, "in", a, List([b])) <==> Compare(rt, "eq", a, b)
  {
    if Compare(rt, "eq", a, b) { assert Equal(a, List([b]).items[0]); }
  }

  /** The number that a value stands for: a number for itself, a boolean for 1 or 0, a
      text for what it parses to; null and lists for none. */
  ghost predicate Reads(rt: Runtime, v: Value, x: real) {
    || v == Num(x) || (v == Bool(true) && x == 1.0) || (v == Bool(false) && x == 0.0)
    || (v.Str? && rt.parse(v.s) == Some(x))
  }

  lemma ToFloatReads(rt: Runtime, v: Value, x: real)
    ensures ToFloat(rt, v) == Some(x) <==> Reads(rt, v, x)
  {
  }

  /** Two values that stand for numbers are compared in this direction, and every ordering
      is false of a value that stands for none. */
  lemma OrderingsCompare(rt: Runtime, a: Value, b: Value)
    ensures Compare(rt, "gt", a, b) <==> (exists x, y :: Reads(rt, a, x) && Reads(rt, b, y) && x > y)
    ensures Compare(rt, "gte", a, b) <==> (exists x, y :: Reads(rt, a, x) && Reads(rt, b, y) && x >= y)
    ensures Compare(rt, "lt", a, b) <==> (exists x, y :: Reads(rt, a, x) && Reads(rt, b, y) && x < y)
    ensures Compare(rt, "lte", a, b) <==> (exists x, y :: Reads(rt, a, x) && Reads(rt, b, y) && x <= y)
  {
    forall x | true ensures ToFloat(rt, a) == Some(x) <==> Reads(rt, a, x) { ToFloatReads(rt, a, x); }
    forall y | true ensures ToFloat(rt, b) == Some(y) <==> Reads(rt, b, y) { ToFloatReads(rt, b, y); }
  }

  /** A value with its booleans written as the numbers 1 and 0. */
  function Plain(v: Value): Value {
    match v
    case Bool(b) => Num(if b then 1.0 else 0.0)
    case List(items) => List(seq(|items|, i requires 0 <= i < |items| => Plain(items[i])))
    case _ => v
  }

  /** Two values are equal exactly when they are the same once booleans are numbers. */
  lemma {:induction false} EqualIffSamePlain(a: Value, b: Value)
    ensures Equal(a, b) <==> Plain(a) == Plain(b)
  {
    if a.List? && b.List? {
      var xs, ys := Plain(a).items, Plain(b).items;
      assert |xs| == |a.items| && |ys| == |b.items|;
      if |xs| != |ys| { return; }
      forall i | 0 <= i < |xs| ensures Equal(a.items[i], b.items[i]) <==> xs[i] == ys[i] {
        EqualIffSamePlain(a.items[i], b.items[i]);
      }
      assert xs == ys <==> forall i :: 0 <= i < |xs| ==> xs[i] == ys[i];
      assert Equal(a, b) <==> forall i :: 0 <= i < |xs| ==> xs[i] == ys[i];
    }
  }

  lemma {:induction false} SubstringOccurs(sub: string, s: string)
    ensures Substring(sub, s) <==> exists before, after :: s == before + sub + after
  {
    if sub <= s {
      assert s == "" + sub + s[|sub|..];
    } else if s != "" {
      SubstringOccurs(sub, s[1..]);
      if before, after :| s[1..] == before + sub + after {
        assert s == [s[0]] + s[1..] == ([s[0]] + before) + sub + after;
      }
      if before, after :| s == before + sub + after {
        assert before != "";
        assert s[1..] == before[1..] + sub + after;
      }
    }
  }

  /** What the other operators ask, and that there are no more than eight. */
  lemma OperatorsMean(rt: Runtime, a: Value, b: Value)
    ensures Compare(rt, "eq", a, b) <==> Plain(a) == Plain(b)
    ensures Compare(rt, "neq", a, b) <==> Plain(a) != Plain(b)
    ensures Compare(rt, "contains", a, b) <==>
      (exists before, after :: rt.lowered(a) == before + rt.lowered(b) + after)
    ensures Compare(rt, "in", a, b) <==> b.List? && exists x :: x in b.items && Plain(a) == Plain(x)
    ensures forall op :: op !in {"eq", "neq", "contains", "gt", "gte", "lt", "lte", "in"} ==> !Compare(rt, op, a, b)
  {
    EqualIffSamePlain(a, b);
    SubstringOccurs(rt.lowered(b), rt.lowered(a));
    if b.List? {
      forall x | x in b.items ensures Equal(a, x) <==> Plain(a) == Plain(x) { EqualIffSamePlain(a, x); }
      if x :| x in b.items && Equal(a, x) {
        var i :| 0 <= i < |b.items| && b.items[i] == x;
      }
    }
  }

  /** Where a condition's field is read: the assignment columns, then the other columns,
      then, behind a prefix, the custom fields; anything else is null. */
  lemma FieldsRead(lead: LeadState, field: string)
    ensures ReadField(lead, "owner_user_id") == (if lead.owner.Some? then Str(lead.owner.value) else Null)
    ensures ReadField(lead, "assigned_team_id") == (if lead.team.Some? then Str(lead.team.value) else Null)
    ensures ReadField(lead, "assigned_queue_name") == (if lead.queue.Some? then Str(lead.queue.value) else Null)
    ensures field !in {"owner_user_id", "assigned_team_id", "assigned_queue_name"} ==>
      && (field in lead.columns ==> ReadField(lead, field) == lead.columns[field])
      && (field !in lead.columns ==>
            && (forall key :: field == "custom_fields." + key && key in lead.customFields ==>
                  ReadField(lead, field) == lead.customFields[key])
            && ((forall key :: key in lead.customFields ==> field != "custom_fields." + key) ==>
                  ReadField(lead, field) == Null))
  {
    if "custom_fields." <= field { assert field == "custom_fields." + field[|"custom_fields."|..]; }
    forall key | field == "custom_fields." + key ensures field[|"custom_fields."|..] == key { }
  }

  /** Field and operator count without the spaces around them; a condition without an
      operator asks for equality, and one without a field reads the empty name. */
  lemma ConditionHolds(rt: Runtime, lead: LeadState, c: Condition, left: string, name: string, right: string)
    requires Text.AllSpaces(left) && Text.AllSpaces(right) && Text.Trimmed(name)
    ensures c.field == Some(left + name + right) ==> FieldOf(c) == name
    ensures c.op == Some(left + name + right) ==> OpOf(c) == name
    ensures c.field == None ==> FieldOf(c) == ""
    ensures c.op == None ==> OpOf(c) == "eq"
  {
    Text.StripOfPadded(left, name, right);
    Text.StripFixedIff("eq");
    Text.StripFixedIff("");
  }

  predicate Holds(rt: Runtime, lead: LeadState, c: Condition) {
    Compare(rt, OpOf(c), ReadField(lead, FieldOf(c)), c.expected)
  }

  predicate Matches(rt: Runtime, lead: LeadState, rule: Rule) {
    forall i :: 0 <= i < |rule.conditions| ==> Holds(rt, lead, rule.conditions[i])
  }

  predicate Applies(rt: Runtime, lead: LeadState, rule: Rule) {
    rule.enabled && Matches(rt, lead, rule)
  }

  // ---------- conditions on a numeric column ----------

  function WithNumber(lead: LeadState, column: string, x: real): LeadState {
    lead.(columns := lead.columns[column := Num(x)])
  }

  /** All that the rule asks of the column it asks with these operators. */
  predicate AsksWith(rule: Rule, column: string, ops: set<string>) {
    forall i :: 0 <= i < |rule.conditions| ==> FieldOf(rule.conditions[i]) == column ==> OpOf(rule.conditions[i]) in ops
  }

  lemma ConditionOnRaised(rt: Runtime, lead: LeadState, column: string, x: real, y: real, c: Condition)
    requires x <= y && column !in {"owner_user_id", "assigned_team_id", "assigned_queue_name"}
    ensures var low, high := WithNumber(lead, column, x), WithNumber(lead, column, y);
      && (FieldOf(c) == column && OpOf(c) in {"gt", "gte"} && Holds(rt, low, c) ==> Holds(rt, high, c))
      && (FieldOf(c) == column && OpOf(c) in {"lt", "lte"} && Holds(rt, high, c) ==> Holds(rt, low, c))
      && (FieldOf(c) != column ==> (Holds(rt, low, c) <==> Holds(rt, high, c)))
  {
  }

  /** A lead with a higher number in the column matches every rule that the lower one
      matches, if the rule asks of it with `gt` and `gte`; the other way round with `lt`
      and `lte`. */
  lemma RaisingKeepsMatches(rt: Runtime, lead: LeadState, column: string, x: real, y: real, rule: Rule)
    requires x <= y && column !in {"owner_user_id", "assigned_team_id", "assigned_queue_name"}
    ensures var low, high := WithNumber(lead, column, x), WithNumber(lead, column, y);
      && (AsksWith(rule, column, {"gt", "gte"}) && Matches(rt, low, rule) ==> Matches(rt, high, rule))
      && (AsksWith(rule, column, {"lt", "lte"}) && Matches(rt, high, rule) ==> Matches(rt, low, rule))
  {
    var low, high := WithNumber(lead, column, x), WithNumber(lead, column, y);
    forall i | 0 <= i < |rule.conditions|
      ensures AsksWith(rule, column, {"gt", "gte"}) && Matches(rt, low, rule) ==> Holds(rt, high, rule.conditions[i])
      ensures AsksWith(rule, column, {"lt", "lte"}) && Matches(rt, high, rule) ==> Holds(rt, low, rule.conditions[i])
    {
      ConditionOnRaised(rt, lead, column, x, y, rule.conditions[i]);
      assert Matches(rt, low, rule) ==> Holds(rt, low, rule.conditions[i]);
      assert Matches(rt, high, rule) ==> Holds(rt, high, rule.conditions[i]);
    }
  }

  /** A rule with one threshold on the column matches exactly the numbers on its side. */
  lemma ThresholdRule(rt: Runtime, lead: LeadState, rule: Rule, column: string, op: string, x: real, threshold: real)
    requires rule.conditions == [Condition(Some(column), Some(op), Num(threshold))] && Text.Trimmed(column)
    requires column !in {"owner_user_id", "assigned_team_id", "assigned_queue_name"}
    ensures var matches := Matches(rt, WithNumber(lead, column, x), rule);
      && (op == "gt" ==> (matches <==> x > threshold)) && (op == "gte" ==> (matches <==> x >= threshold))
      && (op == "lt" ==> (matches <==> x < threshold)) && (op == "lte" ==> (matches <==> x <= threshold))
  {
    var c := rule.conditions[0];
    Text.StripFixedIff(column);
    Text.StripFixedIff(op);
    assert Matches(rt, WithNumber(lead, column, x), rule) <==> Holds(rt, WithNumber(lead, column, x), c);
  }

  // ---------- evaluation ----------

  function Rank(r: Rule): Sorting.Key {
    (-r.priority, r.id)
  }

  function DecisionOf(r: Rule): Decision {
    Decision(Some(r.id), Some(r.action), r.payload)
  }

  function FirstMatch(rt: Runtime, lead: LeadState, rules: seq<Rule>): Decision {
    if rules == [] then NO_DECISION
    else if Applies(rt, lead, rules[0]) then DecisionOf(rules[0])
    else FirstMatch(rt, lead, rules[1..])
  }

  /** `evaluate_routing` */
  function Decide(rt: Runtime, lead: LeadState, rules: seq<Rule>): Decision {
    FirstMatch(rt, lead, Sorting.By(rules, Rank))
  }

  /** The rule that should win: it applies, and every rule that applies has lower
      priority, or the same and no smaller id. */
  ghost predicate Wins(rt: Runtime, lead: LeadState, rules: seq<Rule>, w: Rule) {
    && w in rules && Applies(rt, lead, w)
    && forall r :: r in rules && Applies(rt, lead, r) ==>
         r.priority < w.priority || (r.priority == w.priority && w.id <= r.id)
  }

  ghost predicate NoneApplies(rt: Runtime, lead: LeadState, rules: seq<Rule>) {
    forall r :: r in rules ==> !Applies(rt, lead, r)
  }

  ghost predicate UniqueIds(rules: seq<Rule>) {
    forall r, s :: r in rules && s in rules && r.id == s.id ==> r == s
  }

  lemma {:induction false} FirstMatchIsFirst(rt: Runtime, lead: LeadState, rules: seq<Rule>) returns (n: nat)
    ensures n <= |rules| && forall i :: 0 <= i < n ==> !Applies(rt, lead, rules[i])
    ensures if n < |rules| then Applies(rt, lead, rules[n]) && FirstMatch(rt, lead, rules) == DecisionOf(rules[n])
            else FirstMatch(rt, lead, rules) == NO_DECISION
  {
    if rules == [] || Applies(rt, lead, rules[0]) {
      n := 0;
    } else {
      var k := FirstMatchIsFirst(rt, lead, rules[1..]);
      n := k + 1;
      assert forall i :: 0 < i < n ==> rules[i] == rules[1..][i - 1];
    }
  }

  /** Evaluation is an argmax: it answers with a winning rule, and with no rule exactly
      when none applies. */
  lemma DecideIsArgmax(rt: Runtime, lead: LeadState, rules: seq<Rule>)
    ensures Decide(rt, lead, rules) == NO_DECISION <==> NoneApplies(rt, lead, rules)
    ensures !NoneApplies(rt, lead, rules) ==>
      exists w :: Wins(rt, lead, rules, w) && Decide(rt, lead, rules) == DecisionOf(w)
  {
    var sorted := Sorting.By(rules, Rank);
    Sorting.BySorts(rules, Rank);
    forall r | true ensures r in sorted <==> r in rules { Sorting.MultisetMember(sorted, rules, r); }
    var n := FirstMatchIsFirst(rt, lead, sorted);
    if n < |sorted| {
      var w := sorted[n];
      forall r | r in rules && Applies(rt, lead, r)
        ensures r.priority < w.priority || (r.priority == w.priority && w.id <= r.id)
      {
        var i :| 0 <= i < |sorted| && sorted[i] == r;
        if i > n { assert Sorting.Le(Rank(sorted[n]), Rank(sorted[i])); }
      }
      assert Wins(rt, lead, rules, w);
    }
  }

  /** When the rules in force ask of the column with `gt` and `gte` only, a higher number
      never sends the lead to a rule of lower priority. */
  lemma RaisingKeepsPriority(
    rt: Runtime, lead: LeadState, column: string, x: real, y: real, rules: seq<Rule>, before: Rule)
    requires x <= y && column !in {"owner_user_id", "assigned_team_id", "assigned_queue_name"}
    requires forall r :: r in rules && r.enabled ==> AsksWith(r, column, {"gt", "gte"})
    requires Wins(rt, WithNumber(lead, column, x), rules, before)
    ensures exists after :: Wins(rt, WithNumber(lead, column, y), rules, after) && before.priority <= after.priority
  {
    var high := WithNumber(lead, column, y);
    RaisingKeepsMatches(rt, lead, column, x, y, before);
    assert Applies(rt, high, before);
    DecideIsArgmax(rt, high, rules);
  }

  /** The answer depends only on which enabled rules there are: not on their order, nor
      on disabled rules, nor on how often a rule is listed. */
  lemma DecideDependsOnEnabledRules(rt: Runtime, lead: LeadState, xs: seq<Rule>, ys: seq<Rule>)
    requires UniqueIds(xs)
    requires forall r: Rule :: r.enabled ==> (r in xs <==> r in ys)
    ensures Decide(rt, lead, xs) == Decide(rt, lead, ys)
  {
    DecideIsArgmax(rt, lead, xs);
    DecideIsArgmax(rt, lead, ys);
  }

  /** Removing rules changes nothing as long as the winner stays. */
  lemma LosersDoNotMatter(rt: Runtime, lead: LeadState, rules: seq<Rule>, fewer: seq<Rule>, w: Rule)
    requires UniqueIds(rules) && Wins(rt, lead, rules, w)
    requires w in fewer && forall r :: r in fewer ==> r in rules
    ensures Decide(rt, lead, fewer) == Decide(rt, lead, rules) == DecisionOf(w)
  {
    DecideIsArgmax(rt, lead, rules);
    DecideIsArgmax(rt, lead, fewer);
  }

  // ---------- the repository's pre-filter ----------

  function EnabledOf(table: seq<Rule>, tenant: Id): seq<Rule> {
    if table == [] then []
    else (if table[0].tenant == tenant && table[0].enabled then [table[0]] else []) + EnabledOf(table[1..], tenant)
  }

  /** `list_enabled_rules` */
  function ListEnabledRules(table: seq<Rule>, tenant: Id): seq<Rule> {
    Sorting.By(EnabledOf(table, tenant), Rank)
  }

  lemma {:induction false} EnabledOfMembers(table: seq<Rule>, tenant: Id)
    ensures forall r :: r in EnabledOf(table, tenant) <==> r in table && r.tenant == tenant && r.enabled
  {
    if table != [] { EnabledOfMembers(table[1..], tenant); }
  }

  lemma ListedRules(table: seq<Rule>, tenant: Id)
    ensures forall r :: r in ListEnabledRules(table, tenant) <==> r in table && r.tenant == tenant && r.enabled
  {
    var rows := EnabledOf(table, tenant);
    EnabledOfMembers(table, tenant);
    Sorting.BySorts(rows, Rank);
    forall r | true ensures r in ListEnabledRules(table, tenant) <==> r in rows {
      Sorting.MultisetMember(ListEnabledRules(table, tenant), rows, r);
    }
  }

  /** Filtering and sorting in the database gives the answer that the tenant's own
      rules, in any order, would have given. */
  lemma PreFilterChangesNothing(rt: Runtime, lead: LeadState, table: seq<Rule>, own: seq<Rule>, tenant: Id)
    requires UniqueIds(table) && forall r :: r in own <==> r in table && r.tenant == tenant
    ensures Decide(rt, lead, ListEnabledRules(table, tenant)) == Decide(rt, lead, own)
  {
    ListedRules(table, tenant);
    DecideDependsOnEnabledRules(rt, lead, own, ListEnabledRules(table, tenant));
  }

  // ---------- the assignment ----------

  predicate Truthy(v: Value) {
    match v
    case Null => false
    case Bool(b) => b
    case Num(r) => r != 0.0
    case Str(s) => s != ""
    case List(items) => items != []
  }

  function Target(rt: Runtime, payload: map<string, Value>, key: string): Option<string> {
    if key in payload && Truthy(payload[key]) then Some(rt.show(payload[key])) else None
  }

  const ASSIGN_USER := "assign_user"
  const ASSIGN_TEAM := "assign_team"
  const ASSIGN_QUEUE := "queue"

  /** `apply_routing_decision` */
  function Assign(rt: Runtime, lead: LeadState, d: Decision): LeadState {
    if d.action == Some(ASSIGN_USER) then
      lead.(owner := Target(rt, d.payload, "user_id"), team := None, queue := None)
    else if d.action == Some(ASSIGN_TEAM) then
      lead.(team := Target(rt, d.payload, "team_id"), owner := None, queue := None)
    else if d.action == Some(ASSIGN_QUEUE) then
      lead.(queue := Target(rt, d.payload, "queue_name"), owner := None, team := None)
    else lead
  }

  /** What Python counts as false. */
  ghost predicate Blank(v: Value) {
    v == Null || v == Bool(false) || v == Num(0.0) || v == Str("") || v == List([])
  }

  /** The column holds the text of the payload's entry, or nothing for a missing or blank one. */
  ghost predicate Holding(rt: Runtime, column: Option<string>, payload: map<string, Value>, key: string) {
    && (column.Some? <==> key in payload && !Blank(payload[key]))
    && (column.Some? ==> column.value == rt.show(payload[key]))
  }

  /** Each action fills its own column from its own entry of the payload and clears the
      two others; an unknown action, or none, leaves the lead alone. */
  lemma AssignmentFills(rt: Runtime, lead: LeadState, d: Decision)
    ensures var after := Assign(rt, lead, d);
      && after.columns == lead.columns && after.customFields == lead.customFields
      && (d.action == Some("assign_user") ==>
            Holding(rt, after.owner, d.payload, "user_id") && after.team == after.queue == None)
      && (d.action == Some("assign_team") ==>
            Holding(rt, after.team, d.payload, "team_id") && after.owner == after.queue == None)
      && (d.action == Some("queue") ==>
            Holding(rt, after.queue, d.payload, "queue_name") && after.owner == after.team == None)
      && (d.action !in {Some("assign_user"), Some("assign_team"), Some("queue")} ==> after == lead)
  {
  }

  /** The commit updates a row that changed, and moves its `updated_at` with it. */
  function Commit(before: LeadState, after: LeadState, stamp: Value): LeadState {
    if after == before then before else after.(columns := after.columns[UPDATED_AT := stamp])
  }

  /** One routing of a lead, assignment and commit. */
  function Apply(rt: Runtime, lead: LeadState, d: Decision, stamp: Value): LeadState {
    Commit(lead, Assign(rt, lead, d), stamp)
  }

  ghost predicate OneAssignee(lead: LeadState) {
    (lead.owner.None? || lead.team.None?) && (lead.owner.None? || lead.queue.None?) && (lead.team.None? || lead.queue.None?)
  }

  /** All but the assignment and the update stamp is the same. */
  ghost predicate SameButAssigned(a: LeadState, b: LeadState) {
    a.columns - {UPDATED_AT} == b.columns - {UPDATED_AT} && a.customFields == b.customFields
  }

  /** Routing never leaves a lead with two assignees if it did not have two before, and
      after a known action it has at most one whatever it had before. Of the other columns
      only the update stamp moves, and only when the assignment changes. */
  lemma AtMostOneAssignee(rt: Runtime, lead: LeadState, d: Decision, stamp: Value)
    ensures var routed := Apply(rt, lead, d, stamp);
      && (d.action in {Some(ASSIGN_USER), Some(ASSIGN_TEAM), Some(ASSIGN_QUEUE)} || OneAssignee(lead) ==>
            OneAssignee(routed))
      && SameButAssigned(routed, lead)
      && (routed == lead || (UPDATED_AT in routed.columns && routed.columns[UPDATED_AT] == stamp))
  {
    var routed := Apply(rt, lead, d, stamp);
    assert routed.columns - {UPDATED_AT} == lead.columns - {UPDATED_AT};
  }

  /** No condition of the rule reads a column that routing can move. */
  predicate IgnoresAssignment(rule: Rule) {
    forall i :: 0 <= i < |rule.conditions| ==> FieldOf(rule.conditions[i]) !in {OWNER, TEAM, QUEUE, UPDATED_AT}
  }

  lemma SameField(a: LeadState, b: LeadState, field: string)
    requires SameButAssigned(a, b) && field !in {OWNER, TEAM, QUEUE, UPDATED_AT}
    ensures ReadField(a, field) == ReadField(b, field)
  {
    assert field in a.columns <==> field in (a.columns - {UPDATED_AT});
    assert field in b.columns <==> field in (b.columns - {UPDATED_AT});
    if field in a.columns { assert (a.columns - {UPDATED_AT})[field] == (b.columns - {UPDATED_AT})[field]; }
  }

  lemma SameMatch(rt: Runtime, a: LeadState, b: LeadState, rule: Rule)
    requires IgnoresAssignment(rule) && SameButAssigned(a, b)
    ensures Matches(rt, a, rule) == Matches(rt, b, rule)
  {
    forall i | 0 <= i < |rule.conditions|
      ensures Holds(rt, a, rule.conditions[i]) == Holds(rt, b, rule.conditions[i])
    {
      SameField(a, b, FieldOf(rule.conditions[i]));
    }
  }

  lemma AssignTwice(rt: Runtime, lead: LeadState, d: Decision, stamp: Value, later: Value)
    ensures Apply(rt, Apply(rt, lead, d, stamp), d, later) == Apply(rt, lead, d, stamp)
  {
  }

  /** Routing a routed lead again decides the same and leaves the lead as it is. */
  predicate RoutedOnce(rt: Runtime, lead: LeadState, rules: seq<Rule>, stamp: Value, later: Value) {
    var d := Decide(rt, lead, rules);
    var routed := Apply(rt, lead, d, stamp);
    Decide(rt, routed, rules) == d && Apply(rt, routed, Decide(rt, routed, rules), later) == routed
  }

  lemma DecidesWinner(rt: Runtime, lead: LeadState, rules: seq<Rule>, w: Rule)
    requires UniqueIds(rules) && Wins(rt, lead, rules, w)
    ensures Decide(rt, lead, rules) == DecisionOf(w)
  {
    DecideIsArgmax(rt, lead, rules);
  }

  predicate RanksBefore(r: Rule, w: Rule) {
    r.priority > w.priority || (r.priority == w.priority && r.id < w.id)
  }

  /** The rule still matches, or has no condition that could tell the difference. */
  predicate KeepsMatching(rt: Runtime, routed: LeadState, w: Rule) {
    IgnoresAssignment(w) || Matches(rt, routed, w)
  }

  /** An enabled rule that reads a column routing moves, and ranks before the winner,
      matches the lead that the winner has assigned. */
  ghost predicate Overtakes(rt: Runtime, routed: LeadState, w: Rule, r: Rule) {
    r.enabled && !IgnoresAssignment(r) && RanksBefore(r, w) && Matches(rt, routed, r)
  }

  /** The winner wins again on the lead that it has assigned. */
  ghost predicate HoldsOn(rt: Runtime, lead: LeadState, rules: seq<Rule>, stamp: Value, w: Rule) {
    var routed := Apply(rt, lead, DecisionOf(w), stamp);
    KeepsMatching(rt, routed, w) && forall r :: r in rules ==> !Overtakes(rt, routed, w, r)
  }

  lemma WinsAgainIff(rt: Runtime, lead: LeadState, rules: seq<Rule>, w: Rule, routed: LeadState)
    requires UniqueIds(rules) && Wins(rt, lead, rules, w) && SameButAssigned(routed, lead)
    ensures Wins(rt, routed, rules, w) <==>
      KeepsMatching(rt, routed, w) && forall r :: r in rules ==> !Overtakes(rt, routed, w, r)
  {
    if IgnoresAssignment(w) { SameMatch(rt, lead, routed, w); }
    forall r | r in rules && r.enabled && IgnoresAssignment(r) && RanksBefore(r, w)
      ensures !Matches(rt, routed, r)
    {
      SameMatch(rt, lead, routed, r);
      assert !Applies(rt, lead, r);
    }
  }

  lemma RoutedOnceIff(rt: Runtime, lead: LeadState, rules: seq<Rule>, stamp: Value, later: Value, w: Rule)
    requires UniqueIds(rules) && Wins(rt, lead, rules, w)
    ensures RoutedOnce(rt, lead, rules, stamp, later) <==> HoldsOn(rt, lead, rules, stamp, w)
  {
    var d := DecisionOf(w);
    var routed := Apply(rt, lead, d, stamp);
    DecidesWinner(rt, lead, rules, w);
    AtMostOneAssignee(rt, lead, d, stamp);
    AssignTwice(rt, lead, d, stamp, later);
    WinsAgainIff(rt, lead, rules, w, routed);
    DecideIsArgmax(rt, routed, rules);
    if Wins(rt, routed, rules, w) { DecidesWinner(rt, routed, rules, w); }
  }

  /** Exactly when routing a second time changes nothing, for every lead and whatever the
      two commits write as update stamp: no rule applies; or the winning rule reads
      neither the assignment nor the stamp, or still matches once it has assigned the
      lead, and no enabled rule that reads them and ranks before it comes to match. */
  lemma RoutingIsIdempotentIff(rt: Runtime, lead: LeadState, rules: seq<Rule>, stamp: Value, later: Value)
    requires UniqueIds(rules)
    ensures RoutedOnce(rt, lead, rules, stamp, later) <==>
      forall w :: Wins(rt, lead, rules, w) ==> HoldsOn(rt, lead, rules, stamp, w)
  {
    DecideIsArgmax(rt, lead, rules);
    forall w | Wins(rt, lead, rules, w)
      ensures RoutedOnce(rt, lead, rules, stamp, later) <==> HoldsOn(rt, lead, rules, stamp, w)
    {
      RoutedOnceIff(rt, lead, rules, stamp, later, w);
    }
  }

  lemma {:induction false} SameFirstMatch(rt: Runtime, a: LeadState, b: LeadState, rules: seq<Rule>)
    requires forall r :: r in rules && r.enabled ==> IgnoresAssignment(r)
    requires SameButAssigned(a, b)
    ensures FirstMatch(rt, a, rules) == FirstMatch(rt, b, rules)
  {
    if rules != [] {
      if rules[0].enabled { SameMatch(rt, a, b, rules[0]); }
      SameFirstMatch(rt, a, b, rules[1..]);
    }
  }

  lemma SameDecision(rt: Runtime, a: LeadState, b: LeadState, rules: seq<Rule>)
    requires forall r :: r in rules && r.enabled ==> IgnoresAssignment(r)
    requires SameButAssigned(a, b)
    ensures Decide(rt, a, rules) == Decide(rt, b, rules)
  {
    var sorted := Sorting.By(rules, Rank);
    Sorting.BySorts(rules, Rank);
    forall r | r in sorted ensures r in rules { Sorting.MultisetMember(sorted, rules, r); }
    SameFirstMatch(rt, a, b, sorted);
  }

  /** When no enabled rule reads an assignment column or the update stamp, routing a lead
      again decides the same and leaves the lead as it is. */
  lemma RoutingIsIdempotent(rt: Runtime, lead: LeadState, rules: seq<Rule>, stamp: Value, later: Value)
    requires forall r :: r in rules && r.enabled ==> IgnoresAssignment(r)
    ensures RoutedOnce(rt, lead, rules, stamp, later)
  {
    var d := Decide(rt, lead, rules);
    AtMostOneAssignee(rt, lead, d, stamp);
    SameDecision(rt, lead, Apply(rt, lead, d, stamp), rules);
    AssignTwice(rt, lead, d, stamp, later);
  }

  const UNOWNED_FIRST :=
    Rule(1, 0, 2, true, [Condition(Some(OWNER), None, Null)], ASSIGN_USER, map["user_id" := Str("u")])
  const FALLBACK := Rule(2, 0, 1, true, [], ASSIGN_QUEUE, map["queue_name" := Str("q")])

  lemma UnownedCondition(rt: Runtime, lead: LeadState)
    ensures Matches(rt, lead, UNOWNED_FIRST) <==> lead.owner.None?
  {
    Text.StripFixedIff(OWNER);
    Text.StripFixedIff("eq");
    assert Holds(rt, lead, UNOWNED_FIRST.conditions[0]) <==> Equal(OfOption(lead.owner), Null);
  }

  lemma FirstOfTwo(rt: Runtime, lead: LeadState, first: Rule)
    requires first.enabled && first.priority > 1 && first.id != 2
    ensures Decide(rt, lead, [first, FALLBACK]) == DecisionOf(if Matches(rt, lead, first) then first else FALLBACK)
  {
    var rules, w := [first, FALLBACK], if Matches(rt, lead, first) then first else FALLBACK;
    assert Wins(rt, lead, rules, w);
    DecidesWinner(rt, lead, rules, w);
  }

  /** A first rule that stops matching once it has assigned a user: the second run sends
      the lead to a queue. */
  lemma FallsBack(rt: Runtime, lead: LeadState, first: Rule, stamp: Value, later: Value)
    requires first.enabled && first.priority > 1 && first.id != 2 && Matches(rt, lead, first)
    requires var once := Apply(rt, lead, DecisionOf(first), stamp); once.owner.Some? && !Matches(rt, once, first)
    ensures var rules := [first, FALLBACK];
      var once := Apply(rt, lead, Decide(rt, lead, rules), stamp);
      !RoutedOnce(rt, lead, rules, stamp, later) && Apply(rt, once, Decide(rt, once, rules), later) != once
  {
    var once := Apply(rt, lead, DecisionOf(first), stamp);
    FirstOfTwo(rt, lead, first);
    FirstOfTwo(rt, once, first);
    assert Apply(rt, once, DecisionOf(FALLBACK), later).owner.None?;
  }

  /** With a rule that reads the owner it is not: the first run assigns an unowned lead,
      the second, finding it assigned, sends it to a queue. */
  lemma RoutingMayNotBeIdempotent(rt: Runtime, lead: LeadState, stamp: Value, later: Value)
    requires lead.owner.None?
    ensures var rules := [UNOWNED_FIRST, FALLBACK];
      var once := Apply(rt, lead, Decide(rt, lead, rules), stamp);
      !RoutedOnce(rt, lead, rules, stamp, later) && Apply(rt, once, Decide(rt, once, rules), later) != once
  {
    UnownedCondition(rt, lead);
    UnownedCondition(rt, Apply(rt, lead, DecisionOf(UNOWNED_FIRST), stamp));
    FallsBack(rt, lead, UNOWNED_FIRST, stamp, later);
  }

  /** A rule for leads last updated at a given time, which assigns them to a user. */
  function StampedRule(text: Value): Rule {
    Rule(1, 0, 2, true, [Condition(Some(UPDATED_AT), Some("contains"), text)], ASSIGN_USER, map["user_id" := Str("u")])
  }

  /** The lead's update stamp, as text, contains the given text. */
  predicate StampContains(rt: Runtime, lead: LeadState, text: Value) {
    Substring(rt.lowered(text), rt.lowered(ReadField(lead, UPDATED_AT)))
  }

  lemma StampedCondition(rt: Runtime, lead: LeadState, text: Value)
    ensures Matches(rt, lead, StampedRule(text)) <==> StampContains(rt, lead, text)
  {
    Text.StripFixedIff(UPDATED_AT);
    Text.StripFixedIff("contains");
    assert Holds(rt, lead, StampedRule(text).conditions[0]) <==> StampContains(rt, lead, text);
  }

  /** Nor with a rule that reads the update stamp, although no rule reads the assignment:
      the commit of the assignment moves the stamp, the rule stops matching, and the
      second run sends the lead to a queue. */
  lemma StampedRulesMayNotBeIdempotent(rt: Runtime, lead: LeadState, text: Value, stamp: Value, later: Value)
    requires Target(rt, StampedRule(text).payload, "user_id") != lead.owner
    requires StampContains(rt, lead, text) && !Substring(rt.lowered(text), rt.lowered(stamp))
    ensures var rules := [StampedRule(text), FALLBACK];
      var once := Apply(rt, lead, Decide(rt, lead, rules), stamp);
      !RoutedOnce(rt, lead, rules, stamp, later) && Apply(rt, once, Decide(rt, once, rules), later) != once
  {
    var first := StampedRule(text);
    var once := Apply(rt, lead, DecisionOf(first), stamp);
    StampedCondition(rt, lead, text);
    assert once.columns[UPDATED_AT] == stamp;
    StampedCondition(rt, once, text);
    FallsBack(rt, lead, first, stamp, later);
  }

  // ---------- the engine and the service ----------

  method RuleMatches(rt: Runtime, lead: LeadState, rule: Rule) returns (matches: bool)
    ensures matches == Matches(rt, lead, rule)
  {
    for i := 0 to |rule.conditions|
      invariant forall k :: 0 <= k < i ==> Holds(rt, lead, rule.conditions[k])
    {
      var c := rule.conditions[i];
      if !Compare(rt, OpOf(c), ReadField(lead, FieldOf(c)), c.expected) {
        return false;
      }
    }
    return true;
  }

  method EvaluateRouting(rt: Runtime, lead: LeadState, rules: seq<Rule>) returns (d: Decision)
    ensures d == Decision(None, None, map[]) <==> NoneApplies(rt, lead, rules)
    ensures d.rule.Some? ==>
      exists w :: Wins(rt, lead, rules, w) && d == Decision(Some(w.id), Some(w.action), w.payload)
    ensures d == Decide(rt, lead, rules)
  {
    DecideIsArgmax(rt, lead, rules);
    var ordered := Sorting.By(rules, Rank);
    for i := 0 to |ordered|
      invariant Decide(rt, lead, rules) == FirstMatch(rt, lead, ordered[i..])
    {
      if ordered[i].enabled {
        var matches := RuleMatches(rt, lead, ordered[i]);
        if matches {
          return DecisionOf(ordered[i]);
        }
      }
    }
    return NO_DECISION;
  }

  class Lead {
    const tenant: Id
    var columns: map<string, Value>
    const customFields: map<string, Value>
    var ownerUserId: Option<string>
    var assignedTeamId: Option<string>
    var assignedQueueName: Option<string>

    constructor (tenant: Id, s: LeadState)
      ensures State() == s && this.tenant == tenant
    {
      this.tenant, columns, customFields := tenant, s.columns, s.customFields;
      ownerUserId, assignedTeamId, assignedQueueName := s.owner, s.team, s.queue;
    }

    function State(): LeadState
      reads this
    {
      LeadState(columns, customFields, ownerUserId, assignedTeamId, assignedQueueName)
    }

    method ApplyRoutingDecision(rt: Runtime, d: Decision)
      modifies this
      ensures State() == Assign(rt, old(State()), d)
    {
      if d.action == Some(ASSIGN_USER) {
        ownerUserId := Target(rt, d.payload, "user_id");
        assignedTeamId := None;
        assignedQueueName := None;
      } else if d.action == Some(ASSIGN_TEAM) {
        assignedTeamId := Target(rt, d.payload, "team_id");
        ownerUserId := None;
        assignedQueueName := None;
      } else if d.action == Some(ASSIGN_QUEUE) {
        assignedQueueName := Target(rt, d.payload, "queue_name");
        ownerUserId := None;
        assignedTeamId := None;
      }
    }

    /** What the commit does to the row: a changed one gets a new stamp. */
    method Flush(loaded: LeadState, stamp: Value)
      modifies this
      ensures State() == Commit(loaded, old(State()), stamp)
    {
      if State() != loaded {
        columns := columns[UPDATED_AT := stamp];
      }
    }
  }

  class RoutingService {
    const rt: Runtime
    var rules: seq<Rule>
    var leads: map<Id, Lead>
    var timeline: seq<(Id, Decision)>

    constructor (rt: Runtime, rules: seq<Rule>, leads: map<Id, Lead>)
      ensures this.rt == rt && this.rules == rules && this.leads == leads && timeline == []
    {
      this.rt, this.rules, this.leads, timeline := rt, rules, leads, [];
    }

    /** Routes a lead of the tenant by the tenant's enabled rules and records the
        decision; a lead that is missing or another tenant's is left alone. */
    method EvaluateAndApply(tenant: Id, leadId: Id, stamp: Value) returns (d: Decision)
      modifies this`timeline, if leadId in leads then {leads[leadId]} else {}
      ensures leadId !in leads || leads[leadId].tenant != tenant ==>
        d == NO_DECISION && timeline == old(timeline)
        && (leadId in leads ==> leads[leadId].State() == old(leads[leadId].State()))
      ensures leadId in leads && leads[leadId].tenant == tenant ==>
        && d == Decide(rt, old(leads[leadId].State()), ListEnabledRules(rules, tenant))
        && leads[leadId].State() == Apply(rt, old(leads[leadId].State()), d, stamp)
        && timeline == old(timeline) + [(leadId, d)]
    {
      if leadId !in leads || leads[leadId].tenant != tenant {
        return NO_DECISION;
      }
      var lead := leads[leadId];
      var loaded := lead.State();
      d := EvaluateRouting(rt, loaded, ListEnabledRules(rules, tenant));
      lead.ApplyRoutingDecision(rt, d);
      lead.Flush(loaded, stamp);
      timeline := timeline + [(leadId, d)];
    }
  }
}
