/** Lead creation, update and deletion: duplicates, the plan cap, the usage ledger. */
module Leads {
  import opened Jobs
  import PlanLimits
  import Text
  import Usage

  /** A stored lead; `details` stands for the columns no rule here reads. */
  datatype Row = Row(id: Id, tenant: Id, email: Option<string>, phone: Option<string>, details: Id)

  /** `deletions` is history: the tenant of every deleted lead. */
  datatype Book = Book(leads: seq<Row>, usage: seq<Usage.UsageRow>, nextId: Id, deletions: seq<Id>, jobs: seq<Job>)

  const EMPTY := Book([], [], 0, [], [])

  // ---------- contacts ----------

  function NormalizeEmail(email: Option<string>): Option<string> {
    if email.None? || email.value == "" then None else Some(Text.Lower(Text.Strip(email.value)))
  }

  predicate PhoneChar(c: char) {
    '0' <= c <= '9' || c == '+'
  }

  function KeepPhoneChars(s: string): string {
    if s == "" then ""
    else KeepPhoneChars(s[..|s| - 1]) + (if PhoneChar(s[|s| - 1]) then [s[|s| - 1]] else "")
  }

  function NormalizePhone(phone: Option<string>): Option<string> {
    if phone.None? || KeepPhoneChars(phone.value) == "" then None else Some(KeepPhoneChars(phone.value))
  }

  /** A contact that counts: present and not blank. */
  predicate Given(contact: Option<string>) {
    contact.Some? && contact.value != ""
  }

  /** A missing or blank e-mail is none. Any other keeps its text but for the spaces around
      it, which go, and its capitals, which become small letters. */
  lemma EmailNormalized(email: Option<string>) returns (left: string, kept: string, right: string)
    ensures NormalizeEmail(email).Some? <==> email.Some? && email.value != ""
    ensures email.Some? && email.value != "" ==>
      var e := NormalizeEmail(email).value;
      && email.value == left + kept + right && Text.AllSpaces(left) && Text.AllSpaces(right)
      && Text.Trimmed(e) && Text.SameButCase(kept, e) && NoCapitals(e)
  {
    left, kept, right := "", "", "";
    if email.Some? {
      left, right := Text.StripDropsSpaces(email.value);
      kept := Text.Strip(email.value);
      Text.LowerKeepsSpaces(kept);
    }
  }

  ghost predicate NoCapitals(s: string) {
    forall i :: 0 <= i < |s| ==> !('A' <= s[i] <= 'Z')
  }

  /** `kept` holds exactly the digits and plus signs of the text, each as often as it is
      there and in order; `at` says where they stand. */
  ghost predicate Keeps(s: string, kept: string, at: seq<nat>) {
    && |at| == |kept| && (forall k :: 0 <= k < |at| ==> at[k] < |s| && kept[k] == s[at[k]])
    && (forall k, l :: 0 <= k < l < |at| ==> at[k] < at[l])
    && (forall i :: 0 <= i < |s| ==> (i in at <==> s[i] == '+' || '0' <= s[i] <= '9'))
  }

  lemma KeepsOneMore(s: string, c: char, kept: string, at: seq<nat>)
    requires Keeps(s, kept, at)
    ensures (c == '+' || '0' <= c <= '9') ==> Keeps(s + [c], kept + [c], at + [|s|])
    ensures !(c == '+' || '0' <= c <= '9') ==> Keeps(s + [c], kept, at)
  {
  }

  lemma {:induction false} PhoneCharsKept(s: string) returns (at: seq<nat>)
    ensures Keeps(s, KeepPhoneChars(s), at)
  {
    if s == "" {
      at := [];
    } else {
      var n := |s| - 1;
      at := PhoneCharsKept(s[..n]);
      KeepsOneMore(s[..n], s[n], KeepPhoneChars(s[..n]), at);
      assert s == s[..n] + [s[n]];
      if s[n] == '+' || '0' <= s[n] <= '9' { at := at + [n]; }
    }
  }

  /** A telephone number is none without digits and plus signs, and else just these. */
  lemma PhoneNormalized(phone: Option<string>) returns (at: seq<nat>)
    ensures phone.None? ==> NormalizePhone(phone).None?
    ensures phone.Some? ==>
      var kept := if NormalizePhone(phone).Some? then NormalizePhone(phone).value else "";
      && Keeps(phone.value, kept, at) && (kept == "" ==> NormalizePhone(phone).None?)
  {
    at := [];
    if phone.Some? { at := PhoneCharsKept(phone.value); }
  }

  lemma {:induction false} KeptCharsStay(s: string)
    ensures KeepPhoneChars(KeepPhoneChars(s)) == KeepPhoneChars(s)
  {
    if s != "" {
      var n := |s| - 1;
      var rest := KeepPhoneChars(s[..n]);
      KeptCharsStay(s[..n]);
      assert rest + "" == rest && (rest + [s[n]])[..|rest|] == rest;
    }
  }

  /** Normalising a normalised contact changes nothing, but for an e-mail of spaces
      only, which is stored blank. */
  lemma NormalizedStays(email: Option<string>, phone: Option<string>)
    ensures var e := NormalizeEmail(email);
      NormalizeEmail(e) == if e == Some("") then None else e
    ensures NormalizePhone(NormalizePhone(phone)) == NormalizePhone(phone)
  {
    if email.Some? && email.value != "" {
      var stripped := Text.Strip(email.value);
      Text.StripFixedIff(email.value);
      Text.LowerKeepsSpaces(stripped);
      Text.StripFixedIff(Text.Lower(stripped));
    }
    if phone.Some? { KeptCharsStay(phone.value); }
  }

  // ---------- transactions ----------

  predicate Clashes(row: Row, tenant: Id, email: Option<string>, phone: Option<string>) {
    && row.tenant == tenant
    && ((email.Some? && email.value != "" && row.email == email) || (phone.Some? && phone.value != "" && row.phone == phone))
  }

  /** `find_duplicate_by_email_or_phone`: the first clashing row, in any row order. */
  function FindDuplicate(rows: seq<Row>, tenant: Id, email: Option<string>, phone: Option<string>): (r: Option<Row>)
    ensures r.Some? ==> r.value in rows && Clashes(r.value, tenant, email, phone)
    ensures r.None? ==> forall row :: row in rows ==> !Clashes(row, tenant, email, phone)
  {
    if rows == [] then None
    else if Clashes(rows[0], tenant, email, phone) then Some(rows[0])
    else FindDuplicate(rows[1..], tenant, email, phone)
  }

  function Count(rows: seq<Row>, tenant: Id): nat {
    if rows == [] then 0 else (if rows[0].tenant == tenant then 1 else 0) + Count(rows[1..], tenant)
  }

  datatype Outcome = LimitExceeded | Deduplicated(existing: Row) | Created(row: Row)

  /** The cap is checked before duplicates, so at the cap a duplicate is refused too. */
  function CreateOutcome(b: Book, cap: int, tenant: Id, email: Option<string>, phone: Option<string>, details: Id): Outcome {
    var e, p := NormalizeEmail(email), NormalizePhone(phone);
    if Count(b.leads, tenant) >= cap then LimitExceeded
    else
      var existing := FindDuplicate(b.leads, tenant, e, p);
      if existing.Some? then Deduplicated(existing.value)
      else Created(Row(b.nextId, tenant, e, p, details))
  }

  function Lifecycle(tenant: Id, lead: Id, routing: Event, integration: Event, trigger: string): seq<Job> {
    [LeadJob(ROUTING_JOBS, routing, tenant, lead), LeadJob(INTEGRATION_JOBS, integration, tenant, lead),
     TriggerJob(tenant, lead, trigger)]
  }

  /** How announcing a change fares: the queues that have a URL, and how many publishes
      succeed before one raises. The change is committed by then. */
  datatype Publishing = Publishing(urls: Urls, granted: nat)

  function Announced(pub: Publishing, jobs: seq<Job>): seq<Job> {
    Sent(pub.urls, jobs[..Min(pub.granted, |jobs|)])
  }

  function Create(b: Book, cap: int, tenant: Id, email: Option<string>, phone: Option<string>, details: Id, day: int,
                  pub: Publishing): Book
  {
    var outcome := CreateOutcome(b, cap, tenant, email, phone, details);
    if !outcome.Created? then b
    else Book(b.leads + [outcome.row],
              Usage.Increment(b.usage, tenant, day, Usage.NONE.(leads := 1)),
              b.nextId + 1, b.deletions,
              b.jobs + Announced(pub, Lifecycle(tenant, b.nextId, LeadCreated, IntegrationLeadCreated, "lead_created")))
  }

  /** The columns a request sets; an unset contact is left alone. */
  datatype Patch = Patch(email: Option<Option<string>>, phone: Option<Option<string>>, details: Option<Id>)

  function Patched(row: Row, patch: Patch): Row {
    row.(email := if patch.email.Some? then NormalizeEmail(patch.email.value) else row.email,
         phone := if patch.phone.Some? then NormalizePhone(patch.phone.value) else row.phone,
         details := if patch.details.Some? then patch.details.value else row.details)
  }

  /** The position of the tenant's lead, or the number of rows. */
  function IndexOf(rows: seq<Row>, tenant: Id, id: Id): (i: nat)
    ensures i <= |rows|
    ensures i < |rows| ==> rows[i].tenant == tenant && rows[i].id == id
    ensures forall j :: 0 <= j < i ==> !(rows[j].tenant == tenant && rows[j].id == id)
  {
    if rows == [] then 0
    else if rows[0].tenant == tenant && rows[0].id == id then 0
    else
      var i := IndexOf(rows[1..], tenant, id);
      assert forall j :: 0 < j < i + 1 ==> rows[j] == rows[1..][j - 1];
      i + 1
  }

  function Update(b: Book, tenant: Id, id: Id, patch: Patch, pub: Publishing): Book {
    var i := IndexOf(b.leads, tenant, id);
    if i == |b.leads| then b
    else b.(leads := b.leads[i := Patched(b.leads[i], patch)],
            jobs := b.jobs + Announced(pub, Lifecycle(tenant, id, LeadUpdated, IntegrationLeadUpdated, "lead_updated")))
  }

  /** The rows without the one at `i`. */
  function Others(rows: seq<Row>, i: nat): seq<Row>
    requires i < |rows|
  {
    rows[..i] + rows[i + 1..]
  }

  function Delete(b: Book, tenant: Id, id: Id): Book {
    var i := IndexOf(b.leads, tenant, id);
    if i == |b.leads| then b
    else b.(leads := Others(b.leads, i), deletions := b.deletions + [tenant])
  }

  datatype Action =
    | ACreate(tenant: Id, email: Option<string>, phone: Option<string>, details: Id, day: int, pub: Publishing)
    | AUpdate(tenant: Id, id: Id, patch: Patch, pub: Publishing)
    | ADelete(tenant: Id, id: Id)

  /** The plan cap of every tenant. */
  type Tenants = map<Id, PlanLimits.TenantRow>

  function Cap(tenants: Tenants, tenant: Id): (n: int)
    ensures n > 0
  {
    PlanLimits.LimitFor(if tenant in tenants then Some(tenants[tenant]) else None, PlanLimits.MAX_LEADS)
  }

  function Next(b: Book, tenants: Tenants, a: Action): Book {
    match a
    case ACreate(tenant, email, phone, details, day, pub) =>
      Create(b, Cap(tenants, tenant), tenant, email, phone, details, day, pub)
    case AUpdate(tenant, id, patch, pub) => Update(b, tenant, id, patch, pub)
    case ADelete(tenant, id) => Delete(b, tenant, id)
  }

  /** One transaction, under the plans in force at the time. */
  datatype Step = Step(tenants: Tenants, action: Action)

  function Run(b: Book, steps: seq<Step>): Book {
    if steps == [] then b
    else
      var last := steps[|steps| - 1];
      Next(Run(b, steps[..|steps| - 1]), last.tenants, last.action)
  }

  // ---------- what a request changes and announces ----------

  /** The queues of the three jobs have URLs, and no publish raises. */
  predicate AllPublished(pub: Publishing) {
    && pub.granted >= 3
    && forall name :: name in ["routing_jobs", "integration_jobs", "sequence_jobs"] ==>
         name in pub.urls && pub.urls[name] != ""
  }

  lemma LifecycleAnnounced(pub: Publishing, tenant: Id, lead: Id, routing: Event, integration: Event, trigger: string)
    requires AllPublished(pub)
    ensures Announces(Announced(pub, Lifecycle(tenant, lead, routing, integration, trigger)),
                      routing, integration, trigger, tenant, lead)
  {
    var jobs := Lifecycle(tenant, lead, routing, integration, trigger);
    assert jobs[..Min(pub.granted, |jobs|)] == jobs;
    forall job | job in jobs ensures Configured(pub.urls, job.queueName) {
      assert job.queueName in ["routing_jobs", "integration_jobs", "sequence_jobs"];
    }
    SentAll(pub.urls, jobs);
  }

  /** A new lead is stored last, with the next identifier and its contacts normalised, and
      is announced as created; a request that is refused or deduplicated changes nothing. */
  lemma CreateStoresAndAnnounces(b: Book, cap: int, tenant: Id, email: Option<string>, phone: Option<string>,
                                 details: Id, day: int, pub: Publishing)
    requires AllPublished(pub)
    ensures var outcome := CreateOutcome(b, cap, tenant, email, phone, details);
      var b' := Create(b, cap, tenant, email, phone, details, day, pub);
      if !outcome.Created? then b' == b
      else
        && outcome.row == Row(b.nextId, tenant, NormalizeEmail(email), NormalizePhone(phone), details)
        && b'.leads == b.leads + [outcome.row] && b'.nextId == b.nextId + 1 && b'.deletions == b.deletions
        && b'.usage == Usage.Increment(b.usage, tenant, day, Usage.Counters(0, 0, 0, 0, 1, 0))
        && b.jobs <= b'.jobs
        && Announces(b'.jobs[|b.jobs|..], LeadCreated, IntegrationLeadCreated, "lead_created", tenant, b.nextId)
  {
    LifecycleAnnounced(pub, tenant, b.nextId, LeadCreated, IntegrationLeadCreated, "lead_created");
  }

  /** An update keeps every row in its place, changes of the tenant's lead the columns that
      the request gives and no other, and announces the lead as updated. */
  lemma UpdateChangesGivenColumns(b: Book, tenant: Id, id: Id, patch: Patch, pub: Publishing, n: nat)
    requires AllPublished(pub) && n < |b.leads| && b.leads[n].tenant == tenant && b.leads[n].id == id
    requires forall k :: 0 <= k < |b.leads| && k != n ==> b.leads[k].id != id
    ensures var b', row := Update(b, tenant, id, patch, pub), b.leads[n];
      && |b'.leads| == |b.leads| && (forall k :: 0 <= k < |b.leads| && k != n ==> b'.leads[k] == b.leads[k])
      && b'.leads[n].id == id && b'.leads[n].tenant == tenant
      && b'.leads[n].email == (if patch.email.None? then row.email else NormalizeEmail(patch.email.value))
      && b'.leads[n].phone == (if patch.phone.None? then row.phone else NormalizePhone(patch.phone.value))
      && b'.leads[n].details == (if patch.details.None? then row.details else patch.details.value)
      && b'.usage == b.usage && b'.nextId == b.nextId && b'.deletions == b.deletions && b.jobs <= b'.jobs
      && Announces(b'.jobs[|b.jobs|..], LeadUpdated, IntegrationLeadUpdated, "lead_updated", tenant, id)
  {
    LifecycleAnnounced(pub, tenant, id, LeadUpdated, IntegrationLeadUpdated, "lead_updated");
    assert IndexOf(b.leads, tenant, id) == n;
  }

  // ---------- duplicates ----------

  /** Two different rows that should have been one lead. */
  predicate Duplicates(a: Row, b: Row) {
    && a.tenant == b.tenant
    && ((a.email.Some? && a.email.value != "" && a.email == b.email)
        || (a.phone.Some? && a.phone.value != "" && a.phone == b.phone))
  }

  ghost predicate AllDistinct(rows: seq<Row>) {
    forall i, j :: 0 <= i < j < |rows| ==> !Duplicates(rows[i], rows[j])
  }

  /** E-mails without spaces around them and without capitals, telephone numbers of digits
      and plus signs. */
  ghost predicate Normalized(row: Row) {
    && (row.email.Some? ==> Text.Trimmed(row.email.value) && NoCapitals(row.email.value))
    && (row.phone.Some? ==> row.phone.value != "" && forall c :: c in row.phone.value ==> c == '+' || '0' <= c <= '9')
  }

  ghost predicate Clean(b: Book) {
    && AllDistinct(b.leads)
    && (forall row :: row in b.leads ==> Normalized(row))
    && (forall i, j :: 0 <= i < j < |b.leads| ==> b.leads[i].id != b.leads[j].id)
    && (forall row :: row in b.leads ==> row.id < b.nextId)
  }

  predicate LeavesContacts(a: Action) {
    a.AUpdate? ==> a.patch.email.None? && a.patch.phone.None?
  }

  lemma ContactsNormalized(email: Option<string>, phone: Option<string>)
    ensures forall id: Id, tenant: Id, details: Id ::
      Normalized(Row(id, tenant, NormalizeEmail(email), NormalizePhone(phone), details))
  {
    var _, _, _ := EmailNormalized(email);
    var at := PhoneNormalized(phone);
    if NormalizePhone(phone).Some? {
      var kept := NormalizePhone(phone).value;
      forall c | c in kept ensures c == '+' || '0' <= c <= '9' {
        var k :| 0 <= k < |kept| && kept[k] == c;
        assert at[k] in at && phone.value[at[k]] == c;
      }
    }
  }

  lemma CreateKeepsClean(b: Book, cap: int, tenant: Id, email: Option<string>, phone: Option<string>, details: Id,
                         day: int, pub: Publishing)
    requires Clean(b)
    ensures Clean(Create(b, cap, tenant, email, phone, details, day, pub))
  {
    var outcome := CreateOutcome(b, cap, tenant, email, phone, details);
    if outcome.Created? {
      ContactsNormalized(email, phone);
      var row := outcome.row;
      forall i | 0 <= i < |b.leads| ensures !Duplicates(b.leads[i], row) && b.leads[i].id != row.id {
        assert b.leads[i] in b.leads && !Clashes(b.leads[i], tenant, row.email, row.phone);
      }
    }
  }

  lemma UpdateKeepsClean(b: Book, tenant: Id, id: Id, patch: Patch, pub: Publishing)
    requires Clean(b) && patch.email.None? && patch.phone.None?
    ensures Clean(Update(b, tenant, id, patch, pub))
  {
    var b' := Update(b, tenant, id, patch, pub);
    forall i | 0 <= i < |b'.leads| ensures b'.leads[i].(details := 0) == b.leads[i].(details := 0) {
    }
    forall row | row in b'.leads ensures Normalized(row) && row.id < b'.nextId {
      var i :| 0 <= i < |b'.leads| && b'.leads[i] == row;
      assert b.leads[i] in b.leads;
    }
    forall i, j | 0 <= i < j < |b'.leads| ensures !Duplicates(b'.leads[i], b'.leads[j]) {
      assert !Duplicates(b.leads[i], b.leads[j]);
    }
  }

  lemma DeleteKeepsClean(b: Book, tenant: Id, id: Id)
    requires Clean(b)
    ensures Clean(Delete(b, tenant, id))
  {
    var b' := Delete(b, tenant, id);
    var n := IndexOf(b.leads, tenant, id);
    if n < |b.leads| {
      forall i | 0 <= i < |b'.leads| ensures b'.leads[i] == b.leads[if i < n then i else i + 1] {
      }
      forall i, j | 0 <= i < j < |b'.leads|
        ensures !Duplicates(b'.leads[i], b'.leads[j]) && b'.leads[i].id != b'.leads[j].id
      {
        assert !Duplicates(b.leads[if i < n then i else i + 1], b.leads[if j < n then j else j + 1]);
      }
    }
  }

  lemma StepKeepsClean(b: Book, tenants: Tenants, a: Action)
    requires Clean(b) && LeavesContacts(a)
    ensures Clean(Next(b, tenants, a))
  {
    match a
    case ACreate(tenant, email, phone, details, day, pub) =>
      CreateKeepsClean(b, Cap(tenants, tenant), tenant, email, phone, details, day, pub);
    case AUpdate(tenant, id, patch, pub) => UpdateKeepsClean(b, tenant, id, patch, pub);
    case ADelete(tenant, id) => DeleteKeepsClean(b, tenant, id);
  }

  /** Over every run of creations, deletions and updates that leave contacts alone, no
      two leads of a tenant share a given e-mail or phone, and contacts are normalised. */
  lemma {:induction false} NoDuplicatesEver(steps: seq<Step>)
    requires forall s :: s in steps ==> LeavesContacts(s.action)
    ensures Clean(Run(EMPTY, steps))
  {
    if steps != [] {
      var n := |steps| - 1;
      NoDuplicatesEver(steps[..n]);
      StepKeepsClean(Run(EMPTY, steps[..n]), steps[n].tenants, steps[n].action);
    }
  }

  lemma ReplacedDistinctIff(rows: seq<Row>, n: nat, row: Row)
    requires AllDistinct(rows) && n < |rows| && row.tenant == rows[n].tenant
    ensures AllDistinct(rows[n := row]) <==>
      forall i :: 0 <= i < |rows| && i != n ==> !Clashes(rows[i], row.tenant, row.email, row.phone)
  {
    var after := rows[n := row];
    if AllDistinct(after) {
      forall i | 0 <= i < |rows| && i != n ensures !Clashes(rows[i], row.tenant, row.email, row.phone) {
        assert !Duplicates(after[if i < n then i else n], after[if i < n then n else i]);
      }
    } else {
      var i, j :| 0 <= i < j < |after| && Duplicates(after[i], after[j]);
      assert !Duplicates(rows[i], rows[j]);
      var other := if i == n then j else i;
      assert Clashes(rows[other], row.tenant, row.email, row.phone);
    }
  }

  lemma OtherRows(rows: seq<Row>, n: nat)
    requires n < |rows|
    ensures forall i :: 0 <= i < |rows| && i != n ==> rows[i] in Others(rows, n)
    ensures forall r :: r in Others(rows, n) ==> exists i :: 0 <= i < |rows| && i != n && rows[i] == r
  {
    var others := Others(rows, n);
    forall i | 0 <= i < |rows| && i != n ensures rows[i] in others {
      assert others[if i < n then i else i - 1] == rows[i];
    }
    forall r | r in others ensures exists i :: 0 <= i < |rows| && i != n && rows[i] == r {
      var k :| 0 <= k < |others| && others[k] == r;
      assert rows[if k < n then k else k + 1] == r;
    }
  }

  /** A deletion removes the tenant's lead and nothing else, and announces nothing. */
  lemma DeleteRemovesTheLead(b: Book, tenant: Id, id: Id)
    requires forall i, j :: 0 <= i < j < |b.leads| ==> b.leads[i].id != b.leads[j].id
    ensures forall r :: r in Delete(b, tenant, id).leads <==> r in b.leads && !(r.tenant == tenant && r.id == id)
    ensures Delete(b, tenant, id).jobs == b.jobs && Delete(b, tenant, id).usage == b.usage
  {
    var n := IndexOf(b.leads, tenant, id);
    if n < |b.leads| {
      OtherRows(b.leads, n);
      assert Delete(b, tenant, id).leads == Others(b.leads, n);
    }
  }

  /** `update_lead` makes no duplicate check. An update keeps leads distinct exactly
      when that check, made over the other leads with the updated contacts, would have
      found nothing. */
  lemma UpdateKeepsDistinctIff(b: Book, tenant: Id, id: Id, patch: Patch, pub: Publishing)
    requires AllDistinct(b.leads) && IndexOf(b.leads, tenant, id) < |b.leads|
    ensures var n := IndexOf(b.leads, tenant, id);
      var row := Patched(b.leads[n], patch);
      AllDistinct(Update(b, tenant, id, patch, pub).leads) <==>
        FindDuplicate(Others(b.leads, n), tenant, row.email, row.phone).None?
  {
    var n := IndexOf(b.leads, tenant, id);
    ReplacedDistinctIff(b.leads, n, Patched(b.leads[n], patch));
    OtherRows(b.leads, n);
  }

  const NO_PUBLISHES := Publishing(map[], 3)

  /** Creates a lead with a one-letter e-mail. */
  function NewLead(c: char): Step {
    Step(map[], ACreate(0, Some([c]), None, 0, 0, NO_PUBLISHES))
  }

  /** Two leads of a tenant, and an update that gives the second the first one's e-mail. */
  const COPIED_EMAIL: seq<Step> := [
    NewLead('a'), NewLead('b'), Step(map[], AUpdate(0, 1, Patch(Some(Some("a")), None, None), NO_PUBLISHES))]

  lemma ShortEmail(c: char)
    requires 'a' <= c <= 'z'
    ensures NormalizeEmail(Some([c])) == Some([c])
  {
    Text.StripFixedIff([c]);
    assert Text.Lower([c]) == [c];
  }

  lemma RunOneStep(b: Book, steps: seq<Step>, step: Step)
    ensures Run(b, steps + [step]) == Next(Run(b, steps), step.tenants, step.action)
  {
    assert (steps + [step])[..|steps|] == steps;
  }

  lemma NewLeadStored(start: Book, steps: seq<Step>, b: Book, step: Step, c: char)
    requires b == Run(start, steps) && step == NewLead(c)
    requires 'a' <= c <= 'z' && Count(b.leads, 0) < 500 && forall row :: row in b.leads ==> row.email != Some([c])
    ensures Run(start, steps + [step]).leads == b.leads + [Row(b.nextId, 0, Some([c]), None, 0)]
    ensures Run(start, steps + [step]).nextId == b.nextId + 1
  {
    RunOneStep(start, steps, step);
    ShortEmail(c);
    assert NormalizePhone(None).None?;
    var existing := FindDuplicate(b.leads, 0, Some([c]), None);
    assert existing.None?;
  }

  lemma TwoLeads(start: Book, steps: seq<Step>, first: Step, second: Step)
    requires start.leads == [] && start.nextId == 0 && steps == []
    requires first == NewLead('a') && second == NewLead('b')
    ensures Run(start, steps + [first] + [second]).leads
         == [Row(0, 0, Some("a"), None, 0), Row(1, 0, Some("b"), None, 0)]
  {
    NewLeadStored(start, steps, start, first, 'a');
    var b := Run(start, steps + [first]);
    assert b.leads == [Row(0, 0, Some("a"), None, 0)];
    NewLeadStored(start, steps + [first], b, second, 'b');
  }

  lemma EmailCopied(start: Book, steps: seq<Step>, step: Step)
    requires Run(start, steps).leads == [Row(0, 0, Some("a"), None, 0), Row(1, 0, Some("b"), None, 0)]
    requires step == Step(map[], AUpdate(0, 1, Patch(Some(Some("a")), None, None), NO_PUBLISHES))
    ensures !AllDistinct(Run(start, steps + [step]).leads)
  {
    ShortEmail('a');
    RunOneStep(start, steps, step);
    var leads := Run(start, steps + [step]).leads;
    assert Duplicates(leads[0], leads[1]);
  }

  /** After that run the tenant has two leads with the same e-mail. */
  lemma CopiedEmailDuplicates()
    ensures !AllDistinct(Run(EMPTY, COPIED_EMAIL).leads)
  {
    var first, second, third := COPIED_EMAIL[0], COPIED_EMAIL[1], COPIED_EMAIL[2];
    TwoLeads(EMPTY, [], first, second);
    EmailCopied(EMPTY, [] + [first] + [second], third);
    assert [] + [first] + [second] + [third] == COPIED_EMAIL;
  }

  // ---------- the cap and the ledger ----------

  function CountOf(tenants: seq<Id>, tenant: Id): nat {
    if tenants == [] then 0
    else CountOf(tenants[..|tenants| - 1], tenant) + (if tenants[|tenants| - 1] == tenant then 1 else 0)
  }

  /** Leads created are the leads there are and the leads deleted; no more than `cap`. */
  ghost predicate TenantAccounted(b: Book, cap: int, tenant: Id) {
    && Usage.Total(b.usage, tenant).leads == Count(b.leads, tenant) + CountOf(b.deletions, tenant)
    && Count(b.leads, tenant) <= cap
  }

  function Max(a: int, b: int): int { if a > b then a else b }

  /** The highest cap the tenant has had. */
  function HighestCap(steps: seq<Step>, tenant: Id): int {
    if steps == [] then 0
    else Max(HighestCap(steps[..|steps| - 1], tenant), Cap(steps[|steps| - 1].tenants, tenant))
  }

  lemma {:induction false} CountSplit(xs: seq<Row>, ys: seq<Row>, tenant: Id)
    ensures Count(xs + ys, tenant) == Count(xs, tenant) + Count(ys, tenant)
  {
    if xs == [] {
      assert xs + ys == ys;
    } else {
      CountSplit(xs[1..], ys, tenant);
      assert (xs + ys)[1..] == xs[1..] + ys;
    }
  }

  lemma CountReplaced(rows: seq<Row>, i: nat, row: Row, tenant: Id)
    requires i < |rows| && row.tenant == rows[i].tenant
    ensures Count(rows[i := row], tenant) == Count(rows, tenant)
  {
    assert rows == rows[..i] + ([rows[i]] + rows[i + 1..]);
    assert rows[i := row] == rows[..i] + ([row] + rows[i + 1..]);
    CountSplit(rows[..i], [rows[i]] + rows[i + 1..], tenant);
    CountSplit(rows[..i], [row] + rows[i + 1..], tenant);
    CountSplit([rows[i]], rows[i + 1..], tenant);
    CountSplit([row], rows[i + 1..], tenant);
  }

  lemma CountRemoved(rows: seq<Row>, i: nat, tenant: Id)
    requires i < |rows|
    ensures Count(rows, tenant) == Count(Others(rows, i), tenant) + (if rows[i].tenant == tenant then 1 else 0)
  {
    assert rows == rows[..i] + ([rows[i]] + rows[i + 1..]);
    CountSplit(rows[..i], [rows[i]] + rows[i + 1..], tenant);
    CountSplit([rows[i]], rows[i + 1..], tenant);
    CountSplit(rows[..i], rows[i + 1..], tenant);
  }

  lemma RowAdded(b: Book, b': Book, row: Row, day: int, t: Id)
    requires b'.leads == b.leads + [row] && b'.deletions == b.deletions
    requires b'.usage == Usage.Increment(b.usage, row.tenant, day, Usage.NONE.(leads := 1))
    ensures var more := if row.tenant == t then 1 else 0;
      && Count(b'.leads, t) == Count(b.leads, t) + more
      && Usage.Total(b'.usage, t).leads == Usage.Total(b.usage, t).leads + more
  {
    CountSplit(b.leads, [row], t);
    assert [row][1..] == [];
    Usage.IncrementTotal(b.usage, row.tenant, day, Usage.NONE.(leads := 1), t);
  }

  lemma CreateAccounted(b: Book, limit: int, cap: int, a: Action, t: Id)
    requires TenantAccounted(b, cap, t) && a.ACreate?
    ensures var b' := Create(b, limit, a.tenant, a.email, a.phone, a.details, a.day, a.pub);
      && TenantAccounted(b', if t == a.tenant then Max(cap, limit) else cap, t)
      && Count(b'.leads, t) <= if t == a.tenant then Max(Count(b.leads, t), limit) else Count(b.leads, t)
  {
    var outcome := CreateOutcome(b, limit, a.tenant, a.email, a.phone, a.details);
    if outcome.Created? {
      RowAdded(b, Create(b, limit, a.tenant, a.email, a.phone, a.details, a.day, a.pub), outcome.row, a.day, t);
    }
  }

  lemma UpdateAccounted(b: Book, tenants: Tenants, cap: int, a: Action, t: Id)
    requires TenantAccounted(b, cap, t) && a.AUpdate?
    ensures TenantAccounted(Next(b, tenants, a), cap, t)
    ensures Count(Next(b, tenants, a).leads, t) == Count(b.leads, t)
  {
    var i := IndexOf(b.leads, a.tenant, a.id);
    if i < |b.leads| { CountReplaced(b.leads, i, Patched(b.leads[i], a.patch), t); }
  }

  lemma DeleteAccounted(b: Book, tenants: Tenants, cap: int, a: Action, t: Id)
    requires TenantAccounted(b, cap, t) && a.ADelete?
    ensures TenantAccounted(Next(b, tenants, a), cap, t)
    ensures Count(Next(b, tenants, a).leads, t) <= Count(b.leads, t)
  {
    var i := IndexOf(b.leads, a.tenant, a.id);
    if i < |b.leads| {
      CountRemoved(b.leads, i, t);
      assert (b.deletions + [a.tenant])[..|b.deletions|] == b.deletions;
    }
  }

  /** A tenant only grows below the cap in force: one that was lowered under the number
      of leads stops all creations but removes nothing. */
  lemma TenantStep(b: Book, tenants: Tenants, cap: int, a: Action, t: Id)
    requires TenantAccounted(b, cap, t)
    ensures TenantAccounted(Next(b, tenants, a), Max(cap, Cap(tenants, t)), t)
    ensures Count(Next(b, tenants, a).leads, t) <= Max(Count(b.leads, t), Cap(tenants, t))
  {
    if a.ACreate? { CreateAccounted(b, Cap(tenants, a.tenant), cap, a, t); }
    else if a.AUpdate? { UpdateAccounted(b, tenants, cap, a, t); }
    else { DeleteAccounted(b, tenants, cap, a, t); }
  }

  /** Over every run from an empty store, with plans changing at any time: one usage row
      per tenant and day, the created counter equals live plus deleted leads, and no
      tenant has more leads than the highest cap it has had. */
  lemma {:induction false} LedgerAndCapHold(steps: seq<Step>)
    ensures var b := Run(EMPTY, steps);
      Usage.OneRowPerDay(b.usage) && forall t: Id :: TenantAccounted(b, HighestCap(steps, t), t)
  {
    if steps != [] {
      var n := |steps| - 1;
      var b, tenants, a := Run(EMPTY, steps[..n]), steps[n].tenants, steps[n].action;
      LedgerAndCapHold(steps[..n]);
      forall t: Id | true ensures TenantAccounted(Next(b, tenants, a), HighestCap(steps, t), t) {
        assert TenantAccounted(b, HighestCap(steps[..n], t), t);
        TenantStep(b, tenants, HighestCap(steps[..n], t), a, t);
      }
      if a.ACreate? {
        Usage.IncrementKeepsOneRowPerDay(b.usage, a.tenant, a.day, Usage.NONE.(leads := 1));
      }
    }
  }

  // ---------- the service ----------

  class LeadService {
    const usage: Usage.UsageTrackingService
    const urls: Urls
    var tenants: Tenants
    var leads: seq<Row>
    var nextId: Id
    var published: seq<Job>
    ghost var deletions: seq<Id>

    constructor (tenants: Tenants, urls: Urls)
      ensures fresh(usage) && this.tenants == tenants && this.urls == urls && State() == EMPTY
    {
      this.tenants, this.urls := tenants, urls;
      usage := new Usage.UsageTrackingService();
      leads, nextId, published, deletions := [], 0, [], [];
    }

    ghost function State(): Book
      reads this, usage
    {
      Book(leads, usage.records, nextId, deletions, published)
    }

    method FindDuplicateRow(tenant: Id, email: Option<string>, phone: Option<string>) returns (r: Option<Row>)
      ensures r == FindDuplicate(leads, tenant, email, phone)
    {
      if !Given(email) && !Given(phone) {
        return None;
      }
      var i := 0;
      while i < |leads|
        invariant 0 <= i <= |leads|
        invariant FindDuplicate(leads, tenant, email, phone) == FindDuplicate(leads[i..], tenant, email, phone)
      {
        if Clashes(leads[i], tenant, email, phone) {
          return Some(leads[i]);
        }
        i := i + 1;
      }
      return None;
    }

    /** Publishes the jobs in turn; `granted` publishes succeed before one raises. */
    method PublishLifecycle(jobs: seq<Job>, granted: nat) returns (raised: bool)
      modifies this`published
      ensures published == old(published) + Announced(Publishing(urls, granted), jobs)
      ensures raised == (granted < |jobs|)
    {
      var i := 0;
      assert jobs[..0] == [];
      while i < |jobs|
        invariant 0 <= i <= |jobs| && i <= granted
        invariant published == old(published) + Sent(urls, jobs[..i])
      {
        if i == granted {
          return true;
        }
        SentAppend(urls, jobs[..i], [jobs[i]]);
        assert jobs[..i + 1] == jobs[..i] + [jobs[i]] && [jobs[i]][1..] == [];
        if Configured(urls, jobs[i].queueName) {
          published := published + [jobs[i]];
        }
        i := i + 1;
      }
      return false;
    }

    method EnforceLeadCreationLimit(tenant: Id) returns (allowed: bool)
      ensures allowed <==> Count(leads, tenant) < Cap(tenants, tenant)
    {
      var limits := PlanLimits.GetPlanLimits(if tenant in tenants then Some(tenants[tenant]) else None);
      assert PlanLimits.MAX_LEADS == PlanLimits.LIMIT_KEYS[0];
      return Count(leads, tenant) < limits[PlanLimits.MAX_LEADS];
    }

    /** Checks the cap, normalises, looks for a duplicate, then stores the lead, counts
        it, commits and announces it. `raised`: a publish raised after the commit. */
    method CreateLead(tenant: Id, email: Option<string>, phone: Option<string>, details: Id, day: int, granted: nat)
      returns (outcome: Outcome, raised: bool)
      modifies this, usage
      ensures outcome == CreateOutcome(old(State()), Cap(tenants, tenant), tenant, email, phone, details)
      ensures tenants == old(tenants)
      ensures raised == (outcome.Created? && granted < 3)
      ensures State() == Next(old(State()), tenants, ACreate(tenant, email, phone, details, day, Publishing(urls, granted)))
    {
      var allowed := EnforceLeadCreationLimit(tenant);
      if !allowed {
        return LimitExceeded, false;
      }
      var e, p := NormalizeEmail(email), NormalizePhone(phone);
      var existing := FindDuplicateRow(tenant, e, p);
      if existing.Some? {
        return Deduplicated(existing.value), false;
      }
      var row := Row(nextId, tenant, e, p, details);
      leads := leads + [row];
      nextId := nextId + 1;
      usage.IncrementUsage(tenant, day, Usage.NONE.(leads := 1));
      outcome := Created(row);
      raised := PublishLifecycle(Lifecycle(tenant, row.id, LeadCreated, IntegrationLeadCreated, "lead_created"), granted);
    }

    method UpdateLead(tenant: Id, id: Id, patch: Patch, granted: nat) returns (found: bool, raised: bool)
      modifies this
      ensures found == (IndexOf(old(leads), tenant, id) < |old(leads)|)
      ensures raised == (found && granted < 3)
      ensures tenants == old(tenants)
      ensures State() == Next(old(State()), tenants, AUpdate(tenant, id, patch, Publishing(urls, granted)))
    {
      var i := IndexOf(leads, tenant, id);
      if i == |leads| {
        return false, false;
      }
      leads := leads[i := Patched(leads[i], patch)];
      found := true;
      raised := PublishLifecycle(Lifecycle(tenant, id, LeadUpdated, IntegrationLeadUpdated, "lead_updated"), granted);
    }

    method DeleteLead(tenant: Id, id: Id) returns (found: bool)
      modifies this
      ensures found == (IndexOf(old(leads), tenant, id) < |old(leads)|)
      ensures tenants == old(tenants) && State() == Next(old(State()), tenants, ADelete(tenant, id))
    {
      var i := IndexOf(leads, tenant, id);
      if i == |leads| {
        return false;
      }
      leads := Others(leads, i);
      deletions := deletions + [tenant];
      return true;
    }
  }
}
