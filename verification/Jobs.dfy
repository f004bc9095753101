/** Jobs, queue names and queue URLs, as the publisher and the worker use them. */
module Jobs {
  /** Rows are named by opaque identifiers; only their equality and order matter. */
  type Id = nat

  datatype Option<+T> = None | Some(value: T)

  /** The names in the worker's handler table, and every other name. */
  datatype Event =
    | MessageCreated
    | LeadCreated | LeadUpdated | LeadScoreUpdated
    | SequenceTrigger
    | SequenceStep
    | IntegrationLeadCreated | IntegrationLeadUpdated | IntegrationScoreUpdated
    | IntegrationTimelineCreated
    | Other(name: string)

  /** The JSON body of a job. `None` stands for a key that is missing or blank. */
  datatype Payload = Payload(
    event: Event,
    tenant: Option<Id>,
    lead: Option<Id>,
    trigger: Option<string>,
    enrollment: Option<Id>,
    session: Option<Id>,
    message: Option<Id>)

  datatype Job = Job(queueName: string, payload: Payload)

  /** Queue URL by queue name; a name that is absent or blank is not configured. */
  type Urls = map<string, string>

  const AI_JOBS := "ai_jobs"
  const SEQUENCE_JOBS := "sequence_jobs"
  const ROUTING_JOBS := "routing_jobs"
  const INTEGRATION_JOBS := "integration_jobs"
  const SCORE_UPDATED := "score_updated"

  predicate Configured(urls: Urls, name: string) {
    name in urls && urls[name] != ""
  }

  /** `queue_url.split("/")[-1]`: the text after the last slash. */
  function LastSegment(url: string): string {
    if url == "" then ""
    else if url[|url| - 1] == '/' then ""
    else LastSegment(url[..|url| - 1]) + [url[|url| - 1]]
  }

  /** The URL is a base, empty or ending in a slash, and a name without slashes. */
  ghost predicate Splits(url: string, base: string, name: string) {
    url == base + name && '/' !in name && (base == "" || base[|base| - 1] == '/')
  }

  /** The last segment is what follows the last slash, or all of the URL. */
  lemma {:induction false} LastSegmentSplits(url: string) returns (base: string)
    ensures Splits(url, base, LastSegment(url))
  {
    if url == "" || url[|url| - 1] == '/' {
      base := url;
    } else {
      var n := |url| - 1;
      base := LastSegmentSplits(url[..n]);
      assert url == url[..n] + [url[n]];
      assert url == base + (LastSegment(url[..n]) + [url[n]]);
    }
  }

  lemma NotLonger(url: string, base: string, name: string, base': string, name': string)
    requires Splits(url, base, name) && Splits(url, base', name')
    ensures |name'| <= |name|
  {
    assert base != "" ==> url[|base| - 1] == '/';
    assert forall k :: 0 <= k < |name'| ==> url[|base'| + k] == name'[k] && name'[k] != '/';
  }

  /** A URL splits in one way only. */
  lemma SplitsOnce(url: string, base: string, name: string, base': string, name': string)
    requires Splits(url, base, name) && Splits(url, base', name')
    ensures name == name'
  {
    NotLonger(url, base, name, base', name');
    NotLonger(url, base', name', base, name);
    assert name == url[|url| - |name|..] && name' == url[|url| - |name'|..];
  }

  lemma LastSegmentOf(base: string, name: string)
    requires '/' !in name
    ensures LastSegment(base + "/" + name) == name
  {
    var found := LastSegmentSplits(base + "/" + name);
    SplitsOnce(base + "/" + name, found, LastSegment(base + "/" + name), base + "/", name);
  }

  /** Every queue has a URL that is some base, a slash and its own name. */
  ghost predicate Conventional(urls: Urls) {
    forall name :: Configured(urls, name) ==> '/' !in name && exists base: string :: urls[name] == base + "/" + name
  }

  lemma ConventionalSegment(urls: Urls, name: string)
    requires Conventional(urls) && Configured(urls, name)
    ensures LastSegment(urls[name]) == name
  {
    var base: string :| urls[name] == base + "/" + name;
    LastSegmentOf(base, name);
  }

  /** The queue names that the API and the handlers publish to. */
  predicate Published(name: string) {
    name in {AI_JOBS, ROUTING_JOBS, SEQUENCE_JOBS, INTEGRATION_JOBS}
  }

  /** The queue name of a job after it was saved and replayed `k` times. */
  function NameAfter(urls: Urls, name: string, k: nat): string {
    if k == 0 then name
    else
      var before := NameAfter(urls, name, k - 1);
      if Configured(urls, before) then LastSegment(urls[before]) else before
  }

  /** However often a job is saved and replayed, its queue name has a URL. */
  ghost predicate NamesResolve(urls: Urls) {
    forall name, k: nat :: Published(name) && Configured(urls, name) ==> Configured(urls, NameAfter(urls, name, k))
  }

  function StepToken(tenant: Id, enrollment: Id): Job {
    Job(SEQUENCE_JOBS, Payload(SequenceStep, Some(tenant), None, None, Some(enrollment), None, None))
  }

  function LeadJob(queue: string, event: Event, tenant: Id, lead: Id): Job {
    Job(queue, Payload(event, Some(tenant), Some(lead), None, None, None, None))
  }

  function TriggerJob(tenant: Id, lead: Id, trigger: string): Job {
    Job(SEQUENCE_JOBS, Payload(SequenceTrigger, Some(tenant), Some(lead), Some(trigger), None, None, None))
  }

  /** The three jobs that announce an event of a lead: routing, integrations, sequences. */
  predicate Announces(jobs: seq<Job>, routing: Event, integration: Event, trigger: string, tenant: Id, lead: Id) {
    && |jobs| == 3
    && jobs[0] == Job("routing_jobs", Payload(routing, Some(tenant), Some(lead), None, None, None, None))
    && jobs[1] == Job("integration_jobs", Payload(integration, Some(tenant), Some(lead), None, None, None, None))
    && jobs[2] == Job("sequence_jobs", Payload(SequenceTrigger, Some(tenant), Some(lead), Some(trigger), None, None, None))
  }

  // ---------- what publishing drops ----------

  ghost predicate AllConfigured(urls: Urls, jobs: seq<Job>) {
    forall job :: job in jobs ==> Configured(urls, job.queueName)
  }

  /** The jobs that `publish` does not drop. */
  function Sent(urls: Urls, jobs: seq<Job>): seq<Job> {
    if jobs == [] then []
    else (if Configured(urls, jobs[0].queueName) then [jobs[0]] else []) + Sent(urls, jobs[1..])
  }

  lemma {:induction false} SentAppend(urls: Urls, xs: seq<Job>, ys: seq<Job>)
    ensures Sent(urls, xs + ys) == Sent(urls, xs) + Sent(urls, ys)
  {
    if xs == [] {
      assert xs + ys == ys;
    } else {
      var first := if Configured(urls, xs[0].queueName) then [xs[0]] else [];
      SentAppend(urls, xs[1..], ys);
      assert (xs + ys)[0] == xs[0] && (xs + ys)[1..] == xs[1..] + ys;
      assert first + (Sent(urls, xs[1..]) + Sent(urls, ys)) == (first + Sent(urls, xs[1..])) + Sent(urls, ys);
    }
  }

  lemma {:induction false} SentAll(urls: Urls, jobs: seq<Job>)
    ensures Sent(urls, jobs) == jobs <==> AllConfigured(urls, jobs)
    ensures |Sent(urls, jobs)| <= |jobs|
    ensures forall job :: job in Sent(urls, jobs) ==> job in jobs
  {
    if jobs != [] {
      SentAll(urls, jobs[1..]);
      assert jobs == [jobs[0]] + jobs[1..];
    }
  }

  function Min(a: nat, b: nat): nat { if a < b then a else b }
}
