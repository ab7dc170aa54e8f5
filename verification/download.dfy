/** The download layer (src/module/download/mod.rs): the site-to-rule registry, dispatch
    to the one supported rule, the retrying fetch primitive, inter-item pacing, and the
    conversion of a scraped result into an update form. The `sankakucomplex` rule itself is
    not part of this model: its outcome is a parameter. */
module Download {
  import opened Common

  const SankakuRule := "sankakucomplex"
  const DefaultTimeoutSecs := 20
  const DefaultWaitingSecs := 8
  /** `try_req` sends at most this many requests. */
  const MaxAttempts := 3
  const U64Modulus := 0x1_0000_0000_0000_0000

  type U64 = x: int | 0 <= x < U64Modulus
  type I64 = x: int | -0x8000_0000_0000_0000 <= x < 0x8000_0000_0000_0000

  /** One `available_sites` entry of the download configuration. */
  datatype SiteEntry = SiteEntry(site: string, rule: string)

  /** The `download` settings this file reads from the configuration. */
  datatype DownloadConfig = DownloadConfig(
    proxy: Option<string>,
    timeoutInterval: Option<U64>,
    waitingInterval: Option<U64>,
    availableSites: seq<SiteEntry>)

  /** The HTTP adapter: spacing between items and per-request timeout, in seconds. */
  datatype Adapter = Adapter(waiting: U64, timeout: U64)

  datatype DownloadModule = DownloadModule(adapter: Adapter, sites: map<string, string>)

  // ---------------------------------------------------------------- registry

  /** The registry built by inserting the entries in order, a later entry for a site
      replacing an earlier one. */
  function SiteMap(entries: seq<SiteEntry>): map<string, string>
  {
    if entries == [] then map[]
    else
      var last := entries[|entries| - 1];
      SiteMap(entries[..|entries| - 1])[last.site := last.rule]
  }

  /** Entry `i` is the last one naming its site. */
  predicate LastFor(entries: seq<SiteEntry>, i: nat)
    requires i < |entries|
  {
    forall j :: i < j < |entries| ==> entries[j].site != entries[i].site
  }

  /** Every listed site is a key of the registry, and nothing else is. */
  lemma {:induction false} SiteMapKeys(entries: seq<SiteEntry>)
    ensures forall s :: s in SiteMap(entries) <==> exists i :: 0 <= i < |entries| && entries[i].site == s
  {
    if entries != [] {
      var n := |entries| - 1;
      var front := entries[..n];
      SiteMapKeys(front);
      var m := SiteMap(front);
      assert SiteMap(entries) == m[entries[n].site := entries[n].rule];
      forall s
        ensures s in SiteMap(entries) <==> exists i :: 0 <= i < |entries| && entries[i].site == s
      {
        if s in m {
          var i :| 0 <= i < n && front[i].site == s;
          assert entries[i].site == s;
        }
        if s != entries[n].site && exists i :: 0 <= i < |entries| && entries[i].site == s {
          var i :| 0 <= i < |entries| && entries[i].site == s;
          assert i < n && front[i].site == s;
        }
      }
    }
  }

  /** A site's rule in the registry is the one of its LAST entry. */
  lemma {:induction false} SiteMapLastWins(entries: seq<SiteEntry>, i: nat)
    requires i < |entries| && LastFor(entries, i)
    ensures entries[i].site in SiteMap(entries) && SiteMap(entries)[entries[i].site] == entries[i].rule
  {
    var n := |entries| - 1;
    if i < n {
      var front := entries[..n];
      assert front[i] == entries[i];
      assert LastFor(front, i);
      SiteMapLastWins(front, i);
    }
  }

  /** `DownloadModule::new`: timeout 20 s and spacing 8 s unless configured; the registry is
      `SiteMap` of the configured entries. */
  function NewModule(config: DownloadConfig): (m: DownloadModule)
    ensures m.adapter.timeout == config.timeoutInterval.GetOr(DefaultTimeoutSecs)
    ensures m.adapter.waiting == config.waitingInterval.GetOr(DefaultWaitingSecs)
    ensures m.sites == SiteMap(config.availableSites)
  {
    DownloadModule(
      Adapter(config.waitingInterval.GetOr(DefaultWaitingSecs), config.timeoutInterval.GetOr(DefaultTimeoutSecs)),
      SiteMap(config.availableSites))
  }

  // ---------------------------------------------------------------- scraped data

  datatype DownloadTag = DownloadTag(code: string, name: Option<string>, otherName: Option<string>, tagType: Option<string>)

  datatype DownloadBook = DownloadBook(code: string, title: Option<string>, otherTitle: Option<string>)

  datatype DownloadResult = DownloadResult(
    title: Option<string>,
    description: Option<string>,
    tags: Option<seq<DownloadTag>>,
    books: Option<seq<DownloadBook>>,
    relations: Option<seq<int>>)

  /** Timing metadata of one download: retries across its fetches and elapsed milliseconds
      (an `i64`, as the source stores it). */
  datatype AttachInfo = AttachInfo(retryCount: nat, timeCost: I64)

  /** The update form of the source-data API (module `source_data`, not part of this model;
      the field types follow their construction in `to_update_form`). */
  datatype SourceTagForm = SourceTagForm(code: string, name: Option<string>, otherName: Option<string>, tagType: Option<string>)

  datatype SourceBookForm = SourceBookForm(code: string, title: Option<string>, otherTitle: Option<string>)

  datatype SourceDataUpdateForm = SourceDataUpdateForm(
    title: Option<string>,
    description: Option<string>,
    tags: Option<seq<SourceTagForm>>,
    books: Option<seq<SourceBookForm>>,
    relations: Option<seq<int>>,
    status: Option<string>,
    links: Option<seq<string>>,
    additionalInfo: Option<map<string, string>>)

  function TagForm(t: DownloadTag): SourceTagForm
  {
    SourceTagForm(t.code, t.name, t.otherName, t.tagType)
  }

  function BookForm(b: DownloadBook): SourceBookForm
  {
    SourceBookForm(b.code, b.title, b.otherTitle)
  }

  function TagForms(tags: seq<DownloadTag>): (r: seq<SourceTagForm>)
    ensures |r| == |tags|
    ensures forall i :: 0 <= i < |tags| ==> r[i] == TagForm(tags[i])
  {
    seq(|tags|, i requires 0 <= i < |tags| => TagForm(tags[i]))
  }

  function BookForms(books: seq<DownloadBook>): (r: seq<SourceBookForm>)
    ensures |r| == |books|
    ensures forall i :: 0 <= i < |books| ==> r[i] == BookForm(books[i])
  {
    seq(|books|, i requires 0 <= i < |books| => BookForm(books[i]))
  }

  /** `to_update_form`: title, description and relations are copied, tags and books are
      converted element by element (same length, same order, same fields), and the
      editorial fields (status, links, additional info) are left unset. */
  function ToUpdateForm(r: DownloadResult): (f: SourceDataUpdateForm)
    ensures f.title == r.title && f.description == r.description && f.relations == r.relations
    ensures f.tags.Some? <==> r.tags.Some?
    ensures f.tags.Some? ==> |f.tags.value| == |r.tags.value|
    ensures f.books.Some? <==> r.books.Some?
    ensures f.books.Some? ==> |f.books.value| == |r.books.value|
    ensures f.status.None? && f.links.None? && f.additionalInfo.None?
  {
    SourceDataUpdateForm(
      r.title,
      r.description,
      match r.tags case Some(ts) => Some(TagForms(ts)) case None => None,
      match r.books case Some(bs) => Some(BookForms(bs)) case None => None,
      r.relations,
      None, None, None)
  }

  /** Reads the scraped result back out of an update form. */
  function FromUpdateForm(f: SourceDataUpdateForm): DownloadResult
  {
    DownloadResult(
      f.title,
      f.description,
      match f.tags
      case Some(ts) => Some(seq(|ts|, i requires 0 <= i < |ts| =>
                         DownloadTag(ts[i].code, ts[i].name, ts[i].otherName, ts[i].tagType)))
      case None => None,
      match f.books
      case Some(bs) => Some(seq(|bs|, i requires 0 <= i < |bs| =>
                         DownloadBook(bs[i].code, bs[i].title, bs[i].otherTitle)))
      case None => None,
      f.relations)
  }

  /** The conversion loses nothing the scraper produced: the result can be read back
      from the form exactly. */
  lemma UpdateFormRoundTrip(r: DownloadResult)
    ensures FromUpdateForm(ToUpdateForm(r)) == r
  {
    var back := FromUpdateForm(ToUpdateForm(r));
    if r.tags.Some? {
      assert back.tags.value == r.tags.value;
    }
    if r.books.Some? {
      assert back.books.value == r.books.value;
    }
  }

  // ---------------------------------------------------------------- dispatch

  /** What a call to `download` did: whether the rule (and so the adapter) ran, and the
      result with errors as their display text. */
  datatype DownloadAttempt = DownloadAttempt(ruleRan: bool, result: Result<(DownloadResult, AttachInfo), string>)

  function SiteNotConfigured(site: string): string
  {
    "Site " + site + " not configured in available sites."
  }

  function UnsupportedRule(rule: string): string
  {
    "Unsupported rule type " + rule + "."
  }

  /** `download`: an unknown site or a rule other than `sankakucomplex` fails before any
      fetch; otherwise the rule's own outcome is returned. */
  function Download(m: DownloadModule, site: string, ruleOutcome: Result<(DownloadResult, AttachInfo), string>): (a: DownloadAttempt)
    ensures a.ruleRan <==> site in m.sites && m.sites[site] == SankakuRule
    ensures a.ruleRan ==> a.result == ruleOutcome
    ensures site !in m.sites ==> a.result == Failure(SiteNotConfigured(site))
    ensures site in m.sites && m.sites[site] != SankakuRule ==> a.result == Failure(UnsupportedRule(m.sites[site]))
  {
    if site in m.sites then
      var rule := m.sites[site];
      if rule == SankakuRule then DownloadAttempt(true, ruleOutcome)
      else DownloadAttempt(false, Failure(UnsupportedRule(rule)))
    else DownloadAttempt(false, Failure(SiteNotConfigured(site)))
  }

  /** A site that no configuration entry names never reaches the network, whatever the
      rule would have done, and the error names the site. */
  lemma UnlistedSiteNeverFetches(config: DownloadConfig, site: string, ruleOutcome: Result<(DownloadResult, AttachInfo), string>)
    requires forall i :: 0 <= i < |config.availableSites| ==> config.availableSites[i].site != site
    ensures !Download(NewModule(config), site, ruleOutcome).ruleRan
    ensures Download(NewModule(config), site, ruleOutcome).result == Failure(SiteNotConfigured(site))
  {
    SiteMapKeys(config.availableSites);
  }

  /** The rule runs for a site exactly when its last configuration entry names
      `sankakucomplex`. */
  lemma RuleRunsIffLastEntrySankaku(config: DownloadConfig, i: nat, ruleOutcome: Result<(DownloadResult, AttachInfo), string>)
    requires i < |config.availableSites|
    requires LastFor(config.availableSites, i)
    ensures Download(NewModule(config), config.availableSites[i].site, ruleOutcome).ruleRan
            <==> config.availableSites[i].rule == SankakuRule
  {
    SiteMapLastWins(config.availableSites, i);
  }

  // ---------------------------------------------------------------- retrying fetch

  /** The fixed headers every fetch carries, each with its name and value below. */
  datatype BrowserHeader = UserAgent | AcceptEncoding | Accept | Connection

  function HeaderText(h: BrowserHeader): (string, string)
  {
    match h
    case UserAgent => ("User-Agent", "Mozilla/5.0 (Macintosh; Intel Mac OS X 10_15_4) AppleWebKit/537.36 (KHTML, like Gecko) Chrome/80.0.3987.163 Safari/537.36")
    case AcceptEncoding => ("Accept-Encoding", "gzip, deflate")
    case Accept => ("Accept", "*/*")
    case Connection => ("Connection", "keep-alive")
  }

  /** The headers in the order `Adapter::req` adds them. */
  const BrowserHeaders: seq<BrowserHeader> := [UserAgent, AcceptEncoding, Accept, Connection]

  /** An outbound request as `Adapter::req` builds it. */
  datatype FetchRequest = FetchRequest(url: string, headers: seq<BrowserHeader>, timeoutSecs: U64)

  function FetchRequestFor(adapter: Adapter, url: string): (r: FetchRequest)
    ensures r.headers == BrowserHeaders && r.timeoutSecs == adapter.timeout && r.url == url
  {
    FetchRequest(url, BrowserHeaders, adapter.timeout)
  }

  datatype SendErrorKind = Connect | Timeout | OtherKind

  datatype SendError = SendError(kind: SendErrorKind, detail: string)

  /** What one send produced. */
  datatype SendOutcome<R> = Delivered(response: R) | Failed(error: SendError)

  /** Only connection and timeout failures are retried. */
  predicate RetryableFailure<R>(o: SendOutcome<R>) {
    o.Failed? && (o.error.kind == Connect || o.error.kind == Timeout)
  }

  /** The number of retryable failures at the head of the outcomes. */
  function LeadingRetryable<R>(outcomes: seq<SendOutcome<R>>): nat
  {
    if outcomes == [] || !RetryableFailure(outcomes[0]) then 0
    else 1 + LeadingRetryable(outcomes[1..])
  }

  lemma {:induction false} LeadingRetryableAt<R>(outcomes: seq<SendOutcome<R>>, k: nat)
    requires k <= |outcomes|
    requires forall j :: 0 <= j < k ==> RetryableFailure(outcomes[j])
    ensures LeadingRetryable(outcomes) >= k
    ensures k < |outcomes| && !RetryableFailure(outcomes[k]) ==> LeadingRetryable(outcomes) == k
  {
    if k > 0 {
      LeadingRetryableAt(outcomes[1..], k - 1);
    }
  }

  function Min(a: nat, b: nat): nat
  {
    if a < b then a else b
  }

  /** `try_req`: sends `1 + min(leading connect/timeout failures, 2)` requests, every one
      of them the request `Adapter::req` builds for the URL; returns the response with
      the number of failures before it, returns any other failure at once, and after three
      connect/timeout failures returns the last one. A 1 s pause follows every
      connect/timeout failure, the third included. */
  method TryReq<R>(adapter: Adapter, url: string, outcomes: seq<SendOutcome<R>>)
      returns (r: Result<(R, nat), SendError>, sends: nat, pauses: nat, requests: seq<FetchRequest>)
    requires |outcomes| >= MaxAttempts
    ensures sends == Min(LeadingRetryable(outcomes) + 1, MaxAttempts)
    ensures pauses == Min(LeadingRetryable(outcomes), MaxAttempts)
    ensures |requests| == sends
    ensures forall i :: 0 <= i < |requests| ==> requests[i] == FetchRequestFor(adapter, url)
    ensures r.Success? <==> sends <= LeadingRetryable(outcomes) + 1 && outcomes[sends - 1].Delivered?
    ensures r.Success? ==> r.value == (outcomes[sends - 1].response, sends - 1) && r.value.1 < MaxAttempts
    ensures r.Failure? && LeadingRetryable(outcomes) < MaxAttempts ==>
              outcomes[sends - 1] == Failed(r.error) && !RetryableFailure(outcomes[sends - 1])
    ensures LeadingRetryable(outcomes) >= MaxAttempts ==>
              outcomes[MaxAttempts - 1].Failed? && r == Failure(outcomes[MaxAttempts - 1].error)
  {
    var retries := 0;
    var last: Option<SendError> := None;
    sends := 0;
    pauses := 0;
    requests := [];
    while retries < MaxAttempts
      invariant retries <= MaxAttempts
      invariant sends == retries && pauses == retries && |requests| == sends
      invariant forall i :: 0 <= i < |requests| ==> requests[i] == FetchRequestFor(adapter, url)
      invariant forall j :: 0 <= j < retries ==> RetryableFailure(outcomes[j])
      invariant retries > 0 ==> last == Some(outcomes[retries - 1].error)
    {
      var o := outcomes[retries];
      sends := sends + 1;
      requests := requests + [FetchRequestFor(adapter, url)];
      match o
      case Delivered(response) =>
        LeadingRetryableAt(outcomes, retries);
        return Success((response, retries)), sends, pauses, requests;
      case Failed(e) =>
        if e.kind == Connect || e.kind == Timeout {
          last := Some(e);
          retries := retries + 1;
        } else {
          LeadingRetryableAt(outcomes, retries);
          return Failure(e), sends, pauses, requests;
        }
      pauses := pauses + 1;
    }
    LeadingRetryableAt(outcomes, retries);
    r := Failure(last.value);
  }

  // ---------------------------------------------------------------- pacing

  /** Rust's `/` on integers: truncation toward zero. */
  function TruncDiv(a: int, b: nat): int
    requires b > 0
  {
    if a >= 0 then a / b else -((-a) / b)
  }

  /** `wait` exactly as written, in a release build: `(time_cost / 1000) as u64` truncates
      and wraps, and the `u64` subtraction `waiting - cost` wraps when the cost exceeds the
      spacing. (A debug build panics there instead.) */
  function WaitAsWritten(waiting: U64, timeCost: I64): U64
  {
    var cost := TruncDiv(timeCost, 1000) % U64Modulus;
    var diff := (waiting - cost) % U64Modulus;
    if diff > waiting / 2 then diff else waiting / 2
  }

  /** The underflow: with the default 8 s spacing, a 15 s download makes the as-written
      `wait` sleep for about 2^64 seconds instead of the 4 s floor. */
  lemma WaitAsWrittenOversleeps()
    ensures WaitAsWritten(DefaultWaitingSecs, 15000) == U64Modulus - 7
    ensures WaitAsWritten(DefaultWaitingSecs, 15000) > DefaultWaitingSecs
  {
  }

  /** The as-written `wait` is the bug in general: whenever the whole seconds a download
      took exceed the spacing, the next pause is longer than the spacing itself. */
  lemma WaitAsWrittenExceedsSpacing(waiting: U64, timeCost: I64)
    requires timeCost >= 0 && timeCost / 1000 > waiting
    ensures WaitAsWritten(waiting, timeCost) > waiting
  {
    var cost := TruncDiv(timeCost, 1000);
    assert cost == timeCost / 1000 && cost < U64Modulus;
    assert (waiting - cost) % U64Modulus == waiting - cost + U64Modulus;
  }

  /** The pause before the next item, in seconds: the spacing minus the whole seconds the
      previous download took, but never below half the spacing. Always within
      `[waiting/2, waiting]`. */
  function Wait(waiting: nat, timeCost: nat): (r: nat)
    ensures waiting / 2 <= r <= waiting
    ensures r >= waiting - timeCost / 1000
    ensures r == waiting / 2 || r == waiting - timeCost / 1000
  {
    var cost := timeCost / 1000;
    if cost <= waiting && waiting - cost > waiting / 2 then waiting - cost else waiting / 2
  }

  /** Where the cost fits in the spacing, the written and the intended pause agree. */
  lemma WaitAsWrittenAgrees(waiting: U64, timeCost: I64)
    requires 0 <= timeCost && timeCost / 1000 <= waiting
    ensures WaitAsWritten(waiting, timeCost) == Wait(waiting, timeCost)
  {
  }

  /** A slower download never leads to a longer pause. */
  lemma WaitAntitone(waiting: nat, fast: nat, slow: nat)
    requires fast <= slow
    ensures Wait(waiting, slow) <= Wait(waiting, fast)
  {
    assert fast / 1000 <= slow / 1000;
  }
}
