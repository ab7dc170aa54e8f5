/** The source-data commands (src/command/source_data.rs): the scraping sweep that downloads
    each pending item, sends its update, tallies successes and failures and paces itself
    between items, and the range footer of `query`. The query and update calls go through
    the source-data API module, which is not part of this model: their replies are
    parameters. */
module SourceDataCommand {
  import opened Common
  import Download
  import Http

  /** The sweep always asks for up to 1000 items of status NOT_EDITED or ERROR on
      the `sankakucomplex` site. */
  const SweepStatuses: seq<string> := ["NOT_EDITED", "ERROR"]
  const SweepSites: seq<string> := ["sankakucomplex"]
  const SweepLimit := 1000

  /** A `query` request of the source-data API: HQL, statuses, sites, offset and limit,
      each optional. */
  datatype QueryCall = QueryCall(
    hql: Option<string>, statuses: Option<seq<string>>, sites: Option<seq<string>>,
    offset: Option<int>, limit: Option<int>)

  /** The one query the sweep sends. */
  const SweepQuery := QueryCall(None, Some(SweepStatuses), Some(SweepSites), None, Some(SweepLimit))

  const U32Modulus := 0x1_0000_0000

  type U32 = x: int | 0 <= x < U32Modulus

  datatype SourceItem = SourceItem(site: string, sourceId: int)

  /** What the outside world answers for one item: the outcome of the download rule, and
      the reply to the update request if one is sent. */
  datatype ItemWorld = ItemWorld(
    ruleOutcome: Result<(Download.DownloadResult, Download.AttachInfo), string>,
    updateReply: Result<(), string>)

  /** The update request sent for a downloaded item. */
  datatype UpdateCall = UpdateCall(site: string, sourceId: int, form: Download.SourceDataUpdateForm)

  /** How one item ended. */
  datatype ItemReport =
    | Succeeded(update: UpdateCall, info: Download.AttachInfo)
    | UpdateFailed(update: UpdateCall, info: Download.AttachInfo, message: string)
    | DownloadFailed(message: string)

  /** One iteration of the sweep: download; on success send the update built from the
      result. A download that succeeds but whose update fails is a failure. */
  function ProcessItem(m: Download.DownloadModule, item: SourceItem, w: ItemWorld): (r: ItemReport)
    ensures r.Succeeded? <==>
      Download.Download(m, item.site, w.ruleOutcome).result.Success? && w.updateReply.Success?
    ensures r.DownloadFailed? <==> Download.Download(m, item.site, w.ruleOutcome).result.Failure?
    ensures !r.DownloadFailed? ==>
      var (result, info) := Download.Download(m, item.site, w.ruleOutcome).result.value;
      r.update == UpdateCall(item.site, item.sourceId, Download.ToUpdateForm(result)) && r.info == info
  {
    match Download.Download(m, item.site, w.ruleOutcome).result
    case Failure(e) => DownloadFailed(e)
    case Success((result, info)) =>
      var call := UpdateCall(item.site, item.sourceId, Download.ToUpdateForm(result));
      match w.updateReply
      case Success(_) => Succeeded(call, info)
      case Failure(e) => UpdateFailed(call, info, e)
  }

  /** The cost handed to `wait` after an item: its measured time after a download, and 0
      (the full spacing) after a failed download. */
  function PauseCost(r: ItemReport): Download.I64
  {
    match r
    case Succeeded(_, info) => info.timeCost
    case UpdateFailed(_, info, _) => info.timeCost
    case DownloadFailed(_) => 0
  }

  function CountSucceeded(reports: seq<ItemReport>): nat
  {
    if reports == [] then 0
    else (if reports[|reports| - 1].Succeeded? then 1 else 0) + CountSucceeded(reports[..|reports| - 1])
  }

  /** The report of every item, in order: each item is processed on its own. */
  function Reports(m: Download.DownloadModule, items: seq<SourceItem>, world: seq<ItemWorld>): (r: seq<ItemReport>)
    requires |world| == |items|
    ensures |r| == |items|
    ensures forall i :: 0 <= i < |items| ==> r[i] == ProcessItem(m, items[i], world[i])
  {
    seq(|items|, i requires 0 <= i < |items| => ProcessItem(m, items[i], world[i]))
  }

  /** The pauses of a sweep with spacing `waiting`: one after every report but the last,
      computed from that report's cost by `wait` as written. */
  function Pauses(waiting: Download.U64, reports: seq<ItemReport>): (p: seq<Download.U64>)
    ensures |p| == if |reports| == 0 then 0 else |reports| - 1
    ensures forall i :: 0 <= i < |p| ==> p[i] == Download.WaitAsWritten(waiting, PauseCost(reports[i]))
  {
    if |reports| == 0 then []
    else seq(|reports| - 1, i requires 0 <= i < |reports| - 1 => Download.WaitAsWritten(waiting, PauseCost(reports[i])))
  }

  /** While every item's cost fits within the spacing, the sweep paces as intended: each
      pause is the corrected `wait`, between half the spacing and the spacing. */
  lemma PausesWithinSpacing(waiting: Download.U64, reports: seq<ItemReport>)
    requires forall i :: 0 <= i < |reports| ==> 0 <= PauseCost(reports[i]) && PauseCost(reports[i]) / 1000 <= waiting
    ensures forall i :: 0 <= i < |Pauses(waiting, reports)| ==>
      Pauses(waiting, reports)[i] == Download.Wait(waiting, PauseCost(reports[i]))
      && waiting / 2 <= Pauses(waiting, reports)[i] <= waiting
  {
    forall i | 0 <= i < |Pauses(waiting, reports)|
      ensures Pauses(waiting, reports)[i] == Download.Wait(waiting, PauseCost(reports[i]))
    {
      Download.WaitAsWrittenAgrees(waiting, PauseCost(reports[i]));
    }
  }

  /** One item that is not the last and whose whole seconds exceed the spacing makes the
      sweep pause longer than the spacing after it. */
  lemma SlowItemOversleeps(waiting: Download.U64, reports: seq<ItemReport>, k: nat)
    requires k + 1 < |reports|
    requires 0 <= PauseCost(reports[k]) && PauseCost(reports[k]) / 1000 > waiting
    ensures Pauses(waiting, reports)[k] > waiting
  {
    Download.WaitAsWrittenExceedsSpacing(waiting, PauseCost(reports[k]));
  }

  /** The sweep's loop: every item is processed and lands in exactly one of the two
      tallies, so they add up to the item count; `success` counts exactly the items that
      downloaded and updated. A pause follows every item but the last, computed from that
      item's cost. */
  method Sweep(m: Download.DownloadModule, items: seq<SourceItem>, world: seq<ItemWorld>)
      returns (success: nat, failed: nat, reports: seq<ItemReport>, pauses: seq<Download.U64>)
    requires |world| == |items|
    ensures reports == Reports(m, items, world)
    ensures success + failed == |items|
    ensures success == CountSucceeded(reports)
    ensures pauses == Pauses(m.adapter.waiting, reports)
  {
    success := 0;
    failed := 0;
    reports := [];
    pauses := [];
    var i := 0;
    while i < |items|
      invariant i <= |items|
      invariant |reports| == i
      invariant forall j :: 0 <= j < i ==> reports[j] == ProcessItem(m, items[j], world[j])
      invariant success + failed == i
      invariant success == CountSucceeded(reports)
      invariant |pauses| == if 0 < i == |items| then i - 1 else i
      invariant forall j :: 0 <= j < |pauses| ==> pauses[j] == Download.WaitAsWritten(m.adapter.waiting, PauseCost(reports[j]))
    {
      var report := ProcessItem(m, items[i], world[i]);
      CountSucceededSnoc(reports, report);
      if report.Succeeded? {
        success := success + 1;
      } else {
        failed := failed + 1;
      }
      reports := reports + [report];
      // the source's `index` is 1-based: it pauses while `index < result_count`
      if i + 1 < |items| {
        pauses := pauses + [Download.WaitAsWritten(m.adapter.waiting, PauseCost(report))];
      }
      i := i + 1;
    }
    ReportsByElement(m, items, world, reports);
    PausesByElement(m.adapter.waiting, reports, pauses);
  }

  lemma ReportsByElement(m: Download.DownloadModule, items: seq<SourceItem>, world: seq<ItemWorld>, reports: seq<ItemReport>)
    requires |world| == |items| == |reports|
    requires forall j :: 0 <= j < |items| ==> reports[j] == ProcessItem(m, items[j], world[j])
    ensures reports == Reports(m, items, world)
  {
  }

  lemma PausesByElement(waiting: Download.U64, reports: seq<ItemReport>, pauses: seq<Download.U64>)
    requires |pauses| == if |reports| == 0 then 0 else |reports| - 1
    requires forall j :: 0 <= j < |pauses| ==> pauses[j] == Download.WaitAsWritten(waiting, PauseCost(reports[j]))
    ensures pauses == Pauses(waiting, reports)
  {
  }

  lemma CountSucceededSnoc(reports: seq<ItemReport>, r: ItemReport)
    ensures CountSucceeded(reports + [r]) == CountSucceeded(reports) + (if r.Succeeded? then 1 else 0)
  {
    assert (reports + [r])[..|reports|] == reports;
  }

  /** What `download` did: stopped at a failed query, found nothing to do, or processed
      every item it got. */
  datatype SweepRun =
    | QueryFailed(message: string)
    | NothingFound(total: int)
    | Processed(total: int, success: nat, failed: nat, reports: seq<ItemReport>, pauses: seq<Download.U64>)

  /** `download`: sends the sweep's fixed query; an empty result reports the total and
      stops before the download module is built or any item is processed; otherwise the
      sweep runs over every item with the configured spacing (8 s by default). The
      acquisition result is not consulted. */
  method DownloadCommand(config: Download.DownloadConfig, query: Result<Http.ListResult<SourceItem>, string>, world: seq<ItemWorld>)
      returns (sent: QueryCall, run: SweepRun)
    requires query.Success? ==> |world| == |query.value.result|
    ensures sent.statuses == Some(["NOT_EDITED", "ERROR"]) && sent.sites == Some([Download.SankakuRule])
    ensures sent.hql.None? && sent.offset.None? && sent.limit == Some(1000)
    ensures query.Failure? <==> run.QueryFailed?
    ensures run.NothingFound? <==> query.Success? && query.value.result == []
    ensures run.NothingFound? || run.Processed? ==> run.total == query.value.total
    ensures run.Processed? ==>
      var items := query.value.result;
      && run.success + run.failed == |items|
      && run.success == CountSucceeded(run.reports)
      && |run.reports| == |items|
      && (forall i :: 0 <= i < |items| ==>
            run.reports[i] == ProcessItem(Download.NewModule(config), items[i], world[i]))
      && |run.pauses| == |items| - 1
      && (forall i :: 0 <= i < |run.pauses| ==>
            run.pauses[i] == Download.WaitAsWritten(config.waitingInterval.GetOr(Download.DefaultWaitingSecs), PauseCost(run.reports[i])))
  {
    sent := SweepQuery;
    match query
    case Failure(e) =>
      run := QueryFailed(e);
    case Success(r) =>
      if |r.result| == 0 {
        run := NothingFound(r.total);
      } else {
        var m := Download.NewModule(config);
        var success, failed, reports, pauses := Sweep(m, r.result, world);
        run := Processed(r.total, success, failed, reports, pauses);
      }
  }

  /** When every item succeeds, every item is counted. */
  lemma {:induction false} AllSucceeded(reports: seq<ItemReport>)
    requires forall i :: 0 <= i < |reports| ==> reports[i].Succeeded?
    ensures CountSucceeded(reports) == |reports|
  {
    if reports != [] {
      AllSucceeded(reports[..|reports| - 1]);
    }
  }

  /** A single failing item, wherever it stands, costs exactly one success (and so the
      sweep reports exactly one failure). */
  lemma {:induction false} OneFailureCostsOne(reports: seq<ItemReport>, k: nat)
    requires k < |reports|
    requires forall i :: 0 <= i < |reports| && i != k ==> reports[i].Succeeded?
    requires !reports[k].Succeeded?
    ensures CountSucceeded(reports) == |reports| - 1
  {
    var front := reports[..|reports| - 1];
    if k == |reports| - 1 {
      AllSucceeded(front);
    } else {
      OneFailureCostsOne(front, k);
    }
  }

  /** The range the `query` footer prints, `offset + 1` to `offset + len`, in `u32`
      arithmetic that wraps (`len as u32` truncates). */
  function FooterRange(offset: U32, len: nat): (U32, U32)
  {
    ((offset + 1) % U32Modulus, (offset + len % U32Modulus) % U32Modulus)
  }

  /** Without wrap-around, the footer's range covers exactly the `len` items shown:
      it starts right after the offset and spans `len` positions (an empty page prints
      `offset + 1` to `offset`). */
  lemma FooterRangeCoversPage(offset: U32, len: nat)
    requires offset + len + 1 < U32Modulus
    ensures FooterRange(offset, len).0 == offset + 1
    ensures FooterRange(offset, len).1 - FooterRange(offset, len).0 + 1 == len
  {
  }
}
