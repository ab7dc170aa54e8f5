/** The import commands (src/command/import.rs): when each command contacts the server,
    the early return when no session can be acquired, the requests it makes, and the
    reason and summary texts it composes. The acquisition and each request's outcome are
    parameters. */
module ImportCommand {
  import opened Common
  import Text
  import Http
  import Dates
  import ImportApi
  import Server

  const ConnectFailurePrefix := "Cannot establish connection to server. "
  const BatchSucceeded := "Batch Succeed."
  const BatchPartlyFailed := "Some items batch failed."

  /** The per-file line of `add`. */
  datatype FileLine = FileAdded(file: string) | FileAddFailed(file: string, error: Http.ReqError)

  /** What a command reported. */
  datatype Report =
    | Idle
    | NotConnected(message: string)
    | RequestFailed(error: Http.ReqError)
    | Listed(total: int, shown: nat)
    | AddLines(lines: seq<FileLine>)
    | BatchReport(reasons: seq<(int, string)>, summary: string)
    | SaveReport(reasons: seq<(int, string)>, summary: string)

  /** What a command did: whether it tried to acquire a session, the API requests it sent
      in order, and what it reported. */
  datatype Run = Run(connects: bool, calls: seq<ImportApi.ApiCall>, report: Report)

  /** `list`: one listing request, made only once a session is acquired. */
  function List(acquired: Result<(), string>, reply: Result<Http.ListResult<ImportApi.ImportImage>, Http.ReqError>): (r: Run)
    ensures r.connects
    ensures acquired.Failure? ==> r.calls == [] && r.report == NotConnected(ConnectFailurePrefix + acquired.error)
    ensures acquired.Success? ==> r.calls == [ImportApi.ListCall()]
    ensures acquired.Success? && reply.Failure? ==> r.report == RequestFailed(reply.error)
    ensures acquired.Success? && reply.Success? ==> r.report == Listed(reply.value.total, |reply.value.result|)
  {
    match acquired
    case Failure(e) => Run(true, [], NotConnected(ConnectFailurePrefix + e))
    case Success(_) =>
      var report := match reply
        case Failure(e) => RequestFailed(e)
        case Success(page) => Listed(page.total, |page.result|);
      Run(true, [ImportApi.ListCall()], report)
  }

  function AddEach(files: seq<string>, remove: bool, replies: seq<Result<Http.IdWithWarning, Http.ReqError>>)
      : (r: (seq<ImportApi.ApiCall>, seq<FileLine>))
    requires |replies| == |files|
    ensures |r.0| == |files| && |r.1| == |files|
    ensures forall i :: 0 <= i < |files| ==> r.0[i] == ImportApi.AddCall(files[i], remove)
    ensures forall i :: 0 <= i < |files| ==>
      r.1[i] == (if replies[i].Success? then FileAdded(files[i]) else FileAddFailed(files[i], replies[i].error))
  {
    if files == [] then ([], [])
    else
      var rest := AddEach(files[1..], remove, replies[1..]);
      var line := if replies[0].Success? then FileAdded(files[0]) else FileAddFailed(files[0], replies[0].error);
      ([ImportApi.AddCall(files[0], remove)] + rest.0, [line] + rest.1)
  }

  /** `add`: contacts the server only for a non-empty file list; then one request per
      file, in order, and one file's failure does not stop the others. */
  function Add(files: seq<string>, remove: bool, acquired: Result<(), string>,
               replies: seq<Result<Http.IdWithWarning, Http.ReqError>>): (r: Run)
    requires |replies| == |files|
    ensures r.connects <==> |files| > 0
    ensures files == [] ==> r == Run(false, [], Idle)
    ensures files != [] && acquired.Failure? ==> r.calls == [] && r.report == NotConnected(ConnectFailurePrefix + acquired.error)
    ensures files != [] && acquired.Success? ==>
      && |r.calls| == |files|
      && (forall i :: 0 <= i < |files| ==> r.calls[i] == ImportApi.AddCall(files[i], remove))
      && r.report.AddLines? && |r.report.lines| == |files|
      && (forall i :: 0 <= i < |files| ==>
            r.report.lines[i].file == files[i] && (r.report.lines[i].FileAdded? <==> replies[i].Success?))
      && (forall i :: 0 <= i < |files| && replies[i].Failure? ==>
            r.report.lines[i] == FileAddFailed(files[i], replies[i].error))
  {
    if files == [] then Run(false, [], Idle)
    else
      match acquired
      case Failure(e) => Run(true, [], NotConnected(ConnectFailurePrefix + e))
      case Success(_) =>
        var (calls, lines) := AddEach(files, remove, replies);
        Run(true, calls, AddLines(lines))
  }

  /** `batch` has something to ask of the server. */
  predicate BatchRequested(partition: Option<Dates.Date>, create: Option<ImportApi.OrderTimeType>,
                           order: Option<ImportApi.OrderTimeType>, analyse: bool) {
    partition.Some? || create.Some? || order.Some? || analyse
  }

  function Messages(warnings: seq<Http.ErrorBody>): (r: seq<string>)
    ensures |r| == |warnings| && forall i :: 0 <= i < |warnings| ==> r[i] == warnings[i].message
  {
    seq(|warnings|, i requires 0 <= i < |warnings| => warnings[i].message)
  }

  /** The reason printed for a batch item: its warning messages run together with no
      separator. */
  function BatchReason(item: Http.IdWithWarning): string
  {
    Text.Concat(Messages(item.warnings))
  }

  /** The batch reason holds every warning message, in order, and nothing else: it is
      exactly as long as the messages together, and the reason for a list of warnings is
      the reason for its first part followed by the reason for the rest. */
  lemma BatchReasonContents(id: int, first: seq<Http.ErrorBody>, rest: seq<Http.ErrorBody>)
    ensures |BatchReason(Http.IdWithWarning(id, first + rest))| == Text.TotalLength(Messages(first + rest))
    ensures BatchReason(Http.IdWithWarning(id, first + rest))
            == BatchReason(Http.IdWithWarning(id, first)) + BatchReason(Http.IdWithWarning(id, rest))
  {
    assert Messages(first + rest) == Messages(first) + Messages(rest);
    Text.ConcatAppend(Messages(first), Messages(rest));
    Text.ConcatLength(Messages(first + rest));
  }

  function BatchReasons(items: seq<Http.IdWithWarning>): (r: seq<(int, string)>)
    ensures |r| == |items|
    ensures forall i :: 0 <= i < |items| ==> r[i] == (items[i].id, BatchReason(items[i]))
  {
    seq(|items|, i requires 0 <= i < |items| => (items[i].id, BatchReason(items[i])))
  }

  /** `batch`: contacts the server only when some setting is given; it reports success
      exactly when the server lists no item at all (an item with an empty warning list
      still counts as a failure). */
  function Batch(partition: Option<Dates.Date>, create: Option<ImportApi.OrderTimeType>,
                 order: Option<ImportApi.OrderTimeType>, analyse: bool,
                 acquired: Result<(), string>, reply: Result<seq<Http.IdWithWarning>, Http.ReqError>): (r: Run)
    ensures r.connects <==> BatchRequested(partition, create, order, analyse)
    ensures !r.connects ==> r == Run(false, [], Idle)
    ensures r.connects && acquired.Failure? ==> r.calls == [] && r.report == NotConnected(ConnectFailurePrefix + acquired.error)
    ensures r.connects && acquired.Success? ==> r.calls == [ImportApi.BatchCall(partition, create, order, analyse)]
    ensures r.connects && acquired.Success? && reply.Failure? ==> r.report == RequestFailed(reply.error)
    ensures r.connects && acquired.Success? && reply.Success? ==>
      && r.report.BatchReport?
      && (r.report.summary == BatchSucceeded <==> reply.value == [])
      && (reply.value != [] ==> r.report.summary == BatchPartlyFailed)
      && r.report.reasons == BatchReasons(reply.value)
  {
    if !BatchRequested(partition, create, order, analyse) then Run(false, [], Idle)
    else
      match acquired
      case Failure(e) => Run(true, [], NotConnected(ConnectFailurePrefix + e))
      case Success(_) =>
        var call := ImportApi.BatchCall(partition, create, order, analyse);
        match reply
        case Failure(e) => Run(true, [call], RequestFailed(e))
        case Success(items) =>
          if |items| > 0 then Run(true, [call], BatchReport(BatchReasons(items), BatchPartlyFailed))
          else Run(true, [call], BatchReport([], BatchSucceeded))
  }

  const SaveFlagMessages: seq<string> := [
    "File not ready.",
    "Preference clone image not exist.",
    "Preference collection not exist.",
    "Preference book not exist.",
    "Preference folder not exist."]

  /** The five problems a save error can carry, in the order the reason lists them. */
  function SaveFlags(e: ImportApi.ImportSaveError): seq<bool>
  {
    [e.fileNotReady, e.notExistedCloneImageId.Some?, e.notExistedCollectionId.Some?,
     e.notExistedBookIds.Some?, e.notExistedFolderIds.Some?]
  }

  /** The messages of the problems present: message `i` is included iff flag `i` is set,
      at the position given by the number of set flags before it, and nothing else is. */
  function SaveReasonParts(e: ImportApi.ImportSaveError): (parts: seq<string>)
    ensures |parts| == Text.CountTrue(SaveFlags(e))
    ensures forall i :: 0 <= i < 5 && SaveFlags(e)[i] ==>
              Text.CountTrue(SaveFlags(e)[..i]) < |parts| && parts[Text.CountTrue(SaveFlags(e)[..i])] == SaveFlagMessages[i]
    ensures forall m :: m in parts ==> exists i :: 0 <= i < 5 && SaveFlags(e)[i] && SaveFlagMessages[i] == m
  {
    Text.Select(SaveFlags(e), SaveFlagMessages)
  }

  /** The reason printed for a failed save: the present problems' messages joined by a
      single space. */
  function SaveReason(e: ImportApi.ImportSaveError): string
  {
    Text.Join(SaveReasonParts(e), " ")
  }

  /** A save error with no problem flagged prints an empty reason, and one with problems
      prints their messages plus exactly one space between neighbours. */
  lemma SaveReasonLength(e: ImportApi.ImportSaveError)
    ensures SaveReason(e) == "" <==> Text.CountTrue(SaveFlags(e)) == 0
    ensures Text.CountTrue(SaveFlags(e)) > 0 ==>
      |SaveReason(e)| == Text.TotalLength(SaveReasonParts(e)) + Text.CountTrue(SaveFlags(e)) - 1
  {
    var parts := SaveReasonParts(e);
    if parts != [] {
      Text.JoinLength(parts, " ");
      forall m | m in parts ensures m in SaveFlagMessages {
        var i :| 0 <= i < 5 && SaveFlags(e)[i] && SaveFlagMessages[i] == m;
      }
      PartLengthPositive(parts, 0);
      assert parts[0..] == parts;
    }
  }

  lemma PartLengthPositive(parts: seq<string>, k: nat)
    requires k <= |parts|
    requires forall m :: m in parts ==> m in SaveFlagMessages
    ensures Text.TotalLength(parts[k..]) >= |parts| - k
    decreases |parts| - k
  {
    if k < |parts| {
      assert parts[k] in SaveFlagMessages;
      assert parts[k..][1..] == parts[k + 1..];
      PartLengthPositive(parts, k + 1);
    }
  }

  const SavedSuffix := " item(s) saved."
  const FailedSuffix := " item(s) save failed."

  /** The save summary: the saved count, and the failed count only when some failed. */
  function SaveSummary(total: int, failures: nat): (s: string)
    ensures Text.StartsWith(s, Text.IntToString(total) + SavedSuffix)
    ensures failures == 0 <==> s == Text.IntToString(total) + SavedSuffix
  {
    var saved := Text.IntToString(total) + SavedSuffix;
    if failures > 0 then saved + " " + Text.IntToString(failures) + FailedSuffix
    else saved
  }

  /** When some items failed, the summary goes on, after one space, with a number that
      reads back as exactly the failure count, and ends with the failure text. */
  lemma SaveSummaryCountsFailures(total: int, failures: nat)
    requires failures > 0
    ensures var s := SaveSummary(total, failures);
      var head := Text.IntToString(total) + SavedSuffix + " ";
      && |head| + |FailedSuffix| <= |s|
      && s[..|head|] == head
      && s[|s| - |FailedSuffix|..] == FailedSuffix
      && Text.ParseInt(s[|head|..|s| - |FailedSuffix|]) == Some(failures)
  {
    var s := SaveSummary(total, failures);
    var head := Text.IntToString(total) + SavedSuffix + " ";
    var count := Text.IntToString(failures);
    assert s == head + count + FailedSuffix;
    assert s[|head|..|s| - |FailedSuffix|] == count;
    Text.IntToStringRoundTrip(failures);
  }

  function SaveReasons(errors: seq<ImportApi.ImportSaveError>): (r: seq<(int, string)>)
    ensures |r| == |errors|
    ensures forall i :: 0 <= i < |errors| ==> r[i] == (errors[i].importId, SaveReason(errors[i]))
  {
    seq(|errors|, i requires 0 <= i < |errors| => (errors[i].importId, SaveReason(errors[i])))
  }

  /** `save`: one save request once a session is acquired; a reason line per failed item,
      and a summary naming the failure count exactly when there are failures. */
  function Save(acquired: Result<(), string>, reply: Result<ImportApi.ImportSaveRes, Http.ReqError>): (r: Run)
    ensures r.connects
    ensures acquired.Failure? ==> r.calls == [] && r.report == NotConnected(ConnectFailurePrefix + acquired.error)
    ensures acquired.Success? ==> r.calls == [ImportApi.SaveCall()]
    ensures acquired.Success? && reply.Failure? ==> r.report == RequestFailed(reply.error)
    ensures acquired.Success? && reply.Success? ==>
      && r.report == SaveReport(SaveReasons(reply.value.errors), SaveSummary(reply.value.total, |reply.value.errors|))
  {
    match acquired
    case Failure(e) => Run(true, [], NotConnected(ConnectFailurePrefix + e))
    case Success(_) =>
      match reply
      case Failure(e) => Run(true, [ImportApi.SaveCall()], RequestFailed(e))
      case Success(res) =>
        Run(true, [ImportApi.SaveCall()], SaveReport(SaveReasons(res.errors), SaveSummary(res.total, |res.errors|)))
  }

  /** In every import command that contacts the server, a failed acquisition sends no API
      call and reports the connection error, whatever the server would have answered. */
  lemma FailedAcquisitionSendsNothing(e: string, files: seq<string>, remove: bool,
                                      replies: seq<Result<Http.IdWithWarning, Http.ReqError>>,
                                      partition: Option<Dates.Date>, create: Option<ImportApi.OrderTimeType>,
                                      order: Option<ImportApi.OrderTimeType>, analyse: bool,
                                      listReply: Result<Http.ListResult<ImportApi.ImportImage>, Http.ReqError>,
                                      batchReply: Result<seq<Http.IdWithWarning>, Http.ReqError>,
                                      saveReply: Result<ImportApi.ImportSaveRes, Http.ReqError>)
    requires |replies| == |files|
    ensures List(Failure(e), listReply) == Run(true, [], NotConnected(ConnectFailurePrefix + e))
    ensures files != [] ==>
      Add(files, remove, Failure(e), replies) == Run(true, [], NotConnected(ConnectFailurePrefix + e))
    ensures BatchRequested(partition, create, order, analyse) ==>
      Batch(partition, create, order, analyse, Failure(e), batchReply) == Run(true, [], NotConnected(ConnectFailurePrefix + e))
    ensures Save(Failure(e), saveReply) == Run(true, [], NotConnected(ConnectFailurePrefix + e))
  {
  }

  /** A poll that times out ends `list` with the connection prefix followed by the
      timeout's text, and nothing is requested. */
  lemma TimedOutListReport(leaseText: string, reply: Result<Http.ListResult<ImportApi.ImportImage>, Http.ReqError>)
    ensures var acquired := Server.CommandOutcome(Failure(Server.TimedOut), leaseText);
      && acquired.Some?
      && List(acquired.value, reply) ==
           Run(true, [], NotConnected(ConnectFailurePrefix + Server.TimeoutMessage))
  {
  }
}
