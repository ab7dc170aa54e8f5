/** The import API module (src/module/import.rs): the request each operation sends, with
    its endpoint and JSON body, and the reply shapes. */
module ImportApi {
  import opened Common
  import Json
  import Http
  import Dates

  datatype OrderTimeType = CreateTime | UpdateTime | ImportTime

  /** `to_json_code`: the API's name for an order-time source. */
  function ToJsonCode(t: OrderTimeType): string
  {
    match t
    case CreateTime => "CREATE_TIME"
    case UpdateTime => "UPDATE_TIME"
    case ImportTime => "IMPORT_TIME"
  }

  function FromJsonCode(code: string): Option<OrderTimeType>
  {
    if code == "CREATE_TIME" then Some(CreateTime)
    else if code == "UPDATE_TIME" then Some(UpdateTime)
    else if code == "IMPORT_TIME" then Some(ImportTime)
    else None
  }

  /** Every order-time source's code reads back as that source, so no two share a code. */
  lemma JsonCodeRoundTrip(t: OrderTimeType)
    ensures FromJsonCode(ToJsonCode(t)) == Some(t)
    ensures forall u: OrderTimeType :: ToJsonCode(u) == ToJsonCode(t) ==> u == t
  {
  }

  /** A request of this module before it is resolved against the server's address. */
  datatype ApiCall = ApiCall(verb: Http.Method, path: string, body: Option<Json.Json>)

  const ListPath := "/api/imports"
  const AddPath := "/api/imports/import"
  const BatchPath := "/api/imports/batch-update"
  const SavePath := "/api/imports/save"

  function ListCall(): ApiCall
  {
    ApiCall(Http.Get, ListPath, None)
  }

  function AddBody(file: string, remove: bool): Json.Json
  {
    Json.Obj(map["filepath" := Json.Str(file), "mobileImport" := Json.Bool(remove)])
  }

  function AddCall(file: string, remove: bool): ApiCall
  {
    ApiCall(Http.Post, AddPath, Some(AddBody(file, remove)))
  }

  function CodeOrNull(t: Option<OrderTimeType>): Json.Json
  {
    match t
    case Some(v) => Json.Str(ToJsonCode(v))
    case None => Json.Null
  }

  function DateOrNull(d: Option<Dates.Date>): Json.Json
  {
    match d
    case Some(v) => Json.Str(Dates.Format(v))
    case None => Json.Null
  }

  function BatchBody(partition: Option<Dates.Date>, create: Option<OrderTimeType>, order: Option<OrderTimeType>, analyse: bool): Json.Json
  {
    Json.Obj(map[
      "setCreateTimeBy" := CodeOrNull(create),
      "setOrderTimeBy" := CodeOrNull(order),
      "analyseSource" := Json.Bool(analyse),
      "partitionTime" := DateOrNull(partition)])
  }

  function BatchCall(partition: Option<Dates.Date>, create: Option<OrderTimeType>, order: Option<OrderTimeType>, analyse: bool): ApiCall
  {
    ApiCall(Http.Post, BatchPath, Some(BatchBody(partition, create, order, analyse)))
  }

  /** `save` always sends `{"target": null}`: every pending import is saved. */
  function SaveCall(): ApiCall
  {
    ApiCall(Http.Post, SavePath, Some(Json.Obj(map["target" := Json.Null])))
  }

  /** The batch settings as the server reads them from a batch body. */
  datatype BatchSettings = BatchSettings(
    partition: Option<Dates.Date>, create: Option<OrderTimeType>, order: Option<OrderTimeType>, analyse: bool)

  function ReadCode(j: Json.Json): Option<Option<OrderTimeType>>
  {
    match j
    case Null => Some(None)
    case Str(s) => (match FromJsonCode(s) case Some(t) => Some(Some(t)) case None => None)
    case _ => None
  }

  function ReadDate(j: Json.Json): Option<Option<Dates.Date>>
  {
    match j
    case Null => Some(None)
    case Str(s) => (match Dates.Parse(s) case Some(d) => Some(Some(d)) case None => None)
    case _ => None
  }

  function ReadBatchBody(body: Json.Json): Option<BatchSettings>
  {
    if !body.Obj? then None
    else
      var f := body.fields;
      if "setCreateTimeBy" !in f || "setOrderTimeBy" !in f || "analyseSource" !in f || "partitionTime" !in f
         || !f["analyseSource"].Bool? then None
      else
        match (ReadCode(f["setCreateTimeBy"]), ReadCode(f["setOrderTimeBy"]), ReadDate(f["partitionTime"]))
        case (Some(c), Some(o), Some(p)) => Some(BatchSettings(p, c, o, f["analyseSource"].b))
        case _ => None
  }

  /** The batch request carries every setting faithfully: an absent option is sent as
      null, a present one as its code or its `YYYY-MM-DD` date, and a server reading the
      body recovers exactly the arguments given. */
  lemma BatchBodyRoundTrip(partition: Option<Dates.Date>, create: Option<OrderTimeType>, order: Option<OrderTimeType>, analyse: bool)
    ensures BatchCall(partition, create, order, analyse).path == BatchPath
    ensures ReadBatchBody(BatchCall(partition, create, order, analyse).body.value)
            == Some(BatchSettings(partition, create, order, analyse))
  {
    ReadCodeOrNull(create);
    ReadCodeOrNull(order);
    ReadDateOrNull(partition);
    BatchBodyFields(partition, create, order, analyse);
  }

  /** The four fields of a batch body, each under its own key. */
  lemma BatchBodyFields(partition: Option<Dates.Date>, create: Option<OrderTimeType>, order: Option<OrderTimeType>, analyse: bool)
    ensures var f := BatchBody(partition, create, order, analyse).fields;
      && "setCreateTimeBy" in f && f["setCreateTimeBy"] == CodeOrNull(create)
      && "setOrderTimeBy" in f && f["setOrderTimeBy"] == CodeOrNull(order)
      && "analyseSource" in f && f["analyseSource"] == Json.Bool(analyse)
      && "partitionTime" in f && f["partitionTime"] == DateOrNull(partition)
  {
    assert "setCreateTimeBy"[3] != "setOrderTimeBy"[3];
    assert "analyseSource"[0] != "partitionTime"[0];
  }

  lemma ReadCodeOrNull(t: Option<OrderTimeType>)
    ensures ReadCode(CodeOrNull(t)) == Some(t)
  {
    if t.Some? { JsonCodeRoundTrip(t.value); }
  }

  lemma ReadDateOrNull(d: Option<Dates.Date>)
    ensures ReadDate(DateOrNull(d)) == Some(d)
  {
    if d.Some? { Dates.FormatRoundTrip(d.value); }
  }

  /** Each operation has its own endpoint: only `list` reads, and the three writes go to
      three different paths under `/api/imports`. */
  lemma EndpointsDistinct(file: string, remove: bool, partition: Option<Dates.Date>,
                          create: Option<OrderTimeType>, order: Option<OrderTimeType>, analyse: bool)
    ensures ListCall().verb == Http.Get && ListCall().body.None?
    ensures var calls := [AddCall(file, remove), BatchCall(partition, create, order, analyse), SaveCall()];
      (forall i :: 0 <= i < 3 ==> calls[i].verb == Http.Post && calls[i].body.Some?
                                  && calls[i].path[..|ListPath|] == ListPath)
      && (forall i, j :: 0 <= i < j < 3 ==> calls[i].path != calls[j].path)
  {
  }

  /** The `add` body names the file and asks for a mobile import exactly when the source
      file is to be removed; the `save` body targets nothing in particular. */
  lemma RequestBodies(file: string, remove: bool)
    ensures AddCall(file, remove).body.value.fields["filepath"] == Json.Str(file)
    ensures AddCall(file, remove).body.value.fields["mobileImport"] == Json.Bool(remove)
    ensures SaveCall().body.value.fields.Keys == {"target"} && SaveCall().body.value.fields["target"] == Json.Null
  {
  }

  datatype ImportImage = ImportImage(
    id: int,
    file: string,
    thumbnailFile: Option<string>,
    fileName: Option<string>,
    sourceSite: Option<string>,
    sourceId: Option<int>,
    sourcePart: Option<int>,
    tagme: seq<string>,
    partitionTime: string,
    orderTime: string)

  datatype ImportSaveError = ImportSaveError(
    importId: int,
    fileNotReady: bool,
    notExistedCollectionId: Option<int>,
    notExistedCloneImageId: Option<int>,
    notExistedBookIds: Option<seq<int>>,
    notExistedFolderIds: Option<seq<int>>)

  datatype ImportSaveRes = ImportSaveRes(total: int, errors: seq<ImportSaveError>)
}
