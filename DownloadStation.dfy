/** The Download Station client: the error-code table, the choice of
    endpoint and HTTP verb, task listing with its fallback from API version 2
    to version 1, task creation with destination validation, the preferred
    default destination, statistics, and the simple task actions. Backend
    replies are inputs; whether a shared folder exists is the abstract
    predicate `present`. */
module DownloadStation {
  import opened Wrappers
  import opened Strings
  import opened Transport

  const TaskApi := "SYNO.DownloadStation2.Task"
  const TaskVersion := "2"
  const InfoApi := "SYNO.DownloadStation.Info"
  const StatApi := "SYNO.DownloadStation.Statistic"
  const StatVersion := "1"

  // ---------------------------------------------------------------------
  // Error texts

  /** The table of `_get_error_message`. */
  const ErrorMessages: map<string, string> := map[
    "100" := "Unknown error",
    "101" := "Invalid parameter",
    "102" := "The requested API does not exist",
    "103" := "The requested method does not exist",
    "104" := "The requested version does not support the functionality",
    "105" := "The logged in session does not have permission",
    "106" := "Session timeout",
    "107" := "Session interrupted by duplicate login",
    "120" := "Invalid task id or task not found",
    "400" := "File upload failed",
    "401" := "Max number of tasks reached",
    "402" := "Destination denied",
    "403" := "Destination does not exist",
    "404" := "Invalid task id",
    "405" := "Invalid task action",
    "406" := "No default destination",
    "407" := "Set destination failed",
    "408" := "File does not exist",
    "409" := "Task already exists",
    "410" := "Task already finished"
  ]

  /** `_get_error_message`: the table's text, or "Unknown error: <code>". */
  function ErrorMessage(code: string): string {
    if code in ErrorMessages then ErrorMessages[code] else "Unknown error: " + code
  }

  lemma ErrorMessageExamples()
    ensures ErrorMessage("102") == "The requested API does not exist"
    ensures ErrorMessage("106") == "Session timeout"
    ensures ErrorMessage("410") == "Task already finished"
    ensures ErrorMessage("999") == "Unknown error: 999"
    ensures ErrorMessage("unknown") == "Unknown error: unknown"
  {
  }

  /** Every code outside the table gets the unknown-error text around
      the code itself. */
  lemma UnknownCodeMessage(code: string)
    requires code !in ErrorMessages
    ensures ErrorMessage(code) == "Unknown error: " + code
    ensures StartsWith(ErrorMessage(code), "Unknown error: ")
  {
  }

  /** A code outside the table is echoed in its message. */
  lemma UnknownCodeEchoed(code: string)
    requires code !in ErrorMessages
    ensures Contains(ErrorMessage(code), code)
  {
    UnknownCodeMessage(code);
    var m := ErrorMessage(code);
    assert m[15..][..|code|] == code;
    ContainsAt(m, 15, code);
  }

  const RejectionPrefix := "Download Station API error "

  /** The exception text of `_make_request` for an envelope whose
      `success` is false. */
  function RejectionText(code: string): string {
    RejectionPrefix + code + ": " + ErrorMessage(code)
  }

  /** `_make_request`: the envelope's data or the exception it raises; a
      transport failure is wrapped as a network error. */
  function DsAnswer<D>(r: Reply<D>): (a: Result<D, string>)
    ensures a.Ok? <==> r.Succeeded?
    ensures r.Succeeded? ==> a.value == r.data
    ensures r.NetworkFailure? ==> StartsWith(a.error, "Network error: ")
    ensures r.Rejected? ==> StartsWith(a.error, RejectionPrefix)
  {
    match r
    case NetworkFailure(reason) => Err("Network error: " + reason)
    case Succeeded(d) => Ok(d)
    case Rejected(e) => Err(RejectionText(CodeText(e.code)))
  }

  // ---------------------------------------------------------------------
  // The version-1 fallback of `list_tasks`

  /** The substring test `list_tasks` applies to a version-2 failure. */
  predicate FallsBackToV1(message: string) {
    Contains(message, "doesn't exist") || Contains(message, "102") || Contains(message, "104")
  }

  /** Free of every character the fallback markers could be matched on:
      the last digits of "102" and "104" and the apostrophe of
      "doesn't exist". */
  predicate Unmarked(s: string) {
    '2' !in s && '4' !in s && '\'' !in s
  }

  predicate IsDigit(c: char) {
    '0' <= c <= '9'
  }

  lemma RejectionPrefixUnmarked()
    ensures '1' !in RejectionPrefix && '\'' !in RejectionPrefix
  {
  }

  /** A three-character code contains a three-character pattern only by
      being it. */
  lemma SameLengthContains(code: string, pattern: string)
    requires |code| == |pattern|
    ensures Contains(code, pattern) <==> code == pattern
  {
    if |code| > 0 {
      ShorterNotContains(code[1..], pattern);
    }
  }

  /** A pattern "1x<d>" bracketed as `prefix + code + rest`, where `rest`
      lacks the last character `d`, occurs in the whole text exactly when
      it is the code. */
  lemma PatternIsCode(code: string, rest: string, pattern: string)
    requires |code| == 3 && |pattern| == 3 && pattern[0] == '1' && pattern[2] !in rest
    ensures Contains(RejectionPrefix + code + rest, pattern) <==> code == pattern
  {
    RejectionPrefixUnmarked();
    ContainsInMiddle(RejectionPrefix, code, rest, pattern);
    SameLengthContains(code, pattern);
  }

  /** A rejection whose three-character code and table text carry none of
      the marker characters falls back to version 1 exactly for the codes
      "102" and "104". */
  lemma RejectionFallback(code: string)
    requires |code| == 3 && '\'' !in code && Unmarked(ErrorMessage(code))
    ensures FallsBackToV1(RejectionText(code)) <==> code == "102" || code == "104"
  {
    RejectionPrefixUnmarked();
    var rest := ": " + ErrorMessage(code);
    var m := RejectionText(code);
    assert m == RejectionPrefix + code + rest;
    assert '\'' !in m;
    assert "doesn't exist"[5] == '\'';
    MissingCharNotContains(m, "doesn't exist", '\'');
    PatternIsCode(code, rest, "102");
    PatternIsCode(code, rest, "104");
  }

  lemma MethodTextDigitFree()
    ensures '2' !in "The requested method does not exist" && '4' !in "The requested method does not exist"
  {
  }

  lemma MethodTextApostropheFree()
    ensures '\'' !in "The requested method does not exist"
  {
  }

  /** "The requested method does not exist" does not say "doesn't exist":
      a rejection with code 103 is re-raised, not retried. */
  lemma MethodRejectionReraised()
    ensures !FallsBackToV1(RejectionText("103"))
  {
    MethodTextDigitFree();
    MethodTextApostropheFree();
    assert ErrorMessage("103") == "The requested method does not exist";
    RejectionFallback("103");
  }

  /** A session timeout (106) is re-raised too. */
  lemma TimeoutRejectionReraised()
    ensures !FallsBackToV1(RejectionText("106"))
  {
    assert ErrorMessage("106") == "Session timeout";
    assert Unmarked("Session timeout");
    RejectionFallback("106");
  }

  /** Rejections 102 and 104 name their own code, so both are retried. */
  lemma ApiAndVersionRejectionsRetried()
    ensures FallsBackToV1(RejectionText("102")) && FallsBackToV1(RejectionText("104"))
  {
    var m2 := RejectionText("102");
    assert m2[27..][..3] == "102";
    ContainsAt(m2, 27, "102");
    var m4 := RejectionText("104");
    assert m4[27..][..3] == "104";
    ContainsAt(m4, 27, "104");
  }

  /** A transport failure whose text holds none of the three markers is
      re-raised rather than retried. */
  lemma NetworkFallback(reason: string)
    ensures FallsBackToV1("Network error: " + reason) <==> FallsBackToV1(reason)
  {
    var p := "Network error: ";
    ContainsInMiddle(p, reason, "", "doesn't exist");
    ContainsInMiddle(p, reason, "", "102");
    ContainsInMiddle(p, reason, "", "104");
    assert p + reason + "" == p + reason;
  }

  // ---------------------------------------------------------------------
  // Task records

  datatype Detail = Detail(destination: Option<string>, uri: Option<string>, priority: Option<string>)

  /** The `transfer` block; a field missing there is `None`, as Python's
      `transfer.get(key)` yields `None`. */
  datatype Transfer = Transfer(
    sizeDownloaded: Option<int>, sizeUploaded: Option<int>, speedDownload: Option<int>, speedUpload: Option<int>)

  datatype Additional = Additional(detail: Option<Detail>, transfer: Option<Transfer>)

  /** One entry of the backend's `tasks` list. */
  datatype BackendTask = BackendTask(
    id: Option<string>, taskType: Option<string>, title: Option<string>, size: Option<int>,
    status: Option<string>, additional: Option<Additional>)

  /** The record `list_tasks` returns per task: the detail and transfer keys
      are present only when the backend sent those blocks. */
  datatype TaskRecord = TaskRecord(
    id: Option<string>, taskType: Option<string>, title: Option<string>, size: Option<int>,
    status: Option<string>, detail: Option<Detail>, transfer: Option<Transfer>)

  function TaskRecordOf(t: BackendTask): (r: TaskRecord)
    ensures r.detail.Some? <==> t.additional.Some? && t.additional.value.detail.Some?
    ensures r.transfer.Some? <==> t.additional.Some? && t.additional.value.transfer.Some?
    ensures r.id == t.id && r.title == t.title && r.status == t.status
  {
    var detail := if t.additional.Some? then t.additional.value.detail else None;
    var transfer := if t.additional.Some? then t.additional.value.transfer else None;
    TaskRecord(t.id, t.taskType, t.title, t.size, t.status, detail, transfer)
  }

  /** The `data` of a `list` reply; a missing `tasks` is the empty list. */
  datatype TaskListData = TaskListData(total: Option<int>, offset: Option<int>, tasks: seq<BackendTask>)

  /** The dictionary `list_tasks` returns. */
  datatype TaskList = TaskList(total: int, offset: int, tasks: seq<TaskRecord>)

  /** The loop of `list_tasks` that builds one record per backend task. */
  method CollectTasks(ts: seq<BackendTask>) returns (tasks: seq<TaskRecord>)
    ensures |tasks| == |ts|
    ensures forall i :: 0 <= i < |ts| ==> tasks[i] == TaskRecordOf(ts[i])
  {
    tasks := [];
    var i := 0;
    while i < |ts|
      invariant i <= |ts| && |tasks| == i
      invariant forall j :: 0 <= j < i ==> tasks[j] == TaskRecordOf(ts[j])
    {
      tasks := tasks + [TaskRecordOf(ts[i])];
      i := i + 1;
    }
  }

  /** The records of all backend tasks, in order. */
  function TaskRecords(ts: seq<BackendTask>): (r: seq<TaskRecord>)
    ensures |r| == |ts| && forall i :: 0 <= i < |ts| ==> r[i] == TaskRecordOf(ts[i])
  {
    seq(|ts|, i requires 0 <= i < |ts| => TaskRecordOf(ts[i]))
  }

  /** The `limit` sent: the caller's when positive, else 100. */
  function SentLimit(limit: int): (n: int)
    ensures n > 0
    ensures limit > 0 ==> n == limit
    ensures limit <= 0 ==> n == 100
  {
    if limit > 0 then limit else 100
  }

  /** The dictionary built from a successful `list` reply. */
  function ListedTasks(offset: int, d: TaskListData): (r: TaskList)
    ensures |r.tasks| == |d.tasks| && forall i :: 0 <= i < |d.tasks| ==> r.tasks[i] == TaskRecordOf(d.tasks[i])
    ensures r.total == d.total.GetOr(|d.tasks|) && r.offset == d.offset.GetOr(offset)
  {
    TaskList(d.total.GetOr(|d.tasks|), d.offset.GetOr(offset), TaskRecords(d.tasks))
  }

  /** What `list_tasks` returns or raises, given the version-2 reply and,
      when it is consulted, the version-1 reply. */
  function ListOutcome(offset: int, v2: Reply<TaskListData>, v1: Reply<TaskListData>): Result<TaskList, string> {
    match DsAnswer(v2)
    case Ok(d) => Ok(ListedTasks(offset, d))
    case Err(m) =>
      if !FallsBackToV1(m) then Err(m)
      else
        match DsAnswer(v1)
        case Ok(d) => Ok(ListedTasks(offset, d))
        case Err(_) => Ok(TaskList(0, offset, []))
  }

  /** The fallback rule: a version-2 failure is re-raised unless its text
      names one of the markers; then version 1 answers, and if it fails too
      the result is an empty list at the caller's offset. */
  lemma ListFallbackRule(offset: int, v2: Reply<TaskListData>, v1: Reply<TaskListData>)
    ensures DsAnswer(v2).Ok? ==> ListOutcome(offset, v2, v1) == Ok(ListedTasks(offset, DsAnswer(v2).value))
    ensures DsAnswer(v2).Err? && !FallsBackToV1(DsAnswer(v2).error) ==>
      ListOutcome(offset, v2, v1) == Err(DsAnswer(v2).error)
    ensures DsAnswer(v2).Err? && FallsBackToV1(DsAnswer(v2).error) ==> ListOutcome(offset, v2, v1).Ok?
    ensures DsAnswer(v2).Err? && FallsBackToV1(DsAnswer(v2).error) && DsAnswer(v1).Err? ==>
      ListOutcome(offset, v2, v1) == Ok(TaskList(0, offset, []))
  {
  }

  /** A rejection carrying a code is answered by that code's rejection text. */
  lemma RejectedAnswer<D>(r: Reply<D>, code: string)
    requires r.Rejected? && r.error.code == Some(code)
    ensures DsAnswer(r) == Err(RejectionText(code))
  {
  }

  /** A version-2 rejection with code 103 is re-raised by `list_tasks`. */
  lemma MethodRejectionListing(offset: int, v1: Reply<TaskListData>)
    ensures ListOutcome(offset, Rejected(ApiError(Some("103"), None)), v1) == Err(RejectionText("103"))
  {
    var v2: Reply<TaskListData> := Rejected(ApiError(Some("103"), None));
    RejectedAnswer(v2, "103");
    MethodRejectionReraised();
    ListFallbackRule(offset, v2, v1);
  }

  /** A version-2 rejection with code 102 is answered by version 1, or by
      the empty list when version 1 fails too. */
  lemma ApiRejectionListing(offset: int, v1: Reply<TaskListData>)
    ensures ListOutcome(offset, Rejected(ApiError(Some("102"), None)), v1).Ok?
  {
    var v2: Reply<TaskListData> := Rejected(ApiError(Some("102"), None));
    RejectedAnswer(v2, "102");
    ApiAndVersionRejectionsRetried();
    ListFallbackRule(offset, v2, v1);
  }

  // ---------------------------------------------------------------------
  // Destinations

  /** The entries of `get_common_destinations()[1:]`, probed in this order. */
  const Alternatives: seq<string> := ["video", "music", "software", "documents", "photos", "backup"]

  /** The first entry of `ds` that exists. */
  function FirstExisting(ds: seq<string>, present: string -> bool): (r: Option<string>)
    ensures r.None? <==> forall i :: 0 <= i < |ds| ==> !present(ds[i])
    ensures r.Some? ==> r.value in ds && present(r.value)
  {
    if ds == [] then None
    else if present(ds[0]) then Some(ds[0])
    else
      assert forall i :: 1 <= i < |ds| ==> ds[i] == ds[1..][i - 1];
      FirstExisting(ds[1..], present)
  }

  /** Every entry before the chosen one is missing. */
  lemma {:induction false} FirstExistingIsFirst(ds: seq<string>, present: string -> bool)
    requires FirstExisting(ds, present).Some?
    ensures exists k :: (0 <= k < |ds| && ds[k] == FirstExisting(ds, present).value
                         && forall j :: 0 <= j < k ==> !present(ds[j]))
  {
    if !present(ds[0]) {
      FirstExistingIsFirst(ds[1..], present);
      var k :| 0 <= k < |ds| - 1 && ds[1..][k] == FirstExisting(ds[1..], present).value
        && forall j :: 0 <= j < k ==> !present(ds[1..][j]);
      assert ds[k + 1] == FirstExisting(ds, present).value;
      assert forall j :: 0 <= j < k + 1 ==> !present(ds[j]) by {
        forall j | 0 <= j < k + 1 ensures !present(ds[j]) {
          if j > 0 { assert ds[j] == ds[1..][j - 1]; }
        }
      }
    } else {
      assert ds[0] == FirstExisting(ds, present).value;
    }
  }

  /** What `get_default_destination` returns for a preferred destination. */
  function DefaultDestination(preferred: string, present: string -> bool): (d: string)
    ensures present(preferred) ==> d == preferred
    ensures present(d) <==> present(preferred) || exists i :: 0 <= i < |Alternatives| && present(Alternatives[i])
    ensures !present(preferred) && (forall i :: 0 <= i < |Alternatives| ==> !present(Alternatives[i])) ==> d == preferred
    ensures !present(preferred) && (exists i :: 0 <= i < |Alternatives| && present(Alternatives[i])) ==>
      exists k :: 0 <= k < |Alternatives| && d == Alternatives[k] && forall j :: 0 <= j < k ==> !present(Alternatives[j])
  {
    if present(preferred) then preferred
    else
      var first := FirstExisting(Alternatives, present);
      if first.Some? then
        FirstExistingIsFirst(Alternatives, present);
        first.value
      else preferred
  }

  /** The entries of `ds` that exist, in order: the suggestion list. */
  function Existing(ds: seq<string>, present: string -> bool): (r: seq<string>)
    ensures forall x :: x in r <==> x in ds && present(x)
    ensures |r| <= |ds|
  {
    if ds == [] then [] else (if present(ds[0]) then [ds[0]] else []) + Existing(ds[1..], present)
  }

  /** The suggestion list keeps the order of `ds`. */
  lemma {:induction false} ExistingSnoc(ds: seq<string>, d: string, present: string -> bool)
    ensures Existing(ds + [d], present) == Existing(ds, present) + (if present(d) then [d] else [])
  {
    if ds != [] {
      assert (ds + [d])[1..] == ds[1..] + [d];
      ExistingSnoc(ds[1..], d, present);
    } else {
      assert [d][1..] == [];
    }
  }

  /** The exception `create_task` raises for a missing destination. */
  function MissingDestination(dest: string, suggestions: seq<string>): string {
    "Destination folder '" + dest + "' does not exist on the NAS."
      + if suggestions != [] then " Available folders: " + Join(suggestions, ", ")
        else " Please create the 'downloads' folder first in File Station."
  }

  /** The loop of `create_task` that collects the existing common
      destinations. */
  method Suggestions(common: seq<string>, present: string -> bool) returns (available: seq<string>)
    ensures available == Existing(common, present)
  {
    available := [];
    var i := 0;
    while i < |common|
      invariant i <= |common|
      invariant available == Existing(common[..i], present)
    {
      ExistingSnoc(common[..i], common[i], present);
      assert common[..i + 1] == common[..i] + [common[i]];
      if present(common[i]) {
        available := available + [common[i]];
      }
      i := i + 1;
    }
    assert common[..i] == common;
  }

  // ---------------------------------------------------------------------
  // Statistics

  /** The statistics `get_statistics` returns: the backend's own figures,
      figures summed over the task list, or the "not available" record. */
  datatype Statistics =
    | Reported(speedDownload: int, speedUpload: int, emuleSpeedDownload: int, emuleSpeedUpload: int)
    | Calculated(speedDownload: int, speedUpload: int)
    | Unavailable

  datatype StatData = StatData(
    speedDownload: Option<int>, speedUpload: Option<int>,
    emuleSpeedDownload: Option<int>, emuleSpeedUpload: Option<int>)

  /** `task.get('speed_download', 0)` on a task record: 0 when the record
      has no transfer keys, the transfer's value (possibly `None`) otherwise. */
  function DownSpeed(t: TaskRecord): Option<int> {
    if t.transfer.None? then Some(0) else t.transfer.value.speedDownload
  }

  function UpSpeed(t: TaskRecord): Option<int> {
    if t.transfer.None? then Some(0) else t.transfer.value.speedUpload
  }

  /** Python's `sum` over the selected speeds: `None` when one of them is
      `None`, which makes `sum` raise. */
  function SumSpeeds(ts: seq<TaskRecord>, down: bool): (r: Option<int>)
    ensures r.Some? <==> forall i :: 0 <= i < |ts| ==> (if down then DownSpeed(ts[i]) else UpSpeed(ts[i])).Some?
  {
    if ts == [] then Some(0)
    else
      var s := if down then DownSpeed(ts[0]) else UpSpeed(ts[0]);
      var rest := SumSpeeds(ts[1..], down);
      assert forall i :: 1 <= i < |ts| ==> ts[i] == ts[1..][i - 1];
      if s.Some? && rest.Some? then Some(s.value + rest.value) else None
  }

  /** One more task adds its speed to the total. */
  lemma {:induction false} SumSpeedsSnoc(ts: seq<TaskRecord>, t: TaskRecord, down: bool)
    requires SumSpeeds(ts, down).Some?
    requires (if down then DownSpeed(t) else UpSpeed(t)).Some?
    ensures SumSpeeds(ts + [t], down)
      == Some(SumSpeeds(ts, down).value + (if down then DownSpeed(t) else UpSpeed(t)).value)
  {
    if ts == [] {
      assert [t][1..] == [];
    } else {
      assert (ts + [t])[1..] == ts[1..] + [t];
      SumSpeedsSnoc(ts[1..], t, down);
    }
  }

  /** Tasks without a transfer block contribute nothing. */
  lemma {:induction false} SumSpeedsNoTransfer(ts: seq<TaskRecord>, down: bool)
    requires forall i :: 0 <= i < |ts| ==> ts[i].transfer.None?
    ensures SumSpeeds(ts, down) == Some(0)
  {
    if ts != [] {
      SumSpeedsNoTransfer(ts[1..], down);
    }
  }

  /** The fallback of `get_statistics` once the task list is known. */
  function SummedStatistics(listed: Result<TaskList, string>): Statistics {
    if listed.Err? then Unavailable
    else
      var down := SumSpeeds(listed.value.tasks, true);
      var up := SumSpeeds(listed.value.tasks, false);
      if down.Some? && up.Some? then Calculated(down.value, up.value) else Unavailable
  }

  // ---------------------------------------------------------------------
  // The client

  /** The creation data the client hands back unchanged. */
  datatype CreateData = CreateData(taskIds: seq<string>, listIds: seq<string>)

  /** Optional credentials are sent only when non-empty (Python truthiness). */
  function OptionalParams(username: Option<string>, password: Option<string>): seq<(string, Param)> {
    (if username.Some? && username.value != "" then [("username", Text(username.value))] else [])
      + (if password.Some? && password.value != "" then [("password", Text(password.value))] else [])
  }

  function CreateFailure(v2Error: string): string {
    "Task creation failed: " + v2Error + ". Make sure the URL is valid and you have permission to create downloads."
  }

  /** The `id` parameter of the task actions. */
  function IdList(ids: seq<string>): string {
    Join(ids, ",")
  }

  /** The backend can split the joined ids back into the list, provided the
      list is non-empty and no id holds a comma. */
  lemma IdListRoundTrip(ids: seq<string>)
    requires |ids| > 0 && forall i :: 0 <= i < |ids| ==> ',' !in ids[i]
    ensures Split(IdList(ids), ',') == ids
  {
    SplitJoin(ids, ',');
  }

  class SynologyDownloadStation {
    const baseUrl: string
    const sessionId: string
    var preferredDefaultDestination: string

    constructor (url: string, sid: string)
      ensures baseUrl == TrimTrailing(url, '/') && sessionId == sid
      ensures preferredDefaultDestination == "downloads"
    {
      baseUrl := TrimTrailing(url, '/');
      sessionId := sid;
      preferredDefaultDestination := "downloads";
    }

    function ApiUrl(): string {
      baseUrl + "/webapi/entry.cgi"
    }

    /** The endpoint `_make_request` posts to, chosen by the API name alone. */
    function Endpoint(api: string): string {
      if StartsWith(api, "SYNO.DownloadStation2") then ApiUrl()
      else if api == InfoApi then baseUrl + "/webapi/DownloadStation/info.cgi"
      else if api == StatApi then baseUrl + "/webapi/DownloadStation/statistic.cgi"
      else ApiUrl()
    }

    /** One request of this client: POST exactly for `create`. */
    function Request(api: string, version: string, apiMethod: string, params: seq<(string, Param)>): (c: Call)
      ensures c.verb == Post <==> apiMethod == "create"
      ensures c.api == api && c.version == version && c.apiMethod == apiMethod && c.sid == sessionId
    {
      Call(if apiMethod == "create" then Post else Get, Endpoint(api), api, version, apiMethod, sessionId, params)
    }

    /** The endpoint depends on the API name only: task calls go to
      `entry.cgi` whatever their method or version. */
    lemma EndpointChoice(api: string)
      ensures StartsWith(api, "SYNO.DownloadStation2") ==> Endpoint(api) == ApiUrl()
      ensures Endpoint(InfoApi) == baseUrl + "/webapi/DownloadStation/info.cgi"
      ensures Endpoint(StatApi) == baseUrl + "/webapi/DownloadStation/statistic.cgi"
      ensures api != InfoApi && api != StatApi ==> Endpoint(api) == ApiUrl()
    {
      assert !StartsWith(InfoApi, "SYNO.DownloadStation2") by { assert InfoApi[20] != '2'; }
      assert !StartsWith(StatApi, "SYNO.DownloadStation2") by { assert StatApi[20] != '2'; }
    }

    function ListCallV2(offset: int, limit: int, additional: Option<string>): Call {
      var extra := if additional.Some? && additional.value != "" then additional.value else "detail,transfer";
      Request(TaskApi, TaskVersion, "list",
        [("offset", Number(offset)), ("limit", Number(SentLimit(limit))), ("additional", Text(extra))])
    }

    function ListCallV1(offset: int, limit: int): Call {
      Request(TaskApi, "1", "list", [("offset", Number(offset)), ("limit", Number(SentLimit(limit)))])
    }

    /** `list_tasks`: version 2 first; version 1 with only offset and limit
      when the failure text calls for it. */
    method ListTasks(offset: int, limit: int, additional: Option<string>,
                     v2: Reply<TaskListData>, v1: Reply<TaskListData>)
      returns (r: Result<TaskList, string>, sent: seq<Call>)
      ensures r == ListOutcome(offset, v2, v1)
      ensures sent == [ListCallV2(offset, limit, additional)]
        + (if DsAnswer(v2).Err? && FallsBackToV1(DsAnswer(v2).error) then [ListCallV1(offset, limit)] else [])
    {
      sent := [ListCallV2(offset, limit, additional)];
      var data: TaskListData;
      match DsAnswer(v2) {
        case Ok(d) =>
          data := d;
        case Err(m) =>
          if !FallsBackToV1(m) {
            r := Err(m);
            return;
          }
          sent := sent + [ListCallV1(offset, limit)];
          match DsAnswer(v1) {
            case Ok(d) =>
              data := d;
            case Err(_) =>
              r := Ok(TaskList(0, offset, []));
              return;
          }
      }
      var tasks := CollectTasks(data.tasks);
      assert tasks == TaskRecords(data.tasks);
      r := Ok(TaskList(data.total.GetOr(|tasks|), data.offset.GetOr(offset), tasks));
    }

    function CommonDestinations(): (ds: seq<string>)
      reads this
      ensures ds == [preferredDefaultDestination] + Alternatives
    {
      [preferredDefaultDestination] + Alternatives
    }

    /** `get_default_destination`: the preferred destination if it exists,
      else the first existing alternative, else the preferred one anyway. */
    method GetDefaultDestination(present: string -> bool) returns (d: string)
      ensures d == DefaultDestination(preferredDefaultDestination, present)
    {
      if present(preferredDefaultDestination) {
        return preferredDefaultDestination;
      }
      var rest := CommonDestinations()[1..];
      assert rest == Alternatives;
      var i := 0;
      while i < |rest|
        invariant i <= |rest|
        invariant FirstExisting(rest, present) == FirstExisting(rest[i..], present)
      {
        if present(rest[i]) {
          return rest[i];
        }
        assert rest[i..][1..] == rest[i + 1..];
        i := i + 1;
      }
      return preferredDefaultDestination;
    }

    function CreateCallV2(uri: string, dest: string, username: Option<string>, password: Option<string>): Call {
      Request(TaskApi, TaskVersion, "create",
        [("type", Text("url")), ("destination", Text(dest)), ("create_list", Text("true")), ("url", JsonArray(uri))]
          + OptionalParams(username, password))
    }

    function CreateCallV1(uri: string, dest: string, username: Option<string>, password: Option<string>): Call {
      Request(TaskApi, "1", "create", [("uri", Text(uri)), ("destination", Text(dest))] + OptionalParams(username, password))
    }

    /** The destination `create_task` uses: the caller's, unless it is
      missing or empty. */
    function ChosenDestination(destination: Option<string>, present: string -> bool): string
      reads this
    {
      if destination.Some? && destination.value != "" then destination.value
      else DefaultDestination(preferredDefaultDestination, present)
    }

    /** The submission half of `create_task`: a version-2 create, and on any
      failure of it one version-1 create whose own failure is reported with
      the version-2 error. */
    function CreateOutcome(uri: string, dest: string, username: Option<string>, password: Option<string>,
                           v2: Reply<CreateData>, v1: Reply<CreateData>): Run<CreateData>
    {
      var first := CreateCallV2(uri, dest, username, password);
      match DsAnswer(v2)
      case Ok(d) => Run(Ok(d), [first])
      case Err(e) =>
        Run(if DsAnswer(v1).Ok? then DsAnswer(v1) else Err(CreateFailure(e)),
            [first, CreateCallV1(uri, dest, username, password)])
    }

    /** Version 1 is tried after every version-2 failure, whatever its
      text, and never after a success; when both fail, the version-2 error
      is the one reported. */
    lemma CreateFallbackRule(uri: string, dest: string, username: Option<string>, password: Option<string>,
                             v2: Reply<CreateData>, v1: Reply<CreateData>)
      ensures var run := CreateOutcome(uri, dest, username, password, v2, v1);
        && (|run.sent| == 2 <==> !v2.Succeeded?)
        && (v2.Succeeded? ==> run.result == Ok(v2.data))
        && (!v2.Succeeded? && v1.Succeeded? ==> run.result == Ok(v1.data))
    {
    }

    lemma CreateFailureRule(uri: string, dest: string, username: Option<string>, password: Option<string>,
                            v2: Reply<CreateData>, v1: Reply<CreateData>)
      requires !v2.Succeeded? && !v1.Succeeded?
      ensures CreateOutcome(uri, dest, username, password, v2, v1).result == Err(CreateFailure(DsAnswer(v2).error))
    {
    }

    /** Both create requests are POSTs carrying the destination; the
      optional credentials follow the fixed parameters in both. */
    lemma CreateRequestsPost(uri: string, dest: string, username: Option<string>, password: Option<string>)
      ensures var c := CreateCallV2(uri, dest, username, password);
        c.verb == Post && c.version == "2" && ("destination", Text(dest)) in c.params
        && c.params[4..] == OptionalParams(username, password)
      ensures var c := CreateCallV1(uri, dest, username, password);
        c.verb == Post && c.version == "1" && ("destination", Text(dest)) in c.params
        && c.params[2..] == OptionalParams(username, password)
    {
      assert CreateCallV2(uri, dest, username, password).params[1] == ("destination", Text(dest));
      assert CreateCallV1(uri, dest, username, password).params[1] == ("destination", Text(dest));
    }

    /** The destination `create_task` settles on. */
    method ResolveDestination(destination: Option<string>, present: string -> bool) returns (dest: string)
      ensures dest == ChosenDestination(destination, present)
    {
      if destination.Some? && destination.value != "" {
        dest := destination.value;
      } else {
        dest := GetDefaultDestination(present);
      }
    }

    /** The requests of `create_task` once the destination is known to
      exist. */
    method Submit(uri: string, dest: string, username: Option<string>, password: Option<string>,
                  v2: Reply<CreateData>, v1: Reply<CreateData>)
      returns (r: Result<CreateData, string>, sent: seq<Call>)
      ensures Run(r, sent) == CreateOutcome(uri, dest, username, password, v2, v1)
    {
      var c2 := CreateCallV2(uri, dest, username, password);
      var first := DsAnswer(v2);
      if first.Ok? {
        return first, [c2];
      }
      var second := DsAnswer(v1);
      if second.Ok? {
        r := second;
      } else {
        r := Err(CreateFailure(first.error));
      }
      sent := [c2, CreateCallV1(uri, dest, username, password)];
    }

    /** `create_task`: a missing destination is refused before any request,
      with the existing common destinations as suggestions; otherwise the
      requests go out as `CreateOutcome` describes. */
    method CreateTask(uri: string, destination: Option<string>, username: Option<string>, password: Option<string>,
                      present: string -> bool, v2: Reply<CreateData>, v1: Reply<CreateData>)
      returns (r: Result<CreateData, string>, sent: seq<Call>)
      ensures var dest := ChosenDestination(destination, present);
        !present(dest) ==>
          sent == [] && r == Err(MissingDestination(dest, Existing(CommonDestinations(), present)))
      ensures var dest := ChosenDestination(destination, present);
        present(dest) ==> Run(r, sent) == CreateOutcome(uri, dest, username, password, v2, v1)
    {
      var dest := ResolveDestination(destination, present);
      if !present(dest) {
        var available := Suggestions(CommonDestinations(), present);
        r := Err(MissingDestination(dest, available));
        sent := [];
        return;
      }
      r, sent := Submit(uri, dest, username, password, v2, v1);
    }

    /** `set_default_destination`: the preference changes only to an
      existing destination; the result says whether it exists. */
    method SetDefaultDestination(destination: string, present: string -> bool) returns (ok: bool)
      modifies this
      ensures ok == present(destination)
      ensures preferredDefaultDestination == if ok then destination else old(preferredDefaultDestination)
    {
      ok := present(destination);
      if ok {
        preferredDefaultDestination := destination;
      }
    }

    /** `ensure_downloads_folder`: "downloads" becomes the preference when it
      exists; nothing changes otherwise. */
    method EnsureDownloadsFolder(present: string -> bool) returns (ok: bool)
      modifies this
      ensures ok == present("downloads")
      ensures preferredDefaultDestination == if ok then "downloads" else old(preferredDefaultDestination)
    {
      ok := present("downloads");
      if ok {
        preferredDefaultDestination := "downloads";
      }
    }

    function StatCall(): Call {
      Request(StatApi, StatVersion, "getinfo", [])
    }

    /** `get_statistics`: the backend's figures (missing ones are 0); when
      that call fails, the speeds summed over `list_tasks(limit=100)`; and
      "not available" when listing fails or a speed is `None`. */
    method GetStatistics(stat: Reply<StatData>, v2: Reply<TaskListData>, v1: Reply<TaskListData>)
      returns (r: Statistics, sent: seq<Call>)
      ensures DsAnswer(stat).Ok? ==>
        var d := DsAnswer(stat).value;
        && sent == [StatCall()]
        && r == Reported(d.speedDownload.GetOr(0), d.speedUpload.GetOr(0),
                         d.emuleSpeedDownload.GetOr(0), d.emuleSpeedUpload.GetOr(0))
      ensures DsAnswer(stat).Err? ==>
        && |sent| >= 2 && sent[..2] == [StatCall(), ListCallV2(0, 100, None)]
        && r == SummedStatistics(ListOutcome(0, v2, v1))
    {
      match DsAnswer(stat) {
        case Ok(d) =>
          r := Reported(d.speedDownload.GetOr(0), d.speedUpload.GetOr(0),
                        d.emuleSpeedDownload.GetOr(0), d.emuleSpeedUpload.GetOr(0));
          sent := [StatCall()];
        case Err(_) =>
          var listed, listing := ListTasks(0, 100, None, v2, v1);
          sent := [StatCall()] + listing;
          r := SummedStatistics(listed);
      }
    }

    function ActionCall(apiMethod: string, params: seq<(string, Param)>): Call {
      Request(TaskApi, TaskVersion, apiMethod, params)
    }

    /** `delete_tasks`: one GET carrying the comma-joined ids. */
    function DeleteTasks<D>(ids: seq<string>, forceComplete: bool, reply: Reply<D>): (run: Run<D>)
      ensures run.sent == [ActionCall("delete", [("id", Text(IdList(ids))), ("force_complete", Flag(forceComplete))])]
      ensures run.sent[0].verb == Get
      ensures run.result.Ok? <==> reply.Succeeded?
      ensures run.result == DsAnswer(reply)
    {
      Run(DsAnswer(reply), [ActionCall("delete", [("id", Text(IdList(ids))), ("force_complete", Flag(forceComplete))])])
    }

    function PauseTasks<D>(ids: seq<string>, reply: Reply<D>): (run: Run<D>)
      ensures run.sent == [ActionCall("pause", [("id", Text(IdList(ids)))])]
      ensures run.result.Ok? <==> reply.Succeeded?
      ensures run.result == DsAnswer(reply)
    {
      Run(DsAnswer(reply), [ActionCall("pause", [("id", Text(IdList(ids)))])])
    }

    function ResumeTasks<D>(ids: seq<string>, reply: Reply<D>): (run: Run<D>)
      ensures run.sent == [ActionCall("resume", [("id", Text(IdList(ids)))])]
      ensures run.result.Ok? <==> reply.Succeeded?
      ensures run.result == DsAnswer(reply)
    {
      Run(DsAnswer(reply), [ActionCall("resume", [("id", Text(IdList(ids)))])])
    }
  }
}
