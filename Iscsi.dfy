/** The iSCSI (SAN Manager) client: LUN and target listings with their
    defaults, the single-LUN query, deletion guarded by the LUN's mapping
    state, and unmapping. The client never changes after construction, so
    it is a value and its operations are functions of the replies they
    receive. */
module Iscsi {
  import opened Wrappers
  import opened Strings
  import opened Transport

  const LunApi := "SYNO.Core.ISCSI.LUN"
  const TargetApi := "SYNO.Core.ISCSI.Target"
  const IscsiPrefix := "Synology iSCSI API error: "

  /** One LUN as the backend describes it; a key it leaves out is `None`. */
  datatype BackendLun = BackendLun(
    uuid: Option<string>, name: Option<string>, size: Option<int>, status: Option<string>,
    usedSize: Option<int>, location: Option<string>, isMapped: Option<bool>, isOnline: Option<bool>,
    lunType: Option<string>, thinProvisioning: Option<bool>,
    targets: Option<seq<string>>, canDoSnapshot: Option<bool>, isActionLocked: Option<bool>)

  /** `lun.get(...)` on an empty object: every key missing. */
  const AbsentLun := BackendLun(None, None, None, None, None, None, None, None, None, None, None, None, None)

  /** The record `list_luns` returns per LUN (the rounded gigabyte figures
      are not part of this model). */
  datatype LunRecord = LunRecord(
    uuid: Option<string>, name: Option<string>, size: int, status: Option<string>,
    usedSize: int, location: Option<string>, isMapped: bool, isOnline: bool,
    lunType: Option<string>, thinProvisioning: bool)

  /** The record `get_lun` returns: the listing fields and three more. */
  datatype LunDetail = LunDetail(summary: LunRecord, targets: seq<string>, canDoSnapshot: bool, isActionLocked: bool)

  datatype BackendTarget = BackendTarget(
    targetId: Option<string>, name: Option<string>, iqn: Option<string>, status: Option<string>,
    mappedLuns: Option<seq<string>>, connectedSessions: Option<int>)

  datatype TargetRecord = TargetRecord(
    targetId: Option<string>, name: Option<string>, iqn: Option<string>, status: Option<string>,
    mappedLuns: seq<string>, connectedSessions: int)

  /** The `data` of the replies; a missing list is the empty list and a
      missing `lun` object is `None`. */
  datatype LunListData = LunListData(luns: seq<BackendLun>)
  datatype LunData = LunData(lun: Option<BackendLun>)
  datatype TargetListData = TargetListData(targets: seq<BackendTarget>)
  datatype NoData = NoData

  datatype DeleteRecord = DeleteRecord(uuid: string, message: string)
  datatype UnmapRecord = UnmapRecord(lunUuid: string, targetId: string, message: string)

  function LunRecordOf(l: BackendLun): LunRecord {
    LunRecord(l.uuid, l.name, l.size.GetOr(0), l.status, l.usedSize.GetOr(0), l.location,
              l.isMapped.GetOr(false), l.isOnline.GetOr(false), l.lunType, l.thinProvisioning.GetOr(false))
  }

  function LunDetailOf(l: BackendLun): LunDetail {
    LunDetail(LunRecordOf(l), l.targets.GetOr([]), l.canDoSnapshot.GetOr(false), l.isActionLocked.GetOr(false))
  }

  function TargetRecordOf(t: BackendTarget): TargetRecord {
    TargetRecord(t.targetId, t.name, t.iqn, t.status, t.mappedLuns.GetOr([]), t.connectedSessions.GetOr(0))
  }

  /** The defaults a record takes for keys the backend leaves out; the
      keys it does send are kept. */
  lemma RecordDefaults(l: BackendLun, t: BackendTarget)
    ensures LunRecordOf(AbsentLun) == LunRecord(None, None, 0, None, 0, None, false, false, None, false)
    ensures LunDetailOf(AbsentLun).targets == [] && !LunDetailOf(AbsentLun).canDoSnapshot
    ensures !LunDetailOf(AbsentLun).isActionLocked
    ensures t.mappedLuns.None? ==> TargetRecordOf(t).mappedLuns == []
    ensures t.mappedLuns.Some? ==> TargetRecordOf(t).mappedLuns == t.mappedLuns.value
    ensures t.connectedSessions.None? ==> TargetRecordOf(t).connectedSessions == 0
    ensures t.connectedSessions.Some? ==> TargetRecordOf(t).connectedSessions == t.connectedSessions.value
    ensures var r := LunRecordOf(l);
      && r.uuid == l.uuid && r.name == l.name && r.status == l.status && r.location == l.location
      && r.lunType == l.lunType
    ensures l.size.None? ==> LunRecordOf(l).size == 0
    ensures l.size.Some? ==> LunRecordOf(l).size == l.size.value
    ensures l.usedSize.None? ==> LunRecordOf(l).usedSize == 0
    ensures l.usedSize.Some? ==> LunRecordOf(l).usedSize == l.usedSize.value
    ensures l.isMapped.None? ==> !LunRecordOf(l).isMapped
    ensures l.isMapped.Some? ==> LunRecordOf(l).isMapped == l.isMapped.value
    ensures l.isOnline.None? ==> !LunRecordOf(l).isOnline
    ensures l.isOnline.Some? ==> LunRecordOf(l).isOnline == l.isOnline.value
    ensures l.thinProvisioning.None? ==> !LunRecordOf(l).thinProvisioning
    ensures l.thinProvisioning.Some? ==> LunRecordOf(l).thinProvisioning == l.thinProvisioning.value
    ensures l.targets.None? ==> LunDetailOf(l).targets == []
    ensures l.targets.Some? ==> LunDetailOf(l).targets == l.targets.value
    ensures l.canDoSnapshot.None? ==> !LunDetailOf(l).canDoSnapshot
    ensures l.canDoSnapshot.Some? ==> LunDetailOf(l).canDoSnapshot == l.canDoSnapshot.value
    ensures l.isActionLocked.None? ==> !LunDetailOf(l).isActionLocked
    ensures l.isActionLocked.Some? ==> LunDetailOf(l).isActionLocked == l.isActionLocked.value
    ensures LunDetailOf(l).summary == LunRecordOf(l)
  {
  }

  /** The message `delete_lun` raises for a mapped LUN, in the two parts
      the source writes it in. */
  function StillMapped(uuid: string): string {
    "LUN " + uuid + StillMappedTail
  }

  const MappedPart := " is still mapped to targets. "
  const UnmapPart := "Unmap it first before deletion."
  const StillMappedTail := MappedPart + UnmapPart

  lemma StillMappedTailPlain()
    ensures 'S' !in StillMappedTail
  {
    assert 'S' !in MappedPart;
    assert 'S' !in UnmapPart;
  }

  /** The message wrapping a failure that mentions an iSCSI API error. */
  function NotFound(uuid: string, cause: string): string {
    "LUN " + uuid + " not found or inaccessible: " + cause
  }

  const ApiErrorMarker := "iSCSI API error"

  /** Every rejection message of this client names an iSCSI API error. */
  lemma RejectionMentionsMarker(e: ApiError)
    ensures Contains(ApiErrorMessage(IscsiPrefix, e), ApiErrorMarker)
  {
    var m := ApiErrorMessage(IscsiPrefix, e);
    assert IscsiPrefix[9..] == ApiErrorMarker + ": ";
    assert m[9..][..15] == ApiErrorMarker;
    ContainsAt(m, 9, ApiErrorMarker);
  }

  /** The "still mapped" message mentions an iSCSI API error only through
      the uuid: a uuid without a capital 'S' never does... */
  lemma StillMappedUnmarked(uuid: string)
    requires 'S' !in uuid
    ensures !Contains(StillMapped(uuid), ApiErrorMarker)
  {
    StillMappedTailPlain();
    assert 'S' !in "LUN ";
    assert ApiErrorMarker[1] == 'S';
    MissingCharNotContains(StillMapped(uuid), ApiErrorMarker, 'S');
  }

  /** ...and a uuid that mentions one makes the message mention it. */
  lemma StillMappedMarked(uuid: string)
    requires Contains(uuid, ApiErrorMarker)
    ensures Contains(StillMapped(uuid), ApiErrorMarker)
  {
    ContainsWithin("LUN ", uuid, StillMappedTail, ApiErrorMarker);
  }

  /** The reported failure of the pre-deletion check: messages that
      mention an iSCSI API error are wrapped, others pass unchanged. */
  function CheckFailure(uuid: string, message: string): (m: string)
    ensures Contains(message, ApiErrorMarker) ==> m == NotFound(uuid, message)
    ensures !Contains(message, ApiErrorMarker) ==> m == message
  {
    if Contains(message, ApiErrorMarker) then NotFound(uuid, message) else message
  }

  /** A client; `SynologyISCSI.New` applies the constructor's trimming. */
  datatype SynologyISCSI = SynologyISCSI(baseUrl: string, sessionId: string)
  {
    static function New(url: string, sid: string): (c: SynologyISCSI)
      ensures c.baseUrl == TrimTrailing(url, '/') && c.sessionId == sid
      ensures |c.baseUrl| > 0 ==> c.baseUrl[|c.baseUrl| - 1] != '/'
    {
      SynologyISCSI(TrimTrailing(url, '/'), sid)
    }

    function ApiUrl(): string {
      baseUrl + "/webapi/entry.cgi"
    }

    /** Every request is a version-1 GET to `entry.cgi` carrying the sid. */
    function Request(api: string, apiMethod: string, params: seq<(string, Param)>): Call {
      Call(Get, ApiUrl(), api, "1", apiMethod, sessionId, params)
    }

    function ListLunsCall(): Call {
      Request(LunApi, "list", [])
    }

    /** `list_luns`: one record per backend LUN, in order. */
    function ListLuns(reply: Reply<LunListData>): (run: Run<seq<LunRecord>>)
      ensures run.sent == [ListLunsCall()]
      ensures run.result.Err? <==> !reply.Succeeded?
      ensures reply.Rejected? ==> run.result == Err(ApiErrorMessage(IscsiPrefix, reply.error))
      ensures reply.Succeeded? ==>
        && |run.result.value| == |reply.data.luns|
        && forall i :: 0 <= i < |reply.data.luns| ==> run.result.value[i] == LunRecordOf(reply.data.luns[i])
    {
      var luns := Answer(IscsiPrefix, reply);
      Run(if luns.Err? then Err(luns.error)
          else Ok(seq(|luns.value.luns|, i requires 0 <= i < |luns.value.luns| => LunRecordOf(luns.value.luns[i]))),
          [ListLunsCall()])
    }

    function GetLunCall(uuid: string): Call {
      Request(LunApi, "get", [("uuid", Text(uuid))])
    }

    /** `get_lun`: the detail record of the reply's `lun` object, every key
      defaulted when the object is missing. */
    function GetLun(uuid: string, reply: Reply<LunData>): (run: Run<LunDetail>)
      ensures run.sent == [GetLunCall(uuid)]
      ensures run.result.Err? <==> !reply.Succeeded?
      ensures reply.Succeeded? ==> run.result.value == LunDetailOf(reply.data.lun.GetOr(AbsentLun))
    {
      Run(match Answer(IscsiPrefix, reply)
          case Ok(d) => Ok(LunDetailOf(d.lun.GetOr(AbsentLun)))
          case Err(m) => Err(m),
          [GetLunCall(uuid)])
    }

    function DeleteLunCall(uuid: string): Call {
      Request(LunApi, "delete", [("uuid", Text(uuid))])
    }

    /** `delete_lun`: query the LUN; refuse if that fails or the LUN is
      mapped; otherwise send the delete and echo the uuid. */
    function DeleteLun(uuid: string, getReply: Reply<LunData>, deleteReply: Reply<NoData>): (run: Run<DeleteRecord>)
      ensures 1 <= |run.sent| <= 2 && run.sent[0] == GetLunCall(uuid)
      ensures run.result.Ok? ==> |run.sent| == 2 && run.result.value.uuid == uuid && deleteReply.Succeeded?
    {
      var query := GetLun(uuid, getReply);
      if query.result.Err? then Run(Err(CheckFailure(uuid, query.result.error)), query.sent)
      else if query.result.value.summary.isMapped then Run(Err(CheckFailure(uuid, StillMapped(uuid))), query.sent)
      else
        Run(match Answer(IscsiPrefix, deleteReply)
            case Ok(_) => Ok(DeleteRecord(uuid, "LUN " + uuid + " deleted successfully"))
            case Err(m) => Err(m),
            query.sent + [DeleteLunCall(uuid)])
    }

    /** A LUN reported as mapped is never deleted: the only request is the
      query, and the error is the "still mapped" one unless the uuid itself
      mentions an iSCSI API error. */
    lemma DeleteMappedRefused(uuid: string, l: BackendLun, deleteReply: Reply<NoData>)
      requires l.isMapped == Some(true)
      ensures var run := DeleteLun(uuid, Succeeded(LunData(Some(l))), deleteReply);
        && run.sent == [GetLunCall(uuid)]
        && run.result.Err?
        && ('S' !in uuid ==> run.result.error == StillMapped(uuid))
        && (Contains(uuid, ApiErrorMarker) ==> run.result.error == NotFound(uuid, StillMapped(uuid)))
    {
      if 'S' !in uuid {
        StillMappedUnmarked(uuid);
      }
      if Contains(uuid, ApiErrorMarker) {
        StillMappedMarked(uuid);
      }
    }

    /** A rejected query is always reported as "not found or inaccessible",
      wrapping the API error, and no delete is sent. */
    lemma DeleteQueryRejected(uuid: string, e: ApiError, deleteReply: Reply<NoData>)
      ensures var run := DeleteLun(uuid, Rejected(e), deleteReply);
        run == Run(Err(NotFound(uuid, ApiErrorMessage(IscsiPrefix, e))), [GetLunCall(uuid)])
    {
      RejectionMentionsMarker(e);
    }

    /** A transport failure of the query is re-raised unchanged unless its
      text mentions an iSCSI API error; no delete is sent. */
    lemma DeleteQueryFailed(uuid: string, reason: string, deleteReply: Reply<NoData>)
      requires !Contains(reason, ApiErrorMarker)
      ensures DeleteLun(uuid, NetworkFailure(reason), deleteReply) == Run(Err(reason), [GetLunCall(uuid)])
    {
    }

    /** An unmapped LUN, or one whose record has no `is_mapped`, is
      deleted: the query and then the delete go out, and success echoes the
      uuid. */
    lemma DeleteUnmappedProceeds(uuid: string, d: LunData, deleteReply: Reply<NoData>)
      requires d.lun.None? || d.lun.value.isMapped != Some(true)
      ensures var run := DeleteLun(uuid, Succeeded(d), deleteReply);
        && run.sent == [GetLunCall(uuid), DeleteLunCall(uuid)]
        && (deleteReply.Succeeded? ==> run.result.Ok? && run.result.value.uuid == uuid)
        && (deleteReply.Rejected? ==> run.result == Err(ApiErrorMessage(IscsiPrefix, deleteReply.error)))
    {
    }

    /** The delete request is sent only after a successful query reporting
      the LUN unmapped. */
    lemma DeleteOnlyWhenUnmapped(uuid: string, getReply: Reply<LunData>, deleteReply: Reply<NoData>)
      ensures DeleteLunCall(uuid) in DeleteLun(uuid, getReply, deleteReply).sent <==>
        getReply.Succeeded? && !LunDetailOf(getReply.data.lun.GetOr(AbsentLun)).summary.isMapped
    {
    }

    function ListTargetsCall(): Call {
      Request(TargetApi, "list", [])
    }

    /** `list_targets`: one record per backend target, in order. */
    function ListTargets(reply: Reply<TargetListData>): (run: Run<seq<TargetRecord>>)
      ensures run.sent == [ListTargetsCall()]
      ensures run.result.Err? <==> !reply.Succeeded?
      ensures reply.Succeeded? ==>
        && |run.result.value| == |reply.data.targets|
        && forall i :: 0 <= i < |reply.data.targets| ==> run.result.value[i] == TargetRecordOf(reply.data.targets[i])
    {
      var ts := Answer(IscsiPrefix, reply);
      Run(if ts.Err? then Err(ts.error)
          else Ok(seq(|ts.value.targets|, i requires 0 <= i < |ts.value.targets| => TargetRecordOf(ts.value.targets[i]))),
          [ListTargetsCall()])
    }

    function UnmapCall(lunUuid: string, targetId: string): Call {
      Request(LunApi, "unmap_target", [("uuid", Text(lunUuid)), ("target_id", Text(targetId))])
    }

    /** `unmap_lun`: sends the uuid and target id it was given and echoes
      both on success. */
    function UnmapLun(lunUuid: string, targetId: string, reply: Reply<NoData>): (run: Run<UnmapRecord>)
      ensures run.sent == [UnmapCall(lunUuid, targetId)]
      ensures ("uuid", Text(lunUuid)) in run.sent[0].params && ("target_id", Text(targetId)) in run.sent[0].params
      ensures run.result.Ok? <==> reply.Succeeded?
      ensures run.result.Ok? ==> run.result.value.lunUuid == lunUuid && run.result.value.targetId == targetId
    {
      Run(match Answer(IscsiPrefix, reply)
          case Ok(_) => Ok(UnmapRecord(lunUuid, targetId, "LUN " + lunUuid + " unmapped from target " + targetId))
          case Err(m) => Err(m),
          [UnmapCall(lunUuid, targetId)])
    }
  }
}
