/** The File Station client: path canonicalisation, name sanitisation, the
    delete guard, the final move destination, and the three task drivers
    (search, delete, move) that start a backend task and poll it every half
    second. Backend replies are inputs; a poll loop reads its replies from an
    oracle indexed by the poll number. */
module FileStation {
  import opened Wrappers
  import opened Strings
  import opened Transport

  // ---------------------------------------------------------------------
  // Unicode normalisation

  /** What the model relies on from `unicodedata.normalize('NFC', ·)`: it is
      idempotent, it neither adds nor removes a leading or a trailing '/',
      and it leaves ASCII text alone. */
  ghost predicate NormalizerLaws(f: string -> string) {
    && (forall s {:trigger f(f(s))} :: f(f(s)) == f(s))
    && (forall s :: StartsWith(f(s), "/") <==> StartsWith(s, "/"))
    && (forall s :: EndsWith(f(s), "/") <==> EndsWith(s, "/"))
    && (forall s :: IsAscii(s) ==> f(s) == s)
  }

  type Normalizer = f: string -> string | NormalizerLaws(f) witness (s: string) => s

  // ---------------------------------------------------------------------
  // Path canonicalisation (`_format_path`)

  /** `_format_path` before normalisation: a '/' is put in front when
      missing, and trailing '/'s are dropped unless the path is "/". */
  function SlashForm(path: string): string {
    var p := if StartsWith(path, "/") then path else "/" + path;
    if p != "/" && EndsWith(p, "/") then TrimTrailing(p, '/') else p
  }

  function FormatPath(nfc: Normalizer, path: string): string {
    nfc(SlashForm(path))
  }

  /** "//", "///", ...: the inputs that `_format_path` turns into "". */
  predicate IsSlashRun(path: string) {
    |path| >= 2 && AllChar(path, '/')
  }

  /** Absolute, and without a trailing '/' unless it is the root itself. */
  predicate IsCanonical(p: string) {
    StartsWith(p, "/") && (EndsWith(p, "/") ==> p == "/")
  }

  /** Dropping the trailing '/'s of an absolute path leaves "" exactly
      when the path is all '/', and otherwise an absolute path without a
      trailing '/'. */
  lemma TrimSlashes(p: string)
    requires |p| >= 1 && p[0] == '/'
    ensures TrimTrailing(p, '/') == "" <==> AllChar(p, '/')
    ensures TrimTrailing(p, '/') != "" ==> IsCanonical(TrimTrailing(p, '/')) && TrimTrailing(p, '/') != "/"
  {
    var t := TrimTrailing(p, '/');
    if |t| > 0 {
      assert t[0] == p[0] && t[|t| - 1] != '/';
      assert !AllChar(p, '/') by { assert p[|t| - 1] == t[|t| - 1]; }
    }
  }

  /** The path with its leading '/' supplied is all '/' (and not the root)
      exactly for a run of slashes. */
  lemma AbsoluteSlashRun(path: string, p: string)
    requires p == if StartsWith(path, "/") then path else "/" + path
    ensures p != "/" && AllChar(p, '/') <==> IsSlashRun(path)
  {
    if !StartsWith(path, "/") && path != "" {
      assert p[1] == path[0] && path[0] != '/';
    }
  }

  /** A run of slashes, and only that, loses everything. */
  lemma SlashRunForm(path: string)
    ensures IsSlashRun(path) <==> SlashForm(path) == ""
  {
    var p := if StartsWith(path, "/") then path else "/" + path;
    assert p[0] == '/';
    AbsoluteSlashRun(path, p);
    if p != "/" && EndsWith(p, "/") {
      TrimSlashes(p);
    }
  }

  /** Every other input becomes canonical. */
  lemma SlashFormCanonical(path: string)
    requires !IsSlashRun(path)
    ensures IsCanonical(SlashForm(path))
  {
    var p := if StartsWith(path, "/") then path else "/" + path;
    assert p[0] == '/';
    assert StartsWith(p, "/") by { assert p[..1] == "/"; }
    AbsoluteSlashRun(path, p);
    if p != "/" && EndsWith(p, "/") {
      TrimSlashes(p);
    }
  }

  lemma SlashFormShape(path: string)
    ensures IsSlashRun(path) ==> SlashForm(path) == ""
    ensures !IsSlashRun(path) ==> IsCanonical(SlashForm(path))
  {
    SlashRunForm(path);
    if !IsSlashRun(path) {
      SlashFormCanonical(path);
    }
  }

  /** The guarantees of `_format_path`: a run of two or more slashes, and
      only that, yields ""; every other input yields a canonical path. */
  lemma FormatPathShape(nfc: Normalizer, path: string)
    ensures IsSlashRun(path) <==> FormatPath(nfc, path) == ""
    ensures !IsSlashRun(path) ==> IsCanonical(FormatPath(nfc, path))
  {
    SlashFormShape(path);
    var q := SlashForm(path);
    assert IsAscii("");
    assert IsAscii("/");
    assert StartsWith(nfc(q), "/") <==> StartsWith(q, "/");
    assert EndsWith(nfc(q), "/") <==> EndsWith(q, "/");
  }

  /** A canonical path is left as it is before normalisation. */
  lemma CanonicalFixed(p: string)
    requires IsCanonical(p)
    ensures SlashForm(p) == p
  {
  }

  /** Formatting twice is formatting once, for every input that is not a
      run of slashes. */
  lemma FormatPathIdempotent(nfc: Normalizer, path: string)
    requires !IsSlashRun(path)
    ensures FormatPath(nfc, FormatPath(nfc, path)) == FormatPath(nfc, path)
  {
    FormatPathShape(nfc, path);
    var q := SlashForm(path);
    CanonicalFixed(nfc(q));
    assert nfc(nfc(q)) == nfc(q);
  }

  lemma SlashFormExample()
    ensures SlashForm("relative/path/") == "/relative/path"
  {
    var p := "/relative/path/";
    assert "relative/path/"[0] == 'r';
    assert !StartsWith("relative/path/", "/");
    var t := TrimTrailing(p, '/');
    assert p[13] != '/' && p[14] == '/';
    assert |t| == 14;
    assert forall i :: 0 <= i < 14 ==> t[i] == "/relative/path"[i];
  }

  lemma AsciiExample()
    ensures IsAscii("/") && IsAscii("/relative/path")
  {
  }

  lemma FormatPathExamples(nfc: Normalizer)
    ensures FormatPath(nfc, "/") == "/"
    ensures FormatPath(nfc, "relative/path/") == "/relative/path"
    ensures FormatPath(nfc, "//") == ""
  {
    SlashFormExample();
    AsciiExample();
    assert IsSlashRun("//");
    FormatPathShape(nfc, "//");
  }

  // ---------------------------------------------------------------------
  // Name sanitisation (`rename_file`, `create_directory`)

  /** The outcome of the name check: blank (refused as empty), nothing left
      once separators are removed (refused as invalid), or the cleaned name. */
  datatype NameCheck = Blank | NoUsableChars | Cleaned(name: string)

  /** The test `not name or name.strip() == ''`, then
      `name.strip().replace('/', '').replace('\\', '')` and the emptiness test. */
  function CheckName(name: string): (c: NameCheck)
    ensures c.Blank? <==> forall i :: 0 <= i < |name| ==> IsSpace(name[i])
    ensures c.NoUsableChars? <==> !c.Blank? && forall x :: x in Strip(name) ==> x == '/' || x == '\\'
    ensures c.Cleaned? ==> c.name != "" && '/' !in c.name && '\\' !in c.name
    ensures c.Cleaned? ==> forall x :: x != '/' && x != '\\' ==> (x in c.name <==> x in Strip(name))
    ensures c.Cleaned? ==> c.name == RemoveAll(RemoveAll(Strip(name), '/'), '\\')
  {
    StripShape(name);
    if name == "" || Strip(name) == "" then Blank
    else
      var s := Strip(name);
      var noSlash := RemoveAll(s, '/');
      var clean := RemoveAll(noSlash, '\\');
      assert clean != "" ==> clean[0] in clean;
      if clean == "" then NoUsableChars else Cleaned(clean)
  }

  // ---------------------------------------------------------------------
  // Delete guard

  const CriticalPaths: seq<string> := ["/volume1", "/homes", "/var", "/etc", "/usr", "/bin", "/sbin"]

  /** The refusal `delete` raises before sending anything, as written: the
      root test, then "starts with a critical path, and is one". */
  function DeleteRefusal(fp: string): Option<string> {
    if fp == "" || fp == "/" then Some("Invalid path - cannot delete root")
    else if (exists c :: c in CriticalPaths && StartsWith(fp, c)) && fp in CriticalPaths then
      Some("Cannot delete critical system path: " + fp)
    else None
  }

  /** The two-part critical test is exact membership: `delete` refuses
      precisely the root, "" and the seven listed paths. */
  lemma DeleteRefusalExact(fp: string)
    ensures DeleteRefusal(fp).Some? <==> fp == "" || fp == "/" || fp in CriticalPaths
  {
    if fp in CriticalPaths {
      assert StartsWith(fp, fp);
    }
  }

  /** Every listed path is one top-level component. */
  predicate TopLevel(p: string) {
    |p| > 0 && p[0] == '/' && forall j :: 0 < j < |p| ==> p[j] != '/'
  }

  /** Anything below a critical path passes the guard. */
  lemma SubPathPasses(fp: string, i: nat)
    requires i < |CriticalPaths| && StartsWith(fp, CriticalPaths[i] + "/")
    ensures DeleteRefusal(fp) == None
  {
    var c := CriticalPaths[i];
    assert forall p :: p in CriticalPaths ==> TopLevel(p);
    assert fp[|c|] == '/' && |c| > 0;
    assert !TopLevel(fp);
    DeleteRefusalExact(fp);
  }

  lemma DeleteRefusalExamples()
    ensures DeleteRefusal("/") == Some("Invalid path - cannot delete root")
    ensures DeleteRefusal("") == Some("Invalid path - cannot delete root")
    ensures DeleteRefusal("/etc") == Some("Cannot delete critical system path: /etc")
    ensures DeleteRefusal("/volume1/x") == None
    ensures DeleteRefusal("/volume10") == None
  {
    assert CriticalPaths[3] == "/etc" && "/etc" in CriticalPaths && StartsWith("/etc", "/etc");
    assert "Cannot delete critical system path: " + "/etc" == "Cannot delete critical system path: /etc";
    assert "/volume1/x" == CriticalPaths[0] + "/" + "x";
    SubPathPasses("/volume1/x", 0);
    DeleteRefusalExact("/volume10");
  }

  /** The record `rename_file` returns: the old path and its last
      component, the new name, and a new path whose last component is that
      name. */
  function Renamed(fp: string, name: string): RenameRecord {
    RenameRecord(fp, RenamedPath(fp, name), Basename(fp), name)
  }

  /** The `new_path` of `rename_file`: the cleaned name under the old parent. */
  function RenamedPath(fp: string, name: string): string {
    ReplaceChar(PathJoin(Dirname(fp), name), '\\', '/')
  }

  /** The renamed item keeps its parent and takes the cleaned name as its
      last component. */
  lemma RenamedShape(fp: string, name: string)
    requires name != "" && '/' !in name && '\\' !in name
    ensures var r := Renamed(fp, name);
      r.oldPath == fp && r.oldName == Basename(fp) && r.newName == name && Basename(r.newPath) == name
  {
    BasenameOfJoin(Dirname(fp), name);
  }

  // ---------------------------------------------------------------------
  // Final move destination

  /** `os.path.join(dest, basename(source)).replace('\\', '/')` when the
      destination ends in '/' or has no extension, else the destination. */
  function MoveDestination(source: string, dest: string): string {
    if EndsWith(dest, "/") || Extension(dest) == "" then ReplaceChar(PathJoin(dest, Basename(source)), '\\', '/')
    else dest
  }

  /** The last component of a formatted path other than the root. */
  lemma BasenameOfCanonical(p: string)
    requires IsCanonical(p) && p != "/" && '\\' !in p
    ensures Basename(p) != "" && '/' !in Basename(p) && '\\' !in Basename(p) && !StartsWith(Basename(p), "/")
  {
    assert EndsWith(p, "/") <==> p[|p| - 1] == '/';
    BasenameShape(p);
  }

  /** For two formatted paths: a destination without an extension is a
      folder, and the item keeps its own name inside it; one with an
      extension is the new full path. */
  lemma MoveDestinationShape(source: string, dest: string)
    requires IsCanonical(source) && source != "/" && IsCanonical(dest) && dest != "/"
    requires '\\' !in source && '\\' !in dest
    ensures Extension(dest) == "" ==> MoveDestination(source, dest) == dest + "/" + Basename(source)
    ensures Extension(dest) == "" ==> Basename(MoveDestination(source, dest)) == Basename(source)
    ensures Basename(source) != "" && '/' !in Basename(source)
    ensures Extension(dest) != "" ==> MoveDestination(source, dest) == dest
  {
    var b := Basename(source);
    BasenameOfCanonical(source);
    assert !EndsWith(dest, "/");
    if Extension(dest) == "" {
      assert PathJoin(dest, b) == dest + "/" + b;
      ReplaceAbsent(dest + "/" + b, '\\', '/');
      BasenameOfJoin(dest, b);
    }
  }

  // ---------------------------------------------------------------------
  // Backend data and results

  datatype FileKind = RegularFile | Directory

  /** One entry of a backend `files` list; `isdir` is the truthiness of that
      field, so a missing one is false. `additional` is the optional block
      `getinfo` asks for. */
  datatype BackendFile = BackendFile(name: Option<string>, path: Option<string>, isdir: bool, size: Option<int>,
                                     additional: Option<Additional>)

  /** The `additional` block: each of `time`, `owner` and `perm` may be
      missing, and so may each key inside them. */
  datatype Additional = Additional(time: Option<FileTimes>, owner: Option<OwnerBlock>, perm: Option<PermBlock>)
  datatype FileTimes = FileTimes(crtime: Option<int>, mtime: Option<int>, atime: Option<int>)
  datatype OwnerBlock = OwnerBlock(user: Option<string>, group: Option<string>)
  datatype PermBlock = PermBlock(posix: Option<int>)

  /** The `{name, path, type, size}` record the client returns per file. */
  datatype FileRecord = FileRecord(name: Option<string>, path: Option<string>, kind: FileKind, size: int)

  function FileRecordOf(f: BackendFile): FileRecord {
    FileRecord(f.name, f.path, if f.isdir then Directory else RegularFile, f.size.GetOr(0))
  }

  /** The list comprehension over `files`: one record per entry, in order. */
  function FileRecords(fs: seq<BackendFile>): (r: seq<FileRecord>)
    ensures |r| == |fs|
    ensures forall i :: 0 <= i < |fs| ==> r[i] == FileRecordOf(fs[i])
  {
    if fs == [] then [] else [FileRecordOf(fs[0])] + FileRecords(fs[1..])
  }

  /** The owner keys of `get_file_info`, "unknown" when missing. */
  datatype Ownership = Ownership(owner: string, group: string)

  /** The `permissions` key: the posix mode, or "unknown" when missing. */
  datatype Permissions = Posix(mode: int) | UnknownPermissions

  /** The dictionary `get_file_info` returns: the four basic keys, plus
      the time, owner and permission keys when the backend sent that part
      of `additional`. */
  datatype FileInfo = FileInfo(record: FileRecord, times: Option<FileTimes>, ownership: Option<Ownership>,
                               permissions: Option<Permissions>)

  function AdditionalPart<T>(f: BackendFile, part: Additional -> Option<T>): Option<T> {
    if f.additional.Some? then part(f.additional.value) else None
  }

  /** The record of `get_file_info` for one backend entry. */
  function FileInfoOf(f: BackendFile): (r: FileInfo)
    ensures r.record == FileRecordOf(f)
    ensures r.times.Some? <==> f.additional.Some? && f.additional.value.time.Some?
    ensures r.times.Some? ==> r.times.value == f.additional.value.time.value
    ensures r.ownership.Some? <==> f.additional.Some? && f.additional.value.owner.Some?
    ensures r.ownership.Some? ==>
      var o := f.additional.value.owner.value;
      r.ownership.value == Ownership(o.user.GetOr("unknown"), o.group.GetOr("unknown"))
    ensures r.permissions.Some? <==> f.additional.Some? && f.additional.value.perm.Some?
    ensures r.permissions.Some? ==>
      (r.permissions.value.Posix? <==> f.additional.value.perm.value.posix.Some?)
      && (r.permissions.value.Posix? ==> r.permissions.value.mode == f.additional.value.perm.value.posix.value)
  {
    var owner := AdditionalPart(f, (a: Additional) => a.owner);
    var perm := AdditionalPart(f, (a: Additional) => a.perm);
    FileInfo(FileRecordOf(f),
             AdditionalPart(f, (a: Additional) => a.time),
             if owner.Some? then Some(Ownership(owner.value.user.GetOr("unknown"), owner.value.group.GetOr("unknown")))
             else None,
             if perm.Some? then Some(if perm.value.posix.Some? then Posix(perm.value.posix.value) else UnknownPermissions)
             else None)
  }

  /** The `data` of `getinfo`; a missing `files` is the empty list. */
  datatype FileInfoData = FileInfoData(files: seq<BackendFile>)

  /** The `data` of a task `start`. */
  datatype StartData = StartData(taskid: Option<string>)

  /** The `data` of a task poll: the `finished` flag, the `error` entry and,
      for a search, the `files` found. */
  datatype StatusData = StatusData(finished: bool, error: Option<string>, files: seq<BackendFile>)

  /** One entry of the `folders` list `create` returns. */
  datatype BackendFolder = BackendFolder(path: Option<string>, isdir: Option<bool>)

  datatype FolderData = FolderData(folders: seq<BackendFolder>)

  /** A reply whose data the client never reads. */
  datatype NoData = NoData

  datatype RenameRecord = RenameRecord(oldPath: string, newPath: string, oldName: string, newName: string)

  datatype DirectoryRecord = DirectoryRecord(
    folderPath: string, name: string, fullPath: string, isDirectory: bool, forceParent: bool)

  /** Where `create_file` uploads: the directory and the file name. */
  datatype UploadTarget = UploadTarget(path: string, directory: string, filename: string)

  datatype DeleteRecord = DeleteRecord(path: string, itemName: string, kind: FileKind, recursive: bool, taskId: string)

  datatype MoveRecord = MoveRecord(sourcePath: string, destinationPath: string, taskId: string)

  const ApiPrefix := "Synology API error: "

  /** `_make_request` of this client. */
  function FsAnswer<D>(r: Reply<D>): Result<D, string> {
    Answer(ApiPrefix, r)
  }

  /** The task id of a `start` reply, when it is present and non-empty. */
  function StartedTask(start: Reply<StartData>): Option<string> {
    match FsAnswer(start)
    case Ok(d) => if d.taskid.Some? && d.taskid.value != "" then d.taskid else None
    case Err(_) => None
  }

  /** Why no task was started: the `start` request's own exception, or the
      "Failed to start ... task" message when it returned no task id. */
  function StartFailure(start: Reply<StartData>, missing: string): string {
    match FsAnswer(start)
    case Err(m) => m
    case Ok(_) => missing
  }

  // ---------------------------------------------------------------------
  // The polling specification

  /** The two bounded tasks delete and move: their API, version, time limit
      and the label used in their messages. */
  datatype TaskKind = DeleteTask | MoveTask {
    function Api(): string {
      if DeleteTask? then "SYNO.FileStation.Delete" else "SYNO.FileStation.CopyMove"
    }

    function Version(): string {
      if DeleteTask? then "2" else "3"
    }

    function MaxWaitSeconds(): nat {
      if DeleteTask? then 120 else 60
    }

    /** One poll per half-second tick until the time limit. */
    function MaxPolls(): nat {
      2 * MaxWaitSeconds()
    }

    function Label(): string {
      if DeleteTask? then "Delete" else "Move"
    }

    /** The text of a task that finished with an error. */
    function FailedMessage(detail: string): string {
      Label() + " failed: " + detail
    }

    function TimeoutMessage(): string {
      Label() + " operation timed out after " + (if DeleteTask? then "120" else "60") + " seconds"
    }
  }

  /** A poll reply that lets the loop go on: a success envelope whose
      `finished` flag is false. */
  predicate Pending(r: Reply<StatusData>) {
    FsAnswer(r).Ok? && !FsAnswer(r).value.finished
  }

  /** How a run of polls ends, with the total number of polls sent. */
  datatype PollEnd = Finished(polls: nat, status: StatusData) | Raised(polls: nat, reason: string) | TimedOut(polls: nat)

  /** Polls `from`, `from + 1`, ... up to `limit`: stop at the first finished
      reply or at the first one that raises. */
  function PollRun(poll: nat -> Reply<StatusData>, from: nat, limit: nat): PollEnd
    decreases limit - from
  {
    if from >= limit then TimedOut(from)
    else
      match FsAnswer(poll(from))
      case Err(m) => Raised(from + 1, m)
      case Ok(st) => if st.finished then Finished(from + 1, st) else PollRun(poll, from + 1, limit)
  }

  /** What a poll run means: it never exceeds its limit, every poll before
      the last is pending, and the last one is the terminal reply it
      reports; a timeout used up the whole limit. */
  lemma {:induction false} PollRunMeaning(poll: nat -> Reply<StatusData>, from: nat, limit: nat)
    requires from <= limit
    ensures var e := PollRun(poll, from, limit);
      && from <= e.polls <= limit
      && (e.TimedOut? <==> e.polls == limit && forall j :: from <= j < limit ==> Pending(poll(j)))
      && (!e.TimedOut? ==> from < e.polls && forall j :: from <= j < e.polls - 1 ==> Pending(poll(j)))
      && (e.Finished? ==> FsAnswer(poll(e.polls - 1)) == Ok(e.status) && e.status.finished)
      && (e.Raised? ==> FsAnswer(poll(e.polls - 1)) == Err(e.reason))
    decreases limit - from
  {
    if from < limit && Pending(poll(from)) {
      PollRunMeaning(poll, from + 1, limit);
    }
  }

  /** Once a terminal reply lies below both limits, the limit no longer
      matters. */
  lemma {:induction false} PollRunStable(poll: nat -> Reply<StatusData>, from: nat, m: nat, l1: nat, l2: nat)
    requires from <= m < l1 && m < l2 && !Pending(poll(m))
    ensures PollRun(poll, from, l1) == PollRun(poll, from, l2)
    decreases m - from
  {
    if Pending(poll(from)) {
      PollRunStable(poll, from + 1, m, l1, l2);
    }
  }

  /** A run that meets a terminal reply before its limit does not time out. */
  lemma PollRunReaches(poll: nat -> Reply<StatusData>, k: nat)
    requires !Pending(poll(k))
    ensures !PollRun(poll, 0, k + 1).TimedOut?
  {
    PollRunMeaning(poll, 0, k + 1);
  }

  /** The outcome of a delete or move once polling has ended. */
  function PollVerdict(kind: TaskKind, e: PollEnd): (r: Result<StatusData, string>)
    ensures r.Ok? <==> e.Finished? && e.status.error.None?
    ensures r.Ok? ==> r.value == e.status
    ensures e.TimedOut? ==> r == Err(kind.TimeoutMessage())
  {
    match e
    case Finished(_, st) => if st.error.Some? then Err(kind.FailedMessage(st.error.value)) else Ok(st)
    case Raised(_, m) => Err(m)
    case TimedOut(_) => Err(kind.TimeoutMessage())
  }

  predicate InvalidTarget(fp: string) {
    fp == "" || fp == "/"
  }

  // ---------------------------------------------------------------------
  // The client

  class SynologyFileStation {
    const baseUrl: string
    const sessionId: string
    const nfc: Normalizer

    constructor (url: string, sid: string, normalizer: Normalizer)
      ensures baseUrl == TrimTrailing(url, '/') && sessionId == sid && nfc == normalizer
    {
      baseUrl := TrimTrailing(url, '/');
      sessionId := sid;
      nfc := normalizer;
    }

    function ApiUrl(): string {
      baseUrl + "/webapi/entry.cgi"
    }

    /** A GET to `entry.cgi` carrying this client's session id. */
    function Request(api: string, version: string, apiMethod: string, params: seq<(string, Param)>): Call {
      Call(Get, ApiUrl(), api, version, apiMethod, sessionId, params)
    }

    function InfoCall(path: string): Call {
      Request("SYNO.FileStation.List", "2", "getinfo",
        [("path", Text(FormatPath(nfc, path))), ("additional", Text("time,size,owner,perm"))])
    }

    /** `get_file_info`: the record of the first entry, or "File not found"
      when the backend lists none. */
    function GetFileInfo(path: string, reply: Reply<FileInfoData>): (run: Run<FileInfo>)
      ensures run.sent == [InfoCall(path)]
      ensures run.result.Ok? <==> reply.Succeeded? && reply.data.files != []
      ensures run.result.Ok? ==> run.result.value == FileInfoOf(reply.data.files[0])
      ensures reply.Succeeded? && reply.data.files == [] ==> run.result == Err("File not found: " + path)
      ensures !reply.Succeeded? ==> run.result == Err(FsAnswer(reply).error)
    {
      var sent := [InfoCall(path)];
      match FsAnswer(reply)
      case Err(m) => Run(Err(m), sent)
      case Ok(d) =>
        if d.files == [] then Run(Err("File not found: " + path), sent)
        else Run(Ok(FileInfoOf(d.files[0])), sent)
    }

    function RenameCall(fp: string, name: string): Call {
      Request("SYNO.FileStation.Rename", "2", "rename",
        [("path", JsonArray(fp)), ("name", JsonArray(name))])
    }

    /** `rename_file`: no request for a refused name; otherwise one rename
      request, and the new path is the old parent joined with the cleaned
      name. */
    function RenameFile(path: string, newName: string, reply: Reply<NoData>): (run: Run<RenameRecord>)
      ensures CheckName(newName).Blank? ==> run == Run(Err("New name cannot be empty"), [])
      ensures CheckName(newName).NoUsableChars? ==> run == Run(Err("Invalid new name"), [])
      ensures CheckName(newName).Cleaned? ==>
        run.sent == [RenameCall(FormatPath(nfc, path), CheckName(newName).name)]
      ensures run.result.Ok? <==> CheckName(newName).Cleaned? && reply.Succeeded?
      ensures run.result.Ok? ==> run.result.value == Renamed(FormatPath(nfc, path), CheckName(newName).name)
    {
      var fp := FormatPath(nfc, path);
      match CheckName(newName)
      case Blank => Run(Err("New name cannot be empty"), [])
      case NoUsableChars => Run(Err("Invalid new name"), [])
      case Cleaned(n) => RenameRequest(fp, n, reply)
    }

    /** The rename request for an accepted name and the record built from it. */
    function RenameRequest(fp: string, n: string, reply: Reply<NoData>): (run: Run<RenameRecord>)
      requires n != "" && '/' !in n && '\\' !in n
      ensures run.sent == [RenameCall(fp, n)]
      ensures run.result.Ok? <==> reply.Succeeded?
      ensures run.result.Ok? ==> run.result.value == Renamed(fp, n)
    {
      var sent := [RenameCall(fp, n)];
      match FsAnswer(reply)
      case Err(m) => Run(Err(m), sent)
      case Ok(_) => Run(Ok(Renamed(fp, n)), sent)
    }

    const NoFolderData := "Failed to create directory - " + "no folder data returned"

    function CreateFolderCall(fp: string, name: string, forceParent: bool): Call {
      Request("SYNO.FileStation.CreateFolder", "2", "create",
        [("folder_path", Text(fp)), ("name", Text(name)), ("force_parent", Flag(forceParent))])
    }

    /** `create_directory`: the folder-path and name checks come before any
      request; the record falls back to "<folder>/<name>" and to a
      directory when the backend's first folder entry lacks them. */
    function CreateDirectory(folderPath: string, name: string, forceParent: bool, reply: Reply<FolderData>)
      : (run: Run<DirectoryRecord>)
      ensures FormatPath(nfc, folderPath) == "" ==> run == Run(Err("Invalid folder path"), [])
      ensures FormatPath(nfc, folderPath) != "" && CheckName(name).Blank? ==>
        run == Run(Err("Directory name cannot be empty"), [])
      ensures FormatPath(nfc, folderPath) != "" && CheckName(name).NoUsableChars? ==>
        run == Run(Err("Invalid directory name"), [])
      ensures run.sent != [] <==> FormatPath(nfc, folderPath) != "" && CheckName(name).Cleaned?
      ensures run.sent != [] ==>
        run.sent == [CreateFolderCall(FormatPath(nfc, folderPath), CheckName(name).name, forceParent)]
      ensures run.sent != [] && reply.Succeeded? && reply.data.folders == [] ==>
        run.result == Err(NoFolderData)
      ensures run.result.Ok? ==>
        var rec := run.result.value;
        var fp := FormatPath(nfc, folderPath);
        && reply.Succeeded? && reply.data.folders != []
        && rec.folderPath == fp && rec.name == CheckName(name).name && '/' !in rec.name
        && rec.fullPath == reply.data.folders[0].path.GetOr(fp + "/" + rec.name)
        && rec.isDirectory == reply.data.folders[0].isdir.GetOr(true)
        && rec.forceParent == forceParent
    {
      var fp := FormatPath(nfc, folderPath);
      if fp == "" then Run(Err("Invalid folder path"), [])
      else
        match CheckName(name)
        case Blank => Run(Err("Directory name cannot be empty"), [])
        case NoUsableChars => Run(Err("Invalid directory name"), [])
        case Cleaned(n) => CreateFolderRequest(fp, n, forceParent, reply)
    }

    /** The create request for an accepted folder path and name, and the
      record built from the backend's first folder entry. */
    function CreateFolderRequest(fp: string, n: string, forceParent: bool, reply: Reply<FolderData>)
      : (run: Run<DirectoryRecord>)
      ensures run.sent == [CreateFolderCall(fp, n, forceParent)]
      ensures run.result.Ok? <==> reply.Succeeded? && reply.data.folders != []
      ensures reply.Succeeded? && reply.data.folders == [] ==> run.result == Err(NoFolderData)
      ensures run.result.Ok? ==>
        var f := reply.data.folders[0];
        run.result.value == DirectoryRecord(fp, n, f.path.GetOr(fp + "/" + n), f.isdir.GetOr(true), forceParent)
    {
      var sent := [CreateFolderCall(fp, n, forceParent)];
      match FsAnswer(reply)
      case Err(m) => Run(Err(m), sent)
      case Ok(d) =>
        if d.folders == [] then Run(Err(NoFolderData), sent)
        else
          var f := d.folders[0];
          Run(Ok(DirectoryRecord(fp, n, f.path.GetOr(fp + "/" + n), f.isdir.GetOr(true), forceParent)), sent)
    }

    /** The path validation of `create_file`. Its "Invalid filename" branch
      can never be taken: the only refusal is "Invalid file path", for "",
      "/" and the runs of slashes. */
    function CreateFileTarget(path: string): (r: Result<UploadTarget, string>)
      ensures r.Err? <==> InvalidTarget(FormatPath(nfc, path))
      ensures r.Err? ==> r.error == "Invalid file path"
      ensures r.Ok? ==>
        && r.value.path == FormatPath(nfc, path)
        && r.value.directory == Dirname(r.value.path)
        && r.value.filename == Basename(r.value.path)
        && r.value.filename != "" && '/' !in r.value.filename
    {
      FormatPathShape(nfc, path);
      var fp := FormatPath(nfc, path);
      if InvalidTarget(fp) then Err("Invalid file path")
      else
        var directory := Dirname(fp);
        var filename := Basename(fp);
        assert fp[|fp| - 1] != '/';
        if filename == "" then Err("Invalid filename")
        else Ok(UploadTarget(fp, directory, filename))
    }

    /** The recursion flag `delete` derives from the metadata lookup: true
      only for a directory; false when the lookup raises. */
    function IsDirectory(fp: string, info: Reply<FileInfoData>): bool {
      var run := GetFileInfo(fp, info);
      run.result.Ok? && run.result.value.record.kind == Directory
    }

    function DeleteStartCall(fp: string, recursive: bool): Call {
      Request("SYNO.FileStation.Delete", "2", "start",
        [("path", JsonArray(fp)), ("accurate_progress", Text("true")),
            ("recursive", Text(if recursive then "true" else "false"))])
    }

    function StatusCall(kind: TaskKind, taskId: string): Call {
      Request(kind.Api(), kind.Version(), "status", [("taskid", Text(taskId))])
    }

    function StopCall(kind: TaskKind, taskId: string): Call {
      Request(kind.Api(), kind.Version(), "stop", [("taskid", Text(taskId))])
    }

    /** The wait loop of `delete` and `move_file` with its stop-on-failure
      handler: one status poll per half-second tick, at most `MaxPolls`;
      exactly one stop request on every failure, none on success. The stop
      request's own outcome is discarded. */
    method AwaitTask(kind: TaskKind, taskId: string, poll: nat -> Reply<StatusData>)
      returns (r: Result<StatusData, string>, sent: seq<Call>)
      ensures var e := PollRun(poll, 0, kind.MaxPolls());
        && r == PollVerdict(kind, e)
        && sent == Repeat(StatusCall(kind, taskId), e.polls) + (if r.Ok? then [] else [StopCall(kind, taskId)])
      ensures CountMethod(sent, "status") <= kind.MaxPolls()
      ensures CountMethod(sent, "stop") == if r.Ok? then 0 else 1
    {
      var limit := kind.MaxPolls();
      var status := StatusCall(kind, taskId);
      ghost var e := PollRun(poll, 0, limit);
      var ticks := 0;
      sent := [];
      var failure := kind.TimeoutMessage();
      while ticks < limit
        invariant ticks <= limit
        invariant PollRun(poll, ticks, limit) == e
        invariant sent == Repeat(status, ticks)
      {
        RepeatSnoc(status, ticks);
        sent := sent + [status];
        var answer := FsAnswer(poll(ticks));
        if answer.Err? {
          assert e == Raised(ticks + 1, answer.error);
          failure := answer.error;
          break;
        }
        if answer.value.finished {
          assert e == Finished(ticks + 1, answer.value);
          if answer.value.error.Some? {
            failure := kind.FailedMessage(answer.value.error.value);
            break;
          }
          r := Ok(answer.value);
          WaitTraceCounts(kind, taskId, ticks + 1, true);
          assert sent == sent + [];
          return;
        }
        ticks := ticks + 1;
      }
      WaitTraceCounts(kind, taskId, e.polls, false);
      sent := sent + [StopCall(kind, taskId)];
      r := Err(failure);
    }

    lemma RepeatSnoc(c: Call, n: nat)
      ensures Repeat(c, n) + [c] == Repeat(c, n + 1)
    {
      assert Repeat(c, n) + [c] == Repeat(c, n + 1);
    }

    /** A wait's trace holds one status request per poll and one stop
      request exactly when the task did not succeed. */
    lemma WaitTraceCounts(kind: TaskKind, taskId: string, n: nat, ok: bool)
      ensures var t := Repeat(StatusCall(kind, taskId), n) + (if ok then [] else [StopCall(kind, taskId)]);
        && CountMethod(t, "status") == n
        && CountMethod(t, "stop") == if ok then 0 else 1
    {
      var status := StatusCall(kind, taskId);
      var tail: seq<Call> := if ok then [] else [StopCall(kind, taskId)];
      RepeatCount(status, n, "status");
      RepeatCount(status, n, "stop");
      CountMethodAppend(Repeat(status, n), tail, "status");
      CountMethodAppend(Repeat(status, n), tail, "stop");
    }

    /** The part `delete` and `move_file` share once their start request
      `head` is built: no task id ends the call; otherwise the bounded wait
      runs, with its stop request on failure. The result carries the task id. */
    method RunTask(kind: TaskKind, head: seq<Call>, start: Reply<StartData>, poll: nat -> Reply<StatusData>,
                   missing: string)
      returns (r: Result<string, string>, sent: seq<Call>)
      requires CountMethod(head, "status") == 0 && CountMethod(head, "stop") == 0
      ensures |sent| >= |head| && sent[..|head|] == head
      ensures StartedTask(start).None? ==> r == Err(StartFailure(start, missing)) && sent == head
      ensures StartedTask(start).Some? ==>
        var id := StartedTask(start).value;
        var e := PollRun(poll, 0, kind.MaxPolls());
        && sent[|head|..] == Repeat(StatusCall(kind, id), e.polls) + (if r.Ok? then [] else [StopCall(kind, id)])
        && (r.Ok? <==> PollVerdict(kind, e).Ok?)
        && (r.Ok? ==> r.value == id)
        && (r.Err? ==> r.error == PollVerdict(kind, e).error)
      ensures CountMethod(sent, "status") <= kind.MaxPolls()
      ensures CountMethod(sent, "stop") == if r.Err? && StartedTask(start).Some? then 1 else 0
    {
      sent := head;
      var started := StartedTask(start);
      if started.None? {
        r := Err(StartFailure(start, missing));
        return;
      }
      var id := started.value;
      var outcome, polled := AwaitTask(kind, id, poll);
      CountMethodAppend(head, polled, "status");
      CountMethodAppend(head, polled, "stop");
      sent := head + polled;
      assert sent[..|head|] == head && sent[|head|..] == polled;
      r := if outcome.Ok? then Ok(id) else Err(outcome.error);
    }

    /** `delete`: the guard refuses before any request; then a metadata
      lookup, the start request, and the bounded wait. */
    method Delete(path: string, info: Reply<FileInfoData>, start: Reply<StartData>, poll: nat -> Reply<StatusData>)
      returns (r: Result<DeleteRecord, string>, sent: seq<Call>)
      ensures var fp := FormatPath(nfc, path);
        DeleteRefusal(fp).Some? ==> r == Err(DeleteRefusal(fp).value) && sent == []
      ensures var fp := FormatPath(nfc, path);
        DeleteRefusal(fp).None? ==>
          |sent| >= 2 && sent[..2] == [InfoCall(fp), DeleteStartCall(fp, IsDirectory(fp, info))]
      ensures var fp := FormatPath(nfc, path);
        DeleteRefusal(fp).None? && StartedTask(start).None? ==>
          r == Err(StartFailure(start, "Failed to start delete task")) && |sent| == 2
      ensures var fp := FormatPath(nfc, path);
        DeleteRefusal(fp).None? && StartedTask(start).Some? ==>
          var id := StartedTask(start).value;
          var e := PollRun(poll, 0, DeleteTask.MaxPolls());
          var recursive := IsDirectory(fp, info);
          && sent[2..] == Repeat(StatusCall(DeleteTask, id), e.polls) + (if r.Ok? then [] else [StopCall(DeleteTask, id)])
          && (r.Ok? <==> PollVerdict(DeleteTask, e).Ok?)
          && (r.Err? ==> r.error == PollVerdict(DeleteTask, e).error)
          && (r.Ok? ==> r.value == DeleteRecord(fp, Basename(fp), if recursive then Directory else RegularFile, recursive, id))
      ensures CountMethod(sent, "status") <= 240
      ensures CountMethod(sent, "stop") ==
        if r.Err? && DeleteRefusal(FormatPath(nfc, path)).None? && StartedTask(start).Some? then 1 else 0
    {
      var fp := FormatPath(nfc, path);
      sent := [];
      var refusal := DeleteRefusal(fp);
      if refusal.Some? {
        r := Err(refusal.value);
        return;
      }
      r, sent := StartDelete(fp, info, start, poll);
    }

    /** `delete` past its guard, on the formatted path `fp`. */
    method StartDelete(fp: string, info: Reply<FileInfoData>, start: Reply<StartData>, poll: nat -> Reply<StatusData>)
      returns (r: Result<DeleteRecord, string>, sent: seq<Call>)
      ensures |sent| >= 2 && sent[..2] == [InfoCall(fp), DeleteStartCall(fp, IsDirectory(fp, info))]
      ensures StartedTask(start).None? ==>
        r == Err(StartFailure(start, "Failed to start delete task")) && |sent| == 2
      ensures StartedTask(start).Some? ==>
        var id := StartedTask(start).value;
        var e := PollRun(poll, 0, DeleteTask.MaxPolls());
        var recursive := IsDirectory(fp, info);
        && sent[2..] == Repeat(StatusCall(DeleteTask, id), e.polls) + (if r.Ok? then [] else [StopCall(DeleteTask, id)])
        && (r.Ok? <==> PollVerdict(DeleteTask, e).Ok?)
        && (r.Err? ==> r.error == PollVerdict(DeleteTask, e).error)
        && (r.Ok? ==> r.value == DeleteRecord(fp, Basename(fp), if recursive then Directory else RegularFile, recursive, id))
      ensures CountMethod(sent, "status") <= 240
      ensures CountMethod(sent, "stop") == if r.Err? && StartedTask(start).Some? then 1 else 0
    {
      var recursive := IsDirectory(fp, info);
      var head := [InfoCall(fp), DeleteStartCall(fp, recursive)];
      CountMethodNone(head, "status");
      CountMethodNone(head, "stop");
      var outcome;
      outcome, sent := RunTask(DeleteTask, head, start, poll, "Failed to start delete task");
      match outcome
      case Ok(id) =>
        r := Ok(DeleteRecord(fp, Basename(fp), if recursive then Directory else RegularFile, recursive, id));
      case Err(m) =>
        r := Err(m);
    }

    function MoveStartCall(fs: string, fd: string, overwrite: bool): Call {
      Request("SYNO.FileStation.CopyMove", "3", "start",
        [("path", Text(fs)), ("dest_folder_path", Text(fd)), ("overwrite", Flag(overwrite)),
            ("remove_src", Flag(true))])
    }

    /** `move_file`: both paths are validated before any request; then the
      start request and the bounded wait; the reported destination is
      `MoveDestination` of the two formatted paths. */
    method MoveFile(source: string, destination: string, overwrite: bool,
                    start: Reply<StartData>, poll: nat -> Reply<StatusData>)
      returns (r: Result<MoveRecord, string>, sent: seq<Call>)
      ensures InvalidTarget(FormatPath(nfc, source)) ==> r == Err("Invalid source path") && sent == []
      ensures !InvalidTarget(FormatPath(nfc, source)) && InvalidTarget(FormatPath(nfc, destination)) ==>
        r == Err("Invalid destination path") && sent == []
      ensures var fs := FormatPath(nfc, source); var fd := FormatPath(nfc, destination);
        !InvalidTarget(fs) && !InvalidTarget(fd) ==> |sent| >= 1 && sent[0] == MoveStartCall(fs, fd, overwrite)
      ensures var fs := FormatPath(nfc, source); var fd := FormatPath(nfc, destination);
        !InvalidTarget(fs) && !InvalidTarget(fd) && StartedTask(start).None? ==>
          r == Err(StartFailure(start, "Failed to start move task")) && |sent| == 1
      ensures var fs := FormatPath(nfc, source); var fd := FormatPath(nfc, destination);
        !InvalidTarget(fs) && !InvalidTarget(fd) && StartedTask(start).Some? ==>
          var id := StartedTask(start).value;
          var e := PollRun(poll, 0, MoveTask.MaxPolls());
          && sent[1..] == Repeat(StatusCall(MoveTask, id), e.polls) + (if r.Ok? then [] else [StopCall(MoveTask, id)])
          && (r.Ok? <==> PollVerdict(MoveTask, e).Ok?)
          && (r.Err? ==> r.error == PollVerdict(MoveTask, e).error)
          && (r.Ok? ==> r.value == MoveRecord(fs, MoveDestination(fs, fd), id))
      ensures CountMethod(sent, "status") <= 120
      ensures CountMethod(sent, "stop") ==
        if r.Err? && !InvalidTarget(FormatPath(nfc, source)) && !InvalidTarget(FormatPath(nfc, destination))
           && StartedTask(start).Some? then 1 else 0
    {
      var fs := FormatPath(nfc, source);
      var fd := FormatPath(nfc, destination);
      sent := [];
      if InvalidTarget(fs) {
        r := Err("Invalid source path");
        return;
      }
      if InvalidTarget(fd) {
        r := Err("Invalid destination path");
        return;
      }
      r, sent := StartMove(fs, fd, overwrite, start, poll);
    }

    /** `move_file` past its path checks, on the formatted paths `fs` and `fd`. */
    method StartMove(fs: string, fd: string, overwrite: bool, start: Reply<StartData>, poll: nat -> Reply<StatusData>)
      returns (r: Result<MoveRecord, string>, sent: seq<Call>)
      ensures |sent| >= 1 && sent[0] == MoveStartCall(fs, fd, overwrite)
      ensures StartedTask(start).None? ==> r == Err(StartFailure(start, "Failed to start move task")) && |sent| == 1
      ensures StartedTask(start).Some? ==>
        var id := StartedTask(start).value;
        var e := PollRun(poll, 0, MoveTask.MaxPolls());
        && sent[1..] == Repeat(StatusCall(MoveTask, id), e.polls) + (if r.Ok? then [] else [StopCall(MoveTask, id)])
        && (r.Ok? <==> PollVerdict(MoveTask, e).Ok?)
        && (r.Err? ==> r.error == PollVerdict(MoveTask, e).error)
        && (r.Ok? ==> r.value == MoveRecord(fs, MoveDestination(fs, fd), id))
      ensures CountMethod(sent, "status") <= 120
      ensures CountMethod(sent, "stop") == if r.Err? && StartedTask(start).Some? then 1 else 0
    {
      var head := [MoveStartCall(fs, fd, overwrite)];
      CountMethodNone(head, "status");
      CountMethodNone(head, "stop");
      var outcome;
      outcome, sent := RunTask(MoveTask, head, start, poll, "Failed to start move task");
      match outcome
      case Ok(id) =>
        r := Ok(MoveRecord(fs, MoveDestination(fs, fd), id));
      case Err(m) =>
        r := Err(m);
    }

    function SearchStartCall(fp: string, pattern: string): Call {
      Request("SYNO.FileStation.Search", "2", "start", [("folder_path", Text(fp)), ("pattern", Text(pattern))])
    }

    function SearchCall(taskId: string, apiMethod: string): Call {
      Request("SYNO.FileStation.Search", "2", apiMethod, [("taskid", Text(taskId))])
    }

    /** The `while True` loop of `search_files`: `list` polls until a reply
      is finished or raises. The polls sent are those of `PollRun` up to any
      terminal poll index `k`; the outcome does not depend on which. */
    method PollSearch(id: string, poll: nat -> Reply<StatusData>)
      returns (r: Result<seq<FileRecord>, string>, polled: seq<Call>)
      requires exists k: nat :: !Pending(poll(k))
      ensures forall k: nat :: !Pending(poll(k)) ==>
        var e := PollRun(poll, 0, k + 1);
        && !e.TimedOut?
        && polled == Repeat(SearchCall(id, "list"), e.polls)
        && (e.Finished? ==> r == Ok(FileRecords(e.status.files)))
        && (e.Raised? ==> r == Err(e.reason))
    {
      var list := SearchCall(id, "list");
      ghost var k: nat :| !Pending(poll(k));
      var ticks := 0;
      polled := [];
      while true
        invariant ticks <= k
        invariant PollRun(poll, ticks, k + 1) == PollRun(poll, 0, k + 1)
        invariant polled == Repeat(list, ticks)
        decreases k - ticks
      {
        polled := polled + [list];
        assert polled == Repeat(list, ticks + 1);
        var answer := FsAnswer(poll(ticks));
        if answer.Err? {
          r := Err(answer.error);
          break;
        }
        if answer.value.finished {
          r := Ok(FileRecords(answer.value.files));
          break;
        }
        ticks := ticks + 1;
      }
      PollRunReaches(poll, k);
      forall k': nat | !Pending(poll(k'))
        ensures PollRun(poll, 0, k' + 1) == PollRun(poll, 0, k + 1)
      {
        var m := if k < k' then k else k';
        PollRunStable(poll, 0, m, k' + 1, k + 1);
      }
    }

    /** `search_files`: polls `list` with no bound until a reply is finished
      or raises, then always sends one stop request (its `finally` block). */
    method SearchFiles(path: string, pattern: string, start: Reply<StartData>, poll: nat -> Reply<StatusData>)
      returns (r: Result<seq<FileRecord>, string>, sent: seq<Call>)
      requires StartedTask(start).Some? ==> exists k: nat :: !Pending(poll(k))
      ensures |sent| >= 1 && sent[0] == SearchStartCall(FormatPath(nfc, path), pattern)
      ensures StartedTask(start).None? ==>
        r == Err(StartFailure(start, "Failed to start search task")) && |sent| == 1
      ensures StartedTask(start).Some? ==>
        var id := StartedTask(start).value;
        forall k: nat :: !Pending(poll(k)) ==>
          var e := PollRun(poll, 0, k + 1);
          && !e.TimedOut?
          && sent[1..] == Repeat(SearchCall(id, "list"), e.polls) + [SearchCall(id, "stop")]
          && (e.Finished? ==> r == Ok(FileRecords(e.status.files)))
          && (e.Raised? ==> r == Err(e.reason))
      ensures StartedTask(start).Some? ==> CountMethod(sent, "stop") == 1
    {
      var fp := FormatPath(nfc, path);
      var head := [SearchStartCall(fp, pattern)];
      sent := head;
      var started := StartedTask(start);
      if started.None? {
        r := Err(StartFailure(start, "Failed to start search task"));
        return;
      }
      var id := started.value;
      var polled;
      r, polled := PollSearch(id, poll);
      var stop := SearchCall(id, "stop");
      sent := head + polled + [stop];
      assert sent[1..] == polled + [stop];
      ghost var k: nat :| !Pending(poll(k));
      RepeatCount(SearchCall(id, "list"), PollRun(poll, 0, k + 1).polls, "stop");
      CountMethodNone(head, "stop");
      CountMethodAppend(head, polled, "stop");
      CountMethodAppend(head + polled, [stop], "stop");
      assert CountMethod([stop], "stop") == 1 by { assert [stop][1..] == []; }
    }
  }
}
