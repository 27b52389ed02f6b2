# Synology MCP bridge: a Dafny model

This project models the core of `mcp-server-synology`. That server exposes a Synology NAS to agent tools through four components:

- **Session registry.** `SynologyMCPServer` keeps, per NAS endpoint, the session id (`sid`) returned by login. It also caches the File Station and Download Station clients built with that sid. Login, logout, auto-login and the shutdown sweep `cleanup_sessions` update three maps: sessions, file-station clients and download-station clients.
- **File Station client.** It covers:
  - path canonicalisation (`_format_path`);
  - the error text composed from a failed response envelope;
  - name sanitising for rename and create-directory;
  - the delete guard (root and the critical-path list);
  - the final destination of a move;
  - three task-polling drivers. Delete and move have a bounded wait and send a stop request only on failure. Search has an unbounded wait and always sends a stop request.
- **Download Station client.** It covers:
  - the error-code table;
  - endpoint and verb selection;
  - the `list_tasks` limit rule and its version-2 → version-1 fallback;
  - the default-destination probe and its mutable preference;
  - the destination check, with suggestions, that comes before `create_task`, and `create_task`'s own version fallback;
  - the statistics fallback that sums task speeds;
  - the pause, resume and delete task actions.
- **iSCSI client.** It covers the record mapping with defaults, and `delete_lun`, which refuses to delete a mapped LUN.

How the model represents what it cannot see:

- **Replies are inputs.** Every HTTP exchange becomes a `Reply`:
  - a transport failure,
  - a success envelope with its data, or
  - a rejection carrying the code and the optional item errors.
- **Polls come from an oracle.** Status replies of a polling loop are a function `nat -> Reply`, indexed by half-second tick.
- **Every operation returns its trace.** The requests it sent are part of the result (`Run`, or a `sent` out-parameter). This is what lets the contracts state that no request is sent, or that exactly one stop request is sent.
- **Other inputs:**
  - `_check_destination_exists` is a predicate parameter `present`.
  - NFC normalisation is a `Normalizer` function parameter with stated laws.
  - Login and logout results and the configuration values are parameters.
  - The iteration order of the sessions dict is a parameter.

Modules:

| module | contents |
|---|---|
| `Wrappers` | `Option`, `Result` |
| `Strings` | Python string and `os.path` operations |
| `Transport` | requests, replies and the shared error text |
| `FileStation` | the File Station client |
| `DownloadStation` | the Download Station client |
| `Iscsi` | the iSCSI client |
| `McpServer` | the session registry |

The File Station and Download Station clients and the registry are classes. The clients are classes because the registry caches and aliases them, and the Download Station client has a mutable field. The iSCSI client changes no state, so it is a datatype with functions.

Behaviours of the code a reader may not expect:

- **Stop requests.** Delete and move send their stop request only when the task fails (error flag, raised poll or timeout); a successful task gets none. Search sends one on every exit.
- **`create_task` fallback.** It retries version 1 after *any* version-2 failure.
- **`list_tasks` fallback.** It decides by substring matches on the error text. Code 103 ("The requested method does not exist") does not contain "doesn't exist", so it is re-raised. Codes 102 and 104 are retried because their texts contain their own numbers.
- **iSCSI ids.** The uuid and target id are put into the request exactly as the caller gives them.
- **Search polling.** The `search_files` status loop has no bound: it ends only when a reply is finished or raises.
- **Missing speeds.** A task that has a transfer block but no speed in it makes the summed statistics unavailable. Python's `sum` raises on `None`, and that error is caught.

## Model

| member | source | states |
|---|---|---|
| `FileStation.SlashFormShape` | src/filestation/synology_filestation.py:84-91 | A run of two or more slashes becomes ""; every other input becomes absolute and loses its trailing '/' unless it is the root |
| `FileStation.FormatPathShape` | src/filestation/synology_filestation.py:84-93 | With NFC normalisation applied: the formatted path is "" exactly for runs of slashes, otherwise absolute with no trailing '/' except the root |
| `FileStation.CanonicalFixed` | src/filestation/synology_filestation.py:86-89 | A path that is already canonical passes through the slash rules unchanged |
| `FileStation.FormatPathIdempotent` | src/filestation/synology_filestation.py:84-93 | Formatting a formatted path changes nothing (for every input that is not a run of slashes) |
| `FileStation.FormatPathExamples` | src/filestation/synology_filestation.py:84-93 | "/" stays "/", "relative/path/" becomes "/relative/path", "//" becomes "" |
| `FileStation.SlashFormExample` | src/filestation/synology_filestation.py:86-89 | The leading slash is added and the trailing one dropped for "relative/path/" |
| `FileStation.FormatPath` | src/filestation/synology_filestation.py:84-93 | `_format_path`; its properties are stated by `FormatPathShape`, `FormatPathIdempotent` and `FormatPathExamples` |
| `Transport.ItemDetails` | src/filestation/synology_filestation.py:52-57 | One "Code c[ for path: p]" text per item error, in the order the backend listed them |
| `Transport.ApiErrorMessage` | src/filestation/synology_filestation.py:43-60 | The composed error text; its shape is stated by `ApiErrorMessageShape` |
| `Transport.ApiErrorMessageShape` | src/filestation/synology_filestation.py:43-60 | The error text is the prefix and the code (default "unknown"), plus " - Details: " and the item texts joined by "; " exactly when the item list is present and non-empty |
| `Transport.DetailSuffixSnoc` | src/filestation/synology_filestation.py:52-58 | Each further item error extends the details by "; " and its own text: list order is kept |
| `Transport.RepeatCount` | src/filestation/synology_filestation.py:484-488 | A run of n identical polls holds n requests of that method and none of any other |
| `Transport.CountMethodAppend` | src/filestation/synology_filestation.py:484-519 | Request counts of a trace add up over concatenation |
| `Strings.JsonRoundTrip` | src/filestation/synology_filestation.py:279-281 | The JSON string escaping used for array parameters is undone by unescaping: the backend recovers the exact path and name |
| `Strings.SplitJoin` | src/downloadstation/synology_downloadstation.py:290 | Splitting a comma-joined id list on ',' gives back the ids when none holds a comma |
| `Strings.StripShape` | src/filestation/synology_filestation.py:265-270 | `strip()` is empty exactly for all-whitespace text and otherwise neither starts nor ends with whitespace |
| `Strings.BasenameOfJoin` | src/filestation/synology_filestation.py:292-293 | Joining a directory and a separator-free name and reading the last component back yields the name |
| `Strings.TrimTrailing` | src/downloadstation/synology_downloadstation.py:13 | `rstrip('/')` removes only trailing '/' characters and leaves no '/' at the end |
| `FileStation.SynologyFileStation.constructor` | src/filestation/synology_filestation.py:15-18 | The client keeps the URL without trailing '/', the sid and the normaliser it was built with |
| `FileStation.SynologyFileStation.GetFileInfo` | src/filestation/synology_filestation.py:157-202 | One getinfo request for the formatted path, asking for time, size, owner and perm; the record of the first entry, "File not found: <path>" when the list is empty, the envelope's error otherwise |
| `FileStation.FileInfoOf` | src/filestation/synology_filestation.py:172-202 | The name, path, type and size keys of the entry; the three time keys exactly when `additional` has `time`; owner and group, "unknown" when missing, exactly when it has `owner`; the posix permissions, or "unknown", exactly when it has `perm` |
| `FileStation.CheckName` | src/filestation/synology_filestation.py:265-273 | "cannot be empty" exactly for all-whitespace names; "invalid" exactly when the stripped name has only separators; otherwise the cleaned name is non-empty, has no '/' or '\\', and is the stripped name with every '/' and then every '\\' removed, the other characters kept in order (`Strings.RemoveAllAppend`, `Strings.RemoveAllOne`) |
| `Strings.RemoveAllAppend` | src/filestation/synology_filestation.py:269 | `replace(c, '')` distributes over concatenation: the kept characters stay in order and in number |
| `Strings.RemoveAllOne` | src/filestation/synology_filestation.py:269 | A single character is dropped when it is `c` and kept otherwise |
| `FileStation.SynologyFileStation.RenameFile` | src/filestation/synology_filestation.py:253-302 | No request for a refused name; otherwise one rename request with the path and the cleaned name as JSON arrays; success exactly when the reply succeeds, with the new path under the old parent |
| `FileStation.RenamedShape` | src/filestation/synology_filestation.py:291-302 | The record keeps the old path and name and the cleaned name is the last component of the new path |
| `FileStation.SynologyFileStation.CreateDirectory` | src/filestation/synology_filestation.py:380-430 | The folder-path and name refusals send nothing; otherwise exactly one create request; "no folder data returned" on an empty folder list; the record's full path and directory flag fall back to "<folder>/<name>" and true |
| `FileStation.SynologyFileStation.CreateFolderRequest` | src/filestation/synology_filestation.py:408-430 | Success exactly when the reply succeeds with at least one folder, the record built from the first folder |
| `FileStation.SynologyFileStation.CreateFileTarget` | src/filestation/synology_filestation.py:315-326 | The file path is refused exactly when it formats to "" or "/"; otherwise the file name is non-empty, so "Invalid filename" is unreachable |
| `FileStation.DeleteRefusal` | src/filestation/synology_filestation.py:443-451 | The delete guard as written; `DeleteRefusalExact`, `SubPathPasses` and `DeleteRefusalExamples` state what it refuses |
| `FileStation.DeleteRefusalExact` | src/filestation/synology_filestation.py:443-451 | The two-part critical test refuses exactly "", "/" and the seven listed paths |
| `FileStation.SubPathPasses` | src/filestation/synology_filestation.py:448-451 | Any path below a critical path passes the guard |
| `FileStation.DeleteRefusalExamples` | src/filestation/synology_filestation.py:443-451 | "/" and "" are refused as root, "/etc" as critical; "/volume1/x" and "/volume10" pass |
| `FileStation.BasenameOfCanonical` | src/filestation/synology_filestation.py:460 | The item name of a non-root formatted path is non-empty and has no separator |
| `FileStation.PollRun` | src/filestation/synology_filestation.py:484-509 | The poll run; its meaning is stated by `PollRunMeaning`, `PollRunStable` and `PollRunReaches` |
| `FileStation.PollRunMeaning` | src/filestation/synology_filestation.py:484-509 | A bounded poll run never exceeds its limit; every poll before the last was pending; it times out exactly when all polls up to the limit were pending |
| `FileStation.PollRunStable` | src/filestation/synology_filestation.py:224-233 | Once a terminal reply lies below the limit, the limit no longer changes the run: the unbounded loop's outcome is well defined |
| `FileStation.PollRunReaches` | src/filestation/synology_filestation.py:224-233 | A run that meets a terminal reply before its limit does not time out |
| `FileStation.PollVerdict` | src/filestation/synology_filestation.py:489-509 | Success exactly when the task finished without an error flag, with its status; a timeout gives the timeout text |
| `FileStation.SynologyFileStation.AwaitTask` | src/filestation/synology_filestation.py:480-520 | The wait sends one status poll per tick, at most 2 × the wait limit; its verdict is that of the poll run; exactly one stop request on every failure (error flag, raised poll, timeout) and none on success |
| `FileStation.SynologyFileStation.WaitTraceCounts` | src/filestation/synology_filestation.py:511-520 | A wait trace has one status request per poll and one stop request exactly when the task failed |
| `FileStation.SynologyFileStation.RunTask` | src/filestation/synology_filestation.py:474-520 | No task id: the start failure is reported and nothing more is sent; otherwise the bounded wait follows the start request |
| `FileStation.SynologyFileStation.Delete` | src/filestation/synology_filestation.py:432-520 | Refused paths send nothing; otherwise a metadata lookup and a start request with the recursion flag; at most 240 status polls; one stop request exactly on failure after a task id; the record names the path, item name, kind and task id |
| `FileStation.SynologyFileStation.StartDelete` | src/filestation/synology_filestation.py:453-520 | Recursive exactly when the metadata lookup reports a directory (false when it raises); the start request carries that flag; the wait as above |
| `FileStation.SynologyFileStation.MoveFile` | src/filestation/synology_filestation.py:552-635 | Invalid source or destination send nothing; otherwise one start request, at most 120 status polls, one stop request exactly on failure after a task id |
| `FileStation.SynologyFileStation.StartMove` | src/filestation/synology_filestation.py:572-635 | The start request carries both paths, overwrite and remove_src; success reports the computed final destination |
| `FileStation.MoveDestination` | src/filestation/synology_filestation.py:604-611 | The final destination; its shape is stated by `MoveDestinationShape` |
| `FileStation.MoveDestinationShape` | src/filestation/synology_filestation.py:604-611 | A destination without extension receives "/" and the source's name; one with an extension is kept as is |
| `FileStation.FileRecords` | src/filestation/synology_filestation.py:235-241 | One search record per backend file, in order |
| `FileStation.SynologyFileStation.PollSearch` | src/filestation/synology_filestation.py:220-236 | `list` is polled until a reply is finished or raises; the polls sent and the result are those of the poll run up to any terminal tick |
| `FileStation.SynologyFileStation.SearchFiles` | src/filestation/synology_filestation.py:204-251 | No task id: the start failure and no stop; otherwise the polls and then exactly one stop request on every exit, success included |
| `DownloadStation.ErrorMessage` | src/downloadstation/synology_downloadstation.py:68-92 | The table lookup; its properties are stated by `UnknownCodeMessage` and `ErrorMessageExamples` |
| `DownloadStation.UnknownCodeMessage` | src/downloadstation/synology_downloadstation.py:92 | Every code x outside the table gets "Unknown error: x" |
| `DownloadStation.ErrorMessageExamples` | src/downloadstation/synology_downloadstation.py:68-92 | Examples: codes 102, 106 and 410 map to their table texts; "999" and "unknown" to the unknown-error text |
| `DownloadStation.UnknownCodeEchoed` | src/downloadstation/synology_downloadstation.py:92 | A code outside the table appears in its own message |
| `DownloadStation.DsAnswer` | src/downloadstation/synology_downloadstation.py:28-66 | The data exactly when the envelope succeeded; a transport failure gives a "Network error: " text, a rejection a "Download Station API error " text |
| `DownloadStation.SynologyDownloadStation.constructor` | src/downloadstation/synology_downloadstation.py:12-26 | URL without trailing '/', the sid, and the preferred destination "downloads" |
| `DownloadStation.SynologyDownloadStation.Request` | src/downloadstation/synology_downloadstation.py:28-53 | POST exactly for method `create`, GET otherwise, with api, version, method and sid |
| `DownloadStation.SynologyDownloadStation.EndpointChoice` | src/downloadstation/synology_downloadstation.py:38-46 | The endpoint depends on the API name only: entry.cgi for the DownloadStation2 prefix and unknown APIs, info.cgi and statistic.cgi for the two legacy APIs |
| `DownloadStation.SentLimit` | src/downloadstation/synology_downloadstation.py:116-119 | The limit sent is always positive: the caller's when positive, else 100 |
| `DownloadStation.PatternIsCode` | src/downloadstation/synology_downloadstation.py:61 | A three-digit marker occurs in a rejection text exactly when it is the text's own code, given the rest of the text lacks its last digit |
| `DownloadStation.FallsBackToV1` | src/downloadstation/synology_downloadstation.py:131 | The substring test; `RejectionFallback` and `NetworkFallback` state which failures pass it |
| `DownloadStation.RejectionFallback` | src/downloadstation/synology_downloadstation.py:58-140 | For a three-character code whose table text has none of '2', '4', apostrophe: the fallback fires exactly for 102 and 104 |
| `DownloadStation.MethodRejectionReraised` | src/downloadstation/synology_downloadstation.py:127-140 | Rejection 103 does not trigger the fallback |
| `DownloadStation.TimeoutRejectionReraised` | src/downloadstation/synology_downloadstation.py:127-140 | Rejection 106 does not trigger the fallback |
| `DownloadStation.ApiAndVersionRejectionsRetried` | src/downloadstation/synology_downloadstation.py:131 | Rejections 102 and 104 trigger the fallback |
| `DownloadStation.NetworkFallback` | src/downloadstation/synology_downloadstation.py:65-131 | A network error falls back exactly when its underlying reason names a marker |
| `DownloadStation.ListOutcome` | src/downloadstation/synology_downloadstation.py:114-187 | What `list_tasks` returns or raises; stated by `ListFallbackRule`, `MethodRejectionListing` and `ApiRejectionListing` |
| `DownloadStation.TaskRecordOf` | src/downloadstation/synology_downloadstation.py:143-181 | Id, title and status carried over; detail and transfer parts present exactly when the backend sent them |
| `DownloadStation.CollectTasks` | src/downloadstation/synology_downloadstation.py:142-181 | The appending loop yields one record per backend task, in order |
| `DownloadStation.ListedTasks` | src/downloadstation/synology_downloadstation.py:183-187 | Record i is the record of backend task i; total defaults to the number of tasks and offset to the caller's |
| `DownloadStation.ListFallbackRule` | src/downloadstation/synology_downloadstation.py:127-140 | Version-2 data is listed; a failure without a marker is re-raised; with a marker version 1 answers, and an empty list at the caller's offset when it fails too |
| `DownloadStation.MethodRejectionListing` | src/downloadstation/synology_downloadstation.py:127-140 | `list_tasks` re-raises a 103 rejection |
| `DownloadStation.ApiRejectionListing` | src/downloadstation/synology_downloadstation.py:127-140 | `list_tasks` always succeeds after a 102 rejection |
| `DownloadStation.SynologyDownloadStation.ListTasks` | src/downloadstation/synology_downloadstation.py:114-187 | The result is the fallback rule's; the trace is the version-2 list request, then the version-1 request with only offset and limit exactly when the fallback fires |
| `DownloadStation.FirstExisting` | src/downloadstation/synology_downloadstation.py:389-392 | None exactly when no candidate exists; otherwise an existing candidate |
| `DownloadStation.FirstExistingIsFirst` | src/downloadstation/synology_downloadstation.py:389-392 | The chosen candidate is preceded only by missing ones |
| `DownloadStation.DefaultDestination` | src/downloadstation/synology_downloadstation.py:378-396 | The preferred destination when it exists; otherwise the first existing alternative in list order; the preferred one when nothing exists; the result exists exactly when the preferred one or some alternative does |
| `DownloadStation.SynologyDownloadStation.CommonDestinations` | src/downloadstation/synology_downloadstation.py:362-376 | The definition of the candidate list: the preferred destination followed by the six fixed folders |
| `DownloadStation.SynologyDownloadStation.GetDefaultDestination` | src/downloadstation/synology_downloadstation.py:378-396 | The probing loop with early return computes the default destination |
| `DownloadStation.Existing` | src/downloadstation/synology_downloadstation.py:219-222 | The suggestions are exactly the existing candidates, no more than there are candidates |
| `DownloadStation.ExistingSnoc` | src/downloadstation/synology_downloadstation.py:220-222 | Each probed candidate is appended when it exists: list order is kept |
| `DownloadStation.Suggestions` | src/downloadstation/synology_downloadstation.py:218-222 | The appending loop yields the existing common destinations in list order |
| `DownloadStation.IdListRoundTrip` | src/downloadstation/synology_downloadstation.py:287-303 | The comma-joined id list splits back into the ids |
| `DownloadStation.SynologyDownloadStation.CreateTask` | src/downloadstation/synology_downloadstation.py:202-285 | A missing destination sends no create request and reports the existing common destinations; otherwise the submission below |
| `DownloadStation.SynologyDownloadStation.ResolveDestination` | src/downloadstation/synology_downloadstation.py:211-212 | A missing or empty destination is replaced by the default destination |
| `DownloadStation.SynologyDownloadStation.Submit` | src/downloadstation/synology_downloadstation.py:248-285 | The requests sent and the result are those of the submission rule |
| `DownloadStation.SynologyDownloadStation.CreateOutcome` | src/downloadstation/synology_downloadstation.py:248-285 | The submission rule; stated by `CreateFallbackRule`, `CreateFailureRule` and `CreateRequestsPost` |
| `DownloadStation.SynologyDownloadStation.CreateFallbackRule` | src/downloadstation/synology_downloadstation.py:248-283 | A version-1 create is sent exactly when version 2 failed, whatever the error; the first success's data is returned |
| `DownloadStation.SynologyDownloadStation.CreateFailureRule` | src/downloadstation/synology_downloadstation.py:261-285 | When both versions fail, the message wraps the version-2 error |
| `DownloadStation.SynologyDownloadStation.CreateRequestsPost` | src/downloadstation/synology_downloadstation.py:234-278 | Both create requests are POSTs with the destination, and credentials only when non-empty |
| `DownloadStation.SynologyDownloadStation.SetDefaultDestination` | src/downloadstation/synology_downloadstation.py:398-415 | Returns whether the destination exists and adopts it only then |
| `DownloadStation.SynologyDownloadStation.EnsureDownloadsFolder` | src/downloadstation/synology_downloadstation.py:417-430 | Returns whether "downloads" exists and adopts it only then |
| `DownloadStation.SumSpeeds` | src/downloadstation/synology_downloadstation.py:319-320 | The sum exists exactly when every task's speed does |
| `DownloadStation.SumSpeedsSnoc` | src/downloadstation/synology_downloadstation.py:319-320 | Each further task adds its own speed |
| `DownloadStation.SumSpeedsNoTransfer` | src/downloadstation/synology_downloadstation.py:319-320 | Tasks without a transfer block count as 0 |
| `DownloadStation.SummedStatistics` | src/downloadstation/synology_downloadstation.py:315-332 | The statistics fallback; the sums it reports are stated by `SumSpeeds`, `SumSpeedsSnoc` and `SumSpeedsNoTransfer` |
| `DownloadStation.SynologyDownloadStation.GetStatistics` | src/downloadstation/synology_downloadstation.py:305-332 | The backend figures with 0 for missing keys; after a failure, the sums over a 100-task listing, or "not available" |
| `DownloadStation.SynologyDownloadStation.DeleteTasks` | src/downloadstation/synology_downloadstation.py:287-293 | One GET delete request with the joined ids and the force flag; the result is `_make_request`'s answer to the reply (`DsAnswer`): the reply's data on success, the network or rejection error text otherwise |
| `DownloadStation.SynologyDownloadStation.PauseTasks` | src/downloadstation/synology_downloadstation.py:295-298 | One pause request with the joined ids; the result is `_make_request`'s answer to the reply (`DsAnswer`): the reply's data on success, the network or rejection error text otherwise |
| `DownloadStation.SynologyDownloadStation.ResumeTasks` | src/downloadstation/synology_downloadstation.py:300-303 | One resume request with the joined ids; the result is `_make_request`'s answer to the reply (`DsAnswer`): the reply's data on success, the network or rejection error text otherwise |
| `Iscsi.SynologyISCSI.New` | src/iscsi/synology_iscsi.py:14-17 | URL without trailing '/', and the sid |
| `Iscsi.RejectionMentionsMarker` | src/iscsi/synology_iscsi.py:33-49 | Every rejection text of this client contains "iSCSI API error" |
| `Iscsi.RecordDefaults` | src/iscsi/synology_iscsi.py:63-168 | For every LUN and target, each defaulted key takes its default when missing (size and used size 0, the flags false, no targets, no mapped LUNs, 0 sessions) and the sent value otherwise; the plain keys are copied |
| `Iscsi.LunRecordOf` | src/iscsi/synology_iscsi.py:63-80 | The LUN record mapping; its defaults are stated by `RecordDefaults` |
| `Iscsi.SynologyISCSI.ListLuns` | src/iscsi/synology_iscsi.py:53-80 | One list request; one record per backend LUN in order; a rejection gives the composed iSCSI error |
| `Iscsi.SynologyISCSI.GetLun` | src/iscsi/synology_iscsi.py:82-111 | One get request with the uuid; the detail record of the `lun` object, every key defaulted when it is missing |
| `Iscsi.CheckFailure` | src/iscsi/synology_iscsi.py:133-136 | Messages naming an iSCSI API error are wrapped as "not found or inaccessible"; others pass unchanged |
| `Iscsi.StillMappedUnmarked` | src/iscsi/synology_iscsi.py:129-134 | The still-mapped message is not wrapped when the uuid has no 'S' |
| `Iscsi.StillMappedMarked` | src/iscsi/synology_iscsi.py:129-135 | The still-mapped message is wrapped when the uuid itself names an iSCSI API error |
| `Iscsi.SynologyISCSI.DeleteLun` | src/iscsi/synology_iscsi.py:113-145 | The query is always sent first and at most one delete follows; success only when the delete request was sent and succeeded, echoing the uuid |
| `Iscsi.SynologyISCSI.DeleteMappedRefused` | src/iscsi/synology_iscsi.py:126-139 | A LUN reported as mapped is never deleted: only the query is sent and an error is raised |
| `Iscsi.SynologyISCSI.DeleteQueryRejected` | src/iscsi/synology_iscsi.py:133-135 | A rejected query yields "not found or inaccessible" around the iSCSI error, with no delete request |
| `Iscsi.SynologyISCSI.DeleteQueryFailed` | src/iscsi/synology_iscsi.py:133-136 | Any other query failure is re-raised unchanged, with no delete request |
| `Iscsi.SynologyISCSI.DeleteUnmappedProceeds` | src/iscsi/synology_iscsi.py:104-145 | A LUN not reported as mapped (a missing flag included) is deleted and the record echoes the uuid |
| `Iscsi.SynologyISCSI.DeleteOnlyWhenUnmapped` | src/iscsi/synology_iscsi.py:125-139 | The delete request is sent exactly when the query succeeded and the LUN is unmapped |
| `Iscsi.SynologyISCSI.ListTargets` | src/iscsi/synology_iscsi.py:147-168 | One list request; one record per backend target in order |
| `Iscsi.SynologyISCSI.UnmapLun` | src/iscsi/synology_iscsi.py:170-192 | One unmap request carrying the uuid and target id as given; both echoed on success |
| `McpServer.GetBaseUrl` | src/mcp_server.py:212-220 | A non-empty URL exactly when the argument or the configuration gives one: the argument when non-empty, else the configured URL; otherwise the configuration error |
| `McpServer.SynologyMCPServer.constructor` | src/mcp_server.py:25-31 | All maps empty; the registry invariant holds |
| `McpServer.SynologyMCPServer.GetFileStation` | src/mcp_server.py:33-42 | No session: error and nothing changes; a cached client is returned unchanged; otherwise a fresh client with the current sid is cached; the invariant is kept |
| `McpServer.SynologyMCPServer.GetDownloadStation` | src/mcp_server.py:44-53 | As above for Download Station clients |
| `McpServer.SynologyMCPServer.Adopt` | src/mcp_server.py:240-246 | The new sid is stored and both cached clients of that endpoint evicted; other endpoints untouched |
| `McpServer.SynologyMCPServer.Login` | src/mcp_server.py:222-258 | An auth helper is recorded; success stores the sid and evicts the endpoint's clients; failure changes no map |
| `McpServer.SynologyMCPServer.AutoLogin` | src/mcp_server.py:55-103 | Disabled or without credentials: nothing changes; success as login; denial or exception: the stop-server error, no session change |
| `McpServer.SynologyMCPServer.Logout` | src/mcp_server.py:260-316 | No session: nothing changes; success or code 105/106/no_session removes the session and both clients; any other code changes nothing; the reply carries the code and the message, "Unknown error" when missing; a raised logout propagates |
| `McpServer.SynologyMCPServer.Forget` | src/mcp_server.py:277-283 | The session and both cached clients of the endpoint are removed, the auth helpers kept; the invariant is kept |
| `McpServer.SynologyMCPServer.CleanupSessions` | src/mcp_server.py:1092-1128 | Every endpoint is visited; the notes are one per endpoint with a helper, in visiting order; an endpoint survives exactly when its logout raised; the invariant is kept |
| `McpServer.SynologyMCPServer.Visit` | src/mcp_server.py:1097-1126 | One sweep step: the note for an endpoint with a helper, and local data dropped unless its logout raised |
| `McpServer.SynologyMCPServer.Drop` | src/mcp_server.py:1118-1122 | The session and both clients of the endpoint are removed; the invariant is kept |
| `McpServer.CleanupNote` | src/mcp_server.py:1103-1126 | The entry names the endpoint; "Logged out successfully" exactly for a successful logout; "already expired" exactly for the expiry codes; "failed" with the code exactly for other codes; "Exception" with the reason exactly when the logout raised |
| `McpServer.CleanupNotes` | src/mcp_server.py:1094-1128 | No more notes than endpoints |
| `McpServer.CleanupNotesSnoc` | src/mcp_server.py:1096-1126 | Each visit appends at most one note, after those of earlier endpoints |
| `McpServer.CleanupNotesOrder` | src/mcp_server.py:1096-1128 | When every endpoint has a helper, the i-th note is the i-th endpoint's |
| `McpServer.TrimmedStep` | src/mcp_server.py:1117-1122 | Dropping one more visited endpoint keeps the maps equal to the start maps minus the non-survivors |
| `McpServer.CleanupForgetsRefusedLogout` | src/mcp_server.py:1106-1122 | Every logout refused with a code outside the expiry codes keeps the session for `_handle_logout` but loses it in the cleanup sweep |
| `McpServer.SynologyMCPServer.CleanupSurvivors` | src/mcp_server.py:1096-1128 | Under the invariant every session has a helper: survivors are exactly the endpoints whose logout raised, and every endpoint gets a note |

## Left out

- HTTP transport, `raise_for_status` and JSON parsing are not modelled. Each exchange is an input `Reply`, and a poll sequence is an oracle indexed by tick.
- `time.sleep` is not modelled. The wait limits are counted in half-second ticks: 240 for delete, 120 for move.
- `SynologyAuth` and `config` are outside this model. Their login and logout results, the auto-login switch, the credentials flag and the configured URL are parameters.
- `unicodedata.normalize('NFC', …)` is a `Normalizer` parameter. Only its laws are assumed: idempotent, keeps a leading or trailing '/', and identity on ASCII.
- `os.path` is idealised as POSIX string functions in `Strings`.
- `json.dumps` of a one-element array is modelled as `JsonArray`. `Strings.JsonEscape` escapes only '"' and '\\'. The `\uXXXX` escapes of control and non-ASCII characters are not modelled.
- `_check_destination_exists` is the predicate `present`. Its own getinfo requests are not in the trace of `create_task`, `get_default_destination` or the setters.
- stderr diagnostics, `traceback`, the agent-protocol tool table, the dispatch chains, reply text formatting, `run` and the stdio server are not modelled. They are I/O and lookup tables. The replies of the registry handlers are datatypes, not their emoji texts.
- `create_file`'s temporary file and multipart upload, `get_file_content`, `list_shares`, `list_directory`, `get_info`, `get_config` and `list_downloaded_files` are not modelled. They are file I/O or plain field mappings outside the core. Only `create_file`'s path validation is modelled.
- The `size_gb` and `used_size_gb` float roundings of the iSCSI records are left out (floating point).
- The passthrough task fields `username`, `status_extra`, the three times and the peer counts are not modelled. Only the fields used by the statistics and the record shape are kept.
- `FileStation.SynologyFileStation.SearchFiles` requires that some poll reply is terminal once a task id exists. Without one the source loops forever, and the model states nothing about that case.
- `DownloadStation.SynologyDownloadStation.GetStatistics` states only the first two requests of its fallback trace. The optional version-1 listing request is covered by `ListTasks`, not restated here.
- `Iscsi.SynologyISCSI.DeleteMappedRefused` states the exact error text only for uuids without an 'S' and for uuids that contain "iSCSI API error". For other uuids it states only that an error is raised.
- `McpServer.SynologyMCPServer.Logout` models the reply as a datatype carrying the endpoint, code and message, not the formatted text with the JSON dump.
- Concurrency between tool calls is not modelled: each handler runs to completion.
