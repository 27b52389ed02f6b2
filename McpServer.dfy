/** The server's session registry: which endpoints have an authentication
    helper, which have a live session id, and the cached File Station and
    Download Station clients built from those ids. Login and logout results
    come from an authentication helper that is not part of this model, so
    they are inputs. */
module McpServer {
  import opened Wrappers
  import opened Strings
  import FileStation
  import DownloadStation

  /** What the authentication helper's `login` produced. `Denied` carries
      the helper's whole reply as one text; the source renders it with
      `json.dumps(result, indent=2)` in `_handle_login` and with `str(result)`
      in auto-login, and this model does not tell the two renderings apart. */
  datatype LoginOutcome =
    | Granted(sid: string)
    | Denied(response: string)
    | LoginRaised(reason: string)

  /** What the authentication helper's `logout` produced: success, a reply
      with an error code and message (either may be missing), or an
      exception. */
  datatype LogoutOutcome =
    | LoggedOut
    | LogoutFailed(code: Option<string>, message: Option<string>)
    | LogoutRaised(reason: string)

  /** The error codes that mean the session had already ended. */
  const ExpiredCodes: set<string> := {"105", "106", "no_session"}

  function LogoutCode(o: LogoutOutcome): string
    requires o.LogoutFailed?
  {
    o.code.GetOr("unknown")
  }

  /** Whether `_handle_logout` forgets the session: on success, and on a
      failure whose code says the session had already ended. */
  predicate LogoutClears(o: LogoutOutcome) {
    o.LoggedOut? || (o.LogoutFailed? && LogoutCode(o) in ExpiredCodes)
  }

  /** The reply `_handle_logout` gives. */
  datatype LogoutReply =
    | NoActiveSession(url: string)
    | Terminated(url: string, sid: string)
    | AlreadyExpired(url: string, code: string, message: string)
    | LogoutRefused(url: string, code: string, message: string)

  function NoSessionMessage(url: string): string {
    "No active session for " + url + ". Please login first."
  }

  const MissingBaseUrl := "No base_url provided and SYNOLOGY_URL not configured in .env"

  /** `_get_base_url`: the argument when non-empty, else the configured
      URL when non-empty, else an error. */
  function GetBaseUrl(argument: Option<string>, configured: Option<string>): (r: Result<string, string>)
    ensures r.Ok? <==> (argument.Some? && argument.value != "") || (configured.Some? && configured.value != "")
    ensures r.Ok? ==> r.value != ""
    ensures argument.Some? && argument.value != "" ==> r == Ok(argument.value)
    ensures (argument.None? || argument.value == "") && configured.Some? && configured.value != "" ==> r == Ok(configured.value)
    ensures r.Err? ==> r.error == MissingBaseUrl
  {
    if argument.Some? && argument.value != "" then Ok(argument.value)
    else if configured.Some? && configured.value != "" then Ok(configured.value)
    else Err(MissingBaseUrl)
  }

  function AutoLoginFailure(detail: string): string {
    "Auto-login failed - stopping server. Auto-login error: " + detail
  }

  /** One entry of the list `cleanup_sessions` returns. */
  datatype CleanupEntry =
    | LoggedOutEntry(url: string)
    | ExpiredEntry(url: string)
    | FailedEntry(url: string, code: string)
    | ExceptionEntry(url: string, reason: string)
  {
    /** The entry's text. */
    function Text(): string {
      match this
      case LoggedOutEntry(url) => "✅ " + url + ": Logged out successfully"
      case ExpiredEntry(url) => "⚠️ " + url + ": Session already expired"
      case FailedEntry(url, code) => "❌ " + url + ": Logout failed - " + code
      case ExceptionEntry(url, reason) => "❌ " + url + ": Exception - " + reason
    }
  }

  /** The entry for one endpoint whose helper exists. */
  function CleanupNote(url: string, o: LogoutOutcome): (e: CleanupEntry)
    ensures e.url == url
    ensures e.ExpiredEntry? <==> o.LogoutFailed? && LogoutClears(o)
    ensures e.FailedEntry? <==> o.LogoutFailed? && !LogoutClears(o)
    ensures e.LoggedOutEntry? <==> o.LoggedOut?
    ensures e.ExceptionEntry? <==> o.LogoutRaised?
    ensures e.FailedEntry? ==> e.code == LogoutCode(o)
    ensures e.ExceptionEntry? ==> e.reason == o.reason
  {
    match o
    case LoggedOut => LoggedOutEntry(url)
    case LogoutFailed(_, _) =>
      if LogoutCode(o) in ExpiredCodes then ExpiredEntry(url) else FailedEntry(url, LogoutCode(o))
    case LogoutRaised(reason) => ExceptionEntry(url, reason)
  }

  /** The list `cleanup_sessions` returns after visiting `order`: one entry
      per endpoint that has an authentication helper, in visiting order. */
  function CleanupNotes(order: seq<string>, auths: set<string>, outcome: string -> LogoutOutcome): (notes: seq<CleanupEntry>)
    ensures |notes| <= |order|
  {
    if order == [] then []
    else
      var last := order[|order| - 1];
      CleanupNotes(order[..|order| - 1], auths, outcome) + (if last in auths then [CleanupNote(last, outcome(last))] else [])
  }

  /** Visiting one more endpoint adds its entry, if it has a helper. */
  lemma CleanupNotesSnoc(order: seq<string>, url: string, auths: set<string>, outcome: string -> LogoutOutcome)
    ensures CleanupNotes(order + [url], auths, outcome)
      == CleanupNotes(order, auths, outcome) + (if url in auths then [CleanupNote(url, outcome(url))] else [])
  {
    assert (order + [url])[..|order|] == order;
  }

  /** When every endpoint has a helper, entry `i` is the note of the `i`th
      endpoint visited. */
  lemma {:induction false} CleanupNotesOrder(order: seq<string>, auths: set<string>, outcome: string -> LogoutOutcome)
    requires forall i :: 0 <= i < |order| ==> order[i] in auths
    ensures var notes := CleanupNotes(order, auths, outcome);
      |notes| == |order| && forall i :: 0 <= i < |order| ==> notes[i] == CleanupNote(order[i], outcome(order[i]))
  {
    if order != [] {
      var front := order[..|order| - 1];
      CleanupNotesOrder(front, auths, outcome);
      var notes := CleanupNotes(order, auths, outcome);
      var last := order[|order| - 1];
      assert notes == CleanupNotes(front, auths, outcome) + [CleanupNote(last, outcome(last))];
      forall i | 0 <= i < |order|
        ensures notes[i] == CleanupNote(order[i], outcome(order[i]))
      {
        if i < |front| {
          assert notes[i] == CleanupNotes(front, auths, outcome)[i];
          assert front[i] == order[i];
        }
      }
    }
  }

  /** Whether an endpoint keeps its session through `cleanup_sessions`:
      only when its helper's logout raised, since the local data is cleared
      after every logout that returns, and also when there is no helper. */
  predicate SurvivesCleanup(url: string, auths: set<string>, outcome: string -> LogoutOutcome) {
    url in auths && outcome(url).LogoutRaised?
  }

  /** `now` is `before` without the visited endpoints that do not survive
      cleanup. */
  ghost predicate Trimmed<V>(now: map<string, V>, before: map<string, V>, visited: seq<string>,
                             auths: set<string>, outcome: string -> LogoutOutcome) {
    && (forall u :: u in now <==> u in before && (u in visited ==> SurvivesCleanup(u, auths, outcome)))
    && (forall u :: u in now ==> now[u] == before[u])
  }

  lemma TrimmedStep<V>(now: map<string, V>, next: map<string, V>, before: map<string, V>, visited: seq<string>,
                       url: string, auths: set<string>, outcome: string -> LogoutOutcome)
    requires Trimmed(now, before, visited, auths, outcome)
    requires next == if SurvivesCleanup(url, auths, outcome) then now else now - {url}
    ensures Trimmed(next, before, visited + [url], auths, outcome)
  {
  }

  /** Cleanup is more forgiving than an explicit logout: it forgets a
      session that logout would keep, when the logout is refused for a
      reason other than expiry. */
  lemma CleanupForgetsRefusedLogout(url: string, auths: set<string>, outcome: string -> LogoutOutcome)
    requires outcome(url).LogoutFailed? && LogoutCode(outcome(url)) !in ExpiredCodes
    ensures !LogoutClears(outcome(url)) && !SurvivesCleanup(url, auths, outcome)
  {
  }

  class SynologyMCPServer {
    /** The endpoints that have an authentication helper. */
    var auths: set<string>
    /** endpoint -> session id */
    var sessions: map<string, string>
    var fileStations: map<string, FileStation.SynologyFileStation>
    var downloadStations: map<string, DownloadStation.SynologyDownloadStation>
    /** The Unicode normaliser handed to every File Station client. */
    const nfc: FileStation.Normalizer

    /** Every session belongs to an endpoint with a helper, and every
      cached client belongs to an endpoint with a session and carries that
      session's id. */
    ghost predicate Valid()
      reads this
    {
      && sessions.Keys <= auths
      && fileStations.Keys <= sessions.Keys
      && downloadStations.Keys <= sessions.Keys
      && (forall u :: u in fileStations ==>
            && fileStations[u].sessionId == sessions[u] && fileStations[u].baseUrl == TrimTrailing(u, '/')
            && fileStations[u].nfc == nfc)
      && (forall u :: u in downloadStations ==>
            downloadStations[u].sessionId == sessions[u] && downloadStations[u].baseUrl == TrimTrailing(u, '/'))
    }

    constructor (normalizer: FileStation.Normalizer)
      ensures Valid()
      ensures auths == {} && sessions == map[] && fileStations == map[] && downloadStations == map[]
      ensures nfc == normalizer
    {
      auths := {};
      sessions := map[];
      fileStations := map[];
      downloadStations := map[];
      nfc := normalizer;
    }

    /** `_get_filestation`: refused without a session; otherwise the cached
      client, created on first use with the endpoint's session id. */
    method GetFileStation(url: string) returns (r: Result<FileStation.SynologyFileStation, string>)
      requires Valid()
      modifies this
      ensures Valid()
      ensures auths == old(auths) && sessions == old(sessions) && downloadStations == old(downloadStations)
      ensures url !in sessions ==> r == Err(NoSessionMessage(url)) && fileStations == old(fileStations)
      ensures url in sessions ==> r.Ok? && r.value.sessionId == sessions[url] && r.value.nfc == nfc
      ensures url in old(fileStations) ==> r == Ok(old(fileStations)[url]) && fileStations == old(fileStations)
      ensures url in sessions && url !in old(fileStations) ==>
        fresh(r.value) && fileStations == old(fileStations)[url := r.value]
    {
      if url !in sessions {
        return Err(NoSessionMessage(url));
      }
      if url !in fileStations {
        var fs := new FileStation.SynologyFileStation(url, sessions[url], nfc);
        fileStations := fileStations[url := fs];
      }
      r := Ok(fileStations[url]);
    }

    /** `_get_downloadstation`: as `GetFileStation`, for Download Station
      clients. */
    method GetDownloadStation(url: string) returns (r: Result<DownloadStation.SynologyDownloadStation, string>)
      requires Valid()
      modifies this
      ensures Valid()
      ensures auths == old(auths) && sessions == old(sessions) && fileStations == old(fileStations)
      ensures url !in sessions ==> r == Err(NoSessionMessage(url)) && downloadStations == old(downloadStations)
      ensures url in sessions ==> r.Ok? && r.value.sessionId == sessions[url]
      ensures url in old(downloadStations) ==> r == Ok(old(downloadStations)[url]) && downloadStations == old(downloadStations)
      ensures url in sessions && url !in old(downloadStations) ==>
        fresh(r.value) && downloadStations == old(downloadStations)[url := r.value]
    {
      if url !in sessions {
        return Err(NoSessionMessage(url));
      }
      if url !in downloadStations {
        var ds := new DownloadStation.SynologyDownloadStation(url, sessions[url]);
        downloadStations := downloadStations[url := ds];
      }
      r := Ok(downloadStations[url]);
    }

    /** A new session id replaces the old one and drops the clients built
      from the old one. */
    method Adopt(url: string, sid: string)
      requires Valid() && url in auths
      modifies this
      ensures Valid()
      ensures auths == old(auths) && sessions == old(sessions)[url := sid]
      ensures fileStations == old(fileStations) - {url} && downloadStations == old(downloadStations) - {url}
    {
      sessions := sessions[url := sid];
      fileStations := fileStations - {url};
      downloadStations := downloadStations - {url};
    }

    /** The session-related part of `_handle_login`: the helper is created
      whatever the outcome; a granted login installs the new session id and
      drops the endpoint's cached clients. */
    method Login(url: string, outcome: LoginOutcome) returns (r: Result<string, string>)
      requires Valid()
      modifies this
      ensures Valid()
      ensures auths == old(auths) + {url}
      ensures outcome.Granted? ==>
        && r == Ok(outcome.sid)
        && sessions == old(sessions)[url := outcome.sid]
        && fileStations == old(fileStations) - {url} && downloadStations == old(downloadStations) - {url}
      ensures !outcome.Granted? ==>
        && r.Err?
        && sessions == old(sessions) && fileStations == old(fileStations) && downloadStations == old(downloadStations)
    {
      auths := auths + {url};
      match outcome {
        case Granted(sid) =>
          Adopt(url, sid);
          r := Ok(sid);
        case Denied(response) =>
          r := Err("Authentication failed: " + response);
        case LoginRaised(reason) =>
          r := Err(reason);
      }
    }

    /** `_auto_login_if_configured`: nothing happens unless auto-login is
      enabled and credentials are configured; then a login to the
      configured endpoint, whose failure stops the server. */
    method AutoLogin(enabled: bool, hasCredentials: bool, url: string, outcome: LoginOutcome)
      returns (r: Result<(), string>)
      requires Valid()
      modifies this
      ensures Valid()
      ensures !(enabled && hasCredentials) ==>
        r == Ok(()) && auths == old(auths) && sessions == old(sessions)
        && fileStations == old(fileStations) && downloadStations == old(downloadStations)
      ensures enabled && hasCredentials ==>
        && auths == old(auths) + {url}
        && (outcome.Granted? ==>
              r == Ok(()) && sessions == old(sessions)[url := outcome.sid]
              && fileStations == old(fileStations) - {url} && downloadStations == old(downloadStations) - {url})
        && (outcome.Denied? ==>
              r == Err(AutoLoginFailure("Auto-login failed for " + url + ": " + outcome.response)))
        && (outcome.LoginRaised? ==> r == Err(AutoLoginFailure(outcome.reason)))
        && (!outcome.Granted? ==>
              sessions == old(sessions) && fileStations == old(fileStations) && downloadStations == old(downloadStations))
    {
      if !(enabled && hasCredentials) {
        return Ok(());
      }
      auths := auths + {url};
      match outcome {
        case Granted(sid) =>
          Adopt(url, sid);
          r := Ok(());
        case Denied(response) =>
          r := Err(AutoLoginFailure("Auto-login failed for " + url + ": " + response));
        case LoginRaised(reason) =>
          r := Err(AutoLoginFailure(reason));
      }
    }

    /** Forgets an endpoint's session and its cached clients. */
    method Forget(url: string)
      requires Valid()
      modifies this
      ensures Valid()
      ensures auths == old(auths) && sessions == old(sessions) - {url}
      ensures fileStations == old(fileStations) - {url} && downloadStations == old(downloadStations) - {url}
    {
      sessions := sessions - {url};
      fileStations := fileStations - {url};
      downloadStations := downloadStations - {url};
    }

    /** `_handle_logout`: the endpoint comes from the argument or the
      configuration; without a session nothing changes; the session and its
      clients are forgotten exactly when the logout succeeds or reports that
      the session had already ended. */
    method Logout(argument: Option<string>, configured: Option<string>, outcome: LogoutOutcome)
      returns (r: Result<LogoutReply, string>)
      requires Valid()
      modifies this
      ensures Valid()
      ensures auths == old(auths)
      ensures GetBaseUrl(argument, configured).Err? ==> r == Err(MissingBaseUrl) && unchanged(this)
      ensures GetBaseUrl(argument, configured).Ok? ==>
        var url := GetBaseUrl(argument, configured).value;
        && (url !in old(sessions) ==> r == Ok(NoActiveSession(url)) && unchanged(this))
        && (url in old(sessions) && LogoutClears(outcome) ==>
              && sessions == old(sessions) - {url}
              && fileStations == old(fileStations) - {url} && downloadStations == old(downloadStations) - {url})
        && (url in old(sessions) && !LogoutClears(outcome) ==> unchanged(this))
        && (url in old(sessions) && outcome.LoggedOut? ==> r == Ok(Terminated(url, old(sessions)[url])))
        && (url in old(sessions) && outcome.LogoutRaised? ==> r == Err(outcome.reason))
        && (url in old(sessions) && outcome.LogoutFailed? ==>
              r.Ok? && (r.value.AlreadyExpired? || r.value.LogoutRefused?)
              && (r.value.AlreadyExpired? <==> LogoutClears(outcome)) && r.value.code == LogoutCode(outcome)
              && r.value.message == outcome.message.GetOr("Unknown error"))
    {
      var base := GetBaseUrl(argument, configured);
      if base.Err? {
        return Err(base.error);
      }
      var url := base.value;
      if url !in sessions {
        return Ok(NoActiveSession(url));
      }
      var sid := sessions[url];
      match outcome {
        case LoggedOut =>
          Forget(url);
          r := Ok(Terminated(url, sid));
        case LogoutFailed(code, message) =>
          var c := code.GetOr("unknown");
          var m := message.GetOr("Unknown error");
          if c in ExpiredCodes {
            Forget(url);
            r := Ok(AlreadyExpired(url, c, m));
          } else {
            r := Ok(LogoutRefused(url, c, m));
          }
        case LogoutRaised(reason) =>
          r := Err(reason);
      }
    }

    /** Drops an endpoint's session and cached clients, whatever the
      registry's state. */
    method Drop(url: string)
      modifies this
      ensures auths == old(auths) && sessions == old(sessions) - {url}
      ensures fileStations == old(fileStations) - {url} && downloadStations == old(downloadStations) - {url}
      ensures old(Valid()) ==> Valid()
    {
      sessions := sessions - {url};
      fileStations := fileStations - {url};
      downloadStations := downloadStations - {url};
    }

    /** One step of `cleanup_sessions`: log the endpoint out if it has a
      helper, then drop its local data unless that logout raised. */
    method Visit(url: string, outcome: string -> LogoutOutcome) returns (entry: Option<CleanupEntry>)
      modifies this
      ensures auths == old(auths)
      ensures entry == if url in auths then Some(CleanupNote(url, outcome(url))) else None
      ensures SurvivesCleanup(url, auths, outcome) ==> unchanged(this)
      ensures !SurvivesCleanup(url, auths, outcome) ==>
        && sessions == old(sessions) - {url}
        && fileStations == old(fileStations) - {url} && downloadStations == old(downloadStations) - {url}
      ensures old(Valid()) ==> Valid()
    {
      entry := None;
      if url in auths {
        var o := outcome(url);
        entry := Some(CleanupNote(url, o));
        if o.LogoutRaised? {
          return;
        }
      }
      Drop(url);
    }

    /** `cleanup_sessions`: visits a snapshot of the sessions in `order`;
      an endpoint with a helper is logged out and noted; the local data is
      then dropped unless that logout raised. */
    method CleanupSessions(order: seq<string>, outcome: string -> LogoutOutcome) returns (notes: seq<CleanupEntry>)
      requires forall i, j :: 0 <= i < j < |order| ==> order[i] != order[j]
      requires forall u :: u in sessions <==> u in order
      modifies this
      ensures notes == CleanupNotes(order, auths, outcome)
      ensures auths == old(auths)
      ensures Trimmed(sessions, old(sessions), order, auths, outcome)
      ensures Trimmed(fileStations, old(fileStations), order, auths, outcome)
      ensures Trimmed(downloadStations, old(downloadStations), order, auths, outcome)
      ensures old(Valid()) ==> Valid()
    {
      notes := [];
      var i := 0;
      while i < |order|
        invariant i <= |order|
        invariant auths == old(auths)
        invariant notes == CleanupNotes(order[..i], auths, outcome)
        invariant Trimmed(sessions, old(sessions), order[..i], auths, outcome)
        invariant Trimmed(fileStations, old(fileStations), order[..i], auths, outcome)
        invariant Trimmed(downloadStations, old(downloadStations), order[..i], auths, outcome)
        invariant old(Valid()) ==> Valid()
      {
        var url := order[i];
        assert order[..i + 1] == order[..i] + [url];
        CleanupNotesSnoc(order[..i], url, auths, outcome);
        ghost var s0, f0, d0 := sessions, fileStations, downloadStations;
        var entry := Visit(url, outcome);
        if entry.Some? {
          notes := notes + [entry.value];
        }
        TrimmedStep(s0, sessions, old(sessions), order[..i], url, auths, outcome);
        TrimmedStep(f0, fileStations, old(fileStations), order[..i], url, auths, outcome);
        TrimmedStep(d0, downloadStations, old(downloadStations), order[..i], url, auths, outcome);
        i := i + 1;
      }
      assert order[..i] == order;
    }

    /** Under the registry's invariant every session has a helper, so the
      sessions left after cleanup are exactly those whose logout raised,
      and the notes cover every session in visiting order. */
    lemma CleanupSurvivors(order: seq<string>, outcome: string -> LogoutOutcome)
      requires Valid()
      requires forall u :: u in sessions <==> u in order
      ensures forall u :: u in sessions ==> (SurvivesCleanup(u, auths, outcome) <==> outcome(u).LogoutRaised?)
      ensures |CleanupNotes(order, auths, outcome)| == |order|
    {
      CleanupNotesOrder(order, auths, outcome);
    }
  }
}
