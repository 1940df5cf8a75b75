/**
 * `downloadBinary` and `downloadAndInstallServer`: fetching the release
 * asset to the server path, with one redirect followed, and making it
 * executable. The replies of the two GET requests and the fate of the file
 * stream are inputs.
 */
module Download {
  import opened Wrappers
  import opened Text
  import opened McpConfig
  import opened IoEffects

  /** What `https.get` delivers: a request error, or a status line and its Location header. */
  datatype HttpReply = RequestFailed | Reply(statusCode: int, location: Option<string>)

  /**
   * How piping the body into the file stream ends: the stream finishes, the
   * stream emits 'error', or the response breaks off mid-body, which neither
   * ends the stream nor makes it emit 'error'.
   */
  datatype WriteOutcome = WriteFinished | WriteFailed | BodyAborted

  datatype DownloadError =
    | RedirectWithoutLocation   // "Redirect without location header"
    | BadStatus(statusCode: int) // "Download failed with status <status>"
    | RequestError              // the request's 'error' event
    | StreamError               // the file stream's 'error' event

  /** The promise `downloadBinary` returns: resolved, rejected, or never settled. */
  datatype Settlement = Resolved | Rejected(error: DownloadError) | Pending

  datatype Run = Run(effects: seq<Effect>, settlement: Settlement)

  predicate IsRedirect(statusCode: int) {
    statusCode == 301 || statusCode == 302
  }

  /** `if (redirectUrl)`: an absent or empty Location header is not followed. */
  predicate HasTarget(location: Option<string>) {
    location.Some? && location.value != ""
  }

  /**
   * Whether `https.get` accepts the location: its scheme, compared without
   * regard to case, is `https:`. A relative location or another scheme makes
   * `https.get` throw inside the first reply's callback instead.
   */
  predicate Followable(location: string) {
    |location| >= 6 && ToLower(location[..6]) == "https:"
  }

  /**
   * `downloadBinary(url)` writing to `path`, whose directory exists or not.
   * The file stream is opened before the request is sent. When the directory
   * is missing the stream's open error is emitted before any 'error' listener
   * is attached, so no path that waits for the file ever settles; the same
   * holds for a stream error on the redirect path, which attaches no listener.
   * The status of the redirected reply is never examined. A location that
   * `https.get` rejects throws inside the reply callback, where nothing
   * catches it: no second request is made and nothing settles.
   */
  function DownloadBinary(path: string, url: string, dirExists: bool,
                          first: HttpReply, redirect: HttpReply, write: WriteOutcome): (run: Run)
    ensures |run.effects| >= 2 && run.effects[..2] == [OpenForWrite(path), HttpGet(url)]
    ensures run.settlement == Resolved ==> dirExists && write == WriteFinished
    ensures Unlink(path) in run.effects <==> run.settlement == Rejected(StreamError)
    ensures InstallEffects(run.effects)
  {
    var start := [OpenForWrite(path), HttpGet(url)];
    match first
    case RequestFailed => Run(start, Rejected(RequestError))
    case Reply(status, location) =>
      if IsRedirect(status) then
        if HasTarget(location) then
          if !Followable(location.value) then Run(start, Pending)
          else
            var follow := start + [HttpGet(location.value)];
            match redirect
            case RequestFailed => Run(follow, Rejected(RequestError))
            case Reply(_, _) =>
              if dirExists && write == WriteFinished then Run(follow, Resolved) else Run(follow, Pending)
        else Run(start, Rejected(RedirectWithoutLocation))
      else if status != 200 then Run(start, Rejected(BadStatus(status)))
      else if !dirExists then Run(start, Pending)
      else if write == WriteFinished then Run(start, Resolved)
      else if write == WriteFailed then Run(start + [Unlink(path)], Rejected(StreamError))
      else Run(start, Pending)
  }

  /** A 301 or 302 with an `https:` Location issues exactly one more GET, to that location. */
  lemma RedirectFollowedOnce(path: string, url: string, dirExists: bool,
                             status: int, location: Option<string>,
                             redirect: HttpReply, write: WriteOutcome)
    requires IsRedirect(status) && HasTarget(location) && Followable(location.value)
    ensures Gets(DownloadBinary(path, url, dirExists, Reply(status, location), redirect, write).effects)
         == [url, location.value]
  {
  }

  /**
   * A 301 or 302 whose Location is relative or not `https:` requests
   * nothing more, deletes nothing and never settles.
   */
  lemma UnfollowableRedirectHangs(path: string, url: string, dirExists: bool,
                                  status: int, location: Option<string>,
                                  redirect: HttpReply, write: WriteOutcome)
    requires IsRedirect(status) && HasTarget(location) && !Followable(location.value)
    ensures var run := DownloadBinary(path, url, dirExists, Reply(status, location), redirect, write);
            run.settlement == Pending && Gets(run.effects) == [url] && Unlink(path) !in run.effects
  {
  }

  /**
   * A relative location and an `http:` one are not followed; the scheme of
   * an `https:` one is matched without regard to case.
   */
  lemma FollowableExamples()
    ensures !Followable("/x") && !Followable("http://h/x")
    ensures Followable("https://h/x") && Followable("HTTPS://h/x")
  {
    assert "https://h/x"[..6] == "https:";
    assert "HTTPS://h/x"[..6] == "HTTPS:";
    assert "http://h/x"[..6] == "http:/";
    assert ToLower("HTTPS:") == "https:";
    assert ToLower("http:/")[5] == '/';
  }

  /** A 301 or 302 without a usable Location fails and requests nothing more. */
  lemma RedirectWithoutLocationFails(path: string, url: string, dirExists: bool,
                                     status: int, location: Option<string>,
                                     redirect: HttpReply, write: WriteOutcome)
    requires IsRedirect(status) && !HasTarget(location)
    ensures var run := DownloadBinary(path, url, dirExists, Reply(status, location), redirect, write);
            run.settlement == Rejected(RedirectWithoutLocation) && Gets(run.effects) == [url]
  {
  }

  /** Every status other than 200, 301 and 302 fails with that status. */
  lemma OtherStatusFails(path: string, url: string, dirExists: bool,
                         status: int, location: Option<string>,
                         redirect: HttpReply, write: WriteOutcome)
    requires status != 200 && !IsRedirect(status)
    ensures var run := DownloadBinary(path, url, dirExists, Reply(status, location), redirect, write);
            run.settlement == Rejected(BadStatus(status)) && Gets(run.effects) == [url]
  {
  }

  /** A 200 whose body is written completely resolves without further requests. */
  lemma DirectDownloadSucceeds(path: string, url: string, location: Option<string>, redirect: HttpReply)
    ensures DownloadBinary(path, url, true, Reply(200, location), redirect, WriteFinished)
         == Run([OpenForWrite(path), HttpGet(url)], Resolved)
  {
  }

  /** On the direct path a stream error deletes the file before the promise is rejected. */
  lemma StreamErrorDeletesPartialFile(path: string, url: string, location: Option<string>,
                                      redirect: HttpReply)
    ensures var run := DownloadBinary(path, url, true, Reply(200, location), redirect, WriteFailed);
            run.settlement == Rejected(StreamError) && run.effects[|run.effects| - 1] == Unlink(path)
  {
  }

  /** On the redirect path a stream error is not handled: nothing is deleted and nothing settles. */
  lemma RedirectStreamErrorHangs(path: string, url: string, status: int, location: Option<string>,
                                 redirect: HttpReply)
    requires IsRedirect(status) && HasTarget(location) && redirect.Reply?
    ensures var run := DownloadBinary(path, url, true, Reply(status, location), redirect, WriteFailed);
            run.settlement == Pending && Unlink(path) !in run.effects
  {
  }

  /** A response that breaks off mid-body settles nothing, on either path, and deletes nothing. */
  lemma BodyAbortHangs(path: string, url: string, dirExists: bool, first: HttpReply, redirect: HttpReply)
    ensures var run := DownloadBinary(path, url, dirExists, first, redirect, BodyAborted);
            run.settlement != Resolved && Unlink(path) !in run.effects
            && (first.Reply? && first.statusCode == 200 ==> run.settlement == Pending)
  {
  }

  /**
   * The file is opened before any reply arrives, and only a stream error on
   * the direct path deletes it: every other failure, and every hang, leaves
   * the file behind at the server path.
   */
  lemma {:induction false} FailedDownloadLeavesFile(path: string, url: string, dirExists: bool,
                                                    first: HttpReply, redirect: HttpReply, write: WriteOutcome)
    requires DownloadBinary(path, url, dirExists, first, redirect, write).settlement
             !in {Resolved, Rejected(StreamError)}
    ensures var run := DownloadBinary(path, url, dirExists, first, redirect, write);
            OpenForWrite(path) in run.effects && Unlink(path) !in run.effects
  {
    var run := DownloadBinary(path, url, dirExists, first, redirect, write);
    assert run.effects[0] == OpenForWrite(path);
  }

  /** Whatever status the redirect target answers with, its body is accepted as the binary. */
  lemma RedirectedStatusUnchecked(path: string, url: string, status: int, location: Option<string>,
                                  redirectStatus: int, redirectLocation: Option<string>)
    requires IsRedirect(status) && HasTarget(location) && Followable(location.value)
    ensures DownloadBinary(path, url, true, Reply(status, location),
                           Reply(redirectStatus, redirectLocation), WriteFinished).settlement
         == Resolved
  {
  }

  /** Every reply that lets the download resolve: a 200, or a redirect to an `https:` target. */
  lemma ResolvedReplies(path: string, url: string, dirExists: bool,
                        first: HttpReply, redirect: HttpReply, write: WriteOutcome)
    requires DownloadBinary(path, url, dirExists, first, redirect, write).settlement == Resolved
    ensures first.Reply?
    ensures first.statusCode == 200
         || (IsRedirect(first.statusCode) && HasTarget(first.location) && Followable(first.location.value)
             && redirect.Reply?)
  {
  }

  /** Permission bits 0o755. */
  const ExecutableMode := 493

  /**
   * `downloadAndInstallServer`: download, then create the directory if it
   * is missing, then make the file executable except on Windows.
   */
  function DownloadAndInstall(host: Host, path: string, dirExists: bool,
                              first: HttpReply, redirect: HttpReply, write: WriteOutcome): (run: Run)
    ensures run.settlement == Resolved <==>
            DownloadBinary(path, DownloadUrl(host), dirExists, first, redirect, write).settlement == Resolved
    ensures InstallEffects(run.effects)
    ensures |run.effects| >= 2 && run.effects[1] == HttpGet(DownloadUrl(host))
  {
    var download := DownloadBinary(path, DownloadUrl(host), dirExists, first, redirect, write);
    if download.settlement != Resolved then download
    else
      var mkdir := if !dirExists then [MakeDir(DirName(host, path))] else [];
      var chmod := if !IsWindows(host) then [Chmod(path, ExecutableMode)] else [];
      Run(download.effects + mkdir + chmod, Resolved)
  }

  /**
   * The directory is created only after the download, but the download
   * cannot finish without it: installing into a missing directory never
   * succeeds, and the directory-creation step never runs.
   */
  lemma MissingDirectoryNeverInstalls(host: Host, path: string, dirExists: bool,
                                      first: HttpReply, redirect: HttpReply, write: WriteOutcome)
    ensures var run := DownloadAndInstall(host, path, dirExists, first, redirect, write);
            (!dirExists ==> run.settlement != Resolved)
            && forall k :: 0 <= k < |run.effects| ==> !run.effects[k].MakeDir?
  {
    var download := DownloadBinary(path, DownloadUrl(host), dirExists, first, redirect, write);
    var run := DownloadAndInstall(host, path, dirExists, first, redirect, write);
    assert forall k :: 0 <= k < |download.effects| ==> !download.effects[k].MakeDir?;
  }

  /** A completed install ends with chmod 0o755 exactly off Windows. */
  lemma InstallMakesExecutable(host: Host, path: string,
                               first: HttpReply, redirect: HttpReply, write: WriteOutcome)
    requires DownloadAndInstall(host, path, true, first, redirect, write).settlement == Resolved
    ensures var run := DownloadAndInstall(host, path, true, first, redirect, write);
            Chmod(path, ExecutableMode) in run.effects <==> !IsWindows(host)
  {
    var download := DownloadBinary(path, DownloadUrl(host), true, first, redirect, write);
    assert forall k :: 0 <= k < |download.effects| ==> !download.effects[k].Chmod?;
  }
}
