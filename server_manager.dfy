/**
 * `AKSMCPServerManager`: owns the handle of the running AKS-MCP server
 * process, the port it was started on and the path of its binary.
 * `Start` and its helpers are the specification of `startMCPServer` as a
 * trace of external calls; the class's methods are proved to issue exactly
 * that trace and to update the three fields as the source does.
 */
module McpServerManager {
  import opened Wrappers
  import opened Text
  import opened McpConfig
  import opened IoEffects
  import opened Download

  /** The fixed readiness wait of `waitForServerReady`, in milliseconds. */
  const ReadinessDelayMs := 2000

  /** The user's answer to the notification shown after publishing; NoAnswer when it is never answered. */
  datatype NotificationReply = TryItNow | Dismissed | NoAnswer

  /** The outcome of every external call a start can make, chosen by the environment. */
  datatype World = World(
    settings: Settings,           // the `aks.ai` configuration section
    binaryExists: bool,           // fs.existsSync(serverPath)
    binDirExists: bool,           // whether path.dirname(serverPath) exists
    firstReply: HttpReply,        // https.get(downloadUrl)
    redirectReply: HttpReply,     // https.get(location), when a redirect is followed
    write: WriteOutcome,          // piping the body into the binary file
    spawnOk: bool,                // whether child_process.spawn launches the binary
    workspaceRoot: Option<string>,  // workspaceFolders[0].uri.fsPath
    vscodeDirExists: bool,        // fs.existsSync(<root>/.vscode)
    artifactWriteOk: bool,        // whether fs.writeFileSync of mcp.json succeeds
    notificationReply: NotificationReply,  // the answer to showInformationMessage
    errorMessage: string)         // `message` of the Error a failing request, stream or write raises

  datatype StartError = DownloadFailed(error: DownloadError) | PublishFailed

  /** How the promise of `startMCPServer` ends; StillPending when it never settles. */
  datatype StartOutcome = Started | StartFailed(error: StartError) | StillPending

  datatype StartRun = StartRun(effects: seq<Effect>, outcome: StartOutcome)

  /** The server path `ensureServerBinary` settles on. */
  function ServerPathFor(host: Host, globalStorage: string, w: World): string {
    ResolveServerPath(GetConfiguration(w.settings).serverPath, host, globalStorage)
  }

  /** `ensureServerBinary`: download and install only when no file is at the server path. */
  function EnsureBinary(host: Host, globalStorage: string, w: World): (run: Run)
    ensures Gets(run.effects) != [] <==> !w.binaryExists
    ensures w.binaryExists ==> run == Run([], Resolved)
    ensures InstallEffects(run.effects)
  {
    var path := ServerPathFor(host, globalStorage, w);
    if w.binaryExists then Run([], Resolved)
    else
      var install := DownloadAndInstall(host, path, w.binDirExists, w.firstReply, w.redirectReply, w.write);
      assert HttpGet(DownloadUrl(host)) in install.effects;
      install
  }

  /** `<root>/.vscode/mcp.json`. */
  function McpJsonPath(host: Host, root: string): string {
    PathJoin(host, PathJoin(host, root, ".vscode"), "mcp.json")
  }

  const EnabledNotice := "AKS AI capabilities enabled! You can now ask GitHub Copilot about your AKS clusters."
  const TryItNowAction := "Try it now"
  const OpenInlineChat := "github.copilot.interactiveSession.openInline"

  /** How `configureCopilotIntegration` ends: done, thrown by the write, or awaiting the notification. */
  datatype PublishOutcome = Published | ArtifactWriteFailed | AwaitingAnswer

  /** `if (!workspaceRoot)`: an absent or empty root skips publishing. */
  predicate HasWorkspace(w: World) {
    w.workspaceRoot.Some? && w.workspaceRoot.value != ""
  }

  /** The notification's effects and outcome once `mcp.json` is written, when notifications are on. */
  function AfterNotice(reply: NotificationReply): (run: (seq<Effect>, PublishOutcome))
    ensures run.1 == AwaitingAnswer <==> reply == NoAnswer
    ensures RunCommand(OpenInlineChat) in run.0 <==> reply == TryItNow
  {
    var shown := [Notify(EnabledNotice, [TryItNowAction])];
    match reply
    case NoAnswer => (shown, AwaitingAnswer)
    case Dismissed => (shown, Published)
    case TryItNow =>
      var tried := shown + [RunCommand(OpenInlineChat)];
      assert tried[1] == RunCommand(OpenInlineChat);
      (tried, Published)
  }

  /**
   * `configureCopilotIntegration`: with a workspace root, create `.vscode`
   * when missing, overwrite `mcp.json` with the endpoint of `port`, then,
   * when notifications are on, await the user's answer and open the inline
   * chat on 'Try it now'; without a root, do nothing and succeed.
   */
  function Publish(host: Host, port: int, w: World): (run: (seq<Effect>, PublishOutcome))
    ensures forall k :: 0 <= k < |run.0| ==>
              run.0[k].MakeDir? || (run.0[k].WriteFile? && run.0[k].contents == McpJson(port))
              || run.0[k] == Notify(EnabledNotice, [TryItNowAction]) || run.0[k] == RunCommand(OpenInlineChat)
    ensures (exists k :: 0 <= k < |run.0| && run.0[k].WriteFile?) <==> HasWorkspace(w) && w.artifactWriteOk
    ensures run.1 == ArtifactWriteFailed <==> HasWorkspace(w) && !w.artifactWriteOk
    ensures Notify(EnabledNotice, [TryItNowAction]) in run.0 <==>
              HasWorkspace(w) && w.artifactWriteOk && GetConfiguration(w.settings).showNotifications
    ensures run.1 == AwaitingAnswer <==>
              HasWorkspace(w) && w.artifactWriteOk && GetConfiguration(w.settings).showNotifications
              && w.notificationReply == NoAnswer
    ensures RunCommand(OpenInlineChat) in run.0 <==>
              HasWorkspace(w) && w.artifactWriteOk && GetConfiguration(w.settings).showNotifications
              && w.notificationReply == TryItNow
  {
    if !HasWorkspace(w) then ([], Published)
    else
      var root := w.workspaceRoot.value;
      var mkdir := if !w.vscodeDirExists then [MakeDir(PathJoin(host, root, ".vscode"))] else [];
      if !w.artifactWriteOk then (mkdir, ArtifactWriteFailed)
      else
        var written := mkdir + [WriteFile(McpJsonPath(host, root), McpJson(port))];
        assert written[|written| - 1].WriteFile?;
        if !GetConfiguration(w.settings).showNotifications then (written, Published)
        else
          var notice := AfterNotice(w.notificationReply);
          assert (written + notice.0)[|written| - 1] == written[|written| - 1];
          (written + notice.0, notice.1)
  }

  /** What follows an ensured binary: spawn, the readiness wait, then publishing. */
  function Launch(host: Host, globalStorage: string, w: World): (effects: seq<Effect>)
    ensures |effects| >= 2
    ensures effects[..2] == [Spawn(ServerPathFor(host, globalStorage, w), SpawnArgs(GetConfiguration(w.settings))),
                             Wait(ReadinessDelayMs)]
    ensures Offline(effects)
    ensures forall k :: 0 <= k < |effects| ==> !effects[k].ShowError?
    ensures forall k :: 1 <= k < |effects| ==> !effects[k].Spawn?
  {
    var config := GetConfiguration(w.settings);
    [Spawn(ServerPathFor(host, globalStorage, w), SpawnArgs(config)), Wait(ReadinessDelayMs)]
    + Publish(host, config.serverPort, w).0
  }

  /** How the start ends once publishing has ended as `published`. */
  function StartOutcomeOf(published: PublishOutcome): StartOutcome {
    match published
    case Published => Started
    case ArtifactWriteFailed => StartFailed(PublishFailed)
    case AwaitingAnswer => StillPending
  }

  /**
   * The `try` block of `startMCPServer`: ensure the binary, spawn it with the
   * configured arguments, wait, then publish the endpoint. The first failure
   * ends it; a spawned process is not stopped when publishing fails. Whether
   * the spawn launched anything is not consulted.
   */
  function Attempt(host: Host, globalStorage: string, w: World): (run: StartRun)
    ensures forall k :: 0 <= k < |run.effects| ==> !run.effects[k].ShowError?
  {
    var ensure := EnsureBinary(host, globalStorage, w);
    match ensure.settlement
    case Pending => StartRun(ensure.effects, StillPending)
    case Rejected(e) => StartRun(ensure.effects, StartFailed(DownloadFailed(e)))
    case Resolved =>
      StartRun(ensure.effects + Launch(host, globalStorage, w),
               StartOutcomeOf(Publish(host, GetConfiguration(w.settings).serverPort, w).1))
  }

  /** `error.message` of the error a failed start rethrows. */
  function StartErrorMessage(e: StartError, w: World): string {
    match e
    case DownloadFailed(RedirectWithoutLocation) => "Redirect without location header"
    case DownloadFailed(BadStatus(status)) => "Download failed with status " + IntToString(status)
    case DownloadFailed(_) => w.errorMessage
    case PublishFailed => w.errorMessage
  }

  const StartFailurePrefix := "Failed to start AKS-MCP server: "

  /** The error the `catch` of `startMCPServer` shows for an attempt that ended in `outcome`. */
  function FailureReport(outcome: StartOutcome, w: World): seq<Effect> {
    if outcome.StartFailed? then [ShowError(StartFailurePrefix + StartErrorMessage(outcome.error, w))] else []
  }

  /** `startMCPServer`: the attempt, then, when it failed, the error its `catch` shows before rethrowing. */
  function Start(host: Host, globalStorage: string, w: World): StartRun {
    var attempt := Attempt(host, globalStorage, w);
    StartRun(attempt.effects + FailureReport(attempt.outcome, w), attempt.outcome)
  }

  /** The report adds only the error message after the attempt's trace, and no request. */
  lemma StartExtendsAttempt(host: Host, globalStorage: string, w: World)
    ensures var attempt := Attempt(host, globalStorage, w).effects;
            var effects := Start(host, globalStorage, w).effects;
            |attempt| <= |effects|
            && (forall k :: 0 <= k < |attempt| ==> effects[k] == attempt[k])
            && (forall k :: |attempt| <= k < |effects| ==> effects[k].ShowError?)
            && Gets(effects) == Gets(attempt)
  {
    var attempt := Attempt(host, globalStorage, w);
    var report := FailureReport(attempt.outcome, w);
    GetsAppend(attempt.effects, report);
  }

  /** Every effect other than an error message is in a start's trace exactly when it is in the attempt's. */
  lemma InStartIffInAttempt(host: Host, globalStorage: string, w: World, e: Effect)
    requires !e.ShowError?
    ensures e in Start(host, globalStorage, w).effects <==> e in Attempt(host, globalStorage, w).effects
  {
    var attempt := Attempt(host, globalStorage, w).effects;
    var effects := Start(host, globalStorage, w).effects;
    StartExtendsAttempt(host, globalStorage, w);
    if e in effects {
      var k :| 0 <= k < |effects| && effects[k] == e;
      assert attempt[k] == e;
    }
    if e in attempt {
      var k :| 0 <= k < |attempt| && attempt[k] == e;
      assert effects[k] == e;
    }
  }

  /**
   * A start shows an error exactly when it fails, and then as its last call:
   * `Failed to start AKS-MCP server: ` followed by the failure's message.
   */
  lemma FailedStartShowsError(host: Host, globalStorage: string, w: World)
    ensures var run := Start(host, globalStorage, w);
            (exists k :: 0 <= k < |run.effects| && run.effects[k].ShowError?) <==> run.outcome.StartFailed?
    ensures var run := Start(host, globalStorage, w);
            run.outcome.StartFailed? ==>
              run.effects[|run.effects| - 1]
              == ShowError(StartFailurePrefix + StartErrorMessage(run.outcome.error, w))
  {
    var attempt := Attempt(host, globalStorage, w).effects;
    var run := Start(host, globalStorage, w);
    StartExtendsAttempt(host, globalStorage, w);
    if !run.outcome.StartFailed? {
      assert run.effects == attempt;
    } else {
      assert run.effects[|run.effects| - 1].ShowError?;
    }
  }

  /** A process is spawned exactly when the binary was ensured. */
  predicate Spawns(host: Host, globalStorage: string, w: World) {
    EnsureBinary(host, globalStorage, w).settlement == Resolved
  }

  /** A start touches the network exactly when there was no file at the server path. */
  lemma DownloadOnlyWhenBinaryMissing(host: Host, globalStorage: string, w: World)
    ensures Gets(Start(host, globalStorage, w).effects) != [] <==> !w.binaryExists
  {
    StartExtendsAttempt(host, globalStorage, w);
    var ensure := EnsureBinary(host, globalStorage, w);
    if ensure.settlement == Resolved {
      var rest := Launch(host, globalStorage, w);
      GetsAppend(ensure.effects, rest);
      OfflineIffNoGets(rest);
    }
  }

  /** The attempt spawns, and spawns once, exactly when the binary was ensured. */
  lemma AttemptSpawnsOnce(host: Host, globalStorage: string, w: World)
    ensures var effects := Attempt(host, globalStorage, w).effects;
            (exists k :: 0 <= k < |effects| && effects[k].Spawn?) <==> Spawns(host, globalStorage, w)
    ensures var effects := Attempt(host, globalStorage, w).effects;
            forall i, j :: 0 <= i < j < |effects| && effects[i].Spawn? ==> !effects[j].Spawn?
  {
    var ensure := EnsureBinary(host, globalStorage, w);
    if Spawns(host, globalStorage, w) {
      var launch := Launch(host, globalStorage, w);
      assert Attempt(host, globalStorage, w).effects == ensure.effects + launch;
      SingleSpawn(ensure.effects, launch);
    }
  }

  /** Install calls followed by a trace that spawns first and never again hold exactly one spawn. */
  lemma SingleSpawn(install: seq<Effect>, launch: seq<Effect>)
    requires InstallEffects(install)
    requires |launch| >= 1 && launch[0].Spawn?
    requires forall k :: 1 <= k < |launch| ==> !launch[k].Spawn?
    ensures var effects := install + launch;
            (exists k :: 0 <= k < |effects| && effects[k].Spawn?)
            && forall i, j :: 0 <= i < j < |effects| && effects[i].Spawn? ==> !effects[j].Spawn?
  {
    var effects := install + launch;
    assert effects[|install|].Spawn?;
    forall i, j | 0 <= i < j < |effects| && effects[i].Spawn? ensures !effects[j].Spawn? {
      assert i == |install|;
      assert effects[j] == launch[j - |install|];
    }
  }

  /** A start spawns, and spawns once, exactly when the binary was ensured. */
  lemma SpawnIffEnsured(host: Host, globalStorage: string, w: World)
    ensures var effects := Start(host, globalStorage, w).effects;
            (exists k :: 0 <= k < |effects| && effects[k].Spawn?) <==> Spawns(host, globalStorage, w)
    ensures var effects := Start(host, globalStorage, w).effects;
            forall i, j :: 0 <= i < j < |effects| && effects[i].Spawn? ==> !effects[j].Spawn?
  {
    AttemptSpawnsOnce(host, globalStorage, w);
    StartExtendsAttempt(host, globalStorage, w);
    ReportKeepsSpawns(Attempt(host, globalStorage, w).effects, Start(host, globalStorage, w).effects);
  }

  /** Appending error messages to a trace neither adds nor removes a spawn. */
  lemma ReportKeepsSpawns(attempt: seq<Effect>, effects: seq<Effect>)
    requires |attempt| <= |effects|
    requires forall k :: 0 <= k < |attempt| ==> effects[k] == attempt[k]
    requires forall k :: |attempt| <= k < |effects| ==> effects[k].ShowError?
    ensures (exists k :: 0 <= k < |effects| && effects[k].Spawn?)
        <==> (exists k :: 0 <= k < |attempt| && attempt[k].Spawn?)
    ensures (forall i, j :: 0 <= i < j < |attempt| && attempt[i].Spawn? ==> !attempt[j].Spawn?)
        ==> (forall i, j :: 0 <= i < j < |effects| && effects[i].Spawn? ==> !effects[j].Spawn?)
  {
    assert forall k :: 0 <= k < |effects| && effects[k].Spawn? ==> k < |attempt| && attempt[k].Spawn?;
    if exists k :: 0 <= k < |attempt| && attempt[k].Spawn? {
      var k :| 0 <= k < |attempt| && attempt[k].Spawn?;
      assert effects[k].Spawn?;
    }
  }

  /**
   * A download into an existing directory that fails other than by a stream
   * error, or never settles, leaves the opened file at the server path. The
   * next start finds a file there, downloads nothing and spawns it.
   */
  lemma LeftoverFileIsSpawned(host: Host, globalStorage: string, w: World)
    requires !w.binaryExists && w.binDirExists
    requires EnsureBinary(host, globalStorage, w).settlement !in {Resolved, Rejected(StreamError)}
    ensures var path := ServerPathFor(host, globalStorage, w);
            OpenForWrite(path) in Start(host, globalStorage, w).effects
            && Unlink(path) !in Start(host, globalStorage, w).effects
    ensures var next := w.(binaryExists := true);
            Spawns(host, globalStorage, next)
            && Gets(Start(host, globalStorage, next).effects) == []
            && Spawn(ServerPathFor(host, globalStorage, w), SpawnArgs(GetConfiguration(w.settings)))
               in Start(host, globalStorage, next).effects
  {
    var path := ServerPathFor(host, globalStorage, w);
    FailedDownloadLeavesFile(path, DownloadUrl(host), w.binDirExists, w.firstReply, w.redirectReply, w.write);
    InStartIffInAttempt(host, globalStorage, w, OpenForWrite(path));
    InStartIffInAttempt(host, globalStorage, w, Unlink(path));
    var next := w.(binaryExists := true);
    DownloadOnlyWhenBinaryMissing(host, globalStorage, next);
    var launch := Launch(host, globalStorage, next);
    assert Attempt(host, globalStorage, next).effects == [] + launch;
    assert launch[0] == launch[..2][0];
    InStartIffInAttempt(host, globalStorage, next, launch[0]);
  }

  /** Every spawn in the trace of a start uses the resolved path and the configured arguments. */
  lemma SpawnedAsConfigured(host: Host, globalStorage: string, w: World, path: string, args: seq<string>)
    requires Spawn(path, args) in Start(host, globalStorage, w).effects
    ensures Spawns(host, globalStorage, w)
    ensures path == ServerPathFor(host, globalStorage, w) && args == SpawnArgs(GetConfiguration(w.settings))
  {
    var ensure := EnsureBinary(host, globalStorage, w);
    var launch := Launch(host, globalStorage, w);
    var publish := Publish(host, GetConfiguration(w.settings).serverPort, w).0;
    assert Spawn(path, args) !in ensure.effects;
    assert launch == launch[..2] + publish;
    assert Spawn(path, args) !in publish;
  }

  /** Publishing writes only `<root>/.vscode/mcp.json`, with the endpoint of its port. */
  lemma PublishedArtifact(host: Host, port: int, w: World, file: string, text: string)
    requires WriteFile(file, text) in Publish(host, port, w).0
    ensures text == McpJson(port)
    ensures w.workspaceRoot.Some? && file == McpJsonPath(host, w.workspaceRoot.value)
  {
    var root := w.workspaceRoot.value;
    var mkdir := if !w.vscodeDirExists then [MakeDir(PathJoin(host, root, ".vscode"))] else [];
    var written := mkdir + [WriteFile(McpJsonPath(host, root), McpJson(port))];
    var notice := AfterNotice(w.notificationReply).0;
    assert WriteFile(file, text) !in mkdir;
    assert WriteFile(file, text) !in notice;
  }

  /** Every artifact the attempt writes comes from publishing after a spawn. */
  lemma AttemptArtifact(host: Host, globalStorage: string, w: World, file: string, text: string)
    requires WriteFile(file, text) in Attempt(host, globalStorage, w).effects
    ensures Spawns(host, globalStorage, w)
    ensures WriteFile(file, text) in Publish(host, GetConfiguration(w.settings).serverPort, w).0
  {
    var ensure := EnsureBinary(host, globalStorage, w);
    assert WriteFile(file, text) !in ensure.effects;
    var launch := Launch(host, globalStorage, w);
    var publish := Publish(host, GetConfiguration(w.settings).serverPort, w).0;
    assert launch == launch[..2] + publish;
  }

  /** Every artifact written during a start holds the configured port's endpoint. */
  lemma ArtifactAsConfigured(host: Host, globalStorage: string, w: World, file: string, text: string)
    requires WriteFile(file, text) in Start(host, globalStorage, w).effects
    ensures Spawns(host, globalStorage, w)
    ensures text == McpJson(GetConfiguration(w.settings).serverPort)
    ensures w.workspaceRoot.Some? && file == McpJsonPath(host, w.workspaceRoot.value)
  {
    InStartIffInAttempt(host, globalStorage, w, WriteFile(file, text));
    AttemptArtifact(host, globalStorage, w, file, text);
    PublishedArtifact(host, GetConfiguration(w.settings).serverPort, w, file, text);
  }

  /** The endpoint written during a start advertises the port the server was spawned with. */
  lemma PublishedPortIsSpawnedPort(host: Host, globalStorage: string, w: World,
                                   path: string, args: seq<string>, file: string, text: string)
    requires Spawn(path, args) in Start(host, globalStorage, w).effects
    requires WriteFile(file, text) in Start(host, globalStorage, w).effects
    ensures FlagValue(args, "--port").Some? && ArtifactUrl(text).Some?
    ensures ParseInt(FlagValue(args, "--port").value) == PortOfUrl(ArtifactUrl(text).value)
  {
    SpawnedAsConfigured(host, globalStorage, w, path, args);
    ArtifactAsConfigured(host, globalStorage, w, file, text);
    var config := GetConfiguration(w.settings);
    EndpointMatchesSpawnedPort(config);
    McpJsonAdvertisesPort(config.serverPort);
  }

  /** Without a workspace root nothing is written and publishing cannot fail. */
  lemma NoWorkspaceNoArtifact(host: Host, globalStorage: string, w: World)
    requires w.workspaceRoot.None?
    ensures forall file, text :: WriteFile(file, text) !in Start(host, globalStorage, w).effects
    ensures Start(host, globalStorage, w).outcome != StartFailed(PublishFailed)
  {
    forall file, text ensures WriteFile(file, text) !in Start(host, globalStorage, w).effects {
      if WriteFile(file, text) in Start(host, globalStorage, w).effects {
        ArtifactAsConfigured(host, globalStorage, w, file, text);
      }
    }
  }

  /**
   * Once the endpoint is written with notifications on, the start waits for
   * the user's answer: it never settles while the notice is unanswered, and
   * it opens the inline chat exactly on 'Try it now'.
   */
  lemma NoticeDecidesStart(host: Host, globalStorage: string, w: World)
    requires Spawns(host, globalStorage, w) && HasWorkspace(w) && w.artifactWriteOk
    requires GetConfiguration(w.settings).showNotifications
    ensures Start(host, globalStorage, w).outcome == StillPending <==> w.notificationReply == NoAnswer
    ensures Start(host, globalStorage, w).outcome == Started <==> w.notificationReply != NoAnswer
    ensures RunCommand(OpenInlineChat) in Start(host, globalStorage, w).effects <==> w.notificationReply == TryItNow
  {
    var ensure := EnsureBinary(host, globalStorage, w);
    var launch := Launch(host, globalStorage, w);
    var publish := Publish(host, GetConfiguration(w.settings).serverPort, w).0;
    assert launch == launch[..2] + publish;
    assert RunCommand(OpenInlineChat) !in ensure.effects;
    assert Start(host, globalStorage, w).effects == ensure.effects + launch[..2] + publish;
  }

  /** The environment of the default scenario: nothing configured, no binary yet, every call succeeds, the notice is dismissed. */
  function DefaultWorld(root: string): World {
    World(NoSettings, false, true, Reply(200, None), RequestFailed, WriteFinished, true,
          Some(root), true, true, Dismissed, "")
  }

  lemma DefaultInstall(globalStorage: string, root: string)
    ensures var host := Host("linux", "x64");
            var path := DefaultServerPath(host, globalStorage);
            EnsureBinary(host, globalStorage, DefaultWorld(root))
            == Run([OpenForWrite(path),
                    HttpGet("https://github.com/Azure/aks-mcp/releases/download/v0.0.2/aks-mcp-linux-amd64"),
                    Chmod(path, 493)],
                   Resolved)
  {
    var host := Host("linux", "x64");
    var path := DefaultServerPath(host, globalStorage);
    assert ServerPathFor(host, globalStorage, DefaultWorld(root)) == path;
    DownloadUrlTemplate(host);
    assert DownloadUrl(host) == "https://github.com/Azure/aks-mcp/releases/download/v0.0.2/aks-mcp-linux-amd64";
    DirectDownloadSucceeds(path, DownloadUrl(host), None, RequestFailed);
    var download := [OpenForWrite(path), HttpGet(DownloadUrl(host))];
    assert DownloadAndInstall(host, path, true, Reply(200, None), RequestFailed, WriteFinished).effects
        == download + [] + [Chmod(path, 493)];
  }

  lemma DefaultLaunch(globalStorage: string, root: string)
    requires root != ""
    ensures var host := Host("linux", "x64");
            Launch(host, globalStorage, DefaultWorld(root))
            == [Spawn(DefaultServerPath(host, globalStorage),
                      ["--transport", "sse", "--host", "127.0.0.1", "--port", "8000",
                       "--access-level", "readonly", "--additional-tools", "",
                       "--timeout", "600"]),
                Wait(2000),
                WriteFile(root + "/.vscode/mcp.json", McpJson(8000)),
                Notify(EnabledNotice, ["Try it now"])]
    ensures Publish(Host("linux", "x64"), 8000, DefaultWorld(root)).1 == Published
  {
    var host := Host("linux", "x64");
    var w := DefaultWorld(root);
    assert ServerPathFor(host, globalStorage, w) == DefaultServerPath(host, globalStorage);
    DefaultPublish(root);
    DefaultSpawnArgs();
  }

  /** With defaults, publishing writes `<root>/.vscode/mcp.json` for port 8000, then shows the notice. */
  lemma DefaultPublish(root: string)
    requires root != ""
    ensures Publish(Host("linux", "x64"), 8000, DefaultWorld(root))
         == ([WriteFile(root + "/.vscode/mcp.json", McpJson(8000)), Notify(EnabledNotice, [TryItNowAction])],
             Published)
  {
    var host := Host("linux", "x64");
    var w := DefaultWorld(root);
    assert McpJsonPath(host, root) == root + "/.vscode/mcp.json";
    var artifact := WriteFile(McpJsonPath(host, root), McpJson(8000));
    var notice := Notify(EnabledNotice, [TryItNowAction]);
    assert HasWorkspace(w) && w.artifactWriteOk && GetConfiguration(w.settings).showNotifications;
    assert AfterNotice(Dismissed) == ([notice], Published);
    assert [] + [artifact] + [notice] == [artifact, notice];
  }

  /**
   * With nothing configured, no binary yet, an existing `bin` directory and
   * a plain 200 download on Linux, a start downloads, installs, spawns with
   * the default arguments, waits, writes `http://127.0.0.1:8000/sse` and
   * shows the notice, which is dismissed.
   */
  lemma DefaultStartScenario(globalStorage: string, root: string)
    requires root != ""
    ensures var host := Host("linux", "x64");
            var path := DefaultServerPath(host, globalStorage);
            Start(host, globalStorage, DefaultWorld(root))
            == StartRun([OpenForWrite(path),
                         HttpGet("https://github.com/Azure/aks-mcp/releases/download/v0.0.2/aks-mcp-linux-amd64"),
                         Chmod(path, 493),
                         Spawn(path, ["--transport", "sse", "--host", "127.0.0.1", "--port", "8000",
                                      "--access-level", "readonly", "--additional-tools", "",
                                      "--timeout", "600"]),
                         Wait(2000),
                         WriteFile(root + "/.vscode/mcp.json", McpJson(8000)),
                         Notify(EnabledNotice, ["Try it now"])],
                        Started)
            && EndpointUrl(8000) == "http://127.0.0.1:8000/sse"
  {
    var host := Host("linux", "x64");
    var w := DefaultWorld(root);
    DefaultInstall(globalStorage, root);
    DefaultLaunch(globalStorage, root);
    DefaultAttemptSucceeds(globalStorage, root);
    var install := EnsureBinary(host, globalStorage, w);
    var launch := Launch(host, globalStorage, w);
    assert Start(host, globalStorage, w) == StartRun(install.effects + launch + [], Started);
    assert |install.effects + launch| == 7;
    DefaultEndpoint();
  }

  /** The default attempt installs, launches and succeeds. */
  lemma DefaultAttemptSucceeds(globalStorage: string, root: string)
    requires root != ""
    ensures var host := Host("linux", "x64");
            var w := DefaultWorld(root);
            Attempt(host, globalStorage, w)
            == StartRun(EnsureBinary(host, globalStorage, w).effects + Launch(host, globalStorage, w), Started)
  {
    DefaultInstall(globalStorage, root);
    DefaultPublish(root);
  }

  /**
   * A child process handle: `kill` marks it killed. `spawn` returns a handle
   * even when the binary cannot be launched; `launched` records whether it was.
   */
  class ChildProcess {
    const path: string
    const args: seq<string>
    const launched: bool
    var killed: bool
    var signalsSent: seq<string>

    constructor (path: string, args: seq<string>, launched: bool)
      ensures this.path == path && this.args == args && this.launched == launched
      ensures !killed && signalsSent == []
    {
      this.path := path;
      this.args := args;
      this.launched := launched;
      killed := false;
      signalsSent := [];
    }

    /** `kill(signal)`, assumed to be delivered. */
    method Kill(signal: string)
      modifies this
      ensures killed && signalsSent == old(signalsSent) + [signal]
    {
      killed := true;
      signalsSent := signalsSent + [signal];
    }
  }

  class AksMcpServerManager {
    var serverProcess: ChildProcess?
    var serverPort: int
    var serverPath: string
    /** `process.platform` / `process.arch`. */
    const host: Host
    /** `context.globalStorageUri.fsPath`. */
    const globalStoragePath: string

    /** A handle the manager holds has not been killed: only `stop` kills, and it drops the handle. */
    ghost predicate Valid()
      reads this, serverProcess
    {
      serverProcess != null ==> !serverProcess.killed
    }

    constructor (host: Host, globalStoragePath: string)
      ensures Valid()
      ensures serverProcess == null && serverPort == 8000 && serverPath == ""
      ensures this.host == host && this.globalStoragePath == globalStoragePath
    {
      serverProcess := null;
      serverPort := 8000;
      serverPath := "";
      this.host := host;
      this.globalStoragePath := globalStoragePath;
    }

    /** `isServerRunning`: a handle is held and it has not been killed. */
    predicate IsServerRunning()
      reads this, serverProcess
      ensures Valid() ==> (IsServerRunning() <==> serverProcess != null)
    {
      serverProcess != null && !serverProcess.killed
    }

    /** `stopMCPServer`: send SIGTERM to a held process and drop the handle; otherwise do nothing. */
    method StopMcpServer()
      requires Valid()
      modifies this`serverProcess, serverProcess
      ensures Valid() && serverProcess == null && !IsServerRunning()
      ensures old(serverProcess) != null ==>
                old(serverProcess).killed
                && old(serverProcess).signalsSent == old(serverProcess.signalsSent) + ["SIGTERM"]
    {
      if serverProcess != null {
        serverProcess.Kill("SIGTERM");
        serverProcess := null;
      }
    }

    /**
     * The 'exit' handler of `setupServerEventHandlers`. It drops whatever
     * handle is held, even when the process that exited is an older one.
     */
    method OnProcessExit(exited: ChildProcess)
      modifies this`serverProcess
      ensures Valid() && serverProcess == null && !IsServerRunning()
    {
      serverProcess := null;
    }

    /**
     * The 'error' handler of `setupServerEventHandlers`: it shows the error
     * and leaves the handle in place, so a process that could not be
     * launched still counts as running.
     */
    method OnProcessError(message: string) returns (shown: Effect)
      ensures shown == ShowError("AKS-MCP server error: " + message)
    {
      shown := ShowError("AKS-MCP server error: " + message);
    }

    /** `ensureServerBinary`: fix the server path, then download when nothing is there. */
    method EnsureServerBinary(w: World) returns (run: Run)
      modifies this`serverPath
      ensures serverPath == ServerPathFor(host, globalStoragePath, w)
      ensures run == EnsureBinary(host, globalStoragePath, w)
    {
      var config := GetConfiguration(w.settings);
      serverPath := ResolveServerPath(config.serverPath, host, globalStoragePath);
      if !w.binaryExists {
        run := DownloadAndInstall(host, serverPath, w.binDirExists, w.firstReply, w.redirectReply, w.write);
      } else {
        run := Run([], Resolved);
      }
    }

    /** `configureCopilotIntegration`, publishing the endpoint of `serverPort`. */
    method ConfigureCopilotIntegration(w: World) returns (effects: seq<Effect>, outcome: PublishOutcome)
      ensures (effects, outcome) == Publish(host, serverPort, w)
    {
      if w.workspaceRoot.None? || w.workspaceRoot.value == "" {
        return [], Published;
      }
      var root := w.workspaceRoot.value;
      var vscodeDir := PathJoin(host, root, ".vscode");
      effects := [];
      if !w.vscodeDirExists {
        effects := [MakeDir(vscodeDir)];
      }
      if !w.artifactWriteOk {
        return effects, ArtifactWriteFailed;
      }
      effects := effects + [WriteFile(PathJoin(host, vscodeDir, "mcp.json"), McpJson(serverPort))];
      outcome := Published;
      var config := GetConfiguration(w.settings);
      if config.showNotifications {
        var notice := [Notify(EnabledNotice, [TryItNowAction])];
        if w.notificationReply == NoAnswer {
          outcome := AwaitingAnswer;
        } else if w.notificationReply == TryItNow {
          notice := notice + [RunCommand(OpenInlineChat)];
        }
        assert (notice, outcome) == AfterNotice(w.notificationReply);
        effects := effects + notice;
      }
    }

    /**
     * The `try` block of `startMCPServer`. A handle already held is
     * overwritten without being stopped; a failure after the spawn leaves the
     * new process running.
     */
    method AttemptStart(w: World) returns (run: StartRun)
      requires Valid()
      modifies this`serverPath, this`serverPort, this`serverProcess
      ensures Valid()
      ensures run == Attempt(host, globalStoragePath, w)
      ensures serverPath == ServerPathFor(host, globalStoragePath, w)
      ensures Spawns(host, globalStoragePath, w) ==>
                serverPort == GetConfiguration(w.settings).serverPort
                && serverProcess != null && fresh(serverProcess)
                && serverProcess.path == serverPath
                && serverProcess.args == SpawnArgs(GetConfiguration(w.settings))
                && serverProcess.launched == w.spawnOk
                && IsServerRunning()
      ensures !Spawns(host, globalStoragePath, w) ==>
                serverPort == old(serverPort) && serverProcess == old(serverProcess)
      ensures old(serverProcess) != null ==> old(serverProcess).killed == old(serverProcess.killed)
    {
      var ensure := EnsureServerBinary(w);
      if ensure.settlement.Pending? {
        return StartRun(ensure.effects, StillPending);
      }
      if ensure.settlement.Rejected? {
        return StartRun(ensure.effects, StartFailed(DownloadFailed(ensure.settlement.error)));
      }
      var launch, published := LaunchServer(w);
      run := StartRun(ensure.effects + launch, StartOutcomeOf(published));
    }

    /**
     * The rest of the `try` block once the binary is ensured: spawn with the
     * configured arguments, wait, then publish.
     */
    method LaunchServer(w: World) returns (effects: seq<Effect>, published: PublishOutcome)
      requires serverPath == ServerPathFor(host, globalStoragePath, w)
      modifies this`serverPort, this`serverProcess
      ensures effects == Launch(host, globalStoragePath, w)
      ensures published == Publish(host, GetConfiguration(w.settings).serverPort, w).1
      ensures serverPort == GetConfiguration(w.settings).serverPort
      ensures serverProcess != null && fresh(serverProcess)
      ensures serverProcess.path == serverPath && serverProcess.args == SpawnArgs(GetConfiguration(w.settings))
      ensures serverProcess.launched == w.spawnOk && !serverProcess.killed
    {
      var config := GetConfiguration(w.settings);
      serverPort := config.serverPort;
      var args := SpawnArgs(config);
      serverProcess := new ChildProcess(serverPath, args, w.spawnOk);
      var publishEffects;
      publishEffects, published := ConfigureCopilotIntegration(w);
      effects := [Spawn(serverPath, args), Wait(ReadinessDelayMs)] + publishEffects;
    }

    /** `startMCPServer`: the attempt; its `catch` shows a failure's message, then rethrows. */
    method StartMcpServer(w: World) returns (run: StartRun)
      requires Valid()
      modifies this`serverPath, this`serverPort, this`serverProcess
      ensures Valid()
      ensures run == Start(host, globalStoragePath, w)
      ensures serverPath == ServerPathFor(host, globalStoragePath, w)
      ensures Spawns(host, globalStoragePath, w) ==>
                serverPort == GetConfiguration(w.settings).serverPort
                && serverProcess != null && fresh(serverProcess)
                && serverProcess.path == serverPath
                && serverProcess.args == SpawnArgs(GetConfiguration(w.settings))
                && serverProcess.launched == w.spawnOk
                && IsServerRunning()
      ensures !Spawns(host, globalStoragePath, w) ==>
                serverPort == old(serverPort) && serverProcess == old(serverProcess)
      ensures old(serverProcess) != null ==> old(serverProcess).killed == old(serverProcess.killed)
    {
      run := AttemptStart(w);
      if run.outcome.StartFailed? {
        var shown := ShowError(StartFailurePrefix + StartErrorMessage(run.outcome.error, w));
        run := StartRun(run.effects + [shown], run.outcome);
      }
    }

    /**
     * `restartServer`: stop, then start. Right after it the server runs
     * exactly when the start spawned; the stopped process's later 'exit'
     * event still drops the new handle (see `RestartExitHidesNewProcess`).
     */
    method RestartServer(w: World) returns (run: StartRun)
      requires Valid()
      modifies this`serverPath, this`serverPort, this`serverProcess, serverProcess
      ensures Valid()
      ensures run == Start(host, globalStoragePath, w)
      ensures old(serverProcess) != null ==>
                old(serverProcess).killed
                && old(serverProcess).signalsSent == old(serverProcess.signalsSent) + ["SIGTERM"]
      ensures serverPath == ServerPathFor(host, globalStoragePath, w)
      ensures IsServerRunning() <==> Spawns(host, globalStoragePath, w)
      ensures Spawns(host, globalStoragePath, w) ==>
                serverPort == GetConfiguration(w.settings).serverPort
                && serverProcess != null && fresh(serverProcess)
                && serverProcess.path == serverPath
                && serverProcess.args == SpawnArgs(GetConfiguration(w.settings))
                && serverProcess.launched == w.spawnOk
      ensures !Spawns(host, globalStoragePath, w) ==> serverPort == old(serverPort) && serverProcess == null
    {
      StopMcpServer();
      run := StartMcpServer(w);
    }
  }

  /**
   * Two starts in a row orphan the first process, and its later exit event
   * drops the handle of the second: the manager then reports "not running"
   * while the second process has not been stopped.
   */
  method StaleExitHidesLiveProcess(host: Host, globalStorage: string, w: World)
    returns (reportedRunning: bool, secondKilled: bool)
    requires w.binaryExists
    ensures !reportedRunning && !secondKilled
  {
    var manager := new AksMcpServerManager(host, globalStorage);
    var _ := manager.StartMcpServer(w);
    var first := manager.serverProcess;
    var _ := manager.StartMcpServer(w);
    var second := manager.serverProcess;
    manager.OnProcessExit(first);
    reportedRunning := manager.IsServerRunning();
    secondKilled := second.killed;
  }

  /**
   * `restartServer` kills the running process and starts a new one; the
   * killed process's 'exit' event, which arrives after the restart, drops
   * the new handle: the manager then reports "not running" while the new
   * process has not been stopped.
   */
  method RestartExitHidesNewProcess(host: Host, globalStorage: string, w: World)
    returns (reportedRunning: bool, startedKilled: bool)
    requires w.binaryExists
    ensures !reportedRunning && !startedKilled
  {
    var manager := new AksMcpServerManager(host, globalStorage);
    var _ := manager.StartMcpServer(w);
    var prior := manager.serverProcess;
    var _ := manager.RestartServer(w);
    var started := manager.serverProcess;
    manager.OnProcessExit(prior);
    reportedRunning := manager.IsServerRunning();
    startedKilled := started.killed;
  }

  /**
   * A binary that cannot be launched still yields a handle: the error
   * handler only shows the error, the start is not failed on its account,
   * and the manager reports the server as running.
   */
  method FailedSpawnReportedRunning(host: Host, globalStorage: string, w: World)
    returns (outcome: StartOutcome, shown: Effect, reportedRunning: bool, launched: bool)
    requires w.binaryExists && !w.spawnOk
    ensures outcome == StartOutcomeOf(Publish(host, GetConfiguration(w.settings).serverPort, w).1)
    ensures outcome != StartFailed(PublishFailed) <==> !HasWorkspace(w) || w.artifactWriteOk
    ensures shown.ShowError?
    ensures reportedRunning && !launched
  {
    var manager := new AksMcpServerManager(host, globalStorage);
    var run := manager.StartMcpServer(w);
    outcome := run.outcome;
    shown := manager.OnProcessError("spawn " + manager.serverPath + " ENOENT");
    reportedRunning := manager.IsServerRunning();
    launched := manager.serverProcess.launched;
  }
}
