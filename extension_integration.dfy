/**
 * `MCPExtensionIntegration`: activation, the four `aks.ai.*` commands, the
 * configuration-change reaction and deactivation, each driving the server
 * manager through its start and stop operations. Dialog answers, workspace
 * state and whether the Copilot commands exist are inputs of each handler.
 */
module McpExtensionIntegration {
  import opened Wrappers
  import opened Text
  import opened McpConfig
  import opened McpServerManager

  /** What `activate` pushes onto the extension's subscriptions, in order. */
  datatype Registration = ToggleCommand | RestartCommand | AskCopilotCommand | StatusCommand | StopOnDispose

  const Registrations := [ToggleCommand, RestartCommand, AskCopilotCommand, StatusCommand, StopOnDispose]

  /** A notification shown at the end of a handler. */
  datatype Notice = NoNotice | InfoNotice | ErrorNotice

  // ---------------------------------------------------------------------------
  // Prompt and status text
  // ---------------------------------------------------------------------------

  /** The optional `{name?, resourceGroupName?}` argument of `aks.ai.askCopilot`. */
  datatype ClusterArg = ClusterArg(name: Option<string>, resourceGroupName: Option<string>)

  const DefaultPrompt := "How can I help with your AKS clusters?"
  const PromptHead := "Please analyze my AKS cluster \""
  const PromptMiddle := "\" in resource group \""

  /** `cluster && cluster.name && cluster.resourceGroupName`: both present and non-empty. */
  predicate HasClusterContext(cluster: Option<ClusterArg>) {
    cluster.Some?
    && cluster.value.name.Some? && cluster.value.name.value != ""
    && cluster.value.resourceGroupName.Some? && cluster.value.resourceGroupName.value != ""
  }

  /** The initial prompt handed to the Copilot chat. */
  function Prompt(cluster: Option<ClusterArg>): (p: string)
    ensures p == DefaultPrompt <==> !HasClusterContext(cluster)
  {
    if HasClusterContext(cluster) then
      var p := PromptHead + cluster.value.name.value + PromptMiddle + cluster.value.resourceGroupName.value + "\"";
      assert p[0] != DefaultPrompt[0];
      p
    else DefaultPrompt
  }

  /** Reads `<a><middle><b>"` back as `(a, b)`, where `a` ends at the first double quote. */
  function QuotedSplit(rest: string, middle: string): Option<(string, string)> {
    if '"' in rest then
      var i := IndexOf(rest, '"');
      var after := rest[i..];
      if |after| >= |middle| + 1 && after[..|middle|] == middle && after[|after| - 1] == '"'
      then Some((rest[..i], after[|middle|..|after| - 1]))
      else None
    else None
  }

  /** Reads `<head><a><middle><b>"` back as `(a, b)`. */
  function QuotedPair(p: string, head: string, middle: string): Option<(string, string)> {
    if |p| >= |head| && p[..|head|] == head then QuotedSplit(p[|head|..], middle) else None
  }

  /** The cluster and resource group a prompt asks about, read back from its text. */
  function PromptTarget(p: string): Option<(string, string)> {
    QuotedPair(p, PromptHead, PromptMiddle)
  }

  /** The closing part `<middle><b>"` gives back the middle and `b`. */
  lemma ClosingParts(middle: string, group: string)
    ensures var after := middle + group + "\"";
            |after| >= |middle| + 1 && after[..|middle|] == middle && after[|after| - 1] == '"'
            && after[|middle|..|after| - 1] == group
  {
    var after := middle + group + "\"";
    assert after[..|middle|] == middle;
    assert after[|middle|..|after| - 1] == group;
  }

  /** The split reads back its two parts when the first holds no double quote. */
  lemma QuotedSplitOfParts(name: string, middle: string, group: string)
    requires '"' !in name && |middle| > 0 && middle[0] == '"'
    ensures QuotedSplit(name + (middle + group + "\""), middle) == Some((name, group))
  {
    var after := middle + group + "\"";
    var rest := name + after;
    assert after == ['"'] + after[1..];
    assert rest == name + ['"'] + after[1..];
    IndexOfAfterPrefix(name, after[1..], '"');
    assert rest[..|name|] == name;
    assert rest[|name|..] == after;
    ClosingParts(middle, group);
  }

  /** A quoted pair reads back as its two parts when the first holds no double quote. */
  lemma QuotedPairOfParts(head: string, name: string, middle: string, group: string)
    requires '"' !in name && |middle| > 0 && middle[0] == '"'
    ensures QuotedPair(head + name + middle + group + "\"", head, middle) == Some((name, group))
  {
    var rest := name + (middle + group + "\"");
    var p := head + name + middle + group + "\"";
    assert p == head + rest;
    assert p[..|head|] == head;
    assert p[|head|..] == rest;
    QuotedSplitOfParts(name, middle, group);
  }

  /**
   * A prompt names the cluster and resource group it was built from, as long
   * as the cluster name holds no double quote; the default prompt names none.
   */
  lemma PromptRoundTrip(cluster: Option<ClusterArg>)
    requires HasClusterContext(cluster) ==> '"' !in cluster.value.name.value
    ensures PromptTarget(Prompt(cluster))
         == if HasClusterContext(cluster)
            then Some((cluster.value.name.value, cluster.value.resourceGroupName.value))
            else None
  {
    if HasClusterContext(cluster) {
      assert PromptMiddle[0] == '"';
      QuotedPairOfParts(PromptHead, cluster.value.name.value, PromptMiddle, cluster.value.resourceGroupName.value);
    } else {
      assert DefaultPrompt[..|PromptHead|] != PromptHead by {
        assert DefaultPrompt[0] == 'H' && PromptHead[0] == 'P';
        assert DefaultPrompt[..|PromptHead|][0] == DefaultPrompt[0];
      }
    }
  }

  /** The word in the `aks.ai.status` message. */
  function StatusText(running: bool): (text: string)
    ensures text == "running" <==> running
    ensures text == "stopped" <==> !running
  {
    if running then "running" else "stopped"
  }

  /** The notice a handler shows once a start it awaited has ended; none while it never ends. */
  function StartNotice(outcome: StartOutcome, onSuccess: Notice): (n: Notice)
    ensures n == ErrorNotice <==> outcome.StartFailed? || (outcome == Started && onSuccess == ErrorNotice)
    ensures outcome == StillPending ==> n == NoNotice
  {
    match outcome
    case Started => onSuccess
    case StartFailed(_) => ErrorNotice
    case StillPending => NoNotice
  }

  /** Which session `aks.ai.askCopilot` opened. */
  datatype Session = Chat(initialPrompt: string) | Inline

  datatype AskResult =
    | Declined            // not running and the dialog was not answered with 'Start'
    | StartFailedShown    // the requested start failed and an error was shown
    | StartHung           // the requested start never ended
    | Opened(session: Session)
    | CopilotUnavailable  // both Copilot commands failed and an error was shown

  class Integration {
    const serverManager: AksMcpServerManager
    /** `context.subscriptions` entries pushed by this integration. */
    var subscriptions: seq<Registration>
    /** Configuration listeners registered by `setupContextMonitoring`; none is ever disposed. */
    var configListeners: nat

    ghost predicate Valid()
      reads serverManager, serverManager.serverProcess
    {
      serverManager.Valid()
    }

    constructor (host: Host, globalStoragePath: string)
      ensures Valid() && fresh(serverManager)
      ensures serverManager.serverProcess == null
      ensures serverManager.host == host && serverManager.globalStoragePath == globalStoragePath
      ensures subscriptions == [] && configListeners == 0
    {
      serverManager := new AksMcpServerManager(host, globalStoragePath);
      subscriptions := [];
      configListeners := 0;
    }

    /** Whether a start issued with `w` would spawn. */
    predicate WouldSpawn(w: World) {
      Spawns(serverManager.host, serverManager.globalStoragePath, w)
    }

    /** The run a start issued with `w` performs. */
    function StartWith(w: World): StartRun {
      Start(serverManager.host, serverManager.globalStoragePath, w)
    }

    /**
     * `activate`: start when `autoStart` is set (a failure is swallowed), then
     * register the commands, the listeners and the stop-on-dispose entry. A
     * start that never ends holds the registrations back forever.
     */
    method Activate(w: World) returns (started: Option<StartRun>, registered: bool)
      requires Valid()
      modifies this, serverManager`serverPath, serverManager`serverPort, serverManager`serverProcess
      ensures Valid()
      ensures started.Some? <==> GetConfiguration(w.settings).autoStart
      ensures started.Some? ==> started.value == StartWith(w)
      ensures registered <==> started.None? || started.value.outcome != StillPending
      ensures registered ==> subscriptions == old(subscriptions) + Registrations
                             && configListeners == old(configListeners) + 1
      ensures !registered ==> subscriptions == old(subscriptions) && configListeners == old(configListeners)
      ensures started.None? ==> serverManager.serverProcess == old(serverManager.serverProcess)
      ensures serverManager.IsServerRunning() <==>
                old(serverManager.IsServerRunning()) || (started.Some? && WouldSpawn(w))
    {
      started := None;
      if GetConfiguration(w.settings).autoStart {
        var run := serverManager.StartMcpServer(w);
        started := Some(run);
        if run.outcome == StillPending {
          return started, false;
        }
      }
      subscriptions := subscriptions + [ToggleCommand, RestartCommand, AskCopilotCommand, StatusCommand];
      configListeners := configListeners + 1;
      subscriptions := subscriptions + [StopOnDispose];
      registered := true;
    }

    /** `aks.ai.toggle`: stop a running server, otherwise start one; a failure is reported, never thrown. */
    method Toggle(w: World) returns (startRun: Option<StartRun>, notice: Notice)
      requires Valid()
      modifies serverManager`serverPath, serverManager`serverPort, serverManager`serverProcess,
               serverManager.serverProcess
      ensures Valid()
      ensures old(serverManager.IsServerRunning()) ==>
                startRun.None? && notice == InfoNotice && !serverManager.IsServerRunning()
                && old(serverManager.serverProcess).killed
      ensures !old(serverManager.IsServerRunning()) ==>
                startRun == Some(StartWith(w)) && notice == StartNotice(StartWith(w).outcome, NoNotice)
      ensures serverManager.IsServerRunning() <==> !old(serverManager.IsServerRunning()) && WouldSpawn(w)
    {
      if serverManager.IsServerRunning() {
        serverManager.StopMcpServer();
        return None, InfoNotice;
      }
      var run := serverManager.StartMcpServer(w);
      startRun := Some(run);
      notice := StartNotice(run.outcome, NoNotice);
    }

    /**
     * `aks.ai.restart`: stop then start, reporting success or failure. The
     * running state is the one right after the start: the stopped process's
     * later 'exit' event drops the new handle.
     */
    method Restart(w: World) returns (run: StartRun, notice: Notice)
      requires Valid()
      modifies serverManager`serverPath, serverManager`serverPort, serverManager`serverProcess,
               serverManager.serverProcess
      ensures Valid()
      ensures run == StartWith(w)
      ensures notice == StartNotice(run.outcome, InfoNotice)
      ensures old(serverManager.serverProcess) != null ==> old(serverManager.serverProcess).killed
      ensures serverManager.IsServerRunning() <==> WouldSpawn(w)
    {
      run := serverManager.RestartServer(w);
      notice := StartNotice(run.outcome, InfoNotice);
    }

    /**
     * `aks.ai.askCopilot`: when the server is not running, ask to start it
     * (`answer` is the button chosen, None when the dialog is dismissed); then
     * open the Copilot chat with the prompt, falling back to the inline chat,
     * which receives no prompt.
     */
    method AskCopilot(cluster: Option<ClusterArg>, answer: Option<string>, w: World,
                      chatOpens: bool, inlineOpens: bool) returns (result: AskResult)
      requires Valid()
      modifies serverManager`serverPath, serverManager`serverPort, serverManager`serverProcess
      ensures Valid()
      ensures result == Declined <==> !old(serverManager.IsServerRunning()) && answer != Some("Start")
      ensures result == StartFailedShown <==>
                !old(serverManager.IsServerRunning()) && answer == Some("Start") && StartWith(w).outcome.StartFailed?
      ensures result == StartHung <==>
                !old(serverManager.IsServerRunning()) && answer == Some("Start") && StartWith(w).outcome == StillPending
      ensures result.Opened? || result == CopilotUnavailable <==>
                old(serverManager.IsServerRunning()) || (answer == Some("Start") && StartWith(w).outcome == Started)
      ensures result.Opened? ==> (result.session == Chat(Prompt(cluster)) <==> chatOpens)
      ensures result.Opened? && !chatOpens ==> result.session == Inline && inlineOpens
      ensures result == CopilotUnavailable ==> !chatOpens && !inlineOpens
      ensures old(serverManager.IsServerRunning()) || answer != Some("Start") ==>
                serverManager.serverProcess == old(serverManager.serverProcess)
                && serverManager.serverPort == old(serverManager.serverPort)
      ensures serverManager.IsServerRunning() <==>
                old(serverManager.IsServerRunning()) || (answer == Some("Start") && WouldSpawn(w))
    {
      if !serverManager.IsServerRunning() {
        if answer != Some("Start") {
          return Declined;
        }
        var run := serverManager.StartMcpServer(w);
        if run.outcome.StartFailed? {
          return StartFailedShown;
        }
        if run.outcome == StillPending {
          return StartHung;
        }
      }
      var prompt := Prompt(cluster);
      if chatOpens {
        result := Opened(Chat(prompt));
      } else if inlineOpens {
        result := Opened(Inline);
      } else {
        result := CopilotUnavailable;
      }
    }

    /** `aks.ai.status`: the message reporting whether the server is running. */
    method Status() returns (message: string)
      ensures message == "AKS AI server is " + StatusText(serverManager.IsServerRunning())
      ensures serverManager.IsServerRunning() ==> message == "AKS AI server is running"
      ensures !serverManager.IsServerRunning() ==> message == "AKS AI server is stopped"
    {
      var running := serverManager.IsServerRunning();
      message := "AKS AI server is " + (if running then "running" else "stopped");
    }

    /**
     * The configuration listener: a change to `aks.ai` starts the server
     * when `autoStart` is set and the server is not running; a failure is
     * only logged.
     */
    method OnConfigurationChanged(affectsAksAi: bool, w: World) returns (started: Option<StartRun>)
      requires Valid()
      modifies serverManager`serverPath, serverManager`serverPort, serverManager`serverProcess
      ensures Valid()
      ensures started.Some? <==>
                affectsAksAi && GetConfiguration(w.settings).autoStart && !old(serverManager.IsServerRunning())
      ensures started.Some? ==> started.value == StartWith(w)
      ensures started.None? ==> serverManager.serverProcess == old(serverManager.serverProcess)
      ensures serverManager.IsServerRunning() <==>
                old(serverManager.IsServerRunning()) || (started.Some? && WouldSpawn(w))
    {
      started := None;
      if affectsAksAi {
        if GetConfiguration(w.settings).autoStart && !serverManager.IsServerRunning() {
          var run := serverManager.StartMcpServer(w);
          started := Some(run);
        }
      }
    }

    /** `deactivate`: stop the server; nothing is thrown. */
    method Deactivate()
      requires Valid()
      modifies serverManager`serverProcess, serverManager.serverProcess
      ensures Valid() && !serverManager.IsServerRunning()
      ensures old(serverManager.serverProcess) != null ==> old(serverManager.serverProcess).killed
    {
      serverManager.StopMcpServer();
    }
  }
}
