# AKS-MCP server lifecycle and Draft workflow validators, in Dafny

This project models three parts of the AKS VS Code extension and proves properties of them.

- **The AKS-MCP server manager** (`AKSMCPServerManager`). It fetches the `aks-mcp` release binary for the host platform and starts it in SSE mode on the loopback address. It then publishes the server's endpoint to the workspace's `.vscode/mcp.json`. It keeps the process handle, the port and the binary path in its fields.
- **The extension integration** (`MCPExtensionIntegration`). This covers activation, the `aks.ai.toggle`, `aks.ai.restart`, `aks.ai.askCopilot` and `aks.ai.status` commands, the reaction to configuration changes, and deactivation.
- **The Draft "GitHub workflow" form.** This covers its field validators, its Helm-override editing, the all-or-nothing assembly of the create request, the case-insensitive lookup of an existing workflow file, and the resource-group and name lists it offers.

The server manager and the integration are classes whose methods update their fields in place. The form's handlers are pure functions from the current state to a new field value.

File system, network and process calls are not performed. Each operation returns the ordered trace of calls it makes: open-for-write, GET, unlink, mkdir, chmod, spawn, wait, write-file, the information and error messages the server manager shows (its 'enabled' notice, the process's error and the start-failure message), and the command executed. The outcome of every call is an input, bundled as `World`: whether the binary exists, the two HTTP replies, how the file write ends, whether the spawn launches the binary, the workspace root, the user's answer to the "enabled" notification, and so on.

A promise that never settles is modelled as an outcome of its own (`Pending`, `StillPending`). This happens when the file stream fails on the redirect path, when the response breaks off mid-body, when the target directory is missing, and when the "AKS AI capabilities enabled!" notification is never answered.

Modules:

- `Text`: the JavaScript string operations the code relies on. Each has an inverse or a characterisation:
  - integer `toString`, with `ParseInt`;
  - `join(',')`, with `Split`;
  - `trim()`, over the ECMAScript white-space set;
  - ASCII `toLowerCase()`.
- `McpConfig`: configuration defaults, paths, the download URL table, the spawn arguments and the `mcp.json` text.
- `IoEffects`: the call trace.
- `Download`: `downloadBinary` and `downloadAndInstallServer`.
- `McpServerManager`: the start specification and the manager class.
- `McpExtensionIntegration`: the command handlers.
- `Validation`, `ArrayUtil` and `DraftWorkflow`: the form.

The model follows the code where it departs from the lifecycle the server manager is meant to provide:

- A start while a server is running spawns a second process, and the first handle is overwritten without being stopped.
- Starts are not serialised.
- A process spawned by a start that later fails (because publishing `mcp.json` throws) is left running. That failure rejects the start.
- An exit event from any earlier process clears the current handle (`StaleExitHidesLiveProcess`). This includes the process a restart has just killed: its exit drops the new handle (`RestartExitHidesNewProcess`).
- A binary that cannot be launched still yields a handle. The process's error handler shows the error but neither clears the handle nor fails the start, so the manager reports the server as running (`FailedSpawnReportedRunning`).
- A download that fails with a request error, a bad status or a missing Location, or that never settles, leaves the opened file at the server path. The next start finds that file, skips the download and spawns it (`LeftoverFileIsSpawned`).
- With notifications on, a start does not end until the "enabled" notification is answered.
- The file stream is opened before the request is sent, and the install directory is created only after the download. So with a missing directory the download never settles and mkdir never runs (`MissingDirectoryNeverInstalls`).
- On the redirect path the redirected status is never checked, and a stream error is neither handled nor cleaned up.
- A redirect whose Location is relative or not `https:` makes the second `https.get` throw inside the response callback. No second request is sent and the download never settles (`UnfollowableRedirectHangs`).

## Model

| member | source | states |
|---|---|---|
| McpConfig.DefaultConfiguration | src/mcp/mcpServerManager.ts:98-109 | with no `aks.ai` key set the configuration is autoStart on, readonly, no extra tools, port 8000, timeout 600, notifications on, no server path |
| McpConfig.AccessLevelNameRoundTrip | src/mcp/mcpServerManager.ts:12 | the name of each access level (`readonly`, `readwrite`, `admin`) reads back as that level |
| McpConfig.ResolveServerPath | src/mcp/mcpServerManager.ts:118 | a configured server path is used when non-empty; an absent or empty one gives the default path |
| McpConfig.DirNameBaseNameOfJoin | src/mcp/mcpServerManager.ts:165 | `dirname` of a joined path is the directory it was joined from, and the base name is the segment |
| McpConfig.DefaultServerPathParts | src/mcp/mcpServerManager.ts:133-141 | the default path is `<globalStorage>/bin/<name>`, where the name is `aks-mcp.exe` exactly on win32 and `aks-mcp` elsewhere |
| McpConfig.AssetNameTemplate | src/mcp/mcpServerManager.ts:189-208 | the six-entry asset table is `aks-mcp-<os>-<arch>` with `.exe` exactly for windows; os is windows/darwin/linux with linux for every other platform; arch is arm64 only for arm64, else amd64 |
| McpConfig.DownloadUrlTemplate | src/mcp/mcpServerManager.ts:182-211 | the URL is `https://github.com/Azure/aks-mcp/releases/download/v0.0.2/` followed by that asset name |
| McpConfig.DownloadUrlSeparatesTargets | src/mcp/mcpServerManager.ts:182-211 | two hosts get the same URL if and only if they agree on the release os and arch names |
| McpConfig.SpawnArgs | src/mcp/mcpServerManager.ts:45-52 | the argument vector has exactly twelve words |
| McpConfig.SpawnArgsDecode | src/mcp/mcpServerManager.ts:42-52 | each flag's value reads back as the configured port, access level, tools (split at commas, when no tool name holds one) and timeout, with transport `sse` and host `127.0.0.1` |
| McpConfig.DefaultSpawnArgs | src/mcp/mcpServerManager.ts:45-52 | with defaults the arguments are `--transport sse --host 127.0.0.1 --port 8000 --access-level readonly --additional-tools "" --timeout 600` |
| McpConfig.EndpointUrlRoundTrip | src/mcp/mcpServerManager.ts:322 | the port read back from `http://127.0.0.1:<port>/sse` is the port it was built from |
| McpConfig.McpJsonAdvertisesPort | src/mcp/mcpServerManager.ts:318-327 | the written `mcp.json` text holds the endpoint URL of exactly the port it was written for |
| McpConfig.McpJsonInjective | src/mcp/mcpServerManager.ts:318-327 | two artifacts are byte-identical if and only if they were written for the same port |
| McpConfig.EndpointMatchesSpawnedPort | src/mcp/mcpServerManager.ts:42-52 | the port advertised in the artifact equals the value passed as `--port` |
| McpConfig.DefaultEndpoint | src/mcp/mcpServerManager.ts:318-325 | with the default port the endpoint is `http://127.0.0.1:8000/sse` |
| Text.IntToStringRoundTrip | src/mcp/mcpServerManager.ts:48 | the decimal text of an integer reads back as that integer |
| Text.IntToStringInjective | src/mcp/mcpServerManager.ts:51 | two integers have the same decimal text if and only if they are equal |
| Text.SplitJoin | src/mcp/mcpServerManager.ts:50 | joining names with ',' and splitting at ',' gives the names back when none holds a comma |
| Text.TrimIsCore | webview-ui/src/Draft/DraftWorkflow/DraftWorkflow.tsx:246 | `trim()` is the part between the leading and trailing white space |
| Text.TrimIdempotent | webview-ui/src/Draft/DraftWorkflow/DraftWorkflow.tsx:246 | trimming twice is trimming once |
| Text.TrimEmptyIffBlank | webview-ui/src/Draft/DraftWorkflow/DraftWorkflow.tsx:246-248 | the trimmed key is empty if and only if the entered key is all white space |
| Text.ToLower | webview-ui/src/Draft/DraftWorkflow/DraftWorkflow.tsx:1000 | lower-casing keeps the length, maps each letter A-Z to a-z, and leaves no upper-case ASCII letter |
| Download.DownloadBinary | src/mcp/mcpServerManager.ts:216-263 | the file is opened before the first GET; a redirect is followed only to an absolute `https:` Location, and any other Location hangs the download after one GET; success needs an existing directory and a finished write; the partial file is deleted if and only if the download fails with a stream error |
| Download.BodyAbortHangs | src/mcp/mcpServerManager.ts:229-252 | a response that breaks off mid-body never resolves and deletes nothing; after a 200 it never settles |
| Download.FailedDownloadLeavesFile | src/mcp/mcpServerManager.ts:222-258 | every download that neither resolves nor fails with a stream error has opened the file and never unlinks it |
| Download.RedirectFollowedOnce | src/mcp/mcpServerManager.ts:226-235 | a 301 or 302 with an `https:` Location requests exactly the URL, then that location |
| Download.UnfollowableRedirectHangs | src/mcp/mcpServerManager.ts:226-235 | a 301 or 302 whose Location is not an `https:` URL requests only the first URL, deletes nothing and never settles |
| Download.FollowableExamples | src/mcp/mcpServerManager.ts:230 | a path-only Location and an `http:` URL cannot be followed; an `https:` URL can, in either letter case |
| Download.RedirectWithoutLocationFails | src/mcp/mcpServerManager.ts:226-238 | a 301 or 302 without a usable Location fails with "redirect without location" after one request |
| Download.OtherStatusFails | src/mcp/mcpServerManager.ts:242-245 | every status other than 200, 301 and 302 fails, carrying that status, after one request |
| Download.DirectDownloadSucceeds | src/mcp/mcpServerManager.ts:247-252 | a 200 whose body is written completely resolves after opening the file and one GET |
| Download.StreamErrorDeletesPartialFile | src/mcp/mcpServerManager.ts:254-257 | on the direct path a stream error unlinks the server path as the last call and fails |
| Download.RedirectStreamErrorHangs | src/mcp/mcpServerManager.ts:229-235 | on the redirect path a stream error deletes nothing and the download never settles |
| Download.RedirectedStatusUnchecked | src/mcp/mcpServerManager.ts:229-235 | whatever status the target of an `https:` redirect answers with, its body is accepted as the binary |
| Download.ResolvedReplies | src/mcp/mcpServerManager.ts:224-258 | a download resolves only after a 200 or after a redirect to an `https:` target whose request succeeded |
| Download.DownloadAndInstall | src/mcp/mcpServerManager.ts:146-177 | the install succeeds if and only if the download does; it makes only install calls and issues a GET for the host's release URL |
| Download.MissingDirectoryNeverInstalls | src/mcp/mcpServerManager.ts:159-168 | with the directory missing the install never succeeds, and no mkdir is ever issued |
| Download.InstallMakesExecutable | src/mcp/mcpServerManager.ts:171-173 | a completed install sets mode 0o755 on the binary if and only if the host is not Windows |
| McpServerManager.EnsureBinary | src/mcp/mcpServerManager.ts:114-128 | the network is used if and only if no file exists at the server path; an existing file is kept as is |
| McpServerManager.AfterNotice | src/mcp/mcpServerManager.ts:330-339 | the notice is awaited: it never ends while unanswered, and the inline chat is opened exactly on 'Try it now' |
| McpServerManager.Publish | src/mcp/mcpServerManager.ts:302-340 | only mkdir of `.vscode`, the overwrite of `mcp.json` with the port's endpoint, the notice and the inline-chat command; the file is written if and only if there is a workspace root and the write succeeds; it fails if and only if the write fails; the notice is shown if and only if the file was written and notifications are on; it waits forever if and only if that notice is unanswered; the inline chat is opened if and only if the answer is 'Try it now' |
| McpServerManager.Launch | src/mcp/mcpServerManager.ts:45-61 | after an ensured binary: spawn at the server path with the configured arguments, then the 2000 ms wait, without network access, no error message and no second spawn |
| McpServerManager.Attempt | src/mcp/mcpServerManager.ts:36-62 | the `try` block shows no error message; it ends pending or failed exactly as ensuring the binary does, and otherwise as publishing decides |
| McpServerManager.StartExtendsAttempt | src/mcp/mcpServerManager.ts:63-67 | the `catch` only appends error messages to the attempt's calls and issues no request |
| McpServerManager.InStartIffInAttempt | src/mcp/mcpServerManager.ts:63-67 | every call other than an error message is made by a start if and only if the `try` block makes it |
| McpServerManager.FailedStartShowsError | src/mcp/mcpServerManager.ts:63-66 | a start shows an error if and only if it fails, and a failed start's last call shows `Failed to start AKS-MCP server: ` followed by the failure's message |
| McpServerManager.DownloadOnlyWhenBinaryMissing | src/mcp/mcpServerManager.ts:118-122 | a whole start touches the network if and only if no file exists at the server path |
| McpServerManager.AttemptSpawnsOnce | src/mcp/mcpServerManager.ts:36-62 | the `try` block spawns if and only if the binary was ensured, and at most once |
| McpServerManager.SpawnIffEnsured | src/mcp/mcpServerManager.ts:35-68 | a start spawns if and only if the binary was ensured, and at most once |
| McpServerManager.SpawnedAsConfigured | src/mcp/mcpServerManager.ts:41-52 | every spawn of a start uses the resolved server path and the configured arguments |
| McpServerManager.PublishedArtifact | src/mcp/mcpServerManager.ts:303-327 | every file publishing writes is `<root>/.vscode/mcp.json` of an open workspace, holding the given port's endpoint |
| McpServerManager.AttemptArtifact | src/mcp/mcpServerManager.ts:41-62 | every file the `try` block writes comes from publishing, after a spawn |
| McpServerManager.ArtifactAsConfigured | src/mcp/mcpServerManager.ts:303-327 | every artifact written by a start is `<root>/.vscode/mcp.json` with the configured port's endpoint, and happens only after a spawn |
| McpServerManager.PublishedPortIsSpawnedPort | src/mcp/mcpServerManager.ts:41-61 | within one start, the port in the written endpoint equals the spawned `--port` value |
| McpServerManager.NoWorkspaceNoArtifact | src/mcp/mcpServerManager.ts:303-307 | without a workspace root nothing is written and publishing does not fail |
| McpServerManager.NoticeDecidesStart | src/mcp/mcpServerManager.ts:328-339 | once the endpoint is written with notifications on, the start never ends if and only if the notice is unanswered, succeeds otherwise, and opens the inline chat if and only if the answer is 'Try it now' |
| McpServerManager.LeftoverFileIsSpawned | src/mcp/mcpServerManager.ts:118-122 | a download that fails other than by a stream error, or hangs, leaves the file; the next start downloads nothing and spawns that file |
| McpServerManager.DefaultInstall | src/mcp/mcpServerManager.ts:146-177 | on Linux x64 with a plain 200 download, ensuring the binary opens it, fetches the linux-amd64 asset and sets mode 0o755 |
| McpServerManager.DefaultLaunch | src/mcp/mcpServerManager.ts:41-61 | with defaults, the spawn uses the default twelve arguments, then waits, then writes `<root>/.vscode/mcp.json` for port 8000 and shows the notice; publishing ends once the notice is dismissed |
| McpServerManager.DefaultPublish | src/mcp/mcpServerManager.ts:302-340 | with defaults and port 8000, publishing writes exactly `<root>/.vscode/mcp.json` with `http://127.0.0.1:8000/sse`, shows the notice and ends once it is dismissed |
| McpServerManager.DefaultAttemptSucceeds | src/mcp/mcpServerManager.ts:36-62 | with defaults and no binary yet, the `try` block installs, launches and succeeds |
| McpServerManager.DefaultStartScenario | src/mcp/mcpServerManager.ts:35-68 | with defaults, no binary yet, every call succeeding and the notice dismissed, a start issues exactly download, chmod, spawn, wait, artifact write and notice, succeeds, and advertises `http://127.0.0.1:8000/sse` |
| McpServerManager.ChildProcess.constructor | src/mcp/mcpServerManager.ts:45-52 | a spawned handle carries its path and arguments and whether the binary was launched, and is not killed |
| McpServerManager.ChildProcess.Kill | src/mcp/mcpServerManager.ts:75 | `kill` marks the handle killed and records the signal |
| McpServerManager.AksMcpServerManager.constructor | src/mcp/mcpServerManager.ts:23-30 | a new manager holds no process, port 8000 and an empty server path |
| McpServerManager.AksMcpServerManager.IsServerRunning | src/mcp/mcpServerManager.ts:83-85 | in a consistent manager, running if and only if a handle is held |
| McpServerManager.AksMcpServerManager.StopMcpServer | src/mcp/mcpServerManager.ts:73-78 | a held process receives SIGTERM and the handle is cleared; with none, nothing changes; the manager is then not running |
| McpServerManager.AksMcpServerManager.OnProcessExit | src/mcp/mcpServerManager.ts:276-279 | an exit event clears the handle whichever process exited |
| McpServerManager.AksMcpServerManager.EnsureServerBinary | src/mcp/mcpServerManager.ts:114-128 | sets the server path to the resolved one and performs exactly the ensure-binary calls |
| McpServerManager.AksMcpServerManager.OnProcessError | src/mcp/mcpServerManager.ts:271-274 | the error handler shows `AKS-MCP server error: <message>` and changes no field |
| McpServerManager.AksMcpServerManager.ConfigureCopilotIntegration | src/mcp/mcpServerManager.ts:302-340 | performs exactly the publishing calls for the current port, including the awaited notice |
| McpServerManager.AksMcpServerManager.AttemptStart | src/mcp/mcpServerManager.ts:36-62 | performs exactly the `try` block's calls and sets the server path; after a spawn it holds a fresh running handle with the configured arguments and port; otherwise port and handle are unchanged |
| McpServerManager.AksMcpServerManager.LaunchServer | src/mcp/mcpServerManager.ts:41-61 | sets the configured port, holds a fresh unkilled handle for the server path with the configured arguments, and performs exactly the spawn, wait and publishing calls |
| McpServerManager.AksMcpServerManager.StartMcpServer | src/mcp/mcpServerManager.ts:35-68 | performs exactly the start trace, whose failures end by showing `Failed to start AKS-MCP server: <message>`; after a spawn it holds a fresh running handle with the configured arguments and port, launched or not as the spawn went; otherwise port and handle are unchanged; a previous process is not stopped |
| McpServerManager.AksMcpServerManager.RestartServer | src/mcp/mcpServerManager.ts:90-93 | sends SIGTERM to the held process, then starts; sets the server path; after a spawn it holds a fresh handle with the configured path, arguments and port; otherwise no handle and the old port; right after the start it is running if and only if the start spawned (the killed process's later exit clears the new handle, see `RestartExitHidesNewProcess`) |
| McpServerManager.StaleExitHidesLiveProcess | src/mcp/mcpServerManager.ts:276-279 | after two starts and the first process's exit, the manager reports not running while the second process was never killed |
| McpServerManager.RestartExitHidesNewProcess | src/mcp/mcpServerManager.ts:90-93 | after a restart and the killed process's exit, the manager reports not running while the new process was never killed |
| McpServerManager.FailedSpawnReportedRunning | src/mcp/mcpServerManager.ts:45-56 | when the binary cannot be launched, the start still ends as publishing decides, an error is shown, and the manager reports running with an unlaunched handle |
| McpExtensionIntegration.Prompt | src/mcp/mcpExtensionIntegration.ts:94-98 | the prompt is the default one if and only if the cluster argument lacks a non-empty name or resource group |
| McpExtensionIntegration.PromptRoundTrip | src/mcp/mcpExtensionIntegration.ts:94-98 | the cluster name and resource group read back from the prompt are those it was built from (name without a double quote); the default prompt names none |
| McpExtensionIntegration.StatusText | src/mcp/mcpExtensionIntegration.ts:116-119 | the status word is `running` if and only if the server is running, else `stopped` |
| McpExtensionIntegration.StartNotice | src/mcp/mcpExtensionIntegration.ts:62-70 | an error is shown if and only if an awaited start failed; nothing is shown while it never ends |
| McpExtensionIntegration.Integration.constructor | src/mcp/mcpExtensionIntegration.ts:10-12 | the integration owns a new manager with no process |
| McpExtensionIntegration.Integration.Activate | src/mcp/mcpExtensionIntegration.ts:17-39 | starts if and only if autoStart (default true); a failed start is swallowed; commands, listener and stop-on-dispose are registered unless the start never ends (a missing binary download or an unanswered notice); running afterwards if and only if it was running or the start spawned |
| McpExtensionIntegration.Integration.Toggle | src/mcp/mcpExtensionIntegration.ts:46-59 | a running server is stopped, otherwise a start is made; a failed start is reported, not thrown; running afterwards if and only if it was not running and the start spawned |
| McpExtensionIntegration.Integration.Restart | src/mcp/mcpExtensionIntegration.ts:62-70 | stop then start; success or failure is reported; right after the start it is running if and only if the start spawned (the killed process's later exit clears the new handle) |
| McpExtensionIntegration.Integration.AskCopilot | src/mcp/mcpExtensionIntegration.ts:73-113 | declines when not running and the answer is not `Start`; returns after a failed start; otherwise opens the chat with the prompt, falling back to the inline chat, else reports Copilot missing; running afterwards if and only if it was running or `Start` was chosen and the start spawned |
| McpExtensionIntegration.Integration.Status | src/mcp/mcpExtensionIntegration.ts:116-120 | the message is "AKS AI server is running" when running and "... stopped" otherwise; nothing changes |
| McpExtensionIntegration.Integration.OnConfigurationChanged | src/mcp/mcpExtensionIntegration.ts:139-154 | a start is made if and only if the change affects `aks.ai`, autoStart is on and the server is not running; running afterwards if and only if it was running or that start spawned |
| McpExtensionIntegration.Integration.Deactivate | src/mcp/mcpExtensionIntegration.ts:160-166 | stops the server without failing; it is not running afterwards |
| Validation.ToNullable | webview-ui/src/Draft/DraftWorkflow/DraftWorkflow.tsx:956 | a field yields its value exactly when a value was entered, accepted or not |
| ArrayUtil.Distinct | webview-ui/src/Draft/DraftWorkflow/DraftWorkflow.tsx:953-955 | same elements as the input, none repeated |
| ArrayUtil.DistinctKeepsFirstOccurrenceOrder | webview-ui/src/Draft/DraftWorkflow/DraftWorkflow.tsx:953-955 | the distinct list of a prefix is a prefix of the distinct list of the whole: first occurrences in input order |
| ArrayUtil.DistinctOfDistinct | webview-ui/src/Draft/DraftWorkflow/DraftWorkflow.tsx:963 | a list without repeats is unchanged |
| ArrayUtil.RemoveAll | webview-ui/src/Draft/DraftWorkflow/DraftWorkflow.tsx:201 | the removed element no longer occurs, every other element keeps its count, and the length drops by its count |
| ArrayUtil.RemoveAllAppend | webview-ui/src/Draft/DraftWorkflow/DraftWorkflow.tsx:201 | removal distributes over concatenation, so order is kept |
| ArrayUtil.RemoveAllAbsent | webview-ui/src/Draft/DraftWorkflow/DraftWorkflow.tsx:200-201 | removing an absent element changes nothing |
| ArrayUtil.FilterNulls | webview-ui/src/Draft/DraftWorkflow/DraftWorkflow.tsx:369 | with no null present, the result is the values in the same positions |
| DraftWorkflow.Selected | webview-ui/src/Draft/DraftWorkflow/DraftWorkflow.tsx:94-108 | a picker's null choice is missing, any other choice is valid with that value |
| DraftWorkflow.SelectedNewOrExisting | webview-ui/src/Draft/DraftWorkflow/DraftWorkflow.tsx:146-177 | the repository and namespace pickers accept a non-empty name together with its new-or-existing flag; null or empty is missing |
| DraftWorkflow.SpecTypeOf | webview-ui/src/Draft/DraftWorkflow/DraftWorkflow.tsx:179-182 | the radio value is taken as a deployment type unchecked; anything but `manifests` and `helm` is kept as an unknown type |
| DraftWorkflow.NameTaken | webview-ui/src/Draft/DraftWorkflow/DraftWorkflow.tsx:86 | true if and only if some existing workflow file has exactly that name |
| DraftWorkflow.ValidatedWorkflowName | webview-ui/src/Draft/DraftWorkflow/DraftWorkflow.tsx:82-91 | empty is missing; a name equal to an existing file's name is invalid with the name kept; otherwise valid |
| DraftWorkflow.FindByName | webview-ui/src/Draft/DraftWorkflow/DraftWorkflow.tsx:1000 | the first file whose name matches ignoring case, or none if and only if no file matches |
| DraftWorkflow.GetExistingFile | webview-ui/src/Draft/DraftWorkflow/DraftWorkflow.tsx:995-1002 | nothing without an entered name; otherwise the path of the first case-insensitive match, present if and only if one exists |
| DraftWorkflow.TakenNameHasExistingFile | webview-ui/src/Draft/DraftWorkflow/DraftWorkflow.tsx:995-1002 | a name rejected as taken always has an existing file shown |
| DraftWorkflow.ExistingFileIgnoresCase | webview-ui/src/Draft/DraftWorkflow/DraftWorkflow.tsx:1000 | names differing only in letter case find the same existing file |
| DraftWorkflow.CaseOnlyClashIsAccepted | webview-ui/src/Draft/DraftWorkflow/DraftWorkflow.tsx:86 | "Deploy" is accepted beside an existing "deploy" while that file is reported as existing |
| DraftWorkflow.DeleteManifestPath | webview-ui/src/Draft/DraftWorkflow/DraftWorkflow.tsx:198-208 | with no valid selection nothing changes; otherwise every occurrence is removed, the others keep their counts, and an empty result is missing |
| DraftWorkflow.DeleteManifestPathKeepsOrder | webview-ui/src/Draft/DraftWorkflow/DraftWorkflow.tsx:198-208 | deleting a path leaves the remaining paths in their original order |
| DraftWorkflow.OtherKeys | webview-ui/src/Draft/DraftWorkflow/DraftWorkflow.tsx:249-253 | exactly the entered keys of the overrides other than the edited one |
| DraftWorkflow.ValidatedOverrideKey | webview-ui/src/Draft/DraftWorkflow/DraftWorkflow.tsx:245-258 | the key is trimmed; blank is missing; invalid if and only if it equals another override's entered key; otherwise valid |
| DraftWorkflow.ValidatedOverrideValue | webview-ui/src/Draft/DraftWorkflow/DraftWorkflow.tsx:271-276 | empty is missing, anything else is valid as entered (untrimmed) |
| DraftWorkflow.ReplaceAt | webview-ui/src/Draft/DraftWorkflow/DraftWorkflow.tsx:238-242 | only the override at the edited position is replaced |
| DraftWorkflow.OverrideKeyChange | webview-ui/src/Draft/DraftWorkflow/DraftWorkflow.tsx:235-259 | only the edited override's key changes, to its validated key; the others and its value are kept |
| DraftWorkflow.OverrideValueChange | webview-ui/src/Draft/DraftWorkflow/DraftWorkflow.tsx:261-277 | only the edited override's value changes, to its validated value |
| DraftWorkflow.DeleteOverride | webview-ui/src/Draft/DraftWorkflow/DraftWorkflow.tsx:279-282 | exactly that override is removed and the others keep their order |
| DraftWorkflow.AddOverride | webview-ui/src/Draft/DraftWorkflow/DraftWorkflow.tsx:284-289 | one untouched override is appended after the existing ones |
| DraftWorkflow.DeleteUndoesAdd | webview-ui/src/Draft/DraftWorkflow/DraftWorkflow.tsx:279-289 | deleting the override just added restores the list |
| DraftWorkflow.KeyChangeKeepsKeysUnique | webview-ui/src/Draft/DraftWorkflow/DraftWorkflow.tsx:235-259 | editing a key never makes two overrides hold the same accepted key |
| DraftWorkflow.OtherEditsKeepKeysUnique | webview-ui/src/Draft/DraftWorkflow/DraftWorkflow.tsx:261-289 | editing a value, deleting and adding overrides keep accepted keys unique |
| DraftWorkflow.ValidateHelmOverrides | webview-ui/src/Draft/DraftWorkflow/DraftWorkflow.tsx:363-370 | a list exactly when every key and value is valid, then the payloads in the same order and number |
| DraftWorkflow.AddedOverrideBlocksSubmit | webview-ui/src/Draft/DraftWorkflow/DraftWorkflow.tsx:284-289 | a freshly added override makes the override list fail validation |
| DraftWorkflow.SubmittedOverridesHaveDistinctKeys | webview-ui/src/Draft/DraftWorkflow/DraftWorkflow.tsx:363-370 | submitted overrides never repeat a key when the list keeps accepted keys unique |
| DraftWorkflow.ValidateDeploymentParams | webview-ui/src/Draft/DraftWorkflow/DraftWorkflow.tsx:337-361 | manifests need valid paths, helm needs a valid chart path, values path and overrides, any other type gives nothing; fields are copied |
| DraftWorkflow.Validate | webview-ui/src/Draft/DraftWorkflow/DraftWorkflow.tsx:304-335 | a request if and only if all ten selections are valid and the deployment part is complete; every field is copied from its selection |
| DraftWorkflow.SubmittedNameIsNew | webview-ui/src/Draft/DraftWorkflow/DraftWorkflow.tsx:304-335 | a submitted workflow name is the typed, non-empty name and matches no existing file exactly |
| DraftWorkflow.UnknownTypeNeverSubmits | webview-ui/src/Draft/DraftWorkflow/DraftWorkflow.tsx:337-361 | a deployment type other than manifests or helm never yields a request |
| DraftWorkflow.AddingOverrideBlocksHelmSubmit | webview-ui/src/Draft/DraftWorkflow/DraftWorkflow.tsx:284-289 | after adding a Helm override row, a Helm form cannot be submitted |
| DraftWorkflow.ResourceGroups | webview-ui/src/Draft/DraftWorkflow/DraftWorkflow.tsx:953-955 | the offered resource groups are exactly those of the loaded resources, none repeated |
| DraftWorkflow.NamesInGroup | webview-ui/src/Draft/DraftWorkflow/DraftWorkflow.tsx:957-959 | no selected group offers no names |
| DraftWorkflow.NamesInGroupMembers | webview-ui/src/Draft/DraftWorkflow/DraftWorkflow.tsx:957-959 | a name is offered if and only if a resource of the selected group has it |
| DraftWorkflow.NamesInGroupAppend | webview-ui/src/Draft/DraftWorkflow/DraftWorkflow.tsx:964-966 | the names keep the input order |
| DraftWorkflow.NamesComeFromListedGroup | webview-ui/src/Draft/DraftWorkflow/DraftWorkflow.tsx:953-959 | whenever names are offered, their group is among the offered resource groups |
| DraftWorkflow.PrepareData | webview-ui/src/Draft/DraftWorkflow/DraftWorkflow.tsx:947-993 | cluster and registry resource-group lists hold no repeats; without an entered group no names are offered |

## Left out

- The command handlers' notifications, progress reports, `console` logging and localised message texts are left out. Handlers report only which kind of notice they show. The server manager's "enabled" notification, its 'Try it now' command, the process's error message and the start-failure message are in the trace.
- The process's `stdout` and `stderr` handlers only log, so they are not modelled. When the process's error message appears relative to the readiness wait is not modelled. `kill` is assumed to deliver its signal. Node does not promise an 'exit' event after a failed spawn, so none is assumed.
- The readiness wait is a `Wait(2000)` call in the trace. Time itself is not modelled.
- Concurrency is not modelled. Each handler runs to completion. In the source, the awaits inside a start let other handlers interleave, and the configuration-change start is not awaited.
- `mkdirSync` and `chmodSync` are assumed to succeed. A failing `writeFileSync` of `mcp.json` is modelled.
- The failure of the dynamic `import('https')` and the wrapping of its message are not modelled.
- Path joining adds one separator between a directory and one segment. `path.join` normalisation (`..`, duplicate separators) is not modelled.
- McpConfig.DirNameBaseNameOfJoin: `PathJoin("", x)` gives `/x` where `path.join` gives `x`, and `DirName("/x")` gives the empty string where `path.dirname` gives `/`. The lemma therefore does not describe `path.join` for an empty directory.
- `accessLevel` is one of the three declared names. The source passes any configured string through to `--access-level`.
- Strings are sequences of Dafny characters. UTF-16 surrogate pairs are not modelled. `toLowerCase` is modelled for ASCII letters only.
- Port and timeout settings are integers. Fractional or non-numeric setting values are not modelled. Their text is plain decimal: JavaScript's `toString` switches to exponent form (`1e+21`) for magnitudes of 10^21 and more, which is not modelled.
- Download.DownloadBinary: a Location is followed when it starts with `https:` in any letter case. The URL parser's stripping of leading white space and its rejection of an invalid host (another synchronous throw, so another hang) are not modelled.
- The messages of request and stream errors, of a failed `mcp.json` write and of `Unknown error` for a non-`Error` throw are one input, `World.errorMessage`.
- `getServerManager` is not modelled. It only returns the integration's `serverManager` field.
- Disposal of the registered commands and listeners is not modelled. The stop-on-dispose entry does what `Deactivate` does. The editor-change listener only logs.
- Helm overrides are identified by reference in the source and by their position in the list here.
- `validation`, `maybe`, `array`, `lazy` and the data loaders are not part of this model. `Validatable`, `isValid`, `isValueSet`, `toNullable`, `distinct`, `filterNulls` and `replaceItem` are specified from their names and their uses in this file.
- `PrepareData` receives the loaded clusters and registries. The not-yet-loaded states of `Lazy` and the branch, namespace and repository loaders are not modelled.
- The file-picker requests, `vscode.post*` messages, `handleLaunchAttachAcrToClusterClick`, the `onSetCreating` step of form submission and all JSX are not modelled.
- `CreateClusterPresetInput.tsx` and `test-mcp.ts` are not part of this model.
- McpExtensionIntegration.PromptRoundTrip: stated only for cluster names without a double quote. With one, the prompt text does not determine the name.
