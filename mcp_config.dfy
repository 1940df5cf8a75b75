/**
 * The pure parts of the AKS-MCP server manager: the `aks.ai` settings and
 * their defaults, where the server binary lives, where it is downloaded
 * from, the argument vector it is started with, and the `.vscode/mcp.json`
 * document that advertises its endpoint.
 */
module McpConfig {
  import opened Wrappers
  import opened Text

  // ---------------------------------------------------------------------------
  // Host and settings
  // ---------------------------------------------------------------------------

  /** `process.platform` and `process.arch` of the extension host. */
  datatype Host = Host(platform: string, arch: string)

  predicate IsWindows(host: Host) {
    host.platform == "win32"
  }

  datatype AccessLevel = Readonly | Readwrite | Admin

  function AccessLevelName(level: AccessLevel): string {
    match level
    case Readonly => "readonly"
    case Readwrite => "readwrite"
    case Admin => "admin"
  }

  function ParseAccessLevel(s: string): Option<AccessLevel> {
    if s == "readonly" then Some(Readonly)
    else if s == "readwrite" then Some(Readwrite)
    else if s == "admin" then Some(Admin)
    else None
  }

  lemma AccessLevelNameRoundTrip(level: AccessLevel)
    ensures ParseAccessLevel(AccessLevelName(level)) == Some(level)
  {
  }

  /** What the `aks.ai` configuration section holds; None is an unset key. */
  datatype Settings = Settings(
    serverPath: Option<string>,
    autoStart: Option<bool>,
    accessLevel: Option<AccessLevel>,
    additionalTools: Option<seq<string>>,
    serverPort: Option<int>,
    timeout: Option<int>,
    showNotifications: Option<bool>)

  const NoSettings := Settings(None, None, None, None, None, None, None)

  /** The configuration record the manager works with. */
  datatype McpServerConfig = McpServerConfig(
    serverPath: Option<string>,
    autoStart: bool,
    accessLevel: AccessLevel,
    additionalTools: seq<string>,
    serverPort: int,
    timeout: int,
    showNotifications: bool)

  /** `getConfiguration`: every unset key falls back to its default. */
  function GetConfiguration(s: Settings): McpServerConfig {
    McpServerConfig(
      s.serverPath,
      s.autoStart.GetOr(true),
      s.accessLevel.GetOr(Readonly),
      s.additionalTools.GetOr([]),
      s.serverPort.GetOr(8000),
      s.timeout.GetOr(600),
      s.showNotifications.GetOr(true))
  }

  lemma DefaultConfiguration()
    ensures GetConfiguration(NoSettings)
         == McpServerConfig(None, true, Readonly, [], 8000, 600, true)
  {
  }

  // ---------------------------------------------------------------------------
  // Paths
  // ---------------------------------------------------------------------------

  /** The separator `path.join` and `path.dirname` use on this host. */
  function Separator(host: Host): char {
    if IsWindows(host) then '\\' else '/'
  }

  /** `path.join(dir, name)` for a directory and a single path segment. */
  function PathJoin(host: Host, dir: string, name: string): string {
    dir + [Separator(host)] + name
  }

  /** Index of the last separator in `path`, if any. */
  function LastSeparator(host: Host, path: string): (r: Option<nat>)
    ensures r.Some? ==> r.value < |path| && path[r.value] == Separator(host)
    ensures r.Some? ==> Separator(host) !in path[r.value + 1..]
    ensures r.None? ==> Separator(host) !in path
    decreases |path|
  {
    if path == [] then None
    else if path[|path| - 1] == Separator(host) then Some(|path| - 1)
    else
      var r := LastSeparator(host, path[..|path| - 1]);
      assert path == path[..|path| - 1] + [path[|path| - 1]];
      if r.Some? then
        assert path[r.value + 1..] == path[..|path| - 1][r.value + 1..] + [path[|path| - 1]];
        r
      else r
  }

  /** `path.dirname`: everything before the last separator ("." when there is none). */
  function DirName(host: Host, path: string): string {
    match LastSeparator(host, path)
    case Some(i) => path[..i]
    case None => "."
  }

  /** `path.basename`: everything after the last separator. */
  function BaseName(host: Host, path: string): string {
    match LastSeparator(host, path)
    case Some(i) => path[i + 1..]
    case None => path
  }

  lemma {:induction false} LastSeparatorOfJoin(host: Host, dir: string, name: string)
    requires Separator(host) !in name
    ensures LastSeparator(host, PathJoin(host, dir, name)) == Some(|dir|)
    decreases |name|
  {
    var p := PathJoin(host, dir, name);
    if name != [] {
      var shorter := name[..|name| - 1];
      assert p[..|p| - 1] == PathJoin(host, dir, shorter);
      assert name[|name| - 1] in name;
      LastSeparatorOfJoin(host, dir, shorter);
    }
  }

  /** Splitting a joined path gives back its directory and its last segment. */
  lemma DirNameBaseNameOfJoin(host: Host, dir: string, name: string)
    requires Separator(host) !in name
    ensures DirName(host, PathJoin(host, dir, name)) == dir
    ensures BaseName(host, PathJoin(host, dir, name)) == name
  {
    LastSeparatorOfJoin(host, dir, name);
    var p := PathJoin(host, dir, name);
    assert p[..|dir|] == dir && p[|dir| + 1..] == name;
  }

  /** The installed binary's file name. */
  function BinaryName(host: Host): string {
    "aks-mcp" + (if IsWindows(host) then ".exe" else "")
  }

  /** `getDefaultServerPath`: `<globalStorage>/bin/<binary name>`. */
  function DefaultServerPath(host: Host, globalStorage: string): string {
    PathJoin(host, PathJoin(host, globalStorage, "bin"), BinaryName(host))
  }

  lemma DefaultServerPathParts(host: Host, globalStorage: string)
    ensures BaseName(host, DefaultServerPath(host, globalStorage)) == BinaryName(host)
    ensures DirName(host, DefaultServerPath(host, globalStorage))
         == PathJoin(host, globalStorage, "bin")
    ensures BinaryName(host) == "aks-mcp.exe" <==> IsWindows(host)
  {
    assert Separator(host) !in BinaryName(host);
    DirNameBaseNameOfJoin(host, PathJoin(host, globalStorage, "bin"), BinaryName(host));
  }

  /** `config.serverPath || getDefaultServerPath()`: an empty setting counts as unset. */
  function ResolveServerPath(configured: Option<string>, host: Host, globalStorage: string): (path: string)
    ensures configured.Some? && configured.value != "" ==> path == configured.value
    ensures configured.None? || configured.value == "" ==> path == DefaultServerPath(host, globalStorage)
  {
    if configured.Some? && configured.value != "" then configured.value
    else DefaultServerPath(host, globalStorage)
  }

  // ---------------------------------------------------------------------------
  // Download URL
  // ---------------------------------------------------------------------------

  const ReleaseVersion := "v0.0.2"
  const ReleaseBase := "https://github.com/Azure/aks-mcp/releases/download/"

  /** The release asset for a host: the table inside `getDownloadUrl`. */
  function AssetName(host: Host): string {
    if host.platform == "win32" then
      (if host.arch == "arm64" then "aks-mcp-windows-arm64.exe" else "aks-mcp-windows-amd64.exe")
    else if host.platform == "darwin" then
      (if host.arch == "arm64" then "aks-mcp-darwin-arm64" else "aks-mcp-darwin-amd64")
    else
      (if host.arch == "arm64" then "aks-mcp-linux-arm64" else "aks-mcp-linux-amd64")
  }

  /** `getDownloadUrl`. */
  function DownloadUrl(host: Host): string {
    ReleaseBase + ReleaseVersion + "/" + AssetName(host)
  }

  /** Release operating-system name: every platform other than win32 and darwin is linux. */
  function OsName(host: Host): string {
    if host.platform == "win32" then "windows"
    else if host.platform == "darwin" then "darwin"
    else "linux"
  }

  /** Release architecture name: only arm64 is recognised, everything else is amd64. */
  function ArchName(host: Host): string {
    if host.arch == "arm64" then "arm64" else "amd64"
  }

  /** The asset file name `aks-mcp-<os>-<arch>[.exe]`. */
  function AssetTemplate(os: string, arch: string): string {
    "aks-mcp-" + os + "-" + arch + (if os == "windows" then ".exe" else "")
  }

  lemma WindowsAssetTemplate(host: Host)
    requires host.platform == "win32"
    ensures AssetName(host) == AssetTemplate(OsName(host), ArchName(host))
  {
    if host.arch == "arm64" {
      assert "aks-mcp-windows-arm64.exe" == "aks-mcp-" + "windows" + "-" + "arm64" + ".exe";
    } else {
      assert "aks-mcp-windows-amd64.exe" == "aks-mcp-" + "windows" + "-" + "amd64" + ".exe";
    }
  }

  lemma DarwinAssetTemplate(host: Host)
    requires host.platform == "darwin"
    ensures AssetName(host) == AssetTemplate(OsName(host), ArchName(host))
  {
    if host.arch == "arm64" {
      assert "aks-mcp-darwin-arm64" == "aks-mcp-" + "darwin" + "-" + "arm64" + "";
    } else {
      assert "aks-mcp-darwin-amd64" == "aks-mcp-" + "darwin" + "-" + "amd64" + "";
    }
  }

  lemma LinuxAssetTemplate(host: Host)
    requires host.platform != "win32" && host.platform != "darwin"
    ensures AssetName(host) == AssetTemplate(OsName(host), ArchName(host))
  {
    if host.arch == "arm64" {
      assert "aks-mcp-linux-arm64" == "aks-mcp-" + "linux" + "-" + "arm64" + "";
    } else {
      assert "aks-mcp-linux-amd64" == "aks-mcp-" + "linux" + "-" + "amd64" + "";
    }
  }

  /** The asset table is the template `aks-mcp-<os>-<arch>[.exe]`, `.exe` exactly for windows. */
  lemma AssetNameTemplate(host: Host)
    ensures AssetName(host)
         == "aks-mcp-" + OsName(host) + "-" + ArchName(host)
            + (if OsName(host) == "windows" then ".exe" else "")
    ensures OsName(host) == "windows" <==> IsWindows(host)
  {
    if host.platform == "win32" {
      WindowsAssetTemplate(host);
    } else if host.platform == "darwin" {
      DarwinAssetTemplate(host);
    } else {
      LinuxAssetTemplate(host);
    }
  }

  /** The URL names the fixed release and the host's asset. */
  lemma DownloadUrlTemplate(host: Host)
    ensures DownloadUrl(host)
         == "https://github.com/Azure/aks-mcp/releases/download/v0.0.2/aks-mcp-"
            + OsName(host) + "-" + ArchName(host)
            + (if OsName(host) == "windows" then ".exe" else "")
  {
    AssetNameTemplate(host);
    var ext := if OsName(host) == "windows" then ".exe" else "";
    var base := ReleaseBase + ReleaseVersion + "/";
    assert base + "aks-mcp-" == "https://github.com/Azure/aks-mcp/releases/download/v0.0.2/aks-mcp-";
    Regroup(base, "aks-mcp-", OsName(host), ArchName(host), ext);
  }

  /** Moving a prefix into the first part of a `-`-separated template. */
  lemma Regroup(base: string, head: string, os: string, arch: string, ext: string)
    ensures base + (head + os + "-" + arch + ext) == (base + head) + os + "-" + arch + ext
  {
  }

  /** The release os names differ in their first letter. */
  lemma OsNameFromInitial(h1: Host, h2: Host)
    requires OsName(h1)[0] == OsName(h2)[0]
    ensures OsName(h1) == OsName(h2)
  {
  }

  /** The release arch names differ in their third letter. */
  lemma ArchNameFromThird(h1: Host, h2: Host)
    requires ArchName(h1)[2] == ArchName(h2)[2]
    ensures ArchName(h1) == ArchName(h2)
  {
  }

  /** Two hosts get the same asset exactly when they agree on the release os and arch names. */
  lemma DownloadUrlSeparatesTargets(h1: Host, h2: Host)
    ensures DownloadUrl(h1) == DownloadUrl(h2)
        <==> OsName(h1) == OsName(h2) && ArchName(h1) == ArchName(h2)
  {
    var base := ReleaseBase + ReleaseVersion + "/";
    AssetNameTemplate(h1);
    AssetNameTemplate(h2);
    if DownloadUrl(h1) == DownloadUrl(h2) {
      assert DownloadUrl(h1)[|base|..] == AssetName(h1);
      assert DownloadUrl(h2)[|base|..] == AssetName(h2);
      var a := AssetName(h1);
      assert a[8] == OsName(h1)[0] && a[8] == OsName(h2)[0];
      OsNameFromInitial(h1, h2);
      var k := 8 + |OsName(h1)| + 3;
      assert a[k] == ArchName(h1)[2] && a[k] == ArchName(h2)[2];
      ArchNameFromThird(h1, h2);
    }
  }

  // ---------------------------------------------------------------------------
  // Argument vector
  // ---------------------------------------------------------------------------

  const LoopbackHost := "127.0.0.1"

  /** The argument vector `startMCPServer` spawns the binary with. */
  function SpawnArgs(config: McpServerConfig): (args: seq<string>)
    ensures |args| == 12
  {
    [ "--transport", "sse",
      "--host", LoopbackHost,
      "--port", IntToString(config.serverPort),
      "--access-level", AccessLevelName(config.accessLevel),
      "--additional-tools", Join(config.additionalTools, ','),
      "--timeout", IntToString(config.timeout) ]
  }

  /** A non-empty tool list whose names hold no comma survives `join(',')`. */
  predicate NoCommaNames(tools: seq<string>) {
    |tools| > 0 && forall k :: 0 <= k < |tools| ==> ',' !in tools[k]
  }

  /** How the server reads a flag: the word after the first `flag` in flag position. */
  function FlagValue(args: seq<string>, flag: string): Option<string>
    decreases |args|
  {
    if |args| < 2 then None
    else if args[0] == flag then Some(args[1])
    else FlagValue(args[2..], flag)
  }

  /** The flag words of the argument vector, at their positions. */
  predicate FlagLayout(a: seq<string>) {
    |a| == 12 && a[0] == "--transport" && a[2] == "--host" && a[4] == "--port"
    && a[6] == "--access-level" && a[8] == "--additional-tools" && a[10] == "--timeout"
  }

  /** The first three flags are found at their own positions. */
  lemma LeadingFlagValues(a: seq<string>)
    requires FlagLayout(a)
    ensures FlagValue(a, "--transport") == Some(a[1])
    ensures FlagValue(a, "--host") == Some(a[3])
    ensures FlagValue(a, "--port") == Some(a[5])
  {
    assert a[2..][2..] == a[4..];
    assert "--transport"[2] == 't' && "--host"[2] == 'h' && "--port"[2] == 'p';
    assert FlagValue(a[4..], "--port") == Some(a[5]);
    assert FlagValue(a[2..], "--host") == Some(a[3]);
    assert FlagValue(a[2..], "--port") == FlagValue(a[4..], "--port");
  }

  /** The last three flags are found at their own positions: no earlier flag word equals them. */
  lemma TrailingFlagValues(a: seq<string>)
    requires FlagLayout(a)
    ensures FlagValue(a, "--access-level") == Some(a[7])
    ensures FlagValue(a, "--additional-tools") == Some(a[9])
    ensures FlagValue(a, "--timeout") == Some(a[11])
  {
    assert a[2..][2..] == a[4..];
    assert a[4..][2..] == a[6..];
    assert a[6..][2..] == a[8..];
    assert a[8..][2..] == a[10..];
    assert "--transport"[2] == 't' && "--host"[2] == 'h' && "--port"[2] == 'p';
    assert "--access-level"[2] == 'a' && "--additional-tools"[3] == 'd';
    assert "--access-level"[3] == 'c' && "--timeout"[2] == 't' && "--timeout"[3] == 'i';
    assert "--transport"[3] == 'r';
    assert FlagValue(a[10..], "--timeout") == Some(a[11]);
    assert FlagValue(a[8..], "--additional-tools") == Some(a[9]);
    assert FlagValue(a[6..], "--access-level") == Some(a[7]);
    assert FlagValue(a[8..], "--timeout") == FlagValue(a[10..], "--timeout");
    assert FlagValue(a[6..], "--timeout") == FlagValue(a[8..], "--timeout");
    assert FlagValue(a[4..], "--timeout") == FlagValue(a[6..], "--timeout");
    assert FlagValue(a[2..], "--timeout") == FlagValue(a[4..], "--timeout");
    assert FlagValue(a[6..], "--additional-tools") == FlagValue(a[8..], "--additional-tools");
    assert FlagValue(a[4..], "--additional-tools") == FlagValue(a[6..], "--additional-tools");
    assert FlagValue(a[2..], "--additional-tools") == FlagValue(a[4..], "--additional-tools");
    assert FlagValue(a[4..], "--access-level") == FlagValue(a[6..], "--access-level");
    assert FlagValue(a[2..], "--access-level") == FlagValue(a[4..], "--access-level");
  }

  /** Reading the argument vector back recovers the configuration it was built from. */
  lemma SpawnArgsDecode(config: McpServerConfig)
    ensures FlagValue(SpawnArgs(config), "--transport") == Some("sse")
    ensures FlagValue(SpawnArgs(config), "--host") == Some(LoopbackHost)
    ensures FlagValue(SpawnArgs(config), "--port").Some?
         && ParseInt(FlagValue(SpawnArgs(config), "--port").value) == Some(config.serverPort)
    ensures FlagValue(SpawnArgs(config), "--access-level").Some?
         && ParseAccessLevel(FlagValue(SpawnArgs(config), "--access-level").value)
            == Some(config.accessLevel)
    ensures FlagValue(SpawnArgs(config), "--timeout").Some?
         && ParseInt(FlagValue(SpawnArgs(config), "--timeout").value) == Some(config.timeout)
    ensures FlagValue(SpawnArgs(config), "--additional-tools")
         == Some(Join(config.additionalTools, ','))
    ensures NoCommaNames(config.additionalTools)
         ==> Split(Join(config.additionalTools, ','), ',') == config.additionalTools
  {
    var a := SpawnArgs(config);
    LeadingFlagValues(a);
    TrailingFlagValues(a);
    IntToStringRoundTrip(config.serverPort);
    IntToStringRoundTrip(config.timeout);
    AccessLevelNameRoundTrip(config.accessLevel);
    if NoCommaNames(config.additionalTools) {
      SplitJoin(config.additionalTools, ',');
    }
  }

  /** With nothing configured the server is started with these twelve words. */
  lemma DefaultSpawnArgs()
    ensures SpawnArgs(GetConfiguration(NoSettings))
         == ["--transport", "sse", "--host", "127.0.0.1", "--port", "8000",
             "--access-level", "readonly", "--additional-tools", "",
             "--timeout", "600"]
  {
    assert NatToString(8) == "8";
    assert NatToString(80) == "80";
    assert NatToString(800) == "800";
    assert NatToString(8000) == "8000";
    assert NatToString(6) == "6";
    assert NatToString(60) == "60";
    assert NatToString(600) == "600";
  }

  // ---------------------------------------------------------------------------
  // Endpoint artifact (.vscode/mcp.json)
  // ---------------------------------------------------------------------------

  const ServerId := "aks-mcp-server"
  const UrlPrefix := "http://127.0.0.1:"
  const UrlSuffix := "/sse"

  /** The SSE endpoint of a server listening on `port`. */
  function EndpointUrl(port: int): string {
    UrlPrefix + IntToString(port) + UrlSuffix
  }

  /** The port a consumer reads from an endpoint URL of that shape. */
  function PortOfUrl(url: string): Option<int> {
    if |url| >= |UrlPrefix| + |UrlSuffix|
       && url[..|UrlPrefix|] == UrlPrefix
       && url[|url| - |UrlSuffix|..] == UrlSuffix
    then ParseInt(url[|UrlPrefix|..|url| - |UrlSuffix|])
    else None
  }

  lemma EndpointUrlRoundTrip(port: int)
    ensures PortOfUrl(EndpointUrl(port)) == Some(port)
  {
    var u := EndpointUrl(port);
    assert u[..|UrlPrefix|] == UrlPrefix;
    assert u[|u| - |UrlSuffix|..] == UrlSuffix;
    assert u[|UrlPrefix|..|u| - |UrlSuffix|] == IntToString(port);
    IntToStringRoundTrip(port);
  }

  /** Text before and after the url in `JSON.stringify(mcpConfig, null, 2)`. */
  const ArtifactHead := "{\n  \"servers\": {\n    \"aks-mcp-server\": {\n      \"type\": \"sse\",\n      \"url\": \""
  const ArtifactTail := "\"\n    }\n  }\n}"

  /**
   * The whole `mcp.json` text:
   * `{servers: {"aks-mcp-server": {type: "sse", url: <endpoint>}}}`
   * serialised with two-space indentation.
   */
  function McpJson(port: int): string {
    ArtifactHead + EndpointUrl(port) + ArtifactTail
  }

  /** The endpoint URL a consumer reads from an `mcp.json` text of that shape. */
  function ArtifactUrl(text: string): Option<string> {
    if |text| >= |ArtifactHead| + |ArtifactTail|
       && text[..|ArtifactHead|] == ArtifactHead
       && text[|text| - |ArtifactTail|..] == ArtifactTail
    then Some(text[|ArtifactHead|..|text| - |ArtifactTail|])
    else None
  }

  /** The artifact advertises exactly the port it was written for. */
  lemma McpJsonAdvertisesPort(port: int)
    ensures ArtifactUrl(McpJson(port)) == Some(EndpointUrl(port))
    ensures PortOfUrl(ArtifactUrl(McpJson(port)).value) == Some(port)
  {
    var t := McpJson(port);
    assert t[..|ArtifactHead|] == ArtifactHead;
    assert t[|t| - |ArtifactTail|..] == ArtifactTail;
    assert t[|ArtifactHead|..|t| - |ArtifactTail|] == EndpointUrl(port);
    EndpointUrlRoundTrip(port);
  }

  lemma McpJsonInjective(p: int, q: int)
    ensures McpJson(p) == McpJson(q) <==> p == q
  {
    McpJsonAdvertisesPort(p);
    McpJsonAdvertisesPort(q);
  }

  /** The port in the advertised endpoint is the one passed to the server as `--port`. */
  lemma EndpointMatchesSpawnedPort(config: McpServerConfig)
    ensures FlagValue(SpawnArgs(config), "--port").Some?
    ensures ParseInt(FlagValue(SpawnArgs(config), "--port").value)
         == PortOfUrl(ArtifactUrl(McpJson(config.serverPort)).value)
  {
    SpawnArgsDecode(config);
    McpJsonAdvertisesPort(config.serverPort);
  }

  /** With the default port the endpoint is `http://127.0.0.1:8000/sse`. */
  lemma DefaultEndpoint()
    ensures EndpointUrl(GetConfiguration(NoSettings).serverPort) == "http://127.0.0.1:8000/sse"
  {
    assert NatToString(8) == "8";
    assert NatToString(80) == "80";
    assert NatToString(800) == "800";
    assert NatToString(8000) == "8000";
  }
}
