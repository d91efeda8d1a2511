/**
 * What startNpmServerAndConnect (packages/mcp/src/lib/mcp-server.ts)
 * computes before it hands over to the MCP SDK: the package-runner
 * command, the package specifier, the child's argument vector, the
 * environment and the client identity. Spawning, the stdio transport and
 * the protocol handshake are the SDK's; the daemon sees them only as an
 * outcome that succeeds or fails.
 */
module Launch {
  import opened Wrappers
  import opened Text

  /** NpmServerOptions: every field but `pkg` may be absent. */
  datatype ServerOptions = ServerOptions(
    pkg: string,
    version: Option<string>,
    args: Option<seq<string>>,
    env: Option<map<string, string>>,
    clientName: Option<string>,
    clientVersion: Option<string>)

  /** The name and version the client announces in the handshake. */
  datatype Identity = Identity(name: string, version: string)

  /** Everything the transport and the client are created with. */
  datatype LaunchPlan = LaunchPlan(command: string, args: seq<string>, env: Option<map<string, string>>, identity: Identity)

  const DefaultClientName := "ts-bootstrap"
  const DefaultClientVersion := "1.0.0"

  /** The package runner: the `.cmd` shim on Windows, plain `npx` elsewhere. */
  function Launcher(platform: string): (command: string)
    ensures command == "npx.cmd" <==> platform == "win32"
    ensures command == "npx" <==> platform != "win32"
  {
    if platform == "win32" then "npx.cmd" else "npx"
  }

  /** `pkg@version` when the version is a non-empty string, else the bare package name. */
  function PackageSpec(pkg: string, version: Option<string>): (spec: string)
    ensures StartsWith(spec, pkg)
    ensures spec == pkg <==> version.None? || version.value == ""
    ensures spec != pkg ==> spec[|pkg|] == '@' && spec[|pkg| + 1..] == version.value
  {
    if version.Some? && version.value != "" then pkg + "@" + version.value else pkg
  }

  /** The child's argument vector: `-y`, the package specifier, then the server arguments in order. */
  function ChildArgs(options: ServerOptions): (argv: seq<string>)
    ensures |argv| >= 2 && argv[0] == "-y" && argv[1] == PackageSpec(options.pkg, options.version)
    ensures argv[2..] == options.args.GetOr([])
  {
    ["-y", PackageSpec(options.pkg, options.version)] + options.args.GetOr([])
  }

  /**
   * The client identity. The defaults replace only absent fields (`??`):
   * an empty name or version is kept, unlike an empty package version.
   */
  function ClientIdentity(options: ServerOptions): (id: Identity)
    ensures options.clientName.Some? ==> id.name == options.clientName.value
    ensures options.clientName.None? ==> id.name == DefaultClientName
    ensures options.clientVersion.Some? ==> id.version == options.clientVersion.value
    ensures options.clientVersion.None? ==> id.version == DefaultClientVersion
  {
    Identity(options.clientName.GetOr(DefaultClientName), options.clientVersion.GetOr(DefaultClientVersion))
  }

  /** The launch plan of startNpmServerAndConnect; the environment is passed on unchanged. */
  function Plan(options: ServerOptions, platform: string): (p: LaunchPlan)
    ensures p.env == options.env
    ensures p.command == Launcher(platform) && p.args == ChildArgs(options)
    ensures p.identity == ClientIdentity(options)
  {
    LaunchPlan(Launcher(platform), ChildArgs(options), options.env, ClientIdentity(options))
  }

  /** An empty client name survives as the identity's name, while an empty version leaves the bare package name. */
  lemma EmptyStringsDiffer(pkg: string)
    ensures ClientIdentity(ServerOptions(pkg, Some(""), None, None, Some(""), None)).name == ""
    ensures PackageSpec(pkg, Some("")) == pkg
  {
  }
}
