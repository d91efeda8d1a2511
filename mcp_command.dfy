/**
 * The decisions the `mcp` command (packages/mcp/src/commands/mcp.ts)
 * makes around the daemon: the environment record built from `--env`
 * entries, the split of `-a` tokens into server arguments and a tool
 * call, the server id, which start failures count as success, how a
 * named tool's arguments are chosen, the interactive parameter prompts,
 * the interactive command words, and what the command finally does.
 *
 * The HTTP client, oclif and readline are not modelled: their results
 * are parameters. The md5 digest is an uninterpreted function.
 */
module Cli {
  import opened Wrappers
  import opened Text
  import opened Schema
  import opened Launch
  import opened ArgResolver
  import Daemon

  // ---------------------------------------------------------------------
  // --env KEY=VALUE
  // ---------------------------------------------------------------------

  /**
   * What one `--env` entry contributes: the text before its first `=` as
   * the key and the whole rest (later `=` included) as the value, when
   * that key is non-empty; nothing otherwise.
   */
  function EnvEntry(envVar: string): (e: Option<(string, string)>)
    ensures e.Some? <==> KeyOf(envVar).Some?
    ensures e.Some? ==> e.value.0 == KeyOf(envVar).value && e.value.1 == ValueOf(envVar)
  {
    SplitAtFirst(envVar, '=');
    var parts := Text.Split(envVar, '=');
    if parts[0] != [] && |parts| > 1 then Some((parts[0], Join(parts[1..], "="))) else None
  }

  /** The `env` record after the entries `envVars`, in order: a later entry for a key replaces an earlier one. */
  function EnvMap(envVars: seq<string>): map<string, string> {
    if envVars == [] then map[]
    else
      var prev := EnvMap(envVars[..|envVars| - 1]);
      match EnvEntry(envVars[|envVars| - 1])
      case Some((k, v)) => prev[k := v]
      case None => prev
  }

  /** The loop of ensureServerRunning that fills `env` from `flags.env`. */
  method ParseEnv(envFlag: Option<seq<string>>) returns (env: map<string, string>)
    ensures env == EnvMap(envFlag.GetOr([]))
  {
    env := map[];
    if envFlag.None? {
      return;
    }
    var envVars := envFlag.value;
    for n := 0 to |envVars|
      invariant env == EnvMap(envVars[..n])
    {
      assert envVars[..n + 1][..n] == envVars[..n];
      var parts := Text.Split(envVars[n], '=');
      var key := parts[0];
      if key != [] && |parts| > 1 {
        env := env[key := Join(parts[1..], "=")];
      }
    }
    assert envVars[..|envVars|] == envVars;
  }

  /** A key is set exactly when some entry has it as a non-empty key before an `=`. */
  lemma {:induction false} EnvKeys(envVars: seq<string>, k: string)
    ensures k in EnvMap(envVars) <==> exists i :: 0 <= i < |envVars| && KeyOf(envVars[i]) == Some(k)
  {
    if envVars != [] {
      var init := envVars[..|envVars| - 1];
      EnvKeys(init, k);
      if exists i :: 0 <= i < |envVars| && KeyOf(envVars[i]) == Some(k) {
        var i :| 0 <= i < |envVars| && KeyOf(envVars[i]) == Some(k);
        if i < |init| {
          assert init[i] == envVars[i];
        }
      }
    }
  }

  /** The value of a key is the one its last entry carries. */
  lemma {:induction false} EnvLastWins(envVars: seq<string>, i: nat, k: string)
    requires i < |envVars| && KeyOf(envVars[i]) == Some(k)
    requires forall j :: i < j < |envVars| ==> KeyOf(envVars[j]) != Some(k)
    ensures k in EnvMap(envVars) && EnvMap(envVars)[k] == ValueOf(envVars[i])
  {
    var init := envVars[..|envVars| - 1];
    if i < |envVars| - 1 {
      assert init[i] == envVars[i];
      EnvLastWins(init, i, k);
    }
  }

  /** `K=V=W` sets `K` to `V=W`, and `K=` sets it to the empty string. */
  lemma EnvEntryValue(k: string, v: string)
    requires k != [] && '=' !in k
    ensures EnvMap([k + "=" + v]) == map[k := v]
  {
    KeyValueToken(k, v);
    assert [k + "=" + v][..0] == [];
  }

  /** `Object.keys(env).length ? env : undefined` */
  function EnvOption(env: map<string, string>): (r: Option<map<string, string>>)
    ensures r.None? <==> |env| == 0
    ensures r.Some? ==> r.value == env
  {
    if |env| == 0 then None else Some(env)
  }

  // ---------------------------------------------------------------------
  // Split integration and the server options
  // ---------------------------------------------------------------------

  /** The tool call and server arguments the command settles on. */
  datatype Invocation = Invocation(serverArgs: seq<string>, tool: Option<string>, toolArgs: seq<string>)

  /**
   * The split integration of ensureServerRunning and run: the server is
   * always started with the split's server arguments, a positional tool
   * wins, and the split's tool and its arguments are adopted only when
   * no positional tool was given.
   */
  function Infer(flagArgs: Option<seq<string>>, argTool: Option<string>, argToolArgs: seq<string>): (inv: Invocation)
    ensures inv.serverArgs == SplitTokens(flagArgs.GetOr([]), argTool, argToolArgs).serverArgs
    ensures Present(argTool) ==> inv == Invocation(flagArgs.GetOr([]), argTool, argToolArgs)
    ensures !Present(argTool) && Present(inv.tool) ==>
      && inv.serverArgs + [inv.tool.value] + inv.toolArgs == flagArgs.GetOr([])
      && (forall j :: 0 <= j < |inv.serverArgs| ==> IsServerArg(inv.serverArgs[j]))
      && !IsServerArg(inv.tool.value)
    ensures !Present(inv.tool) ==> inv.tool == argTool && inv.toolArgs == argToolArgs
  {
    var tokens := flagArgs.GetOr([]);
    var split := SplitTokens(tokens, argTool, argToolArgs);
    SplitReconstructs(tokens, None, []);
    if !Present(argTool) && Present(split.tool) then Invocation(split.serverArgs, split.tool, split.toolArgs)
    else Invocation(split.serverArgs, argTool, argToolArgs)
  }

  /** The NpmServerOptions sent with the start request. */
  function StartOptions(pkg: string, version: Option<string>, inv: Invocation, env: map<string, string>,
                        clientName: Option<string>, clientVersion: Option<string>): (options: ServerOptions)
    ensures options.pkg == pkg && options.args == Some(inv.serverArgs)
    ensures options.env.None? <==> |env| == 0
    ensures options.env.Some? ==> options.env.value == env
    ensures options.version == version && options.clientName == clientName && options.clientVersion == clientVersion
  {
    ServerOptions(pkg, version, Some(inv.serverArgs), EnvOption(env), clientName, clientVersion)
  }

  // ---------------------------------------------------------------------
  // Server id
  // ---------------------------------------------------------------------

  /** The hex md5 digest, kept uninterpreted. */
  type Digest = string -> string

  /** `pkg.split('/').pop()`: what follows the last `/` (all of `pkg` when it has none). */
  function LastSegment(pkg: string): (seg: string)
    ensures '/' !in seg && EndsWith(pkg, seg)
    ensures |seg| < |pkg| ==> pkg[|pkg| - |seg| - 1] == '/'
    ensures '/' !in pkg ==> seg == pkg
  {
    SplitPieces(pkg, '/');
    JoinSplit(pkg, '/');
    SplitAtFirst(pkg, '/');
    var parts := Text.Split(pkg, '/');
    var seg := parts[|parts| - 1];
    if |parts| >= 2 then
      JoinLast(parts, "/");
      assert pkg == Join(parts[..|parts| - 1], "/") + "/" + seg;
      seg
    else
      seg
  }

  /**
   * generateServerId: the last segment of the package name, `-`, then the
   * first eight characters of the digest of the package name and the
   * command's raw arguments.
   */
  function GenerateServerId(pkg: string, argv: seq<string>, md5: Digest): (id: string)
    ensures var seg := LastSegment(pkg);
      var hash := md5(pkg + "-" + Join(argv, "-"));
      && |id| == |seg| + 1 + Min(8, |hash|)
      && StartsWith(id, seg) && id[|seg|] == '-'
      && EndsWith(id, hash[..Min(8, |hash|)])
  {
    var hash := md5(pkg + "-" + Join(argv, "-"));
    LastSegment(pkg) + "-" + hash[..Min(8, |hash|)]
  }

  /** `flags.serverId || generateServerId(pkg)`: an empty flag counts as absent. */
  function ServerId(flag: Option<string>, pkg: string, argv: seq<string>, md5: Digest): (id: string)
    ensures Present(flag) ==> id == flag.value
    ensures !Present(flag) ==> id == GenerateServerId(pkg, argv, md5)
  {
    if Present(flag) then flag.value else GenerateServerId(pkg, argv, md5)
  }

  // ---------------------------------------------------------------------
  // Starting the server
  // ---------------------------------------------------------------------

  /** Why a start request threw: an HTTP error reply with its `error` text, or no reply at all. */
  datatype StartFailure = HttpFailure(status: nat, error: Option<string>) | NoReply(message: string)

  /** The test of the catch block: status 400 and an error text that mentions `already exists`. */
  predicate IsServerExistsError(f: StartFailure) {
    f.HttpFailure? && f.status == 400 && f.error.Some? && Contains(f.error.value, "already exists")
  }

  /**
   * The end of ensureServerRunning: the server id when the start
   * succeeded or the server already exists, otherwise the start failure
   * is rethrown.
   */
  function EnsureServerRunning(serverId: string, failure: Option<StartFailure>): (r: Result<string, StartFailure>)
    ensures r.Ok? <==> failure.None? || IsServerExistsError(failure.value)
    ensures r.Ok? ==> r.value == serverId
    ensures r.Err? ==> failure == Some(r.error)
  {
    if failure.None? || IsServerExistsError(failure.value) then Ok(serverId) else Err(failure.value)
  }

  /** How a daemon reply reaches the command: any status but 200 throws, carrying the body's `error`. */
  function FailureOf(reply: Daemon.Reply): (f: Option<StartFailure>)
    ensures f.None? <==> reply.status == 200
  {
    if reply.status == 200 then None
    else Some(HttpFailure(reply.status, if reply.body.ErrorBody? then Some(reply.body.error) else None))
  }

  /**
   * Against the daemon's own replies: a duplicate start is taken as
   * success, while a failed launch is reported.
   */
  lemma DaemonDuplicateIsSuccess(serverId: string, message: string)
    ensures EnsureServerRunning(serverId, FailureOf(Daemon.AlreadyExists(serverId))) == Ok(serverId)
    ensures EnsureServerRunning(serverId, FailureOf(Daemon.Failure(message))).Err?
  {
    var text := Daemon.AlreadyExists(serverId).body.error;
    assert text == ("Server " + serverId + " ") + "already exists";
    ContainsSuffix("Server " + serverId + " ", "already exists");
  }

  // ---------------------------------------------------------------------
  // callToolByName: choosing the arguments
  // ---------------------------------------------------------------------

  function ToolNames(tools: seq<Tool>): (names: seq<string>)
    ensures |names| == |tools|
    ensures forall i :: 0 <= i < |tools| ==> names[i] == tools[i].name
  {
    seq(|tools|, i requires 0 <= i < |tools| => tools[i].name)
  }

  /** `tools.find(t => t.name === name)`: the first tool of that name. */
  function FindTool(tools: seq<Tool>, name: string): (r: Option<Tool>)
    ensures r.None? <==> name !in ToolNames(tools)
    ensures r.Some? ==> r.value.name == name
    ensures r.Some? ==> exists i :: 0 <= i < |tools| && tools[i] == r.value && (forall j :: 0 <= j < i ==> tools[j].name != name)
  {
    if tools == [] then None
    else if tools[0].name == name then Some(tools[0])
    else
      var r := FindTool(tools[1..], name);
      assert ToolNames(tools) == [tools[0].name] + ToolNames(tools[1..]);
      r
  }

  function ToolNotFound(toolName: string, tools: seq<Tool>): string {
    "Tool '" + toolName + "' not found. Available tools: " + Join(ToolNames(tools), ", ")
  }

  /**
   * The arguments callToolByName sends: an unknown tool is an error that
   * lists the available names; a tool with declared properties gets
   * parseCliArgsForTool's result; a tool without any gets `{path: first
   * token}` when there is a token and `{}` otherwise.
   */
  function ChooseArguments(tools: seq<Tool>, toolName: string, toolArgs: seq<string>, parse: JsonParser)
    : (r: Result<map<string, Value>, string>)
    ensures toolName !in ToolNames(tools) ==> r == Err(ToolNotFound(toolName, tools))
    ensures toolName in ToolNames(tools) ==>
      var tool := FindTool(tools, toolName).value;
      && (tool.inputSchema.Some? && tool.inputSchema.value.properties.Some? ==> r == ParseCliArgs(tool, toolArgs, parse))
      && (!(tool.inputSchema.Some? && tool.inputSchema.value.properties.Some?) ==>
            r == Ok(if |toolArgs| > 0 then map["path" := Str(toolArgs[0])] else map[]))
  {
    match FindTool(tools, toolName)
    case None => Err(ToolNotFound(toolName, tools))
    case Some(tool) =>
      if tool.inputSchema.Some? && tool.inputSchema.value.properties.Some? then ParseCliArgs(tool, toolArgs, parse)
      else if |toolArgs| > 0 then Ok(map["path" := Str(toolArgs[0])])
      else Ok(map[])
  }

  // ---------------------------------------------------------------------
  // The interactive parameter prompts
  // ---------------------------------------------------------------------

  /** `paramSchema.type || 'string'`: an empty type counts as absent. */
  function PromptType(schema: PropSchema): string {
    if schema.ty.Some? && schema.ty.value != [] then schema.ty.value else "string"
  }

  /**
   * The value stored for a non-blank answer. The answer is used
   * untrimmed, and `integer` and `object` answers stay strings, unlike in
   * coerceByType.
   */
  function PromptValue(answer: string, schema: PropSchema): (v: Value)
    ensures PromptType(schema) == "number" ==> v == FloatOf(answer)
    ensures PromptType(schema) == "boolean" ==> v == Bool(ToLower(answer) == "true")
    ensures PromptType(schema) == "array" ==>
      && v.StrList? && |v.items| == |Text.Split(answer, ',')| == CountChar(answer, ',') + 1
      && (forall i :: 0 <= i < |v.items| ==> v.items[i] == Trim(Text.Split(answer, ',')[i]))
    ensures PromptType(schema) !in {"number", "boolean", "array"} ==> v == Str(answer)
  {
    match PromptType(schema)
    case "number" => FloatOf(answer)
    case "boolean" => Bool(ToLower(answer) == "true")
    case "array" => StrList(CommaList(answer))
    case _ => Str(answer)
  }

  /**
   * The prompt loop over the declared properties, one answer each, from
   * the arguments gathered so far: a blank answer to a required property
   * abandons the call (None), a blank optional one is skipped.
   */
  function Prompted(props: Props, required: seq<string>, answers: seq<string>, acc: map<string, Value>)
    : Option<map<string, Value>>
    requires |answers| == |props|
  {
    if props == [] then Some(acc)
    else
      var name := props[0].0;
      if name in required && IsBlank(answers[0]) then None
      else
        var next := if IsBlank(answers[0]) then acc else acc[name := PromptValue(answers[0], props[0].1)];
        Prompted(props[1..], required, answers[1..], next)
  }

  /** The prompt loop of the interactive `call` command, over the answers given in turn. */
  method PromptForArguments(props: Props, required: seq<string>, answers: seq<string>)
    returns (toolArgs: Option<map<string, Value>>)
    requires |answers| == |props|
    ensures toolArgs == Prompted(props, required, answers, map[])
  {
    var args: map<string, Value> := map[];
    var i := 0;
    while i < |props|
      invariant 0 <= i <= |props|
      invariant Prompted(props, required, answers, map[]) == Prompted(props[i..], required, answers[i..], args)
    {
      var name := props[i].0;
      var value := answers[i];
      assert props[i..][0] == props[i] && props[i..][1..] == props[i + 1..] && answers[i..][1..] == answers[i + 1..];
      if name in required && IsBlank(value) {
        return None;
      }
      if !IsBlank(value) {
        args := args[name := PromptValue(value, props[i].1)];
      }
      i := i + 1;
    }
    toolArgs := Some(args);
  }

  /** The call is abandoned exactly when some required property got a blank answer. */
  lemma {:induction false} PromptAbandons(props: Props, required: seq<string>, answers: seq<string>, acc: map<string, Value>)
    requires |answers| == |props|
    ensures Prompted(props, required, answers, acc).None? <==>
      exists i :: 0 <= i < |props| && props[i].0 in required && IsBlank(answers[i])
  {
    if props != [] {
      var next := if IsBlank(answers[0]) then acc else acc[props[0].0 := PromptValue(answers[0], props[0].1)];
      PromptAbandons(props[1..], required, answers[1..], next);
      if exists i :: 1 <= i < |props| && props[i].0 in required && IsBlank(answers[i]) {
        var i :| 1 <= i < |props| && props[i].0 in required && IsBlank(answers[i]);
        assert props[1..][i - 1] == props[i] && answers[1..][i - 1] == answers[i];
      }
    }
  }

  predicate DistinctNames(props: Props) {
    forall i, j :: 0 <= i < j < |props| ==> props[i].0 != props[j].0
  }

  /** Past a prompt that does not abandon the call, the loop goes on with the next property. */
  lemma PromptStep(props: Props, required: seq<string>, answers: seq<string>, acc: map<string, Value>)
    requires |answers| == |props| && props != []
    requires !(props[0].0 in required && IsBlank(answers[0]))
    ensures Prompted(props, required, answers, acc) ==
      Prompted(props[1..], required, answers[1..],
               if IsBlank(answers[0]) then acc else acc[props[0].0 := PromptValue(answers[0], props[0].1)])
  {
  }

  /** Names the prompts never reach keep what was gathered before, and no other key appears. */
  lemma {:induction false} PromptPreserves(props: Props, required: seq<string>, answers: seq<string>, acc: map<string, Value>, k: string)
    requires |answers| == |props| && k !in Names(props)
    requires Prompted(props, required, answers, acc).Some?
    ensures var m := Prompted(props, required, answers, acc).value;
      (k in m <==> k in acc) && (k in acc ==> m[k] == acc[k])
  {
    if props != [] {
      var next := if IsBlank(answers[0]) then acc else acc[props[0].0 := PromptValue(answers[0], props[0].1)];
      assert Names(props)[0] == props[0].0;
      assert forall x :: 0 <= x < |props| - 1 ==> Names(props[1..])[x] == Names(props)[x + 1];
      PromptPreserves(props[1..], required, answers[1..], next, k);
    }
  }

  /**
   * When the call goes ahead, a property with a blank answer is left out
   * and one with a non-blank answer holds that answer converted by its type.
   */
  lemma {:induction false} PromptAt(props: Props, required: seq<string>, answers: seq<string>, acc: map<string, Value>, i: nat)
    requires |answers| == |props| && DistinctNames(props) && i < |props| && props[i].0 !in acc
    requires Prompted(props, required, answers, acc).Some?
    ensures var m := Prompted(props, required, answers, acc).value;
      && (IsBlank(answers[i]) ==> props[i].0 !in m)
      && (!IsBlank(answers[i]) ==> props[i].0 in m && m[props[i].0] == PromptValue(answers[i], props[i].1))
  {
    var name := props[0].0;
    var next := if IsBlank(answers[0]) then acc else acc[name := PromptValue(answers[0], props[0].1)];
    PromptStep(props, required, answers, acc);
    if i == 0 {
      assert forall x :: 0 <= x < |props| - 1 ==> Names(props[1..])[x] == props[x + 1].0;
      PromptPreserves(props[1..], required, answers[1..], next, name);
    } else {
      assert props[1..][i - 1] == props[i] && answers[1..][i - 1] == answers[i];
      assert props[i].0 != name;
      assert DistinctNames(props[1..]) by {
        assert forall x :: 0 <= x < |props| - 1 ==> props[1..][x] == props[x + 1];
      }
      PromptAt(props[1..], required, answers[1..], next, i - 1);
    }
  }

  // ---------------------------------------------------------------------
  // Interactive command words
  // ---------------------------------------------------------------------

  datatype Command =
    | Empty
    | ListCommand
    | CallCommand(args: seq<string>)
    | HelpCommand
    | ExitCommand
    | UnknownCommand(word: string)

  /** The words of a trimmed input line, split at runs of whitespace. */
  function Words(input: string): (words: seq<string>)
    ensures |words| >= 1
  {
    SplitSpaces(Trim(input))
  }

  /**
   * The command of one interactive input line: blank lines are skipped,
   * and the first word is matched case-insensitively, `exit` and `quit`
   * alike ending the runner.
   */
  function ParseCommand(input: string): (c: Command)
    ensures c.Empty? <==> IsBlank(input)
    ensures !IsBlank(input) ==>
      var w := ToLower(Words(input)[0]);
      && (c.ExitCommand? <==> w == "exit" || w == "quit")
      && (c.ListCommand? <==> w == "list")
      && (c.HelpCommand? <==> w == "help")
      && (c.CallCommand? <==> w == "call")
      && (c.CallCommand? ==> c.args == Words(input)[1..])
      && (c.UnknownCommand? ==> c.word == Words(input)[0])
  {
    if IsBlank(input) then Empty
    else
      var words := Words(input);
      match ToLower(words[0])
      case "list" => ListCommand
      case "call" => CallCommand(words[1..])
      case "help" => HelpCommand
      case "exit" => ExitCommand
      case "quit" => ExitCommand
      case _ => UnknownCommand(words[0])
  }

  /** A word without whitespace is its own only word. */
  lemma {:induction false} SingleWord(w: string)
    requires forall i :: 0 <= i < |w| ==> !IsSpace(w[i])
    ensures SplitSpaces(w) == [w]
  {
    if w != [] {
      SingleWord(w[1..]);
      assert [w[0]] + w[1..] == w;
    }
  }

  /** Typed alone, a word ends the runner exactly when it is `exit` or `quit` in any letter case. */
  lemma ExitWords(w: string)
    requires w != [] && forall i :: 0 <= i < |w| ==> !IsSpace(w[i])
    ensures ParseCommand(w).ExitCommand? <==> ToLower(w) == "exit" || ToLower(w) == "quit"
  {
    assert !IsSpace(w[0]) && !IsSpace(w[|w| - 1]);
    assert TrimStart(w) == w;
    assert Trim(w) == w;
    SingleWord(w);
  }

  // ---------------------------------------------------------------------
  // Dispatch
  // ---------------------------------------------------------------------

  datatype Action = CallNamedTool(name: string, toolArgs: seq<string>) | RunInteractive | ListAllTools

  /** What run does once the server is up: call the tool, else run the interactive runner, else list the tools. */
  function Dispatch(inv: Invocation, interactive: bool): (a: Action)
    ensures a.CallNamedTool? <==> Present(inv.tool)
    ensures a.CallNamedTool? ==> a == CallNamedTool(inv.tool.value, inv.toolArgs)
    ensures a.RunInteractive? <==> !Present(inv.tool) && interactive
  {
    if Present(inv.tool) then CallNamedTool(inv.tool.value, inv.toolArgs)
    else if interactive then RunInteractive
    else ListAllTools
  }

  /** A positional tool is called with its own arguments, whatever the `-a` tokens are. */
  lemma PositionalToolWins(flagArgs: Option<seq<string>>, tool: string, toolArgs: seq<string>, interactive: bool)
    requires tool != []
    ensures Dispatch(Infer(flagArgs, Some(tool), toolArgs), interactive) == CallNamedTool(tool, toolArgs)
    ensures Infer(flagArgs, Some(tool), toolArgs).serverArgs == flagArgs.GetOr([])
  {
  }

  /**
   * Without a positional tool, the first `-a` token that is neither a flag
   * nor a path is the tool, called with the tokens after it, and only the
   * tokens before it reach the server.
   */
  lemma InferredToolCalled(s: seq<string>, t: string, a: seq<string>, interactive: bool)
    requires forall j :: 0 <= j < |s| ==> IsServerArg(s[j])
    requires t != [] && !IsServerArg(t)
    ensures Dispatch(Infer(Some(s + [t] + a), None, []), interactive) == CallNamedTool(t, a)
    ensures Infer(Some(s + [t] + a), None, []).serverArgs == s
  {
    SplitDetermined(s + [t] + a, s, t, a);
  }

  /** With neither a positional tool nor a tool among the `-a` tokens, the flag decides between the runner and the listing. */
  lemma NoToolDispatch(flagArgs: seq<string>, interactive: bool)
    requires forall j :: 0 <= j < |flagArgs| ==> IsServerArg(flagArgs[j])
    ensures Dispatch(Infer(Some(flagArgs), None, []), interactive) == if interactive then RunInteractive else ListAllTools
    ensures Infer(Some(flagArgs), None, []).serverArgs == flagArgs
  {
    SplitWithoutTool(flagArgs);
  }
}
