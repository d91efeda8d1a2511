# genieOS MCP runner and terminals, modelled in Dafny

genieOS ships an `mcp` command-line tool that runs Model Context Protocol
(MCP) servers, which are npm packages started through `npx`, and calls
their tools. A long-lived HTTP daemon keeps the running servers in a
registry keyed by server id. The command makes sure the daemon knows the
server, splits its own arguments into server arguments and a tool call,
resolves command-line tokens into typed tool arguments, and either calls
the tool, runs an interactive prompt, or lists the tools. genieOS also has
two browser terminal components. One is a shell window with a recallable
command history and an output buffer. The other is a command palette with
snippet search, a capped history and a list of recent commands.

This project models those parts and proves properties about them:

- `wrappers.dfy` (`Wrappers`): `Option` and `Result`.
- `text.dfy` (`Text`): the JavaScript string built-ins the code relies on
  (`trim`, `split`, `join`, `toLowerCase`, `includes`, `indexOf`,
  `replace` with a string pattern, decimal printing).
- `schema.dfy` (`Schema`): JSON values, tool descriptors and the typed
  values produced from command-line tokens.
- `mcp_utils.dfy` (`ArgResolver`): `isPathish`, `splitServerArgsAndTool`,
  `coerceByType` and `parseCliArgsForTool`. Each loop is a method proved
  equal to a specification function, and the properties are lemmas about
  that function.
- `mcp_server.dfy` (`Launch`): what `startNpmServerAndConnect` computes
  before handing over to the MCP SDK.
- `daemon.dfy` (`Daemon`): the daemon as a class. The registry is a map,
  and a sequence keeps its insertion order. Each route handler is a method
  that returns the status and JSON body of its reply.
- `mcp_command.dfy` (`Cli`): the `mcp` command. This covers environment
  parsing, tool inference, the server id, the "already exists" recovery,
  argument selection, the interactive prompts and command words, and the
  final dispatch.
- `native_terminal.dfy` (`NativeTerm`): the shell window as a class.
- `terminal.dfy` (`Palette`): the command palette. Filtering and the
  recent-command list are pure; the state is a class.

Environment-dependent inputs are parameters of the model:

- The MCP SDK's spawn and connect, its `listTools` and its `callTool` are
  outcomes passed to the daemon's methods.
- `JSON.parse` is a function parameter (`JsonParser`); `None` stands for a
  thrown `SyntaxError`.
- md5 is a function parameter (`Digest`).
- `process.platform` is a constant field of the daemon.
- `new Date()` is a natural-number clock in the daemon and `now` in the
  palette.
- The shell backend's answers are `Outcome` values in the shell window and
  method parameters in the palette.

## Model

| member | source | states |
|---|---|---|
| ArgResolver.IsPathish | packages/mcp/src/lib/mcp-utils.ts:1-13 | a token is path-like exactly when it has a drive prefix with a slash, a UNC or POSIX-style prefix, or is quoted at both ends with no line break between |
| ArgResolver.BareWordNotPathish | packages/mcp/src/lib/mcp-utils.ts:1-13 | a tool name such as `read_file` is never taken for a path |
| ArgResolver.ServerPrefixLength | packages/mcp/src/lib/mcp-utils.ts:37-46 | the scan stops at the first token that is neither a flag nor a path, and everything before it is one |
| ArgResolver.SplitServerArgsAndTool | packages/mcp/src/lib/mcp-utils.ts:24-51 | the scanning loop returns exactly the split of the specification function |
| ArgResolver.SplitReconstructs | packages/mcp/src/lib/mcp-utils.ts:34-50 | server arguments, the tool and the tool arguments put back together give the original tokens; server arguments are flags or paths, the tool is neither |
| ArgResolver.SplitDetermined | packages/mcp/src/lib/mcp-utils.ts:37-50 | any decomposition with those properties is the one the split returns |
| ArgResolver.SplitWithoutTool | packages/mcp/src/lib/mcp-utils.ts:37-50 | no tool is found exactly when every token is a flag or a path |
| ArgResolver.SplitExplicitTool | packages/mcp/src/lib/mcp-utils.ts:29-32 | a non-empty explicit tool is trusted and every token stays a server argument; an empty one is ignored |
| ArgResolver.SplitExample | packages/mcp/src/lib/mcp-utils.ts:24-51 | `-a /home/user read_file notes.txt` splits into two server arguments, the tool and its argument |
| ArgResolver.TrueIgnoringCase | packages/mcp/src/lib/mcp-utils.ts:57 | the case-insensitive `^true$` test holds exactly when the token lower-cases to `true` |
| ArgResolver.CommaList | packages/mcp/src/lib/mcp-utils.ts:59 | one trimmed item per comma-separated piece, one more than the number of commas |
| ArgResolver.CoerceByTypeCases | packages/mcp/src/lib/mcp-utils.ts:53-63 | the value produced for each schema type: a string for an undeclared or unknown type, `true` exactly for a case-insensitive `true`, parsed JSON for arrays and objects, and when parsing fails a trimmed comma list for arrays and the raw string for objects |
| ArgResolver.KeyOf | packages/mcp/src/lib/mcp-utils.ts:74-77 | a token is a `key=value` pair exactly when its first `=` is not at index 0 |
| ArgResolver.PositionalsAppend | packages/mcp/src/lib/mcp-utils.ts:73-82 | one more token adds itself to the positionals exactly when it is not a pair |
| ArgResolver.SortTokensPositionals | packages/mcp/src/lib/mcp-utils.ts:73-82 | the tokens that are not pairs become the positionals, in order |
| ArgResolver.SortTokensKeys | packages/mcp/src/lib/mcp-utils.ts:73-82 | a key is set exactly when some token names it |
| ArgResolver.SortTokensLastWins | packages/mcp/src/lib/mcp-utils.ts:73-82 | the last token naming a key gives its value, coerced by that key's schema |
| ArgResolver.ApplySingleRequired | packages/mcp/src/lib/mcp-utils.ts:86-90 | the single-required rule never changes a value already set |
| ArgResolver.ApplyPathRule | packages/mcp/src/lib/mcp-utils.ts:92-100 | the `path` rule never changes a value already set |
| ArgResolver.FillByOrderKeeps | packages/mcp/src/lib/mcp-utils.ts:102-106 | the fallback never overwrites, sets every key it reaches, and adds no other key |
| ArgResolver.FirstMissing | packages/mcp/src/lib/mcp-utils.ts:108-113 | nothing is reported exactly when every required key is set; otherwise the first unset key in `required` order is reported |
| ArgResolver.ParseCliArgs | packages/mcp/src/lib/mcp-utils.ts:65-115 | pairs are never overwritten; the call succeeds with the resolved values exactly when every required key has one; otherwise it fails naming the first required key without a value |
| ArgResolver.ParseCliArgsForTool | packages/mcp/src/lib/mcp-utils.ts:65-115 | the method with the source's loops returns exactly what the specification function returns |
| ArgResolver.SortArgv | packages/mcp/src/lib/mcp-utils.ts:73-82 | the token loop builds the pairs and positionals of the specification |
| ArgResolver.FillRemaining | packages/mcp/src/lib/mcp-utils.ts:102-106 | the fallback loop runs `min(positionals, keys)` rounds of the specification |
| ArgResolver.CheckRequired | packages/mcp/src/lib/mcp-utils.ts:108-113 | the validation loop succeeds unchanged or fails with the message for the first missing key |
| ArgResolver.FirstMissingAt | packages/mcp/src/lib/mcp-utils.ts:108-113 | the key reported is the earliest required key that is unset |
| ArgResolver.ParseSingleRequired | packages/mcp/src/lib/mcp-utils.ts:86-90 | a lone required key that no token names takes all positionals joined by spaces |
| ArgResolver.ParsePathRule | packages/mcp/src/lib/mcp-utils.ts:92-100 | a declared `path` takes all positionals when it is the only key, otherwise the first one |
| ArgResolver.FillByOrderAt | packages/mcp/src/lib/mcp-utils.ts:102-106 | an unset key at index `i` receives positional `i`, coerced |
| ArgResolver.ParseFallback | packages/mcp/src/lib/mcp-utils.ts:102-106 | after the positional rules, the fallback pairs positional `i` with declared key `i` |
| ArgResolver.ParseExampleJoinedPath | packages/mcp/src/lib/mcp-utils.ts:86-90 | `C:\Program Files\app.txt`, given as two tokens, becomes one `path` value |
| ArgResolver.ParseTwoTokenPath | packages/mcp/src/lib/mcp-utils.ts:86-90 | for a tool whose only key is a required string `path`, any two tokens without `=` become one path joined by a space |
| ArgResolver.TwoPlainTokens | packages/mcp/src/lib/mcp-utils.ts:73-82 | two tokens without `=` are both positional, name no key, and set none |
| ArgResolver.AllPositional | packages/mcp/src/lib/mcp-utils.ts:73-82 | tokens that are not `key=value` pairs are all positional, and no key is set |
| ArgResolver.ParseExampleMissing | packages/mcp/src/lib/mcp-utils.ts:108-113 | with no tokens, a required `path` is reported as missing |
| ArgResolver.ParseExampleDroppedPositional | packages/mcp/src/lib/mcp-utils.ts:92-106 | with `path` and `mode` declared, `a b` sets only `path`; `b` is paired with `path` again and dropped |
| ArgResolver.KeyValueToken | packages/mcp/src/lib/mcp-utils.ts:74-77 | `k=v` is a pair for `k` with value `v` when `k` holds no `=` |
| Schema.LookupDeclared | packages/mcp/src/lib/mcp-utils.ts:78 | `props[k]` finds a schema exactly when `k` is a declared key |
| Launch.Launcher | packages/mcp/src/lib/mcp-server.ts:6 | `npx.cmd` exactly on win32, `npx` everywhere else |
| Launch.PackageSpec | packages/mcp/src/lib/mcp-server.ts:7 | the bare package name exactly when the version is absent or empty; otherwise the name, `@` and the version |
| Launch.ChildArgs | packages/mcp/src/lib/mcp-server.ts:12 | `-y`, the package specifier, then the server arguments in order |
| Launch.ClientIdentity | packages/mcp/src/lib/mcp-server.ts:17-20 | the defaults replace only absent name and version fields |
| Launch.Plan | packages/mcp/src/lib/mcp-server.ts:6-20 | the transport gets the launcher, the child argv and the environment unchanged; the client gets its identity |
| Launch.EmptyStringsDiffer | packages/mcp/src/lib/mcp-server.ts:7-19 | an empty client name is kept, while an empty version is dropped |
| Daemon.Failure | packages/mcp/src/daemon.ts:66-69 | status 500 carrying the error message, or `Unknown error` when the message is empty |
| Daemon.ForwardedArguments | packages/mcp/src/daemon.ts:120 | the arguments sent to the child are the given ones when truthy, otherwise `{}` |
| Daemon.Remove | packages/mcp/src/daemon.ts:147 | deleting an id removes exactly that id from the insertion order and keeps it free of repeats; an absent id leaves the order as it is |
| Daemon.RemoveAt | packages/mcp/src/daemon.ts:147 | deleting the id at index `i` keeps the ids before and after it in their insertion order |
| Daemon.DistinctCardinality | packages/mcp/src/daemon.ts:159-162 | a repeat-free order has one entry per registered id, so stopping all servers closes each exactly once |
| Daemon.SessionsOf | packages/mcp/src/daemon.ts:159-161 | the sessions of the listed ids, in order |
| Daemon.McpDaemon.constructor | packages/mcp/src/daemon.ts:15-24 | the daemon starts with an empty registry, not listening |
| Daemon.McpDaemon.Health | packages/mcp/src/daemon.ts:33-35 | `ok` and the registered ids in insertion order |
| Daemon.McpDaemon.List | packages/mcp/src/daemon.ts:73-80 | one entry per registered server, in insertion order, with its package name and last-use time |
| Daemon.McpDaemon.StartServer | packages/mcp/src/daemon.ts:38-70 | a known id gets 400 and no launch; otherwise one launch with the planned command; on success the server is registered at the end of the order and the reply is 200; on failure nothing is registered and the reply is 500 |
| Daemon.McpDaemon.ListTools | packages/mcp/src/daemon.ts:83-103 | an unknown id gets 404 and changes nothing; otherwise one request is sent; success re-stamps the last use and returns the tools; failure gives 500 |
| Daemon.McpDaemon.CallTool | packages/mcp/src/daemon.ts:106-134 | as for the tool listing, with the call forwarded with `arguments \|\| {}` |
| Daemon.McpDaemon.StopServer | packages/mcp/src/daemon.ts:137-154 | an unknown id gets 404; otherwise its session is closed and the id leaves the registry and the order |
| Daemon.McpDaemon.CloseAll | packages/mcp/src/daemon.ts:159-162 | every registered session is closed once, in insertion order, and the registry is emptied |
| Daemon.McpDaemon.StopAll | packages/mcp/src/daemon.ts:157-168 | closes all sessions, empties the registry and replies 200 |
| Daemon.McpDaemon.Start | packages/mcp/src/daemon.ts:171-178 | the daemon listens; the registry is untouched |
| Daemon.McpDaemon.Stop | packages/mcp/src/daemon.ts:180-197 | when listening, every session is closed and the registry emptied; otherwise nothing changes |
| Daemon.DuplicateStartKeepsFirst | packages/mcp/src/daemon.ts:42-43 | a second start under the same id gets the 400 `already exists` reply, and one server stays registered |
| Daemon.StopThenRestart | packages/mcp/src/daemon.ts:137-147 | after a stop the id is unknown (404), and it can be started again |
| Cli.EnvEntry | packages/mcp/src/commands/mcp.ts:66-67 | an entry contributes a pair exactly when its key before the first `=` is non-empty; the value is everything after that `=` |
| Cli.ParseEnv | packages/mcp/src/commands/mcp.ts:63-69 | the loop builds the record of the specification function, and an absent flag gives an empty record |
| Cli.EnvKeys | packages/mcp/src/commands/mcp.ts:63-69 | a key is set exactly when some entry names it |
| Cli.EnvLastWins | packages/mcp/src/commands/mcp.ts:65-67 | the last entry for a key gives its value |
| Cli.EnvEntryValue | packages/mcp/src/commands/mcp.ts:66-67 | `K=V=W` sets `K` to `V=W` |
| Cli.EnvOption | packages/mcp/src/commands/mcp.ts:89 | an empty record is sent as absent |
| Cli.Infer | packages/mcp/src/commands/mcp.ts:72-81 | the server gets the split's server arguments; a positional tool wins; the split's tool is adopted only without one |
| Cli.StartOptions | packages/mcp/src/commands/mcp.ts:85-92 | the start options carry the package, the version, the server arguments, the environment when non-empty, and the client fields |
| Cli.LastSegment | packages/mcp/src/commands/mcp.ts:56 | what follows the last `/`, or the whole name when it has none |
| Cli.GenerateServerId | packages/mcp/src/commands/mcp.ts:52-57 | the last segment, `-`, then the first eight characters of the digest of the package and the joined arguments |
| Cli.ServerId | packages/mcp/src/commands/mcp.ts:83 | a non-empty `--serverId` flag wins, otherwise the generated id |
| Cli.EnsureServerRunning | packages/mcp/src/commands/mcp.ts:94-112 | the server id is returned exactly when the start succeeded or failed with 400 `already exists`; any other failure is rethrown |
| Cli.FailureOf | packages/mcp/src/commands/mcp.ts:100-103 | a daemon reply is a failure exactly when its status is not 200 |
| Cli.DaemonDuplicateIsSuccess | packages/mcp/src/commands/mcp.ts:100-106 | the daemon's own duplicate reply counts as success, and its failure reply does not |
| Cli.ToolNames | packages/mcp/src/commands/mcp.ts:121 | the tool names, in order |
| Cli.FindTool | packages/mcp/src/commands/mcp.ts:118 | nothing exactly when no tool has the name; otherwise the first tool with that name |
| Cli.ChooseArguments | packages/mcp/src/commands/mcp.ts:115-138 | an unknown tool is an error listing the available names; declared properties go through the token resolver; otherwise `{path: first token}` or `{}` |
| Cli.PromptValue | packages/mcp/src/commands/mcp.ts:246-261 | number, boolean and array answers are converted, and any other type keeps the raw answer |
| Cli.PromptForArguments | packages/mcp/src/commands/mcp.ts:228-264 | the prompt loop returns the arguments of the specification function, or abandons the call |
| Cli.PromptAbandons | packages/mcp/src/commands/mcp.ts:240-244 | the call is abandoned exactly when some required property got a blank answer |
| Cli.PromptStep | packages/mcp/src/commands/mcp.ts:238-261 | a prompt that does not abandon the call moves on to the next property |
| Cli.PromptPreserves | packages/mcp/src/commands/mcp.ts:228-262 | keys the prompts never reach keep their values, and no other key appears |
| Cli.PromptAt | packages/mcp/src/commands/mcp.ts:246-261 | when the call goes ahead, a blank answer leaves its property out and any other answer is stored converted |
| Cli.Words | packages/mcp/src/commands/mcp.ts:184 | a trimmed line always has a first word |
| Cli.ParseCommand | packages/mcp/src/commands/mcp.ts:182-302 | a blank line is skipped; otherwise the first word, in any letter case, picks `list`, `call` with the remaining words, `help`, `exit`/`quit`, or unknown |
| Cli.SingleWord | packages/mcp/src/commands/mcp.ts:184 | a word without whitespace splits into itself |
| Cli.ExitWords | packages/mcp/src/commands/mcp.ts:295-299 | a single word ends the runner exactly when it is `exit` or `quit` in any case |
| Cli.Dispatch | packages/mcp/src/commands/mcp.ts:331-355 | a present tool is called; otherwise the interactive flag chooses between the runner and the listing |
| Cli.PositionalToolWins | packages/mcp/src/commands/mcp.ts:314-322 | a positional tool is called with its own arguments, and every `-a` token goes to the server |
| Cli.InferredToolCalled | packages/mcp/src/commands/mcp.ts:318-322 | without a positional tool, the first `-a` token that is neither a flag nor a path is called with the tokens after it |
| Cli.NoToolDispatch | packages/mcp/src/commands/mcp.ts:331-339 | with no tool anywhere, the interactive flag decides |
| NativeTerm.DisplayPath | src/components/NativeTerminal.tsx:179-182 | `~` for an unknown directory; otherwise the first occurrence of the home string, wherever it is, becomes `~` (a home prefix included), and a directory without the home string is shown as is |
| NativeTerm.DisplayAt | src/components/NativeTerminal.tsx:179-182 | where the home directory first occurs at index `i`, the shown path is the text before it, `~`, then the text after it |
| NativeTerm.HomeInsidePath | src/components/NativeTerminal.tsx:181 | home `/home/u` inside `/mnt/home/u/x` gives `/mnt~/x` |
| Text.ReplaceFirstAt | src/components/NativeTerminal.tsx:58 | `replace` with a string pattern puts the replacement in place of the first occurrence and keeps the text around it |
| Text.ContainsFirst | src/components/NativeTerminal.tsx:58 | a string that contains the pattern has a first occurrence of it |
| NativeTerm.UnknownDirectory | src/components/NativeTerminal.tsx:58 | before the directory is known, the title shows `~` but the echo shows `~` only when the home is unknown too |
| NativeTerm.ShownSound | src/components/NativeTerminal.tsx:104-121 | every entry added is a non-blank line of the text, of the right kind |
| NativeTerm.ShownStep | src/components/NativeTerminal.tsx:106-110 | each line adds itself when it is not blank, after the lines before it |
| NativeTerm.ShownComplete | src/components/NativeTerminal.tsx:104-121 | every non-blank line is shown |
| NativeTerm.TextLines | src/components/NativeTerminal.tsx:105-110 | no entry made from a text holds a line break |
| NativeTerm.NativeTerminal.constructor | src/components/NativeTerminal.tsx:19-29 | empty history, cursor off, empty input, the four banner lines |
| NativeTerm.NativeTerminal.SetLocation | src/components/NativeTerminal.tsx:36-40 | the working and home directories are set; nothing else changes |
| NativeTerm.NativeTerminal.SetInput | src/components/NativeTerminal.tsx:21 | typing changes only the input |
| NativeTerm.NativeTerminal.Submit | src/components/NativeTerminal.tsx:54-82 | the command is echoed; a non-blank command is remembered as typed; the cursor and input reset; trimmed `clear` empties the buffer; otherwise the trimmed command is sent |
| NativeTerm.NativeTerminal.Complete | src/components/NativeTerminal.tsx:82-136 | the buffer gains the result lines, a `cd ` command moves to the trimmed `pwd` answer, and the terminal is idle again |
| NativeTerm.NativeTerminal.ShowResult | src/components/NativeTerminal.tsx:103-131 | the buffer gains the entries for the answer: the error message (or `command execution failed`) when the backend threw, otherwise the output and error lines |
| NativeTerm.NativeTerminal.ShowOutput | src/components/NativeTerminal.tsx:103-129 | the non-blank output lines, then the non-blank error lines, then one empty entry when both texts are empty and the command is not `cd` |
| NativeTerm.NativeTerminal.AppendText | src/components/NativeTerminal.tsx:104-121 | a non-empty text adds its non-blank lines; an empty one adds nothing |
| NativeTerm.NativeTerminal.AppendLines | src/components/NativeTerminal.tsx:105-110 | the `forEach` appends exactly the non-blank lines, in order |
| NativeTerm.NativeTerminal.Enter | src/components/NativeTerminal.tsx:140-141 | nothing changes while a command runs; otherwise, as executeCommand does, the input is echoed, remembered when not blank, the cursor and input reset, a trimmed `clear` empties the buffer, and any other non-blank command is sent, trimmed, and marks the terminal busy |
| NativeTerm.NativeTerminal.ArrowUp | src/components/NativeTerminal.tsx:142-148 | recalls the newest entry when the cursor is off, otherwise the one before, stopping at the oldest |
| NativeTerm.NativeTerminal.ArrowDown | src/components/NativeTerminal.tsx:149-160 | moves to the next newer entry; reaching the newest turns the cursor off and clears the input |
| NativeTerm.NativeTerminal.ClearScreen | src/components/NativeTerminal.tsx:161-163 | Ctrl+L empties the buffer |
| NativeTerm.NativeTerminal.Interrupt | src/components/NativeTerminal.tsx:164-171 | Ctrl+C releases a running command, or clears the input when idle |
| NativeTerm.RecallTwoCommands | src/components/NativeTerminal.tsx:142-160 | after two commands, ArrowUp gives the newer, then the older twice; ArrowDown from the older gives an empty input with the cursor off |
| Palette.Filter | src/components/terminal.tsx:127-132 | a snippet is kept exactly when it matches, and the order is kept |
| Palette.FilteredCommands | src/components/terminal.tsx:123-133 | empty input shows every snippet; otherwise exactly the snippets matching the lower-cased input, in order |
| Palette.SearchIgnoresCase | src/components/terminal.tsx:126-132 | an input and its lower-cased form select the same snippets |
| Palette.CommandFindsItself | src/components/terminal.tsx:126-132 | typing a snippet's command finds that snippet |
| Palette.SnippetsRunnable | src/components/terminal.tsx:40-74 | no snippet's command is blank, so choosing a snippet always runs it |
| Palette.Prepend | src/components/terminal.tsx:102 | the new item comes first, followed by the newest earlier items, at most 50 in all |
| Palette.FirstWith | src/components/terminal.tsx:135-143 | the first history index holding a command, that is, its most recent run |
| Palette.UniqueFrom | src/components/terminal.tsx:136-141 | the map's values cover every command not seen before, each once |
| Palette.UniqueFromFirst | src/components/terminal.tsx:136-141 | every value kept is the first item of its command |
| Palette.UniqueFromOrder | src/components/terminal.tsx:136-141 | the values are in the order of those first items |
| Palette.Unique | src/components/terminal.tsx:135-142 | the de-duplicated history has every command of the history, each once |
| Palette.RecentProperties | src/components/terminal.tsx:135-143 | at most five entries with distinct commands, each its command's most recent run, newest first; a command left out was last run before all five shown |
| Palette.RecentCommands | src/components/terminal.tsx:135-143 | the `forEach` filling the map, then the slice, give the specified recent list |
| Palette.RepeatedCommandOnce | src/components/terminal.tsx:135-143 | a history of one command shows it once, as its most recent run |
| Palette.OutputText | src/components/terminal.tsx:103 | the panel shows the output, else the error output, else `command completed`, and never an empty text |
| Palette.FormatDuration | src/components/terminal.tsx:192-196 | nothing for a missing or zero duration; below one second, the decimal milliseconds and `ms` |
| Palette.CommandPalette.constructor | src/components/terminal.tsx:82-88 | empty input and history, cursor on the first snippet, no output, closed |
| Palette.CommandPalette.SetInput | src/components/terminal.tsx:182-184 | a changed input resets the cursor to the first snippet |
| Palette.CommandPalette.Execute | src/components/terminal.tsx:145-155 | a blank command is never run; otherwise it becomes the input, the panel hides and execution starts |
| Palette.CommandPalette.Succeeded | src/components/terminal.tsx:92-105 | one history item with the current input is prepended, the history stays within 50, and the output is shown |
| Palette.CommandPalette.Failed | src/components/terminal.tsx:106-118 | one history item is prepended with the error, and `error: <message>` is shown |
| Palette.CommandPalette.Enter | src/components/terminal.tsx:158-165 | the snippet under the cursor is run when there is one, else the typed input |
| Palette.CommandPalette.ArrowDown | src/components/terminal.tsx:166-168 | the cursor becomes `min(i+1, len-1)` and stays within the list when the list is non-empty |
| Palette.CommandPalette.ArrowUp | src/components/terminal.tsx:169-171 | the cursor becomes `max(i-1, 0)` |
| Palette.CommandPalette.Escape | src/components/terminal.tsx:172-179 | a shown panel is hidden; otherwise the palette closes through `onClose` or its own flag |

## Left out

- HTTP and transport: Express routing, middleware, listening and the HTTP client are not modelled. Each route is a method returning its reply, and the daemon's `server.close` callback is not modelled.
- The MCP SDK: spawning the child, the stdio transport, the handshake and request correlation are foreign code. Connecting, listing and calling are outcomes passed in, and closing a session is recorded in a ghost log.
- Concurrency: handlers are atomic. The start route checks the registry before awaiting the spawn and registers the server after it, so two concurrent starts under one id race; that interleaving is not modelled.
- Floating point: `Number`, `parseInt` and `parseFloat` produce opaque values (`NumberOf`, `IntegerOf`, `FloatOf`). JSON numbers are integers.
- Daemon.McpDaemon.StopServer and Daemon.McpDaemon.StopAll: the 500 replies of the two stop routes are not modelled, because `close` only starts an asynchronous transport close and does not throw synchronously, so closing a session never fails in the model.
- Property names: a schema's properties are a list of (name, schema) pairs. `Object.keys` of a JSON object never repeats a name, and repeated names are outside the model; ArgResolver.ParseFallback states the no-earlier-repeat condition it needs as a precondition.
- Palette.FormatDuration: the seconds branch (`toFixed(1)` of a double) gives `None`.
- `JSON.parse` and md5 are uninterpreted function parameters, and `JSON.stringify` output formatting is not modelled.
- Log lines, `verbose` output and the listing's printed format are not modelled.
- The readline loop of the interactive runner is not modelled. Each prompt answer is an element of a sequence, and each input line is parsed by `ParseCommand`.
- oclif flag parsing, the `Error calling tool` wrapping of thrown errors, and the daemon-reachability check are not modelled.
- Palette.FilteredCommands: `toLowerCase` is modelled on ASCII letters only, so this contract is weaker than the source for non-ASCII input. The same applies to Cli.ParseCommand, Cli.PromptValue and ArgResolver.CoerceByTypeCases.
- ArgResolver.ParseCliArgs: keys follow the declaration order of the schema's properties. JavaScript's `Object.keys` puts integer-like keys first; that ordering is not modelled.
- Cli.Infer: `args.toolArgs` is taken as an already-normalised list of strings. The conversion of a single string into a one-element list is not modelled.
- NativeTerm.NativeTerminal.Complete: the backend's answer, including the `pwd` answer after a `cd ` command, is one `Outcome` value. The two backend calls are not interleaved with other input.
- Palette.CommandPalette.Succeeded: history item ids and timestamps come from the clock and are not modelled. The duration is `now` minus the start time.
- Rendering, focus, scrolling, animation, window maximising and the floating open button are not modelled.
