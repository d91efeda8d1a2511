/**
 * The argument resolver of the MCP command-line client
 * (packages/mcp/src/lib/mcp-utils.ts): classifying a token as a path,
 * splitting the `-a` token list into server arguments, a tool name and
 * tool arguments, coercing a raw string by its declared JSON-schema type,
 * and mapping `key=value` and positional tokens onto a tool's properties.
 */
module ArgResolver {
  import opened Wrappers
  import opened Text
  import opened Schema

  // ---------------------------------------------------------------------
  // isPathish
  // ---------------------------------------------------------------------

  predicate IsAsciiLetter(c: char) {
    'A' <= c <= 'Z' || 'a' <= c <= 'z'
  }

  predicate IsSlash(c: char) {
    c == '\\' || c == '/'
  }

  predicate IsQuote(c: char) {
    c == '"' || c == '\''
  }

  /** The leading strings that the UNC and POSIX-style patterns accept. */
  const PathPrefixes: seq<string> := ["\\\\", "/", "./", ".\\", "../", "..\\", "~/", "~\\"]

  /** A drive letter, a colon and a slash or backslash, as in `C:\` or `c:/`. */
  predicate HasDrivePrefix(t: string) {
    |t| >= 3 && IsAsciiLetter(t[0]) && t[1] == ':' && IsSlash(t[2])
  }

  /** At least two characters, a quote at each end, no line terminator between them. */
  predicate LooksQuoted(t: string) {
    && |t| >= 2 && IsQuote(t[0]) && IsQuote(t[|t| - 1])
    && forall i :: 1 <= i < |t| - 1 ==> !IsLineTerminator(t[i])
  }

  /**
   * isPathish: one test per regular expression of the source, read
   * character by character. The contract lists the accepted shapes.
   */
  function IsPathish(t: string): (r: bool)
    ensures r <==> HasDrivePrefix(t) || LooksQuoted(t) || exists p :: p in PathPrefixes && StartsWith(t, p)
  {
    var posixLike :=
      || (|t| >= 2 && t[0] == '\\' && t[1] == '\\')
      || (|t| >= 1 && t[0] == '/')
      || (|t| >= 2 && t[0] == '.' && IsSlash(t[1]))
      || (|t| >= 3 && t[0] == '.' && t[1] == '.' && IsSlash(t[2]))
      || (|t| >= 2 && t[0] == '~' && IsSlash(t[1]));
    assert posixLike <==> exists p :: p in PathPrefixes && StartsWith(t, p) by {
      if posixLike {
        if |t| >= 2 && t[0] == '\\' && t[1] == '\\' { assert StartsWith(t, PathPrefixes[0]); }
        else if |t| >= 1 && t[0] == '/' { assert StartsWith(t, PathPrefixes[1]); }
        else if |t| >= 2 && t[0] == '.' && t[1] == '/' { assert StartsWith(t, PathPrefixes[2]); }
        else if |t| >= 2 && t[0] == '.' && t[1] == '\\' { assert StartsWith(t, PathPrefixes[3]); }
        else if |t| >= 3 && t[0] == '.' && t[1] == '.' && t[2] == '/' { assert StartsWith(t, PathPrefixes[4]); }
        else if |t| >= 3 && t[0] == '.' && t[1] == '.' && t[2] == '\\' { assert StartsWith(t, PathPrefixes[5]); }
        else if |t| >= 2 && t[1] == '/' { assert StartsWith(t, PathPrefixes[6]); }
        else { assert StartsWith(t, PathPrefixes[7]); }
      }
    }
    HasDrivePrefix(t) || posixLike || LooksQuoted(t)
  }

  /** A bare word such as `read_file` or `list_directory` is not a path. */
  lemma BareWordNotPathish(t: string)
    requires |t| > 0 && (IsAsciiLetter(t[0]) || IsDigit(t[0]) || t[0] == '_')
    requires |t| < 2 || t[1] != ':'
    ensures !IsPathish(t)
  {
  }

  // ---------------------------------------------------------------------
  // splitServerArgsAndTool
  // ---------------------------------------------------------------------

  /** A token kept as a server argument: it starts with `-` or is path-like. */
  predicate IsServerArg(t: string) {
    StartsWith(t, "-") || IsPathish(t)
  }

  /** JavaScript truthiness of an optional string. */
  predicate Present(s: Option<string>) {
    s.Some? && s.value != []
  }

  datatype SplitResult = SplitResult(serverArgs: seq<string>, tool: Option<string>, toolArgs: seq<string>)

  /** The length of the longest prefix of `args` made of server arguments. */
  function ServerPrefixLength(args: seq<string>): (n: nat)
    ensures n <= |args|
    ensures forall j :: 0 <= j < n ==> IsServerArg(args[j])
    ensures n < |args| ==> !IsServerArg(args[n])
  {
    if args == [] || !IsServerArg(args[0]) then 0 else 1 + ServerPrefixLength(args[1..])
  }

  /** What splitServerArgsAndTool returns, stated without its loop. */
  function SplitTokens(flagArgs: seq<string>, explicitTool: Option<string>, explicitToolArgs: seq<string>): SplitResult {
    if Present(explicitTool) then SplitResult(flagArgs, explicitTool, explicitToolArgs)
    else
      var n := ServerPrefixLength(flagArgs);
      if n < |flagArgs| then SplitResult(flagArgs[..n], Some(flagArgs[n]), flagArgs[n + 1..])
      else SplitResult(flagArgs, None, [])
  }

  /** splitServerArgsAndTool, with the source's scanning loop. */
  method SplitServerArgsAndTool(flagArgs: seq<string>, explicitTool: Option<string>, explicitToolArgs: seq<string>)
    returns (r: SplitResult)
    ensures r == SplitTokens(flagArgs, explicitTool, explicitToolArgs)
  {
    if explicitTool.Some? && explicitTool.value != "" {
      return SplitResult(flagArgs, explicitTool, explicitToolArgs);
    }
    var serverArgs: seq<string> := [];
    var i := 0;
    while i < |flagArgs|
      invariant 0 <= i <= |flagArgs|
      invariant serverArgs == flagArgs[..i]
      invariant forall j :: 0 <= j < i ==> IsServerArg(flagArgs[j])
    {
      var t := flagArgs[i];
      if !(StartsWith(t, "-") || IsPathish(t)) {
        break;
      }
      serverArgs := serverArgs + [t];
      i := i + 1;
    }
    assert i == ServerPrefixLength(flagArgs);
    var tool := if i < |flagArgs| then Some(flagArgs[i]) else None;
    var toolArgs := if i < |flagArgs| then flagArgs[i + 1..] else [];
    r := SplitResult(serverArgs, tool, toolArgs);
  }

  function ToolTokens(tool: Option<string>): seq<string> {
    if tool.Some? then [tool.value] else []
  }

  /**
   * Without a present explicit tool the split puts the tokens back together,
   * every server argument is a flag or a path, and the tool is neither.
   */
  lemma SplitReconstructs(flagArgs: seq<string>, explicitTool: Option<string>, explicitToolArgs: seq<string>)
    requires !Present(explicitTool)
    ensures var r := SplitTokens(flagArgs, explicitTool, explicitToolArgs);
      && r.serverArgs + ToolTokens(r.tool) + r.toolArgs == flagArgs
      && (forall j :: 0 <= j < |r.serverArgs| ==> IsServerArg(r.serverArgs[j]))
      && (r.tool.Some? ==> !IsServerArg(r.tool.value))
      && (r.tool.None? ==> r.toolArgs == [])
  {
    var n := ServerPrefixLength(flagArgs);
    if n < |flagArgs| {
      assert flagArgs[..n] + [flagArgs[n]] + flagArgs[n + 1..] == flagArgs;
    }
  }

  /**
   * The split is the only decomposition with those properties: any
   * `s + [t] + a == flagArgs` whose `s` are server arguments and whose `t`
   * is not one is exactly what the split returns.
   */
  lemma SplitDetermined(flagArgs: seq<string>, s: seq<string>, t: string, a: seq<string>)
    requires s + [t] + a == flagArgs
    requires forall j :: 0 <= j < |s| ==> IsServerArg(s[j])
    requires !IsServerArg(t)
    ensures SplitTokens(flagArgs, None, []) == SplitResult(s, Some(t), a)
  {
    var n := ServerPrefixLength(flagArgs);
    assert forall j :: 0 <= j < |s| ==> flagArgs[j] == s[j];
    assert flagArgs[|s|] == t;
    assert n == |s|;
    assert flagArgs[..n] == s;
    assert flagArgs[n + 1..] == a;
  }

  /** With no tool token the whole list consists of server arguments. */
  lemma SplitWithoutTool(flagArgs: seq<string>)
    ensures SplitTokens(flagArgs, None, []).tool.None? <==> forall j :: 0 <= j < |flagArgs| ==> IsServerArg(flagArgs[j])
  {
  }

  /** A present explicit tool is trusted: every flag token is a server argument. */
  lemma SplitExplicitTool(flagArgs: seq<string>, tool: string, toolArgs: seq<string>)
    requires tool != []
    ensures SplitTokens(flagArgs, Some(tool), toolArgs) == SplitResult(flagArgs, Some(tool), toolArgs)
    ensures SplitTokens(flagArgs, Some(""), toolArgs) == SplitTokens(flagArgs, None, [])
  {
  }

  lemma SplitExample()
    ensures SplitTokens(["-a", "/home/user", "read_file", "notes.txt"], None, [])
         == SplitResult(["-a", "/home/user"], Some("read_file"), ["notes.txt"])
  {
    var args := ["-a", "/home/user", "read_file", "notes.txt"];
    assert StartsWith(args[0], "-");
    assert StartsWith(args[1], PathPrefixes[1]);
    BareWordNotPathish(args[2]);
    SplitDetermined(args, ["-a", "/home/user"], "read_file", ["notes.txt"]);
  }

  // ---------------------------------------------------------------------
  // coerceByType
  // ---------------------------------------------------------------------

  /** `schema?.type ?? 'string'` */
  function TypeName(schema: Option<PropSchema>): string {
    if schema.Some? && schema.value.ty.Some? then schema.value.ty.value else "string"
  }

  /** `/^true$/i.test(raw)` */
  predicate MatchesTrueIgnoringCase(raw: string) {
    && |raw| == 4
    && (raw[0] == 't' || raw[0] == 'T') && (raw[1] == 'r' || raw[1] == 'R')
    && (raw[2] == 'u' || raw[2] == 'U') && (raw[3] == 'e' || raw[3] == 'E')
  }

  /** The case-insensitive pattern accepts exactly what lower-cases to `true`. */
  lemma TrueIgnoringCase(raw: string)
    ensures MatchesTrueIgnoringCase(raw) <==> ToLower(raw) == "true"
  {
    if ToLower(raw) == "true" {
      assert LowerChar(raw[0]) == 't' && LowerChar(raw[1]) == 'r';
      assert LowerChar(raw[2]) == 'u' && LowerChar(raw[3]) == 'e';
    }
    if MatchesTrueIgnoringCase(raw) {
      assert ToLower(raw) == "true";
    }
  }

  /** `raw.split(',').map(s => s.trim())` */
  function CommaList(raw: string): (items: seq<string>)
    ensures |items| == |Text.Split(raw, ',')| == CountChar(raw, ',') + 1
    ensures forall i :: 0 <= i < |items| ==> items[i] == Trim(Text.Split(raw, ',')[i])
  {
    SplitPieces(raw, ',');
    var pieces := Split(raw, ',');
    seq(|pieces|, i requires 0 <= i < |pieces| => Trim(pieces[i]))
  }

  /** coerceByType */
  function CoerceByType(raw: string, schema: Option<PropSchema>, parse: JsonParser): Value {
    var t := TypeName(schema);
    if t == "number" then NumberOf(raw)
    else if t == "integer" then IntegerOf(raw)
    else if t == "boolean" then Bool(MatchesTrueIgnoringCase(raw))
    else if t == "array" then (match parse(raw) case Some(j) => Parsed(j) case None => StrList(CommaList(raw)))
    else if t == "object" then (match parse(raw) case Some(j) => Parsed(j) case None => Str(raw))
    else Str(raw)
  }

  /**
   * What each declared type makes of a raw token: a string for an
   * undeclared or unknown type, `true` exactly for a case-insensitive
   * `true`, parsed JSON for arrays and objects, and when parsing fails a
   * trimmed comma list for arrays and the raw string for objects.
   */
  lemma CoerceByTypeCases(raw: string, schema: Option<PropSchema>, parse: JsonParser)
    ensures var v := CoerceByType(raw, schema, parse);
      && (TypeName(schema) !in {"number", "integer", "boolean", "array", "object"} ==> v == Str(raw))
      && (TypeName(schema) == "boolean" ==> v == Bool(ToLower(raw) == "true"))
      && (TypeName(schema) in {"array", "object"} && parse(raw).Some? ==> v == Parsed(parse(raw).value))
      && (TypeName(schema) == "array" && parse(raw).None? ==>
        && v.StrList? && |v.items| == |Text.Split(raw, ',')| == CountChar(raw, ',') + 1
        && forall i :: 0 <= i < |v.items| ==> v.items[i] == Trim(Text.Split(raw, ',')[i]))
      && (TypeName(schema) == "object" && parse(raw).None? ==> v == Str(raw))
  {
    TrueIgnoringCase(raw);
  }

  // ---------------------------------------------------------------------
  // parseCliArgsForTool
  // ---------------------------------------------------------------------

  /** The key of a `key=value` token: the text before its first `=`, when that `=` is not at index 0. */
  function KeyOf(a: string): (k: Option<string>)
    ensures k.Some? <==> IndexOf(a, '=') > 0
  {
    var i := IndexOf(a, '=');
    if i > 0 then Some(a[..i]) else None
  }

  /** The text after the first `=` of a `key=value` token. */
  function ValueOf(a: string): string
    requires KeyOf(a).Some?
  {
    a[IndexOf(a, '=') + 1..]
  }

  /** The positional tokens of `argv`, in their original order. */
  function Positionals(argv: seq<string>): seq<string> {
    if argv == [] then []
    else (if KeyOf(argv[0]).None? then [argv[0]] else []) + Positionals(argv[1..])
  }

  datatype Sorted = Sorted(kv: map<string, Value>, pos: seq<string>)

  /** The first loop of parseCliArgsForTool, over all of `argv`. */
  function SortTokens(argv: seq<string>, props: Props, parse: JsonParser): Sorted {
    if argv == [] then Sorted(map[], [])
    else
      var prev := SortTokens(argv[..|argv| - 1], props, parse);
      var a := argv[|argv| - 1];
      match KeyOf(a)
      case Some(k) => Sorted(prev.kv[k := CoerceByType(ValueOf(a), Lookup(props, k), parse)], prev.pos)
      case None => Sorted(prev.kv, prev.pos + [a])
  }

  lemma {:induction false} PositionalsAppend(argv: seq<string>, a: string)
    ensures Positionals(argv + [a]) == Positionals(argv) + (if KeyOf(a).None? then [a] else [])
  {
    if argv != [] {
      assert (argv + [a])[1..] == argv[1..] + [a];
      PositionalsAppend(argv[1..], a);
    }
  }

  /** `PositionalsAppend` stated on the last token of a non-empty `argv`. */
  lemma PositionalsLast(argv: seq<string>)
    requires argv != []
    ensures Positionals(argv) == Positionals(argv[..|argv| - 1]) + (if KeyOf(argv[|argv| - 1]).None? then [argv[|argv| - 1]] else [])
  {
    PositionalsAppend(argv[..|argv| - 1], argv[|argv| - 1]);
    assert argv[..|argv| - 1] + [argv[|argv| - 1]] == argv;
  }

  /** The tokens that are not `key=value` pairs stay positional, in their original order. */
  lemma {:induction false} SortTokensPositionals(argv: seq<string>, props: Props, parse: JsonParser)
    ensures SortTokens(argv, props, parse).pos == Positionals(argv)
  {
    if argv != [] {
      var init, last := argv[..|argv| - 1], argv[|argv| - 1];
      SortTokensPositionals(init, props, parse);
      PositionalsLast(argv);
      if KeyOf(last).Some? {
        assert SortTokens(argv, props, parse).pos == SortTokens(init, props, parse).pos;
      } else {
        assert SortTokens(argv, props, parse).pos == SortTokens(init, props, parse).pos + [last];
      }
    }
  }

  /** A key is set exactly when some token names it. */
  lemma {:induction false} SortTokensKeys(argv: seq<string>, props: Props, parse: JsonParser, k: string)
    ensures k in SortTokens(argv, props, parse).kv <==> exists j :: 0 <= j < |argv| && KeyOf(argv[j]) == Some(k)
  {
    if argv != [] {
      var init, last := argv[..|argv| - 1], argv[|argv| - 1];
      SortTokensKeys(init, props, parse, k);
      NamedLast(argv, k);
      if KeyOf(last).Some? {
        assert SortTokens(argv, props, parse).kv.Keys == SortTokens(init, props, parse).kv.Keys + {KeyOf(last).value};
      } else {
        assert SortTokens(argv, props, parse).kv == SortTokens(init, props, parse).kv;
      }
    }
  }

  /** No token of a non-empty `argv` names `k` exactly when none before the last does and the last does not. */
  lemma NamedLast(argv: seq<string>, k: string)
    requires argv != []
    ensures Unnamed(argv, k) <==> Unnamed(argv[..|argv| - 1], k) && KeyOf(argv[|argv| - 1]) != Some(k)
  {
    var init := argv[..|argv| - 1];
    if !Unnamed(argv, k) {
      var j :| 0 <= j < |argv| && KeyOf(argv[j]) == Some(k);
      if j < |init| {
        assert init[j] == argv[j];
      }
    }
    if !Unnamed(init, k) {
      var j :| 0 <= j < |init| && KeyOf(init[j]) == Some(k);
      assert argv[j] == init[j];
    }
  }

  /** The last token that names a key decides its value, coerced by that key's schema. */
  lemma {:induction false} SortTokensLastWins(argv: seq<string>, props: Props, parse: JsonParser, j: nat)
    requires j < |argv| && KeyOf(argv[j]).Some?
    requires forall j' :: j < j' < |argv| ==> KeyOf(argv[j']) != KeyOf(argv[j])
    ensures var k := KeyOf(argv[j]).value;
      && k in SortTokens(argv, props, parse).kv
      && SortTokens(argv, props, parse).kv[k] == CoerceByType(ValueOf(argv[j]), Lookup(props, k), parse)
  {
    if j < |argv| - 1 {
      var init := argv[..|argv| - 1];
      assert init[j] == argv[j];
      SortTokensLastWins(init, props, parse, j);
    }
  }

  /** The single-required rule: a lone required key still unset takes all positionals, space-joined. */
  function ApplySingleRequired(s: Sorted, props: Props, required: seq<string>, parse: JsonParser): (r: Sorted)
    ensures forall k :: k in s.kv ==> k in r.kv && r.kv[k] == s.kv[k]
  {
    if |required| == 1 && required[0] !in s.kv && |s.pos| > 0
    then Sorted(s.kv[required[0] := CoerceByType(Join(s.pos, " "), Lookup(props, required[0]), parse)], [])
    else s
  }

  /** The `path` rule: all positionals when `path` is the only declared key, else the first one. */
  function ApplyPathRule(s: Sorted, props: Props, parse: JsonParser): (r: Sorted)
    ensures forall k :: k in s.kv ==> k in r.kv && r.kv[k] == s.kv[k]
  {
    if "path" in Names(props) && "path" !in s.kv && |s.pos| > 0 then
      if |props| == 1
      then Sorted(s.kv["path" := CoerceByType(Join(s.pos, " "), Lookup(props, "path"), parse)], [])
      else Sorted(s.kv["path" := CoerceByType(s.pos[0], Lookup(props, "path"), parse)], s.pos[1..])
    else s
  }

  function Min(a: nat, b: nat): nat {
    if a < b then a else b
  }

  /** The fallback loop after `n` rounds: positional `i` goes to declared key `i` when that key is unset. */
  function FillByOrder(out: map<string, Value>, pos: seq<string>, props: Props, parse: JsonParser, n: nat): map<string, Value>
    requires n <= |pos| && n <= |props|
  {
    if n == 0 then out
    else
      var m := FillByOrder(out, pos, props, parse, n - 1);
      var k := props[n - 1].0;
      if k in m then m else m[k := CoerceByType(pos[n - 1], Lookup(props, k), parse)]
  }

  /**
   * The fallback never overwrites: every value already set survives, the
   * first `n` declared keys all end up set, and no other key is added.
   */
  lemma FillByOrderKeeps(out: map<string, Value>, pos: seq<string>, props: Props, parse: JsonParser, n: nat)
    requires n <= |pos| && n <= |props|
    ensures var m := FillByOrder(out, pos, props, parse, n);
      && (forall k :: k in out ==> k in m && m[k] == out[k])
      && (forall i :: 0 <= i < n ==> props[i].0 in m)
      && (forall k :: k in m ==> k in out || k in Names(props[..n]))
  {
    var m := FillByOrder(out, pos, props, parse, n);
    forall k | k in out
      ensures k in m && m[k] == out[k]
    {
      FillKeepsKey(out, pos, props, parse, n, k);
    }
    forall i | 0 <= i < n
      ensures props[i].0 in m
    {
      FillSetsKey(out, pos, props, parse, n, i);
    }
    forall k | k in m
      ensures k in out || k in Names(props[..n])
    {
      FillOnlyKey(out, pos, props, parse, n, k);
      if k !in out {
        var i :| 0 <= i < n && props[i].0 == k;
        assert Names(props[..n])[i] == k;
      }
    }
  }

  lemma {:induction false} FillKeepsKey(out: map<string, Value>, pos: seq<string>, props: Props, parse: JsonParser, n: nat, k: string)
    requires n <= |pos| && n <= |props| && k in out
    ensures k in FillByOrder(out, pos, props, parse, n) && FillByOrder(out, pos, props, parse, n)[k] == out[k]
  {
    if n > 0 {
      FillKeepsKey(out, pos, props, parse, n - 1, k);
      var prev, key := FillByOrder(out, pos, props, parse, n - 1), props[n - 1].0;
      if key !in prev {
        var m := prev[key := CoerceByType(pos[n - 1], Lookup(props, key), parse)];
        assert key != k;
        assert k in m && m[k] == prev[k];
      }
    }
  }

  lemma {:induction false} FillSetsKey(out: map<string, Value>, pos: seq<string>, props: Props, parse: JsonParser, n: nat, i: nat)
    requires i < n <= |pos| && n <= |props|
    ensures props[i].0 in FillByOrder(out, pos, props, parse, n)
  {
    if i < n - 1 {
      FillSetsKey(out, pos, props, parse, n - 1, i);
      FillGrows(out, pos, props, parse, n - 1, props[i].0);
    }
  }

  lemma FillGrows(out: map<string, Value>, pos: seq<string>, props: Props, parse: JsonParser, n: nat, k: string)
    requires n < |pos| && n < |props| && k in FillByOrder(out, pos, props, parse, n)
    ensures k in FillByOrder(out, pos, props, parse, n + 1)
  {
  }

  lemma {:induction false} FillOnlyKey(out: map<string, Value>, pos: seq<string>, props: Props, parse: JsonParser, n: nat, k: string)
    requires n <= |pos| && n <= |props| && k in FillByOrder(out, pos, props, parse, n)
    ensures k in out || exists i :: 0 <= i < n && props[i].0 == k
  {
    if n > 0 {
      if k == props[n - 1].0 {
        assert 0 <= n - 1 < n && props[n - 1].0 == k;
      } else {
        var prev := FillByOrder(out, pos, props, parse, n - 1);
        assert k in prev;
        FillOnlyKey(out, pos, props, parse, n - 1, k);
        if k !in out {
          var i :| 0 <= i < n - 1 && props[i].0 == k;
          assert 0 <= i < n && props[i].0 == k;
        }
      }
    }
  }

  /** The first required key that is missing from `out`, in `required` order. */
  function FirstMissing(required: seq<string>, out: map<string, Value>): (r: Option<string>)
    ensures r.None? <==> forall i :: 0 <= i < |required| ==> required[i] in out
    ensures r.Some? ==> exists i :: (0 <= i < |required| && required[i] == r.value && r.value !in out
      && forall j :: 0 <= j < i ==> required[j] in out)
  {
    if required == [] then None
    else if required[0] !in out then Some(required[0])
    else
      var rest := FirstMissing(required[1..], out);
      assert forall i :: 0 <= i < |required| - 1 ==> required[1..][i] == required[i + 1];
      rest
  }

  function MissingMessage(key: string): string {
    "Missing required parameter: " + key
  }

  /** The values after the two positional rules, before the fallback loop. */
  function BeforeFallback(tool: Tool, argv: seq<string>, parse: JsonParser): Sorted {
    var props := PropsOf(tool);
    var s0 := SortTokens(argv, props, parse);
    var s1 := ApplySingleRequired(s0, props, RequiredOf(tool), parse);
    ApplyPathRule(s1, props, parse)
  }

  /** The values after all three positional rules, the map the required keys are checked against. */
  function Resolved(tool: Tool, argv: seq<string>, parse: JsonParser): map<string, Value> {
    var s := BeforeFallback(tool, argv, parse);
    FillByOrder(s.kv, s.pos, PropsOf(tool), parse, Min(|s.pos|, |PropsOf(tool)|))
  }

  /**
   * parseCliArgsForTool. Keys set by `key=value` tokens are never
   * overwritten, and the call succeeds, with the resolved values, exactly
   * when every required key ends up with a value; otherwise it fails
   * naming the first required key that has none.
   */
  function ParseCliArgs(tool: Tool, argv: seq<string>, parse: JsonParser): (r: Result<map<string, Value>, string>)
    ensures r.Ok? <==> forall i :: 0 <= i < |RequiredOf(tool)| ==> RequiredOf(tool)[i] in Resolved(tool, argv, parse)
    ensures r.Ok? ==> r.value == Resolved(tool, argv, parse)
    ensures r.Ok? ==> forall k :: k in SortTokens(argv, PropsOf(tool), parse).kv ==>
      k in r.value && r.value[k] == SortTokens(argv, PropsOf(tool), parse).kv[k]
    ensures r.Err? ==> exists i :: (0 <= i < |RequiredOf(tool)| && RequiredOf(tool)[i] !in Resolved(tool, argv, parse)
      && (forall j :: 0 <= j < i ==> RequiredOf(tool)[j] in Resolved(tool, argv, parse))
      && r.error == MissingMessage(RequiredOf(tool)[i]))
  {
    var props := PropsOf(tool);
    var s := BeforeFallback(tool, argv, parse);
    var out := Resolved(tool, argv, parse);
    FillByOrderKeeps(s.kv, s.pos, props, parse, Min(|s.pos|, |props|));
    match FirstMissing(RequiredOf(tool), out)
    case None => Ok(out)
    case Some(key) => Err(MissingMessage(key))
  }

  /** parseCliArgsForTool, with the source's loops over the tokens, the positionals and the required keys. */
  method ParseCliArgsForTool(tool: Tool, argv: seq<string>, parse: JsonParser) returns (r: Result<map<string, Value>, string>)
    ensures r == ParseCliArgs(tool, argv, parse)
  {
    var props := PropsOf(tool);
    var required := RequiredOf(tool);
    var kvArgs, pos := SortArgv(argv, props, parse);
    var out := kvArgs;
    if |required| == 1 && required[0] !in out && |pos| > 0 {
      out := out[required[0] := CoerceByType(Join(pos, " "), Lookup(props, required[0]), parse)];
      pos := [];
    }
    if "path" in Names(props) && "path" !in out && |pos| > 0 {
      if |props| == 1 {
        out := out["path" := CoerceByType(Join(pos, " "), Lookup(props, "path"), parse)];
        pos := [];
      } else {
        out := out["path" := CoerceByType(pos[0], Lookup(props, "path"), parse)];
        pos := pos[1..];
      }
    }
    assert Sorted(out, pos) == BeforeFallback(tool, argv, parse);
    out := FillRemaining(out, pos, props, parse);
    r := CheckRequired(required, out);
  }

  /** The first loop: `key=value` tokens into `kvArgs`, the others pushed onto `pos`. */
  method SortArgv(argv: seq<string>, props: Props, parse: JsonParser) returns (kvArgs: map<string, Value>, pos: seq<string>)
    ensures Sorted(kvArgs, pos) == SortTokens(argv, props, parse)
  {
    kvArgs, pos := map[], [];
    for n := 0 to |argv|
      invariant Sorted(kvArgs, pos) == SortTokens(argv[..n], props, parse)
    {
      var a := argv[n];
      assert argv[..n + 1][..n] == argv[..n];
      var i := IndexOf(a, '=');
      if i > 0 {
        var k := a[..i];
        var v := a[i + 1..];
        kvArgs := kvArgs[k := CoerceByType(v, Lookup(props, k), parse)];
      } else {
        pos := pos + [a];
      }
    }
    assert argv[..|argv|] == argv;
  }

  /** The fallback loop: positional `i` to declared key `i`, only when that key is unset. */
  method FillRemaining(before: map<string, Value>, pos: seq<string>, props: Props, parse: JsonParser)
    returns (out: map<string, Value>)
    ensures out == FillByOrder(before, pos, props, parse, Min(|pos|, |props|))
  {
    out := before;
    var i := 0;
    while i < |pos| && i < |props|
      invariant 0 <= i <= Min(|pos|, |props|)
      invariant out == FillByOrder(before, pos, props, parse, i)
    {
      var k := props[i].0;
      if k !in out {
        out := out[k := CoerceByType(pos[i], Lookup(props, k), parse)];
      }
      i := i + 1;
    }
  }

  /** The validation loop: the first required key without a value raises the error. */
  method CheckRequired(required: seq<string>, out: map<string, Value>) returns (r: Result<map<string, Value>, string>)
    ensures r == match FirstMissing(required, out) case None => Ok(out) case Some(key) => Err(MissingMessage(key))
  {
    for j := 0 to |required|
      invariant forall j' :: 0 <= j' < j ==> required[j'] in out
    {
      if required[j] !in out {
        FirstMissingAt(required, out, j);
        return Err(MissingMessage(required[j]));
      }
    }
    r := Ok(out);
  }

  lemma {:induction false} FirstMissingAt(required: seq<string>, out: map<string, Value>, j: nat)
    requires j < |required| && required[j] !in out
    requires forall j' :: 0 <= j' < j ==> required[j'] in out
    ensures FirstMissing(required, out) == Some(required[j])
  {
    if j > 0 {
      FirstMissingAt(required[1..], out, j - 1);
    }
  }

  // ---------------------------------------------------------------------
  // Properties of parseCliArgsForTool
  // ---------------------------------------------------------------------

  /** True when no token of `argv` is a `key=value` pair for `key`. */
  predicate Unnamed(argv: seq<string>, key: string) {
    forall j :: 0 <= j < |argv| ==> KeyOf(argv[j]) != Some(key)
  }

  /**
   * A lone required key that no token names takes every positional,
   * space-joined, and nothing else is filled from the positionals.
   */
  lemma ParseSingleRequired(tool: Tool, argv: seq<string>, parse: JsonParser)
    requires |RequiredOf(tool)| == 1 && Unnamed(argv, RequiredOf(tool)[0])
    requires Positionals(argv) != []
    ensures var key := RequiredOf(tool)[0];
      ParseCliArgs(tool, argv, parse)
        == Ok(SortTokens(argv, PropsOf(tool), parse).kv[key := CoerceByType(Join(Positionals(argv), " "), Lookup(PropsOf(tool), key), parse)])
  {
    SortTokensKeys(argv, PropsOf(tool), parse, RequiredOf(tool)[0]);
    SortTokensPositionals(argv, PropsOf(tool), parse);
  }

  /**
   * When the single-required rule does not apply and no token names `path`,
   * a declared `path` takes all positionals space-joined if it is the only
   * declared key, and otherwise the first positional alone.
   */
  lemma ParsePathRule(tool: Tool, argv: seq<string>, parse: JsonParser)
    requires "path" in Names(PropsOf(tool)) && Unnamed(argv, "path")
    requires Positionals(argv) != []
    requires |RequiredOf(tool)| != 1 || !Unnamed(argv, RequiredOf(tool)[0])
    ensures var pos := Positionals(argv);
      var r := ParseCliArgs(tool, argv, parse);
      r.Ok? ==> ("path" in r.value
        && r.value["path"] == CoerceByType(if |PropsOf(tool)| == 1 then Join(pos, " ") else pos[0], Lookup(PropsOf(tool), "path"), parse))
  {
    var props := PropsOf(tool);
    SortTokensKeys(argv, props, parse, "path");
    SortTokensPositionals(argv, props, parse);
    if |RequiredOf(tool)| == 1 {
      var j :| 0 <= j < |argv| && KeyOf(argv[j]) == Some(RequiredOf(tool)[0]);
      SortTokensKeys(argv, props, parse, RequiredOf(tool)[0]);
    }
    var s := BeforeFallback(tool, argv, parse);
    FillByOrderKeeps(s.kv, s.pos, props, parse, Min(|s.pos|, |props|));
  }

  lemma {:induction false} FillByOrderAt(out: map<string, Value>, pos: seq<string>, props: Props, parse: JsonParser, n: nat, i: nat)
    requires i < n <= |pos| && n <= |props|
    requires props[i].0 !in out && props[i].0 !in Names(props[..i])
    ensures var m := FillByOrder(out, pos, props, parse, n);
      props[i].0 in m && m[props[i].0] == CoerceByType(pos[i], Lookup(props, props[i].0), parse)
  {
    if n == i + 1 {
      FillByOrderKeeps(out, pos, props, parse, i);
    } else {
      FillByOrderAt(out, pos, props, parse, n - 1, i);
    }
  }

  /**
   * The fallback pairs the positional left at index `i` with the declared
   * key at index `i`; that key, when it was still unset, gets the coerced
   * positional.
   */
  lemma ParseFallback(tool: Tool, argv: seq<string>, parse: JsonParser, i: nat)
    requires var s := BeforeFallback(tool, argv, parse);
      i < |s.pos| && i < |PropsOf(tool)| && PropsOf(tool)[i].0 !in s.kv
    requires PropsOf(tool)[i].0 !in Names(PropsOf(tool)[..i])
    ensures var s := BeforeFallback(tool, argv, parse);
      var key := PropsOf(tool)[i].0;
      var r := ParseCliArgs(tool, argv, parse);
      r.Ok? ==> key in r.value && r.value[key] == CoerceByType(s.pos[i], Lookup(PropsOf(tool), key), parse)
  {
    var s := BeforeFallback(tool, argv, parse);
    var props := PropsOf(tool);
    FillByOrderAt(s.kv, s.pos, props, parse, Min(|s.pos|, |props|), i);
  }

  /** A path with a space, given as two tokens, becomes one value of the lone required key. */
  lemma ParseExampleJoinedPath(parse: JsonParser)
    ensures var tool := Tool("read_file", None, Some(InputSchema(Some([("path", PropSchema(Some("string"), None))]), ["path"])));
      ParseCliArgs(tool, ["C:\\Program", "Files\\app.txt"], parse) == Ok(map["path" := Str("C:\\Program" + " " + "Files\\app.txt")])
  {
    var tool := Tool("read_file", None, Some(InputSchema(Some([("path", PropSchema(Some("string"), None))]), ["path"])));
    ParseTwoTokenPath(tool, "C:\\Program", "Files\\app.txt", parse);
  }

  /** Two tokens without `=`, for a tool whose only key is a required string `path`, are joined into that path. */
  lemma ParseTwoTokenPath(tool: Tool, a: string, b: string, parse: JsonParser)
    requires tool.inputSchema == Some(InputSchema(Some([("path", PropSchema(Some("string"), None))]), ["path"]))
    requires '=' !in a && '=' !in b
    ensures ParseCliArgs(tool, [a, b], parse) == Ok(map["path" := Str(a + " " + b)])
  {
    var props := PropsOf(tool);
    TwoPlainTokens(a, b, props, parse);
    assert Lookup(props, "path") == Some(PropSchema(Some("string"), None));
    ParseSingleRequired(tool, [a, b], parse);
  }

  /** Two tokens without `=` are both positional, name no key and set none. */
  lemma TwoPlainTokens(a: string, b: string, props: Props, parse: JsonParser)
    requires '=' !in a && '=' !in b
    ensures Unnamed([a, b], "path") && Positionals([a, b]) == [a, b]
    ensures SortTokens([a, b], props, parse).kv == map[]
    ensures Join([a, b], " ") == a + " " + b
  {
    NoEqualsNoKey(a);
    NoEqualsNoKey(b);
    NoPairsNoKeys([a, b], props, parse);
    NoPairsAllPositional([a, b]);
  }

  /** A token without `=` is positional. */
  lemma NoEqualsNoKey(a: string)
    requires '=' !in a
    ensures KeyOf(a).None?
  {
  }

  /** Tokens that are not `key=value` pairs are all positional, and no key is set. */
  lemma AllPositional(argv: seq<string>, props: Props, parse: JsonParser)
    requires forall j :: 0 <= j < |argv| ==> KeyOf(argv[j]).None?
    ensures Positionals(argv) == argv
    ensures SortTokens(argv, props, parse) == Sorted(map[], argv)
  {
    NoPairsNoKeys(argv, props, parse);
    NoPairsAllPositional(argv);
    SortTokensPositionals(argv, props, parse);
  }

  lemma {:induction false} NoPairsNoKeys(argv: seq<string>, props: Props, parse: JsonParser)
    requires forall j :: 0 <= j < |argv| ==> KeyOf(argv[j]).None?
    ensures SortTokens(argv, props, parse).kv == map[]
  {
    if argv != [] {
      NoPairsNoKeys(argv[..|argv| - 1], props, parse);
      assert KeyOf(argv[|argv| - 1]).None?;
    }
  }

  lemma {:induction false} NoPairsAllPositional(argv: seq<string>)
    requires forall j :: 0 <= j < |argv| ==> KeyOf(argv[j]).None?
    ensures Positionals(argv) == argv
  {
    if argv != [] {
      NoPairsAllPositional(argv[1..]);
      assert KeyOf(argv[0]).None?;
      assert [argv[0]] + argv[1..] == argv;
    }
  }

  /** With no tokens, a required key is reported missing. */
  lemma ParseExampleMissing(parse: JsonParser)
    ensures var tool := Tool("read_file", None, Some(InputSchema(Some([("path", PropSchema(Some("string"), None))]), ["path"])));
      ParseCliArgs(tool, [], parse) == Err("Missing required parameter: path")
  {
    var tool := Tool("read_file", None, Some(InputSchema(Some([("path", PropSchema(Some("string"), None))]), ["path"])));
    var props := PropsOf(tool);
    assert RequiredOf(tool) == ["path"];
    assert BeforeFallback(tool, [], parse) == Sorted(map[], []);
    assert FillByOrder(map[], [], props, parse, 0) == map[];
    assert FirstMissing(["path"], map[]) == Some("path");
    assert MissingMessage("path") == "Missing required parameter: path";
  }

  /**
   * With `path` and `mode` declared and nothing required, `a b` sets only
   * `path`: the path rule shifts `a` off, and the fallback then pairs `b`
   * with `path` again, which is already set, so `b` is dropped.
   */
  lemma ParseExampleDroppedPositional(parse: JsonParser)
    ensures var props := [("path", PropSchema(Some("string"), None)), ("mode", PropSchema(Some("string"), None))];
      var tool := Tool("write", None, Some(InputSchema(Some(props), [])));
      ParseCliArgs(tool, ["a", "b"], parse) == Ok(map["path" := Str("a")])
  {
    var props := [("path", PropSchema(Some("string"), None)), ("mode", PropSchema(Some("string"), None))];
    var tool := Tool("write", None, Some(InputSchema(Some(props), [])));
    DroppedBeforeFallback(tool, props, parse);
    DroppedFallback(props, parse);
    assert FirstMissing([], map["path" := Str("a")]) == None;
  }

  /** In that example, the path rule takes `a` and leaves `b`. */
  lemma DroppedBeforeFallback(tool: Tool, props: Props, parse: JsonParser)
    requires props == [("path", PropSchema(Some("string"), None)), ("mode", PropSchema(Some("string"), None))]
    requires tool == Tool("write", None, Some(InputSchema(Some(props), [])))
    ensures BeforeFallback(tool, ["a", "b"], parse) == Sorted(map["path" := Str("a")], ["b"])
  {
    var argv := ["a", "b"];
    NoEqualsNoKey(argv[0]);
    NoEqualsNoKey(argv[1]);
    AllPositional(argv, props, parse);
    assert PropsOf(tool) == props && RequiredOf(tool) == [];
    var s1 := ApplySingleRequired(Sorted(map[], argv), props, [], parse);
    assert s1 == Sorted(map[], argv);
    assert Names(props)[0] == "path";
    assert Lookup(props, "path") == Some(PropSchema(Some("string"), None));
    CoerceByTypeCases("a", Lookup(props, "path"), parse);
  }

  /** In that example, the fallback pairs `b` with `path`, which is already set. */
  lemma DroppedFallback(props: Props, parse: JsonParser)
    requires props == [("path", PropSchema(Some("string"), None)), ("mode", PropSchema(Some("string"), None))]
    ensures FillByOrder(map["path" := Str("a")], ["b"], props, parse, 1) == map["path" := Str("a")]
  {
    assert props[0].0 == "path";
  }

  /** A token `k=v` whose key holds no `=` is a pair for `k` with value `v`, whatever `v` holds. */
  lemma KeyValueToken(k: string, v: string)
    requires k != [] && '=' !in k
    ensures KeyOf(k + "=" + v) == Some(k) && ValueOf(k + "=" + v) == v
  {
    var a := k + "=" + v;
    var i := IndexOf(a, '=');
    assert a[|k|] == '=';
    assert forall j :: 0 <= j < |k| ==> a[j] == k[j];
    assert a[..|k|] == k;
  }
}
