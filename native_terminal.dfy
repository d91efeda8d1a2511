/**
 * The state of the shell window of src/components/NativeTerminal.tsx:
 * the command history with its recall cursor, the input line, the
 * output buffer, the current directory and the busy flag. Rendering,
 * focus and scrolling are not modelled; the backend's answer to a
 * command is a parameter of the method that completes it.
 */
module NativeTerm {
  import opened Wrappers
  import opened Text

  datatype LineKind = CommandLine | OutputLine | ErrorLine

  /** One entry of the output buffer. */
  datatype Line = Line(kind: LineKind, text: string)

  /** The four lines the buffer starts with. */
  const Banner: seq<Line> := [
    Line(OutputLine, "GenieOS terminal v1.0.0"),
    Line(OutputLine, seq(36, _ => '\U{2501}')),
    Line(OutputLine, "connected to real shell - be careful!"),
    Line(OutputLine, "")
  ]

  /**
   * What the backend did with a command: its standard output and error,
   * and for a `cd ` command the output of the `pwd` asked for afterwards;
   * or the message of the error it threw.
   */
  datatype Outcome = Ran(stdout: string, stderr: string, pwd: Option<string>) | Threw(message: string)

  /** `currentDirectory.replace(home, '~')`, the path shown before an echoed command. */
  function PromptPath(dir: string, home: string): string {
    ReplaceFirst(dir, home, "~")
  }

  /**
   * getDisplayPath: `~` for a directory not known yet; otherwise the
   * first occurrence of the home directory becomes `~`.
   */
  function DisplayPath(dir: string, home: string): (p: string)
    ensures dir == [] ==> p == "~"
    ensures dir != [] && StartsWith(dir, home) ==> p == "~" + dir[|home|..]
    ensures dir != [] && !Contains(dir, home) ==> p == dir
    ensures dir != [] && Contains(dir, home) ==>
      exists i: nat :: FirstAt(dir, home, i) && p == dir[..i] + "~" + dir[i + |home|..]
  {
    if dir == [] then "~"
    else if !Contains(dir, home) then (ReplaceAbsent(dir, home, "~"); PromptPath(dir, home))
    else
      ContainsFirst(dir, home);
      var i: nat :| FirstAt(dir, home, i);
      ReplaceFirstAt(dir, home, "~", i);
      PromptPath(dir, home)
  }

  /** Where the home directory first occurs at `i`, the shown path is the text around it with `~` in its place. */
  lemma DisplayAt(dir: string, home: string, i: nat)
    requires dir != [] && FirstAt(dir, home, i)
    ensures DisplayPath(dir, home) == dir[..i] + "~" + dir[i + |home|..]
  {
    assert dir[i..][..|home|] == home;
    assert Contains(dir, home) by {
      ContainsFrom(dir, home, i);
    }
    ReplaceFirstAt(dir, home, "~", i);
  }

  /** Proof helper for DisplayAt: an occurrence at any index makes the pattern contained. */
  lemma {:induction false} ContainsFrom(s: string, pat: string, i: nat)
    requires i <= |s| && StartsWith(s[i..], pat)
    ensures Contains(s, pat)
  {
    if i > 0 {
      assert s[1..][i - 1..] == s[i..];
      ContainsFrom(s[1..], pat, i - 1);
    } else {
      assert s[0..] == s;
    }
  }

  /** `/home/u` first occurs in `/mnt/home/u/x` at index 4. */
  lemma HomeInsideAt()
    ensures FirstAt("/mnt/home/u/x", "/home/u", 4)
  {
    var dir, home := "/mnt/home/u/x", "/home/u";
    assert dir[4..][..|home|] == home;
    forall j | 0 <= j < 4
      ensures !StartsWith(dir[j..], home)
    {
      assert dir[j + 1] != home[1] || dir[j] != home[0];
      assert dir[j..][..|home|][0] == dir[j] && dir[j..][..|home|][1] == dir[j + 1];
    }
  }

  /** A home directory found inside the path, not at its start, is still the part shown as `~`. */
  lemma HomeInsidePath()
    ensures DisplayPath("/mnt/home/u/x", "/home/u") == "/mnt" + "~" + "/x"
  {
    HomeInsideAt();
    DisplayAt("/mnt/home/u/x", "/home/u", 4);
    assert "/mnt/home/u/x"[..4] == "/mnt";
    assert "/mnt/home/u/x"[11..] == "/x";
  }


  /**
   * Before the directory is known the echoed command and the window title
   * disagree: the title shows `~`, the echo shows `~` only when the home
   * directory is not known either.
   */
  lemma UnknownDirectory(home: string)
    ensures DisplayPath([], home) == "~"
    ensures PromptPath([], home) == if home == [] then "~" else []
  {
  }

  /**
   * The lines of `lines` that are not blank, in order, as entries of
   * `kind`. A line is kept when its trimmed text is not empty, that is
   * (Text.BlankIffAllSpace) when it is not all whitespace.
   */
  function Shown(lines: seq<string>, kind: LineKind): seq<Line> {
    if lines == [] then []
    else
      var last := lines[|lines| - 1];
      Shown(lines[..|lines| - 1], kind) + (if AllSpace(last) then [] else [Line(kind, last)])
  }

  /** Every entry shown is a non-blank line of the input, of the given kind. */
  lemma {:induction false} ShownSound(lines: seq<string>, kind: LineKind)
    ensures forall l :: l in Shown(lines, kind) ==> l.kind == kind && !AllSpace(l.text) && l.text in lines
  {
    if lines != [] {
      var init := lines[..|lines| - 1];
      ShownSound(init, kind);
      assert forall t :: t in init ==> t in lines;
    }
  }

  lemma ShownStep(lines: seq<string>, i: nat, kind: LineKind)
    requires i < |lines|
    ensures Shown(lines[..i + 1], kind) == Shown(lines[..i], kind) + (if AllSpace(lines[i]) then [] else [Line(kind, lines[i])])
  {
    var p := lines[..i + 1];
    assert p[..|p| - 1] == lines[..i];
    assert p[|p| - 1] == lines[i];
  }

  /** Every non-blank line of the input is shown. */
  lemma {:induction false} ShownComplete(lines: seq<string>, kind: LineKind)
    ensures forall i :: 0 <= i < |lines| && !AllSpace(lines[i]) ==> Line(kind, lines[i]) in Shown(lines, kind)
  {
    if lines != [] {
      var init := lines[..|lines| - 1];
      ShownComplete(init, kind);
      var last := lines[|lines| - 1];
      var tail := if AllSpace(last) then [] else [Line(kind, last)];
      assert Shown(lines, kind) == Shown(init, kind) + tail;
      forall i | 0 <= i < |lines| && !AllSpace(lines[i])
        ensures Line(kind, lines[i]) in Shown(lines, kind)
      {
        if i < |init| {
          assert init[i] == lines[i];
          assert Line(kind, lines[i]) in Shown(init, kind);
        } else {
          assert Line(kind, lines[i]) in tail;
        }
      }
    }
  }

  /** A text is shown line by line: no entry made from it holds a line break. */
  lemma TextLines(text: string, kind: LineKind)
    ensures forall l :: l in Shown(Text.Split(text, '\n'), kind) ==> l.kind == kind && !AllSpace(l.text) && '\n' !in l.text
  {
    ShownSound(Text.Split(text, '\n'), kind);
    SplitPieces(text, '\n');
  }

  /** The entries made from a text that is not empty: its non-blank lines. */
  function TextShown(text: string, kind: LineKind): seq<Line> {
    if text == [] then [] else Shown(Text.Split(text, '\n'), kind)
  }

  /** `'cd'` alone or a `cd ` command, after which an empty answer prints nothing. */
  predicate IsCd(command: string) {
    command == "cd" || StartsWith(command, "cd ")
  }

  /** The entries a completed command adds to the buffer. */
  function ResultLines(command: string, outcome: Outcome): seq<Line> {
    match outcome
    case Threw(message) => [Line(ErrorLine, if message == [] then "command execution failed" else message)]
    case Ran(stdout, stderr, _) =>
      TextShown(stdout, OutputLine) + TextShown(stderr, ErrorLine)
      + (if stdout == [] && stderr == [] && !IsCd(command) then [Line(OutputLine, [])] else [])
  }

  /** The directory after a command: a `cd ` command moves to the trimmed `pwd` answer, when it is not empty. */
  function NewDirectory(dir: string, command: string, outcome: Outcome): string {
    if outcome.Ran? && StartsWith(command, "cd ") && outcome.pwd.Some? && outcome.pwd.value != []
    then Trim(outcome.pwd.value)
    else dir
  }

  function Max(a: int, b: int): int {
    if a < b then b else a
  }

  function Min(a: int, b: int): int {
    if a < b then a else b
  }

  /** Proof helper: appending three pieces one after another appends their concatenation. */
  lemma Regroup<T>(a: seq<T>, b: seq<T>, c: seq<T>, d: seq<T>)
    ensures a + b + c + d == a + (b + c + d)
  {
  }

  class NativeTerminal {
    var commandHistory: seq<string>
    var historyIndex: int
    var currentInput: string
    var isExecuting: bool
    var currentDirectory: string
    /** The home directory the backend reported, or "" while it is unknown. */
    var home: string
    var output: seq<Line>

    /** The recall cursor is off (-1) or on an entry, and only non-blank commands are remembered. */
    ghost predicate Valid()
      reads this
    {
      && (historyIndex == -1 || 0 <= historyIndex < |commandHistory|)
      && (forall i :: 0 <= i < |commandHistory| ==> !AllSpace(commandHistory[i]))
    }

    constructor ()
      ensures Valid()
      ensures commandHistory == [] && historyIndex == -1 && currentInput == [] && !isExecuting
      ensures currentDirectory == [] && home == [] && output == Banner
    {
      commandHistory := [];
      historyIndex := -1;
      currentInput := [];
      isExecuting := false;
      currentDirectory := [];
      home := [];
      output := Banner;
    }

    /** The answer of the `pwd` query: the working directory and the home directory. */
    method SetLocation(cwd: string, homeDir: string)
      requires Valid()
      modifies this
      ensures Valid()
      ensures currentDirectory == cwd && home == homeDir
      ensures commandHistory == old(commandHistory) && historyIndex == old(historyIndex)
      ensures currentInput == old(currentInput) && isExecuting == old(isExecuting) && output == old(output)
    {
      currentDirectory := cwd;
      home := homeDir;
    }

    /** Typing in the input line. */
    method SetInput(text: string)
      requires Valid()
      modifies this
      ensures Valid() && currentInput == text
      ensures commandHistory == old(commandHistory) && historyIndex == old(historyIndex)
      ensures isExecuting == old(isExecuting) && currentDirectory == old(currentDirectory)
      ensures home == old(home) && output == old(output)
    {
      currentInput := text;
    }

    /**
     * executeCommand up to the backend call: the command is echoed, a
     * non-blank command is remembered as typed, the cursor and the input
     * are reset, and a trimmed `clear` empties the buffer. The trimmed
     * command to send to the backend, if any, is returned.
     */
    method Submit(command: string) returns (pending: Option<string>)
      requires Valid()
      modifies this
      ensures Valid()
      ensures !AllSpace(command) ==> commandHistory == old(commandHistory) + [command]
      ensures AllSpace(command) ==> commandHistory == old(commandHistory)
      ensures historyIndex == -1 && currentInput == []
      ensures Trim(command) == "clear" ==> output == []
      ensures Trim(command) != "clear" ==>
        output == old(output) + [Line(CommandLine, PromptPath(old(currentDirectory), old(home)) + " $ " + command)]
      ensures pending.Some? <==> !AllSpace(command) && Trim(command) != "clear"
      ensures pending.Some? ==> pending.value == Trim(command) && isExecuting
      ensures pending.None? ==> isExecuting == old(isExecuting)
      ensures currentDirectory == old(currentDirectory) && home == old(home)
    {
      output := output + [Line(CommandLine, PromptPath(currentDirectory, home) + " $ " + command)];
      historyIndex := -1;
      currentInput := [];
      if AllSpace(command) {
        BlankIffAllSpace(command);
        return None;
      }
      commandHistory := commandHistory + [command];
      var trimmed := Trim(command);
      if trimmed == "clear" {
        output := [];
        return None;
      }
      isExecuting := true;
      pending := Some(trimmed);
    }

    /** The rest of executeCommand once the backend has answered for the trimmed `command`. */
    method Complete(command: string, outcome: Outcome)
      requires Valid()
      modifies this
      ensures Valid() && !isExecuting
      ensures output == old(output) + ResultLines(command, outcome)
      ensures currentDirectory == NewDirectory(old(currentDirectory), command, outcome)
      ensures commandHistory == old(commandHistory) && historyIndex == old(historyIndex)
      ensures currentInput == old(currentInput) && home == old(home)
    {
      ShowResult(command, outcome);
      currentDirectory := NewDirectory(currentDirectory, command, outcome);
      isExecuting := false;
    }

    /** The entries for the backend's answer are appended to the buffer. */
    method ShowResult(command: string, outcome: Outcome)
      requires Valid()
      modifies this
      ensures Valid()
      ensures output == old(output) + ResultLines(command, outcome)
      ensures commandHistory == old(commandHistory) && historyIndex == old(historyIndex) && currentInput == old(currentInput)
      ensures isExecuting == old(isExecuting) && currentDirectory == old(currentDirectory) && home == old(home)
    {
      match outcome {
        case Threw(message) =>
          output := output + [Line(ErrorLine, if message == [] then "command execution failed" else message)];
        case Ran(stdout, stderr, _) =>
          ShowOutput(command, stdout, stderr);
      }
    }

    /** The output lines, then the error lines, then an empty entry when both are empty and the command was no `cd`. */
    method ShowOutput(command: string, stdout: string, stderr: string)
      requires Valid()
      modifies this
      ensures Valid()
      ensures output == old(output) + (TextShown(stdout, OutputLine) + TextShown(stderr, ErrorLine)
        + (if stdout == [] && stderr == [] && !IsCd(command) then [Line(OutputLine, [])] else []))
      ensures commandHistory == old(commandHistory) && historyIndex == old(historyIndex) && currentInput == old(currentInput)
      ensures isExecuting == old(isExecuting) && currentDirectory == old(currentDirectory) && home == old(home)
    {
      ghost var before := output;
      ghost var outLines, errLines := TextShown(stdout, OutputLine), TextShown(stderr, ErrorLine);
      ghost var tail: seq<Line> := if stdout == [] && stderr == [] && !IsCd(command) then [Line(OutputLine, [])] else [];
      AppendText(stdout, OutputLine);
      AppendText(stderr, ErrorLine);
      if stdout == [] && stderr == [] && !IsCd(command) {
        output := output + [Line(OutputLine, [])];
      }
      assert output == before + outLines + errLines + tail;
      Regroup(before, outLines, errLines, tail);
    }

    /** The lines of a non-empty text are appended; an empty text adds nothing. */
    method AppendText(text: string, kind: LineKind)
      requires Valid()
      modifies this
      ensures Valid()
      ensures output == old(output) + TextShown(text, kind)
      ensures commandHistory == old(commandHistory) && historyIndex == old(historyIndex) && currentInput == old(currentInput)
      ensures isExecuting == old(isExecuting) && currentDirectory == old(currentDirectory) && home == old(home)
    {
      if text != [] {
        AppendLines(Text.Split(text, '\n'), kind);
      }
    }

    /** One `forEach` over the lines of a text: each non-blank line is appended as an entry of `kind`. */
    method AppendLines(lines: seq<string>, kind: LineKind)
      requires Valid()
      modifies this
      ensures Valid()
      ensures output == old(output) + Shown(lines, kind)
      ensures commandHistory == old(commandHistory) && historyIndex == old(historyIndex) && currentInput == old(currentInput)
      ensures isExecuting == old(isExecuting) && currentDirectory == old(currentDirectory) && home == old(home)
    {
      for i := 0 to |lines|
        invariant output == old(output) + Shown(lines[..i], kind)
        invariant commandHistory == old(commandHistory) && historyIndex == old(historyIndex) && currentInput == old(currentInput)
        invariant isExecuting == old(isExecuting) && currentDirectory == old(currentDirectory) && home == old(home)
      {
        ShownStep(lines, i, kind);
        if !AllSpace(lines[i]) {
          output := output + [Line(kind, lines[i])];
        }
      }
      assert lines[..|lines|] == lines;
    }

    /**
     * Enter runs the input line through executeCommand, unless a command
     * is still running, in which case nothing changes.
     */
    method Enter() returns (pending: Option<string>)
      requires Valid()
      modifies this
      ensures Valid()
      ensures old(isExecuting) ==>
        && pending.None? && isExecuting && commandHistory == old(commandHistory)
        && historyIndex == old(historyIndex) && currentInput == old(currentInput) && output == old(output)
      ensures !old(isExecuting) && !AllSpace(old(currentInput)) ==> commandHistory == old(commandHistory) + [old(currentInput)]
      ensures !old(isExecuting) && AllSpace(old(currentInput)) ==> commandHistory == old(commandHistory)
      ensures !old(isExecuting) ==> historyIndex == -1 && currentInput == []
      ensures !old(isExecuting) && Trim(old(currentInput)) == "clear" ==> output == []
      ensures !old(isExecuting) && Trim(old(currentInput)) != "clear" ==>
        output == old(output) + [Line(CommandLine, PromptPath(old(currentDirectory), old(home)) + " $ " + old(currentInput))]
      ensures !old(isExecuting) ==> (pending.Some? <==> !AllSpace(old(currentInput)) && Trim(old(currentInput)) != "clear")
      ensures pending.Some? ==> pending.value == Trim(old(currentInput)) && isExecuting
      ensures pending.None? ==> isExecuting == old(isExecuting)
      ensures currentDirectory == old(currentDirectory) && home == old(home)
    {
      if isExecuting {
        return None;
      }
      pending := Submit(currentInput);
    }

    /**
     * ArrowUp recalls the newest entry when the cursor is off, otherwise
     * the one before the cursor, stopping at the oldest; with no history
     * nothing changes.
     */
    method ArrowUp()
      requires Valid()
      modifies this
      ensures Valid()
      ensures |commandHistory| == 0 ==> historyIndex == old(historyIndex) && currentInput == old(currentInput)
      ensures |commandHistory| > 0 ==>
        && historyIndex == (if old(historyIndex) == -1 then |commandHistory| - 1 else Max(0, old(historyIndex) - 1))
        && currentInput == commandHistory[historyIndex]
      ensures commandHistory == old(commandHistory) && output == old(output) && isExecuting == old(isExecuting)
      ensures currentDirectory == old(currentDirectory) && home == old(home)
    {
      if |commandHistory| > 0 {
        var newIndex := if historyIndex == -1 then |commandHistory| - 1 else Max(0, historyIndex - 1);
        historyIndex := newIndex;
        // Remembered commands are never blank, so `|| ''` never applies.
        currentInput := commandHistory[newIndex];
      }
    }

    /**
     * ArrowDown moves the cursor to the next newer entry; reaching the
     * newest turns the cursor off and clears the input, so the cursor is
     * never left on the newest entry. With the cursor off nothing changes.
     */
    method ArrowDown()
      requires Valid()
      modifies this
      ensures Valid()
      ensures old(historyIndex) == -1 ==> historyIndex == -1 && currentInput == old(currentInput)
      ensures old(historyIndex) != -1 ==>
        var target := Min(|commandHistory| - 1, old(historyIndex) + 1);
        && (target == |commandHistory| - 1 ==> historyIndex == -1 && currentInput == [])
        && (target < |commandHistory| - 1 ==> historyIndex == target && currentInput == commandHistory[target])
      ensures old(historyIndex) != -1 ==> historyIndex != |commandHistory| - 1
      ensures commandHistory == old(commandHistory) && output == old(output) && isExecuting == old(isExecuting)
      ensures currentDirectory == old(currentDirectory) && home == old(home)
    {
      if historyIndex != -1 {
        var newIndex := Min(|commandHistory| - 1, historyIndex + 1);
        historyIndex := newIndex;
        if newIndex == |commandHistory| - 1 {
          historyIndex := -1;
          currentInput := [];
        } else {
          currentInput := commandHistory[newIndex];
        }
      }
    }

    /** Ctrl+L empties the buffer. */
    method ClearScreen()
      requires Valid()
      modifies this
      ensures Valid() && output == []
      ensures commandHistory == old(commandHistory) && historyIndex == old(historyIndex) && currentInput == old(currentInput)
      ensures isExecuting == old(isExecuting) && currentDirectory == old(currentDirectory) && home == old(home)
    {
      output := [];
    }

    /** Ctrl+C releases a running command (without cancelling it) or, when idle, clears the input. */
    method Interrupt()
      requires Valid()
      modifies this
      ensures Valid() && !isExecuting
      ensures old(isExecuting) ==> currentInput == old(currentInput)
      ensures !old(isExecuting) ==> currentInput == []
      ensures commandHistory == old(commandHistory) && historyIndex == old(historyIndex) && output == old(output)
      ensures currentDirectory == old(currentDirectory) && home == old(home)
    {
      if isExecuting {
        isExecuting := false;
      } else {
        currentInput := [];
      }
    }
  }

  /** Proof helper for RecallTwoCommands: a new terminal after two non-blank commands remembers both, oldest first, with the cursor off. */
  method TwoSubmitted(first: string, second: string) returns (t: NativeTerminal)
    requires !AllSpace(first) && !AllSpace(second)
    ensures fresh(t) && t.Valid()
    ensures t.commandHistory == [first, second] && t.historyIndex == -1
  {
    t := new NativeTerminal();
    Remember(t, first);
    Remember(t, second);
  }

  /** Proof helper for TwoSubmitted: submitting a non-blank command appends it to the history and turns the cursor off. */
  method Remember(t: NativeTerminal, command: string)
    requires t.Valid() && !AllSpace(command)
    modifies t
    ensures t.Valid()
    ensures t.commandHistory == old(t.commandHistory) + [command] && t.historyIndex == -1
  {
    var p := t.Submit(command);
  }

  /**
   * After two commands, ArrowUp recalls them newest first and stays on
   * the oldest, and ArrowDown from the entry before the newest goes
   * straight back to an empty input.
   */
  method RecallTwoCommands(first: string, second: string) returns (up1: string, up2: string, up3: string, down: string, index: int)
    requires !IsBlank(first) && !IsBlank(second)
    ensures up1 == second && up2 == first && up3 == first
    ensures down == [] && index == -1
  {
    BlankIffAllSpace(first);
    BlankIffAllSpace(second);
    var t := TwoSubmitted(first, second);
    t.ArrowUp();
    up1 := t.currentInput;
    t.ArrowUp();
    up2 := t.currentInput;
    t.ArrowUp();
    up3 := t.currentInput;
    t.ArrowDown();
    down := t.currentInput;
    index := t.historyIndex;
  }
}
