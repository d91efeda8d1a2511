/**
 * The command palette of src/components/terminal.tsx: the fixed list of
 * command snippets and its search filter, the capped newest-first
 * history of executed commands, the de-duplicated recent commands, the
 * selection cursor and the output panel. Rendering, focus and the
 * backend call are not modelled; the backend's answer is a parameter of
 * the methods that complete an execution, and the clock is a parameter
 * `now`.
 */
module Palette {
  import opened Wrappers
  import opened Text

  datatype Category = Npm | Bun | Supabase | Prisma | Vercel | Git | Other

  function CategoryName(c: Category): string {
    match c
    case Npm => "npm"
    case Bun => "bun"
    case Supabase => "supabase"
    case Prisma => "prisma"
    case Vercel => "vercel"
    case Git => "git"
    case Other => "other"
  }

  /** A snippet of the palette; its icon is presentation only. */
  datatype Snippet = Snippet(id: string, title: string, description: string, command: string, category: Category)

  const Snippets: seq<Snippet> := [
    Snippet("npm-install", "install dependencies", "install all project dependencies", "npm install", Npm),
    Snippet("npm-dev", "start dev server", "run development server", "npm run dev", Npm),
    Snippet("npm-build", "build project", "create production build", "npm run build", Npm),
    Snippet("npm-test", "run tests", "execute test suite", "npm test", Npm),
    Snippet("bun-install", "bun install", "install with bun", "bun install", Bun),
    Snippet("bun-dev", "bun dev", "start with bun", "bun run dev", Bun),
    Snippet("bun-add", "add package", "add new dependency", "bun add", Bun),
    Snippet("supabase-start", "start supabase", "start local supabase", "supabase start", Supabase),
    Snippet("supabase-stop", "stop supabase", "stop local supabase", "supabase stop", Supabase),
    Snippet("supabase-status", "supabase status", "check supabase status", "supabase status", Supabase),
    Snippet("supabase-migration", "create migration", "create new migration", "supabase migration new", Supabase),
    Snippet("prisma-generate", "generate client", "generate prisma client", "prisma generate", Prisma),
    Snippet("prisma-migrate", "run migrations", "apply database migrations", "prisma migrate dev", Prisma),
    Snippet("prisma-studio", "open studio", "launch prisma studio", "prisma studio", Prisma),
    Snippet("prisma-push", "push schema", "push schema changes", "prisma db push", Prisma),
    Snippet("vc-dev", "vercel dev", "start vercel dev server", "vercel dev", Vercel),
    Snippet("vc-deploy", "deploy", "deploy to vercel", "vercel", Vercel),
    Snippet("vc-pull", "pull env", "pull environment variables", "vercel env pull", Vercel),
    Snippet("vc-link", "link project", "link to vercel project", "vercel link", Vercel),
    Snippet("git-status", "git status", "check git status", "git status", Git),
    Snippet("git-pull", "git pull", "pull latest changes", "git pull", Git),
    Snippet("git-push", "git push", "push commits", "git push", Git)
  ]

  /** `r` is `xs` with some elements left out, the rest in their order. */
  predicate SubsequenceOf<T(==)>(r: seq<T>, xs: seq<T>)
    decreases |xs|
  {
    if r == [] then true
    else if xs == [] then false
    else if r[0] == xs[0] then SubsequenceOf(r[1..], xs[1..])
    else SubsequenceOf(r, xs[1..])
  }

  lemma {:induction false} SubsequenceOfSelf<T>(xs: seq<T>)
    ensures SubsequenceOf(xs, xs)
  {
    if xs != [] {
      SubsequenceOfSelf(xs[1..]);
    }
  }

  /** The search term, already lower-cased, occurs in the lower-cased title, command, description or category. */
  predicate Matches(s: Snippet, term: string) {
    || Contains(ToLower(s.title), term)
    || Contains(ToLower(s.command), term)
    || Contains(ToLower(s.description), term)
    || Contains(ToLower(CategoryName(s.category)), term)
  }

  /** `snippets.filter(...)`: the matching snippets, in their order. */
  function Filter(snippets: seq<Snippet>, term: string): (r: seq<Snippet>)
    ensures forall s :: s in r <==> s in snippets && Matches(s, term)
    ensures SubsequenceOf(r, snippets)
  {
    if snippets == [] then []
    else
      var rest := Filter(snippets[1..], term);
      if Matches(snippets[0], term) then [snippets[0]] + rest else rest
  }

  /** filteredCommands: every snippet for an empty input, else those matching the lower-cased input. */
  function FilteredCommands(snippets: seq<Snippet>, input: string): (r: seq<Snippet>)
    ensures input == [] ==> r == snippets
    ensures input != [] ==> forall s :: s in r <==> s in snippets && Matches(s, ToLower(input))
    ensures SubsequenceOf(r, snippets)
  {
    if input == [] then (SubsequenceOfSelf(snippets); snippets) else Filter(snippets, ToLower(input))
  }

  /** Proof helper for SearchIgnoresCase: lower-casing twice is lower-casing once. */
  lemma ToLowerIdempotent(s: string)
    ensures ToLower(ToLower(s)) == ToLower(s)
  {
    assert forall i :: 0 <= i < |s| ==> LowerChar(LowerChar(s[i])) == LowerChar(s[i]);
  }

  /** The search ignores case: an input and its lower-cased form select the same snippets. */
  lemma SearchIgnoresCase(snippets: seq<Snippet>, input: string)
    ensures FilteredCommands(snippets, input) == FilteredCommands(snippets, ToLower(input))
  {
    ToLowerIdempotent(input);
  }

  /** Typing a snippet's command (in any case) finds that snippet. */
  lemma {:induction false} CommandFindsItself(snippets: seq<Snippet>, s: Snippet)
    requires s in snippets
    ensures s in FilteredCommands(snippets, s.command)
  {
    var c := ToLower(s.command);
    assert StartsWith(c, c);
    assert Matches(s, c);
  }

  /** Every snippet has a command that is not blank, so picking a snippet always runs it. */
  lemma SnippetsRunnable(i: nat)
    requires i < |Snippets|
    ensures !IsBlank(Snippets[i].command)
  {
    var c := Snippets[i].command;
    assert c != [] && !IsSpace(c[0]);
    BlankIffAllSpace(c);
  }

  /** One entry of the history; its id and timestamp come from the clock and are not modelled. */
  datatype HistoryItem = HistoryItem(command: string, output: Option<string>, error: Option<string>, duration: int)

  const HistoryLimit: nat := 50

  function Min(a: int, b: int): int {
    if a < b then a else b
  }

  function Max(a: int, b: int): int {
    if a < b then b else a
  }

  /** `[item, ...history].slice(0, 50)`: the new item first, then the newest of the rest, at most 50 in all. */
  function Prepend(item: HistoryItem, history: seq<HistoryItem>): (r: seq<HistoryItem>)
    ensures |r| == Min(|history| + 1, HistoryLimit)
    ensures r[0] == item
    ensures r[1..] == history[..|r| - 1]
  {
    ([item] + history)[..Min(|history| + 1, HistoryLimit)]
  }

  /** The commands that occur in `items`. */
  function CommandsOf(items: seq<HistoryItem>): set<string> {
    set i | 0 <= i < |items| :: items[i].command
  }

  /** The index of the first item with command `c`: for the newest-first history, its most recent run. */
  function FirstWith(items: seq<HistoryItem>, c: string): (i: nat)
    requires c in CommandsOf(items)
    ensures i < |items| && items[i].command == c
    ensures forall j :: 0 <= j < i ==> items[j].command != c
  {
    if items[0].command == c then 0
    else
      assert c in CommandsOf(items[1..]) by {
        var k :| 0 <= k < |items| && items[k].command == c;
        assert items[1..][k - 1] == items[k];
      }
      1 + FirstWith(items[1..], c)
  }

  lemma CommandsCons(items: seq<HistoryItem>)
    requires items != []
    ensures CommandsOf(items) == {items[0].command} + CommandsOf(items[1..])
  {
    forall c | c in CommandsOf(items)
      ensures c == items[0].command || c in CommandsOf(items[1..])
    {
      var k :| 0 <= k < |items| && items[k].command == c;
      if k > 0 {
        assert items[1..][k - 1] == items[k];
      }
    }
    forall c | c in CommandsOf(items[1..])
      ensures c in CommandsOf(items)
    {
      var k :| 0 <= k < |items[1..]| && items[1..][k].command == c;
      assert items[k + 1] == items[1..][k];
    }
  }

  lemma CommandsSnoc(items: seq<HistoryItem>, item: HistoryItem)
    ensures CommandsOf(items + [item]) == CommandsOf(items) + {item.command}
  {
    var both := items + [item];
    assert both[|items|] == item;
    forall c | c in CommandsOf(items)
      ensures c in CommandsOf(both)
    {
      var k :| 0 <= k < |items| && items[k].command == c;
      assert both[k] == items[k];
    }
  }

  /**
   * The values of a Map that already holds the commands `seen` and is
   * then given each item whose command it does not hold yet: the first
   * item of each new command, in the order of first occurrence.
   */
  function UniqueFrom(items: seq<HistoryItem>, seen: set<string>): (u: seq<HistoryItem>)
    ensures CommandsOf(u) == CommandsOf(items) - seen
    ensures forall i, j :: 0 <= i < j < |u| ==> u[i].command != u[j].command
  {
    if items == [] then []
    else
      CommandsCons(items);
      if items[0].command in seen then UniqueFrom(items[1..], seen)
      else
        var rest := UniqueFrom(items[1..], seen + {items[0].command});
        CommandsCons([items[0]] + rest);
        assert ([items[0]] + rest)[1..] == rest;
        assert forall j :: 0 <= j < |rest| ==> rest[j].command in CommandsOf(rest);
        [items[0]] + rest
  }

  /** The `k`-th value kept is in the items, and it is the first item of its command. */
  lemma {:induction false} UniqueFromFirst(items: seq<HistoryItem>, seen: set<string>, k: nat)
    requires k < |UniqueFrom(items, seen)|
    ensures var u := UniqueFrom(items, seen);
      u[k].command in CommandsOf(items) && u[k] == items[FirstWith(items, u[k].command)]
  {
    CommandsCons(items);
    var x := items[0];
    var seen' := if x.command in seen then seen else seen + {x.command};
    var rest := UniqueFrom(items[1..], seen');
    var u := UniqueFrom(items, seen);
    if x.command !in seen && k == 0 {
      assert u[0] == x;
      assert FirstWith(items, x.command) == 0;
    } else {
      var j := if x.command in seen then k else k - 1;
      assert u[k] == rest[j];
      UniqueFromFirst(items[1..], seen', j);
      var c := rest[j].command;
      assert c in CommandsOf(rest);
      assert c != x.command;
      var m := FirstWith(items[1..], c);
      assert FirstWith(items, c) == 1 + m;
      assert items[1..][m] == items[m + 1];
    }
  }

  /** The values kept come in the order of the first items of their commands. */
  lemma {:induction false} UniqueFromOrder(items: seq<HistoryItem>, seen: set<string>, k: nat, l: nat)
    requires k < l < |UniqueFrom(items, seen)|
    ensures var u := UniqueFrom(items, seen);
      && u[k].command in CommandsOf(items) && u[l].command in CommandsOf(items)
      && FirstWith(items, u[k].command) < FirstWith(items, u[l].command)
  {
    CommandsCons(items);
    var x := items[0];
    var seen' := if x.command in seen then seen else seen + {x.command};
    var rest := UniqueFrom(items[1..], seen');
    var u := UniqueFrom(items, seen);
    UniqueFromFirst(items, seen, k);
    UniqueFromFirst(items, seen, l);
    var lj := if x.command in seen then l else l - 1;
    assert u[l] == rest[lj];
    assert rest[lj].command in CommandsOf(rest);
    assert u[l].command != x.command;
    var ml := FirstWith(items[1..], u[l].command);
    assert FirstWith(items, u[l].command) == 1 + ml;
    if x.command !in seen && k == 0 {
      assert u[0] == x;
      assert FirstWith(items, x.command) == 0;
    } else {
      var kj := if x.command in seen then k else k - 1;
      assert u[k] == rest[kj];
      assert rest[kj].command in CommandsOf(rest);
      assert u[k].command != x.command;
      UniqueFromOrder(items[1..], seen', kj, lj);
    }
  }

  /** The values of the Map built from the whole history. */
  function Unique(items: seq<HistoryItem>): (u: seq<HistoryItem>)
    ensures CommandsOf(u) == CommandsOf(items)
    ensures forall i, j :: 0 <= i < j < |u| ==> u[i].command != u[j].command
  {
    UniqueFrom(items, {})
  }

  /** recentCommands: the first five of the de-duplicated history. */
  function Recent(history: seq<HistoryItem>): seq<HistoryItem> {
    var u := Unique(history);
    u[..Min(5, |u|)]
  }

  /**
   * At most five entries with distinct commands, each the most recent run
   * of its command, newest first; and a command left out was last run
   * before all five shown.
   */
  lemma RecentProperties(history: seq<HistoryItem>)
    ensures var r := Recent(history);
      && |r| <= 5
      && (forall i, j :: 0 <= i < j < |r| ==> r[i].command != r[j].command)
      && (forall k :: 0 <= k < |r| ==> r[k].command in CommandsOf(history) && r[k] == history[FirstWith(history, r[k].command)])
      && (forall k, l :: 0 <= k < l < |r| ==> FirstWith(history, r[k].command) < FirstWith(history, r[l].command))
    ensures var r := Recent(history);
      forall i :: 0 <= i < |history| && history[i].command !in CommandsOf(r) ==>
        |r| == 5 && FirstWith(history, r[4].command) < i
  {
    var u := Unique(history);
    var r := Recent(history);
    assert u == UniqueFrom(history, {});
    assert forall j :: 0 <= j < |r| ==> r[j] == u[j];
    forall k | 0 <= k < |r|
      ensures r[k].command in CommandsOf(history) && r[k] == history[FirstWith(history, r[k].command)]
    {
      UniqueFromFirst(history, {}, k);
    }
    forall k, l | 0 <= k < l < |r|
      ensures FirstWith(history, r[k].command) < FirstWith(history, r[l].command)
    {
      UniqueFromOrder(history, {}, k, l);
    }
    forall i | 0 <= i < |history| && history[i].command !in CommandsOf(r)
      ensures |r| == 5 && FirstWith(history, r[4].command) < i
    {
      var c := history[i].command;
      assert c in CommandsOf(history);
      assert c in CommandsOf(u);
      var k :| 0 <= k < |u| && u[k].command == c;
      assert forall j :: 0 <= j < |r| ==> r[j].command in CommandsOf(r);
      assert k >= |r|;
      assert r[4] == u[4];
      var f := FirstWith(history, c);
      assert f <= i;
      if 4 < k {
        UniqueFromOrder(history, {}, 4, k);
      }
    }
  }

  /** The recentCommands loop: a Map from command to item, filled in history order, then its first five values. */
  method RecentCommands(history: seq<HistoryItem>) returns (recent: seq<HistoryItem>)
    ensures recent == Recent(history)
  {
    var unique: seq<HistoryItem> := [];
    var seen: set<string> := {};
    for i := 0 to |history|
      invariant unique + UniqueFrom(history[i..], seen) == Unique(history)
      invariant seen == CommandsOf(unique)
    {
      var item := history[i];
      assert history[i..][1..] == history[i + 1..];
      if item.command !in seen {
        assert unique + UniqueFrom(history[i..], seen) == (unique + [item]) + UniqueFrom(history[i + 1..], seen + {item.command});
        CommandsSnoc(unique, item);
        unique := unique + [item];
        seen := seen + {item.command};
      }
    }
    assert history[|history|..] == [];
    recent := unique[..Min(5, |unique|)];
  }

  /** What the output panel shows after a run: the output, else the error output, else a fixed note. */
  function OutputText(stdout: string, stderr: string): (t: string)
    ensures t != []
    ensures stdout != [] ==> t == stdout
    ensures stdout == [] && stderr != [] ==> t == stderr
  {
    if stdout != [] then stdout else if stderr != [] then stderr else "command completed"
  }

  /**
   * formatDuration below one second: nothing for a missing or zero
   * duration, else the number of milliseconds and `ms`. Longer durations
   * show a rounded number of seconds, which is not modelled (None).
   */
  function FormatDuration(ms: Option<int>): (r: Option<string>)
    ensures r.Some? <==> ms.None? || ms.value < 1000
    ensures ms.None? || ms.value == 0 ==> r == Some("")
    ensures ms.Some? && 0 < ms.value < 1000 ==>
      r.Some? && EndsWith(r.value, "ms") && |r.value| >= 3
      && (forall i :: 0 <= i < |r.value| - 2 ==> IsDigit(r.value[i]))
      && DecimalValue(r.value[..|r.value| - 2]) == ms.value
  {
    if ms.None? || ms.value == 0 then Some("")
    else if ms.value < 1000 then
      var s := IntToString(ms.value);
      (if ms.value > 0 then NatToStringRoundTrip(ms.value); assert (s + "ms")[..|s|] == s; Some(s + "ms") else Some(s + "ms"))
    else None
  }

  class CommandPalette {
    var input: string
    var history: seq<HistoryItem>
    var selectedIndex: int
    /** The text of the output panel, None when it is hidden. */
    var showOutput: Option<string>
    var isExecuting: bool
    /** The palette's own open flag, used when no onClose handler is given. */
    var internalIsOpen: bool
    /** When the last execution started, on the `now` clock. */
    var startTime: int
    /** Whether the embedding page passed an onClose handler. */
    const hasOnClose: bool
    /** The palette's snippet list. */
    const snippets: seq<Snippet>

    /**
     * The history holds at most 50 items; the cursor is on a snippet of
     * the filtered list, or, when that list is empty, at 0 or -1; the
     * output panel is never given an empty text.
     */
    ghost predicate Valid()
      reads this
    {
      && |history| <= HistoryLimit
      && (var n := |FilteredCommands(snippets, input)|;
          if n == 0 then -1 <= selectedIndex <= 0 else 0 <= selectedIndex < n)
      && (showOutput.Some? ==> showOutput.value != [])
    }

    constructor (hasOnClose: bool)
      ensures Valid()
      ensures input == [] && history == [] && selectedIndex == 0 && showOutput.None?
      ensures !isExecuting && !internalIsOpen && this.hasOnClose == hasOnClose
      ensures snippets == Snippets
    {
      input := [];
      history := [];
      selectedIndex := 0;
      showOutput := None;
      isExecuting := false;
      internalIsOpen := false;
      startTime := 0;
      this.hasOnClose := hasOnClose;
      snippets := Snippets;
    }

    /** Typing: the input changes and, when it did change, the cursor returns to the first snippet. */
    method SetInput(text: string)
      requires Valid()
      modifies this
      ensures Valid() && input == text
      ensures selectedIndex == if text != old(input) then 0 else old(selectedIndex)
      ensures history == old(history) && showOutput == old(showOutput) && isExecuting == old(isExecuting)
      ensures internalIsOpen == old(internalIsOpen) && startTime == old(startTime)
    {
      if text != input {
        selectedIndex := 0;
      }
      input := text;
    }

    /** handleExecute: a command that trims to nothing (all whitespace, `Text.BlankIffAllSpace`) is ignored; otherwise it is started and becomes the input. */
    method Execute(command: string, now: int) returns (sent: Option<string>)
      requires Valid()
      modifies this
      ensures Valid()
      ensures sent.Some? <==> !AllSpace(command)
      ensures sent.Some? ==> sent.value == command
      ensures AllSpace(command) ==>
        && input == old(input) && selectedIndex == old(selectedIndex) && showOutput == old(showOutput)
        && isExecuting == old(isExecuting) && startTime == old(startTime)
      ensures !AllSpace(command) ==>
        && isExecuting && showOutput.None? && startTime == now && input == command
        && selectedIndex == (if command != old(input) then 0 else old(selectedIndex))
      ensures history == old(history) && internalIsOpen == old(internalIsOpen)
    {
      if AllSpace(command) {
        return None;
      }
      isExecuting := true;
      showOutput := None;
      startTime := now;
      SetInput(command);
      sent := Some(command);
    }

    /** onSuccess: the run is recorded first in the history and its output is shown. */
    method Succeeded(stdout: string, stderr: string, now: int)
      requires Valid()
      modifies this
      ensures Valid() && !isExecuting
      ensures history == Prepend(HistoryItem(old(input), Some(stdout), Some(stderr), now - old(startTime)), old(history))
      ensures showOutput == Some(OutputText(stdout, stderr))
      ensures input == old(input) && selectedIndex == old(selectedIndex)
      ensures internalIsOpen == old(internalIsOpen) && startTime == old(startTime)
    {
      var item := HistoryItem(input, Some(stdout), Some(stderr), now - startTime);
      history := Prepend(item, history);
      showOutput := Some(OutputText(stdout, stderr));
      isExecuting := false;
    }

    /** onError: the failed run is recorded first in the history and `error: <message>` is shown. */
    method Failed(message: string, now: int)
      requires Valid()
      modifies this
      ensures Valid() && !isExecuting
      ensures history == Prepend(HistoryItem(old(input), None, Some(message), now - old(startTime)), old(history))
      ensures showOutput == Some("error: " + message)
      ensures input == old(input) && selectedIndex == old(selectedIndex)
      ensures internalIsOpen == old(internalIsOpen) && startTime == old(startTime)
    {
      var item := HistoryItem(input, None, Some(message), now - startTime);
      history := Prepend(item, history);
      showOutput := Some("error: " + message);
      isExecuting := false;
    }

    /** Enter runs the snippet under the cursor when there is one, else the typed input when it is not empty. */
    method Enter(now: int) returns (sent: Option<string>)
      requires Valid()
      modifies this
      ensures Valid()
      ensures var f := FilteredCommands(snippets, old(input));
        && (0 <= old(selectedIndex) < |f| ==>
              (sent.Some? <==> !IsBlank(f[old(selectedIndex)].command))
              && (sent.Some? ==> sent.value == f[old(selectedIndex)].command))
        && (!(0 <= old(selectedIndex) < |f|) ==>
              (sent.Some? <==> !IsBlank(old(input)))
              && (sent.Some? ==> sent.value == old(input)))
      ensures sent.None? ==> input == old(input) && selectedIndex == old(selectedIndex) && isExecuting == old(isExecuting)
      ensures sent.Some? ==> input == sent.value && isExecuting && showOutput.None? && startTime == now
      ensures history == old(history) && internalIsOpen == old(internalIsOpen)
    {
      var filtered := FilteredCommands(snippets, input);
      if 0 <= selectedIndex < |filtered| {
        sent := Execute(filtered[selectedIndex].command, now);
      } else if input != [] {
        sent := Execute(input, now);
      } else {
        assert IsBlank(input);
        sent := None;
      }
    }

    /** ArrowDown: one snippet further, stopping at the last (at -1 when none is listed). */
    method ArrowDown()
      requires Valid()
      modifies this
      ensures Valid()
      ensures selectedIndex == Min(old(selectedIndex) + 1, |FilteredCommands(snippets, input)| - 1)
      ensures input == old(input) && history == old(history) && showOutput == old(showOutput)
      ensures isExecuting == old(isExecuting) && internalIsOpen == old(internalIsOpen) && startTime == old(startTime)
    {
      selectedIndex := Min(selectedIndex + 1, |FilteredCommands(snippets, input)| - 1);
    }

    /** ArrowUp: one snippet back, stopping at the first. */
    method ArrowUp()
      requires Valid()
      modifies this
      ensures Valid()
      ensures selectedIndex == Max(old(selectedIndex) - 1, 0)
      ensures input == old(input) && history == old(history) && showOutput == old(showOutput)
      ensures isExecuting == old(isExecuting) && internalIsOpen == old(internalIsOpen) && startTime == old(startTime)
    {
      selectedIndex := Max(selectedIndex - 1, 0);
    }

    /**
     * Escape hides a shown output panel; otherwise it closes the palette,
     * through onClose when one was given (the result says so), else by
     * clearing the palette's own open flag.
     */
    method Escape() returns (callOnClose: bool)
      requires Valid()
      modifies this
      ensures Valid()
      ensures old(showOutput).Some? && old(showOutput).value != [] ==>
        showOutput.None? && !callOnClose && internalIsOpen == old(internalIsOpen)
      ensures !(old(showOutput).Some? && old(showOutput).value != []) ==>
        && showOutput == old(showOutput) && callOnClose == hasOnClose
        && internalIsOpen == (if hasOnClose then old(internalIsOpen) else false)
      ensures input == old(input) && history == old(history) && selectedIndex == old(selectedIndex)
      ensures isExecuting == old(isExecuting) && startTime == old(startTime)
    {
      callOnClose := false;
      if showOutput.Some? && showOutput.value != [] {
        showOutput := None;
      } else if hasOnClose {
        callOnClose := true;
      } else {
        internalIsOpen := false;
      }
    }
  }

  /** A history of one command, run any number of times, shows that command once: its most recent run. */
  lemma RepeatedCommandOnce(history: seq<HistoryItem>)
    requires history != []
    requires forall k :: 0 <= k < |history| ==> history[k].command == history[0].command
    ensures Recent(history) == [history[0]]
  {
    var c := history[0].command;
    var u := Unique(history);
    assert CommandsOf(history) == {c};
    assert c in CommandsOf(u);
    assert forall k :: 0 <= k < |u| ==> u[k].command in CommandsOf(u);
    var k :| 0 <= k < |u| && u[k].command == c;
    assert u[0].command in CommandsOf(u) && u[|u| - 1].command in CommandsOf(u);
    assert u[0].command == u[|u| - 1].command;
    assert |u| == 1;
    UniqueFromFirst(history, {}, 0);
    assert FirstWith(history, c) == 0;
    assert u == UniqueFrom(history, {});
  }
}
