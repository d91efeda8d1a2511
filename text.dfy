/**
 * The JavaScript string built-ins that the modelled code relies on
 * (`trim`, `split`, `join`, `toLowerCase`, `includes`, `indexOf`,
 * `replace` with a string pattern, `String(n)`), on `seq<char>`.
 */
module Text {

  /** ECMAScript WhiteSpace and LineTerminator: what `trim` strips and `\s` matches. */
  predicate IsSpace(c: char) {
    || c == ' ' || c == '\t' || c == '\n' || c == '\r' || c == '\U{B}' || c == '\U{C}'
    || c == '\U{A0}' || c == '\U{1680}' || ('\U{2000}' <= c <= '\U{200A}')
    || c == '\U{2028}' || c == '\U{2029}' || c == '\U{202F}' || c == '\U{205F}'
    || c == '\U{3000}' || c == '\U{FEFF}'
  }

  /** The characters that a regular-expression `.` does not match. */
  predicate IsLineTerminator(c: char) {
    c == '\n' || c == '\r' || c == '\U{2028}' || c == '\U{2029}'
  }

  function TrimStart(s: string): (r: string)
    ensures |r| <= |s| && r == s[|s| - |r|..]
    ensures r == [] || !IsSpace(r[0])
    ensures forall i :: 0 <= i < |s| - |r| ==> IsSpace(s[i])
  {
    if s == [] || !IsSpace(s[0]) then s else TrimStart(s[1..])
  }

  function TrimEnd(s: string): (r: string)
    ensures |r| <= |s| && r == s[..|r|]
    ensures r == [] || !IsSpace(r[|r| - 1])
    ensures forall i :: |r| <= i < |s| ==> IsSpace(s[i])
  {
    if s == [] || !IsSpace(s[|s| - 1]) then s else TrimEnd(s[..|s| - 1])
  }

  /** `s.trim()` */
  function Trim(s: string): string {
    TrimEnd(TrimStart(s))
  }

  /** `!s.trim()`: the string is empty or holds only whitespace. */
  predicate IsBlank(s: string) {
    Trim(s) == []
  }

  /** Every character of `s` is whitespace. */
  predicate AllSpace(s: string) {
    forall i :: 0 <= i < |s| ==> IsSpace(s[i])
  }

  /** `s.trim()` is empty exactly when `s` is all whitespace. */
  lemma BlankIffAllSpace(s: string)
    ensures IsBlank(s) <==> AllSpace(s)
  {
    var t := TrimStart(s);
    if t != [] {
      assert t[0] == s[|s| - |t|];
      assert !IsSpace(t[0]);
    }
  }

  /** ASCII lower-casing of one character. */
  function LowerChar(c: char): char {
    if 'A' <= c <= 'Z' then (c as int + 32) as char else c
  }

  /** `s.toLowerCase()`, on the ASCII letters. */
  function ToLower(s: string): (r: string)
    ensures |r| == |s|
    ensures forall i :: 0 <= i < |s| ==> r[i] == LowerChar(s[i])
  {
    seq(|s|, i requires 0 <= i < |s| => LowerChar(s[i]))
  }

  /** `s.startsWith(p)` */
  predicate StartsWith(s: string, p: string) {
    |p| <= |s| && s[..|p|] == p
  }

  /** `s.includes(p)` */
  predicate Contains(s: string, p: string)
    decreases |s|
  {
    StartsWith(s, p) || (s != [] && Contains(s[1..], p))
  }

  /** `s.endsWith(p)` */
  predicate EndsWith(s: string, p: string) {
    |p| <= |s| && s[|s| - |p|..] == p
  }

  /** A string contains whatever it ends with. */
  lemma {:induction false} ContainsSuffix(x: string, p: string)
    ensures Contains(x + p, p)
  {
    if x == [] {
      assert x + p == p;
    } else {
      ContainsSuffix(x[1..], p);
      assert (x + p)[1..] == x[1..] + p;
    }
  }

  /** `s.indexOf(c)` for a one-character search string. */
  function IndexOf(s: string, c: char): (i: int)
    ensures -1 <= i < |s|
    ensures i == -1 <==> c !in s
    ensures 0 <= i ==> s[i] == c && c !in s[..i]
  {
    if s == [] then -1
    else if s[0] == c then 0
    else
      var j := IndexOf(s[1..], c);
      assert s[1..][..if j < 0 then 0 else j] == s[1..if j < 0 then 1 else j + 1];
      if j == -1 then -1 else j + 1
  }

  /** `s.split(sep)` for a one-character separator. */
  function Split(s: string, sep: char): (parts: seq<string>)
    ensures |parts| >= 1
  {
    if s == [] then [[]]
    else
      var rest := Split(s[1..], sep);
      if s[0] == sep then [[]] + rest else [[s[0]] + rest[0]] + rest[1..]
  }

  /** `parts.join(sep)` */
  function Join(parts: seq<string>, sep: string): string {
    if parts == [] then []
    else if |parts| == 1 then parts[0]
    else parts[0] + sep + Join(parts[1..], sep)
  }

  /** A join of two or more pieces ends with the separator and the last piece. */
  lemma {:induction false} JoinLast(parts: seq<string>, sep: string)
    requires |parts| >= 2
    ensures Join(parts, sep) == Join(parts[..|parts| - 1], sep) + sep + parts[|parts| - 1]
  {
    if |parts| > 2 {
      JoinLast(parts[1..], sep);
      assert parts[1..][..|parts| - 2] == parts[..|parts| - 1][1..];
    }
  }

  function CountChar(s: string, c: char): nat {
    if s == [] then 0 else (if s[0] == c then 1 else 0) + CountChar(s[1..], c)
  }

  /** Joining the pieces of a split with the separator gives the string back. */
  lemma {:induction false} JoinSplit(s: string, sep: char)
    ensures Join(Split(s, sep), [sep]) == s
  {
    if s != [] {
      var rest := Split(s[1..], sep);
      JoinSplit(s[1..], sep);
      if s[0] != sep && |rest| > 1 {
        assert rest == [rest[0]] + rest[1..];
      }
    }
  }

  /** A split has one more piece than the string has separators, and no piece holds one. */
  lemma {:induction false} SplitPieces(s: string, sep: char)
    ensures |Split(s, sep)| == CountChar(s, sep) + 1
    ensures forall i :: 0 <= i < |Split(s, sep)| ==> sep !in Split(s, sep)[i]
  {
    if s != [] {
      SplitPieces(s[1..], sep);
    }
  }

  /** The first piece of a split is what precedes the first separator; the others rejoin to what follows it. */
  lemma {:induction false} SplitAtFirst(s: string, sep: char)
    ensures IndexOf(s, sep) == -1 ==> Split(s, sep) == [s]
    ensures IndexOf(s, sep) >= 0 ==>
      var i := IndexOf(s, sep);
      |Split(s, sep)| >= 2 && Split(s, sep)[0] == s[..i] && Join(Split(s, sep)[1..], [sep]) == s[i + 1..]
  {
    if s != [] {
      SplitAtFirst(s[1..], sep);
      if s[0] == sep {
        JoinSplit(s[1..], sep);
      } else {
        assert [s[0]] + s[1..] == s;
      }
    }
  }

  /** `s.split(/\s+/)` */
  function SplitSpaces(s: string): (parts: seq<string>)
    ensures |parts| >= 1
  {
    if s == [] then [[]]
    else if IsSpace(s[0]) then [[]] + SplitSpaces(TrimStart(s[1..]))
    else
      var rest := SplitSpaces(s[1..]);
      [[s[0]] + rest[0]] + rest[1..]
  }

  /** `s.replace(pat, rep)` with a string pattern: the first occurrence only; an empty pattern matches at the start. */
  function ReplaceFirst(s: string, pat: string, rep: string): string
    decreases |s|
  {
    if StartsWith(s, pat) then rep + s[|pat|..]
    else if s == [] then s
    else [s[0]] + ReplaceFirst(s[1..], pat, rep)
  }

  /** `pat` occurs in `s` at index `i` and at no earlier index. */
  predicate FirstAt(s: string, pat: string, i: nat) {
    i <= |s| && StartsWith(s[i..], pat) && forall j :: 0 <= j < i ==> !StartsWith(s[j..], pat)
  }

  /** Dropping the first character moves a first occurrence one index down. */
  lemma FirstAtTail(s: string, pat: string, i: nat)
    requires FirstAt(s, pat, i) && i > 0
    ensures FirstAt(s[1..], pat, i - 1)
  {
    assert s[1..][i - 1..] == s[i..];
    forall j | 0 <= j < i - 1
      ensures !StartsWith(s[1..][j..], pat)
    {
      assert s[1..][j..] == s[j + 1..];
    }
  }

  /** The replacement takes the place of the first occurrence, and the text around it is kept. */
  lemma {:induction false} ReplaceFirstAt(s: string, pat: string, rep: string, i: nat)
    requires FirstAt(s, pat, i)
    ensures ReplaceFirst(s, pat, rep) == s[..i] + rep + s[i + |pat|..]
  {
    if i == 0 {
      assert s[0..] == s;
    } else {
      assert s[0..] == s;
      FirstAtTail(s, pat, i);
      ReplaceFirstAt(s[1..], pat, rep, i - 1);
      assert ReplaceFirst(s, pat, rep) == [s[0]] + ReplaceFirst(s[1..], pat, rep);
      ConsRegroup(s, i, |pat|, rep);
    }
  }

  /** Proof helper for ReplaceFirstAt: the first character put back in front of a piece cut out of the rest. */
  lemma ConsRegroup<T>(s: seq<T>, i: nat, n: nat, rep: seq<T>)
    requires 0 < i && i + n <= |s|
    ensures [s[0]] + (s[1..][..i - 1] + rep + s[1..][i - 1 + n..]) == s[..i] + rep + s[i + n..]
  {
    assert [s[0]] + s[1..][..i - 1] == s[..i];
    assert s[1..][i - 1 + n..] == s[i + n..];
    Reassociate([s[0]], s[1..][..i - 1], rep, s[1..][i - 1 + n..]);
  }

  /** Proof helper: a piece put in front of a three-part concatenation joins its first part. */
  lemma Reassociate<T>(x: seq<T>, a: seq<T>, b: seq<T>, c: seq<T>)
    ensures x + (a + b + c) == (x + a) + b + c
  {
  }

  /** A string that contains the pattern has a first occurrence of it. */
  lemma {:induction false} ContainsFirst(s: string, pat: string)
    requires Contains(s, pat)
    ensures exists i: nat :: FirstAt(s, pat, i)
  {
    if StartsWith(s, pat) {
      assert s[0..] == s;
      assert FirstAt(s, pat, 0);
    } else {
      ContainsFirst(s[1..], pat);
      var k: nat :| FirstAt(s[1..], pat, k);
      var i := k + 1;
      assert s[1..][k..] == s[i..];
      forall j | 0 <= j < i
        ensures !StartsWith(s[j..], pat)
      {
        if j == 0 {
          assert s[0..] == s;
        } else {
          assert s[1..][j - 1..] == s[j..];
        }
      }
      assert FirstAt(s, pat, i);
    }
  }

  /** Where the pattern does not occur, the string is left as it is. */
  lemma {:induction false} ReplaceAbsent(s: string, pat: string, rep: string)
    requires !Contains(s, pat)
    ensures ReplaceFirst(s, pat, rep) == s
  {
    if s != [] {
      ReplaceAbsent(s[1..], pat, rep);
      assert [s[0]] + s[1..] == s;
    }
  }

  predicate IsDigit(c: char) {
    '0' <= c <= '9'
  }

  function DigitChar(d: nat): (c: char)
    requires d < 10
    ensures IsDigit(c)
  {
    ('0' as int + d) as char
  }

  /** The decimal text of `n`, as a template literal prints it. */
  function NatToString(n: nat): (s: string)
    ensures |s| >= 1
    ensures forall i :: 0 <= i < |s| ==> IsDigit(s[i])
  {
    if n < 10 then [DigitChar(n)] else NatToString(n / 10) + [DigitChar(n % 10)]
  }

  function IntToString(i: int): string {
    if i < 0 then "-" + NatToString(-i) else NatToString(i)
  }

  function DecimalValue(s: string): nat
    requires forall i :: 0 <= i < |s| ==> IsDigit(s[i])
  {
    if s == [] then 0
    else
      assert IsDigit(s[|s| - 1]);
      DecimalValue(s[..|s| - 1]) * 10 + (s[|s| - 1] as int - '0' as int)
  }

  /** The decimal text reads back as the number it was printed from. */
  lemma {:induction false} NatToStringRoundTrip(n: nat)
    ensures DecimalValue(NatToString(n)) == n
  {
    if n >= 10 {
      var s := NatToString(n);
      assert s[..|s| - 1] == NatToString(n / 10);
      NatToStringRoundTrip(n / 10);
    }
  }
}
