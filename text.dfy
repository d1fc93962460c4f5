/** The few Python string and path operations the workflow relies on:
    `str.strip`, `str.split`, `str.lower`, `str.isdigit`/`int`, line
    iteration over a text file and `os.path.join`. */
module Text {

  /** Python's `str.isspace` for one character. */
  predicate IsSpace(c: char) {
    c == ' ' || ('\t' <= c <= '\r') || ('\U{1c}' <= c <= '\U{1f}')
    || c == '\U{85}' || c == '\U{a0}' || c == '\U{1680}'
    || ('\U{2000}' <= c <= '\U{200a}') || c == '\U{2028}' || c == '\U{2029}'
    || c == '\U{202f}' || c == '\U{205f}' || c == '\U{3000}'
  }

  predicate StartsWith(s: string, prefix: string) {
    |prefix| <= |s| && s[..|prefix|] == prefix
  }

  /** `s.lstrip()`: drops the leading whitespace and nothing else. */
  function TrimStart(s: string): (r: string)
    ensures |r| <= |s| && r == s[|s| - |r|..]
    ensures r == [] || !IsSpace(r[0])
    ensures forall i :: 0 <= i < |s| - |r| ==> IsSpace(s[i])
  {
    if s != [] && IsSpace(s[0]) then TrimStart(s[1..]) else s
  }

  /** `s.rstrip()`: drops the trailing whitespace and nothing else. */
  function TrimEnd(s: string): (r: string)
    ensures |r| <= |s| && r == s[..|r|]
    ensures r == [] || !IsSpace(r[|r| - 1])
    ensures forall i :: |r| <= i < |s| ==> IsSpace(s[i])
  {
    if s != [] && IsSpace(s[|s| - 1]) then TrimEnd(s[..|s| - 1]) else s
  }

  /** `s.strip()`. */
  function Strip(s: string): string {
    TrimEnd(TrimStart(s))
  }

  /** Whitespace appended after a non-blank end is exactly what `rstrip` removes. */
  lemma TrimEndTrailing(s: string, tail: string)
    requires s != [] && !IsSpace(s[|s| - 1])
    requires forall i :: 0 <= i < |tail| ==> IsSpace(tail[i])
    ensures TrimEnd(s + tail) == s
  {
    var t := s + tail;
    var r := TrimEnd(t);
    assert !IsSpace(t[|s| - 1]);
    assert |r| >= |s|;
    assert forall i :: |s| <= i < |t| ==> IsSpace(t[i]);
    assert |r| <= |s|;
    assert r == t[..|s|] == s;
  }

  /** Whitespace appended after a non-blank text is exactly what `strip` removes. */
  lemma StripTrailing(s: string, tail: string)
    requires s != [] && !IsSpace(s[0]) && !IsSpace(s[|s| - 1])
    requires forall i :: 0 <= i < |tail| ==> IsSpace(tail[i])
    ensures Strip(s + tail) == s
  {
    assert TrimStart(s + tail) == s + tail;
    TrimEndTrailing(s, tail);
  }

  /** `s.split(sep)` for a one-character separator: the pieces between the
      separators, so there is always at least one piece. */
  function Split(s: string, sep: char): (r: seq<string>)
    ensures |r| > 0
    ensures forall i :: 0 <= i < |r| ==> sep !in r[i]
    ensures sep !in s ==> r == [s]
    ensures sep in s ==> |r| > 1
    decreases |s|
  {
    if s == [] then [[]]
    else
      var rest := Split(s[1..], sep);
      assert [s[0]] + s[1..] == s;
      if s[0] == sep then [[]] + rest else [[s[0]] + rest[0]] + rest[1..]
  }

  /** A separator-free head splits off as the first piece. */
  lemma {:induction false} SplitAfterHead(head: string, sep: char, rest: string)
    requires sep !in head
    ensures Split(head + [sep] + rest, sep) == [head] + Split(rest, sep)
    decreases |head|
  {
    if head == [] {
      assert head + [sep] + rest == [sep] + rest;
      assert ([sep] + rest)[1..] == rest;
    } else {
      var s := head + [sep] + rest;
      assert s[1..] == head[1..] + [sep] + rest;
      SplitAfterHead(head[1..], sep, rest);
      assert [head[0]] + head[1..] == head;
    }
  }

  /** Where the first line of `s` ends: just past its first newline, or at
      the end of `s` when it has none. */
  function LineEnd(s: string): (k: nat)
    requires s != []
    ensures 0 < k <= |s|
    ensures '\n' !in s[..k - 1]
    ensures k < |s| ==> s[k - 1] == '\n'
  {
    if s[0] == '\n' || |s| == 1 then 1
    else
      var k := 1 + LineEnd(s[1..]);
      assert s[..k - 1] == [s[0]] + s[1..][..k - 2];
      k
  }

  /** A line as Python's file iteration yields it: a newline, if any, is its last character. */
  predicate IsLine(line: string) {
    line != [] && '\n' !in line[..|line| - 1]
  }

  /** The lines concatenated back into one text. */
  function Flatten(lines: seq<string>): string
    decreases |lines|
  {
    if lines == [] then [] else lines[0] + Flatten(lines[1..])
  }

  /** The lines `for line in f` yields over a file holding `s`: each keeps
      its newline, and a last line without one is yielded as it is. */
  function Lines(s: string): (r: seq<string>)
    ensures forall i :: 0 <= i < |r| ==> IsLine(r[i])
    decreases |s|
  {
    if s == [] then []
    else
      var k := LineEnd(s);
      [s[..k]] + Lines(s[k..])
  }

  /** The lines are exactly the text cut after each newline: together they
      give back the text, and every line but the last ends in a newline. */
  lemma {:induction false} LinesCoverText(s: string)
    ensures Flatten(Lines(s)) == s
    ensures forall i :: 0 <= i < |Lines(s)| - 1 ==> |Lines(s)[i]| > 0 && Lines(s)[i][|Lines(s)[i]| - 1] == '\n'
    decreases |s|
  {
    if s != [] {
      var k := LineEnd(s);
      var rest := Lines(s[k..]);
      LinesCoverText(s[k..]);
      assert Lines(s) == [s[..k]] + rest;
      assert Lines(s)[1..] == rest;
      assert s[..k] + s[k..] == s;
      assert rest != [] ==> k < |s|;
    }
  }

  /** A newline-terminated line in front of a text is yielded first. */
  lemma LinesCons(line: string, rest: string)
    requires line != [] && line[|line| - 1] == '\n' && '\n' !in line[..|line| - 1]
    ensures Lines(line + rest) == [line] + Lines(rest)
  {
    var s := line + rest;
    var k := LineEnd(s);
    assert s[..|line| - 1] == line[..|line| - 1];
    assert forall j :: 0 <= j < |line| - 1 ==> s[j] != '\n';
    assert s[|line| - 1] == '\n';
    assert k == |line|;
    assert s[..k] == line && s[k..] == rest;
  }

  /** `posixpath.join(a, b)`: an absolute `b` replaces `a`; otherwise a
      slash is put between them unless `a` is empty or already ends in one. */
  function Join(a: string, b: string): string {
    if StartsWith(b, "/") then b
    else if a == [] || a[|a| - 1] == '/' then a + b
    else a + "/" + b
  }

  /** `c.lower()` for one character, on the ASCII letters. */
  function LowerChar(c: char): char {
    if 'A' <= c <= 'Z' then (c as int + 32) as char else c
  }

  /** `str.lower` on the ASCII letters. */
  function Lower(s: string): (r: string)
    ensures |r| == |s|
  {
    if s == [] then [] else [LowerChar(s[0])] + Lower(s[1..])
  }

  /** Lowering works character by character. */
  lemma {:induction false} LowerAt(s: string, i: nat)
    requires i < |s|
    ensures Lower(s)[i] == LowerChar(s[i])
    decreases |s|
  {
    if i > 0 {
      LowerAt(s[1..], i - 1);
    }
  }

  predicate IsDigit(c: char) {
    '0' <= c <= '9'
  }

  /** `s.isdigit()` restricted to the ASCII digits. */
  predicate AllDigits(s: string) {
    s != [] && forall i :: 0 <= i < |s| ==> IsDigit(s[i])
  }

  /** `int(s)` for a string of ASCII digits. */
  function DecimalValue(s: string): (n: nat)
    requires forall i :: 0 <= i < |s| ==> IsDigit(s[i])
    ensures |s| == 1 ==> n == s[0] as int - '0' as int
    decreases |s|
  {
    if s == [] then 0
    else
      var init := s[..|s| - 1];
      assert IsDigit(s[|s| - 1]);
      10 * DecimalValue(init) + (s[|s| - 1] as int - '0' as int)
  }
}
