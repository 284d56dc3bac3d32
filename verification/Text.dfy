/** The few string operations the server and the stream client share. */
module Text {

  /** White space as `String.prototype.trim` knows it. */
  predicate IsBlank(c: char) {
    || c == ' ' || ('\t' <= c <= '\r') || c == '\U{00A0}' || c == '\U{1680}' || ('\U{2000}' <= c <= '\U{200A}')
    || c == '\U{2028}' || c == '\U{2029}' || c == '\U{202F}' || c == '\U{205F}' || c == '\U{3000}' || c == '\U{FEFF}'
  }

  predicate AllBlank(s: string) {
    forall i :: 0 <= i < |s| ==> IsBlank(s[i])
  }

  function TrimStart(s: string): (r: string)
    ensures |r| <= |s| && (r != [] ==> !IsBlank(r[0]))
    ensures s != [] && !IsBlank(s[0]) ==> r == s
  {
    if s != [] && IsBlank(s[0]) then TrimStart(s[1..]) else s
  }

  function TrimEnd(s: string): (r: string)
    ensures r <= s && (r != [] ==> !IsBlank(r[|r| - 1]))
    ensures s != [] && !IsBlank(s[|s| - 1]) ==> r == s
  {
    if s != [] && IsBlank(s[|s| - 1]) then TrimEnd(s[..|s| - 1]) else s
  }

  function Trim(s: string): (r: string)
    ensures r != [] ==> !IsBlank(r[0]) && !IsBlank(r[|r| - 1])
  {
    TrimEnd(TrimStart(s))
  }

  /** `core` with white space around it. */
  ghost predicate Padded(s: string, core: string) {
    exists before, after :: s == before + core + after && AllBlank(before) && AllBlank(after)
  }

  lemma {:induction false} TrimStartCuts(s: string) returns (before: string)
    ensures s == before + TrimStart(s) && AllBlank(before)
  {
    before := [];
    if s != [] && IsBlank(s[0]) {
      var rest := TrimStartCuts(s[1..]);
      before := [s[0]] + rest;
    }
  }

  lemma {:induction false} TrimEndCuts(s: string) returns (after: string)
    ensures s == TrimEnd(s) + after && AllBlank(after)
  {
    after := [];
    if s != [] && IsBlank(s[|s| - 1]) {
      var rest := TrimEndCuts(s[..|s| - 1]);
      after := rest + [s[|s| - 1]];
    }
  }

  /** Trimming takes away white space and nothing else. */
  lemma TrimUnpads(s: string)
    ensures Padded(s, Trim(s))
  {
    var before := TrimStartCuts(s);
    var after := TrimEndCuts(TrimStart(s));
    assert s == before + Trim(s) + after;
  }

  /** What is left is empty exactly when there was only white space. */
  lemma PaddedEmpty(s: string, core: string)
    requires Padded(s, core) && (core != [] ==> !IsBlank(core[0]))
    ensures core == [] <==> AllBlank(s)
  {
    var before, after :| s == before + core + after && AllBlank(before) && AllBlank(after);
    if core != [] {
      assert s[|before|] == core[0];
    }
  }

  // ----- Lines -----

  predicate OneLine(s: string) {
    '\n' !in s
  }

  /** Put a character in front of the first line. */
  function Prepend(c: char, lines: seq<string>): (r: seq<string>)
    requires lines != []
    ensures |r| == |lines| && r[0] == [c] + lines[0] && r[1..] == lines[1..]
  {
    [[c] + lines[0]] + lines[1..]
  }

  /** `split("\n")`: always at least one line. */
  function Split(s: string): (r: seq<string>)
    ensures |r| > 0 && forall i :: 0 <= i < |r| ==> OneLine(r[i])
  {
    if s == [] then [[]]
    else if s[0] == '\n' then [[]] + Split(s[1..])
    else Prepend(s[0], Split(s[1..]))
  }

  /** `join("\n")`. */
  function Join(lines: seq<string>): string {
    if lines == [] then []
    else if |lines| == 1 then lines[0]
    else lines[0] + ['\n'] + Join(lines[1..])
  }

  function Front<T>(s: seq<T>): seq<T>
    requires s != []
  {
    s[..|s| - 1]
  }

  function Last<T>(s: seq<T>): T
    requires s != []
  {
    s[|s| - 1]
  }

  lemma {:induction false} JoinSplit(s: string)
    ensures Join(Split(s)) == s
  {
    if s != [] {
      var rest := Split(s[1..]);
      JoinSplit(s[1..]);
      if s[0] == '\n' {
        assert ([[]] + rest)[1..] == rest;
      } else {
        assert Join(Prepend(s[0], rest)) == [s[0]] + Join(rest);
      }
    }
  }

  lemma PrependAppend(c: char, a: seq<string>, b: seq<string>)
    requires a != []
    ensures Prepend(c, a + b) == Prepend(c, a) + b
  {
    assert (a + b)[1..] == a[1..] + b;
  }

  lemma FrontLastPrepend(c: char, lines: seq<string>)
    requires lines != []
    ensures |lines| == 1 ==> Front(Prepend(c, lines)) == [] && Last(Prepend(c, lines)) == [c] + lines[0]
    ensures |lines| > 1 ==>
      Front(Prepend(c, lines)) == Prepend(c, Front(lines)) && Last(Prepend(c, lines)) == Last(lines)
  {
    var r := Prepend(c, lines);
    if |lines| > 1 {
      assert r == [[c] + lines[0]] + lines[1..];
    }
  }

  /** Splitting a concatenation: the last line of the first part runs on into the second. */
  lemma {:induction false} SplitAppend(a: string, b: string)
    ensures Split(a + b) == Front(Split(a)) + Split(Last(Split(a)) + b)
  {
    if a == [] {
      assert a + b == b && [] + b == b;
    } else {
      SplitAppend(a[1..], b);
      assert (a + b)[1..] == a[1..] + b;
      if a[0] == '\n' {
        SplitAppendNewline(Split(a[1..]), b);
      } else {
        SplitAppendStep(a[0], Split(a[1..]), b);
      }
    }
  }

  lemma SplitAppendNewline(rest: seq<string>, b: string)
    requires rest != []
    ensures var lines := [[]] + rest;
            [[]] + (Front(rest) + Split(Last(rest) + b)) == Front(lines) + Split(Last(lines) + b)
  {
    assert Front([[]] + rest) == [[]] + Front(rest);
  }

  lemma SplitCons(c: char, s: string)
    requires c != '\n'
    ensures Split([c] + s) == Prepend(c, Split(s))
  {
    assert ([c] + s)[1..] == s;
  }

  lemma SplitAppendStep(c: char, rest: seq<string>, b: string)
    requires rest != [] && c != '\n'
    ensures var lines := Prepend(c, rest);
            Prepend(c, Front(rest) + Split(Last(rest) + b)) == Front(lines) + Split(Last(lines) + b)
  {
    var tail := Split(Last(rest) + b);
    FrontLastPrepend(c, rest);
    if |rest| == 1 {
      assert Front(rest) + tail == tail;
      assert [c] + rest[0] + b == [c] + (rest[0] + b);
      SplitCons(c, rest[0] + b);
    } else {
      PrependAppend(c, Front(rest), tail);
    }
  }

  lemma {:induction false} SplitOneLine(s: string)
    requires OneLine(s)
    ensures Split(s) == [s]
  {
    if s != [] {
      SplitOneLine(s[1..]);
      assert [s[0]] + s[1..] == s;
    }
  }

  lemma SplitNewline(b: string)
    ensures Split(['\n'] + b) == [[]] + Split(b)
  {
    assert (['\n'] + b)[1..] == b;
  }

  lemma {:induction false} SplitJoin(lines: seq<string>)
    requires lines != [] && forall i :: 0 <= i < |lines| ==> OneLine(lines[i])
    ensures Split(Join(lines)) == lines
  {
    SplitOneLine(lines[0]);
    if |lines| > 1 {
      var rest := Join(lines[1..]);
      SplitJoin(lines[1..]);
      assert lines[0] + (['\n'] + rest) == Join(lines);
      LineThenMore(lines[0], rest);
    }
  }

  lemma PrependLine(c: char, line: string, lines: seq<string>)
    ensures Prepend(c, [line] + lines) == [[c] + line] + lines
  {
  }

  lemma {:induction false} LineThenMore(s: string, rest: string)
    requires OneLine(s)
    ensures Split(s + (['\n'] + rest)) == [s] + Split(rest)
  {
    if s == [] {
      SplitNewline(rest);
      assert s + (['\n'] + rest) == ['\n'] + rest;
    } else {
      var c, line, more := s[0], s[1..], ['\n'] + rest;
      LineThenMore(line, rest);
      assert s + more == [c] + (line + more);
      SplitCons(c, line + more);
      PrependLine(c, line, Split(rest));
      assert [c] + line == s;
    }
  }
}
