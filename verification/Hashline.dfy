/**
 * Hashline text: numbered lines under a file header, how they are stripped again, and the normal form that is hashed.
 */
module Hashline {
  import opened Text

  const FILE_PREFIX: char := '\U{00B6}'
  const HASH_SEPARATOR: char := '#'
  const BODY_SEPARATOR: char := ':'

  // ----- Printing -----

  predicate IsDigit(c: char) {
    '0' <= c <= '9'
  }

  function DigitOf(d: nat): (c: char)
    requires d < 10
    ensures IsDigit(c) && c as int == '0' as int + d
  {
    ['0', '1', '2', '3', '4', '5', '6', '7', '8', '9'][d]
  }

  function Digits(n: nat): (r: string)
    ensures |r| > 0 && forall i :: 0 <= i < |r| ==> IsDigit(r[i])
  {
    if n < 10 then [DigitOf(n)] else Digits(n / 10) + [DigitOf(n % 10)]
  }

  function ValueOf(digits: string): int {
    if digits == [] then 0 else ValueOf(digits[..|digits| - 1]) * 10 + (digits[|digits| - 1] as int - '0' as int)
  }

  /** The digits read back as the number, so different lines get different numbers. */
  lemma {:induction false} DigitsReadBack(n: nat)
    ensures ValueOf(Digits(n)) == n
  {
    var digits := Digits(n);
    if n < 10 {
      assert digits[..0] == [];
    } else {
      DigitsReadBack(n / 10);
      assert digits[..|digits| - 1] == Digits(n / 10);
    }
  }

  /** A number as template strings print it. */
  function Decimal(n: int): string {
    if n >= 0 then Digits(n) else ['-'] + Digits(-n)
  }

  function FormatHeader(path: string, hash: string): string {
    [FILE_PREFIX] + path + [HASH_SEPARATOR] + hash
  }

  function FormatLine(number: int, line: string): string {
    Decimal(number) + [BODY_SEPARATOR] + line
  }

  function NumberLines(lines: seq<string>, start: int): (r: seq<string>)
    ensures |r| == |lines|
    ensures forall i :: 0 <= i < |r| ==> r[i] == FormatLine(start + i, lines[i])
  {
    seq(|lines|, i requires 0 <= i < |lines| => FormatLine(start + i, lines[i]))
  }

  function FormatLines(text: string, start: int): string {
    Join(NumberLines(Split(text), start))
  }

  // ----- Stripping -----

  datatype Stripped = Stripped(text: string, stripped: bool)

  predicate IsHeader(line: string) {
    line != [] && line[0] == FILE_PREFIX
  }

  /** How many digits a line starts with. */
  function DigitRun(line: string): (n: nat)
    ensures n <= |line| && forall i :: 0 <= i < n ==> IsDigit(line[i])
    ensures n < |line| ==> !IsDigit(line[n])
  {
    if line == [] || !IsDigit(line[0]) then 0 else 1 + DigitRun(line[1..])
  }

  /** `/^\d+:/` matches. */
  predicate IsNumbered(line: string) {
    var n := DigitRun(line);
    0 < n < |line| && line[n] == BODY_SEPARATOR
  }

  function StripNumber(line: string): string {
    if IsNumbered(line) then line[DigitRun(line) + 1..] else line
  }

  function WithoutHeaders(lines: seq<string>): seq<string> {
    if lines == [] then []
    else (if IsHeader(lines[0]) then [] else [lines[0]]) + WithoutHeaders(lines[1..])
  }

  function StripNumbers(lines: seq<string>): (r: seq<string>)
    ensures |r| == |lines| && forall i :: 0 <= i < |r| ==> r[i] == StripNumber(lines[i])
  {
    seq(|lines|, i requires 0 <= i < |lines| => StripNumber(lines[i]))
  }

  /** `lines` are the lines of `text` that are not headers. */
  function StripLines(lines: seq<string>, text: string): Stripped {
    if (forall i :: 0 <= i < |lines| ==> lines[i] == [])
       || !(forall i :: 0 <= i < |lines| ==> lines[i] == [] || IsNumbered(lines[i]))
    then Stripped(text, false)
    else Stripped(Join(StripNumbers(lines)), true)
  }

  function StripPrefixes(text: string): Stripped {
    StripLines(WithoutHeaders(Split(text)), text)
  }

  // ----- Round trip -----

  lemma {:induction false} DigitRunIs(digits: string, rest: string)
    requires forall i :: 0 <= i < |digits| ==> IsDigit(digits[i])
    requires rest != [] && !IsDigit(rest[0])
    ensures DigitRun(digits + rest) == |digits|
  {
    if digits == [] {
      assert digits + rest == rest;
    } else {
      DigitRunIs(digits[1..], rest);
      assert (digits + rest)[1..] == digits[1..] + rest;
    }
  }

  /** A line numbered from zero up strips back to itself; below zero it is not recognised as numbered. */
  lemma NumberedLine(number: int, line: string)
    ensures var l := FormatLine(number, line);
            && (IsNumbered(l) <==> number >= 0) && !IsHeader(l) && l != []
            && (number >= 0 ==> StripNumber(l) == line)
            && (OneLine(line) ==> OneLine(l))
  {
    var l := FormatLine(number, line);
    if number >= 0 {
      var digits, rest := Digits(number), [BODY_SEPARATOR] + line;
      assert l == digits + rest;
      DigitRunIs(digits, rest);
      assert l[|digits| + 1..] == line;
    } else {
      assert l[0] == '-' && DigitRun(l) == 0;
    }
  }

  lemma {:induction false} NothingToRemove(lines: seq<string>)
    requires forall i :: 0 <= i < |lines| ==> !IsHeader(lines[i])
    ensures WithoutHeaders(lines) == lines
  {
    if lines != [] {
      NothingToRemove(lines[1..]);
    }
  }

  lemma NumberedAreLines(lines: seq<string>, start: int)
    requires lines != [] && forall i :: 0 <= i < |lines| ==> OneLine(lines[i])
    ensures var ls := NumberLines(lines, start); Split(Join(ls)) == ls && WithoutHeaders(ls) == ls
  {
    var ls := NumberLines(lines, start);
    forall i | 0 <= i < |ls| ensures OneLine(ls[i]) && !IsHeader(ls[i]) {
      NumberedLine(start + i, lines[i]);
    }
    SplitJoin(ls);
    NothingToRemove(ls);
  }

  lemma NumberedStripBack(lines: seq<string>, start: nat)
    ensures StripNumbers(NumberLines(lines, start)) == lines
    ensures forall i :: 0 <= i < |lines| ==> IsNumbered(NumberLines(lines, start)[i])
  {
    var ls := NumberLines(lines, start);
    forall i | 0 <= i < |ls| ensures IsNumbered(ls[i]) && StripNumber(ls[i]) == lines[i] {
      NumberedLine(start + i, lines[i]);
    }
  }

  lemma StripNumberedLinesOf(lines: seq<string>, start: int, whole: string)
    requires lines != []
    ensures StripLines(NumberLines(lines, start), whole)
         == if start >= 0 then Stripped(Join(lines), true) else Stripped(whole, false)
  {
    NumberedLine(start, lines[0]);
    assert NumberLines(lines, start)[0] == FormatLine(start, lines[0]);
    if start >= 0 {
      NumberedStripBack(lines, start);
    }
  }

  /**
   * Round trip of the numbered lines alone: stripping returns the text exactly when the numbering starts at a natural
   * number; otherwise nothing is stripped.
   */
  lemma StripNumberedText(text: string, start: int)
    ensures StripPrefixes(FormatLines(text, start))
         == if start >= 0 then Stripped(text, true) else Stripped(FormatLines(text, start), false)
  {
    NumberedAreLines(Split(text), start);
    StripNumberedLinesOf(Split(text), start, FormatLines(text, start));
    JoinSplit(text);
  }

  lemma HeaderLine(path: string, hash: string)
    requires OneLine(path) && OneLine(hash)
    ensures OneLine(FormatHeader(path, hash)) && IsHeader(FormatHeader(path, hash))
  {
  }

  lemma HeaderRemoved(header: string, ls: seq<string>)
    requires IsHeader(header) && WithoutHeaders(ls) == ls
    ensures WithoutHeaders([header] + ls) == ls
  {
    assert ([header] + ls)[1..] == ls;
  }

  /** Round trip with the header line on top, for every path and hash without a newline. */
  lemma StripWithHeader(text: string, start: int, path: string, hash: string)
    requires OneLine(path) && OneLine(hash)
    ensures var whole := FormatHeader(path, hash) + (['\n'] + FormatLines(text, start));
            StripPrefixes(whole) == if start >= 0 then Stripped(text, true) else Stripped(whole, false)
  {
    var header, ls := FormatHeader(path, hash), NumberLines(Split(text), start);
    HeaderLine(path, hash);
    NumberedAreLines(Split(text), start);
    LineThenMore(header, Join(ls));
    HeaderRemoved(header, ls);
    StripNumberedLinesOf(Split(text), start, header + (['\n'] + Join(ls)));
    JoinSplit(text);
  }

  lemma LongerPath(path: string, hash: string, path': string, hash': string)
    requires FormatHeader(path, hash) == FormatHeader(path', hash') && |path| < |path'|
    ensures '#' in hash
  {
    var h := FormatHeader(path, hash);
    assert h[1 + |path'|] == '#' && h[2 + |path|..] == hash;
    assert hash[|path'| - |path| - 1] == h[1 + |path'|];
  }

  /** Path and hash can be read off a header, as hashes have no separator in them. */
  lemma HeaderDetermines(path: string, hash: string, path': string, hash': string)
    requires FormatHeader(path, hash) == FormatHeader(path', hash') && '#' !in hash && '#' !in hash'
    ensures path == path' && hash == hash'
  {
    var h := FormatHeader(path, hash);
    if |path| < |path'| {
      LongerPath(path, hash, path', hash');
    } else if |path'| < |path| {
      LongerPath(path', hash', path, hash);
    } else {
      assert h[1..1 + |path|] == path && h[1..1 + |path'|] == path';
      assert h[2 + |path|..] == hash && h[2 + |path'|..] == hash';
    }
  }

  // ----- Any text -----

  /** A line number, a colon, and the line. */
  ghost predicate ReadsAs(numbered: string, line: string) {
    exists digits :: digits != [] && (forall i :: 0 <= i < |digits| ==> '0' <= digits[i] <= '9')
                     && numbered == digits + [':'] + line
  }

  ghost predicate ReadsNumbered(numbered: string) {
    exists line :: ReadsAs(numbered, line)
  }

  lemma ReadsAsIs(numbered: string, line: string)
    requires ReadsAs(numbered, line)
    ensures IsNumbered(numbered) && StripNumber(numbered) == line
  {
    var digits :| digits != [] && (forall i :: 0 <= i < |digits| ==> '0' <= digits[i] <= '9')
                  && numbered == digits + [':'] + line;
    assert numbered == digits + ([':'] + line);
    DigitRunIs(digits, [':'] + line);
  }

  lemma NumberedIs(numbered: string)
    ensures IsNumbered(numbered) <==> ReadsNumbered(numbered)
    ensures forall line :: ReadsAs(numbered, line) ==> StripNumber(numbered) == line
    ensures IsNumbered(numbered) ==> ReadsAs(numbered, StripNumber(numbered))
  {
    forall line | ReadsAs(numbered, line) ensures IsNumbered(numbered) && StripNumber(numbered) == line {
      ReadsAsIs(numbered, line);
    }
    if IsNumbered(numbered) {
      var n := DigitRun(numbered);
      var digits, line := numbered[..n], numbered[n + 1..];
      assert numbered == digits + [':'] + line;
      assert ReadsAs(numbered, line);
    }
  }

  /** The lines that do not start with the header sign. */
  function ContentLines(lines: seq<string>): seq<string> {
    if lines == [] then []
    else
      var line := lines[|lines| - 1];
      ContentLines(lines[..|lines| - 1]) + (if |line| > 0 && line[0] == '\U{00B6}' then [] else [line])
  }

  lemma {:induction false} WithoutHeadersLast(lines: seq<string>, line: string)
    ensures WithoutHeaders(lines + [line]) == WithoutHeaders(lines) + WithoutHeaders([line])
  {
    if lines == [] {
      assert lines + [line] == [line];
    } else {
      WithoutHeadersLast(lines[1..], line);
      assert (lines + [line])[1..] == lines[1..] + [line];
    }
  }

  lemma {:induction false} HeadersDropped(lines: seq<string>)
    ensures WithoutHeaders(lines) == ContentLines(lines)
  {
    if lines != [] {
      var front, last := lines[..|lines| - 1], lines[|lines| - 1];
      HeadersDropped(front);
      WithoutHeadersLast(front, last);
      assert lines == front + [last];
      assert [last][1..] == [];
    }
  }

  /** `after` is `before` with the number taken off every line that has one. */
  ghost predicate NumbersOff(before: seq<string>, after: seq<string>) {
    && |after| == |before|
    && forall i :: 0 <= i < |before| ==> if before[i] == [] then after[i] == [] else ReadsAs(before[i], after[i])
  }

  lemma StripLinesTells(lines: seq<string>, text: string)
    ensures var r := StripLines(lines, text);
            && (r.stripped <==> && (exists i :: 0 <= i < |lines| && lines[i] != [])
                                && forall i :: 0 <= i < |lines| && lines[i] != [] ==> ReadsNumbered(lines[i]))
            && (!r.stripped ==> r.text == text)
            && (r.stripped ==> r.text == Join(StripNumbers(lines)) && NumbersOff(lines, StripNumbers(lines)))
  {
    forall i | 0 <= i < |lines|
      ensures IsNumbered(lines[i]) <==> ReadsNumbered(lines[i])
      ensures IsNumbered(lines[i]) ==> ReadsAs(lines[i], StripNumber(lines[i]))
    {
      NumberedIs(lines[i]);
    }
  }

  /**
   * What stripping does to any text: it needs a line that is neither a header nor empty, and all such lines numbered;
   * then headers go and numbers come off; otherwise the text is left as it is.
   */
  lemma StripAnyText(text: string)
    ensures var r, lines := StripPrefixes(text), ContentLines(Split(text));
            && (r.stripped <==> && (exists i :: 0 <= i < |lines| && lines[i] != [])
                                && forall i :: 0 <= i < |lines| && lines[i] != [] ==> ReadsNumbered(lines[i]))
            && (!r.stripped ==> r.text == text)
            && (r.stripped ==> exists after :: r.text == Join(after) && NumbersOff(lines, after))
  {
    HeadersDropped(Split(text));
    StripLinesTells(ContentLines(Split(text)), text);
  }

  // ----- The normal form that is hashed -----

  /** `/\r\n/g` to a newline. */
  function JoinCrLf(s: string): string {
    if s == [] then []
    else if |s| >= 2 && s[0] == '\r' && s[1] == '\n' then ['\n'] + JoinCrLf(s[2..])
    else [s[0]] + JoinCrLf(s[1..])
  }

  /** `/\r/g` to a newline. */
  function CrToLf(s: string): (r: string)
    ensures |r| == |s| && forall i :: 0 <= i < |s| ==> r[i] == if s[i] == '\r' then '\n' else s[i]
  {
    seq(|s|, i requires 0 <= i < |s| => if s[i] == '\r' then '\n' else s[i])
  }

  function NormalizeSnapshot(s: string): (r: string)
    ensures '\r' !in r
  {
    CrToLf(JoinCrLf(s))
  }

  lemma OtherFirst(c: char, s: string)
    requires c != '\r'
    ensures NormalizeSnapshot([c] + s) == [c] + NormalizeSnapshot(s)
  {
    assert ([c] + s)[1..] == s;
  }

  lemma CrLfFirst(s: string)
    ensures NormalizeSnapshot("\r\n" + s) == "\n" + NormalizeSnapshot(s)
  {
    assert ("\r\n" + s)[2..] == s;
  }

  lemma CrFirst(s: string)
    requires s != [] ==> s[0] != '\n'
    ensures NormalizeSnapshot("\r" + s) == "\n" + NormalizeSnapshot(s)
  {
    var t := "\r" + s;
    assert t[1..] == s && (|t| >= 2 ==> t[1] == s[0]);
    assert JoinCrLf(t) == ['\r'] + JoinCrLf(s);
  }

  lemma Regroup(a: string, b: string, c: string)
    ensures a + b + c == a + (b + c)
  {
  }

  /** A line end is not cut between `a` and `b`. */
  predicate CutsCleanly(a: string, b: string) {
    a == [] || b == [] || a[|a| - 1] != '\r' || b[0] != '\n'
  }

  lemma AppendOther(c: char, t: string, b: string)
    requires c != '\r' && NormalizeSnapshot(t + b) == NormalizeSnapshot(t) + NormalizeSnapshot(b)
    ensures NormalizeSnapshot([c] + t + b) == NormalizeSnapshot([c] + t) + NormalizeSnapshot(b)
  {
    Regroup([c], t, b);
    OtherFirst(c, t);
    OtherFirst(c, t + b);
    Regroup([c], NormalizeSnapshot(t), NormalizeSnapshot(b));
  }

  lemma AppendCrLf(t: string, b: string)
    requires NormalizeSnapshot(t + b) == NormalizeSnapshot(t) + NormalizeSnapshot(b)
    ensures NormalizeSnapshot("\r\n" + t + b) == NormalizeSnapshot("\r\n" + t) + NormalizeSnapshot(b)
  {
    Regroup("\r\n", t, b);
    CrLfFirst(t);
    CrLfFirst(t + b);
    Regroup("\n", NormalizeSnapshot(t), NormalizeSnapshot(b));
  }

  lemma AppendCr(t: string, b: string)
    requires NormalizeSnapshot(t + b) == NormalizeSnapshot(t) + NormalizeSnapshot(b)
    requires (t != [] ==> t[0] != '\n') && (t == [] && b != [] ==> b[0] != '\n')
    ensures NormalizeSnapshot("\r" + t + b) == NormalizeSnapshot("\r" + t) + NormalizeSnapshot(b)
  {
    Regroup("\r", t, b);
    CrFirst(t);
    CrFirst(t + b);
    Regroup("\n", NormalizeSnapshot(t), NormalizeSnapshot(b));
  }

  /** Line ends are normalised piece by piece, unless a CRLF is cut in two. */
  lemma {:induction false} SnapshotAppend(a: string, b: string)
    requires CutsCleanly(a, b)
    ensures NormalizeSnapshot(a + b) == NormalizeSnapshot(a) + NormalizeSnapshot(b)
    decreases |a|
  {
    if a == [] {
      assert a + b == b;
    } else if a[0] == '\r' && |a| > 1 && a[1] == '\n' {
      SnapshotAppend(a[2..], b);
      AppendCrLf(a[2..], b);
      assert a == "\r\n" + a[2..];
    } else {
      SnapshotAppend(a[1..], b);
      assert a == [a[0]] + a[1..];
      if a[0] == '\r' {
        AppendCr(a[1..], b);
        assert "\r" == [a[0]];
      } else {
        AppendOther(a[0], a[1..], b);
      }
    }
  }

  /** CRLF and CR are line ends like LF, and nothing else changes. */
  lemma LineEnds(a: string, b: string)
    ensures NormalizeSnapshot(a + ("\r\n" + b)) == NormalizeSnapshot(a) + ("\n" + NormalizeSnapshot(b))
    ensures (b != [] ==> b[0] != '\n') ==>
      NormalizeSnapshot(a + ("\r" + b)) == NormalizeSnapshot(a) + ("\n" + NormalizeSnapshot(b))
    ensures '\r' !in a ==> NormalizeSnapshot(a) == a
  {
    SnapshotAppend(a, "\r\n" + b);
    CrLfFirst(b);
    SnapshotAppend(a, "\r" + b);
    if b != [] ==> b[0] != '\n' {
      CrFirst(b);
    }
    if '\r' !in a {
      SnapshotOfClean(a);
    }
  }

  /** The lines of a text cut at LF, CRLF and CR. */
  function CutLines(s: string): (r: seq<string>)
    ensures r != []
  {
    if s == [] then [[]]
    else if s[0] == '\n' then [[]] + CutLines(s[1..])
    else if s[0] == '\r' then [[]] + CutLines(if |s| > 1 && s[1] == '\n' then s[2..] else s[1..])
    else Prepend(s[0], CutLines(s[1..]))
  }

  lemma {:induction false} SnapshotCuts(s: string)
    ensures Split(NormalizeSnapshot(s)) == CutLines(s)
    decreases |s|
  {
    if s != [] {
      var crlf := s[0] == '\r' && |s| > 1 && s[1] == '\n';
      var rest := if crlf then s[2..] else s[1..];
      SnapshotCuts(rest);
      if crlf {
        assert s == "\r\n" + rest;
        CrLfFirst(rest);
        SplitNewline(NormalizeSnapshot(rest));
      } else if s[0] == '\r' {
        assert s == "\r" + rest;
        CrFirst(rest);
        SplitNewline(NormalizeSnapshot(rest));
      } else {
        assert s == [s[0]] + rest;
        OtherFirst(s[0], rest);
        if s[0] == '\n' {
          SplitNewline(NormalizeSnapshot(rest));
        } else {
          SplitCons(s[0], NormalizeSnapshot(rest));
        }
      }
    }
  }

  predicate IsPad(c: char) {
    c == ' ' || c == '\t' || c == '\r'
  }

  predicate AllPad(s: string) {
    forall i :: 0 <= i < |s| ==> IsPad(s[i])
  }

  /** `[ \t\r]+(?=\n|$)` matches at the start of `s`: a run of padding that reaches a newline or the end. */
  predicate PadToLineEnd(s: string) {
    s != [] && IsPad(s[0]) && (|s| == 1 || s[1] == '\n' || PadToLineEnd(s[1..]))
  }

  /** Every such run removed. */
  function RemovePadding(s: string): string {
    if s == [] then []
    else if PadToLineEnd(s) then RemovePadding(s[1..])
    else [s[0]] + RemovePadding(s[1..])
  }

  function Normalize(text: string): string {
    RemovePadding(NormalizeSnapshot(text))
  }

  /** A line without its trailing padding. */
  function TrimPad(line: string): (r: string)
    ensures r <= line && AllPad(line[|r|..])
    ensures r != [] ==> !IsPad(r[|r| - 1])
  {
    if AllPad(line) then []
    else
      var rest := TrimPad(line[1..]);
      assert line[1 + |rest|..] == line[1..][|rest|..];
      [line[0]] + rest
  }

  function TrimPads(lines: seq<string>): (r: seq<string>)
    ensures |r| == |lines| && forall i :: 0 <= i < |r| ==> r[i] == TrimPad(lines[i])
  {
    seq(|lines|, i requires 0 <= i < |lines| => TrimPad(lines[i]))
  }

  lemma AllPadAppend(a: string, b: string)
    ensures AllPad(a + b) <==> AllPad(a) && AllPad(b)
  {
    if AllPad(a + b) {
      assert forall i :: 0 <= i < |a| ==> a[i] == (a + b)[i];
      assert forall i :: 0 <= i < |b| ==> b[i] == (a + b)[|a| + i];
    }
  }

  lemma {:induction false} PadReachesLineEnd(s: string)
    requires s != [] && s[0] != '\n'
    ensures PadToLineEnd(s) <==> AllPad(Split(s)[0])
    decreases |s|
  {
    var rest := Split(s[1..])[0];
    assert Split(s)[0] == [s[0]] + rest;
    AllPadAppend([s[0]], rest);
    assert AllPad([s[0]]) <==> IsPad(s[0]) by { assert [s[0]][0] == s[0]; }
    if |s| > 1 && s[1] != '\n' {
      PadReachesLineEnd(s[1..]);
    } else if |s| > 1 {
      assert s[1..][0] == '\n' && rest == [];
    }
  }

  lemma TrimPadsPrepend(c: char, lines: seq<string>)
    requires lines != []
    ensures TrimPads(Prepend(c, lines))
         == if AllPad([c] + lines[0]) then TrimPads(lines) else Prepend(c, TrimPads(lines))
  {
    var line := [c] + lines[0];
    assert line[1..] == lines[0];
    if AllPad(line) {
      assert AllPad(lines[0]) by { assert forall i :: 0 <= i < |lines[0]| ==> lines[0][i] == line[i + 1]; }
    }
  }

  lemma JoinPrepend(c: char, lines: seq<string>)
    requires lines != []
    ensures Join(Prepend(c, lines)) == [c] + Join(lines)
  {
  }

  lemma JoinNewline(lines: seq<string>)
    requires lines != []
    ensures Join([[]] + lines) == ['\n'] + Join(lines)
  {
    assert ([[]] + lines)[1..] == lines;
  }

  lemma TrimPadsNewline(lines: seq<string>)
    ensures TrimPads([[]] + lines) == [[]] + TrimPads(lines)
  {
  }

  /** Padding removal works line by line. */
  lemma {:induction false} RemovePaddingByLine(s: string)
    ensures RemovePadding(s) == Join(TrimPads(Split(s)))
    decreases |s|
  {
    if s == [] {
      assert TrimPads([[]]) == [[]];
    } else {
      RemovePaddingByLine(s[1..]);
      var rest := Split(s[1..]);
      if s[0] == '\n' {
        TrimPadsNewline(rest);
        JoinNewline(TrimPads(rest));
      } else {
        PadReachesLineEnd(s);
        TrimPadsPrepend(s[0], rest);
        if !PadToLineEnd(s) {
          JoinPrepend(s[0], TrimPads(rest));
        }
      }
    }
  }

  lemma TrimPadTwice(line: string)
    ensures TrimPad(TrimPad(line)) == TrimPad(line)
  {
    var r := TrimPad(line);
    var rr := TrimPad(r);
    if |rr| < |r| {
      assert IsPad(r[|rr|..][|r| - 1 - |rr|]);
    }
  }

  lemma TrimmedLines(lines: seq<string>)
    requires lines != [] && forall i :: 0 <= i < |lines| ==> OneLine(lines[i])
    ensures Split(Join(TrimPads(lines))) == TrimPads(lines)
    ensures TrimPads(TrimPads(lines)) == TrimPads(lines)
  {
    forall i | 0 <= i < |lines| ensures OneLine(TrimPad(lines[i])) && TrimPad(TrimPad(lines[i])) == TrimPad(lines[i]) {
      TrimPadTwice(lines[i]);
    }
    SplitJoin(TrimPads(lines));
  }

  lemma {:induction false} SnapshotOfClean(s: string)
    requires '\r' !in s
    ensures JoinCrLf(s) == s && NormalizeSnapshot(s) == s
  {
    if s != [] {
      SnapshotOfClean(s[1..]);
    }
  }

  lemma {:induction false} PaddingAddsNothing(s: string, c: char)
    requires c !in s
    ensures c !in RemovePadding(s)
  {
    if s != [] {
      PaddingAddsNothing(s[1..], c);
    }
  }

  /** The normal form is a normal form. */
  lemma NormalizeIdempotent(text: string)
    ensures Normalize(Normalize(text)) == Normalize(text)
  {
    var s := NormalizeSnapshot(text);
    PaddingAddsNothing(s, '\r');
    SnapshotOfClean(Normalize(text));
    RemovePaddingByLine(s);
    TrimmedLines(Split(s));
    RemovePaddingByLine(Normalize(text));
  }

  predicate Blank(s: string) {
    forall i :: 0 <= i < |s| ==> s[i] == ' ' || s[i] == '\t'
  }

  /** Two lines are equal up to trailing spaces and tabs. */
  ghost predicate SameLine(a: string, b: string) {
    exists base, x, y :: a == base + x && b == base + y && Blank(x) && Blank(y)
  }

  lemma TrimPadCons(c: char, rest: string)
    ensures TrimPad([c] + rest) == if AllPad([c] + rest) then [] else [c] + TrimPad(rest)
  {
    assert ([c] + rest)[1..] == rest;
  }

  lemma TrimAllPad(line: string)
    requires AllPad(line)
    ensures TrimPad(line) == []
  {
  }

  lemma {:induction false} TrimPadIgnoresPadding(base: string, x: string)
    requires AllPad(x)
    ensures TrimPad(base + x) == TrimPad(base)
    decreases |base|
  {
    if base == [] {
      assert base + x == x;
      TrimAllPad(x);
    } else {
      var c, rest := base[0], base[1..];
      TrimPadIgnoresPadding(rest, x);
      assert base == [c] + rest && base + x == [c] + (rest + x);
      AllPadAppend(base, x);
      TrimPadCons(c, rest);
      TrimPadCons(c, rest + x);
    }
  }

  lemma BlankIsPad(x: string)
    requires '\r' !in x
    ensures Blank(x) <==> AllPad(x)
  {
  }

  lemma SameLineTrimsAlike(a: string, b: string)
    requires SameLine(a, b)
    ensures TrimPad(a) == TrimPad(b)
  {
    var base, x, y :| a == base + x && b == base + y && Blank(x) && Blank(y);
    TrimPadIgnoresPadding(base, x);
    TrimPadIgnoresPadding(base, y);
  }

  lemma NotInTail(line: string, c: char, n: nat)
    requires c !in line && n <= |line|
    ensures c !in line[n..]
  {
  }

  lemma TailIsBlank(line: string, r: string)
    requires '\r' !in line && r <= line && AllPad(line[|r|..])
    ensures line == r + line[|r|..] && Blank(line[|r|..])
  {
    NotInTail(line, '\r', |r|);
    BlankIsPad(line[|r|..]);
  }

  lemma SplitOffPadding(line: string)
    requires '\r' !in line
    ensures line == TrimPad(line) + line[|TrimPad(line)|..] && Blank(line[|TrimPad(line)|..])
  {
    TailIsBlank(line, TrimPad(line));
  }

  lemma SameLineIff(a: string, b: string)
    requires '\r' !in a && '\r' !in b
    ensures SameLine(a, b) <==> TrimPad(a) == TrimPad(b)
  {
    if SameLine(a, b) {
      SameLineTrimsAlike(a, b);
    }
    if TrimPad(a) == TrimPad(b) {
      SplitOffPadding(a);
      SplitOffPadding(b);
    }
  }

  lemma {:induction false} LinesHaveOnly(s: string, c: char)
    requires c !in s
    ensures forall i :: 0 <= i < |Split(s)| ==> c !in Split(s)[i]
  {
    if s != [] {
      LinesHaveOnly(s[1..], c);
    }
  }

  lemma TrimmedAlikeIff(la: seq<string>, lb: seq<string>)
    requires forall i :: 0 <= i < |la| ==> '\r' !in la[i]
    requires forall i :: 0 <= i < |lb| ==> '\r' !in lb[i]
    ensures TrimPads(la) == TrimPads(lb) <==> |la| == |lb| && forall i :: 0 <= i < |la| ==> SameLine(la[i], lb[i])
  {
    forall i | 0 <= i < |la| && |la| == |lb|
      ensures SameLine(la[i], lb[i]) <==> TrimPads(la)[i] == TrimPads(lb)[i]
    {
      SameLineIff(la[i], lb[i]);
    }
  }

  /** The normal form is made of the lines of the text, each without its padding. */
  lemma NormalFormByLine(text: string)
    ensures Split(Normalize(text)) == TrimPads(CutLines(text)) && Join(TrimPads(CutLines(text))) == Normalize(text)
    ensures forall i :: 0 <= i < |CutLines(text)| ==> '\r' !in CutLines(text)[i]
  {
    var s := NormalizeSnapshot(text);
    SnapshotCuts(text);
    RemovePaddingByLine(s);
    TrimmedLines(Split(s));
    LinesHaveOnly(s, '\r');
  }

  /**
   * Two texts have the same normal form if and only if, with all line ends made newlines, they have the same number of
   * lines and each pair of lines is equal up to trailing spaces and tabs.
   */
  lemma SameNormalFormIff(a: string, b: string)
    ensures var la, lb := CutLines(a), CutLines(b);
            Normalize(a) == Normalize(b)
            <==> |la| == |lb| && forall i :: 0 <= i < |la| ==> SameLine(la[i], lb[i])
  {
    NormalFormByLine(a);
    NormalFormByLine(b);
    TrimmedAlikeIff(CutLines(a), CutLines(b));
  }
}
