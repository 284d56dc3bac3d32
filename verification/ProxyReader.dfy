/** The read loop of the proxy client: chunks to lines to events to the partial message. */
module ProxyReader {
  import opened Common
  import opened Text
  import opened ProxyStream

  /** What the client relies on: JSON decoding of a data line, and the streaming JSON parser. */
  datatype Codec = Codec(decode: string -> Outcome<ProxyEvent>, parse: string -> string)

  const DATA := "data: "

  class PartialMessage {
    var content: map<int, Block>
    var stopReason: string
    var usage: int
    var errorMessage: Option<string>

    ghost function View(): Partial
      reads this
    {
      Partial(content, stopReason, usage, errorMessage)
    }

    constructor ()
      ensures View() == BLANK
    {
      content, stopReason, usage, errorMessage := map[], "stop", 0, None;
    }

    /** Update the message in place; a rejected event leaves it as it was. */
    method ProcessProxyEvent(parse: string -> string, e: ProxyEvent) returns (r: Outcome<seq<Push>>)
      modifies this
      ensures match Apply(parse, old(View()), e)
              case Ok(p) => View() == p && r == Ok(Pushes(e, p))
              case Bad(message) => View() == old(View()) && r == Bad(message)
    {
      match e {
        case Start =>
          r := Ok([Push(e, None)]);
        case OnBlock(i, c) =>
          match Changed(parse, At(content, i), c) {
            case Bad(message) => r := Bad(message);
            case Ok(b) =>
              if b.Some? {
                content := content[i := b.value];
              }
              r := Ok(if c.ToolEnd? && !(b.Some? && b.value.ToolBlock?) then [] else [Push(e, b)]);
          }
        case Done(reason, used) =>
          stopReason, usage := reason, used;
          r := Ok([Push(e, None)]);
        case Failed(reason, message, used) =>
          stopReason, errorMessage, usage := reason, message, used;
          r := Ok([Push(e, None)]);
      }
    }

    /** The catch clause of the stream function. */
    method Fail(reason: string, message: string)
      modifies this
      ensures View() == old(View()).(stopReason := reason, errorMessage := Some(message))
    {
      stopReason, errorMessage := reason, Some(message);
    }
  }

  // ----- The specification: a fold over lines -----

  datatype Client = Client(partial: Partial, pushed: seq<Push>, error: Option<string>)

  const FRESH := Client(BLANK, [], None)

  /** A line is ignored unless it is a data line with something on it; after a throw nothing more is read. */
  function OnLine(codec: Codec, c: Client, line: string): Client {
    if c.error.Some? || !(DATA <= line) || Trim(line[|DATA|..]) == "" then c
    else
      match codec.decode(Trim(line[|DATA|..]))
      case Bad(message) => c.(error := Some(message))
      case Ok(e) =>
        match Apply(codec.parse, c.partial, e)
        case Bad(message) => c.(error := Some(message))
        case Ok(p) => c.(partial := p, pushed := c.pushed + Pushes(e, p))
  }

  function OnLines(codec: Codec, c: Client, lines: seq<string>): Client {
    if lines == [] then c else OnLine(codec, OnLines(codec, c, lines[..|lines| - 1]), lines[|lines| - 1])
  }

  lemma {:induction false} OnLinesAppend(codec: Codec, c: Client, a: seq<string>, b: seq<string>)
    ensures OnLines(codec, c, a + b) == OnLines(codec, OnLines(codec, c, a), b)
    decreases |b|
  {
    if b == [] {
      assert a + b == a;
    } else {
      OnLinesAppend(codec, c, a, b[..|b| - 1]);
      assert (a + b)[..|a + b| - 1] == a + b[..|b| - 1];
    }
  }

  lemma {:induction false} OnLinesSticky(codec: Codec, c: Client, lines: seq<string>)
    requires c.error.Some?
    ensures OnLines(codec, c, lines) == c
  {
    if lines != [] {
      OnLinesSticky(codec, c, lines[..|lines| - 1]);
    }
  }

  function Concat(chunks: seq<string>): string {
    if chunks == [] then [] else Concat(chunks[..|chunks| - 1]) + chunks[|chunks| - 1]
  }

  /** The complete lines of a text, and what follows the last newline. */
  function Complete(text: string): seq<string> {
    Front(Split(text))
  }

  function Rest(text: string): string {
    Last(Split(text))
  }

  /** What one more chunk completes depends only on the carried rest. */
  lemma ChunkStep(text: string, chunk: string)
    ensures Complete(text + chunk) == Complete(text) + Complete(Rest(text) + chunk)
    ensures Rest(text + chunk) == Rest(Rest(text) + chunk)
  {
    SplitAppend(text, chunk);
  }

  // ----- The read loop -----

  method HandleLine(partial: PartialMessage, codec: Codec, line: string, pushed: seq<Push>)
    returns (pushed': seq<Push>, error: Option<string>)
    modifies partial
    ensures Client(partial.View(), pushed', error) == OnLine(codec, Client(old(partial.View()), pushed, None), line)
  {
    pushed', error := pushed, None;
    if DATA <= line {
      var data := Trim(line[|DATA|..]);
      if data != "" {
        match codec.decode(data) {
          case Bad(message) => error := Some(message);
          case Ok(e) =>
            var r := partial.ProcessProxyEvent(codec.parse, e);
            match r {
              case Bad(message) => error := Some(message);
              case Ok(more) => pushed' := pushed + more;
            }
        }
      }
    }
  }

  method HandleLines(partial: PartialMessage, codec: Codec, lines: seq<string>, pushed: seq<Push>)
    returns (pushed': seq<Push>, error: Option<string>)
    modifies partial
    ensures Client(partial.View(), pushed', error) == OnLines(codec, Client(old(partial.View()), pushed, None), lines)
  {
    pushed', error := pushed, None;
    ghost var c := Client(partial.View(), pushed, None);
    for i := 0 to |lines|
      invariant error.None? && Client(partial.View(), pushed', error) == OnLines(codec, c, lines[..i])
    {
      pushed', error := HandleLine(partial, codec, lines[i], pushed');
      assert lines[..i + 1][..i] == lines[..i];
      if error.Some? {
        assert lines == lines[..i + 1] + lines[i + 1..];
        OnLinesAppend(codec, c, lines[..i + 1], lines[i + 1..]);
        OnLinesSticky(codec, OnLines(codec, c, lines[..i + 1]), lines[i + 1..]);
        return;
      }
    }
    assert lines[..|lines|] == lines;
  }

  const ABORTED_TEXT := "Request aborted by user"

  /**
   * The first reading of the abort signal that is set; reading k comes before chunk k, and reading n after the last.
   */
  function FirstAbort(aborted: nat -> bool, n: nat, from: nat := 0): (r: Option<nat>)
    requires from <= n
    ensures r.Some? ==> from <= r.value <= n && aborted(r.value) && forall j :: from <= j < r.value ==> !aborted(j)
    ensures r.None? ==> forall j :: from <= j <= n ==> !aborted(j)
    decreases n - from
  {
    if aborted(from) then Some(from) else if from == n then None else FirstAbort(aborted, n, from + 1)
  }

  /** The chunks that are read before the abort, if there is one. */
  function ReadBeforeAbort(chunks: seq<string>, aborted: nat -> bool): seq<string> {
    var stop := FirstAbort(aborted, |chunks|);
    if stop.Some? then chunks[..stop.value] else chunks
  }

  lemma AbortNoticed(chunks: seq<string>, aborted: nat -> bool, k: nat)
    requires k <= |chunks| && aborted(k) && forall j :: 0 <= j < k ==> !aborted(j)
    ensures FirstAbort(aborted, |chunks|) == Some(k) && ReadBeforeAbort(chunks, aborted) == chunks[..k]
  {
  }

  lemma NoAbortNoticed(chunks: seq<string>, aborted: nat -> bool)
    requires forall j :: 0 <= j <= |chunks| ==> !aborted(j)
    ensures FirstAbort(aborted, |chunks|) == None && ReadBeforeAbort(chunks, aborted) == chunks
  {
  }

  /** What the read loop throws: the first bad line of what was read, or else the abort. */
  function Thrown(c: Client, stop: Option<nat>): Option<string> {
    if c.error.Some? then c.error else if stop.Some? then Some(ABORTED_TEXT) else None
  }

  /** One chunk: the lines it completes are handled, and what follows the last newline is carried on. */
  method HandleChunk(partial: PartialMessage, codec: Codec, ghost text: string, buffer: string, chunk: string,
                     pushed: seq<Push>)
    returns (pushed': seq<Push>, error: Option<string>, buffer': string)
    requires buffer == Rest(text)
    requires Client(partial.View(), pushed, None) == OnLines(codec, FRESH, Complete(text))
    modifies partial
    ensures buffer' == Rest(text + chunk)
    ensures Client(partial.View(), pushed', error) == OnLines(codec, FRESH, Complete(text + chunk))
  {
    ChunkStep(text, chunk);
    var lines := Split(buffer + chunk);
    buffer' := Last(lines);
    pushed', error := HandleLines(partial, codec, Front(lines), pushed);
    OnLinesAppend(codec, FRESH, Complete(text), Front(lines));
  }

  lemma OneMoreChunk(chunks: seq<string>, k: nat)
    requires k < |chunks|
    ensures Concat(chunks[..k + 1]) == Concat(chunks[..k]) + chunks[k]
  {
    assert chunks[..k + 1][..k] == chunks[..k];
  }

  /** The read loop, up to its end or to what it throws. */
  method ReadChunks(partial: PartialMessage, codec: Codec, chunks: seq<string>, aborted: nat -> bool)
    returns (pushed: seq<Push>, error: Option<string>, buffer: string)
    requires partial.View() == BLANK
    modifies partial
    ensures var text := Concat(ReadBeforeAbort(chunks, aborted));
            var c := OnLines(codec, FRESH, Complete(text));
            && error == Thrown(c, FirstAbort(aborted, |chunks|))
            && partial.View() == c.partial && pushed == c.pushed
            && (error.None? ==> buffer == Rest(text))
  {
    pushed, error, buffer := [], None, "";
    for k := 0 to |chunks|
      invariant error.None? && buffer == Rest(Concat(chunks[..k]))
      invariant forall j :: 0 <= j < k ==> !aborted(j)
      invariant Client(partial.View(), pushed, error) == OnLines(codec, FRESH, Complete(Concat(chunks[..k])))
    {
      if aborted(k) {
        AbortNoticed(chunks, aborted, k);
        return pushed, Some(ABORTED_TEXT), buffer;
      }
      OneMoreChunk(chunks, k);
      pushed, error, buffer := HandleChunk(partial, codec, Concat(chunks[..k]), buffer, chunks[k], pushed);
      if error.Some? {
        ErrorBeforeAbort(codec, chunks, aborted, k + 1);
        return;
      }
    }
    assert chunks[..|chunks|] == chunks;
    if aborted(|chunks|) {
      AbortNoticed(chunks, aborted, |chunks|);
      error := Some(ABORTED_TEXT);
    } else {
      NoAbortNoticed(chunks, aborted);
    }
  }

  /**
   * Chunking invariance: the message, the pushes and the error depend on the concatenated text alone, namely on its
   * complete lines; without an error, what is still in the buffer is exactly the text after the last newline. An abort
   * cuts the text where it is noticed. `abortedLate` is the reading of the signal in the catch clause.
   */
  method ReadStream(codec: Codec, chunks: seq<string>, aborted: nat -> bool, abortedLate: bool)
    returns (partial: PartialMessage, pushed: seq<Push>, error: Option<string>, buffer: string)
    ensures fresh(partial)
    ensures var text := Concat(ReadBeforeAbort(chunks, aborted));
            var c := OnLines(codec, FRESH, Complete(text));
            var reason := if abortedLate then "aborted" else "error";
            && error == Thrown(c, FirstAbort(aborted, |chunks|))
            && (error.None? ==> partial.View() == c.partial && pushed == c.pushed && buffer == Rest(text))
            && (error.Some? ==>
                  && partial.View() == c.partial.(stopReason := reason, errorMessage := error)
                  && pushed == c.pushed + [PushFailure(reason, error.value)])
  {
    partial := new PartialMessage();
    pushed, error, buffer := ReadChunks(partial, codec, chunks, aborted);
    if error.Some? {
      var reason := if abortedLate then "aborted" else "error";
      partial.Fail(reason, error.value);
      pushed := pushed + [PushFailure(reason, error.value)];
    }
  }

  /** A bad line in the first `k` chunks is found whatever the abort signal does later. */
  lemma ErrorBeforeAbort(codec: Codec, chunks: seq<string>, aborted: nat -> bool, k: nat)
    requires k <= |chunks| && OnLines(codec, FRESH, Complete(Concat(chunks[..k]))).error.Some?
    requires forall j :: 0 <= j < k ==> !aborted(j)
    ensures OnLines(codec, FRESH, Complete(Concat(ReadBeforeAbort(chunks, aborted))))
         == OnLines(codec, FRESH, Complete(Concat(chunks[..k])))
  {
    var read := ReadBeforeAbort(chunks, aborted);
    assert k <= |read| && read[..k] == chunks[..k];
    ErrorIsFinal(codec, read, k);
  }

  /** Chunks after the one that threw add nothing. */
  lemma ErrorIsFinal(codec: Codec, chunks: seq<string>, k: nat)
    requires k <= |chunks| && OnLines(codec, FRESH, Complete(Concat(chunks[..k]))).error.Some?
    ensures OnLines(codec, FRESH, Complete(Concat(chunks))) == OnLines(codec, FRESH, Complete(Concat(chunks[..k])))
  {
    var text, more := Concat(chunks[..k]), Concat(chunks[k..]);
    ConcatSplits(chunks, k);
    ChunkStep(text, more);
    OnLinesAppend(codec, FRESH, Complete(text), Complete(Rest(text) + more));
    OnLinesSticky(codec, OnLines(codec, FRESH, Complete(text)), Complete(Rest(text) + more));
  }

  lemma {:induction false} ConcatSplits(chunks: seq<string>, k: nat)
    requires k <= |chunks|
    ensures Concat(chunks) == Concat(chunks[..k]) + Concat(chunks[k..])
  {
    if k == |chunks| {
      assert chunks[..k] == chunks;
    } else {
      var front := chunks[..|chunks| - 1];
      ConcatSplits(front, k);
      assert front[..k] == chunks[..k];
      assert chunks[k..][..|chunks[k..]| - 1] == front[k..];
    }
  }

  // ----- From text to blocks -----

  /** The event a line carries, if it carries one. */
  function Carried(codec: Codec, line: string): seq<ProxyEvent> {
    if !(DATA <= line) || Trim(line[|DATA|..]) == "" then []
    else match codec.decode(Trim(line[|DATA|..]))
      case Ok(e) => [e]
      case Bad(_) => []
  }

  function CarriedBy(codec: Codec, lines: seq<string>): seq<ProxyEvent> {
    if lines == [] then [] else CarriedBy(codec, lines[..|lines| - 1]) + Carried(codec, lines[|lines| - 1])
  }

  /** One line more: it changes the message exactly as the event it carries does. */
  lemma OneMoreLine(codec: Codec, c: Client, line: string)
    requires c.error.None? && OnLine(codec, c, line).error.None?
    ensures var carried := Carried(codec, line);
            || (carried == [] && OnLine(codec, c, line).partial == c.partial)
            || (|carried| == 1 && Apply(codec.parse, c.partial, carried[0]) == Ok(OnLine(codec, c, line).partial))
  {
  }

  lemma ApplyAllAppend(parse: string -> string, p: Partial, events: seq<ProxyEvent>, more: seq<ProxyEvent>)
    requires |more| <= 1 && ApplyAll(parse, p, events).Ok?
    ensures ApplyAll(parse, p, events + more)
         == if more == [] then ApplyAll(parse, p, events) else Apply(parse, ApplyAll(parse, p, events).value, more[0])
  {
    if more == [] {
      assert events + more == events;
    } else {
      assert (events + more)[..|events|] == events;
    }
  }

  /** The message read from lines without an error is the one their events rebuild. */
  lemma {:induction false} LinesRebuild(codec: Codec, lines: seq<string>)
    ensures var c := OnLines(codec, FRESH, lines);
            c.error.None? ==> ApplyAll(codec.parse, BLANK, CarriedBy(codec, lines)) == Ok(c.partial)
  {
    if lines != [] && OnLines(codec, FRESH, lines).error.None? {
      var front, line := lines[..|lines| - 1], lines[|lines| - 1];
      LinesRebuild(codec, front);
      OneMoreLine(codec, OnLines(codec, FRESH, front), line);
      ApplyAllAppend(codec.parse, BLANK, CarriedBy(codec, front), Carried(codec, line));
    }
  }

  /** End to end: every block of a message read from any chunks is made of its own events in the text. */
  lemma BlocksFromText(codec: Codec, chunks: seq<string>, i: int)
    ensures var lines := Complete(Concat(chunks));
            var c := OnLines(codec, FRESH, lines);
            c.error.None? ==>
              Rebuilt(codec.parse, None, Own(CarriedBy(codec, lines), i)) == Ok(At(c.partial.content, i))
  {
    var lines := Complete(Concat(chunks));
    LinesRebuild(codec, lines);
    BlocksAreIndependent(codec.parse, CarriedBy(codec, lines), i);
  }

  /**
   * Reconstruction, end to end: every block of a message read from any chunks has a last start among its events in the
   * text, and is the concatenation of its deltas since then; a tool call's arguments are the parse of that
   * concatenation.
   */
  lemma BlockIsItsDeltas(codec: Codec, chunks: seq<string>, i: int) returns (k: nat)
    requires OnLines(codec, FRESH, Complete(Concat(chunks))).error.None?
    requires i in OnLines(codec, FRESH, Complete(Concat(chunks))).partial.content
    ensures var lines := Complete(Concat(chunks));
            var own := Own(CarriedBy(codec, lines), i);
            && LastStart(own, k)
            && (OneBlockLong(own[k + 1..]) ==>
                 Collected(codec.parse, own[k], own[k + 1..], OnLines(codec, FRESH, lines).partial.content[i]))
  {
    BlocksFromText(codec, chunks, i);
    var own := Own(CarriedBy(codec, Complete(Concat(chunks))), i);
    k := BlockHasStart(codec.parse, own);
    if OneBlockLong(own[k + 1..]) {
      RebuiltFromLastStart(codec.parse, own, k);
    }
  }

  /** Data lines carry what their decoded rest says; blank ones and other lines carry nothing. */
  lemma CarriedIs(codec: Codec, line: string)
    ensures !("data: " <= line) ==> Carried(codec, line) == []
    ensures forall rest :: line == "data: " + rest && Trim(rest) == "" ==> Carried(codec, line) == []
    ensures forall rest, e :: line == "data: " + rest && Trim(rest) != "" && codec.decode(Trim(rest)) == Ok(e) ==>
              Carried(codec, line) == [e]
  {
    forall rest | line == "data: " + rest ensures line[6..] == rest {
    }
  }

  /** Why a line stops the reading: it does not decode, or it carries an event that misfits those before it. */
  ghost predicate StopsAt(codec: Codec, before: seq<ProxyEvent>, line: string, message: string) {
    "data: " <= line && Trim(line[6..]) != "" &&
    match codec.decode(Trim(line[6..]))
    case Bad(m) => message == m
    case Ok(e) => e.OnBlock? && Misfit(Own(before, e.index), e.change) && SaysMisfit(e.change, message)
  }

  /** What a reading of lines without an error has told and made of the events on them. */
  ghost predicate ReadsWell(codec: Codec, events: seq<ProxyEvent>, c: Client) {
    c.error.None? && ApplyAll(codec.parse, BLANK, events) == Ok(c.partial) &&
    c.pushed == Told(codec.parse, events) && EndsAsTold(events, c.partial)
  }

  /** One line more after lines that were read well: it stops the reading for a reason, or is read well too. */
  lemma OneMoreLineTells(codec: Codec, c: Client, before: seq<ProxyEvent>, line: string)
    requires ReadsWell(codec, before, c)
    ensures var c' := OnLine(codec, c, line);
            if c'.error.Some? then c' == c.(error := c'.error) && StopsAt(codec, before, line, c'.error.value)
            else ReadsWell(codec, before + Carried(codec, line), c')
    ensures forall m :: StopsAt(codec, before, line, m) ==> OnLine(codec, c, line).error.Some?
  {
    if !("data: " <= line) || Trim(line[6..]) == "" {
      assert before + [] == before;
    } else if codec.decode(Trim(line[6..])).Ok? {
      var e := codec.decode(Trim(line[6..])).value;
      RejectedIffMisfit(codec.parse, before, e);
      assert (before + [e])[..|before|] == before;
      if Apply(codec.parse, c.partial, e).Ok? {
        ToldStep(codec.parse, before, e);
        MessageEndsAsTold(codec.parse, before + [e]);
      }
    }
  }

  /** Lines read without an error are read well. */
  lemma {:induction false} WithoutErrorReadsWell(codec: Codec, lines: seq<string>)
    requires OnLines(codec, FRESH, lines).error.None?
    ensures ReadsWell(codec, CarriedBy(codec, lines), OnLines(codec, FRESH, lines))
    decreases |lines|
  {
    if lines == [] {
      MessageEndsAsTold(codec.parse, []);
    } else {
      var front := lines[..|lines| - 1];
      WithoutErrorReadsWell(codec, front);
      OneMoreLineTells(codec, OnLines(codec, FRESH, front), CarriedBy(codec, front), lines[|lines| - 1]);
    }
  }

  /** How many lines are read before the first error. */
  lemma {:induction false} FirstBadLine(codec: Codec, lines: seq<string>) returns (k: nat)
    ensures k <= |lines| && (k < |lines| <==> OnLines(codec, FRESH, lines).error.Some?)
    ensures forall j | 0 <= j <= k :: OnLines(codec, FRESH, lines[..j]).error.None?
    ensures k < |lines| ==>
      OnLines(codec, FRESH, lines) == OnLine(codec, OnLines(codec, FRESH, lines[..k]), lines[k])
    decreases |lines|
  {
    if lines == [] {
      k := 0;
    } else {
      var last := |lines| - 1;
      k := FirstBadLine(codec, lines[..last]);
      forall j | 0 <= j <= last ensures lines[..last][..j] == lines[..j] {
      }
      if k == last && OnLines(codec, FRESH, lines).error.None? {
        k := |lines|;
        assert lines[..k] == lines;
      }
    }
  }

  /** A line that was read without an error was no reason to stop. */
  lemma NoReasonToStop(codec: Codec, lines: seq<string>, j: nat)
    requires j < |lines| && OnLines(codec, FRESH, lines[..j]).error.None?
    requires OnLines(codec, FRESH, lines[..j + 1]).error.None?
    ensures forall m :: !StopsAt(codec, CarriedBy(codec, lines[..j]), lines[j], m)
  {
    WithoutErrorReadsWell(codec, lines[..j]);
    OneMoreLineTells(codec, OnLines(codec, FRESH, lines[..j]), CarriedBy(codec, lines[..j]), lines[j]);
    assert lines[..j + 1][..j] == lines[..j];
  }

  /** The first `k` lines were read well, and the next one, if there is one, stopped the reading. */
  ghost predicate TellsUpTo(codec: Codec, lines: seq<string>, k: nat, c: Client) {
    && k <= |lines| && (k < |lines| <==> c.error.Some?)
    && ReadsWell(codec, CarriedBy(codec, lines[..k]), c.(error := None))
    && (k < |lines| ==> StopsAt(codec, CarriedBy(codec, lines[..k]), lines[k], c.error.value))
    && (forall j, m | 0 <= j < k :: !StopsAt(codec, CarriedBy(codec, lines[..j]), lines[j], m))
  }

  /**
   * Reading lines: the events on the lines before the first one that stops the reading, or on all of them, decide what
   * was told and what the message is.
   */
  lemma LinesTell(codec: Codec, lines: seq<string>) returns (k: nat)
    ensures TellsUpTo(codec, lines, k, OnLines(codec, FRESH, lines))
  {
    k := FirstBadLine(codec, lines);
    WithoutErrorReadsWell(codec, lines[..k]);
    forall j, m | 0 <= j < k ensures !StopsAt(codec, CarriedBy(codec, lines[..j]), lines[j], m) {
      NoReasonToStop(codec, lines, j);
    }
    if k < |lines| {
      OneMoreLineTells(codec, OnLines(codec, FRESH, lines[..k]), CarriedBy(codec, lines[..k]), lines[k]);
    } else {
      assert lines[..k] == lines;
    }
  }
}
