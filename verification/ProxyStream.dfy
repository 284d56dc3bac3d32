/**
 * The client side of the streaming proxy: decoded chunks are cut into lines, the data lines carry events without the
 * partial message, and the client rebuilds that message block by block.
 */
module ProxyStream {
  import opened Common

  datatype Outcome<+T> = Ok(value: T) | Bad(message: string)

  datatype Block =
    | TextBlock(text: string, signature: Option<string>)
    | ThinkingBlock(thinking: string, signature: Option<string>)
    | ToolBlock(id: string, name: string, arguments: string, partialJson: Option<string>)

  /** What an event does to the block it names. */
  datatype Change =
    | TextStart | TextDelta(delta: string) | TextEnd(signature: Option<string>)
    | ThinkingStart | ThinkingDelta(delta: string) | ThinkingEnd(signature: Option<string>)
    | ToolStart(id: string, name: string) | ToolDelta(delta: string) | ToolEnd

  datatype ProxyEvent =
    | Start
    | OnBlock(index: int, change: Change)
    | Done(reason: string, usage: int)
    | Failed(reason: string, message: Option<string>, usage: int)

  const EMPTY_OBJECT := "{}"

  /** One block under one change; `parse` is the streaming JSON parser. A delta after a tool call's end appends to the
      text "undefined", because the end has deleted the accumulated text. */
  function Changed(parse: string -> string, b: Option<Block>, c: Change): Outcome<Option<Block>> {
    var isText := b.Some? && b.value.TextBlock?;
    var isThinking := b.Some? && b.value.ThinkingBlock?;
    var isTool := b.Some? && b.value.ToolBlock?;
    match c
    case TextStart => Ok(Some(TextBlock("", None)))
    case TextDelta(delta) =>
      if isText then Ok(Some(b.value.(text := b.value.text + delta)))
      else Bad("Received text_delta for non-text content")
    case TextEnd(signature) =>
      if isText then Ok(Some(TextBlock(b.value.text, signature))) else Bad("Received text_end for non-text content")
    case ThinkingStart => Ok(Some(ThinkingBlock("", None)))
    case ThinkingDelta(delta) =>
      if isThinking then Ok(Some(b.value.(thinking := b.value.thinking + delta)))
      else Bad("Received thinking_delta for non-thinking content")
    case ThinkingEnd(signature) =>
      if isThinking then Ok(Some(ThinkingBlock(b.value.thinking, signature)))
      else Bad("Received thinking_end for non-thinking content")
    case ToolStart(id, name) => Ok(Some(ToolBlock(id, name, EMPTY_OBJECT, Some(""))))
    case ToolDelta(delta) =>
      if isTool then
        var json := (if b.value.partialJson.Some? then b.value.partialJson.value else "undefined") + delta;
        Ok(Some(ToolBlock(b.value.id, b.value.name, parse(json), Some(json))))
      else Bad("Received toolcall_delta for non-toolCall content")
    case ToolEnd => if isTool then Ok(Some(b.value.(partialJson := None))) else Ok(b)
  }

  /** The message being rebuilt; the content array may have holes. */
  datatype Partial = Partial(content: map<int, Block>, stopReason: string, usage: int, errorMessage: Option<string>)

  const BLANK := Partial(map[], "stop", 0, None)

  function At(content: map<int, Block>, i: int): Option<Block> {
    if i in content then Some(content[i]) else None
  }

  function Apply(parse: string -> string, p: Partial, e: ProxyEvent): Outcome<Partial> {
    match e
    case Start => Ok(p)
    case OnBlock(i, c) =>
      (match Changed(parse, At(p.content, i), c)
       case Bad(message) => Bad(message)
       case Ok(b) => Ok(if b.Some? then p.(content := p.content[i := b.value]) else p))
    case Done(reason, usage) => Ok(p.(stopReason := reason, usage := usage))
    case Failed(reason, message, usage) => Ok(p.(stopReason := reason, errorMessage := message, usage := usage))
  }

  /** What is pushed to the consumer: the event, with the block it left behind. */
  datatype Push = Push(event: ProxyEvent, block: Option<Block>) | PushFailure(reason: string, message: string)

  function Pushes(e: ProxyEvent, p: Partial): seq<Push> {
    match e
    case OnBlock(i, c) =>
      var b := At(p.content, i);
      if c.ToolEnd? && !(b.Some? && b.value.ToolBlock?) then [] else [Push(e, b)]
    case _ => [Push(e, None)]
  }

  // ----- Reconstruction -----

  function ApplyAll(parse: string -> string, p: Partial, events: seq<ProxyEvent>): Outcome<Partial> {
    if events == [] then Ok(p)
    else
      var before := ApplyAll(parse, p, events[..|events| - 1]);
      if before.Bad? then before else Apply(parse, before.value, events[|events| - 1])
  }

  /** The changes that name block `i`. */
  function Own(events: seq<ProxyEvent>, i: int): seq<Change> {
    if events == [] then []
    else
      var e := events[|events| - 1];
      Own(events[..|events| - 1], i) + (if e.OnBlock? && e.index == i then [e.change] else [])
  }

  function Rebuilt(parse: string -> string, b: Option<Block>, changes: seq<Change>): Outcome<Option<Block>> {
    if changes == [] then Ok(b)
    else
      var before := Rebuilt(parse, b, changes[..|changes| - 1]);
      if before.Bad? then before else Changed(parse, before.value, changes[|changes| - 1])
  }

  lemma RebuiltStep(parse: string -> string, b: Option<Block>, changes: seq<Change>, c: Change)
    ensures Rebuilt(parse, b, changes + [c])
         == var before := Rebuilt(parse, b, changes); if before.Bad? then before else Changed(parse, before.value, c)
  {
    assert (changes + [c])[..|changes|] == changes;
  }

  /** Each rebuilt block is what its own events make of it, whatever the events of other blocks are. */
  lemma {:induction false} BlocksAreIndependent(parse: string -> string, events: seq<ProxyEvent>, i: int)
    ensures var r := ApplyAll(parse, BLANK, events);
            r.Ok? ==> Rebuilt(parse, None, Own(events, i)) == Ok(At(r.value.content, i))
    decreases |events|
  {
    if events != [] {
      var front, e := events[..|events| - 1], events[|events| - 1];
      BlocksAreIndependent(parse, front, i);
      if ApplyAll(parse, BLANK, events).Ok? {
        ApplyAt(parse, ApplyAll(parse, BLANK, front).value, e, i);
      }
      if e.OnBlock? && e.index == i {
        RebuiltStep(parse, None, Own(front, i), e.change);
      } else {
        assert Own(events, i) == Own(front, i);
      }
    }
  }

  /** What an event does to block `i`. */
  lemma ApplyAt(parse: string -> string, p: Partial, e: ProxyEvent, i: int)
    requires Apply(parse, p, e).Ok?
    ensures if e.OnBlock? && e.index == i
            then Changed(parse, At(p.content, i), e.change) == Ok(At(Apply(parse, p, e).value.content, i))
            else At(Apply(parse, p, e).value.content, i) == At(p.content, i)
  {
  }

  /** One more event, as block `i` sees it. */
  lemma OwnStep(parse: string -> string, front: seq<ProxyEvent>, e: ProxyEvent, i: int)
    ensures var before := Rebuilt(parse, None, Own(front, i));
            Rebuilt(parse, None, Own(front + [e], i))
            == if before.Ok? && e.OnBlock? && e.index == i then Changed(parse, before.value, e.change) else before
  {
    assert (front + [e])[..|front|] == front;
    if e.OnBlock? && e.index == i {
      RebuiltStep(parse, None, Own(front, i), e.change);
    } else {
      assert Own(front + [e], i) == Own(front, i);
    }
  }

  ghost predicate SomeBlockRejected(parse: string -> string, events: seq<ProxyEvent>) {
    exists i :: Rebuilt(parse, None, Own(events, i)).Bad?
  }

  lemma RejectionStep(parse: string -> string, front: seq<ProxyEvent>, e: ProxyEvent)
    ensures SomeBlockRejected(parse, front + [e])
       <==> SomeBlockRejected(parse, front)
            || (e.OnBlock? && Rebuilt(parse, None, Own(front + [e], e.index)).Bad?)
  {
    forall i: int
      ensures Rebuilt(parse, None, Own(front, i)).Bad? ==> Rebuilt(parse, None, Own(front + [e], i)).Bad?
      ensures !(e.OnBlock? && e.index == i) ==>
        Rebuilt(parse, None, Own(front + [e], i)) == Rebuilt(parse, None, Own(front, i))
    {
      OwnStep(parse, front, e, i);
    }
  }

  /** The stream is rejected exactly when the events of one of its blocks are rejected on their own. */
  lemma {:induction false} RejectedIffSomeBlockIs(parse: string -> string, events: seq<ProxyEvent>)
    ensures ApplyAll(parse, BLANK, events).Bad? <==> SomeBlockRejected(parse, events)
    decreases |events|
  {
    if events != [] {
      var front, e := events[..|events| - 1], events[|events| - 1];
      assert events == front + [e];
      RejectedIffSomeBlockIs(parse, front);
      RejectionStep(parse, front, e);
      if e.OnBlock? {
        BlocksAreIndependent(parse, front, e.index);
        OwnStep(parse, front, e, e.index);
      }
    }
  }

  /** Reordering events of different blocks changes neither whether the stream is accepted nor any block. */
  lemma InterleavingDoesNotMatter(parse: string -> string, a: seq<ProxyEvent>, b: seq<ProxyEvent>)
    requires forall i :: Own(a, i) == Own(b, i)
    ensures ApplyAll(parse, BLANK, a).Ok? <==> ApplyAll(parse, BLANK, b).Ok?
    ensures ApplyAll(parse, BLANK, a).Ok? ==>
      ApplyAll(parse, BLANK, a).value.content == ApplyAll(parse, BLANK, b).value.content
  {
    RejectedIffSomeBlockIs(parse, a);
    RejectedIffSomeBlockIs(parse, b);
    if i :| Rebuilt(parse, None, Own(a, i)).Bad? {
      assert Own(a, i) == Own(b, i);
    }
    if i :| Rebuilt(parse, None, Own(b, i)).Bad? {
      assert Own(a, i) == Own(b, i);
    }
    if ApplyAll(parse, BLANK, a).Ok? {
      var ca, cb := ApplyAll(parse, BLANK, a).value.content, ApplyAll(parse, BLANK, b).value.content;
      forall i ensures At(ca, i) == At(cb, i) {
        BlocksAreIndependent(parse, a, i);
        BlocksAreIndependent(parse, b, i);
        assert Own(a, i) == Own(b, i);
      }
      SameBlocks(ca, cb);
    }
  }

  lemma SameBlocks(a: map<int, Block>, b: map<int, Block>)
    requires forall i :: At(a, i) == At(b, i)
    ensures a == b
  {
    forall i ensures (i in a <==> i in b) && (i in a ==> a[i] == b[i]) {
      assert At(a, i) == At(b, i);
    }
  }

  /** Rebuilding in two stretches. */
  lemma {:induction false} RebuiltAppend(parse: string -> string, b: Option<Block>, changes: seq<Change>,
                                         more: seq<Change>)
    ensures var before := Rebuilt(parse, b, changes);
            Rebuilt(parse, b, changes + more) == if before.Bad? then before else Rebuilt(parse, before.value, more)
    decreases |more|
  {
    if more == [] {
      assert changes + more == changes;
    } else {
      var front, c := more[..|more| - 1], more[|more| - 1];
      RebuiltAppend(parse, b, changes, front);
      assert changes + more == (changes + front) + [c];
      RebuiltStep(parse, b, changes + front, c);
    }
  }

  predicate Starts(c: Change) {
    c.TextStart? || c.ThinkingStart? || c.ToolStart?
  }

  /** The deltas of a stretch of changes, concatenated. */
  function Deltas(changes: seq<Change>): string {
    if changes == [] then ""
    else
      var c := changes[|changes| - 1];
      Deltas(changes[..|changes| - 1])
      + (if c.TextDelta? || c.ThinkingDelta? || c.ToolDelta? then c.delta else "")
  }

  /** The signature the last end of a text or of a thinking brought, if there is one. */
  function Signature(changes: seq<Change>): Option<string> {
    if changes == [] then None
    else
      var c := changes[|changes| - 1];
      if c.TextEnd? || c.ThinkingEnd? then c.signature else Signature(changes[..|changes| - 1])
  }

  predicate Ended(changes: seq<Change>) {
    changes != [] && (changes[|changes| - 1].ToolEnd? || Ended(changes[..|changes| - 1]))
  }

  predicate HasToolDelta(changes: seq<Change>) {
    changes != [] && (changes[|changes| - 1].ToolDelta? || HasToolDelta(changes[..|changes| - 1]))
  }

  /** No start, and no tool-call delta after a tool call's end. */
  predicate OneBlockLong(changes: seq<Change>) {
    changes == [] || (
      var front, c := changes[..|changes| - 1], changes[|changes| - 1];
      OneBlockLong(front) && !Starts(c) && !(c.ToolDelta? && Ended(front)))
  }

  /** A block has collected the concatenation of its deltas; a tool call's arguments are the parse of it. */
  ghost predicate Collected(parse: string -> string, start: Change, changes: seq<Change>, b: Block) {
    match start
    case TextStart => b.TextBlock? && b.text == Deltas(changes) && b.signature == Signature(changes)
    case ThinkingStart => b.ThinkingBlock? && b.thinking == Deltas(changes) && b.signature == Signature(changes)
    case ToolStart(id, name) =>
      && b.ToolBlock? && b.id == id && b.name == name
      && b.partialJson == (if Ended(changes) then None else Some(Deltas(changes)))
      && b.arguments == (if HasToolDelta(changes) then parse(Deltas(changes)) else "{}")
    case _ => false
  }

  /** Whatever came before, a block is made of the deltas since its last start. */
  lemma {:induction false} SinceLastStart(parse: string -> string, before: Option<Block>, start: Change,
                                          changes: seq<Change>)
    requires Starts(start) && OneBlockLong(changes)
    ensures var r := Rebuilt(parse, before, [start] + changes);
            r.Ok? ==> r.value.Some? && Collected(parse, start, changes, r.value.value)
    decreases |changes|
  {
    if changes == [] {
      assert [start] + changes == [] + [start];
      RebuiltStep(parse, before, [], start);
    } else {
      var front, c := changes[..|changes| - 1], changes[|changes| - 1];
      SinceLastStart(parse, before, start, front);
      assert [start] + changes == ([start] + front) + [c];
      RebuiltStep(parse, before, [start] + front, c);
      var r := Rebuilt(parse, before, [start] + front);
      if r.Ok? {
        CollectedStep(parse, start, changes, r.value.value);
      }
    }
  }

  /** Deltas after a tool call's end: the text collected anew begins with "undefined". */
  lemma {:induction false} AfterItsEnd(parse: string -> string, b: Block, changes: seq<Change>)
    requires b.ToolBlock? && b.partialJson == None && OneBlockLong(changes)
    ensures var r := Rebuilt(parse, Some(b), changes);
            var json := "undefined" + Deltas(changes);
            r.Ok? ==>
              r.value == Some(if !HasToolDelta(changes) then b
                              else b.(arguments := parse(json),
                                      partialJson := if Ended(changes) then None else Some(json)))
    decreases |changes|
  {
    if changes != [] {
      var front, c := changes[..|changes| - 1], changes[|changes| - 1];
      AfterItsEnd(parse, b, front);
      if Rebuilt(parse, Some(b), changes).Ok? {
        assert c.ToolDelta? || Deltas(changes) == Deltas(front);
        if c.ToolDelta? {
          Regrouped("undefined", Deltas(front), c.delta);
          if !HasToolDelta(front) {
            NoDeltasYet(parse, b, front);
          }
        }
      }
    }
  }

  lemma Regrouped(a: string, b: string, c: string)
    ensures a + (b + c) == (a + b) + c && (b == "" ==> a + b == a)
  {
  }

  /** An accepted stretch without a tool-call delta on a tool call has no deltas at all. */
  lemma {:induction false} NoDeltasYet(parse: string -> string, b: Block, changes: seq<Change>)
    requires b.ToolBlock? && OneBlockLong(changes) && !HasToolDelta(changes)
    requires Rebuilt(parse, Some(b), changes).Ok?
    ensures Deltas(changes) == "" && Rebuilt(parse, Some(b), changes).value.Some?
    ensures Rebuilt(parse, Some(b), changes).value.value.ToolBlock?
    decreases |changes|
  {
    if changes != [] {
      NoDeltasYet(parse, b, changes[..|changes| - 1]);
    }
  }

  /** The position of the last start among the changes of a block. */
  ghost predicate LastStart(changes: seq<Change>, k: nat) {
    k < |changes| && Starts(changes[k]) && forall j :: k < j < |changes| ==> !Starts(changes[j])
  }

  /** There is a block only where there was a start. */
  lemma {:induction false} BlockHasStart(parse: string -> string, changes: seq<Change>) returns (k: nat)
    requires Rebuilt(parse, None, changes).Ok? && Rebuilt(parse, None, changes).value.Some?
    ensures LastStart(changes, k)
    decreases |changes|
  {
    var front, last := changes[..|changes| - 1], |changes| - 1;
    if Starts(changes[last]) {
      k := last;
    } else {
      k := BlockHasStart(parse, front);
    }
  }

  /**
   * Reconstruction of a whole block: whatever came before, it is made of the deltas since its last start; unless tool-
   * call deltas follow the end of the tool call.
   */
  lemma RebuiltFromLastStart(parse: string -> string, changes: seq<Change>, k: nat)
    requires LastStart(changes, k) && OneBlockLong(changes[k + 1..])
    requires Rebuilt(parse, None, changes).Ok?
    ensures Rebuilt(parse, None, changes).value.Some?
    ensures Collected(parse, changes[k], changes[k + 1..], Rebuilt(parse, None, changes).value.value)
  {
    var since := [changes[k]] + changes[k + 1..];
    assert changes == changes[..k] + since;
    RebuiltAppend(parse, None, changes[..k], since);
    SinceLastStart(parse, Rebuilt(parse, None, changes[..k]).value, changes[k], changes[k + 1..]);
  }

  lemma {:induction false} CollectedStep(parse: string -> string, start: Change, changes: seq<Change>, b: Block)
    requires Starts(start) && changes != [] && OneBlockLong(changes)
    requires Collected(parse, start, changes[..|changes| - 1], b)
    ensures var r := Changed(parse, Some(b), changes[|changes| - 1]);
            r.Ok? ==> r.value.Some? && Collected(parse, start, changes, r.value.value)
  {
    var front, c := changes[..|changes| - 1], changes[|changes| - 1];
    assert Deltas(front) + "" == Deltas(front);
    match start {
      case TextStart =>
      case ThinkingStart =>
      case ToolStart(_, _) =>
        if c.ToolDelta? {
          assert !Ended(front) && b.partialJson == Some(Deltas(front));
        }
    }
  }

  // ----- What is rejected, what is pushed, and how the message ends -----

  datatype Kind = TextKind | ThinkingKind | ToolKind

  /** The kind of block a change can be applied to, if only one is. */
  function Needs(c: Change): Option<Kind> {
    if c.TextDelta? || c.TextEnd? then Some(TextKind)
    else if c.ThinkingDelta? || c.ThinkingEnd? then Some(ThinkingKind)
    else if c.ToolDelta? then Some(ToolKind)
    else None
  }

  /** The kind of the last start. */
  function KindOf(changes: seq<Change>): Option<Kind> {
    if changes == [] then None
    else
      match changes[|changes| - 1]
      case TextStart => Some(TextKind)
      case ThinkingStart => Some(ThinkingKind)
      case ToolStart(_, _) => Some(ToolKind)
      case _ => KindOf(changes[..|changes| - 1])
  }

  /** A change that needs a block of another kind than the last start of its block made. */
  predicate Misfit(before: seq<Change>, c: Change) {
    Needs(c).Some? && KindOf(before) != Needs(c)
  }

  predicate SaysMisfit(c: Change, message: string) {
    match c
    case TextDelta(_) => message == "Received text_delta for non-text content"
    case TextEnd(_) => message == "Received text_end for non-text content"
    case ThinkingDelta(_) => message == "Received thinking_delta for non-thinking content"
    case ThinkingEnd(_) => message == "Received thinking_end for non-thinking content"
    case ToolDelta(_) => message == "Received toolcall_delta for non-toolCall content"
    case _ => false
  }

  /** A block is of the kind of its last start. */
  lemma {:induction false} KindKept(parse: string -> string, changes: seq<Change>)
    requires Rebuilt(parse, None, changes).Ok?
    ensures var b := Rebuilt(parse, None, changes).value;
            && (KindOf(changes) == None <==> b == None)
            && (KindOf(changes) == Some(TextKind) <==> b.Some? && b.value.TextBlock?)
            && (KindOf(changes) == Some(ThinkingKind) <==> b.Some? && b.value.ThinkingBlock?)
            && (KindOf(changes) == Some(ToolKind) <==> b.Some? && b.value.ToolBlock?)
    decreases |changes|
  {
    if changes != [] {
      KindKept(parse, changes[..|changes| - 1]);
    }
  }

  /** A change after the ones that made a block is rejected exactly when it misfits. */
  lemma ChangeRejectedIff(parse: string -> string, changes: seq<Change>, c: Change)
    requires Rebuilt(parse, None, changes).Ok?
    ensures var r := Changed(parse, Rebuilt(parse, None, changes).value, c);
            (r.Bad? <==> Misfit(changes, c)) && (r.Bad? ==> SaysMisfit(c, r.message))
  {
    KindKept(parse, changes);
  }

  predicate MisfitAt(events: seq<ProxyEvent>, k: nat)
    requires k < |events|
  {
    events[k].OnBlock? && Misfit(Own(events[..k], events[k].index), events[k].change)
  }

  /** An event after an accepted stream is rejected exactly when it misfits. */
  lemma RejectedIffMisfit(parse: string -> string, front: seq<ProxyEvent>, e: ProxyEvent)
    requires ApplyAll(parse, BLANK, front).Ok?
    ensures var r := Apply(parse, ApplyAll(parse, BLANK, front).value, e);
            && (r.Bad? <==> e.OnBlock? && Misfit(Own(front, e.index), e.change))
            && (r.Bad? ==> SaysMisfit(e.change, r.message))
  {
    if e.OnBlock? {
      BlocksAreIndependent(parse, front, e.index);
      ChangeRejectedIff(parse, Own(front, e.index), e.change);
    }
  }

  /** A stream is accepted exactly when no event misfits; the first that does says why it is not. */
  lemma {:induction false} RejectedAtFirstMisfit(parse: string -> string, events: seq<ProxyEvent>)
    ensures ApplyAll(parse, BLANK, events).Ok? <==> forall k | 0 <= k < |events| :: !MisfitAt(events, k)
    ensures ApplyAll(parse, BLANK, events).Bad? ==>
      exists k | 0 <= k < |events| ::
        && MisfitAt(events, k) && (forall j | 0 <= j < k :: !MisfitAt(events, j))
        && SaysMisfit(events[k].change, ApplyAll(parse, BLANK, events).message)
    decreases |events|
  {
    if events != [] {
      var last := |events| - 1;
      var front := events[..last];
      RejectedAtFirstMisfit(parse, front);
      forall k | 0 <= k < last ensures MisfitAt(events, k) <==> MisfitAt(front, k) {
        assert events[..k] == front[..k];
      }
      if ApplyAll(parse, BLANK, front).Ok? {
        RejectedIffMisfit(parse, front, events[last]);
        assert MisfitAt(events, last) <==> ApplyAll(parse, BLANK, events).Bad?;
      }
    }
  }

  /**
   * What the consumer is told: every event in order, with the block that the events so far make; the end of a tool call
   * whose block is not a tool call is passed over.
   */
  function Told(parse: string -> string, events: seq<ProxyEvent>): seq<Push> {
    if events == [] then []
    else
      var before, e := Told(parse, events[..|events| - 1]), events[|events| - 1];
      if !e.OnBlock? then before + [Push(e, None)]
      else
        var b := Rebuilt(parse, None, Own(events, e.index));
        if e.change == ToolEnd && KindOf(Own(events, e.index)) != Some(ToolKind) then before
        else before + [Push(e, if b.Ok? then b.value else None)]
  }

  /** What one accepted event adds to what the consumer is told. */
  lemma ToldStep(parse: string -> string, front: seq<ProxyEvent>, e: ProxyEvent)
    requires ApplyAll(parse, BLANK, front).Ok? && Apply(parse, ApplyAll(parse, BLANK, front).value, e).Ok?
    ensures Told(parse, front + [e])
         == Told(parse, front) + Pushes(e, Apply(parse, ApplyAll(parse, BLANK, front).value, e).value)
  {
    var events := front + [e];
    assert events[..|front|] == front;
    if e.OnBlock? {
      BlocksAreIndependent(parse, events, e.index);
      KindKept(parse, Own(events, e.index));
    }
  }

  predicate Ends(e: ProxyEvent) {
    e.Done? || e.Failed?
  }

  /** The last event that ends the message gives its stop reason and usage, the last failure its error message. */
  ghost predicate EndsAsTold(events: seq<ProxyEvent>, p: Partial) {
    && (forall k | 0 <= k < |events| && Ends(events[k]) && (forall j | k < j < |events| :: !Ends(events[j])) ::
          p.stopReason == events[k].reason && p.usage == events[k].usage)
    && ((forall k | 0 <= k < |events| :: !Ends(events[k])) ==> p.stopReason == "stop" && p.usage == 0)
    && (forall k | 0 <= k < |events| && events[k].Failed? && (forall j | k < j < |events| :: !events[j].Failed?) ::
          p.errorMessage == events[k].message)
    && ((forall k | 0 <= k < |events| :: !events[k].Failed?) ==> p.errorMessage == None)
  }

  lemma {:induction false} MessageEndsAsTold(parse: string -> string, events: seq<ProxyEvent>)
    requires ApplyAll(parse, BLANK, events).Ok?
    ensures EndsAsTold(events, ApplyAll(parse, BLANK, events).value)
    decreases |events|
  {
    if events != [] {
      var front, e := events[..|events| - 1], events[|events| - 1];
      assert events == front + [e];
      MessageEndsAsTold(parse, front);
      OneMoreEnd(parse, front, e, ApplyAll(parse, BLANK, front).value, ApplyAll(parse, BLANK, events).value);
    }
  }

  lemma OneMoreEnd(parse: string -> string, front: seq<ProxyEvent>, e: ProxyEvent, before: Partial, after: Partial)
    requires EndsAsTold(front, before)
    requires Apply(parse, before, e) == Ok(after)
    ensures EndsAsTold(front + [e], after)
  {
    var events := front + [e];
    assert events[|front|] == e;
    assert forall j | 0 <= j < |front| :: events[j] == front[j];
  }
}
