/** The OpenAI to Anthropic stream translation as a transducer over the parts of each payload. */
module StreamModel {
  import opened Wrappers
  import opened Sse

  // ----- upstream payloads

  /** Token counts of a payload; a field the object lacks is None. */
  datatype Usage = Usage(promptTokens: Option<int>, completionTokens: Option<int>)

  /** One entry of a `tool_calls` delta; missing strings are empty. */
  datatype ToolFragment = ToolFragment(index: int, id: string, name: string, arguments: string)

  /** A parsed payload; missing or null strings are empty, a missing or empty usage is None. */
  datatype Payload = Payload(usage: Option<Usage>, reasoning: string, content: string,
                             toolCalls: seq<ToolFragment>, finishReason: string)

  /** What reading the data of a line gives: a JSON syntax error is skipped, while bytes that are not
      text and values that are not an object raise out of the translator. */
  datatype Parsed = Malformed | Unreadable | Json(payload: Payload)

  /** The parts of a payload in the order the translator looks at them. */
  datatype Atom =
    | Counted(usage: Usage)
    | Thinking(text: string)
    | Text(text: string)
    | Tool(fragment: ToolFragment)
    | Finish(reason: string)

  function ToolAtoms(calls: seq<ToolFragment>): seq<Atom> {
    seq(|calls|, i requires 0 <= i < |calls| => Tool(calls[i]))
  }

  function UsageAtoms(p: Payload): seq<Atom> {
    if p.usage.Some? then [Counted(p.usage.value)] else []
  }

  function ReasoningAtoms(p: Payload): seq<Atom> {
    if p.reasoning != "" then [Thinking(p.reasoning)] else []
  }

  function ContentAtoms(p: Payload): seq<Atom> {
    if p.content != "" then [Text(p.content)] else []
  }

  function FinishAtoms(p: Payload): seq<Atom> {
    if p.finishReason != "" then [Finish(p.finishReason)] else []
  }

  function AtomsOf(p: Payload): seq<Atom> {
    UsageAtoms(p) + ReasoningAtoms(p) + ContentAtoms(p) + ToolAtoms(p.toolCalls) + FinishAtoms(p)
  }

  /** One line: skipped, unreadable, or a payload. */
  function ParseLine(parse: Bytes -> Parsed, line: Bytes): Parsed {
    match DataOf(line)
    case None => Malformed
    case Some(data) => parse(data)
  }

  function LineReader(parse: Bytes -> Parsed): Bytes -> Parsed {
    line => ParseLine(parse, line)
  }

  /** The parts of the payloads of a sequence of lines, up to the first unreadable one. */
  function AtomsOfLines(read: Bytes -> Parsed, lines: seq<Bytes>): seq<Atom> {
    if lines == [] then []
    else
      match read(lines[0])
      case Unreadable => []
      case Malformed => AtomsOfLines(read, lines[1..])
      case Json(p) => AtomsOf(p) + AtomsOfLines(read, lines[1..])
  }

  predicate Breaks(read: Bytes -> Parsed, lines: seq<Bytes>) {
    exists i :: 0 <= i < |lines| && read(lines[i]).Unreadable?
  }

  // ----- downstream events

  datatype BlockKind = ThinkingBlock | TextBlock | ToolBlock

  datatype Delta = ThinkingDelta(text: string) | SignatureDelta | TextDelta(text: string) | JsonDelta(json: string)

  /** The id of a tool block: the upstream one, or one made from a number. */
  datatype BlockId = Given(id: string) | Numbered(n: int)

  datatype Event =
    | MessageStart(messageId: string, model: string)
    | BlockStart(index: int, kind: BlockKind, id: BlockId, name: string)
    | BlockDelta(index: int, delta: Delta)
    | BlockStop(index: int)
    | MessageDelta(stopReason: string, inputTokens: int, outputTokens: int)
    | MessageStop
    | ErrorEvent(message: string)

  function StopReason(finish: string): string {
    if finish == "stop" then "end_turn"
    else if finish == "length" then "max_tokens"
    else if finish == "tool_calls" then "tool_use"
    else if finish == "content_filter" then "refusal"
    else "end_turn"
  }

  function Digits(n: nat): string {
    if n < 10 then ["0123456789"[n]] else Digits(n / 10) + ["0123456789"[n % 10]]
  }

  function Decimal(n: int): string {
    if n < 0 then "-" + Digits(-n) else Digits(n)
  }

  function IdText(id: BlockId): string {
    match id
    case Given(text) => text
    case Numbered(n) => "toolu_litmoe_" + Decimal(n)
  }

  /** The number a decimal text stands for. */
  function ReadDigits(s: string): nat {
    if s == "" then 0
    else 10 * ReadDigits(s[..|s| - 1]) + (if '0' <= s[|s| - 1] <= '9' then (s[|s| - 1] - '0') as nat else 0)
  }

  lemma {:induction false} DigitsRead(n: nat)
    ensures ReadDigits(Digits(n)) == n && Digits(n) != "" && '-' !in Digits(n)
  {
    if n >= 10 {
      DigitsRead(n / 10);
      assert Digits(n)[..|Digits(n)| - 1] == Digits(n / 10);
    }
  }

  /** A made-up id is the gateway's prefix and the number in decimal, with a sign when it is negative. */
  lemma MadeUpId(n: int)
    ensures var text := IdText(Numbered(n));
            && |text| > 13 && text[..13] == "toolu_litmoe_"
            && n == (if text[13] == '-' then -(ReadDigits(text[14..]) as int) else ReadDigits(text[13..]))
  {
    DigitsRead(if n < 0 then -n else n);
    assert IdText(Numbered(n))[13..] == Decimal(n);
    if n < 0 {
      assert IdText(Numbered(n))[14..] == Digits(-n);
    }
  }

  const NO_ID := Given("")

  // ----- the transducer

  /** The local variables of the stream translator. */
  datatype Translator = Translator(
    blockOpen: bool, blockIndex: int, blockKind: BlockKind, toolBlocks: map<int, int>,
    inputTokens: int, outputTokens: int, stopReason: string)

  const START := Translator(false, -1, TextBlock, map[], 0, 0, "end_turn")

  /** The events that close the open block, if there is one. */
  function Close(t: Translator): seq<Event> {
    if !t.blockOpen then []
    else (if t.blockKind == ThinkingBlock then [BlockDelta(t.blockIndex, SignatureDelta)] else [])
         + [BlockStop(t.blockIndex)]
  }

  /** Open a block of a kind after closing the current one. */
  function Open(t: Translator, kind: BlockKind, id: BlockId, name: string): (Translator, seq<Event>) {
    var index := t.blockIndex + 1;
    (t.(blockOpen := true, blockIndex := index, blockKind := kind), Close(t) + [BlockStart(index, kind, id, name)])
  }

  function Ensure(t: Translator, kind: BlockKind): (Translator, seq<Event>) {
    if t.blockOpen && t.blockKind == kind then (t, []) else Open(t, kind, NO_ID, "")
  }

  /** The id a tool block gets from the first fragment of its call. */
  function StreamedId(f: ToolFragment): BlockId {
    if f.id != "" then Given(f.id) else Numbered(f.index)
  }

  function EnsureTool(t: Translator, f: ToolFragment): (Translator, seq<Event>) {
    if f.index in t.toolBlocks then (t, [])
    else
      var (u, opening) := Open(t, ToolBlock, StreamedId(f), f.name);
      (u.(toolBlocks := t.toolBlocks[f.index := u.blockIndex]), opening)
  }

  function Feed(t: Translator, a: Atom): (Translator, seq<Event>) {
    match a
    case Counted(usage) =>
      (t.(inputTokens := if usage.promptTokens.Some? then usage.promptTokens.value else t.inputTokens,
          outputTokens := if usage.completionTokens.Some? then usage.completionTokens.value else t.outputTokens), [])
    case Thinking(text) =>
      var (u, opening) := Ensure(t, ThinkingBlock);
      (u, opening + [BlockDelta(u.blockIndex, ThinkingDelta(text))])
    case Text(text) =>
      var (u, opening) := Ensure(t, TextBlock);
      (u.(outputTokens := u.outputTokens + 1), opening + [BlockDelta(u.blockIndex, TextDelta(text))])
    case Tool(f) =>
      var (u, opening) := EnsureTool(t, f);
      (u, opening + (if f.arguments != "" then [BlockDelta(u.toolBlocks[f.index], JsonDelta(f.arguments))] else []))
    case Finish(reason) => (t.(stopReason := StopReason(reason)), [])
  }

  function FeedAll(t: Translator, atoms: seq<Atom>): (Translator, seq<Event>) {
    if atoms == [] then (t, [])
    else
      var (u, before) := FeedAll(t, atoms[..|atoms| - 1]);
      var (v, last) := Feed(u, atoms[|atoms| - 1]);
      (v, before + last)
  }

  /** How the upstream response ends: by itself, by a transport error, or by an exception that leaves
      the translator (or a consumer that walks away). */
  datatype Ending = Complete | TransportError(message: string) | Cut

  function Finale(t: Translator, ending: Ending): seq<Event> {
    match ending
    case Complete => Close(t) + [MessageDelta(t.stopReason, t.inputTokens, t.outputTokens), MessageStop]
    case TransportError(message) => [ErrorEvent(message)]
    case Cut => []
  }

  /** Everything the client receives for a sequence of payload parts. */
  function Translation(id: string, model: string, atoms: seq<Atom>, ending: Ending): seq<Event> {
    var (t, events) := FeedAll(START, atoms);
    [MessageStart(id, model)] + events + Finale(t, ending)
  }

  /** Everything the client receives for a byte stream: it depends on the bytes, not on how they
      arrived in chunks. */
  function StreamTranslation(parse: Bytes -> Parsed, id: string, model: string, bytes: Bytes, ending: Ending): seq<Event> {
    var read, lines := LineReader(parse), Lines(bytes);
    Translation(id, model, AtomsOfLines(read, lines), if Breaks(read, lines) then Cut else ending)
  }

  // ----- composition

  lemma FeedAllSnoc(t: Translator, atoms: seq<Atom>, a: Atom, u: Translator, before: seq<Event>)
    requires FeedAll(t, atoms) == (u, before)
    ensures FeedAll(t, atoms + [a]) == (Feed(u, a).0, before + Feed(u, a).1)
  {
    assert (atoms + [a])[..|atoms|] == atoms;
  }

  /** Feeding is compositional: the second half continues where the first one stopped. */
  lemma {:induction false} FedInGroups(t: Translator, a: seq<Atom>, b: seq<Atom>,
                                       u: Translator, first: seq<Event>, v: Translator, second: seq<Event>)
    requires FeedAll(t, a) == (u, first) && FeedAll(u, b) == (v, second)
    ensures FeedAll(t, a + b) == (v, first + second)
    decreases |b|
  {
    if b == [] {
      assert a + b == a && first + [] == first;
    } else {
      var front, last := b[..|b| - 1], b[|b| - 1];
      var (w, middle) := FeedAll(u, front);
      FedInGroups(t, a, front, u, first, w, middle);
      FeedAllSnoc(t, a + front, last, w, first + middle);
      FeedAllSnoc(u, front, last, w, middle);
      assert front + [last] == b;
      Reassociate(a, front, [last]);
      Reassociate(first, middle, Feed(w, last).1);
    }
  }

  lemma FeedAllAppend(t: Translator, a: seq<Atom>, b: seq<Atom>)
    ensures var (u, first) := FeedAll(t, a);
            var (v, second) := FeedAll(u, b);
            FeedAll(t, a + b) == (v, first + second)
  {
    var (u, first) := FeedAll(t, a);
    var (v, second) := FeedAll(u, b);
    FedInGroups(t, a, b, u, first, v, second);
  }

  lemma FeedAllSingle(t: Translator, a: Atom)
    ensures FeedAll(t, [a]) == Feed(t, a)
  {
    assert [a][..0] == [];
    assert FeedAll(t, []) == (t, []);
    assert [] + Feed(t, a).1 == Feed(t, a).1;
  }

  /** A line appended to lines that can all be read. */
  lemma {:induction false} AtomsOfLinesAppend(read: Bytes -> Parsed, lines: seq<Bytes>, more: seq<Bytes>)
    requires !Breaks(read, lines)
    ensures AtomsOfLines(read, lines + more) == AtomsOfLines(read, lines) + AtomsOfLines(read, more)
    ensures Breaks(read, lines + more) <==> Breaks(read, more)
  {
    if lines == [] {
      assert lines + more == more;
    } else {
      var tail := lines[1..];
      assert !Breaks(read, tail) by {
        assert forall i :: 0 <= i < |tail| ==> tail[i] == lines[i + 1];
      }
      AtomsOfLinesAppend(read, tail, more);
      assert (lines + more)[1..] == tail + more;
      assert !read(lines[0]).Unreadable?;
      assert Breaks(read, lines + more) <==> Breaks(read, tail + more) by {
        BreaksTail(read, lines + more);
      }
      if read(lines[0]).Json? {
        var p := AtomsOf(read(lines[0]).payload);
        assert p + (AtomsOfLines(read, tail) + AtomsOfLines(read, more))
               == (p + AtomsOfLines(read, tail)) + AtomsOfLines(read, more);
      }
    }
  }

  lemma BreaksTail(read: Bytes -> Parsed, lines: seq<Bytes>)
    requires lines != []
    ensures Breaks(read, lines) <==> read(lines[0]).Unreadable? || Breaks(read, lines[1..])
  {
    var tail := lines[1..];
    if i :| 0 <= i < |tail| && read(tail[i]).Unreadable? {
      assert read(lines[i + 1]).Unreadable?;
    }
    if i :| 0 <= i < |lines| && read(lines[i]).Unreadable? {
      assert i > 0 ==> read(tail[i - 1]).Unreadable?;
    }
  }
}
