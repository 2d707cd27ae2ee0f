/** From the bytes on the wire to the client, payload by payload: what a client of the stream receives
    for payloads sent as `data:` lines, with blank, foreign, broken and `[DONE]` lines between them. */
module StreamWire {
  import opened Sse
  import opened Wrappers
  import opened StreamModel
  import opened StreamGrammar
  import opened StreamContent

  // ----- what is sent

  /** White space without a newline. */
  predicate Blank(s: Bytes) {
    forall i :: 0 <= i < |s| ==> s[i] in {9, 11, 12, 13, 32}
  }

  predicate White(b: byte) { b in {9, 10, 11, 12, 13, 32} }

  /** A line's own text: no newline, no white space at its ends. */
  predicate Trimmed(s: Bytes) {
    NEWLINE !in s && (s != [] ==> !White(s[0]) && !White(s[|s| - 1]))
  }

  /** The bytes of `data:` and of `[DONE]`. */
  const DATA_FIELD: Bytes := [100, 97, 116, 97, 58]
  const DONE_MARK: Bytes := [91, 68, 79, 78, 69, 93]

  /** A line of the upstream response, without its newline. */
  datatype WireLine =
    | PayloadLine(payload: Payload, left: Bytes, middle: Bytes, text: Bytes, right: Bytes)
    | BrokenLine(left: Bytes, middle: Bytes, text: Bytes, right: Bytes)
    | UnreadableLine(left: Bytes, middle: Bytes, text: Bytes, right: Bytes)
    | DoneLine(left: Bytes, middle: Bytes, right: Bytes)
    | ForeignLine(left: Bytes, text: Bytes, right: Bytes)

  function LineBytes(l: WireLine): Bytes {
    match l
    case PayloadLine(_, left, middle, text, right) => left + DATA_FIELD + middle + text + right
    case BrokenLine(left, middle, text, right) => left + DATA_FIELD + middle + text + right
    case UnreadableLine(left, middle, text, right) => left + DATA_FIELD + middle + text + right
    case DoneLine(left, middle, right) => left + DATA_FIELD + middle + DONE_MARK + right
    case ForeignLine(left, text, right) => left + text + right
  }

  /** A payload line carries text that parses to its payload, a broken one text that is no JSON, an
      unreadable one what makes the translator raise, and a foreign one (a comment, another field,
      nothing at all) does not start with `data:`. */
  predicate Sendable(parse: Bytes -> Parsed, l: WireLine) {
    match l
    case PayloadLine(p, left, middle, text, right) =>
      Blank(left) && Blank(middle) && Blank(right) && Trimmed(text) && text != [] && text != DONE_MARK
        && parse(text) == Json(p)
    case BrokenLine(left, middle, text, right) =>
      Blank(left) && Blank(middle) && Blank(right) && Trimmed(text) && parse(text) == Malformed
    case UnreadableLine(left, middle, text, right) =>
      Blank(left) && Blank(middle) && Blank(right) && Trimmed(text) && text != DONE_MARK && parse(text) == Unreadable
    case DoneLine(left, middle, right) => Blank(left) && Blank(middle) && Blank(right)
    case ForeignLine(left, text, right) => Blank(left) && Blank(right) && Trimmed(text) && !(DATA_FIELD <= text)
  }

  function Body(lines: seq<WireLine>): Bytes {
    if lines == [] then [] else LineBytes(lines[0]) + [NEWLINE] + Body(lines[1..])
  }

  function PayloadOf(l: WireLine): seq<Payload> {
    if l.PayloadLine? then [l.payload] else []
  }

  /** The payloads the translator gets to: those before the first unreadable line. */
  function Payloads(lines: seq<WireLine>): seq<Payload> {
    if lines == [] || lines[0].UnreadableLine? then []
    else PayloadOf(lines[0]) + Payloads(lines[1..])
  }

  predicate BreaksOff(lines: seq<WireLine>) {
    exists i :: 0 <= i < |lines| && lines[i].UnreadableLine?
  }

  // ----- what the payloads say

  function ContentOf(p: Payload): string { p.content }

  function ReasoningOf(p: Payload): string { p.reasoning }

  function CallArguments(calls: seq<ToolFragment>, x: int): string {
    if calls == [] then ""
    else CallArguments(calls[..|calls| - 1], x)
         + (if calls[|calls| - 1].index == x then calls[|calls| - 1].arguments else "")
  }

  function CallsFor(x: int): Payload -> string {
    (p: Payload) => CallArguments(p.toolCalls, x)
  }

  /** All texts, all thoughts, and all arguments for one tool index, in order. */
  function Contents(ps: seq<Payload>): string { FlatMap(ContentOf, ps) }

  function Reasonings(ps: seq<Payload>): string { FlatMap(ReasoningOf, ps) }

  function ArgumentsOf(ps: seq<Payload>, x: int): string { FlatMap(CallsFor(x), ps) }

  predicate Calls(ps: seq<Payload>, x: int) {
    exists i, j :: 0 <= i < |ps| && 0 <= j < |ps[i].toolCalls| && ps[i].toolCalls[j].index == x
  }

  /** The last prompt count. */
  function PromptTokens(ps: seq<Payload>): int {
    if ps == [] then 0
    else
      var p := ps[|ps| - 1];
      if p.usage.Some? && p.usage.value.promptTokens.Some? then p.usage.value.promptTokens.value
      else PromptTokens(ps[..|ps| - 1])
  }

  /** The last completion count, and one for each text sent with it or after it. */
  function CompletionTokens(ps: seq<Payload>): int {
    if ps == [] then 0
    else
      var p := ps[|ps| - 1];
      (if p.usage.Some? && p.usage.value.completionTokens.Some? then p.usage.value.completionTokens.value
       else CompletionTokens(ps[..|ps| - 1])) + (if p.content != "" then 1 else 0)
  }

  /** The last finish reason, empty when there is none. */
  function FinishReason(ps: seq<Payload>): string {
    if ps == [] then ""
    else if ps[|ps| - 1].finishReason != "" then ps[|ps| - 1].finishReason
    else FinishReason(ps[..|ps| - 1])
  }

  // ----- what the client receives

  function TextIn(e: Event): string {
    if e.BlockDelta? && e.delta.TextDelta? then e.delta.text else ""
  }

  function ThoughtIn(e: Event): string {
    if e.BlockDelta? && e.delta.ThinkingDelta? then e.delta.text else ""
  }

  function JsonIn(block: int): Event -> string {
    (e: Event) => if e.BlockDelta? && e.index == block && e.delta.JsonDelta? then e.delta.json else ""
  }

  /** All texts, all thoughts, and all JSON of one block, in order. */
  function Texts(events: seq<Event>): string { FlatMap(TextIn, events) }

  function Thoughts(events: seq<Event>): string { FlatMap(ThoughtIn, events) }

  function JsonOf(events: seq<Event>, block: int): string { FlatMap(JsonIn(block), events) }

  // ----- reading one line

  lemma {:induction false} StripLeftBlank(left: Bytes, s: Bytes)
    requires Blank(left) && (s != [] ==> !White(s[0]))
    ensures StripLeft(left + s) == s
  {
    if left == [] {
      assert left + s == s;
    } else {
      assert (left + s)[1..] == left[1..] + s;
      StripLeftBlank(left[1..], s);
    }
  }

  lemma {:induction false} StripRightBlank(s: Bytes, right: Bytes)
    requires Blank(right) && (s != [] ==> !White(s[|s| - 1]))
    ensures StripRight(s + right) == s
  {
    if right == [] {
      assert s + right == s;
    } else {
      assert (s + right)[..|s + right| - 1] == s + right[..|right| - 1];
      StripRightBlank(s, right[..|right| - 1]);
    }
  }

  lemma StripsTo(left: Bytes, s: Bytes, right: Bytes)
    requires Blank(left) && Blank(right) && Trimmed(s)
    ensures Strip(left + s + right) == s
  {
    if s == [] {
      assert left + s + right == (left + right) + [];
      StripLeftBlank(left + right, []);
    } else {
      assert left + s + right == left + (s + right);
      StripLeftBlank(left, s + right);
      StripRightBlank(s, right);
    }
  }

  /** The data of a `data:` line is its text. */
  lemma FieldStrips(left: Bytes, middle: Bytes, text: Bytes, right: Bytes)
    requires Blank(left) && Blank(middle) && Blank(right) && Trimmed(text)
    ensures DataOf(left + DATA_FIELD + middle + text + right) == if text == DONE_MARK then None else Some(text)
  {
    var line := left + DATA_FIELD + middle + text + right;
    if text == [] {
      assert line == left + DATA_FIELD + (middle + right);
      StripsTo(left, DATA_FIELD, middle + right);
      StripsTo([], [], []);
      assert DATA_FIELD[5..] == [] + [] + [];
    } else {
      var core := DATA_FIELD + middle + text;
      assert line == left + core + right;
      StripsTo(left, core, right);
      assert core[..5] == DATA_FIELD && core[5..] == middle + text + [];
      StripsTo(middle, text, []);
    }
  }

  lemma ForeignStrips(left: Bytes, text: Bytes, right: Bytes)
    requires Blank(left) && Blank(right) && Trimmed(text) && !(DATA_FIELD <= text)
    ensures DataOf(left + text + right) == None
  {
    StripsTo(left, text, right);
  }

  lemma NoNewline(l: WireLine, parse: Bytes -> Parsed)
    requires Sendable(parse, l)
    ensures NEWLINE !in LineBytes(l)
  {}

  lemma LineIsRead(parse: Bytes -> Parsed, l: WireLine)
    requires Sendable(parse, l)
    ensures ParseLine(parse, LineBytes(l))
            == if l.PayloadLine? then Json(l.payload) else if l.UnreadableLine? then Unreadable else Malformed
  {
    match l
    case PayloadLine(_, left, middle, text, right) => FieldStrips(left, middle, text, right);
    case BrokenLine(left, middle, text, right) => FieldStrips(left, middle, text, right);
    case UnreadableLine(left, middle, text, right) => FieldStrips(left, middle, text, right);
    case DoneLine(left, middle, right) => FieldStrips(left, middle, DONE_MARK, right);
    case ForeignLine(left, text, right) => ForeignStrips(left, text, right);
  }

  // ----- reading all lines

  function AllAtoms(ps: seq<Payload>): seq<Atom> { FlatMap(AtomsOf, ps) }

  lemma LineOfBody(parse: Bytes -> Parsed, l: WireLine, rest: Bytes, ps: seq<Payload>, breaks: bool)
    requires Sendable(parse, l) && (Breaks(LineReader(parse), Lines(rest)) <==> breaks)
    requires AtomsOfLines(LineReader(parse), Lines(rest)) == AllAtoms(ps)
    ensures var read, all := LineReader(parse), Lines(LineBytes(l) + [NEWLINE] + rest);
            && (Breaks(read, all) <==> l.UnreadableLine? || breaks)
            && AtomsOfLines(read, all) == AllAtoms(if l.UnreadableLine? then [] else PayloadOf(l) + ps)
  {
    NoNewline(l, parse);
    LineIsRead(parse, l);
    FirstLine(LineBytes(l), rest);
    OneLineIsRead(LineReader(parse), LineBytes(l), Lines(rest));
    if l.PayloadLine? {
      AllAtomsCons(l.payload, ps);
    } else {
      assert [] + ps == ps && [] + AllAtoms(ps) == AllAtoms(ps);
    }
  }

  lemma BreaksOffTail(lines: seq<WireLine>)
    requires lines != []
    ensures BreaksOff(lines) <==> lines[0].UnreadableLine? || BreaksOff(lines[1..])
  {
    if i :| 0 <= i < |lines[1..]| && lines[1..][i].UnreadableLine? {
      assert lines[i + 1].UnreadableLine?;
    }
    if i :| 0 <= i < |lines| && lines[i].UnreadableLine? {
      assert i > 0 ==> lines[1..][i - 1].UnreadableLine?;
    }
  }

  lemma {:induction false} BodyIsRead(parse: Bytes -> Parsed, lines: seq<WireLine>, tail: Bytes)
    requires NEWLINE !in tail && forall i :: 0 <= i < |lines| ==> Sendable(parse, lines[i])
    ensures var read, all := LineReader(parse), Lines(Body(lines) + tail);
            (Breaks(read, all) <==> BreaksOff(lines)) && AtomsOfLines(read, all) == AllAtoms(Payloads(lines))
  {
    if lines == [] {
      assert Body(lines) + tail == tail;
      Unbroken(tail);
    } else {
      BodyIsRead(parse, lines[1..], tail);
      LineOfBody(parse, lines[0], Body(lines[1..]) + tail, Payloads(lines[1..]), BreaksOff(lines[1..]));
      BreaksOffTail(lines);
      Reassociate(LineBytes(lines[0]) + [NEWLINE], Body(lines[1..]), tail);
    }
  }

  lemma OneLineIsRead(read: Bytes -> Parsed, line: Bytes, more: seq<Bytes>)
    ensures Breaks(read, [line] + more) <==> read(line).Unreadable? || Breaks(read, more)
    ensures AtomsOfLines(read, [line] + more)
            == match read(line)
               case Unreadable => []
               case Malformed => AtomsOfLines(read, more)
               case Json(p) => AtomsOf(p) + AtomsOfLines(read, more)
  {
    assert ([line] + more)[1..] == more;
    BreaksTail(read, [line] + more);
  }

  lemma FlatMapOne<A, B>(f: A -> seq<B>, x: A)
    ensures FlatMap(f, [x]) == f(x)
  {
    assert [x][..0] == [];
    assert FlatMap(f, [x][..0]) == [];
  }

  lemma AllAtomsCons(p: Payload, ps: seq<Payload>)
    ensures AllAtoms([p] + ps) == AtomsOf(p) + AllAtoms(ps)
  {
    FlatMapAppend(AtomsOf, [p], ps);
    FlatMapOne(AtomsOf, p);
  }

  // ----- texts, thoughts and arguments

  /** Mapping twice is mapping once with the composition. */
  lemma {:induction false} FlatMapTwice<A(!new), B, C>(f: A -> seq<B>, g: B -> seq<C>, h: A -> seq<C>, xs: seq<A>)
    requires forall x :: FlatMap(g, f(x)) == h(x)
    ensures FlatMap(g, FlatMap(f, xs)) == FlatMap(h, xs)
  {
    if xs != [] {
      var front, last := xs[..|xs| - 1], xs[|xs| - 1];
      FlatMapTwice(f, g, h, front);
      FlatMapAppend(g, FlatMap(f, front), f(last));
      assert FlatMap(g, f(last)) == h(last);
    }
  }

  function PieceText(p: Piece): string { if p.TextPiece? then p.text else "" }

  function PieceThought(p: Piece): string { if p.ThinkingPiece? then p.text else "" }

  function PieceJson(block: int): Piece -> string {
    (p: Piece) => if p.ArgumentsPiece? && p.block == block then p.json else ""
  }

  lemma PieceOfEvent(e: Event, block: int)
    ensures FlatMap(PieceText, PieceOf(e)) == TextIn(e) && FlatMap(PieceThought, PieceOf(e)) == ThoughtIn(e)
    ensures FlatMap(PieceJson(block), PieceOf(e)) == JsonIn(block)(e)
  {
    if PieceOf(e) != [] {
      FlatMapOne(PieceText, PieceOf(e)[0]);
      FlatMapOne(PieceThought, PieceOf(e)[0]);
      FlatMapOne(PieceJson(block), PieceOf(e)[0]);
    }
  }

  lemma {:induction false} AllArgumentsAre(pieces: seq<Piece>, block: int)
    ensures AllArguments(pieces, block) == FlatMap(PieceJson(block), pieces)
  {
    if pieces != [] {
      AllArgumentsAre(pieces[..|pieces| - 1], block);
    }
  }

  lemma EventsArePieces(events: seq<Event>, block: int)
    ensures Texts(events) == FlatMap(PieceText, Received(events))
    ensures Thoughts(events) == FlatMap(PieceThought, Received(events))
    ensures JsonOf(events, block) == AllArguments(Received(events), block)
  {
    forall e: Event
      ensures FlatMap(PieceText, PieceOf(e)) == TextIn(e) && FlatMap(PieceThought, PieceOf(e)) == ThoughtIn(e)
      ensures FlatMap(PieceJson(block), PieceOf(e)) == JsonIn(block)(e)
    {
      PieceOfEvent(e, block);
    }
    FlatMapTwice(PieceOf, PieceText, TextIn, events);
    FlatMapTwice(PieceOf, PieceThought, ThoughtIn, events);
    FlatMapTwice(PieceOf, PieceJson(block), JsonIn(block), events);
    AllArgumentsAre(Received(events), block);
  }

  /** The text, the thought and the arguments for `x` in a part. */
  function AtomText(a: Atom): string { if a.Text? then a.text else "" }

  function AtomThought(a: Atom): string { if a.Thinking? then a.text else "" }

  function AtomArguments(x: int): Atom -> string {
    (a: Atom) => if IsTool(a, x) then a.fragment.arguments else ""
  }

  lemma {:induction false} UpstreamArgumentsAre(atoms: seq<Atom>, x: int)
    ensures UpstreamArguments(atoms, x) == FlatMap(AtomArguments(x), atoms)
  {
    if atoms != [] {
      UpstreamArgumentsAre(atoms[..|atoms| - 1], x);
    }
  }

  lemma SentByTexts(a: Atom, blocks: map<int, int>)
    ensures FlatMap(PieceText, SentBy(a, blocks)) == AtomText(a)
    ensures FlatMap(PieceThought, SentBy(a, blocks)) == AtomThought(a)
  {
    if SentBy(a, blocks) != [] {
      FlatMapOne(PieceText, SentBy(a, blocks)[0]);
      FlatMapOne(PieceThought, SentBy(a, blocks)[0]);
    }
  }

  lemma {:induction false} SentTexts(atoms: seq<Atom>, blocks: map<int, int>)
    ensures FlatMap(PieceText, Sent(atoms, blocks)) == FlatMap(AtomText, atoms)
    ensures FlatMap(PieceThought, Sent(atoms, blocks)) == FlatMap(AtomThought, atoms)
  {
    if atoms != [] {
      var front, a := atoms[..|atoms| - 1], atoms[|atoms| - 1];
      SentTexts(front, blocks);
      SentByTexts(a, blocks);
      FlatMapAppend(PieceText, Sent(front, blocks), SentBy(a, blocks));
      FlatMapAppend(PieceThought, Sent(front, blocks), SentBy(a, blocks));
    }
  }

  /** What the five groups of a payload's parts send. */
  lemma OverPayload(g: Atom -> string, p: Payload)
    ensures FlatMap(g, AtomsOf(p))
            == FlatMap(g, UsageAtoms(p)) + FlatMap(g, ReasoningAtoms(p)) + FlatMap(g, ContentAtoms(p))
               + FlatMap(g, ToolAtoms(p.toolCalls)) + FlatMap(g, FinishAtoms(p))
  {
    var a := UsageAtoms(p) + ReasoningAtoms(p);
    var b := a + ContentAtoms(p);
    FlatMapAppend(g, UsageAtoms(p), ReasoningAtoms(p));
    FlatMapAppend(g, a, ContentAtoms(p));
    FlatMapAppend(g, b, ToolAtoms(p.toolCalls));
    FlatMapAppend(g, b + ToolAtoms(p.toolCalls), FinishAtoms(p));
  }

  lemma {:induction false} ToolsAreSilent(g: Atom -> string, calls: seq<ToolFragment>)
    requires forall f :: g(Tool(f)) == ""
    ensures FlatMap(g, ToolAtoms(calls)) == ""
  {
    if calls != [] {
      ToolsAreSilent(g, calls[..|calls| - 1]);
      assert ToolAtoms(calls)[..|calls| - 1] == ToolAtoms(calls[..|calls| - 1]);
    }
  }

  lemma {:induction false} ToolsCarry(calls: seq<ToolFragment>, x: int)
    ensures FlatMap(AtomArguments(x), ToolAtoms(calls)) == CallArguments(calls, x)
  {
    if calls != [] {
      ToolsCarry(calls[..|calls| - 1], x);
      assert ToolAtoms(calls)[..|calls| - 1] == ToolAtoms(calls[..|calls| - 1]);
    }
  }

  /** A group of at most one part. */
  lemma AtMostOneSends(g: Atom -> string, atoms: seq<Atom>)
    requires |atoms| <= 1
    ensures FlatMap(g, atoms) == if atoms == [] then "" else g(atoms[0])
  {
    if atoms != [] {
      assert atoms == [atoms[0]];
      FlatMapOne(g, atoms[0]);
    }
  }

  lemma GroupsSend(g: Atom -> string, p: Payload)
    ensures FlatMap(g, UsageAtoms(p)) == if p.usage.Some? then g(Counted(p.usage.value)) else ""
    ensures FlatMap(g, ReasoningAtoms(p)) == if p.reasoning != "" then g(Thinking(p.reasoning)) else ""
    ensures FlatMap(g, ContentAtoms(p)) == if p.content != "" then g(Text(p.content)) else ""
    ensures FlatMap(g, FinishAtoms(p)) == if p.finishReason != "" then g(Finish(p.finishReason)) else ""
  {
    AtMostOneSends(g, UsageAtoms(p));
    AtMostOneSends(g, ReasoningAtoms(p));
    AtMostOneSends(g, ContentAtoms(p));
    AtMostOneSends(g, FinishAtoms(p));
  }

  lemma PayloadText(p: Payload)
    ensures FlatMap(AtomText, AtomsOf(p)) == ContentOf(p)
  {
    OverPayload(AtomText, p);
    GroupsSend(AtomText, p);
    ToolsAreSilent(AtomText, p.toolCalls);
  }

  lemma PayloadThought(p: Payload)
    ensures FlatMap(AtomThought, AtomsOf(p)) == ReasoningOf(p)
  {
    OverPayload(AtomThought, p);
    GroupsSend(AtomThought, p);
    ToolsAreSilent(AtomThought, p.toolCalls);
  }

  lemma PayloadArguments(p: Payload, x: int)
    ensures FlatMap(AtomArguments(x), AtomsOf(p)) == CallsFor(x)(p)
  {
    OverPayload(AtomArguments(x), p);
    GroupsSend(AtomArguments(x), p);
    ToolsCarry(p.toolCalls, x);
  }

  lemma PayloadsSend(ps: seq<Payload>, x: int)
    ensures FlatMap(AtomText, AllAtoms(ps)) == Contents(ps)
    ensures FlatMap(AtomThought, AllAtoms(ps)) == Reasonings(ps)
    ensures UpstreamArguments(AllAtoms(ps), x) == ArgumentsOf(ps, x)
  {
    forall p: Payload
      ensures FlatMap(AtomText, AtomsOf(p)) == ContentOf(p) && FlatMap(AtomThought, AtomsOf(p)) == ReasoningOf(p)
      ensures FlatMap(AtomArguments(x), AtomsOf(p)) == CallsFor(x)(p)
    {
      PayloadText(p);
      PayloadThought(p);
      PayloadArguments(p, x);
    }
    FlatMapTwice(AtomsOf, AtomText, ContentOf, ps);
    FlatMapTwice(AtomsOf, AtomThought, ReasoningOf, ps);
    FlatMapTwice(AtomsOf, AtomArguments(x), CallsFor(x), ps);
    UpstreamArgumentsAre(AllAtoms(ps), x);
  }

  lemma SeenAppend(a: seq<Atom>, b: seq<Atom>, x: int)
    ensures Seen(a + b, x) <==> Seen(a, x) || Seen(b, x)
  {
    assert forall i :: 0 <= i < |a| ==> (a + b)[i] == a[i];
    assert forall i :: 0 <= i < |b| ==> (a + b)[|a| + i] == b[i];
    if i :| 0 <= i < |a + b| && IsTool((a + b)[i], x) {
      assert i < |a| || IsTool(b[i - |a|], x);
    }
  }

  lemma SeenInTools(calls: seq<ToolFragment>, x: int)
    ensures Seen(ToolAtoms(calls), x) <==> exists j :: 0 <= j < |calls| && calls[j].index == x
  {
    if j :| 0 <= j < |calls| && calls[j].index == x {
      assert IsTool(ToolAtoms(calls)[j], x);
    }
  }

  lemma SeenInPayload(p: Payload, x: int)
    ensures Seen(AtomsOf(p), x) <==> exists j :: 0 <= j < |p.toolCalls| && p.toolCalls[j].index == x
  {
    var a := UsageAtoms(p) + ReasoningAtoms(p) + ContentAtoms(p);
    SeenAppend(a, ToolAtoms(p.toolCalls), x);
    SeenAppend(a + ToolAtoms(p.toolCalls), FinishAtoms(p), x);
    SeenInTools(p.toolCalls, x);
  }

  lemma {:induction false} CalledIsSeen(ps: seq<Payload>, x: int)
    ensures Seen(AllAtoms(ps), x) <==> Calls(ps, x)
  {
    if ps != [] {
      var front, p := ps[..|ps| - 1], ps[|ps| - 1];
      CalledIsSeen(front, x);
      SeenInPayload(p, x);
      SeenAppend(AllAtoms(front), AtomsOf(p), x);
      CallsSnoc(front, p, x);
      assert front + [p] == ps;
    }
  }

  lemma CallsSnoc(front: seq<Payload>, p: Payload, x: int)
    ensures Calls(front + [p], x) <==> Calls(front, x) || exists j :: 0 <= j < |p.toolCalls| && p.toolCalls[j].index == x
  {
    var all := front + [p];
    assert all[|front|] == p && forall i :: 0 <= i < |front| ==> all[i] == front[i];
  }

  // ----- counters

  lemma {:induction false} ToolsDoNotCount(t: Translator, calls: seq<ToolFragment>)
    ensures var u := FeedAll(t, ToolAtoms(calls)).0;
            u.inputTokens == t.inputTokens && u.outputTokens == t.outputTokens && u.stopReason == t.stopReason
  {
    if calls != [] {
      var n := |calls| - 1;
      ToolsDoNotCount(t, calls[..n]);
      assert ToolAtoms(calls)[..n] == ToolAtoms(calls[..n]);
    }
  }

  lemma AtMostOne(t: Translator, atoms: seq<Atom>)
    requires |atoms| <= 1
    ensures FeedAll(t, atoms).0 == if atoms == [] then t else Feed(t, atoms[0]).0
  {
    if atoms != [] {
      assert atoms == [atoms[0]];
      FeedAllSingle(t, atoms[0]);
    }
  }

  lemma UsageCounts(t: Translator, usage: Option<Usage>)
    ensures var u := FeedAll(t, if usage.Some? then [Counted(usage.value)] else []).0;
            && u.inputTokens == (if usage.Some? && usage.value.promptTokens.Some? then usage.value.promptTokens.value
                                 else t.inputTokens)
            && u.outputTokens == (if usage.Some? && usage.value.completionTokens.Some?
                                  then usage.value.completionTokens.value
                                  else t.outputTokens)
            && u.stopReason == t.stopReason
  {
    if usage.Some? {
      FeedAllSingle(t, Counted(usage.value));
    }
  }

  lemma TextCounts(t: Translator, a: Atom)
    requires a.Thinking? || a.Text?
    ensures var u := Feed(t, a).0;
            && u.inputTokens == t.inputTokens && u.stopReason == t.stopReason
            && u.outputTokens == t.outputTokens + (if a.Text? then 1 else 0)
  {}

  lemma ReasoningCounts(t: Translator, p: Payload)
    ensures var u := FeedAll(t, ReasoningAtoms(p)).0;
            u.inputTokens == t.inputTokens && u.outputTokens == t.outputTokens && u.stopReason == t.stopReason
  {
    AtMostOne(t, ReasoningAtoms(p));
    TextCounts(t, Thinking(p.reasoning));
  }

  lemma ContentCounts(t: Translator, p: Payload)
    ensures var u := FeedAll(t, ContentAtoms(p)).0;
            && u.inputTokens == t.inputTokens && u.stopReason == t.stopReason
            && u.outputTokens == t.outputTokens + (if p.content != "" then 1 else 0)
  {
    AtMostOne(t, ContentAtoms(p));
    TextCounts(t, Text(p.content));
  }

  lemma FinishCounts(t: Translator, p: Payload)
    ensures var u := FeedAll(t, FinishAtoms(p)).0;
            && u.inputTokens == t.inputTokens && u.outputTokens == t.outputTokens
            && u.stopReason == (if p.finishReason != "" then StopReason(p.finishReason) else t.stopReason)
  {
    AtMostOne(t, FinishAtoms(p));
  }

  /** Counters and stop reason of a translator. */
  function Counters(t: Translator): (int, int, string) {
    (t.inputTokens, t.outputTokens, t.stopReason)
  }

  /** The translator after each of the five groups of a payload's parts. */
  lemma PayloadStages(t: Translator, p: Payload) returns (t1: Translator, t2: Translator, t3: Translator, t4: Translator)
    ensures t1.inputTokens == (if p.usage.Some? && p.usage.value.promptTokens.Some? then p.usage.value.promptTokens.value
                               else t.inputTokens)
    ensures t1.outputTokens == (if p.usage.Some? && p.usage.value.completionTokens.Some?
                                then p.usage.value.completionTokens.value else t.outputTokens)
    ensures t1.stopReason == t.stopReason && Counters(t2) == Counters(t1) && Counters(t4) == Counters(t3)
    ensures Counters(t3) == (t2.inputTokens, t2.outputTokens + (if p.content != "" then 1 else 0), t2.stopReason)
    ensures Counters(FeedAll(t, AtomsOf(p)).0)
            == (t4.inputTokens, t4.outputTokens, if p.finishReason != "" then StopReason(p.finishReason) else t4.stopReason)
  {
    t1 := FeedAll(t, UsageAtoms(p)).0;
    t2 := FeedAll(t1, ReasoningAtoms(p)).0;
    t3 := FeedAll(t2, ContentAtoms(p)).0;
    t4 := FeedAll(t3, ToolAtoms(p.toolCalls)).0;
    UsageCounts(t, p.usage);
    ReasoningCounts(t1, p);
    ContentCounts(t2, p);
    ToolsDoNotCount(t3, p.toolCalls);
    FinishCounts(t4, p);
    StagesCompose(t, p, t1, t2, t3, t4);
  }

  lemma StagesCompose(t: Translator, p: Payload, t1: Translator, t2: Translator, t3: Translator, t4: Translator)
    requires t1 == FeedAll(t, UsageAtoms(p)).0 && t2 == FeedAll(t1, ReasoningAtoms(p)).0
    requires t3 == FeedAll(t2, ContentAtoms(p)).0 && t4 == FeedAll(t3, ToolAtoms(p.toolCalls)).0
    ensures FeedAll(t, AtomsOf(p)).0 == FeedAll(t4, FinishAtoms(p)).0
  {
    var a := UsageAtoms(p) + ReasoningAtoms(p);
    var b := a + ContentAtoms(p);
    FeedAllAppend(t, UsageAtoms(p), ReasoningAtoms(p));
    FeedAllAppend(t, a, ContentAtoms(p));
    FeedAllAppend(t, b, ToolAtoms(p.toolCalls));
    FeedAllAppend(t, b + ToolAtoms(p.toolCalls), FinishAtoms(p));
  }

  /** What one payload does to the counters and the stop reason. */
  lemma PayloadCounts(t: Translator, p: Payload)
    ensures var u := FeedAll(t, AtomsOf(p)).0;
            && u.inputTokens == (if p.usage.Some? && p.usage.value.promptTokens.Some? then p.usage.value.promptTokens.value
                                 else t.inputTokens)
            && u.outputTokens == (if p.usage.Some? && p.usage.value.completionTokens.Some?
                                  then p.usage.value.completionTokens.value else t.outputTokens)
                                 + (if p.content != "" then 1 else 0)
            && u.stopReason == (if p.finishReason != "" then StopReason(p.finishReason) else t.stopReason)
  {
    var t1, t2, t3, t4 := PayloadStages(t, p);
  }

  /** The stop reason the protocol has for a finish reason; "end_turn" also when there is none. */
  ghost predicate StopsFor(finish: string, stop: string) {
    && (finish == "length" ==> stop == "max_tokens")
    && (finish == "tool_calls" ==> stop == "tool_use")
    && (finish == "content_filter" ==> stop == "refusal")
    && (finish !in {"length", "tool_calls", "content_filter"} ==> stop == "end_turn")
  }

  lemma StopReasonStops(finish: string)
    ensures StopsFor(finish, StopReason(finish))
  {}

  lemma {:induction false} PayloadsCount(ps: seq<Payload>)
    ensures var t := FeedAll(START, AllAtoms(ps)).0;
            && t.inputTokens == PromptTokens(ps) && t.outputTokens == CompletionTokens(ps)
            && StopsFor(FinishReason(ps), t.stopReason)
  {
    if ps != [] {
      var front, p := ps[..|ps| - 1], ps[|ps| - 1];
      PayloadsCount(front);
      FeedAllAppend(START, AllAtoms(front), AtomsOf(p));
      PayloadCounts(FeedAll(START, AllAtoms(front)).0, p);
      StopReasonStops(p.finishReason);
    }
  }

  // ----- the whole way

  /** Every called index has a block of its own, and the JSON of that block is all its arguments. */
  ghost predicate ArgumentsDelivered(ps: seq<Payload>, events: seq<Event>, blocks: map<int, int>) {
    && (forall x :: x in blocks <==> Calls(ps, x))
    && (forall x, y :: x in blocks && y in blocks && blocks[x] == blocks[y] ==> x == y)
    && (forall x :: x in blocks ==> JsonOf(events, blocks[x]) == ArgumentsOf(ps, x))
  }

  predicate OfBlock(e: Event) { e.BlockStart? || e.BlockDelta? || e.BlockStop? }

  /** After the start the client receives block events, and behind them what the ending adds: a summary
      and the stop, an error, or nothing at all. */
  ghost predicate EndsWith(ps: seq<Payload>, events: seq<Event>, ending: Ending) {
    match ending
    case Complete =>
      && |events| > 2 && events[|events| - 1] == MessageStop
      && (forall i :: 0 < i < |events| - 2 ==> OfBlock(events[i]))
      && (exists stop :: StopsFor(FinishReason(ps), stop)
                         && events[|events| - 2] == MessageDelta(stop, PromptTokens(ps), CompletionTokens(ps)))
    case TransportError(message) =>
      |events| > 1 && events[|events| - 1] == ErrorEvent(message) && forall i :: 0 < i < |events| - 1 ==> OfBlock(events[i])
    case Cut => |events| > 0 && forall i :: 0 < i < |events| ==> OfBlock(events[i])
  }

  lemma {:induction false} FedAreOfBlocks(t: Translator, atoms: seq<Atom>)
    ensures forall i :: 0 <= i < |FeedAll(t, atoms).1| ==> OfBlock(FeedAll(t, atoms).1[i])
  {
    if atoms != [] {
      FedAreOfBlocks(t, atoms[..|atoms| - 1]);
    }
  }

  lemma EndsAsItShould(ps: seq<Payload>, id: string, model: string, ending: Ending)
    ensures EndsWith(ps, Translation(id, model, AllAtoms(ps), ending), ending)
  {
    var (t, fed) := FeedAll(START, AllAtoms(ps));
    FedAreOfBlocks(START, AllAtoms(ps));
    PayloadsCount(ps);
    EndsAfter([MessageStart(id, model)], fed, t, ending, ps);
  }

  lemma EndsAfter(start: seq<Event>, fed: seq<Event>, t: Translator, ending: Ending, ps: seq<Payload>)
    requires |start| == 1 && forall i :: 0 <= i < |fed| ==> OfBlock(fed[i])
    requires t.inputTokens == PromptTokens(ps) && t.outputTokens == CompletionTokens(ps)
             && StopsFor(FinishReason(ps), t.stopReason)
    ensures EndsWith(ps, start + fed + Finale(t, ending), ending)
  {
    assert forall i :: 0 <= i < |Close(t)| ==> OfBlock(Close(t)[i]);
  }

  /** The message a client receives for the payloads. */
  ghost predicate Delivered(ps: seq<Payload>, events: seq<Event>, id: string, model: string, ending: Ending) {
    && Texts(events) == Contents(ps) && Thoughts(events) == Reasonings(ps)
    && (exists blocks :: ArgumentsDelivered(ps, events, blocks))
    && |events| > 0 && events[0] == MessageStart(id, model) && EndsWith(ps, events, ending)
  }

  lemma AtomsDeliver(ps: seq<Payload>, id: string, model: string, ending: Ending)
    ensures Delivered(ps, Translation(id, model, AllAtoms(ps), ending), id, model, ending)
  {
    var atoms, events := AllAtoms(ps), Translation(id, model, AllAtoms(ps), ending);
    var blocks := FeedAll(START, atoms).0.toolBlocks;
    NothingIsLost(id, model, atoms, ending);
    SentTexts(atoms, blocks);
    EventsArePieces(events, 0);
    PayloadsSend(ps, 0);
    EndsAsItShould(ps, id, model, ending);
    forall x ensures x in blocks <==> Calls(ps, x) {
      CalledIsSeen(ps, x);
    }
    forall x | x in blocks ensures JsonOf(events, blocks[x]) == ArgumentsOf(ps, x) {
      ArgumentsArrive(id, model, atoms, ending, x);
      EventsArePieces(events, blocks[x]);
      PayloadsSend(ps, x);
    }
    assert ArgumentsDelivered(ps, events, blocks);
  }

  /** Whatever lines the payloads are sent in, however the bytes are chunked and however the response
      ends: the client receives their texts, thoughts and arguments, the last counts and the last
      reason.  An unreadable line ends the stream without a summary. */
  lemma PayloadsArrive(parse: Bytes -> Parsed, id: string, model: string, lines: seq<WireLine>, tail: Bytes,
                       chunks: seq<Bytes>, ending: Ending)
    requires NEWLINE !in tail && forall i :: 0 <= i < |lines| ==> Sendable(parse, lines[i])
    requires Concat(chunks) == Body(lines) + tail
    ensures Delivered(Payloads(lines), StreamTranslation(parse, id, model, Concat(chunks), ending), id, model,
                      if BreaksOff(lines) then Cut else ending)
  {
    BodyIsRead(parse, lines, tail);
    AtomsDeliver(Payloads(lines), id, model, if BreaksOff(lines) then Cut else ending);
  }
}
