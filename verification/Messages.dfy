/** The non-streaming translations between OpenAI chat messages and Anthropic content blocks. */
module Messages {
  import opened Wrappers
  import opened StreamModel

  /** JSON as the translators use it: parse, print, and wrap text that does not parse. */
  datatype Codec<!J> = Codec(loads: string -> Option<J>, dumps: J -> string, wrapRaw: string -> J)

  /** Printing then parsing gives the value back, and the empty string is not a JSON text. */
  ghost predicate Lawful<J(!new)>(codec: Codec<J>) {
    && (forall v :: codec.loads(codec.dumps(v)) == Some(v))
    && codec.loads("") == None
  }

  datatype ToolCall = ToolCall(id: string, name: string, arguments: string)

  /** An assistant message; missing strings are empty. */
  datatype ChatMessage = ChatMessage(reasoning: string, content: string, toolCalls: seq<ToolCall>)

  datatype ChatResponse = ChatResponse(message: ChatMessage, finishReason: string, usage: Usage)

  datatype Block<J> =
    | ThinkingContent(thinking: string, signature: string)
    | TextContent(text: string)
    | ToolUse(id: string, name: string, input: J)

  datatype AnthropicMessage<J> = AnthropicMessage(
    content: seq<Block<J>>, stopReason: Option<string>, inputTokens: int, outputTokens: int)

  const SIGNATURE := "litmoe"

  // ----- OpenAI to Anthropic

  function ToolInput<J>(codec: Codec<J>, arguments: string): J {
    match codec.loads(if arguments != "" then arguments else "{}")
    case Some(v) => v
    case None => codec.wrapRaw(arguments)
  }

  /** The id a call gets when it becomes block number `position`. */
  function ToolId(call: ToolCall, position: nat): string {
    if call.id != "" then call.id else IdText(Numbered(position))
  }

  function ToolUses<J>(codec: Codec<J>, calls: seq<ToolCall>, before: nat): (uses: seq<Block<J>>)
    ensures |uses| == |calls|
  {
    if calls == [] then []
    else
      var n := |calls| - 1;
      ToolUses(codec, calls[..n], before)
      + [ToolUse(ToolId(calls[n], before + n), calls[n].name, ToolInput(codec, calls[n].arguments))]
  }

  function ProseBlocks<J>(m: ChatMessage): seq<Block<J>> {
    (if m.reasoning != "" then [ThinkingContent(m.reasoning, SIGNATURE)] else [])
    + (if m.content != "" then [TextContent(m.content)] else [])
  }

  function ContentBlocks<J>(codec: Codec<J>, m: ChatMessage): seq<Block<J>> {
    var prose := ProseBlocks(m);
    var blocks := prose + ToolUses(codec, m.toolCalls, |prose|);
    if blocks == [] then [TextContent("")] else blocks
  }

  function ToAnthropic<J>(codec: Codec<J>, r: ChatResponse): AnthropicMessage<J> {
    AnthropicMessage(
      ContentBlocks(codec, r.message),
      if r.finishReason != "" then Some(StopReason(r.finishReason)) else None,
      if r.usage.promptTokens.Some? then r.usage.promptTokens.value else 0,
      if r.usage.completionTokens.Some? then r.usage.completionTokens.value else 0)
  }

  /** The input of a call is the value of its arguments, of `{}` when there are none, and the raw text
      wrapped when it is not JSON. */
  ghost predicate InputOf<J>(codec: Codec<J>, arguments: string, input: J) {
    var text := if |arguments| == 0 then "{}" else arguments;
    && (codec.loads(text).Some? ==> input == codec.loads(text).value)
    && (codec.loads(text).None? ==> input == codec.wrapRaw(arguments))
  }

  /** The blocks before the calls: reasoning, then text; an empty message is one empty text. */
  lemma ProseOfMessage<J>(codec: Codec<J>, m: ChatMessage)
    ensures var blocks := ContentBlocks(codec, m);
            var thought, text := ThinkingContent(m.reasoning, "litmoe"), TextContent(m.content);
            var p := (if m.reasoning == "" then 0 else 1) + (if m.content == "" then 0 else 1);
            && |blocks| == (if p + |m.toolCalls| == 0 then 1 else p + |m.toolCalls|)
            && blocks[..p] == (if m.reasoning == "" && m.content == "" then []
                               else if m.content == "" then [thought]
                               else if m.reasoning == "" then [text] else [thought, text])
            && (p + |m.toolCalls| == 0 ==> blocks == [TextContent("")])
  {
    assert ContentBlocks(codec, m)[..|ProseBlocks<J>(m)|] == ProseBlocks(m);
  }

  /** Then one block for each call, in order, under its own id or one made from its position. */
  lemma CallOfMessage<J>(codec: Codec<J>, m: ChatMessage, i: nat)
    requires i < |m.toolCalls|
    ensures var blocks, call := ContentBlocks(codec, m), m.toolCalls[i];
            var p := (if m.reasoning == "" then 0 else 1) + (if m.content == "" then 0 else 1);
            && p + i < |blocks| && blocks[p + i].ToolUse? && blocks[p + i].name == call.name
            && blocks[p + i].id == (if call.id != "" then call.id else IdText(Numbered(p + i)))
            && InputOf(codec, call.arguments, blocks[p + i].input)
  {
    var p := (if m.reasoning == "" then 0 else 1) + (if m.content == "" then 0 else 1);
    UseAt(codec, m.toolCalls, p, i);
    After(ProseBlocks<J>(m), ToolUses(codec, m.toolCalls, p), i);
    InputIs(codec, m.toolCalls[i].arguments);
  }

  lemma After<T>(a: seq<T>, b: seq<T>, i: nat)
    requires i < |b|
    ensures (a + b)[|a| + i] == b[i]
  {}

  lemma InputIs<J>(codec: Codec<J>, arguments: string)
    ensures InputOf(codec, arguments, ToolInput(codec, arguments))
  {}

  lemma {:induction false} UseAt<J>(codec: Codec<J>, calls: seq<ToolCall>, before: nat, i: nat)
    requires i < |calls|
    ensures ToolUses(codec, calls, before)[i]
            == ToolUse(ToolId(calls[i], before + i), calls[i].name, ToolInput(codec, calls[i].arguments))
    decreases |calls|
  {
    var n := |calls| - 1;
    if i < n {
      UseAt(codec, calls[..n], before, i);
    }
  }

  method ProseOf<J>(m: ChatMessage) returns (blocks: seq<Block<J>>)
    ensures blocks == ProseBlocks(m)
  {
    blocks := [];
    if m.reasoning != "" {
      blocks := blocks + [ThinkingContent(m.reasoning, SIGNATURE)];
    }
    if m.content != "" {
      blocks := blocks + [TextContent(m.content)];
    }
  }

  method ContentOf<J>(codec: Codec<J>, m: ChatMessage) returns (blocks: seq<Block<J>>)
    ensures blocks == ContentBlocks(codec, m)
  {
    blocks := ProseOf(m);
    ghost var prose := blocks;
    for i := 0 to |m.toolCalls|
      invariant blocks == prose + ToolUses(codec, m.toolCalls[..i], |prose|)
    {
      assert m.toolCalls[..i + 1][..i] == m.toolCalls[..i];
      var call := m.toolCalls[i];
      var id := if call.id != "" then call.id else IdText(Numbered(|blocks|));
      blocks := blocks + [ToolUse(id, call.name, ToolInput(codec, call.arguments))];
    }
    assert m.toolCalls[..|m.toolCalls|] == m.toolCalls;
    if blocks == [] {
      blocks := [TextContent("")];
    }
  }

  method OpenAiToAnthropic<J>(codec: Codec<J>, r: ChatResponse) returns (out: AnthropicMessage<J>)
    ensures out == ToAnthropic(codec, r)
  {
    var blocks := ContentOf(codec, r.message);
    out := AnthropicMessage(
      blocks,
      if r.finishReason != "" then Some(StopReason(r.finishReason)) else None,
      if r.usage.promptTokens.Some? then r.usage.promptTokens.value else 0,
      if r.usage.completionTokens.Some? then r.usage.completionTokens.value else 0);
  }

  // ----- Anthropic assistant turns back to OpenAI

  function Join(parts: seq<string>): string {
    if parts == [] then ""
    else if |parts| == 1 then parts[0]
    else Join(parts[..|parts| - 1]) + "\n" + parts[|parts| - 1]
  }

  function TextParts<J>(blocks: seq<Block<J>>): seq<string> {
    if blocks == [] then []
    else
      var last := blocks[|blocks| - 1];
      TextParts(blocks[..|blocks| - 1]) + (if last.TextContent? then [last.text] else [])
  }

  function CallParts<J>(codec: Codec<J>, blocks: seq<Block<J>>): seq<ToolCall> {
    if blocks == [] then []
    else
      var last := blocks[|blocks| - 1];
      CallParts(codec, blocks[..|blocks| - 1])
      + (if last.ToolUse? then [ToolCall(last.id, last.name, codec.dumps(last.input))] else [])
  }

  /** An assistant turn sent upstream: thinking is dropped, texts are joined, calls are kept. */
  function ToOpenAi<J>(codec: Codec<J>, blocks: seq<Block<J>>): ChatMessage {
    ChatMessage("", Join(TextParts(blocks)), CallParts(codec, blocks))
  }

  method AssistantToOpenAi<J>(codec: Codec<J>, blocks: seq<Block<J>>) returns (m: ChatMessage)
    ensures m == ToOpenAi(codec, blocks)
  {
    var texts, calls := [], [];
    for i := 0 to |blocks|
      invariant texts == TextParts(blocks[..i]) && calls == CallParts(codec, blocks[..i])
    {
      assert blocks[..i + 1][..i] == blocks[..i];
      match blocks[i]
      case TextContent(text) => texts := texts + [text];
      case ToolUse(id, name, input) => calls := calls + [ToolCall(id, name, codec.dumps(input))];
      case ThinkingContent(_, _) =>
    }
    assert blocks[..|blocks|] == blocks;
    m := ChatMessage("", Join(texts), calls);
  }

  // ----- the round trip

  /** What a call becomes: a fallback id if it had none, and its arguments reprinted. */
  function Reprinted<J>(codec: Codec<J>, calls: seq<ToolCall>, before: nat): (printed: seq<ToolCall>)
    ensures |printed| == |calls|
    ensures forall i :: 0 <= i < |calls| ==>
              printed[i] == ToolCall(ToolId(calls[i], before + i), calls[i].name,
                                     codec.dumps(ToolInput(codec, calls[i].arguments)))
  {
    if calls == [] then []
    else
      var n := |calls| - 1;
      Reprinted(codec, calls[..n], before)
      + [ToolCall(ToolId(calls[n], before + n), calls[n].name, codec.dumps(ToolInput(codec, calls[n].arguments)))]
  }

  /** The parts of a block sequence followed by one more tool call. */
  lemma OneMoreUse<J>(codec: Codec<J>, blocks: seq<Block<J>>, front: seq<Block<J>>, use: Block<J>, printed: seq<ToolCall>)
    requires use.ToolUse? && TextParts(blocks + front) == TextParts(blocks)
    requires CallParts(codec, blocks + front) == CallParts(codec, blocks) + printed
    ensures TextParts(blocks + (front + [use])) == TextParts(blocks)
    ensures CallParts(codec, blocks + (front + [use]))
            == CallParts(codec, blocks) + (printed + [ToolCall(use.id, use.name, codec.dumps(use.input))])
  {
    var all := blocks + (front + [use]);
    assert all[..|all| - 1] == blocks + front;
    Reassociate(CallParts(codec, blocks), printed, [ToolCall(use.id, use.name, codec.dumps(use.input))]);
  }

  lemma {:induction false} PartsOfProse<J>(codec: Codec<J>, blocks: seq<Block<J>>, calls: seq<ToolCall>, before: nat)
    ensures TextParts(blocks + ToolUses(codec, calls, before)) == TextParts(blocks)
    ensures CallParts(codec, blocks + ToolUses(codec, calls, before))
            == CallParts(codec, blocks) + Reprinted(codec, calls, before)
    decreases |calls|
  {
    if calls == [] {
      assert blocks + [] == blocks;
      assert CallParts(codec, blocks) + [] == CallParts(codec, blocks);
    } else {
      var n := |calls| - 1;
      PartsOfProse(codec, blocks, calls[..n], before);
      OneMoreUse(codec, blocks, ToolUses(codec, calls[..n], before),
                 ToolUse(ToolId(calls[n], before + n), calls[n].name, ToolInput(codec, calls[n].arguments)),
                 Reprinted(codec, calls[..n], before));
    }
  }

  /** An assistant message sent to an Anthropic client and back keeps its text and its calls in
      order, with their names and ids; only reasoning is dropped and arguments are reprinted. */
  lemma AssistantRoundTrip<J>(codec: Codec<J>, m: ChatMessage)
    ensures ToOpenAi(codec, ContentBlocks(codec, m))
            == ChatMessage("", m.content, Reprinted(codec, m.toolCalls, |ProseBlocks<J>(m)|))
  {
    var prose := ProseBlocks<J>(m);
    PartsOfProse(codec, prose, m.toolCalls, |prose|);
    assert TextParts(prose) == (if m.content != "" then [m.content] else []) && CallParts(codec, prose) == [] by {
      ProseParts(codec, m);
    }
    if prose + ToolUses(codec, m.toolCalls, |prose|) == [] {
      var blank := [TextContent("")];
      assert blank[..0] == [];
      assert TextParts<J>(blank) == [""] && CallParts(codec, blank) == [];
    }
  }

  lemma ProseParts<J>(codec: Codec<J>, m: ChatMessage)
    ensures TextParts(ProseBlocks<J>(m)) == if m.content != "" then [m.content] else []
    ensures CallParts(codec, ProseBlocks<J>(m)) == []
  {
    var thinking: seq<Block<J>> := if m.reasoning != "" then [ThinkingContent(m.reasoning, SIGNATURE)] else [];
    var prose := ProseBlocks<J>(m);
    assert TextParts<J>([]) == [] && CallParts<J>(codec, []) == [];
    if thinking != [] {
      assert thinking[..0] == [];
    }
    assert TextParts(thinking) == [] && CallParts(codec, thinking) == [];
    if m.content == "" {
      assert prose == thinking;
    } else {
      var k := |prose| - 1;
      assert prose[..k] == thinking && prose[k] == TextContent(m.content);
      assert TextParts(prose) == TextParts(prose[..k]) + [m.content] == [m.content];
      assert CallParts(codec, prose) == CallParts(codec, prose[..k]) + [] == [];
    }
  }

  /** For a call with an id and valid arguments, the reprinted arguments denote the same value. */
  lemma ReprintingKeepsTheValue<J(!new)>(codec: Codec<J>, calls: seq<ToolCall>, before: nat, i: nat)
    requires Lawful(codec) && i < |calls| && calls[i].id != "" && codec.loads(calls[i].arguments).Some?
    ensures var call := Reprinted(codec, calls, before)[i];
            call.id == calls[i].id && call.name == calls[i].name
            && codec.loads(call.arguments) == codec.loads(calls[i].arguments)
  {
    var call := Reprinted(codec, calls, before)[i];
    assert calls[i].arguments != "";
    var v := ToolInput(codec, calls[i].arguments);
    assert call == ToolCall(ToolId(calls[i], before + i), calls[i].name, codec.dumps(v));
    assert codec.loads(codec.dumps(v)) == Some(v);
  }

  /** A second round trip changes nothing. */
  lemma RoundTripIsStable<J(!new)>(codec: Codec<J>, m: ChatMessage)
    requires Lawful(codec)
    ensures var once := ToOpenAi(codec, ContentBlocks(codec, m));
            ToOpenAi(codec, ContentBlocks(codec, once)) == once
  {
    AssistantRoundTrip(codec, m);
    var once := ToOpenAi(codec, ContentBlocks(codec, m));
    AssistantRoundTrip(codec, once);
    ReprintedTwice(codec, m.toolCalls, |ProseBlocks<J>(m)|, |ProseBlocks<J>(once)|);
  }

  /** Reprinted calls have ids and print as themselves, whatever their position. */
  lemma ReprintedTwice<J(!new)>(codec: Codec<J>, calls: seq<ToolCall>, before: nat, again: nat)
    requires Lawful(codec)
    ensures Reprinted(codec, Reprinted(codec, calls, before), again) == Reprinted(codec, calls, before)
  {}

  // ----- user turns with tool results

  datatype ResultContent = Plain(text: string) | Texts(texts: seq<string>)

  datatype UserBlock =
    | UserText(text: string)
    | UserImage(sourceType: string)
    | ToolResult(toolUseId: string, content: ResultContent)
    | Unknown

  datatype Turn = UserTurn(content: string) | ToolTurn(toolCallId: string, content: string)

  function ResultText(content: ResultContent): string {
    match content
    case Plain(text) => text
    case Texts(texts) => Join(texts)
  }

  function Flushed(pending: seq<string>): seq<Turn> {
    if pending == [] then [] else [UserTurn(Join(pending))]
  }

  /** What one block does to the finished turns and the waiting texts. */
  function ProgressStep(turns: seq<Turn>, pending: seq<string>, b: UserBlock): (seq<Turn>, seq<string>) {
    match b
    case UserText(text) => (turns, pending + [text])
    case UserImage(kind) => (turns, pending + ["[image: " + kind + "]"])
    case ToolResult(id, content) => (turns + Flushed(pending) + [ToolTurn(id, ResultText(content))], [])
    case Unknown => (turns, pending)
  }

  /** The turns finished after some blocks, and the texts still waiting to be sent. */
  function UserProgress(blocks: seq<UserBlock>): (seq<Turn>, seq<string>) {
    if blocks == [] then ([], [])
    else
      var (turns, pending) := UserProgress(blocks[..|blocks| - 1]);
      ProgressStep(turns, pending, blocks[|blocks| - 1])
  }

  function UserTurns(blocks: seq<UserBlock>): seq<Turn> {
    var (turns, pending) := UserProgress(blocks);
    turns + Flushed(pending)
  }

  method UserToOpenAi(blocks: seq<UserBlock>) returns (turns: seq<Turn>)
    ensures turns == UserTurns(blocks)
  {
    turns := [];
    var texts: seq<string> := [];
    for i := 0 to |blocks|
      invariant (turns, texts) == UserProgress(blocks[..i])
    {
      assert blocks[..i + 1][..i] == blocks[..i];
      match blocks[i]
      case UserText(text) => texts := texts + [text];
      case UserImage(kind) => texts := texts + ["[image: " + kind + "]"];
      case ToolResult(id, content) =>
        assert turns + [] == turns;
        if texts != [] {
          turns := turns + [UserTurn(Join(texts))];
          texts := [];
        }
        turns := turns + [ToolTurn(id, ResultText(content))];
      case Unknown =>
    }
    assert blocks[..|blocks|] == blocks;
    if texts != [] {
      turns := turns + [UserTurn(Join(texts))];
    }
  }

  function UserTexts(blocks: seq<UserBlock>): seq<string> {
    if blocks == [] then []
    else
      var front := UserTexts(blocks[..|blocks| - 1]);
      match blocks[|blocks| - 1]
      case UserText(text) => front + [text]
      case UserImage(kind) => front + ["[image: " + kind + "]"]
      case _ => front
  }

  /** A tool result becomes its own turn, in its place: text never crosses it. */
  lemma {:induction false} ToolResultsSplitTurns(a: seq<UserBlock>, r: UserBlock, b: seq<UserBlock>)
    requires r.ToolResult?
    ensures UserTurns(a + [r] + b) == UserTurns(a) + [ToolTurn(r.toolUseId, ResultText(r.content))] + UserTurns(b)
  {
    OneMoreBlock(a, r);
    ProgressGoesOn(a + [r], UserTurns(a) + [ToolTurn(r.toolUseId, ResultText(r.content))], b);
    var (turns, pending) := UserProgress(b);
    var head := UserTurns(a) + [ToolTurn(r.toolUseId, ResultText(r.content))];
    assert (head + turns) + Flushed(pending) == head + (turns + Flushed(pending));
  }

  lemma OneMoreBlock(blocks: seq<UserBlock>, b: UserBlock)
    ensures UserProgress(blocks + [b]) == ProgressStep(UserProgress(blocks).0, UserProgress(blocks).1, b)
  {
    assert (blocks + [b])[..|blocks + [b]| - 1] == blocks;
  }

  lemma StepAcross(head: seq<Turn>, turns: seq<Turn>, pending: seq<string>, b: UserBlock)
    ensures ProgressStep(head + turns, pending, b).0 == head + ProgressStep(turns, pending, b).0
    ensures ProgressStep(head + turns, pending, b).1 == ProgressStep(turns, pending, b).1
  {
    if b.ToolResult? {
      var t := ToolTurn(b.toolUseId, ResultText(b.content));
      assert (head + turns) + Flushed(pending) + [t] == head + (turns + Flushed(pending) + [t]);
    }
  }

  /** Where nothing is waiting, what follows is translated on its own. */
  lemma {:induction false} ProgressGoesOn(before: seq<UserBlock>, head: seq<Turn>, b: seq<UserBlock>)
    requires UserProgress(before) == (head, [])
    ensures UserProgress(before + b) == (head + UserProgress(b).0, UserProgress(b).1)
    decreases |b|
  {
    if b == [] {
      assert before + b == before && head + [] == head;
    } else {
      var front, last := b[..|b| - 1], b[|b| - 1];
      ProgressGoesOn(before, head, front);
      assert b == front + [last] && before + b == (before + front) + [last];
      OneMoreBlock(front, last);
      OneMoreBlock(before + front, last);
      StepAcross(head, UserProgress(front).0, UserProgress(front).1, last);
    }
  }

  /** Without tool results there is at most one turn, with all the texts in order. */
  lemma {:induction false} PlainUserTurn(blocks: seq<UserBlock>)
    requires forall i :: 0 <= i < |blocks| ==> !blocks[i].ToolResult?
    ensures UserProgress(blocks) == ([], UserTexts(blocks))
    ensures UserTurns(blocks) == Flushed(UserTexts(blocks))
  {
    if blocks != [] {
      PlainUserTurn(blocks[..|blocks| - 1]);
    }
  }

  // ----- joined texts, read back

  /** The lines with `more` added to the last one. */
  function Continued(lines: seq<string>, more: string): (r: seq<string>)
    requires lines != []
    ensures r != []
  {
    lines[..|lines| - 1] + [lines[|lines| - 1] + more]
  }

  /** The lines of a text; an empty text is one empty line. */
  function LinesIn(s: string): (lines: seq<string>)
    ensures lines != []
  {
    if s == "" then [""]
    else
      var front, last := LinesIn(s[..|s| - 1]), s[|s| - 1];
      if last == '\n' then front + [""] else Continued(front, [last])
  }

  lemma ContinuedTwice(lines: seq<string>, a: string, b: string)
    requires lines != []
    ensures Continued(Continued(lines, a), b) == Continued(lines, a + b)
    ensures Continued(lines, "") == lines
  {
    assert lines[|lines| - 1] + a + b == lines[|lines| - 1] + (a + b);
    assert lines[|lines| - 1] + "" == lines[|lines| - 1];
  }

  lemma LinesOneMore(s: string, c: char)
    ensures LinesIn(s + [c]) == if c == '\n' then LinesIn(s) + [""] else Continued(LinesIn(s), [c])
  {
    assert (s + [c])[..|s + [c]| - 1] == s;
  }

  lemma {:induction false} LinesGoOn(s: string, more: string)
    requires '\n' !in more
    ensures LinesIn(s + more) == Continued(LinesIn(s), more)
  {
    ContinuedTwice(LinesIn(s), "", "");
    if more == "" {
      assert s + more == s;
    } else {
      var front, last := more[..|more| - 1], more[|more| - 1];
      LinesGoOn(s, front);
      assert more == front + [last] && s + more == (s + front) + [last];
      LinesOneMore(s + front, last);
      ContinuedTwice(LinesIn(s), front, [last]);
    }
  }

  lemma OneText(text: string)
    requires '\n' !in text
    ensures LinesIn(text) == [text]
  {
    LinesGoOn("", text);
    assert "" + text == text;
  }

  lemma JoinOneMore(front: seq<string>, last: string)
    requires front != []
    ensures Join(front + [last]) == Join(front) + "\n" + last
  {
    assert (front + [last])[..|front + [last]| - 1] == front;
  }

  /** Joining loses nothing: the lines of the joined texts are the texts. */
  lemma {:induction false} JoinedLines(parts: seq<string>)
    requires parts != [] && forall i :: 0 <= i < |parts| ==> '\n' !in parts[i]
    ensures LinesIn(Join(parts)) == parts
  {
    if |parts| == 1 {
      OneText(parts[0]);
    } else {
      var front, last := parts[..|parts| - 1], parts[|parts| - 1];
      assert front + [last] == parts;
      JoinedLines(front);
      JoinOneMore(front, last);
      LineMore(Join(front), front, last);
    }
  }

  lemma LineMore(s: string, front: seq<string>, last: string)
    requires LinesIn(s) == front && '\n' !in last
    ensures LinesIn(s + "\n" + last) == front + [last]
  {
    LinesOneMore(s, '\n');
    LinesGoOn(s + "\n", last);
    assert "" + last == last;
  }

  /** A user turn without tool results reaches the engine as its texts, a line each. */
  lemma UserTextsArrive(blocks: seq<UserBlock>)
    requires forall i :: 0 <= i < |blocks| ==> !blocks[i].ToolResult?
    requires var texts := UserTexts(blocks); forall i :: 0 <= i < |texts| ==> '\n' !in texts[i]
    ensures UserTexts(blocks) == [] ==> UserTurns(blocks) == []
    ensures UserTexts(blocks) != [] ==>
              exists text :: UserTurns(blocks) == [UserTurn(text)] && LinesIn(text) == UserTexts(blocks)
  {
    PlainUserTurn(blocks);
    if UserTexts(blocks) != [] {
      JoinedLines(UserTexts(blocks));
    }
  }

  /** A tool result reaches the engine under its id, as plain text or as its texts, a line each. */
  lemma ToolResultArrives(id: string, content: ResultContent)
    requires content.Texts? ==> content.texts != [] && forall i :: 0 <= i < |content.texts| ==> '\n' !in content.texts[i]
    ensures exists text :: UserTurns([ToolResult(id, content)]) == [ToolTurn(id, text)]
                           && (if content.Plain? then text == content.text else LinesIn(text) == content.texts)
  {
    ToolResultsSplitTurns([], ToolResult(id, content), []);
    assert [] + [ToolResult(id, content)] + [] == [ToolResult(id, content)];
    if content.Texts? {
      JoinedLines(content.texts);
    }
  }
}
