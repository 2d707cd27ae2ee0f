/** The stream translator as the source writes it: a byte buffer, a line loop and mutable locals.
    It produces exactly the translation of the concatenated bytes, whatever the chunking. */
module StreamTranslator {
  import opened Sse
  import opened Wrappers
  import opened StreamModel

  /** The body of the loop over one payload's tool-call fragments. */
  method TranslateTool(t: Translator, f: ToolFragment) returns (u: Translator, out: seq<Event>)
    ensures u == Feed(t, Tool(f)).0 && out == Feed(t, Tool(f)).1
  {
    var blockIndex, toolBlocks := t.blockIndex, t.toolBlocks;
    u, out := t, [];
    if f.index !in toolBlocks {
      if t.blockOpen {
        if t.blockKind == ThinkingBlock {
          out := out + [BlockDelta(blockIndex, SignatureDelta)];
        }
        out := out + [BlockStop(blockIndex)];
      }
      blockIndex := blockIndex + 1;
      toolBlocks := toolBlocks[f.index := blockIndex];
      u := t.(blockOpen := true, blockIndex := blockIndex, blockKind := ToolBlock, toolBlocks := toolBlocks);
      var id := if f.id != "" then Given(f.id) else Numbered(f.index);
      out := out + [BlockStart(blockIndex, ToolBlock, id, f.name)];
    }
    if f.arguments != "" {
      out := out + [BlockDelta(toolBlocks[f.index], JsonDelta(f.arguments))];
    }
  }

  method TranslateThinking(t: Translator, text: string) returns (u: Translator, out: seq<Event>)
    ensures u == Feed(t, Thinking(text)).0 && out == Feed(t, Thinking(text)).1
  {
    u, out := t, [];
    if !u.blockOpen || u.blockKind != ThinkingBlock {
      if u.blockOpen {
        out := out + [BlockStop(u.blockIndex)];
      }
      u := u.(blockIndex := u.blockIndex + 1, blockKind := ThinkingBlock, blockOpen := true);
      out := out + [BlockStart(u.blockIndex, ThinkingBlock, NO_ID, "")];
    }
    out := out + [BlockDelta(u.blockIndex, ThinkingDelta(text))];
  }

  method TranslateText(t: Translator, text: string) returns (u: Translator, out: seq<Event>)
    ensures u == Feed(t, Text(text)).0 && out == Feed(t, Text(text)).1
  {
    u, out := t, [];
    if !u.blockOpen || u.blockKind != TextBlock {
      if u.blockOpen {
        if u.blockKind == ThinkingBlock {
          out := out + [BlockDelta(u.blockIndex, SignatureDelta)];
        }
        out := out + [BlockStop(u.blockIndex)];
      }
      u := u.(blockIndex := u.blockIndex + 1, blockKind := TextBlock, blockOpen := true);
      out := out + [BlockStart(u.blockIndex, TextBlock, NO_ID, "")];
    }
    u := u.(outputTokens := u.outputTokens + 1);
    out := out + [BlockDelta(u.blockIndex, TextDelta(text))];
  }

  method TranslateUsage(t: Translator, p: Payload) returns (u: Translator)
    ensures (u, []) == FeedAll(t, UsageAtoms(p))
  {
    u := t;
    if p.usage.Some? {
      FeedAllSingle(t, Counted(p.usage.value));
      if p.usage.value.promptTokens.Some? {
        u := u.(inputTokens := p.usage.value.promptTokens.value);
      }
      if p.usage.value.completionTokens.Some? {
        u := u.(outputTokens := p.usage.value.completionTokens.value);
      }
    }
  }

  method TranslateTools(t: Translator, calls: seq<ToolFragment>) returns (u: Translator, out: seq<Event>)
    ensures u == FeedAll(t, ToolAtoms(calls)).0 && out == FeedAll(t, ToolAtoms(calls)).1
  {
    ghost var atoms := ToolAtoms(calls);
    u, out := t, [];
    for i := 0 to |calls|
      invariant u == FeedAll(t, atoms[..i]).0 && out == FeedAll(t, atoms[..i]).1
    {
      assert atoms[..i + 1][..i] == atoms[..i] && atoms[i] == Tool(calls[i]);
      var events;
      u, events := TranslateTool(u, calls[i]);
      out := out + events;
    }
    assert atoms[..|calls|] == atoms;
  }

  method TranslateReasoning(t: Translator, p: Payload) returns (u: Translator, out: seq<Event>)
    ensures u == FeedAll(t, ReasoningAtoms(p)).0 && out == FeedAll(t, ReasoningAtoms(p)).1
  {
    u, out := t, [];
    if p.reasoning != "" {
      FeedAllSingle(t, Thinking(p.reasoning));
      u, out := TranslateThinking(t, p.reasoning);
    }
  }

  method TranslateContent(t: Translator, p: Payload) returns (u: Translator, out: seq<Event>)
    ensures u == FeedAll(t, ContentAtoms(p)).0 && out == FeedAll(t, ContentAtoms(p)).1
  {
    u, out := t, [];
    if p.content != "" {
      FeedAllSingle(t, Text(p.content));
      u, out := TranslateText(t, p.content);
    }
  }

  /** Everything the source does with one parsed payload. */
  method TranslatePayload(t: Translator, p: Payload) returns (u: Translator, out: seq<Event>)
    ensures u == FeedAll(t, AtomsOf(p)).0 && out == FeedAll(t, AtomsOf(p)).1
  {
    var counted := TranslateUsage(t, p);
    var v, thinking := TranslateReasoning(counted, p);
    FedInGroups(t, UsageAtoms(p), ReasoningAtoms(p), counted, [], v, thinking);
    var w, text := TranslateContent(v, p);
    FedInGroups(t, UsageAtoms(p) + ReasoningAtoms(p), ContentAtoms(p), v, [] + thinking, w, text);
    var x, tools := TranslateTools(w, p.toolCalls);
    FedInGroups(t, UsageAtoms(p) + ReasoningAtoms(p) + ContentAtoms(p), ToolAtoms(p.toolCalls),
                w, [] + thinking + text, x, tools);
    u, out := x, thinking + text + tools;
    if p.finishReason != "" {
      FeedAllSingle(x, Finish(p.finishReason));
      u := u.(stopReason := StopReason(p.finishReason));
    }
    FedInGroups(t, UsageAtoms(p) + ReasoningAtoms(p) + ContentAtoms(p) + ToolAtoms(p.toolCalls), FinishAtoms(p),
                x, [] + thinking + text + tools, u, []);
    assert [] + thinking + text + tools + [] == out;
  }

  /** One line: skipped, translated, or the end of the translator. */
  method TranslateLine(t: Translator, parse: Bytes -> Parsed, line: Bytes)
    returns (u: Translator, out: seq<Event>, broken: bool)
    ensures broken == Breaks(LineReader(parse), [line])
    ensures u == FeedAll(t, AtomsOfLines(LineReader(parse), [line])).0
    ensures out == FeedAll(t, AtomsOfLines(LineReader(parse), [line])).1
  {
    u, out, broken := t, [], false;
    assert [line][1..] == [];
    var data := DataOf(line);
    if data.None? {
      return;
    }
    match parse(data.value)
    case Malformed =>
    case Unreadable =>
      broken := true;
      assert LineReader(parse)([line][0]).Unreadable?;
    case Json(p) =>
      assert AtomsOfLines(LineReader(parse), []) == [];
      assert AtomsOfLines(LineReader(parse), [line]) == AtomsOf(p) + [] == AtomsOf(p);
      u, out := TranslatePayload(t, p);
  }

  /** The translator and its output once some lines have been read. */
  function After(read: Bytes -> Parsed, lines: seq<Bytes>): (Translator, seq<Event>) {
    FeedAll(START, AtomsOfLines(read, lines))
  }

  lemma LineDone(read: Bytes -> Parsed, lines: seq<Bytes>, line: Bytes)
    requires !Breaks(read, lines)
    ensures Breaks(read, lines + [line]) <==> Breaks(read, [line])
    ensures var (t, out) := After(read, lines);
            var (u, events) := FeedAll(t, AtomsOfLines(read, [line]));
            After(read, lines + [line]) == (u, out + events)
  {
    AtomsOfLinesAppend(read, lines, [line]);
    FeedAllAppend(START, AtomsOfLines(read, lines), AtomsOfLines(read, [line]));
  }

  /** After an unreadable line nothing that follows matters. */
  lemma {:induction false} BrokenIsFinal(read: Bytes -> Parsed, lines: seq<Bytes>, more: seq<Bytes>)
    requires Breaks(read, lines)
    ensures Breaks(read, lines + more) && AtomsOfLines(read, lines + more) == AtomsOfLines(read, lines)
  {
    BreaksTail(read, lines);
    BreaksTail(read, lines + more);
    assert (lines + more)[1..] == lines[1..] + more;
    if !read(lines[0]).Unreadable? {
      BrokenIsFinal(read, lines[1..], more);
    }
  }

  /** Translate one more line. */
  method NextLine(t: Translator, parse: Bytes -> Parsed, line: Bytes, ghost lines: seq<Bytes>, before: seq<Event>)
    returns (u: Translator, out: seq<Event>, broken: bool)
    requires !Breaks(LineReader(parse), lines) && (t, before) == After(LineReader(parse), lines)
    ensures broken <==> Breaks(LineReader(parse), lines + [line])
    ensures (u, out) == After(LineReader(parse), lines + [line])
  {
    LineDone(LineReader(parse), lines, line);
    var events;
    u, events, broken := TranslateLine(t, parse, line);
    out := before + events;
  }

  /** The loop over the complete lines of the buffer. */
  method DrainBuffer(t: Translator, parse: Bytes -> Parsed, buffer: Bytes, ghost lines: seq<Bytes>, before: seq<Event>)
    returns (u: Translator, out: seq<Event>, buf: Bytes, broken: bool)
    requires !Breaks(LineReader(parse), lines) && (t, before) == After(LineReader(parse), lines)
    ensures broken <==> Breaks(LineReader(parse), lines + Lines(buffer))
    ensures (u, out) == After(LineReader(parse), lines + Lines(buffer))
    ensures !broken ==> buf == Rest(buffer)
  {
    ghost var done := lines;
    ghost var all := lines + Lines(buffer);
    u, out, buf, broken := t, before, buffer, false;
    var n := FirstNewline(buf);
    while n < |buf|
      invariant n == FirstNewline(buf) && Rest(buf) == Rest(buffer) && done + Lines(buf) == all
      invariant !Breaks(LineReader(parse), done) && (u, out) == After(LineReader(parse), done)
      decreases |buf|
    {
      var line := buf[..n];
      CutAtNewline(buf, n, line, buf[n + 1..]);
      Reassociate(done, [line], Lines(buf[n + 1..]));
      buf := buf[n + 1..];
      u, out, broken := NextLine(u, parse, line, done, out);
      done := done + [line];
      if broken {
        BrokenIsFinal(LineReader(parse), done, Lines(buf));
        return;
      }
      n := FirstNewline(buf);
    }
    Unbroken(buf);
    assert done + [] == done;
  }

  /** The upstream response is exhausted, or failed, or was abandoned. */
  method EndStream(t: Translator, ending: Ending) returns (out: seq<Event>)
    ensures out == Finale(t, ending)
  {
    out := [];
    match ending
    case Complete =>
      if t.blockOpen {
        if t.blockKind == ThinkingBlock {
          out := out + [BlockDelta(t.blockIndex, SignatureDelta)];
        }
        out := out + [BlockStop(t.blockIndex)];
      }
      out := out + [MessageDelta(t.stopReason, t.inputTokens, t.outputTokens)];
      out := out + [MessageStop];
    case TransportError(message) => out := out + [ErrorEvent(message)];
    case Cut =>
  }

  /** The loop over the upstream chunks. */
  method ReadChunks(parse: Bytes -> Parsed, chunks: seq<Bytes>) returns (t: Translator, out: seq<Event>, broken: bool)
    ensures broken <==> Breaks(LineReader(parse), Lines(Concat(chunks)))
    ensures (t, out) == After(LineReader(parse), Lines(Concat(chunks)))
  {
    var buf: Bytes := [];
    t, out, broken := START, [], false;
    assert Lines([]) == [] && Rest([]) == [];
    for i := 0 to |chunks|
      invariant buf == Rest(Concat(chunks[..i])) && !Breaks(LineReader(parse), Lines(Concat(chunks[..i])))
      invariant (t, out) == After(LineReader(parse), Lines(Concat(chunks[..i]))) && !broken
    {
      ghost var seen := Concat(chunks[..i]);
      assert chunks[..i + 1][..i] == chunks[..i];
      assert Concat(chunks[..i + 1]) == seen + chunks[i];
      LinesAcrossChunks(seen, chunks[i]);
      t, out, buf, broken := DrainBuffer(t, parse, buf + chunks[i], Lines(seen), out);
      if broken {
        CutShort(LineReader(parse), chunks, i + 1);
        return;
      }
    }
    assert chunks[..|chunks|] == chunks;
  }

  /** The generator: everything the client receives.  `ending` is how the upstream response ends
      after its last chunk.  Only the concatenation of the chunks matters. */
  method StreamAnthropic(id: string, model: string, parse: Bytes -> Parsed, chunks: seq<Bytes>, ending: Ending)
    returns (events: seq<Event>)
    ensures events == StreamTranslation(parse, id, model, Concat(chunks), ending)
  {
    var t, out, broken := ReadChunks(parse, chunks);
    events := [MessageStart(id, model)] + out;
    if !broken {
      var last := EndStream(t, ending);
      events := events + last;
    }
  }

  /** An unreadable line in a prefix decides the translation of the whole. */
  lemma {:induction false} CutShort(read: Bytes -> Parsed, chunks: seq<Bytes>, k: nat)
    requires k <= |chunks| && Breaks(read, Lines(Concat(chunks[..k])))
    ensures Breaks(read, Lines(Concat(chunks)))
    ensures AtomsOfLines(read, Lines(Concat(chunks))) == AtomsOfLines(read, Lines(Concat(chunks[..k])))
    decreases |chunks| - k
  {
    if k == |chunks| {
      assert chunks[..k] == chunks;
    } else {
      var seen := Concat(chunks[..k]);
      assert chunks[..k + 1][..k] == chunks[..k];
      LinesAcrossChunks(seen, chunks[k]);
      BrokenIsFinal(read, Lines(seen), Lines(Rest(seen) + chunks[k]));
      CutShort(read, chunks, k + 1);
    }
  }
}
