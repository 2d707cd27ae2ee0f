/** When a client of the stream ends up with the same message as a client of the non-streaming
    answer: the exact condition, for all streams. */
module StreamEquivalence {
  import opened Sse
  import opened Wrappers
  import opened StreamModel
  import opened StreamAgreement
  import Grammar = StreamGrammar

  // ----- the client's finished message

  /** A finished block; a tool call whose arguments do not parse has no reading. */
  function ReadBlock<J>(codec: M.Codec<J>, b: ClientBlock): Option<M.Block<J>> {
    match b
    case ClientThinking(text, signature) => Some(M.ThinkingContent(text, signature))
    case ClientText(text) => Some(M.TextContent(text))
    case ClientTool(id, name, json) =>
      match codec.loads(if json != "" then json else "{}")
      case Some(v) => Some(M.ToolUse(IdText(id), name, v))
      case None => None
  }

  function ReadBlocks<J>(codec: M.Codec<J>, blocks: seq<ClientBlock>): Option<seq<M.Block<J>>> {
    if blocks == [] then Some([])
    else
      var front := ReadBlocks(codec, blocks[..|blocks| - 1]);
      var last := ReadBlock(codec, blocks[|blocks| - 1]);
      if front.Some? && last.Some? then Some(front.value + [last.value]) else None
  }

  /** Reading is block by block, and fails when one block has no reading. */
  lemma {:induction false} ReadEach<J>(codec: M.Codec<J>, blocks: seq<ClientBlock>, i: nat)
    requires i < |blocks|
    ensures var r := ReadBlocks(codec, blocks);
            if r.Some? then |r.value| == |blocks| && ReadBlock(codec, blocks[i]) == Some(r.value[i])
            else exists k :: 0 <= k < |blocks| && ReadBlock(codec, blocks[k]).None?
  {
    var n := |blocks| - 1;
    var front := blocks[..n];
    if n == 0 {
      assert ReadBlocks(codec, front) == Some([]);
      assert ReadBlocks(codec, blocks).None? ==> ReadBlock(codec, blocks[0]).None?;
    } else {
      ReadEach(codec, front, if i < n then i else 0);
      if ReadBlocks(codec, front).None? {
        var k :| 0 <= k < |front| && ReadBlock(codec, front[k]).None?;
        assert ReadBlock(codec, blocks[k]).None?;
      } else {
        assert ReadBlocks(codec, blocks).None? ==> ReadBlock(codec, blocks[n]).None?;
      }
    }
  }

  function ReadMessage<J>(codec: M.Codec<J>, events: seq<Event>): Option<M.AnthropicMessage<J>> {
    var c := ReceiveAll(NOTHING, events);
    var content := ReadBlocks(codec, c.blocks);
    if content.Some? then Some(M.AnthropicMessage(content.value, c.stopReason, c.inputTokens, c.outputTokens)) else None
  }

  /** Every accumulated call has valid arguments (none at all means an empty object). */
  ghost predicate AllParse<J>(codec: M.Codec<J>, tools: seq<ToolFragment>) {
    forall k :: 0 <= k < |tools| ==> codec.loads(if tools[k].arguments != "" then tools[k].arguments else "{}").Some?
  }

  ghost predicate ArgumentsParse<J>(codec: M.Codec<J>, acc: Accumulated) {
    AllParse(codec, acc.tools)
  }

  /** The first fragment of a call shows what the client gathers: the name, and an id that is its own
      or the one made up for it.  A call without any id needs its tool index to be the position of
      its block, so that both translators make up the same one. */
  predicate NamedFirst(shown: ToolFragment, gathered: ToolFragment, position: nat) {
    && gathered.name == shown.name
    && (shown.id == "" ==> if gathered.id == "" then shown.index == position
                           else gathered.id == IdText(Numbered(shown.index)))
  }

  ghost predicate AllNamedFirst(shown: seq<ToolFragment>, gathered: seq<ToolFragment>, before: nat) {
    |gathered| == |shown| && forall k :: 0 <= k < |shown| ==> NamedFirst(shown[k], gathered[k], before + k)
  }

  ghost predicate Identified(acc: Accumulated, gathered: seq<ToolFragment>) {
    AllNamedFirst(acc.tools, gathered, |ProseOf(acc, true)|)
  }

  ghost predicate HasContent(atoms: seq<Atom>) {
    exists i :: 0 <= i < |atoms| && HasKind(atoms[i])
  }

  ghost predicate HasFinish(atoms: seq<Atom>) {
    exists i :: 0 <= i < |atoms| && atoms[i].Finish?
  }

  /** A completion count comes after every text fragment. */
  ghost predicate CountedLast(atoms: seq<Atom>) {
    forall i :: 0 <= i < |atoms| && atoms[i].Text? ==> exists j :: i < j < |atoms| && Counts(atoms[j])
  }

  predicate Counts(a: Atom) { a.Counted? && a.usage.completionTokens.Some? }

  // ----- counters and stop reason

  /** Text fragments after the last completion count. */
  function TextsSince(atoms: seq<Atom>): nat {
    if atoms == [] then 0
    else if Counts(atoms[|atoms| - 1]) then 0
    else TextsSince(atoms[..|atoms| - 1]) + (if atoms[|atoms| - 1].Text? then 1 else 0)
  }

  lemma {:induction false} NoTextsSince(atoms: seq<Atom>)
    ensures TextsSince(atoms) == 0 <==> CountedLast(atoms)
  {
    if atoms != [] {
      var n := |atoms| - 1;
      var front := atoms[..n];
      NoTextsSince(front);
      assert forall i :: 0 <= i < n ==> front[i] == atoms[i];
      if CountedLast(atoms) && !Counts(atoms[n]) {
        forall i | 0 <= i < n && front[i].Text? ensures exists j :: i < j < n && Counts(front[j]) {
          assert atoms[i].Text?;
          var j :| i < j < |atoms| && Counts(atoms[j]);
          assert j < n && Counts(front[j]);
        }
      }
      if CountedLast(front) && !atoms[n].Text? {
        forall i | 0 <= i < |atoms| && atoms[i].Text? ensures exists j :: i < j < |atoms| && Counts(atoms[j]) {
          assert front[i].Text?;
          var j :| i < j < |front| && Counts(front[j]);
          assert Counts(atoms[j]);
        }
      }
    }
  }

  function OrZero(n: Option<int>): int { if n.Some? then n.value else 0 }

  /** The translator's counters and stop reason, in terms of the accumulated message. */
  lemma {:induction false} CountersMeaning(atoms: seq<Atom>)
    requires Proper(atoms)
    ensures var t, acc := FeedAll(START, atoms).0, Accumulate(atoms);
            && t.inputTokens == OrZero(acc.usage.promptTokens)
            && t.outputTokens == OrZero(acc.usage.completionTokens) + TextsSince(atoms)
            && t.stopReason == (if acc.finishReason != "" then StopReason(acc.finishReason) else "end_turn")
            && (acc.finishReason != "" <==> HasFinish(atoms))
  {
    if atoms != [] {
      var n := |atoms| - 1;
      CountersMeaning(atoms[..n]);
      FinishSnoc(atoms);
      CountersStep(FeedAll(START, atoms[..n]).0, atoms[n]);
    }
  }

  lemma FinishSnoc(atoms: seq<Atom>)
    requires atoms != []
    ensures HasFinish(atoms) <==> HasFinish(atoms[..|atoms| - 1]) || atoms[|atoms| - 1].Finish?
  {
    assert forall i :: 0 <= i < |atoms| - 1 ==> atoms[..|atoms| - 1][i] == atoms[i];
  }

  lemma CountersStep(t: Translator, a: Atom)
    ensures var u := Feed(t, a).0;
            && u.inputTokens == (if a.Counted? && a.usage.promptTokens.Some? then a.usage.promptTokens.value
                                 else t.inputTokens)
            && u.outputTokens == (if Counts(a) then a.usage.completionTokens.value
                                  else t.outputTokens + (if a.Text? then 1 else 0))
            && u.stopReason == (if a.Finish? then StopReason(a.reason) else t.stopReason)
  {}

  /** What the client holds when the stream has ended normally. */
  lemma ReceivedAtTheEnd(id: string, model: string, atoms: seq<Atom>)
    ensures var (t, events) := FeedAll(START, atoms);
            var c := ReceiveAll(ReceiveAll(NOTHING, events), Close(t));
            ReceiveAll(NOTHING, Translation(id, model, atoms, Complete))
            == Client(c.blocks, Some(t.stopReason), t.inputTokens, t.outputTokens)
  {
    var (t, events) := FeedAll(START, atoms);
    var first := [MessageStart(id, model)];
    ReceiveOne(NOTHING, first[0]);
    ReceiveAllAppend(NOTHING, first, events);
    ReceiveAllAppend(NOTHING, first + events, Finale(t, Complete));
    ReceivedFinale(ReceiveAll(NOTHING, events), t);
  }

  lemma ReceivedFinale(c: Client, t: Translator)
    ensures ReceiveAll(c, Finale(t, Complete))
            == Client(ReceiveAll(c, Close(t)).blocks, Some(t.stopReason), t.inputTokens, t.outputTokens)
  {
    var summary := MessageDelta(t.stopReason, t.inputTokens, t.outputTokens);
    ReceiveAllAppend(c, Close(t), [summary, MessageStop]);
    ReceiveTwo(ReceiveAll(c, Close(t)), summary, MessageStop);
  }

  lemma ReceiveTwo(c: Client, first: Event, second: Event)
    ensures ReceiveAll(c, [first, second]) == Receive(Receive(c, first), second)
  {
    assert [first, second][..1] == [first];
    ReceiveOne(c, first);
  }

  // ----- ordered streams

  /** The non-streaming block of a call. */
  function UseOf<J>(codec: M.Codec<J>, f: ToolFragment, position: nat): M.Block<J> {
    M.ToolUse(M.ToolId(M.ToolCall(f.id, f.name, f.arguments), position), f.name, M.ToolInput(codec, f.arguments))
  }

  /** A call's block, as the client reads it and as the non-streaming form has it. */
  lemma ReadTool<J>(codec: M.Codec<J>, f: ToolFragment, g: ToolFragment, position: nat)
    requires Alike(f, g) && codec.loads(if f.arguments != "" then f.arguments else "{}").Some?
    ensures ReadBlock(codec, ClientTool(StreamedId(f), f.name, f.arguments)) == Some(UseOf(codec, g, position))
            <==> NamedFirst(f, g, position)
  {
    if f.id == "" && g.id == "" {
      NumberedIdsDiffer(f.index, position);
    }
  }

  lemma NumberedIdsDiffer(a: int, b: int)
    ensures IdText(Numbered(a)) == IdText(Numbered(b)) <==> a == b
  {
    MadeUpId(a);
    MadeUpId(b);
  }

  lemma {:induction false} ReadPointwise<J>(codec: M.Codec<J>, blocks: seq<ClientBlock>, content: seq<M.Block<J>>)
    requires |blocks| == |content| && forall i :: 0 <= i < |blocks| ==> ReadBlock(codec, blocks[i]) == Some(content[i])
    ensures ReadBlocks(codec, blocks) == Some(content)
  {
    if blocks != [] {
      var n := |blocks| - 1;
      ReadPointwise(codec, blocks[..n], content[..n]);
      assert content[..n] + [content[n]] == content;
    }
  }

  lemma {:induction false} AsManyCalls(tools: seq<ToolFragment>)
    ensures |CallsOf(tools)| == |tools|
  {
    if tools != [] {
      AsManyCalls(tools[..|tools| - 1]);
    }
  }

  /** One more call is one more block of the non-streaming content. */
  lemma UsesSnoc<J>(codec: M.Codec<J>, calls: seq<M.ToolCall>, call: M.ToolCall, before: nat)
    ensures M.ToolUses(codec, calls + [call], before)
            == M.ToolUses(codec, calls, before)
               + [M.ToolUse(M.ToolId(call, before + |calls|), call.name, M.ToolInput(codec, call.arguments))]
  {
    assert (calls + [call])[..|calls|] == calls;
  }

  lemma CallsSnoc<J>(codec: M.Codec<J>, front: seq<ToolFragment>, f: ToolFragment, before: nat)
    ensures M.ToolUses(codec, CallsOf(front + [f]), before)
            == M.ToolUses(codec, CallsOf(front), before)
               + [UseOf(codec, f, before + |front|)]
  {
    assert (front + [f])[..|front|] == front;
    AsManyCalls(front);
    UsesSnoc(codec, CallsOf(front), M.ToolCall(f.id, f.name, f.arguments), before);
  }

  lemma {:induction false} CallAt<J>(codec: M.Codec<J>, tools: seq<ToolFragment>, before: nat, k: nat)
    requires k < |tools|
    ensures |M.ToolUses(codec, CallsOf(tools), before)| == |tools|
    ensures var f := tools[k];
            M.ToolUses(codec, CallsOf(tools), before)[k]
            == UseOf(codec, f, before + k)
    decreases |tools|
  {
    var n := |tools| - 1;
    assert tools[..n] + [tools[n]] == tools;
    CallsSnoc(codec, tools[..n], tools[n], before);
    AsManyCalls(tools[..n]);
    AsManyCalls(tools);
    if k < n {
      CallAt(codec, tools[..n], before, k);
    }
  }

  lemma DifferAt<J>(codec: M.Codec<J>, head: seq<ClientBlock>, tail: seq<ClientBlock>,
                    prose: seq<M.Block<J>>, uses: seq<M.Block<J>>, k: nat)
    requires |head| == |prose| && |tail| == |uses| && k < |tail| && ReadBlock(codec, tail[k]) != Some(uses[k])
    ensures ReadBlocks(codec, head + tail) != Some(prose + uses)
  {
    ReadEach(codec, head + tail, |head| + k);
  }

  /** A call's block reads back as its non-streaming block exactly when it is named first. */
  lemma ReadToolAt<J>(codec: M.Codec<J>, shown: seq<ToolFragment>, gathered: seq<ToolFragment>, before: nat, k: nat)
    requires AllAlike(shown, gathered) && AllParse(codec, shown) && k < |shown|
    ensures |M.ToolUses(codec, CallsOf(gathered), before)| == |shown|
    ensures ReadBlock(codec, ToolBlocksOf(shown)[k]) == Some(M.ToolUses(codec, CallsOf(gathered), before)[k])
            <==> NamedFirst(shown[k], gathered[k], before + k)
  {
    CallAt(codec, gathered, before, k);
    ReadTool(codec, shown[k], gathered[k], before + k);
  }

  lemma ReadTools<J>(codec: M.Codec<J>, shown: seq<ToolFragment>, gathered: seq<ToolFragment>, before: nat)
    requires AllAlike(shown, gathered) && AllNamedFirst(shown, gathered, before) && AllParse(codec, shown)
    ensures ReadBlocks(codec, ToolBlocksOf(shown)) == Some(M.ToolUses(codec, CallsOf(gathered), before))
  {
    AsManyCalls(gathered);
    forall k | 0 <= k < |shown|
      ensures ReadBlock(codec, ToolBlocksOf(shown)[k]) == Some(M.ToolUses(codec, CallsOf(gathered), before)[k])
    {
      ReadToolAt(codec, shown, gathered, before, k);
    }
    ReadPointwise(codec, ToolBlocksOf(shown), M.ToolUses(codec, CallsOf(gathered), before));
  }

  /** A call that is not shown as it is gathered differs in the content. */
  lemma NamesShow<J>(codec: M.Codec<J>, acc: Accumulated, gathered: seq<ToolFragment>, prose: seq<M.Block<J>>)
    requires AllAlike(acc.tools, gathered) && ArgumentsParse(codec, acc) && !Identified(acc, gathered)
    requires |prose| == |ProseOf(acc, true)|
    ensures ReadBlocks(codec, Expected(acc, true)) != Some(prose + M.ToolUses(codec, CallsOf(gathered), |prose|))
  {
    var k := NotNamed(acc.tools, gathered, |prose|);
    ReadToolAt(codec, acc.tools, gathered, |prose|, k);
    DifferAt(codec, ProseOf(acc, true), ToolBlocksOf(acc.tools), prose, M.ToolUses(codec, CallsOf(gathered), |prose|), k);
  }

  lemma NotNamed(shown: seq<ToolFragment>, gathered: seq<ToolFragment>, before: nat) returns (k: nat)
    requires |gathered| == |shown| && !AllNamedFirst(shown, gathered, before)
    ensures k < |shown| && !NamedFirst(shown[k], gathered[k], before + k)
  {
    k :| 0 <= k < |shown| && !NamedFirst(shown[k], gathered[k], before + k);
  }

  lemma {:induction false} ReadBlocksAppend<J>(codec: M.Codec<J>, a: seq<ClientBlock>, b: seq<ClientBlock>)
    requires ReadBlocks(codec, a).Some? && ReadBlocks(codec, b).Some?
    ensures ReadBlocks(codec, a + b) == Some(ReadBlocks(codec, a).value + ReadBlocks(codec, b).value)
    decreases |b|
  {
    if b == [] {
      assert a + b == a;
      assert ReadBlocks(codec, a).value + [] == ReadBlocks(codec, a).value;
    } else {
      var front, all := b[..|b| - 1], a + b;
      assert all[..|all| - 1] == a + front && all[|all| - 1] == b[|b| - 1];
      ReadBlocksAppend(codec, a, front);
      var first, middle := ReadBlocks(codec, a).value, ReadBlocks(codec, front).value;
      var last := ReadBlock(codec, b[|b| - 1]).value;
      assert (first + middle) + [last] == first + (middle + [last]);
    }
  }

  lemma ReadProse<J>(codec: M.Codec<J>, acc: Accumulated)
    ensures ReadBlocks(codec, ProseOf(acc, true)) == Some(M.ProseBlocks<J>(ResponseOf(acc).message))
  {
    var text := if acc.content != "" then [ClientText(acc.content)] else [];
    if acc.reasoning != "" {
      ReadOne(codec, ClientThinking(acc.reasoning, M.SIGNATURE));
    }
    if acc.content != "" {
      ReadOne(codec, ClientText(acc.content));
    }
    ReadBlocksAppend(codec, SignedThinking(acc), text);
    assert ProseOf(acc, true) == SignedThinking(acc) + text;
  }

  lemma ReadOne<J>(codec: M.Codec<J>, b: ClientBlock)
    requires ReadBlock(codec, b).Some?
    ensures ReadBlocks(codec, [b]) == Some([ReadBlock(codec, b).value])
  {
    assert [b][..0] == [];
    var none: seq<M.Block<J>> := [];
    assert ReadBlocks(codec, [b][..0]) == Some(none);
    assert none + [ReadBlock(codec, b).value] == [ReadBlock(codec, b).value];
  }

  /** The sealed blocks of an ordered stream read back as the non-streaming content. */
  lemma ReadExpected<J>(codec: M.Codec<J>, acc: Accumulated, gathered: seq<ToolFragment>, prose: seq<M.Block<J>>)
    requires AllAlike(acc.tools, gathered) && Identified(acc, gathered) && ArgumentsParse(codec, acc)
    requires prose == M.ProseBlocks<J>(ResponseOf(acc).message)
    ensures ReadBlocks(codec, Expected(acc, true)) == Some(prose + M.ToolUses(codec, CallsOf(gathered), |prose|))
  {
    ReadProse(codec, acc);
    ReadTools(codec, acc.tools, gathered, |prose|);
    ReadBlocksAppend(codec, ProseOf(acc, true), ToolBlocksOf(acc.tools));
  }

  lemma UnreadableArguments<J>(codec: M.Codec<J>, acc: Accumulated)
    requires !ArgumentsParse(codec, acc)
    ensures ReadBlocks(codec, Expected(acc, true)).None?
  {
    var k :| 0 <= k < |acc.tools|
             && codec.loads(if acc.tools[k].arguments != "" then acc.tools[k].arguments else "{}").None?;
    var i := |ProseOf(acc, true)| + k;
    assert Expected(acc, true)[i] == ToolBlocksOf(acc.tools)[k];
    ReadEach(codec, Expected(acc, true), i);
  }

  // ----- disordered streams

  /** The client's blocks are of the kinds an accepting reader has seen. */
  lemma {:induction false} KindsFollowReader(events: seq<Event>)
    requires Grammar.ReadAll(false, Grammar.STARTED, events).Body?
    ensures var blocks, kinds := ReceiveAll(NOTHING, events).blocks, Grammar.ReadAll(false, Grammar.STARTED, events).kinds;
            |blocks| == |kinds| && forall i :: 0 <= i < |kinds| ==> KindOf(blocks[i]) == kinds[i]
  {
    if events != [] {
      KindsFollowReader(events[..|events| - 1]);
    }
  }

  lemma {:induction false} KindsGrow(r: Grammar.Reader, events: seq<Event>)
    requires r.Body? && Grammar.ReadAll(false, r, events).Body?
    ensures r.kinds <= Grammar.ReadAll(false, r, events).kinds
  {
    if events != [] {
      KindsGrow(r, events[..|events| - 1]);
    }
  }

  /** The kinds of the blocks a stream starts. */
  function KindsOf(atoms: seq<Atom>): seq<BlockKind> {
    var r := Grammar.ReadAll(false, Grammar.STARTED, FeedAll(START, atoms).1);
    if r.Body? then r.kinds else []
  }

  ghost predicate Disordered(kinds: seq<BlockKind>) {
    exists p, q :: 0 <= p < q < |kinds| && Rank(kinds[p]) > Rank(kinds[q])
  }

  lemma KindsSnoc(atoms: seq<Atom>)
    requires atoms != []
    ensures var n := |atoms| - 1;
            var t, u := FeedAll(START, atoms[..n]).0, FeedAll(START, atoms).0;
            && KindsOf(atoms[..n]) <= KindsOf(atoms)
            && |KindsOf(atoms[..n])| == t.blockIndex + 1 && |KindsOf(atoms)| == u.blockIndex + 1
            && (t.blockOpen ==> t.blockIndex >= 0 && KindsOf(atoms[..n])[t.blockIndex] == t.blockKind)
            && (u.blockOpen ==> u.blockIndex >= 0 && KindsOf(atoms)[u.blockIndex] == u.blockKind)
  {
    var n := |atoms| - 1;
    Grammar.RunIsRead(false, atoms[..n]);
    Grammar.RunIsRead(false, atoms);
    var (t, before) := FeedAll(START, atoms[..n]);
    var (u, last) := Feed(t, atoms[n]);
    Grammar.ReadAllAppend(false, Grammar.STARTED, before, last);
    KindsGrow(Grammar.ReadAll(false, Grammar.STARTED, before), last);
  }

  /** A stream out of order leaves blocks out of order. */
  lemma {:induction false} DisorderShows(atoms: seq<Atom>)
    requires Proper(atoms) && !InOrder(atoms)
    ensures Disordered(KindsOf(atoms))
  {
    var front := atoms[..|atoms| - 1];
    InOrderSnoc(atoms);
    KindsSnoc(atoms);
    if InOrder(front) {
      LatePartShows(atoms);
    } else {
      DisorderShows(front);
      DisorderStays(KindsOf(front), KindsOf(atoms));
    }
  }

  lemma DisorderStays(before: seq<BlockKind>, after: seq<BlockKind>)
    requires Disordered(before) && before <= after
    ensures Disordered(after)
  {
    var p, q :| 0 <= p < q < |before| && Rank(before[p]) > Rank(before[q]);
    assert Rank(after[p]) > Rank(after[q]);
  }

  /** The first part that comes too late. */
  lemma LatePartShows(atoms: seq<Atom>)
    requires Proper(atoms) && !InOrder(atoms) && InOrder(atoms[..|atoms| - 1])
    ensures Disordered(KindsOf(atoms))
  {
    var front := atoms[..|atoms| - 1];
    InOrderSnoc(atoms);
    KindsSnoc(atoms);
    OrderedRunTracks(front);
    var (t, before) := FeedAll(START, front);
    LateKind(t, Accumulate(front), ReceiveAll(NOTHING, before), atoms[|atoms| - 1]);
    var kinds := KindsOf(atoms);
    assert kinds[t.blockIndex] == t.blockKind;
    assert Rank(kinds[t.blockIndex]) > Rank(kinds[t.blockIndex + 1]);
  }

  /** A part that comes too late opens a block of a lower rank than the open one. */
  lemma LateKind(t: Translator, acc: Accumulated, c: Client, a: Atom)
    requires Tracks(t, acc, c)
    requires (a.Thinking? && (acc.content != "" || acc.tools != [])) || (a.Text? && acc.tools != [])
    ensures var u := Feed(t, a).0;
            t.blockOpen && u.blockOpen && u.blockIndex == t.blockIndex + 1 && Rank(t.blockKind) > Rank(u.blockKind)
  {
    if acc.tools != [] {
      assert c.blocks[|c.blocks| - 1] == ToolBlocksOf(acc.tools)[|acc.tools| - 1];
    } else {
      assert c.blocks[|c.blocks| - 1] == ClientText(acc.content);
    }
  }

  /** The non-streaming content is always in order. */
  lemma ContentIsOrdered<J>(codec: M.Codec<J>, m: M.ChatMessage, p: nat, q: nat)
    requires p < q < |M.ContentBlocks(codec, m)|
    ensures BlockRank(M.ContentBlocks(codec, m)[p]) <= BlockRank(M.ContentBlocks(codec, m)[q])
  {
    var prose := M.ProseBlocks<J>(m);
    var uses := M.ToolUses(codec, m.toolCalls, |prose|);
    ProseIsOrdered(m, prose);
    forall i | 0 <= i < |uses| ensures BlockRank(uses[i]) == 2 {
      UseIsTool(codec, m.toolCalls, |prose|, i);
    }
    OrderedAcross(prose, uses, p, q);
  }

  lemma OrderedAcross<J>(prose: seq<M.Block<J>>, uses: seq<M.Block<J>>, p: nat, q: nat)
    requires p < q
    requires forall i :: 0 <= i < |prose| ==> BlockRank(prose[i]) <= 1
    requires forall i, j :: 0 <= i < j < |prose| ==> BlockRank(prose[i]) <= BlockRank(prose[j])
    requires forall i :: 0 <= i < |uses| ==> BlockRank(uses[i]) == 2
    ensures q < |prose + uses| ==> BlockRank((prose + uses)[p]) <= BlockRank((prose + uses)[q])
  {}

  lemma ProseIsOrdered<J>(m: M.ChatMessage, prose: seq<M.Block<J>>)
    requires prose == M.ProseBlocks<J>(m)
    ensures forall i :: 0 <= i < |prose| ==> BlockRank(prose[i]) <= 1
    ensures forall i, j :: 0 <= i < j < |prose| ==> BlockRank(prose[i]) <= BlockRank(prose[j])
  {}

  lemma {:induction false} UseIsTool<J>(codec: M.Codec<J>, calls: seq<M.ToolCall>, before: nat, i: nat)
    requires i < |calls|
    ensures BlockRank(M.ToolUses(codec, calls, before)[i]) == 2
    decreases |calls|
  {
    if i < |calls| - 1 {
      UseIsTool(codec, calls[..|calls| - 1], before, i);
    }
  }

  function BlockRank<J>(b: M.Block<J>): int {
    match b
    case ThinkingContent(_, _) => 0
    case TextContent(_) => 1
    case ToolUse(_, _, _) => 2
  }

  lemma ReadKeepsRank<J>(codec: M.Codec<J>, b: ClientBlock, read: M.Block<J>)
    requires ReadBlock(codec, b) == Some(read)
    ensures BlockRank(read) == Rank(KindOf(b))
  {}

  /** Closing the last block changes no kind. */
  lemma ClosingKeepsKinds(atoms: seq<Atom>)
    ensures var (t, events) := FeedAll(START, atoms);
            var blocks := ReceiveAll(ReceiveAll(NOTHING, events), Close(t)).blocks;
            |blocks| == |KindsOf(atoms)| && forall i :: 0 <= i < |blocks| ==> KindOf(blocks[i]) == KindsOf(atoms)[i]
  {
    var (t, events) := FeedAll(START, atoms);
    Grammar.RunIsRead(false, atoms);
    var r := Grammar.ReadAll(false, Grammar.STARTED, events);
    Grammar.CloseIsRead(false, t, r);
    Grammar.ReadAllAppend(false, Grammar.STARTED, events, Close(t));
    ReceiveAllAppend(NOTHING, events, Close(t));
    KindsFollowReader(events + Close(t));
  }

  // ----- agreement

  /** The content agrees exactly for streams in order, with some content, valid arguments and calls
      that are named first. */
  lemma ContentAgrees<J>(codec: M.Codec<J>, id: string, model: string, atoms: seq<Atom>)
    requires Proper(atoms)
    ensures var acc := Accumulate(atoms);
            ReadBlocks(codec, ReceiveAll(NOTHING, Translation(id, model, atoms, Complete)).blocks)
            == Some(M.ContentBlocks(codec, ResponseOf(Gather(atoms)).message))
            <==> InOrder(atoms) && HasContent(atoms) && ArgumentsParse(codec, acc) && Identified(acc, GatherTools(atoms))
  {
    ReceivedAtTheEnd(id, model, atoms);
    if InOrder(atoms) {
      OrderedContent(codec, atoms);
    } else {
      DisorderedContent(codec, atoms, ResponseOf(Gather(atoms)).message);
    }
  }

  lemma OrderedContent<J>(codec: M.Codec<J>, atoms: seq<Atom>)
    requires Proper(atoms) && InOrder(atoms)
    ensures var (t, events) := FeedAll(START, atoms);
            var acc := Accumulate(atoms);
            ReadBlocks(codec, ReceiveAll(ReceiveAll(NOTHING, events), Close(t)).blocks)
            == Some(M.ContentBlocks(codec, ResponseOf(Gather(atoms)).message))
            <==> HasContent(atoms) && ArgumentsParse(codec, acc) && Identified(acc, GatherTools(atoms))
  {
    var acc := Accumulate(atoms);
    var (t, events) := FeedAll(START, atoms);
    OrderedRunTracks(atoms);
    ReceiveClose(t, acc, ReceiveAll(NOTHING, events));
    ContentMeansBlocks(atoms);
    GatheredAlike(atoms);
    SealedContent(codec, acc, GatherTools(atoms));
  }

  /** When the blocks shown read back as the non-streaming content of what was gathered. */
  lemma SealedContent<J>(codec: M.Codec<J>, acc: Accumulated, gathered: seq<ToolFragment>)
    requires AllAlike(acc.tools, gathered)
    ensures ReadBlocks(codec, Expected(acc, true))
            == Some(M.ContentBlocks(codec, ResponseOf(acc.(tools := gathered)).message))
            <==> Expected(acc, true) != [] && ArgumentsParse(codec, acc) && Identified(acc, gathered)
  {
    var prose := M.ProseBlocks<J>(ResponseOf(acc).message);
    if !ArgumentsParse(codec, acc) {
      UnreadableArguments(codec, acc);
    } else if !Identified(acc, gathered) {
      AsManyCalls(gathered);
      NamesShow(codec, acc, gathered, prose);
    } else {
      ReadExpected(codec, acc, gathered, prose);
    }
  }

  lemma ContentMeansBlocks(atoms: seq<Atom>)
    requires Proper(atoms)
    ensures HasContent(atoms) <==> Expected(Accumulate(atoms), true) != []
  {
    EmptyFields(atoms);
    if i :| 0 <= i < |atoms| && HasKind(atoms[i]) {
      assert Has(atoms, AtomRank(atoms[i]));
    }
    assert Has(atoms, 0) || Has(atoms, 1) || Has(atoms, 2) ==> HasContent(atoms);
  }

  /** Blocks out of order are no non-streaming content at all. */
  lemma DisorderedContent<J>(codec: M.Codec<J>, atoms: seq<Atom>, m: M.ChatMessage)
    requires Proper(atoms) && !InOrder(atoms)
    ensures var (t, events) := FeedAll(START, atoms);
            ReadBlocks(codec, ReceiveAll(ReceiveAll(NOTHING, events), Close(t)).blocks) != Some(M.ContentBlocks(codec, m))
  {
    var (t, events) := FeedAll(START, atoms);
    var blocks := ReceiveAll(ReceiveAll(NOTHING, events), Close(t)).blocks;
    var content := M.ContentBlocks(codec, m);
    DisorderShows(atoms);
    ClosingKeepsKinds(atoms);
    var p, q :| 0 <= p < q < |KindsOf(atoms)| && Rank(KindsOf(atoms)[p]) > Rank(KindsOf(atoms)[q]);
    if ReadBlocks(codec, blocks) == Some(content) {
      ReadEach(codec, blocks, p);
      ReadEach(codec, blocks, q);
      ReadKeepsRank(codec, blocks[p], content[p]);
      ReadKeepsRank(codec, blocks[q], content[q]);
      ContentIsOrdered(codec, m, p, q);
    }
  }

  /** The streamed message and the non-streaming message agree, blocks, stop reason and usage,
      exactly when the stream is in order, has content and a finish reason, its arguments parse, the
      first fragment of each call names it, and its completion count comes after its text. */
  ghost predicate Agrees<J>(codec: M.Codec<J>, atoms: seq<Atom>) {
    var acc := Accumulate(atoms);
    && InOrder(atoms) && HasContent(atoms) && ArgumentsParse(codec, acc) && Identified(acc, GatherTools(atoms))
    && HasFinish(atoms) && CountedLast(atoms)
  }

  lemma StreamAgreesWithMessage<J>(codec: M.Codec<J>, id: string, model: string, atoms: seq<Atom>)
    requires Proper(atoms)
    ensures ReadMessage(codec, Translation(id, model, atoms, Complete))
            == Some(M.ToAnthropic(codec, ResponseOf(Gather(atoms))))
            <==> Agrees(codec, atoms)
  {
    ContentAgrees(codec, id, model, atoms);
    ReceivedAtTheEnd(id, model, atoms);
    CountersMeaning(atoms);
    NoTextsSince(atoms);
  }

  lemma {:induction false} LinesAreProper(read: Bytes -> Parsed, lines: seq<Bytes>)
    ensures Proper(AtomsOfLines(read, lines))
  {
    if lines != [] {
      LinesAreProper(read, lines[1..]);
      if read(lines[0]).Json? {
        PayloadsAreProper(read(lines[0]).payload);
      }
    }
  }

  /** The same for the bytes of a response that can be read to its end, however they were chunked. */
  lemma BytesAgreeWithMessage<J>(codec: M.Codec<J>, parse: Bytes -> Parsed, id: string, model: string, bytes: Bytes)
    requires !Breaks(LineReader(parse), Lines(bytes))
    ensures var atoms := AtomsOfLines(LineReader(parse), Lines(bytes));
            ReadMessage(codec, StreamTranslation(parse, id, model, bytes, Complete))
            == Some(M.ToAnthropic(codec, ResponseOf(Gather(atoms))))
            <==> Agrees(codec, atoms)
  {
    var atoms := AtomsOfLines(LineReader(parse), Lines(bytes));
    LinesAreProper(LineReader(parse), Lines(bytes));
    StreamAgreesWithMessage(codec, id, model, atoms);
  }
}
