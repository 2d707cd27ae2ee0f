/** Reading the event stream the way a client does, and when that gives the message the
    non-streaming translation gives. */
module StreamAgreement {
  import opened Wrappers
  import opened StreamModel
  import M = Messages

  // ----- the client

  datatype ClientBlock =
    | ClientThinking(text: string, signature: string)
    | ClientText(text: string)
    | ClientTool(id: BlockId, name: string, json: string)

  datatype Client = Client(blocks: seq<ClientBlock>, stopReason: Option<string>, inputTokens: int, outputTokens: int)

  const NOTHING := Client([], None, 0, 0)

  function EmptyBlock(kind: BlockKind, id: BlockId, name: string): ClientBlock {
    match kind
    case ThinkingBlock => ClientThinking("", "")
    case TextBlock => ClientText("")
    case ToolBlock => ClientTool(id, name, "")
  }

  /** A delta appended to the block it addresses; one of the wrong kind is ignored. */
  function Grown(b: ClientBlock, delta: Delta): ClientBlock {
    match delta
    case ThinkingDelta(text) => if b.ClientThinking? then b.(text := b.text + text) else b
    case SignatureDelta => if b.ClientThinking? then b.(signature := b.signature + M.SIGNATURE) else b
    case TextDelta(text) => if b.ClientText? then ClientText(b.text + text) else b
    case JsonDelta(json) => if b.ClientTool? then b.(json := b.json + json) else b
  }

  function Receive(c: Client, e: Event): Client {
    match e
    case BlockStart(_, kind, id, name) => c.(blocks := c.blocks + [EmptyBlock(kind, id, name)])
    case BlockDelta(i, delta) => if 0 <= i < |c.blocks| then c.(blocks := c.blocks[i := Grown(c.blocks[i], delta)]) else c
    case MessageDelta(reason, input, output) => c.(stopReason := Some(reason), inputTokens := input, outputTokens := output)
    case _ => c
  }

  function ReceiveAll(c: Client, events: seq<Event>): Client {
    if events == [] then c else Receive(ReceiveAll(c, events[..|events| - 1]), events[|events| - 1])
  }

  lemma {:induction false} ReceiveAllAppend(c: Client, a: seq<Event>, b: seq<Event>)
    ensures ReceiveAll(c, a + b) == ReceiveAll(ReceiveAll(c, a), b)
    decreases |b|
  {
    if b == [] {
      assert a + b == a;
    } else {
      assert (a + b)[..|a + b| - 1] == a + b[..|b| - 1];
      ReceiveAllAppend(c, a, b[..|b| - 1]);
    }
  }

  lemma ReceiveOne(c: Client, e: Event)
    ensures ReceiveAll(c, [e]) == Receive(c, e)
  {
    assert [e][..0] == [];
  }

  // ----- the accumulated message

  /** A message put together from a stream: texts and arguments concatenated, the tool calls in order
      of appearance, the last finish reason, the latest counts. */
  datatype Accumulated = Accumulated(
    reasoning: string, content: string, tools: seq<ToolFragment>, finishReason: string, usage: Usage)

  function Position(tools: seq<ToolFragment>, x: int): (k: nat)
    ensures k <= |tools|
    ensures k < |tools| ==> tools[k].index == x
    ensures forall i :: 0 <= i < k ==> tools[i].index != x
  {
    if tools == [] || tools[0].index == x then 0 else 1 + Position(tools[1..], x)
  }

  function Latest(older: Option<int>, newer: Option<int>): Option<int> {
    if newer.Some? then newer else older
  }

  /** Each call under the id and the name of its first fragment, as the translator shows it. */
  function AddTool(tools: seq<ToolFragment>, f: ToolFragment): seq<ToolFragment> {
    var k := Position(tools, f.index);
    if k < |tools| then tools[k := tools[k].(arguments := tools[k].arguments + f.arguments)] else tools + [f]
  }

  function Add(acc: Accumulated, a: Atom): Accumulated {
    match a
    case Counted(u) => acc.(usage := Usage(Latest(acc.usage.promptTokens, u.promptTokens),
                                           Latest(acc.usage.completionTokens, u.completionTokens)))
    case Thinking(text) => acc.(reasoning := acc.reasoning + text)
    case Text(text) => acc.(content := acc.content + text)
    case Tool(f) => acc.(tools := AddTool(acc.tools, f))
    case Finish(reason) => acc.(finishReason := reason)
  }

  function Accumulate(atoms: seq<Atom>): Accumulated {
    if atoms == [] then Accumulated("", "", [], "", Usage(None, None))
    else Add(Accumulate(atoms[..|atoms| - 1]), atoms[|atoms| - 1])
  }

  function Filled(known: string, more: string): string { if known != "" then known else more }

  /** Each call under the first id and the first name any of its fragments has. */
  function GatherTool(tools: seq<ToolFragment>, f: ToolFragment): seq<ToolFragment> {
    var k := Position(tools, f.index);
    if k < |tools|
    then tools[k := ToolFragment(f.index, Filled(tools[k].id, f.id), Filled(tools[k].name, f.name),
                                 tools[k].arguments + f.arguments)]
    else tools + [f]
  }

  function GatherTools(atoms: seq<Atom>): seq<ToolFragment> {
    if atoms == [] then []
    else
      var front, last := GatherTools(atoms[..|atoms| - 1]), atoms[|atoms| - 1];
      if last.Tool? then GatherTool(front, last.fragment) else front
  }

  /** What an OpenAI client accumulates. */
  function Gather(atoms: seq<Atom>): Accumulated {
    Accumulate(atoms).(tools := GatherTools(atoms))
  }

  /** A call as shown and as gathered: they differ only in an id or a name the first fragment lacks. */
  predicate Alike(shown: ToolFragment, gathered: ToolFragment) {
    && gathered.index == shown.index && gathered.arguments == shown.arguments
    && (shown.id != "" ==> gathered.id == shown.id) && (shown.name != "" ==> gathered.name == shown.name)
  }

  predicate AllAlike(shown: seq<ToolFragment>, gathered: seq<ToolFragment>) {
    |gathered| == |shown| && forall k :: 0 <= k < |shown| ==> Alike(shown[k], gathered[k])
  }

  lemma SamePosition(shown: seq<ToolFragment>, gathered: seq<ToolFragment>, x: int)
    requires AllAlike(shown, gathered)
    ensures Position(shown, x) == Position(gathered, x)
  {
    var j, k := Position(shown, x), Position(gathered, x);
    assert j < |shown| ==> Alike(shown[j], gathered[j]);
    assert k < |shown| ==> Alike(shown[k], gathered[k]);
  }

  lemma ToolStaysAlike(shown: seq<ToolFragment>, gathered: seq<ToolFragment>, f: ToolFragment)
    requires AllAlike(shown, gathered)
    ensures AllAlike(AddTool(shown, f), GatherTool(gathered, f))
  {
    SamePosition(shown, gathered, f.index);
  }

  lemma {:induction false} GatheredAlike(atoms: seq<Atom>)
    ensures AllAlike(Accumulate(atoms).tools, GatherTools(atoms))
  {
    if atoms != [] {
      GatheredAlike(atoms[..|atoms| - 1]);
      if atoms[|atoms| - 1].Tool? {
        ToolStaysAlike(Accumulate(atoms[..|atoms| - 1]).tools, GatherTools(atoms[..|atoms| - 1]),
                       atoms[|atoms| - 1].fragment);
      }
    }
  }

  function CallsOf(tools: seq<ToolFragment>): seq<M.ToolCall> {
    if tools == [] then []
    else CallsOf(tools[..|tools| - 1])
         + [M.ToolCall(tools[|tools| - 1].id, tools[|tools| - 1].name, tools[|tools| - 1].arguments)]
  }

  function ResponseOf(acc: Accumulated): M.ChatResponse {
    M.ChatResponse(M.ChatMessage(acc.reasoning, acc.content, CallsOf(acc.tools)), acc.finishReason, acc.usage)
  }

  // ----- what the translator makes of it

  function ToolBlocksOf(tools: seq<ToolFragment>): (blocks: seq<ClientBlock>)
    ensures |blocks| == |tools|
    ensures forall i :: 0 <= i < |tools| ==> blocks[i] == ClientTool(StreamedId(tools[i]), tools[i].name, tools[i].arguments)
  {
    if tools == [] then []
    else ToolBlocksOf(tools[..|tools| - 1])
         + [ClientTool(StreamedId(tools[|tools| - 1]), tools[|tools| - 1].name, tools[|tools| - 1].arguments)]
  }

  /** Reasoning and text blocks of a message; the thinking block is signed once it is closed. */
  function ProseOf(acc: Accumulated, sealed: bool): seq<ClientBlock> {
    (if acc.reasoning != ""
     then [ClientThinking(acc.reasoning, if sealed || acc.content != "" || acc.tools != [] then M.SIGNATURE else "")]
     else [])
    + (if acc.content != "" then [ClientText(acc.content)] else [])
  }

  function Expected(acc: Accumulated, sealed: bool): seq<ClientBlock> {
    ProseOf(acc, sealed) + ToolBlocksOf(acc.tools)
  }

  function KindOf(b: ClientBlock): BlockKind {
    match b
    case ClientThinking(_, _) => ThinkingBlock
    case ClientText(_) => TextBlock
    case ClientTool(_, _, _) => ToolBlock
  }

  /** Thinking before text before tools. */
  function Rank(kind: BlockKind): int {
    match kind
    case ThinkingBlock => 0
    case TextBlock => 1
    case ToolBlock => 2
  }

  predicate HasKind(a: Atom) { a.Thinking? || a.Text? || a.Tool? }

  function AtomRank(a: Atom): int {
    if a.Thinking? then 0 else if a.Text? then 1 else 2
  }

  /** Reasoning, then text, then tool calls. */
  ghost predicate InOrder(atoms: seq<Atom>) {
    forall i, j :: 0 <= i < j < |atoms| && HasKind(atoms[i]) && HasKind(atoms[j])
                   ==> AtomRank(atoms[i]) <= AtomRank(atoms[j])
  }

  /** The text parts and finish reasons of a payload are never empty. */
  ghost predicate Proper(atoms: seq<Atom>) {
    forall i :: 0 <= i < |atoms| ==>
      (atoms[i].Thinking? || atoms[i].Text? ==> atoms[i].text != "") && (atoms[i].Finish? ==> atoms[i].reason != "")
  }

  lemma PayloadsAreProper(p: Payload)
    ensures Proper(AtomsOf(p))
  {}

  ghost predicate Has(atoms: seq<Atom>, rank: int) {
    exists i :: 0 <= i < |atoms| && HasKind(atoms[i]) && AtomRank(atoms[i]) == rank
  }

  lemma HasSnoc(atoms: seq<Atom>, rank: int)
    requires atoms != []
    ensures var n := |atoms| - 1;
            Has(atoms, rank) <==> Has(atoms[..n], rank) || (HasKind(atoms[n]) && AtomRank(atoms[n]) == rank)
  {
    var n := |atoms| - 1;
    assert forall i :: 0 <= i < n ==> atoms[..n][i] == atoms[i];
  }

  /** A message field is empty exactly when nothing was sent for it. */
  lemma {:induction false} EmptyFields(atoms: seq<Atom>)
    requires Proper(atoms)
    ensures var acc := Accumulate(atoms);
            && (acc.reasoning == "" <==> !Has(atoms, 0))
            && (acc.content == "" <==> !Has(atoms, 1))
            && (acc.tools == [] <==> !Has(atoms, 2))
  {
    if atoms != [] {
      EmptyFields(atoms[..|atoms| - 1]);
      HasSnoc(atoms, 0);
      HasSnoc(atoms, 1);
      HasSnoc(atoms, 2);
    }
  }

  /** Adding a part to an ordered sequence. */
  lemma InOrderSnoc(atoms: seq<Atom>)
    requires atoms != [] && Proper(atoms)
    ensures var n := |atoms| - 1;
            var acc := Accumulate(atoms[..n]);
            InOrder(atoms) <==>
            InOrder(atoms[..n]) && (atoms[n].Thinking? ==> acc.content == "" && acc.tools == [])
                                && (atoms[n].Text? ==> acc.tools == [])
  {
    var n := |atoms| - 1;
    var front := atoms[..n];
    EmptyFields(front);
    assert forall i :: 0 <= i < n ==> front[i] == atoms[i];
    if HasKind(atoms[n]) {
      if Has(front, 1) {
        var i :| 0 <= i < n && HasKind(front[i]) && AtomRank(front[i]) == 1;
        assert InOrder(atoms) ==> AtomRank(atoms[i]) <= AtomRank(atoms[n]);
      }
      if Has(front, 2) {
        var i :| 0 <= i < n && HasKind(front[i]) && AtomRank(front[i]) == 2;
        assert InOrder(atoms) ==> AtomRank(atoms[i]) <= AtomRank(atoms[n]);
      }
      forall i | 0 <= i < n && HasKind(atoms[i]) ensures Has(front, AtomRank(atoms[i])) {
        assert HasKind(front[i]);
      }
    }
  }

  // ----- an ordered stream, part by part

  /** The client's blocks and the translator's bookkeeping match the accumulated message. */
  ghost predicate Tracks(t: Translator, acc: Accumulated, c: Client) {
    && c.blocks == Expected(acc, false)
    && |c.blocks| == t.blockIndex + 1
    && (t.blockOpen <==> c.blocks != [])
    && (c.blocks != [] ==> KindOf(c.blocks[|c.blocks| - 1]) == t.blockKind)
    && ToolsTracked(t.toolBlocks, acc.tools, |ProseOf(acc, false)|)
  }

  /** The tool map sends the k-th accumulated call to block `before + k`, and knows no other. */
  ghost predicate ToolsTracked(toolBlocks: map<int, int>, tools: seq<ToolFragment>, before: nat) {
    && (forall k :: 0 <= k < |tools| ==> tools[k].index in toolBlocks && toolBlocks[tools[k].index] == before + k)
    && (forall x :: x in toolBlocks ==> exists k :: 0 <= k < |tools| && tools[k].index == x)
  }

  /** Closing the open block signs it when it is a thinking block. */
  lemma ReceiveClose(t: Translator, acc: Accumulated, c: Client)
    requires Tracks(t, acc, c)
    ensures ReceiveAll(c, Close(t)) == c.(blocks := Expected(acc, true))
  {
    if t.blockOpen {
      var stop := BlockStop(t.blockIndex);
      ReceiveOne(c, stop);
      if t.blockKind == ThinkingBlock {
        var sign := BlockDelta(t.blockIndex, SignatureDelta);
        ReceiveOne(c, sign);
        ReceiveAllAppend(c, [sign], [stop]);
        ReceiveOne(Receive(c, sign), stop);
        LastIsThinking(acc);
        assert "" + M.SIGNATURE == M.SIGNATURE;
        assert Receive(c, sign).blocks == Expected(acc, true);
      } else {
        assert [] + [stop] == [stop];
        LastIsNotThinking(acc);
      }
    }
  }

  lemma LastIsThinking(acc: Accumulated)
    requires Expected(acc, false) != [] && KindOf(Expected(acc, false)[|Expected(acc, false)| - 1]) == ThinkingBlock
    ensures acc.reasoning != "" && acc.content == "" && acc.tools == []
    ensures Expected(acc, false) == [ClientThinking(acc.reasoning, "")]
    ensures Expected(acc, true) == [ClientThinking(acc.reasoning, M.SIGNATURE)]
  {}

  lemma LastIsNotThinking(acc: Accumulated)
    requires Expected(acc, false) != [] && KindOf(Expected(acc, false)[|Expected(acc, false)| - 1]) != ThinkingBlock
    ensures Expected(acc, false) == Expected(acc, true)
  {}

  lemma ReceiveOpen(t: Translator, acc: Accumulated, c: Client, kind: BlockKind, id: BlockId, name: string)
    requires Tracks(t, acc, c)
    ensures ReceiveAll(c, Open(t, kind, id, name).1) == c.(blocks := Expected(acc, true) + [EmptyBlock(kind, id, name)])
  {
    ReceiveClose(t, acc, c);
    var start := BlockStart(t.blockIndex + 1, kind, id, name);
    ReceiveAllAppend(c, Close(t), [start]);
    ReceiveOne(c.(blocks := Expected(acc, true)), start);
  }

  lemma ThinkingOpened(t: Translator, acc: Accumulated, c: Client)
    requires Tracks(t, acc, c) && acc.content == "" && acc.tools == []
    ensures var (u, opening) := Ensure(t, ThinkingBlock);
            && ReceiveAll(c, opening).blocks == [ClientThinking(acc.reasoning, "")]
            && u == t.(blockOpen := true, blockIndex := 0, blockKind := ThinkingBlock)
  {
    if acc.reasoning == "" {
      ReceiveOpen(t, acc, c, ThinkingBlock, NO_ID, "");
      assert Expected(acc, true) == [];
    } else {
      assert Expected(acc, false) == [ClientThinking(acc.reasoning, "")];
    }
  }

  lemma ThinkingReceived(t: Translator, acc: Accumulated, c: Client, text: string)
    requires Tracks(t, acc, c) && acc.content == "" && acc.tools == []
    ensures ReceiveAll(c, Feed(t, Thinking(text)).1).blocks == [ClientThinking(acc.reasoning + text, "")]
    ensures Feed(t, Thinking(text)).0 == t.(blockOpen := true, blockIndex := 0, blockKind := ThinkingBlock)
  {
    ThinkingOpened(t, acc, c);
    var (u, opening) := Ensure(t, ThinkingBlock);
    var delta := BlockDelta(u.blockIndex, ThinkingDelta(text));
    ReceiveAllAppend(c, opening, [delta]);
    ReceiveOne(ReceiveAll(c, opening), delta);
  }

  lemma OnlyThinking(acc: Accumulated)
    requires acc.reasoning != "" && acc.content == "" && acc.tools == []
    ensures Expected(acc, false) == ProseOf(acc, false) == [ClientThinking(acc.reasoning, "")]
  {}

  lemma ThinkingTracks(t: Translator, acc: Accumulated, c: Client, text: string)
    requires Tracks(t, acc, c) && text != "" && acc.content == "" && acc.tools == []
    ensures Tracks(Feed(t, Thinking(text)).0, Add(acc, Thinking(text)), ReceiveAll(c, Feed(t, Thinking(text)).1))
  {
    ThinkingReceived(t, acc, c, text);
    Longer(acc.reasoning, text);
    NoTools(t.toolBlocks, |ProseOf(acc, false)|);
    ThinkingInStep(Feed(t, Thinking(text)).0, Add(acc, Thinking(text)), ReceiveAll(c, Feed(t, Thinking(text)).1));
  }

  lemma NoTools(toolBlocks: map<int, int>, before: nat)
    requires ToolsTracked(toolBlocks, [], before)
    ensures toolBlocks == map[]
  {
    assert forall x :: x !in toolBlocks;
  }

  lemma Longer(s: string, more: string)
    requires more != ""
    ensures s + more != ""
  {}

  lemma ThinkingInStep(u: Translator, acc: Accumulated, c: Client)
    requires acc.reasoning != "" && acc.content == "" && acc.tools == [] && c.blocks == [ClientThinking(acc.reasoning, "")]
    requires u.blockOpen && u.blockIndex == 0 && u.blockKind == ThinkingBlock && u.toolBlocks == map[]
    ensures Tracks(u, acc, c)
  {
    OnlyThinking(acc);
  }

  /** The thinking block of a message, signed. */
  function SignedThinking(acc: Accumulated): seq<ClientBlock> {
    if acc.reasoning != "" then [ClientThinking(acc.reasoning, M.SIGNATURE)] else []
  }

  lemma ProseWithText(acc: Accumulated)
    requires acc.content != "" && acc.tools == []
    ensures Expected(acc, false) == SignedThinking(acc) + [ClientText(acc.content)]
    ensures ProseOf(acc, false) == Expected(acc, false)
  {}

  lemma TextOpened(t: Translator, acc: Accumulated, c: Client)
    requires Tracks(t, acc, c) && acc.tools == []
    ensures var (u, opening) := Ensure(t, TextBlock);
            && ReceiveAll(c, opening).blocks == SignedThinking(acc) + [ClientText(acc.content)]
            && u == t.(blockOpen := true, blockIndex := |SignedThinking(acc)|, blockKind := TextBlock)
  {
    if acc.content == "" {
      ReceiveOpen(t, acc, c, TextBlock, NO_ID, "");
      assert Expected(acc, true) == SignedThinking(acc);
    } else {
      ProseWithText(acc);
    }
  }

  lemma TextReceived(t: Translator, acc: Accumulated, c: Client, text: string)
    requires Tracks(t, acc, c) && acc.tools == []
    ensures ReceiveAll(c, Feed(t, Text(text)).1).blocks == SignedThinking(acc) + [ClientText(acc.content + text)]
    ensures var u := Feed(t, Text(text)).0;
            u == t.(blockOpen := true, blockIndex := |SignedThinking(acc)|, blockKind := TextBlock,
                    outputTokens := t.outputTokens + 1)
  {
    TextOpened(t, acc, c);
    var (u, opening) := Ensure(t, TextBlock);
    var delta := BlockDelta(u.blockIndex, TextDelta(text));
    ReceiveAllAppend(c, opening, [delta]);
    ReceiveOne(ReceiveAll(c, opening), delta);
  }

  lemma TextTracks(t: Translator, acc: Accumulated, c: Client, text: string)
    requires Tracks(t, acc, c) && text != "" && acc.tools == []
    ensures var (u, events) := Feed(t, Text(text));
            Tracks(u, Add(acc, Text(text)), ReceiveAll(c, events))
  {
    TextReceived(t, acc, c, text);
    assert acc.content + text != "";
    ProseWithText(Add(acc, Text(text)));
  }

  lemma NewToolTracked(toolBlocks: map<int, int>, tools: seq<ToolFragment>, before: nat, f: ToolFragment)
    requires ToolsTracked(toolBlocks, tools, before) && f.index !in toolBlocks
    ensures ToolsTracked(toolBlocks[f.index := before + |tools|], tools + [f], before)
    ensures Position(tools, f.index) == |tools|
  {
    var more := tools + [f];
    forall k | 0 <= k < |tools| ensures tools[k].index in toolBlocks && more[k] == tools[k] {}
    assert more[|tools|] == f;
    forall x | x in toolBlocks ensures exists k :: 0 <= k < |more| && more[k].index == x {
      var k :| 0 <= k < |tools| && tools[k].index == x;
      assert more[k].index == x;
    }
  }

  lemma KnownToolTracked(toolBlocks: map<int, int>, tools: seq<ToolFragment>, before: nat, k: nat, f: ToolFragment)
    requires ToolsTracked(toolBlocks, tools, before) && k < |tools| && f.index == tools[k].index
    ensures ToolsTracked(toolBlocks, tools[k := f], before)
  {
    var more := tools[k := f];
    forall i | 0 <= i < |tools| ensures more[i].index == tools[i].index {}
    forall x | x in toolBlocks ensures exists i :: 0 <= i < |more| && more[i].index == x {
      var i :| 0 <= i < |tools| && tools[i].index == x;
      assert more[i].index == x;
    }
  }

  lemma SealedByTools(acc: Accumulated, f: ToolFragment)
    ensures var started := acc.(tools := acc.tools + [f]);
            && ProseOf(started, false) == ProseOf(acc, true) && |ProseOf(acc, true)| == |ProseOf(acc, false)|
            && Expected(started, false) == Expected(acc, true) + [ClientTool(StreamedId(f), f.name, f.arguments)]
  {
    var started := acc.tools + [f];
    assert started[..|started| - 1] == acc.tools;
    assert ToolBlocksOf(started) == ToolBlocksOf(acc.tools) + [ClientTool(StreamedId(f), f.name, f.arguments)];
  }

  /** What starting a tool block does to the translator. */
  lemma EnsureToolOpens(t: Translator, f: ToolFragment)
    requires f.index !in t.toolBlocks
    ensures var (u, opening) := EnsureTool(t, f);
            && opening == Open(t, ToolBlock, StreamedId(f), f.name).1
            && u.blockOpen && u.blockKind == ToolBlock && u.blockIndex == t.blockIndex + 1
            && u.toolBlocks == t.toolBlocks[f.index := t.blockIndex + 1]
  {}

  /** A first fragment starts a block for its call. */
  lemma NewToolTracks(t: Translator, acc: Accumulated, c: Client, f: ToolFragment)
    requires Tracks(t, acc, c) && f.index !in t.toolBlocks
    ensures var (u, opening) := EnsureTool(t, f);
            Tracks(u, acc.(tools := acc.tools + [f.(arguments := "")]), ReceiveAll(c, opening))
  {
    var f0 := f.(arguments := "");
    EnsureToolOpens(t, f);
    ReceiveOpen(t, acc, c, ToolBlock, StreamedId(f), f.name);
    SealedByTools(acc, f0);
    assert t.blockIndex + 1 == |ProseOf(acc, false)| + |acc.tools|;
    NewToolTracked(t.toolBlocks, acc.tools, |ProseOf(acc, false)|, f0);
    ToolInStep(EnsureTool(t, f).0, acc.(tools := acc.tools + [f0]), ReceiveAll(c, EnsureTool(t, f).1), Expected(acc, true),
               ClientTool(StreamedId(f), f.name, ""));
  }

  /** A tool block just started. */
  lemma ToolInStep(u: Translator, acc: Accumulated, c: Client, before: seq<ClientBlock>, tool: ClientBlock)
    requires c.blocks == before + [tool] == Expected(acc, false) && tool.ClientTool?
    requires u.blockOpen && u.blockKind == ToolBlock && u.blockIndex == |before|
    requires ToolsTracked(u.toolBlocks, acc.tools, |ProseOf(acc, false)|)
    ensures Tracks(u, acc, c)
  {}

  lemma LongerTool(acc: Accumulated, k: nat, f: ToolFragment)
    requires k < |acc.tools| && f.index == acc.tools[k].index
    ensures var before := |ProseOf(acc, false)|;
            Expected(acc.(tools := acc.tools[k := f]), false)
            == Expected(acc, false)[before + k := ClientTool(StreamedId(f), f.name, f.arguments)]
  {
    var more := acc.(tools := acc.tools[k := f]);
    assert ProseOf(more, false) == ProseOf(acc, false);
    assert ToolBlocksOf(more.tools) == ToolBlocksOf(acc.tools)[k := ClientTool(StreamedId(f), f.name, f.arguments)];
  }

  lemma ExpectedTool(acc: Accumulated, k: nat)
    requires k < |acc.tools|
    ensures var f := acc.tools[k];
            && |ProseOf(acc, false)| + k < |Expected(acc, false)|
            && Expected(acc, false)[|ProseOf(acc, false)| + k] == ClientTool(StreamedId(f), f.name, f.arguments)
  {
    assert Expected(acc, false)[|ProseOf(acc, false)| + k] == ToolBlocksOf(acc.tools)[k];
  }

  /** More arguments for a tool whose block was started. */
  lemma KnownToolTracks(t: Translator, acc: Accumulated, c: Client, k: nat, json: string)
    requires Tracks(t, acc, c) && k < |acc.tools|
    ensures var x := acc.tools[k].index;
            && x in t.toolBlocks
            && var longer := acc.tools[k].(arguments := acc.tools[k].arguments + json);
            Tracks(t, acc.(tools := acc.tools[k := longer]), Receive(c, BlockDelta(t.toolBlocks[x], JsonDelta(json))))
  {
    var longer := acc.tools[k].(arguments := acc.tools[k].arguments + json);
    KnownToolTracked(t.toolBlocks, acc.tools, |ProseOf(acc, false)|, k, longer);
    LongerTool(acc, k, longer);
    ExpectedTool(acc, k);
    var more := acc.(tools := acc.tools[k := longer]);
    assert ProseOf(more, false) == ProseOf(acc, false);
    var i := |ProseOf(acc, false)| + k;
    assert KindOf(c.blocks[i := Grown(c.blocks[i], JsonDelta(json))][|c.blocks| - 1]) == KindOf(c.blocks[|c.blocks| - 1]);
  }

  lemma AddToKnown(tools: seq<ToolFragment>, f: ToolFragment, k: nat)
    requires k == Position(tools, f.index) < |tools|
    ensures AddTool(tools, f) == tools[k := tools[k].(arguments := tools[k].arguments + f.arguments)]
  {}

  lemma AddToNew(tools: seq<ToolFragment>, f: ToolFragment, started: seq<ToolFragment>)
    requires Position(tools, f.index) == |tools| && started == tools + [f.(arguments := "")]
    ensures AddTool(tools, f) == started[|tools| := started[|tools|].(arguments := started[|tools|].arguments + f.arguments)]
  {
    assert "" + f.arguments == f.arguments;
  }

  lemma KnownFragmentTracks(t: Translator, acc: Accumulated, c: Client, f: ToolFragment, after: Accumulated)
    requires Tracks(t, acc, c) && f.index in t.toolBlocks && after == acc.(tools := AddTool(acc.tools, f))
    ensures if f.arguments == "" then Tracks(t, after, c)
            else Tracks(t, after, Receive(c, BlockDelta(t.toolBlocks[f.index], JsonDelta(f.arguments))))
  {
    var k := Position(acc.tools, f.index);
    assert k < |acc.tools|;
    AddToKnown(acc.tools, f, k);
    ArgumentsTrack(t, acc, c, f, k);
  }

  lemma NewFragmentTracks(t: Translator, acc: Accumulated, c: Client, f: ToolFragment, after: Accumulated,
                          u: Translator, c1: Client)
    requires Tracks(t, acc, c) && f.index !in t.toolBlocks && after == acc.(tools := AddTool(acc.tools, f))
    requires u == EnsureTool(t, f).0 && c1 == ReceiveAll(c, EnsureTool(t, f).1)
    ensures f.index in u.toolBlocks
    ensures if f.arguments == "" then Tracks(u, after, c1)
            else Tracks(u, after, Receive(c1, BlockDelta(u.toolBlocks[f.index], JsonDelta(f.arguments))))
  {
    var started := acc.tools + [f.(arguments := "")];
    NewToolTracks(t, acc, c, f);
    NewToolTracked(t.toolBlocks, acc.tools, |ProseOf(acc, false)|, f.(arguments := ""));
    AddToNew(acc.tools, f, started);
    ArgumentsTrack(u, acc.(tools := started), c1, f, |acc.tools|);
  }

  lemma ToolTracks(t: Translator, acc: Accumulated, c: Client, f: ToolFragment)
    requires Tracks(t, acc, c)
    ensures Tracks(Feed(t, Tool(f)).0, Add(acc, Tool(f)), ReceiveAll(c, Feed(t, Tool(f)).1))
  {
    var (u, opening) := EnsureTool(t, f);
    ToolEventsReceived(t, c, f);
    if f.index in t.toolBlocks {
      KnownFragmentTracks(t, acc, c, f, Add(acc, Tool(f)));
    } else {
      NewFragmentTracks(t, acc, c, f, Add(acc, Tool(f)), u, ReceiveAll(c, opening));
    }
  }

  lemma ToolEventsReceived(t: Translator, c: Client, f: ToolFragment)
    ensures var (u, opening) := EnsureTool(t, f);
            && Feed(t, Tool(f)).0 == u
            && ReceiveAll(c, Feed(t, Tool(f)).1)
               == if f.arguments == "" then ReceiveAll(c, opening)
                  else Receive(ReceiveAll(c, opening), BlockDelta(u.toolBlocks[f.index], JsonDelta(f.arguments)))
  {
    var (u, opening) := EnsureTool(t, f);
    if f.arguments == "" {
      assert opening + [] == opening;
    } else {
      var delta := BlockDelta(u.toolBlocks[f.index], JsonDelta(f.arguments));
      ReceiveAllAppend(c, opening, [delta]);
      ReceiveOne(ReceiveAll(c, opening), delta);
    }
  }

  /** The argument fragment of `f`, if it has one, reaches the block of call `k`. */
  lemma ArgumentsTrack(t: Translator, acc: Accumulated, c: Client, f: ToolFragment, k: nat)
    requires Tracks(t, acc, c) && k < |acc.tools| && acc.tools[k].index == f.index
    ensures f.index in t.toolBlocks
    ensures var more := acc.(tools := acc.tools[k := acc.tools[k].(arguments := acc.tools[k].arguments + f.arguments)]);
            if f.arguments == "" then Tracks(t, more, c)
            else Tracks(t, more, Receive(c, BlockDelta(t.toolBlocks[f.index], JsonDelta(f.arguments))))
  {
    KnownToolTracks(t, acc, c, k, f.arguments);
    if f.arguments == "" {
      assert acc.tools[k].arguments + "" == acc.tools[k].arguments;
      assert acc.tools[k := acc.tools[k]] == acc.tools;
    }
  }

  /** An ordered stream gives the client the accumulated message's blocks, the last one still open. */
  lemma {:induction false} OrderedRunTracks(atoms: seq<Atom>)
    requires Proper(atoms) && InOrder(atoms)
    ensures var (t, events) := FeedAll(START, atoms);
            Tracks(t, Accumulate(atoms), ReceiveAll(NOTHING, events))
  {
    if atoms != [] {
      var n := |atoms| - 1;
      var front, a := atoms[..n], atoms[n];
      InOrderSnoc(atoms);
      OrderedRunTracks(front);
      var (t, before) := FeedAll(START, front);
      var (u, last) := Feed(t, a);
      ReceiveAllAppend(NOTHING, before, last);
      var c, acc := ReceiveAll(NOTHING, before), Accumulate(front);
      if a.Thinking? {
        ThinkingTracks(t, acc, c, a.text);
      } else if a.Text? {
        TextTracks(t, acc, c, a.text);
      } else if a.Tool? {
        ToolTracks(t, acc, c, a.fragment);
      }
    }
  }
}
