/** The translation loses nothing: the content deltas are the upstream fragments, in order, and each
    tool call's fragments go to a block of its own. */
module StreamContent {
  import opened StreamModel
  import opened StreamGrammar

  /** A fragment of content, and for arguments the block it belongs to. */
  datatype Piece = ThinkingPiece(text: string) | TextPiece(text: string) | ArgumentsPiece(block: int, json: string)

  function PieceOf(e: Event): seq<Piece> {
    match e
    case BlockDelta(i, delta) =>
      (match delta
       case ThinkingDelta(text) => [ThinkingPiece(text)]
       case TextDelta(text) => [TextPiece(text)]
       case JsonDelta(json) => [ArgumentsPiece(i, json)]
       case SignatureDelta => [])
    case _ => []
  }

  function FlatMap<A, B>(f: A -> seq<B>, xs: seq<A>): seq<B> {
    if xs == [] then [] else FlatMap(f, xs[..|xs| - 1]) + f(xs[|xs| - 1])
  }

  lemma {:induction false} FlatMapAppend<A, B>(f: A -> seq<B>, a: seq<A>, b: seq<A>)
    ensures FlatMap(f, a + b) == FlatMap(f, a) + FlatMap(f, b)
    decreases |b|
  {
    if b == [] {
      assert a + b == a;
    } else {
      assert (a + b)[..|a + b| - 1] == a + b[..|b| - 1];
      FlatMapAppend(f, a, b[..|b| - 1]);
    }
  }

  /** The fragments a client receives. */
  function Received(events: seq<Event>): seq<Piece> {
    FlatMap(PieceOf, events)
  }

  /** The fragments upstream sent, with each tool index read through `blocks`. */
  function Sent(atoms: seq<Atom>, blocks: map<int, int>): seq<Piece> {
    if atoms == [] then []
    else Sent(atoms[..|atoms| - 1], blocks) + SentBy(atoms[|atoms| - 1], blocks)
  }

  function SentBy(a: Atom, blocks: map<int, int>): seq<Piece> {
    match a
    case Thinking(text) => [ThinkingPiece(text)]
    case Text(text) => [TextPiece(text)]
    case Tool(f) =>
      if f.arguments == "" then []
      else [ArgumentsPiece(if f.index in blocks then blocks[f.index] else -1, f.arguments)]
    case _ => []
  }

  lemma ReceivedAppend(a: seq<Event>, b: seq<Event>)
    ensures Received(a + b) == Received(a) + Received(b)
  {
    FlatMapAppend(PieceOf, a, b);
  }

  lemma ReceivedOne(e: Event)
    ensures Received([e]) == PieceOf(e)
  {
    assert [e][..0] == [];
    assert FlatMap(PieceOf, [e][..0]) == [];
  }

  lemma ClosingSendsNothing(t: Translator)
    ensures Received(Close(t)) == []
  {
    if t.blockOpen {
      ReceivedOne(BlockStop(t.blockIndex));
      ReceivedOne(BlockDelta(t.blockIndex, SignatureDelta));
      ReceivedAppend([BlockDelta(t.blockIndex, SignatureDelta)], [BlockStop(t.blockIndex)]);
      assert [] + [BlockStop(t.blockIndex)] == [BlockStop(t.blockIndex)];
    }
  }

  lemma OpeningSendsNothing(t: Translator, kind: BlockKind, id: BlockId, name: string)
    ensures Received(Open(t, kind, id, name).1) == []
  {
    ClosingSendsNothing(t);
    ReceivedOne(BlockStart(t.blockIndex + 1, kind, id, name));
    ReceivedAppend(Close(t), [BlockStart(t.blockIndex + 1, kind, id, name)]);
  }

  lemma OneMoreSends(opening: seq<Event>, e: Event)
    requires Received(opening) == []
    ensures Received(opening + [e]) == PieceOf(e)
  {
    ReceivedAppend(opening, [e]);
    ReceivedOne(e);
  }

  lemma EnsuringToolSendsNothing(t: Translator, f: ToolFragment)
    ensures Received(EnsureTool(t, f).1) == []
  {
    OpeningSendsNothing(t, ToolBlock, StreamedId(f), f.name);
  }

  lemma ToolSends(t: Translator, f: ToolFragment)
    ensures Received(Feed(t, Tool(f)).1) == SentBy(Tool(f), Feed(t, Tool(f)).0.toolBlocks)
  {
    var (u, opening) := EnsureTool(t, f);
    EnsuringToolSendsNothing(t, f);
    if f.arguments == "" {
      assert opening + [] == opening;
    } else {
      OneMoreSends(opening, BlockDelta(u.toolBlocks[f.index], JsonDelta(f.arguments)));
    }
  }

  lemma FeedSends(t: Translator, a: Atom)
    ensures Received(Feed(t, a).1) == SentBy(a, Feed(t, a).0.toolBlocks)
  {
    if a.Thinking? {
      var (u, opening) := Ensure(t, ThinkingBlock);
      OpeningSendsNothing(t, ThinkingBlock, NO_ID, "");
      OneMoreSends(opening, BlockDelta(u.blockIndex, ThinkingDelta(a.text)));
    } else if a.Text? {
      var (u, opening) := Ensure(t, TextBlock);
      OpeningSendsNothing(t, TextBlock, NO_ID, "");
      OneMoreSends(opening, BlockDelta(u.blockIndex, TextDelta(a.text)));
    } else if a.Tool? {
      ToolSends(t, a.fragment);
    }
  }

  /** Extending the tool map does not change what earlier fragments meant. */
  lemma {:induction false} SentIsStable(atoms: seq<Atom>, before: map<int, int>, after: map<int, int>)
    requires forall x :: Seen(atoms, x) ==> x in before && x in after && before[x] == after[x]
    ensures Sent(atoms, before) == Sent(atoms, after)
  {
    if atoms != [] {
      var n := |atoms| - 1;
      forall x | Seen(atoms[..n], x) || IsTool(atoms[n], x) ensures Seen(atoms, x) {
        SeenSnoc(atoms, x);
      }
      if atoms[n].Tool? {
        assert IsTool(atoms[n], atoms[n].fragment.index);
      }
      SentIsStable(atoms[..n], before, after);
    }
  }

  /** The tool map only grows. */
  lemma ToolMapGrows(atoms: seq<Atom>, a: Atom, x: int)
    requires Seen(atoms, x)
    ensures var u := FeedAll(START, atoms).0;
            x in u.toolBlocks && x in Feed(u, a).0.toolBlocks && u.toolBlocks[x] == Feed(u, a).0.toolBlocks[x]
  {
    ToolMapMeaning(atoms, x);
  }

  /** One more part sends one more fragment. */
  lemma StepSends(front: seq<Atom>, a: Atom, before: seq<Event>)
    requires Received(before) == Sent(front, FeedAll(START, front).0.toolBlocks)
    ensures var (t, last) := Feed(FeedAll(START, front).0, a);
            Received(before + last) == Sent(front, t.toolBlocks) + SentBy(a, t.toolBlocks)
  {
    var u := FeedAll(START, front).0;
    ReceivedAppend(before, Feed(u, a).1);
    FeedSends(u, a);
    forall x | Seen(front, x)
      ensures x in u.toolBlocks && x in Feed(u, a).0.toolBlocks && u.toolBlocks[x] == Feed(u, a).0.toolBlocks[x]
    {
      ToolMapGrows(front, a, x);
    }
    SentIsStable(front, u.toolBlocks, Feed(u, a).0.toolBlocks);
  }

  lemma {:induction false} RunSends(atoms: seq<Atom>)
    ensures Received(FeedAll(START, atoms).1) == Sent(atoms, FeedAll(START, atoms).0.toolBlocks)
  {
    if atoms != [] {
      var n := |atoms| - 1;
      RunSends(atoms[..n]);
      StepSends(atoms[..n], atoms[n], FeedAll(START, atoms[..n]).1);
    }
  }

  lemma TranslationSends(id: string, model: string, atoms: seq<Atom>, ending: Ending)
    ensures Received(Translation(id, model, atoms, ending)) == Received(FeedAll(START, atoms).1)
  {
    var (t, events) := FeedAll(START, atoms);
    var first := [MessageStart(id, model)];
    ReceivedOne(first[0]);
    ReceivedAppend(first, events);
    FinaleSendsNothing(t, ending);
    ReceivedAppend(first + events, Finale(t, ending));
    assert [] + Received(events) + [] == Received(events);
  }

  /** The client receives exactly the fragments upstream sent, in order; every tool index that occurs
      has its own block; and no fragment comes from the start or the end of the message. */
  lemma NothingIsLost(id: string, model: string, atoms: seq<Atom>, ending: Ending)
    ensures var blocks := FeedAll(START, atoms).0.toolBlocks;
            && Received(Translation(id, model, atoms, ending)) == Sent(atoms, blocks)
            && (forall x :: x in blocks <==> Seen(atoms, x))
            && (forall x, y :: x in blocks && y in blocks && blocks[x] == blocks[y] ==> x == y)
  {
    TranslationSends(id, model, atoms, ending);
    RunSends(atoms);
    RunIsRead(false, atoms);
    forall x ensures x in FeedAll(START, atoms).0.toolBlocks <==> Seen(atoms, x) {
      ToolMapMeaning(atoms, x);
    }
  }

  lemma FinaleSendsNothing(t: Translator, ending: Ending)
    ensures Received(Finale(t, ending)) == []
  {
    match ending
    case Complete => SummarySendsNothing(t);
    case TransportError(message) => ReceivedOne(ErrorEvent(message));
    case Cut =>
  }

  lemma SummarySendsNothing(t: Translator)
    ensures Received(Finale(t, Complete)) == []
  {
    var summary := MessageDelta(t.stopReason, t.inputTokens, t.outputTokens);
    ClosingSendsNothing(t);
    ReceivedOne(summary);
    ReceivedOne(MessageStop);
    ReceivedAppend([summary], [MessageStop]);
    ReceivedAppend(Close(t), [summary, MessageStop]);
    assert [summary] + [MessageStop] == [summary, MessageStop];
  }

  // ----- the fragments put back together

  function AllArguments(pieces: seq<Piece>, block: int): string {
    if pieces == [] then ""
    else
      var last := pieces[|pieces| - 1];
      AllArguments(pieces[..|pieces| - 1], block)
      + (if last.ArgumentsPiece? && last.block == block then last.json else "")
  }

  /** All arguments upstream sent for a tool index. */
  function UpstreamArguments(atoms: seq<Atom>, x: int): string {
    if atoms == [] then ""
    else
      var last := atoms[|atoms| - 1];
      UpstreamArguments(atoms[..|atoms| - 1], x) + (if IsTool(last, x) then last.fragment.arguments else "")
  }

  /** Reading one block's argument fragments gives one tool index's arguments. */
  lemma {:induction false} BlockCarriesItsTool(atoms: seq<Atom>, blocks: map<int, int>, x: int)
    requires forall y :: Seen(atoms, y) ==> y in blocks
    requires forall y, z :: y in blocks && z in blocks && blocks[y] == blocks[z] ==> y == z
    requires x in blocks
    ensures AllArguments(Sent(atoms, blocks), blocks[x]) == UpstreamArguments(atoms, x)
  {
    if atoms != [] {
      var n := |atoms| - 1;
      forall y | Seen(atoms[..n], y) || IsTool(atoms[n], y) ensures Seen(atoms, y) {
        SeenSnoc(atoms, y);
      }
      BlockCarriesItsTool(atoms[..n], blocks, x);
      if atoms[n].Tool? {
        assert IsTool(atoms[n], atoms[n].fragment.index);
      }
      ArgumentsSnoc(Sent(atoms[..n], blocks), atoms[n], blocks, x);
    }
  }

  /** For every tool index that occurs, the argument fragments a client receives for its block are,
      put together, all the arguments upstream sent for that index. */
  lemma ArgumentsArrive(id: string, model: string, atoms: seq<Atom>, ending: Ending, x: int)
    requires Seen(atoms, x)
    ensures var blocks := FeedAll(START, atoms).0.toolBlocks;
            && x in blocks
            && AllArguments(Received(Translation(id, model, atoms, ending)), blocks[x]) == UpstreamArguments(atoms, x)
  {
    NothingIsLost(id, model, atoms, ending);
    BlockCarriesItsTool(atoms, FeedAll(START, atoms).0.toolBlocks, x);
  }

  lemma ArgumentsSnoc(pieces: seq<Piece>, a: Atom, blocks: map<int, int>, x: int)
    requires a.Tool? ==> a.fragment.index in blocks
    requires x in blocks && forall y :: y in blocks && blocks[y] == blocks[x] ==> y == x
    ensures AllArguments(pieces + SentBy(a, blocks), blocks[x])
            == AllArguments(pieces, blocks[x]) + (if IsTool(a, x) then a.fragment.arguments else "")
  {
    var last := SentBy(a, blocks);
    if last == [] {
      assert pieces + last == pieces;
      assert AllArguments(pieces, blocks[x]) + "" == AllArguments(pieces, blocks[x]);
    } else {
      assert (pieces + last)[..|pieces|] == pieces;
    }
  }
}
