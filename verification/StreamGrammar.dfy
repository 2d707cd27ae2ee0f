/** The protocol a client of the Anthropic stream relies on, as an acceptor over events, and the
    proof that every translation is accepted. */
module StreamGrammar {
  import opened StreamModel

  /** Where a client is in a message: nothing seen; in the body, with the blocks started so far, the
      last of them open or not, signed or not; past `message_delta`; done; told of an error; or
      confronted with an event the protocol does not allow. */
  datatype Reader =
    | Waiting
    | Body(kinds: seq<BlockKind>, open: bool, signed: bool)
    | Summarized
    | Finished
    | Errored
    | Refused

  /** `strict` readers take deltas for the open block only; lenient ones take argument fragments for
      any tool block started so far.  Nothing but the stop may follow a signature. */
  function Read(strict: bool, r: Reader, e: Event): Reader {
    match e
    case MessageStart(_, _) => if r.Waiting? then Body([], false, false) else Refused
    case BlockStart(i, kind, _, _) =>
      if r.Body? && !r.open && i == |r.kinds| then Body(r.kinds + [kind], true, false) else Refused
    case BlockDelta(i, delta) => if r.Body? && 0 <= i < |r.kinds| then ReadDelta(strict, r, i, delta) else Refused
    case BlockStop(i) =>
      if r.Body? && r.open && 0 <= i == |r.kinds| - 1 && (r.kinds[i] == ThinkingBlock <==> r.signed)
      then r.(open := false, signed := false) else Refused
    case MessageDelta(_, _, _) => if r.Body? && !r.open then Summarized else Refused
    case MessageStop => if r.Summarized? then Finished else Refused
    case ErrorEvent(_) => if r.Body? then Errored else Refused
  }

  function ReadDelta(strict: bool, r: Reader, i: nat, delta: Delta): Reader
    requires r.Body? && i < |r.kinds|
  {
    var isOpen := r.open && i == |r.kinds| - 1 && !r.signed;
    match delta
    case ThinkingDelta(_) => if isOpen && r.kinds[i] == ThinkingBlock then r else Refused
    case SignatureDelta => if isOpen && r.kinds[i] == ThinkingBlock then r.(signed := true) else Refused
    case TextDelta(_) => if isOpen && r.kinds[i] == TextBlock then r else Refused
    case JsonDelta(_) => if !r.signed && r.kinds[i] == ToolBlock && (isOpen || !strict) then r else Refused
  }

  function ReadAll(strict: bool, r: Reader, events: seq<Event>): Reader {
    if events == [] then r
    else Read(strict, ReadAll(strict, r, events[..|events| - 1]), events[|events| - 1])
  }

  lemma {:induction false} ReadAllAppend(strict: bool, r: Reader, a: seq<Event>, b: seq<Event>)
    ensures ReadAll(strict, r, a + b) == ReadAll(strict, ReadAll(strict, r, a), b)
    decreases |b|
  {
    if b == [] {
      assert a + b == a;
    } else {
      assert (a + b)[..|a + b| - 1] == a + b[..|b| - 1];
      ReadAllAppend(strict, r, a, b[..|b| - 1]);
    }
  }

  lemma {:induction false} RefusedStays(strict: bool, events: seq<Event>)
    ensures ReadAll(strict, Refused, events) == Refused
  {
    if events != [] {
      RefusedStays(strict, events[..|events| - 1]);
    }
  }

  /** What a reader that has accepted the events so far knows of the translator. */
  ghost predicate InStep(t: Translator, r: Reader) {
    && r.Body? && r.open == t.blockOpen && !r.signed
    && |r.kinds| == t.blockIndex + 1
    && (t.blockOpen ==> |r.kinds| > 0 && r.kinds[t.blockIndex] == t.blockKind)
    && (!t.blockOpen ==> r.kinds == [])
    && (forall x :: x in t.toolBlocks ==> 0 <= t.toolBlocks[x] < |r.kinds| && r.kinds[t.toolBlocks[x]] == ToolBlock)
    && (forall x, y :: x in t.toolBlocks && y in t.toolBlocks && t.toolBlocks[x] == t.toolBlocks[y] ==> x == y)
  }

  lemma CloseIsRead(strict: bool, t: Translator, r: Reader)
    requires InStep(t, r)
    ensures ReadAll(strict, r, Close(t)) == r.(open := false)
  {
    var events := Close(t);
    if t.blockOpen {
      if t.blockKind == ThinkingBlock {
        assert events[..1] == [BlockDelta(t.blockIndex, SignatureDelta)] && events[..1][..0] == [];
        assert ReadAll(strict, r, events[..1]) == r.(signed := true);
      } else {
        assert events[..0] == [];
      }
    }
  }

  lemma OpenIsRead(strict: bool, t: Translator, r: Reader, kind: BlockKind, id: BlockId, name: string)
    requires InStep(t, r)
    ensures var (u, events) := Open(t, kind, id, name);
            ReadAll(strict, r, events) == Body(r.kinds + [kind], true, false)
            && InStep(u, Body(r.kinds + [kind], true, false))
  {
    var (u, events) := Open(t, kind, id, name);
    CloseIsRead(strict, t, r);
    assert events[..|events| - 1] == Close(t);
  }

  /** The fragment `a` addresses a tool block that is not the open one. */
  ghost predicate Strays(t: Translator, a: Atom) {
    && a.Tool? && a.fragment.arguments != "" && a.fragment.index in t.toolBlocks
    && t.toolBlocks[a.fragment.index] != t.blockIndex
  }

  /** Feeding one part keeps an accepting reader in step, unless the reader is strict and the part strays. */
  lemma FeedIsRead(strict: bool, t: Translator, r: Reader, a: Atom)
    requires InStep(t, r)
    ensures var (u, events) := Feed(t, a);
            var r' := ReadAll(strict, r, events);
            if strict && Strays(t, a) then r' == Refused else InStep(u, r')
  {
    var (u, events) := Feed(t, a);
    match a
    case Thinking(_) => EnsureIsRead(strict, t, r, ThinkingBlock, events);
    case Text(_) => EnsureIsRead(strict, t, r, TextBlock, events);
    case Tool(f) => ToolIsRead(strict, t, r, f);
    case _ => assert events == [];
  }

  lemma EnsureIsRead(strict: bool, t: Translator, r: Reader, kind: BlockKind, events: seq<Event>)
    requires InStep(t, r) && kind != ToolBlock
    requires events != [] && events[..|events| - 1] == Ensure(t, kind).1
    requires events[|events| - 1].BlockDelta? && events[|events| - 1].index == Ensure(t, kind).0.blockIndex
    requires kind == ThinkingBlock ==> events[|events| - 1].delta.ThinkingDelta?
    requires kind == TextBlock ==> events[|events| - 1].delta.TextDelta?
    ensures InStep(Ensure(t, kind).0, ReadAll(strict, r, events))
  {
    if t.blockOpen && t.blockKind == kind {
      assert events[..|events| - 1] == [];
    } else {
      OpenIsRead(strict, t, r, kind, NO_ID, "");
    }
  }

  lemma ToolIsRead(strict: bool, t: Translator, r: Reader, f: ToolFragment)
    requires InStep(t, r)
    ensures var (u, events) := Feed(t, Tool(f));
            var r' := ReadAll(strict, r, events);
            if strict && Strays(t, Tool(f)) then r' == Refused else InStep(u, r')
  {
    if f.index in t.toolBlocks {
      KnownToolIsRead(strict, t, r, f);
    } else {
      NewToolIsRead(strict, t, r, f);
    }
  }

  lemma KnownToolIsRead(strict: bool, t: Translator, r: Reader, f: ToolFragment)
    requires InStep(t, r) && f.index in t.toolBlocks
    ensures var (u, events) := Feed(t, Tool(f));
            var r' := ReadAll(strict, r, events);
            if strict && Strays(t, Tool(f)) then r' == Refused else InStep(u, r')
  {
    var (_, events) := Feed(t, Tool(f));
    if f.arguments != "" {
      assert events[..|events| - 1] == [];
    }
  }

  lemma NewToolIsRead(strict: bool, t: Translator, r: Reader, f: ToolFragment)
    requires InStep(t, r) && f.index !in t.toolBlocks
    ensures var (u, events) := Feed(t, Tool(f)); InStep(u, ReadAll(strict, r, events))
  {
    var (u, opening) := EnsureTool(t, f);
    var (_, events) := Feed(t, Tool(f));
    OpenIsRead(strict, t, r, ToolBlock, StreamedId(f), f.name);
    var r1 := Body(r.kinds + [ToolBlock], true, false);
    assert InStep(u, r1);
    if f.arguments == "" {
      assert events == opening;
    } else {
      assert events[..|events| - 1] == opening;
    }
  }

  // ----- whole runs

  const STARTED: Reader := Body([], false, false)

  /** No part of the run strays. */
  ghost predicate NoneStrays(atoms: seq<Atom>) {
    forall i :: 0 <= i < |atoms| ==> !StraysAt(atoms, i)
  }

  ghost predicate StraysAt(atoms: seq<Atom>, i: nat)
    requires i < |atoms|
  {
    Strays(FeedAll(START, atoms[..i]).0, atoms[i])
  }

  lemma OneMoreIsRead(strict: bool, u: Translator, before: seq<Event>, a: Atom, clean: bool)
    requires var r := ReadAll(strict, STARTED, before); if strict && !clean then r == Refused else InStep(u, r)
    ensures var (t, last) := Feed(u, a);
            var r := ReadAll(strict, STARTED, before + last);
            if strict && (!clean || Strays(u, a)) then r == Refused else InStep(t, r)
  {
    var (t, last) := Feed(u, a);
    ReadAllAppend(strict, STARTED, before, last);
    if strict && !clean {
      RefusedStays(strict, last);
    } else {
      FeedIsRead(strict, u, ReadAll(strict, STARTED, before), a);
    }
  }

  lemma NoneStraysSnoc(atoms: seq<Atom>)
    requires atoms != []
    ensures var n := |atoms| - 1;
            NoneStrays(atoms) <==> NoneStrays(atoms[..n]) && !Strays(FeedAll(START, atoms[..n]).0, atoms[n])
  {
    var n := |atoms| - 1;
    var front := atoms[..n];
    forall i | 0 <= i < n ensures StraysAt(atoms, i) <==> StraysAt(front, i) {
      assert front[..i] == atoms[..i];
    }
    assert StraysAt(atoms, n) <==> Strays(FeedAll(START, front).0, atoms[n]);
  }

  lemma {:induction false} RunIsRead(strict: bool, atoms: seq<Atom>)
    ensures var (t, events) := FeedAll(START, atoms);
            var r := ReadAll(strict, STARTED, events);
            if strict && !NoneStrays(atoms) then r == Refused else InStep(t, r)
  {
    if atoms == [] {
      assert ReadAll(strict, STARTED, []) == STARTED;
    } else {
      var n := |atoms| - 1;
      RunIsRead(strict, atoms[..n]);
      NoneStraysSnoc(atoms);
      var (u, before) := FeedAll(START, atoms[..n]);
      OneMoreIsRead(strict, u, before, atoms[n], NoneStrays(atoms[..n]));
    }
  }

  lemma ReadTwo(strict: bool, r: Reader, first: Event, second: Event)
    ensures ReadAll(strict, r, [first, second]) == Read(strict, Read(strict, r, first), second)
  {
    var both := [first, second];
    assert both[..1] == [first] && both[..1][..0] == [];
    assert ReadAll(strict, r, both[..1]) == Read(strict, r, first);
  }

  lemma FinaleIsRead(strict: bool, t: Translator, r: Reader, ending: Ending)
    requires InStep(t, r)
    ensures var r' := ReadAll(strict, r, Finale(t, ending));
            match ending
            case Complete => r' == Finished
            case TransportError(_) => r' == Errored
            case Cut => r' == r
  {
    match ending
    case Complete =>
      var summary := MessageDelta(t.stopReason, t.inputTokens, t.outputTokens);
      CloseIsRead(strict, t, r);
      ReadAllAppend(strict, r, Close(t), [summary, MessageStop]);
      ReadTwo(strict, r.(open := false), summary, MessageStop);
    case TransportError(message) => assert [ErrorEvent(message)][..0] == [];
    case Cut =>
  }

  lemma TranslationIsRead(strict: bool, id: string, model: string, atoms: seq<Atom>, ending: Ending)
    ensures ReadAll(strict, Waiting, Translation(id, model, atoms, ending))
            == ReadAll(strict, ReadAll(strict, STARTED, FeedAll(START, atoms).1), Finale(FeedAll(START, atoms).0, ending))
  {
    var (t, events) := FeedAll(START, atoms);
    var first := [MessageStart(id, model)];
    assert first[..0] == [];
    assert ReadAll(strict, Waiting, first) == STARTED;
    ReadAllAppend(strict, Waiting, first, events);
    ReadAllAppend(strict, Waiting, first + events, Finale(t, ending));
  }

  /** Every translation of every payload sequence is a well-formed message: one start, blocks numbered
      from zero and closed one before the next, a signature exactly at the end of each thinking block,
      deltas of the right kind, and the announced end. */
  lemma TranslationIsWellFormed(id: string, model: string, atoms: seq<Atom>, ending: Ending)
    ensures var r := ReadAll(false, Waiting, Translation(id, model, atoms, ending));
            match ending
            case Complete => r == Finished
            case TransportError(_) => r == Errored
            case Cut => r.Body?
  {
    TranslationIsRead(false, id, model, atoms, ending);
    RunIsRead(false, atoms);
    var (t, events) := FeedAll(START, atoms);
    FinaleIsRead(false, t, ReadAll(false, STARTED, events), ending);
  }

  // ----- fragments and the open block

  predicate IsTool(a: Atom, x: int) {
    a.Tool? && a.fragment.index == x
  }

  /** Some earlier part is a fragment of tool `x`. */
  ghost predicate Seen(atoms: seq<Atom>, x: int) {
    exists i :: 0 <= i < |atoms| && IsTool(atoms[i], x)
  }

  /** Part `k` speaks of something other than a tool call that was already started. */
  ghost predicate Begins(atoms: seq<Atom>, k: nat)
    requires k < |atoms|
  {
    atoms[k].Thinking? || atoms[k].Text? || (atoms[k].Tool? && !Seen(atoms[..k], atoms[k].fragment.index))
  }

  /** After the first fragment of tool `x` something else began. */
  ghost predicate Interrupted(atoms: seq<Atom>, x: int) {
    exists k :: 0 <= k < |atoms| && Begins(atoms, k) && Seen(atoms[..k], x)
  }

  /** Argument fragments of a tool call arrive before anything else begins. */
  ghost predicate Contiguous(atoms: seq<Atom>) {
    forall j :: 0 <= j < |atoms| && atoms[j].Tool? && atoms[j].fragment.arguments != ""
                ==> !Interrupted(atoms[..j], atoms[j].fragment.index)
  }

  lemma SeenSnoc(atoms: seq<Atom>, x: int)
    requires atoms != []
    ensures Seen(atoms, x) <==> Seen(atoms[..|atoms| - 1], x) || IsTool(atoms[|atoms| - 1], x)
  {
    var front := atoms[..|atoms| - 1];
    assert forall i :: 0 <= i < |front| ==> front[i] == atoms[i];
  }

  lemma InterruptedSnoc(atoms: seq<Atom>, x: int)
    requires atoms != []
    ensures var n := |atoms| - 1;
            Interrupted(atoms, x) <==> Interrupted(atoms[..n], x) || (Begins(atoms, n) && Seen(atoms[..n], x))
  {
    var n := |atoms| - 1;
    var front := atoms[..n];
    forall k | 0 <= k < n ensures front[..k] == atoms[..k] && front[k] == atoms[k] {}
    if Interrupted(atoms, x) {
      var k :| 0 <= k < |atoms| && Begins(atoms, k) && Seen(atoms[..k], x);
      assert k < n ==> front[..k] == atoms[..k] && Begins(front, k);
    }
    if Interrupted(front, x) {
      var k :| 0 <= k < |front| && Begins(front, k) && Seen(front[..k], x);
      assert front[..k] == atoms[..k] && Begins(atoms, k);
    }
  }

  lemma FeedMovesTools(t: Translator, r: Reader, a: Atom, x: int)
    requires InStep(t, r)
    ensures var u := Feed(t, a).0;
            && (x in u.toolBlocks <==> x in t.toolBlocks || IsTool(a, x))
            && (x in u.toolBlocks && x !in t.toolBlocks ==> u.toolBlocks[x] == u.blockIndex)
            && (x in t.toolBlocks ==>
                  (u.toolBlocks[x] == u.blockIndex <==>
                   t.toolBlocks[x] == t.blockIndex
                   && !a.Thinking? && !a.Text? && (a.Tool? ==> a.fragment.index in t.toolBlocks)))
  {}

  /** The tool map knows exactly the tools seen, and a tool's block is the current one exactly while
      nothing has interrupted it. */
  lemma {:induction false} ToolMapMeaning(atoms: seq<Atom>, x: int)
    ensures var t := FeedAll(START, atoms).0;
            && (x in t.toolBlocks <==> Seen(atoms, x))
            && (x in t.toolBlocks ==> (t.toolBlocks[x] == t.blockIndex <==> !Interrupted(atoms, x)))
  {
    if atoms != [] {
      var n := |atoms| - 1;
      var front, a := atoms[..n], atoms[n];
      ToolMapMeaning(front, x);
      if a.Tool? {
        ToolMapMeaning(front, a.fragment.index);
      }
      SeenSnoc(atoms, x);
      InterruptedSnoc(atoms, x);
      NotYetInterrupted(front, x);
      RunIsRead(false, front);
      FeedMovesTools(FeedAll(START, front).0, ReadAll(false, STARTED, FeedAll(START, front).1), a, x);
    }
  }

  lemma NotYetInterrupted(atoms: seq<Atom>, x: int)
    ensures Interrupted(atoms, x) ==> Seen(atoms, x)
  {
    if Interrupted(atoms, x) {
      var k :| 0 <= k < |atoms| && Begins(atoms, k) && Seen(atoms[..k], x);
      var i :| 0 <= i < k && IsTool(atoms[..k][i], x);
      assert IsTool(atoms[i], x);
    }
  }

  lemma StraysWhenInterrupted(atoms: seq<Atom>)
    ensures NoneStrays(atoms) <==> Contiguous(atoms)
  {
    forall j | 0 <= j < |atoms| && atoms[j].Tool?
      ensures StraysAt(atoms, j) <==> atoms[j].fragment.arguments != "" && Interrupted(atoms[..j], atoms[j].fragment.index)
    {
      var x := atoms[j].fragment.index;
      ToolMapMeaning(atoms[..j], x);
      NotYetInterrupted(atoms[..j], x);
    }
  }

  /** A client that insists that every delta addresses the open block accepts the stream exactly when
      the argument fragments of each tool call are contiguous. */
  lemma StrictReadersNeedContiguity(id: string, model: string, atoms: seq<Atom>, ending: Ending)
    ensures ReadAll(true, Waiting, Translation(id, model, atoms, ending)) != Refused <==> Contiguous(atoms)
    ensures ending == Complete && Contiguous(atoms) ==>
              ReadAll(true, Waiting, Translation(id, model, atoms, ending)) == Finished
  {
    TranslationIsRead(true, id, model, atoms, ending);
    RunIsRead(true, atoms);
    StraysWhenInterrupted(atoms);
    var (t, events) := FeedAll(START, atoms);
    if NoneStrays(atoms) {
      FinaleIsRead(true, t, ReadAll(true, STARTED, events), ending);
    } else {
      RefusedStays(true, Finale(t, ending));
    }
  }
}
