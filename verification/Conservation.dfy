/** Nothing that arrives in a stream is lost on the way to the reply, and nothing is added. */
module Conservation {
  import opened Basics
  import opened Replies
  import opened Transcripts

  // ----- what a reply holds and what a stream said

  function ReasoningPart(block: Block): string {
    if block.Thinking? then block.reasoning else ""
  }

  /** The proofs of reasoning a block carries: its signature, or the one kept on its own. */
  function ProofPart(block: Block): seq<string> {
    if block.Thinking? && block.signature.Some? then [block.signature.value]
    else if block.Opaque? then OwnProof(block.kind, block.raw)
    else []
  }

  function OwnProof(kind: string, raw: Json): seq<string> {
    if kind == "signature_without_block" && raw.Object? && |raw.fields| == 1 && raw.fields[0].0 == "signature" && raw.fields[0].1.String?
    then [raw.fields[0].1.text] else []
  }

  function CallPart(block: Block): seq<Block> {
    if block.ToolUse? then [block] else []
  }

  /** Blocks kept verbatim, except for signatures kept on their own. */
  function WholePart(block: Block): seq<Block> {
    if block.Opaque? && OwnProof(block.kind, block.raw) == [] then [block] else []
  }

  function Said<T>(events: seq<Event>, part: Event -> seq<T>): seq<T>
    decreases |events|
  {
    if events == [] then []
    else Said(events[..|events| - 1], part) + part(events[|events| - 1])
  }

  function TextSaid(e: Event): string {
    if e.TextDelta? then e.text else ""
  }

  function ReasoningSaid(e: Event): string {
    if e.ThinkingDelta? then e.text else ""
  }

  function ProofSaid(e: Event): seq<string> {
    if e.ThinkingSignature? then [e.signature]
    else if e.WholeBlock? then OwnProof(e.kind, e.raw)
    else []
  }

  function WholeSaid(e: Event): seq<Block> {
    if e.WholeBlock? && OwnProof(e.kind, e.raw) == [] then [Opaque(e.kind, e.raw)] else []
  }

  /** The tool calls of a stream as they were written, and whether the last is still open:
      fragments are taken only inside an open call, and anything but a fragment, a model or a
      usage report closes it. */
  datatype Written = Written(calls: seq<Pending>, open: bool)

  function Calls(events: seq<Event>): (w: Written)
    ensures w.open ==> w.calls != []
    decreases |events|
  {
    if events == [] then Written([], false)
    else CallsThen(Calls(events[..|events| - 1]), events[|events| - 1])
  }

  function CallsThen(w: Written, e: Event): (w': Written)
    requires w.open ==> w.calls != []
    ensures w'.open ==> w'.calls != []
  {
    match e
    case ToolUseStarted(id, name) => Written(w.calls + [Pending(id, name, "")], true)
    case ToolArgumentsDelta(fragment) => if w.open then w.(calls := Extended(w.calls, fragment)) else w
    case Started(_) => w
    case Metered(_) => w
    case _ => w.(open := false)
  }

  function Extended(calls: seq<Pending>, fragment: string): seq<Pending>
    requires calls != []
  {
    var last := calls[|calls| - 1];
    calls[|calls| - 1 := last.(arguments := last.arguments + fragment)]
  }

  function AllFinished(codec: Codec, calls: seq<Pending>): seq<Block> {
    seq(|calls|, i requires 0 <= i < |calls| => Finished(codec, calls[i]))
  }

  // ----- one event adds exactly what it says

  /** Every measure of a transcript's blocks. */
  datatype Held = Held(text: string, reasoning: string, proofs: multiset<string>, whole: seq<Block>, calls: seq<Block>)

  ghost function Holds(blocks: seq<Block>): Held {
    Held(Gather(blocks, TextPart), Gather(blocks, ReasoningPart), multiset(Gather(blocks, ProofPart)),
         Gather(blocks, WholePart), Gather(blocks, CallPart))
  }

  ghost function Plus(h: Held, more: Held): Held {
    Held(h.text + more.text, h.reasoning + more.reasoning, h.proofs + more.proofs, h.whole + more.whole,
         h.calls + more.calls)
  }

  ghost function HeldIn(block: Block): Held {
    Held(TextPart(block), ReasoningPart(block), multiset(ProofPart(block)), WholePart(block), CallPart(block))
  }

  lemma OneMoreBlock(blocks: seq<Block>, block: Block)
    ensures Holds(blocks + [block]) == Plus(Holds(blocks), HeldIn(block))
  {
    GatherOneMore(blocks, block, TextPart);
    GatherOneMore(blocks, block, ReasoningPart);
    GatherOneMore(blocks, block, ProofPart);
    GatherOneMore(blocks, block, WholePart);
    GatherOneMore(blocks, block, CallPart);
  }

  const NOTHING := Held("", "", multiset{}, [], [])

  ghost function Adds(e: Event): Held {
    Held(TextSaid(e), ReasoningSaid(e), multiset(ProofSaid(e)), WholeSaid(e), [])
  }

  lemma PlusNothing(a: Held)
    ensures Plus(a, NOTHING) == a
  {
  }

  lemma PlusAssociates(a: Held, b: Held, c: Held)
    ensures Plus(Plus(a, b), c) == Plus(a, Plus(b, c))
  {
  }

  lemma AroundBlock(blocks: seq<Block>, i: nat)
    requires i < |blocks|
    ensures Holds(blocks) == Plus(Plus(Holds(blocks[..i]), HeldIn(blocks[i])), Holds(blocks[i + 1..]))
  {
    GatherAround(blocks, i, TextPart);
    GatherAround(blocks, i, ReasoningPart);
    GatherAround(blocks, i, ProofPart);
    GatherAround(blocks, i, WholePart);
    GatherAround(blocks, i, CallPart);
  }

  /** A last block that grows makes the whole hold that much more. */
  lemma LastGrows(blocks: seq<Block>, grown: Block, more: Held)
    requires blocks != []
    requires HeldIn(grown) == Plus(HeldIn(blocks[|blocks| - 1]), more)
    ensures Holds(blocks[|blocks| - 1 := grown]) == Plus(Holds(blocks), more)
  {
    hide Holds, Plus, HeldIn;
    var front, last := blocks[..|blocks| - 1], blocks[|blocks| - 1];
    assert blocks == front + [last];
    assert blocks[|blocks| - 1 := grown] == front + [grown];
    OneMoreBlock(front, last);
    OneMoreBlock(front, grown);
    PlusAssociates(Holds(front), HeldIn(last), more);
  }

  lemma AddTextHolds(blocks: seq<Block>, text: string)
    ensures Holds(AddText(blocks, text)) == Plus(Holds(blocks), NOTHING.(text := text))
  {
    hide Holds;
    if blocks != [] && blocks[|blocks| - 1].Text? {
      LastGrows(blocks, Text(blocks[|blocks| - 1].text + text), NOTHING.(text := text));
    } else {
      OneMoreBlock(blocks, Text(text));
    }
  }

  lemma AddThinkingHolds(blocks: seq<Block>, text: string)
    ensures Holds(AddThinking(blocks, text)) == Plus(Holds(blocks), NOTHING.(reasoning := text))
  {
    hide Holds;
    if blocks != [] && Open(blocks[|blocks| - 1]) {
      LastGrows(blocks, Thinking(blocks[|blocks| - 1].reasoning + text, None), NOTHING.(reasoning := text));
    } else {
      OneMoreBlock(blocks, Thinking(text, None));
    }
  }

  lemma SignHolds(blocks: seq<Block>, signature: string)
    ensures Holds(Sign(blocks, signature)) == Plus(Holds(blocks), NOTHING.(proofs := multiset{signature}))
  {
    hide Holds, Plus;
    match LastOpen(blocks) {
      case None =>
        OneMoreBlock(blocks, Orphan(signature));
        assert HeldIn(Orphan(signature)) == NOTHING.(proofs := multiset{signature});
      case Some(i) =>
        SigningAddsAProof(blocks[i].reasoning, signature);
        BlockGrows(blocks, i, Thinking(blocks[i].reasoning, Some(signature)), NOTHING.(proofs := multiset{signature}));
    }
  }

  lemma SigningAddsAProof(reasoning: string, signature: string)
    ensures HeldIn(Thinking(reasoning, Some(signature))) ==
            Plus(HeldIn(Thinking(reasoning, None)), NOTHING.(proofs := multiset{signature}))
  {
  }

  /** A block that gains something nothing after it holds any of makes the whole hold that much more. */
  lemma BlockGrows(blocks: seq<Block>, i: nat, grown: Block, more: Held)
    requires i < |blocks| && more == NOTHING.(proofs := more.proofs)
    requires HeldIn(grown) == Plus(HeldIn(blocks[i]), more)
    ensures Holds(blocks[i := grown]) == Plus(Holds(blocks), more)
  {
    hide Holds, HeldIn;
    var now := blocks[i := grown];
    assert now[..i] == blocks[..i] && now[i + 1..] == blocks[i + 1..];
    AroundBlock(blocks, i);
    AroundBlock(now, i);
    ProofsCommute(Holds(blocks[..i]), HeldIn(blocks[i]), more, Holds(blocks[i + 1..]));
  }

  lemma ProofsCommute(a: Held, b: Held, more: Held, c: Held)
    requires more == NOTHING.(proofs := more.proofs)
    ensures Plus(Plus(a, Plus(b, more)), c) == Plus(Plus(Plus(a, b), c), more)
  {
  }

  lemma CloseHolds(codec: Codec, s: State)
    ensures Holds(Close(codec, s).blocks) ==
            if s.pending.None? then Holds(s.blocks)
            else Plus(Holds(s.blocks), NOTHING.(calls := [Finished(codec, s.pending.value)]))
  {
    if s.pending.Some? {
      OneMoreBlock(s.blocks, Finished(codec, s.pending.value));
    }
  }

  // ----- a whole stream adds exactly what it says

  /** What a stream says so far, and what the transcript of it holds: the same, the call still
      being written aside. */
  ghost predicate Kept(codec: Codec, events: seq<Event>, s: State) {
    var w, held := Calls(events), Holds(s.blocks);
    && held.text == Said(events, TextSaid)
    && held.reasoning == Said(events, ReasoningSaid)
    && held.proofs == multiset(Said(events, ProofSaid))
    && held.whole == Said(events, WholeSaid)
    && (s.pending.Some? <==> w.open)
    && (w.open ==> s.pending.value == w.calls[|w.calls| - 1])
    && held.calls == AllFinished(codec, if w.open then w.calls[..|w.calls| - 1] else w.calls)
  }

  lemma SaidOneMore(events: seq<Event>, e: Event)
    ensures Said(events + [e], TextSaid) == Said(events, TextSaid) + TextSaid(e)
    ensures Said(events + [e], ReasoningSaid) == Said(events, ReasoningSaid) + ReasoningSaid(e)
    ensures Said(events + [e], ProofSaid) == Said(events, ProofSaid) + ProofSaid(e)
    ensures Said(events + [e], WholeSaid) == Said(events, WholeSaid) + WholeSaid(e)
    ensures Calls(events + [e]) == CallsThen(Calls(events), e)
  {
    assert (events + [e])[..|events|] == events;
  }

  /** What one event adds to the blocks, once an open call has been closed if it closes one. */
  lemma EventHolds(codec: Codec, s: State, e: Event)
    ensures Holds(Transcribe(codec, s, e).blocks) ==
            Plus(Holds(if e.Started? || e.Metered? || e.ToolArgumentsDelta? then s.blocks else Close(codec, s).blocks),
                 Adds(e))
  {
    hide Holds, Plus, Adds, Input, Sign, AddText, AddThinking;
    EventAdds(e);
    var closed := Close(codec, s).blocks;
    hide Close;
    match e {
      case TextDelta(text) => AddTextHolds(closed, text);
      case ThinkingDelta(text) => AddThinkingHolds(closed, text);
      case ThinkingSignature(signature) => SignHolds(closed, signature);
      case WholeBlock(kind, raw) => OneMoreBlock(closed, Opaque(kind, raw));
      case ToolUseStarted(_, _) => PlusNothing(Holds(closed));
      case Stopped(_, _) => PlusNothing(Holds(closed));
      case ToolArgumentsDelta(_) => PlusNothing(Holds(s.blocks));
      case Started(_) => PlusNothing(Holds(s.blocks));
      case Metered(_) => PlusNothing(Holds(s.blocks));
    }
  }

  lemma EventAdds(e: Event)
    ensures Adds(e) ==
            match e
            case TextDelta(text) => NOTHING.(text := text)
            case ThinkingDelta(text) => NOTHING.(reasoning := text)
            case ThinkingSignature(signature) => NOTHING.(proofs := multiset{signature})
            case WholeBlock(kind, raw) => HeldIn(Opaque(kind, raw))
            case _ => NOTHING
  {
  }

  lemma FinishedOneMore(codec: Codec, calls: seq<Pending>)
    requires calls != []
    ensures AllFinished(codec, calls[..|calls| - 1]) + [Finished(codec, calls[|calls| - 1])] == AllFinished(codec, calls)
  {
  }

  /** Closing an open call moves it among the finished ones. */
  lemma CloseKeeps(codec: Codec, events: seq<Event>, s: State)
    requires Kept(codec, events, s)
    ensures Holds(Close(codec, s).blocks) == Holds(s.blocks).(calls := AllFinished(codec, Calls(events).calls))
  {
    hide Holds, Calls, Said, AllFinished;
    CloseHolds(codec, s);
    if Calls(events).open {
      FinishedOneMore(codec, Calls(events).calls);
    }
  }

  lemma OneEventIsKept(codec: Codec, events: seq<Event>, s: State, e: Event)
    requires Kept(codec, events, s)
    ensures Kept(codec, events + [e], Transcribe(codec, s, e))
  {
    hide Holds, Calls, Said, AllFinished, Close, Sign, AddText, AddThinking, TextSaid, ReasoningSaid, ProofSaid, WholeSaid;
    SaidOneMore(events, e);
    EventHolds(codec, s, e);
    CloseKeeps(codec, events, s);
    var w := Calls(events);
    match e {
      case ToolUseStarted(id, name) =>
        assert (w.calls + [Pending(id, name, "")])[..|w.calls|] == w.calls;
      case ToolArgumentsDelta(fragment) =>
        if w.open {
          assert Extended(w.calls, fragment)[..|w.calls| - 1] == w.calls[..|w.calls| - 1];
        }
      case _ =>
    }
    ClosingIsNotPending(codec, s, e);
    MultisetsAdd(Said(events, ProofSaid), ProofSaid(e));
  }

  lemma MultisetsAdd(a: seq<string>, b: seq<string>)
    ensures multiset(a + b) == multiset(a) + multiset(b)
  {
  }

  /** Which events leave which call open. */
  lemma ClosingIsNotPending(codec: Codec, s: State, e: Event)
    ensures Transcribe(codec, s, e).pending ==
            match e
            case ToolUseStarted(id, name) => Some(Pending(id, name, ""))
            case ToolArgumentsDelta(fragment) =>
              if s.pending.None? then None
              else Some(s.pending.value.(arguments := s.pending.value.arguments + fragment))
            case Started(_) => s.pending
            case Metered(_) => s.pending
            case _ => None
  {
  }

  lemma NothingIsKept(codec: Codec, askedFor: string)
    ensures Kept(codec, [], Empty(askedFor))
  {
  }

  lemma {:induction false} StreamIsKept(codec: Codec, askedFor: string, events: seq<Event>)
    ensures Kept(codec, events, Fold(codec, Empty(askedFor), events))
    decreases |events|
  {
    hide Kept, Transcribe;
    if events == [] {
      NothingIsKept(codec, askedFor);
    } else {
      var front, e := events[..|events| - 1], events[|events| - 1];
      StreamIsKept(codec, askedFor, front);
      OneEventIsKept(codec, front, Fold(codec, Empty(askedFor), front), e);
      assert front + [e] == events;
    }
  }

  /** The theorem: the reply holds the text, the reasoning, the blocks kept verbatim and the
      tool calls exactly as they were said, in the order they were said, and every proof of
      reasoning exactly once. */
  lemma ReplyKeepsEverything(codec: Codec, askedFor: string, events: seq<Event>)
    ensures var blocks := Finish(codec, Fold(codec, Empty(askedFor), events)).message.content;
            && AnswerText(blocks) == Said(events, TextSaid)
            && Gather(blocks, ReasoningPart) == Said(events, ReasoningSaid)
            && Gather(blocks, WholePart) == Said(events, WholeSaid)
            && Gather(blocks, CallPart) == AllFinished(codec, Calls(events).calls)
            && multiset(Gather(blocks, ProofPart)) == multiset(Said(events, ProofSaid))
  {
    StreamIsKept(codec, askedFor, events);
    CloseKeeps(codec, events, Fold(codec, Empty(askedFor), events));
  }
}
