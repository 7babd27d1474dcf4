/** In which order the proofs of reasoning end up. Each goes on the last thinking block still
    open, so with more than one open at once the order they arrived in is not the order they
    are kept in. */
module Signatures {
  import opened Basics
  import opened Replies
  import opened Transcripts
  import opened Conservation

  /** The proofs in the blocks before the one a signature lands on, and in those after it. */
  ghost function ProofsBefore(blocks: seq<Block>): seq<string> {
    match LastOpen(blocks)
    case None => Gather(blocks, ProofPart)
    case Some(i) => Gather(blocks[..i], ProofPart)
  }

  ghost function ProofsAfter(blocks: seq<Block>): seq<string> {
    match LastOpen(blocks)
    case None => []
    case Some(i) => Gather(blocks[i + 1..], ProofPart)
  }

  /** Whether a signature that arrives now goes after every proof already there. */
  ghost predicate NothingSignedSince(blocks: seq<Block>) {
    ProofsAfter(blocks) == []
  }

  ghost function Proofs(codec: Codec, askedFor: string, events: seq<Event>): seq<string> {
    Gather(Fold(codec, Empty(askedFor), events).blocks, ProofPart)
  }

  /** A stream in which no signature arrives for a block that a signed one has followed. */
  ghost predicate InOrder(codec: Codec, askedFor: string, events: seq<Event>)
    decreases |events|
  {
    events != [] ==>
      var front, e := events[..|events| - 1], events[|events| - 1];
      && InOrder(codec, askedFor, front)
      && (e.ThinkingSignature? ==> NothingSignedSince(Close(codec, Fold(codec, Empty(askedFor), front)).blocks))
  }

  lemma SignedBlocks(blocks: seq<Block>, signature: string, i: nat)
    requires LastOpen(blocks) == Some(i)
    ensures |Sign(blocks, signature)| == |blocks|
    ensures Sign(blocks, signature)[..i] == blocks[..i]
    ensures Sign(blocks, signature)[i + 1..] == blocks[i + 1..]
    ensures ProofPart(blocks[i]) == [] && ProofPart(Sign(blocks, signature)[i]) == [signature]
  {
  }

  /** A signature goes in among the proofs where the block it lands on is. */
  lemma SignInserts(blocks: seq<Block>, signature: string)
    ensures Gather(blocks, ProofPart) == ProofsBefore(blocks) + ProofsAfter(blocks)
    ensures Gather(Sign(blocks, signature), ProofPart) ==
            ProofsBefore(blocks) + [signature] + ProofsAfter(blocks)
  {
    hide Gather;
    match LastOpen(blocks) {
      case None =>
        GatherOneMore(blocks, Orphan(signature), ProofPart);
        assert ProofPart(Orphan(signature)) == [signature];
        assert ProofsBefore(blocks) + [] == ProofsBefore(blocks);
      case Some(i) =>
        SignInsertsAt(blocks, signature, i);
    }
  }

  lemma SignInsertsAt(blocks: seq<Block>, signature: string, i: nat)
    requires LastOpen(blocks) == Some(i)
    ensures Gather(blocks, ProofPart) == Gather(blocks[..i], ProofPart) + Gather(blocks[i + 1..], ProofPart)
    ensures Gather(Sign(blocks, signature), ProofPart) ==
            Gather(blocks[..i], ProofPart) + [signature] + Gather(blocks[i + 1..], ProofPart)
  {
    hide Gather, ProofPart, Sign;
    SignedBlocks(blocks, signature, i);
    GatherAround(blocks, i, ProofPart);
    var p := Gather(blocks[..i], ProofPart);
    assert p + [] == p;
    GatherAround(Sign(blocks, signature), i, ProofPart);
  }

  /** Whatever signature arrives next is kept last, exactly when nothing was signed since the
      block it lands on. */
  lemma SignatureGoesLastExactlyWhen(blocks: seq<Block>)
    ensures (forall signature: string ::
               Gather(Sign(blocks, signature), ProofPart) == Gather(blocks, ProofPart) + [signature])
            <==> NothingSignedSince(blocks)
  {
    hide ProofsBefore, ProofsAfter, Sign, Gather;
    var before, after := ProofsBefore(blocks), ProofsAfter(blocks);
    forall signature: string
      ensures Gather(Sign(blocks, signature), ProofPart) == before + [signature] + after
    {
      SignInserts(blocks, signature);
    }
    SignInserts(blocks, "");
    if after != [] {
      var other := after[0] + "'";
      assert (before + [other] + after)[|before|] == other;
      assert (before + after + [other])[|before|] == after[0];
    }
  }

  // ----- a whole stream

  ghost predicate Differ(q: seq<string>) {
    forall i, k :: 0 <= i < k < |q| ==> q[i] != q[k]
  }

  ghost predicate Precedes(q: seq<string>, a: string, b: string) {
    exists i, k :: 0 <= i < k < |q| && q[i] == a && q[k] == b
  }

  lemma InsertingKeepsOrder(before: seq<string>, more: seq<string>, after: seq<string>, a: string, b: string)
    requires Precedes(before + after, a, b)
    ensures Precedes(before + more + after, a, b)
  {
    var i, k :| 0 <= i < k < |before + after| && (before + after)[i] == a && (before + after)[k] == b;
    var i' := if i < |before| then i else i + |more|;
    var k' := if k < |before| then k else k + |more|;
    assert (before + more + after)[i'] == a && (before + more + after)[k'] == b;
  }

  /** Every other event leaves the proofs in order, its own at the end. */
  lemma OtherEventsAppend(codec: Codec, s: State, e: Event)
    requires !e.ThinkingSignature?
    ensures Gather(Transcribe(codec, s, e).blocks, ProofPart) == Gather(s.blocks, ProofPart) + ProofSaid(e)
  {
    hide Gather, Close;
    ClosingAddsNoProof(codec, s);
    var closed := Close(codec, s).blocks;
    match e {
      case TextDelta(text) => TextAddsNoProof(closed, text);
      case ThinkingDelta(text) => ThinkingAddsNoProof(closed, text);
      case WholeBlock(kind, raw) => GatherOneMore(closed, Opaque(kind, raw), ProofPart);
      case _ =>
    }
  }

  lemma TextAddsNoProof(blocks: seq<Block>, text: string)
    ensures Gather(AddText(blocks, text), ProofPart) == Gather(blocks, ProofPart)
  {
    hide Gather;
    if blocks != [] && blocks[|blocks| - 1].Text? {
      LastReplaced(blocks, Text(blocks[|blocks| - 1].text + text));
    } else {
      GatherOneMore(blocks, Text(text), ProofPart);
    }
  }

  lemma ThinkingAddsNoProof(blocks: seq<Block>, text: string)
    ensures Gather(AddThinking(blocks, text), ProofPart) == Gather(blocks, ProofPart)
  {
    hide Gather;
    if blocks != [] && Open(blocks[|blocks| - 1]) {
      LastReplaced(blocks, Thinking(blocks[|blocks| - 1].reasoning + text, None));
    } else {
      GatherOneMore(blocks, Thinking(text, None), ProofPart);
    }
  }

  lemma ClosingAddsNoProof(codec: Codec, s: State)
    ensures Gather(Close(codec, s).blocks, ProofPart) == Gather(s.blocks, ProofPart)
  {
    if s.pending.Some? {
      GatherOneMore(s.blocks, Finished(codec, s.pending.value), ProofPart);
    }
  }

  lemma LastReplaced(blocks: seq<Block>, block: Block)
    requires blocks != [] && ProofPart(block) == ProofPart(blocks[|blocks| - 1])
    ensures Gather(blocks[|blocks| - 1 := block], ProofPart) == Gather(blocks, ProofPart)
  {
    hide Gather;
    var front := blocks[..|blocks| - 1];
    assert blocks == front + [blocks[|blocks| - 1]];
    assert blocks[|blocks| - 1 := block] == front + [block];
    GatherOneMore(front, block, ProofPart);
    GatherOneMore(front, blocks[|blocks| - 1], ProofPart);
  }

  /** What a stream keeps of the order of its proofs: all of it when in order, and otherwise two
      of them the wrong way round. */
  ghost predicate Ordered(codec: Codec, askedFor: string, events: seq<Event>) {
    var said, held := Said(events, ProofSaid), Proofs(codec, askedFor, events);
    && (InOrder(codec, askedFor, events) ==> held == said)
    && (!InOrder(codec, askedFor, events) ==> exists a, b :: Precedes(held, a, b) && Precedes(said, b, a))
  }

  lemma {:induction false} StreamIsOrdered(codec: Codec, askedFor: string, events: seq<Event>)
    ensures Ordered(codec, askedFor, events)
    decreases |events|
  {
    if events != [] {
      var front, e := events[..|events| - 1], events[|events| - 1];
      StreamIsOrdered(codec, askedFor, front);
      assert front + [e] == events;
      SaidOneMore(front, e);
      OneEventIsOrdered(codec, askedFor, front, e);
    }
  }

  lemma OneEventIsOrdered(codec: Codec, askedFor: string, front: seq<Event>, e: Event)
    requires Ordered(codec, askedFor, front)
    ensures Ordered(codec, askedFor, front + [e])
  {
    hide Gather, ProofsBefore, ProofsAfter, Transcribe, Close;
    var events := front + [e];
    assert events[..|front|] == front && events[|events| - 1] == e;
    var s := Fold(codec, Empty(askedFor), front);
    var said, held := Said(front, ProofSaid), Proofs(codec, askedFor, front);
    FoldOneMore(codec, Empty(askedFor), front, e);
    SaidOneMore(front, e);
    var before, after := held, [];
    if e.ThinkingSignature? {
      var closed := Close(codec, s).blocks;
      ClosingAddsNoProof(codec, s);
      SignInserts(closed, e.signature);
      before, after := ProofsBefore(closed), ProofsAfter(closed);
      SignatureSigns(codec, s, e);
    } else {
      OtherEventsAppend(codec, s, e);
    }
    OrderGoesOn(said, held, before, ProofSaid(e), after, InOrder(codec, askedFor, front));
  }

  lemma SignatureSigns(codec: Codec, s: State, e: Event)
    requires e.ThinkingSignature?
    ensures Transcribe(codec, s, e).blocks == Sign(Close(codec, s).blocks, e.signature)
  {
  }

  /** The order of two growing sequences, one of which grows in the middle. */
  lemma OrderGoesOn(said: seq<string>, held: seq<string>, before: seq<string>, more: seq<string>,
                    after: seq<string>, ordered: bool)
    requires held == before + after && (after != [] ==> |more| == 1)
    requires if ordered then held == said else exists a, b :: Precedes(held, a, b) && Precedes(said, b, a)
    ensures if ordered && after == [] then before + more + after == said + more
            else exists a, b :: Precedes(before + more + after, a, b) && Precedes(said + more, b, a)
  {
    if !ordered {
      var a, b :| Precedes(held, a, b) && Precedes(said, b, a);
      InsertingKeepsOrder(before, more, after, a, b);
      assert said == said + [];
      assert said + more + [] == said + more;
      InsertingKeepsOrder(said, more, [], b, a);
    } else if after != [] {
      assert more == [more[0]];
      TurnedAround(before, more[0], after);
    }
  }

  lemma TurnedAround(before: seq<string>, signature: string, after: seq<string>)
    requires after != []
    ensures Precedes(before + [signature] + after, signature, after[0])
    ensures Precedes(before + after + [signature], after[0], signature)
  {
    assert (before + [signature] + after)[|before|] == signature;
    assert (before + [signature] + after)[|before| + 1] == after[0];
    assert (before + after + [signature])[|before|] == after[0];
    assert (before + after + [signature])[|before + after|] == signature;
  }

  /** The theorem: the reply keeps its proofs in the order they arrived if no signature arrives for a
      block that a signed one has followed, and, when no two proofs are the same, only then. */
  lemma ProofsKeepTheirOrderExactlyWhen(codec: Codec, askedFor: string, events: seq<Event>)
    ensures var kept := Gather(Finish(codec, Fold(codec, Empty(askedFor), events)).message.content, ProofPart)
                        == Said(events, ProofSaid);
            && (InOrder(codec, askedFor, events) ==> kept)
            && (Differ(Said(events, ProofSaid)) && kept ==> InOrder(codec, askedFor, events))
  {
    StreamIsOrdered(codec, askedFor, events);
    ClosingAddsNoProof(codec, Fold(codec, Empty(askedFor), events));
  }

  /** Two blocks of reasoning left open at once, as when text comes between them, are signed from the
      last back: the proof that arrived second is kept first. */
  lemma OpenBlocksAreSignedBackwards(codec: Codec, askedFor: string)
    ensures var events := [ThinkingDelta("a"), TextDelta("b"), ThinkingDelta("c"), ThinkingSignature("1"), ThinkingSignature("2")];
            Fold(codec, Empty(askedFor), events).blocks ==
            [Thinking("a", Some("2")), Text("b"), Thinking("c", Some("1"))]
  {
    hide Transcribe, Fold;
    var a, b, c, one, two := ThinkingDelta("a"), TextDelta("b"), ThinkingDelta("c"), ThinkingSignature("1"), ThinkingSignature("2");
    var start := Empty(askedFor);
    FiveSteps(codec, start);
    NothingYet(codec, start);
    FoldOneMore(codec, start, [], a);
    FoldOneMore(codec, start, [a], b);
    FoldOneMore(codec, start, [a, b], c);
    FoldOneMore(codec, start, [a, b, c], one);
    FoldOneMore(codec, start, [a, b, c, one], two);
    assert [] + [a] == [a] && [a] + [b] == [a, b] && [a, b] + [c] == [a, b, c];
    assert [a, b, c] + [one] == [a, b, c, one] && [a, b, c, one] + [two] == [a, b, c, one, two];
  }

  lemma NothingYet(codec: Codec, s: State)
    ensures Fold(codec, s, []) == s
  {
  }

  lemma FiveSteps(codec: Codec, s: State)
    requires s.blocks == [] && s.pending.None?
    ensures Transcribe(codec, s, ThinkingDelta("a")) == s.(blocks := [Thinking("a", None)])
    ensures Transcribe(codec, s.(blocks := [Thinking("a", None)]), TextDelta("b"))
            == s.(blocks := [Thinking("a", None), Text("b")])
    ensures Transcribe(codec, s.(blocks := [Thinking("a", None), Text("b")]), ThinkingDelta("c"))
            == s.(blocks := [Thinking("a", None), Text("b"), Thinking("c", None)])
    ensures Transcribe(codec, s.(blocks := [Thinking("a", None), Text("b"), Thinking("c", None)]), ThinkingSignature("1"))
            == s.(blocks := [Thinking("a", None), Text("b"), Thinking("c", Some("1"))])
    ensures Transcribe(codec, s.(blocks := [Thinking("a", None), Text("b"), Thinking("c", Some("1"))]), ThinkingSignature("2"))
            == s.(blocks := [Thinking("a", Some("2")), Text("b"), Thinking("c", Some("1"))])
  {
    var blocks := [Thinking("a", None), Text("b"), Thinking("c", Some("1"))];
    assert blocks[..2][..1] == [Thinking("a", None)] && LastOpen(blocks[..2][..1]) == Some(0);
    assert LastOpen(blocks[..2]) == Some(0) && LastOpen(blocks) == Some(0);
  }
}
