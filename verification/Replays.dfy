/** A finished reply taken apart into the events that would have produced it, and put together
    again. */
module Replays {
  import opened Basics
  import opened Replies
  import opened Transcripts

  // ----- taking a reply apart

  /** The events one block becomes. A block only a caller sends becomes none. */
  function EventsOf(codec: Codec, block: Block): seq<Event> {
    match block
    case Text(text) => [TextDelta(text)]
    case Thinking(text, None) => [ThinkingDelta(text)]
    case Thinking(text, Some(signature)) => [ThinkingDelta(text), ThinkingSignature(signature)]
    case ToolUse(id, name, input) => [ToolUseStarted(id, name), ToolArgumentsDelta(codec.write(input))]
    case Opaque(kind, raw) => [WholeBlock(kind, raw)]
    case _ => []
  }

  function Replay(codec: Codec, blocks: seq<Block>): seq<Event>
    decreases |blocks|
  {
    if blocks == [] then []
    else Replay(codec, blocks[..|blocks| - 1]) + EventsOf(codec, blocks[|blocks| - 1])
  }

  function ReplayStream(codec: Codec, reply: ChatResponse): seq<Event> {
    [Started(reply.model)] + Replay(codec, reply.message.content)
    + [Stopped(reply.stopReason, reply.stopDetails), Metered(reply.usage)]
  }

  method TakeApart(codec: Codec, reply: ChatResponse) returns (events: seq<Event>)
    ensures events == ReplayStream(codec, reply)
  {
    var content: seq<Event> := [];
    var blocks := reply.message.content;
    var at := 0;
    while at < |blocks|
      invariant at <= |blocks|
      invariant content == Replay(codec, blocks[..at])
    {
      assert blocks[..at + 1][..at] == blocks[..at];
      match blocks[at] {
        case Text(text) => content := content + [TextDelta(text)];
        case Thinking(text, signature) =>
          if signature.Some? {
            content := content + [ThinkingDelta(text), ThinkingSignature(signature.value)];
          } else {
            content := content + [ThinkingDelta(text)];
          }
        case ToolUse(id, name, input) =>
          content := content + [ToolUseStarted(id, name), ToolArgumentsDelta(codec.write(input))];
        case Opaque(kind, raw) => content := content + [WholeBlock(kind, raw)];
        case _ =>
      }
      at := at + 1;
    }
    assert blocks[..at] == blocks;
    events := [Started(reply.model)] + content;
    events := events + [Stopped(reply.stopReason, reply.stopDetails)];
    events := events + [Metered(reply.usage)];
  }

  // ----- the normal form of a reply

  /** Whether a block runs on into the one after it: text into text, and reasoning that was
      never signed into more reasoning. */
  predicate RunsOn(a: Block, b: Block) {
    (a.Text? && b.Text?) || (Open(a) && b.Thinking?)
  }

  function Together(a: Block, b: Block): Block
    requires RunsOn(a, b)
  {
    if a.Text? then Text(a.text + b.text) else Thinking(a.reasoning + b.reasoning, b.signature)
  }

  /** What only a caller sends is left out, and blocks that run on are put together. */
  function Normal(blocks: seq<Block>): seq<Block>
    decreases |blocks|
  {
    if blocks == [] then [] else WithBlock(Normal(blocks[..|blocks| - 1]), blocks[|blocks| - 1])
  }

  function WithBlock(done: seq<Block>, block: Block): seq<Block> {
    if block.CallerOnly() then done
    else if done != [] && RunsOn(done[|done| - 1], block)
    then done[..|done| - 1] + [Together(done[|done| - 1], block)]
    else done + [block]
  }

  ghost predicate IsNormal(blocks: seq<Block>) {
    && (forall b <- blocks :: !b.CallerOnly())
    && (forall k :: 0 < k < |blocks| ==> !RunsOn(blocks[k - 1], blocks[k]))
  }

  /** Whether one more block leaves a reply in normal form as it is. */
  ghost predicate Follows(done: seq<Block>, block: Block) {
    !block.CallerOnly() && (done != [] ==> !RunsOn(done[|done| - 1], block))
  }

  lemma NormalOneMore(front: seq<Block>, last: Block)
    ensures IsNormal(front + [last]) <==> IsNormal(front) && Follows(front, last)
  {
    var blocks := front + [last];
    if IsNormal(blocks) {
      assert forall b <- front :: b in blocks;
      assert forall k :: 0 <= k < |front| ==> front[k] == blocks[k];
      assert blocks[|front|] == last && last in blocks;
    }
  }

  lemma WithBlockIsNormal(done: seq<Block>, block: Block)
    requires IsNormal(done)
    ensures IsNormal(WithBlock(done, block))
    ensures if Follows(done, block) then WithBlock(done, block) == done + [block]
            else |WithBlock(done, block)| == |done|
  {
    if Follows(done, block) {
      NormalOneMore(done, block);
    } else if !block.CallerOnly() {
      var kept, last := done[..|done| - 1], done[|done| - 1];
      assert done == kept + [last];
      NormalOneMore(kept, last);
      NormalOneMore(kept, Together(last, block));
    }
  }

  /** The normal form is in normal form. It is shorter exactly when the reply was not, and a
      reply already in normal form is its own. */
  lemma {:induction false} NormalIsNormal(blocks: seq<Block>)
    ensures IsNormal(Normal(blocks))
    ensures if IsNormal(blocks) then Normal(blocks) == blocks else |Normal(blocks)| < |blocks|
    decreases |blocks|
  {
    if blocks != [] {
      hide IsNormal, WithBlock, Follows;
      var front, last := blocks[..|blocks| - 1], blocks[|blocks| - 1];
      assert blocks == front + [last];
      NormalIsNormal(front);
      NormalOneMore(front, last);
      WithBlockIsNormal(Normal(front), last);
    }
  }

  // ----- putting it together again

  /** A block as it comes back: a tool call's input is printed and read. */
  function Reread(codec: Codec, block: Block): Block {
    if block.ToolUse? then block.(input := Input(codec, codec.write(block.input))) else block
  }

  function RereadAll(codec: Codec, blocks: seq<Block>): seq<Block> {
    seq(|blocks|, i requires 0 <= i < |blocks| => Reread(codec, blocks[i]))
  }

  /** What one block's events do to a transcript, the call it may leave open being closed. */
  lemma BlockComesBack(codec: Codec, s: State, block: Block)
    ensures ComesBack(codec, s, block, Fold(codec, s, EventsOf(codec, block)))
  {
    match block {
      case Text(text) =>
        FoldOneMore(codec, s, [], TextDelta(text));
        TextComesBack(codec, s, text);
      case Thinking(text, signature) =>
        FoldOneMore(codec, s, [], ThinkingDelta(text));
        if signature.Some? {
          FoldOneMore(codec, s, [ThinkingDelta(text)], ThinkingSignature(signature.value));
        }
        ThinkingComesBack(codec, s, text, signature);
      case ToolUse(id, name, input) =>
        FoldOneMore(codec, s, [], ToolUseStarted(id, name));
        FoldOneMore(codec, s, [ToolUseStarted(id, name)], ToolArgumentsDelta(codec.write(input)));
        CallComesBack(codec, s, id, name, input);
      case Opaque(kind, raw) =>
        FoldOneMore(codec, s, [], WholeBlock(kind, raw));
        WholeComesBack(codec, s, kind, raw);
      case _ =>
    }
    hide Transcribe, Close, Reread, ComesBack;
  }

  ghost predicate ComesBack(codec: Codec, s: State, block: Block, s': State) {
    && Close(codec, s').blocks == WithBlock(Close(codec, s).blocks, Reread(codec, block))
    && s'.stop == s.stop && s'.usage == s.usage && s'.servedBy == s.servedBy && s'.askedFor == s.askedFor
  }

  lemma TextComesBack(codec: Codec, s: State, text: string)
    ensures ComesBack(codec, s, Text(text), Transcribe(codec, s, TextDelta(text)))
  {
  }

  lemma ThinkingComesBack(codec: Codec, s: State, text: string, signature: Option<string>)
    ensures ComesBack(codec, s, Thinking(text, signature),
                      var s' := Transcribe(codec, s, ThinkingDelta(text));
                      if signature.Some? then Transcribe(codec, s', ThinkingSignature(signature.value)) else s')
  {
    var added := AddThinking(Close(codec, s).blocks, text);
    assert Open(added[|added| - 1]);
  }

  lemma CallComesBack(codec: Codec, s: State, id: string, name: string, input: Json)
    ensures ComesBack(codec, s, ToolUse(id, name, input),
                      Transcribe(codec, Transcribe(codec, s, ToolUseStarted(id, name)), ToolArgumentsDelta(codec.write(input))))
  {
    assert "" + codec.write(input) == codec.write(input);
  }

  lemma WholeComesBack(codec: Codec, s: State, kind: string, raw: Json)
    ensures ComesBack(codec, s, Opaque(kind, raw), Transcribe(codec, s, WholeBlock(kind, raw)))
  {
  }

  lemma {:induction false} BlocksComeBack(codec: Codec, s: State, blocks: seq<Block>)
    requires s.blocks == [] && s.pending.None?
    ensures var s' := Fold(codec, s, Replay(codec, blocks));
            && Close(codec, s').blocks == Normal(RereadAll(codec, blocks))
            && s'.stop == s.stop && s'.usage == s.usage && s'.servedBy == s.servedBy && s'.askedFor == s.askedFor
    decreases |blocks|
  {
    if blocks != [] {
      var front, last := blocks[..|blocks| - 1], blocks[|blocks| - 1];
      BlocksComeBack(codec, s, front);
      FoldAppends(codec, s, Replay(codec, front), EventsOf(codec, last));
      BlockComesBack(codec, Fold(codec, s, Replay(codec, front)), last);
      assert RereadAll(codec, blocks)[..|blocks| - 1] == RereadAll(codec, front);
    }
  }

  /** The theorem: a reply taken apart and put together again is its own normal form, from an
      assistant, with every tool input printed and read once. Everything else is as it was. */
  lemma ReplyComesBackNormal(codec: Codec, askedFor: string, reply: ChatResponse)
    ensures Finish(codec, Fold(codec, Empty(askedFor), ReplayStream(codec, reply))) ==
            reply.(message := Message(Assistant, Normal(RereadAll(codec, reply.message.content))))
  {
    var start := [Started(reply.model)];
    var content := Replay(codec, reply.message.content);
    var stopped, metered := Stopped(reply.stopReason, reply.stopDetails), Metered(reply.usage);
    assert ReplayStream(codec, reply) == start + content + [stopped] + [metered];
    var begun := Fold(codec, Empty(askedFor), start);
    assert [] + start == start;
    FoldOneMore(codec, Empty(askedFor), [], Started(reply.model));
    assert begun == Empty(askedFor).(servedBy := Some(reply.model));
    hide Replay, Normal, RereadAll, Fold, Transcribe, Finish, Close;
    FoldAppends(codec, Empty(askedFor), start, content);
    BlocksComeBack(codec, begun, reply.message.content);
    FoldOneMore(codec, Empty(askedFor), start + content, stopped);
    FoldOneMore(codec, Empty(askedFor), start + content + [stopped], metered);
    EndComesBack(codec, Fold(codec, begun, content), reply);
  }

  lemma EndComesBack(codec: Codec, s: State, reply: ChatResponse)
    requires s.stop.None? && s.usage.None? && s.servedBy == Some(reply.model)
    ensures Finish(codec, Transcribe(codec, Transcribe(codec, s, Stopped(reply.stopReason, reply.stopDetails)), Metered(reply.usage))) ==
            reply.(message := Message(Assistant, Close(codec, s).blocks))
  {
  }

  /** A reply comes back exactly as it was if and only if it is an assistant's, in normal form,
      and each of its tool inputs is printed as text that reads as itself. */
  lemma ReplyComesBackUnchangedExactlyWhen(codec: Codec, askedFor: string, reply: ChatResponse)
    ensures Finish(codec, Fold(codec, Empty(askedFor), ReplayStream(codec, reply))) == reply
            <==>
            && reply.message.role == Assistant
            && IsNormal(reply.message.content)
            && (forall b <- reply.message.content :: b.ToolUse? ==> Input(codec, codec.write(b.input)) == b.input)
  {
    hide Finish, Fold, ReplayStream, Normal, IsNormal, RereadAll, Input;
    var blocks := reply.message.content;
    ReplyComesBackNormal(codec, askedFor, reply);
    NormalIsNormal(RereadAll(codec, blocks));
    RereadingKeepsShape(codec, blocks);
    RereadExactlyWhen(codec, blocks);
  }

  /** So with a JSON library that reads what it writes, no assistant's reply in normal form is changed. */
  lemma NormalReplyComesBack(codec: Codec, askedFor: string, reply: ChatResponse)
    requires forall value :: codec.RoundTrips(value)
    requires reply.message.role == Assistant && IsNormal(reply.message.content)
    ensures Finish(codec, Fold(codec, Empty(askedFor), ReplayStream(codec, reply))) == reply
  {
    hide Finish, Fold, ReplayStream, IsNormal;
    ReplyComesBackUnchangedExactlyWhen(codec, askedFor, reply);
    forall b <- reply.message.content | b.ToolUse? ensures Input(codec, codec.write(b.input)) == b.input {
      assert codec.RoundTrips(b.input);
    }
  }

  lemma RereadExactlyWhen(codec: Codec, blocks: seq<Block>)
    ensures RereadAll(codec, blocks) == blocks
            <==> forall b <- blocks :: b.ToolUse? ==> Input(codec, codec.write(b.input)) == b.input
    ensures |RereadAll(codec, blocks)| == |blocks|
  {
    hide Input;
    var back := RereadAll(codec, blocks);
    assert forall i :: 0 <= i < |blocks| ==> blocks[i] in blocks && back[i] == Reread(codec, blocks[i]);
    if forall b <- blocks :: b.ToolUse? ==> Input(codec, codec.write(b.input)) == b.input {
      assert back == blocks;
    }
  }

  lemma RereadingKeepsShape(codec: Codec, blocks: seq<Block>)
    ensures IsNormal(RereadAll(codec, blocks)) <==> IsNormal(blocks)
  {
    var back := RereadAll(codec, blocks);
    forall i | 0 <= i < |blocks| ensures back[i].CallerOnly() <==> blocks[i].CallerOnly() {
      RereadIsAlike(codec, blocks[i], blocks[i]);
    }
    forall i | 0 < i < |blocks| ensures RunsOn(back[i - 1], back[i]) <==> RunsOn(blocks[i - 1], blocks[i]) {
      RereadIsAlike(codec, blocks[i - 1], blocks[i]);
    }
    hide RunsOn, RereadAll, Reread, Block.CallerOnly;
    assert forall i :: 0 <= i < |blocks| ==> back[i] in back && blocks[i] in blocks;
  }

  lemma RereadIsAlike(codec: Codec, a: Block, b: Block)
    ensures RunsOn(Reread(codec, a), Reread(codec, b)) <==> RunsOn(a, b)
    ensures Reread(codec, a).CallerOnly() <==> a.CallerOnly()
  {
  }

  /** Putting a reply in normal form a second time changes nothing. */
  lemma NormalIsIdempotent(blocks: seq<Block>)
    ensures Normal(Normal(blocks)) == Normal(blocks)
  {
    NormalIsNormal(blocks);
    NormalIsNormal(Normal(blocks));
  }
}
