/** A reply as it arrives, one event at a time, and the transcript that assembles it. */
module Transcripts {
  import opened Basics
  import opened Usages
  import opened Replies

  datatype Event =
    | Started(model: string)
    | TextDelta(text: string)
    | ThinkingDelta(text: string)
    | ThinkingSignature(signature: string)
    | ToolUseStarted(id: string, name: string)
    | ToolArgumentsDelta(fragment: string)
    | WholeBlock(kind: string, raw: Json)
    | Stopped(reason: StopReason, details: Option<string>)
    | Metered(usage: Usage)

  /** A tool call being written: its arguments are the fragments so far. */
  datatype Pending = Pending(id: string, name: string, arguments: string)

  datatype State = State(
    blocks: seq<Block>,
    pending: Option<Pending>,
    stop: Option<(StopReason, Option<string>)>,
    usage: Option<Usage>,
    servedBy: Option<string>,
    askedFor: string)

  function Empty(askedFor: string): State {
    State([], None, None, None, None, askedFor)
  }

  // ----- one event

  /** The arguments of a finished tool call: the document they are, or the text itself when they
      never became one. */
  function Input(codec: Codec, arguments: string): Json {
    match codec.read(arguments)
    case Some(value) => value
    case None => Object([("raw", String(arguments))])
  }

  function Finished(codec: Codec, p: Pending): Block {
    ToolUse(p.id, p.name, Input(codec, p.arguments))
  }

  function Close(codec: Codec, s: State): State {
    if s.pending.None? then s
    else s.(blocks := s.blocks + [Finished(codec, s.pending.value)], pending := None)
  }

  function AddText(blocks: seq<Block>, text: string): seq<Block> {
    if blocks != [] && blocks[|blocks| - 1].Text?
    then blocks[|blocks| - 1 := Text(blocks[|blocks| - 1].text + text)]
    else blocks + [Text(text)]
  }

  predicate Open(block: Block) {
    block.Thinking? && block.signature.None?
  }

  /** Reasoning goes on in the last block only while its signature has not arrived. */
  function AddThinking(blocks: seq<Block>, text: string): seq<Block> {
    if blocks != [] && Open(blocks[|blocks| - 1])
    then blocks[|blocks| - 1 := Thinking(blocks[|blocks| - 1].reasoning + text, None)]
    else blocks + [Thinking(text, None)]
  }

  const ORPHAN := "signature_without_block"

  function Orphan(signature: string): Block {
    Opaque(ORPHAN, Object([("signature", String(signature))]))
  }

  /** The last thinking block with no signature yet takes this one. With no such block the
      signature is kept on its own. */
  function Sign(blocks: seq<Block>, signature: string): seq<Block> {
    match LastOpen(blocks)
    case Some(i) => blocks[i := Thinking(blocks[i].reasoning, Some(signature))]
    case None => blocks + [Orphan(signature)]
  }

  function LastOpen(blocks: seq<Block>): (found: Option<nat>)
    ensures found.Some? ==> found.value < |blocks| && Open(blocks[found.value])
    ensures found.Some? ==> forall k :: found.value < k < |blocks| ==> !Open(blocks[k])
    ensures found.None? ==> forall k :: 0 <= k < |blocks| ==> !Open(blocks[k])
    decreases |blocks|
  {
    if blocks == [] then None
    else if Open(blocks[|blocks| - 1]) then Some(|blocks| - 1)
    else LastOpen(blocks[..|blocks| - 1])
  }

  function Transcribe(codec: Codec, s: State, e: Event): State {
    match e
    case Started(model) => s.(servedBy := Some(model))
    case TextDelta(text) =>
      var closed := Close(codec, s);
      closed.(blocks := AddText(closed.blocks, text))
    case ThinkingDelta(text) =>
      var closed := Close(codec, s);
      closed.(blocks := AddThinking(closed.blocks, text))
    case ThinkingSignature(signature) =>
      var closed := Close(codec, s);
      closed.(blocks := Sign(closed.blocks, signature))
    case ToolUseStarted(id, name) => Close(codec, s).(pending := Some(Pending(id, name, "")))
    case ToolArgumentsDelta(fragment) =>
      if s.pending.None? then s
      else s.(pending := Some(s.pending.value.(arguments := s.pending.value.arguments + fragment)))
    case WholeBlock(kind, raw) =>
      var closed := Close(codec, s);
      closed.(blocks := closed.blocks + [Opaque(kind, raw)])
    case Stopped(reason, details) => Close(codec, s).(stop := Some((reason, details)))
    case Metered(usage) =>
      s.(usage := Some(if s.usage.Some? then s.usage.value.Merge(usage) else usage))
  }

  // ----- a whole stream

  function Fold(codec: Codec, s: State, events: seq<Event>): State
    decreases |events|
  {
    if events == [] then s
    else Transcribe(codec, Fold(codec, s, events[..|events| - 1]), events[|events| - 1])
  }

  lemma FoldOneMore(codec: Codec, s: State, events: seq<Event>, e: Event)
    ensures Fold(codec, s, events + [e]) == Transcribe(codec, Fold(codec, s, events), e)
  {
    assert (events + [e])[..|events|] == events;
  }

  lemma {:induction false} FoldAppends(codec: Codec, s: State, a: seq<Event>, b: seq<Event>)
    ensures Fold(codec, s, a + b) == Fold(codec, Fold(codec, s, a), b)
    decreases |b|
  {
    if b == [] {
      assert a + b == a;
    } else {
      var front, e := b[..|b| - 1], b[|b| - 1];
      FoldAppends(codec, s, a, front);
      FoldOneMore(codec, s, a + front, e);
      assert a + b == (a + front) + [e];
    }
  }

  /** The assembled reply. A stream with no stop reason ended early, and usage that nobody
      reported is absent. */
  function Finish(codec: Codec, s: State): ChatResponse {
    var closed := Close(codec, s);
    ChatResponse(
      Message(Assistant, closed.blocks),
      if s.stop.Some? then s.stop.value.0 else Interrupted,
      if s.stop.Some? then s.stop.value.1 else Some("the stream ended early"),
      if s.usage.Some? then s.usage.value else ABSENT,
      if s.servedBy.Some? then s.servedBy.value else s.askedFor)
  }

  /** The words that have arrived: text blocks run together. */
  function AnswerText(blocks: seq<Block>): string {
    Gather(blocks, TextPart)
  }

  class Transcript {
    const codec: Codec
    var blocks: seq<Block>
    var pendingTool: Option<Pending>
    var stop: Option<(StopReason, Option<string>)>
    var usage: Option<Usage>
    var servedBy: Option<string>
    const askedFor: string

    constructor (codec: Codec, askedFor: string)
      ensures Now() == Empty(askedFor) && this.codec == codec
    {
      this.codec, this.askedFor := codec, askedFor;
      blocks, pendingTool, stop, usage, servedBy := [], None, None, None, None;
    }

    ghost function Now(): State
      reads this
    {
      State(blocks, pendingTool, stop, usage, servedBy, askedFor)
    }

    /** Ends the call being written, if one is, and keeps it as a block. */
    method CloseTool()
      modifies this
      ensures Now() == Close(codec, old(Now()))
    {
      match pendingTool {
        case None => return;
        case Some(p) =>
          pendingTool := None;
          blocks := blocks + [ToolUse(p.id, p.name, Input(codec, p.arguments))];
      }
    }

    /** Puts a signature on the thinking block it belongs to, looking backward from the end. */
    method SignLast(signature: string)
      modifies this
      ensures Now() == old(Now()).(blocks := Sign(old(blocks), signature))
    {
      var i := |blocks|;
      while i > 0 && !Open(blocks[i - 1])
        invariant 0 <= i <= |blocks|
        invariant forall k :: i <= k < |blocks| ==> !Open(blocks[k])
      {
        i := i - 1;
      }
      if i > 0 {
        blocks := blocks[i - 1 := Thinking(blocks[i - 1].reasoning, Some(signature))];
      } else {
        blocks := blocks + [Orphan(signature)];
      }
    }

    /** Takes in one event. */
    method Push(event: Event)
      modifies this
      ensures Now() == Transcribe(codec, old(Now()), event)
    {
      match event {
        case Started(model) => servedBy := Some(model);
        case TextDelta(text) =>
          CloseTool();
          if blocks != [] && blocks[|blocks| - 1].Text? {
            blocks := blocks[|blocks| - 1 := Text(blocks[|blocks| - 1].text + text)];
          } else {
            blocks := blocks + [Text(text)];
          }
        case ThinkingDelta(text) =>
          CloseTool();
          if blocks != [] && Open(blocks[|blocks| - 1]) {
            blocks := blocks[|blocks| - 1 := Thinking(blocks[|blocks| - 1].reasoning + text, None)];
          } else {
            blocks := blocks + [Thinking(text, None)];
          }
        case ThinkingSignature(signature) =>
          CloseTool();
          SignLast(signature);
        case ToolUseStarted(id, name) =>
          CloseTool();
          pendingTool := Some(Pending(id, name, ""));
        case ToolArgumentsDelta(fragment) =>
          if pendingTool.Some? {
            pendingTool := Some(pendingTool.value.(arguments := pendingTool.value.arguments + fragment));
          }
        case WholeBlock(kind, raw) =>
          CloseTool();
          blocks := blocks + [Opaque(kind, raw)];
        case Stopped(reason, details) =>
          CloseTool();
          stop := Some((reason, details));
        case Metered(more) =>
          usage := Some(if usage.Some? then usage.value.Merge(more) else more);
      }
    }

    /** Reads a whole stream in, as far as it goes. */
    method Drain(events: seq<Event>)
      modifies this
      ensures Now() == Fold(codec, old(Now()), events)
    {
      var at := 0;
      while at < |events|
        invariant at <= |events|
        invariant Now() == Fold(codec, old(Now()), events[..at])
      {
        FoldOneMore(codec, old(Now()), events[..at], events[at]);
        assert events[..at] + [events[at]] == events[..at + 1];
        Push(events[at]);
        at := at + 1;
      }
      assert events[..at] == events;
    }

    /** The words that have arrived, from the blocks as they stand. */
    method AnswerSoFar() returns (text: string)
      ensures text == AnswerText(blocks)
    {
      text := "";
      var at := 0;
      while at < |blocks|
        invariant at <= |blocks|
        invariant text == AnswerText(blocks[..at])
      {
        GatherOneMore(blocks[..at], blocks[at], TextPart);
        assert blocks[..at] + [blocks[at]] == blocks[..at + 1];
        if blocks[at].Text? {
          text := text + blocks[at].text;
        }
        at := at + 1;
      }
      assert blocks[..at] == blocks;
    }

    /** The assembled reply. */
    method FinishReply() returns (reply: ChatResponse)
      modifies this
      ensures reply == Finish(codec, old(Now()))
    {
      CloseTool();
      var reason, details := Interrupted, Some("the stream ended early");
      if stop.Some? {
        reason, details := stop.value.0, stop.value.1;
      }
      reply := ChatResponse(Message(Assistant, blocks), reason, details,
                            if usage.Some? then usage.value else ABSENT,
                            if servedBy.Some? then servedBy.value else askedFor);
    }
  }
}
