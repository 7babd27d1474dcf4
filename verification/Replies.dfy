/** The answer to a request: blocks of content, why it stopped, and what the call consumed. */
module Replies {
  import opened Basics
  import opened Usages

  /** A JSON document. Numbers are kept as the text they were written in. */
  datatype Json =
    | Null
    | Bool(b: bool)
    | Number(digits: string)
    | String(text: string)
    | Array(items: seq<Json>)
    | Object(fields: seq<(string, Json)>)

  /** The JSON reader and writer a program is linked with. Nothing is assumed about them
      except where a statement says so. */
  datatype Codec = Codec(read: string -> Option<Json>, write: Json -> string)
  {
    predicate RoundTrips(value: Json) {
      read(write(value)) == Some(value)
    }
  }

  datatype Role = User | Assistant

  datatype StopReason =
    | EndTurn
    | ToolCall
    | StopSequence
    | MaxTokens
    | Refusal
    | PauseTurn
    | ContextWindowExceeded
    | Interrupted
    | Other

  datatype Source = Bytes(data: seq<bv8>) | Url(url: string)

  datatype Block =
    | Text(text: string)
    | Thinking(reasoning: string, signature: Option<string>)
    | ToolUse(id: string, name: string, input: Json)
    | Opaque(kind: string, raw: Json)
    | ToolResult(toolUseId: string, content: string, isError: bool)
    | Image(mediaType: string, source: Source)
    | Document(mediaType: string, source: Source, fileName: Option<string>)
    | Audio(mediaType: string, data: seq<bv8>)
  {
    /** Whether this block is something only a caller sends, and no model produces. */
    predicate CallerOnly() {
      ToolResult? || Image? || Document? || Audio?
    }
  }

  datatype Message = Message(role: Role, content: seq<Block>)

  datatype ChatResponse = ChatResponse(
    message: Message,
    stopReason: StopReason,
    stopDetails: Option<string>,
    usage: Usage,
    model: string)

  /** What a model is asked for. A router replaces the model and reads the reply limit; the
      rest goes through as it was written. */
  datatype ChatRequest = ChatRequest(model: string, messages: seq<Message>, maxTokens: Option<U32>)

  /** What each block contributes, run together in order. */
  function Gather<T>(blocks: seq<Block>, part: Block -> seq<T>): seq<T>
    decreases |blocks|
  {
    if blocks == [] then []
    else Gather(blocks[..|blocks| - 1], part) + part(blocks[|blocks| - 1])
  }

  lemma GatherOneMore<T>(blocks: seq<Block>, block: Block, part: Block -> seq<T>)
    ensures Gather(blocks + [block], part) == Gather(blocks, part) + part(block)
  {
    assert (blocks + [block])[..|blocks|] == blocks;
  }

  /** A block contributes between everything before it and everything after it. */
  lemma {:induction false} GatherAround<T>(blocks: seq<Block>, i: nat, part: Block -> seq<T>)
    requires i < |blocks|
    ensures Gather(blocks, part) ==
            Gather(blocks[..i], part) + part(blocks[i]) + Gather(blocks[i + 1..], part)
    decreases |blocks|
  {
    var n := |blocks| - 1;
    if i == n {
      assert blocks[i + 1..] == [];
    } else {
      GatherAround(blocks[..n], i, part);
      assert blocks[..n][..i] == blocks[..i] && blocks[..n][i + 1..] == blocks[i + 1..n];
      assert blocks[i + 1..][..n - i - 1] == blocks[i + 1..n];
    }
  }

  /** What counts as the words of the answer: text blocks, and nothing else. */
  function TextPart(block: Block): string {
    if block.Text? then block.text else ""
  }
}
