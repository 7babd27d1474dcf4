/** The same events written as the chunks of another protocol, and a client reading them. */
module Chunks {
  import opened Basics
  import opened Replies
  import opened Transcripts
  import opened Conservation

  // ----- what is written

  /** What one chunk adds to a reply. */
  datatype Delta =
    | Opening
    | Content(text: string)
    | Reasoning(text: string)
    | CallOpens(index: nat, id: string, name: string)
    | CallGoesOn(index: nat, arguments: string)
    | Nothing

  /** A chunk, and why the reply stopped when this chunk says so. */
  datatype Chunk = Chunk(id: string, created: U64, model: string, delta: Delta, finish: Option<StopReason>)

  datatype Writing = Writing(id: string, created: U64, model: string, begun: bool, toolCalls: nat)

  /** What a writer remembers after an event. */
  function Wrote(w: Writing, e: Event): Writing {
    w.(model := if e.Started? then e.model else w.model,
       begun := true,
       toolCalls := w.toolCalls + if e.ToolUseStarted? then 1 else 0)
  }

  /** What an event has to say in this protocol. An empty piece says nothing, and signatures and
      blocks kept verbatim have no place in it. */
  function Says(w: Writing, e: Event): Option<Delta> {
    match e
    case TextDelta(text) => if text != "" then Some(Content(text)) else None
    case ThinkingDelta(text) => if text != "" then Some(Reasoning(text)) else None
    case ToolUseStarted(id, name) => Some(CallOpens(w.toolCalls, id, name))
    case ToolArgumentsDelta(fragment) =>
      if fragment != "" then Some(CallGoesOn(Max(w.toolCalls - 1, 0), fragment)) else None
    case Stopped(_, _) => Some(Nothing)
    case _ => None
  }

  function ChunkOf(w: Writing, delta: Delta, finish: Option<StopReason>): Chunk {
    Chunk(w.id, w.created, w.model, delta, finish)
  }

  /** What is sent for an event: the role first of all, and then what it says. */
  function ChunksFor(w: Writing, e: Event): seq<Chunk> {
    var now := Wrote(w, e);
    (if w.begun then [] else [ChunkOf(now, Opening, None)])
    + match Says(w, e)
      case None => []
      case Some(delta) => [ChunkOf(now, delta, if e.Stopped? then Some(e.reason) else None)]
  }

  class ChunkWriter {
    const id: string
    const created: U64
    var model: string
    var begun: bool
    var toolCalls: nat

    constructor (id: string, created: U64, model: string)
      ensures Now() == Writing(id, created, model, false, 0)
    {
      this.id, this.created, this.model := id, created, model;
      begun, toolCalls := false, 0;
    }

    function Now(): Writing
      reads this
    {
      Writing(id, created, model, begun, toolCalls)
    }

    /** Sends what there is to send for an event. */
    method Write(event: Event) returns (out: seq<Chunk>)
      modifies this
      ensures Now() == Wrote(old(Now()), event)
      ensures out == ChunksFor(old(Now()), event)
    {
      out := [];
      if event.Started? {
        model := event.model;
      }
      if !begun {
        begun := true;
        out := out + [ChunkOf(Now(), Opening, None)];
      }
      match event {
        case TextDelta(text) =>
          if text != "" {
            out := out + [ChunkOf(Now(), Content(text), None)];
          }
        case ThinkingDelta(text) =>
          if text != "" {
            out := out + [ChunkOf(Now(), Reasoning(text), None)];
          }
        case ToolUseStarted(id, name) =>
          var index := toolCalls;
          toolCalls := toolCalls + 1;
          out := out + [ChunkOf(Now(), CallOpens(index, id, name), None)];
        case ToolArgumentsDelta(fragment) =>
          if fragment != "" {
            var index := Max(toolCalls - 1, 0);
            out := out + [ChunkOf(Now(), CallGoesOn(index, fragment), None)];
          }
        case Stopped(reason, _) =>
          out := out + [ChunkOf(Now(), Nothing, Some(reason))];
        case _ =>
      }
    }
  }

  // ----- what is read

  /** A reply as a client of this protocol puts it together: pieces are appended in the order
      they come, and calls are told apart by index. */
  datatype Client = Client(
    begun: nat,
    content: string,
    reasoning: string,
    calls: seq<Pending>,
    finish: Option<StopReason>,
    model: string)

  const UNREAD := Client(0, "", "", [], None, "")

  /** Room for a call at this index, the ones before it unnamed if nobody begun them. */
  function Roomy(calls: seq<Pending>, index: nat): (roomy: seq<Pending>)
    ensures |roomy| == Max(|calls|, index + 1)
    decreases index + 1 - |calls|
  {
    if index < |calls| then calls else Roomy(calls + [Pending("", "", "")], index)
  }

  function Read(c: Client, chunk: Chunk): Client {
    var said := match chunk.delta
      case Opening => c.(begun := c.begun + 1)
      case Content(text) => c.(content := c.content + text)
      case Reasoning(text) => c.(reasoning := c.reasoning + text)
      case CallOpens(index, id, name) =>
        var calls := Roomy(c.calls, index);
        c.(calls := calls[index := Pending(id, name, calls[index].arguments)])
      case CallGoesOn(index, arguments) =>
        var calls := Roomy(c.calls, index);
        c.(calls := calls[index := calls[index].(arguments := calls[index].arguments + arguments)])
      case Nothing => c;
    said.(model := chunk.model, finish := if chunk.finish.Some? then chunk.finish else c.finish)
  }

  function ReadAll(c: Client, chunks: seq<Chunk>): Client
    decreases |chunks|
  {
    if chunks == [] then c else ReadAll(Read(c, chunks[0]), chunks[1..])
  }

  /** A writer and a client at either end of a stream. */
  datatype Line = Line(writing: Writing, client: Client)

  function Carried(line: Line, e: Event): Line {
    Line(Wrote(line.writing, e), ReadAll(line.client, ChunksFor(line.writing, e)))
  }

  function CarriedAll(line: Line, events: seq<Event>): Line
    decreases |events|
  {
    if events == [] then line
    else Carried(CarriedAll(line, events[..|events| - 1]), events[|events| - 1])
  }

  // ----- both ends agree with the transcript

  /** The length of all the arguments written so far. */
  ghost function Weight(calls: seq<Pending>): nat
    decreases |calls|
  {
    if calls == [] then 0
    else Weight(calls[..|calls| - 1]) + |calls[|calls| - 1].arguments|
  }

  lemma {:induction false} WeightOfUpdate(calls: seq<Pending>, i: nat, call: Pending)
    requires i < |calls|
    ensures Weight(calls[i := call]) == Weight(calls) - |calls[i].arguments| + |call.arguments|
    decreases |calls|
  {
    var n := |calls| - 1;
    if i == n {
      assert calls[i := call][..n] == calls[..n];
    } else {
      assert calls[i := call][..n] == calls[..n][i := call];
      WeightOfUpdate(calls[..n], i, call);
    }
  }

  lemma {:induction false} WeightOfRoom(calls: seq<Pending>, index: nat)
    ensures Weight(Roomy(calls, index)) == Weight(calls)
    decreases index + 1 - |calls|
  {
    if |calls| <= index {
      assert (calls + [Pending("", "", "")])[..|calls|] == calls;
      WeightOfRoom(calls + [Pending("", "", "")], index);
    }
  }

  /** Whether a fragment has no open call to go to, which only matters if it says something. */
  predicate Astray(w: Written, e: Event) {
    e.ToolArgumentsDelta? && e.fragment != "" && !w.open
  }

  /** A stream whose arguments all arrive inside an open call. */
  predicate Inside(events: seq<Event>)
    decreases |events|
  {
    events != [] ==>
      && Inside(events[..|events| - 1])
      && !Astray(Calls(events[..|events| - 1]), events[|events| - 1])
  }

  function LastStop(events: seq<Event>): Option<StopReason>
    decreases |events|
  {
    if events == [] then None
    else if events[|events| - 1].Stopped? then Some(events[|events| - 1].reason)
    else LastStop(events[..|events| - 1])
  }

  /** What holds at both ends of a line after any stream. */
  ghost predicate InStep(events: seq<Event>, line: Line) {
    && line.client.content == Said(events, TextSaid)
    && line.client.reasoning == Said(events, ReasoningSaid)
    && line.client.finish == LastStop(events)
    && line.writing.toolCalls == |Calls(events).calls|
    && line.writing.begun == (events != [])
    && line.client.begun == (if events == [] then 0 else 1)
    && (if Inside(events) then line.client.calls == Calls(events).calls
        else Weight(line.client.calls) > Weight(Calls(events).calls))
    && Weight(line.client.calls) >= Weight(Calls(events).calls)
    && |line.client.calls| <= Max(|Calls(events).calls|, 1)
  }

  function Fresh(id: string, created: U64, model: string): Line {
    Line(Writing(id, created, model, false, 0), UNREAD)
  }

  /** What a client has read once an event's chunks have arrived. */
  lemma OneEventRead(line: Line, e: Event)
    ensures var c, after := line.client, Carried(line, e).client;
            && after.content == c.content + TextSaid(e)
            && after.reasoning == c.reasoning + ReasoningSaid(e)
            && after.finish == (if e.Stopped? then Some(e.reason) else c.finish)
            && after.begun == c.begun + (if line.writing.begun then 0 else 1)
            && after.calls ==
               match e
               case ToolUseStarted(id, name) => Read(c, ChunkOf(line.writing, CallOpens(line.writing.toolCalls, id, name), None)).calls
               case ToolArgumentsDelta(fragment) =>
                 if fragment == "" then c.calls
                 else Read(c, ChunkOf(line.writing, CallGoesOn(Max(line.writing.toolCalls - 1, 0), fragment), None)).calls
               case _ => c.calls
  {
    hide ReadAll, Roomy;
    var now := Wrote(line.writing, e);
    var chunks := ChunksFor(line.writing, e);
    var opening := ChunkOf(now, Opening, None);
    var saying := Says(line.writing, e);
    if saying.None? {
      ReadFew(line.client, opening, opening);
      assert !line.writing.begun ==> chunks == [opening];
    } else {
      var said := ChunkOf(now, saying.value, if e.Stopped? then Some(e.reason) else None);
      ReadFew(line.client, said, said);
      ReadFew(line.client, opening, said);
      assert chunks == if line.writing.begun then [said] else [opening, said];
    }
  }

  lemma ReadFew(c: Client, first: Chunk, second: Chunk)
    ensures ReadAll(c, []) == c
    ensures ReadAll(c, [first]) == Read(c, first)
    ensures ReadAll(c, [first, second]) == Read(Read(c, first), second)
  {
    hide Read;
    assert [first][1..] == [] && [first, second][1..] == [second] && [second][1..] == [];
    assert ReadAll(Read(c, first), [second]) == Read(Read(c, first), second);
  }

  /** Reading a call that opens, or goes on, changes what is held by what it says. */
  lemma CallOpened(c: Client, chunk: Chunk)
    requires chunk.delta.CallOpens? && |c.calls| <= chunk.delta.index + 1
    ensures var calls := Read(c, chunk).calls;
            && Weight(calls) == Weight(c.calls)
            && |calls| == chunk.delta.index + 1
            && (|c.calls| == chunk.delta.index ==> calls == c.calls + [Pending(chunk.delta.id, chunk.delta.name, "")])
  {
    var index := chunk.delta.index;
    var calls := Roomy(c.calls, index);
    WeightOfRoom(c.calls, index);
    WeightOfUpdate(calls, index, Pending(chunk.delta.id, chunk.delta.name, calls[index].arguments));
    if |c.calls| == index {
      assert calls == c.calls + [Pending("", "", "")];
    }
  }

  lemma CallWentOn(c: Client, chunk: Chunk)
    requires chunk.delta.CallGoesOn?
    ensures var calls := Read(c, chunk).calls;
            && Weight(calls) == Weight(c.calls) + |chunk.delta.arguments|
            && |calls| == Max(|c.calls|, chunk.delta.index + 1)
            && (c.calls != [] && chunk.delta.index == |c.calls| - 1 ==> calls == Extended(c.calls, chunk.delta.arguments))
  {
    var index := chunk.delta.index;
    var calls := Roomy(c.calls, index);
    WeightOfRoom(c.calls, index);
    WeightOfUpdate(calls, index, calls[index].(arguments := calls[index].arguments + chunk.delta.arguments));
  }

  lemma ExtendedWeight(calls: seq<Pending>, fragment: string)
    requires calls != []
    ensures Weight(Extended(calls, fragment)) == Weight(calls) + |fragment|
    ensures fragment == "" ==> Extended(calls, fragment) == calls
  {
    var last := calls[|calls| - 1];
    WeightOfUpdate(calls, |calls| - 1, last.(arguments := last.arguments + fragment));
    if fragment == "" {
      assert last.arguments + fragment == last.arguments;
    }
  }

  lemma CallsStayInStep(events: seq<Event>, line: Line, e: Event)
    requires InStep(events, line)
    ensures var w, calls := CallsThen(Calls(events), e), Carried(line, e).client.calls;
            && (if Inside(events) && !Astray(Calls(events), e) then calls == w.calls
                else Weight(calls) > Weight(w.calls))
            && Weight(calls) >= Weight(w.calls)
            && |calls| <= Max(|w.calls|, 1)
  {
    hide Said, Calls, Read, Carried, Weight, Inside;
    OneEventRead(line, e);
    var w := Calls(events);
    match e {
      case ToolUseStarted(id, name) =>
        CallOpened(line.client, ChunkOf(line.writing, CallOpens(line.writing.toolCalls, id, name), None));
        WeightOfMore(w.calls, Pending(id, name, ""));
      case ToolArgumentsDelta(fragment) =>
        if w.open {
          ExtendedWeight(w.calls, fragment);
        }
        if fragment != "" {
          CallWentOn(line.client, ChunkOf(line.writing, CallGoesOn(Max(line.writing.toolCalls - 1, 0), fragment), None));
        }
      case _ =>
    }
  }

  lemma WeightOfMore(calls: seq<Pending>, call: Pending)
    ensures Weight(calls + [call]) == Weight(calls) + |call.arguments|
  {
    assert (calls + [call])[..|calls|] == calls;
  }

  lemma {:induction false} LineStaysInStep(id: string, created: U64, model: string, events: seq<Event>)
    ensures InStep(events, CarriedAll(Fresh(id, created, model), events))
    decreases |events|
  {
    hide Carried, InStep;
    if events == [] {
      NothingIsInStep(id, created, model);
    } else {
      var front, e := events[..|events| - 1], events[|events| - 1];
      var line := CarriedAll(Fresh(id, created, model), front);
      LineStaysInStep(id, created, model, front);
      OneEventStaysInStep(front, line, e);
      assert front + [e] == events;
    }
  }

  lemma NothingIsInStep(id: string, created: U64, model: string)
    ensures InStep([], Fresh(id, created, model))
  {
  }

  lemma OneEventStaysInStep(front: seq<Event>, line: Line, e: Event)
    requires InStep(front, line)
    ensures InStep(front + [e], Carried(line, e))
  {
    hide Carried, Read, Weight, Said, Calls, CallsThen, Inside, Astray, LastStop;
    CallsStayInStep(front, line, e);
    OneEventRead(line, e);
    OneEventWritten(line, e);
    SaidOneMore(front, e);
    CallsCount(Calls(front), e);
    OneEventMore(front, e);
  }

  lemma OneEventWritten(line: Line, e: Event)
    ensures Carried(line, e).writing.begun
    ensures Carried(line, e).writing.toolCalls == line.writing.toolCalls + if e.ToolUseStarted? then 1 else 0
  {
    hide ReadAll;
  }

  lemma OneEventMore(front: seq<Event>, e: Event)
    ensures Inside(front + [e]) <==> Inside(front) && !Astray(Calls(front), e)
    ensures LastStop(front + [e]) == if e.Stopped? then Some(e.reason) else LastStop(front)
  {
    hide Calls, Astray;
    assert (front + [e])[..|front|] == front;
  }

  lemma CallsCount(w: Written, e: Event)
    requires w.open ==> w.calls != []
    ensures |CallsThen(w, e).calls| == |w.calls| + if e.ToolUseStarted? then 1 else 0
  {
  }

  lemma {:induction false} StopIsLast(codec: Codec, s: State, events: seq<Event>)
    requires s.stop.None?
    ensures LastStop(events) == match Fold(codec, s, events).stop case None => None case Some(stop) => Some(stop.0)
    decreases |events|
  {
    if events != [] {
      StopIsLast(codec, s, events[..|events| - 1]);
    }
  }

  /** The theorem: whoever reads the chunks and whoever keeps the transcript end with the same
      reply. The text, the reasoning and the reason it stopped always agree, and the role was
      named once. The calls agree if and only if every fragment of arguments that says anything
      arrives inside an open call; then the transcript's calls are the client's, read as JSON. */
  lemma ClientAgreesWithTranscript(
    codec: Codec, askedFor: string, id: string, created: U64, model: string, events: seq<Event>)
    ensures var client := CarriedAll(Fresh(id, created, model), events).client;
            var s := Fold(codec, Empty(askedFor), events);
            var blocks := Finish(codec, s).message.content;
            && client.content == AnswerText(blocks)
            && client.reasoning == Gather(blocks, ReasoningPart)
            && client.finish == (match s.stop case None => None case Some(stop) => Some(stop.0))
            && client.begun == (if events == [] then 0 else 1)
            && (client.calls == Calls(events).calls <==> Inside(events))
            && (Inside(events) ==> Gather(blocks, CallPart) == AllFinished(codec, client.calls))
  {
    LineStaysInStep(id, created, model, events);
    ReplyKeepsEverything(codec, askedFor, events);
    StopIsLast(codec, Empty(askedFor), events);
  }
}
