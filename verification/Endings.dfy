/** How a reply ends: what it says of its stop, its usage, its model and its calls, told from the
    events of its stream alone. */
module Endings {
  import opened Basics
  import opened Usages
  import opened Replies
  import opened Transcripts
  import Chunking
  import Chunks
  import Conservation

  // ----- the last of a kind

  /** The last event of a stream that stops it. */
  predicate LastStopAt(events: seq<Event>, k: nat) {
    k < |events| && events[k].Stopped? && forall l :: k < l < |events| ==> !events[l].Stopped?
  }

  /** The last event of a stream that names a model. */
  predicate LastModelAt(events: seq<Event>, k: nat) {
    k < |events| && events[k].Started? && forall l :: k < l < |events| ==> !events[l].Started?
  }

  /** Usage reports merged, one after another. */
  function MergedAll(reports: seq<Usage>): Usage
    decreases |reports|
  {
    if reports == [] then ABSENT else MergedAll(reports[..|reports| - 1]).Merge(reports[|reports| - 1])
  }

  lemma {:induction false} TotalIsMerged(reports: seq<Usage>)
    ensures Chunking.Total(reports, None) == if reports == [] then None else Some(MergedAll(reports))
    decreases |reports|
  {
    hide Usage.Merge;
    if reports != [] {
      var front, last := reports[..|reports| - 1], reports[|reports| - 1];
      TotalIsMerged(front);
      MergeIsCommutativeMonoid(last, ABSENT, ABSENT);
    }
  }

  /** How a reply stopped, and what it has when it never did. */
  ghost predicate StopOf(events: seq<Event>, reason: StopReason, details: Option<string>) {
    || (exists k: nat :: LastStopAt(events, k) && events[k].reason == reason && events[k].details == details)
    || ((forall k :: 0 <= k < |events| ==> !events[k].Stopped?)
        && reason == Interrupted && details == Some("the stream ended early"))
  }

  ghost predicate ModelOf(events: seq<Event>, askedFor: string, model: string) {
    || (exists k: nat :: LastModelAt(events, k) && events[k].model == model)
    || ((forall k :: 0 <= k < |events| ==> !events[k].Started?) && model == askedFor)
  }

  lemma {:induction false} StopIsTheLast(codec: Codec, askedFor: string, events: seq<Event>)
    ensures match Fold(codec, Empty(askedFor), events).stop
            case None => forall k :: 0 <= k < |events| ==> !events[k].Stopped?
            case Some(stop) =>
              exists k: nat :: LastStopAt(events, k) && events[k].reason == stop.0 && events[k].details == stop.1
    decreases |events|
  {
    hide Transcribe;
    if events != [] {
      var n := |events| - 1;
      StopIsTheLast(codec, askedFor, events[..n]);
      var before := Fold(codec, Empty(askedFor), events[..n]);
      OneMoreStop(codec, before, events[n]);
      if events[n].Stopped? {
        assert LastStopAt(events, n);
      } else if before.stop.Some? {
        var k: nat :| LastStopAt(events[..n], k) && events[k].reason == before.stop.value.0 && events[k].details == before.stop.value.1;
        assert LastStopAt(events, k);
      }
    }
  }

  lemma OneMoreStop(codec: Codec, s: State, e: Event)
    ensures Transcribe(codec, s, e).stop == if e.Stopped? then Some((e.reason, e.details)) else s.stop
    ensures Transcribe(codec, s, e).askedFor == s.askedFor
  {
  }

  lemma {:induction false} ModelIsTheLast(events: seq<Event>)
    ensures match Chunking.LastModel(events, None)
            case None => forall k :: 0 <= k < |events| ==> !events[k].Started?
            case Some(model) => exists k: nat :: LastModelAt(events, k) && events[k].model == model
    decreases |events|
  {
    if events != [] {
      var n := |events| - 1;
      ModelIsTheLast(events[..n]);
      if events[n].Started? {
        assert LastModelAt(events, n);
      } else if Chunking.LastModel(events[..n], None).Some? {
        var k: nat :| LastModelAt(events[..n], k) && events[k].model == Chunking.LastModel(events[..n], None).value;
        assert LastModelAt(events, k);
      }
    }
  }

  lemma {:induction false} AskedForStays(codec: Codec, s: State, events: seq<Event>)
    ensures Fold(codec, s, events).askedFor == s.askedFor
    decreases |events|
  {
    if events != [] {
      AskedForStays(codec, s, events[..|events| - 1]);
      OneMoreStop(codec, Fold(codec, s, events[..|events| - 1]), events[|events| - 1]);
    }
  }

  // ----- the end of a reply

  /** Everything of a reply but its blocks. It stopped as the last stop of its stream says, and was
      interrupted when there is none; its usage is every report merged, and absent without one; and its
      model is the last that was named, and the one asked for when none was. */
  lemma ReplyEndsAsItsStreamDoes(codec: Codec, askedFor: string, events: seq<Event>)
    ensures var reply := Finish(codec, Fold(codec, Empty(askedFor), events));
            && reply.message.role == Assistant
            && StopOf(events, reply.stopReason, reply.stopDetails)
            && reply.usage == MergedAll(Chunking.Reports(events))
            && ModelOf(events, askedFor, reply.model)
  {
    hide Transcribe, Close;
    StopIsTheLast(codec, askedFor, events);
    ModelIsTheLast(events);
    AskedForStays(codec, Empty(askedFor), events);
    TotalIsMerged(Chunking.Reports(events));
    Chunking.ContentStandsAlone(codec, Empty(askedFor), events);
  }

  /** A client of the chunks hears why a reply stopped, and it is what the reply says; and hears nothing of it
      exactly when the stream never stopped, where the reply says that it was interrupted. */
  lemma ClientHearsTheStop(codec: Codec, askedFor: string, id: string, created: U64, model: string, events: seq<Event>)
    ensures var finish := Chunks.CarriedAll(Chunks.Fresh(id, created, model), events).client.finish;
            var reply := Finish(codec, Fold(codec, Empty(askedFor), events));
            && (finish.None? <==> forall k :: 0 <= k < |events| ==> !events[k].Stopped?)
            && (if finish.Some? then reply.stopReason == finish.value
                else reply.stopReason == Interrupted && reply.stopDetails == Some("the stream ended early"))
  {
    hide Transcribe, Close;
    Chunks.ClientAgreesWithTranscript(codec, askedFor, id, created, model, events);
    StopIsTheLast(codec, askedFor, events);
  }

  /** Whether a chunk has something in it: a piece that is not empty, the opening of the reply or of a call, or
      the reason the reply stopped. */
  predicate SaysSomething(chunk: Chunks.Chunk) {
    match chunk.delta
    case Opening => true
    case Content(text) => text != ""
    case Reasoning(text) => text != ""
    case CallOpens(_, _, _) => true
    case CallGoesOn(_, arguments) => arguments != ""
    case Nothing => chunk.finish.Some?
  }

  /** Every chunk says something, and carries the writer's id and time, and the last model its stream has
      named, or the one the writer was made with. */
  lemma ChunksSaySomething(id: string, created: U64, model: string, front: seq<Event>, e: Event, chunk: Chunks.Chunk)
    requires chunk in Chunks.ChunksFor(Chunks.CarriedAll(Chunks.Fresh(id, created, model), front).writing, e)
    ensures SaysSomething(chunk)
    ensures chunk.id == id && chunk.created == created && ModelOf(front + [e], model, chunk.model)
  {
    hide ModelOf;
    WriterRemembers(id, created, model, front);
    ModelOneMore(front, e, model, Chunks.CarriedAll(Chunks.Fresh(id, created, model), front).writing.model);
  }

  lemma {:induction false} WriterRemembers(id: string, created: U64, model: string, events: seq<Event>)
    ensures var w := Chunks.CarriedAll(Chunks.Fresh(id, created, model), events).writing;
            w.id == id && w.created == created && ModelOf(events, model, w.model)
    decreases |events|
  {
    hide ModelOf;
    if events == [] {
      NoModelYet(model);
    } else {
      var front, e := events[..|events| - 1], events[|events| - 1];
      WriterRemembers(id, created, model, front);
      ModelOneMore(front, e, model, Chunks.CarriedAll(Chunks.Fresh(id, created, model), front).writing.model);
      assert front + [e] == events;
    }
  }

  lemma NoModelYet(model: string)
    ensures ModelOf([], model, model)
  {
  }

  lemma ModelOneMore(front: seq<Event>, e: Event, askedFor: string, model: string)
    requires ModelOf(front, askedFor, model)
    ensures ModelOf(front + [e], askedFor, if e.Started? then e.model else model)
  {
    var all := front + [e];
    if e.Started? {
      assert LastModelAt(all, |front|);
    } else if exists k: nat :: LastModelAt(front, k) && front[k].model == model {
      var k: nat :| LastModelAt(front, k) && front[k].model == model;
      assert LastModelAt(all, k);
    }
  }

  // ----- its calls

  /** Every tool call of a reply has the document its arguments read as, and when they do not read the whole
      text of them. */
  lemma CallsAreReadOrKept(codec: Codec, askedFor: string, events: seq<Event>, i: nat)
    requires i < |Conservation.Calls(events).calls|
    ensures var written := Conservation.Calls(events).calls[i];
            var blocks := Finish(codec, Fold(codec, Empty(askedFor), events)).message.content;
            var held := Gather(blocks, Conservation.CallPart);
            && |held| == |Conservation.Calls(events).calls|
            && held[i].ToolUse? && held[i].id == written.id && held[i].name == written.name
            && (codec.read(written.arguments) == Some(held[i].input)
                || (codec.read(written.arguments).None?
                    && held[i].input == Object([("raw", String(written.arguments))])))
  {
    Conservation.ReplyKeepsEverything(codec, askedFor, events);
  }
}
