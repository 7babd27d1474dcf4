/** How a reply was cut into events makes no difference to the reply, and nothing of it is lost. */
module Chunking {
  import opened Basics
  import opened Usages
  import opened Replies
  import opened Transcripts

  // ----- the same content, cut another way

  predicate IsContent(e: Event) {
    !e.Started? && !e.Metered?
  }

  function Content(events: seq<Event>): seq<Event>
    decreases |events|
  {
    if events == [] then []
    else
      var front, last := Content(events[..|events| - 1]), events[|events| - 1];
      if IsContent(last) then front + [last] else front
  }

  /** Whether two events are pieces of one run of text, of reasoning or of arguments. */
  predicate Adjoin(d: Event, e: Event) {
    (d.TextDelta? && e.TextDelta?) || (d.ThinkingDelta? && e.ThinkingDelta?)
    || (d.ToolArgumentsDelta? && e.ToolArgumentsDelta?)
  }

  function Joined(d: Event, e: Event): Event
    requires Adjoin(d, e)
  {
    match d
    case TextDelta(text) => TextDelta(text + e.text)
    case ThinkingDelta(text) => ThinkingDelta(text + e.text)
    case ToolArgumentsDelta(fragment) => ToolArgumentsDelta(fragment + e.fragment)
  }

  function Join(events: seq<Event>, e: Event): seq<Event> {
    if events != [] && Adjoin(events[|events| - 1], e)
    then events[..|events| - 1] + [Joined(events[|events| - 1], e)]
    else events + [e]
  }

  /** The same stream with every run of adjacent pieces joined into one. */
  function Coalesced(events: seq<Event>): seq<Event>
    decreases |events|
  {
    if events == [] then [] else Join(Coalesced(events[..|events| - 1]), events[|events| - 1])
  }

  function LastModel(events: seq<Event>, before: Option<string>): Option<string>
    decreases |events|
  {
    if events == [] then before
    else if events[|events| - 1].Started? then Some(events[|events| - 1].model)
    else LastModel(events[..|events| - 1], before)
  }

  function Reports(events: seq<Event>): seq<Usage>
    decreases |events|
  {
    if events == [] then []
    else
      var front, last := Reports(events[..|events| - 1]), events[|events| - 1];
      if last.Metered? then front + [last.usage] else front
  }

  function Total(reports: seq<Usage>, before: Option<Usage>): Option<Usage>
    decreases |reports|
  {
    if reports == [] then before
    else
      var front, last := Total(reports[..|reports| - 1], before), reports[|reports| - 1];
      Some(if front.Some? then front.value.Merge(last) else last)
  }

  /** Two streams that say the same thing: the same content once joined up, the same model named
      last, and the same usage reports in whatever order. Nothing is asked of where the models
      and the reports stand among the content. */
  ghost predicate SayTheSame(a: seq<Event>, b: seq<Event>) {
    && Coalesced(Content(a)) == Coalesced(Content(b))
    && LastModel(a, None) == LastModel(b, None)
    && multiset(Reports(a)) == multiset(Reports(b))
  }

  lemma JoinIsTwoEvents(codec: Codec, s: State, d: Event, e: Event)
    requires Adjoin(d, e)
    ensures Transcribe(codec, s, Joined(d, e)) == Transcribe(codec, Transcribe(codec, s, d), e)
  {
    var once, twice := Transcribe(codec, s, Joined(d, e)), Transcribe(codec, Transcribe(codec, s, d), e);
    match d {
      case TextDelta(text) =>
        var closed := Close(codec, s).blocks;
        if closed != [] && closed[|closed| - 1].Text? {
          assert closed[|closed| - 1].text + (text + e.text) == (closed[|closed| - 1].text + text) + e.text;
        }
        assert once.blocks == twice.blocks;
      case ThinkingDelta(text) =>
        var closed := Close(codec, s).blocks;
        if closed != [] && Open(closed[|closed| - 1]) {
          assert closed[|closed| - 1].reasoning + (text + e.text) == (closed[|closed| - 1].reasoning + text) + e.text;
        }
        assert once.blocks == twice.blocks;
      case ToolArgumentsDelta(fragment) =>
        if s.pending.Some? {
          var written := s.pending.value.arguments;
          assert written + (fragment + e.fragment) == (written + fragment) + e.fragment;
        }
    }
  }

  lemma {:induction false} CoalescingKeepsState(codec: Codec, s: State, events: seq<Event>)
    ensures Fold(codec, s, Coalesced(events)) == Fold(codec, s, events)
    decreases |events|
  {
    if events != [] {
      var front, e := events[..|events| - 1], events[|events| - 1];
      CoalescingKeepsState(codec, s, front);
      var joined := Coalesced(front);
      if joined != [] && Adjoin(joined[|joined| - 1], e) {
        var d := joined[|joined| - 1];
        FoldOneMore(codec, s, joined[..|joined| - 1], Joined(d, e));
        JoinIsTwoEvents(codec, Fold(codec, s, joined[..|joined| - 1]), d, e);
      } else {
        FoldOneMore(codec, s, joined, e);
      }
    }
  }

  lemma ContentPassesBy(codec: Codec, s: State, e: Event, servedBy: Option<string>, usage: Option<Usage>)
    requires IsContent(e)
    ensures Transcribe(codec, s.(servedBy := servedBy, usage := usage), e) ==
            Transcribe(codec, s, e).(servedBy := servedBy, usage := usage)
    ensures Transcribe(codec, s, e).servedBy == s.servedBy && Transcribe(codec, s, e).usage == s.usage
  {
  }

  lemma ReportsOneMore(reports: seq<Usage>, usage: Usage, before: Option<Usage>)
    ensures Total(reports + [usage], before) ==
            Some(if Total(reports, before).Some? then Total(reports, before).value.Merge(usage) else usage)
  {
    assert (reports + [usage])[..|reports|] == reports;
  }

  /** Models and usage reports pass through content without touching it. */
  lemma {:induction false} ContentStandsAlone(codec: Codec, s: State, events: seq<Event>)
    ensures Fold(codec, s, events) ==
            Fold(codec, s, Content(events)).(servedBy := LastModel(events, s.servedBy),
                                             usage := Total(Reports(events), s.usage))
    ensures Fold(codec, s, Content(events)).servedBy == s.servedBy
    ensures Fold(codec, s, Content(events)).usage == s.usage
    decreases |events|
  {
    if events != [] {
      hide Transcribe, Usage.Merge;
      var front, e := events[..|events| - 1], events[|events| - 1];
      ContentStandsAlone(codec, s, front);
      var before := Fold(codec, s, Content(front));
      if IsContent(e) {
        FoldOneMore(codec, s, Content(front), e);
        ContentPassesBy(codec, before, e, LastModel(front, s.servedBy), Total(Reports(front), s.usage));
      } else {
        OtherPassesBy(codec, before, e, LastModel(front, s.servedBy), Total(Reports(front), s.usage));
        if e.Metered? {
          ReportsOneMore(Reports(front), e.usage, s.usage);
        }
      }
    }
  }

  /** A model or a usage report changes nothing but itself. */
  lemma OtherPassesBy(codec: Codec, s: State, e: Event, servedBy: Option<string>, usage: Option<Usage>)
    requires !IsContent(e)
    ensures Transcribe(codec, s.(servedBy := servedBy, usage := usage), e) ==
            s.(servedBy := if e.Started? then Some(e.model) else servedBy,
               usage := if e.Started? then usage else Some(if usage.Some? then usage.value.Merge(e.usage) else e.usage))
  {
  }

  /** Usage reports add up to one total in any order. */
  lemma {:induction false} TotalWithout(reports: seq<Usage>, i: nat)
    requires i < |reports|
    ensures Total(reports, None) == Total(reports[..i] + reports[i + 1..] + [reports[i]], None)
    decreases |reports|
  {
    hide Usage.Merge, Total;
    var n := |reports| - 1;
    var last, moved := reports[n], reports[i];
    var rest := reports[..i] + reports[i + 1..];
    if i < n {
      var front, inner := reports[..n], reports[..i] + reports[i + 1..n];
      TotalWithout(front, i);
      assert front[..i] + front[i + 1..] == inner;
      assert reports == front + [last] && rest == inner + [last];
      ReportsOneMore(front, last, None);
      ReportsOneMore(inner, moved, None);
      ReportsOneMore(inner, last, None);
      ReportsOneMore(rest, moved, None);
      MergingSwaps(Total(inner, None), moved, last);
    } else {
      assert rest + [moved] == reports;
    }
  }

  function Adding(before: Option<Usage>, usage: Usage): Usage {
    if before.Some? then before.value.Merge(usage) else usage
  }

  lemma MergingSwaps(before: Option<Usage>, a: Usage, b: Usage)
    ensures Adding(before, a).Merge(b) == Adding(before, b).Merge(a)
  {
    hide Usage.Merge;
    MergeIsCommutativeMonoid(a, b, a);
    if before.Some? {
      MergeIsCommutativeMonoid(before.value, a, b);
      MergeIsCommutativeMonoid(before.value, b, a);
    }
  }

  lemma {:induction false} TotalIgnoresOrder(a: seq<Usage>, b: seq<Usage>)
    requires multiset(a) == multiset(b)
    ensures Total(a, None) == Total(b, None)
    decreases |a|
  {
    if a == [] {
      assert |multiset(b)| == |b|;
    } else {
      var n := |a| - 1;
      var last := a[n];
      assert a == a[..n] + [last];
      assert last in multiset(b);
      var i :| 0 <= i < |b| && b[i] == last;
      var rest := b[..i] + b[i + 1..];
      assert b == b[..i] + [last] + b[i + 1..];
      assert multiset(rest) == multiset(b) - multiset{last};
      assert multiset(a[..n]) == multiset(a) - multiset{last};
      TotalIgnoresOrder(a[..n], rest);
      TotalWithout(b, i);
      assert (rest + [last])[..|rest|] == rest;
    }
  }

  /** The theorem: a reply does not depend on how it was cut up on the way. */
  lemma ReplyDoesNotDependOnChunking(codec: Codec, askedFor: string, a: seq<Event>, b: seq<Event>)
    requires SayTheSame(a, b)
    ensures Fold(codec, Empty(askedFor), a) == Fold(codec, Empty(askedFor), b)
    ensures Finish(codec, Fold(codec, Empty(askedFor), a)) == Finish(codec, Fold(codec, Empty(askedFor), b))
  {
    ContentStandsAlone(codec, Empty(askedFor), a);
    ContentStandsAlone(codec, Empty(askedFor), b);
    CoalescingKeepsState(codec, Empty(askedFor), Content(a));
    CoalescingKeepsState(codec, Empty(askedFor), Content(b));
    TotalIgnoresOrder(Reports(a), Reports(b));
  }

  // ----- which streams say the same

  lemma {:induction false} ContentAppends(a: seq<Event>, b: seq<Event>)
    ensures Content(a + b) == Content(a) + Content(b)
    decreases |b|
  {
    if b == [] {
      assert a + b == a;
    } else {
      ContentAppends(a, b[..|b| - 1]);
      assert (a + b)[..|a + b| - 1] == a + b[..|b| - 1];
    }
  }

  lemma {:induction false} ReportsAppend(a: seq<Event>, b: seq<Event>)
    ensures Reports(a + b) == Reports(a) + Reports(b)
    decreases |b|
  {
    if b == [] {
      assert a + b == a;
    } else {
      ReportsAppend(a, b[..|b| - 1]);
      assert (a + b)[..|a + b| - 1] == a + b[..|b| - 1];
    }
  }

  lemma {:induction false} LastModelAppends(a: seq<Event>, b: seq<Event>, before: Option<string>)
    ensures LastModel(a + b, before) == LastModel(b, LastModel(a, before))
    decreases |b|
  {
    if b == [] {
      assert a + b == a;
    } else {
      LastModelAppends(a, b[..|b| - 1], before);
      assert (a + b)[..|a + b| - 1] == a + b[..|b| - 1];
    }
  }

  /** What follows is joined on in the same way to streams that are the same once joined up. */
  lemma {:induction false} CoalescedGoesOn(a: seq<Event>, b: seq<Event>, more: seq<Event>)
    requires Coalesced(a) == Coalesced(b)
    ensures Coalesced(a + more) == Coalesced(b + more)
    decreases |more|
  {
    hide Coalesced, Join;
    if more == [] {
      assert a + more == a && b + more == b;
    } else {
      var front, last := more[..|more| - 1], more[|more| - 1];
      CoalescedGoesOn(a, b, front);
      assert a + more == a + front + [last] && b + more == b + front + [last];
      CoalescedOneMore(a + front, last);
      CoalescedOneMore(b + front, last);
    }
  }

  lemma CoalescedOneMore(events: seq<Event>, e: Event)
    ensures Coalesced(events + [e]) == Join(Coalesced(events), e)
  {
    hide Join;
    assert (events + [e])[..|events|] == events;
  }

  lemma JoiningAssociates(d: Event, e: Event, f: Event)
    requires Adjoin(d, e) && Adjoin(e, f)
    ensures Joined(Joined(d, e), f) == Joined(d, Joined(e, f))
  {
    match d {
      case TextDelta(text) => assert text + e.text + f.text == text + (e.text + f.text);
      case ThinkingDelta(text) => assert text + e.text + f.text == text + (e.text + f.text);
      case ToolArgumentsDelta(fragment) => assert fragment + e.fragment + f.fragment == fragment + (e.fragment + f.fragment);
    }
  }

  lemma JoiningTwo(events: seq<Event>, d: Event, e: Event)
    requires Adjoin(d, e)
    ensures Join(Join(events, d), e) == Join(events, Joined(d, e))
  {
    if events != [] && Adjoin(events[|events| - 1], d) {
      JoiningAssociates(events[|events| - 1], d, e);
    }
  }

  /** One piece cut in two, anywhere in a stream. */
  lemma CuttingSaysTheSame(front: seq<Event>, d: Event, e: Event, back: seq<Event>)
    requires Adjoin(d, e)
    ensures SayTheSame(front + [d, e] + back, front + [Joined(d, e)] + back)
  {
    hide Coalesced, Join, Joined;
    var cut, whole := [d, e], [Joined(d, e)];
    Rearranged(front, cut, whole, back);
    PiecesAreContent(d, e);
    CoalescedOneMore(Content(front), d);
    CoalescedOneMore(Content(front) + [d], e);
    CoalescedOneMore(Content(front), Joined(d, e));
    JoiningTwo(Coalesced(Content(front)), d, e);
    assert Content(front) + [d] + [e] == Content(front) + [d, e];
    CoalescedGoesOn(Content(front) + [d, e], Content(front) + [Joined(d, e)], Content(back));
  }

  lemma PiecesAreContent(d: Event, e: Event)
    requires Adjoin(d, e)
    ensures Content([d, e]) == [d, e] && Content([Joined(d, e)]) == [Joined(d, e)]
    ensures Reports([d, e]) == [] && Reports([Joined(d, e)]) == []
    ensures forall m :: LastModel([d, e], m) == m && LastModel([Joined(d, e)], m) == m
  {
    hide Content, Reports, LastModel;
    TwoAlone(d, e);
    OneAlone(Joined(d, e));
  }

  lemma OneAlone(e: Event)
    ensures Content([e]) == if IsContent(e) then [e] else []
    ensures Reports([e]) == if e.Metered? then [e.usage] else []
    ensures forall m :: LastModel([e], m) == if e.Started? then Some(e.model) else m
  {
    assert [e][..0] == [];
    assert Content([]) == [] && Reports([]) == [];
  }

  lemma TwoAlone(d: Event, e: Event)
    ensures Content([d, e]) == (if IsContent(d) then [d] else []) + if IsContent(e) then [e] else []
    ensures Reports([d, e]) == (if d.Metered? then [d.usage] else []) + if e.Metered? then [e.usage] else []
    ensures forall m :: LastModel([d, e], m) == if e.Started? then Some(e.model) else if d.Started? then Some(d.model) else m
  {
    hide Content, Reports, LastModel;
    assert [d] + [e] == [d, e];
    OneAlone(d);
    OneAlone(e);
    ContentAppends([d], [e]);
    ReportsAppend([d], [e]);
    forall m ensures LastModel([d, e], m) == LastModel([e], LastModel([d], m)) {
      LastModelAppends([d], [e], m);
    }
  }

  /** The parts of two streams that differ in the middle. */
  lemma Rearranged(front: seq<Event>, a: seq<Event>, b: seq<Event>, back: seq<Event>)
    ensures Content(front + a + back) == Content(front) + Content(a) + Content(back)
    ensures Content(front + b + back) == Content(front) + Content(b) + Content(back)
    ensures Reports(front + a + back) == Reports(front) + Reports(a) + Reports(back)
    ensures Reports(front + b + back) == Reports(front) + Reports(b) + Reports(back)
    ensures LastModel(front + a + back, None) == LastModel(back, LastModel(a, LastModel(front, None)))
    ensures LastModel(front + b + back, None) == LastModel(back, LastModel(b, LastModel(front, None)))
  {
    ContentAppends(front + a, back);
    ContentAppends(front, a);
    ContentAppends(front + b, back);
    ContentAppends(front, b);
    ReportsAppend(front + a, back);
    ReportsAppend(front, a);
    ReportsAppend(front + b, back);
    ReportsAppend(front, b);
    LastModelAppends(front + a, back, None);
    LastModelAppends(front, a, None);
    LastModelAppends(front + b, back, None);
    LastModelAppends(front, b, None);
  }

  /** Two neighbours that change places, anywhere in a stream: not both content, and not both the
      name of a model. */
  lemma MovingSaysTheSame(front: seq<Event>, d: Event, e: Event, back: seq<Event>)
    requires !(IsContent(d) && IsContent(e)) && !(d.Started? && e.Started?)
    ensures SayTheSame(front + [d, e] + back, front + [e, d] + back)
  {
    hide Coalesced;
    Rearranged(front, [d, e], [e, d], back);
    NeighboursSwap(d, e);
    assert multiset(Reports(front) + Reports([d, e]) + Reports(back))
           == multiset(Reports(front)) + multiset(Reports([d, e])) + multiset(Reports(back));
    assert multiset(Reports(front) + Reports([e, d]) + Reports(back))
           == multiset(Reports(front)) + multiset(Reports([e, d])) + multiset(Reports(back));
  }

  lemma NeighboursSwap(d: Event, e: Event)
    requires !(IsContent(d) && IsContent(e)) && !(d.Started? && e.Started?)
    ensures Content([d, e]) == Content([e, d])
    ensures multiset(Reports([d, e])) == multiset(Reports([e, d]))
    ensures forall m :: LastModel([d, e], m) == LastModel([e, d], m)
  {
    hide Content, Reports, LastModel;
    TwoAlone(d, e);
    TwoAlone(e, d);
    if d.Metered? && e.Metered? {
      assert multiset([d.usage] + [e.usage]) == multiset([d.usage]) + multiset([e.usage]);
      assert multiset([e.usage] + [d.usage]) == multiset([d.usage]) + multiset([e.usage]);
    }
  }
}
