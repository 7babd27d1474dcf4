/** The daily price sync: what a list price list does to the prices in place. */
module Prices {
  import opened Basics
  import opened Pricing

  /** A model of a vendor's, as the price table knows it. */
  datatype PriceKey = PriceKey(vendor: string, model: string)

  /** One price of a list. */
  datatype Row = Row(key: PriceKey, rate: Rate)

  /** Why a price waits for a person: a part of it, and what it would move from and to. */
  datatype Reason = Reason(part: string, was: I64, now: I64)

  datatype Held = Held(rate: Rate, book: string, at: I64, why: Reason)

  /** What the table keeps for a model: the rate a sync set, if one did, another that waits for a
      person, and the last that one refused. */
  datatype SyncedPrice = SyncedPrice(
    rate: Option<Rate>,
    book: string,
    updatedAt: I64,
    held: Option<Held>,
    rejected: Option<Rate>)
  {
    predicate Empty() {
      rate.None? && held.None? && rejected.None?
    }
  }

  type Table = map<PriceKey, SyncedPrice>

  /** What the tables that came with the program charge. They do not change while it is installed. */
  type ShippedRates = PriceKey -> Option<Rate>

  datatype Change =
    | Apply(key: PriceKey, rate: Rate, was: Option<Rate>)
    | Hold(key: PriceKey, rate: Rate, why: Reason)
    | Unhold(key: PriceKey)

  datatype Summary = Summary(seen: nat, applied: nat, changed: nat, held: nat, same: nat)

  function RowAt(table: Table, key: PriceKey): Option<SyncedPrice> {
    if key in table then Some(table[key]) else None
  }

  /** The rate that applies: the synced one, and the shipped one where nothing has been synced. */
  function Applies(row: Option<SyncedPrice>, shipped: Option<Rate>): Option<Rate> {
    if row.Some? && row.value.rate.Some? then row.value.rate else shipped
  }

  // ----- whether a price moves too far

  const PARTS: seq<string> :=
    ["input", "output", "cache read", "cache write", "per picture", "per second", "per character"]

  function Amounts(rate: Rate): (amounts: seq<I64>)
    ensures |amounts| == |PARTS|
  {
    [rate.input, rate.output, rate.cacheRead, rate.cacheWrite, rate.image, rate.audioSecond, rate.character]
  }

  function Abs(x: real): real {
    if x < 0.0 then -x else x
  }

  /** Whether a charge goes away or moves by more than half. A charge that appears does neither. */
  predicate Moves(was: I64, now: I64) {
    was != 0 && (now == 0 || Abs(now as real / was as real - 1.0) > 0.5)
  }

  /** In whole numbers: a charge that is there stays between half and half as much again. */
  lemma MovesInWholes(was: nat, now: nat)
    requires 0 < was <= I64_MAX && now <= I64_MAX
    ensures Moves(was, now) <==> !(was <= 2 * now <= 3 * was)
  {
    hide Abs;
    RatioBetween(was as real, now as real);
    InWholes(was, now);
  }

  lemma RatioBetween(was: real, now: real)
    requires was > 0.0
    ensures Abs(now / was - 1.0) > 0.5 <==> now > 1.5 * was || now < 0.5 * was
  {
    RatioUndone(now, was);
    RatioCompares(now / was, was, 1.5);
    RatioCompares(now / was, was, 0.5);
  }

  lemma RatioUndone(a: real, b: real)
    requires b != 0.0
    ensures a / b * b == a
  {
  }

  lemma RatioCompares(ratio: real, was: real, bound: real)
    requires was > 0.0
    ensures ratio > bound <==> ratio * was > bound * was
    ensures ratio < bound <==> ratio * was < bound * was
  {
  }

  lemma InWholes(was: int, now: int)
    ensures now as real > 1.5 * was as real <==> 2 * now > 3 * was
    ensures (now as real) < 0.5 * was as real <==> 2 * now < was
  {
  }

  /** The first part that moves too far, from part `i` on. */
  function FirstMove(before: Rate, after: Rate, i: nat): Option<Reason>
    requires i <= |PARTS|
    decreases |PARTS| - i
  {
    if i == |PARTS| then None
    else if Moves(Amounts(before)[i], Amounts(after)[i]) then Some(Reason(PARTS[i], Amounts(before)[i], Amounts(after)[i]))
    else FirstMove(before, after, i + 1)
  }

  method NeedsAPerson(before: Rate, after: Rate) returns (why: Option<Reason>)
    ensures why == FirstMove(before, after, 0)
  {
    var i := 0;
    while i < |PARTS|
      invariant i <= |PARTS|
      invariant FirstMove(before, after, 0) == FirstMove(before, after, i)
    {
      var was, now := Amounts(before)[i], Amounts(after)[i];
      if was != 0 {
        var ratio := now as real / was as real;
        if now == 0 || Abs(ratio - 1.0) > 0.5 {
          return Some(Reason(PARTS[i], was, now));
        }
      }
      i := i + 1;
    }
    why := None;
  }

  /** A price goes through without a person exactly when no part of it moves too far. */
  lemma {:induction false} NoMoveExactlyWhen(before: Rate, after: Rate, i: nat)
    requires i <= |PARTS|
    ensures FirstMove(before, after, i) == None
            <==> forall j :: i <= j < |PARTS| ==> !Moves(Amounts(before)[j], Amounts(after)[j])
    decreases |PARTS| - i
  {
    if i < |PARTS| {
      NoMoveExactlyWhen(before, after, i + 1);
    }
  }

  /** The reason given is the first part that moves too far, by its own name, and what it moves from and to. */
  lemma ReasonIsTheFirstMove(before: Rate, after: Rate, why: Reason)
    requires FirstMove(before, after, 0) == Some(why)
    ensures Moves(why.was, why.now)
    ensures why.part == "input" ==> why.was == before.input && why.now == after.input
    ensures why.part != "input" ==> !Moves(before.input, after.input)
    ensures why.part == "output" ==> why.was == before.output && why.now == after.output
    ensures why.part !in ["input", "output"] ==> !Moves(before.output, after.output)
    ensures why.part == "cache read" ==> why.was == before.cacheRead && why.now == after.cacheRead
    ensures why.part !in ["input", "output", "cache read"] ==> !Moves(before.cacheRead, after.cacheRead)
    ensures why.part == "cache write" ==> why.was == before.cacheWrite && why.now == after.cacheWrite
    ensures why.part in ["per picture", "per second", "per character"] ==> !Moves(before.cacheWrite, after.cacheWrite)
    ensures why.part == "per picture" ==> why.was == before.image && why.now == after.image
    ensures why.part in ["per second", "per character"] ==> !Moves(before.image, after.image)
    ensures why.part == "per second" ==> why.was == before.audioSecond && why.now == after.audioSecond
    ensures why.part == "per character" ==> why.was == before.character && why.now == after.character
                                            && !Moves(before.audioSecond, after.audioSecond)
    ensures why.part in ["input", "output", "cache read", "cache write", "per picture", "per second", "per character"]
  {
    hide Moves, FirstMove;
    var i := FirstMoveAt(before, after, 0);
    assert forall j :: 0 <= j < i ==> !Moves(Amounts(before)[j], Amounts(after)[j]);
    assert i > 0 ==> !Moves(Amounts(before)[0], Amounts(after)[0]);
    assert i > 1 ==> !Moves(Amounts(before)[1], Amounts(after)[1]);
    assert i > 2 ==> !Moves(Amounts(before)[2], Amounts(after)[2]);
    assert i > 3 ==> !Moves(Amounts(before)[3], Amounts(after)[3]);
    assert i > 4 ==> !Moves(Amounts(before)[4], Amounts(after)[4]);
    assert i > 5 ==> !Moves(Amounts(before)[5], Amounts(after)[5]);
  }

  lemma {:induction false} FirstMoveAt(before: Rate, after: Rate, from: nat) returns (i: nat)
    requires from <= |PARTS| && FirstMove(before, after, from).Some?
    ensures from <= i < |PARTS| && Moves(Amounts(before)[i], Amounts(after)[i])
    ensures FirstMove(before, after, from) == Some(Reason(PARTS[i], Amounts(before)[i], Amounts(after)[i]))
    ensures forall j :: from <= j < i ==> !Moves(Amounts(before)[j], Amounts(after)[j])
    decreases |PARTS| - from
  {
    i := from;
    if !Moves(Amounts(before)[from], Amounts(after)[from]) {
      i := FirstMoveAt(before, after, from + 1);
    }
  }

  lemma StandingStill(amount: I64)
    ensures !Moves(amount, amount)
  {
    if amount != 0 {
      RatioOfSelf(amount as real);
    }
  }

  lemma RatioOfSelf(a: real)
    requires a != 0.0
    ensures a / a == 1.0
  {
  }

  lemma StayingIsNoMove(rate: Rate)
    ensures FirstMove(rate, rate, 0) == None
  {
    hide Moves, FirstMove;
    NoMoveExactlyWhen(rate, rate, 0);
    forall j | 0 <= j < |PARTS| ensures !Moves(Amounts(rate)[j], Amounts(rate)[j]) {
      StandingStill(Amounts(rate)[j]);
    }
  }

  // ----- what a sync decides

  datatype Decision = Adopt | Ask(why: Reason) | Drop | Leave

  /** What a listed rate does to the row of its model. */
  function Decide(row: Option<SyncedPrice>, shipped: Option<Rate>, rate: Rate): Decision {
    var applies := Applies(row, shipped);
    if applies == Some(rate) then
      if row.Some? && row.value.held.Some? then Drop else Leave
    else if row.Some? && row.value.rejected == Some(rate) then Leave
    else if row.Some? && row.value.held.Some? && row.value.held.value.rate == rate then Leave
    else if applies.None? then Adopt
    else
      match FirstMove(applies.value, rate, 0)
      case Some(why) => Ask(why)
      case None => Adopt
  }

  function ChangesOf(decision: Decision, row: Row, was: Option<Rate>): seq<Change> {
    match decision
    case Adopt => [Apply(row.key, row.rate, was)]
    case Ask(why) => [Hold(row.key, row.rate, why)]
    case Drop => [Unhold(row.key)]
    case Leave => []
  }

  function Counted(summary: Summary, decision: Decision, was: Option<Rate>): Summary {
    match decision
    case Adopt => summary.(applied := summary.applied + 1, changed := summary.changed + if was.Some? then 1 else 0)
    case Ask(_) => summary.(held := summary.held + 1)
    case Drop => summary.(same := summary.same + 1)
    case Leave => summary.(same := summary.same + 1)
  }

  /** The changes a list makes, in its order, each decided by the table as it was. */
  function Changes(table: Table, shipped: ShippedRates, list: seq<Row>): seq<Change> {
    if list == [] then []
    else
      var last := list[|list| - 1];
      var row := RowAt(table, last.key);
      Changes(table, shipped, list[..|list| - 1])
      + ChangesOf(Decide(row, shipped(last.key), last.rate), last, Applies(row, shipped(last.key)))
  }

  function Summed(table: Table, shipped: ShippedRates, list: seq<Row>, seen: nat): Summary {
    if list == [] then Summary(seen, 0, 0, 0, 0)
    else
      var last := list[|list| - 1];
      var row := RowAt(table, last.key);
      Counted(Summed(table, shipped, list[..|list| - 1], seen),
              Decide(row, shipped(last.key), last.rate), Applies(row, shipped(last.key)))
  }

  lemma NothingPlanned(table: Table, shipped: ShippedRates, seen: nat)
    ensures Changes(table, shipped, []) == [] && Summed(table, shipped, [], seen) == Summary(seen, 0, 0, 0, 0)
  {
  }

  lemma PlanOneMore(table: Table, shipped: ShippedRates, list: seq<Row>, i: nat, seen: nat)
    requires i < |list|
    ensures var row := RowAt(table, list[i].key);
            var was := Applies(row, shipped(list[i].key));
            var decision := Decide(row, shipped(list[i].key), list[i].rate);
            && Changes(table, shipped, list[..i + 1]) == Changes(table, shipped, list[..i]) + ChangesOf(decision, list[i], was)
            && Summed(table, shipped, list[..i + 1], seen) == Counted(Summed(table, shipped, list[..i], seen), decision, was)
  {
    hide Decide, ChangesOf, Counted;
    assert list[..i + 1][..i] == list[..i];
  }

  method Plan(table: Table, shipped: ShippedRates, list: seq<Row>) returns (changes: seq<Change>, summary: Summary)
    ensures changes == Changes(table, shipped, list)
    ensures summary == Summed(table, shipped, list, |list|)
  {
    hide Changes, Summed, FirstMove;
    NothingPlanned(table, shipped, |list|);
    changes, summary := [], Summary(|list|, 0, 0, 0, 0);
    var i := 0;
    while i < |list|
      invariant i <= |list|
      invariant changes == Changes(table, shipped, list[..i])
      invariant summary == Summed(table, shipped, list[..i], |list|)
    {
      var key, rate := list[i].key, list[i].rate;
      PlanOneMore(table, shipped, list, i, |list|);
      i := i + 1;
      var row := RowAt(table, key);
      var applies := Applies(row, shipped(key));
      if applies == Some(rate) {
        summary := summary.(same := summary.same + 1);
        if row.Some? && row.value.held.Some? {
          changes := changes + [Unhold(key)];
        }
        continue;
      }
      if row.Some? && (row.value.rejected == Some(rate)
                       || (row.value.held.Some? && row.value.held.value.rate == rate)) {
        summary := summary.(same := summary.same + 1);
        continue;
      }
      var why := None;
      if applies.Some? {
        why := NeedsAPerson(applies.value, rate);
      }
      match why {
        case Some(reason) =>
          summary := summary.(held := summary.held + 1);
          changes := changes + [Hold(key, rate, reason)];
        case None =>
          summary := summary.(applied := summary.applied + 1);
          if applies.Some? {
            summary := summary.(changed := summary.changed + 1);
          }
          changes := changes + [Apply(key, rate, applies)];
      }
    }
    assert list[..i] == list;
  }

  function AppliesIn(changes: seq<Change>): nat {
    if changes == [] then 0
    else AppliesIn(changes[..|changes| - 1]) + if changes[|changes| - 1].Apply? then 1 else 0
  }

  function HoldsIn(changes: seq<Change>): nat {
    if changes == [] then 0
    else HoldsIn(changes[..|changes| - 1]) + if changes[|changes| - 1].Hold? then 1 else 0
  }

  /** How many of these changes replace a price that applied. */
  function ReplacesIn(changes: seq<Change>): nat {
    if changes == [] then 0
    else ReplacesIn(changes[..|changes| - 1])
         + if changes[|changes| - 1].Apply? && changes[|changes| - 1].was.Some? then 1 else 0
  }

  /** One decision is counted once, and as the change it makes. */
  lemma DecisionCounts(changes: seq<Change>, summary: Summary, decision: Decision, row: Row, was: Option<Rate>)
    ensures var s, all := Counted(summary, decision, was), changes + ChangesOf(decision, row, was);
            && s.seen == summary.seen
            && s.applied + s.held + s.same == summary.applied + summary.held + summary.same + 1
            && ReplacesIn(all) - ReplacesIn(changes) == s.changed - summary.changed
            && AppliesIn(all) - AppliesIn(changes) == s.applied - summary.applied
            && HoldsIn(all) - HoldsIn(changes) == s.held - summary.held
  {
    var more := ChangesOf(decision, row, was);
    if more == [] {
      assert changes + more == changes;
    } else {
      assert (changes + more)[..|changes|] == changes;
    }
  }

  /** Every row of the list is counted once, and the counts are of the changes made. */
  lemma {:induction false} SummaryAddsUp(table: Table, shipped: ShippedRates, list: seq<Row>, seen: nat)
    ensures var s := Summed(table, shipped, list, seen);
            && s.seen == seen
            && s.applied + s.held + s.same == |list|
            && s.changed == ReplacesIn(Changes(table, shipped, list))
            && s.applied == AppliesIn(Changes(table, shipped, list))
            && s.held == HoldsIn(Changes(table, shipped, list))
    decreases |list|
  {
    if list != [] {
      hide Decide, Counted, ChangesOf, AppliesIn, HoldsIn, ReplacesIn, Applies;
      var before, last := list[..|list| - 1], list[|list| - 1];
      var row := RowAt(table, last.key);
      SummaryAddsUp(table, shipped, before, seen);
      DecisionCounts(Changes(table, shipped, before), Summed(table, shipped, before, seen),
                     Decide(row, shipped(last.key), last.rate), last, Applies(row, shipped(last.key)));
    }
  }

  /** Every change says what it changes from: a price that is applied, the one that applied until then, which it is
      not; and one that is held, the move from the one that applies which is too far. */
  ghost predicate SaysFromWhere(table: Table, shipped: ShippedRates, change: Change) {
    match change
    case Apply(key, rate, was) => was == Applies(RowAt(table, key), shipped(key)) && was != Some(rate)
    case Hold(key, rate, why) =>
      var applies := Applies(RowAt(table, key), shipped(key));
      applies.Some? && FirstMove(applies.value, rate, 0) == Some(why)
    case Unhold(key) => key in table && table[key].held.Some?
  }

  lemma {:induction false} ChangesSayFromWhere(table: Table, shipped: ShippedRates, list: seq<Row>)
    ensures forall change <- Changes(table, shipped, list) :: SaysFromWhere(table, shipped, change)
    decreases |list|
  {
    if list != [] {
      hide FirstMove;
      ChangesSayFromWhere(table, shipped, list[..|list| - 1]);
    }
  }

  // ----- the list itself

  const VENDORS: seq<string> := ["anthropic", "openai", "gemini"]

  /** One entry of the list: its name, the vendor it names, and the price it gives, if it gives
      one that can be charged. */
  datatype Entry = Entry(name: string, vendor: Option<string>, rate: Option<Rate>)

  /** The model an entry prices, when it prices one of the three vendors' own: Gemini's are named
      with a prefix, and any other name with a slash is another route to the vendor. */
  function Names(entry: Entry): Option<PriceKey> {
    if entry.vendor.None? || entry.vendor.value !in VENDORS then None
    else if entry.vendor.value == "gemini" then
      if "gemini/" <= entry.name then Some(PriceKey("gemini", entry.name[7..])) else None
    else if '/' in entry.name then None
    else Some(PriceKey(entry.vendor.value, entry.name))
  }

  function Read(entries: seq<Entry>): seq<Row> {
    if entries == [] then []
    else
      var last := entries[|entries| - 1];
      var before := Read(entries[..|entries| - 1]);
      if Names(last).Some? && last.rate.Some? then before + [Row(Names(last).value, last.rate.value)] else before
  }

  function Skipped(entries: seq<Entry>): nat {
    if entries == [] then 0
    else
      var last := entries[|entries| - 1];
      Skipped(entries[..|entries| - 1]) + if Names(last).Some? && last.rate.None? then 1 else 0
  }

  /** The rows of a list, and how many it has that could not be read; nothing when it has none. */
  method ParseSource(entries: seq<Entry>) returns (parsed: Option<(seq<Row>, nat)>)
    ensures parsed == if Read(entries) == [] then None else Some((Read(entries), Skipped(entries)))
  {
    var rows, skipped := [], 0;
    for i := 0 to |entries|
      invariant rows == Read(entries[..i]) && skipped == Skipped(entries[..i])
    {
      var entry := entries[i];
      assert entries[..i + 1][..i] == entries[..i];
      if entry.vendor.None? || entry.vendor.value !in VENDORS {
        continue;
      }
      var model;
      if entry.vendor.value == "gemini" {
        if !("gemini/" <= entry.name) {
          continue;
        }
        model := entry.name[7..];
      } else if '/' in entry.name {
        continue;
      } else {
        model := entry.name;
      }
      match entry.rate {
        case Some(rate) => rows := rows + [Row(PriceKey(entry.vendor.value, model), rate)];
        case None => skipped := skipped + 1;
      }
    }
    assert entries[..|entries|] == entries;
    return if rows == [] then None else Some((rows, skipped));
  }

  // ----- which entries a list's rows are of

  /** Whether an entry is for this model: Gemini's by the model's name after the prefix, Anthropic's and
      OpenAI's by its bare name. */
  predicate IsFor(entry: Entry, key: PriceKey) {
    || (entry.vendor == Some("gemini") && key.vendor == "gemini" && entry.name == "gemini/" + key.model)
    || (entry.vendor == Some(key.vendor) && (key.vendor == "anthropic" || key.vendor == "openai")
        && entry.name == key.model && '/' !in entry.name)
  }

  ghost predicate IsForSome(entry: Entry) {
    exists key :: IsFor(entry, key)
  }

  lemma NamesExactlyWhen(entry: Entry, key: PriceKey)
    ensures Names(entry) == Some(key) <==> IsFor(entry, key)
  {
    if "gemini/" <= entry.name {
      assert entry.name == "gemini/" + entry.name[7..];
    }
    assert ("gemini/" + key.model)[7..] == key.model;
  }

  lemma NamesSome(entry: Entry)
    ensures Names(entry).Some? <==> IsForSome(entry)
  {
    hide Names, IsFor;
    if Names(entry).Some? {
      NamesExactlyWhen(entry, Names(entry).value);
    } else {
      forall key ensures !IsFor(entry, key) {
        NamesExactlyWhen(entry, key);
      }
    }
  }

  predicate Rising(at: seq<nat>) {
    forall k, l :: 0 <= k < l < |at| ==> at[k] < at[l]
  }

  /** Whether these rows are those of the entries at these places. */
  predicate AreOf(entries: seq<Entry>, rows: seq<Row>, at: seq<nat>) {
    && |at| == |rows|
    && (forall k :: 0 <= k < |at| ==>
          && at[k] < |entries| && entries[at[k]].rate == Some(rows[k].rate) && IsFor(entries[at[k]], rows[k].key))
  }

  /** Whether every entry that is for a model and has a price is at one of these places. */
  ghost predicate LeaveNoneOut(entries: seq<Entry>, at: seq<nat>) {
    forall i: nat :: i < |entries| && entries[i].rate.Some? && IsForSome(entries[i]) ==> i in at
  }

  /** The rows of a list are those of its entries that are for a model and have a price, one each and in
      the same order, under that model and at that price. */
  lemma {:induction false} RowsAreOfEntries(entries: seq<Entry>) returns (at: seq<nat>)
    ensures Rising(at) && AreOf(entries, Read(entries), at) && LeaveNoneOut(entries, at)
    decreases |entries|
  {
    at := [];
    if entries != [] {
      hide Names, IsFor, IsForSome, AreOf, LeaveNoneOut, Rising;
      var n := |entries| - 1;
      var e := entries[n];
      var before := RowsAreOfEntries(entries[..n]);
      assert entries == entries[..n] + [e];
      NamesSome(e);
      if Names(e).Some? && e.rate.Some? {
        NamesExactlyWhen(e, Names(e).value);
        at := before + [n];
        OneMoreRow(entries[..n], e, Read(entries[..n]), Row(Names(e).value, e.rate.value), before);
      } else {
        at := before;
        OneMoreIgnored(entries[..n], e, Read(entries[..n]), before);
      }
    }
  }

  lemma OneMoreRow(entries: seq<Entry>, e: Entry, rows: seq<Row>, row: Row, at: seq<nat>)
    requires Rising(at) && AreOf(entries, rows, at) && LeaveNoneOut(entries, at)
    requires e.rate == Some(row.rate) && IsFor(e, row.key)
    ensures var now := at + [|entries|];
            Rising(now) && AreOf(entries + [e], rows + [row], now) && LeaveNoneOut(entries + [e], now)
  {
    hide IsFor, IsForSome;
    forall i: nat | i < |entries + [e]| && (entries + [e])[i].rate.Some? && IsForSome((entries + [e])[i])
      ensures i in at + [|entries|]
    {
      if i == |entries| {
        assert (at + [|entries|])[|at|] == i;
      } else {
        assert i in at;
      }
    }
  }

  lemma OneMoreIgnored(entries: seq<Entry>, e: Entry, rows: seq<Row>, at: seq<nat>)
    requires AreOf(entries, rows, at) && LeaveNoneOut(entries, at) && !(e.rate.Some? && IsForSome(e))
    ensures AreOf(entries + [e], rows, at) && LeaveNoneOut(entries + [e], at)
  {
    hide IsFor, IsForSome;
  }

  /** So a model is listed at a price exactly when some entry is for it and has that price. */
  lemma ListedExactlyWhen(entries: seq<Entry>, row: Row)
    ensures row in Read(entries) <==>
            exists i :: 0 <= i < |entries| && entries[i].rate == Some(row.rate) && IsFor(entries[i], row.key)
  {
    hide IsFor, Names;
    var at := RowsAreOfEntries(entries);
    if i :| 0 <= i < |entries| && entries[i].rate == Some(row.rate) && IsFor(entries[i], row.key) {
      var k :| 0 <= k < |at| && at[k] == i;
      NamesExactlyWhen(entries[i], row.key);
      NamesExactlyWhen(entries[i], Read(entries)[k].key);
      assert Read(entries)[k] == row;
    }
  }

  ghost function PricelessIn(entries: seq<Entry>): set<int> {
    set i | 0 <= i < |entries| && entries[i].rate.None? && IsForSome(entries[i])
  }

  /** What is passed over is every entry for a model whose price cannot be charged, and nothing else. */
  lemma {:induction false} SkippedAreThePriceless(entries: seq<Entry>)
    ensures Skipped(entries) == |PricelessIn(entries)|
    decreases |entries|
  {
    if entries != [] {
      hide Names, IsForSome, PricelessIn;
      var n := |entries| - 1;
      SkippedAreThePriceless(entries[..n]);
      NamesSome(entries[n]);
      PricelessOneMore(entries[..n], entries[n]);
      assert entries[..n] + [entries[n]] == entries;
    } else {
      assert PricelessIn(entries) == {};
    }
  }

  lemma PricelessOneMore(entries: seq<Entry>, e: Entry)
    ensures |PricelessIn(entries + [e])| == |PricelessIn(entries)| + if e.rate.None? && IsForSome(e) then 1 else 0
  {
    hide IsForSome;
    var more := PricelessIn(entries + [e]);
    if e.rate.None? && IsForSome(e) {
      assert more == PricelessIn(entries) + {|entries|};
    } else {
      assert more == PricelessIn(entries);
    }
  }

  predicate Distinct(list: seq<Row>) {
    forall i, j :: 0 <= i < j < |list| ==> list[i].key != list[j].key
  }

  predicate NonNegative(list: seq<Row>) {
    forall i :: 0 <= i < |list| ==> list[i].rate.NonNegative()
  }

  /** What a list can be: the names of an object differ, and a price below nothing is not one. */
  predicate IsList(entries: seq<Entry>) {
    && (forall i, j :: 0 <= i < j < |entries| ==> entries[i].name != entries[j].name)
    && (forall i :: 0 <= i < |entries| && entries[i].rate.Some? ==> entries[i].rate.value.NonNegative())
  }

  lemma NamesAreDistinct(a: Entry, b: Entry)
    requires a.name != b.name && Names(a).Some? && Names(b).Some?
    ensures Names(a) != Names(b)
  {
    if a.vendor == b.vendor == Some("gemini") {
      assert a.name == "gemini/" + a.name[7..] && b.name == "gemini/" + b.name[7..];
    }
  }

  lemma {:induction false} ReadComesFrom(entries: seq<Entry>, k: nat) returns (i: nat)
    requires k < |Read(entries)|
    ensures i < |entries| && entries[i].rate.Some? && Names(entries[i]).Some?
    ensures Read(entries)[k] == Row(Names(entries[i]).value, entries[i].rate.value)
    decreases |entries|
  {
    var n := |entries| - 1;
    if k < |Read(entries[..n])| {
      i := ReadComesFrom(entries[..n], k);
    } else {
      i := n;
    }
  }

  /** The rows read from a list price each model once, and none below nothing. */
  lemma {:induction false} ListsAreDistinct(entries: seq<Entry>)
    requires IsList(entries)
    ensures Distinct(Read(entries)) && NonNegative(Read(entries))
    decreases |entries|
  {
    if entries != [] {
      var n := |entries| - 1;
      var before := entries[..n];
      ListsAreDistinct(before);
      if Names(entries[n]).Some? {
        forall k: nat | k < |Read(before)| ensures Read(before)[k].key != Names(entries[n]).value {
          var i := ReadComesFrom(before, k);
          NamesAreDistinct(entries[i], entries[n]);
        }
      }
    }
  }
}
