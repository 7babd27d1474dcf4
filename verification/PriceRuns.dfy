/** What every run of syncs and settlements keeps of the price table, and how far a price can get
    without a person. */
module PriceRuns {
  import opened Basics
  import opened Pricing
  import opened Prices
  import opened Stores
  import opened Breakers

  // ----- runs

  /** A list read and synced, or a held price accepted or refused. */
  datatype Op =
    | Sync(entries: seq<Entry>, book: string, at: I64)
    | Settle(key: PriceKey, accept: bool, at: I64)

  predicate CanHappen(op: Op) {
    op.Sync? ==> IsList(op.entries)
  }

  predicate AllCanHappen(ops: seq<Op>) {
    forall i :: 0 <= i < |ops| ==> CanHappen(ops[i])
  }

  /** A list that prices nothing is an error, and changes nothing. */
  function After(table: Table, shipped: ShippedRates, op: Op): Table {
    match op
    case Sync(entries, book, at) =>
      if Read(entries) == [] then table else Synced(table, shipped, Read(entries), book, at)
    case Settle(key, accept, at) => Settled(table, key, accept, at)
  }

  function Run(table: Table, shipped: ShippedRates, ops: seq<Op>): Table {
    if ops == [] then table
    else After(Run(table, shipped, ops[..|ops| - 1]), shipped, ops[|ops| - 1])
  }

  function Price(table: Table, shipped: ShippedRates, key: PriceKey): Option<Rate> {
    Applies(RowAt(table, key), shipped(key))
  }

  function HeldRate(table: Table, key: PriceKey): Option<Rate> {
    if IsHeld(table, key) then Some(table[key].held.value.rate) else None
  }

  function Rejected(table: Table, key: PriceKey): Option<Rate> {
    if key in table then table[key].rejected else None
  }

  // ----- what every state keeps

  predicate TooFar(applies: Option<Rate>, rate: Rate) {
    applies.Some? && FirstMove(applies.value, rate, 0).Some?
  }

  /** A row holds something. What it holds back, and what somebody refused, differ, and both are too
      far from what applies; the reason it gives is the move from what applies now. */
  predicate SoundRow(row: SyncedPrice, shipped: Option<Rate>) {
    var applies := Applies(Some(row), shipped);
    && !row.Empty()
    && (row.held.Some? ==> TooFar(applies, row.held.value.rate)
                           && row.held.value.why == FirstMove(applies.value, row.held.value.rate, 0).value)
    && (row.rejected.Some? ==> TooFar(applies, row.rejected.value))
    && (row.held.Some? ==> row.rejected != Some(row.held.value.rate))
  }

  ghost predicate Sound(table: Table, shipped: ShippedRates) {
    forall key :: key in table ==> SoundRow(table[key], shipped(key))
  }

  /** The row a sync leaves of a sound one, or of none. */
  function RowAfter(row: Option<SyncedPrice>, shipped: Option<Rate>, rate: Rate, book: string, at: I64): Option<SyncedPrice> {
    Kept(Decided(row, Decide(row, shipped, rate), rate, book, at))
  }

  lemma RowStaysSound(row: Option<SyncedPrice>, shipped: Option<Rate>, rate: Rate, book: string, at: I64)
    requires row.Some? ==> SoundRow(row.value, shipped)
    ensures RowAfter(row, shipped, rate, book, at).Some? ==> SoundRow(RowAfter(row, shipped, rate, book, at).value, shipped)
  {
    hide FirstMove;
  }

  lemma SyncKeepsSound(table: Table, shipped: ShippedRates, list: seq<Row>, book: string, at: I64)
    requires Distinct(list) && Sound(table, shipped)
    ensures Sound(Synced(table, shipped, list, book, at), shipped)
  {
    hide Synced, SoundRow, RowAfter, Distinct;
    var now := Synced(table, shipped, list, book, at);
    forall key | key in now ensures SoundRow(now[key], shipped(key)) {
      RowAtSync(table, shipped, list, book, at, key);
      if Listed(list, key).Some? {
        RowStaysSound(RowAt(table, key), shipped(key), Listed(list, key).value, book, at);
      }
    }
  }

  lemma RowAtSync(table: Table, shipped: ShippedRates, list: seq<Row>, book: string, at: I64, key: PriceKey)
    requires Distinct(list)
    ensures RowAt(Synced(table, shipped, list, book, at), key) ==
            match Listed(list, key)
            case None => Kept(RowAt(table, key))
            case Some(rate) => RowAfter(RowAt(table, key), shipped(key), rate, book, at)
  {
    hide Synced, Decide, Decided;
    SyncAt(table, shipped, list, book, at, key);
  }

  lemma AfterKeepsSound(table: Table, shipped: ShippedRates, op: Op)
    requires CanHappen(op) && Sound(table, shipped)
    ensures Sound(After(table, shipped, op), shipped)
  {
    hide FirstMove, Synced, Read;
    if op.Sync? {
      ListsAreDistinct(op.entries);
      SyncKeepsSound(table, shipped, Read(op.entries), op.book, op.at);
    }
  }

  /** So in every state that can be reached, a held price is neither the one that applies nor one
      somebody refused, and no row is empty. */
  lemma {:induction false} EveryStateIsSound(shipped: ShippedRates, ops: seq<Op>)
    requires AllCanHappen(ops)
    ensures Sound(Run(map[], shipped, ops), shipped)
    ensures forall key :: HeldRate(Run(map[], shipped, ops), key).Some? ==>
              && HeldRate(Run(map[], shipped, ops), key) != Price(Run(map[], shipped, ops), shipped, key)
              && HeldRate(Run(map[], shipped, ops), key) != Rejected(Run(map[], shipped, ops), key)
    decreases |ops|
  {
    hide After, FirstMove, CanHappen;
    if ops != [] {
      EveryStateIsSound(shipped, ops[..|ops| - 1]);
      AfterKeepsSound(Run(map[], shipped, ops[..|ops| - 1]), shipped, ops[|ops| - 1]);
    }
    HeldDiffers(Run(map[], shipped, ops), shipped);
  }

  lemma HeldDiffers(table: Table, shipped: ShippedRates)
    requires Sound(table, shipped)
    ensures forall key :: HeldRate(table, key).Some? ==>
              HeldRate(table, key) != Price(table, shipped, key) && HeldRate(table, key) != Rejected(table, key)
  {
    hide FirstMove;
    forall key | HeldRate(table, key).Some?
      ensures HeldRate(table, key) != Price(table, shipped, key) && HeldRate(table, key) != Rejected(table, key)
    {
      StayingIsNoMove(HeldRate(table, key).value);
    }
  }

  // ----- what one step does, exactly

  /** After a sync the price is the listed one exactly when nothing applied or the move is small
      enough, and what it was otherwise. */
  lemma PriceAfterSync(table: Table, shipped: ShippedRates, list: seq<Row>, book: string, at: I64, key: PriceKey)
    requires Distinct(list) && Sound(table, shipped)
    ensures Price(Synced(table, shipped, list, book, at), shipped, key) ==
            match Listed(list, key)
            case None => Price(table, shipped, key)
            case Some(rate) => if TooFar(Price(table, shipped, key), rate) then Price(table, shipped, key) else Some(rate)
  {
    hide Synced, FirstMove, Distinct, Listed;
    RowAtSync(table, shipped, list, book, at, key);
  }

  /** And what is held back is what the list gives too far off, unless that was refused before, in
      which case what was held already still is. */
  lemma HeldAfterSync(table: Table, shipped: ShippedRates, list: seq<Row>, book: string, at: I64, key: PriceKey)
    requires Distinct(list) && Sound(table, shipped)
    ensures HeldRate(Synced(table, shipped, list, book, at), key) ==
            match Listed(list, key)
            case None => HeldRate(table, key)
            case Some(rate) =>
              if !TooFar(Price(table, shipped, key), rate) then None
              else if Rejected(table, key) == Some(rate) then HeldRate(table, key)
              else Some(rate)
  {
    hide Synced, FirstMove, Distinct, Listed;
    RowAtSync(table, shipped, list, book, at, key);
    if Listed(list, key).Some? {
      StayingIsNoMove(Listed(list, key).value);
    }
  }

  /** A hold the list no longer gives is to be dropped. It stays, whatever the list, exactly when the
      list does not price the model at all, or is back at the price somebody refused before. */
  lemma StaleHoldStaysExactlyWhen(table: Table, shipped: ShippedRates, entries: seq<Entry>, book: string, at: I64, key: PriceKey)
    requires IsList(entries) && Sound(table, shipped) && IsHeld(table, key)
    requires Listed(Read(entries), key) != HeldRate(table, key)
    ensures HeldRate(After(table, shipped, Sync(entries, book, at)), key) == HeldRate(table, key)
            <==> Listed(Read(entries), key).None? || Rejected(table, key) == Listed(Read(entries), key)
  {
    hide Synced, FirstMove, Distinct, NonNegative, IsList, Read;
    ListsAreDistinct(entries);
    assert Listed([], key) == None;
    if Read(entries) != [] {
      HeldAfterSync(table, shipped, Read(entries), book, at, key);
    }
  }

  /** A rate that charges for input alone. */
  function InputAt(micros: I64): Rate {
    Rate(micros, 0, 0, 0, 0, 0, 0)
  }

  lemma InputMovesTooFar(was: nat, now: nat)
    requires 0 < was <= I64_MAX && now <= I64_MAX && (2 * now < was || 2 * now > 3 * was)
    ensures TooFar(Some(InputAt(was)), InputAt(now))
  {
    MovesInWholes(was, now);
    assert Amounts(InputAt(was))[0] == was && Amounts(InputAt(now))[0] == now;
  }

  /** Such a run: 300 is held and refused, 400 is held, and the list goes back to 300. Nobody lists 400
      any more, and it is still held. */
  lemma AStaleHoldStays(key: PriceKey)
    ensures var shipped: ShippedRates := (k: PriceKey) => Some(InputAt(100));
            var first := Synced(map[], shipped, [Row(key, InputAt(300))], "", 0);
            var refused := Settled(first, key, false, 0);
            var second := Synced(refused, shipped, [Row(key, InputAt(400))], "", 0);
            HeldRate(Synced(second, shipped, [Row(key, InputAt(300))], "", 0), key) == Some(InputAt(400))
  {
    hide TooFar, Synced, InputAt;
    var shipped: ShippedRates := (k: PriceKey) => Some(InputAt(100));
    InputMovesTooFar(100, 300);
    InputMovesTooFar(100, 400);
    RatesDiffer();
    var none: Table := map[];
    assert Price(none, shipped, key) == Some(InputAt(100)) && Sound(none, shipped);
    var first := OneRowSynced(none, shipped, key, InputAt(300));
    var refused := Settled(first, key, false, 0);
    RefusedKeepsSound(first, shipped, key);
    var second := OneRowSynced(refused, shipped, key, InputAt(400));
    var third := OneRowSynced(second, shipped, key, InputAt(300));
  }

  /** And a shorter one: 300 is held, and the list goes on without the model. */
  lemma AnUnlistedHoldStays(key: PriceKey, other: PriceKey, rate: Rate)
    requires key != other
    ensures var shipped: ShippedRates := (k: PriceKey) => Some(InputAt(100));
            var first := Synced(map[], shipped, [Row(key, InputAt(300))], "", 0);
            HeldRate(Synced(first, shipped, [Row(other, rate)], "", 0), key) == Some(InputAt(300))
  {
    hide TooFar, Synced, InputAt;
    var shipped: ShippedRates := (k: PriceKey) => Some(InputAt(100));
    InputMovesTooFar(100, 300);
    var none: Table := map[];
    assert Price(none, shipped, key) == Some(InputAt(100)) && Sound(none, shipped);
    var first := OneRowSynced(none, shipped, key, InputAt(300));
    assert Listed([Row(other, rate)][..0], key) == None;
    HeldAfterSync(first, shipped, [Row(other, rate)], "", 0, key);
  }

  lemma RatesDiffer()
    ensures InputAt(300) != InputAt(400)
  {
  }

  lemma RefusedKeepsSound(table: Table, shipped: ShippedRates, key: PriceKey)
    requires Sound(table, shipped) && IsHeld(table, key)
    ensures var refused := Settled(table, key, false, 0);
            && Sound(refused, shipped) && Price(refused, shipped, key) == Price(table, shipped, key)
            && Rejected(refused, key) == HeldRate(table, key) && HeldRate(refused, key) == None
  {
    hide FirstMove;
    AfterKeepsSound(table, shipped, Settle(key, false, 0));
  }

  /** A list of one price that is too far off. */
  lemma OneRowSynced(table: Table, shipped: ShippedRates, key: PriceKey, rate: Rate) returns (after: Table)
    requires Sound(table, shipped) && TooFar(Price(table, shipped, key), rate)
    ensures after == Synced(table, shipped, [Row(key, rate)], "", 0) && Sound(after, shipped)
    ensures Price(after, shipped, key) == Price(table, shipped, key)
    ensures HeldRate(after, key) == if Rejected(table, key) == Some(rate) then HeldRate(table, key) else Some(rate)
    ensures Rejected(after, key) == Rejected(table, key)
  {
    hide Synced, TooFar, FirstMove;
    var list := [Row(key, rate)];
    assert Listed(list, key) == Some(rate);
    after := Synced(table, shipped, list, "", 0);
    SyncKeepsSound(table, shipped, list, "", 0);
    PriceAfterSync(table, shipped, list, "", 0, key);
    HeldAfterSync(table, shipped, list, "", 0, key);
    RejectedAfterSync(table, shipped, list, "", 0, key);
  }

  /** What was refused is forgotten when a price applies anew, and only then. */
  lemma RejectedAfterSync(table: Table, shipped: ShippedRates, list: seq<Row>, book: string, at: I64, key: PriceKey)
    requires Distinct(list) && Sound(table, shipped)
    ensures Rejected(Synced(table, shipped, list, book, at), key) ==
            match Listed(list, key)
            case None => Rejected(table, key)
            case Some(rate) =>
              if TooFar(Price(table, shipped, key), rate) || Price(table, shipped, key) == Some(rate)
              then Rejected(table, key) else None
  {
    hide Synced, FirstMove, Distinct, Listed;
    RowAtSync(table, shipped, list, book, at, key);
    if Listed(list, key).Some? {
      StayingIsNoMove(Listed(list, key).value);
    }
  }

  /** Only accepting a price makes it apply; refusing one changes nothing that applies. */
  lemma PriceAfterSettling(table: Table, shipped: ShippedRates, settled: PriceKey, accept: bool, at: I64, key: PriceKey)
    ensures Price(Settled(table, settled, accept, at), shipped, key) ==
            if key == settled && accept && IsHeld(table, key) then HeldRate(table, key) else Price(table, shipped, key)
  {
  }

  /** The edition that wrote the synced price of a model, and the one its held price came in. */
  function Edition(table: Table, key: PriceKey): Option<string> {
    if key in table && table[key].rate.Some? then Some(table[key].book) else None
  }

  function HeldEdition(table: Table, key: PriceKey): Option<string> {
    if IsHeld(table, key) then Some(table[key].held.value.book) else None
  }

  /** A price is marked with the edition of the sync that brought it, and keeps it through every sync
      that does not replace it. So is a held one. */
  lemma EditionsAfterSync(table: Table, shipped: ShippedRates, list: seq<Row>, book: string, at: I64, key: PriceKey)
    requires Distinct(list) && Sound(table, shipped)
    ensures var price, rate, synced := Price(table, shipped, key), Listed(list, key), Synced(table, shipped, list, book, at);
            var moves := rate.Some? && TooFar(price, rate.value);
            && Edition(synced, key) == (if rate.Some? && !moves && rate != price then Some(book) else Edition(table, key))
            && HeldEdition(synced, key) ==
               if rate.None? || (moves && (rate == Rejected(table, key) || rate == HeldRate(table, key)))
               then HeldEdition(table, key)
               else if moves then Some(book) else None
  {
    hide Synced, FirstMove, Distinct, Listed;
    RowAtSync(table, shipped, list, book, at, key);
    if Listed(list, key).Some? {
      StayingIsNoMove(Listed(list, key).value);
    }
  }

  /** An accepted price is marked with the edition it was held in, not with the day it was accepted. */
  lemma EditionsAfterSettling(table: Table, settled: PriceKey, accept: bool, at: I64, key: PriceKey)
    ensures Edition(Settled(table, settled, accept, at), key) ==
            if key == settled && accept && IsHeld(table, key) then HeldEdition(table, key) else Edition(table, key)
  {
  }

  /** When a row was last written, and when its held price came in. */
  function Stamp(table: Table, key: PriceKey): Option<I64> {
    if key in table then Some(table[key].updatedAt) else None
  }

  function HeldStamp(table: Table, key: PriceKey): Option<I64> {
    if IsHeld(table, key) then Some(table[key].held.value.at) else None
  }

  /** A row bears the time of the sync that last made a price of it apply, or that made the row; and a held
      price the time of the sync that brought it. */
  lemma StampsAfterSync(table: Table, shipped: ShippedRates, list: seq<Row>, book: string, at: I64, key: PriceKey)
    requires Distinct(list) && Sound(table, shipped)
    ensures var price, rate, synced := Price(table, shipped, key), Listed(list, key), Synced(table, shipped, list, book, at);
            var moves := rate.Some? && TooFar(price, rate.value);
            && (key in synced ==>
                  Stamp(synced, key) == if key !in table || (rate.Some? && !moves && rate != price) then Some(at) else Stamp(table, key))
            && HeldStamp(synced, key) ==
               if rate.None? || (moves && (rate == Rejected(table, key) || rate == HeldRate(table, key)))
               then HeldStamp(table, key)
               else if moves then Some(at) else None
  {
    hide Synced, FirstMove, Distinct, Listed;
    RowAtSync(table, shipped, list, book, at, key);
    if Listed(list, key).Some? {
      StayingIsNoMove(Listed(list, key).value);
    }
  }

  /** Settling a held price takes it off, remembers it when it is refused, forgets what was refused before
      when it is accepted, and stamps the row. No other row is touched. */
  lemma SettlingAnswersTheHold(table: Table, settled: PriceKey, accept: bool, at: I64, key: PriceKey)
    ensures var after := Settled(table, settled, accept, at);
            if key == settled && IsHeld(table, key) then
              && HeldRate(after, key) == None
              && Rejected(after, key) == (if accept then None else HeldRate(table, key))
              && Stamp(after, key) == Some(at)
            else RowAt(after, key) == RowAt(table, key)
  {
  }

  // ----- syncing the same list again

  lemma SameRateIsLeft(row: Option<SyncedPrice>, shipped: Option<Rate>, rate: Rate, book: string, at: I64)
    ensures Decide(RowAfter(row, shipped, rate, book, at), shipped, rate) == Leave
  {
    hide FirstMove;
  }

  lemma {:induction false} ListedAt(list: seq<Row>, i: nat)
    requires Distinct(list) && i < |list|
    ensures Listed(list, list[i].key) == Some(list[i].rate)
    decreases |list|
  {
    if i < |list| - 1 {
      ListedAt(list[..|list| - 1], i);
    }
  }

  lemma {:induction false} NothingToChange(table: Table, shipped: ShippedRates, list: seq<Row>, seen: nat)
    requires forall i :: 0 <= i < |list| ==> Decide(RowAt(table, list[i].key), shipped(list[i].key), list[i].rate) == Leave
    ensures Changes(table, shipped, list) == []
    ensures Summed(table, shipped, list, seen) == Summary(seen, 0, 0, 0, |list|)
    decreases |list|
  {
    hide Decide;
    if list != [] {
      NothingToChange(table, shipped, list[..|list| - 1], seen);
      assert list[|list| - 1] in list;
    }
  }

  lemma SweptAgain(table: Table)
    ensures Swept(Swept(table)) == Swept(table)
  {
  }

  /** Syncing a list twice is syncing it once: there is nothing left to change. */
  lemma SyncIsIdempotent(table: Table, shipped: ShippedRates, list: seq<Row>, book: string, at: I64, book': string, at': I64)
    requires Distinct(list)
    ensures var synced := Synced(table, shipped, list, book, at);
            && Changes(synced, shipped, list) == []
            && Summed(synced, shipped, list, |list|) == Summary(|list|, 0, 0, 0, |list|)
            && Synced(synced, shipped, list, book', at') == synced
  {
    var synced := Synced(table, shipped, list, book, at);
    assert forall i :: 0 <= i < |list| ==> Decide(RowAt(synced, list[i].key), shipped(list[i].key), list[i].rate) == Leave by {
      hide Synced, Decide, RowAfter, Changes;
      forall i | 0 <= i < |list|
        ensures Decide(RowAt(synced, list[i].key), shipped(list[i].key), list[i].rate) == Leave
      {
        var key := list[i].key;
        ListedAt(list, i);
        RowAtSync(table, shipped, list, book, at, key);
        SameRateIsLeft(RowAt(table, key), shipped(key), list[i].rate, book, at);
      }
    }
    hide Decide, Swept;
    NothingToChange(synced, shipped, list, |list|);
    SweptAgain(AllApplied(table, Changes(table, shipped, list), book, at));
  }

  // ----- how far a price gets without a person

  function Pow3(n: nat): (p: nat)
    ensures p >= 1
  {
    if n == 0 then 1 else 3 * Pow3(n - 1)
  }

  /** A charge that was there still is, and has halved, or grown by half, at most `k` times. */
  predicate Within(k: nat, was: I64, now: I64) {
    was > 0 ==> now > 0 && was <= Pow2(k) * now && Pow2(k) * now <= Pow3(k) * was
  }

  predicate AllWithin(k: nat, was: Rate, now: Rate) {
    forall j :: 0 <= j < |PARTS| ==> Within(k, Amounts(was)[j], Amounts(now)[j])
  }

  lemma WithinOneMore(k: nat, was: I64, mid: I64, now: I64)
    requires Within(k, was, mid) && mid >= 0 && now >= 0 && (mid > 0 ==> mid <= 2 * now <= 3 * mid)
    ensures Within(k + 1, was, now)
  {
    var p, q := Pow2(k), Pow3(k);
    assert Pow2(k + 1) == 2 * p && Pow3(k + 1) == 3 * q;
    hide Pow2, Pow3;
    if was > 0 {
      MovesCompound(p, q, was, mid, now);
    }
  }

  lemma MovesCompound(p: nat, q: nat, was: nat, mid: nat, now: nat)
    requires was <= p * mid <= q * was && mid <= 2 * now <= 3 * mid
    ensures was <= 2 * p * now <= 3 * q * was
  {
    TimesGrows(p, mid, 2 * now);
    TimesGrows(p, 2 * now, 3 * mid);
    MovesThrough(p, 2, now);
    MovesThrough(p, 3, mid);
    MovesThrough(q, 3, was);
  }

  lemma MovesThrough(a: nat, n: nat, b: nat)
    ensures a * (n * b) == n * a * b && n * a * b == n * (a * b)
  {
  }

  lemma RateWithinOneMore(k: nat, was: Rate, mid: Rate, now: Rate)
    requires AllWithin(k, was, mid) && mid.NonNegative() && now.NonNegative() && FirstMove(mid, now, 0) == None
    ensures AllWithin(k + 1, was, now)
  {
    hide Within, FirstMove, Moves;
    NoMoveExactlyWhen(mid, now, 0);
    forall j | 0 <= j < |PARTS| ensures Within(k + 1, Amounts(was)[j], Amounts(now)[j]) {
      var a, b := Amounts(mid)[j], Amounts(now)[j];
      if a > 0 {
        MovesInWholes(a, b);
      }
      WithinOneMore(k, Amounts(was)[j], a, b);
    }
  }

  function Syncs(ops: seq<Op>): nat {
    if ops == [] then 0
    else Syncs(ops[..|ops| - 1]) + if ops[|ops| - 1].Sync? then 1 else 0
  }

  predicate NobodyAccepts(ops: seq<Op>, key: PriceKey) {
    forall i :: 0 <= i < |ops| && ops[i].Settle? && ops[i].key == key ==> !ops[i].accept
  }

  lemma {:induction false} ListedIsNonNegative(list: seq<Row>, key: PriceKey)
    requires NonNegative(list) && Listed(list, key).Some?
    ensures Listed(list, key).value.NonNegative()
    decreases |list|
  {
    if list[|list| - 1].key != key {
      ListedIsNonNegative(list[..|list| - 1], key);
    }
  }

  /** One step nobody accepts a price in. */
  lemma StepIsSmall(table: Table, shipped: ShippedRates, op: Op, key: PriceKey)
    requires CanHappen(op) && Sound(table, shipped) && NobodyAccepts([op], key)
    requires Price(table, shipped, key).Some? && Price(table, shipped, key).value.NonNegative()
    ensures var price := Price(After(table, shipped, op), shipped, key);
            && price.Some? && price.value.NonNegative()
            && (if op.Sync? then FirstMove(Price(table, shipped, key).value, price.value, 0) == None
                else price == Price(table, shipped, key))
  {
    hide FirstMove, Synced, Settled, Read, Price, Listed;
    StayingIsNoMove(Price(table, shipped, key).value);
    match op {
      case Sync(entries, book, at) =>
        ListsAreDistinct(entries);
        var list := Read(entries);
        if list != [] {
          PriceAfterSync(table, shipped, list, book, at, key);
          if Listed(list, key).Some? {
            ListedIsNonNegative(list, key);
          }
        }
      case Settle(settled, accept, at) =>
        assert [op][0] == op;
        PriceAfterSettling(table, shipped, settled, accept, at, key);
    }
  }

  /** Over any run in which nobody accepts a price for a model, no charge of it goes away, and each
      stays within half and half as much again for every sync there was. */
  lemma {:induction false} PricesDriftSlowly(table: Table, shipped: ShippedRates, ops: seq<Op>, key: PriceKey)
    requires AllCanHappen(ops) && Sound(table, shipped) && NobodyAccepts(ops, key)
    requires Price(table, shipped, key).Some? && Price(table, shipped, key).value.NonNegative()
    ensures Sound(Run(table, shipped, ops), shipped)
    ensures var price := Price(Run(table, shipped, ops), shipped, key);
            && price.Some? && price.value.NonNegative()
            && AllWithin(Syncs(ops), Price(table, shipped, key).value, price.value)
    decreases |ops|
  {
    hide Sound, Price, After, CanHappen, FirstMove, AllWithin;
    if ops == [] {
      NoDrift(Price(table, shipped, key).value);
    } else {
      var n := |ops| - 1;
      PricesDriftSlowly(table, shipped, ops[..n], key);
      var mid := Run(table, shipped, ops[..n]);
      assert NobodyAccepts([ops[n]], key);
      AfterKeepsSound(mid, shipped, ops[n]);
      StepIsSmall(mid, shipped, ops[n], key);
      if ops[n].Sync? {
        RateWithinOneMore(Syncs(ops[..n]), Price(table, shipped, key).value, Price(mid, shipped, key).value,
                          Price(Run(table, shipped, ops), shipped, key).value);
      }
    }
  }

  lemma NoDrift(rate: Rate)
    ensures AllWithin(0, rate, rate)
  {
  }

  // ----- and how far it does get

  /** A move that is not too far. */
  predicate Creeps(was: int, now: int) {
    0 < was <= 2 * now <= 3 * was
  }

  /** Amounts that a charge can go through one by one. */
  predicate AllCreep(amounts: seq<I64>) {
    && (forall i :: 0 <= i < |amounts| ==> amounts[i] > 0)
    && (forall i :: 0 <= i < |amounts| - 1 ==> Creeps(amounts[i], amounts[i + 1]))
  }

  /** A list that prices one model of one vendor. */
  function OneEntry(name: string, rate: Rate): seq<Entry> {
    [Entry(name, Some("openai"), Some(rate))]
  }

  lemma OneEntryReads(name: string, amount: I64)
    requires '/' !in name && amount >= 0
    ensures IsList(OneEntry(name, InputAt(amount)))
    ensures Read(OneEntry(name, InputAt(amount))) == [Row(PriceKey("openai", name), InputAt(amount))]
  {
    assert "openai" in VENDORS by {
      assert VENDORS[1] == "openai";
    }
    assert OneEntry(name, InputAt(amount))[..0] == [];
  }

  lemma InputCreeps(was: I64, now: I64)
    requires Creeps(was, now)
    ensures !TooFar(Some(InputAt(was)), InputAt(now))
  {
    hide Moves, FirstMove;
    MovesInWholes(was, now);
    NoMoveExactlyWhen(InputAt(was), InputAt(now), 0);
    StandingStill(0);
    forall j | 0 <= j < |PARTS| ensures !Moves(Amounts(InputAt(was))[j], Amounts(InputAt(now))[j]) {
    }
  }

  lemma OneCreep(table: Table, shipped: ShippedRates, name: string, was: I64, now: I64) returns (op: Op)
    requires '/' !in name && Sound(table, shipped) && Creeps(was, now)
    requires Price(table, shipped, PriceKey("openai", name)) == Some(InputAt(was))
    ensures op.Sync? && CanHappen(op) && Sound(After(table, shipped, op), shipped)
    ensures Price(After(table, shipped, op), shipped, PriceKey("openai", name)) == Some(InputAt(now))
  {
    hide Synced, Sound, TooFar, InputAt, OneEntry, IsList, Price;
    op := Sync(OneEntry(name, InputAt(now)), "", 0);
    OneEntryReads(name, now);
    InputCreeps(was, now);
    AfterKeepsSound(table, shipped, op);
    var list := [Row(PriceKey("openai", name), InputAt(now))];
    assert Listed(list, PriceKey("openai", name)) == Some(InputAt(now));
    PriceAfterSync(table, shipped, list, "", 0, PriceKey("openai", name));
  }

  lemma OneMoreOp(table: Table, shipped: ShippedRates, ops: seq<Op>, op: Op, key: PriceKey)
    requires AllCanHappen(ops) && NobodyAccepts(ops, key) && CanHappen(op) && op.Sync?
    ensures AllCanHappen(ops + [op]) && NobodyAccepts(ops + [op], key) && Syncs(ops + [op]) == Syncs(ops) + 1
    ensures Run(table, shipped, ops + [op]) == After(Run(table, shipped, ops), shipped, op)
  {
    hide CanHappen, After;
    assert (ops + [op])[..|ops|] == ops;
  }

  /** Every way a charge can creep is the way it goes in a run of syncs that nobody takes part in. */
  lemma {:induction false} CreepingRun(name: string, amounts: seq<I64>) returns (ops: seq<Op>)
    requires '/' !in name && amounts != [] && AllCreep(amounts)
    ensures AllCanHappen(ops) && NobodyAccepts(ops, PriceKey("openai", name)) && Syncs(ops) == |amounts| - 1
    ensures var shipped: ShippedRates := (k: PriceKey) => Some(InputAt(amounts[0]));
            && Sound(Run(map[], shipped, ops), shipped)
            && Price(Run(map[], shipped, ops), shipped, PriceKey("openai", name)) == Some(InputAt(amounts[|amounts| - 1]))
    decreases |amounts|
  {
    hide Sound, InputAt, AllCreep, Creeps, CanHappen, After;
    var shipped: ShippedRates := (k: PriceKey) => Some(InputAt(amounts[0]));
    var key, n := PriceKey("openai", name), |amounts| - 1;
    if n == 0 {
      ops := [];
      NothingIsSound(shipped);
    } else {
      CreepsBefore(amounts);
      var before := CreepingRun(name, amounts[..n]);
      var table := Run(map[], shipped, before);
      hide Price, Run, Syncs;
      var op := OneCreep(table, shipped, name, amounts[n - 1], amounts[n]);
      OneMoreOp(map[], shipped, before, op, key);
      ops := before + [op];
    }
  }

  lemma NothingIsSound(shipped: ShippedRates)
    ensures Sound(map[], shipped)
  {
  }

  lemma CreepsBefore(amounts: seq<I64>)
    requires |amounts| > 1 && AllCreep(amounts)
    ensures AllCreep(amounts[..|amounts| - 1]) && amounts[|amounts| - 1] > 0
    ensures Creeps(amounts[|amounts| - 2], amounts[|amounts| - 1])
  {
    hide Creeps;
    var i := |amounts| - 2;
    assert Creeps(amounts[i], amounts[i + 1]);
  }

  lemma CreepsInto(first: I64, rest: seq<I64>)
    requires first > 0 && rest != [] && AllCreep(rest) && Creeps(first, rest[0])
    ensures AllCreep([first] + rest)
  {
    hide Creeps;
    var amounts := [first] + rest;
    forall i | 0 <= i < |amounts| - 1 ensures Creeps(amounts[i], amounts[i + 1]) {
      if i > 0 {
        assert amounts[i] == rest[i - 1] && amounts[i + 1] == rest[i - 1 + 1];
      }
    }
  }

  /** From two to the `k` down to one, halving. */
  function Halvings(k: nat): (amounts: seq<I64>)
    requires Pow2(k) <= I64_MAX
    ensures |amounts| == k + 1 && amounts[0] == Pow2(k) && amounts[k] == 1
    ensures AllCreep(amounts)
  {
    if k == 0 then [1]
    else
      CreepsInto(Pow2(k), Halvings(k - 1));
      [Pow2(k)] + Halvings(k - 1)
  }

  /** From `a` times two to the `k` up to `a` times three to the `k`, growing by half. */
  function Growths(a: nat, k: nat): (amounts: seq<I64>)
    requires a > 0 && a * Pow3(k) <= I64_MAX
    ensures |amounts| == k + 1 && amounts[0] == a * Pow2(k) && amounts[k] == a * Pow3(k)
    ensures AllCreep(amounts)
    decreases k
  {
    if k == 0 then [a]
    else
      HalfMore(a, k);
      CreepsInto(a * Pow2(k), Growths(3 * a, k - 1));
      [a * Pow2(k)] + Growths(3 * a, k - 1)
  }

  lemma HalfMore(a: nat, k: nat)
    requires a > 0 && k > 0
    ensures 3 * a * Pow3(k - 1) == a * Pow3(k)
    ensures 2 * (3 * a * Pow2(k - 1)) == 3 * (a * Pow2(k))
    ensures 0 < a * Pow2(k) <= a * Pow3(k)
  {
    var p, q := Pow2(k - 1), Pow3(k - 1);
    assert Pow2(k) == 2 * p && Pow3(k) == 3 * q;
    Pow2IsBelowPow3(k);
    TimesGrows(a, 1, Pow2(k));
    TimesGrows(a, Pow2(k), Pow3(k));
    hide Pow2, Pow3;
    MovesThrough(a, 3, q);
    MovesThrough(a, 2, p);
    MovesThrough(p, 3, a);
  }

  lemma {:induction false} Pow2IsBelowPow3(k: nat)
    ensures Pow2(k) <= Pow3(k)
  {
    if k > 0 {
      Pow2IsBelowPow3(k - 1);
    }
  }

  /** The lower bound is met: over any number of syncs there is room for, a charge can halve with each. */
  lemma HalvingIsReached(name: string, k: nat) returns (ops: seq<Op>)
    requires '/' !in name && Pow2(k) <= I64_MAX
    ensures AllCanHappen(ops) && NobodyAccepts(ops, PriceKey("openai", name)) && Syncs(ops) == k
    ensures var shipped: ShippedRates := (key: PriceKey) => Some(InputAt(Pow2(k)));
            Price(Run(map[], shipped, ops), shipped, PriceKey("openai", name)) == Some(InputAt(1))
  {
    hide Run, Price, InputAt, Halvings, AllCreep;
    ops := CreepingRun(name, Halvings(k));
  }

  /** And so is the upper one: a charge can grow by half with each. */
  lemma GrowingIsReached(name: string, k: nat) returns (ops: seq<Op>)
    requires '/' !in name && Pow3(k) <= I64_MAX
    ensures AllCanHappen(ops) && NobodyAccepts(ops, PriceKey("openai", name)) && Syncs(ops) == k
    ensures Pow2(k) <= I64_MAX
    ensures var shipped: ShippedRates := (key: PriceKey) => Some(InputAt(Pow2(k)));
            Price(Run(map[], shipped, ops), shipped, PriceKey("openai", name)) == Some(InputAt(Pow3(k)))
  {
    hide Run, Price, InputAt, Growths, AllCreep;
    Pow2IsBelowPow3(k);
    ops := CreepingRun(name, Growths(1, k));
  }
}
