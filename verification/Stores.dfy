/** The table the sync keeps its prices in, and what changes it: a sync's changes, and a person
    settling a price that is held. */
module Stores {
  import opened Basics
  import opened Pricing
  import opened Prices

  // ----- one change of the table

  function Applied(table: Table, change: Change, book: string, at: I64): Table {
    match change
    case Apply(key, rate, _) => table[key := SyncedPrice(Some(rate), book, at, None, None)]
    case Hold(key, rate, why) =>
      var row := if key in table then table[key] else SyncedPrice(None, "", at, None, None);
      table[key := row.(held := Some(Held(rate, book, at, why)))]
    case Unhold(key) => if key in table then table[key := table[key].(held := None)] else table
  }

  function AllApplied(table: Table, changes: seq<Change>, book: string, at: I64): Table {
    if changes == [] then table
    else Applied(AllApplied(table, changes[..|changes| - 1], book, at), changes[|changes| - 1], book, at)
  }

  /** The table without the rows that hold nothing. */
  function Swept(table: Table): Table {
    map key | key in table && !table[key].Empty() :: table[key]
  }

  /** The table after one sync. */
  function Synced(table: Table, shipped: ShippedRates, list: seq<Row>, book: string, at: I64): Table {
    Swept(AllApplied(table, Changes(table, shipped, list), book, at))
  }

  /** A row whose held price somebody accepted, or refused. */
  function SettledRow(row: SyncedPrice, accept: bool, at: I64): SyncedPrice
    requires row.held.Some?
  {
    var held := row.held.value;
    if accept then SyncedPrice(Some(held.rate), held.book, at, None, None)
    else row.(held := None, rejected := Some(held.rate), updatedAt := at)
  }

  predicate IsHeld(table: Table, key: PriceKey) {
    key in table && table[key].held.Some?
  }

  function Settled(table: Table, key: PriceKey, accept: bool, at: I64): Table {
    if IsHeld(table, key) then table[key := SettledRow(table[key], accept, at)] else table
  }

  datatype NotFound = NotFound(key: PriceKey)

  class Store {
    var prices: Table
    var lastSync: Option<Summary>

    constructor ()
      ensures prices == map[] && lastSync == None
    {
      prices, lastSync := map[], None;
    }

    method ApplyPriceChanges(changes: seq<Change>, book: string, at: I64, summary: Summary)
      modifies this
      ensures prices == Swept(AllApplied(old(prices), changes, book, at))
      ensures lastSync == Some(summary)
    {
      for i := 0 to |changes|
        invariant prices == AllApplied(old(prices), changes[..i], book, at)
      {
        assert changes[..i + 1][..i] == changes[..i];
        match changes[i] {
          case Apply(key, rate, _) =>
            prices := prices[key := SyncedPrice(Some(rate), book, at, None, None)];
          case Hold(key, rate, why) =>
            var held := Some(Held(rate, book, at, why));
            if key in prices {
              prices := prices[key := prices[key].(held := held)];
            } else {
              prices := prices[key := SyncedPrice(None, "", at, held, None)];
            }
          case Unhold(key) =>
            if key in prices {
              prices := prices[key := prices[key].(held := None)];
            }
        }
      }
      assert changes[..|changes|] == changes;
      prices := map key | key in prices && !prices[key].Empty() :: prices[key];
      lastSync := Some(summary);
    }

    method SettleHeld(key: PriceKey, accept: bool, at: I64) returns (r: Result<(), NotFound>)
      modifies this`prices
      ensures prices == Settled(old(prices), key, accept, at)
      ensures r.Ok? <==> IsHeld(old(prices), key)
    {
      if key !in prices || prices[key].held.None? {
        return Err(NotFound(key));
      }
      var row := prices[key];
      var held := row.held.value;
      if accept {
        prices := prices[key := SyncedPrice(Some(held.rate), held.book, at, None, None)];
      } else {
        prices := prices[key := row.(held := None, rejected := Some(held.rate), updatedAt := at)];
      }
      r := Ok(());
    }

    /** One sync: the decision and what it does are one step of the table. */
    method Sync(shipped: ShippedRates, list: seq<Row>, book: string, at: I64) returns (summary: Summary)
      modifies this
      ensures prices == Synced(old(prices), shipped, list, book, at)
      ensures summary == Summed(old(prices), shipped, list, |list|) && lastSync == Some(summary)
    {
      var changes;
      changes, summary := Plan(prices, shipped, list);
      ApplyPriceChanges(changes, book, at, summary);
    }
  }

  // ----- a sync, one model at a time

  /** What a decision leaves of a row. */
  function Decided(row: Option<SyncedPrice>, decision: Decision, rate: Rate, book: string, at: I64): Option<SyncedPrice> {
    match decision
    case Adopt => Some(SyncedPrice(Some(rate), book, at, None, None))
    case Ask(why) =>
      var held := Some(Held(rate, book, at, why));
      Some(if row.Some? then row.value.(held := held) else SyncedPrice(None, "", at, held, None))
    case Drop => if row.Some? then Some(row.value.(held := None)) else None
    case Leave => row
  }

  /** The rate a list gives a model. */
  function Listed(list: seq<Row>, key: PriceKey): Option<Rate> {
    if list == [] then None
    else if list[|list| - 1].key == key then Some(list[|list| - 1].rate)
    else Listed(list[..|list| - 1], key)
  }

  function Kept(row: Option<SyncedPrice>): Option<SyncedPrice> {
    if row.Some? && row.value.Empty() then None else row
  }

  /** A decision's changes, made after others, leave the decided row at its own key. */
  lemma DecisionApplied(table: Table, changes: seq<Change>, decision: Decision, row: Row, was: Option<Rate>,
                        book: string, at: I64, key: PriceKey)
    ensures RowAt(AllApplied(table, changes + ChangesOf(decision, row, was), book, at), key) ==
            var before := RowAt(AllApplied(table, changes, book, at), key);
            if key == row.key then Decided(before, decision, row.rate, book, at) else before
  {
    var more := ChangesOf(decision, row, was);
    if more == [] {
      assert changes + more == changes;
    } else {
      assert (changes + more)[..|changes|] == changes;
    }
  }

  lemma {:induction false} ListedIsThere(list: seq<Row>, key: PriceKey)
    requires Listed(list, key).Some?
    ensures exists i :: 0 <= i < |list| && list[i].key == key
    decreases |list|
  {
    if list[|list| - 1].key != key {
      ListedIsThere(list[..|list| - 1], key);
    }
  }

  /** What a list's changes do to one row, before the empty ones go. */
  lemma {:induction false} ChangesAt(table: Table, shipped: ShippedRates, list: seq<Row>, book: string, at: I64, key: PriceKey)
    requires Distinct(list)
    ensures RowAt(AllApplied(table, Changes(table, shipped, list), book, at), key) ==
            match Listed(list, key)
            case None => RowAt(table, key)
            case Some(rate) =>
              Decided(RowAt(table, key), Decide(RowAt(table, key), shipped(key), rate), rate, book, at)
    decreases |list|
  {
    hide Decide, Decided, ChangesOf, Applied, Applies, RowAt;
    if list != [] {
      var n := |list| - 1;
      var last, before := list[n], list[..n];
      var row := RowAt(table, last.key);
      ChangesAt(table, shipped, before, book, at, key);
      DecisionApplied(table, Changes(table, shipped, before), Decide(row, shipped(last.key), last.rate), last,
                      Applies(row, shipped(last.key)), book, at, key);
      if last.key == key && Listed(before, key).Some? {
        ListedIsThere(before, key);
      }
    }
  }

  /** A sync touches each row by the rate its own model is listed at, and by nothing else. */
  lemma SyncAt(table: Table, shipped: ShippedRates, list: seq<Row>, book: string, at: I64, key: PriceKey)
    requires Distinct(list)
    ensures RowAt(Synced(table, shipped, list, book, at), key) ==
            match Listed(list, key)
            case None => Kept(RowAt(table, key))
            case Some(rate) =>
              Kept(Decided(RowAt(table, key), Decide(RowAt(table, key), shipped(key), rate), rate, book, at))
  {
    hide Decide, Decided, Changes, AllApplied, Listed;
    ChangesAt(table, shipped, list, book, at, key);
  }
}
