/** What a provider charges, put together from the shipped table, the synced prices and
    those set by hand, the later of the three before the earlier. */
module Effectives {
  import opened Basics
  import opened Pricing
  import opened Prices
  import opened PriceRuns
  import Dates

  datatype ProviderType = Anthropic | Openai | Gemini | OpenaiCompatible

  datatype Provider = Provider(id: string, providerType: ProviderType, baseUrl: Option<string>)
  {
    /** The vendor whose published prices hold: only on the vendor's own endpoint. */
    function Vendor(): Option<string> {
      if baseUrl.Some? then None
      else
        match providerType
        case Anthropic => Some("anthropic")
        case Openai => Some("openai")
        case Gemini => Some("gemini")
        case OpenaiCompatible => None
    }
  }

  /** A provider's own price for a model, entered by a person. */
  datatype PriceOverride = PriceOverride(providerId: string, model: string, rate: Rate, updatedAt: I64)
  {
    function Book(): string {
      "manual-" + Dates.Day(updatedAt)
    }
  }

  /** A row of the synced prices, as it is listed. */
  datatype StoredPrice = StoredPrice(key: PriceKey, row: SyncedPrice)

  datatype Origin = Manual | Synced | Shipped

  datatype Effective = Effective(book: PriceBook, origins: map<string, (Origin, string)>)

  type Tables = string -> Option<PriceBook>

  // ----- which price a model gets

  datatype Choice = Choice(rate: Rate, origin: Origin, edition: string)

  function LastOverride(overrides: seq<PriceOverride>, provider: string, model: string): Option<PriceOverride> {
    if overrides == [] then None
    else
      var last := overrides[|overrides| - 1];
      if last.providerId == provider && last.model == model then Some(last)
      else LastOverride(overrides[..|overrides| - 1], provider, model)
  }

  function LastSynced(synced: seq<StoredPrice>, key: PriceKey): Option<SyncedPrice> {
    if synced == [] then None
    else
      var last := synced[|synced| - 1];
      if last.key == key && last.row.rate.Some? then Some(last.row) else LastSynced(synced[..|synced| - 1], key)
  }

  function ShippedChoice(provider: Provider, tables: Tables, model: string): Option<Choice> {
    match provider.Vendor()
    case None => None
    case Some(vendor) =>
      match tables(vendor)
      case None => None
      case Some(book) => if model in book.rates then Some(Choice(book.rates[model], Shipped, book.id)) else None
  }

  function SyncedChoice(provider: Provider, tables: Tables, synced: seq<StoredPrice>, model: string): Option<Choice> {
    match provider.Vendor()
    case None => None
    case Some(vendor) =>
      match LastSynced(synced, PriceKey(vendor, model))
      case None => ShippedChoice(provider, tables, model)
      case Some(row) => if row.rate.Some? then Some(Choice(row.rate.value, Synced, row.book)) else None
  }

  function Chosen(provider: Provider, tables: Tables, synced: seq<StoredPrice>, overrides: seq<PriceOverride>, model: string): Option<Choice> {
    match LastOverride(overrides, provider.id, model)
    case Some(o) => Some(Choice(o.rate, Manual, o.Book()))
    case None => SyncedChoice(provider, tables, synced, model)
  }

  lemma SyncedOneMore(provider: Provider, tables: Tables, synced: seq<StoredPrice>, i: nat, model: string)
    requires i < |synced| && provider.Vendor().Some?
    ensures SyncedChoice(provider, tables, synced[..i + 1], model) ==
            if synced[i].key == PriceKey(provider.Vendor().value, model) && synced[i].row.rate.Some?
            then Some(Choice(synced[i].row.rate.value, Synced, synced[i].row.book))
            else SyncedChoice(provider, tables, synced[..i], model)
  {
    assert synced[..i + 1][..i] == synced[..i];
  }

  lemma ChosenOneMore(provider: Provider, tables: Tables, synced: seq<StoredPrice>, overrides: seq<PriceOverride>, i: nat, model: string)
    requires i < |overrides|
    ensures Chosen(provider, tables, synced, overrides[..i + 1], model) ==
            if overrides[i].providerId == provider.id && overrides[i].model == model
            then Some(Choice(overrides[i].rate, Manual, overrides[i].Book()))
            else Chosen(provider, tables, synced, overrides[..i], model)
  {
    assert overrides[..i + 1][..i] == overrides[..i];
  }

  /** A model's rate and origin are those of a choice, or there is neither. */
  predicate SaysOf(rates: map<string, Rate>, origins: map<string, (Origin, string)>, model: string, choice: Option<Choice>) {
    if choice.Some? then
      && model in rates && rates[model] == choice.value.rate
      && model in origins && origins[model] == (choice.value.origin, choice.value.edition)
    else model !in rates && model !in origins
  }

  ghost predicate SaysSynced(rates: map<string, Rate>, origins: map<string, (Origin, string)>,
                             provider: Provider, tables: Tables, synced: seq<StoredPrice>) {
    forall model :: SaysOf(rates, origins, model, SyncedChoice(provider, tables, synced, model))
  }

  /** The rates and origins are of what is chosen for every model, and of nothing else. */
  ghost predicate Says(rates: map<string, Rate>, origins: map<string, (Origin, string)>,
                       provider: Provider, tables: Tables, synced: seq<StoredPrice>, overrides: seq<PriceOverride>) {
    forall model :: SaysOf(rates, origins, model, Chosen(provider, tables, synced, overrides, model))
  }

  lemma SaysBeforeOverrides(rates: map<string, Rate>, origins: map<string, (Origin, string)>,
                            provider: Provider, tables: Tables, synced: seq<StoredPrice>)
    requires SaysSynced(rates, origins, provider, tables, synced)
    ensures Says(rates, origins, provider, tables, synced, [])
  {
    hide SyncedChoice, SaysOf;
  }

  method ComposeSynced(provider: Provider, tables: Tables, synced: seq<StoredPrice>)
    returns (rates: map<string, Rate>, origins: map<string, (Origin, string)>)
    ensures SaysSynced(rates, origins, provider, tables, synced)
  {
    rates, origins := map[], map[];
    var vendor := provider.Vendor();
    if vendor.None? {
      return;
    }
    var book := tables(vendor.value);
    if book.Some? {
      rates := book.value.rates;
      origins := map model | model in book.value.rates :: (Shipped, book.value.id);
    }
    for i := 0 to |synced|
      invariant SaysSynced(rates, origins, provider, tables, synced[..i])
    {
      hide SyncedChoice;
      forall model
        ensures SyncedChoice(provider, tables, synced[..i + 1], model) ==
                if synced[i].key == PriceKey(vendor.value, model) && synced[i].row.rate.Some?
                then Some(Choice(synced[i].row.rate.value, Synced, synced[i].row.book))
                else SyncedChoice(provider, tables, synced[..i], model)
      {
        SyncedOneMore(provider, tables, synced, i, model);
      }
      var key, row := synced[i].key, synced[i].row;
      if key.vendor == vendor.value && row.rate.Some? {
        rates := rates[key.model := row.rate.value];
        origins := origins[key.model := (Synced, row.book)];
      }
    }
    assert synced[..|synced|] == synced;
  }

  lemma SaysOneMore(rates: map<string, Rate>, origins: map<string, (Origin, string)>,
                    provider: Provider, tables: Tables, synced: seq<StoredPrice>, overrides: seq<PriceOverride>, i: nat)
    requires i < |overrides| && Says(rates, origins, provider, tables, synced, overrides[..i])
    ensures var o := overrides[i];
            if o.providerId == provider.id then
              Says(rates[o.model := o.rate], origins[o.model := (Manual, o.Book())],
                   provider, tables, synced, overrides[..i + 1])
            else Says(rates, origins, provider, tables, synced, overrides[..i + 1])
  {
    hide Chosen, PriceOverride.Book;
    var o := overrides[i];
    var rates', origins' := rates, origins;
    if o.providerId == provider.id {
      rates', origins' := rates[o.model := o.rate], origins[o.model := (Manual, o.Book())];
    }
    var more := overrides[..i + 1];
    forall model
      ensures SaysOf(rates', origins', model, Chosen(provider, tables, synced, more, model))
    {
      assert SaysOf(rates, origins, model, Chosen(provider, tables, synced, overrides[..i], model));
      ChosenOneMore(provider, tables, synced, overrides, i, model);
    }
  }

  method ComposeAll(provider: Provider, tables: Tables, synced: seq<StoredPrice>, overrides: seq<PriceOverride>)
    returns (rates: map<string, Rate>, origins: map<string, (Origin, string)>)
    ensures Says(rates, origins, provider, tables, synced, overrides)
  {
    rates, origins := ComposeSynced(provider, tables, synced);
    SaysBeforeOverrides(rates, origins, provider, tables, synced);
    hide Says, PriceOverride.Book;
    assert overrides[..0] == [];
    for i := 0 to |overrides|
      invariant Says(rates, origins, provider, tables, synced, overrides[..i])
    {
      SaysOneMore(rates, origins, provider, tables, synced, overrides, i);
      var o := overrides[i];
      if o.providerId == provider.id {
        rates := rates[o.model := o.rate];
        origins := origins[o.model := (Manual, o.Book())];
      }
    }
    assert overrides[..|overrides|] == overrides;
  }

  lemma NothingSaid(rates: map<string, Rate>, origins: map<string, (Origin, string)>,
                    provider: Provider, tables: Tables, synced: seq<StoredPrice>, overrides: seq<PriceOverride>)
    requires Says(rates, origins, provider, tables, synced, overrides)
    ensures rates == map[] <==> forall model :: Chosen(provider, tables, synced, overrides, model).None?
  {
    hide Chosen;
    if rates == map[] {
      forall model ensures Chosen(provider, tables, synced, overrides, model).None? {
        assert SaysOf(rates, origins, model, Chosen(provider, tables, synced, overrides, model));
      }
    } else {
      var priced :| priced in rates;
      assert SaysOf(rates, origins, priced, Chosen(provider, tables, synced, overrides, priced));
    }
  }

  /** What the book of a provider is called, and which currency it is in: the vendor's shipped one's on the
      vendor's own endpoint, and otherwise a name of the provider's own, in dollars. */
  predicate Heading(provider: Provider, tables: Tables, book: PriceBook) {
    if provider.Vendor().Some? && tables(provider.Vendor().value).Some? then
      var shipped := tables(provider.Vendor().value).value;
      book.id == shipped.id && book.currency == shipped.currency
    else book.id == provider.id + "-prices" && book.currency == "USD"
  }

  /** Whose published prices hold for a provider, if anybody's: only without a base URL of its own, and for one of
      three kinds of provider. */
  lemma VendorExactlyWhen(provider: Provider, vendor: string)
    ensures provider.Vendor() == Some(vendor) <==>
            && provider.baseUrl.None?
            && ((provider.providerType.Anthropic? && vendor == "anthropic")
                || (provider.providerType.Openai? && vendor == "openai")
                || (provider.providerType.Gemini? && vendor == "gemini"))
  {
  }

  /** The book and origins of a provider: for every model its choice, and no book at all when there
      is none. */
  method Compose(provider: Provider, tables: Tables, synced: seq<StoredPrice>, overrides: seq<PriceOverride>)
    returns (effective: Option<Effective>)
    ensures effective.None? <==> forall model :: Chosen(provider, tables, synced, overrides, model).None?
    ensures effective.Some? ==>
              && Says(effective.value.book.rates, effective.value.origins, provider, tables, synced, overrides)
              && Heading(provider, tables, effective.value.book)
  {
    var rates, origins := ComposeAll(provider, tables, synced, overrides);
    hide Says, Chosen;
    NothingSaid(rates, origins, provider, tables, synced, overrides);
    if rates == map[] {
      return None;
    }
    var book := if provider.Vendor().Some? then tables(provider.Vendor().value) else None;
    var named := if book.Some? then book.value else PriceBook(provider.id + "-prices", "USD", map[]);
    effective := Some(Effective(named.(rates := rates), origins));
  }

  // ----- what a held or refused price has to do with it

  /** A listing of the price table: every row, once. */
  ghost predicate Lists(synced: seq<StoredPrice>, table: Table) {
    && (forall i, j :: 0 <= i < j < |synced| ==> synced[i].key != synced[j].key)
    && (forall i :: 0 <= i < |synced| ==> RowAt(table, synced[i].key) == Some(synced[i].row))
    && (forall key :: key in table ==> exists i :: 0 <= i < |synced| && synced[i].key == key)
  }

  /** What a vendor's shipped table charges for a model. */
  function ShippedRate(tables: Tables): ShippedRates {
    (key: PriceKey) =>
      if tables(key.vendor).Some? && key.model in tables(key.vendor).value.rates
      then Some(tables(key.vendor).value.rates[key.model]) else None
  }

  lemma {:induction false} LastSyncedIsTheRow(synced: seq<StoredPrice>, i: nat)
    requires i < |synced| && forall i, j :: 0 <= i < j < |synced| ==> synced[i].key != synced[j].key
    ensures LastSynced(synced, synced[i].key) == if synced[i].row.rate.Some? then Some(synced[i].row) else None
    decreases |synced|
  {
    var n := |synced| - 1;
    if i < n {
      LastSyncedIsTheRow(synced[..n], i);
    } else {
      NotListed(synced[..n], synced[n].key);
    }
  }

  lemma {:induction false} NotListed(synced: seq<StoredPrice>, key: PriceKey)
    requires forall i :: 0 <= i < |synced| ==> synced[i].key != key
    ensures LastSynced(synced, key) == None
    decreases |synced|
  {
    if synced != [] {
      NotListed(synced[..|synced| - 1], key);
    }
  }

  /** On its vendor's own endpoint, a model nobody priced by hand is charged the price that applies in
      the table, whatever is held back or was refused. */
  lemma ChargesWhatApplies(provider: Provider, tables: Tables, synced: seq<StoredPrice>, overrides: seq<PriceOverride>,
                           model: string, table: Table)
    requires Lists(synced, table) && provider.Vendor().Some?
    requires LastOverride(overrides, provider.id, model).None?
    ensures var choice := Chosen(provider, tables, synced, overrides, model);
            (if choice.Some? then Some(choice.value.rate) else None)
            == Price(table, ShippedRate(tables), PriceKey(provider.Vendor().value, model))
  {
    var key := PriceKey(provider.Vendor().value, model);
    if key in table {
      var i :| 0 <= i < |synced| && synced[i].key == key;
      LastSyncedIsTheRow(synced, i);
    } else {
      NotListed(synced, key);
    }
  }

  /** And its origin says so: a price in the table is a synced one, of the edition it came in; one that is not
      is the shipped table's, of that table's name. */
  lemma OriginIsWhereItApplies(provider: Provider, tables: Tables, synced: seq<StoredPrice>, overrides: seq<PriceOverride>,
                               model: string, table: Table)
    requires Lists(synced, table) && provider.Vendor().Some?
    requires LastOverride(overrides, provider.id, model).None?
    ensures var choice := Chosen(provider, tables, synced, overrides, model);
            var row := RowAt(table, PriceKey(provider.Vendor().value, model));
            choice.Some? ==>
              if row.Some? && row.value.rate.Some? then choice.value.origin == Synced && choice.value.edition == row.value.book
              else
                && choice.value.origin == Shipped
                && tables(provider.Vendor().value).Some?
                && choice.value.edition == tables(provider.Vendor().value).value.id
  {
    var key := PriceKey(provider.Vendor().value, model);
    if key in table {
      var i :| 0 <= i < |synced| && synced[i].key == key;
      LastSyncedIsTheRow(synced, i);
    } else {
      NotListed(synced, key);
    }
  }

  /** Away from its vendor's endpoint a provider charges only what somebody set by hand. */
  lemma ElsewhereOnlyHandSet(provider: Provider, tables: Tables, synced: seq<StoredPrice>, overrides: seq<PriceOverride>,
                             model: string)
    requires provider.Vendor().None?
    ensures Chosen(provider, tables, synced, overrides, model).Some? <==>
            exists o <- overrides :: o.providerId == provider.id && o.model == model
  {
    OverrideIsFound(overrides, provider.id, model);
  }

  lemma {:induction false} OverrideIsFound(overrides: seq<PriceOverride>, provider: string, model: string)
    ensures LastOverride(overrides, provider, model).Some? <==>
            exists o <- overrides :: o.providerId == provider && o.model == model
    decreases |overrides|
  {
    if overrides != [] {
      var front, last := overrides[..|overrides| - 1], overrides[|overrides| - 1];
      OverrideIsFound(front, provider, model);
      assert overrides == front + [last];
    }
  }

  /** In no state that can be reached is a price that is held charged, or one that was refused, unless
      somebody set it by hand. */
  lemma NoHeldPriceIsCharged(provider: Provider, tables: Tables, synced: seq<StoredPrice>, overrides: seq<PriceOverride>,
                             model: string, ops: seq<Op>)
    requires AllCanHappen(ops) && Lists(synced, Run(map[], ShippedRate(tables), ops))
    requires provider.Vendor().Some? && LastOverride(overrides, provider.id, model).None?
    requires Chosen(provider, tables, synced, overrides, model).Some?
    ensures var table := Run(map[], ShippedRate(tables), ops);
            var key := PriceKey(provider.Vendor().value, model);
            var rate := Chosen(provider, tables, synced, overrides, model).value.rate;
            HeldRate(table, key) != Some(rate) && Rejected(table, key) != Some(rate)
  {
    hide Chosen, Lists, Run, FirstMove;
    var table := Run(map[], ShippedRate(tables), ops);
    ChargesWhatApplies(provider, tables, synced, overrides, model, table);
    EveryStateIsSound(ShippedRate(tables), ops);
    StayingIsNoMove(Chosen(provider, tables, synced, overrides, model).value.rate);
  }

  /** A price set by hand is charged whatever the lists say, on any endpoint. */
  lemma HandSetWins(provider: Provider, tables: Tables, synced: seq<StoredPrice>, overrides: seq<PriceOverride>, i: nat)
    requires i < |overrides| && overrides[i].providerId == provider.id
    requires forall j :: i < j < |overrides| ==>
               (overrides[j].providerId, overrides[j].model) != (overrides[i].providerId, overrides[i].model)
    ensures Chosen(provider, tables, synced, overrides, overrides[i].model)
            == Some(Choice(overrides[i].rate, Manual, "manual-" + Dates.Day(overrides[i].updatedAt)))
    decreases |overrides|
  {
    if i < |overrides| - 1 {
      HandSetWins(provider, tables, synced, overrides[..|overrides| - 1], i);
    }
  }
}
