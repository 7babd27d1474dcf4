/** Adding up many calls, some of which nobody could price. */
module Ledgers {
  import opened Basics
  import opened Usages
  import opened Pricing
  import opened Replies

  /** One call. A call that could not be priced has no cost, which is not a cost of nothing. */
  datatype Call = Call(model: string, usage: Usage, cost: Option<Priced>)

  /** How far a figure can be trusted, best first: the whole cost, a floor under it, or neither. */
  datatype Kind = Whole | AtLeast | About
  {
    predicate Below(other: Kind) {
      Whole? || this == other || other.About?
    }

    function Join(other: Kind): Kind {
      if Below(other) then other else this
    }
  }

  datatype Total = Total(kind: Kind, amount: I64)

  // ----- what the calls come to

  function Costs(calls: seq<Call>): seq<Priced> {
    if calls == [] then []
    else
      Costs(calls[..|calls| - 1])
      + match calls[|calls| - 1].cost
        case Some(priced) => [priced]
        case None => []
  }

  function Unpriced(calls: seq<Call>): nat {
    if calls == [] then 0
    else Unpriced(calls[..|calls| - 1]) + if calls[|calls| - 1].cost.None? then 1 else 0
  }

  function Sum(costs: seq<Priced>): I64 {
    if costs == [] then 0 else SatAdd(Sum(costs[..|costs| - 1]), costs[|costs| - 1].amount)
  }

  /** The costs that satisfy a test, in their order. */
  function Where(costs: seq<Priced>, test: Priced -> bool): seq<Priced> {
    if costs == [] then []
    else Where(costs[..|costs| - 1], test) + if test(costs[|costs| - 1]) then [costs[|costs| - 1]] else []
  }

  function In(costs: seq<Priced>, currency: string): seq<Priced> {
    Where(costs, (c: Priced) => c.currency == currency)
  }

  function Estimates(costs: seq<Priced>): seq<Priced> {
    Where(costs, (c: Priced) => c.coverage == Estimated)
  }

  function Currencies(costs: seq<Priced>): set<string> {
    set c | c in costs :: c.currency
  }

  predicate Mixed(costs: seq<Priced>) {
    exists i, j :: 0 <= i < j < |costs| && costs[i].currency != costs[j].currency
  }

  lemma MixedExactlyWhen(costs: seq<Priced>)
    ensures |Currencies(costs)| > 1 <==> Mixed(costs)
  {
    if costs != [] && !Mixed(costs) {
      var first := costs[0].currency;
      assert forall c :: c in costs ==> c.currency == first;
      assert costs[0] in costs;
      assert Currencies(costs) == {first};
    } else if Mixed(costs) {
      var i, j :| 0 <= i < j < |costs| && costs[i].currency != costs[j].currency;
      assert costs[i] in costs && costs[j] in costs;
      var two := {costs[i].currency, costs[j].currency};
      assert two <= Currencies(costs);
      SubsetIsNoBigger(two, Currencies(costs));
    }
  }

  lemma {:induction false} SubsetIsNoBigger(a: set<string>, b: set<string>)
    requires a <= b
    ensures |a| <= |b|
  {
    assert b == a + (b - a);
  }

  /** What one cost makes of a figure it is part of. */
  function KindOf(cost: Priced): Kind {
    match cost.coverage
    case Exact => Whole
    case Estimated => About
    case Partial => AtLeast
    case Absent => AtLeast
  }

  /** The worst of what all the parts make of a figure. */
  function Joined(anyUnpriced: bool, costs: seq<Priced>): Kind {
    if costs == [] then if anyUnpriced then AtLeast else Whole
    else Joined(anyUnpriced, costs[..|costs| - 1]).Join(KindOf(costs[|costs| - 1]))
  }

  function TotalIn(calls: seq<Call>, currency: string): Total {
    var costs := In(Costs(calls), currency);
    Total(Joined(Unpriced(calls) > 0, costs), Sum(costs))
  }

  // ----- the ledger

  class Ledger {
    var calls: seq<Call>

    constructor ()
      ensures calls == []
    {
      calls := [];
    }

    method Record(reply: ChatResponse, book: Option<PriceBook>)
      modifies this
      ensures calls == old(calls) + [Call(reply.model, reply.usage, if book.Some? then book.value.Price(reply.model, reply.usage) else None)]
    {
      var cost := None;
      if book.Some? {
        cost := book.value.Price(reply.model, reply.usage);
      }
      calls := calls + [Call(reply.model, reply.usage, cost)];
    }

    method RecordUnpriced(model: string, usage: Usage)
      modifies this
      ensures calls == old(calls) + [Call(model, usage, None)]
    {
      calls := calls + [Call(model, usage, None)];
    }

    method Absorb(other: Ledger)
      modifies this
      ensures calls == old(calls) + old(other.calls)
    {
      calls := calls + other.calls;
    }

    /** No total when the costs are in more than one currency, and otherwise the worst kind of all the
        calls with the sum of what was priced. */
    method Overall() returns (total: Option<Total>)
      ensures total.None? <==> Mixed(Costs(calls))
      ensures total.Some? ==> total.value == Total(Joined(Unpriced(calls) > 0, Costs(calls)), Sum(Costs(calls)))
    {
      var costs := Costs(calls);
      MixedExactlyWhen(costs);
      if |Currencies(costs)| > 1 {
        return None;
      }
      var amount := 0;
      for i := 0 to |costs|
        invariant amount == Sum(costs[..i])
      {
        assert costs[..i + 1][..i] == costs[..i];
        amount := SatAdd(amount, costs[i].amount);
      }
      assert costs[..|costs|] == costs;
      var figure := KindOfFigure(amount, Unpriced(calls) > 0, costs);
      total := Some(figure);
    }

    /** One total for every currency, each a floor at best when any call has no price. */
    method Totals() returns (totals: map<string, Total>)
      ensures totals.Keys == Currencies(Costs(calls))
      ensures forall currency :: currency in totals ==> totals[currency] == TotalIn(calls, currency)
    {
      hide Costs, Unpriced, Joined, Sum, Where, Currencies;
      var costs := Costs(calls);
      var sums := SumsOf(costs);
      totals := map[];
      var left := sums.Keys;
      while left != {}
        invariant left <= sums.Keys && totals.Keys == sums.Keys - left
        invariant forall currency :: currency in totals ==> totals[currency] == TotalIn(calls, currency)
        decreases |left|
      {
        var currency :| currency in left;
        var total := KindOfFigure(sums[currency], Unpriced(calls) > 0, In(costs, currency));
        totals := totals[currency := total];
        left := left - {currency};
      }
    }

    /** What of each currency was priced from counted tokens. */
    method Estimated() returns (sums: map<string, I64>)
      ensures sums.Keys == Currencies(Estimates(Costs(calls)))
      ensures forall currency :: currency in sums ==> sums[currency] == Sum(In(Estimates(Costs(calls)), currency))
    {
      sums := SumsOf(Estimates(Costs(calls)));
    }
  }

  /** Two flags, set by what is met on the way, come to the worst kind there is. */
  method KindOfFigure(amount: I64, anyUnpriced: bool, costs: seq<Priced>) returns (total: Total)
    ensures total == Total(Joined(anyUnpriced, costs), amount)
  {
    var estimated, understated := false, anyUnpriced;
    for i := 0 to |costs|
      invariant Joined(anyUnpriced, costs[..i]) == if estimated then About else if understated then AtLeast else Whole
    {
      assert costs[..i + 1][..i] == costs[..i];
      match costs[i].coverage {
        case Estimated => estimated := true;
        case Exact =>
        case _ => understated := true;
      }
    }
    assert costs[..|costs|] == costs;
    total := Total(if estimated then About else if understated then AtLeast else Whole, amount);
  }

  method SumsOf(costs: seq<Priced>) returns (sums: map<string, I64>)
    ensures sums.Keys == Currencies(costs)
    ensures forall currency :: currency in sums ==> sums[currency] == Sum(In(costs, currency))
  {
    sums := map[];
    for i := 0 to |costs|
      invariant sums.Keys == Currencies(costs[..i])
      invariant forall currency :: currency in sums ==> sums[currency] == Sum(In(costs[..i], currency))
    {
      var cost := costs[i];
      CurrenciesOneMore(costs, i);
      forall currency
        ensures Sum(In(costs[..i + 1], currency)) ==
                if currency == cost.currency then SatAdd(Sum(In(costs[..i], currency)), cost.amount)
                else Sum(In(costs[..i], currency))
      {
        SumOneMore(costs, i, currency);
      }
      if cost.currency !in sums {
        NothingIn(costs[..i], cost.currency);
      }
      var sum := if cost.currency in sums then sums[cost.currency] else 0;
      sums := sums[cost.currency := SatAdd(sum, cost.amount)];
    }
    assert costs[..|costs|] == costs;
  }

  lemma CurrenciesOneMore(costs: seq<Priced>, i: nat)
    requires i < |costs|
    ensures Currencies(costs[..i + 1]) == Currencies(costs[..i]) + {costs[i].currency}
  {
    assert costs[..i + 1] == costs[..i] + [costs[i]];
  }

  lemma SumOneMore(costs: seq<Priced>, i: nat, currency: string)
    requires i < |costs|
    ensures Sum(In(costs[..i + 1], currency)) ==
            if currency == costs[i].currency then SatAdd(Sum(In(costs[..i], currency)), costs[i].amount)
            else Sum(In(costs[..i], currency))
  {
    assert costs[..i + 1][..i] == costs[..i];
    var before := In(costs[..i], currency);
    assert before + [] == before;
    assert (before + [costs[i]])[..|before|] == before;
  }

  lemma {:induction false} NothingIn(costs: seq<Priced>, currency: string)
    requires currency !in Currencies(costs)
    ensures In(costs, currency) == []
    decreases |costs|
  {
    if costs != [] {
      var n := |costs| - 1;
      assert forall c :: c in costs[..n] ==> c in costs;
      NothingIn(costs[..n], currency);
      assert costs[n] in costs;
      assert costs[n].currency in Currencies(costs);
    }
  }

  // ----- what the figures mean

  lemma JoinIsALattice(a: Kind, b: Kind, c: Kind)
    ensures a.Join(b) == b.Join(a) && a.Join(b).Join(c) == a.Join(b.Join(c)) && a.Join(a) == a
    ensures a.Below(b) <==> a.Join(b) == b
  {
  }

  /** A figure is the least kind that none of its parts is worse than. */
  lemma {:induction false} KindIsTheLeastBound(anyUnpriced: bool, costs: seq<Priced>, kind: Kind)
    ensures Joined(anyUnpriced, costs).Below(kind) <==>
            (anyUnpriced ==> AtLeast.Below(kind)) && forall c :: c in costs ==> KindOf(c).Below(kind)
    decreases |costs|
  {
    if costs != [] {
      var n := |costs| - 1;
      KindIsTheLeastBound(anyUnpriced, costs[..n], kind);
      assert forall c :: c in costs <==> c in costs[..n] || c == costs[n];
    }
  }

  /** A total is the whole cost only when every call was priced from usage reported in full. */
  lemma WholeExactlyWhen(calls: seq<Call>)
    ensures Joined(Unpriced(calls) > 0, Costs(calls)) == Whole <==>
            forall i :: 0 <= i < |calls| ==> calls[i].cost.Some? && calls[i].cost.value.coverage == Exact
  {
    hide Costs, Unpriced, Joined;
    KindIsTheLeastBound(Unpriced(calls) > 0, Costs(calls), Whole);
    UnpricedExactlyWhen(calls);
    if Joined(Unpriced(calls) > 0, Costs(calls)) == Whole {
      forall i | 0 <= i < |calls| ensures calls[i].cost.Some? && calls[i].cost.value.coverage == Exact {
        CostIsThere(calls, i);
      }
    } else if Unpriced(calls) == 0 {
      var c :| c in Costs(calls) && !KindOf(c).Below(Whole);
      var i := CostIsOfACall(calls, c);
      assert calls[i].cost.value.coverage != Exact;
    }
  }

  lemma {:induction false} UnpricedExactlyWhen(calls: seq<Call>)
    ensures Unpriced(calls) == 0 <==> forall i :: 0 <= i < |calls| ==> calls[i].cost.Some?
    decreases |calls|
  {
    if calls != [] {
      var n := |calls| - 1;
      UnpricedExactlyWhen(calls[..n]);
      assert forall i :: 0 <= i < n ==> calls[..n][i] == calls[i];
    }
  }

  lemma {:induction false} CostIsThere(calls: seq<Call>, i: nat)
    requires i < |calls| && calls[i].cost.Some?
    ensures calls[i].cost.value in Costs(calls)
    decreases |calls|
  {
    if i < |calls| - 1 {
      CostIsThere(calls[..|calls| - 1], i);
    }
  }

  lemma {:induction false} CostIsOfACall(calls: seq<Call>, cost: Priced) returns (i: nat)
    requires cost in Costs(calls)
    ensures i < |calls| && calls[i].cost == Some(cost)
    decreases |calls|
  {
    var n := |calls| - 1;
    if cost in Costs(calls[..n]) {
      i := CostIsOfACall(calls[..n], cost);
    } else {
      i := n;
    }
  }

  /** When there is one currency, its own total is the total. */
  lemma OneCurrencyIsTheTotal(calls: seq<Call>, currency: string)
    requires Currencies(Costs(calls)) == {currency}
    ensures TotalIn(calls, currency) == Total(Joined(Unpriced(calls) > 0, Costs(calls)), Sum(Costs(calls)))
  {
    AllIn(Costs(calls), currency);
  }

  lemma {:induction false} AllIn(costs: seq<Priced>, currency: string)
    requires Currencies(costs) <= {currency}
    ensures In(costs, currency) == costs
    decreases |costs|
  {
    if costs != [] {
      var n := |costs| - 1;
      assert costs[n] in costs && costs[n].currency in Currencies(costs);
      assert forall c :: c in costs[..n] ==> c in costs;
      AllIn(costs[..n], currency);
      assert costs[..n] + [costs[n]] == costs;
    }
  }

  // ----- one ledger absorbing another

  function ExactSum(costs: seq<Priced>): int {
    if costs == [] then 0 else ExactSum(costs[..|costs| - 1]) + costs[|costs| - 1].amount
  }

  predicate NonNegativeCosts(costs: seq<Priced>) {
    forall i :: 0 <= i < |costs| ==> costs[i].amount >= 0
  }

  lemma {:induction false} SumIsExact(costs: seq<Priced>)
    requires NonNegativeCosts(costs)
    ensures ExactSum(costs) >= 0 && Sum(costs) == Min(ExactSum(costs), I64_MAX)
    decreases |costs|
  {
    if costs != [] {
      SumIsExact(costs[..|costs| - 1]);
    }
  }

  lemma {:induction false} ExactSumAppends(a: seq<Priced>, b: seq<Priced>)
    ensures ExactSum(a + b) == ExactSum(a) + ExactSum(b)
    decreases |b|
  {
    if b == [] {
      assert a + b == a;
    } else {
      ExactSumAppends(a, b[..|b| - 1]);
      assert (a + b)[..|a + b| - 1] == a + b[..|b| - 1];
    }
  }

  lemma {:induction false} CallsAppend(a: seq<Call>, b: seq<Call>)
    ensures Costs(a + b) == Costs(a) + Costs(b) && Unpriced(a + b) == Unpriced(a) + Unpriced(b)
    decreases |b|
  {
    if b == [] {
      assert a + b == a;
    } else {
      CallsAppend(a, b[..|b| - 1]);
      assert (a + b)[..|a + b| - 1] == a + b[..|b| - 1];
    }
  }

  lemma {:induction false} WhereAppends(a: seq<Priced>, b: seq<Priced>, test: Priced -> bool)
    ensures Where(a + b, test) == Where(a, test) + Where(b, test)
    decreases |b|
  {
    if b == [] {
      assert a + b == a;
    } else {
      WhereAppends(a, b[..|b| - 1], test);
      assert (a + b)[..|a + b| - 1] == a + b[..|b| - 1];
    }
  }

  lemma {:induction false} WhereKeeps(costs: seq<Priced>, test: Priced -> bool)
    ensures forall c :: c in Where(costs, test) <==> c in costs && test(c)
    ensures NonNegativeCosts(costs) ==> NonNegativeCosts(Where(costs, test)) && ExactSum(Where(costs, test)) <= ExactSum(costs)
    decreases |costs|
  {
    if costs != [] {
      var n := |costs| - 1;
      WhereKeeps(costs[..n], test);
      assert forall c :: c in costs <==> c in costs[..n] || c == costs[n];
      if test(costs[n]) {
        assert (Where(costs[..n], test) + [costs[n]])[..|Where(costs[..n], test)|] == Where(costs[..n], test);
      } else {
        assert Where(costs, test) == Where(costs[..n], test);
      }
    }
  }

  lemma {:induction false} JoinedAppends(u: bool, v: bool, a: seq<Priced>, b: seq<Priced>)
    ensures Joined(u || v, a + b) == Joined(u, a).Join(Joined(v, b))
    decreases |a| + |b|
  {
    if b != [] {
      JoinedAppends(u, v, a, b[..|b| - 1]);
      assert (a + b)[..|a + b| - 1] == a + b[..|b| - 1];
      JoinIsALattice(Joined(u, a), Joined(v, b[..|b| - 1]), KindOf(b[|b| - 1]));
    } else if a != [] {
      JoinedAppends(u, v, a[..|a| - 1], b);
      assert a + b == a && a[..|a| - 1] + b == a[..|a| - 1];
    } else {
      assert a + b == [];
    }
  }

  /** A ledger that has absorbed another has, in every currency, the sum of the two amounts and the
      worse of the two kinds. */
  lemma AbsorbAdds(a: seq<Call>, b: seq<Call>, currency: string)
    requires NonNegativeCosts(Costs(a)) && NonNegativeCosts(Costs(b))
    ensures TotalIn(a + b, currency).amount == SatAdd(TotalIn(a, currency).amount, TotalIn(b, currency).amount)
    ensures TotalIn(a + b, currency).kind == TotalIn(a, currency).kind.Join(TotalIn(b, currency).kind)
  {
    hide Where, Sum, Joined, Costs, Unpriced, NonNegativeCosts, Kind.Join, SatAdd;
    var test := (c: Priced) => c.currency == currency;
    CallsAppend(a, b);
    WhereAppends(Costs(a), Costs(b), test);
    WhereKeeps(Costs(a), test);
    WhereKeeps(Costs(b), test);
    SumAppends(Where(Costs(a), test), Where(Costs(b), test));
    JoinedAppends(Unpriced(a) > 0, Unpriced(b) > 0, Where(Costs(a), test), Where(Costs(b), test));
  }

  lemma SumAppends(a: seq<Priced>, b: seq<Priced>)
    requires NonNegativeCosts(a) && NonNegativeCosts(b)
    ensures Sum(a + b) == SatAdd(Sum(a), Sum(b))
  {
    hide Sum, ExactSum;
    SumIsExact(a);
    SumIsExact(b);
    SumIsExact(a + b);
    ExactSumAppends(a, b);
  }

  lemma {:induction false} WhereCommutes(costs: seq<Priced>, p: Priced -> bool, q: Priced -> bool)
    ensures Where(Where(costs, p), q) == Where(Where(costs, q), p)
    decreases |costs|
  {
    if costs != [] {
      var n := |costs| - 1;
      WhereCommutes(costs[..n], p, q);
      WhereOneMore(Where(costs[..n], p), q, costs[n]);
      WhereOneMore(Where(costs[..n], q), p, costs[n]);
      assert Where(costs[..n], p) + [] == Where(costs[..n], p);
      assert Where(costs[..n], q) + [] == Where(costs[..n], q);
    }
  }

  lemma WhereOneMore(costs: seq<Priced>, test: Priced -> bool, cost: Priced)
    ensures Where(costs + [cost], test) == Where(costs, test) + if test(cost) then [cost] else []
  {
    assert (costs + [cost])[..|costs|] == costs;
  }

  /** What was estimated of a currency is never more than its total, and is there only when the total
      says it is not a floor. */
  lemma EstimatesAreWithinTotals(calls: seq<Call>, currency: string)
    requires NonNegativeCosts(Costs(calls))
    ensures Sum(In(Estimates(Costs(calls)), currency)) <= TotalIn(calls, currency).amount
    ensures In(Estimates(Costs(calls)), currency) != [] <==> TotalIn(calls, currency).kind == About
  {
    hide Where, Sum, Joined, Costs;
    var costs := Costs(calls);
    var here := (c: Priced) => c.currency == currency;
    var estimated := (c: Priced) => c.coverage == Estimated;
    WhereCommutes(costs, estimated, here);
    WhereKeeps(costs, here);
    var ours := Where(costs, here);
    WhereKeeps(ours, estimated);
    SumIsExact(ours);
    SumIsExact(Where(ours, estimated));
    assert Where(Where(costs, estimated), here) == Where(ours, estimated);
    KindIsTheLeastBound(Unpriced(calls) > 0, ours, AtLeast);
    if Where(ours, estimated) != [] {
      assert Where(ours, estimated)[0] in Where(ours, estimated);
    }
  }
}
