/** Usage reports: what the store's query gives for each group and currency, folded into one total
    for each group, and the totals of all groups together. */
module Summaries {
  import opened Basics

  /** One figure of a report. Token counts and money are there only when something reported them. */
  datatype Measure = Counter(name: string) | Tokens(name: string) | Money(currency: string)

  type Figures = map<Measure, int>

  datatype Totals = Totals(key: Option<string>, figures: Figures)

  /** Counters add plainly, the rest up to the largest there is. */
  function Add(measure: Measure, a: int, b: int): int {
    if measure.Counter? then a + b else Clamp(a + b)
  }

  function Absorbed(a: Figures, b: Figures): Figures {
    map m | m in a.Keys + b.Keys ::
      if m !in b then a[m] else if m !in a then b[m] else Add(m, a[m], b[m])
  }

  // ----- folding what the query gives

  /** A row goes to the last group when it has the same key, and is a group of its own otherwise. */
  function OneMore(groups: seq<Totals>, row: Totals): seq<Totals> {
    if groups != [] && groups[|groups| - 1].key == row.key then
      var last := groups[|groups| - 1];
      groups[..|groups| - 1] + [Totals(last.key, Absorbed(last.figures, row.figures))]
    else groups + [row]
  }

  /** A total for every run of rows with one key. */
  function Folded(rows: seq<Totals>): (groups: seq<Totals>)
    ensures groups == [] <==> rows == []
    ensures rows != [] ==> groups[|groups| - 1].key == rows[|rows| - 1].key
  {
    if rows == [] then [] else OneMore(Folded(rows[..|rows| - 1]), rows[|rows| - 1])
  }

  lemma FoldedRow(rows: seq<Totals>)
    requires rows != []
    ensures Folded(rows) == OneMore(Folded(rows[..|rows| - 1]), rows[|rows| - 1])
  {
    hide OneMore;
  }

  method Fold(rows: seq<Totals>) returns (groups: seq<Totals>)
    ensures groups == Folded(rows)
  {
    hide Absorbed;
    groups := [];
    for i := 0 to |rows|
      invariant groups == Folded(rows[..i])
    {
      assert rows[..i + 1][..i] == rows[..i] && rows[..i + 1][i] == rows[i];
      hide Folded;
      assert Folded(rows[..i + 1]) == OneMore(Folded(rows[..i]), rows[i]) by { FoldedRow(rows[..i + 1]); }
      var row := rows[i];
      if groups != [] && groups[|groups| - 1].key == row.key {
        var last := groups[|groups| - 1];
        groups := groups[|groups| - 1 := last.(figures := Absorbed(last.figures, row.figures))];
      } else {
        groups := groups + [row];
      }
    }
    assert rows[..|rows|] == rows;
  }

  /** Everything together. */
  function Together(groups: seq<Totals>): Figures {
    if groups == [] then map[]
    else Absorbed(Together(groups[..|groups| - 1]), groups[|groups| - 1].figures)
  }

  method Total(groups: seq<Totals>) returns (figures: Figures)
    ensures figures == Together(groups)
  {
    figures := map[];
    for i := 0 to |groups|
      invariant figures == Together(groups[..i])
    {
      assert groups[..i + 1][..i] == groups[..i];
      figures := Absorbed(figures, groups[i].figures);
    }
    assert groups[..|groups|] == groups;
  }

  function With(rows: seq<Totals>, key: Option<string>): seq<Totals> {
    if rows == [] then []
    else With(rows[..|rows| - 1], key) + if rows[|rows| - 1].key == key then [rows[|rows| - 1]] else []
  }

  /** Rows sorted by key: those of one key are next to each other. */
  ghost predicate Adjacent(rows: seq<Totals>) {
    forall i, j, k :: 0 <= i < j < k < |rows| && rows[i].key == rows[k].key ==> rows[j].key == rows[k].key
  }

  lemma WithOneMore(rows: seq<Totals>, key: Option<string>)
    requires rows != []
    ensures Together(With(rows, key)) ==
            var before := Together(With(rows[..|rows| - 1], key));
            if rows[|rows| - 1].key == key then Absorbed(before, rows[|rows| - 1].figures) else before
  {
    var before := With(rows[..|rows| - 1], key);
    assert before + [] == before;
    assert (before + [rows[|rows| - 1]])[..|before|] == before;
  }

  lemma {:induction false} NoneWith(rows: seq<Totals>, key: Option<string>)
    requires forall i :: 0 <= i < |rows| ==> rows[i].key != key
    ensures With(rows, key) == []
    decreases |rows|
  {
    if rows != [] {
      NoneWith(rows[..|rows| - 1], key);
    }
  }

  lemma {:induction false} FoldedKeys(rows: seq<Totals>, i: nat) returns (k: nat)
    requires i < |Folded(rows)|
    ensures k < |rows| && rows[k].key == Folded(rows)[i].key
    decreases |rows|
  {
    var n := |rows| - 1;
    if i < |Folded(rows[..n])| {
      k := FoldedKeys(rows[..n], i);
    } else {
      k := n;
    }
  }

  /** A key that differs from the one before it is none of those before. */
  lemma LastKeyIsNew(rows: seq<Totals>, i: nat)
    requires |rows| >= 2 && Adjacent(rows) && rows[|rows| - 2].key != rows[|rows| - 1].key
    requires i < |rows| - 1
    ensures rows[i].key != rows[|rows| - 1].key
  {
  }

  lemma AdjacentBefore(rows: seq<Totals>)
    requires rows != [] && Adjacent(rows)
    ensures Adjacent(rows[..|rows| - 1])
  {
  }

  /** A fold of one row more has the same keys, or one more. */
  lemma FoldedOneMore(rows: seq<Totals>)
    requires rows != []
    ensures var n := |rows| - 1;
            var groups, now := Folded(rows[..n]), Folded(rows);
            && |groups| <= |now| <= |groups| + 1
            && (forall i :: 0 <= i < |groups| ==> now[i].key == groups[i].key)
            && (|now| == |groups| + 1 ==> now[|groups|].key == rows[n].key && (n > 0 ==> rows[n - 1].key != rows[n].key))
  {
    OneMoreKeys(Folded(rows[..|rows| - 1]), rows[|rows| - 1]);
    hide OneMore;
  }

  lemma OneMoreKeys(groups: seq<Totals>, row: Totals)
    ensures var now := OneMore(groups, row);
            && |groups| <= |now| <= |groups| + 1
            && (forall i :: 0 <= i < |groups| ==> now[i].key == groups[i].key)
            && (|now| == |groups| + 1 ==> now[|groups|] == row && (groups != [] ==> groups[|groups| - 1].key != row.key))
  {
    hide Absorbed;
  }

  /** Folding gives each key once. */
  lemma {:induction false} FoldedKeysDiffer(rows: seq<Totals>, i: nat, j: nat)
    requires Adjacent(rows) && i < j < |Folded(rows)|
    ensures Folded(rows)[i].key != Folded(rows)[j].key
    decreases |rows|
  {
    hide Adjacent, Folded;
    var n := |rows| - 1;
    var groups := Folded(rows[..n]);
    FoldedOneMore(rows);
    AdjacentBefore(rows);
    if j < |groups| {
      FoldedKeysDiffer(rows[..n], i, j);
    } else {
      var k := FoldedKeys(rows[..n], i);
      assert rows[..n][k] == rows[k];
      LastKeyIsNew(rows, k);
    }
  }

  /** And with it everything its rows came to. */
  lemma {:induction false} FoldedIsByKey(rows: seq<Totals>, i: nat)
    requires Adjacent(rows) && i < |Folded(rows)|
    ensures Folded(rows)[i].figures == Together(With(rows, Folded(rows)[i].key))
    decreases |rows|
  {
    hide Absorbed, Together, With, Adjacent, Folded, OneMore;
    var n := |rows| - 1;
    var groups, now := Folded(rows[..n]), Folded(rows);
    WithOneMore(rows, now[i].key);
    AdjacentBefore(rows);
    FoldedOneMore(rows);
    FoldedFigures(rows, i);
    if i < |groups| {
      FoldedIsByKey(rows[..n], i);
      if i < |now| - 1 {
        FoldedKeysDiffer(rows, i, |now| - 1);
      }
    } else {
      if n > 0 {
        forall k: nat | k < n ensures rows[..n][k].key != rows[n].key {
          LastKeyIsNew(rows, k);
        }
      }
      NoneWith(rows[..n], rows[n].key);
      NothingTogether(rows[n].figures);
    }
  }

  lemma FoldedFigures(rows: seq<Totals>, i: nat)
    requires rows != [] && i < |Folded(rows)|
    ensures var row, groups, now := rows[|rows| - 1], Folded(rows[..|rows| - 1]), Folded(rows);
            if i == |groups| then now[i].figures == row.figures
            else if i == |now| - 1 then now[i].figures == Absorbed(groups[i].figures, row.figures) && now[i].key == row.key
            else now[i].figures == groups[i].figures
  {
    OneMoreFigures(Folded(rows[..|rows| - 1]), rows[|rows| - 1], i);
    hide Absorbed, OneMore;
  }

  lemma OneMoreFigures(groups: seq<Totals>, row: Totals, i: nat)
    requires i < |OneMore(groups, row)|
    ensures var now := OneMore(groups, row);
            if i == |groups| then now[i].figures == row.figures
            else if i == |now| - 1 then now[i].figures == Absorbed(groups[i].figures, row.figures) && now[i].key == row.key
            else now[i].figures == groups[i].figures
  {
    hide Absorbed;
  }

  lemma NothingTogether(figures: Figures)
    ensures Absorbed(Together([]), figures) == figures
  {
  }

  // ----- nothing is lost or counted twice

  predicate NonNegative(figures: Figures) {
    forall m :: m in figures ==> 0 <= figures[m] && (m.Counter? || figures[m] <= I64_MAX)
  }

  predicate AllNonNegative(rows: seq<Totals>) {
    forall i :: 0 <= i < |rows| ==> NonNegative(rows[i].figures)
  }

  lemma AbsorbedFigure(a: Figures, b: Figures, m: Measure)
    ensures m in Absorbed(a, b) <==> m in a || m in b
    ensures m in a && m in b ==> Absorbed(a, b)[m] == Add(m, a[m], b[m])
    ensures m in a && m !in b ==> Absorbed(a, b)[m] == a[m]
    ensures m !in a && m in b ==> Absorbed(a, b)[m] == b[m]
  {
  }

  lemma AddingAssociates(m: Measure, a: nat, b: nat, c: nat)
    requires m.Counter? || (a <= I64_MAX && b <= I64_MAX && c <= I64_MAX)
    ensures Add(m, Add(m, a, b), c) == Add(m, a, Add(m, b, c))
  {
  }

  lemma AbsorbingAssociates(a: Figures, b: Figures, c: Figures)
    requires NonNegative(a) && NonNegative(b) && NonNegative(c)
    ensures Absorbed(Absorbed(a, b), c) == Absorbed(a, Absorbed(b, c))
    ensures NonNegative(Absorbed(a, b))
  {
    var ab, bc := Absorbed(a, b), Absorbed(b, c);
    forall m
      ensures m in Absorbed(ab, c) <==> m in Absorbed(a, bc)
      ensures m in Absorbed(ab, c) ==> Absorbed(ab, c)[m] == Absorbed(a, bc)[m]
    {
      hide Absorbed, Add;
      AbsorbedFigure(a, b, m);
      AbsorbedFigure(b, c, m);
      AbsorbedFigure(ab, c, m);
      AbsorbedFigure(a, bc, m);
      if m in a && m in b && m in c {
        AddingAssociates(m, a[m], b[m], c[m]);
      }
    }
  }

  lemma {:induction false} TogetherIsNonNegative(rows: seq<Totals>)
    requires AllNonNegative(rows)
    ensures NonNegative(Together(rows))
    decreases |rows|
  {
    if rows != [] {
      TogetherIsNonNegative(rows[..|rows| - 1]);
      AbsorbingAssociates(Together(rows[..|rows| - 1]), rows[|rows| - 1].figures, map[]);
    }
  }

  /** A row absorbed by the last group, or added as a group of its own, is absorbed by all together. */
  lemma OneMoreTogether(groups: seq<Totals>, row: Totals)
    requires AllNonNegative(groups) && NonNegative(row.figures)
    ensures AllNonNegative(groups + [row])
    ensures Together(groups + [row]) == Absorbed(Together(groups), row.figures)
    ensures groups != [] ==>
              var last := groups[|groups| - 1];
              var merged := groups[..|groups| - 1] + [Totals(last.key, Absorbed(last.figures, row.figures))];
              AllNonNegative(merged) && Together(merged) == Absorbed(Together(groups), row.figures)
  {
    hide Absorbed, NonNegative;
    assert (groups + [row])[..|groups|] == groups;
    if groups != [] {
      var n := |groups| - 1;
      var merged := Totals(groups[n].key, Absorbed(groups[n].figures, row.figures));
      assert (groups[..n] + [merged])[..n] == groups[..n];
      TogetherIsNonNegative(groups[..n]);
      AbsorbingAssociates(Together(groups[..n]), groups[n].figures, row.figures);
      AbsorbingAssociates(groups[n].figures, row.figures, row.figures);
    }
  }

  /** All the groups together are all the rows together. */
  lemma {:induction false} FoldingLosesNothing(rows: seq<Totals>)
    requires AllNonNegative(rows)
    ensures AllNonNegative(Folded(rows))
    ensures Together(Folded(rows)) == Together(rows)
    decreases |rows|
  {
    if rows != [] {
      hide Absorbed, NonNegative;
      FoldingLosesNothing(rows[..|rows| - 1]);
      OneMoreTogether(Folded(rows[..|rows| - 1]), rows[|rows| - 1]);
    }
  }

  // ----- the two queries of a report

  /** A row of a query is the sum of the requests it covers. */
  datatype Covered = Covered(key: Option<string>, requests: seq<Figures>)

  function SumOf(requests: seq<Figures>, m: Measure): int {
    if requests == [] then 0
    else SumOf(requests[..|requests| - 1], m) + var last := requests[|requests| - 1]; if m in last then last[m] else 0
  }

  ghost predicate Reported(requests: seq<Figures>, m: Measure) {
    exists r :: r in requests && m in r
  }

  ghost predicate IsSum(figures: Figures, requests: seq<Figures>) {
    forall m :: (m in figures <==> Reported(requests, m)) && (m in figures ==> figures[m] == SumOf(requests, m))
  }

  function Requests(rows: seq<Covered>): seq<Figures> {
    if rows == [] then [] else Requests(rows[..|rows| - 1]) + rows[|rows| - 1].requests
  }

  /** What a query answers: its rows, each the sum of the requests it covers. */
  ghost predicate Answers(rows: seq<Totals>, covered: seq<Covered>) {
    && |rows| == |covered|
    && forall i :: 0 <= i < |rows| ==> rows[i].key == covered[i].key && IsSum(rows[i].figures, covered[i].requests)
  }

  /** The sum, as far as it can be held. */
  function Held(m: Measure, sum: int): int {
    if m.Counter? then sum else Min(sum, I64_MAX)
  }

  lemma {:induction false} SumAppends(a: seq<Figures>, b: seq<Figures>, m: Measure)
    ensures SumOf(a + b, m) == SumOf(a, m) + SumOf(b, m)
    decreases |b|
  {
    if b == [] {
      assert a + b == a;
    } else {
      SumAppends(a, b[..|b| - 1], m);
      assert (a + b)[..|a + b| - 1] == a + b[..|b| - 1];
    }
  }

  function At(figures: Figures, m: Measure): int {
    if m in figures then figures[m] else 0
  }

  lemma AbsorbedAt(a: Figures, b: Figures, m: Measure, sum: nat)
    requires NonNegative(a) && NonNegative(b) && At(a, m) == Held(m, sum)
    ensures m in Absorbed(a, b) <==> m in a || m in b
    ensures At(b, m) >= 0 && At(Absorbed(a, b), m) == Held(m, sum + At(b, m))
  {
  }

  /** The rows together are the sum of every request covered, whatever the rows were. */
  lemma {:induction false} TogetherIsTheSum(rows: seq<Totals>, covered: seq<Covered>, m: Measure)
    requires Answers(rows, covered) && AllNonNegative(rows)
    ensures m in Together(rows) <==> Reported(Requests(covered), m)
    ensures SumOf(Requests(covered), m) >= 0 && At(Together(rows), m) == Held(m, SumOf(Requests(covered), m))
    decreases |rows|
  {
    if rows != [] {
      hide Absorbed, Held, SumOf, NonNegative, IsSum, Reported;
      var n := |rows| - 1;
      var before, last := Requests(covered[..n]), covered[n].requests;
      TogetherIsTheSum(rows[..n], covered[..n], m);
      TogetherIsNonNegative(rows[..n]);
      SumAppends(before, last, m);
      SumIsAt(rows[n].figures, last, m);
      ReportedAppends(before, last, m);
      AbsorbedAt(Together(rows[..n]), rows[n].figures, m, SumOf(before, m));
      assert Requests(covered) == before + last;
    } else {
      assert Requests(covered) == [] && SumOf([], m) == 0;
    }
  }

  lemma ReportedAppends(a: seq<Figures>, b: seq<Figures>, m: Measure)
    ensures Reported(a + b, m) <==> Reported(a, m) || Reported(b, m)
  {
    assert forall r :: r in a + b <==> r in a || r in b;
  }

  lemma SumIsAt(figures: Figures, requests: seq<Figures>, m: Measure)
    requires IsSum(figures, requests)
    ensures m in figures <==> Reported(requests, m)
    ensures At(figures, m) == SumOf(requests, m)
  {
    hide SumOf;
    if m !in figures {
      NothingToSum(requests, m);
    }
  }

  lemma {:induction false} NothingToSum(requests: seq<Figures>, m: Measure)
    requires forall r :: r in requests ==> m !in r
    ensures SumOf(requests, m) == 0
    decreases |requests|
  {
    if requests != [] {
      var n := |requests| - 1;
      assert requests[n] in requests;
      assert forall r :: r in requests[..n] ==> r in requests;
      NothingToSum(requests[..n], m);
    }
  }

  lemma WithoutOne(requests: seq<Figures>, i: nat, m: Measure)
    requires i < |requests|
    ensures multiset(requests) == multiset(requests[..i] + requests[i + 1..]) + multiset{requests[i]}
    ensures SumOf(requests, m) == SumOf(requests[..i] + requests[i + 1..], m) + At(requests[i], m)
  {
    assert requests == requests[..i] + [requests[i]] + requests[i + 1..];
    hide SumOf;
    SumAppends(requests[..i] + [requests[i]], requests[i + 1..], m);
    SumAppends(requests[..i], [requests[i]], m);
    SumAppends(requests[..i], requests[i + 1..], m);
    SumOfOne(requests[i], m);
  }

  lemma OneLess(a: multiset<Figures>, b: multiset<Figures>, one: Figures)
    requires a + multiset{one} == b + multiset{one}
    ensures a == b
  {
    assert a == (a + multiset{one}) - multiset{one};
  }

  lemma SumOfOne(figures: Figures, m: Measure)
    ensures SumOf([figures], m) == At(figures, m)
  {
    assert [figures][..0] == [];
  }

  lemma {:induction false} SumIgnoresOrder(a: seq<Figures>, b: seq<Figures>, m: Measure)
    requires multiset(a) == multiset(b)
    ensures SumOf(a, m) == SumOf(b, m)
    decreases |a|
  {
    if a == [] {
      assert |multiset(b)| == 0;
    } else {
      hide SumOf;
      var n := |a| - 1;
      assert a[n] in multiset(b);
      var i :| 0 <= i < |b| && b[i] == a[n];
      WithoutOne(a, n, m);
      WithoutOne(b, i, m);
      assert a[..n] + a[n + 1..] == a[..n];
      OneLess(multiset(a[..n]), multiset(b[..i] + b[i + 1..]), a[n]);
      SumIgnoresOrder(a[..n], b[..i] + b[i + 1..], m);
    }
  }

  /** However the same requests are grouped, all the groups together come to the same figures, and
      they are what the ungrouped report says. */
  lemma GroupsAddUpToTheTotal(grouped: seq<Totals>, byGroup: seq<Covered>, ungrouped: seq<Totals>, all: seq<Covered>)
    requires Answers(grouped, byGroup) && AllNonNegative(grouped)
    requires Answers(ungrouped, all) && AllNonNegative(ungrouped)
    requires multiset(Requests(byGroup)) == multiset(Requests(all))
    ensures Together(Folded(grouped)) == Together(Folded(ungrouped))
  {
    hide Folded, Together, Answers, AllNonNegative, SumOf;
    FoldingLosesNothing(grouped);
    FoldingLosesNothing(ungrouped);
    forall m ensures m in Together(grouped) <==> m in Together(ungrouped)
             ensures At(Together(grouped), m) == At(Together(ungrouped), m)
    {
      TogetherIsTheSum(grouped, byGroup, m);
      TogetherIsTheSum(ungrouped, all, m);
      SumIgnoresOrder(Requests(byGroup), Requests(all), m);
      assert forall r :: r in Requests(byGroup) <==> r in multiset(Requests(byGroup));
      assert forall r :: r in Requests(all) <==> r in multiset(Requests(all));
    }
    assert Together(grouped) == Together(ungrouped);
  }
}
