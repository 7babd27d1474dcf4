/** Token counts, each of which a provider may or may not give. */
module Usages {
  import opened Basics

  /** How much of a usage was reported, best first. */
  datatype Coverage = Exact | Estimated | Partial | Absent

  datatype Usage = Usage(
    input: Option<U64>,
    cacheRead: Option<U64>,
    cacheWrite: Option<U64>,
    output: Option<U64>,
    estimated: bool)
  {
    function Coverage(): Coverage {
      if input.None? && cacheRead.None? && cacheWrite.None? && output.None? then Absent
      else if estimated then Estimated
      else if input.Some? && cacheRead.Some? && cacheWrite.Some? && output.Some? then Exact
      else Partial
    }

    /** Adds two usages field by field: what neither reports is not reported. */
    function Merge(other: Usage): Usage {
      Usage(AddCounts(input, other.input),
            AddCounts(cacheRead, other.cacheRead),
            AddCounts(cacheWrite, other.cacheWrite),
            AddCounts(output, other.output),
            estimated || other.estimated)
    }
  }

  const ABSENT := Usage(None, None, None, None, false)

  function Count(count: Option<U64>): U64 {
    match count
    case None => 0
    case Some(n) => n
  }

  /** The saturating sum of two counts, absent only when both are. */
  function AddCounts(a: Option<U64>, b: Option<U64>): Option<U64> {
    if a.None? && b.None? then None else Some(Min(Count(a) + Count(b), U64_MAX))
  }

  lemma AddCountsAssociates(a: Option<U64>, b: Option<U64>, c: Option<U64>)
    ensures AddCounts(AddCounts(a, b), c) == AddCounts(a, AddCounts(b, c))
  {
  }

  /** Merging a run of usages gives one answer however the run is grouped and ordered, and an
      unreported usage adds nothing. */
  lemma MergeIsCommutativeMonoid(a: Usage, b: Usage, c: Usage)
    ensures a.Merge(b) == b.Merge(a)
    ensures a.Merge(b).Merge(c) == a.Merge(b.Merge(c))
    ensures a.Merge(ABSENT) == a
  {
    AddCountsAssociates(a.input, b.input, c.input);
    AddCountsAssociates(a.cacheRead, b.cacheRead, c.cacheRead);
    AddCountsAssociates(a.cacheWrite, b.cacheWrite, c.cacheWrite);
    AddCountsAssociates(a.output, b.output, c.output);
  }

  /** Whether two usages between them report every kind of token. */
  predicate ReportEverything(a: Usage, b: Usage) {
    && (a.input.Some? || b.input.Some?) && (a.cacheRead.Some? || b.cacheRead.Some?)
    && (a.cacheWrite.Some? || b.cacheWrite.Some?) && (a.output.Some? || b.output.Some?)
  }

  /** What a merged usage says of itself: nothing was reported only when neither reported anything, an
      estimate spreads, and short of one it is exact when between them they report everything, even if
      neither does alone. */
  lemma MergeCoverage(a: Usage, b: Usage)
    ensures a.Merge(b).Coverage() == Absent <==> a.Coverage() == Absent && b.Coverage() == Absent
    ensures a.Merge(b).Coverage() == Estimated <==>
            (a.estimated || b.estimated) && !(a.Coverage() == Absent && b.Coverage() == Absent)
    ensures a.Merge(b).Coverage() == Exact <==> !a.estimated && !b.estimated && ReportEverything(a, b)
    ensures a.Coverage() == Exact && !b.estimated ==> a.Merge(b).Coverage() == Exact
  {
  }
}
