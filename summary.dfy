/** The CPA summary of a table of daily records over an inclusive date range:
    the rows in range, their total cost and conversions, the actual cost per
    acquisition, its delta against a target and the over/under percentage. */
module Summary {
  import opened Records

  /** The inclusive window test the row mask applies: both ends belong to
      the window, and an inverted window holds no row. */
  predicate InWindow(r: DailyRecord, start: int, end: int): (b: bool)
    ensures b ==> start <= end
    ensures start <= end && (r.date == start || r.date == end) ==> b
    ensures r.date < start || r.date > end ==> !b
  {
    start <= r.date <= end
  }

  /** The rows whose date lies in [start, end], in table order. */
  function FilterRange(records: seq<DailyRecord>, start: int, end: int): (rows: seq<DailyRecord>)
    ensures |rows| <= |records|
    ensures forall i :: 0 <= i < |rows| ==> InWindow(rows[i], start, end) && rows[i] in records
    ensures forall r :: r in records && InWindow(r, start, end) ==> r in rows
  {
    if records == [] then []
    else if InWindow(records[0], start, end) then [records[0]] + FilterRange(records[1..], start, end)
    else FilterRange(records[1..], start, end)
  }

  /** `sub` can be obtained from `s` by deleting elements. */
  ghost predicate IsSubsequence(sub: seq<DailyRecord>, s: seq<DailyRecord>)
    decreases |s|
  {
    if sub == [] then true
    else if s == [] then false
    else (sub[0] == s[0] && IsSubsequence(sub[1..], s[1..])) || IsSubsequence(sub, s[1..])
  }

  /** Sum of the cost column, 0 for no rows. */
  function TotalCost(rows: seq<DailyRecord>): (total: real)
    ensures |rows| == 0 ==> total == 0.0
  {
    if rows == [] then 0.0 else rows[0].cost + TotalCost(rows[1..])
  }

  /** Sum of the conversions column, 0 for no rows. */
  function TotalConversions(rows: seq<DailyRecord>): (total: int)
    ensures |rows| == 0 ==> total == 0
  {
    if rows == [] then 0 else rows[0].conversions + TotalConversions(rows[1..])
  }

  /** Sum of the cost column over the whole table with rows outside the window
      counted as zero: summing a masked column, the reference definition. */
  function MaskedCost(records: seq<DailyRecord>, start: int, end: int): real {
    if records == [] then 0.0
    else (if InWindow(records[0], start, end) then records[0].cost else 0.0)
         + MaskedCost(records[1..], start, end)
  }

  /** Sum of the conversions column over the whole table with rows outside
      the window counted as zero. */
  function MaskedConversions(records: seq<DailyRecord>, start: int, end: int): int {
    if records == [] then 0
    else (if InWindow(records[0], start, end) then records[0].conversions else 0)
         + MaskedConversions(records[1..], start, end)
  }

  /** What the summary reports. */
  datatype CpaSummary = CpaSummary(
    rows: seq<DailyRecord>,
    totalCost: real,
    totalConversions: int,
    actualCpa: real,
    cpaDelta: real,
    overUnderPct: real)

  /** Cost per conversion, or 0.0 when there are no conversions. */
  function ActualCpa(totalCost: real, totalConversions: int): (cpa: real)
    ensures totalConversions > 0 ==> cpa * (totalConversions as real) == totalCost
    ensures totalConversions <= 0 ==> cpa == 0.0
    ensures totalConversions > 0 && totalCost >= 0.0 ==> cpa >= 0.0
  {
    if totalConversions > 0 then totalCost / (totalConversions as real) else 0.0
  }

  /** The delta as a percentage of the target, or 0.0 when the target is not
      positive. */
  function OverUnderPct(cpaDelta: real, targetCpa: real): (pct: real)
    ensures targetCpa > 0.0 ==> pct * targetCpa == cpaDelta * 100.0
    ensures targetCpa > 0.0 ==> (pct > 0.0 <==> cpaDelta > 0.0) && (pct < 0.0 <==> cpaDelta < 0.0)
    ensures targetCpa <= 0.0 ==> pct == 0.0
  {
    if targetCpa > 0.0 then (cpaDelta / targetCpa) * 100.0 else 0.0
  }

  /** The summary of `records` over [start, end] against `targetCpa`. */
  function BuildSummary(records: seq<DailyRecord>, start: int, end: int, targetCpa: real): (s: CpaSummary)
    ensures s.rows == FilterRange(records, start, end)
    ensures s.totalCost == TotalCost(s.rows) && s.totalConversions == TotalConversions(s.rows)
    ensures s.totalConversions > 0 ==> s.actualCpa * (s.totalConversions as real) == s.totalCost
    ensures s.totalConversions <= 0 ==> s.actualCpa == 0.0 && s.cpaDelta == -targetCpa
    ensures s.actualCpa == targetCpa + s.cpaDelta
    ensures (s.cpaDelta > 0.0 <==> s.actualCpa > targetCpa) && (s.cpaDelta < 0.0 <==> s.actualCpa < targetCpa)
    ensures targetCpa > 0.0 ==> s.overUnderPct * targetCpa == s.cpaDelta * 100.0
    ensures targetCpa > 0.0 ==> (s.overUnderPct > 0.0 <==> s.cpaDelta > 0.0) && (s.overUnderPct < 0.0 <==> s.cpaDelta < 0.0)
    ensures targetCpa <= 0.0 ==> s.overUnderPct == 0.0
  {
    var rows := FilterRange(records, start, end);
    var totalCost := TotalCost(rows);
    var totalConversions := TotalConversions(rows);
    var actualCpa := ActualCpa(totalCost, totalConversions);
    var cpaDelta := actualCpa - targetCpa;
    CpaSummary(rows, totalCost, totalConversions, actualCpa, cpaDelta, OverUnderPct(cpaDelta, targetCpa))
  }

  // ---------------------------------------------------------------------
  // The filtered range

  /** The filtered rows are a copy of part of the table, in table order. */
  lemma {:induction false} FilterIsSubsequence(records: seq<DailyRecord>, start: int, end: int)
    ensures IsSubsequence(FilterRange(records, start, end), records)
  {
    if records != [] {
      FilterIsSubsequence(records[1..], start, end);
      var rest := FilterRange(records[1..], start, end);
      if InWindow(records[0], start, end) {
        assert ([records[0]] + rest)[1..] == rest;
      } else if rest != [] {
        assert IsSubsequence(rest, records[1..]);
      }
    }
  }

  /** Every row is kept exactly as often as it occurs in the table when it is
      in the window, and not at all otherwise. */
  lemma {:induction false} FilterMultiplicity(records: seq<DailyRecord>, start: int, end: int, r: DailyRecord)
    ensures multiset(FilterRange(records, start, end))[r]
            == if InWindow(r, start, end) then multiset(records)[r] else 0
  {
    if records != [] {
      FilterMultiplicity(records[1..], start, end, r);
      assert records == [records[0]] + records[1..];
    }
  }

  /** A table already inside the window comes back unchanged. */
  lemma {:induction false} FilterKeepsEverythingInWindow(records: seq<DailyRecord>, start: int, end: int)
    requires forall i :: 0 <= i < |records| ==> InWindow(records[i], start, end)
    ensures FilterRange(records, start, end) == records
  {
    if records != [] {
      FilterKeepsEverythingInWindow(records[1..], start, end);
      assert records == [records[0]] + records[1..];
    }
  }

  /** A table none of whose rows lies in the window yields no rows. */
  lemma {:induction false} NoRowInWindow(records: seq<DailyRecord>, start: int, end: int)
    requires forall i :: 0 <= i < |records| ==> !InWindow(records[i], start, end)
    ensures FilterRange(records, start, end) == []
  {
    if records != [] {
      assert forall i :: 0 <= i < |records[1..]| ==> records[1..][i] == records[i + 1];
      NoRowInWindow(records[1..], start, end);
    }
  }

  /** An inverted range (start after end) selects nothing. */
  lemma {:induction false} InvertedRangeIsEmpty(records: seq<DailyRecord>, start: int, end: int)
    requires start > end
    ensures FilterRange(records, start, end) == []
  {
    if records != [] {
      InvertedRangeIsEmpty(records[1..], start, end);
    }
  }

  lemma AscendingTail(records: seq<DailyRecord>)
    requires records != [] && StrictlyAscending(records)
    ensures StrictlyAscending(records[1..])
    ensures forall r :: r in records[1..] ==> records[0].date < r.date
  {
    forall i, j | 0 <= i < j < |records[1..]| ensures records[1..][i].date < records[1..][j].date {
      assert records[1..][i] == records[i + 1] && records[1..][j] == records[j + 1];
    }
  }

  lemma PrependAscending(r: DailyRecord, rest: seq<DailyRecord>)
    requires StrictlyAscending(rest)
    requires forall i :: 0 <= i < |rest| ==> r.date < rest[i].date
    ensures StrictlyAscending([r] + rest)
  {
    var rows := [r] + rest;
    forall i, j | 0 <= i < j < |rows| ensures rows[i].date < rows[j].date {
      assert rows[j] == rest[j - 1];
      if i > 0 {
        assert rows[i] == rest[i - 1];
      }
    }
  }

  /** Filtering a table whose dates ascend strictly yields rows whose dates
      ascend strictly. */
  lemma {:induction false} FilterKeepsAscending(records: seq<DailyRecord>, start: int, end: int)
    requires StrictlyAscending(records)
    ensures StrictlyAscending(FilterRange(records, start, end))
  {
    if records != [] {
      AscendingTail(records);
      FilterKeepsAscending(records[1..], start, end);
      if InWindow(records[0], start, end) {
        var rest := FilterRange(records[1..], start, end);
        assert forall i :: 0 <= i < |rest| ==> rest[i] in records[1..];
        PrependAscending(records[0], rest);
      }
    }
  }

  /** Widening the window never drops a row: the rows for [start, end] are a
      sub-multiset of those for any enclosing window. */
  lemma FilterMonotone(records: seq<DailyRecord>, start: int, end: int, start': int, end': int)
    requires start' <= start && end <= end'
    ensures multiset(FilterRange(records, start, end)) <= multiset(FilterRange(records, start', end'))
  {
    forall r ensures multiset(FilterRange(records, start, end))[r] <= multiset(FilterRange(records, start', end'))[r] {
      FilterMultiplicity(records, start, end, r);
      FilterMultiplicity(records, start', end', r);
    }
  }

  // ---------------------------------------------------------------------
  // The column sums

  lemma {:induction false} TotalCostAppend(a: seq<DailyRecord>, b: seq<DailyRecord>)
    ensures TotalCost(a + b) == TotalCost(a) + TotalCost(b)
  {
    if a == [] {
      assert a + b == b;
    } else {
      assert (a + b)[1..] == a[1..] + b;
      TotalCostAppend(a[1..], b);
    }
  }

  lemma {:induction false} TotalConversionsAppend(a: seq<DailyRecord>, b: seq<DailyRecord>)
    ensures TotalConversions(a + b) == TotalConversions(a) + TotalConversions(b)
  {
    if a == [] {
      assert a + b == b;
    } else {
      assert (a + b)[1..] == a[1..] + b;
      TotalConversionsAppend(a[1..], b);
    }
  }

  /** The sums over the filtered rows equal the masked sums over the table. */
  lemma {:induction false} FilteredTotalsAreMaskedTotals(records: seq<DailyRecord>, start: int, end: int)
    ensures TotalCost(FilterRange(records, start, end)) == MaskedCost(records, start, end)
    ensures TotalConversions(FilterRange(records, start, end)) == MaskedConversions(records, start, end)
  {
    if records != [] {
      FilteredTotalsAreMaskedTotals(records[1..], start, end);
      if InWindow(records[0], start, end) {
        var rest := FilterRange(records[1..], start, end);
        assert ([records[0]] + rest)[1..] == rest;
      }
    }
  }

  /** Taking one row out of a table takes its values out of the totals. */
  lemma TotalsWithoutRow(b: seq<DailyRecord>, i: nat)
    requires i < |b|
    ensures TotalCost(b) == b[i].cost + TotalCost(b[..i] + b[i + 1..])
    ensures TotalConversions(b) == b[i].conversions + TotalConversions(b[..i] + b[i + 1..])
  {
    assert b == b[..i] + b[i..];
    assert b[i..][1..] == b[i + 1..];
    TotalCostAppend(b[..i], b[i..]);
    TotalCostAppend(b[..i], b[i + 1..]);
    TotalConversionsAppend(b[..i], b[i..]);
    TotalConversionsAppend(b[..i], b[i + 1..]);
  }

  lemma MultisetWithoutRow(b: seq<DailyRecord>, i: nat)
    requires i < |b|
    ensures multiset(b[..i] + b[i + 1..]) == multiset(b) - multiset{b[i]}
  {
    assert b == b[..i] + [b[i]] + b[i + 1..];
  }

  /** The totals do not depend on the order of the rows. */
  lemma {:induction false} TotalsIgnoreOrder(a: seq<DailyRecord>, b: seq<DailyRecord>)
    requires multiset(a) == multiset(b)
    ensures TotalCost(a) == TotalCost(b) && TotalConversions(a) == TotalConversions(b)
  {
    if a == [] {
      assert |b| == |multiset(b)| == 0;
    } else {
      assert a[0] in multiset(b);
      var i :| 0 <= i < |b| && b[i] == a[0];
      var b' := b[..i] + b[i + 1..];
      MultisetWithoutRow(b, i);
      assert a == [a[0]] + a[1..];
      assert multiset(a[1..]) == multiset(b');
      TotalsIgnoreOrder(a[1..], b');
      TotalsWithoutRow(b, i);
    }
  }

  /** The totals of a table without negative values are not negative. */
  lemma {:induction false} TotalsNonNegative(rows: seq<DailyRecord>)
    requires NonNegative(rows)
    ensures TotalCost(rows) >= 0.0 && TotalConversions(rows) >= 0
  {
    if rows != [] {
      assert NonNegative(rows[1..]) by {
        forall i | 0 <= i < |rows[1..]| ensures rows[1..][i].cost >= 0.0 && rows[1..][i].conversions >= 0 {
          assert rows[1..][i] == rows[i + 1];
        }
      }
      TotalsNonNegative(rows[1..]);
    }
  }

  /** Over a table without negative values, the totals of a range never
      exceed those of the whole table. */
  lemma {:induction false} RangeTotalsBoundedByTable(records: seq<DailyRecord>, start: int, end: int)
    requires NonNegative(records)
    ensures TotalCost(FilterRange(records, start, end)) <= TotalCost(records)
    ensures TotalConversions(FilterRange(records, start, end)) <= TotalConversions(records)
  {
    if records != [] {
      assert NonNegative(records[1..]) by {
        forall i | 0 <= i < |records[1..]| ensures records[1..][i].cost >= 0.0 && records[1..][i].conversions >= 0 {
          assert records[1..][i] == records[i + 1];
        }
      }
      RangeTotalsBoundedByTable(records[1..], start, end);
      if InWindow(records[0], start, end) {
        var rest := FilterRange(records[1..], start, end);
        assert ([records[0]] + rest)[1..] == rest;
      }
    }
  }

  // ---------------------------------------------------------------------
  // The summary as a whole

  /** The summary's figures, computed from the totals of its rows. */
  lemma SummaryFromTotals(records: seq<DailyRecord>, start: int, end: int, targetCpa: real, cost: real, conversions: int)
    requires TotalCost(FilterRange(records, start, end)) == cost
    requires TotalConversions(FilterRange(records, start, end)) == conversions
    ensures var s := BuildSummary(records, start, end, targetCpa);
      s.totalCost == cost && s.totalConversions == conversions
      && s.actualCpa == ActualCpa(cost, conversions)
      && s.cpaDelta == ActualCpa(cost, conversions) - targetCpa
      && s.overUnderPct == OverUnderPct(ActualCpa(cost, conversions) - targetCpa, targetCpa)
  {
  }

  /** Two ranges, of the same table or of different ones, whose rows have
      the same totals get the same CPA, delta and percentage against the same
      target: nothing else about the rows enters the figures. */
  lemma SameTotalsSameFigures(records: seq<DailyRecord>, start: int, end: int,
                              records': seq<DailyRecord>, start': int, end': int, targetCpa: real)
    requires TotalCost(FilterRange(records, start, end)) == TotalCost(FilterRange(records', start', end'))
    requires TotalConversions(FilterRange(records, start, end)) == TotalConversions(FilterRange(records', start', end'))
    ensures var s, s' := BuildSummary(records, start, end, targetCpa), BuildSummary(records', start', end', targetCpa);
      s.totalCost == s'.totalCost && s.totalConversions == s'.totalConversions
      && s.actualCpa == s'.actualCpa && s.cpaDelta == s'.cpaDelta && s.overUnderPct == s'.overUnderPct
  {
    var rows := FilterRange(records, start, end);
    SummaryFromTotals(records, start, end, targetCpa, TotalCost(rows), TotalConversions(rows));
    SummaryFromTotals(records', start', end', targetCpa, TotalCost(rows), TotalConversions(rows));
  }

  /** A range with no rows reports zero totals, an actual CPA of 0.0, a delta
      of minus the target and, for a positive target, -100 percent. */
  lemma EmptyRangeSummary(records: seq<DailyRecord>, start: int, end: int, targetCpa: real)
    requires FilterRange(records, start, end) == []
    ensures var s := BuildSummary(records, start, end, targetCpa);
      s.totalCost == 0.0 && s.totalConversions == 0 && s.actualCpa == 0.0
      && s.cpaDelta == -targetCpa
      && s.overUnderPct == (if targetCpa > 0.0 then -100.0 else 0.0)
  {
    if targetCpa > 0.0 {
      assert (-targetCpa) / targetCpa == -1.0;
    }
  }

  /** Over a table without negative values the reported CPA is not negative,
      whatever the range. */
  lemma SummaryCpaNonNegative(records: seq<DailyRecord>, start: int, end: int, targetCpa: real)
    requires NonNegative(records)
    ensures BuildSummary(records, start, end, targetCpa).actualCpa >= 0.0
  {
    var rows := FilterRange(records, start, end);
    assert NonNegative(rows) by {
      forall i | 0 <= i < |rows| ensures rows[i].cost >= 0.0 && rows[i].conversions >= 0 {
        assert rows[i] in records;
      }
    }
    TotalsNonNegative(rows);
  }
}
