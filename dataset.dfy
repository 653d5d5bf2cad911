/** The fixed table of November 2025 and the scenarios it gives. */
module Dataset {
  import opened Records
  import opened Summary
  import opened Insight

  /** The cost column, one entry per day. */
  const Costs: seq<real> := [
    403.0, 431.0, 263.0, 311.0, 548.0,
    371.0, 445.0, 729.0, 948.0, 796.0,
    646.0, 789.0, 182.0, 955.0, 251.0,
    669.0, 523.0, 608.0, 463.0, 629.0,
    967.0, 139.0, 171.0, 885.0, 554.0,
    520.0, 301.0, 721.0, 908.0, 579.0
  ]

  /** The conversions column, one entry per day. */
  const Conversions: seq<int> := [
    46, 46, 97, 87, 97,
    76, 90, 20, 65, 83,
    35, 69, 14, 25, 69,
    16, 17, 12, 53, 75,
    96, 58, 79, 80, 92,
    21, 72, 15, 22, 38
  ]

  /** The table: row i is day i + 1 of November 2025 with its cost and
      conversions. */
  function LoadData(): (rows: seq<DailyRecord>)
    ensures |rows| == 30
    ensures forall i :: 0 <= i < 30 ==> rows[i] == DailyRecord(20251101 + i, Costs[i], Conversions[i])
  {
    seq(30, i requires 0 <= i < 30 => DailyRecord(20251101 + i, Costs[i], Conversions[i]))
  }

  /** One row per day from 2025-11-01 to 2025-11-30, in order, with no
      negative value. */
  lemma DatasetShape()
    ensures StrictlyAscending(LoadData()) && NonNegative(LoadData())
    ensures forall i :: 0 <= i < 30 ==> LoadData()[i].date == CalendarDate(2025, 11, i + 1).Key()
  {
    var rows := LoadData();
    forall i | 0 <= i < 30 ensures rows[i].cost >= 0.0 && rows[i].conversions >= 0 {
      assert Costs[i] in Costs && Conversions[i] in Conversions;
    }
  }

  /** The default range of the date picker, from the first to the last date,
      selects the whole table. */
  lemma FullMonthSelectsEverything()
    ensures FilterRange(LoadData(), 20251101, 20251130) == LoadData()
  {
    DatasetShape();
    FilterKeepsEverythingInWindow(LoadData(), 20251101, 20251130);
  }

  /** Cost and conversions over the whole month. */
  lemma MonthTotals()
    ensures TotalCost(LoadData()) == 16705.0 && TotalConversions(LoadData()) == 1665
  {
    var rows := LoadData();
    ThirtyRowTotals(rows);
    assert rows[0].cost + rows[1].cost + rows[2].cost + rows[3].cost + rows[4].cost == 1956.0;
    assert rows[5].cost + rows[6].cost + rows[7].cost + rows[8].cost + rows[9].cost == 3289.0;
    assert rows[10].cost + rows[11].cost + rows[12].cost + rows[13].cost + rows[14].cost == 2823.0;
    assert rows[15].cost + rows[16].cost + rows[17].cost + rows[18].cost + rows[19].cost == 2892.0;
    assert rows[20].cost + rows[21].cost + rows[22].cost + rows[23].cost + rows[24].cost == 2716.0;
    assert rows[25].cost + rows[26].cost + rows[27].cost + rows[28].cost + rows[29].cost == 3029.0;
    assert rows[0].conversions + rows[1].conversions + rows[2].conversions + rows[3].conversions + rows[4].conversions == 373;
    assert rows[5].conversions + rows[6].conversions + rows[7].conversions + rows[8].conversions + rows[9].conversions == 334;
    assert rows[10].conversions + rows[11].conversions + rows[12].conversions + rows[13].conversions + rows[14].conversions == 212;
    assert rows[15].conversions + rows[16].conversions + rows[17].conversions + rows[18].conversions + rows[19].conversions == 173;
    assert rows[20].conversions + rows[21].conversions + rows[22].conversions + rows[23].conversions + rows[24].conversions == 405;
    assert rows[25].conversions + rows[26].conversions + rows[27].conversions + rows[28].conversions + rows[29].conversions == 168;
  }

  /** The sum of the cost column over the five rows from k. */
  function BlockCost(rows: seq<DailyRecord>, k: nat): real
    requires k + 5 <= |rows|
  {
    rows[k].cost + rows[k + 1].cost + rows[k + 2].cost + rows[k + 3].cost + rows[k + 4].cost
  }

  /** The sum of the conversions column over the five rows from k. */
  function BlockConversions(rows: seq<DailyRecord>, k: nat): int
    requires k + 5 <= |rows|
  {
    rows[k].conversions + rows[k + 1].conversions + rows[k + 2].conversions
    + rows[k + 3].conversions + rows[k + 4].conversions
  }

  /** The totals of any thirty rows, as the sums of their six blocks of five. */
  lemma ThirtyRowTotals(rows: seq<DailyRecord>)
    requires |rows| == 30
    ensures TotalCost(rows) == BlockCost(rows, 0) + BlockCost(rows, 5) + BlockCost(rows, 10)
                               + BlockCost(rows, 15) + BlockCost(rows, 20) + BlockCost(rows, 25)
    ensures TotalConversions(rows) == BlockConversions(rows, 0) + BlockConversions(rows, 5) + BlockConversions(rows, 10)
                                      + BlockConversions(rows, 15) + BlockConversions(rows, 20) + BlockConversions(rows, 25)
  {
    assert rows[..0] == [];
    TenRowTotals(rows, 0);
    TenRowTotals(rows, 10);
    TenRowTotals(rows, 20);
    assert rows[..30] == rows;
  }

  /** The first k + 10 rows total the first k rows plus the next two blocks. */
  lemma TenRowTotals(rows: seq<DailyRecord>, k: nat)
    requires k + 10 <= |rows|
    ensures TotalCost(rows[..k + 10]) == TotalCost(rows[..k]) + BlockCost(rows, k) + BlockCost(rows, k + 5)
    ensures TotalConversions(rows[..k + 10])
         == TotalConversions(rows[..k]) + BlockConversions(rows, k) + BlockConversions(rows, k + 5)
  {
    PrefixTotals(rows, k);
    PrefixTotals(rows, k + 5);
  }

  /** The first k + 5 rows total the first k rows plus the next block. */
  lemma PrefixTotals(rows: seq<DailyRecord>, k: nat)
    requires k + 5 <= |rows|
    ensures TotalCost(rows[..k + 5]) == TotalCost(rows[..k]) + BlockCost(rows, k)
    ensures TotalConversions(rows[..k + 5]) == TotalConversions(rows[..k]) + BlockConversions(rows, k)
  {
    assert rows[..k + 5] == rows[..k] + rows[k..k + 5];
    TotalCostAppend(rows[..k], rows[k..k + 5]);
    TotalConversionsAppend(rows[..k], rows[k..k + 5]);
    FiveRowTotals(rows[k..k + 5]);
  }

  /** The totals of five rows, written out. */
  lemma FiveRowTotals(b: seq<DailyRecord>)
    requires |b| == 5
    ensures TotalCost(b) == b[0].cost + b[1].cost + b[2].cost + b[3].cost + b[4].cost
    ensures TotalConversions(b) == b[0].conversions + b[1].conversions + b[2].conversions
                                   + b[3].conversions + b[4].conversions
  {
    var b1 := b[1..];
    var b2 := b1[1..];
    var b3 := b2[1..];
    var b4 := b3[1..];
    assert b4[1..] == [];
    assert TotalCost(b4) == b[4].cost && TotalConversions(b4) == b[4].conversions;
    assert TotalCost(b3) == b[3].cost + TotalCost(b4) && TotalConversions(b3) == b[3].conversions + TotalConversions(b4);
    assert TotalCost(b2) == b[2].cost + TotalCost(b3) && TotalConversions(b2) == b[2].conversions + TotalConversions(b3);
    assert TotalCost(b1) == b[1].cost + TotalCost(b2) && TotalConversions(b1) == b[1].conversions + TotalConversions(b2);
  }

  /** Over the whole month against a target of 5.0: the CPA is 16705/1665,
      5.578... above target, which reads as running hot. */
  lemma FullMonthScenario()
    ensures var s := BuildSummary(LoadData(), 20251101, 20251130, 5.0);
      s.rows == LoadData()
      && s.totalCost == 16705.0 && s.totalConversions == 1665
      && s.actualCpa == 16705.0 / 1665.0
      && s.cpaDelta == 16705.0 / 1665.0 - 5.0
      && s.overUnderPct == (16705.0 / 1665.0 - 5.0) / 5.0 * 100.0
      && Classify(5.0, s.cpaDelta) == Verdict(Above, Bad)
      && LeadFor(Classify(5.0, s.cpaDelta).tone) == RunningHot
  {
    FullMonthSelectsEverything();
    MonthTotals();
    SummaryFromTotals(LoadData(), 20251101, 20251130, 5.0, 16705.0, 1665);
    assert ActualCpa(16705.0, 1665) == 16705.0 / 1665.0;
  }

  /** Over the whole month against a target of 5.0 the CPA is over target, so
      the Actual-CPA card is meant to show the bad accent; as computed, its
      flag is a numpy boolean and the card shows the muted colour instead. */
  lemma FullMonthCardIsMuted()
    ensures var s := BuildSummary(LoadData(), 20251101, 20251130, 5.0);
      s.cpaDelta > 0.0
      && IntendedCardColour(s.cpaDelta) == AccentBad
      && CardColour(ActualCpaCard(s.totalConversions, s.cpaDelta).good) == TextMuted
  {
    FullMonthScenario();
    ActualCpaCardColour(1665, 16705.0 / 1665.0 - 5.0);
  }

  /** The window of the single day 2025-11-01 holds the first row only. */
  lemma FirstDayRows()
    ensures FilterRange(LoadData(), 20251101, 20251101) == [DailyRecord(20251101, 403.0, 46)]
  {
    var rows := LoadData();
    assert rows == [rows[0]] + rows[1..];
    assert forall i :: 0 <= i < |rows[1..]| ==> rows[1..][i].date > 20251101 by {
      forall i | 0 <= i < |rows[1..]| ensures rows[1..][i].date > 20251101 {
        assert rows[1..][i] == rows[i + 1];
      }
    }
    NoRowInWindow(rows[1..], 20251101, 20251101);
  }

  /** The single day 2025-11-01 against a target of 5.0: 403 spent for 46
      conversions, 1730/23 percent (about 75.2) above target. */
  lemma FirstDayScenario()
    ensures var s := BuildSummary(LoadData(), 20251101, 20251101, 5.0);
      s.rows == [DailyRecord(20251101, 403.0, 46)]
      && s.totalCost == 403.0 && s.totalConversions == 46
      && s.actualCpa == 403.0 / 46.0
      && s.overUnderPct == 1730.0 / 23.0
      && Classify(5.0, s.cpaDelta) == Verdict(Above, Bad)
  {
    FirstDayRows();
    var rows := [DailyRecord(20251101, 403.0, 46)];
    assert TotalCost(rows) == 403.0 && TotalConversions(rows) == 46;
    assert ActualCpa(403.0, 46) - 5.0 == 173.0 / 46.0;
    assert OverUnderPct(173.0 / 46.0, 5.0) == 1730.0 / 23.0;
  }

  /** A day outside the table, 2025-12-01 against a target of 5.0: nothing
      in range, a CPA of 0.0, a delta of -5.0 and -100 percent, which the
      panel reads as beating the target. */
  lemma DayOutsideTableScenario()
    ensures var s := BuildSummary(LoadData(), 20251201, 20251201, 5.0);
      s.rows == [] && s.totalCost == 0.0 && s.totalConversions == 0
      && s.actualCpa == 0.0 && s.cpaDelta == -5.0 && s.overUnderPct == -100.0
      && Classify(5.0, s.cpaDelta) == Verdict(Below, Good)
      && LeadFor(Classify(5.0, s.cpaDelta).tone) == BeatingTarget
  {
    DatasetShape();
    assert FilterRange(LoadData(), 20251201, 20251201) == [] by {
      NoRowInWindow(LoadData(), 20251201, 20251201);
    }
    EmptyRangeSummary(LoadData(), 20251201, 20251201, 5.0);
  }

  /** A zero target over the whole month: the CPA is still reported, the
      delta equals it, the percentage is 0.0 and the direction is n/a. */
  lemma ZeroTargetScenario()
    ensures var s := BuildSummary(LoadData(), 20251101, 20251130, 0.0);
      s.actualCpa == 16705.0 / 1665.0 && s.cpaDelta == s.actualCpa && s.overUnderPct == 0.0
      && Classify(0.0, s.cpaDelta) == Verdict(NotApplicable, Neutral)
  {
    FullMonthSelectsEverything();
    MonthTotals();
    SummaryFromTotals(LoadData(), 20251101, 20251130, 0.0, 16705.0, 1665);
  }
}
