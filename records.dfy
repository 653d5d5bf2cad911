/** Daily campaign records and calendar dates.

    A date is kept as its ISO-8601 calendar key year*10000 + month*100 + day
    (2025-11-01 is 20251101), so that comparing two keys as integers compares
    the two dates chronologically, as the date column of the table does. */
module Records {

  /** A calendar date given by its three ISO-8601 fields. */
  datatype CalendarDate = CalendarDate(year: nat, month: nat, day: nat)
  {
    /** Month and day lie in the ranges a calendar date's fields can have.
        This does not check the date against the calendar: 2025-02-31 passes.
        Key order needs only these ranges. */
    predicate FieldsInRange() {
      1 <= month <= 12 && 1 <= day <= 31
    }

    /** The date as an ordered integer key. The key lies strictly inside the
        block of keys of its month, and that block inside the block of its
        year; this is what makes key order chronological. */
    function Key(): (k: int)
      requires FieldsInRange()
      ensures year * 10000 + month * 100 < k < year * 10000 + (month + 1) * 100
      ensures year * 10000 < k < (year + 1) * 10000
    {
      year * 10000 + month * 100 + day
    }

    /** Chronological order: earlier year, else earlier month, else earlier day. */
    predicate Before(other: CalendarDate) {
      year < other.year
      || (year == other.year && month < other.month)
      || (year == other.year && month == other.month && day < other.day)
    }
  }

  /** One row of the table: a day, what was spent on it and how many
      conversions it brought in. */
  datatype DailyRecord = DailyRecord(date: int, cost: real, conversions: int)

  /** The dates of the records ascend strictly (one row per day, in order). */
  predicate StrictlyAscending(records: seq<DailyRecord>) {
    forall i, j :: 0 <= i < j < |records| ==> records[i].date < records[j].date
  }

  /** No record carries a negative cost or a negative conversion count. */
  predicate NonNegative(records: seq<DailyRecord>) {
    forall i :: 0 <= i < |records| ==> records[i].cost >= 0.0 && records[i].conversions >= 0
  }

  /** The key determines the date: its fields can be read back from it. */
  lemma KeyDecodes(d: CalendarDate)
    requires d.FieldsInRange()
    ensures d.Key() % 100 == d.day && (d.Key() / 100) % 100 == d.month && d.Key() / 10000 == d.year
  {
    var k := d.Key();
    assert k == (d.year * 100 + d.month) * 100 + d.day;
    assert k / 100 == d.year * 100 + d.month;
    assert (d.year * 100 + d.month) / 100 == d.year;
  }

  /** Comparing keys compares dates chronologically, in both directions. */
  lemma {:induction false} KeyOrderIsChronological(a: CalendarDate, b: CalendarDate)
    requires a.FieldsInRange() && b.FieldsInRange()
    ensures a.Key() < b.Key() <==> a.Before(b)
    ensures a.Key() == b.Key() <==> a == b
  {
    if a.year < b.year {
      assert (a.year + 1) * 10000 <= b.year * 10000;
    } else if b.year < a.year {
      assert (b.year + 1) * 10000 <= a.year * 10000;
    } else if a.month < b.month {
      assert a.year * 10000 + (a.month + 1) * 100 <= b.year * 10000 + b.month * 100;
    } else if b.month < a.month {
      assert b.year * 10000 + (b.month + 1) * 100 <= a.year * 10000 + a.month * 100;
    }
  }
}
