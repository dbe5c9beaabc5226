/** Schedule expansion: expandSchedule and weekdayIndex (main.go:339-376) and
    the day-offset filter of expandScheduleRRULE (extended.go:135-149). */
module Schedules {
  import opened Wrappers
  import opened Numeric
  import opened GoStrings

  /** A recurrence: a tag such as WEEKLY or MONTHLY_2, an anchor weekday, and an
      optional RFC 5545 rule used when the tag is absent. */
  datatype Schedule = Schedule(kind: string, anchor: string, rrule: string)

  const WeekdayNames: seq<string> := ["MON", "TUE", "WED", "THU", "FRI", "SAT", "SUN"]

  /** The switch of weekdayIndex, on the trimmed, upper-cased anchor. */
  function DayNumber(a: string): (r: int)
    ensures 0 <= r < 7
    ensures r == 0 || a == WeekdayNames[r]
  {
    if a == "MON" then 0
    else if a == "TUE" then 1
    else if a == "WED" then 2
    else if a == "THU" then 3
    else if a == "FRI" then 4
    else if a == "SAT" then 5
    else if a == "SUN" then 6
    else 0
  }

  /** weekdayIndex: MON..SUN (trimmed, any case) to 0..6, anything else to 0. */
  function WeekdayIndex(anchor: string): (r: int)
    ensures 0 <= r < 7
  {
    DayNumber(ToUpper(TrimSpace(anchor)))
  }

  /** Each weekday name maps back to its own position. */
  lemma WeekdayNamesRoundTrip()
    ensures forall i :: 0 <= i < 7 ==> DayNumber(WeekdayNames[i]) == i
  {
    assert DayNumber("MON") == 0;
    assert DayNumber("TUE") == 1;
    assert DayNumber("WED") == 2;
    assert DayNumber("THU") == 3;
    assert DayNumber("FRI") == 4;
    assert DayNumber("SAT") == 5;
    assert DayNumber("SUN") == 6;
  }

  /** The branch of expandSchedule a schedule takes. */
  datatype Recurrence = LeftToRRule | Weekly | BiweeklyAC | BiweeklyBD | Monthly(week: int) | Unrecognised

  /** The week of a MONTHLY_<n> tag: clampInt(n-1, 0, 3), where n is what
      Sscanf read from the tag as written, or 0 when the scan failed, and n-1
      is computed in 64-bit arithmetic. */
  function MonthlyWeek(kind: string): (w: int)
    ensures 0 <= w <= 3
  {
    ClampInt(WrapInt64(ScanMonthly(kind).GetOr(0) - 1), 0, 3)
  }

  /** The switch of expandSchedule: the tag matched after upper-casing. */
  function Classify(sch: Schedule): Recurrence {
    if sch.kind == "" && sch.rrule != "" then LeftToRRule
    else
      var t := ToUpper(sch.kind);
      if t == "WEEKLY" then Weekly
      else if t == "BIWEEKLY_AC" then BiweeklyAC
      else if t == "BIWEEKLY_BD" then BiweeklyBD
      else if HasPrefix(t, "MONTHLY_") then Monthly(MonthlyWeek(sch.kind))
      else Unrecognised
  }

  /** Whether the branch keeps day d for anchor index a (d is never negative there). */
  predicate Selects(rec: Recurrence, a: int, d: int) {
    match rec
    case Weekly => d % 7 == a
    case BiweeklyAC => (d / 7 == 0 || d / 7 == 2) && d % 7 == a
    case BiweeklyBD => (d / 7 == 1 || d / 7 == 3) && d % 7 == a
    case Monthly(w) => w * 7 <= d < (w + 1) * 7 && d % 7 == a
    case _ => false
  }

  predicate StrictlyIncreasing(s: seq<int>) {
    forall i, j :: 0 <= i < j < |s| ==> s[i] < s[j]
  }

  /** The days in [0, n) a branch keeps, in ascending order. */
  function SelectedBelow(rec: Recurrence, a: int, n: int): (days: seq<int>)
    ensures StrictlyIncreasing(days)
    ensures forall d :: d in days <==> 0 <= d < n && Selects(rec, a, d)
    decreases n
  {
    if n <= 0 then []
    else
      var prev := SelectedBelow(rec, a, n - 1);
      assert forall i :: 0 <= i < |prev| ==> prev[i] in prev;
      if Selects(rec, a, n - 1) then prev + [n - 1] else prev
  }

  /** What expandSchedule returns. */
  function ScheduleDays(sch: Schedule, cycleDays: int): seq<int> {
    SelectedBelow(Classify(sch), WeekdayIndex(sch.anchor), cycleDays)
  }

  /** Extending the range over days the branch does not keep changes nothing. */
  lemma {:induction false} SelectedBelowStable(rec: Recurrence, a: int, lo: int, hi: int)
    requires lo <= hi
    requires forall d :: lo <= d < hi ==> !Selects(rec, a, d)
    ensures SelectedBelow(rec, a, hi) == SelectedBelow(rec, a, lo)
    decreases hi - lo
  {
    if lo < hi {
      SelectedBelowStable(rec, a, lo, hi - 1);
    }
  }

  /** The WEEKLY loop of expandSchedule (main.go:348). */
  method WeeklyLoop(anchorIdx: int, cycleDays: int) returns (days: seq<int>)
    ensures days == SelectedBelow(Weekly, anchorIdx, cycleDays)
  {
    days := [];
    var d := 0;
    while d < cycleDays
      invariant 0 <= d && (d <= cycleDays || d == 0)
      invariant days == SelectedBelow(Weekly, anchorIdx, d)
    {
      if d % 7 == anchorIdx {
        days := days + [d];
      }
      d := d + 1;
    }
  }

  /** The BIWEEKLY_AC and BIWEEKLY_BD loops of expandSchedule (main.go:350, 352):
      weeks 0 and 2 when firstWeek is 0, weeks 1 and 3 when it is 1. */
  method BiweeklyLoop(firstWeek: int, anchorIdx: int, cycleDays: int) returns (days: seq<int>)
    requires firstWeek == 0 || firstWeek == 1
    ensures days == SelectedBelow(if firstWeek == 0 then BiweeklyAC else BiweeklyBD, anchorIdx, cycleDays)
  {
    ghost var rec := if firstWeek == 0 then BiweeklyAC else BiweeklyBD;
    days := [];
    var d := 0;
    while d < cycleDays
      invariant 0 <= d && (d <= cycleDays || d == 0)
      invariant days == SelectedBelow(rec, anchorIdx, d)
    {
      var w := d / 7;
      if (w == firstWeek || w == firstWeek + 2) && d % 7 == anchorIdx {
        days := days + [d];
      }
      d := d + 1;
    }
  }

  /** The MONTHLY_<n> loop of expandSchedule (main.go:357-359), over one week. */
  method MonthlyLoop(week: int, anchorIdx: int, cycleDays: int) returns (days: seq<int>)
    requires 0 <= week <= 3
    ensures days == SelectedBelow(Monthly(week), anchorIdx, cycleDays)
  {
    ghost var rec := Monthly(week);
    days := [];
    var d := week * 7;
    assert forall x :: 0 <= x < d ==> !Selects(rec, anchorIdx, x);
    SelectedBelowStable(rec, anchorIdx, 0, d);
    while d < (week + 1) * 7 && d < cycleDays
      invariant week * 7 <= d <= (week + 1) * 7
      invariant d == week * 7 || d <= cycleDays
      invariant days == SelectedBelow(rec, anchorIdx, d)
    {
      if d % 7 == anchorIdx {
        days := days + [d];
      }
      d := d + 1;
    }
    if d < cycleDays {
      SelectedBelowStable(rec, anchorIdx, d, cycleDays);
    } else if d > cycleDays {
      SelectedBelowStable(rec, anchorIdx, 0, Max(cycleDays, 0));
    }
  }

  /** expandSchedule: the tag switch, dispatching to the loops above. */
  method ExpandSchedule(sch: Schedule, cycleDays: int) returns (days: seq<int>)
    ensures days == ScheduleDays(sch, cycleDays)
  {
    days := [];
    var anchorIdx := WeekdayIndex(sch.anchor);
    if sch.kind == "" && sch.rrule != "" {
      SelectedBelowStable(LeftToRRule, anchorIdx, 0, Max(cycleDays, 0));
      return;
    }
    var t := ToUpper(sch.kind);
    if t == "WEEKLY" {
      days := WeeklyLoop(anchorIdx, cycleDays);
    } else if t == "BIWEEKLY_AC" {
      days := BiweeklyLoop(0, anchorIdx, cycleDays);
    } else if t == "BIWEEKLY_BD" {
      days := BiweeklyLoop(1, anchorIdx, cycleDays);
    } else if HasPrefix(t, "MONTHLY_") {
      var n := 0;
      match ScanMonthly(sch.kind) {
        case Some(v) => n := v;
        case None =>
      }
      assert n == ScanMonthly(sch.kind).GetOr(0);
      var week := ClampInt(WrapInt64(n - 1), 0, 3);
      assert week == MonthlyWeek(sch.kind);
      days := MonthlyLoop(week, anchorIdx, cycleDays);
    } else {
      SelectedBelowStable(Unrecognised, anchorIdx, 0, Max(cycleDays, 0));
    }
  }

  /** A stretch whose only kept day is its last one appends exactly that day. */
  lemma SelectedBelowStep(rec: Recurrence, a: int, lo: int, hi: int)
    requires 0 <= lo < hi
    requires forall d :: lo <= d < hi - 1 ==> !Selects(rec, a, d)
    requires Selects(rec, a, hi - 1)
    ensures SelectedBelow(rec, a, hi) == SelectedBelow(rec, a, lo) + [hi - 1]
  {
    SelectedBelowStable(rec, a, lo, hi - 1);
  }

  /** Every offset lies in [0, cycleDays), in ascending order, hence without duplicates. */
  lemma ScheduleDaysInCycle(sch: Schedule, cycleDays: int)
    ensures forall d :: d in ScheduleDays(sch, cycleDays) ==> 0 <= d < cycleDays
    ensures StrictlyIncreasing(ScheduleDays(sch, cycleDays))
    ensures forall i, j :: 0 <= i < j < |ScheduleDays(sch, cycleDays)| ==> ScheduleDays(sch, cycleDays)[i] != ScheduleDays(sch, cycleDays)[j]
  {
  }

  /** WEEKLY keeps exactly the anchor weekday of every week of the cycle. */
  lemma WeeklyDays(sch: Schedule, cycleDays: int)
    requires Classify(sch) == Weekly
    ensures forall d :: d in ScheduleDays(sch, cycleDays) <==> 0 <= d < cycleDays && d % 7 == WeekdayIndex(sch.anchor)
  {
  }

  /** BIWEEKLY_AC keeps the anchor weekday of weeks 0 and 2, BIWEEKLY_BD of weeks 1 and 3. */
  lemma BiweeklyDays(sch: Schedule, cycleDays: int)
    requires Classify(sch) == BiweeklyAC || Classify(sch) == BiweeklyBD
    ensures forall d :: d in ScheduleDays(sch, cycleDays) <==>
      && 0 <= d < cycleDays && d % 7 == WeekdayIndex(sch.anchor)
      && (if Classify(sch) == BiweeklyAC then d / 7 == 0 || d / 7 == 2 else d / 7 == 1 || d / 7 == 3)
  {
  }

  /** Within one week, the weekday determines the day. */
  lemma SameWeekSameWeekday(w: int, x: int, y: int)
    requires w * 7 <= x < w * 7 + 7 && w * 7 <= y < w * 7 + 7
    requires x % 7 == y % 7
    ensures x == y
  {
    assert x / 7 == w && y / 7 == w;
  }

  /** An ascending sequence of integers spans at least its length minus one. */
  lemma {:induction false} IncreasingSpan(s: seq<int>)
    requires s != [] && StrictlyIncreasing(s)
    ensures s[|s| - 1] - s[0] >= |s| - 1
  {
    if |s| > 1 {
      IncreasingSpan(s[..|s| - 1]);
      assert s[|s| - 2] < s[|s| - 1];
    }
  }

  lemma MonthlyKeepsOneDay(w: int, a: int, n: int)
    ensures |SelectedBelow(Monthly(w), a, n)| <= 1
  {
    var days := SelectedBelow(Monthly(w), a, n);
    forall i, j | 0 <= i < |days| && 0 <= j < |days| ensures days[i] == days[j] {
      assert days[i] in days && days[j] in days;
      SameWeekSameWeekday(w, days[i], days[j]);
    }
    if days != [] {
      IncreasingSpan(days);
      assert days[|days| - 1] == days[0];
    }
  }

  /** MONTHLY_<n> keeps at most one day, inside week clampInt(n-1, 0, 3). */
  lemma MonthlyAtMostOneDay(sch: Schedule, cycleDays: int, w: int)
    requires Classify(sch) == Monthly(w)
    ensures |ScheduleDays(sch, cycleDays)| <= 1
    ensures forall d :: d in ScheduleDays(sch, cycleDays) ==>
      w * 7 <= d < w * 7 + 7 && d % 7 == WeekdayIndex(sch.anchor)
  {
    MonthlyKeepsOneDay(w, WeekdayIndex(sch.anchor), cycleDays);
  }

  /** An empty tag with a rule, or an unrecognised tag, gives no days. */
  lemma NoTagNoDays(sch: Schedule, cycleDays: int)
    requires (sch.kind == "" && sch.rrule != "") || Classify(sch) == Unrecognised
    ensures ScheduleDays(sch, cycleDays) == []
  {
    SelectedBelowStable(Classify(sch), WeekdayIndex(sch.anchor), 0, Max(cycleDays, 0));
  }

  lemma {:induction false} UpperCharIdempotent(c: char)
    ensures UpperChar(UpperChar(c)) == UpperChar(c)
  {
  }

  /** The WEEKLY and BIWEEKLY tags match in any letter case. */
  lemma TagCaseInsensitive(kind: string, anchor: string, rrule: string)
    requires kind != ""
    requires ToUpper(kind) in ["WEEKLY", "BIWEEKLY_AC", "BIWEEKLY_BD"]
    ensures Classify(Schedule(kind, anchor, rrule)) == Classify(Schedule(ToUpper(kind), anchor, rrule))
  {
    forall i | 0 <= i < |kind| ensures ToUpper(ToUpper(kind))[i] == ToUpper(kind)[i] {
      UpperCharIdempotent(kind[i]);
    }
    assert ToUpper(ToUpper(kind)) == ToUpper(kind);
  }

  lemma UpperMonthlyLower()
    ensures ToUpper("monthly_3") == "MONTHLY_3"
  {
  }

  /** A tag whose upper-case form starts with MONTHLY_ takes the monthly branch. */
  lemma ClassifyMonthlyTag(kind: string, anchor: string, rrule: string)
    requires kind != "" && HasPrefix(ToUpper(kind), "MONTHLY_")
    ensures Classify(Schedule(kind, anchor, rrule)) == Monthly(MonthlyWeek(kind))
  {
    var t := ToUpper(kind);
    assert t[0] == 'M';
    assert t != "WEEKLY" && t != "BIWEEKLY_AC" && t != "BIWEEKLY_BD" by {
      assert "WEEKLY"[0] != 'M' && "BIWEEKLY_AC"[0] != 'M' && "BIWEEKLY_BD"[0] != 'M';
    }
  }

  lemma ClassifyLowerMonthly(anchor: string, rrule: string)
    ensures Classify(Schedule("monthly_3", anchor, rrule)) == Monthly(MonthlyWeek("monthly_3"))
  {
    UpperMonthlyLower();
    assert HasPrefix("MONTHLY_3", "MONTHLY_") by { assert "MONTHLY_3"[..8] == "MONTHLY_"; }
    ClassifyMonthlyTag("monthly_3", anchor, rrule);
  }

  lemma ClassifyUpperMonthly(anchor: string, rrule: string)
    ensures Classify(Schedule("MONTHLY_3", anchor, rrule)) == Monthly(MonthlyWeek("MONTHLY_3"))
  {
    var kind := "MONTHLY_3";
    assert forall i :: 0 <= i < |kind| ==> !('a' <= kind[i] <= 'z') && kind[i] < '\U{0080}';
    ToUpperFixesCapitals(kind);
    assert HasPrefix(kind, "MONTHLY_") by { assert kind[..8] == "MONTHLY_"; }
    ClassifyMonthlyTag(kind, anchor, rrule);
  }

  /** The quirk of expandSchedule: the prefix test upper-cases the tag but
      Sscanf reads it as written, so "monthly_3" takes week 0 while
      "MONTHLY_3" takes week 2. */
  lemma MonthlyCaseQuirk(anchor: string, rrule: string)
    ensures Classify(Schedule("monthly_3", anchor, rrule)) == Monthly(0)
    ensures Classify(Schedule("MONTHLY_3", anchor, rrule)) == Monthly(2)
  {
    ClassifyLowerMonthly(anchor, rrule);
    ClassifyUpperMonthly(anchor, rrule);
    ScanMonthlyLowerCase();
    ScanMonthlyThree();
  }

  /** An anchor that is a weekday name in capitals, without surrounding space, gives its position. */
  lemma AnchorOfName(i: int)
    requires 0 <= i < 7
    ensures WeekdayIndex(WeekdayNames[i]) == i
  {
    var name := WeekdayNames[i];
    TrimSpaceOfTrimmed(name);
    ToUpperFixesCapitals(name);
    WeekdayNamesRoundTrip();
  }

  lemma ClassifyWeekly()
    ensures Classify(Schedule("WEEKLY", "MON", "")) == Weekly
  {
    ToUpperFixesCapitals("WEEKLY");
  }

  lemma ClassifyBiweeklyAC()
    ensures Classify(Schedule("BIWEEKLY_AC", "WED", "")) == BiweeklyAC
  {
    ToUpperFixesCapitals("BIWEEKLY_AC");
  }

  /** WEEKLY from Monday over 28 days: [0, 7, 14, 21]. */
  lemma WeeklyMondayExample()
    ensures ScheduleDays(Schedule("WEEKLY", "MON", ""), 28) == [0, 7, 14, 21]
  {
    AnchorOfName(0);
    ClassifyWeekly();
    WeeklyMondayDays();
  }

  lemma WeeklyMondayDays()
    ensures SelectedBelow(Weekly, 0, 28) == [0, 7, 14, 21]
  {
    WeeklyFourWeeks(0, 28);
  }

  /** WEEKLY over four weeks keeps weekday a of each week. */
  lemma WeeklyFourWeeks(a: int, n: int)
    requires 0 <= a < 7 && n == 28
    ensures SelectedBelow(Weekly, a, n) == [a, a + 7, a + 14, a + 21]
  {
    assert SelectedBelow(Weekly, a, 0) == [];
    WeeklyWeek(a, 0);
    assert SelectedBelow(Weekly, a, 7) == [a];
    WeeklyWeek(a, 7);
    assert SelectedBelow(Weekly, a, 14) == [a] + [a + 7];
    WeeklyWeek(a, 14);
    assert SelectedBelow(Weekly, a, 21) == [a] + [a + 7] + [a + 14];
    WeeklyWeek(a, 21);
    assert SelectedBelow(Weekly, a, 28) == [a] + [a + 7] + [a + 14] + [a + 21];
  }

  /** A WEEKLY branch keeps exactly one day in each whole week, weekday a of it. */
  lemma WeeklyWeek(a: int, base: int)
    requires 0 <= a < 7 && base >= 0 && base % 7 == 0
    ensures SelectedBelow(Weekly, a, base + 7) == SelectedBelow(Weekly, a, base) + [base + a]
  {
    WeekdayInWeek(base);
    WeekWithDay(Weekly, a, base);
  }

  /** A week in which the branch keeps exactly weekday a. */
  lemma WeekWithDay(rec: Recurrence, a: int, base: int)
    requires 0 <= a < 7 && base >= 0
    requires forall d :: base <= d < base + a ==> !Selects(rec, a, d)
    requires Selects(rec, a, base + a)
    requires forall d :: base + a < d < base + 7 ==> !Selects(rec, a, d)
    ensures SelectedBelow(rec, a, base + 7) == SelectedBelow(rec, a, base) + [base + a]
  {
    SelectedBelowStable(rec, a, base, base + a);
    var day := base + a;
    assert SelectedBelow(rec, a, day + 1) == SelectedBelow(rec, a, day) + [day];
    SelectedBelowStable(rec, a, day + 1, base + 7);
  }

  /** Inside a whole week the weekday is the distance from its start, and the week number is that of its start. */
  lemma WeekdayInWeek(base: int)
    requires base >= 0 && base % 7 == 0
    ensures forall d :: base <= d < base + 7 ==> d % 7 == d - base && d / 7 == base / 7
  {
    forall d | base <= d < base + 7 ensures d % 7 == d - base && d / 7 == base / 7 {
      assert d == base + (d - base);
    }
  }

  /** BIWEEKLY_AC from Wednesday over 28 days: [2, 16]. */
  lemma BiweeklyWednesdayExample()
    ensures ScheduleDays(Schedule("BIWEEKLY_AC", "WED", ""), 28) == [2, 16]
  {
    AnchorOfName(2);
    ClassifyBiweeklyAC();
    BiweeklyWednesdayDays();
  }

  lemma BiweeklyWednesdayDays()
    ensures SelectedBelow(BiweeklyAC, 2, 28) == [2, 16]
  {
    BiweeklyACFourWeeks(2, 28);
  }

  /** BIWEEKLY_AC over four weeks keeps weekday a of the first and third weeks. */
  lemma BiweeklyACFourWeeks(a: int, n: int)
    requires 0 <= a < 7 && n == 28
    ensures SelectedBelow(BiweeklyAC, a, n) == [a, a + 14]
  {
    assert SelectedBelow(BiweeklyAC, a, 0) == [];
    WeekdayInWeek(0);
    WeekWithDay(BiweeklyAC, a, 0);
    assert SelectedBelow(BiweeklyAC, a, 7) == [a];
    WeekdayInWeek(7);
    SelectedBelowStable(BiweeklyAC, a, 7, 14);
    WeekdayInWeek(14);
    WeekWithDay(BiweeklyAC, a, 14);
    assert SelectedBelow(BiweeklyAC, a, 21) == [a] + [a + 14];
    WeekdayInWeek(21);
    SelectedBelowStable(BiweeklyAC, a, 21, 28);
  }
}
