/** The RRULE fallback of schedule expansion (extended.go:135-149) and the
    "tag first, rule second" choice of active days that buildEmbedding,
    heatmapFor, buildVroom and naiveSim share. */
module Recurrence {
  import opened Wrappers
  import opened Numeric
  import opened GoStrings
  import opened Schedules

  /** The rule library: given a rule text and a cycle length, the occurrences
      between the start of the current day and cycleDays days later (both
      ends included), each as the number of hours after that start; None
      when the text does not parse. */
  type Occurrences = (string, int) -> Option<seq<real>>

  /** int(hours/24 + 0.00001): Go's float-to-int conversion truncates toward zero. */
  function OffsetDay(hours: real): (d: int)
    ensures 0.0 <= hours ==> 0 <= d && d as real <= hours / 24.0 + 0.00001 < d as real + 1.0
    ensures hours < -0.00024 ==> d <= 0
  {
    TruncToInt(hours / 24.0 + 0.00001)
  }

  /** The offsets of the occurrences, in occurrence order, that fall in [0, cycleDays). */
  function DaysInCycle(hours: seq<real>, cycleDays: int): (days: seq<int>)
    ensures |days| <= |hours|
    ensures forall d :: d in days ==> 0 <= d < cycleDays
    ensures forall i :: 0 <= i < |hours| && 0 <= OffsetDay(hours[i]) < cycleDays ==> OffsetDay(hours[i]) in days
    ensures forall d :: d in days ==> exists i :: 0 <= i < |hours| && OffsetDay(hours[i]) == d
  {
    if hours == [] then []
    else
      var prev := DaysInCycle(hours[..|hours| - 1], cycleDays);
      var d := OffsetDay(hours[|hours| - 1]);
      assert forall i :: 0 <= i < |hours| - 1 ==> hours[..|hours| - 1][i] == hours[i];
      if 0 <= d < cycleDays then prev + [d] else prev
  }

  /** expandScheduleRRULE: nothing for a blank rule or one that does not
      parse, otherwise the occurrence offsets inside the cycle. */
  function RRuleDays(sch: Schedule, cycleDays: int, occ: Occurrences): seq<int> {
    if TrimSpace(sch.rrule) == [] then []
    else match occ(sch.rrule, cycleDays)
      case None => []
      case Some(hours) => DaysInCycle(hours, cycleDays)
  }

  /** The loop of expandScheduleRRULE over the occurrences. */
  method ExpandScheduleRRule(sch: Schedule, cycleDays: int, occ: Occurrences) returns (days: seq<int>)
    ensures days == RRuleDays(sch, cycleDays, occ)
  {
    days := [];
    if TrimSpace(sch.rrule) == [] {
      return;
    }
    var parsed := occ(sch.rrule, cycleDays);
    if parsed.None? {
      return;
    }
    var hours := parsed.value;
    var k := 0;
    while k < |hours|
      invariant 0 <= k <= |hours|
      invariant days == DaysInCycle(hours[..k], cycleDays)
    {
      var d := OffsetDay(hours[k]);
      if 0 <= d && d < cycleDays {
        days := days + [d];
      }
      assert hours[..k + 1][..k] == hours[..k];
      k := k + 1;
    }
    assert hours[..k] == hours;
  }

  /** The blank-rule and parse-failure paths give no days; every day kept lies in the cycle. */
  lemma RRuleDaysBounds(sch: Schedule, cycleDays: int, occ: Occurrences)
    ensures TrimSpace(sch.rrule) == [] ==> RRuleDays(sch, cycleDays, occ) == []
    ensures occ(sch.rrule, cycleDays).None? ==> RRuleDays(sch, cycleDays, occ) == []
    ensures forall d :: d in RRuleDays(sch, cycleDays, occ) ==> 0 <= d < cycleDays
  {
  }

  /** A rule of only white space counts as blank. */
  lemma BlankRule(sch: Schedule, cycleDays: int, occ: Occurrences)
    requires !HasNonSpace(sch.rrule)
    ensures RRuleDays(sch, cycleDays, occ) == []
  {
    TrimSpaceEmptyIff(sch.rrule);
  }

  /** The days of an account: the tag's days, or the rule's days when the tag gives none. */
  function ActiveDays(sch: Schedule, cycleDays: int, occ: Occurrences): seq<int> {
    var ds := ScheduleDays(sch, cycleDays);
    if |ds| == 0 then RRuleDays(sch, cycleDays, occ) else ds
  }

  lemma ActiveDaysInCycle(sch: Schedule, cycleDays: int, occ: Occurrences)
    ensures forall d :: d in ActiveDays(sch, cycleDays, occ) ==> 0 <= d < cycleDays
    ensures ScheduleDays(sch, cycleDays) != [] ==> ActiveDays(sch, cycleDays, occ) == ScheduleDays(sch, cycleDays)
  {
    ScheduleDaysInCycle(sch, cycleDays);
    RRuleDaysBounds(sch, cycleDays, occ);
  }

  /** The prologue of buildEmbedding, heatmapFor and buildVroom: expand the tag
      and, when that gives nothing, take the rule's days if there are any.
      naiveSim writes this as an unconditional fallback; both give ActiveDays. */
  method ActiveDaysOf(sch: Schedule, cycleDays: int, occ: Occurrences) returns (days: seq<int>)
    ensures days == ActiveDays(sch, cycleDays, occ)
  {
    days := ExpandSchedule(sch, cycleDays);
    if |days| == 0 {
      var more := ExpandScheduleRRule(sch, cycleDays, occ);
      if |more| > 0 {
        days := more;
      }
    }
  }

  /** The "for _, d := range days { if d == day { ...; break } }" membership test. */
  method ContainsDay(days: seq<int>, day: int) returns (found: bool)
    ensures found <==> day in days
  {
    found := false;
    var k := 0;
    while k < |days|
      invariant 0 <= k <= |days|
      invariant day !in days[..k]
    {
      if days[k] == day {
        found := true;
        return;
      }
      assert days[..k + 1] == days[..k] + [days[k]];
      k := k + 1;
    }
    assert days[..k] == days;
  }
}
