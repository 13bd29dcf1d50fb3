/** Working-day arithmetic on calendar days, counted as proleptic ordinals. */
module Terms {
  import opened Common

  datatype Rules = Rules(weekdays: set<int>, holidays: set<int>)

  /** Monday is 0; ordinal 1 is a Monday. */
  function Weekday(day: int): int { (day + 6) % 7 }

  /** Every day has one weekday from 0 to 6, the next day has the next one, and the first of January
      1970, ordinal 719163, was a Thursday, 3. */
  lemma WeekdayIs(day: int)
    ensures 0 <= Weekday(day) <= 6 && Weekday(day + 1) == (if Weekday(day) == 6 then 0 else Weekday(day) + 1)
    ensures Weekday(719_163) == 3
  {}

  /** The weekday validator: distinct days from 0 to 6, at least one. */
  function ParseWeekdays(value: seq<int>): (w: Option<set<int>>)
    ensures w.Some? <==>
              value != [] && (forall i :: 0 <= i < |value| ==> 0 <= value[i] <= 6)
              && (forall i, j :: 0 <= i < j < |value| ==> value[i] != value[j])
    ensures w.Some? ==> value[0] in w.value && (forall d :: d in w.value <==> d in value)
  {
    if value == [] || (exists i :: 0 <= i < |value| && (value[i] < 0 || value[i] > 6))
       || (exists i, j :: 0 <= i < j < |value| && value[i] == value[j]) then None
    else
      Some(set d | d in value)
  }

  ghost predicate IsValid(r: Rules) {
    (exists d :: d in r.weekdays) && (forall d :: d in r.weekdays ==> 0 <= d <= 6)
  }

  predicate IsWorking(day: int, r: Rules) { Weekday(day) in r.weekdays && day !in r.holidays }

  /** Working days after `from`, up to and including `to`. */
  function Count(from: int, to: int, r: Rules): nat
    decreases to - from
  {
    if to <= from then 0 else Count(from, to - 1, r) + (if IsWorking(to, r) then 1 else 0)
  }

  /** The days after `from`, up to and including `to`, of an allowed weekday and no holiday. */
  function WorkingDays(from: int, to: int, r: Rules): set<int> {
    set d: int | from < d <= to && Weekday(d) in r.weekdays && d !in r.holidays
  }

  lemma {:induction false} CountIsNumber(from: int, to: int, r: Rules)
    ensures Count(from, to, r) == |WorkingDays(from, to, r)|
    decreases if to <= from then 0 else to - from
  {
    if to <= from {
      assert WorkingDays(from, to, r) == {};
    } else {
      CountIsNumber(from, to - 1, r);
      var before := WorkingDays(from, to - 1, r);
      assert WorkingDays(from, to, r) == if IsWorking(to, r) then before + {to} else before;
    }
  }

  lemma {:induction false} CountSplits(a: int, b: int, c: int, r: Rules)
    requires a <= b <= c
    ensures Count(a, c, r) == Count(a, b, r) + Count(b, c, r)
    decreases c - b
  {
    if b < c { CountSplits(a, b, c - 1, r); }
  }

  // ---------------------------------------------------------------- there is always a next working day

  function CountWeekdays(from: int, to: int, r: Rules): nat
    decreases to - from
  {
    if to <= from then 0 else CountWeekdays(from, to - 1, r) + (if Weekday(to) in r.weekdays then 1 else 0)
  }

  lemma {:induction false} WeekdaysSplit(a: int, b: int, c: int, r: Rules)
    requires a <= b <= c
    ensures CountWeekdays(a, c, r) == CountWeekdays(a, b, r) + CountWeekdays(b, c, r)
    decreases c - b
  {
    if b < c { WeekdaysSplit(a, b, c - 1, r); }
  }

  lemma WeekHasWeekday(from: int, r: Rules)
    requires IsValid(r)
    ensures CountWeekdays(from, from + 7, r) >= 1
  {
    var w :| w in r.weekdays;
    var day := from + 1 + (w - Weekday(from + 1)) % 7;
    assert from < day <= from + 7 && Weekday(day) == w;
    WeekdaysSplit(from, day, from + 7, r);
    assert CountWeekdays(from, day, r) >= 1;
  }

  lemma {:induction false} WeeksHaveWeekdays(from: int, n: nat, r: Rules)
    requires IsValid(r)
    ensures CountWeekdays(from, from + 7 * n, r) >= n
  {
    if n > 0 {
      WeeksHaveWeekdays(from, n - 1, r);
      WeekHasWeekday(from + 7 * (n - 1), r);
      WeekdaysSplit(from, from + 7 * (n - 1), from + 7 * n, r);
    }
  }

  function HolidaysIn(from: int, to: int, r: Rules): set<int> {
    set h | h in r.holidays && from < h <= to
  }

  /** Each holiday takes away at most one weekday. */
  lemma {:induction false} HolidaysCost(from: int, n: nat, r: Rules)
    ensures CountWeekdays(from, from + n, r) <= Count(from, from + n, r) + |HolidaysIn(from, from + n, r)|
  {
    if n > 0 {
      HolidaysCost(from, n - 1, r);
      HolidayAdds(from, from + n, r);
    }
  }

  lemma HolidayAdds(from: int, to: int, r: Rules)
    requires from < to
    ensures |HolidaysIn(from, to, r)| == |HolidaysIn(from, to - 1, r)| + (if to in r.holidays then 1 else 0)
  {
    var before := HolidaysIn(from, to - 1, r);
    assert HolidaysIn(from, to, r) == if to in r.holidays then before + {to} else before;
  }

  /** So many calendar days always hold the wanted number of working days. */
  lemma EnoughDays(from: int, days: nat, r: Rules)
    requires IsValid(r)
    ensures Count(from, from + 7 * (days + |r.holidays|), r) >= days
  {
    var n := days + |r.holidays|;
    WeeksHaveWeekdays(from, n, r);
    HolidaysCost(from, 7 * n, r);
    SubsetSize(HolidaysIn(from, from + 7 * n, r), r.holidays);
  }

  // ---------------------------------------------------------------- adding working days

  /** `to` is the day on which the wanted number of working days has passed: the least one. */
  ghost predicate IsSum(from: int, days: nat, r: Rules, to: int) {
    && from <= to && Count(from, to, r) == days
    && (forall day :: from <= day < to ==> Count(from, day, r) < days)
  }

  /** For any non-empty set of weekdays the loop ends within a week for every wanted day and
      every holiday, and returns the least day with exactly that many working days behind it. */
  method AddWorkingDays(from: int, days: int, r: Rules) returns (to: Option<int>)
    requires IsValid(r)
    ensures to.None? <==> days < 0
    ensures to.Some? ==> IsSum(from, days, r, to.value) && to.value <= from + 7 * (days + |r.holidays|)
    ensures to.Some? && days > 0 ==> IsWorking(to.value, r)
  {
    if days < 0 { return None; }
    if days == 0 { return Some(from); }
    var current, remaining := from, days;
    ghost var bound := from + 7 * (days + |r.holidays|);
    EnoughDays(from, days, r);
    while remaining != 0
      invariant 0 <= remaining <= days && from <= current <= bound
      invariant Count(from, current, r) == days - remaining
      invariant forall day :: from <= day < current ==> Count(from, day, r) < days
      invariant remaining == 0 ==> IsWorking(current, r)
      decreases bound - current
    {
      if current == bound { assert false; }
      current := current + 1;
      if Weekday(current) in r.weekdays && current !in r.holidays {
        remaining := remaining - 1;
      }
    }
    return Some(current);
  }

  /** There is only one such day. */
  lemma SumIsUnique(from: int, days: nat, r: Rules, a: int, b: int)
    requires IsSum(from, days, r, a) && IsSum(from, days, r, b)
    ensures a == b
  {}

  /** Adding one number of working days and then another is adding both at once. */
  lemma SumsCompose(from: int, a: nat, b: nat, r: Rules, mid: int, to: int)
    requires IsSum(from, a, r, mid) && IsSum(mid, b, r, to)
    ensures IsSum(from, a + b, r, to)
  {
    CountSplits(from, mid, to, r);
    forall day | from <= day < to ensures Count(from, day, r) < a + b {
      if day < mid { } else { CountSplits(from, mid, day, r); }
    }
  }

  /** More working days never end earlier. */
  lemma SumsGrow(from: int, a: nat, b: nat, r: Rules, x: int, y: int)
    requires IsSum(from, a, r, x) && IsSum(from, b, r, y) && a < b
    ensures x < y
  {
    if y <= x { CountSplits(from, y, x, r); }
  }
}
