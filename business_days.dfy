/** The business-day calendar of pandas (`BDay` offsets and `bdate_range`), without holidays, on day
    numbers that count from a Monday: `d % 7` is the weekday, 0 for Monday up to 4 for Friday, and
    5 and 6 are Saturday and Sunday. */
module BusinessDays {

  /** `BDay` counts weekdays only: a business day is neither a Saturday nor a Sunday. */
  function IsBusinessDay(d: int): (b: bool)
    ensures b <==> d % 7 != 5 && d % 7 != 6
  {
    d % 7 < 5
  }

  /** The first business day after d. */
  function NextBusinessDay(d: int): (r: int)
    ensures d < r <= d + 3 && IsBusinessDay(r)
    ensures forall e :: d < e < r ==> !IsBusinessDay(e)
  {
    if IsBusinessDay(d + 1) then d + 1 else if IsBusinessDay(d + 2) then d + 2 else d + 3
  }

  /** `d + BDay(n)`: with n == 0 a weekend day rolls forward to the Monday after and a business day
      stays; with n > 0 the result is the n-th business day after d. */
  function AddBusinessDays(d: int, n: nat): (r: int)
    ensures IsBusinessDay(r) && d <= r
    ensures n > 0 || IsBusinessDay(d) ==> (n == 0 <==> r == d)
    ensures n == 0 ==> forall e :: d <= e < r ==> !IsBusinessDay(e)
    ensures n == 0 && !IsBusinessDay(d) ==> r == NextBusinessDay(d)
    decreases n
  {
    if n == 0 then (if IsBusinessDay(d) then d else NextBusinessDay(d))
    else AddBusinessDays(NextBusinessDay(d), n - 1)
  }

  /** `pd.bdate_range(start, end)`: every business day from start to end inclusive, in ascending order. */
  function BusinessDaysBetween(start: int, end: int): (r: seq<int>)
    ensures forall i, j :: 0 <= i < j < |r| ==> r[i] < r[j]
    ensures forall d :: d in r <==> start <= d <= end && IsBusinessDay(d)
    decreases end - start
  {
    if start > end then []
    else
      var rest := BusinessDaysBetween(start + 1, end);
      assert forall k :: 0 <= k < |rest| ==> rest[k] in rest;
      if IsBusinessDay(start) then [start] + rest else rest
  }

  /** Cutting a business-day range after m gives the range up to m followed by the range after m. */
  lemma {:induction false} BetweenSplit(start: int, m: int, end: int)
    requires start <= m + 1 && m <= end
    ensures BusinessDaysBetween(start, end) == BusinessDaysBetween(start, m) + BusinessDaysBetween(m + 1, end)
    decreases m - start
  {
    if start <= m {
      BetweenSplit(start + 1, m, end);
    }
  }

  /** From the day after d up to `d + BDay(n)` lie exactly the n business days after d, for n >= 1,
      whatever weekday d is. */
  lemma {:induction false} BusinessDaysAfter(d: int, n: nat)
    requires n >= 1
    ensures |BusinessDaysBetween(d + 1, AddBusinessDays(d, n))| == n
    decreases n
  {
    var e := NextBusinessDay(d);
    var end := AddBusinessDays(e, n - 1);
    StepAfter(d, end);
    if n > 1 {
      BusinessDaysAfter(e, n - 1);
    }
  }

  /** Helper: the range after d starts with the next business day. */
  lemma StepAfter(d: int, end: int)
    requires NextBusinessDay(d) <= end
    ensures BusinessDaysBetween(d + 1, end) ==
            [NextBusinessDay(d)] + BusinessDaysBetween(NextBusinessDay(d) + 1, end)
  {
    var e := NextBusinessDay(d);
    BetweenSplit(d + 1, e - 1, end);
    NoBusinessDays(d + 1, e - 1);
  }

  /** Helper: a stretch without business days gives an empty range. */
  lemma {:induction false} NoBusinessDays(start: int, end: int)
    requires forall x :: start <= x <= end ==> !IsBusinessDay(x)
    ensures BusinessDaysBetween(start, end) == []
    decreases end - start
  {
    if start <= end {
      NoBusinessDays(start + 1, end);
    }
  }

  /** `pd.bdate_range(first, last + BDay(n))` for n >= 1 and first <= last: the business days from
      first to last, then exactly n more, all after last. */
  lemma ExtendedRange(first: int, last: int, n: nat)
    requires first <= last && n >= 1
    ensures var r := BusinessDaysBetween(first, AddBusinessDays(last, n));
      |r| >= n && r[..|r| - n] == BusinessDaysBetween(first, last) &&
      (forall i :: 0 <= i < |r| - n ==> r[i] <= last) &&
      (forall i :: |r| - n <= i < |r| ==> last < r[i])
  {
    var end := AddBusinessDays(last, n);
    BetweenSplit(first, last, end);
    BusinessDaysAfter(last, n);
    ConcatBounds(BusinessDaysBetween(first, last), BusinessDaysBetween(last + 1, end), last);
  }

  /** Helper: in before + after, with everything of before at most m and everything of after above m,
      the positions split at |before|. */
  lemma ConcatBounds(before: seq<int>, after: seq<int>, m: int)
    requires forall d :: d in before ==> d <= m
    requires forall d :: d in after ==> m < d
    ensures var r := before + after;
      r[..|before|] == before &&
      (forall i :: 0 <= i < |before| ==> r[i] <= m) &&
      (forall i :: |before| <= i < |r| ==> m < r[i])
  {
    var r := before + after;
    forall i | 0 <= i < |before| ensures r[i] <= m {
      assert r[i] == before[i] && before[i] in before;
    }
    forall i | |before| <= i < |r| ensures m < r[i] {
      assert r[i] == after[i - |before|] && after[i - |before|] in after;
    }
  }
}
