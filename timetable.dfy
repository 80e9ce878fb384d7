/**
 * The weekly timetable shared by the public preview page and the admin
 * timetable page: the weekday list, the comparator handed to
 * `Array.prototype.sort`, the in-place sort itself, the seven day buckets
 * and the course-title lookup.
 */
module Timetable {
  import opened Types
  import StringOrder

  /** The data of a timetable entry without its id, as the form submits it. */
  datatype TimetableDraft = TimetableDraft(
    courseId: int,
    dayOfWeek: string,
    startTime: string,
    endTime: string)

  /** `daysOfWeek`, in the order the comparator ranks them. */
  const DaysOfWeek: seq<string> :=
    ["Monday", "Tuesday", "Wednesday", "Thursday", "Friday", "Saturday", "Sunday"]

  lemma DaysDistinct()
    ensures |DaysOfWeek| == 7
    ensures forall i, j :: 0 <= i < j < |DaysOfWeek| ==> DaysOfWeek[i] != DaysOfWeek[j]
  {
  }

  /** `daysOfWeek.indexOf(day)`: the first position of `day`, or -1. */
  function DayIndex(day: string): (k: int)
    ensures -1 <= k < |DaysOfWeek|
    ensures k == -1 <==> day !in DaysOfWeek
    ensures 0 <= k ==> DaysOfWeek[k] == day
  {
    IndexFrom(day, 0)
  }

  function IndexFrom(day: string, from: nat): (k: int)
    requires from <= |DaysOfWeek|
    ensures -1 <= k < |DaysOfWeek|
    ensures k == -1 <==> day !in DaysOfWeek[from..]
    ensures 0 <= k ==> from <= k && DaysOfWeek[k] == day
    decreases |DaysOfWeek| - from
  {
    if from == |DaysOfWeek| then -1
    else if DaysOfWeek[from] == day then from
    else
      assert DaysOfWeek[from..] == [DaysOfWeek[from]] + DaysOfWeek[from + 1..];
      IndexFrom(day, from + 1)
  }

  /**
   * The sort comparator: the difference of the weekday indices, and on the
   * same index the order of the start times.
   */
  function Comparator(a: TimetableEntry, b: TimetableEntry): (c: int)
    ensures DayIndex(a.dayOfWeek) < DayIndex(b.dayOfWeek) ==> c < 0
    ensures DayIndex(a.dayOfWeek) > DayIndex(b.dayOfWeek) ==> c > 0
    ensures DayIndex(a.dayOfWeek) == DayIndex(b.dayOfWeek) ==>
      (c == 0 <==> a.startTime == b.startTime) && -1 <= c <= 1
  {
    var dayA := DayIndex(a.dayOfWeek);
    var dayB := DayIndex(b.dayOfWeek);
    if dayA != dayB then dayA - dayB
    else StringOrder.Compare(a.startTime, b.startTime)
  }

  /** `a` may stand before `b`: the comparator does not rank it later. */
  predicate InOrder(a: TimetableEntry, b: TimetableEntry) {
    Comparator(a, b) <= 0
  }

  /** The comparator orders by weekday first, then by start time. */
  lemma InOrderMeaning(a: TimetableEntry, b: TimetableEntry)
    ensures InOrder(a, b) <==>
      DayIndex(a.dayOfWeek) < DayIndex(b.dayOfWeek) ||
      (DayIndex(a.dayOfWeek) == DayIndex(b.dayOfWeek) &&
       StringOrder.Compare(a.startTime, b.startTime) <= 0)
  {
  }

  lemma InOrderTotal(a: TimetableEntry, b: TimetableEntry)
    ensures InOrder(a, b) || InOrder(b, a)
  {
    StringOrder.CompareAntisymmetric(a.startTime, b.startTime);
  }

  lemma InOrderTransitive(a: TimetableEntry, b: TimetableEntry, c: TimetableEntry)
    requires InOrder(a, b) && InOrder(b, c)
    ensures InOrder(a, c)
  {
    if DayIndex(a.dayOfWeek) == DayIndex(b.dayOfWeek) == DayIndex(c.dayOfWeek) {
      StringOrder.CompareTransitive(a.startTime, b.startTime, c.startTime);
    }
  }

  /** Every earlier entry may stand before every later one. */
  predicate Sorted(s: seq<TimetableEntry>) {
    forall i, j :: 0 <= i < j < |s| ==> InOrder(s[i], s[j])
  }

  /** The comparator contract `Array.prototype.sort` relies on. */
  ghost predicate Consistent(cmp: (TimetableEntry, TimetableEntry) -> int) {
    (forall x, y :: cmp(x, y) <= 0 || cmp(y, x) <= 0) &&
    (forall x, y, z :: cmp(x, y) <= 0 && cmp(y, z) <= 0 ==> cmp(x, z) <= 0)
  }

  lemma ComparatorConsistent()
    ensures Consistent(Comparator)
  {
    forall x, y
      ensures Comparator(x, y) <= 0 || Comparator(y, x) <= 0
    {
      InOrderTotal(x, y);
    }
    forall x, y, z | Comparator(x, y) <= 0 && Comparator(y, z) <= 0
      ensures Comparator(x, z) <= 0
    {
      InOrderTransitive(x, y, z);
    }
  }

  /**
   * `timetable.sort(comparator)`: reorders the array in place into the
   * comparator's order, keeping exactly the same entries.
   */
  method SortEntries(a: array<TimetableEntry>)
    modifies a
    ensures Sorted(a[..])
    ensures multiset(a[..]) == multiset(old(a[..]))
  {
    ComparatorConsistent();
    SortBy(a, Comparator);
  }

  /** `Array.prototype.sort` with a consistent comparator `cmp`. */
  method SortBy(a: array<TimetableEntry>, cmp: (TimetableEntry, TimetableEntry) -> int)
    requires Consistent(cmp)
    modifies a
    ensures forall p, q :: 0 <= p < q < a.Length ==> cmp(a[p], a[q]) <= 0
    ensures multiset(a[..]) == multiset(old(a[..]))
  {
    var i := 0;
    while i < a.Length
      invariant 0 <= i <= a.Length
      invariant forall p, q :: 0 <= p < q < i ==> cmp(a[p], a[q]) <= 0
      invariant multiset(a[..]) == multiset(old(a[..]))
    {
      SinkFrom(a, i, i, cmp);
      i := i + 1;
    }
  }

  /**
   * Moves `a[j]` towards the front until it is in order with its
   * neighbour; afterwards `a[..i+1]` is sorted.
   */
  method SinkFrom(a: array<TimetableEntry>, j: int, i: int, cmp: (TimetableEntry, TimetableEntry) -> int)
    requires Consistent(cmp)
    requires 0 <= j <= i < a.Length && SortedBut(a, j, i, cmp)
    modifies a
    ensures forall p, q :: 0 <= p < q <= i ==> cmp(a[p], a[q]) <= 0
    ensures multiset(a[..]) == multiset(old(a[..]))
    decreases j
  {
    if 0 < j && cmp(a[j - 1], a[j]) > 0 {
      assert cmp(a[j], a[j - 1]) <= 0;
      SwapDown(a, j, i, cmp);
      SinkFrom(a, j - 1, i, cmp);
    } else {
      SortedButSettled(a, j, i, cmp);
    }
  }

  /**
   * `a[..i+1]` is in order except that `a[j]` may still be out of place
   * towards the front: it is in order with every later cell.
   */
  ghost predicate SortedBut(a: array<TimetableEntry>, j: int, i: int, cmp: (TimetableEntry, TimetableEntry) -> int)
    reads a
    requires 0 <= j <= i < a.Length
  {
    (forall p, q :: 0 <= p < q <= i && p != j && q != j ==> cmp(a[p], a[q]) <= 0) &&
    (forall q :: j < q <= i ==> cmp(a[j], a[q]) <= 0)
  }

  /** One step of the insertion: `a[j]` moves one cell towards the front. */
  method SwapDown(a: array<TimetableEntry>, j: int, i: int, cmp: (TimetableEntry, TimetableEntry) -> int)
    requires 0 < j <= i < a.Length
    requires SortedBut(a, j, i, cmp) && cmp(a[j], a[j - 1]) <= 0
    modifies a
    ensures SortedBut(a, j - 1, i, cmp)
    ensures multiset(a[..]) == multiset(old(a[..]))
  {
    Swap(a, j - 1, j);
    forall p, q | 0 <= p < q <= i && p != j - 1 && q != j - 1
      ensures cmp(a[p], a[q]) <= 0
    {
      var p', q' := if p == j then j - 1 else p, if q == j then j - 1 else q;
      assert a[p] == old(a[p']) && a[q] == old(a[q']);
    }
  }

  /** Once `a[j]` is in order with its front neighbour, the whole prefix is sorted. */
  lemma SortedButSettled(a: array<TimetableEntry>, j: int, i: int, cmp: (TimetableEntry, TimetableEntry) -> int)
    requires Consistent(cmp)
    requires 0 <= j <= i < a.Length && SortedBut(a, j, i, cmp)
    requires j == 0 || cmp(a[j - 1], a[j]) <= 0
    ensures forall p, q :: 0 <= p < q <= i ==> cmp(a[p], a[q]) <= 0
  {
    forall p, q | 0 <= p < q <= i
      ensures cmp(a[p], a[q]) <= 0
    {
      if q == j && p < j - 1 {
        assert cmp(a[p], a[j - 1]) <= 0;
      }
    }
  }

  /** Exchanges two cells of `a`, leaving the others alone. */
  method Swap(a: array<TimetableEntry>, x: int, y: int)
    requires 0 <= x < a.Length && 0 <= y < a.Length
    modifies a
    ensures a[x] == old(a[y]) && a[y] == old(a[x])
    ensures forall k :: 0 <= k < a.Length && k != x && k != y ==> a[k] == old(a[k])
    ensures multiset(a[..]) == multiset(old(a[..]))
  {
    a[x], a[y] := a[y], a[x];
  }

  /** The entries of `s` whose day is `day`, in their order in `s`. */
  function OfDay(s: seq<TimetableEntry>, day: string): (r: seq<TimetableEntry>)
    ensures |r| <= |s|
    ensures forall e :: e in r <==> e in s && e.dayOfWeek == day
  {
    if s == [] then []
    else
      var init := s[..|s| - 1];
      assert s == init + [s[|s| - 1]];
      OfDay(init, day) + (if s[|s| - 1].dayOfWeek == day then [s[|s| - 1]] else [])
  }

  /** Pushing an entry onto the timetable pushes it onto its own day's bucket only. */
  lemma OfDayAppend(s: seq<TimetableEntry>, e: TimetableEntry, day: string)
    ensures OfDay(s + [e], day) == OfDay(s, day) + (if e.dayOfWeek == day then [e] else [])
  {
    assert (s + [e])[..|s + [e]| - 1] == s;
  }

  /** A day bucket of a sorted timetable is itself sorted. */
  lemma {:induction false} OfDaySorted(s: seq<TimetableEntry>, day: string)
    requires Sorted(s)
    ensures Sorted(OfDay(s, day))
  {
    if s != [] {
      var init, last := s[..|s| - 1], s[|s| - 1];
      SortedPrefix(s);
      OfDaySorted(init, day);
      var r := OfDay(init, day);
      if last.dayOfWeek == day {
        forall e | e in r
          ensures InOrder(e, last)
        {
          var k :| 0 <= k < |init| && init[k] == e;
          assert s[k] == e;
        }
      }
    }
  }

  lemma SortedPrefix(s: seq<TimetableEntry>)
    requires Sorted(s) && s != []
    ensures Sorted(s[..|s| - 1])
  {
    var init := s[..|s| - 1];
    forall i, j | 0 <= i < j < |init|
      ensures InOrder(init[i], init[j])
    {
      assert init[i] == s[i] && init[j] == s[j];
    }
  }

  /** Within one day the comparator is the start-time order alone. */
  lemma SameDayByStartTime(r: seq<TimetableEntry>, day: string)
    requires Sorted(r)
    requires forall e :: e in r ==> e.dayOfWeek == day
    ensures forall i, j :: 0 <= i < j < |r| ==>
      StringOrder.Compare(r[i].startTime, r[j].startTime) <= 0
  {
    forall i, j | 0 <= i < j < |r|
      ensures StringOrder.Compare(r[i].startTime, r[j].startTime) <= 0
    {
      assert InOrder(r[i], r[j]);
      assert r[i] in r && r[j] in r;
    }
  }

  /** The entries of `s` whose day is one of `days`. */
  function OnDays(s: seq<TimetableEntry>, days: seq<string>): (r: seq<TimetableEntry>)
    ensures forall e :: e in r <==> e in s && e.dayOfWeek in days
  {
    if s == [] then []
    else
      var init := s[..|s| - 1];
      assert s == init + [s[|s| - 1]];
      OnDays(init, days) + (if s[|s| - 1].dayOfWeek in days then [s[|s| - 1]] else [])
  }

  /** The summed sizes of the buckets of `days`. */
  function BucketTotal(s: seq<TimetableEntry>, days: seq<string>): nat {
    if days == [] then 0
    else BucketTotal(s, days[..|days| - 1]) + |OfDay(s, days[|days| - 1])|
  }

  /** Adding one fresh day to the day list adds exactly that day's bucket. */
  lemma {:induction false} OnDaysExtend(s: seq<TimetableEntry>, days: seq<string>, day: string)
    requires day !in days
    ensures |OnDays(s, days + [day])| == |OnDays(s, days)| + |OfDay(s, day)|
  {
    if s != [] {
      OnDaysExtend(s[..|s| - 1], days, day);
    }
  }

  /**
   * Over distinct days, the buckets together hold exactly the entries
   * whose day is one of them: each such entry is counted once.
   */
  lemma {:induction false} BucketsPartition(s: seq<TimetableEntry>, days: seq<string>)
    requires forall i, j :: 0 <= i < j < |days| ==> days[i] != days[j]
    ensures BucketTotal(s, days) == |OnDays(s, days)|
  {
    if days == [] {
      assert OnDays(s, []) == [] by {
        OnDaysNone(s);
      }
    } else {
      var init, day := days[..|days| - 1], days[|days| - 1];
      BucketsPartition(s, init);
      assert days == init + [day];
      OnDaysExtend(s, init, day);
    }
  }

  lemma OnDaysNone(s: seq<TimetableEntry>)
    ensures OnDays(s, []) == []
  {
    if OnDays(s, []) != [] {
      assert OnDays(s, [])[0] in OnDays(s, []);
    }
  }

  /** `timetableByDay` after the two `forEach` loops over `entries`. */
  method GroupByDay(entries: seq<TimetableEntry>) returns (byDay: map<string, seq<TimetableEntry>>)
    ensures forall d :: d in byDay <==> d in DaysOfWeek
    ensures forall d :: d in byDay ==> byDay[d] == OfDay(entries, d)
  {
    byDay := EmptyBuckets();
    var n := 0;
    while n < |entries|
      invariant 0 <= n <= |entries|
      invariant forall d :: d in byDay <==> d in DaysOfWeek
      invariant forall d :: d in byDay ==> byDay[d] == OfDay(entries[..n], d)
    {
      var e := entries[n];
      assert entries[..n + 1] == entries[..n] + [e];
      forall d
        ensures OfDay(entries[..n + 1], d) == OfDay(entries[..n], d) + (if e.dayOfWeek == d then [e] else [])
      {
        OfDayAppend(entries[..n], e, d);
      }
      byDay := Push(byDay, e);
      n := n + 1;
    }
    assert entries[..n] == entries;
  }

  /** `if (timetableByDay[day]) timetableByDay[day].push(entry)`. */
  method Push(byDay: map<string, seq<TimetableEntry>>, e: TimetableEntry)
    returns (pushed: map<string, seq<TimetableEntry>>)
    ensures pushed.Keys == byDay.Keys
    ensures forall d :: d in pushed ==> pushed[d] == byDay[d] + (if e.dayOfWeek == d then [e] else [])
  {
    pushed := byDay;
    if e.dayOfWeek in byDay {
      pushed := byDay[e.dayOfWeek := byDay[e.dayOfWeek] + [e]];
    }
  }

  /** `daysOfWeek.forEach(day => (timetableByDay[day] = []))`. */
  method EmptyBuckets() returns (byDay: map<string, seq<TimetableEntry>>)
    ensures forall d :: d in byDay <==> d in DaysOfWeek
    ensures forall d :: d in byDay ==> byDay[d] == []
  {
    byDay := map[];
    var k := 0;
    while k < |DaysOfWeek|
      invariant 0 <= k <= |DaysOfWeek|
      invariant forall d :: d in byDay <==> d in DaysOfWeek[..k]
      invariant forall d :: d in byDay ==> byDay[d] == []
    {
      assert DaysOfWeek[..k + 1] == DaysOfWeek[..k] + [DaysOfWeek[k]];
      byDay := byDay[DaysOfWeek[k] := []];
      k := k + 1;
    }
    assert DaysOfWeek[..k] == DaysOfWeek;
  }

  /** `getCourseTitle`: the title of the first course with this id. */
  function CourseTitle(courses: seq<Course>, courseId: int): (title: string)
    ensures (exists k :: 0 <= k < |courses| && courses[k].id == courseId) ==>
      exists k :: 0 <= k < |courses| && courses[k].id == courseId && title == courses[k].title &&
        forall m :: 0 <= m < k ==> courses[m].id != courseId
    ensures (forall k :: 0 <= k < |courses| ==> courses[k].id != courseId) ==>
      title == "Unknown Course"
  {
    if courses == [] then "Unknown Course"
    else if courses[0].id == courseId then courses[0].title
    else
      var title := CourseTitle(courses[1..], courseId);
      assert forall k :: 1 <= k < |courses| ==> courses[k] == courses[1..][k - 1];
      title
  }

  /** How often a bucket holds an entry: as often as `s` does, if the day fits. */
  lemma {:induction false} OfDayCount(s: seq<TimetableEntry>, day: string, e: TimetableEntry)
    ensures multiset(OfDay(s, day))[e] == if e.dayOfWeek == day then multiset(s)[e] else 0
  {
    if s != [] {
      var init := s[..|s| - 1];
      assert s == init + [s[|s| - 1]];
      OfDayCount(init, day, e);
    }
  }

  /** Reordering the timetable does not change what lands in a bucket. */
  lemma OfDayPermutation(s: seq<TimetableEntry>, t: seq<TimetableEntry>, day: string)
    requires multiset(s) == multiset(t)
    ensures multiset(OfDay(s, day)) == multiset(OfDay(t, day))
  {
    forall e
      ensures multiset(OfDay(s, day))[e] == multiset(OfDay(t, day))[e]
    {
      OfDayCount(s, day, e);
      OfDayCount(t, day, e);
    }
  }

  /**
   * What the page lays out after sorting `before` into `after`: each of the
   * seven buckets holds exactly that day's entries of `before`, ordered by
   * start time, and the buckets together hold every entry with a known day.
   */
  lemma ScheduleBuckets(before: seq<TimetableEntry>, after: seq<TimetableEntry>)
    requires Sorted(after) && multiset(after) == multiset(before)
    ensures forall d :: d in DaysOfWeek ==>
      multiset(OfDay(after, d)) == multiset(OfDay(before, d)) &&
      forall i, j :: 0 <= i < j < |OfDay(after, d)| ==>
        StringOrder.Compare(OfDay(after, d)[i].startTime, OfDay(after, d)[j].startTime) <= 0
    ensures BucketTotal(after, DaysOfWeek) == |OnDays(after, DaysOfWeek)|
    ensures multiset(OnDays(after, DaysOfWeek)) == multiset(OnDays(before, DaysOfWeek))
  {
    forall d | d in DaysOfWeek
      ensures multiset(OfDay(after, d)) == multiset(OfDay(before, d))
      ensures forall i, j :: 0 <= i < j < |OfDay(after, d)| ==>
        StringOrder.Compare(OfDay(after, d)[i].startTime, OfDay(after, d)[j].startTime) <= 0
    {
      OfDayPermutation(after, before, d);
      OfDaySorted(after, d);
      SameDayByStartTime(OfDay(after, d), d);
    }
    DaysDistinct();
    BucketsPartition(after, DaysOfWeek);
    forall e
      ensures multiset(OnDays(after, DaysOfWeek))[e] == multiset(OnDays(before, DaysOfWeek))[e]
    {
      OnDaysCount(after, DaysOfWeek, e);
      OnDaysCount(before, DaysOfWeek, e);
    }
  }

  lemma {:induction false} OnDaysCount(s: seq<TimetableEntry>, days: seq<string>, e: TimetableEntry)
    ensures multiset(OnDays(s, days))[e] == if e.dayOfWeek in days then multiset(s)[e] else 0
  {
    if s != [] {
      var init := s[..|s| - 1];
      assert s == init + [s[|s| - 1]];
      OnDaysCount(init, days, e);
    }
  }
}
