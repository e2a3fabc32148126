/** The computations of `src/pages/MoodTrackerPage.tsx`: the current and
    longest logging streaks, the "already logged today" check, the chart's
    per-bucket averages and the mood-submit guard.

    Times are integer milliseconds on the user's local clock; a calendar day
    is `DayOf(t)`, and day 0 is a Thursday (1 January 1970). */
module MoodTracker {
  import opened Wrappers
  import Text
  import Seqs

  const MsPerDay := 86400000

  /** A row of the `mood_entries` table, with `created_at` as a time. */
  datatype MoodEntry = MoodEntry(id: string, userId: string, moodRating: int, note: Option<string>, createdAt: int)

  /** The row handed to the insert call. */
  datatype MoodInsert = MoodInsert(userId: string, moodRating: int, note: Option<string>)

  const SaveFailed := "Failed to save mood entry"
  const LoadFailed := "Failed to load mood entries"

  /** The local calendar day of a time. */
  function DayOf(t: int): int {
    t / MsPerDay
  }

  function Max(a: int, b: int): int {
    if a < b then b else a
  }

  // ---------------------------------------------------------------------
  // Sorting newest first

  predicate SortedNewestFirst(s: seq<MoodEntry>) {
    forall i, j :: 0 <= i < j < |s| ==> s[i].createdAt >= s[j].createdAt
  }

  /** Inserts `x`, which came before every element of `s`, ahead of the
      elements that are not newer than it, as a stable sort does. */
  function InsertNewestFirst(x: MoodEntry, s: seq<MoodEntry>): (r: seq<MoodEntry>)
    requires SortedNewestFirst(s)
    ensures SortedNewestFirst(r)
    ensures multiset(r) == multiset(s) + multiset{x}
    ensures |r| == |s| + 1
    ensures r[0] == x || (s != [] && r[0] == s[0])
  {
    if s == [] then [x]
    else if s[0].createdAt <= x.createdAt then
      SortedCons(x, s);
      [x] + s
    else
      SortedTail(s);
      var t := InsertNewestFirst(x, s[1..]);
      InsertBehindHead(x, s, t);
      [s[0]] + t
  }

  /** The recursive case of `InsertNewestFirst`: `x` went into the tail. */
  lemma InsertBehindHead(x: MoodEntry, s: seq<MoodEntry>, t: seq<MoodEntry>)
    requires SortedNewestFirst(s) && s != [] && s[0].createdAt > x.createdAt
    requires SortedNewestFirst(t) && multiset(t) == multiset(s[1..]) + multiset{x} && |t| == |s|
    requires t[0] == x || (|s| > 1 && t[0] == s[1])
    ensures SortedNewestFirst([s[0]] + t)
    ensures multiset([s[0]] + t) == multiset(s) + multiset{x}
  {
    assert s == [s[0]] + s[1..];
    SortedCons(s[0], t);
  }

  lemma SortedTail(s: seq<MoodEntry>)
    requires SortedNewestFirst(s) && s != []
    ensures SortedNewestFirst(s[1..])
  {
    forall i, j | 0 <= i < j < |s[1..]|
      ensures s[1..][i].createdAt >= s[1..][j].createdAt
    {
      assert s[1..][i] == s[i + 1] && s[1..][j] == s[j + 1];
    }
  }

  /** An entry no older than the head of a sorted list can go in front. */
  lemma SortedCons(a: MoodEntry, t: seq<MoodEntry>)
    requires SortedNewestFirst(t) && (t == [] || t[0].createdAt <= a.createdAt)
    ensures SortedNewestFirst([a] + t)
  {
    forall i, j | 0 <= i < j < |[a] + t|
      ensures ([a] + t)[i].createdAt >= ([a] + t)[j].createdAt
    {
      if i == 0 {
        assert t[0].createdAt >= t[j - 1].createdAt;
      }
    }
  }

  /** `[...moodEntries].sort((a, b) => b.created_at - a.created_at)`. */
  function SortNewestFirst(s: seq<MoodEntry>): (r: seq<MoodEntry>)
    ensures SortedNewestFirst(r)
    ensures multiset(r) == multiset(s)
    ensures |r| == |s|
  {
    if s == [] then []
    else
      assert s == [s[0]] + s[1..];
      InsertNewestFirst(s[0], SortNewestFirst(s[1..]))
  }

  /** The days of the entries, newest first. */
  function DaysNewestFirst(entries: seq<MoodEntry>): (days: seq<int>)
    ensures |days| == |entries|
  {
    var sorted := SortNewestFirst(entries);
    seq(|sorted|, i requires 0 <= i < |sorted| => DayOf(sorted[i].createdAt))
  }

  /** Sorting by time sorts the days too. */
  lemma DaysNonIncreasing(entries: seq<MoodEntry>)
    ensures var days := DaysNewestFirst(entries);
      forall i, j :: 0 <= i < j < |days| ==> days[i] >= days[j]
  {
    var sorted := SortNewestFirst(entries);
    forall i, j | 0 <= i < j < |sorted|
      ensures DayOf(sorted[i].createdAt) >= DayOf(sorted[j].createdAt)
    {
      DayOfMonotone(sorted[j].createdAt, sorted[i].createdAt);
    }
  }

  lemma DayOfMonotone(a: int, b: int)
    requires a <= b
    ensures DayOf(a) <= DayOf(b)
  {
  }

  // ---------------------------------------------------------------------
  // Streaks

  /** `c` is the current streak: the first `c` days, newest first, are today,
      yesterday, and so on, and the next one (if any) breaks the pattern. */
  predicate IsCurrentStreak(days: seq<int>, today: int, c: int) {
    0 <= c <= |days|
    && (forall i :: 0 <= i < c ==> days[i] == today - i)
    && (c < |days| ==> days[c] != today - c)
  }

  /** The `len` days from index `j` are consecutive calendar days. */
  predicate IsChain(days: seq<int>, j: int, len: int) {
    0 <= j && 1 <= len && j + len <= |days|
    && forall k :: j < k < j + len ==> days[k - 1] - days[k] == 1
  }

  /** `l` is the second loop's result: the length of the longest chain of two
      or more consecutive days, and 0 when there is none. */
  predicate IsLongestChain(days: seq<int>, l: int) {
    (l == 0 || (l >= 2 && exists j | 0 <= j < |days| :: IsChain(days, j, l)))
    && forall j, len | 0 <= j < |days| && 0 <= len <= |days| :: len >= 2 && IsChain(days, j, len) ==> len <= l
  }

  /** A chain that cannot be extended to the left is the longest chain ending
      where it ends. */
  lemma ChainEndingAt(days: seq<int>, s: int, c: int, j: int, len: int)
    requires IsChain(days, s, c) && (s == 0 || days[s - 1] - days[s] != 1)
    requires IsChain(days, j, len) && j + len == s + c
    ensures len <= c
  {
  }

  /** Every chain of two or more that ends at index `i` needs a one-day
      gap before `i`, and without `i` it is no longer than the chain `c`
      that cannot be extended to the left. */
  lemma ChainsEndingAt(days: seq<int>, i: int, c: int)
    requires 1 <= c <= i < |days| && IsChain(days, i - c, c)
    requires i - c == 0 || days[i - c - 1] - days[i - c] != 1
    ensures forall j, len :: len >= 2 && IsChain(days, j, len) && j + len == i + 1 ==> days[i - 1] - days[i] == 1 && len - 1 <= c
  {
    forall j, len | len >= 2 && IsChain(days, j, len) && j + len == i + 1
      ensures days[i - 1] - days[i] == 1 && len - 1 <= c
    {
      assert j < i < j + len;
      assert IsChain(days, j, len - 1);
      ChainEndingAt(days, i - c, c, j, len - 1);
    }
  }

  /** One step of the second loop keeps `longest` above every chain that
      ends by index `i`. */
  lemma LongestStep(days: seq<int>, i: int, c: int, chain: int)
    requires 1 <= c <= i < |days| && IsChain(days, i - c, c)
    requires i - c == 0 || days[i - c - 1] - days[i - c] != 1
    requires c == 1 || c <= chain
    requires forall j, len :: len >= 2 && IsChain(days, j, len) && j + len <= i ==> len <= chain
    ensures var chain2 := if days[i - 1] - days[i] == 1 then Max(chain, c + 1) else chain;
      forall j, len :: len >= 2 && IsChain(days, j, len) && j + len <= i + 1 ==> len <= chain2
  {
    ChainsEndingAt(days, i, c);
  }

  lemma ChainExtend(days: seq<int>, s: int, c: int)
    requires IsChain(days, s, c) && s + c < |days| && days[s + c - 1] - days[s + c] == 1
    ensures IsChain(days, s, c + 1)
  {
  }

  /** `calculateStreaks` over the entries with today's day number. It returns
      the current streak, the second loop's `longest`, and the reported
      longest streak `Math.max(longest, current)`. */
  method CalculateStreaks(entries: seq<MoodEntry>, today: int) returns (current: nat, chain: nat, longest: nat)
    ensures IsCurrentStreak(DaysNewestFirst(entries), today, current)
    ensures IsLongestChain(DaysNewestFirst(entries), chain)
    ensures longest == Max(chain, current)
  {
    var days := DaysNewestFirst(entries);
    current := LeadingStreak(days, today);
    chain := LongestChain(days);
    longest := Max(chain, current);
  }

  /** The first loop of `calculateStreaks`, over the days of the entries
      sorted newest first: it counts the leading days that match today,
      yesterday, ... and stops at the first mismatch. */
  method LeadingStreak(days: seq<int>, today: int) returns (current: nat)
    ensures IsCurrentStreak(days, today, current)
  {
    var currentCount := 0;
    var i := 0;
    while i < |days|
      invariant 0 <= i <= |days| && currentCount == i
      invariant forall k :: 0 <= k < i ==> days[k] == today - k
    {
      if days[i] == today - i {
        currentCount := currentCount + 1;
      } else {
        break;
      }
      i := i + 1;
    }
    current := currentCount;
  }

  /** The second loop of `calculateStreaks`: it grows a run on every one-day
      gap between neighbours, records it in `longest`, and restarts it at 1
      otherwise. */
  method LongestChain(days: seq<int>) returns (chain: nat)
    ensures IsLongestChain(days, chain)
  {
    chain := 0;
    var currentCount := 1;
    var i := 1;
    while i < |days|
      invariant |days| == 0 || 1 <= i <= |days|
      invariant 1 <= currentCount
      invariant |days| > 0 ==> currentCount <= i && IsChain(days, i - currentCount, currentCount)
                                 && (i - currentCount == 0 || days[i - currentCount - 1] - days[i - currentCount] != 1)
      invariant currentCount == 1 || currentCount <= chain
      invariant chain == 0 || (chain >= 2 && exists j :: IsChain(days, j, chain))
      invariant forall j, len :: len >= 2 && IsChain(days, j, len) && j + len <= i ==> len <= chain
    {
      ghost var c := currentCount;
      LongestStep(days, i, c, chain);
      if days[i - 1] - days[i] == 1 {
        ChainExtend(days, i - c, c);
        currentCount := currentCount + 1;
        chain := Max(chain, currentCount);
        assert IsChain(days, i + 1 - currentCount, chain) || chain > currentCount;
      } else {
        currentCount := 1;
        assert IsChain(days, i, 1);
      }
      i := i + 1;
    }
  }

  /** The current streak is 0 exactly when there are no entries or the newest
      is not from today, and it never exceeds the number of entries. */
  lemma CurrentStreakZero(days: seq<int>, today: int, c: int)
    requires IsCurrentStreak(days, today, c)
    ensures c == 0 <==> (days == [] || days[0] != today)
    ensures c <= |days|
  {
  }

  /** The two predicates pin their values down. */
  lemma StreaksUnique(days: seq<int>, today: int, c1: int, c2: int, l1: int, l2: int)
    requires IsCurrentStreak(days, today, c1) && IsCurrentStreak(days, today, c2)
    requires IsLongestChain(days, l1) && IsLongestChain(days, l2)
    ensures c1 == c2 && l1 == l2
  {
    if l1 != 0 {
      var j :| IsChain(days, j, l1);
    }
    if l2 != 0 {
      var j :| IsChain(days, j, l2);
    }
  }

  /** A current streak of two or more days is itself a chain, so the second
      loop already finds it; the reported longest streak covers the current
      one either way. */
  lemma LongestCoversCurrent(days: seq<int>, today: int, c: int, l: int)
    requires IsCurrentStreak(days, today, c) && IsLongestChain(days, l)
    ensures c >= 2 ==> c <= l
    ensures c <= Max(l, c)
  {
    if c >= 2 {
      assert IsChain(days, 0, c);
    }
  }

  /** Two entries on the same day never sit inside one chain: a same-day
      duplicate ends the run. */
  lemma SameDayBreaksChain(days: seq<int>, k: int, j: int, len: int)
    requires 0 < k < |days| && days[k - 1] == days[k]
    requires IsChain(days, j, len)
    ensures !(j < k < j + len)
  {
  }

  // ---------------------------------------------------------------------
  // Today

  /** `moodEntries.find(entry => isSameDay(entry.created_at, now))`. */
  function TodayEntry(entries: seq<MoodEntry>, today: int): (r: Option<MoodEntry>)
    ensures r.Some? <==> exists i :: 0 <= i < |entries| && DayOf(entries[i].createdAt) == today
    ensures r.Some? ==> r.value in entries && DayOf(r.value.createdAt) == today
  {
    if entries == [] then None
    else if DayOf(entries[0].createdAt) == today then Some(entries[0])
    else
      var r := TodayEntry(entries[1..], today);
      assert forall i :: 1 <= i < |entries| ==> entries[i] == entries[1..][i - 1];
      r
  }

  // ---------------------------------------------------------------------
  // Chart

  datatype TimePeriod = Week | Month | SixMonths | Year

  /** One chart point: its day (the label's date) and the closed time
      interval `isWithinInterval` tests. */
  datatype Bucket = Bucket(point: int, start: int, end: int)

  /** Calendar facts the month-based views need: the first day of the month
      29 days ago, and the first days of the months each view spans followed
      by the first day of the month after. */
  datatype Calendar = Calendar(windowMonthStart: int, lastSixMonths: seq<int>, thisYear: seq<int>)

  /** Monday of the week containing `day` (`startOfWeek(now, { weekStartsOn: 1 })`). */
  function WeekStart(day: int): (m: int)
    ensures m <= day < m + 7 && (m + 3) % 7 == 0
  {
    day - (day + 3) % 7
  }

  /** A one-day bucket starting at midnight of `day`. */
  function DayBucket(day: int): Bucket {
    Bucket(day, day * MsPerDay, (day + 1) * MsPerDay)
  }

  /** The buckets of `getTimeRangeData` and `getChartData` for a period. */
  function Buckets(period: TimePeriod, today: int, cal: Calendar): seq<Bucket> {
    match period
    case Week =>
      var m := WeekStart(today);
      seq(7, i => DayBucket(m + i))
    case Month =>
      var interval := (today - cal.windowMonthStart) / 6;
      seq(7, i => DayBucket(cal.windowMonthStart + i * interval))
    case SixMonths => MonthBuckets(cal.lastSixMonths)
    case Year => MonthBuckets(cal.thisYear)
  }

  /** One bucket per month start, each closed at the next month's start:
      `bounds` lists the month starts of the view and then the first day of
      the month after. */
  function MonthBuckets(bounds: seq<int>): (r: seq<Bucket>)
    ensures |bounds| > 0 ==> |r| == |bounds| - 1
    ensures |bounds| == 0 ==> r == []
    ensures forall i :: 0 <= i < |r| ==>
      r[i].point == bounds[i] && r[i].start == bounds[i] * MsPerDay && r[i].end == bounds[i + 1] * MsPerDay
  {
    if |bounds| == 0 then []
    else seq(|bounds| - 1, i requires 0 <= i < |bounds| - 1 => Bucket(bounds[i], bounds[i] * MsPerDay, bounds[i + 1] * MsPerDay))
  }

  predicate Increasing(bounds: seq<int>) {
    forall i :: 0 <= i < |bounds| - 1 ==> bounds[i] < bounds[i + 1]
  }

  /** The month buckets tile the span from the first month start to the
      first day after the view: each ends where the next begins, and every
      instant of the span lies in one of them. */
  lemma {:induction false} MonthBucketsTile(bounds: seq<int>, t: int)
    requires |bounds| >= 2 && Increasing(bounds)
    requires bounds[0] * MsPerDay <= t <= bounds[|bounds| - 1] * MsPerDay
    ensures var r := MonthBuckets(bounds);
      && r[0].start == bounds[0] * MsPerDay && r[|r| - 1].end == bounds[|bounds| - 1] * MsPerDay
      && (forall i :: 0 <= i < |r| - 1 ==> r[i].end == r[i + 1].start)
      && (forall i :: 0 <= i < |r| ==> r[i].start < r[i].end)
      && (exists i :: 0 <= i < |r| && r[i].start <= t <= r[i].end)
    decreases |bounds|
  {
    var r := MonthBuckets(bounds);
    if t <= bounds[1] * MsPerDay {
      assert r[0].start <= t <= r[0].end;
    } else {
      var rest := bounds[1..];
      MonthBucketsTile(rest, t);
      var j :| 0 <= j < |MonthBuckets(rest)| && MonthBuckets(rest)[j].start <= t <= MonthBuckets(rest)[j].end;
      assert r[j + 1] == MonthBuckets(rest)[j];
    }
  }

  /** The week view has one bucket for each day from Monday to Sunday of the
      current week. */
  lemma WeekBucketsSpec(today: int, cal: Calendar)
    ensures var b := Buckets(Week, today, cal);
      && |b| == 7
      && (forall i :: 0 <= i < 7 ==> b[i] == DayBucket(WeekStart(today) + i))
      && (exists i :: 0 <= i < 7 && b[i].point == today)
  {
    var b := Buckets(Week, today, cal);
    var k := today - WeekStart(today);
    assert b[k] == DayBucket(WeekStart(today) + k);
  }

  /** The month view always has 7 points, evenly spaced from the start of the
      month 29 days ago, none of them after today. */
  lemma MonthBucketsSpec(today: int, cal: Calendar)
    requires cal.windowMonthStart <= today - 29
    ensures var b := Buckets(Month, today, cal);
      && |b| == 7
      && b[0].point == cal.windowMonthStart
      && (forall i :: 0 <= i < 7 ==> cal.windowMonthStart <= b[i].point <= today)
      && (forall i :: 0 <= i < 7 ==> b[i].point == cal.windowMonthStart + i * ((today - cal.windowMonthStart) / 6))
      && (today - cal.windowMonthStart) / 6 >= 4
  {
    var ws := cal.windowMonthStart;
    var interval := (today - ws) / 6;
    assert 0 <= 6 * interval <= today - ws;
    forall i | 0 <= i < 7 ensures ws <= ws + i * interval <= today {
      assert 0 <= i * interval <= 6 * interval;
    }
  }

  /** The entries `isWithinInterval` places in a bucket; both ends count. */
  function InBucket(entries: seq<MoodEntry>, b: Bucket): seq<MoodEntry> {
    Seqs.Filter(entries, (e: MoodEntry) => b.start <= e.createdAt <= b.end)
  }

  function SumRatings(es: seq<MoodEntry>): int {
    if es == [] then 0 else es[0].moodRating + SumRatings(es[1..])
  }

  /** The mean rating, or `null` for no entries. */
  function Average(es: seq<MoodEntry>): (r: Option<real>)
    ensures r.None? <==> es == []
  {
    if es == [] then None else Some(SumRatings(es) as real / |es| as real)
  }

  function MinRating(es: seq<MoodEntry>): (m: int)
    requires es != []
    ensures forall i :: 0 <= i < |es| ==> m <= es[i].moodRating
    ensures exists i :: 0 <= i < |es| && m == es[i].moodRating
  {
    if |es| == 1 then es[0].moodRating
    else
      var m := MinRating(es[1..]);
      assert forall i :: 1 <= i < |es| ==> es[i] == es[1..][i - 1];
      if es[0].moodRating <= m then es[0].moodRating else m
  }

  function MaxRating(es: seq<MoodEntry>): (m: int)
    requires es != []
    ensures forall i :: 0 <= i < |es| ==> es[i].moodRating <= m
    ensures exists i :: 0 <= i < |es| && m == es[i].moodRating
  {
    if |es| == 1 then es[0].moodRating
    else
      var m := MaxRating(es[1..]);
      assert forall i :: 1 <= i < |es| ==> es[i] == es[1..][i - 1];
      if es[0].moodRating >= m then es[0].moodRating else m
  }

  lemma {:induction false} SumBounds(es: seq<MoodEntry>, lo: int, hi: int)
    requires forall i :: 0 <= i < |es| ==> lo <= es[i].moodRating <= hi
    ensures |es| * lo <= SumRatings(es) <= |es| * hi
  {
    if es != [] {
      var n := |es| - 1;
      assert forall i :: 1 <= i < |es| ==> es[i] == es[1..][i - 1];
      SumBounds(es[1..], lo, hi);
      assert |es| * lo == lo + n * lo && |es| * hi == hi + n * hi;
    }
  }

  /** A non-empty bucket's average lies between its lowest and highest
      rating. */
  lemma AverageBetweenMinAndMax(es: seq<MoodEntry>)
    requires es != []
    ensures MinRating(es) as real <= Average(es).value <= MaxRating(es) as real
  {
    var lo, hi := MinRating(es), MaxRating(es);
    SumBounds(es, lo, hi);
    DivBounds(SumRatings(es), |es|, lo, hi);
  }

  lemma DivBounds(s: int, n: int, lo: int, hi: int)
    requires n > 0 && n * lo <= s <= n * hi
    ensures lo as real <= s as real / n as real <= hi as real
  {
    var q := s as real / n as real;
    assert q * n as real == s as real;
    assert (q - lo as real) * n as real >= 0.0;
    assert (hi as real - q) * n as real >= 0.0;
  }

  /** `{ date, mood }` for each bucket. */
  datatype ChartPoint = ChartPoint(point: int, mood: Option<real>)

  /** `getChartData()`. */
  function ChartData(entries: seq<MoodEntry>, buckets: seq<Bucket>): (r: seq<ChartPoint>)
    ensures |r| == |buckets|
    ensures forall i :: 0 <= i < |r| ==> r[i] == ChartPoint(buckets[i].point, Average(InBucket(entries, buckets[i])))
  {
    seq(|buckets|, i requires 0 <= i < |buckets| => ChartPoint(buckets[i].point, Average(InBucket(entries, buckets[i]))))
  }

  /** A point's mood is `null` exactly when no entry's time lies in its
      closed interval; otherwise it lies between the lowest and highest
      rating there. */
  lemma ChartPointSpec(entries: seq<MoodEntry>, buckets: seq<Bucket>, i: int)
    requires 0 <= i < |buckets|
    ensures var p := ChartData(entries, buckets)[i];
      var b := buckets[i];
      && (p.mood.None? <==> forall k :: 0 <= k < |entries| ==> !(b.start <= entries[k].createdAt <= b.end))
      && (p.mood.Some? ==> MinRating(InBucket(entries, b)) as real <= p.mood.value <= MaxRating(InBucket(entries, b)) as real)
  {
    var es := InBucket(entries, buckets[i]);
    if es != [] {
      AverageBetweenMinAndMax(es);
      assert es[0] in entries;
    }
  }

  /** The intervals are closed at both ends, so an entry stamped exactly at
      midnight between two consecutive day buckets counts in both. */
  lemma MidnightEntryCountsTwice(entries: seq<MoodEntry>, day: int, k: int)
    requires 0 <= k < |entries| && entries[k].createdAt == (day + 1) * MsPerDay
    ensures entries[k] in InBucket(entries, DayBucket(day)) && entries[k] in InBucket(entries, DayBucket(day + 1))
  {
  }

  // ---------------------------------------------------------------------
  // The page

  /** `if (!selectedMood) return;`: `null` and 0 are both refused. */
  predicate Selected(m: Option<int>) {
    m.Some? && m.value != 0
  }

  /** `note.trim() || null`. */
  function NormalizeNote(note: string): Option<string> {
    if Text.Trim(note) == "" then None else Some(Text.Trim(note))
  }

  /** The note is stored trimmed, and a note of only whitespace is stored as
      `null`. */
  lemma NormalizeNoteSpec(note: string)
    ensures NormalizeNote(note).None? <==> Text.AllWhitespace(note)
    ensures NormalizeNote(note).Some? ==>
      NormalizeNote(note).value == Text.Trim(note) && Text.Trim(NormalizeNote(note).value) == NormalizeNote(note).value
  {
    Text.TrimEmptyIff(note);
    Text.TrimIdempotent(note);
  }

  /** The row `handleMoodSubmit` inserts: none without a selected mood or a
      signed-in user; otherwise the user's id, the mood, and the trimmed note
      or `null`. */
  function InsertFor(selected: Option<int>, user: Option<string>, note: string): (r: Option<MoodInsert>)
    ensures r.Some? <==> Selected(selected) && user.Some?
    ensures r.Some? ==> r.value.userId == user.value && r.value.moodRating == selected.value
                        && r.value.note == NormalizeNote(note)
  {
    if Selected(selected) && user.Some? then Some(MoodInsert(user.value, selected.value, NormalizeNote(note))) else None
  }

  class MoodTrackerPage {
    var entries: seq<MoodEntry>
    var selectedMood: Option<int>
    var note: string
    var loading: bool
    var error: Option<string>
    var currentStreak: nat
    var longestStreak: nat
    var alreadyLoggedToday: bool

    constructor()
      ensures entries == [] && selectedMood == None && note == "" && loading && error == None
      ensures currentStreak == 0 && longestStreak == 0 && !alreadyLoggedToday
    {
      entries := [];
      selectedMood := None;
      note := "";
      loading := true;
      error := None;
      currentStreak := 0;
      longestStreak := 0;
      alreadyLoggedToday := false;
    }

    /** The streak figures and the today flag agree with the entries. */
    predicate ShowsEntries(today: int)
      reads this
    {
      var days := DaysNewestFirst(entries);
      && IsCurrentStreak(days, today, currentStreak)
      && (exists l | 0 <= l <= |days| :: IsLongestChain(days, l) && longestStreak == Max(l, currentStreak))
      && alreadyLoggedToday == TodayEntry(entries, today).Some?
    }

    /** The streak figures and the today flag are as before. */
    twostate predicate StreaksUnchanged()
      reads this
    {
      currentStreak == old(currentStreak) && longestStreak == old(longestStreak)
      && alreadyLoggedToday == old(alreadyLoggedToday)
    }

    /** `fetchMoodEntries()` with the query's outcome as input, followed by
        the effect on `[moodEntries]`, which recomputes the streaks and the
        today flag only when the list is non-empty. */
    method ApplyFetch(fetched: Result<seq<MoodEntry>>, today: int)
      modifies this
      ensures fetched.Ok? ==> entries == fetched.value && error == old(error)
      ensures fetched.Err? ==> entries == old(entries) && error == Some(LoadFailed)
      ensures !loading && selectedMood == old(selectedMood) && note == old(note)
      ensures fetched.Ok? && fetched.value != [] ==> ShowsEntries(today)
      ensures !(fetched.Ok? && fetched.value != []) ==> StreaksUnchanged()
    {
      if fetched.Ok? {
        entries := fetched.value;
        if entries != [] {
          var current, chain, longest := CalculateStreaks(entries, today);
          currentStreak := current;
          longestStreak := longest;
          alreadyLoggedToday := TodayEntry(entries, today).Some?;
        }
      } else {
        error := Some(LoadFailed);
      }
      loading := false;
    }

    /** `handleMoodSubmit()`, with the signed-in user, the insert's outcome
        and the refetch as inputs. Returns the row sent to the insert call. */
    method SubmitMood(user: Option<string>, insertOk: bool, refetched: Result<seq<MoodEntry>>, today: int)
      returns (inserted: Option<MoodInsert>)
      modifies this
      ensures inserted == InsertFor(old(selectedMood), user, old(note))
      ensures !(inserted.Some? && insertOk) ==>
        && entries == old(entries) && selectedMood == old(selectedMood) && note == old(note)
        && loading == old(loading) && StreaksUnchanged()
        && error == (if Selected(old(selectedMood)) then Some(SaveFailed) else old(error))
      ensures inserted.Some? && insertOk ==>
        && selectedMood == None && note == "" && !loading
        && (refetched.Ok? ==> entries == refetched.value && error == old(error))
        && (refetched.Err? ==> entries == old(entries) && error == Some(LoadFailed))
        && (refetched.Ok? && refetched.value != [] ==> ShowsEntries(today))
        && (!(refetched.Ok? && refetched.value != []) ==> StreaksUnchanged())
    {
      if !Selected(selectedMood) {
        inserted := None;
        return;
      }
      if user.None? {
        error := Some(SaveFailed);
        inserted := None;
        return;
      }
      inserted := InsertFor(selectedMood, user, note);
      if !insertOk {
        error := Some(SaveFailed);
        return;
      }
      selectedMood := None;
      note := "";
      ApplyFetch(refetched, today);
    }
  }
}
