/**
 * The dashboard's read-only statistics over the card collection: the due
 * count, the total, the seven-day forecast with overdue cards folded into
 * the first day, the mastery count and the study-time estimate.
 */
module Dashboard {
  import opened Types
  import opened Collections

  /** Intervals longer than this many days count as mastered (three weeks). */
  const MasteryDays: nat := 21
  /** Number of bars in the forecast. */
  const ForecastDays: nat := 7

  /** Number of cards whose review date has arrived. The Start Review button
      is disabled exactly when this is zero. */
  function DueCount(cards: seq<VocabCard>, now: int): (n: nat)
    ensures n <= |cards|
    ensures n == 0 <==> forall c :: c in cards ==> c.nextReviewDate > now
  {
    var due := Filter(cards, DueAt(now));
    FilterMembers(cards, DueAt(now));
    assert |due| > 0 ==> due[0] in due;
    |due|
  }

  /** Number of cards whose review date lies in [lo, hi). */
  function CountBetween(cards: seq<VocabCard>, lo: int, hi: int): (n: nat)
    ensures n <= |cards|
  {
    |Filter(cards, ReviewDateIn(lo, hi))|
  }

  /** The x-axis label of forecast bar i: "Today", then "+1d" to "+6d". */
  function DayLabel(i: nat): string
    requires i < ForecastDays
  {
    if i == 0 then "Today" else "+" + [('0' as int + i) as char] + "d"
  }

  /** Forecast bar i: the cards due during day i from now, plus, on day 0,
      every card already due. */
  function ForecastEntryAt(cards: seq<VocabCard>, now: int, dueCount: nat, i: nat): ForecastEntry
    requires i < ForecastDays
  {
    var dayStart := now + i * OneDay;
    var dayEnd := dayStart + OneDay;
    var count := CountBetween(cards, dayStart, dayEnd);
    ForecastEntry(DayLabel(i), if i == 0 then count + dueCount else count)
  }

  /** The `stats` record the dashboard renders. */
  function ComputeStats(cards: seq<VocabCard>, now: int): (r: ReviewStats)
    ensures r.totalCards == |cards| && r.learnedToday == 0
    ensures r.dueCount == DueCount(cards, now)
    ensures |r.reviewsForecast| == ForecastDays
    ensures r.reviewsForecast[0].count == r.dueCount + CountBetween(cards, now, now + OneDay)
    ensures forall i :: 1 <= i < ForecastDays ==>
              r.reviewsForecast[i].count == CountBetween(cards, now + i * OneDay, now + i * OneDay + OneDay)
  {
    var dueCount := DueCount(cards, now);
    var forecast := seq(ForecastDays, i requires 0 <= i < ForecastDays => ForecastEntryAt(cards, now, dueCount, i));
    ReviewStats(|cards|, 0, dueCount, forecast)
  }

  /** Number of cards spaced more than three weeks out. */
  function MasteryCount(cards: seq<VocabCard>): (n: nat)
    ensures n <= |cards|
    ensures n == 0 <==> forall c :: c in cards ==> c.interval <= MasteryDays
  {
    var longSpaced := (c: VocabCard) => c.interval > MasteryDays;
    var mastered := Filter(cards, longSpaced);
    FilterMembers(cards, longSpaced);
    assert |mastered| > 0 ==> mastered[0] in mastered;
    |mastered|
  }

  /** Minutes of study shown for the due cards: half a minute each, rounded up. */
  function StudyMinutes(dueCount: nat): (m: nat)
    ensures dueCount <= 2 * m <= dueCount + 1
  {
    (dueCount + 1) / 2
  }

  // ---------------------------------------------------------------------------
  // Forecast properties
  // ---------------------------------------------------------------------------

  /** The labels of the seven bars. */
  lemma ForecastLabels(cards: seq<VocabCard>, now: int)
    ensures var f := ComputeStats(cards, now).reviewsForecast;
            |f| == 7 &&
            [f[0].day, f[1].day, f[2].day, f[3].day, f[4].day, f[5].day, f[6].day]
              == ["Today", "+1d", "+2d", "+3d", "+4d", "+5d", "+6d"]
  {
    var f := ComputeStats(cards, now).reviewsForecast;
    assert forall i :: 0 <= i < ForecastDays ==> f[i].day == DayLabel(i);
    DayLabelValues();
  }

  lemma DayLabelValues()
    ensures DayLabel(0) == "Today"
    ensures DayLabel(1) == "+1d" && DayLabel(2) == "+2d" && DayLabel(3) == "+3d"
    ensures DayLabel(4) == "+4d" && DayLabel(5) == "+5d" && DayLabel(6) == "+6d"
  {
  }

  /** The sum of the first k raw day buckets (without the overdue fold). */
  function BucketTotal(cards: seq<VocabCard>, now: int, k: nat): nat
  {
    if k == 0 then 0
    else
      var dayStart := now + (k - 1) * OneDay;
      BucketTotal(cards, now, k - 1) + CountBetween(cards, dayStart, dayStart + OneDay)
  }

  /** The day buckets are disjoint and adjacent: together the first k of them
      count exactly the cards due in the next k days. */
  lemma {:induction false} BucketTotalIsRange(cards: seq<VocabCard>, now: int, k: nat)
    ensures BucketTotal(cards, now, k) == CountBetween(cards, now, now + k * OneDay)
  {
    if k == 0 {
      EmptyRange(cards, now);
    } else {
      var j: nat := k - 1;
      var mid := now + j * OneDay;
      BucketTotalIsRange(cards, now, j);
      BucketTotalStep(cards, now, j);
      CountBetweenSplit(cards, now, mid, mid + OneDay);
    }
  }

  lemma BucketTotalStep(cards: seq<VocabCard>, now: int, j: nat)
    ensures var dayStart := now + j * OneDay;
            now <= dayStart && now + (j + 1) * OneDay == dayStart + OneDay &&
            BucketTotal(cards, now, j + 1) == BucketTotal(cards, now, j) + CountBetween(cards, dayStart, dayStart + OneDay)
  {
  }

  lemma {:induction false} EmptyRange(cards: seq<VocabCard>, lo: int)
    ensures CountBetween(cards, lo, lo) == 0
    decreases |cards|
  {
    if cards != [] {
      EmptyRange(cards[1..], lo);
    }
  }

  /** Adjacent ranges share no card: the count over [lo, hi) is the count over
      [lo, mid) plus the count over [mid, hi). */
  lemma CountBetweenSplit(cards: seq<VocabCard>, lo: int, mid: int, hi: int)
    requires lo <= mid <= hi
    ensures CountBetween(cards, lo, hi) == CountBetween(cards, lo, mid) + CountBetween(cards, mid, hi)
  {
    var whole, left, right := ReviewDateIn(lo, hi), ReviewDateIn(lo, mid), ReviewDateIn(mid, hi);
    assert forall x :: whole(x) <==> (left(x) || right(x));
    assert forall x :: !(left(x) && right(x));
    FilterCountSplit(cards, whole, left, right);
  }

  /** No card is in two raw buckets, so the seven raw counts add up to at most
      the number of cards. */
  lemma ForecastBucketsDisjoint(cards: seq<VocabCard>, now: int)
    ensures BucketTotal(cards, now, ForecastDays) == CountBetween(cards, now, now + ForecastDays * OneDay)
    ensures BucketTotal(cards, now, ForecastDays) <= |cards|
  {
    BucketTotalIsRange(cards, now, ForecastDays);
  }

  /** The sum of the counts of a list of forecast bars. */
  function SumCounts(entries: seq<ForecastEntry>): nat
  {
    if entries == [] then 0 else SumCounts(entries[..|entries| - 1]) + entries[|entries| - 1].count
  }

  /** The bars add up to the overdue cards plus every card due within the week. */
  lemma ForecastTotal(cards: seq<VocabCard>, now: int)
    ensures var r := ComputeStats(cards, now);
            SumCounts(r.reviewsForecast) == r.dueCount + CountBetween(cards, now, now + ForecastDays * OneDay)
  {
    var r := ComputeStats(cards, now);
    var f := r.reviewsForecast;
    PrefixSums(cards, now, r.dueCount, f, ForecastDays);
    assert f[..ForecastDays] == f;
    BucketTotalIsRange(cards, now, ForecastDays);
  }

  /** The first k bars of a forecast shaped like the dashboard's add up to the
      overdue count plus the first k raw buckets. */
  lemma {:induction false} PrefixSums(cards: seq<VocabCard>, now: int, dueCount: nat, f: seq<ForecastEntry>, k: nat)
    requires |f| == ForecastDays
    requires f[0].count == dueCount + CountBetween(cards, now, now + OneDay)
    requires forall i :: 1 <= i < ForecastDays ==>
               f[i].count == CountBetween(cards, now + i * OneDay, now + i * OneDay + OneDay)
    requires 1 <= k <= ForecastDays
    ensures SumCounts(f[..k]) == dueCount + BucketTotal(cards, now, k)
  {
    if k == 1 {
      assert f[..1][..0] == [];
      assert SumCounts(f[..1]) == f[0].count;
    } else {
      var j: nat := k - 1;
      PrefixSums(cards, now, dueCount, f, j);
      assert f[..k][..j] == f[..j];
      assert SumCounts(f[..k]) == SumCounts(f[..j]) + f[j].count;
      BucketTotalStep(cards, now, j);
    }
  }

  /** The Today bar is the overdue count plus the day's range, and the range
      starts at `now` itself: the cards due exactly at `now` (the middle term)
      are counted once as overdue and once more as due today. */
  lemma DueNowCountedTwice(cards: seq<VocabCard>, now: int)
    ensures ComputeStats(cards, now).reviewsForecast[0].count ==
              DueCount(cards, now) + CountBetween(cards, now, now + 1) + CountBetween(cards, now + 1, now + OneDay)
    ensures DueCount(cards, now) == DueCount(cards, now - 1) + CountBetween(cards, now, now + 1)
  {
    CountBetweenSplit(cards, now, now + 1, now + OneDay);
    DueCountLater(cards, now - 1, now);
  }

  /** A count of cards in a range is zero exactly when no card's date is in it. */
  lemma CountBetweenZero(cards: seq<VocabCard>, lo: int, hi: int)
    ensures CountBetween(cards, lo, hi) == 0 <==> forall c :: c in cards ==> !(lo <= c.nextReviewDate < hi)
  {
    var inRange := Filter(cards, ReviewDateIn(lo, hi));
    FilterMembers(cards, ReviewDateIn(lo, hi));
    assert |inRange| > 0 ==> inRange[0] in inRange;
  }

  /** Later, the cards due are the ones due earlier plus those whose date fell
      in between, in (t0, t1]. */
  lemma DueCountLater(cards: seq<VocabCard>, t0: int, t1: int)
    requires t0 <= t1
    ensures DueCount(cards, t1) == DueCount(cards, t0) + CountBetween(cards, t0 + 1, t1 + 1)
  {
    var whole, left, right := DueAt(t1), DueAt(t0), ReviewDateIn(t0 + 1, t1 + 1);
    assert forall x :: whole(x) <==> (left(x) || right(x));
    assert forall x :: !(left(x) && right(x));
    FilterCountSplit(cards, whole, left, right);
  }
}
