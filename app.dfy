/**
 * The study-session controller of the browser application.
 *
 * The component's state is the four fields `cards`, `sessionQueue`,
 * `currentCardIndex` and `view`. Each event handler runs as one atomic step
 * that reads the state of the last render: an update it schedules, such as the
 * re-queue of a failed card, becomes visible only to the next handler call.
 *
 * The pure functions StartReviewStep, GradeCardStep and ExitStudyStep give the
 * state after each handler; the class StudyApp holds the fields and its
 * methods are proved to perform exactly those steps.
 */
module App {
  import opened Types
  import opened Collections
  import opened SrsService
  import Stats = Dashboard

  /** A snapshot of the component's state. */
  datatype AppState = AppState(
    cards: seq<VocabCard>,
    sessionQueue: seq<VocabCard>,
    currentCardIndex: nat,
    view: AppView
  )

  // ---------------------------------------------------------------------------
  // Due selection
  // ---------------------------------------------------------------------------

  predicate SortedByReviewDate(s: seq<VocabCard>)
  {
    forall i, j :: 0 <= i < j < |s| ==> s[i].nextReviewDate <= s[j].nextReviewDate
  }

  /** Inserts `c` into a sorted sequence in front of every card due no earlier. */
  function InsertByReviewDate(c: VocabCard, s: seq<VocabCard>): (r: seq<VocabCard>)
    requires SortedByReviewDate(s)
    ensures SortedByReviewDate(r)
    ensures multiset(r) == multiset(s) + multiset{c}
    ensures |r| == |s| + 1
    ensures r[0] == c || (s != [] && r[0] == s[0])
    decreases |s|
  {
    if s == [] then [c]
    else if c.nextReviewDate <= s[0].nextReviewDate then
      SortedCons(c, s);
      [c] + s
    else
      var rest := InsertByReviewDate(c, s[1..]);
      assert s == [s[0]] + s[1..];
      SortedCons(s[0], rest);
      [s[0]] + rest
  }

  /** A card due no later than the head of a sorted sequence can go in front of it. */
  lemma SortedCons(x: VocabCard, rest: seq<VocabCard>)
    requires SortedByReviewDate(rest)
    requires rest == [] || x.nextReviewDate <= rest[0].nextReviewDate
    ensures SortedByReviewDate([x] + rest)
  {
  }

  /** Insertion sort by ascending review date. */
  function SortByReviewDate(s: seq<VocabCard>): (r: seq<VocabCard>)
    ensures SortedByReviewDate(r)
    ensures multiset(r) == multiset(s)
    decreases |s|
  {
    if s == [] then []
    else
      assert s == [s[0]] + s[1..];
      InsertByReviewDate(s[0], SortByReviewDate(s[1..]))
  }

  /** Inserting keeps the relative order of the cards that share any one
      review date: `c` goes in front of every card due no earlier. */
  lemma {:induction false} InsertKeepsEqualDateOrder(c: VocabCard, s: seq<VocabCard>, d: int)
    requires SortedByReviewDate(s)
    ensures Filter(InsertByReviewDate(c, s), ReviewDateIn(d, d + 1)) == Filter([c] + s, ReviewDateIn(d, d + 1))
    decreases |s|
  {
    if s != [] && c.nextReviewDate > s[0].nextReviewDate {
      var p := ReviewDateIn(d, d + 1);
      var rest := InsertByReviewDate(c, s[1..]);
      InsertKeepsEqualDateOrder(c, s[1..], d);
      assert InsertByReviewDate(c, s) == [s[0]] + rest;
      assert ([s[0]] + rest)[1..] == rest;
      assert ([c] + s)[1..] == s;
      assert ([c] + s[1..])[1..] == s[1..];
      assert !(p(c) && p(s[0]));
    }
  }

  /** The sort is stable: for every review date, the cards due at that date
      appear in the result in the order they had in the input, as with
      JavaScript's stable `Array.prototype.sort`. */
  lemma {:induction false} SortIsStable(s: seq<VocabCard>, d: int)
    ensures Filter(SortByReviewDate(s), ReviewDateIn(d, d + 1)) == Filter(s, ReviewDateIn(d, d + 1))
    decreases |s|
  {
    if s != [] {
      var sorted := SortByReviewDate(s[1..]);
      SortIsStable(s[1..], d);
      InsertKeepsEqualDateOrder(s[0], sorted, d);
      assert ([s[0]] + sorted)[1..] == sorted;
    }
  }

  /** The review queue: the due cards, most overdue first. */
  function SelectDue(cards: seq<VocabCard>, now: int): (due: seq<VocabCard>)
    ensures SortedByReviewDate(due)
    ensures multiset(due) == multiset(Filter(cards, DueAt(now)))
    ensures forall c :: c in due <==> c in cards && c.nextReviewDate <= now
    ensures |due| == Stats.DueCount(cards, now)
  {
    var filtered := Filter(cards, DueAt(now));
    FilterMembers(cards, DueAt(now));
    var due := SortByReviewDate(filtered);
    assert forall c :: c in due <==> c in multiset(filtered);
    assert |due| == |multiset(due)| == |filtered|;
    due
  }

  // ---------------------------------------------------------------------------
  // The handlers as state transitions
  // ---------------------------------------------------------------------------

  /** `prev.map(c => c.id === id ? updated : c)`. */
  function ReplaceById(cards: seq<VocabCard>, id: string, updated: VocabCard): (r: seq<VocabCard>)
    ensures |r| == |cards|
  {
    seq(|cards|, i requires 0 <= i < |cards| => if cards[i].id == id then updated else cards[i])
  }

  /** Start Review: queue the due cards sorted by date and show the first one;
      with nothing due only an alert is shown. */
  function StartReviewStep(st: AppState, now: int): (r: AppState)
    ensures r.cards == st.cards
    ensures r == st || (r.view == Review && r.currentCardIndex == 0 &&
                        |r.sessionQueue| == Stats.DueCount(st.cards, now) > 0)
  {
    var due := SelectDue(st.cards, now);
    if |due| == 0 then st
    else st.(sessionQueue := due, currentCardIndex := 0, view := Review)
  }

  /** Grading `card`: write the rescheduled card back by id, re-queue it when it
      was failed, then advance or finish against the queue length the handler saw. */
  function GradeCardStep(st: AppState, card: VocabCard, grade: SRSGrade, now: int): (r: AppState)
    ensures |r.cards| == |st.cards|
    ensures r.sessionQueue == [] || r.currentCardIndex == st.currentCardIndex + 1
    ensures r.sessionQueue == [] ==> r.view == Dashboard
    ensures |r.sessionQueue| <= |st.sessionQueue| + 1
  {
    var updatedCard := Reschedule(card, grade, now);
    var cards := ReplaceById(st.cards, card.id, updatedCard);
    var queue := if grade == Again then st.sessionQueue + [updatedCard] else st.sessionQueue;
    if st.currentCardIndex < |st.sessionQueue| - 1 then
      st.(cards := cards, sessionQueue := queue, currentCardIndex := st.currentCardIndex + 1)
    else
      var nextIndex := st.currentCardIndex + 1;
      if nextIndex >= |st.sessionQueue| then
        // the queued append runs first, then the queue is cleared
        st.(cards := cards, sessionQueue := [], view := Dashboard)
      else
        assert false; st
  }

  /** Exit Study: back to the dashboard, nothing else touched. */
  function ExitStudyStep(st: AppState): (r: AppState)
    ensures !InSession(r)
  {
    st.(view := Dashboard)
  }

  /** The state holder of the component. */
  class StudyApp {
    var cards: seq<VocabCard>
    var sessionQueue: seq<VocabCard>
    var currentCardIndex: nat
    var view: AppView

    function State(): AppState
      reads this
    {
      AppState(cards, sessionQueue, currentCardIndex, view)
    }

    /** The initial `useState` values, before any saved or seed cards are loaded. */
    constructor ()
      ensures State() == AppState([], [], 0, Dashboard)
    {
      cards, sessionQueue, currentCardIndex, view := [], [], 0, Dashboard;
    }

    method HandleStartReview(now: int)
      modifies this
      ensures State() == StartReviewStep(old(State()), now)
    {
      var due := SelectDue(cards, now);
      if |due| == 0 {
        return;
      }
      sessionQueue := due;
      currentCardIndex := 0;
      view := Review;
    }

    method HandleGradeCard(card: VocabCard, grade: SRSGrade, now: int)
      modifies this
      ensures State() == GradeCardStep(old(State()), card, grade, now)
    {
      // what the handler's closure sees: the values of the last render
      var renderedQueue := sessionQueue;
      var renderedIndex := currentCardIndex;

      var updatedCard := Reschedule(card, grade, now);
      cards := ReplaceById(cards, card.id, updatedCard);

      if grade == Again {
        sessionQueue := sessionQueue + [updatedCard];
      }

      if renderedIndex < |renderedQueue| - 1 {
        currentCardIndex := currentCardIndex + 1;
      } else {
        var nextIndex := renderedIndex + 1;
        if nextIndex >= |renderedQueue| {
          view := Dashboard;
          sessionQueue := [];
        } else {
          assert false;
        }
      }
    }

    method ExitStudy()
      modifies this
      ensures State() == ExitStudyStep(old(State()))
    {
      view := Dashboard;
    }
  }

  // ---------------------------------------------------------------------------
  // Properties of single steps
  // ---------------------------------------------------------------------------

  /** Starting a review queues exactly the due cards, sorted by date, and
      shows the first; the collection is untouched. */
  lemma StartReviewQueuesDueCards(st: AppState, now: int)
    requires exists c :: c in st.cards && c.nextReviewDate <= now
    ensures var r := StartReviewStep(st, now);
            r.view == Review && r.currentCardIndex == 0 && r.cards == st.cards &&
            SortedByReviewDate(r.sessionQueue) &&
            multiset(r.sessionQueue) == multiset(Filter(st.cards, DueAt(now))) &&
            (forall c :: c in r.sessionQueue <==> c in st.cards && c.nextReviewDate <= now)
  {
  }

  /** With nothing due, starting a review changes nothing. */
  lemma StartReviewNothingDue(st: AppState, now: int)
    requires forall c :: c in st.cards ==> c.nextReviewDate > now
    ensures StartReviewStep(st, now) == st
  {
  }

  /** The dashboard computes its due count at time t0 and keeps it until the
      collection changes or the dashboard is shown again; the click on its enabled Start Review button reads
      the clock again at t1. The session then holds the button's count plus
      the cards that fell due in (t0, t1], so it matches the button exactly
      when no card's date lies in between. */
  lemma {:induction false} SessionLengthVsDashboard(st: AppState, t0: int, t1: int)
    requires t0 <= t1
    requires Stats.ComputeStats(st.cards, t0).dueCount > 0
    ensures var shown := Stats.ComputeStats(st.cards, t0).dueCount;
            var n := |StartReviewStep(st, t1).sessionQueue|;
            n == shown + Stats.CountBetween(st.cards, t0 + 1, t1 + 1) && n >= shown &&
            (n == shown <==> forall c :: c in st.cards ==> !(t0 < c.nextReviewDate <= t1))
  {
    Stats.DueCountLater(st.cards, t0, t1);
    Stats.CountBetweenZero(st.cards, t0 + 1, t1 + 1);
  }

  /** Grading replaces every entry with the graded card's id by the card with
      its new schedule, and leaves every other entry as it was. */
  lemma GradeWritesBackById(st: AppState, card: VocabCard, grade: SRSGrade, now: int)
    ensures var r := GradeCardStep(st, card, grade, now);
            var u := Reschedule(card, grade, now);
            |r.cards| == |st.cards| &&
            SameContent(u, card) &&
            (forall i :: 0 <= i < |st.cards| && st.cards[i].id == card.id ==> r.cards[i] == u) &&
            (forall i :: 0 <= i < |st.cards| && st.cards[i].id != card.id ==> r.cards[i] == st.cards[i])
  {
  }

  /** Before the last card: the index moves on by one and the view stays;
      a failed card is appended to the queue, otherwise the queue is unchanged. */
  lemma GradeAdvances(st: AppState, card: VocabCard, grade: SRSGrade, now: int)
    requires st.currentCardIndex < |st.sessionQueue| - 1
    ensures var r := GradeCardStep(st, card, grade, now);
            r.currentCardIndex == st.currentCardIndex + 1 && r.view == st.view &&
            r.sessionQueue == if grade == Again then st.sessionQueue + [Reschedule(card, grade, now)]
                              else st.sessionQueue
  {
  }

  /** At the last card of the queue the handler saw, the session ends: the
      dashboard is shown and the queue emptied, even when that card was just
      failed and re-queued. The index is left where it was. */
  lemma GradeLastCardEndsSession(st: AppState, card: VocabCard, grade: SRSGrade, now: int)
    requires st.currentCardIndex >= |st.sessionQueue| - 1
    ensures var r := GradeCardStep(st, card, grade, now);
            r.view == Dashboard && r.sessionQueue == [] &&
            r.currentCardIndex == st.currentCardIndex &&
            r.cards == ReplaceById(st.cards, card.id, Reschedule(card, grade, now))
  {
  }

  /** Exit Study only switches the view. */
  lemma ExitStudyOnlySwitchesView(st: AppState)
    ensures var r := ExitStudyStep(st);
            r.view == Dashboard && r.cards == st.cards &&
            r.sessionQueue == st.sessionQueue && r.currentCardIndex == st.currentCardIndex
  {
  }

  // ---------------------------------------------------------------------------
  // Whole sessions
  // ---------------------------------------------------------------------------

  /** A flashcard is on screen: the review view with the index inside the queue. */
  predicate InSession(st: AppState)
  {
    st.view == Review && st.currentCardIndex < |st.sessionQueue|
  }

  /** The state after the shown card is graded with each grade in turn, the
      i-th grading reading the clock at `times[i]`; once no card is on screen,
      further grades have nothing to act on. */
  function RunSession(st: AppState, grades: seq<SRSGrade>, times: seq<int>): AppState
    requires |times| == |grades|
    decreases |grades|
  {
    if grades == [] || !InSession(st) then st
    else RunSession(GradeCardStep(st, st.sessionQueue[st.currentCardIndex], grades[0], times[0]), grades[1..], times[1..])
  }

  function Goods(k: nat): (gs: seq<SRSGrade>)
    ensures |gs| == k && forall i :: 0 <= i < k ==> gs[i] == Good
  {
    seq(k, _ => Good)
  }

  /** From position i of a queue of length n, k Good grades, at any times,
      move to position i + k while i + k < n, and end the session when
      i + k reaches n. */
  lemma {:induction false} GoodRun(st: AppState, k: nat, times: seq<int>)
    requires InSession(st)
    requires st.currentCardIndex + k <= |st.sessionQueue|
    requires |times| == k
    ensures var r := RunSession(st, Goods(k), times);
            if st.currentCardIndex + k < |st.sessionQueue| then
              InSession(r) && r.currentCardIndex == st.currentCardIndex + k && r.sessionQueue == st.sessionQueue
            else
              r.view == Dashboard && r.sessionQueue == []
    decreases k
  {
    if k > 0 {
      var next := GradeCardStep(st, st.sessionQueue[st.currentCardIndex], Good, times[0]);
      assert Goods(k)[1..] == Goods(k - 1);
      assert RunSession(st, Goods(k), times) == RunSession(next, Goods(k - 1), times[1..]);
      if st.currentCardIndex < |st.sessionQueue| - 1 {
        GoodRun(next, k - 1, times[1..]);
      } else {
        assert Goods(k - 1) == [];
      }
    }
  }

  /** A session of n due cards started at `now`, all graded Good at any later
      clock readings, ends after exactly n gradings. */
  lemma AllGoodSessionLength(st: AppState, now: int, times: seq<int>)
    requires exists c :: c in st.cards && c.nextReviewDate <= now
    requires |times| == Stats.DueCount(st.cards, now)
    ensures var start := StartReviewStep(st, now);
            var n := Stats.DueCount(st.cards, now);
            (forall k :: 0 <= k < n ==> InSession(RunSession(start, Goods(k), times[..k]))) &&
            RunSession(start, Goods(n), times).view == Dashboard
  {
    var start := StartReviewStep(st, now);
    var n := Stats.DueCount(st.cards, now);
    assert n > 0;
    forall k | 0 <= k <= n
      ensures k < n ==> InSession(RunSession(start, Goods(k), times[..k]))
      ensures k == n ==> RunSession(start, Goods(k), times).view == Dashboard
    {
      GoodRun(start, k, times[..k]);
      assert k == n ==> times[..k] == times;
    }
  }

  /** With at least two due cards, failing the first and passing the rest,
      at any clock readings, ends the session after n + 1 gradings: the failed
      card comes back once. */
  lemma FirstAgainSessionLength(st: AppState, now: int, times: seq<int>)
    requires Stats.DueCount(st.cards, now) >= 2
    requires |times| == Stats.DueCount(st.cards, now) + 1
    ensures var start := StartReviewStep(st, now);
            var n := Stats.DueCount(st.cards, now);
            (forall k :: 0 <= k < n ==> InSession(RunSession(start, [Again] + Goods(k), times[..k + 1]))) &&
            RunSession(start, [Again] + Goods(n), times).view == Dashboard
  {
    var start := StartReviewStep(st, now);
    var n := Stats.DueCount(st.cards, now);
    var failed := GradeCardStep(start, start.sessionQueue[0], Again, times[0]);
    assert |failed.sessionQueue| == n + 1 && failed.currentCardIndex == 1 && InSession(failed);
    forall k | 0 <= k <= n
      ensures k < n ==> InSession(RunSession(start, [Again] + Goods(k), times[..k + 1]))
      ensures k == n ==> RunSession(start, [Again] + Goods(k), times).view == Dashboard
    {
      var ts := times[..k + 1];
      assert k == n ==> ts == times;
      assert ([Again] + Goods(k))[1..] == Goods(k);
      assert ts[0] == times[0];
      assert RunSession(start, [Again] + Goods(k), ts) == RunSession(failed, Goods(k), ts[1..]);
      GoodRun(failed, k, ts[1..]);
    }
  }

  /** With a single due card, failing it ends the session at once, whenever
      the click comes: the re-queued copy is appended and cleared in the same
      step and never shown. */
  lemma SingleCardAgainEndsSession(st: AppState, now: int, t: int)
    requires Stats.DueCount(st.cards, now) == 1
    ensures var r := RunSession(StartReviewStep(st, now), [Again], [t]);
            r.view == Dashboard && r.sessionQueue == []
  {
  }

  /** After Exit Study no flashcard is shown, so no grade reaches the handler. */
  lemma ExitStudyStopsGrading(st: AppState, grades: seq<SRSGrade>, times: seq<int>)
    requires |times| == |grades|
    ensures RunSession(ExitStudyStep(st), grades, times) == ExitStudyStep(st)
  {
  }
}
