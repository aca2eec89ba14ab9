/**
 * The browser's modified SM-2 scheduler: `calculateReview` turns a card and a
 * grade into new scheduling fields, and `createNewCard` is the single way a
 * card comes into existence.
 *
 * The ease factor is in hundredths: 250 is the starting ease 2.5 and 130 the
 * floor 1.3. The clock read `Date.now()` is the parameter `now`.
 */
module SrsService {
  import opened Types

  /** Ease of a freshly created card (2.5). */
  const InitialEase: int := 250
  /** Lowest ease the scheduler ever produces (1.3). */
  const MinEase: int := 130
  /** Ease lost on a failed recall (0.2). */
  const AgainPenalty: int := 20

  /** The fields `calculateReview` returns; the caller spreads them over the card. */
  datatype ReviewUpdate = ReviewUpdate(interval: nat, repetition: nat, easeFactor: int, nextReviewDate: int)

  function Max(a: int, b: int): int { if a < b then b else a }

  /** SM-2 quality score of a successful grade: Hard 3, Good 4, Easy 5. */
  function Quality(grade: SRSGrade): int
  {
    grade.Ordinal() + 2
  }

  /** The SM-2 ease adjustment 0.1 - (5 - q) * (0.08 + (5 - q) * 0.02), in hundredths. */
  function EaseDelta(q: int): int
  {
    10 - (5 - q) * (8 + (5 - q) * 2)
  }

  /** Ceiling of x / 100, the `Math.ceil` of an interval times an ease in hundredths. */
  function CeilHundredths(x: nat): (r: nat)
    ensures x <= 100 * r < x + 100
  {
    (x + 99) / 100
  }

  /** The new scheduling fields after one review graded `grade` at time `now`. */
  function CalculateReview(card: VocabCard, grade: SRSGrade, now: int): (r: ReviewUpdate)
    ensures r.easeFactor >= MinEase
    ensures r.nextReviewDate == now + r.interval * OneDay
    ensures grade == Again <==> r.repetition == 0
    ensures grade != Again ==> r.repetition == card.repetition + 1
  {
    if grade == Again then
      ReviewUpdate(0, 0, Max(MinEase, card.easeFactor - AgainPenalty), now)
    else
      var raised := card.easeFactor + EaseDelta(Quality(grade));
      var ease := if raised < MinEase then MinEase else raised;
      var interval: nat :=
        if card.repetition == 0 then 7
        else if card.repetition == 1 then 14
        else CeilHundredths(card.interval * ease);
      ReviewUpdate(interval, card.repetition + 1, ease, now + interval * OneDay)
  }

  /** The card with the returned fields spread over it (`{ ...card, ...updatedFields }`). */
  function WithSchedule(card: VocabCard, u: ReviewUpdate): (c: VocabCard)
    ensures SameContent(c, card)
    ensures c.interval == u.interval && c.repetition == u.repetition
    ensures c.easeFactor == u.easeFactor && c.nextReviewDate == u.nextReviewDate
  {
    card.(interval := u.interval, repetition := u.repetition,
          easeFactor := u.easeFactor, nextReviewDate := u.nextReviewDate)
  }

  /** The card as it stands after one review: the same word, at or above the
      ease floor, due `interval` days from now, and failed exactly when its
      repetition count is back to 0. */
  function Reschedule(card: VocabCard, grade: SRSGrade, now: int): (c: VocabCard)
    ensures SameContent(c, card)
    ensures c.easeFactor >= MinEase && c.nextReviewDate == now + c.interval * OneDay
    ensures grade == Again <==> c.repetition == 0
  {
    WithSchedule(card, CalculateReview(card, grade, now))
  }

  /** Two cards agree on everything the scheduler does not own. */
  predicate SameContent(a: VocabCard, b: VocabCard)
  {
    a.id == b.id && a.hanzi == b.hanzi && a.pinyin == b.pinyin &&
    a.definition == b.definition && a.exampleSentence == b.exampleSentence &&
    a.exampleTranslation == b.exampleTranslation && a.dateAdded == b.dateAdded
  }

  /** The one constructor for cards; the headword doubles as the identifier. */
  function CreateNewCard(hanzi: string, pinyin: string, definition: string,
                         exampleSentence: string, exampleTranslation: string, now: int): (c: VocabCard)
    ensures c.id == hanzi && c.hanzi == hanzi && c.pinyin == pinyin && c.definition == definition
    ensures c.exampleSentence == exampleSentence && c.exampleTranslation == exampleTranslation
    ensures c.dateAdded == now && c.nextReviewDate == now
    ensures c.interval == 0 && c.repetition == 0 && c.easeFactor == InitialEase
  {
    VocabCard(hanzi, hanzi, pinyin, definition, exampleSentence, exampleTranslation,
              now, now, 0, 0, InitialEase)
  }

  // ---------------------------------------------------------------------------
  // One review
  // ---------------------------------------------------------------------------

  /** A failed recall resets the spacing whatever the card's history; only the
      ease remembers it, lowered by 0.2 down to the floor. */
  lemma AgainResets(card: VocabCard, now: int)
    ensures CalculateReview(card, Again, now)
         == ReviewUpdate(0, 0, Max(MinEase, card.easeFactor - AgainPenalty), now)
    ensures card.easeFactor >= MinEase + AgainPenalty ==>
              CalculateReview(card, Again, now).easeFactor == card.easeFactor - AgainPenalty
  {
  }

  /** The SM-2 formula, evaluated for the three successful grades: Hard lowers
      the ease by 0.14, Good keeps it, Easy raises it by 0.10, then the floor. */
  lemma SuccessEase(card: VocabCard, grade: SRSGrade, now: int)
    requires grade != Again
    ensures var delta := match grade
              case Hard => -14
              case Good => 0
              case _ => 10;
            CalculateReview(card, grade, now).easeFactor == Max(MinEase, card.easeFactor + delta)
  {
  }

  /** The two fixed early steps: one week after the first success, two weeks after the second. */
  lemma EarlyIntervals(card: VocabCard, grade: SRSGrade, now: int)
    requires grade != Again
    ensures card.repetition == 0 ==> CalculateReview(card, grade, now).interval == 7
    ensures card.repetition == 1 ==> CalculateReview(card, grade, now).interval == 14
  {
  }

  /** From the third success on, the interval is the old interval times the
      updated ease, rounded up; since that ease is at least 1.3 it never shrinks. */
  lemma LaterIntervalGrows(card: VocabCard, grade: SRSGrade, now: int)
    requires grade != Again && card.repetition >= 2
    ensures var r := CalculateReview(card, grade, now);
            card.interval * r.easeFactor <= 100 * r.interval < card.interval * r.easeFactor + 100
    ensures CalculateReview(card, grade, now).interval >= card.interval
  {
  }

  /** The worked example: interval 14, repetition 2, ease 2.5, graded Good,
      gives ease 2.5, interval ceil(14 * 2.5) = 35 and repetition 3. */
  lemma WorkedExample(card: VocabCard, now: int)
    requires card.interval == 14 && card.repetition == 2 && card.easeFactor == 250
    ensures CalculateReview(card, Good, now) == ReviewUpdate(35, 3, 250, now + 35 * OneDay)
  {
  }

  /** A new card is due the moment it is created; failing it at once leaves
      ease 2.3, passing it schedules it a week out. */
  lemma NewCardFirstReview(hanzi: string, pinyin: string, definition: string,
                           sentence: string, translation: string, now: int, later: int)
    requires now <= later
    ensures var c := CreateNewCard(hanzi, pinyin, definition, sentence, translation, now);
            DueAt(later)(c) &&
            CalculateReview(c, Again, later) == ReviewUpdate(0, 0, 230, later) &&
            CalculateReview(c, Good, later) == ReviewUpdate(7, 1, 250, later + 7 * OneDay)
  {
  }

  // ---------------------------------------------------------------------------
  // A history of reviews
  // ---------------------------------------------------------------------------

  /** One grading event: the grade and the time it was given. */
  datatype GradeEvent = GradeEvent(grade: SRSGrade, at: int)

  /** The card after the events were applied in order. */
  function Replay(card: VocabCard, events: seq<GradeEvent>): VocabCard
    decreases |events|
  {
    if events == [] then card
    else
      var last := events[|events| - 1];
      Reschedule(Replay(card, events[..|events| - 1]), last.grade, last.at)
  }

  /** The number of successful grades after the last failure. */
  function TrailingSuccesses(events: seq<GradeEvent>): nat
    decreases |events|
  {
    if events == [] || events[|events| - 1].grade == Again then 0
    else TrailingSuccesses(events[..|events| - 1]) + 1
  }

  predicate HasFailure(events: seq<GradeEvent>)
  {
    exists i :: 0 <= i < |events| && events[i].grade == Again
  }

  /** Replay never touches a card's content, and after at least one review the
      ease is at or above the floor, whatever the grades. */
  lemma {:induction false} ReplayKeepsContentAndFloor(card: VocabCard, events: seq<GradeEvent>)
    ensures SameContent(Replay(card, events), card)
    ensures events != [] || card.easeFactor >= MinEase ==> Replay(card, events).easeFactor >= MinEase
    decreases |events|
  {
    if events != [] {
      ReplayKeepsContentAndFloor(card, events[..|events| - 1]);
    }
  }

  /** The repetition count is the length of the current run of successes: the
      successes since the last failure, or the old count plus every review if
      there was no failure. */
  lemma {:induction false} ReplayRepetitionIsStreak(card: VocabCard, events: seq<GradeEvent>)
    ensures Replay(card, events).repetition ==
              if HasFailure(events) then TrailingSuccesses(events)
              else card.repetition + |events|
    decreases |events|
  {
    if events != [] {
      var init := events[..|events| - 1];
      ReplayRepetitionIsStreak(card, init);
      var last := events[|events| - 1];
      if last.grade != Again {
        assert HasFailure(events) <==> HasFailure(init) by {
          if HasFailure(events) {
            var i :| 0 <= i < |events| && events[i].grade == Again;
            assert i < |init| && init[i] == events[i];
          }
          if HasFailure(init) {
            var i :| 0 <= i < |init| && init[i].grade == Again;
            assert events[i] == init[i];
          }
        }
      } else {
        assert HasFailure(events);
      }
    }
  }

  /** What the first two fixed steps leave behind: a card with no success yet
      is spaced at most a week, one with one success at most two weeks. */
  predicate EarlySpacing(c: VocabCard)
  {
    (c.repetition == 0 ==> c.interval <= 7) && (c.repetition == 1 ==> c.interval <= 14)
  }

  /** Every review keeps the early spacing, and a successful review of such a
      card never shortens its interval. */
  lemma SuccessNeverShortens(c: VocabCard, grade: SRSGrade, now: int)
    requires EarlySpacing(c)
    ensures EarlySpacing(Reschedule(c, grade, now))
    ensures grade != Again ==> Reschedule(c, grade, now).interval >= c.interval
  {
  }

  /** Along a run of successful reviews of a new or just failed card, the
      interval never decreases: step i is spaced no further than step j >= i. */
  lemma {:induction false} SuccessRunMonotone(card: VocabCard, events: seq<GradeEvent>, i: nat, j: nat)
    requires EarlySpacing(card)
    requires forall k :: 0 <= k < |events| ==> events[k].grade != Again
    requires i <= j <= |events|
    ensures EarlySpacing(Replay(card, events[..j]))
    ensures Replay(card, events[..i]).interval <= Replay(card, events[..j]).interval
    decreases j
  {
    if j > 0 {
      var prev := events[..j - 1];
      assert events[..j][..j - 1] == prev;
      if i < j {
        SuccessRunMonotone(card, events, i, j - 1);
      } else {
        SuccessRunMonotone(card, events, j - 1, j - 1);
      }
      SuccessNeverShortens(Replay(card, prev), events[j - 1].grade, events[j - 1].at);
    } else {
      assert events[..0] == [];
    }
  }

  /** A freshly created card starts with the early spacing. */
  lemma NewCardEarlySpacing(hanzi: string, pinyin: string, definition: string,
                            sentence: string, translation: string, now: int)
    ensures EarlySpacing(CreateNewCard(hanzi, pinyin, definition, sentence, translation, now))
  {
  }
}
