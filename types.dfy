/**
 * The shared record types of the browser trainer: grades, vocabulary cards,
 * views and dashboard statistics.
 *
 * Timestamps are integer epoch milliseconds. The ease factor is held in
 * integer hundredths (250 stands for 2.5), which keeps the SM-2 arithmetic exact.
 */
module Types {

  /** Length of one day in milliseconds (24 * 60 * 60 * 1000). */
  const OneDay: int := 86400000

  /** Recall quality of one review, ordered Again < Hard < Good < Easy. */
  datatype SRSGrade = Again | Hard | Good | Easy {
    /** The numeric value of the enumeration member (0, 1, 2, 3). */
    function Ordinal(): (n: nat)
      ensures n < 4
      ensures (n == 0) <==> this == Again
    {
      match this
      case Again => 0
      case Hard => 1
      case Good => 2
      case Easy => 3
    }
  }

  /** One vocabulary card: immutable content plus its scheduling state. */
  datatype VocabCard = VocabCard(
    id: string,
    hanzi: string,
    pinyin: string,
    definition: string,
    exampleSentence: string,
    exampleTranslation: string,
    dateAdded: int,
    nextReviewDate: int,
    interval: nat,       // days
    repetition: nat,     // consecutive successful reviews
    easeFactor: int      // hundredths
  )

  /** The screens the application can show. */
  datatype AppView = Dashboard | Review | Learning | Settings

  /** One bar of the seven-day review forecast. */
  datatype ForecastEntry = ForecastEntry(day: string, count: nat)

  /** The counters the dashboard displays. */
  datatype ReviewStats = ReviewStats(
    totalCards: nat,
    learnedToday: nat,
    dueCount: nat,
    reviewsForecast: seq<ForecastEntry>
  )

  /** The test `c.nextReviewDate <= now` shared by the due filter and the dashboard. */
  function DueAt(now: int): VocabCard -> bool
  {
    (c: VocabCard) => c.nextReviewDate <= now
  }

  /** Membership of a card's review date in the half-open range [lo, hi). */
  function ReviewDateIn(lo: int, hi: int): VocabCard -> bool
  {
    (c: VocabCard) => lo <= c.nextReviewDate < hi
  }
}
