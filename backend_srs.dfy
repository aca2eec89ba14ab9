/**
 * The backend's strength-based scheduler: a per-user record of how well a
 * word is known, moving between the "learning" and "review" states.
 *
 * Strength, intervals and due times are exact `real`s; times are in days
 * and the clock read `datetime.now()` is the parameter `now`.
 * `InitialSrs`, `UpdatedSrs` and `IsStrong` state the behaviour on values;
 * the class `UserWord` holds the record's mutable fields and its method
 * `UpdateSrs` is proved to perform `UpdatedSrs` in place.
 */
module BackendSrs {

  /** The shortest interval the scheduler sets on a successful review (about an hour). */
  const MinInterval: real := 0.04

  /** The ratings the scheduler accepts. */
  datatype Rating = Again | Hard | Good

  datatype Option<T> = None | Some(value: T)

  /** The scheduling fields of a user's word. */
  datatype WordSrs = WordSrs(
    status: string,
    strength: real,
    intervalDays: real,
    consecCorrect: int,
    lapses: int,
    dueAt: real
  )

  function RealMax(a: real, b: real): real { if a < b then b else a }
  function RealMin(a: real, b: real): real { if a < b then a else b }

  // ---------------------------------------------------------------------------
  // Reading the rating
  // ---------------------------------------------------------------------------

  function UpperChar(c: char): char
  {
    if 'a' <= c <= 'z' then (c as int - 32) as char else c
  }

  function LowerChar(c: char): char
  {
    if 'A' <= c <= 'Z' then (c as int + 32) as char else c
  }

  /** Upper-casing, restricted to the ASCII letters. */
  function AsciiUpper(s: string): (r: string)
    ensures |r| == |s|
  {
    seq(|s|, i requires 0 <= i < |s| => UpperChar(s[i]))
  }

  function AsciiLower(s: string): (r: string)
    ensures |r| == |s|
  {
    seq(|s|, i requires 0 <= i < |s| => LowerChar(s[i]))
  }

  /** The name under which a rating is sent. */
  function RatingName(r: Rating): string
  {
    match r
    case Again => "AGAIN"
    case Hard => "HARD"
    case Good => "GOOD"
  }

  /** The rating a string names, compared after upper-casing; `None` is the
      `ValueError` the scheduler raises for anything else. */
  function ParseRating(raw: string): (r: Option<Rating>)
    ensures r.Some? <==> exists x: Rating :: AsciiUpper(raw) == RatingName(x)
    ensures r.Some? ==> AsciiUpper(raw) == RatingName(r.value)
  {
    var name := AsciiUpper(raw);
    if name == RatingName(Again) then Some(Again)
    else if name == RatingName(Hard) then Some(Hard)
    else if name == RatingName(Good) then Some(Good)
    else None
  }

  /** A rating's name is read back as that rating in upper or lower case. */
  lemma ParseRatingNames(r: Rating)
    ensures ParseRating(RatingName(r)) == Some(r)
    ensures ParseRating(AsciiLower(RatingName(r))) == Some(r)
  {
    assert AsciiUpper(RatingName(r)) == RatingName(r);
  }

  /** The fourth grade of the browser scheduler is not a rating here, in any
      letter case. */
  lemma EasyIsRejected(raw: string)
    requires AsciiUpper(raw) == "EASY"
    ensures ParseRating(raw) == None
  {
  }

  // ---------------------------------------------------------------------------
  // The record's life cycle on values
  // ---------------------------------------------------------------------------

  /** A newly tracked word: a word the user already knows starts in review
      three days out, any other starts learning and is due at once. */
  function InitialSrs(assumedKnown: bool, now: real): (w: WordSrs)
    ensures w.consecCorrect == 0 && w.lapses == 0
    ensures assumedKnown ==> w.status == "review" && w.strength == 0.7 && w.intervalDays == 3.0 && w.dueAt == now + 3.0
    ensures !assumedKnown ==> w.status == "learning" && w.strength == 0.1 && w.intervalDays == 0.25 && w.dueAt == now
  {
    if assumedKnown then WordSrs("review", 0.7, 3.0, 0, 0, now + 3.0)
    else WordSrs("learning", 0.1, 0.25, 0, 0, now)
  }

  /** The record after one valid review rated `rating` at time `now`. */
  function UpdatedSrs(w: WordSrs, rating: Rating, now: real): (u: WordSrs)
    ensures u.dueAt == now + u.intervalDays && u.intervalDays >= MinInterval
    ensures u.lapses == if rating == Again then w.lapses + 1 else w.lapses
    ensures u.status == "learning" <==> rating == Again || (w.status == "learning" && w.consecCorrect < 1)
  {
    if rating == Again then
      var lapses := w.lapses + 1;
      var interval := if lapses == 1 then MinInterval else 0.25;
      WordSrs("learning", RealMax(0.0, w.strength - 0.3), interval, 0, lapses, now + interval)
    else
      var consec := w.consecCorrect + 1;
      var status := if w.status == "learning" && consec >= 2 then "review" else w.status;
      var strength := RealMin(1.0, w.strength + if rating == Good then 0.15 else 0.05);
      var growth := Growth(rating, strength);
      var interval :=
        if w.intervalDays < MinInterval then (if rating == Good then 1.0 else 0.5)
        else RealMax(MinInterval, w.intervalDays * growth);
      WordSrs(status, strength, interval, consec, w.lapses, now + interval)
  }

  /** The factor a pass multiplies the interval by, from the updated strength. */
  function Growth(rating: Rating, strength: real): real
  {
    if rating == Good then 2.0 + strength else 1.2 + 0.6 * strength
  }

  /** A word counts as strong once it is in review, at least 80% strong and
      spaced at least a week. */
  predicate IsStrong(w: WordSrs)
  {
    w.status == "review" && w.strength >= 0.8 && w.intervalDays >= 7.0
  }

  /** The mutable database record of one user's word. */
  class UserWord {
    const userId: int
    const wordId: int
    const assumedKnown: bool
    var status: string
    var strength: real
    var intervalDays: real
    var consecCorrect: int
    var lapses: int
    var dueAt: real

    function Srs(): WordSrs
      reads this
    {
      WordSrs(status, strength, intervalDays, consecCorrect, lapses, dueAt)
    }

    /** A new record for a word the user starts tracking. */
    constructor InitNew(userId: int, wordId: int, assumedKnown: bool, now: real)
      ensures this.userId == userId && this.wordId == wordId && this.assumedKnown == assumedKnown
      ensures Srs() == InitialSrs(assumedKnown, now)
    {
      this.userId := userId;
      this.wordId := wordId;
      this.assumedKnown := assumedKnown;
      if assumedKnown {
        status, strength, intervalDays := "review", 0.7, 3.0;
        dueAt := now + 3.0;
      } else {
        status, strength, intervalDays := "learning", 0.1, 0.25;
        dueAt := now;
      }
      consecCorrect, lapses := 0, 0;
    }

    /** Applies one review in place. An unknown rating is refused (`ok` is
        false, the `ValueError`) before any field is written. */
    method UpdateSrs(rating: string, now: real) returns (ok: bool)
      modifies this
      ensures ok <==> ParseRating(rating).Some?
      ensures !ok ==> Srs() == old(Srs())
      ensures ok ==> Srs() == UpdatedSrs(old(Srs()), ParseRating(rating).value, now)
    {
      var name := AsciiUpper(rating);
      if name == "AGAIN" {
        lapses := lapses + 1;
        strength := RealMax(0.0, strength - 0.3);
        consecCorrect := 0;
        status := "learning";
        if lapses == 1 {
          intervalDays := MinInterval;
        } else {
          intervalDays := 0.25;
        }
      } else if name == "HARD" || name == "GOOD" {
        consecCorrect := consecCorrect + 1;
        if status == "learning" && consecCorrect >= 2 {
          status := "review";
        }
        var growth: real;
        if name == "GOOD" {
          strength := RealMin(1.0, strength + 0.15);
          growth := 2.0 + strength;
        } else {
          strength := RealMin(1.0, strength + 0.05);
          growth := 1.2 + 0.6 * strength;
        }
        if intervalDays < MinInterval {
          intervalDays := if name == "GOOD" then 1.0 else 0.5;
        } else {
          intervalDays := RealMax(MinInterval, intervalDays * growth);
        }
      } else {
        return false;
      }
      dueAt := now + intervalDays;
      ok := true;
    }
  }

  // ---------------------------------------------------------------------------
  // Properties of one review
  // ---------------------------------------------------------------------------

  /** A lapse: one more lapse, 0.3 less strength down to zero, the streak
      reset, back to learning, and an interval of about an hour on the first
      lapse and six hours on later ones. */
  lemma AgainLapses(w: WordSrs, now: real)
    ensures var u := UpdatedSrs(w, Again, now);
            u.lapses == w.lapses + 1 && u.strength == RealMax(0.0, w.strength - 0.3) &&
            u.consecCorrect == 0 && u.status == "learning" &&
            u.intervalDays == (if w.lapses == 0 then 0.04 else 0.25)
  {
  }

  /** A pass lengthens the streak, keeps the lapse count, and promotes a
      learning word to review on its second consecutive pass; no other status
      changes. */
  lemma PassPromotes(w: WordSrs, rating: Rating, now: real)
    requires rating != Again
    ensures var u := UpdatedSrs(w, rating, now);
            u.consecCorrect == w.consecCorrect + 1 && u.lapses == w.lapses &&
            (w.status == "learning" && w.consecCorrect + 1 >= 2 ==> u.status == "review") &&
            (w.status != "learning" || w.consecCorrect + 1 < 2 ==> u.status == w.status)
  {
  }

  /** Only a lapse sends a word back to learning. */
  lemma OnlyAgainDemotes(w: WordSrs, rating: Rating, now: real)
    requires w.status != "learning"
    requires UpdatedSrs(w, rating, now).status == "learning"
    ensures rating == Again
  {
  }

  /** Strength moves by the rating's step and stays within [0, 1]. */
  lemma StrengthSteps(w: WordSrs, rating: Rating, now: real)
    requires 0.0 <= w.strength <= 1.0
    ensures var s := UpdatedSrs(w, rating, now).strength;
            0.0 <= s <= 1.0 &&
            s == match rating
                 case Again => RealMax(0.0, w.strength - 0.3)
                 case Hard => RealMin(1.0, w.strength + 0.05)
                 case Good => RealMin(1.0, w.strength + 0.15)
  {
  }

  /** A pass never shortens the interval: a sub-hour interval jumps to a day
      (Good) or half a day (Hard), any other is scaled by a growth of at least 1.2. */
  lemma PassNeverShortens(w: WordSrs, rating: Rating, now: real)
    requires rating != Again && 0.0 <= w.strength
    ensures UpdatedSrs(w, rating, now).intervalDays >= w.intervalDays
    ensures UpdatedSrs(w, rating, now).intervalDays >= MinInterval
    ensures w.intervalDays < MinInterval ==>
              UpdatedSrs(w, rating, now).intervalDays == if rating == Good then 1.0 else 0.5
  {
    var u := UpdatedSrs(w, rating, now);
    if w.intervalDays >= MinInterval {
      var growth := Growth(rating, u.strength);
      assert growth >= 1.2;
      assert u.intervalDays == RealMax(MinInterval, w.intervalDays * growth);
      MaxScaled(w.intervalDays, growth);
    } else {
      assert u.intervalDays == if rating == Good then 1.0 else 0.5;
    }
  }

  lemma ScaleUp(x: real, g: real)
    requires x >= 0.0 && g >= 1.0
    ensures x * g >= x
  {
  }

  lemma MaxScaled(x: real, g: real)
    requires x >= 0.0 && g >= 1.0
    ensures RealMax(MinInterval, x * g) >= x
  {
    ScaleUp(x, g);
  }

  /** The interval a pass sets: from an interval of at least the minimum, the
      old interval times the growth, 2 + s' for Good and 1.2 + 0.6 s' for Hard
      where s' is the updated strength, and never below the minimum. */
  lemma PassInterval(w: WordSrs, rating: Rating, now: real)
    requires rating != Again
    ensures var u := UpdatedSrs(w, rating, now);
            w.intervalDays >= MinInterval ==>
              u.intervalDays == RealMax(MinInterval, w.intervalDays *
                                  (if rating == Good then 2.0 + u.strength else 1.2 + 0.6 * u.strength))
  {
  }

  /** A strong word stays strong through every pass: only a lapse ends it. */
  lemma PassKeepsStrong(w: WordSrs, rating: Rating, now: real)
    requires IsStrong(w) && rating != Again
    ensures IsStrong(UpdatedSrs(w, rating, now))
  {
    PassNeverShortens(w, rating, now);
  }

  /** A new record is not strong, and neither is a word just lapsed. */
  lemma NotStrongAfterStartOrLapse(assumedKnown: bool, w: WordSrs, now: real)
    ensures !IsStrong(InitialSrs(assumedKnown, now))
    ensures !IsStrong(UpdatedSrs(w, Again, now))
  {
  }

  /** The worked path of a new word: two Good reviews reach review status
      with strength 0.4 and an interval of 1.35 days. */
  lemma TwoGoodReviewsPromote(t0: real, t1: real, t2: real)
    ensures var w := UpdatedSrs(UpdatedSrs(InitialSrs(false, t0), Good, t1), Good, t2);
            w.status == "review" && w.strength == 0.4 && w.intervalDays == 1.35 &&
            w.consecCorrect == 2 && w.dueAt == t2 + 1.35
  {
  }

  // ---------------------------------------------------------------------------
  // Histories of reviews
  // ---------------------------------------------------------------------------

  /** What every record the scheduler builds satisfies: strength in [0, 1],
      at least the minimum interval, counters not negative, one of the two
      states, and a learning word never on a streak of two. */
  predicate WellFormed(w: WordSrs)
  {
    0.0 <= w.strength <= 1.0 && w.intervalDays >= MinInterval &&
    w.consecCorrect >= 0 && w.lapses >= 0 &&
    (w.status == "learning" || w.status == "review") &&
    (w.status == "learning" ==> w.consecCorrect < 2)
  }

  /** One rating and the time it was given. */
  datatype RatingEvent = RatingEvent(rating: Rating, at: real)

  /** The record after the events were applied in order. */
  function ReplayRatings(w: WordSrs, events: seq<RatingEvent>): WordSrs
    decreases |events|
  {
    if events == [] then w
    else
      var last := events[|events| - 1];
      UpdatedSrs(ReplayRatings(w, events[..|events| - 1]), last.rating, last.at)
  }

  lemma InitialWellFormed(assumedKnown: bool, now: real)
    ensures WellFormed(InitialSrs(assumedKnown, now))
  {
  }

  lemma UpdateKeepsWellFormed(w: WordSrs, rating: Rating, now: real)
    requires WellFormed(w)
    ensures WellFormed(UpdatedSrs(w, rating, now))
  {
  }

  /** Every history of reviews of a new record keeps it well formed, and its
      lapse count is the number of Again ratings in the history. */
  lemma {:induction false} ReplayWellFormed(assumedKnown: bool, now: real, events: seq<RatingEvent>)
    ensures WellFormed(ReplayRatings(InitialSrs(assumedKnown, now), events))
    ensures ReplayRatings(InitialSrs(assumedKnown, now), events).lapses == CountAgain(events)
    decreases |events|
  {
    if events == [] {
      InitialWellFormed(assumedKnown, now);
    } else {
      var init := events[..|events| - 1];
      var last := events[|events| - 1];
      ReplayWellFormed(assumedKnown, now, init);
      UpdateKeepsWellFormed(ReplayRatings(InitialSrs(assumedKnown, now), init), last.rating, last.at);
    }
  }

  /** For records the scheduler builds the interval is never below the
      minimum, so the short-interval case of a pass never applies to them. */
  lemma ShortIntervalCaseUnused(assumedKnown: bool, now: real, events: seq<RatingEvent>)
    ensures !(ReplayRatings(InitialSrs(assumedKnown, now), events).intervalDays < MinInterval)
  {
    ReplayWellFormed(assumedKnown, now, events);
  }

  function CountAgain(events: seq<RatingEvent>): nat
    decreases |events|
  {
    if events == [] then 0
    else CountAgain(events[..|events| - 1]) + if events[|events| - 1].rating == Again then 1 else 0
  }
}
