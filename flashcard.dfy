/**
 * The two decisions of the flashcard component: an answer is submitted for
 * checking only when it is not blank, and a checked answer becomes a grade.
 * The component only ever sends Good or Again to the session controller.
 */
module Flashcard {
  import opened Types
  import opened SrsService

  predicate IsWhitespace(c: char)
  {
    c == ' ' || c == '\t' || c == '\n' || c == '\r' || c == '\U{000B}' || c == '\U{000C}'
  }

  /** Whether an answer passes the blank guard and is sent for checking. */
  function Submits(answer: string): (b: bool)
    ensures b <==> exists i :: 0 <= i < |answer| && !IsWhitespace(answer[i])
    decreases |answer|
  {
    if answer == [] then false
    else if !IsWhitespace(answer[0]) then true
    else
      var b := Submits(answer[1..]);
      assert forall i :: 0 < i < |answer| ==> answer[i] == answer[1..][i - 1];
      b
  }

  /** The grade the Next button sends for a checked answer. */
  function GradeForAnswer(isCorrect: bool): (g: SRSGrade)
    ensures g == Good || g == Again
    ensures isCorrect <==> g != Again
  {
    if isCorrect then Good else Again
  }

  /** "I don't know" is a wrong answer: it resets the card. */
  lemma DontKnowResets(card: VocabCard, now: int)
    ensures CalculateReview(card, GradeForAnswer(false), now).repetition == 0
    ensures CalculateReview(card, GradeForAnswer(false), now).interval == 0
  {
  }

  /** Graded through the flashcard a card's ease never rises: a right answer
      keeps it (after the floor), a wrong one lowers it by 0.2 down to the
      1.3 floor and leaves it there once it is reached. */
  lemma FlashcardNeverRaisesEase(card: VocabCard, isCorrect: bool, now: int)
    ensures var e := CalculateReview(card, GradeForAnswer(isCorrect), now).easeFactor;
            e <= Max(MinEase, card.easeFactor) &&
            (isCorrect ==> e == Max(MinEase, card.easeFactor)) &&
            (!isCorrect ==> e == Max(MinEase, card.easeFactor - AgainPenalty)) &&
            (!isCorrect && card.easeFactor > MinEase ==> e < card.easeFactor) &&
            (!isCorrect && card.easeFactor == MinEase ==> e == MinEase)
  {
  }
}
