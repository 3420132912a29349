/**
 * The quality score a reviewer types in, before it reaches the review rule.
 */
module Reviews {
  import opened Flashcards

  /** What the reviewer entered: nothing, text that is not an integer, or an integer. */
  datatype QualityEntry = Blank | NotANumber | Number(n: int)

  /**
   * The score used for a review: a blank entry, unreadable text and any
   * integer outside 0..5 all count as 0, a total failure.
   */
  function ClampQuality(e: QualityEntry): (q: int)
    ensures 0 <= q <= 5
    ensures e.Number? && 0 <= e.n <= 5 ==> q == e.n
    ensures !(e.Number? && 0 <= e.n <= 5) ==> q == 0
  {
    match e
    case Blank => 0
    case NotANumber => 0
    case Number(n) => if n < 0 || n > 5 then 0 else n
  }

  /**
   * A clamped score never raises the ease by more than 0.10 nor lowers it
   * by more than 0.14 on a successful recall, and every unreadable entry
   * counts as a failed recall.
   */
  lemma ClampedScoreEffect(e: QualityEntry, c: Card, today: int)
    ensures var q := ClampQuality(e);
            var r := Update(c, q, today);
            && (q >= PassQuality ==> c.easeH - 14 <= r.easeH && (c.easeH + 10 >= MinEaseH ==> r.easeH <= c.easeH + 10))
            && (!e.Number? ==> r.repetition == 0 && r.interval == FirstInterval)
  {
    EaseDeltaPassingScores();
  }
}
