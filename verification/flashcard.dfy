/**
 * A flashcard and the SM-2 style rule that reschedules it after a review.
 *
 * Calendar dates are whole day numbers and the current date is passed in
 * as `today` instead of being read from a clock.
 *
 * The ease factor is held as a whole number of hundredths (2.5 is 250, the
 * floor 1.3 is 130). Every ease adjustment and the interval product are
 * therefore computed with exact rational semantics. LEARNY keeps the
 * ease in a binary float, where sums such as 2.5 + 0.1 are not exact, so in
 * rare cases its truncated interval can differ from the exact one by a day;
 * that divergence is deliberately not modelled.
 */
module Flashcards {

  /** Scheduling defaults of a freshly created card. */
  const InitialInterval: int := 1
  const InitialEaseH: int := 250
  const InitialRepetition: int := 0

  /** Lowest ease factor (1.3) a successful review may leave behind. */
  const MinEaseH: int := 130

  /** Lowest quality score that counts as a successful recall. */
  const PassQuality: int := 3

  /** Intervals, in days, after the first and second successful recall. */
  const FirstInterval: int := 1
  const SecondInterval: int := 6

  datatype Card = Card(
    question: string,
    answer: string,
    interval: int,     // days until the next review
    reviewDate: int,   // day number on which the card becomes due
    easeH: int,        // ease factor, in hundredths
    repetition: int)   // consecutive successful recalls

  /** The scheduling invariant: every card this model creates or updates keeps it. */
  predicate Valid(c: Card)
  {
    c.interval >= 1 && c.easeH >= MinEaseH && c.repetition >= 0
  }

  /** A card is due on every day from its review date on (inclusive). */
  predicate IsDue(c: Card, today: int)
  {
    c.reviewDate <= today
  }

  /** A card constructed from its question and answer, all scheduling fields defaulted. */
  function NewCard(question: string, answer: string, today: int): (c: Card)
    ensures c.question == question && c.answer == answer
    ensures c.interval == InitialInterval && c.easeH == InitialEaseH && c.repetition == InitialRepetition
    ensures Valid(c)
    ensures IsDue(c, today) && !IsDue(c, today - 1)
  {
    Card(question, answer, InitialInterval, today, InitialEaseH, InitialRepetition)
  }

  /** `q` is the exact quotient a / b rounded toward zero. */
  predicate IsTruncQuotient(q: int, a: int, b: int)
  {
    && (a >= 0 ==> 0 <= q && q * b <= a < q * b + b)
    && (a < 0 ==> q <= 0 && q * b - b < a <= q * b)
  }

  /**
   * A number of hundredths converted to a whole number, rounding toward
   * zero as `int()` does.
   */
  function TruncHundredths(a: int): (q: int)
    ensures IsTruncQuotient(q, a, 100)
  {
    if a >= 0 then a / 100 else -((-a) / 100)
  }

  /**
   * Change of the ease factor, in hundredths, after a recall of the given
   * quality: 0.1 - d * (0.08 + d * 0.02) with d = 5 - quality, scaled by 100.
   */
  function EaseDelta(quality: int): int
  {
    var d := 5 - quality;
    10 - d * (8 + 2 * d)
  }

  /**
   * The review rule. Any integer quality is accepted, as in LEARNY;
   * callers are expected to clamp it to 0..5 first.
   */
  function Update(c: Card, quality: int, today: int): (r: Card)
    ensures r.question == c.question && r.answer == c.answer
    ensures r.reviewDate == today + r.interval
    // a failed recall forgets the streak and restarts at one day
    ensures quality < PassQuality ==>
      r.repetition == 0 && r.interval == FirstInterval && r.easeH == c.easeH
    // a successful recall extends the streak by exactly one
    ensures quality >= PassQuality ==> r.repetition == c.repetition + 1
    // and moves the ease by the quality's delta, never below the floor
    ensures quality >= PassQuality ==>
      && r.easeH >= MinEaseH
      && r.easeH >= c.easeH + EaseDelta(quality)
      && (r.easeH == MinEaseH || r.easeH == c.easeH + EaseDelta(quality))
    // the new interval is chosen by the streak before the review
    ensures quality >= PassQuality && c.repetition == 0 ==> r.interval == FirstInterval
    ensures quality >= PassQuality && c.repetition == 1 ==> r.interval == SecondInterval
    ensures quality >= PassQuality && c.repetition != 0 && c.repetition != 1 ==>
      IsTruncQuotient(r.interval, c.interval * c.easeH, 100)
  {
    if quality < PassQuality then
      c.(repetition := 0, interval := FirstInterval, reviewDate := today + FirstInterval)
    else
      var interval :=
        if c.repetition == 0 then FirstInterval
        else if c.repetition == 1 then SecondInterval
        else TruncHundredths(c.interval * c.easeH);
      var ease := c.easeH + EaseDelta(quality);
      c.(interval := interval,
         reviewDate := today + interval,
         easeH := if ease < MinEaseH then MinEaseH else ease,
         repetition := c.repetition + 1)
  }

  /** The ease moves by +0.10, 0 and -0.14 for qualities 5, 4 and 3. */
  lemma EaseDeltaPassingScores()
    ensures EaseDelta(5) == 10 && EaseDelta(4) == 0 && EaseDelta(3) == -14
    ensures forall q :: PassQuality <= q <= 5 ==> -14 <= EaseDelta(q) <= 10
  {
  }

  /** A valid card stays valid under any review. */
  lemma UpdatePreservesValid(c: Card, quality: int, today: int)
    requires Valid(c)
    ensures Valid(Update(c, quality, today))
  {
    if quality >= PassQuality && c.repetition >= 2 {
      IntervalNeverShrinks(c, quality, today);
    }
  }

  /**
   * Once the streak is past its first two steps, a successful review of a
   * valid card multiplies the interval by at least 1.3 (rounded down), so
   * the interval never shrinks.
   */
  lemma IntervalNeverShrinks(c: Card, quality: int, today: int)
    requires Valid(c) && quality >= PassQuality && c.repetition >= 2
    ensures Update(c, quality, today).interval >= c.interval * MinEaseH / 100
    ensures Update(c, quality, today).interval >= c.interval
  {
    var r := Update(c, quality, today);
    var p := c.interval * c.easeH;
    assert p >= c.interval * MinEaseH;
    assert r.interval * 100 <= p < r.interval * 100 + 100;
    var k := c.interval * MinEaseH / 100;
    assert k * 100 <= c.interval * MinEaseH;
    assert k < r.interval + 1;
  }

  /**
   * A reviewed valid card is scheduled strictly after the review day, so it
   * is never due again on the day it was reviewed.
   */
  lemma ReviewedCardNotDueToday(c: Card, quality: int, today: int)
    requires Valid(c)
    ensures Update(c, quality, today).reviewDate > today
    ensures !IsDue(Update(c, quality, today), today)
  {
    UpdatePreservesValid(c, quality, today);
  }

  /**
   * A failed recall forgets the card's history: the result depends only on
   * the card's text and ease factor, not on its interval, review date or
   * streak.
   */
  lemma FailedRecallForgetsHistory(c1: Card, c2: Card, quality: int, today: int)
    requires quality < PassQuality
    requires c1.question == c2.question && c1.answer == c2.answer && c1.easeH == c2.easeH
    ensures Update(c1, quality, today) == Update(c2, quality, today)
  {
  }

  /**
   * Day numbers are proleptic Gregorian ordinals, as `date.toordinal()`
   * counts them: 0001-01-01 is day 1, and 9999-12-31, the last date a
   * Python `date` can hold, is day 3652059.
   */
  const MinDay: int := 1
  const MaxDay: int := 3652059

  /**
   * A review as the program performs it. Either the card is rescheduled,
   * or the new review date falls outside the representable dates and an
   * `OverflowError` is raised; by then the interval, ease and streak have
   * already been overwritten while the review date keeps its old value.
   */
  datatype ReviewOutcome = Rescheduled(card: Card) | DateOverflow(partial: Card)

  function TryUpdate(c: Card, quality: int, today: int): (r: ReviewOutcome)
    ensures var u := Update(c, quality, today);
            r.Rescheduled? <==> MinDay <= today + u.interval <= MaxDay
    ensures r.Rescheduled? ==> r.card == Update(c, quality, today)
    ensures r.DateOverflow? ==>
      && r.partial.reviewDate == c.reviewDate
      && r.partial.(reviewDate := 0) == Update(c, quality, today).(reviewDate := 0)
  {
    var u := Update(c, quality, today);
    if MinDay <= u.reviewDate <= MaxDay then Rescheduled(u)
    else DateOverflow(u.(reviewDate := c.reviewDate))
  }

  /**
   * A failed recall of any card on any day but the last representable one
   * always reschedules, one day later.
   */
  lemma FailedRecallNeverOverflows(c: Card, quality: int, today: int)
    requires quality < PassQuality && MinDay - 1 <= today < MaxDay
    ensures TryUpdate(c, quality, today) == Rescheduled(Update(c, quality, today))
    ensures Update(c, quality, today).reviewDate == today + 1
  {
  }

  /**
   * Fourteen perfect recalls of a new card on one day: the first thirteen
   * reschedule, the thirteenth to 1976591 days ahead, and the fourteenth
   * overflows the date range with an interval of 7511045 days, leaving the
   * card half-updated.
   */
  lemma PerfectRunOverflows(today: int)
    requires MinDay <= today <= MaxDay - 1976591
    ensures var c13 := Card("q", "a", 1976591, today + 1976591, 380, 13);
            var r := TryUpdate(c13, 5, today);
            && r.DateOverflow?
            && r.partial == Card("q", "a", 7511045, today + 1976591, 390, 14)
    ensures var c0 := NewCard("q", "a", today);
            var c1 := Update(c0, 5, today);
            var c2 := Update(c1, 5, today);
            var c3 := Update(c2, 5, today);
            var c4 := Update(c3, 5, today);
            var c5 := Update(c4, 5, today);
            var c6 := Update(c5, 5, today);
            var c7 := Update(c6, 5, today);
            var c8 := Update(c7, 5, today);
            var c9 := Update(c8, 5, today);
            var c10 := Update(c9, 5, today);
            var c11 := Update(c10, 5, today);
            var c12 := Update(c11, 5, today);
            var c13 := Update(c12, 5, today);
            && c13 == Card("q", "a", 1976591, today + 1976591, 380, 13)
            && TryUpdate(c12, 5, today).Rescheduled?
            && TryUpdate(c13, 5, today).DateOverflow?
  {
    var c0 := NewCard("q", "a", today);
    var c1 := Update(c0, 5, today);
    assert c1 == Card("q", "a", 1, today + 1, 260, 1);
    var c2 := Update(c1, 5, today);
    assert c2 == Card("q", "a", 6, today + 6, 270, 2);
    var c3 := Update(c2, 5, today);
    assert c3 == Card("q", "a", 16, today + 16, 280, 3);
    var c4 := Update(c3, 5, today);
    assert c4 == Card("q", "a", 44, today + 44, 290, 4);
    var c5 := Update(c4, 5, today);
    assert c5 == Card("q", "a", 127, today + 127, 300, 5);
    var c6 := Update(c5, 5, today);
    assert c6 == Card("q", "a", 381, today + 381, 310, 6);
    var c7 := Update(c6, 5, today);
    assert c7 == Card("q", "a", 1181, today + 1181, 320, 7);
    var c8 := Update(c7, 5, today);
    assert c8 == Card("q", "a", 3779, today + 3779, 330, 8);
    var c9 := Update(c8, 5, today);
    assert c9 == Card("q", "a", 12470, today + 12470, 340, 9);
    var c10 := Update(c9, 5, today);
    assert c10 == Card("q", "a", 42398, today + 42398, 350, 10);
    var c11 := Update(c10, 5, today);
    assert c11 == Card("q", "a", 148393, today + 148393, 360, 11);
    var c12 := Update(c11, 5, today);
    assert c12 == Card("q", "a", 534214, today + 534214, 370, 12);
    var c13 := Update(c12, 5, today);
    assert c13 == Card("q", "a", 1976591, today + 1976591, 380, 13);
    assert TryUpdate(c12, 5, today).Rescheduled?;
    assert Update(c13, 5, today).interval == 7511045;
  }

  /** A review: the quality score given and the day it was given on. */
  datatype Review = Review(quality: int, day: int)

  /** The card after a series of reviews, applied in order. */
  function Replay(c: Card, reviews: seq<Review>): (r: Card)
    ensures r.question == c.question && r.answer == c.answer
    ensures Valid(c) ==> Valid(r)
    ensures |reviews| > 0 ==> r.reviewDate == reviews[|reviews| - 1].day + r.interval
    decreases |reviews|
  {
    if |reviews| == 0 then c
    else
      var next := Update(c, reviews[0].quality, reviews[0].day);
      assert Valid(c) ==> Valid(next) by {
        if Valid(c) {
          UpdatePreservesValid(c, reviews[0].quality, reviews[0].day);
        }
      }
      Replay(next, reviews[1..])
  }

  predicate AllPassing(reviews: seq<Review>)
  {
    forall i :: 0 <= i < |reviews| ==> reviews[i].quality >= PassQuality
  }

  /**
   * A run of successful recalls adds one to the streak per review and,
   * once the streak has passed its first two steps, never shortens the
   * interval.
   */
  lemma {:induction false} PassingRunGrows(c: Card, reviews: seq<Review>)
    requires Valid(c) && AllPassing(reviews)
    ensures Replay(c, reviews).repetition == c.repetition + |reviews|
    ensures c.repetition >= 2 ==> Replay(c, reviews).interval >= c.interval
    decreases |reviews|
  {
    if |reviews| > 0 {
      var next := Update(c, reviews[0].quality, reviews[0].day);
      UpdatePreservesValid(c, reviews[0].quality, reviews[0].day);
      if c.repetition >= 2 {
        IntervalNeverShrinks(c, reviews[0].quality, reviews[0].day);
      }
      assert AllPassing(reviews[1..]) by {
        forall i | 0 <= i < |reviews[1..]|
          ensures reviews[1..][i].quality >= PassQuality
        {
          assert reviews[1..][i] == reviews[i + 1];
        }
      }
      PassingRunGrows(next, reviews[1..]);
    }
  }

  /** Replaying one more review is updating the replayed card once more. */
  lemma {:induction false} ReplaySnoc(c: Card, reviews: seq<Review>, x: Review)
    ensures Replay(c, reviews + [x]) == Update(Replay(c, reviews), x.quality, x.day)
    decreases |reviews|
  {
    if |reviews| == 0 {
      assert reviews + [x] == [x];
      assert [x][1..] == [];
    } else {
      assert (reviews + [x])[0] == reviews[0];
      assert (reviews + [x])[1..] == reviews[1..] + [x];
      ReplaySnoc(Update(c, reviews[0].quality, reviews[0].day), reviews[1..], x);
    }
  }

  /**
   * From a new card, successful recalls give the interval 1, then exactly
   * 6, then never less than 6.
   */
  lemma {:induction false} FreshCardPassingRun(question: string, answer: string, created: int, reviews: seq<Review>)
    requires AllPassing(reviews)
    ensures |reviews| == 1 ==> Replay(NewCard(question, answer, created), reviews).interval == FirstInterval
    ensures |reviews| == 2 ==> Replay(NewCard(question, answer, created), reviews).interval == SecondInterval
    ensures |reviews| >= 2 ==> Replay(NewCard(question, answer, created), reviews).interval >= SecondInterval
  {
    var c := NewCard(question, answer, created);
    if |reviews| >= 1 {
      var c1 := Update(c, reviews[0].quality, reviews[0].day);
      assert Replay(c, reviews) == Replay(c1, reviews[1..]);
      if |reviews| >= 2 {
        var rest := reviews[1..];
        var c2 := Update(c1, rest[0].quality, rest[0].day);
        assert Replay(c1, rest) == Replay(c2, rest[1..]);
        assert c2.interval == SecondInterval && c2.repetition == 2;
        UpdatePreservesValid(c, reviews[0].quality, reviews[0].day);
        UpdatePreservesValid(c1, rest[0].quality, rest[0].day);
        assert AllPassing(rest[1..]) by {
          forall i | 0 <= i < |rest[1..]|
            ensures rest[1..][i].quality >= PassQuality
          {
            assert rest[1..][i] == reviews[i + 2];
          }
        }
        PassingRunGrows(c2, rest[1..]);
      }
    }
  }

  /**
   * From the third successful recall of a new card on, each recall gives an
   * interval at least as long as the one before it.
   */
  lemma FreshCardIntervalsNonDecreasing(question: string, answer: string, created: int, reviews: seq<Review>, k: int)
    requires AllPassing(reviews) && 2 <= k < |reviews|
    ensures var c := NewCard(question, answer, created);
            Replay(c, reviews[..k + 1]).interval >= Replay(c, reviews[..k]).interval
  {
    var c := NewCard(question, answer, created);
    var before := reviews[..k];
    assert reviews[..k + 1] == before + [reviews[k]];
    ReplaySnoc(c, before, reviews[k]);
    assert AllPassing(before) by {
      forall i | 0 <= i < |before|
        ensures before[i].quality >= PassQuality
      {
        assert before[i] == reviews[i];
      }
    }
    PassingRunGrows(c, before);
    IntervalNeverShrinks(Replay(c, before), reviews[k].quality, reviews[k].day);
  }

  /** Three perfect recalls of a new card, all on its creation day. */
  lemma ThreePerfectRecalls(today: int)
    ensures var c1 := Update(NewCard("2+2", "4", today), 5, today);
            var c2 := Update(c1, 5, today);
            var c3 := Update(c2, 5, today);
            && c1.interval == 1 && c1.repetition == 1 && c1.easeH == 260
            && c2.interval == 6 && c2.repetition == 2 && c2.easeH == 270
            && c3.interval == 16 && c3.repetition == 3 && c3.easeH == 280
            && c3.reviewDate == today + 16
  {
  }

  /** A lapse after a streak of three collapses the schedule to one day. */
  lemma LapseAfterStreak(today: int)
    ensures var c := Card("q", "a", 20, today, 250, 3);
            var r := Update(c, 1, today);
            r.repetition == 0 && r.interval == 1 && r.reviewDate == today + 1 && r.easeH == 250
  {
  }
}
