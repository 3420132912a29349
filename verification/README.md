# LEARNY scheduler and deck, in Dafny

This project models the core of LEARNY, a flashcard program that schedules
reviews with an SM-2 style spaced-repetition rule. The core lives in
`learny/models.py`:

- a `Flashcard` holds a question, an answer and four scheduling fields: the
  interval in days, the review date, the ease factor and the repetition
  (streak) count;
- `Flashcard.update(quality)` reschedules the card after a review;
- a `Deck` is an ordered list of cards with `add_card`, `due_cards` and
  `stats`.

The model is functional. A card is the immutable datatype
`Flashcards.Card`, and `Flashcards.Update(card, quality, today)` returns the
rescheduled card. A deck is `Decks.Deck`, a name and a `seq<Card>`; adding a
card returns the new deck and the card. The review loop's rule for reading a
quality score (`learny/srs.py`) is the small module `Reviews`.

Modelling choices:

- Dates are whole day numbers, counted as `date.toordinal()` counts them
  (0001-01-01 is day 1, 9999-12-31 is day 3652059). The clock read
  `date.today()` is replaced by a `today` parameter.
- `Flashcards.Update` is the rescheduling rule on unbounded day numbers.
  `Flashcards.TryUpdate` adds the date range: when today plus the new
  interval is past 9999-12-31 (or before 0001-01-01), Python raises
  `OverflowError` at `learny/models.py:30` after lines 16-29 have already
  changed the interval, ease and streak. `TryUpdate` returns that
  half-updated card as `DateOverflow`. Fourteen perfect recalls of a new card
  on one day reach this (`Flashcards.PerfectRunOverflows`).
- The ease factor is an integer number of hundredths: 250 at creation, floor
  130. The adjustment `0.1 - d*(0.08 + d*0.02)`, with `d = 5 - quality`, is
  exactly `10 - d*(8 + 2*d)` hundredths. It gives +10, 0 and -14 for
  qualities 5, 4 and 3.
- The interval product `int(interval * ease_factor)` is computed with exact
  rationals as `(interval * easeH) / 100`, rounded toward zero like Python's
  `int()`. Rounding toward zero is written out (`Flashcards.TruncHundredths`),
  because Dafny's `/` rounds down, and the `Flashcard` dataclass does not check
  its fields, so a card built with other values can make the product negative.
- Card fields are plain integers, as in the dataclass. `Flashcards.Valid`
  (interval at least 1, ease at least 1.3, repetition not negative) is an
  invariant that new cards have and every review keeps; `Update` itself
  accepts any card and any integer quality, as the Python program does.
- The repetition count is compared with `== 0`, `== 1` and otherwise, as in the
  source, so a negative count takes the multiplicative branch.
- The Python program updates a card in place, and `due_cards` returns the deck's own
  card objects. The front ends review a due card and the deck sees the change
  (`learny/web.py:69-71`, `learny/gui.py:97`). `Decks.ReviewAt` models this as
  replacing card `i` of the deck with its update.

The tests call `to_dict`, `from_dict` and a `tags` argument
(`tests/test_models.py:13-18,28`). `learny/models.py` defines none of them,
so the model has none of them either.

## Model

| member | source | states |
|---|---|---|
| Flashcards.NewCard | learny/models.py:5-12 | a new card keeps its question and answer, starts with interval 1, ease 2.5 and repetition 0, satisfies the scheduling invariant, and is due from its creation day but not the day before |
| Flashcards.TruncHundredths | learny/models.py:25 | the interval product is converted to a whole number by rounding toward zero, for negative as well as non-negative products |
| Flashcards.Update | learny/models.py:14-30 | a failed recall (quality below 3) resets the streak to 0 and the interval to 1 and keeps the ease; a success extends the streak by one, picks the interval 1, 6 or the truncated product of the old interval and old ease according to the old streak, and moves the ease by the quality's delta but not below 1.3; in every case the review date is today plus the new interval and the text is unchanged |
| Flashcards.EaseDeltaPassingScores | learny/models.py:26 | the ease changes by +0.10, 0 and -0.14 for qualities 5, 4 and 3, and by no more than that for any passing score up to 5 |
| Flashcards.UpdatePreservesValid | learny/models.py:14-30 | interval at least 1, ease at least 1.3 and repetition not negative are kept by every review of any quality |
| Flashcards.IntervalNeverShrinks | learny/models.py:25-28 | with a streak of two or more, a successful review of a valid card gives an interval at least the old interval times 1.3 rounded down, hence never shorter |
| Flashcards.ReviewedCardNotDueToday | learny/models.py:30 | after any review a valid card's review date is after the review day, so it is no longer due that day |
| Flashcards.FailedRecallForgetsHistory | learny/models.py:16-18 | a failed recall gives the same card whatever the prior interval, review date and streak |
| Flashcards.Replay | learny/models.py:14-30 | any sequence of reviews keeps a card's text and its validity, so the ease never drops below 1.3, and leaves it due the last review day plus its interval |
| Flashcards.PassingRunGrows | learny/models.py:19-29 | a run of successful reviews adds one to the streak per review and, once the streak is two or more, never shortens the interval |
| Flashcards.FreshCardPassingRun | learny/models.py:9-25 | from a new card, successful reviews give interval 1 after the first, exactly 6 after the second and at least 6 after every later one |
| Flashcards.ReplaySnoc | learny/models.py:14-30 | replaying one more review is applying one more update to the replayed card |
| Flashcards.FreshCardIntervalsNonDecreasing | learny/models.py:19-29 | from the third successful review of a new card on, each interval is at least the one before it |
| Flashcards.TryUpdate | learny/models.py:14-30 | the review succeeds exactly when today plus the new interval is a representable date (day 1 to day 3652059); then the card is the rescheduled one, otherwise the interval, ease and streak are updated but the review date keeps its old value |
| Flashcards.FailedRecallNeverOverflows | learny/models.py:16-18 | a failed recall on any day before 9999-12-31 always succeeds and reschedules for the next day |
| Flashcards.PerfectRunOverflows | learny/models.py:19-30 | thirteen perfect recalls of a new card on one day give interval 1976591 and ease 3.8; a fourteenth computes interval 7511045, overflows the date range and leaves the card half-updated |
| Flashcards.ThreePerfectRecalls | learny/models.py:19-30 | three reviews of quality 5 on a new card give intervals 1, 6, 16, streaks 1, 2, 3 and ease 2.6, 2.7, 2.8 |
| Flashcards.LapseAfterStreak | learny/models.py:16-18 | a quality 1 review of a card with streak 3 and interval 20 gives streak 0, interval 1 and review date tomorrow |
| Decks.FilterDue | learny/models.py:44 | the filtered list is a subsequence of the deck's cards in the deck's order, and every card in it is due |
| Decks.FilterDueExact | learny/models.py:44 | the filtered list holds every due card exactly as many times as the deck does, and no card that is not due |
| Decks.DueCards | learny/models.py:42-44 | a card is in the deck's due list exactly when it is in the deck with review date on or before today, each due card appears as many times as in the deck, and the list keeps the deck's order |
| Decks.FilterDueConcat | learny/models.py:44 | filtering a concatenation is concatenating the filtered parts, so the due list follows insertion order |
| Decks.FilterDueIdempotent | learny/models.py:44 | a list whose cards are all due is returned unchanged, so filtering the due list again changes nothing |
| Decks.CountDue | learny/models.py:48 | counting the due cards one by one gives the length of the due list |
| Decks.Stats | learny/models.py:46-50 | the due count is the length of the due list, the total is the number of cards, and the due count never exceeds the total |
| Decks.AddCard | learny/models.py:37-40 | the deck gains exactly one card at its end, with the given text and default scheduling fields due today; the name and earlier cards are unchanged |
| Decks.AddCardIsDue | learny/models.py:37-44 | the new card is due on its creation day and is appended to the end of the due list; a deck of valid cards stays valid |
| Decks.AddCardStats | learny/models.py:37-50 | adding a card raises both the due count and the total by one on the creation day |
| Decks.ReviewAt | learny/web.py:69-71 | reviewing a deck card replaces only that card by its update; the name and the other cards are unchanged |
| Decks.ReviewDueCardLowersDue | learny/web.py:69-71 | reviewing a valid card that is due today lowers today's due count by one, keeps the total, and keeps the deck valid |
| Reviews.ClampQuality | learny/srs.py:10-15 | the score used is always in 0..5: an integer in that range is kept, and a blank entry, non-integer text or out-of-range integer becomes 0 |
| Reviews.ClampedScoreEffect | learny/srs.py:10-16 | with a clamped score a successful review lowers the ease by at most 0.14 and, for a card whose ease is at least 1.2 (any valid card), raises it by at most 0.10; and an entry that is not an integer always counts as a failed recall |

## Left out

- Float rounding of `ease_factor`: the ease is exact hundredths. Python's binary float (2.5 + 0.1 and so on) could in rare cases make the truncated interval one day different; that is not modelled.
- Flashcards.Update: assumes the stored ease is a whole number of hundredths. A card loaded from disk with any other float ease is outside the model.
- Wall-clock `date.today()`: replaced by the `today` parameter.
- `learny/storage.py`: whole-file JSON load and save. Dates are written with `default=str` and read back as raw strings, so there is no date-preserving round trip to state.
- Decks.DueCards: `reviewDate` models only date-typed review dates. A card loaded by `learny/storage.py:15` holds its review date as a string, so `c.review_date <= today` at `learny/models.py:44` raises `TypeError` for every deck reloaded from disk; the model does not represent that failure.
- Decks.Stats: the same string review dates make the comparison at `learny/models.py:48` raise `TypeError` on a reloaded deck; not represented either.
- Flashcards.Update: ignores the bound on Python dates; `Flashcards.TryUpdate` models it. `Flashcards.Replay` and `Decks.ReviewAt` apply the unbounded rule, so a review sequence or deck review that would raise `OverflowError` is not represented as a failure there.
- `learny/cli.py`, `learny/gui.py`, `learny/web.py`: argument parsing, desktop widgets and HTTP handling. Only their pattern of reviewing a due card in place is modelled, as `Decks.ReviewAt`.
- The interactive prompts of `learny/srs.py`: only its rule for turning the entry into a quality score is modelled.
- `to_dict`, `from_dict`, `tags`, `id` and `find_card`: the tests call them, but `learny/models.py` does not define them.
- Deck-name uniqueness and the name-to-deck collection: the front ends handle these, not `Deck`.
- `Deck.add_card` does not reject empty question or answer text, and neither does the model.
