/**
 * A deck: a named, ordered list of flashcards, with the queries that pick
 * the cards due for review and count them.
 */
module Decks {
  import opened Flashcards

  datatype Deck = Deck(name: string, cards: seq<Card>)

  /** The summary a deck reports: how many cards are due, out of how many. */
  datatype DeckStats = DeckStats(due: int, total: int)

  /** `a` can be obtained from `b` by deleting elements, keeping the rest in order. */
  ghost predicate IsSubsequence<T>(a: seq<T>, b: seq<T>)
    decreases |b|
  {
    || |a| == 0
    || (&& |b| > 0
        && if a[0] == b[0] then IsSubsequence(a[1..], b[1..]) else IsSubsequence(a, b[1..]))
  }

  /** The cards of `cards` due on `today`, in their original order. */
  function FilterDue(cards: seq<Card>, today: int): (r: seq<Card>)
    ensures |r| <= |cards|
    ensures forall i :: 0 <= i < |r| ==> IsDue(r[i], today)
    ensures IsSubsequence(r, cards)
  {
    if |cards| == 0 then []
    else if IsDue(cards[0], today) then [cards[0]] + FilterDue(cards[1..], today)
    else FilterDue(cards[1..], today)
  }

  /**
   * The filter keeps every due card, as many times as it occurs, and
   * nothing else.
   */
  lemma {:induction false} FilterDueExact(cards: seq<Card>, today: int)
    ensures forall c :: multiset(FilterDue(cards, today))[c] == if IsDue(c, today) then multiset(cards)[c] else 0
    ensures forall c :: c in FilterDue(cards, today) <==> c in cards && IsDue(c, today)
    decreases |cards|
  {
    if |cards| > 0 {
      assert cards == [cards[0]] + cards[1..];
      FilterDueExact(cards[1..], today);
    }
  }

  /** The deck's due cards on `today`: every card whose review date is not after it. */
  function DueCards(d: Deck, today: int): (r: seq<Card>)
    ensures forall c :: c in r <==> c in d.cards && IsDue(c, today)
    ensures forall c :: multiset(r)[c] == if IsDue(c, today) then multiset(d.cards)[c] else 0
    ensures IsSubsequence(r, d.cards)
  {
    FilterDueExact(d.cards, today);
    FilterDue(d.cards, today)
  }

  /** Filtering distributes over concatenation, which fixes the order of the result. */
  lemma {:induction false} FilterDueConcat(a: seq<Card>, b: seq<Card>, today: int)
    ensures FilterDue(a + b, today) == FilterDue(a, today) + FilterDue(b, today)
    decreases |a|
  {
    if |a| == 0 {
      assert a + b == b;
    } else {
      assert (a + b)[0] == a[0];
      assert (a + b)[1..] == a[1..] + b;
      FilterDueConcat(a[1..], b, today);
      if IsDue(a[0], today) {
        calc {
          FilterDue(a + b, today);
          [a[0]] + FilterDue(a[1..] + b, today);
          [a[0]] + (FilterDue(a[1..], today) + FilterDue(b, today));
          ([a[0]] + FilterDue(a[1..], today)) + FilterDue(b, today);
        }
      }
    }
  }

  /** Every card is kept when all are due, and filtering twice is filtering once. */
  lemma {:induction false} FilterDueIdempotent(cards: seq<Card>, today: int)
    ensures (forall i :: 0 <= i < |cards| ==> IsDue(cards[i], today)) ==> FilterDue(cards, today) == cards
    ensures FilterDue(FilterDue(cards, today), today) == FilterDue(cards, today)
    decreases |cards|
  {
    if |cards| > 0 {
      FilterDueIdempotent(cards[1..], today);
    }
  }

  /** Number of cards in `cards` due on `today`, counted one card at a time. */
  function CountDue(cards: seq<Card>, today: int): (n: nat)
    ensures n == |FilterDue(cards, today)|
  {
    if |cards| == 0 then 0
    else (if IsDue(cards[0], today) then 1 else 0) + CountDue(cards[1..], today)
  }

  /** The deck's summary on `today`. */
  function Stats(d: Deck, today: int): (s: DeckStats)
    ensures s.due == |DueCards(d, today)|
    ensures s.total == |d.cards|
    ensures 0 <= s.due <= s.total
  {
    DeckStats(CountDue(d.cards, today), |d.cards|)
  }

  /**
   * Appends a new card with defaulted scheduling fields and returns the
   * updated deck together with that card.
   */
  function AddCard(d: Deck, question: string, answer: string, today: int): (r: (Deck, Card))
    ensures r.1.question == question && r.1.answer == answer
    ensures r.1.interval == InitialInterval && r.1.easeH == InitialEaseH
    ensures r.1.repetition == InitialRepetition && r.1.reviewDate == today
    ensures r.0.name == d.name
    ensures |r.0.cards| == |d.cards| + 1
    ensures r.0.cards[|d.cards|] == r.1
    ensures forall i :: 0 <= i < |d.cards| ==> r.0.cards[i] == d.cards[i]
  {
    var card := NewCard(question, answer, today);
    (d.(cards := d.cards + [card]), card)
  }

  /** Every card of the deck satisfies the scheduling invariant. */
  predicate AllValid(d: Deck)
  {
    forall i :: 0 <= i < |d.cards| ==> Valid(d.cards[i])
  }

  /**
   * The new card is due on its creation day and joins the end of the due
   * list; the deck stays valid.
   */
  lemma AddCardIsDue(d: Deck, question: string, answer: string, today: int)
    ensures var (d', card) := AddCard(d, question, answer, today);
            && DueCards(d', today) == DueCards(d, today) + [card]
            && card in DueCards(d', today)
            && (AllValid(d) ==> AllValid(d'))
  {
    var (d', card) := AddCard(d, question, answer, today);
    assert d'.cards == d.cards + [card];
    FilterDueConcat(d.cards, [card], today);
    assert FilterDue([card], today) == [card] by {
      assert [card][1..] == [];
    }
    if AllValid(d) {
      forall i | 0 <= i < |d'.cards|
        ensures Valid(d'.cards[i])
      {
        if i < |d.cards| {
          assert d'.cards[i] == d.cards[i];
        }
      }
    }
  }

  /** Adding a card on `today` raises both the due and the total count by one. */
  lemma AddCardStats(d: Deck, question: string, answer: string, today: int)
    ensures var s := Stats(d, today);
            Stats(AddCard(d, question, answer, today).0, today) == DeckStats(s.due + 1, s.total + 1)
  {
    AddCardIsDue(d, question, answer, today);
  }

  /**
   * Reviewing card `i` of the deck: the due list hands out the deck's own
   * cards, so the update is seen by the deck.
   */
  function ReviewAt(d: Deck, i: int, quality: int, today: int): (r: Deck)
    requires 0 <= i < |d.cards|
    ensures r.name == d.name && |r.cards| == |d.cards|
    ensures r.cards[i] == Update(d.cards[i], quality, today)
    ensures forall j :: 0 <= j < |d.cards| && j != i ==> r.cards[j] == d.cards[j]
  {
    d.(cards := d.cards[i := Update(d.cards[i], quality, today)])
  }

  /**
   * Reviewing a valid card that is due today removes exactly that card from
   * today's due count; the total and the deck's validity are unchanged.
   */
  lemma ReviewDueCardLowersDue(d: Deck, i: int, quality: int, today: int)
    requires AllValid(d) && 0 <= i < |d.cards| && IsDue(d.cards[i], today)
    ensures var d' := ReviewAt(d, i, quality, today);
            && Stats(d', today) == DeckStats(Stats(d, today).due - 1, Stats(d, today).total)
            && AllValid(d')
  {
    var d' := ReviewAt(d, i, quality, today);
    var c := d.cards[i];
    var c' := d'.cards[i];
    ReviewedCardNotDueToday(c, quality, today);
    UpdatePreservesValid(c, quality, today);
    var pre, post := d.cards[..i], d.cards[i + 1..];
    assert d.cards == pre + [c] + post;
    assert d'.cards == pre + [c'] + post;
    FilterDueConcat(pre + [c], post, today);
    FilterDueConcat(pre, [c], today);
    FilterDueConcat(pre + [c'], post, today);
    FilterDueConcat(pre, [c'], today);
  }
}
