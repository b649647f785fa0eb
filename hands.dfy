/** A hand of cards (class Hand of blackjack.rb): its value, drawing from the
    top of a deck, and the dealer's drawing policy. */
module Hands {
  import opened Cards
  import opened Decks

  /** The dealer keeps drawing while the hand is worth less than this. */
  const DealerFloor := 16

  /** The value of a hand: the card values summed from the first card to the
      last, starting from 0. */
  function HandValue(cards: seq<Card>): int {
    if cards == [] then 0 else HandValue(cards[..|cards| - 1]) + CardValue(cards[|cards| - 1])
  }

  /** The value of two hands laid end to end is the sum of their values. */
  lemma {:induction false} HandValueAppend(a: seq<Card>, b: seq<Card>)
    ensures HandValue(a + b) == HandValue(a) + HandValue(b)
    decreases |b|
  {
    if b != [] {
      var front := b[..|b| - 1];
      assert (a + b)[..|a + b| - 1] == a + front;
      HandValueAppend(a, front);
    } else {
      assert a + b == a;
    }
  }

  /** Adding one card adds its value. */
  lemma HandValueSnoc(a: seq<Card>, c: Card)
    ensures HandValue(a + [c]) == HandValue(a) + CardValue(c)
  {
    assert (a + [c])[..|a|] == a;
  }

  /** Taking the card at position j out of a hand removes one copy of it. */
  lemma RemoveCardMultiset(b: seq<Card>, j: nat)
    requires j < |b|
    ensures multiset(b[..j] + b[j + 1..]) == multiset(b) - multiset{b[j]}
  {
    assert b == b[..j] + [b[j]] + b[j + 1..];
  }

  /** A card in the middle of a hand contributes its value. */
  lemma HandValueMiddle(left: seq<Card>, c: Card, right: seq<Card>)
    ensures HandValue(left + [c] + right) == HandValue(left + right) + CardValue(c)
  {
    HandValueAppend(left + [c], right);
    HandValueSnoc(left, c);
    HandValueAppend(left, right);
  }

  /** A card the hand holds can be taken out of it: one copy leaves the
      multiset and its value leaves the hand's value. */
  lemma TakeCard(b: seq<Card>, c: Card) returns (rest: seq<Card>)
    requires c in multiset(b)
    ensures multiset(rest) == multiset(b) - multiset{c}
    ensures HandValue(b) == HandValue(rest) + CardValue(c)
  {
    var j :| 0 <= j < |b| && b[j] == c;
    rest := b[..j] + b[j + 1..];
    RemoveCardMultiset(b, j);
    HandValueMiddle(b[..j], c, b[j + 1..]);
    assert b == b[..j] + [c] + b[j + 1..];
  }

  /** The order of the cards does not change the value of a hand. */
  lemma {:induction false} HandValuePermutation(a: seq<Card>, b: seq<Card>)
    requires multiset(a) == multiset(b)
    ensures HandValue(a) == HandValue(b)
    decreases |a|
  {
    if a == [] {
      assert |b| == |multiset(b)| == 0;
    } else {
      var last := a[|a| - 1];
      var front := a[..|a| - 1];
      assert a == front + [last];
      assert multiset(front) == multiset(a) - multiset{last};
      var rest := TakeCard(b, last);
      HandValuePermutation(front, rest);
    }
  }

  /** A hand of n deck cards is worth between 2n and 11n. */
  lemma {:induction false} HandValueBounds(cards: seq<Card>)
    requires AllValid(cards)
    ensures 2 * |cards| <= HandValue(cards) <= 11 * |cards|
  {
    if cards != [] {
      var front := cards[..|cards| - 1];
      assert cards == front + [cards[|cards| - 1]];
      AllValidConcat(front, [cards[|cards| - 1]]);
      HandValueBounds(front);
    }
  }

  /** The value of `hand` once the top `j` cards of `deck` are added to it. */
  function ValueAfterDrawing(hand: seq<Card>, deck: seq<Card>, j: nat): int
    requires j <= |deck|
  {
    HandValue(hand + deck[..j])
  }

  /** Drawing j cards is drawing the first card and then j - 1 more. */
  lemma DrawShift(hand: seq<Card>, deck: seq<Card>, j: nat)
    requires 0 < j <= |deck|
    ensures hand + deck[..j] == (hand + [deck[0]]) + deck[1..][..j - 1]
  {
    assert deck[..j] == [deck[0]] + deck[1..][..j - 1];
  }

  /** How many cards the dealer draws from the front of `deck` onto `hand`:
      as long as the hand is worth less than `DealerFloor` and the deck still
      has cards. */
  function DealerDraws(hand: seq<Card>, deck: seq<Card>): (k: nat)
    ensures k <= |deck|
    ensures forall j :: 0 <= j < k ==> ValueAfterDrawing(hand, deck, j) < DealerFloor
    ensures k == |deck| || ValueAfterDrawing(hand, deck, k) >= DealerFloor
    decreases |deck|
  {
    if deck == [] then 0
    else if HandValue(hand) >= DealerFloor then
      assert hand + deck[..0] == hand;
      0
    else
      var k := 1 + DealerDraws(hand + [deck[0]], deck[1..]);
      assert forall j :: 0 < j <= k ==>
        ValueAfterDrawing(hand, deck, j) == ValueAfterDrawing(hand + [deck[0]], deck[1..], j - 1)
      by {
        forall j | 0 < j <= k
          ensures ValueAfterDrawing(hand, deck, j) == ValueAfterDrawing(hand + [deck[0]], deck[1..], j - 1)
        {
          DrawShift(hand, deck, j);
        }
      }
      assert hand + deck[..0] == hand;
      k
  }

  /** Below the floor and with cards left, the dealer draws the top card and
      then plays on from there. */
  lemma DealerDrawsStep(hand: seq<Card>, deck: seq<Card>)
    requires HandValue(hand) < DealerFloor && deck != []
    ensures DealerDraws(hand, deck) == 1 + DealerDraws(hand + [deck[0]], deck[1..])
  {
  }

  /** At the floor or with no cards left, the dealer draws nothing. */
  lemma DealerDrawsStop(hand: seq<Card>, deck: seq<Card>)
    requires HandValue(hand) >= DealerFloor || deck == []
    ensures DealerDraws(hand, deck) == 0
  {
  }

  /** The dealer's drawing ends at or above the floor whenever the hand and
      the deck together are worth that much. */
  lemma DealerReachesFloor(hand: seq<Card>, deck: seq<Card>)
    requires HandValue(hand + deck) >= DealerFloor
    ensures HandValue(hand + deck[..DealerDraws(hand, deck)]) >= DealerFloor
  {
    var k := DealerDraws(hand, deck);
    if k == |deck| {
      assert deck[..k] == deck;
    }
  }

  /** The hands of the test suite: 4 and 10 are worth 14; a dealer on 4, 4
      draws 2 and 6 to stop on 16; one on 8, 9 draws nothing; one on 4, 7
      draws a King to stop on 21. */
  lemma HandExamples()
    ensures HandValue([Card(Clubs, Pip(4)), Card(Diamonds, Pip(10))]) == 14
    ensures var hand, deck := [Card(Clubs, Pip(4)), Card(Diamonds, Pip(4))], [Card(Clubs, Pip(2)), Card(Hearts, Pip(6))];
      DealerDraws(hand, deck) == 2 && ValueAfterDrawing(hand, deck, 2) == 16
    ensures var hand := [Card(Clubs, Pip(8)), Card(Diamonds, Pip(9))];
      DealerDraws(hand, []) == 0 && HandValue(hand) == 17
    ensures var hand, deck := [Card(Clubs, Pip(4)), Card(Diamonds, Pip(7))], [Card(Clubs, King)];
      DealerDraws(hand, deck) == 1 && ValueAfterDrawing(hand, deck, 1) == 21
  {
    var hand, deck := [Card(Clubs, Pip(4)), Card(Diamonds, Pip(4))], [Card(Clubs, Pip(2)), Card(Hearts, Pip(6))];
    assert deck[..2] == deck;
    HandValueAppend(hand, deck);
  }

  /** A hand: the cards held, in the order they were drawn. */
  class Hand {
    var cards: seq<Card>

    /** A new hand is empty. */
    constructor ()
      ensures cards == []
    {
      cards := [];
    }

    function Value(): int
      reads this
    {
      HandValue(cards)
    }

    /** Takes the top card of `deck` and puts it at the end of the hand. */
    method Hit(deck: Deck)
      requires deck.cards != []
      modifies this, deck
      ensures cards == old(cards) + [old(deck.cards)[0]]
      ensures deck.cards == old(deck.cards)[1..]
      ensures Value() == old(Value()) + CardValue(old(deck.cards)[0])
    {
      HandValueAppend(cards, [deck.cards[0]]);
      assert [deck.cards[0]][..0] == [];
      cards := cards + [deck.cards[0]];
      deck.cards := deck.cards[1..];
    }

    /** The dealer's policy: draw from the top of `deck` while the hand is
        worth less than `DealerFloor`; stops early if the deck runs out. */
    method PlayAsDealer(deck: Deck)
      modifies this, deck
      ensures var k := DealerDraws(old(cards), old(deck.cards));
        cards == old(cards) + old(deck.cards)[..k] && deck.cards == old(deck.cards)[k..]
      ensures old(Value()) >= DealerFloor ==> cards == old(cards) && deck.cards == old(deck.cards)
      ensures Value() >= DealerFloor || deck.cards == []
    {
      ghost var k := DealerDraws(cards, deck.cards);
      if Value() >= DealerFloor {
        DealerDrawsStop(cards, deck.cards);
      }
      ghost var drawn := 0;
      while Value() < DealerFloor && deck.cards != []
        invariant 0 <= drawn <= k <= |old(deck.cards)|
        invariant cards == old(cards) + old(deck.cards)[..drawn]
        invariant deck.cards == old(deck.cards)[drawn..]
        invariant drawn + DealerDraws(cards, deck.cards) == k
        decreases |deck.cards|
      {
        DealerDrawsStep(cards, deck.cards);
        assert old(deck.cards)[..drawn + 1] == old(deck.cards)[..drawn] + [deck.cards[0]];
        Hit(deck);
        drawn := drawn + 1;
      }
      DealerDrawsStop(cards, deck.cards);
    }
  }
}
