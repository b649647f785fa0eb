/** The 52-card deck (class Deck of blackjack.rb): the construction order,
    the shuffle, and the deck object whose card list is drawn from the front. */
module Decks {
  import opened Cards

  /** The suits in the order the deck is built. */
  const Suits: seq<Suit> := [Clubs, Diamonds, Spades, Hearts]

  /** The face letters in the order the deck is built. */
  const Faces: seq<Rank> := [Jack, Queen, King, Ace]

  /** The numbered cards 2..10 of one suit, in increasing order. */
  function PipCards(s: Suit): seq<Card> {
    seq(9, i => Card(s, Pip(i + 2)))
  }

  /** The face cards of one suit, in the order of `Faces`. */
  function FaceCards(s: Suit): seq<Card> {
    [Card(s, Jack), Card(s, Queen), Card(s, King), Card(s, Ace)]
  }

  /** The 13 cards of one suit, numbered cards first. */
  function SuitCards(s: Suit): seq<Card> {
    PipCards(s) + FaceCards(s)
  }

  /** The cards of the given suits, suit after suit. */
  function BuildOrder(suits: seq<Suit>): seq<Card> {
    if suits == [] then [] else BuildOrder(suits[..|suits| - 1]) + SuitCards(suits[|suits| - 1])
  }

  /** The deck before it is shuffled. */
  function OrderedDeck(): seq<Card> {
    BuildOrder(Suits)
  }

  /** No card occurs twice. */
  predicate Distinct(cards: seq<Card>) {
    forall i, j :: 0 <= i < j < |cards| ==> cards[i] != cards[j]
  }

  /** A full deck: 52 cards, one of each (suit, rank) pair and nothing else. */
  ghost predicate IsFullDeck(cards: seq<Card>) {
    && |cards| == 52
    && Distinct(cards)
    && forall c :: c in cards <==> ValidCard(c)
  }

  function SuitIndex(s: Suit): nat {
    match s
    case Clubs => 0
    case Diamonds => 1
    case Spades => 2
    case Hearts => 3
  }

  function RankIndex(r: Rank): int {
    match r
    case Pip(n) => n - 2
    case Jack => 9
    case Queen => 10
    case King => 11
    case Ace => 12
  }

  /** The position a card takes in `OrderedDeck`. */
  function CardIndex(c: Card): int {
    13 * SuitIndex(c.suit) + RankIndex(c.rank)
  }

  lemma SuitCardsIndex(s: Suit)
    ensures |SuitCards(s)| == 13
    ensures forall i :: 0 <= i < 13 ==>
      SuitCards(s)[i].suit == s && ValidCard(SuitCards(s)[i]) && CardIndex(SuitCards(s)[i]) == 13 * SuitIndex(s) + i
  {
  }

  lemma {:induction false} BuildOrderIndex(k: nat)
    requires k <= |Suits|
    ensures |BuildOrder(Suits[..k])| == 13 * k
    ensures forall i :: 0 <= i < 13 * k ==>
      ValidCard(BuildOrder(Suits[..k])[i]) && CardIndex(BuildOrder(Suits[..k])[i]) == i
  {
    if k > 0 {
      BuildOrderIndex(k - 1);
      var prefix := Suits[..k];
      assert prefix[..k - 1] == Suits[..k - 1];
      assert SuitIndex(Suits[k - 1]) == k - 1;
      SuitCardsIndex(Suits[k - 1]);
      var built := BuildOrder(prefix);
      assert built == BuildOrder(Suits[..k - 1]) + SuitCards(Suits[k - 1]);
      forall i | 13 * (k - 1) <= i < 13 * k
        ensures ValidCard(built[i]) && CardIndex(built[i]) == i
      {
        assert built[i] == SuitCards(Suits[k - 1])[i - 13 * (k - 1)];
      }
    }
  }

  /** Position i of the unshuffled deck holds the card whose index is i. */
  lemma OrderedDeckIndex()
    ensures |OrderedDeck()| == 52
    ensures forall i :: 0 <= i < 52 ==> ValidCard(OrderedDeck()[i]) && CardIndex(OrderedDeck()[i]) == i
  {
    BuildOrderIndex(4);
    assert Suits[..4] == Suits;
  }

  /** Two deck cards with the same index are the same card. */
  lemma CardIndexInjective(a: Card, b: Card)
    requires ValidCard(a) && ValidCard(b) && CardIndex(a) == CardIndex(b)
    ensures a == b
  {
    assert 0 <= RankIndex(a.rank) < 13 && 0 <= RankIndex(b.rank) < 13;
    assert SuitIndex(a.suit) == SuitIndex(b.suit);
  }

  /** The deck as built holds exactly the 52 (suit, rank) pairs, each once. */
  lemma OrderedDeckIsFull()
    ensures IsFullDeck(OrderedDeck())
  {
    var d := OrderedDeck();
    OrderedDeckIndex();
    forall c
      ensures c in d <==> ValidCard(c)
    {
      if ValidCard(c) {
        var i := CardIndex(c);
        assert 0 <= i < 52;
        CardIndexInjective(d[i], c);
      }
    }
  }

  /** A card that occurs twice in a sequence counts at least twice in its multiset. */
  lemma RepeatedCardCount(s: seq<Card>, i: int, j: int)
    requires 0 <= i < j < |s| && s[i] == s[j]
    ensures multiset(s)[s[i]] >= 2
  {
    assert s == s[..j] + s[j..];
    assert s[i] in s[..j];
    assert s[j] in s[j..];
  }

  /** A sequence without duplicates has every multiplicity at most one. */
  lemma {:induction false} DistinctCount(s: seq<Card>, c: Card)
    requires Distinct(s)
    ensures multiset(s)[c] <= 1
  {
    if s != [] {
      assert s == [s[0]] + s[1..];
      DistinctCount(s[1..], c);
      if c == s[0] {
        assert c !in s[1..];
      }
    }
  }

  /** Any reordering of a full deck is a full deck. */
  lemma PermutedFullDeck(a: seq<Card>, b: seq<Card>)
    requires IsFullDeck(a) && multiset(a) == multiset(b)
    ensures IsFullDeck(b)
  {
    assert |b| == |multiset(b)| == |multiset(a)| == |a|;
    forall c
      ensures c in b <==> ValidCard(c)
    {
      assert c in b <==> c in multiset(b);
      assert c in a <==> c in multiset(a);
    }
    forall i, j | 0 <= i < j < |b|
      ensures b[i] != b[j]
    {
      if b[i] == b[j] {
        RepeatedCardCount(b, i, j);
        DistinctCount(a, b[i]);
        assert false;
      }
    }
  }

  /** Reorders `cards` into some order: each step moves an arbitrary remaining
      card to the end of the result. Any permutation can come out. */
  method Shuffle(cards: seq<Card>) returns (shuffled: seq<Card>)
    ensures multiset(shuffled) == multiset(cards)
  {
    shuffled := [];
    var rest := cards;
    while rest != []
      invariant multiset(shuffled) + multiset(rest) == multiset(cards)
      decreases |rest|
    {
      var j :| 0 <= j < |rest|;
      assert rest == rest[..j] + [rest[j]] + rest[j + 1..];
      shuffled := shuffled + [rest[j]];
      rest := rest[..j] + rest[j + 1..];
    }
  }

  /** Builds the 52 cards suit by suit (2..10, then J, Q, K, A) and shuffles them. */
  method BuildCards() returns (cards: seq<Card>)
    ensures multiset(cards) == multiset(OrderedDeck())
    ensures IsFullDeck(cards)
  {
    var ordered: seq<Card> := [];
    var i := 0;
    while i < |Suits|
      invariant 0 <= i <= |Suits|
      invariant ordered == BuildOrder(Suits[..i])
    {
      var suit := Suits[i];
      ghost var before := ordered;
      var number := 2;
      while number <= 10
        invariant 2 <= number <= 11
        invariant ordered == before + PipCards(suit)[..number - 2]
      {
        ordered := ordered + [Card(suit, Pip(number))];
        number := number + 1;
      }
      var f := 0;
      while f < |Faces|
        invariant 0 <= f <= |Faces|
        invariant ordered == before + PipCards(suit) + FaceCards(suit)[..f]
      {
        ordered := ordered + [Card(suit, Faces[f])];
        f := f + 1;
      }
      assert Suits[..i + 1][..i] == Suits[..i];
      i := i + 1;
    }
    assert Suits[..i] == Suits;
    cards := Shuffle(ordered);
    OrderedDeckIsFull();
    PermutedFullDeck(ordered, cards);
  }

  /** A deck: the cards still to be dealt, the top card first. */
  class Deck {
    var cards: seq<Card>

    /** A new deck holds the 52 cards in shuffled order. */
    constructor ()
      ensures multiset(cards) == multiset(OrderedDeck())
      ensures IsFullDeck(cards)
    {
      var built := BuildCards();
      cards := built;
    }

    /** A deck with the given cards in the given order, for setting up a round by hand. */
    constructor FromCards(cards: seq<Card>)
      ensures this.cards == cards
    {
      this.cards := cards;
    }
  }
}
