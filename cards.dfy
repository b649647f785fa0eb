/** Playing cards and their Blackjack point values (class Card of blackjack.rb). */
module Cards {

  datatype Suit = Clubs | Diamonds | Spades | Hearts

  /** A rank is a number or one of the four face letters. The Ruby card accepts
      any number as its rank and reports it back as the value, so `Pip` carries
      an unbounded integer; the cards a deck is built from are the ones with
      `ValidRank`. */
  datatype Rank = Pip(n: int) | Jack | Queen | King | Ace

  datatype Card = Card(suit: Suit, rank: Rank)

  /** The ranks a deck is built from: 2..10 and the four face letters. */
  predicate ValidRank(r: Rank) {
    r.Pip? ==> 2 <= r.n <= 10
  }

  predicate ValidCard(c: Card) {
    ValidRank(c.rank)
  }

  /** Every card of `cards` is one a deck is built from. */
  predicate AllValid(cards: seq<Card>) {
    forall i :: 0 <= i < |cards| ==> ValidCard(cards[i])
  }

  /** Two lists laid end to end hold deck cards only exactly when each does. */
  lemma AllValidConcat(a: seq<Card>, b: seq<Card>)
    ensures AllValid(a + b) <==> AllValid(a) && AllValid(b)
  {
    if AllValid(a + b) {
      forall i | 0 <= i < |a| ensures ValidCard(a[i]) {
        assert a[i] == (a + b)[i];
      }
      forall i | 0 <= i < |b| ensures ValidCard(b[i]) {
        assert b[i] == (a + b)[|a| + i];
      }
    }
  }

  /** The point value of a card: J, Q and K count 10, an Ace always counts 11
      (there is no soft Ace), and a numeric rank counts its own number. */
  function CardValue(c: Card): (v: int)
    ensures v == 10 <==> c.rank in {Pip(10), Jack, Queen, King}
    ensures ValidCard(c) ==> 2 <= v <= 11
    ensures ValidCard(c) ==> (v == 11 <==> c.rank == Ace)
    ensures ValidCard(c) && v < 10 ==> c.rank == Pip(v)
  {
    match c.rank
    case Jack | Queen | King => 10
    case Ace => 11
    case Pip(n) => n
  }
}
