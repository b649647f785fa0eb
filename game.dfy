/** One round of Blackjack between a player and the dealer (class Game of
    blackjack.rb): the opening deal, hitting, standing and the winner. */
module Blackjack {
  import opened Cards
  import opened Decks
  import opened Hands

  datatype Option<T> = None | Some(value: T)

  /** The outcome of a round. */
  datatype Winner = Player | Dealer | Push

  /** The unmasked snapshot of a round. */
  datatype Snapshot = Snapshot(
    playerCards: seq<Card>,
    playerValue: int,
    dealerCards: seq<Card>,
    dealerValue: int,
    winner: Option<Winner>)

  /** Over 21 a hand is bust. */
  const BlackjackLimit := 21

  /** The winner of a round, by priority: a bust player loses (even when the
      dealer is bust too), then a bust dealer loses, then equal values push
      and otherwise the higher value wins. */
  function DetermineWinner(playerValue: int, dealerValue: int): (w: Winner)
    ensures w == Dealer <==>
      playerValue > BlackjackLimit || (dealerValue <= BlackjackLimit && playerValue < dealerValue)
    ensures w == Player <==>
      playerValue <= BlackjackLimit && (dealerValue > BlackjackLimit || playerValue > dealerValue)
    ensures w == Push <==>
      playerValue <= BlackjackLimit && dealerValue <= BlackjackLimit && playerValue == dealerValue
  {
    if playerValue > BlackjackLimit then Dealer
    else if dealerValue > BlackjackLimit then Player
    else if playerValue == dealerValue then Push
    else if playerValue > dealerValue then Player
    else Dealer
  }

  /** The outcomes fixed by the examples of the test suite, and the double bust. */
  lemma DetermineWinnerExamples()
    ensures DetermineWinner(22, 15) == Dealer
    ensures DetermineWinner(18, 22) == Player
    ensures DetermineWinner(18, 16) == Player
    ensures DetermineWinner(16, 16) == Push
    ensures DetermineWinner(22, 23) == Dealer
  {
  }

  /** Every card in a hand or deck of a round dealt from a full deck is a deck card. */
  lemma DealtCardsValid(cards: seq<Card>)
    requires multiset(cards) == multiset(OrderedDeck())
    ensures AllValid(cards) && |cards| == 52
  {
    OrderedDeckIsFull();
    assert |cards| == |multiset(cards)|;
    forall i | 0 <= i < |cards|
      ensures ValidCard(cards[i])
    {
      assert cards[i] in multiset(OrderedDeck());
    }
  }

  /** A round dealt from a full deck: the hands and the deck hold exactly the
      52 cards, and the dealer has already reached the floor or the player is
      not past 22. The bound is `BlackjackLimit + 1`, not `BlackjackLimit`,
      because the opening deal can give the player two Aces, worth 22, and only
      a hit checks for a bust. */
  ghost predicate StandardRound(player: seq<Card>, dealer: seq<Card>, deck: seq<Card>) {
    && multiset(player + dealer + deck) == multiset(OrderedDeck())
    && (HandValue(dealer) >= DealerFloor || HandValue(player) <= BlackjackLimit + 1)
  }

  /** The cards of a round dealt from a full deck are deck cards: the player's
      are worth at least 2 each, and so are the dealer's and the deck's. */
  lemma RoundValueBounds(player: seq<Card>, dealer: seq<Card>, deck: seq<Card>)
    requires multiset(player + dealer + deck) == multiset(OrderedDeck())
    ensures |player| + |dealer| + |deck| == 52
    ensures 2 * |player| <= HandValue(player)
    ensures 2 * (|dealer| + |deck|) <= HandValue(dealer + deck)
  {
    var rest := dealer + deck;
    assert player + dealer + deck == player + rest;
    DealtCardsValid(player + rest);
    AllValidConcat(player, rest);
    HandValueBounds(player);
    HandValueBounds(rest);
  }

  /** The dealer's play moves cards from the deck onto the dealer's hand and
      loses none; a dealer already at the floor draws nothing. */
  lemma DealerPlayConserves(player: seq<Card>, dealer: seq<Card>, deck: seq<Card>)
    ensures var k := DealerDraws(dealer, deck);
      player + (dealer + deck[..k]) + deck[k..] == player + dealer + deck
    ensures HandValue(dealer) >= DealerFloor ==> DealerDraws(dealer, deck) == 0
  {
    var k := DealerDraws(dealer, deck);
    assert deck == deck[..k] + deck[k..];
    assert dealer + deck[..0] == dealer;
  }

  /** Moving the top card of the deck onto the player's hand loses no card. */
  lemma DrawConserves(player: seq<Card>, dealer: seq<Card>, deck: seq<Card>)
    requires deck != []
    ensures multiset(player + [deck[0]] + dealer + deck[1..]) == multiset(player + dealer + deck)
  {
    assert deck == [deck[0]] + deck[1..];
  }

  /** In a round dealt from a full deck, while the player holds at most 44
      cards, the dealer never runs out of cards before reaching the floor. */
  lemma DealerNeverRunsDry(player: seq<Card>, dealer: seq<Card>, deck: seq<Card>)
    requires multiset(player + dealer + deck) == multiset(OrderedDeck())
    requires |player| <= 44
    ensures HandValue(dealer + deck[..DealerDraws(dealer, deck)]) >= DealerFloor
  {
    RoundValueBounds(player, dealer, deck);
    DealerReachesFloor(dealer, deck);
  }

  /** The dealer's play on a round, with `newDealer` and `newDeck` the hand and
      the deck afterwards: no card is lost, and a round dealt from a full deck
      stays one, with the dealer at or above the floor. */
  lemma StandOnRound(player: seq<Card>, dealer: seq<Card>, deck: seq<Card>, newDealer: seq<Card>, newDeck: seq<Card>)
    requires newDealer == dealer + deck[..DealerDraws(dealer, deck)]
    requires newDeck == deck[DealerDraws(dealer, deck)..]
    ensures player + newDealer + newDeck == player + dealer + deck
    ensures HandValue(dealer) >= DealerFloor ==> newDealer == dealer && newDeck == deck
    ensures multiset(player + dealer + deck) == multiset(OrderedDeck()) && |player| <= 44 ==>
      HandValue(newDealer) >= DealerFloor
    ensures StandardRound(player, dealer, deck) ==>
      StandardRound(player, newDealer, newDeck) && HandValue(newDealer) >= DealerFloor
  {
    DealerPlayConserves(player, dealer, deck);
    if multiset(player + dealer + deck) == multiset(OrderedDeck()) {
      RoundValueBounds(player, dealer, deck);
      if |player| <= 44 {
        DealerNeverRunsDry(player, dealer, deck);
      }
    }
  }

  /** The player's draw on a round dealt from a full deck loses no card and,
      unless the player goes bust, keeps the round standard; a bust player
      holds at most 44 cards unless the dealer is already at the floor. */
  lemma HitOnRound(player: seq<Card>, dealer: seq<Card>, deck: seq<Card>)
    requires deck != []
    ensures multiset(player + [deck[0]] + dealer + deck[1..]) == multiset(player + dealer + deck)
    ensures StandardRound(player, dealer, deck) ==>
      (HandValue(dealer) >= DealerFloor || |player + [deck[0]]| <= 44)
    ensures StandardRound(player, dealer, deck) && HandValue(player + [deck[0]]) <= BlackjackLimit ==>
      StandardRound(player + [deck[0]], dealer, deck[1..])
  {
    DrawConserves(player, dealer, deck);
    if StandardRound(player, dealer, deck) {
      RoundValueBounds(player, dealer, deck);
    }
  }

  /** `Game.Hit` keeps a round standard: `newPlayer`, `newDealer` and `newDeck`
      are the hands and the deck after the player's draw and, on a bust, the
      dealer's play. */
  lemma HitKeepsStandard(player: seq<Card>, dealer: seq<Card>, deck: seq<Card>,
                         newPlayer: seq<Card>, newDealer: seq<Card>, newDeck: seq<Card>)
    requires deck != [] && newPlayer == player + [deck[0]]
    requires HandValue(newPlayer) <= BlackjackLimit ==> newDealer == dealer && newDeck == deck[1..]
    requires HandValue(newPlayer) > BlackjackLimit ==>
      var k := DealerDraws(dealer, deck[1..]);
      newDealer == dealer + deck[1..][..k] && newDeck == deck[1..][k..]
    ensures StandardRound(player, dealer, deck) ==> StandardRound(newPlayer, newDealer, newDeck)
  {
    HitOnRound(player, dealer, deck);
    if HandValue(newPlayer) > BlackjackLimit {
      StandOnRound(newPlayer, dealer, deck[1..], newDealer, newDeck);
    }
  }

  class Game {
    var deck: Deck
    var playerHand: Hand
    var dealerHand: Hand
    var winner: Option<Winner>

    /** The two hands are distinct objects. */
    ghost predicate Valid()
      reads this
    {
      playerHand != dealerHand
    }

    /** A round dealt from a full deck in which the dealer has already
        reached the floor or the player is not past 22. */
    ghost predicate Standard()
      reads this, deck, playerHand, dealerHand
    {
      Valid() && StandardRound(playerHand.cards, dealerHand.cards, deck.cards)
    }

    /** A new round: a shuffled full deck, two cards to the player and then
        two to the dealer, no winner yet. */
    constructor ()
      ensures Standard()
      ensures fresh(deck) && fresh(playerHand) && fresh(dealerHand)
      ensures |playerHand.cards| == 2 && |dealerHand.cards| == 2 && |deck.cards| == 48
      ensures winner == None
    {
      deck := new Deck();
      playerHand := new Hand();
      dealerHand := new Hand();
      winner := None;
      new;
      ghost var full := deck.cards;
      DealOpening();
      assert playerHand.cards + dealerHand.cards + deck.cards == full;
      RoundValueBounds(playerHand.cards, dealerHand.cards, deck.cards);
      HandValueBounds(playerHand.cards);
    }

    /** A round set up from given deck and hands, with no winner yet. */
    constructor Injected(deck: Deck, playerHand: Hand, dealerHand: Hand)
      requires playerHand != dealerHand
      ensures Valid()
      ensures this.deck == deck && this.playerHand == playerHand && this.dealerHand == dealerHand
      ensures winner == None
    {
      this.deck := deck;
      this.playerHand := playerHand;
      this.dealerHand := dealerHand;
      winner := None;
    }

    /** The opening deal: the player takes the top two cards, the dealer the next two. */
    method DealOpening()
      requires Valid() && |deck.cards| >= 4
      modifies deck, playerHand, dealerHand
      ensures playerHand.cards == old(playerHand.cards) + old(deck.cards)[..2]
      ensures dealerHand.cards == old(dealerHand.cards) + old(deck.cards)[2..4]
      ensures deck.cards == old(deck.cards)[4..]
    {
      playerHand.Hit(deck);
      playerHand.Hit(deck);
      dealerHand.Hit(deck);
      dealerHand.Hit(deck);
    }

    /** The player draws the top card; a bust player stands at once. */
    method Hit()
      requires Valid() && deck.cards != []
      modifies this`winner, deck, playerHand, dealerHand
      ensures playerHand.cards == old(playerHand.cards) + [old(deck.cards)[0]]
      ensures playerHand.Value() <= BlackjackLimit ==>
        dealerHand.cards == old(dealerHand.cards) && deck.cards == old(deck.cards)[1..] && winner == old(winner)
      ensures playerHand.Value() > BlackjackLimit ==>
        var rest := old(deck.cards)[1..];
        var k := DealerDraws(old(dealerHand.cards), rest);
        dealerHand.cards == old(dealerHand.cards) + rest[..k] && deck.cards == rest[k..] && winner == Some(Dealer)
      ensures old(Standard()) ==> Standard()
    {
      ghost var player, dealer, cards := playerHand.cards, dealerHand.cards, deck.cards;
      playerHand.Hit(deck);
      if playerHand.Value() > BlackjackLimit {
        Stand();
      }
      HitKeepsStandard(player, dealer, cards, playerHand.cards, dealerHand.cards, deck.cards);
    }

    /** The dealer plays out the hand and the winner is fixed from the two values. */
    method Stand()
      requires Valid()
      modifies this`winner, deck, dealerHand
      ensures var k := DealerDraws(old(dealerHand.cards), old(deck.cards));
        dealerHand.cards == old(dealerHand.cards) + old(deck.cards)[..k] && deck.cards == old(deck.cards)[k..]
      ensures winner == Some(DetermineWinner(playerHand.Value(), dealerHand.Value()))
      ensures old(Standard()) ==> Standard() && dealerHand.Value() >= DealerFloor
    {
      ghost var player, dealer, cards := playerHand.cards, dealerHand.cards, deck.cards;
      dealerHand.PlayAsDealer(deck);
      winner := Some(DetermineWinner(playerHand.Value(), dealerHand.Value()));
      StandOnRound(player, dealer, cards, dealerHand.cards, deck.cards);
    }

    /** The status of the round: both hands, their values and the winner, nothing masked. */
    function Status(): (s: Snapshot)
      reads this, playerHand, dealerHand
      ensures s.playerCards == playerHand.cards && s.dealerCards == dealerHand.cards
      ensures s.playerValue == HandValue(s.playerCards) && s.dealerValue == HandValue(s.dealerCards)
      ensures s.winner == winner
    {
      Snapshot(playerHand.cards, playerHand.Value(), dealerHand.cards, dealerHand.Value(), winner)
    }
  }

  /** The bust scenario of the test suite: from the deck 7, 7, K, K, 8 the
      player takes 7 and 7, the dealer K and K, and the 8 is left. */
  method SetUpBustingRound() returns (game: Game)
    ensures game.Valid() && fresh(game.deck) && fresh(game.playerHand) && fresh(game.dealerHand)
    ensures game.playerHand.Value() == 14 && game.dealerHand.Value() == 20
    ensures game.deck.cards == [Card(Spades, Pip(8))]
  {
    var deck := new Deck.FromCards([Card(Clubs, Pip(7)), Card(Diamonds, Pip(7)), Card(Clubs, King), Card(Spades, King), Card(Spades, Pip(8))]);
    var player := new Hand();
    var dealer := new Hand();
    player.Hit(deck);
    player.Hit(deck);
    dealer.Hit(deck);
    dealer.Hit(deck);
    game := new Game.Injected(deck, player, dealer);
  }

  /** The player of the bust scenario hits, draws the 8 to reach 22 and loses. */
  method BustingPlayerLoses() returns (w: Option<Winner>)
    ensures w == Some(Dealer)
  {
    var game := SetUpBustingRound();
    game.Hit();
    w := game.Status().winner;
  }
}
