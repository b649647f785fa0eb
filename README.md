# Blackjack round engine, modelled in Dafny

This project models the single-round Blackjack engine of `blackjack.rb`: a
card and its point value, the 52-card deck built suit by suit and shuffled, a
hand that draws from the top of the deck and plays the dealer's policy, and a
game that deals two cards to the player and two to the dealer, lets the player
hit (standing automatically on a bust), plays the dealer out on stand and
fixes the winner.

Files and modules:

- `cards.dfy`, module `Cards`: suits, ranks, cards and `CardValue`
  (J/Q/K worth 10, an Ace always 11, a number worth itself).
- `decks.dfy`, module `Decks`: the construction order (`OrderedDeck`), the
  shuffle, `BuildCards`, and class `Deck` whose `cards` field is the list drawn
  from the front.
- `hands.dfy`, module `Hands`: `HandValue` (the left fold that sums the card
  values), `DealerDraws` (how many cards the dealer's policy takes), and class
  `Hand` with `Hit` and `PlayAsDealer`, which update the hand and the deck in
  place.
- `game.dfy`, module `Blackjack`: `DetermineWinner`, the status snapshot, and
  class `Game` with the fields `deck`, `playerHand`, `dealerHand` and `winner`.

The shuffle is modelled as a choice: `Shuffle` moves an arbitrarily chosen
remaining card to the end of the result until none is left. Every permutation
can come out, and the contract says only that the multiset of cards is
preserved. Nothing random is modelled.

`Game.Standard` is an invariant of rounds dealt from a full deck. It holds
when the hands and the deck together hold exactly the 52 cards, and either
the dealer is already at 16 or more or the player is worth at most 22. The
constructor establishes it and `Hit` and `Stand` keep it. Under it, `Stand`
always leaves the dealer at 16 or more, so the dealer never runs out of cards
in such a round.

Three behaviours of the code differ from what its test suite asserts or from
common Blackjack rules; the model follows the code:

- `status` returns both hands and values unmasked (blackjack.rb:92-98). The
  masking helpers that the test suite asserts are not implemented there.
- The dealer's threshold is the fixed 16. It does not depend on the player's
  value.
- Nothing guards a second `stand` or a `hit` after the round is over. `Stand`
  runs the dealer policy again (it draws nothing once the dealer is at 16) and
  recomputes the winner, as the Ruby code does.

## Model

| member | source | states |
|---|---|---|
| Cards.CardValue | blackjack.rb:9-13 | A card is worth 10 exactly for ranks 10, J, Q and K. A deck card is worth between 2 and 11, 11 exactly for the Ace, and a value below 10 means that numbered rank |
| Decks.OrderedDeckIndex | blackjack.rb:34-42 | The suit-by-suit construction gives 52 deck cards, and position i holds the card whose (suit, rank) index is i |
| Decks.OrderedDeckIsFull | blackjack.rb:34-42 | The construction yields exactly one card per (suit, rank) pair: 52 cards, no duplicates, every valid card present and nothing else |
| Decks.PermutedFullDeck | blackjack.rb:43 | Any reordering of a full deck is still a full deck |
| Decks.Shuffle | blackjack.rb:43 | The shuffled list has the same multiset of cards as its input |
| Decks.BuildCards | blackjack.rb:33-44 | The nested loops build the construction order and the shuffle permutes it: the result is a full deck with the same multiset as `OrderedDeck` |
| Decks.Deck.constructor | blackjack.rb:29-31 | A new deck holds a shuffled full deck |
| Decks.Deck.FromCards | blackjack_spec.rb:52 | A deck with a given card order, as the test suite's mock decks provide |
| Hands.HandValue | blackjack.rb:57-59 | The `inject` fold: an empty hand is worth 0 and each card's value is added in the order the cards were drawn. Its properties are the contracts of `HandValueAppend`, `HandValuePermutation`, `HandValueBounds` and `Hand.Hit` |
| Hands.HandValueAppend | blackjack.rb:57-59 | The value of two hands laid end to end is the sum of their values, so each hit adds exactly the drawn card's value |
| Hands.HandValuePermutation | blackjack.rb:57-59 | A hand's value depends only on which cards it holds, not on their order |
| Hands.HandValueBounds | blackjack.rb:57-59 | A hand of n deck cards is worth between 2n and 11n |
| Hands.DealerDraws | blackjack.rb:61-66 | The dealer draws k cards from the front: the hand is below 16 before each of them, and after the k-th it is 16 or more unless the deck ran out |
| Hands.DealerReachesFloor | blackjack.rb:61-66 | If the hand and the deck together are worth 16 or more, the dealer's play ends at 16 or more |
| Hands.HandExamples | blackjack_spec.rb:51-105 | The test suite's hands: 4 and 10 are worth 14; dealer hands stop on 16, 17 and 21 after drawing 2, 0 and 1 cards |
| Hands.Hand.constructor | blackjack.rb:50-52 | A new hand is empty |
| Hands.Hand.Hit | blackjack.rb:53-55 | The deck's first card is removed and appended to the hand; everything else in both lists stays in order; the value grows by that card's value |
| Hands.Hand.PlayAsDealer | blackjack.rb:61-66 | The hand gains exactly the first `DealerDraws` cards of the deck, in order, and the deck loses them; a hand already at 16 or more changes nothing; afterwards the value is 16 or more or the deck is empty |
| Blackjack.DetermineWinner | blackjack.rb:100-110 | Dealer wins exactly when the player is bust or both are in range and the dealer is higher. Player wins exactly when the player is in range and the dealer is bust or lower. Push exactly on equal in-range values. So a double bust goes to the dealer |
| Blackjack.DetermineWinnerExamples | blackjack_spec.rb:188-200 | The test suite's outcomes (22/15 dealer, 18/22 player, 18/16 player, 16/16 push) and the double bust 22/23 dealer |
| Blackjack.DealtCardsValid | blackjack.rb:33-44 | Any arrangement of the 52 built cards consists of deck cards only |
| Blackjack.RoundValueBounds | blackjack.rb:57-59 | In a round dealt from a full deck the hands and the deck hold 52 cards, each worth at least 2 |
| Blackjack.DealerNeverRunsDry | blackjack.rb:87-89 | In a round dealt from a full deck where the player holds at most 44 cards, the dealer's play reaches 16 before the deck runs out |
| Blackjack.StandOnRound | blackjack.rb:87-89 | The dealer's play loses no card. A dealer at 16 or more draws nothing. A standard round stays standard, with the dealer at 16 or more |
| Blackjack.HitOnRound | blackjack.rb:79-84 | The player's draw loses no card. Unless the player busts, a standard round stays standard |
| Blackjack.HitKeepsStandard | blackjack.rb:79-84 | The player's draw, followed on a bust by the dealer's play, keeps a standard round standard |
| Blackjack.Game.constructor | blackjack.rb:71-77 | A new round has 2 cards in each hand, 48 in the deck, all 52 cards accounted for, no winner, and satisfies `Standard` |
| Blackjack.Game.Injected | blackjack_spec.rb:143-151 | A round built from given deck and hands, with no winner |
| Blackjack.Game.DealOpening | blackjack.rb:75-76 | The player takes the deck's first two cards and the dealer the next two; the deck keeps the rest |
| Blackjack.Game.Hit | blackjack.rb:79-85 | The player hand grows by exactly the deck's first card. Without a bust nothing else changes. On a bust the dealer plays out from the rest of the deck and the winner is set to `Dealer`. `Standard` is preserved |
| Blackjack.Game.Stand | blackjack.rb:87-90 | The dealer hand gains the first `DealerDraws` cards of the deck. The winner is set to `DetermineWinner` of the two final values. In a standard round the dealer ends at 16 or more and the round stays standard |
| Blackjack.Game.Status | blackjack.rb:92-98 | The snapshot holds both hands' actual cards, their values and the winner, with nothing masked |
| Blackjack.SetUpBustingRound | blackjack_spec.rb:133-151 | From the deck 7, 7, K, K, 8 the player holds 14, the dealer 20, and the 8 is left |
| Blackjack.BustingPlayerLoses | blackjack_spec.rb:133-156 | In that round the player hits to 22, stands automatically and the dealer wins |

## Left out

- `Card#suit` (first letter, capitalised), `Card#to_s` and `Game#inspect` (blackjack.rb:15-21, 112-114) are only string formatting.
- Ruby's `Array#shuffle` draws from a random source. The model only says that the result is some permutation, and any permutation can occur.
- Card ranks that are neither integers nor the four face letters are not modelled. The Ruby card would return such a rank object itself as its value.
- Hands.Hand.Hit: requires a non-empty deck. On an empty deck Ruby's `shift` returns `nil` and appends it to the hand, and the next `value` call fails.
- Blackjack.Game.Hit: requires a non-empty deck for the same reason. In a round started by the constructor this only matters if the player keeps hitting after the round is over.
- Hands.Hand.PlayAsDealer: also stops when the deck is empty. The Ruby recursion would draw `nil` and then fail. `Blackjack.DealerNeverRunsDry` and `Game.Stand` show that this cannot happen in a round dealt from a full deck.
- Masked status (`hidden_cards`, `hidden_value`) appears only in the test suite. blackjack.rb does not implement it.
- A dealer threshold that depends on the player's value is not part of this code.
- The RSpec mocks and `instance_variable_set` set-up become `Deck.FromCards` and `Game.Injected`.
