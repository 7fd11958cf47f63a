# Card-game containers of `cards`, in Dafny

This project models the card-game building blocks of the `cards` repository
(TypeScript, Deno). These are three generations of card deck, the ordered poker
deck, the French card type, and the records of a poker table: the player's chip
balance, the forced bets and the game configuration.

Each source file is one Dafny module:

| module | file | models |
|---|---|---|
| `DeckSpec` | deck_spec.dfy | the functions that specify the decks: the Fisher–Yates shuffle as a function of the random indices it draws, the cards obtained by drawing `k` times, and removal at an index |
| `CardDeck` | card_deck.dfy | `src/models/CardDeck.ts`: `add` puts the card at the bottom (`unshift`); there is a `drawMany` |
| `LegacyCardDeck` | legacy_card_deck.dfy | `models/CardDeck.ts`: `add` pushes onto the top, so `add` then `draw` is last-in first-out |
| `LegacyDeck` | legacy_deck.dfy | `models/Deck.ts`: `draw`, `add` (push), `shuffle` and `toString` |
| `FrenchCard` | french_card.dfy | `models/FrenchCard.ts`: the `Suit` and `Value` enums, the card, `toString` and `random` |
| `PokerDeck` | poker_deck.dfy | `models/PokerDeck.ts`: the suit-major ordered deck and `shuffled(times)` |
| `PokerPlayer` | poker_player.dfy | `src/models/PokerPlayer.ts`: the guarded `chips` setter |
| `Blinds` | blinds.dfy | `src/models/Blinds.ts`: three amounts and their `total` |
| `PokerGame` | poker_game.dfy | `src/models/PokerGame.ts`: the constructor's defaults and its player-count assertion |
| `Wrappers` | wrappers.dfy | `Option` for a value or `undefined`; `Result` and `Outcome` for calls that throw |

Modelling choices:

- **Decks are classes.** Every deck is a class whose `cards: seq<T>` field the
  methods reassign. The END of the sequence is the top of the deck, where
  `pop` takes from.
- **Randomness is a nondeterministic choice.** `Math.random` becomes an
  in-range choice (`:|`). Ghost out-parameters record the indices chosen, so
  that a method's result is tied to a specification function of those indices:
  `Shuffle` to `DeckSpec.Shuffled`, `Pick` to the removed index, `Random` to
  the two indices.
- **A failing `assert` returns an error.** Where the source's `assert` throws,
  the model returns a `Result` or `Outcome` error and changes nothing.
- **Unseen types are parameters.** The card type of `models/Card.ts` is a type
  parameter of the three deck classes, and so are the player and deck types of
  the game. A `Card`'s `toString` is a parameter `show` of `Deck.ToString`.
  The poker deck builds its own `Card(value, suit)` pairs: the values are a
  parameter list, and the suits are taken to be the four suits of
  `models/FrenchCard.ts` (see "## Left out").
- **Client scenarios are small methods.** Methods such as `AddThenDraw`,
  `DrawManyFrom` and `ToStringAfterAdd` each build their own deck and state
  what a short sequence of calls does.

Where the code and its documentation or tests disagree, the model follows the code:

- `add` in `models/CardDeck.ts` pushes, although its doc comment says it adds to the bottom.
- The game's `handSize` defaults to 0. The test file expects 2 and a `maxPlayers` option, which the constructor does not have.
- The game's error message is "Must have at least 2 players", without the final full stop the test expects.
- Neither `Blinds` nor the `PokerPlayer` constructor checks the sign of its amounts.

## Model

| member | source | states |
|---|---|---|
| DeckSpec.Swap | src/models/CardDeck.ts:64 | the destructuring swap keeps the deck's length |
| DeckSpec.SwapExchanges | src/models/CardDeck.ts:64 | the two positions exchange their cards and every other card stays in place |
| DeckSpec.SwapPermutes | src/models/CardDeck.ts:64 | a swap neither adds nor loses a card (same multiset) |
| DeckSpec.Shuffled | src/models/CardDeck.ts:61-67 | applying the shuffle steps for any in-range random indices keeps the length |
| DeckSpec.ShuffledIsPermutation | src/models/CardDeck.ts:61-67 | whatever indices `Math.random` yields, the shuffled deck is a permutation of the original |
| DeckSpec.Staying | src/models/CardDeck.ts:62-63 | drawing at each step the position being worked on is a valid sequence of in-range indices |
| DeckSpec.StayingKeepsOrder | src/models/CardDeck.ts:62-65 | with those indices the shuffle leaves the deck as it was: the original order is one possible outcome |
| DeckSpec.FisherYates | src/models/CardDeck.ts:62-65 | the descending swap loop makes one in-range draw per position from the top down to 1, yields `Shuffled` of those draws, keeps length and multiset, and leaves decks of at most one card unchanged |
| DeckSpec.DrawCount | src/models/CardDeck.ts:39-48 | `drawMany(count)` obtains `min(max(count, 0), len)` cards: none for a non-positive count, all for a count at least the length |
| DeckSpec.DrawnTopAt | src/models/CardDeck.ts:39-48 | the `m`-th card drawn is the card `m` places below the top: the last `k` cards in reverse order |
| DeckSpec.DrawnTopLength | src/models/CardDeck.ts:39-48 | drawing `k` times yields `k` cards |
| DeckSpec.DrawnTopNext | src/models/CardDeck.ts:41-45 | one more draw appends the next card below those already drawn |
| DeckSpec.DrawnTopPartition | src/models/CardDeck.ts:39-48 | the cards drawn and the cards left are together exactly the original deck |
| DeckSpec.KeepTruthy | src/models/CardDeck.ts:43-45 | the `if (card)` filter returns at most the cards it is given |
| DeckSpec.KeepTruthySnoc | src/models/CardDeck.ts:43-45 | a tested card is appended exactly when it is truthy |
| DeckSpec.KeepTruthyAll | src/models/CardDeck.ts:43-45 | when every card is truthy the filter drops nothing |
| DeckSpec.PickPartition | src/models/CardDeck.ts:19-24 | `splice(i, 1)` keeps every card except the one removed |
| CardDeck.CardDeck.constructor | src/models/CardDeck.ts:4-6 | the deck holds exactly the given cards |
| CardDeck.CardDeck.Length | src/models/CardDeck.ts:11-13 | `length` is the number of cards held |
| CardDeck.CardDeck.Pick | src/models/CardDeck.ts:19-24 | a non-empty deck loses exactly the card at some in-range index, returns it and keeps the others in order; an empty deck returns nothing and is unchanged |
| CardDeck.CardDeck.Draw | src/models/CardDeck.ts:30-32 | a non-empty deck returns its last card and keeps the prefix without it; an empty deck returns nothing and is unchanged |
| CardDeck.CardDeck.DrawMany | src/models/CardDeck.ts:39-48 | (corrected) returns the top `DrawCount(count, len)` cards in the order drawn, the top card first, and leaves the first `len - k` cards in order; never fails for an integer count |
| CardDeck.CardDeck.DrawManyTruthy | src/models/CardDeck.ts:39-48 | (as written) the same draws, but only the truthy cards are returned, while every drawn card leaves the deck |
| CardDeck.CardDeck.Add | src/models/CardDeck.ts:55-58 | the card goes to index 0 (the bottom), the others keep their order, and the same deck is returned |
| CardDeck.CardDeck.Shuffle | src/models/CardDeck.ts:61-67 | the new cards are `Shuffled` of one full pass of in-range draws: a permutation of the same length; decks of at most one card are unchanged; the same deck is returned |
| CardDeck.AddThenDraw | src/models/CardDeck.ts:55-58 | on a non-empty deck, `add(c)` then `draw()` returns the previous top card, not `c`; on an empty deck it returns `c` |
| CardDeck.DrawManyFrom | src/models/CardDeck.ts:39-48 | `drawMany` returns `DrawCount` cards, drawn and left cards partition the deck, an over-large count empties it, and a non-positive count changes nothing |
| CardDeck.ZeroCardIsLost | src/models/CardDeck.ts:43-45 | on the deck `[0]`, `drawMany(1)` as written returns nothing and empties the deck, while the corrected version returns `[0]` |
| CardDeck.DrawManyAgree | src/models/CardDeck.ts:39-48 | when all cards are truthy (objects), the code as written and the corrected `DrawMany` return the same cards and leave the same deck |
| LegacyCardDeck.CardDeck.constructor | models/CardDeck.ts:4-6 | the deck holds exactly the given cards |
| LegacyCardDeck.CardDeck.Length | models/CardDeck.ts:11-13 | `length` is the number of cards held |
| LegacyCardDeck.CardDeck.Pick | models/CardDeck.ts:19-21 | removes and returns the card at some in-range index and keeps the others in order; an empty deck returns nothing and is unchanged |
| LegacyCardDeck.CardDeck.Draw | models/CardDeck.ts:27-29 | removes and returns the last card; an empty deck returns nothing and is unchanged |
| LegacyCardDeck.CardDeck.Add | models/CardDeck.ts:36-39 | the card is appended at the end `draw` takes from, and the same deck is returned |
| LegacyCardDeck.CardDeck.Shuffle | models/CardDeck.ts:42-48 | one full pass of in-range draws: a permutation of the same length, unchanged for at most one card, the same deck returned |
| LegacyCardDeck.AddThenDraw | models/CardDeck.ts:36-39 | `add(c)` then `draw()` returns `c` and restores the original cards |
| LegacyCardDeck.PickFrom | models/CardDeck.ts:19-21 | `pick` returns a card exactly when the deck is non-empty, and the deck loses exactly that card |
| LegacyDeck.Join | models/Deck.ts:38 | `.join(', ')`: no strings give "", one string is itself, and otherwise the first string, the separator and the join of the rest; `JoinSnoc` and `JoinLength` state its content and length |
| LegacyDeck.Shown | models/Deck.ts:38 | `map(c => c.toString())` gives each card's string at its position |
| LegacyDeck.JoinSnoc | models/Deck.ts:38 | joining one more string appends the separator and that string |
| LegacyDeck.JoinLength | models/Deck.ts:38 | the joined string is the strings plus one separator between each pair of neighbours |
| LegacyDeck.Deck.constructor | models/Deck.ts:6-8 | the deck holds exactly the given cards |
| LegacyDeck.Deck.Cards | models/Deck.ts:15-17 | the getter returns exactly the current contents |
| LegacyDeck.Deck.Draw | models/Deck.ts:19-21 | removes and returns the last card; an empty deck returns nothing and is unchanged |
| LegacyDeck.Deck.Add | models/Deck.ts:23-26 | appends the card at the end and returns the same deck |
| LegacyDeck.Deck.Shuffle | models/Deck.ts:29-35 | one full pass of in-range draws: a permutation of the same length, unchanged for at most one card |
| LegacyDeck.Deck.ToString | models/Deck.ts:37-39 | the empty deck gives "", one card gives that card's string, and in general the length is the cards' strings plus ", " between neighbours |
| LegacyDeck.AddThenDraw | models/Deck.ts:23-26 | `add(c)` then `draw()` returns `c` and restores the deck |
| LegacyDeck.ToStringAfterAdd | models/Deck.ts:37-39 | after `add(c)` the string grows by ", " and `c`'s string, or becomes `c`'s string on an empty deck |
| FrenchCard.Suit.Ordinal | models/FrenchCard.ts:1-6 | every suit's number is below 4 |
| FrenchCard.SuitOf | models/FrenchCard.ts:1-6 | the reverse mapping `Suit[n]` gives a suit exactly for 0 to 3, and that suit has number `n` |
| FrenchCard.SuitNumbering | models/FrenchCard.ts:1-6 | Diamond, Heart, Club, Spade are 0, 1, 2, 3, and each suit is recovered from its number |
| FrenchCard.Suit.Name | models/FrenchCard.ts:48 | `Suit[this.suit]`: the member name "Diamond", "Heart", "Club" or "Spade"; `SuitNameReadsBack` proves it names the suit |
| FrenchCard.SuitNameReadsBack | models/FrenchCard.ts:48 | each suit's name reads back to that suit |
| FrenchCard.Value.Label | models/FrenchCard.ts:8-21 | the string enum value of each member: "1" to "10", "J", "Q", "K", "A"; `LabelShape` and `ValueLabelsDistinct` state its properties |
| FrenchCard.LabelShape | models/FrenchCard.ts:8-21 | every label is one or two characters without a blank |
| FrenchCard.Value.Index | models/FrenchCard.ts:7-22 | each value sits at its declaration position in `Object.values(Value)` |
| FrenchCard.ValueOfLabel | models/FrenchCard.ts:7-22 | a label read back names a value with that label |
| FrenchCard.SuitOfName | models/FrenchCard.ts:1-6 | a name read back names a suit with that name |
| FrenchCard.ValueLabelsDistinct | models/FrenchCard.ts:7-22 | there are 14 values, all listed, with pairwise different labels that read back to the value |
| FrenchCard.CardStoresFields | models/FrenchCard.ts:24-31 | the constructor stores `value` and `suit` as given (readonly fields of an immutable value), and two cards are equal exactly when both agree |
| FrenchCard.FrenchCard.ToString | models/FrenchCard.ts:47-49 | "<label> of <suit name>s" reads back to the same card |
| FrenchCard.ParseFormatted | models/FrenchCard.ts:47-49 | the formatted string parses back to the card it was written from |
| FrenchCard.ToStringInjective | models/FrenchCard.ts:47-49 | different cards have different strings |
| FrenchCard.SuitEnumValues | models/FrenchCard.ts:39 | `Object.values(Suit)`: the four names, then the numbers 0 to 3 |
| FrenchCard.ParseInt | models/FrenchCard.ts:40 | `Number.parseInt`: a number stays itself, a string with leading digits reads them, any other string is NaN (None) |
| FrenchCard.Numbers | models/FrenchCard.ts:39-41 | the `parseInt`/NaN filter keeps at most the values it is given |
| FrenchCard.SuitIndexesAreOrdinals | models/FrenchCard.ts:39-41 | of `Object.values(Suit)`, the filter keeps exactly the numbers 0, 1, 2, 3, in order |
| FrenchCard.RandomCard | models/FrenchCard.ts:34-44 | the card built from value index `vi` and suit index `si` has the `vi`-th member of `Object.values(Value)` and the suit numbered `si` |
| FrenchCard.EveryCardIsPossible | models/FrenchCard.ts:33-45 | every one of the 56 cards is `RandomCard` of some in-range pair of indices, so every card is a possible result |
| FrenchCard.Random | models/FrenchCard.ts:33-45 | the result is `RandomCard` of an in-range value index (of 14) and suit index (of the 4 numeric keys the filter keeps) |
| PokerDeck.Run | models/PokerDeck.ts:11-13 | the inner loop yields one card per value, in value order, all of the given suit |
| PokerDeck.Runs | models/PokerDeck.ts:10-14 | the runs of all suits have `suits × values` cards, each of one of those suits |
| PokerDeck.OrderedDeck | models/PokerDeck.ts:7-14 | the contents of `new PokerDeck()`: the runs of all values for Diamond, Heart, Club and Spade, in that order; `OrderedDeckAt`, `OrderedDeckHasEveryPair` and `OrderedDeckDistinct` state its layout |
| PokerDeck.RunStep | models/PokerDeck.ts:11-13 | one more inner iteration appends the next value's card |
| PokerDeck.RunsStep | models/PokerDeck.ts:10-14 | one more outer iteration appends the next suit's run |
| PokerDeck.OrderedCards | models/PokerDeck.ts:5-16 | the nested loops build exactly the suit-major ordered deck, 4 × (number of values) cards |
| PokerDeck.RunsAt | models/PokerDeck.ts:10-14 | the card at `i * n + j` (n values) has the `j`-th value and the `i`-th suit |
| PokerDeck.RunsDistinct | models/PokerDeck.ts:10-14 | distinct values in distinct suits give distinct cards |
| PokerDeck.OrderedDeckAt | models/PokerDeck.ts:7-14 | the fresh deck has 4 × (number of values) cards, and the card at `i * n + j` (n values) is the `j`-th value in the `i`-th of Diamond, Heart, Club, Spade |
| PokerDeck.OrderedDeckHasEveryPair | models/PokerDeck.ts:7-14 | every (value, suit) pair is in the fresh deck |
| PokerDeck.OrderedDeckDistinct | models/PokerDeck.ts:6-14 | with distinct values the fresh deck has no duplicates |
| PokerDeck.NewPokerDeck | models/PokerDeck.ts:5-16 | `new PokerDeck()` holds the ordered cards |
| PokerDeck.Shuffled | models/PokerDeck.ts:18-24 | `shuffled(times)` is a permutation of the fresh ordered deck, and for `times <= 0` (including 0) it is that deck unchanged |
| PokerDeck.ShuffledDistinct | models/PokerDeck.ts:18-24 | a shuffled deck of distinct values still has 4 × (number of values) cards and no duplicates |
| PokerPlayer.SetChips | src/models/PokerPlayer.ts:19-24 | the setter succeeds exactly for `0 <= amount <= balance`, making the balance `amount`; a negative amount fails first, then one above the balance |
| PokerPlayer.SetsNeverIncrease | src/models/PokerPlayer.ts:19-24 | over any sequence of calls the balance never grows, and it is never negative unless it started so and never changed |
| PokerPlayer.SetToBalanceIsNoOp | src/models/PokerPlayer.ts:20-23 | setting a non-negative balance to itself succeeds and changes nothing |
| PokerPlayer.NegativeBalanceIsStuck | src/models/PokerPlayer.ts:12-21 | a negative balance stored by the constructor makes every later set fail |
| PokerPlayer.PokerPlayer.constructor | src/models/PokerPlayer.ts:6-13 | stores name, cards (default empty) and chips (default 0) unchecked; not folded |
| PokerPlayer.PokerPlayer.Chips | src/models/PokerPlayer.ts:15-17 | the getter returns the private balance |
| PokerPlayer.PokerPlayer.SetChipsTo | src/models/PokerPlayer.ts:19-24 | on success the balance becomes `amount`; on failure it is unchanged and the error is the first failing assertion; only the balance may change |
| PokerPlayer.SetChipsInTurn | src/models/PokerPlayer.ts:19-24 | a player set with several amounts in turn ends at `AfterSets`, never above the starting balance |
| Blinds.Blinds.Total | src/models/Blinds.ts:16-18 | the `total` getter: the sum of the three amounts held when it is read; `TotalFollowsFields` proves it follows every change of an amount |
| Blinds.DefaultBlinds | src/models/Blinds.ts:6-18 | omitted amounts are 0, so `new Blinds().total == 0` |
| Blinds.TotalFollowsFields | src/models/Blinds.ts:16-18 | `total` is the sum of the current amounts, and changing one amount changes it by the same difference |
| Blinds.StoresGivenAmounts | src/models/Blinds.ts:6-14 | the amounts are stored as given, {25, 50, 10} totals 85, and negative amounts are accepted |
| PokerGame.DefaultCardRanksShape | src/models/PokerGame.ts:46-60 | the default ranks are the 13 values Two to Ace in ascending order; One is the only value left out |
| PokerGame.CheckPlayers | src/models/PokerGame.ts:33 | the check passes exactly for two or more players; otherwise its message is "Must have at least 2 players" |
| PokerGame.PokerGame.constructor | src/models/PokerGame.ts:18-32 | stores players, deck, ranks, blinds, hand size and bet limit (with their defaults); empty board; empty pot |
| PokerGame.NewPokerGame | src/models/PokerGame.ts:18-34 | construction succeeds exactly with at least two players, then holds the given configuration, an empty board and an empty pot |
| PokerGame.DefaultGame | src/models/PokerGame.ts:18-34 | a game given only players and deck has hand size 0, bet limit 0, blinds totalling 0, the default ranks and an empty pot |

## Findings

| source | as written | input that shows it | evidently intended | confidence | as-written member | corrected member |
|---|---|---|---|---|---|---|
| src/models/CardDeck.ts:43 | `drawMany` keeps a drawn card only if it is truthy, but the card has already been popped | a `CardDeck<number>` holding `[0]`, then `drawMany(1)`: returns `[]` and the deck is empty, so the 0 is lost | keep every card that `draw` returned, testing only for `undefined` | medium (the deck is generic; with object cards the two agree), not executed | CardDeck.CardDeck.DrawManyTruthy, CardDeck.ZeroCardIsLost | CardDeck.CardDeck.DrawMany |

## Left out

- DeckSpec.FisherYates: states which outcomes are possible (any full pass of in-range draws), not that they are equally likely; `Math.random` has no distribution here.
- CardDeck.CardDeck.Shuffle, LegacyCardDeck.CardDeck.Shuffle, LegacyDeck.Deck.Shuffle: the same, no uniformity claim.
- CardDeck.CardDeck.Pick, LegacyCardDeck.CardDeck.Pick: the index is any in-range choice; uniformity is not modelled.
- FrenchCard.Random: the choice is any valid index, not a uniform one.
- The betting engine (`start`, `act`, `roundOver`, `largestBet`, `maxPlayers`, seat roles) that the game tests exercise is not in `src/models/PokerGame.ts`, which has only a constructor, so it is not modelled.
- The `cards` getters return the internal array in the source, so a caller could mutate the deck through it; here they return the current sequence (a value), and aliasing is not modelled.
- `Deck.random` (models/Deck.ts:10-13) depends on `Card.random` from models/Card.ts, which is not part of this model.
- models/Card.ts is not part of this model: `PokerDeck` is generic in the value list `Object.values(Value)`, and `Deck.toString` takes the cards' `toString` as a parameter.
- PokerDeck.OrderedDeckAt: the `Suit` that models/PokerDeck.ts:1 imports from models/Card.ts is assumed to be the four-member enum of models/FrenchCard.ts (`Card<V>(value, suit: FrenchCard.Suit)`); the layout and distinctness results (`OrderedDeckAt`, `OrderedDeckHasEveryPair`, `OrderedDeckDistinct`, `ShuffledDistinct`) rest on that assumption.
- CardDeck.CardDeck.DrawMany: count is an integer; a fractional count draws ceil(count) cards, NaN draws none, and Infinity never returns.
- CardDeck.CardDeck.DrawManyTruthy: count is an integer, as for `DrawMany`.
- DeckSpec.DrawCount: count is an integer; the number of iterations for fractional, NaN or infinite JavaScript numbers is not modelled.
- PokerDeck.Shuffled: times is an integer; a fractional `times` shuffles ceil(times) times, NaN not at all, and Infinity never returns.
- src/models/PokerDeck.ts, src/models/FrenchCard.ts, src/models/Player.ts and src/deps.ts are not part of this model: the game's player and deck types are parameters, its ranks use the `Value` enum of models/FrenchCard.ts, and `assert` is a returned error.
- PokerGame.NewPokerGame: the deck is a required parameter; the default `new PokerDeck()` of src/models/PokerDeck.ts is not modelled.
- PokerGame.PokerGame.constructor: the private fields have no getters in the source, so they are plain fields here.
- PokerPlayer.SetChips: amounts are integers; JavaScript numbers may be fractional or NaN, which are not modelled.
- Blinds.StoresGivenAmounts: amounts are integers; fractional JavaScript numbers are not modelled.
- FrenchCard.ParseInt: reads leading decimal digits only; leading blanks and signs, which no enum key has, are not modelled.
- src/models/PokerGameErrors.ts (error subclasses), main.ts and src/main.ts (console output) are not modelled.
