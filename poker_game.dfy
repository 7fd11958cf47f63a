/** The game configuration of src/models/PokerGame.ts. The class as written
    has only a constructor: it stores its parameters (with defaults), starts
    with an empty board and an empty pot, and then asserts that at least two
    players were given. The players (src/models/Player.ts) and the deck
    (src/models/PokerDeck.ts) are not part of this model: their types are the
    parameters `P` and `D`. The card ranks use the `Value` enum of
    models/FrenchCard.ts. */
module PokerGame {
  import opened Wrappers
  import opened FrenchCard
  import Blinds

  /** `defaultCardRanks`: Two up to Ace. */
  const DefaultCardRanks: seq<Value> :=
    [Two, Three, Four, Five, Six, Seven, Eight, Nine, Ten, Jack, Queen, King, Ace]

  /** The default ranks are the 13 ranks from Two to Ace in ascending enum
      order, so without repeats; One is the only value left out. */
  lemma DefaultCardRanksShape()
    ensures |DefaultCardRanks| == 13
    ensures forall i, j :: 0 <= i < j < |DefaultCardRanks| ==>
      DefaultCardRanks[i].Index() < DefaultCardRanks[j].Index()
    ensures forall v: Value :: v in DefaultCardRanks <==> v != One
  {
    forall i | 0 <= i < |DefaultCardRanks| ensures DefaultCardRanks[i].Index() == i + 1 {
    }
    forall v: Value ensures v in DefaultCardRanks <==> v != One {
      if v != One {
        assert DefaultCardRanks[v.Index() - 1] == v;
      }
    }
  }

  /** The error the constructor's assertion raises. */
  datatype GameError = TooFewPlayers
  {
    function Message(): string
    {
      "Must have at least 2 players"
    }
  }

  /** The constructor's check: a game needs at least two players. */
  function CheckPlayers(count: nat): (r: Outcome<GameError>)
    ensures r.Pass? <==> count >= 2
    ensures r.Fail? ==> r.error.Message() == "Must have at least 2 players"
  {
    if count > 1 then Pass else Fail(TooFewPlayers)
  }

  class PokerGame<P, D> {
    var players: seq<P>
    var cardRanks: seq<Value>
    var deck: D
    var blinds: Blinds.Blinds
    var board: seq<FrenchCard>
    var pot: int
    var handSize: int
    var betLimit: int

    /** The assignments of the constructor, before its assertion. */
    constructor (players: seq<P>, deck: D, cardRanks: seq<Value> := DefaultCardRanks,
                 blinds: Blinds.Blinds := Blinds.Blinds(), handSize: int := 0, betLimit: int := 0)
      ensures this.players == players && this.deck == deck && this.cardRanks == cardRanks
      ensures this.blinds == blinds && this.handSize == handSize && this.betLimit == betLimit
      ensures board == [] && pot == 0
    {
      this.players := players;
      this.cardRanks := cardRanks;
      this.deck := deck;
      this.blinds := blinds;
      this.handSize := handSize;
      this.betLimit := betLimit;
      board := [];
      pot := 0;
    }
  }

  /** `new PokerGame({...})`: the constructed game, or the assertion's error
      when fewer than two players are given. */
  method NewPokerGame<P, D>(players: seq<P>, deck: D, cardRanks: seq<Value> := DefaultCardRanks,
                            blinds: Blinds.Blinds := Blinds.Blinds(), handSize: int := 0, betLimit: int := 0)
    returns (result: Result<PokerGame<P, D>, GameError>)
    ensures result.Success? <==> |players| >= 2
    ensures result.Failure? ==> result.error == TooFewPlayers
    ensures result.Success? ==>
      var game := result.value;
      fresh(game) && game.players == players && game.deck == deck &&
      game.cardRanks == cardRanks && game.blinds == blinds &&
      game.handSize == handSize && game.betLimit == betLimit &&
      game.board == [] && game.pot == 0
  {
    var game := new PokerGame(players, deck, cardRanks, blinds, handSize, betLimit);
    match CheckPlayers(|players|)
    case Pass => result := Success(game);
    case Fail(e) => result := Failure(e);
  }

  /** A game given only its players and deck: no hand size, no bet limit, no
      forced bets, the default ranks, an empty board and pot; refused for
      fewer than two players. */
  method DefaultGame<P, D>(players: seq<P>, deck: D) returns (ok: bool, handSize: int, betLimit: int,
                                                              blindsTotal: int, ranks: seq<Value>, pot: int)
    ensures ok <==> |players| >= 2
    ensures ok ==> handSize == 0 && betLimit == 0 && blindsTotal == 0 && ranks == DefaultCardRanks && pot == 0
  {
    var result := NewPokerGame(players, deck);
    ok := result.Success?;
    handSize, betLimit, blindsTotal, ranks, pot := 0, 0, 0, [], 0;
    if ok {
      var game := result.value;
      handSize, betLimit, blindsTotal, ranks, pot := game.handSize, game.betLimit, game.blinds.Total(), game.cardRanks, game.pot;
    }
  }
}
