/** Small games played through the engine from hand-set decks. Each is a client of WarGame
    that relies on its contracts alone. */
module Scenarios {
  import opened Cards
  import opened Rules
  import opened Game

  /** A game whose decks are set by hand, between rounds, with nothing at stake yet. */
  method Setup(deck1: seq<Card>, deck2: seq<Card>) returns (g: WarGame)
    requires deck1 != [] && deck2 != []
    ensures fresh(g) && g.Valid()
    ensures g.player1Deck == deck1 && g.player2Deck == deck2 && g.warPile == []
    ensures !g.gameOver && g.pending == NoneScheduled
  {
    // every pick 0 is in range, so these picks are a valid shuffle
    g := new WarGame(seq(52, k => 0));
    g.player1Deck, g.player2Deck := deck1, deck2;
  }

  /** Ace against king with nothing in reserve: player 1 takes both cards and wins the game. */
  method AceBeatsKing() returns (deck1: seq<Card>, deck2: seq<Card>, winner: Option<Outcome>)
    ensures deck1 == [Card(Spades, "A", 14), Card(Spades, "K", 13)] && deck2 == []
    ensures winner == Some(Player1)
  {
    var sA, sK := Card(Spades, "A", 14), Card(Spades, "K", 13);
    var g := Setup([sA], [sK]);
    g.PlayRound();
    g.ResolveRound();
    deck1, deck2, winner := g.player1Deck, g.player2Deck, g.winner;
  }

  /** Two sevens with nothing in reserve: the stake min(3, -1, -1) is not positive, so the game
      ends at once, the two sevens stay in the war pile, and empty decks make a tie. */
  method TieWithoutReserve() returns (deck1: seq<Card>, deck2: seq<Card>, pile: seq<Card>, winner: Option<Outcome>)
    ensures deck1 == [] && deck2 == []
    ensures pile == [Card(Hearts, "7", 7), Card(Clubs, "7", 7)]
    ensures winner == Some(Tie)
  {
    var h7, c7 := Card(Hearts, "7", 7), Card(Clubs, "7", 7);
    var g := Setup([h7], [c7]);
    g.PlayRound();
    g.ResolveRound();
    deck1, deck2, pile, winner := g.player1Deck, g.player2Deck, g.warPile, g.winner;
  }

  /** A war between two four-card decks stakes three cards a side, pair by pair. */
  lemma StakeThreeOfFour<T>(x1: T, x2: T, x3: T, x4: T, y1: T, y2: T, y3: T, y4: T, c1: T, c2: T)
    ensures WarStake(4, 4) == 3
    ensures [x1, x2, x3, x4][3..] == [x4] && [y1, y2, y3, y4][3..] == [y4]
    ensures [] + [c1, c2] + StakePairs([x1, x2, x3, x4][..3], [y1, y2, y3, y4][..3])
         == [c1, c2, x1, y1, x2, y2, x3, y3]
  {
    assert [x1, x2, x3, x4][..3] == [x1, x2, x3] && [y1, y2, y3, y4][..3] == [y1, y2, y3];
    assert [x1, x2, x3][1..] == [x2, x3] && [y1, y2, y3][1..] == [y2, y3];
    assert StakePairs([x3], [y3]) == [x3, y3];
    assert StakePairs([x2, x3], [y2, y3]) == [x2, y2, x3, y3];
  }

  /** A winner with an empty deck takes the revealed pair and then an eight-card war pile. */
  lemma TakeEight<T>(c1: T, c2: T, p1: T, p2: T, p3: T, p4: T, p5: T, p6: T, p7: T, p8: T)
    ensures [] + [c1, c2] + [p1, p2, p3, p4, p5, p6, p7, p8] == [c1, c2, p1, p2, p3, p4, p5, p6, p7, p8]
  {
  }

  /** Two sevens with three cards each in reserve: the war stakes min(3, 4 - 1, 4 - 1) = 3 cards per side,
      pair by pair, and schedules its continuation with an ace and a king left to reveal. */
  method WarDeclared() returns (g: WarGame)
    ensures fresh(g) && g.Valid() && g.isWar && !g.gameOver && g.pending == WarScheduled
    ensures g.player1Deck == [Card(Hearts, "A", 14)] && g.player2Deck == [Card(Clubs, "K", 13)]
    ensures g.warPile == [Card(Hearts, "7", 7), Card(Clubs, "7", 7),
                          Card(Hearts, "2", 2), Card(Clubs, "2", 2),
                          Card(Hearts, "3", 3), Card(Clubs, "3", 3),
                          Card(Hearts, "4", 4), Card(Clubs, "4", 4)]
  {
    var h7, h2, h3, h4, hA := Card(Hearts, "7", 7), Card(Hearts, "2", 2), Card(Hearts, "3", 3), Card(Hearts, "4", 4), Card(Hearts, "A", 14);
    var c7, c2, c3, c4, cK := Card(Clubs, "7", 7), Card(Clubs, "2", 2), Card(Clubs, "3", 3), Card(Clubs, "4", 4), Card(Clubs, "K", 13);
    g := Setup([h7, h2, h3, h4, hA], [c7, c2, c3, c4, cK]);
    g.PlayRound();
    assert g.player1Deck == [h2, h3, h4, hA] && g.player2Deck == [c2, c3, c4, cK];
    g.ResolveRound();
    StakeThreeOfFour(h2, h3, h4, hA, c2, c3, c4, cK, h7, c7);
  }

  /** The war above continues: ace against king, and player 1 takes all ten cards, the revealed
      pair first and then the war pile in the order it was built. */
  method WarDecidedByAce() returns (deck1: seq<Card>, deck2: seq<Card>, winner: Option<Outcome>)
    ensures deck1 == [Card(Hearts, "A", 14), Card(Clubs, "K", 13),
                      Card(Hearts, "7", 7), Card(Clubs, "7", 7),
                      Card(Hearts, "2", 2), Card(Clubs, "2", 2),
                      Card(Hearts, "3", 3), Card(Clubs, "3", 3),
                      Card(Hearts, "4", 4), Card(Clubs, "4", 4)]
    ensures deck2 == []
    ensures winner == Some(Player1)
  {
    var g := WarDeclared();
    g.ContinueWar();
    g.ResolveRound();
    TakeEight(Card(Hearts, "A", 14), Card(Clubs, "K", 13),
              Card(Hearts, "7", 7), Card(Clubs, "7", 7), Card(Hearts, "2", 2), Card(Clubs, "2", 2),
              Card(Hearts, "3", 3), Card(Clubs, "3", 3), Card(Hearts, "4", 4), Card(Clubs, "4", 4));
    deck1, deck2, winner := g.player1Deck, g.player2Deck, g.winner;
  }
}
