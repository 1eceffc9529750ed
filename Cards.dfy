/** Playing cards of the War game: suits, ranks, comparison values and colour. */
module Cards {

  /** The four suits, in the order the deck builder walks them: spades, hearts, diamonds, clubs. */
  datatype Suit = Spades | Hearts | Diamonds | Clubs

  datatype CardColor = Red | Black

  /** A card. `rank` is the label shown on the face; `value` (2 to 14, ace high)
      is the only thing rounds compare. */
  datatype Card = Card(suit: Suit, rank: string, value: int)

  const Suits: seq<Suit> := [Spades, Hearts, Diamonds, Clubs]
  const Ranks: seq<string> := ["2", "3", "4", "5", "6", "7", "8", "9", "10", "J", "Q", "K", "A"]
  const Values: seq<int> := [2, 3, 4, 5, 6, 7, 8, 9, 10, 11, 12, 13, 14]

  /** The colour of a card is derived from its suit alone. */
  function ColorOf(card: Card): (c: CardColor)
    ensures c == Red <==> card.suit == Hearts || card.suit == Diamonds
    ensures c == Black <==> card.suit == Spades || card.suit == Clubs
  {
    match card.suit
    case Hearts | Diamonds => Red
    case Spades | Clubs => Black
  }

  /** The i-th value is i + 2: two is worth 2, the ace 14, strictly increasing with the rank. */
  lemma ValuesAscend()
    ensures |Values| == |Ranks| == 13
    ensures forall i :: 0 <= i < 13 ==> Values[i] == i + 2
  {
    assert Values == seq(13, i => i + 2);
  }

  /** No two suits of the table are equal, and no two ranks. */
  lemma TablesDistinct()
    ensures |Suits| == 4
    ensures forall i, j :: 0 <= i < j < 4 ==> Suits[i] != Suits[j]
    ensures forall i, j :: 0 <= i < j < 13 ==> Ranks[i] != Ranks[j]
  {
    forall i, j | 0 <= i < j < 13 ensures Ranks[i] != Ranks[j] {
      assert Ranks[i][0] != Ranks[j][0] || (Ranks[i] == "10") != (Ranks[j] == "10");
    }
  }
}
