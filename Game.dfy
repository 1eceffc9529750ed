/** The War game engine: two player decks, the two cards in play, the war pile,
    and the continuations the game schedules between a reveal and its resolution. */
module Game {
  import opened Cards
  import opened Decks
  import opened Rules

  datatype Option<T> = None | Some(value: T)

  /** The continuation the game has scheduled, if any. The browser game schedules the
      resolution of a round after revealing its cards, and the next round of a war after
      staking; here each is a state the driver leaves by calling ResolveRound or ContinueWar. */
  datatype Pending = NoneScheduled | ResolveScheduled | WarScheduled

  /** The cards in two decks and a war pile, as a multiset. */
  function Pool(d1: seq<Card>, d2: seq<Card>, pile: seq<Card>): multiset<Card> {
    multiset(d1) + multiset(d2) + multiset(pile)
  }

  /** Revealing the top card of each deck takes exactly those two cards out of the pool. */
  lemma RevealKeepsCards(d1: seq<Card>, d2: seq<Card>, pile: seq<Card>)
    requires d1 != [] && d2 != []
    ensures Pool(d1, d2, pile) == Pool(d1[1..], d2[1..], pile) + multiset{d1[0], d2[0]}
  {
    assert d1 == [d1[0]] + d1[1..] && d2 == [d2[0]] + d2[1..];
  }

  /** The round winner's deck gains the two revealed cards and the whole war pile. */
  lemma WinKeepsCards(d1: seq<Card>, d2: seq<Card>, pile: seq<Card>, c1: Card, c2: Card)
    ensures Pool(d1 + [c1, c2] + pile, d2, []) == Pool(d1, d2, pile) + multiset{c1, c2}
    ensures Pool(d1, d2 + [c1, c2] + pile, []) == Pool(d1, d2, pile) + multiset{c1, c2}
  {
  }

  /** A tie puts the two revealed cards on the war pile. */
  lemma PileKeepsCards(d1: seq<Card>, d2: seq<Card>, pile: seq<Card>, c1: Card, c2: Card)
    ensures Pool(d1, d2, pile + [c1, c2]) == Pool(d1, d2, pile) + multiset{c1, c2}
  {
  }

  /** Staking moves k cards from the top of each deck onto the war pile. */
  lemma {:induction false} StakeKeepsCards(d1: seq<Card>, d2: seq<Card>, pile: seq<Card>, k: nat)
    requires k <= |d1| && k <= |d2|
    ensures Pool(d1[k..], d2[k..], pile + StakePairs(d1[..k], d2[..k])) == Pool(d1, d2, pile)
  {
    StakePairsCards(d1[..k], d2[..k]);
    assert d1 == d1[..k] + d1[k..] && d2 == d2[..k] + d2[k..];
  }

  /** The decks and pile after a war is declared: the tied pair joins the pile and, when the
      stake is positive, `stake` cards from the top of each deck follow in pairs. */
  predicate WarOutcome(d1: seq<Card>, d2: seq<Card>, pile: seq<Card>, c1: Card, c2: Card,
                       e1: seq<Card>, e2: seq<Card>, ePile: seq<Card>)
    ensures WarOutcome(d1, d2, pile, c1, c2, e1, e2, ePile) ==>
      |e1| + |e2| + |ePile| == |d1| + |d2| + |pile| + 2
    ensures WarOutcome(d1, d2, pile, c1, c2, e1, e2, ePile) && WarStake(|d1|, |d2|) > 0 ==>
      e1 != [] && e2 != []
  {
    var stake := WarStake(|d1|, |d2|);
    if stake <= 0 then e1 == d1 && e2 == d2 && ePile == pile + [c1, c2]
    else e1 == d1[stake..] && e2 == d2[stake..] && ePile == pile + [c1, c2] + StakePairs(d1[..stake], d2[..stake])
  }

  /** Declaring a war neither creates nor loses a card: the tied pair joins the pile, and
      staking only moves cards from the decks onto it. */
  lemma WarKeepsCards(d1: seq<Card>, d2: seq<Card>, pile: seq<Card>, c1: Card, c2: Card,
                      e1: seq<Card>, e2: seq<Card>, ePile: seq<Card>)
    requires WarOutcome(d1, d2, pile, c1, c2, e1, e2, ePile)
    ensures Pool(e1, e2, ePile) == Pool(d1, d2, pile) + multiset{c1, c2}
  {
    PileKeepsCards(d1, d2, pile, c1, c2);
    var stake := WarStake(|d1|, |d2|);
    if stake > 0 {
      StakeKeepsCards(d1, d2, pile + [c1, c2], stake);
    }
  }

  /** The decks and pile after a round is resolved, by the values of the two revealed cards. */
  predicate ResolveOutcome(d1: seq<Card>, d2: seq<Card>, pile: seq<Card>, c1: Card, c2: Card,
                           e1: seq<Card>, e2: seq<Card>, ePile: seq<Card>)
    ensures ResolveOutcome(d1, d2, pile, c1, c2, e1, e2, ePile) ==>
      |e1| + |e2| + |ePile| == |d1| + |d2| + |pile| + 2
  {
    if c1.value > c2.value then e1 == d1 + [c1, c2] + pile && e2 == d2 && ePile == []
    else if c2.value > c1.value then e1 == d1 && e2 == d2 + [c1, c2] + pile && ePile == []
    else WarOutcome(d1, d2, pile, c1, c2, e1, e2, ePile)
  }

  /** Resolving a round neither creates nor loses a card: the two revealed cards go back
      into the decks or the pile. */
  lemma ResolveKeepsCards(d1: seq<Card>, d2: seq<Card>, pile: seq<Card>, c1: Card, c2: Card,
                          e1: seq<Card>, e2: seq<Card>, ePile: seq<Card>)
    requires ResolveOutcome(d1, d2, pile, c1, c2, e1, e2, ePile)
    ensures Pool(e1, e2, ePile) == Pool(d1, d2, pile) + multiset{c1, c2}
  {
    if c1.value > c2.value || c2.value > c1.value {
      WinKeepsCards(d1, d2, pile, c1, c2);
    } else {
      WarKeepsCards(d1, d2, pile, c1, c2, e1, e2, ePile);
    }
  }

  class WarGame {
    var player1Deck: seq<Card>
    var player2Deck: seq<Card>
    var player1Card: Option<Card>
    var player2Card: Option<Card>
    var warPile: seq<Card>
    var gameOver: bool
    var isWar: bool
    var pending: Pending
    /** The outcome announced when the game ends. */
    var winner: Option<Outcome>

    /** The consistency of a game between two calls of the driver. */
    ghost predicate Valid()
      reads this
      ensures Valid() && !gameOver && pending != ResolveScheduled ==> player1Deck != [] && player2Deck != []
      ensures Valid() && gameOver ==> winner.Some? && pending == NoneScheduled
    {
      && (pending == ResolveScheduled ==> player1Card.Some? && player2Card.Some? && !gameOver)
      && (pending == WarScheduled ==> !gameOver && player1Deck != [] && player2Deck != [])
      && (pending == NoneScheduled && !gameOver ==> player1Deck != [] && player2Deck != [])
      && (gameOver ==> pending == NoneScheduled && winner == Some(Compare(|player1Deck|, |player2Deck|)))
      && (!gameOver ==> winner == None)
      && isWar == (warPile != [])
    }

    /** The state inside the resolution of a round: both cards revealed, nothing scheduled. */
    ghost predicate Resolving()
      reads this
    {
      player1Card.Some? && player2Card.Some? && !gameOver && winner == None && pending == NoneScheduled
    }

    /** The state right after a deal with the given shuffle picks. */
    ghost predicate JustDealt(js: seq<nat>)
      reads this
      requires Picks(js, 52)
    {
      && player1Deck + player2Deck == Shuffled(StandardDeck(), js)
      && |player1Deck| == 26 && |player2Deck| == 26
      && player1Card == None && player2Card == None && warPile == []
      && !gameOver && !isWar && pending == NoneScheduled && winner == None
    }

    /** A game set up as on page load: a new game dealt from a deck shuffled with the given picks. */
    constructor (js: seq<nat>)
      requires Picks(js, 52)
      ensures Valid() && JustDealt(js)
      ensures Pool(player1Deck, player2Deck, warPile) == multiset(StandardDeck())
    {
      player1Deck, player2Deck := [], [];
      player1Card, player2Card := None, None;
      warPile := [];
      gameOver, isWar := false, false;
      pending := NoneScheduled;
      winner := None;
      new;
      StartNewGame(js);
    }

    /** Cancels whatever is scheduled, deals a freshly shuffled deck and resets the round state. */
    method StartNewGame(js: seq<nat>)
      requires Picks(js, 52)
      modifies this
      ensures Valid() && JustDealt(js)
      ensures Pool(player1Deck, player2Deck, warPile) == multiset(StandardDeck())
    {
      pending := NoneScheduled;
      var deck := new Deck(js);
      var first, second := deck.Deal();
      player1Deck, player2Deck := first, second;
      player1Card, player2Card := None, None;
      warPile := [];
      gameOver, isWar := false, false;
      winner := None;
      assert multiset(first + second) == multiset(StandardDeck());
    }

    /** Reveals the top card of each deck and schedules the resolution; when the game is
        over or a deck is empty, ends the game instead. */
    method PlayRound()
      requires Valid() && pending == NoneScheduled
      modifies this
      ensures Valid() && warPile == old(warPile)
      ensures old(gameOver || player1Deck == [] || player2Deck == []) ==>
        && gameOver && pending == NoneScheduled
        && player1Deck == old(player1Deck) && player2Deck == old(player2Deck)
        && player1Card == old(player1Card) && player2Card == old(player2Card)
      ensures !old(gameOver || player1Deck == [] || player2Deck == []) ==>
        && !gameOver && pending == ResolveScheduled
        && player1Card == Some(old(player1Deck)[0]) && player2Card == Some(old(player2Deck)[0])
        && player1Deck == old(player1Deck)[1..] && player2Deck == old(player2Deck)[1..]
        && Pool(old(player1Deck), old(player2Deck), warPile)
           == Pool(player1Deck, player2Deck, warPile) + multiset{player1Card.value, player2Card.value}
    {
      if gameOver || |player1Deck| == 0 || |player2Deck| == 0 {
        EndGame();
        return;
      }
      RevealKeepsCards(player1Deck, player2Deck, warPile);
      player1Card := Some(player1Deck[0]);
      player1Deck := player1Deck[1..];
      player2Card := Some(player2Deck[0]);
      player2Deck := player2Deck[1..];
      pending := ResolveScheduled;
    }

    /** The scheduled resolution: the higher value takes both cards and the war pile,
        equal values start a war. Suits play no part. */
    method ResolveRound()
      requires Valid() && pending == ResolveScheduled
      modifies this`player1Deck, this`player2Deck, this`warPile, this`isWar, this`pending, this`gameOver, this`winner
      ensures Valid()
      ensures Pool(player1Deck, player2Deck, warPile)
        == Pool(old(player1Deck), old(player2Deck), old(warPile)) + multiset{old(player1Card).value, old(player2Card).value}
      ensures ResolveOutcome(old(player1Deck), old(player2Deck), old(warPile), old(player1Card).value, old(player2Card).value,
                             player1Deck, player2Deck, warPile)
      ensures old(player1Card).value.value != old(player2Card).value.value ==>
        pending == NoneScheduled && !isWar && (gameOver <==> player1Deck == [] || player2Deck == [])
      ensures old(player1Card).value.value == old(player2Card).value.value ==>
        && isWar && (gameOver <==> WarStake(|old(player1Deck)|, |old(player2Deck)|) <= 0)
        && (!gameOver ==> pending == WarScheduled)
    {
      var c1, c2 := player1Card.value, player2Card.value;
      pending := NoneScheduled;
      if c1.value > c2.value {
        Player1WinsRound();
      } else if c2.value > c1.value {
        Player2WinsRound();
      } else {
        InitiateWar();
      }
      ResolveKeepsCards(old(player1Deck), old(player2Deck), old(warPile), c1, c2, player1Deck, player2Deck, warPile);
    }

    /** Player 1 collects the two contested cards, then the war pile, at the bottom of their deck. */
    method Player1WinsRound()
      requires Resolving() && isWar == (warPile != [])
      modifies this`player1Deck, this`warPile, this`isWar, this`pending, this`gameOver, this`winner
      ensures Valid() && pending == NoneScheduled
      ensures player1Deck == old(player1Deck) + [old(player1Card).value, old(player2Card).value] + old(warPile)
      ensures warPile == [] && !isWar
      ensures gameOver <==> player1Deck == [] || player2Deck == []
    {
      var cardsWon := [player1Card.value, player2Card.value] + warPile;
      player1Deck := player1Deck + cardsWon;
      warPile := [];
      isWar := false;
      EndRound();
    }

    /** Player 2 collects the two contested cards, then the war pile, at the bottom of their deck. */
    method Player2WinsRound()
      requires Resolving() && isWar == (warPile != [])
      modifies this`player2Deck, this`warPile, this`isWar, this`pending, this`gameOver, this`winner
      ensures Valid() && pending == NoneScheduled
      ensures player2Deck == old(player2Deck) + [old(player1Card).value, old(player2Card).value] + old(warPile)
      ensures warPile == [] && !isWar
      ensures gameOver <==> player1Deck == [] || player2Deck == []
    {
      var cardsWon := [player1Card.value, player2Card.value] + warPile;
      player2Deck := player2Deck + cardsWon;
      warPile := [];
      isWar := false;
      EndRound();
    }

    /** A tie: both cards join the war pile and each side stakes WarStake cards from the top of
        its deck, in pairs, player 1's first. When the stake is not positive the game ends at once
        and the war pile goes to nobody. */
    method InitiateWar()
      requires Resolving()
      modifies this`player1Deck, this`player2Deck, this`warPile, this`isWar, this`pending, this`gameOver, this`winner
      ensures Valid() && isWar
      ensures WarOutcome(old(player1Deck), old(player2Deck), old(warPile), old(player1Card).value, old(player2Card).value,
                         player1Deck, player2Deck, warPile)
      ensures gameOver <==> WarStake(|old(player1Deck)|, |old(player2Deck)|) <= 0
      ensures !gameOver ==> pending == WarScheduled
    {
      isWar := true;
      warPile := warPile + [player1Card.value, player2Card.value];
      var stake := WarStake(|player1Deck|, |player2Deck|);
      if stake <= 0 {
        EndGame();
        return;
      }
      StakeCards(stake);
      pending := WarScheduled;
    }

    /** The stake loop of a war: `stake` times, the top card of each deck moves onto the
        war pile, player 1's card first. The loop re-checks that both decks are non-empty;
        with a stake below both deck sizes that check always passes. */
    method StakeCards(stake: int)
      requires 0 < stake < |player1Deck| && stake < |player2Deck|
      modifies this`player1Deck, this`player2Deck, this`warPile
      ensures player1Deck == old(player1Deck)[stake..] && player2Deck == old(player2Deck)[stake..]
      ensures warPile == old(warPile) + StakePairs(old(player1Deck)[..stake], old(player2Deck)[..stake])
    {
      ghost var d1, d2, pile := player1Deck, player2Deck, warPile;
      var i := 0;
      while i < stake
        invariant 0 <= i <= stake
        invariant player1Deck == d1[i..] && player2Deck == d2[i..]
        invariant warPile == pile + StakePairs(d1[..i], d2[..i])
      {
        if |player1Deck| > 0 && |player2Deck| > 0 {
          StakePairsSnoc(d1[..i], d2[..i], d1[i], d2[i]);
          assert d1[..i + 1] == d1[..i] + [d1[i]] && d2[..i + 1] == d2[..i] + [d2[i]];
          warPile := warPile + [player1Deck[0], player2Deck[0]];
          player1Deck := player1Deck[1..];
          player2Deck := player2Deck[1..];
        }
        i := i + 1;
      }
    }

    /** The scheduled next round of a war. A positive stake leaves both decks non-empty, so it
        always reveals a new pair of cards; the source's alternative of ending the game here
        cannot happen. */
    method ContinueWar()
      requires Valid() && pending == WarScheduled
      modifies this
      ensures Valid() && !gameOver && pending == ResolveScheduled && warPile == old(warPile)
      ensures player1Card == Some(old(player1Deck)[0]) && player2Card == Some(old(player2Deck)[0])
      ensures player1Deck == old(player1Deck)[1..] && player2Deck == old(player2Deck)[1..]
      ensures Pool(old(player1Deck), old(player2Deck), warPile)
        == Pool(player1Deck, player2Deck, warPile) + multiset{player1Card.value, player2Card.value}
    {
      pending := NoneScheduled;
      if |player1Deck| > 0 && |player2Deck| > 0 {
        PlayRound();
      } else {
        assert false;
      }
    }

    /** After a win: the game ends exactly when a deck has run out. */
    method EndRound()
      requires !gameOver && winner == None && pending == NoneScheduled
      modifies this`pending, this`gameOver, this`winner
      ensures gameOver <==> player1Deck == [] || player2Deck == []
      ensures gameOver ==> winner == Some(Compare(|player1Deck|, |player2Deck|))
      ensures !gameOver ==> winner == None
      ensures pending == NoneScheduled
    {
      if |player1Deck| == 0 || |player2Deck| == 0 {
        EndGame();
      }
    }

    /** Cancels whatever is scheduled and announces the player with more cards, or a tie. */
    method EndGame()
      modifies this`pending, this`gameOver, this`winner
      ensures gameOver && pending == NoneScheduled
      ensures winner == Some(Compare(|player1Deck|, |player2Deck|))
    {
      pending := NoneScheduled;
      gameOver := true;
      winner := Some(Compare(|player1Deck|, |player2Deck|));
    }
  }
}
