/** The 52-card deck: how it is built, shuffled and dealt. */
module Decks {
  import opened Cards

  /** The unshuffled deck, suit-major and rank-minor: card k is rank k % 13 of suit k / 13. */
  function StandardDeck(): (d: seq<Card>)
    ensures |d| == 52
  {
    seq(52, k requires 0 <= k < 52 => Card(Suits[k / 13], Ranks[k % 13], Values[k % 13]))
  }

  /** The card at index 13 * s + i is rank i of suit s, worth i + 2. */
  lemma StandardDeckAt(s: nat, i: nat)
    requires s < 4 && i < 13
    ensures 13 * s + i < |StandardDeck()|
    ensures StandardDeck()[13 * s + i] == Card(Suits[s], Ranks[i], Values[i])
    ensures StandardDeck()[13 * s + i].value == i + 2
  {
    ValuesAscend();
    var k := 13 * s + i;
    assert k / 13 == s && k % 13 == i by {
      if s == 0 { } else if s == 1 { } else if s == 2 { } else { }
    }
  }

  /** Building card (s, i) extends the built prefix by exactly that card. */
  lemma StandardDeckGrows(s: nat, i: nat)
    requires s < 4 && i < 13
    ensures 13 * s + i + 1 <= |StandardDeck()|
    ensures StandardDeck()[..13 * s + i + 1] == StandardDeck()[..13 * s + i] + [Card(Suits[s], Ranks[i], Values[i])]
  {
    StandardDeckAt(s, i);
    PrefixGrows(StandardDeck(), 13 * s + i);
  }

  /** The prefix of length k + 1 is the prefix of length k followed by element k. */
  lemma PrefixGrows<T>(d: seq<T>, k: nat)
    requires k < |d|
    ensures d[..k + 1] == d[..k] + [d[k]]
  {
  }

  /** Every (suit, rank) pair occurs at most once in the standard deck. */
  lemma StandardDeckDistinct()
    ensures forall a, b :: 0 <= a < b < |StandardDeck()| ==>
      StandardDeck()[a].suit != StandardDeck()[b].suit || StandardDeck()[a].rank != StandardDeck()[b].rank
  {
    TablesDistinct();
    var d := StandardDeck();
    forall a, b | 0 <= a < b < 52 ensures d[a].suit != d[b].suit || d[a].rank != d[b].rank {
      assert a == 13 * (a / 13) + a % 13 && b == 13 * (b / 13) + b % 13;
      if a / 13 == b / 13 {
        assert a % 13 < b % 13;
        assert d[a].rank == Ranks[a % 13] && d[b].rank == Ranks[b % 13];
      } else {
        assert a / 13 < b / 13 < 4;
        assert d[a].suit == Suits[a / 13] && d[b].suit == Suits[b / 13];
      }
    }
  }

  /** Swap indices i and j of a sequence. */
  function Swap<T>(s: seq<T>, i: nat, j: nat): (r: seq<T>)
    requires i < |s| && j < |s|
    ensures |r| == |s| && r[i] == s[j] && r[j] == s[i]
    ensures forall k :: 0 <= k < |s| && k != i && k != j ==> r[k] == s[k]
  {
    s[i := s[j]][j := s[i]]
  }

  /** A swap only reorders: the multiset of elements is unchanged. */
  lemma SwapPermutes<T>(s: seq<T>, i: nat, j: nat)
    requires i < |s| && j < |s|
    ensures multiset(Swap(s, i, j)) == multiset(s)
  {
  }

  /** The random draws of a Fisher-Yates shuffle of n cards: the pick for step i lies in [0, i]. */
  predicate Picks(js: seq<nat>, n: nat) {
    |js| == n && forall k :: 0 < k < n ==> js[k] <= k
  }

  /** The remaining steps i, i - 1, ..., 1 of the shuffle: step k swaps k with js[k]. */
  function ShuffleDown<T>(s: seq<T>, js: seq<nat>, i: nat): (r: seq<T>)
    requires Picks(js, |s|) && i < |s|
    ensures |r| == |s|
    decreases i
  {
    if i == 0 then s else ShuffleDown(Swap(s, i, js[i]), js, i - 1)
  }

  /** The whole shuffle, from the last index down to 1. */
  function Shuffled<T>(s: seq<T>, js: seq<nat>): (r: seq<T>)
    requires Picks(js, |s|)
    ensures |r| == |s|
  {
    if |s| == 0 then s else ShuffleDown(s, js, |s| - 1)
  }

  /** Whatever the picks, the remaining shuffle steps only reorder their input. */
  lemma {:induction false} ShuffleDownPermutes<T>(s: seq<T>, js: seq<nat>, i: nat)
    requires Picks(js, |s|) && i < |s|
    ensures multiset(ShuffleDown(s, js, i)) == multiset(s)
    decreases i
  {
    if i > 0 {
      SwapPermutes(s, i, js[i]);
      ShuffleDownPermutes(Swap(s, i, js[i]), js, i - 1);
    }
  }

  /** Whatever the picks, the shuffle yields a permutation of its input. */
  lemma ShufflePermutes<T>(s: seq<T>, js: seq<nat>)
    requires Picks(js, |s|)
    ensures |Shuffled(s, js)| == |s| && multiset(Shuffled(s, js)) == multiset(s)
  {
    if |s| > 0 {
      ShuffleDownPermutes(s, js, |s| - 1);
    }
  }

  class Deck {
    var cards: seq<Card>

    /** A new deck: the 52 cards built in order, then shuffled with the given picks. */
    constructor (js: seq<nat>)
      requires Picks(js, 52)
      ensures cards == Shuffled(StandardDeck(), js)
      ensures multiset(cards) == multiset(StandardDeck())
    {
      cards := [];
      new;
      InitializeDeck();
      assert cards == StandardDeck();
      Shuffle(js);
    }

    /** Appends one card of every (suit, rank) pair, suit by suit. */
    method InitializeDeck()
      modifies this
      ensures cards == old(cards) + StandardDeck()
    {
      for s := 0 to 4
        invariant cards == old(cards) + StandardDeck()[..13 * s]
      {
        for i := 0 to 13
          invariant cards == old(cards) + StandardDeck()[..13 * s + i]
        {
          StandardDeckGrows(s, i);
          cards := cards + [Card(Suits[s], Ranks[i], Values[i])];
        }
        assert 13 * s + 13 == 13 * (s + 1);
      }
      assert StandardDeck()[..52] == StandardDeck();
    }

    /** Fisher-Yates in place: for i from the last index down to 1, swap i with js[i]. */
    method Shuffle(js: seq<nat>)
      requires Picks(js, |cards|)
      modifies this
      ensures cards == Shuffled(old(cards), js)
      ensures |cards| == |old(cards)| && multiset(cards) == multiset(old(cards))
    {
      ghost var start := cards;
      var i := |cards| - 1;
      while i > 0
        invariant |cards| == |start| && -1 <= i < |start| && (i == -1 ==> |start| == 0)
        invariant i >= 0 ==> ShuffleDown(cards, js, i) == Shuffled(start, js)
      {
        cards := Swap(cards, i, js[i]);
        i := i - 1;
      }
      ShufflePermutes(start, js);
    }

    /** Splits the deck: the first floor(n / 2) cards, then the rest. */
    method Deal() returns (first: seq<Card>, second: seq<Card>)
      ensures |first| == |cards| / 2
      ensures first + second == cards
    {
      var half := |cards| / 2;
      first, second := cards[..half], cards[half..];
    }
  }
}
