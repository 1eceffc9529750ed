/** The pure decisions of the War game: who wins a comparison, how many cards a war stakes,
    and the order in which staked cards join the war pile. */
module Rules {

  datatype Outcome = Player1 | Player2 | Tie

  /** Three-way comparison, as the end of the game decides its winner from the two deck sizes;
      equal sizes are a drawn game. */
  function Compare(a: int, b: int): (r: Outcome)
    ensures r == Player1 <==> a > b
    ensures r == Player2 <==> b > a
    ensures r == Tie <==> a == b
  {
    if a > b then Player1 else if b > a then Player2 else Tie
  }

  function Min(a: int, b: int): int {
    if a < b then a else b
  }

  /** Cards each side stakes in a war, from the deck sizes left after the tied cards were drawn:
      the least of 3, n1 - 1 and n2 - 1. */
  function WarStake(n1: int, n2: int): (k: int)
    ensures k <= 3 && k <= n1 - 1 && k <= n2 - 1
    ensures k == 3 || k == n1 - 1 || k == n2 - 1
  {
    Min(3, Min(n1 - 1, n2 - 1))
  }

  /** Staked cards as they are pushed onto the war pile: one from each side per step, player 1's first. */
  function StakePairs<T>(a: seq<T>, b: seq<T>): (r: seq<T>)
    requires |a| == |b|
    ensures |r| == 2 * |a|
  {
    if a == [] then [] else [a[0], b[0]] + StakePairs(a[1..], b[1..])
  }

  /** The k-th pair of the stake is player 1's k-th card followed by player 2's k-th card. */
  lemma {:induction false} StakePairsAt<T>(a: seq<T>, b: seq<T>, k: nat)
    requires |a| == |b| && k < |a|
    ensures StakePairs(a, b)[2 * k] == a[k] && StakePairs(a, b)[2 * k + 1] == b[k]
  {
    if k > 0 {
      StakePairsAt(a[1..], b[1..], k - 1);
    }
  }

  /** Staking one more pair appends it at the end of what was staked so far. */
  lemma {:induction false} StakePairsSnoc<T>(a: seq<T>, b: seq<T>, x: T, y: T)
    requires |a| == |b|
    ensures StakePairs(a + [x], b + [y]) == StakePairs(a, b) + [x, y]
  {
    if a != [] {
      assert (a + [x])[1..] == a[1..] + [x];
      assert (b + [y])[1..] == b[1..] + [y];
      StakePairsSnoc(a[1..], b[1..], x, y);
    }
  }

  /** The staked pile holds exactly the cards taken from both sides. */
  lemma {:induction false} StakePairsCards<T>(a: seq<T>, b: seq<T>)
    requires |a| == |b|
    ensures multiset(StakePairs(a, b)) == multiset(a) + multiset(b)
  {
    if a != [] {
      StakePairsCards(a[1..], b[1..]);
      PairFront(a[0], b[0], StakePairs(a[1..], b[1..]));
      Uncons(a);
      Uncons(b);
      Regroup(a[0], b[0], multiset(a[1..]), multiset(b[1..]));
    }
  }

  /** A non-empty sequence holds its head and the elements of its tail. */
  lemma Uncons<T>(s: seq<T>)
    requires s != []
    ensures multiset(s) == multiset{s[0]} + multiset(s[1..])
  {
    assert s == [s[0]] + s[1..];
  }

  /** A pair put in front of a sequence adds exactly those two elements. */
  lemma PairFront<T>(x: T, y: T, r: seq<T>)
    ensures multiset([x, y] + r) == multiset{x, y} + multiset(r)
  {
  }

  /** The elements of one pair and two collections, grouped as each side's head with its own rest. */
  lemma Regroup<T>(x: T, y: T, ma: multiset<T>, mb: multiset<T>)
    ensures multiset{x, y} + (ma + mb) == (multiset{x} + ma) + (multiset{y} + mb)
  {
  }
}
