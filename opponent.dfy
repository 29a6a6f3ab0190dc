/** The placeholder opponent: after a human move it plays a legal move drawn
    at random. The random number is a parameter `random` in [0, 1). */
module Opponent {
  import opened Rules

  /** The index of the chosen move: floor(random * n). For a non-empty list
      it is a valid index; for an empty list it is 0, which reads past the
      end. */
  function RandomIndex(random: real, n: nat): (i: int)
    requires 0.0 <= random < 1.0
    ensures n > 0 ==> 0 <= i < n
    ensures n == 0 ==> i == 0
  {
    var x := random * n as real;
    assert 0.0 <= x;
    assert n > 0 ==> x < n as real by {
      if n > 0 {
        assert (n as real) - x == (1.0 - random) * n as real;
      }
    }
    x.Floor
  }

  /** The move the opponent plays, if any: none once the game is over, and
      otherwise the legal move at the random index, when there is one and
      the rules engine accepts it. */
  function RandomMove<G>(o: Oracle<G>, g: G, random: real): (next: Option<G>)
    requires 0.0 <= random < 1.0
    ensures o.isGameOver(g) ==> next.None?
    ensures next.Some? ==>
              exists i :: 0 <= i < |o.legalMoves(g)| && i == RandomIndex(random, |o.legalMoves(g)|)
                          && next == o.move(g, San(o.legalMoves(g)[i]))
    ensures !o.isGameOver(g) && |o.legalMoves(g)| > 0 ==>
              next == o.move(g, San(o.legalMoves(g)[RandomIndex(random, |o.legalMoves(g)|)]))
  {
    var possibleMoves := o.legalMoves(g);
    if o.isGameOver(g) then None
    else
      var i := RandomIndex(random, |possibleMoves|);
      if i < |possibleMoves| then o.move(g, San(possibleMoves[i])) else None
  }

  /** In a position that obeys the chess rules and whose game is not over,
      the opponent always moves, and what it plays is one of the listed legal
      moves. */
  lemma RandomMoveIsLegal<G>(o: Oracle<G>, g: G, random: real)
    requires 0.0 <= random < 1.0
    requires LawfulAt(o, g)
    ensures RandomMove(o, g, random).Some? <==> !o.isGameOver(g)
    ensures RandomMove(o, g, random).Some? ==>
              exists i :: 0 <= i < |o.legalMoves(g)| && RandomMove(o, g, random) == o.move(g, San(o.legalMoves(g)[i]))
  {
    if !o.isGameOver(g) {
      var i := RandomIndex(random, |o.legalMoves(g)|);
      assert 0 <= i < |o.legalMoves(g)|;
      assert o.move(g, San(o.legalMoves(g)[i])).Some?;
    }
  }

  /** A quotient of a smaller non-negative number by a larger one lies in [0, 1). */
  lemma QuotientBelowOne(a: real, b: real)
    requires 0.0 <= a < b
    ensures 0.0 <= a / b < 1.0
  {
    var q := a / b;
    assert q * b == a;
    assert (1.0 - q) * b == b - a;
  }

  /** Every legal move can be drawn: for each index k there is a random
      number that selects it, (2k + 1) / 2n, the middle of its interval. */
  lemma {:induction false} EveryMoveReachable(n: nat, k: nat)
    requires k < n
    ensures 0.0 <= (2 * k + 1) as real / (2 * n) as real < 1.0
    ensures RandomIndex((2 * k + 1) as real / (2 * n) as real, n) == k
  {
    var size := (2 * n) as real;
    var r := (2 * k + 1) as real / size;
    QuotientBelowOne((2 * k + 1) as real, size);
    assert r * size == (2 * k + 1) as real;
    assert r * n as real == k as real + 0.5 by {
      assert size == 2.0 * n as real;
    }
    assert (k as real + 0.5).Floor == k;
  }
}
