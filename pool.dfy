// The ball pool of one drum, seen as a value: the specification functions the
// imperative machine operations are proved against (garapon.c: newvec, the seeding
// loops, shuffle, and the "v[ts] = 0" of a pick).

module Pool {

  /** What calloc(3) hands out: n slots, all 0. */
  function Zeros(n: nat): (s: seq<int>)
    ensures |s| == n
  {
    seq(n, _ => 0)
  }

  /** The balls 1..n in ascending slot order. */
  function Balls(n: nat): (s: seq<int>)
    ensures |s| == n
  {
    seq(n, k => k + 1)
  }

  /** The balls still in the drum: the non-zero slots, with multiplicity. */
  function Live(s: seq<int>): multiset<int>
  {
    multiset(s)[0 := 0]
  }

  predicate Distinct(s: seq<int>)
  {
    forall i, j :: 0 <= i < j < |s| ==> s[i] != s[j]
  }

  /** Every ball 1..n is in Balls(n) exactly once, and nothing else is. */
  lemma {:induction false} BallsOnce(n: nat, x: int)
    ensures multiset(Balls(n))[x] == if 1 <= x <= n then 1 else 0
  {
    if n > 0 {
      assert Balls(n) == Balls(n - 1) + [n];
      BallsOnce(n - 1, x);
    } else {
      assert Balls(n) == [];
    }
  }

  lemma {:induction false} ZerosAreZero(n: nat)
    ensures multiset(Zeros(n)) == multiset{}[0 := n]
  {
    if n > 0 {
      assert Zeros(n) == Zeros(n - 1) + [0];
      ZerosAreZero(n - 1);
    } else {
      assert Zeros(n) == [];
    }
  }

  /** A freshly seeded pool -- balls 1..number, then zero padding up to size -- holds
      exactly the balls 1..number among its non-zero slots. */
  lemma SeededLive(number: nat, size: nat)
    requires number <= size
    ensures Live(Balls(number) + Zeros(size - number)) == multiset(Balls(number))
    ensures |Live(Balls(number) + Zeros(size - number))| == number
  {
    var s := Balls(number) + Zeros(size - number);
    ZerosAreZero(size - number);
    BallsOnce(number, 0);
    forall x ensures Live(s)[x] == multiset(Balls(number))[x] {
      BallsOnce(number, x);
    }
    assert Live(s) == multiset(Balls(number));
  }

  /** Zeroing a non-empty slot removes exactly that one ball from the drum. */
  lemma TakeOne(s: seq<int>, t: nat)
    requires t < |s| && s[t] != 0
    ensures s[t] in Live(s)
    ensures Live(s[t := 0]) == Live(s) - multiset{s[t]}
    ensures |Live(s[t := 0])| == |Live(s)| - 1
  {
    UpdateTrades(s, t, 0);
    assert s[t] in multiset(s);
  }

  /** Balls drawn from a drum seeded with 1..n are distinct and lie in 1..n. */
  lemma DrawnFromBalls(d: seq<int>, n: nat)
    requires multiset(d) <= multiset(Balls(n))
    ensures Distinct(d)
    ensures forall k :: 0 <= k < |d| ==> 1 <= d[k] <= n
  {
    forall k | 0 <= k < |d| ensures 1 <= d[k] <= n {
      assert d[k] in multiset(d);
      BallsOnce(n, d[k]);
    }
    forall i, j | 0 <= i < j < |d| ensures d[i] != d[j] {
      if d[i] == d[j] {
        assert d == d[..i] + [d[i]] + d[i + 1..j] + [d[j]] + d[j + 1..];
        assert multiset(d)[d[i]] >= 2;
        BallsOnce(n, d[i]);
        assert false;
      }
    }
  }

  /** Overwriting one slot trades its value for the new one. */
  lemma UpdateTrades(s: seq<int>, t: nat, x: int)
    requires t < |s|
    ensures multiset(s[t := x]) == multiset(s) - multiset{s[t]} + multiset{x}
  {
    assert s == s[..t] + [s[t]] + s[t + 1..];
    assert s[t := x] == s[..t] + [x] + s[t + 1..];
  }

  /** Exchange of two slots, as shuffle does through its temporary. */
  function Swap(s: seq<int>, i: nat, j: nat): (r: seq<int>)
    requires i < |s| && j < |s|
    ensures |r| == |s|
  {
    s[i := s[j]][j := s[i]]
  }

  /** An exchange neither creates nor loses a value. */
  lemma SwapPermutes(s: seq<int>, i: nat, j: nat)
    requires i < |s| && j < |s|
    ensures multiset(Swap(s, i, j)) == multiset(s)
  {
    UpdateTrades(s, i, s[j]);
    UpdateTrades(s[i := s[j]], j, s[i]);
  }

  /** The uniform randoms rnd() hands out, one per swap. */
  predicate Unit(u: seq<real>)
  {
    forall k :: 0 <= k < |u| ==> 0.0 <= u[k] < 1.0
  }

  /** j = (size_t) ((i + 1) * rnd()): the swap partner of slot i. */
  function SwapIndex(i: nat, u: real): (j: nat)
    requires 0.0 <= u < 1.0
    ensures j <= i
  {
    var x := (i + 1) as real * u;
    ScaledBelow((i + 1) as real, u);
    x.Floor
  }

  /** A positive amount scaled by a factor below one shrinks. */
  lemma ScaledBelow(n: real, u: real)
    requires n > 0.0 && 0.0 <= u < 1.0
    ensures n * u < n
  {
    var g := 1.0 - u;
    assert g > 0.0;
    assert n * g > 0.0;
    assert n - n * u == n * g;
  }

  /** The passes i, i-1, ..., 1 of the Fisher-Yates loop; pass i draws u[|s|-1-i],
      the (|s|-1-i)-th random of the shuffle. */
  function ShuffleFrom(s: seq<int>, u: seq<real>, i: nat): (r: seq<int>)
    requires i < |s| && |u| + 1 >= |s| && Unit(u)
    decreases i
  {
    if i == 0 then s
    else ShuffleFrom(Swap(s, i, SwapIndex(i, u[|s| - 1 - i])), u, i - 1)
  }

  /** The whole shuffle of a pool with randoms u; an empty pool is left as it is. */
  function Shuffled(s: seq<int>, u: seq<real>): seq<int>
    requires |u| + 1 >= |s| && Unit(u)
  {
    if |s| == 0 then s else ShuffleFrom(s, u, |s| - 1)
  }

  /** One pass of the loop: pass i swaps slot i with its partner, then passes i-1.. follow. */
  lemma ShuffleStep(s: seq<int>, u: seq<real>, i: nat)
    requires 0 < i < |s| && |u| + 1 >= |s| && Unit(u)
    ensures ShuffleFrom(s, u, i) == ShuffleFrom(Swap(s, i, SwapIndex(i, u[|s| - 1 - i])), u, i - 1)
  {
  }

  lemma {:induction false} ShuffleFromPermutes(s: seq<int>, u: seq<real>, i: nat)
    requires i < |s| && |u| + 1 >= |s| && Unit(u)
    ensures |ShuffleFrom(s, u, i)| == |s|
    ensures multiset(ShuffleFrom(s, u, i)) == multiset(s)
    decreases i
  {
    if i > 0 {
      var j := SwapIndex(i, u[|s| - 1 - i]);
      SwapPermutes(s, i, j);
      ShuffleFromPermutes(Swap(s, i, j), u, i - 1);
    }
  }

  /** shuffle neither creates, loses nor duplicates a value (zero slots included). */
  lemma ShufflePermutes(s: seq<int>, u: seq<real>)
    requires |u| + 1 >= |s| && Unit(u)
    ensures |Shuffled(s, u)| == |s|
    ensures multiset(Shuffled(s, u)) == multiset(s)
    ensures Live(Shuffled(s, u)) == Live(s)
  {
    if |s| > 0 {
      ShuffleFromPermutes(s, u, |s| - 1);
    }
  }

  /** Random rows enough for `frames` shuffles of a pool of the given size. */
  predicate Feeds(rows: seq<seq<real>>, size: nat, frames: nat)
  {
    frames <= |rows| && forall f :: 0 <= f < |rows| ==> Unit(rows[f]) && |rows[f]| + 1 >= size
  }

  /** The pool after n consecutive shuffles, shuffle f drawing its randoms from rows[f]. */
  function Spun(s: seq<int>, rows: seq<seq<real>>, n: nat): (r: seq<int>)
    requires Feeds(rows, |s|, n)
    ensures |r| == |s|
  {
    if n == 0 then s
    else
      var p := Spun(s, rows, n - 1);
      ShufflePermutes(p, rows[n - 1]);
      Shuffled(p, rows[n - 1])
  }

  /** Any amount of animation leaves the multiset of the pool as it was. */
  lemma {:induction false} SpunPermutes(s: seq<int>, rows: seq<seq<real>>, n: nat)
    requires Feeds(rows, |s|, n)
    ensures multiset(Spun(s, rows, n)) == multiset(s)
    ensures Live(Spun(s, rows, n)) == Live(s)
  {
    if n > 0 {
      SpunPermutes(s, rows, n - 1);
      ShufflePermutes(Spun(s, rows, n - 1), rows[n - 1]);
    }
  }
}
