// What garapon.c shows once a draw is over: the colour pair colorful picks for a
// ball, and which bonus numbers appear in the "omake" box, in what order.

module Presentation {
  import opened Header

  /** C's int quotient by a positive divisor: truncated toward zero. */
  function CQuot(a: int, b: int): int
    requires b > 0
  {
    if a >= 0 then a / b else -((-a) / b)
  }

  /** C's int remainder by a positive divisor: what is left after the truncated
      quotient, so it takes the sign of the dividend. */
  function CRem(a: int, b: int): (r: int)
    requires b > 0
    ensures a == b * CQuot(a, b) + r
    ensures a >= 0 ==> 0 <= r < b
    ensures a < 0 ==> -b < r <= 0
  {
    if a >= 0 then a % b
    else
      var m := -a;
      assert m == b * (m / b) + m % b;
      -(m % b)
  }

  /** The colour pair colorful sets before printing n: pair 10 for an empty slot,
      otherwise n % 7 + 1. */
  function ColorPair(n: int): (p: int)
    ensures n == 0 ==> p == 10
    ensures n > 0 ==> 1 <= p <= 7 && p == n % 7 + 1
    ensures n < 0 ==> -5 <= p <= 1
  {
    if n == 0 then 10 else CRem(n, 7) + 1
  }

  /** colorful: sets the attribute and hands back the number it was given, which is
      what the caller prints. */
  function Colorful(n: int): (r: (int, int))
    ensures r.0 == n
    ensures 1 <= r.1 <= 7 || r.1 == 10 || n < 0
  {
    (n, ColorPair(n))
  }

  /** Balls seven apart share a colour; balls fewer than seven apart do not. */
  lemma {:induction false} ColorsCycle(a: int, b: int)
    requires 0 < a <= b
    ensures ColorPair(a) == ColorPair(b) <==> (b - a) % 7 == 0
  {
    var qa, ra := a / 7, a % 7;
    var qb, rb := b / 7, b % 7;
    var k, s := (b - a) / 7, (b - a) % 7;
    assert a == 7 * qa + ra;
    assert b == 7 * qb + rb;
    assert b - a == 7 * k + s;
    assert rb - ra - s == 7 * (qa - qb + k);
  }

  /** The omake box: one bonus shown as drawn, two shown as MIN then MAX, none
      otherwise. */
  function BonusShown(v3: seq<int>, omake: int): (r: seq<int>)
    requires omake == 1 ==> |v3| >= 1
    requires omake == 2 ==> |v3| >= 2
    ensures omake == 1 ==> r == v3[..1]
    ensures omake == 2 ==> |r| == 2 && r[0] <= r[1] && multiset(r) == multiset(v3[..2])
    ensures omake != 1 && omake != 2 ==> r == []
  {
    if omake == 1 then [v3[0]]
    else if omake == 2 then
      var shown := [Min(v3[0], v3[1]), Max(v3[0], v3[1])];
      assert multiset(shown) == multiset(v3[..2]) by {
        assert v3[..2] == [v3[0], v3[1]];
        if v3[0] < v3[1] {
          assert shown == [v3[0], v3[1]];
        } else {
          assert shown == [v3[1], v3[0]];
        }
      }
      shown
    else []
  }

  /** The rule does not depend on the order the bonus balls came out in. */
  lemma BonusOrderFree(x: int, y: int)
    ensures BonusShown([x, y], 2) == BonusShown([y, x], 2)
  {
  }

  /** Every bonus count the table holds is covered by the one-or-two rule, and the
      box shows exactly that many numbers. */
  lemma BonusCountsCovered(v: Variant, v3: seq<int>)
    requires v.Japanese() ==> |v3| == Drum(v).bonus
    requires v.DualDrum() ==> |v3| == Twin(v).sample
    ensures |BonusShown(v3, |v3|)| == |v3|
    ensures multiset(BonusShown(v3, |v3|)) == multiset(v3)
  {
    TableFits(v);
    if |v3| == 2 {
      assert v3[..2] == v3;
    } else {
      assert v3[..1] == v3;
    }
  }
}
