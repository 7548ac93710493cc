// distsort (garapon.c): the counting sort that puts the main numbers of a draw in
// ascending order before they are shown. Its key domain is fixed at [DSMIN, DSMAX].

module Sorter {

  const DSMAX: int := 100
  const DSMIN: int := 0
  /** The length of distsort's count table. */
  const SLOTS: int := DSMAX - DSMIN + 1

  predicate InDomain(s: seq<int>)
  {
    forall k :: 0 <= k < |s| ==> DSMIN <= s[k] <= DSMAX
  }

  predicate Sorted(s: seq<int>)
  {
    forall i, j :: 0 <= i < j < |s| ==> s[i] <= s[j]
  }

  function Repeat(x: int, n: nat): (r: seq<int>)
    ensures |r| == n
  {
    seq(n, _ => x)
  }

  /** What distsort's counting pass computes: slot c holds how often c + DSMIN occurs. */
  function Counts(s: seq<int>): (cs: seq<nat>)
    ensures |cs| == SLOTS
  {
    seq(SLOTS, c => multiset(s)[c + DSMIN])
  }

  /** Run c holds cs[c] copies of c + DSMIN; the runs follow each other in slot order. */
  function Runs(cs: seq<nat>): seq<int>
  {
    if cs == [] then [] else Runs(cs[..|cs| - 1]) + Repeat(|cs| - 1 + DSMIN, cs[|cs| - 1])
  }

  /** The reference the counting sort is proved against: the values of s in ascending
      order, each as often as s holds it (values outside the domain are not counted). */
  function Tally(s: seq<int>): seq<int>
  {
    Runs(Counts(s))
  }

  lemma {:induction false} RepeatCount(x: int, n: nat, y: int)
    ensures multiset(Repeat(x, n))[y] == if y == x then n else 0
  {
    if n > 0 {
      assert Repeat(x, n) == Repeat(x, n - 1) + [x];
      RepeatCount(x, n - 1, y);
    } else {
      assert Repeat(x, n) == [];
    }
  }

  /** Run boundaries: adding run j to the runs of cs[..j] adds cs[j] slots. */
  lemma RunsExtend(cs: seq<nat>, j: nat)
    requires j < |cs|
    ensures Runs(cs[..j + 1]) == Runs(cs[..j]) + Repeat(j + DSMIN, cs[j])
    ensures |Runs(cs[..j + 1])| == |Runs(cs[..j])| + cs[j]
  {
    assert cs[..j + 1][..j] == cs[..j];
  }

  /** Each value c + DSMIN occurs in Runs(cs) exactly cs[c] times; nothing else does. */
  lemma {:induction false} RunsCount(cs: seq<nat>, x: int)
    ensures multiset(Runs(cs))[x] == if DSMIN <= x < |cs| + DSMIN then cs[x - DSMIN] else 0
  {
    if cs != [] {
      var p := cs[..|cs| - 1];
      RunsCount(p, x);
      RepeatCount(|cs| - 1 + DSMIN, cs[|cs| - 1], x);
      assert multiset(Runs(cs)) == multiset(Runs(p)) + multiset(Repeat(|cs| - 1 + DSMIN, cs[|cs| - 1]));
    }
  }

  /** Slot k of Runs(cs) holds some c + DSMIN, and k lies inside run c. */
  lemma {:induction false} RunsPlace(cs: seq<nat>, k: nat)
    requires k < |Runs(cs)|
    ensures DSMIN <= Runs(cs)[k] < |cs| + DSMIN
    ensures |Runs(cs[..Runs(cs)[k] - DSMIN])| <= k < |Runs(cs[..Runs(cs)[k] - DSMIN + 1])|
  {
    var j := |cs| - 1;
    var p := cs[..j];
    assert cs[..j + 1] == cs;
    RunsExtend(cs, j);
    if k < |Runs(p)| {
      RunsPlace(p, k);
      var c := Runs(p)[k] - DSMIN;
      assert p[..c] == cs[..c] && p[..c + 1] == cs[..c + 1];
    } else {
      assert Runs(cs)[k] == j + DSMIN;
    }
  }

  /** The runs of a shorter prefix never reach past those of a longer one. */
  lemma {:induction false} RunsGrow(cs: seq<nat>, i: nat, j: nat)
    requires i <= j <= |cs|
    ensures |Runs(cs[..i])| <= |Runs(cs[..j])|
    decreases j - i
  {
    if i < j {
      RunsGrow(cs, i, j - 1);
      RunsExtend(cs, j - 1);
    }
  }

  /** The runs are laid out in ascending order. */
  lemma {:induction false} RunsSorted(cs: seq<nat>)
    ensures Sorted(Runs(cs))
  {
    if cs != [] {
      var p := cs[..|cs| - 1];
      RunsSorted(p);
      forall k | 0 <= k < |Runs(p)| ensures Runs(p)[k] < |cs| - 1 + DSMIN {
        RunsPlace(p, k);
      }
    }
  }

  /** For inputs inside the domain, the reference output is a permutation of the input. */
  lemma TallyPermutes(s: seq<int>)
    requires InDomain(s)
    ensures multiset(Tally(s)) == multiset(s)
    ensures |Tally(s)| == |s|
  {
    var t := Tally(s);
    forall x ensures multiset(t)[x] == multiset(s)[x] {
      RunsCount(Counts(s), x);
      if x in multiset(s) {
        var k :| 0 <= k < |s| && s[k] == x;
      }
    }
    assert multiset(t) == multiset(s);
    assert |multiset(t)| == |t|;
  }

  /** The reference output is in ascending order. */
  lemma TallySorted(s: seq<int>)
    ensures Sorted(Tally(s))
  {
    RunsSorted(Counts(s));
  }

  /** The reference output stays inside the domain. */
  lemma TallyInDomain(s: seq<int>)
    ensures InDomain(Tally(s))
  {
    forall k | 0 <= k < |Tally(s)| ensures DSMIN <= Tally(s)[k] <= DSMAX {
      RunsPlace(Counts(s), k);
    }
  }

  /** Tally sees only how often each value occurs. */
  lemma TallyByCounts(s: seq<int>, t: seq<int>)
    requires multiset(s) == multiset(t)
    ensures Tally(s) == Tally(t)
  {
    assert Counts(s) == Counts(t);
  }

  /** Sorting a sorted result again changes nothing. */
  lemma TallyIdempotent(s: seq<int>)
    requires InDomain(s)
    ensures Tally(Tally(s)) == Tally(s)
  {
    TallyPermutes(s);
    TallyByCounts(Tally(s), s);
  }

  /** lo[c] is where the run of c + DSMIN starts in Tally(s): the runs follow each
      other in ascending order and together fill |s| slots. */
  ghost predicate RunBounds(s: seq<int>, lo: seq<int>)
  {
    && |lo| == SLOTS + 1
    && lo[0] == 0 && lo[SLOTS] == |s|
    && (forall c, d :: 0 <= c < SLOTS && d == c + 1 ==> lo[d] == lo[c] + multiset(s)[c + DSMIN])
    && (forall c, d :: 0 <= c <= d <= SLOTS ==> lo[c] <= lo[d])
  }

  /** The run starts of the reference output, which distsort's prefix pass leaves in
      count shifted by one slot. */
  lemma RunStarts(s: seq<int>) returns (lo: seq<int>)
    requires InDomain(s)
    ensures RunBounds(s, lo)
    ensures forall c :: 0 <= c <= SLOTS ==> lo[c] == |Runs(Counts(s)[..c])|
  {
    var cs := Counts(s);
    lo := seq(SLOTS + 1, c requires 0 <= c <= SLOTS => |Runs(cs[..c])|);
    forall c, d | 0 <= c < SLOTS && d == c + 1 ensures lo[d] == lo[c] + multiset(s)[c + DSMIN] {
      RunsExtend(cs, c);
    }
    forall c, d | 0 <= c <= d <= SLOTS ensures lo[c] <= lo[d] {
      RunsGrow(cs, c, d);
    }
    assert cs[..SLOTS] == cs;
    TallyPermutes(s);
  }

  /** distsort's first two passes: clear count, then count every key of a[0..n). */
  method CountKeys(n: int, a: array<int>, count: array<int>)
    requires 0 <= n <= a.Length && count.Length == SLOTS && a != count
    requires InDomain(a[..n])
    modifies count
    ensures forall c :: 0 <= c < SLOTS ==> count[c] == multiset(a[..n])[c + DSMIN]
  {
    var i := 0;
    while i <= DSMAX - DSMIN
      invariant 0 <= i <= SLOTS
      invariant forall c :: 0 <= c < i ==> count[c] == 0
    {
      count[i] := 0;
      i := i + 1;
    }
    i := 0;
    while i < n
      invariant 0 <= i <= n
      invariant forall c :: 0 <= c < SLOTS ==> count[c] == multiset(a[..i])[c + DSMIN]
    {
      assert a[..i + 1] == a[..i] + [a[i]];
      assert a[i] == a[..n][i];
      count[a[i] - DSMIN] := count[a[i] - DSMIN] + 1;
      i := i + 1;
    }
  }

  /** distsort's third pass: running sums turn each key's count into the end of its run. */
  method Accumulate(count: array<int>, ghost s: seq<int>, ghost lo: seq<int>)
    requires count.Length == SLOTS && RunBounds(s, lo)
    requires forall c :: 0 <= c < SLOTS ==> count[c] == multiset(s)[c + DSMIN]
    modifies count
    ensures forall c :: 0 <= c < SLOTS ==> count[c] == lo[c + 1]
  {
    var i := 1;
    while i <= DSMAX - DSMIN
      invariant 1 <= i <= SLOTS
      invariant forall c :: 0 <= c < i ==> count[c] == lo[c + 1]
      invariant forall c :: i <= c < SLOTS ==> count[c] == multiset(s)[c + DSMIN]
    {
      count[i] := count[i] + count[i - 1];
      i := i + 1;
    }
  }

  /** What count holds in distsort's last pass once it has yet to place s[..j]: the
      start of each run, plus one for every key of s[..j]. */
  ghost function Marks(lo: seq<int>, s: seq<int>, j: nat): (cs: seq<int>)
    requires |lo| == SLOTS + 1 && j <= |s| && InDomain(s)
    ensures |cs| == SLOTS
  {
    if j == 0 then lo[..SLOTS]
    else
      var m := Marks(lo, s, j - 1);
      m[s[j - 1] - DSMIN := m[s[j - 1] - DSMIN] + 1]
  }

  /** Slots cs[c] up to the end of run c hold c + DSMIN, for every run c. */
  ghost predicate Placed(lo: seq<int>, cs: seq<int>, bs: seq<int>)
    requires |lo| == SLOTS + 1 && |cs| == SLOTS
  {
    forall c, k :: 0 <= c < SLOTS && cs[c] <= k < lo[c + 1] && 0 <= k < |bs| ==> bs[k] == c + DSMIN
  }

  /** Marks counts the keys still to be placed. */
  lemma {:induction false} MarksCount(lo: seq<int>, s: seq<int>, j: nat, c: int)
    requires |lo| == SLOTS + 1 && j <= |s| && InDomain(s) && 0 <= c < SLOTS
    ensures Marks(lo, s, j)[c] == lo[c] + multiset(s[..j])[c + DSMIN]
  {
    if j == 0 {
      assert s[..0] == [];
    } else {
      MarksCount(lo, s, j - 1, c);
      assert s[..j] == s[..j - 1] + [s[j - 1]];
    }
  }

  /** Before the last pass, count holds the end of every run. */
  lemma MarksStart(lo: seq<int>, s: seq<int>, cs: seq<int>)
    requires RunBounds(s, lo) && InDomain(s) && |cs| == SLOTS
    requires forall c :: 0 <= c < SLOTS ==> cs[c] == lo[c + 1]
    ensures cs == Marks(lo, s, |s|)
  {
    assert s[..|s|] == s;
    forall c | 0 <= c < SLOTS ensures cs[c] == Marks(lo, s, |s|)[c] {
      MarksCount(lo, s, |s|, c);
      var d := c + 1;
      assert lo[d] == lo[c] + multiset(s)[c + DSMIN];
    }
  }

  /** Counting s[i] into the prefix s[..i]. */
  lemma BackwardStep(s: seq<int>, i: nat)
    requires i < |s|
    ensures multiset(s[..i + 1])[s[i]] == multiset(s[..i])[s[i]] + 1
    ensures forall y :: y != s[i] ==> multiset(s[..i + 1])[y] == multiset(s[..i])[y]
    ensures multiset(s[..i + 1])[s[i]] <= multiset(s)[s[i]]
  {
    assert s[..i + 1] == s[..i] + [s[i]];
    assert s == s[..i + 1] + s[i + 1..];
  }

  /** The key of s[i] still has s[i] itself to place, so its count lies inside its run. */
  lemma MarksStep(lo: seq<int>, s: seq<int>, i: nat)
    requires RunBounds(s, lo) && InDomain(s) && i < |s|
    ensures 0 <= s[i] - DSMIN < SLOTS
    ensures lo[s[i] - DSMIN] < Marks(lo, s, i + 1)[s[i] - DSMIN] <= lo[s[i] - DSMIN + 1]
    ensures forall c :: 0 <= c < SLOTS ==> lo[c] <= Marks(lo, s, i + 1)[c]
  {
    var x := s[i] - DSMIN;
    BackwardStep(s, i);
    MarksCount(lo, s, i + 1, x);
    var d := x + 1;
    assert lo[d] == lo[x] + multiset(s)[x + DSMIN];
    forall c | 0 <= c < SLOTS ensures lo[c] <= Marks(lo, s, i + 1)[c] {
      MarksCount(lo, s, i + 1, c);
    }
  }

  /** One write of the last pass keeps Placed: the slot just before the filled part of
      run x belongs to no other run. */
  lemma PlaceStep(lo: seq<int>, cb: seq<int>, bb: seq<int>, x: int, n: int)
    requires |lo| == SLOTS + 1 && lo[0] == 0 && lo[SLOTS] == n <= |bb|
    requires forall c, d :: 0 <= c <= d <= SLOTS ==> lo[c] <= lo[d]
    requires |cb| == SLOTS && 0 <= x < SLOTS && lo[x] < cb[x] <= lo[x + 1]
    requires forall c :: 0 <= c < SLOTS ==> lo[c] <= cb[c]
    requires Placed(lo, cb, bb)
    ensures Placed(lo, cb[x := cb[x] - 1], bb[cb[x] - 1 := x + DSMIN])
  {
    var q := cb[x] - 1;
    var cn := cb[x := q];
    var bn := bb[q := x + DSMIN];
    forall c, k | 0 <= c < SLOTS && cn[c] <= k < lo[c + 1] && 0 <= k < |bn| ensures bn[k] == c + DSMIN {
      if k == q {
        if c != x {
          assert false;
        }
      } else {
        assert cb[c] <= k;
      }
    }
  }

  /** The step of the last pass over s[i], on the values of count and b: decrement the
      count of s[i]'s key and write s[i] at the slot it names. */
  lemma PlaceNext(lo: seq<int>, s: seq<int>, i: nat, cs: seq<int>, bs: seq<int>)
    requires RunBounds(s, lo) && InDomain(s) && i < |s| <= |bs|
    requires cs == Marks(lo, s, i + 1) && Placed(lo, cs, bs)
    ensures 0 <= s[i] - DSMIN < SLOTS && 0 <= cs[s[i] - DSMIN] - 1 < |s|
    ensures cs[s[i] - DSMIN := cs[s[i] - DSMIN] - 1] == Marks(lo, s, i)
    ensures Placed(lo, cs[s[i] - DSMIN := cs[s[i] - DSMIN] - 1], bs[cs[s[i] - DSMIN] - 1 := s[i]])
  {
    MarksStep(lo, s, i);
    PlaceStep(lo, cs, bs, s[i] - DSMIN, |s|);
  }

  /** distsort's last pass, from a[n-1] down to a[0]: each key is written just before
      the part of its run already filled. Afterwards every run is full. */
  method Place(n: int, a: array<int>, b: array<int>, count: array<int>, ghost lo: seq<int>)
    requires 0 <= n <= a.Length && n <= b.Length && count.Length == SLOTS
    requires b != a && b != count && count != a
    requires InDomain(a[..n]) && RunBounds(a[..n], lo)
    requires forall c :: 0 <= c < SLOTS ==> count[c] == lo[c + 1]
    modifies b, count
    ensures count[..] == lo[..SLOTS] && Placed(lo, lo[..SLOTS], b[..])
    ensures b[n..] == old(b[n..])
  {
    ghost var s := a[..n];
    MarksStart(lo, s, count[..]);
    ghost var cs, bs := count[..], b[..];
    var i := n - 1;
    while i >= 0
      invariant -1 <= i < n
      invariant count[..] == cs && b[..] == bs
      invariant cs == Marks(lo, s, i + 1)
      invariant Placed(lo, cs, bs)
      invariant bs[n..] == old(b[n..])
    {
      assert a[i] == s[i];
      var x := a[i] - DSMIN;
      PlaceNext(lo, s, i, cs, bs);
      count[x] := count[x] - 1;
      b[count[x]] := a[i];
      cs, bs := cs[x := cs[x] - 1], bs[cs[x] - 1 := a[i]];
      assert bs[n..] == old(b[n..]);
      i := i - 1;
    }
  }

  /** Full runs at the run starts of s spell out the reference output. */
  lemma Filled(s: seq<int>, r: seq<int>, lo: seq<int>)
    requires InDomain(s) && |s| <= |r| && |lo| == SLOTS + 1
    requires forall c :: 0 <= c <= SLOTS ==> lo[c] == |Runs(Counts(s)[..c])|
    requires Placed(lo, lo[..SLOTS], r)
    ensures r[..|s|] == Tally(s)
  {
    var cs := Counts(s);
    var t := Runs(cs);
    assert |t| == |s| by {
      TallyPermutes(s);
    }
    forall k | 0 <= k < |s| ensures r[k] == t[k] {
      RunsPlace(cs, k);
      var c := t[k] - DSMIN;
      assert lo[c] <= k < lo[c + 1] && lo[..SLOTS][c] == lo[c];
    }
    assert r[..|s|] == t;
  }

  /** distsort(n, a, b): b[0..n) receives a[0..n) in ascending order; the rest of b and
      all of a are left alone. A value outside [DSMIN, DSMAX] would index count out of
      bounds, so the caller must keep to the domain. */
  method DistSort(n: int, a: array<int>, b: array<int>)
    requires 0 <= n <= a.Length && n <= b.Length && a != b
    requires InDomain(a[..n])
    modifies b
    ensures b[..n] == Tally(a[..n])
    ensures Sorted(b[..n]) && multiset(b[..n]) == multiset(a[..n])
    ensures b[n..] == old(b[n..])
  {
    ghost var s := a[..n];
    ghost var lo := RunStarts(s);
    var count := new int[SLOTS];
    CountKeys(n, a, count);
    Accumulate(count, s, lo);
    Place(n, a, b, count, lo);
    assert a[..n] == s;
    Filled(s, b[..], lo);
    TallySorted(s);
    TallyPermutes(s);
  }
}
