// One pick of ja_dream, us_dream and eu_dream (garapon.c): the shuffle animation that
// runs until the operator presses Enter (at most DAINOBONNOU frames), then the
// rejection loop that turns the elapsed nanoseconds into a slot index until it hits a
// slot that still holds a ball.

module Picker {
  import opened Header
  import opened Pool
  import opened Clock
  import opened Machines

  datatype Option<T> = None | Some(value: T)

  /** What a non-blocking wgetch returns during the animation: Enter, 'q', or anything
      else (no key at all included). */
  datatype Key = EnterKey | QuitKey | OtherKey

  /** The key read after frame f; polls past the end of the recorded keys find none. */
  function Poll(keys: seq<Key>, f: nat): Key
  {
    if f < |keys| then keys[f] else OtherKey
  }

  /** The frame count from frame f on: the first frame after which a key is read, or
      the cap. */
  function FramesFrom(keys: seq<Key>, f: nat): (n: nat)
    requires f < DAINOBONNOU
    ensures f + 1 <= n <= DAINOBONNOU
    decreases DAINOBONNOU - f
  {
    if Poll(keys, f) != OtherKey || f + 1 == DAINOBONNOU then f + 1 else FramesFrom(keys, f + 1)
  }

  /** From frame f on, every frame before the last reads no key, and the last one reads
      a key unless the cap was reached. */
  lemma {:induction false} FramesFromStop(keys: seq<Key>, f: nat)
    requires f < DAINOBONNOU
    ensures var n := FramesFrom(keys, f);
      (forall g :: f <= g < n - 1 ==> Poll(keys, g) == OtherKey) &&
      (n < DAINOBONNOU ==> Poll(keys, n - 1) != OtherKey)
    decreases DAINOBONNOU - f
  {
    if Poll(keys, f) == OtherKey && f + 1 < DAINOBONNOU {
      FramesFromStop(keys, f + 1);
    }
  }

  /** The number of animation frames one pick shows: up to and including the first frame
      after which Enter or 'q' is read, and never more than DAINOBONNOU. */
  function Frames(keys: seq<Key>): (n: nat)
    ensures 1 <= n <= DAINOBONNOU
  {
    FramesFrom(keys, 0)
  }

  /** All frames of a pick but the last read no key, and the last reads Enter or 'q'
      unless the cap was reached. */
  lemma FramesStop(keys: seq<Key>)
    ensures var n := Frames(keys);
      (forall f :: 0 <= f < n - 1 ==> Poll(keys, f) == OtherKey) &&
      (n < DAINOBONNOU ==> Poll(keys, n - 1) != OtherKey)
  {
    FramesFromStop(keys, 0);
  }

  /** The stopping frame is determined by the keys alone. */
  lemma FramesUnique(keys: seq<Key>, n: nat)
    requires 1 <= n <= DAINOBONNOU
    requires forall f :: 0 <= f < n - 1 ==> Poll(keys, f) == OtherKey
    requires n < DAINOBONNOU ==> Poll(keys, n - 1) != OtherKey
    ensures n == Frames(keys)
  {
    FramesStop(keys);
  }

  /** The animation loop of ja_dream and eu_dream: shuffle the drum being drawn, paint,
      read a key; stop on Enter, leave the game on 'q'. Frame f shuffles with rows[f]. */
  method Spin(m: Machine, keys: seq<Key>, rows: seq<seq<real>>) returns (frames: nat, quit: bool)
    requires m.Valid() && Feeds(rows, m.size, DAINOBONNOU)
    modifies m.v
    ensures frames == Frames(keys) <= DAINOBONNOU
    ensures quit <==> Poll(keys, frames - 1) == QuitKey
    ensures m.v[..] == Spun(old(m.v[..]), rows, frames)
    ensures Live(m.v[..]) == Live(old(m.v[..]))
  {
    var j := DAINOBONNOU;
    frames, quit := 0, false;
    while j > 0
      invariant 0 <= j <= DAINOBONNOU && frames == DAINOBONNOU - j
      invariant forall f :: 0 <= f < frames ==> Poll(keys, f) == OtherKey
      invariant m.v[..] == Spun(old(m.v[..]), rows, frames)
    {
      m.Shuffle(rows[frames]);
      frames := frames + 1;
      var ch := Poll(keys, frames - 1);
      if ch == EnterKey {
        break;
      } else if ch == QuitKey {
        quit := true;
        break;
      }
      j := j - 1;
    }
    FramesUnique(keys, frames);
    SpunPermutes(old(m.v[..]), rows, frames);
  }

  /** One frame of us_dream's animation: shuffle the main drum, then the second one. */
  method ShuffleBoth(l: Machine, r: Machine, lrow: seq<real>, rrow: seq<real>)
    requires l.Valid() && r.Valid() && l.v != r.v
    requires Unit(lrow) && |lrow| + 1 >= l.size && Unit(rrow) && |rrow| + 1 >= r.size
    modifies l.v, r.v
    ensures l.v[..] == Shuffled(old(l.v[..]), lrow) && r.v[..] == Shuffled(old(r.v[..]), rrow)
  {
    ghost var rbefore := r.v[..];
    l.Shuffle(lrow);
    assert r.v[..] == rbefore;
    ghost var lafter := l.v[..];
    r.Shuffle(rrow);
    assert l.v[..] == lafter;
  }

  /** The animation loop of us_dream, which shuffles both drums every frame. */
  method SpinBoth(l: Machine, r: Machine, keys: seq<Key>, lrows: seq<seq<real>>, rrows: seq<seq<real>>)
    returns (frames: nat, quit: bool)
    requires l.Valid() && r.Valid() && l.v != r.v
    requires Feeds(lrows, l.size, DAINOBONNOU) && Feeds(rrows, r.size, DAINOBONNOU)
    modifies l.v, r.v
    ensures frames == Frames(keys) <= DAINOBONNOU
    ensures quit <==> Poll(keys, frames - 1) == QuitKey
    ensures l.v[..] == Spun(old(l.v[..]), lrows, frames)
    ensures r.v[..] == Spun(old(r.v[..]), rrows, frames)
    ensures Live(l.v[..]) == Live(old(l.v[..])) && Live(r.v[..]) == Live(old(r.v[..]))
  {
    var j := DAINOBONNOU;
    frames, quit := 0, false;
    while j > 0
      invariant 0 <= j <= DAINOBONNOU && frames == DAINOBONNOU - j
      invariant forall f :: 0 <= f < frames ==> Poll(keys, f) == OtherKey
      invariant l.v[..] == Spun(old(l.v[..]), lrows, frames)
      invariant r.v[..] == Spun(old(r.v[..]), rrows, frames)
    {
      ShuffleBoth(l, r, lrows[frames], rrows[frames]);
      frames := frames + 1;
      var ch := Poll(keys, frames - 1);
      if ch == EnterKey {
        break;
      } else if ch == QuitKey {
        quit := true;
        break;
      }
      j := j - 1;
    }
    FramesUnique(keys, frames);
    SpunPermutes(old(l.v[..]), lrows, frames);
    SpunPermutes(old(r.v[..]), rrows, frames);
  }

  /** The conversion of diffnsec's long result to size_t for "% size". */
  function ToSize(d: int): (r: nat)
    ensures r < 0x1_0000_0000_0000_0000
    ensures 0 <= d < 0x1_0000_0000_0000_0000 ==> r == d
  {
    d % 0x1_0000_0000_0000_0000
  }

  /** ts = diffnsec(before, after) % size: the slot a reading points at. */
  function Slot(before: int, after: int, size: nat): (ts: nat)
    requires size > 0
    ensures ts < size
  {
    ToSize(SubSecond(before, after)) % size
  }

  /** The slot the rejection loop settles on for a pool that stays as it is: the slot of
      the first reading that points at a ball, or None when no reading does. */
  function FirstHit(pool: seq<int>, before: int, readings: seq<Stamp>): (ts: Option<nat>)
    requires |pool| > 0
    ensures ts.Some? ==> ts.value < |pool| && pool[ts.value] != 0
    decreases |readings|
  {
    if readings == [] then None
    else
      var t := Slot(before, readings[0].nsec, |pool|);
      if pool[t] != 0 then Some(t) else FirstHit(pool, before, readings[1..])
  }

  /** Every reading points at an empty slot. */
  predicate Exhausted(pool: seq<int>, before: int, readings: seq<Stamp>)
  {
    |pool| > 0 && forall k :: 0 <= k < |readings| ==> pool[Slot(before, readings[k].nsec, |pool|)] == 0
  }

  /** The loop finds nothing exactly when every reading misses. */
  lemma {:induction false} FirstHitNone(pool: seq<int>, before: int, readings: seq<Stamp>)
    requires |pool| > 0
    ensures FirstHit(pool, before, readings).None? <==> Exhausted(pool, before, readings)
    decreases |readings|
  {
    if readings != [] {
      FirstHitNone(pool, before, readings[1..]);
      forall k | 1 <= k < |readings|
        ensures readings[k] == readings[1..][k - 1]
      {
      }
    }
  }

  /** The rejection loop: read the clock, compute the slot, and go on while that slot
      is empty. Returns the slot and how many readings it took, or None when the
      readings run out first (the real loop would read the clock again). */
  method Select(m: Machine, before: Timespec, readings: seq<Stamp>) returns (ts: Option<nat>, used: nat)
    requires m.Valid() && m.size > 0
    ensures ts == FirstHit(m.v[..], before.nsec, readings)
    ensures used <= |readings|
    ensures ts.Some? ==> 1 <= used && ts.value == Slot(before.nsec, readings[used - 1].nsec, m.size)
    ensures ts.Some? ==> ts.value < m.size && m.v[ts.value] != 0
    ensures ts.Some? ==> forall k :: 0 <= k < used - 1 ==> m.v[Slot(before.nsec, readings[k].nsec, m.size)] == 0
    ensures ts.None? ==> used == |readings|
    ensures ts.None? ==> forall k :: 0 <= k < |readings| ==> m.v[Slot(before.nsec, readings[k].nsec, m.size)] == 0
  {
    var after := new Timespec(Stamp(0, 0));
    used := 0;
    while used < |readings|
      invariant 0 <= used <= |readings|
      invariant forall k :: 0 <= k < used ==> m.v[Slot(before.nsec, readings[k].nsec, m.size)] == 0
      invariant FirstHit(m.v[..], before.nsec, readings) == FirstHit(m.v[..], before.nsec, readings[used..])
    {
      after.Load(readings[used]);
      var d := DiffNsec(before, after);
      var t := ToSize(d) % m.size;
      assert readings[used..][1..] == readings[used + 1..];
      used := used + 1;
      if m.v[t] != 0 {
        return Some(t), used;
      }
    }
    return None, used;
  }

  /** The rest of a pick after the animation: the rejection loop, then "v1[i] = v[ts];
      v[ts] = 0;". Exactly one ball leaves the drum and no other slot changes; when the
      readings run out the drum is left as it was. */
  method Draw(m: Machine, before: Timespec, readings: seq<Stamp>) returns (ts: Option<nat>, x: int)
    requires m.Valid() && m.size > 0
    modifies m.v
    ensures ts == FirstHit(old(m.v[..]), before.nsec, readings)
    ensures ts.None? ==> m.v[..] == old(m.v[..])
    ensures ts.Some? ==> ts.value < m.size && x == old(m.v[ts.value]) && x != 0
    ensures ts.Some? ==> m.v[..] == old(m.v[..])[ts.value := 0]
    ensures ts.Some? ==> x in Live(old(m.v[..])) && Live(m.v[..]) == Live(old(m.v[..])) - multiset{x}
  {
    var used;
    ts, used := Select(m, before, readings);
    x := 0;
    if ts.Some? {
      TakeOne(m.v[..], ts.value);
      x := m.Take(ts.value);
    }
  }
}
