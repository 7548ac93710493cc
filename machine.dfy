// One drum (the GARAPON record of garapon.h) and the operations of garapon.c that
// build it and change its pool in place: make_machine, the seeding loops, shuffle,
// and the zeroing of a drawn slot.

module Machines {
  import opened Pool

  /** (int) n for a size_t n: the low 32 bits read as a two's-complement int. */
  function SizeAsInt(n: nat): (r: int)
    ensures -0x8000_0000 <= r < 0x8000_0000
    ensures r <= n
    ensures (n - r) % 0x1_0000_0000 == 0
    ensures n < 0x8000_0000 ==> r == n
  {
    var low := n % 0x1_0000_0000;
    if low < 0x8000_0000 then low else low - 0x1_0000_0000
  }

  /** make_machine's parameter check: the call returns a machine exactly when this holds. */
  function Accepts(n: nat, num: int, sample: int, bonus: int): (ok: bool)
    ensures ok ==> 0 <= bonus <= sample <= num <= n
    ensures n < 0x8000_0000 ==> (ok <==> 0 <= bonus <= sample <= num <= n)
  {
    !(SizeAsInt(n) < num || num < sample || sample < bonus || bonus < 0)
  }

  /** The opaque colour attribute a machine is painted with; NotSet picks a colour per ball. */
  datatype Color = NotSet | Pair(n: int)

  class Machine {
    /** The pool: size slots, a ball number or 0 for an empty slot. */
    const v: array<int>
    const color: Color
    /** How many balls (1..number) the drum is seeded with. */
    const number: int
    /** Main numbers drawn from the drum. */
    const sample: int
    /** Bonus ("omake") numbers drawn after the main ones. */
    const omake: int
    const size: nat

    ghost predicate Valid()
    {
      v.Length == size && 0 <= omake <= sample <= number <= size
    }

    /** new_machine, the field stores of make_machine and new_vector(n). */
    constructor (n: nat, num: int, sample: int, bonus: int, color: Color)
      requires Accepts(n, num, sample, bonus)
      ensures Valid() && fresh(v)
      ensures size == n && number == num && this.sample == sample && omake == bonus
      ensures this.color == color
      ensures v[..] == Zeros(n)
    {
      size := n;
      number := num;
      this.sample := sample;
      omake := bonus;
      this.color := color;
      v := new int[n](_ => 0);
      new;
      assert v[..] == Zeros(n);
    }

    /** for (i = 0; i < number; ++i) v[i] = i + 1;  -- the slots past number keep their values. */
    method Seed()
      requires Valid()
      modifies v
      ensures v[..] == Balls(number) + old(v[..])[number..]
    {
      var i := 0;
      while i < number
        invariant 0 <= i <= number
        invariant forall k :: 0 <= k < i ==> v[k] == k + 1
        invariant forall k :: i <= k < size ==> v[k] == old(v[k])
      {
        v[i] := i + 1;
        i := i + 1;
      }
      assert v[..] == Balls(number) + old(v[..])[number..];
    }

    /** shuffle: the Fisher-Yates pass over the whole pool, zero slots included; the k-th
        call to rnd() returns u[k]. */
    method Shuffle(u: seq<real>)
      requires Valid() && Unit(u) && |u| + 1 >= size
      modifies v
      ensures v[..] == Shuffled(old(v[..]), u)
      ensures multiset(v[..]) == multiset(old(v[..]))
    {
      ghost var start := v[..];
      if size == 0 {
        return;
      }
      var i := size - 1;
      while i > 0
        invariant 0 <= i < size
        invariant ShuffleFrom(v[..], u, i) == Shuffled(start, u)
      {
        var j := SwapIndex(i, u[size - 1 - i]);
        ShuffleStep(v[..], u, i);
        var temp := v[i];
        v[i] := v[j];
        v[j] := temp;
        i := i - 1;
      }
      ShufflePermutes(start, u);
    }

    /** v[ts] = 0 after the value has been recorded: returns what the slot held. */
    method Take(t: nat) returns (x: int)
      requires Valid() && t < size
      modifies v
      ensures x == old(v[t])
      ensures v[..] == old(v[..])[t := 0]
    {
      x := v[t];
      v[t] := 0;
    }
  }

  /** make_machine: null exactly when the parameters are out of order, otherwise a fresh
      machine holding them with an all-zero pool of n slots. */
  method MakeMachine(n: nat, num: int, sample: int, bonus: int, color: Color) returns (m: Machine?)
    ensures m == null <==> !Accepts(n, num, sample, bonus)
    ensures m != null ==> fresh(m) && fresh(m.v) && m.Valid()
    ensures m != null ==> m.size == n && m.number == num && m.sample == sample && m.omake == bonus
    ensures m != null ==> m.color == color && m.v[..] == Zeros(n)
  {
    if !Accepts(n, num, sample, bonus) {
      return null;
    }
    m := new Machine(n, num, sample, bonus, color);
  }

  /** A freshly made and seeded machine holds the balls 1..number in its first slots,
      zeros after them, and so exactly the balls 1..number among its non-zero slots. */
  lemma SeededMachine(number: nat, size: nat)
    requires number <= size
    ensures Balls(number) + Zeros(size)[number..] == Balls(number) + Zeros(size - number)
    ensures Live(Balls(number) + Zeros(size)[number..]) == multiset(Balls(number))
  {
    assert Zeros(size)[number..] == Zeros(size - number);
    SeededLive(number, size);
  }

  // The size_t loop of shuffle, "for (i = size - 1; i > 0; --i)", as written.

  /** The first i of shuffle's loop, computed in 64-bit unsigned arithmetic. */
  function FirstPassAsWritten(size: nat): (i: nat)
    requires size < 0x1_0000_0000_0000_0000
  {
    (size + 0x1_0000_0000_0000_0000 - 1) % 0x1_0000_0000_0000_0000
  }

  /** make_machine(0, 0, 0, 0, _) is accepted; shuffle on that machine then starts at
      i = SIZE_MAX, passes the i > 0 guard and touches a slot of an empty pool. */
  lemma EmptyPoolShuffleOverruns()
    ensures Accepts(0, 0, 0, 0)
    ensures FirstPassAsWritten(0) == 0xFFFF_FFFF_FFFF_FFFF
    ensures forall size: nat :: 0 < size < 0x1_0000_0000_0000_0000 ==> FirstPassAsWritten(size) == size - 1
  {
  }
}
