// The draw phase of the three game screens of garapon.c: ja_dream (one drum that also
// gives the bonus balls), us_dream (Powerball and Mega Millions: a main drum and a
// second drum, both spun every frame) and eu_dream (a main drum and a star drum, only
// the drum being drawn is spun). Everything the operator and the machine supply --
// keys, randoms and clock readings -- arrives as values.

module Sessions {
  import opened Header
  import opened Pool
  import opened Clock
  import opened Machines
  import opened Picker
  import opened Sorter
  import opened Presentation

  /** The outside world during one pick: the keys polled after each animation frame,
      the randoms for the shuffles of the main drum and of the second drum (one row per
      frame), the clock reading taken before the animation, and the readings the
      rejection loop takes after it. */
  datatype Pick = Pick(keys: seq<Key>, spins: seq<seq<real>>, twin: seq<seq<real>>,
                       before: Stamp, after: seq<Stamp>)

  /** Every pick supplies randoms for a full animation of the one drum. */
  predicate FedOne(picks: seq<Pick>, size: nat)
  {
    forall k :: 0 <= k < |picks| ==> Feeds(picks[k].spins, size, DAINOBONNOU)
  }

  /** Every pick supplies randoms for a full animation of both drums. */
  predicate Fed(picks: seq<Pick>, lsize: nat, rsize: nat)
  {
    forall k :: 0 <= k < |picks| ==>
      Feeds(picks[k].spins, lsize, DAINOBONNOU) && Feeds(picks[k].twin, rsize, DAINOBONNOU)
  }

  /** The operator pressed 'q' during this pick's animation. */
  predicate QuitPressed(p: Pick)
  {
    Poll(p.keys, Frames(p.keys) - 1) == QuitKey
  }

  /** Nobody pressed 'q' during the first n picks. */
  predicate Calm(picks: seq<Pick>, n: nat)
    requires n <= |picks|
  {
    forall k :: 0 <= k < n ==> !QuitPressed(picks[k])
  }

  /** One more calm pick extends a calm run. */
  lemma CalmStep(picks: seq<Pick>, n: nat)
    requires n < |picks| && Calm(picks, n) && !QuitPressed(picks[n])
    ensures Calm(picks, n + 1)
  {
  }

  /** How a playthrough ends: the winning numbers (sorted), the bonus numbers as shown
      and every ball in the order drawn; 'q' during pick `at`; or the supplied picks or
      clock readings ran out at pick `at` (the program itself would keep waiting). */
  datatype Outcome =
    | Won(main: seq<int>, bonus: seq<int>, drawn: seq<int>)
    | Quit(at: nat)
    | Stalled(at: nat)

  /** A playthrough of `draws` picks that ended early at pick `at`: on 'q' during that
      pick, or stalled there without a 'q' (or with no pick supplied at all); nobody
      pressed 'q' before. */
  predicate Stopped(o: Outcome, picks: seq<Pick>, draws: int)
  {
    !o.Won? && o.at < draws && o.at <= |picks| && Calm(picks, o.at) &&
    (o.Quit? ==> o.at < |picks| && QuitPressed(picks[o.at])) &&
    (o.Stalled? && o.at < |picks| ==> !QuitPressed(picks[o.at]))
  }

  /** A stall at a supplied pick means that every clock reading of that pick pointed
      at an empty slot of `pool`, the drum being drawn. */
  ghost predicate StallMeans(o: Outcome, picks: seq<Pick>, pool: seq<int>)
  {
    o.Stalled? && o.at < |picks| ==> Exhausted(pool, picks[o.at].before.nsec, picks[o.at].after)
  }

  /** What a drum seeded with 1..number can hand out: no ball twice, each in 1..number. */
  ghost predicate FairDraw(drawn: seq<int>, number: int)
  {
    Distinct(drawn) && forall k :: 0 <= k < |drawn| ==> 1 <= drawn[k] <= number
  }

  /** The balls still in the drum and the balls drawn so far are together the balls
      the drum was seeded with. */
  ghost predicate Accounted(pool: seq<int>, drawn: seq<int>, full: multiset<int>)
  {
    Live(pool) + multiset(drawn) == full
  }

  /** With BONNOU 0 every drum of the table passes make_machine's check. */
  lemma TableAccepted(v: Variant)
    ensures Accepts(Drum(v).size, Drum(v).number, Drum(v).sample, Drum(v).bonus)
    ensures v.DualDrum() ==> Accepts(Twin(v).size, Twin(v).number, Twin(v).sample, Twin(v).bonus)
  {
    TableFits(v);
  }

  /** Whatever has been taken out of a drum seeded with 1..number is a fair draw, and
      lies within distsort's domain. */
  lemma TakenFair(pool: seq<int>, drawn: seq<int>, number: nat)
    requires Accounted(pool, drawn, multiset(Balls(number))) && number <= DSMAX
    ensures FairDraw(drawn, number)
    ensures InDomain(drawn)
  {
    assert multiset(drawn) <= multiset(Balls(number));
    DrawnFromBalls(drawn, number);
  }

  /** The pool of a drum just made and seeded for c: the balls 1..number, then zeros. */
  function Loaded(c: Config): (s: seq<int>)
    requires 0 <= c.number <= c.size
    ensures |s| == c.size && Live(s) == multiset(Balls(c.number))
  {
    SeededLive(c.number, c.size);
    Balls(c.number) + Zeros(c.size - c.number)
  }

  /** A made and seeded drum of the table: its pool holds exactly the balls 1..number. */
  method Build(c: Config, color: Color) returns (m: Machine)
    requires Accepts(c.size, c.number, c.sample, c.bonus)
    ensures fresh(m) && fresh(m.v) && m.Valid()
    ensures m.size == c.size && m.number == c.number && m.sample == c.sample && m.omake == c.bonus
    ensures m.v[..] == Loaded(c)
    ensures Live(m.v[..]) == multiset(Balls(m.number))
  {
    var made := MakeMachine(c.size, c.number, c.sample, c.bonus, color);
    m := made;
    m.Seed();
    SeededMachine(m.number, m.size);
  }

  /** The ball the rejection loop hands out of a pool that stays still: the ball in the
      slot of the first reading that finds one, or None when every reading misses. */
  function Hit(pool: seq<int>, before: int, readings: seq<Stamp>): (x: Option<int>)
    requires |pool| > 0
    ensures x.None? <==> Exhausted(pool, before, readings)
    ensures x.Some? <==> FirstHit(pool, before, readings).Some?
    ensures x.Some? ==> x.value != 0 && x.value in Live(pool)
  {
    FirstHitNone(pool, before, readings);
    match FirstHit(pool, before, readings)
    case None => None
    case Some(t) => assert pool[t] in multiset(pool); Some(pool[t])
  }

  /** The rejection loop of a pick on drum m, timed from `before`, and the removal of
      the ball it finds: exactly the slot of the first hit is emptied, and the books
      stay balanced either way. */
  method Settle(m: Machine, before: Timespec, readings: seq<Stamp>, ghost drawn: seq<int>, ghost full: multiset<int>)
    returns (x: Option<int>)
    requires m.Valid() && m.size > 0
    requires Accounted(m.v[..], drawn, full)
    modifies m.v
    ensures x == Hit(old(m.v[..]), before.nsec, readings)
    ensures x.None? ==> m.v[..] == old(m.v[..]) && Accounted(m.v[..], drawn, full)
    ensures x.Some? ==> m.v[..] == old(m.v[..])[FirstHit(old(m.v[..]), before.nsec, readings).value := 0]
    ensures x.Some? ==> Accounted(m.v[..], drawn + [x.value], full)
  {
    var ts, ball := Draw(m, before, readings);
    x := if ts.Some? then Some(ball) else None;
  }

  /** One pick from drum m: the animation, shuffling m with rows frame by frame, then
      the rejection loop on the pick's clock readings and the removal of the ball;
      `spun` is the pool as the operator stopped it. */
  method PickOne(m: Machine, p: Pick, rows: seq<seq<real>>, ghost drawn: seq<int>, ghost full: multiset<int>)
    returns (quit: bool, x: Option<int>, ghost spun: seq<int>)
    requires m.Valid() && m.size > 0 && Feeds(rows, m.size, DAINOBONNOU)
    requires Accounted(m.v[..], drawn, full)
    modifies m.v
    ensures spun == Spun(old(m.v[..]), rows, Frames(p.keys))
    ensures quit <==> QuitPressed(p)
    ensures quit ==> x.None?
    ensures !quit ==> x == Hit(spun, p.before.nsec, p.after)
    ensures x.None? ==> m.v[..] == spun && Accounted(m.v[..], drawn, full)
    ensures x.Some? ==> m.v[..] == spun[FirstHit(spun, p.before.nsec, p.after).value := 0]
    ensures x.Some? ==> Accounted(m.v[..], drawn + [x.value], full)
  {
    var before := new Timespec(p.before);
    var frames;
    frames, quit := Spin(m, p.keys, rows);
    spun := m.v[..];
    if quit {
      return quit, None, spun;
    }
    x := Settle(m, before, p.after, drawn, full);
  }

  /** What one pick does to the drum it draws from: the animation shuffles it with
      rows, then, unless 'q' was pressed, the rejection loop takes the ball of the first
      hit and empties its slot. No ball on 'q' or when every reading misses; the drum is
      then left as spun. */
  function Turned(pool: seq<int>, rows: seq<seq<real>>, p: Pick): (t: (seq<int>, Option<int>))
    requires |pool| > 0 && Feeds(rows, |pool|, DAINOBONNOU)
    ensures |t.0| == |pool|
  {
    var spun := Spun(pool, rows, Frames(p.keys));
    if QuitPressed(p) then (spun, None)
    else match FirstHit(spun, p.before.nsec, p.after)
      case None => (spun, None)
      case Some(t) => (spun[t := 0], Some(spun[t]))
  }

  /** A pick loses no ball of its drum but the one it hands out. */
  lemma TurnedKeeps(pool: seq<int>, rows: seq<seq<real>>, p: Pick)
    requires |pool| > 0 && Feeds(rows, |pool|, DAINOBONNOU)
    ensures var t := Turned(pool, rows, p);
      t.1.None? ==> Live(t.0) == Live(pool)
    ensures var t := Turned(pool, rows, p);
      t.1.Some? ==> t.1.value != 0 && Live(t.0) + multiset{t.1.value} == Live(pool)
  {
    var spun := Spun(pool, rows, Frames(p.keys));
    SpunPermutes(pool, rows, Frames(p.keys));
    var ts := FirstHit(spun, p.before.nsec, p.after);
    if !QuitPressed(p) && ts.Some? {
      TakeOne(spun, ts.value);
    }
  }

  /** The balls handed out so far, followed by the ball of one more pick if it drew one. */
  function Took(drawn: seq<int>, x: Option<int>): seq<int>
  {
    if x.Some? then drawn + [x.value] else drawn
  }

  /** ja_dream's pick loop on values: picks k .. n - 1 on drum q, with the balls d
      handed out so far. It ends after the first pick that hands out nothing, with the
      drum as that pick left it, or when the supplied picks run out. */
  function RunOne(q: seq<int>, d: seq<int>, picks: seq<Pick>, k: nat, n: nat): (g: (seq<int>, seq<int>))
    requires |q| > 0 && FedOne(picks, |q|)
    ensures |g.0| == |q|
    decreases n - k
  {
    if k >= n || k >= |picks| then (q, d)
    else
      var t := Turned(q, picks[k].spins, picks[k]);
      if t.1.None? then (t.0, d) else RunOne(t.0, d + [t.1.value], picks, k + 1, n)
  }

  /** The run only appends: it keeps the balls handed out before pick k, and hands out
      at most one ball per pick. */
  lemma {:induction false} RunAppends(q: seq<int>, d: seq<int>, picks: seq<Pick>, k: nat, n: nat)
    requires |q| > 0 && FedOne(picks, |q|) && k <= n
    ensures var g := RunOne(q, d, picks, k, n);
      |d| <= |g.1| <= |d| + (n - k) && g.1[..|d|] == d
    decreases n - k
  {
    if k < n && k < |picks| {
      var t := Turned(q, picks[k].spins, picks[k]);
      if t.1.Some? {
        RunAppends(t.0, d + [t.1.value], picks, k + 1, n);
        var g := RunOne(t.0, d + [t.1.value], picks, k + 1, n);
        assert g.1[..|d|] == g.1[..|d| + 1][..|d|];
      }
    }
  }

  /** The run loses no ball: the balls left in the drum and the balls handed out are
      together the balls the drum held at the start. */
  lemma {:induction false} RunAccounted(q: seq<int>, d: seq<int>, picks: seq<Pick>, k: nat, n: nat, full: multiset<int>)
    requires |q| > 0 && FedOne(picks, |q|) && Accounted(q, d, full)
    ensures Accounted(RunOne(q, d, picks, k, n).0, RunOne(q, d, picks, k, n).1, full)
    decreases n - k
  {
    if k < n && k < |picks| {
      TurnedKeeps(q, picks[k].spins, picks[k]);
      var t := Turned(q, picks[k].spins, picks[k]);
      if t.1.Some? {
        RunAccounted(t.0, d + [t.1.value], picks, k + 1, n, full);
      }
    }
  }

  /** From a drum holding the balls 1..number, a run hands out no ball twice and each
      in 1..number. */
  lemma RunFair(pool: seq<int>, picks: seq<Pick>, n: nat, number: nat)
    requires |pool| > 0 && FedOne(picks, |pool|)
    requires Live(pool) == multiset(Balls(number)) && number <= DSMAX
    ensures FairDraw(RunOne(pool, [], picks, 0, n).1, number)
  {
    RunAccounted(pool, [], picks, 0, n, Live(pool));
    var g := RunOne(pool, [], picks, 0, n);
    TakenFair(g.0, g.1, number);
  }
  /** The balls drawn so far sit in order in v1 and then in v3: the first |v1| of them
      in v1, the rest at the front of v3. */
  ghost predicate Recorded(drawn: seq<int>, v1: seq<int>, v3: seq<int>)
  {
    if |drawn| <= |v1| then v1[..|drawn|] == drawn
    else v1 == drawn[..|v1|] && |drawn| - |v1| <= |v3| && v3[..|drawn| - |v1|] == drawn[|v1|..]
  }

  /** Draw i goes to v1[i] while i < sample and to v3[i - sample] after that. */
  method Record(v1: array<int>, v3: array<int>, i: nat, x: int, ghost drawn: seq<int>)
    requires v1 != v3 && v1.Length + v3.Length > i && |drawn| == i
    requires Recorded(drawn, v1[..], v3[..])
    modifies v1, v3
    ensures Recorded(drawn + [x], v1[..], v3[..])
    ensures i < v1.Length ==> v1[..] == old(v1[..])[i := x] && v3[..] == old(v3[..])
    ensures i >= v1.Length ==> v3[..] == old(v3[..])[i - v1.Length := x] && v1[..] == old(v1[..])
  {
    if i < v1.Length {
      v1[i] := x;
      assert v1[..i + 1] == v1[..i] + [x];
    } else {
      v3[i - v1.Length] := x;
      assert v3[..i + 1 - v1.Length] == v3[..i - v1.Length] + [x];
      assert v1[..v1.Length] == old(v1[..v1.Length]);
    }
  }

  /** The books of ja_dream after i picks: the i balls drawn are accounted for and
      recorded in order in v1 and then v3. */
  ghost predicate SingleBooks(m: Machine, v1: array<int>, v3: array<int>, i: nat,
                              drawn: seq<int>, full: multiset<int>)
    reads m.v, v1, v3
  {
    |drawn| == i && Accounted(m.v[..], drawn, full) && Recorded(drawn, v1[..], v3[..])
  }

  /** Pick i of ja_dream: the drum is spun, then the ball the rejection loop finds on
      the spun drum goes to v1[i] while i < sample and to v3[i - sample] after that, and
      its slot is emptied. It fails on 'q', or when every clock reading misses. */
  method PickSingle(m: Machine, v1: array<int>, v3: array<int>, p: Pick, i: nat,
                    ghost drawn: seq<int>, ghost full: multiset<int>)
    returns (quit: bool, ok: bool, ghost drawn': seq<int>, ghost spun: seq<int>)
    requires m.Valid() && m.size > 0 && v1 != v3 && v1 != m.v && v3 != m.v
    requires i < v1.Length + v3.Length && Feeds(p.spins, m.size, DAINOBONNOU)
    requires SingleBooks(m, v1, v3, i, drawn, full)
    modifies m.v, v1, v3
    ensures spun == Spun(old(m.v[..]), p.spins, Frames(p.keys))
    ensures quit <==> QuitPressed(p)
    ensures quit ==> !ok
    ensures !quit ==> (ok <==> Hit(spun, p.before.nsec, p.after).Some?)
    ensures !quit && !ok ==> Exhausted(m.v[..], p.before.nsec, p.after)
    ensures ok ==> drawn' == drawn + [Hit(spun, p.before.nsec, p.after).value]
    ensures ok ==> m.v[..] == spun[FirstHit(spun, p.before.nsec, p.after).value := 0]
    ensures !ok ==> drawn' == drawn && m.v[..] == spun
    ensures var t := Turned(old(m.v[..]), p.spins, p);
      m.v[..] == t.0 && drawn' == Took(drawn, t.1) && (ok <==> t.1.Some?)
    ensures SingleBooks(m, v1, v3, if ok then i + 1 else i, drawn', full)
  {
    var ball;
    quit, ball, spun := PickOne(m, p, p.spins, drawn, full);
    drawn' := drawn;
    ok := ball.Some?;
    if ok {
      var x := ball.value;
      Record(v1, v3, i, x, drawn);
      drawn' := drawn + [x];
    }
  }

  /** The pick loop of ja_dream on a seeded drum m: sample + omake picks, pick i going
      to v1[i] while i < sample and to v3[i - sample] after that. Stops early, with the
      outcome in halt, on 'q' or when the supplied picks or clock readings run out. */
  method CollectSingle(m: Machine, picks: seq<Pick>, ghost full: multiset<int>)
    returns (halt: Option<Outcome>, v1: array<int>, v3: array<int>, ghost drawn: seq<int>)
    requires m.Valid() && m.sample + m.omake > 0
    requires Live(m.v[..]) == full && FedOne(picks, m.size)
    modifies m.v
    ensures fresh(v1) && fresh(v3) && v1.Length == m.sample && v3.Length == m.omake
    ensures halt.None? ==> SingleBooks(m, v1, v3, m.sample + m.omake, drawn, full)
    ensures halt.None? ==> m.sample + m.omake <= |picks| && Calm(picks, m.sample + m.omake)
    ensures halt.Some? ==> Stopped(halt.value, picks, m.sample + m.omake)
    ensures halt.Some? ==> SingleBooks(m, v1, v3, halt.value.at, drawn, full)
    ensures halt.Some? ==> StallMeans(halt.value, picks, m.v[..])
    ensures RunOne(old(m.v[..]), [], picks, 0, m.sample + m.omake) == (m.v[..], drawn)
  {
    ghost var m0 := m.v[..];
    v1 := new int[m.sample];
    v3 := new int[m.omake];
    drawn := [];
    halt := None;
    var i := 0;
    while i < m.sample + m.omake
      invariant 0 <= i <= m.sample + m.omake && i <= |picks|
      invariant v1 != m.v && v3 != m.v
      invariant SingleBooks(m, v1, v3, i, drawn, full)
      invariant RunOne(m.v[..], drawn, picks, i, m.sample + m.omake) == RunOne(m0, [], picks, 0, m.sample + m.omake)
      invariant Calm(picks, i)
    {
      if i == |picks| {
        halt := Some(Stalled(i));
        return;
      }
      var quit, ok;
      ghost var spun;
      quit, ok, drawn, spun := PickSingle(m, v1, v3, picks[i], i, drawn, full);
      if !ok {
        halt := Some(if quit then Quit(i) else Stalled(i));
        return;
      }
      CalmStep(picks, i);
      i := i + 1;
    }
  }

  /** The pick loop of ja_dream followed by distsort and the omake box. A game cut
      short at pick `at` leaves number - at balls in the drum. */
  method DrawSingle(m: Machine, picks: seq<Pick>, ghost full: multiset<int>) returns (o: Outcome)
    requires m.Valid() && m.number <= DSMAX && m.sample + m.omake > 0
    requires Live(m.v[..]) == full && full == multiset(Balls(m.number))
    requires FedOne(picks, m.size)
    modifies m.v
    ensures o.Won? ==> |o.drawn| == m.sample + m.omake <= |picks| && Calm(picks, |o.drawn|)
    ensures o.Won? ==> FairDraw(o.drawn, m.number)
    ensures o.Won? ==> Announces(o, o.drawn, m.sample, m.omake)
    ensures !o.Won? ==> Stopped(o, picks, m.sample + m.omake)
    ensures !o.Won? ==> |Live(m.v[..])| == m.number - o.at
    ensures StallMeans(o, picks, m.v[..])
    ensures o.Won? <==> |RunOne(old(m.v[..]), [], picks, 0, m.sample + m.omake).1| == m.sample + m.omake
    ensures o.Won? ==> o.drawn == RunOne(old(m.v[..]), [], picks, 0, m.sample + m.omake).1
    ensures !o.Won? ==> m.v[..] == RunOne(old(m.v[..]), [], picks, 0, m.sample + m.omake).0
    ensures !o.Won? ==> o.at == |RunOne(old(m.v[..]), [], picks, 0, m.sample + m.omake).1|
  {
    var halt, v1, v3, drawn := CollectSingle(m, picks, full);
    if halt.Some? {
      o := halt.value;
      assert |full| == m.number;
      return;
    }
    TakenFair(m.v[..], drawn, m.number);
    o := Announce(v1, v3, m.omake, drawn);
  }

  /** o is the closing screen for the balls drawn in this order: the first `sample`
      of them sorted by distsort as the winning numbers, the rest shown by the omake
      rule as the bonus numbers. */
  ghost predicate Announces(o: Outcome, drawn: seq<int>, sample: nat, omake: int)
  {
    o.Won? && o.drawn == drawn && sample <= |drawn| &&
    o.main == Tally(drawn[..sample]) &&
    Sorted(o.main) && multiset(o.main) == multiset(drawn[..sample]) &&
    (omake == 1 ==> |drawn| - sample >= 1) && (omake == 2 ==> |drawn| - sample >= 2) &&
    o.bonus == BonusShown(drawn[sample..], omake)
  }

  /** The end of a game: distsort(sample, v1, v2) gives the winning numbers, and the
      omake box shows the bonus balls of v3. */
  method Announce(v1: array<int>, v3: array<int>, omake: int, ghost drawn: seq<int>)
    returns (o: Outcome)
    requires |drawn| == v1.Length + v3.Length && Recorded(drawn, v1[..], v3[..])
    requires InDomain(drawn)
    requires omake == 1 ==> v3.Length >= 1
    requires omake == 2 ==> v3.Length >= 2
    ensures Announces(o, drawn, v1.Length, omake)
  {
    assert drawn == v1[..] + v3[..] by {
      if |drawn| <= v1.Length {
      } else {
        assert v1[..v1.Length] == v1[..];
        assert v3[..|drawn| - v1.Length] == v3[..];
      }
    }
    var n := v1.Length;
    var v2 := new int[n];
    assert v1[..n] == drawn[..n];
    DistSort(n, v1, v2);
    assert v2[..n] == v2[..];
    assert drawn[n..] == v3[..];
    o := Won(v2[..], BonusShown(v3[..], omake), v1[..] + v3[..]);
  }

  /** ja_dream from the first pick to the winning numbers; `pool` is the drum at the
      end. A game cut short still had a ball in the drum for the pick it stopped at. */
  method JaDream(v: Variant, picks: seq<Pick>) returns (o: Outcome, ghost pool: seq<int>)
    requires v.Japanese() && FedOne(picks, Drum(v).size)
    ensures o.Won? ==> |o.drawn| == Draws(v) <= |picks| && Calm(picks, Draws(v))
    ensures o.Won? ==> FairDraw(o.drawn, Drum(v).number)
    ensures o.Won? ==> Announces(o, o.drawn, Drum(v).sample, Drum(v).bonus)
    ensures !o.Won? ==> Stopped(o, picks, Draws(v))
    ensures !o.Won? ==> |pool| == Drum(v).size && |Live(pool)| == Drum(v).number - o.at >= 1
    ensures StallMeans(o, picks, pool)
    ensures o.Won? <==> |RunOne(Loaded(Drum(v)), [], picks, 0, Draws(v)).1| == Draws(v)
    ensures o.Won? ==> o.drawn == RunOne(Loaded(Drum(v)), [], picks, 0, Draws(v)).1
    ensures !o.Won? ==> pool == RunOne(Loaded(Drum(v)), [], picks, 0, Draws(v)).0
    ensures !o.Won? ==> o.at == |RunOne(Loaded(Drum(v)), [], picks, 0, Draws(v)).1|
  {
    TableFits(v);
    TableAccepted(v);
    var m := Build(Drum(v), NotSet);
    assert m.v[..] == Loaded(Drum(v)) && m.sample + m.omake == Draws(v);
    o := DrawSingle(m, picks, Live(m.v[..]));
    pool := m.v[..];
  }

  // The dual-drum games. Picks 0 .. lsample-1 come from the main drum l, the remaining
  // rsample picks from the second drum r.

  /** The animation of a dual-drum pick: both drums every frame in us_dream, only the
      drum being drawn (l when left holds, r otherwise) in eu_dream; a drum that does
      not spin keeps its slots. */
  method Animate(l: Machine, r: Machine, p: Pick, left: bool, both: bool) returns (quit: bool)
    requires l.Valid() && r.Valid() && l.v != r.v
    requires Feeds(p.spins, l.size, DAINOBONNOU) && Feeds(p.twin, r.size, DAINOBONNOU)
    modifies l.v, r.v
    ensures quit <==> QuitPressed(p)
    ensures l.v[..] == if both || left then Spun(old(l.v[..]), p.spins, Frames(p.keys)) else old(l.v[..])
    ensures r.v[..] == if both || !left then Spun(old(r.v[..]), p.twin, Frames(p.keys)) else old(r.v[..])
    ensures Live(l.v[..]) == Live(old(l.v[..])) && Live(r.v[..]) == Live(old(r.v[..]))
  {
    var frames;
    if both {
      frames, quit := SpinBoth(l, r, p.keys, p.spins, p.twin);
    } else if left {
      frames, quit := Spin(l, p.keys, p.spins);
    } else {
      frames, quit := Spin(r, p.keys, p.twin);
    }
  }

  /** One pick of a dual-drum game: the animation, then the rejection loop on the drum
      being drawn and the removal of its ball; `spun` is that drum as the operator
      stopped it. The drum being drawn loses exactly the ball handed out, the other
      drum nothing. */
  method PickDual(l: Machine, r: Machine, p: Pick, left: bool, both: bool)
    returns (quit: bool, x: Option<int>, ghost spun: seq<int>)
    requires l.Valid() && r.Valid() && l.v != r.v && (if left then l.size else r.size) > 0
    requires Feeds(p.spins, l.size, DAINOBONNOU) && Feeds(p.twin, r.size, DAINOBONNOU)
    modifies l.v, r.v
    ensures quit <==> QuitPressed(p)
    ensures spun == if left then Spun(old(l.v[..]), p.spins, Frames(p.keys)) else Spun(old(r.v[..]), p.twin, Frames(p.keys))
    ensures quit ==> x.None?
    ensures !quit ==> x == Hit(spun, p.before.nsec, p.after)
    ensures x.None? ==> (if left then l.v[..] else r.v[..]) == spun
    ensures x.Some? ==> (if left then l.v[..] else r.v[..]) == spun[FirstHit(spun, p.before.nsec, p.after).value := 0]
    ensures var t := if left then Turned(old(l.v[..]), p.spins, p) else Turned(old(r.v[..]), p.twin, p);
      (if left then l.v[..] else r.v[..]) == t.0 && x == t.1
    ensures left ==> r.v[..] == if both then Spun(old(r.v[..]), p.twin, Frames(p.keys)) else old(r.v[..])
    ensures !left ==> l.v[..] == if both then Spun(old(l.v[..]), p.spins, Frames(p.keys)) else old(l.v[..])
    ensures x.None? ==> Live(l.v[..]) == Live(old(l.v[..])) && Live(r.v[..]) == Live(old(r.v[..]))
    ensures x.Some? && left ==>
      x.value != 0 && Live(l.v[..]) + multiset{x.value} == Live(old(l.v[..])) && Live(r.v[..]) == Live(old(r.v[..]))
    ensures x.Some? && !left ==>
      x.value != 0 && Live(l.v[..]) == Live(old(l.v[..])) && Live(r.v[..]) + multiset{x.value} == Live(old(r.v[..]))
  {
    var before := new Timespec(p.before);
    quit := Animate(l, r, p, left, both);
    spun := if left then l.v[..] else r.v[..];
    if quit {
      return quit, None, spun;
    }
    var ts, ball;
    if left {
      ts, ball := Draw(l, before, p.after);
    } else {
      ts, ball := Draw(r, before, p.after);
    }
    x := if ts.Some? then Some(ball) else None;
  }

  /** A ball drawn after the balls of both drums can be filed with either drum's balls. */
  lemma Regroup(dl: seq<int>, dr: seq<int>, x: int)
    ensures dl + dr + [x] == dl + (dr + [x])
    ensures dr == [] ==> dl + dr + [x] == (dl + [x]) + dr
  {
  }

  /** What pick p of a two-drum game does, on values: it is drawn from the main drum l
      when `left` holds and from the second drum r otherwise, as Turned says; the other
      drum spins too when `both` holds (us_dream) and stays as it is otherwise
      (eu_dream); the ball goes to dl or dr. The last component says whether a ball was
      handed out. */
  function StepTwo(l: seq<int>, r: seq<int>, dl: seq<int>, dr: seq<int>, p: Pick, left: bool, both: bool):
    (g: (seq<int>, seq<int>, seq<int>, seq<int>, bool))
    requires Feeds(p.spins, |l|, DAINOBONNOU) && Feeds(p.twin, |r|, DAINOBONNOU)
    requires (if left then |l| else |r|) > 0
    ensures |g.0| == |l| && |g.1| == |r|
  {
    var t := Turned(if left then l else r, if left then p.spins else p.twin, p);
    var other := if left then r else l;
    var o := if both then Spun(other, if left then p.twin else p.spins, Frames(p.keys)) else other;
    if left then (t.0, o, Took(dl, t.1), dr, t.1.Some?)
    else (o, t.0, dl, Took(dr, t.1), t.1.Some?)
  }

  /** The randoms of pick p for the main drum, or for the second drum when twin holds. */
  function Rows(p: Pick, twin: bool): seq<seq<real>>
  {
    if twin then p.twin else p.spins
  }

  /** One phase of a two-drum game's pick loop on values: picks k .. n - 1 all draw
      from drum q (the second drum when twin holds), while the other drum o spins along
      when `both` holds and stays as it is otherwise; d are q's balls handed out so far.
      It ends after the first pick that hands out nothing, or when the supplied picks
      run out; the flag says whether all of picks k .. n - 1 handed out a ball. */
  function RunSide(q: seq<int>, o: seq<int>, d: seq<int>, picks: seq<Pick>, k: nat, n: nat,
                   twin: bool, both: bool): (g: (seq<int>, seq<int>, seq<int>, bool))
    requires (k < n ==> |q| > 0) && (if twin then Fed(picks, |o|, |q|) else Fed(picks, |q|, |o|))
    ensures |g.0| == |q| && |g.1| == |o|
    decreases n - k
  {
    if k >= n then (q, o, d, true)
    else if k >= |picks| then (q, o, d, false)
    else
      var p := picks[k];
      var t := Turned(q, Rows(p, twin), p);
      var o' := if both then Spun(o, Rows(p, !twin), Frames(p.keys)) else o;
      if t.1.None? then (t.0, o', d, false)
      else RunSide(t.0, o', d + [t.1.value], picks, k + 1, n, twin, both)
  }

  /** A phase loses no ball of the drum it draws from but the ones it hands out, and
      none of the drum that only spins. */
  lemma {:induction false} RunSideAccounted(q: seq<int>, o: seq<int>, d: seq<int>, picks: seq<Pick>, k: nat, n: nat,
                                            twin: bool, both: bool, full: multiset<int>)
    requires (k < n ==> |q| > 0) && (if twin then Fed(picks, |o|, |q|) else Fed(picks, |q|, |o|))
    requires Accounted(q, d, full)
    ensures var g := RunSide(q, o, d, picks, k, n, twin, both);
      Accounted(g.0, g.2, full) && Live(g.1) == Live(o)
    decreases n - k
  {
    if k < n && k < |picks| {
      var p := picks[k];
      TurnedKeeps(q, Rows(p, twin), p);
      var t := Turned(q, Rows(p, twin), p);
      var o' := if both then Spun(o, Rows(p, !twin), Frames(p.keys)) else o;
      if both {
        SpunPermutes(o, Rows(p, !twin), Frames(p.keys));
      }
      if t.1.Some? {
        RunSideAccounted(t.0, o', d + [t.1.value], picks, k + 1, n, twin, both, full);
      }
    }
  }

  /** A two-drum game's pick loop on values: picks k .. n - 1, each one StepTwo,
      drawn from the main drum l while k < lsample and from the second drum r after
      that, with the balls dl and dr handed out so far. It ends after the first pick
      that hands out nothing, with the drums as that pick left them, or when the
      supplied picks run out. */
  function RunTwo(l: seq<int>, r: seq<int>, dl: seq<int>, dr: seq<int>, picks: seq<Pick>,
                  k: nat, n: nat, lsample: nat, both: bool): (g: (seq<int>, seq<int>, seq<int>, seq<int>))
    requires Fed(picks, |l|, |r|) && (lsample > 0 ==> |l| > 0) && (lsample < n ==> |r| > 0)
    ensures |g.0| == |l| && |g.1| == |r|
    decreases n - k, 2
  {
    if k >= n then (l, r, dl, dr)
    else NextTwo(l, r, dl, dr, picks, k, n, lsample, both)
  }

  /** Pick k of a two-drum game that still has draws to make: the game stalls there
      when no pick k is supplied. */
  function NextTwo(l: seq<int>, r: seq<int>, dl: seq<int>, dr: seq<int>, picks: seq<Pick>,
                   k: nat, n: nat, lsample: nat, both: bool): (g: (seq<int>, seq<int>, seq<int>, seq<int>))
    requires Fed(picks, |l|, |r|) && (lsample > 0 ==> |l| > 0) && (lsample < n ==> |r| > 0)
    requires k < n
    ensures |g.0| == |l| && |g.1| == |r|
    decreases n - k, 1
  {
    if k >= |picks| then (l, r, dl, dr)
    else PlayTwo(l, r, dl, dr, picks, k, n, lsample, both)
  }

  /** Pick k of a two-drum game, then the rest of the game unless that pick handed
      out nothing. */
  function PlayTwo(l: seq<int>, r: seq<int>, dl: seq<int>, dr: seq<int>, picks: seq<Pick>,
                   k: nat, n: nat, lsample: nat, both: bool): (g: (seq<int>, seq<int>, seq<int>, seq<int>))
    requires Fed(picks, |l|, |r|) && (lsample > 0 ==> |l| > 0) && (lsample < n ==> |r| > 0)
    requires k < n && k < |picks|
    ensures |g.0| == |l| && |g.1| == |r|
    decreases n - k, 0
  {
    var s := StepTwo(l, r, dl, dr, picks[k], k < lsample, both);
    if !s.4 then (s.0, s.1, s.2, s.3)
    else RunTwo(s.0, s.1, s.2, s.3, picks, k + 1, n, lsample, both)
  }

  /** The same game in two phases, from pick k with the balls dl and dr handed out so
      far: the picks before lsample draw from the main drum l, then the rest from the
      second drum r. The second phase starts only if the first one handed out all of
      its balls. */
  function RunPhased(l: seq<int>, r: seq<int>, dl: seq<int>, dr: seq<int>, picks: seq<Pick>,
                     k: nat, n: nat, lsample: nat, both: bool): (g: (seq<int>, seq<int>, seq<int>, seq<int>))
    requires Fed(picks, |l|, |r|) && lsample <= n && (lsample > 0 ==> |l| > 0) && (lsample < n ==> |r| > 0)
    ensures |g.0| == |l| && |g.1| == |r|
  {
    if k < lsample then
      var a := RunSide(l, r, dl, picks, k, lsample, false, both);
      if !a.3 then (a.0, a.1, a.2, dr)
      else
        var b := RunSide(a.1, a.0, dr, picks, lsample, n, true, both);
        (b.1, b.0, a.2, b.2)
    else
      var b := RunSide(r, l, dr, picks, k, n, true, both);
      (b.1, b.0, dl, b.2)
  }

  /** Pick k of the phased game is one StepTwo: when it hands out a ball the run goes
      on from the drums and balls it leaves, and otherwise the run ends there. */
  lemma RunPhasedStep(l: seq<int>, r: seq<int>, dl: seq<int>, dr: seq<int>, picks: seq<Pick>,
                      k: nat, n: nat, lsample: nat, both: bool,
                      l': seq<int>, r': seq<int>, dl': seq<int>, dr': seq<int>, ok: bool)
    requires Fed(picks, |l|, |r|) && lsample <= n && (lsample > 0 ==> |l| > 0) && (lsample < n ==> |r| > 0)
    requires k < n && k < |picks|
    requires (l', r', dl', dr', ok) == StepTwo(l, r, dl, dr, picks[k], k < lsample, both)
    ensures |l'| == |l| && |r'| == |r|
    ensures RunPhased(l, r, dl, dr, picks, k, n, lsample, both) ==
      if ok then RunPhased(l', r', dl', dr', picks, k + 1, n, lsample, both) else (l', r', dl', dr')
  {
    var p := picks[k];
    if k < lsample {
      var t := Turned(l, p.spins, p);
      var o := if both then Spun(r, p.twin, Frames(p.keys)) else r;
      assert StepTwo(l, r, dl, dr, p, true, both) == (t.0, o, Took(dl, t.1), dr, t.1.Some?);
      assert RunSide(l, r, dl, picks, k, lsample, false, both) ==
        if t.1.None? then (t.0, o, dl, false) else RunSide(t.0, o, dl + [t.1.value], picks, k + 1, lsample, false, both);
    } else {
      var t := Turned(r, p.twin, p);
      var o := if both then Spun(l, p.spins, Frames(p.keys)) else l;
      assert StepTwo(l, r, dl, dr, p, false, both) == (o, t.0, dl, Took(dr, t.1), t.1.Some?);
      assert RunSide(r, l, dr, picks, k, n, true, both) ==
        if t.1.None? then (t.0, o, dr, false) else RunSide(t.0, o, dr + [t.1.value], picks, k + 1, n, true, both);
    }
  }

  /** Pick by pick or phase by phase, a two-drum game runs the same way. */
  lemma {:induction false} RunTwoPhased(l: seq<int>, r: seq<int>, dl: seq<int>, dr: seq<int>, picks: seq<Pick>,
                                        k: nat, n: nat, lsample: nat, both: bool)
    requires Fed(picks, |l|, |r|) && lsample <= n && (lsample > 0 ==> |l| > 0) && (lsample < n ==> |r| > 0)
    ensures RunTwo(l, r, dl, dr, picks, k, n, lsample, both) == RunPhased(l, r, dl, dr, picks, k, n, lsample, both)
    decreases n - k
  {
    if k < n && k < |picks| {
      assert RunTwo(l, r, dl, dr, picks, k, n, lsample, both) == NextTwo(l, r, dl, dr, picks, k, n, lsample, both)
             == PlayTwo(l, r, dl, dr, picks, k, n, lsample, both);
      var s := StepTwo(l, r, dl, dr, picks[k], k < lsample, both);
      RunPhasedStep(l, r, dl, dr, picks, k, n, lsample, both, s.0, s.1, s.2, s.3, s.4);
      if s.4 {
        RunTwoPhased(s.0, s.1, s.2, s.3, picks, k + 1, n, lsample, both);
      }
    }
  }

  /** Neither drum loses a ball but the ones it hands out. */
  lemma RunTwoAccounted(l: seq<int>, r: seq<int>, dl: seq<int>, dr: seq<int>, picks: seq<Pick>,
                        k: nat, n: nat, lsample: nat, both: bool, fl: multiset<int>, fr: multiset<int>)
    requires Fed(picks, |l|, |r|) && lsample <= n && (lsample > 0 ==> |l| > 0) && (lsample < n ==> |r| > 0)
    requires Accounted(l, dl, fl) && Accounted(r, dr, fr)
    ensures var g := RunTwo(l, r, dl, dr, picks, k, n, lsample, both);
      Accounted(g.0, g.2, fl) && Accounted(g.1, g.3, fr)
  {
    RunTwoPhased(l, r, dl, dr, picks, k, n, lsample, both);
    if k < lsample {
      RunSideAccounted(l, r, dl, picks, k, lsample, false, both, fl);
      var a := RunSide(l, r, dl, picks, k, lsample, false, both);
      if a.3 {
        RunSideAccounted(a.1, a.0, dr, picks, lsample, n, true, both, fr);
      }
    } else {
      RunSideAccounted(r, l, dr, picks, k, n, true, both, fr);
    }
  }

  /** From drums holding the balls 1..lnumber and 1..rnumber, a two-drum game hands out
      no ball twice from either drum, and each within its drum's numbers. */
  lemma RunTwoFair(l: seq<int>, r: seq<int>, picks: seq<Pick>, n: nat, lsample: nat, both: bool,
                   lnumber: nat, rnumber: nat)
    requires Fed(picks, |l|, |r|) && lsample <= n && (lsample > 0 ==> |l| > 0) && (lsample < n ==> |r| > 0)
    requires Live(l) == multiset(Balls(lnumber)) && lnumber <= DSMAX
    requires Live(r) == multiset(Balls(rnumber)) && rnumber <= DSMAX
    ensures var g := RunTwo(l, r, [], [], picks, 0, n, lsample, both);
      FairDraw(g.2, lnumber) && FairDraw(g.3, rnumber)
  {
    RunTwoAccounted(l, r, [], [], picks, 0, n, lsample, both, Live(l), Live(r));
    var g := RunTwo(l, r, [], [], picks, 0, n, lsample, both);
    TakenFair(g.0, g.2, lnumber);
    TakenFair(g.1, g.3, rnumber);
  }

  /** A drum seeded with 1..number that has handed out `drawn` holds the rest. */
  lemma Remaining(pool: seq<int>, drawn: seq<int>, number: nat)
    requires Accounted(pool, drawn, multiset(Balls(number)))
    ensures |Live(pool)| == number - |drawn|
  {
    assert |multiset(Balls(number))| == |Balls(number)| == number;
  }

  /** The balls a stopped two-drum game leaves in `pool`, the drum it was drawing:
      with `at` picks done, the main drum has given min(at, lsample) of its balls and
      the second drum the rest, and a ball is left for the pick it stopped at. */
  ghost predicate DualLeft(o: Outcome, l: Machine, r: Machine, pool: seq<int>)
    reads l.v, r.v
  {
    !o.Won? ==>
      pool == (if o.at < l.sample then l.v[..] else r.v[..]) &&
      |Live(pool)| == (if o.at < l.sample then l.number - o.at else r.number - (o.at - l.sample)) &&
      |Live(pool)| >= 1
  }

  /** A two-drum game ended as the run g of its pick loop says: it is won exactly when
      the run handed out all n balls, and then those are the balls drawn, main drum's
      first; otherwise it stopped at the pick after the last ball handed out, and pool,
      the drum being drawn there, is as the run left it. */
  ghost predicate Follows(o: Outcome, pool: seq<int>, g: (seq<int>, seq<int>, seq<int>, seq<int>), lsample: nat, n: nat)
  {
    (o.Won? <==> |g.2| + |g.3| == n) &&
    (o.Won? ==> o.drawn == g.2 + g.3) &&
    (!o.Won? ==> o.at == |g.2| + |g.3| && pool == if o.at < lsample then g.0 else g.1)
  }

  /** How us_dream records its picks after i of them: dl, the main drum's balls, sit
      in v1 and the last of dr, the second drum's balls, is in the scalar v3. */
  ghost predicate UsRecorded(v1: array<int>, v3: int, i: nat, lsample: int, dl: seq<int>, dr: seq<int>)
    reads v1
  {
    |dl| == Min(i, lsample) && |dr| == i - |dl| && |dl| <= v1.Length &&
    v1[..|dl|] == dl && (|dr| > 0 ==> v3 == dr[|dr| - 1])
  }

  /** The books of us_dream after i picks: the picks are recorded, and both drums are
      accounted for. */
  ghost predicate UsBooks(l: Machine, r: Machine, v1: array<int>, v3: int, i: nat,
                          dl: seq<int>, dr: seq<int>, fl: multiset<int>, fr: multiset<int>)
    reads l.v, r.v, v1
  {
    UsRecorded(v1, v3, i, l.sample, dl, dr) &&
    Accounted(l.v[..], dl, fl) && Accounted(r.v[..], dr, fr)
  }

  /** Where pick i of us_dream puts its ball x: v1[i] while i < lsample, v3 after. */
  method FileUs(v1: array<int>, v3: int, i: nat, lsample: int, x: int, ghost dl: seq<int>, ghost dr: seq<int>)
    returns (v3': int, ghost dl': seq<int>, ghost dr': seq<int>)
    requires v1.Length == lsample && UsRecorded(v1, v3, i, lsample, dl, dr)
    modifies v1
    ensures UsRecorded(v1, v3', i + 1, lsample, dl', dr')
    ensures i < lsample ==> dl' == dl + [x] && dr' == dr && v1[..] == old(v1[..])[i := x]
    ensures i >= lsample ==> dl' == dl && dr' == dr + [x] && v3' == x && v1[..] == old(v1[..])
  {
    v3', dl', dr' := v3, dl, dr;
    if i < lsample {
      v1[i] := x;
      assert v1[..i + 1] == v1[..i] + [x];
      dl' := dl + [x];
    } else {
      v3' := x;
      dr' := dr + [x];
    }
  }

  /** Pick i of us_dream: both drums spin; the ball the rejection loop finds on the
      spun drum being drawn goes to v1[i] from the main drum while i < lsample, and to v3
      from the second drum after that, and its slot is emptied. */
  method PickUs(l: Machine, r: Machine, v1: array<int>, v3: int, p: Pick, i: nat,
                ghost dl: seq<int>, ghost dr: seq<int>)
    returns (quit: bool, ok: bool, v3': int, ghost dl': seq<int>, ghost dr': seq<int>, ghost spun: seq<int>)
    requires l.Valid() && r.Valid() && l.v != r.v && v1 != l.v && v1 != r.v
    requires v1.Length == l.sample && i < l.sample + r.sample
    requires Feeds(p.spins, l.size, DAINOBONNOU) && Feeds(p.twin, r.size, DAINOBONNOU)
    requires UsRecorded(v1, v3, i, l.sample, dl, dr)
    modifies l.v, r.v, v1
    ensures spun == if i < l.sample then Spun(old(l.v[..]), p.spins, Frames(p.keys)) else Spun(old(r.v[..]), p.twin, Frames(p.keys))
    ensures quit <==> QuitPressed(p)
    ensures quit ==> !ok
    ensures !quit && !ok ==> Exhausted(if i < l.sample then l.v[..] else r.v[..], p.before.nsec, p.after)
    ensures !ok ==> v3' == v3
    ensures (l.v[..], r.v[..], dl', dr', ok) == StepTwo(old(l.v[..]), old(r.v[..]), dl, dr, p, i < l.sample, true)
    ensures UsRecorded(v1, v3', if ok then i + 1 else i, l.sample, dl', dr')

  {
    var left := i < l.sample;
    var ball;
    quit, ball, spun := PickDual(l, r, p, left, true);
    v3', dl', dr' := v3, dl, dr;
    ok := ball.Some?;
    if ok {
      v3', dl', dr' := FileUs(v1, v3, i, l.sample, ball.value, dl, dr);
    }
  }

  /** Pick i of us_dream, as the pick loop sees it: either the game goes on to pick
      i + 1 with the books kept and the run from there ending where the run from i
      ends, or the game stops at i with the drums where that run ends. */
  method TurnUs(l: Machine, r: Machine, v1: array<int>, v3: int, picks: seq<Pick>, i: nat,
                ghost dl: seq<int>, ghost dr: seq<int>, ghost run: (seq<int>, seq<int>, seq<int>, seq<int>))
    returns (halt: Option<Outcome>, v3': int, ghost dl': seq<int>, ghost dr': seq<int>)
    requires l.Valid() && r.Valid() && l.v != r.v && v1 != l.v && v1 != r.v
    requires v1.Length == l.sample && i < l.sample + r.sample && i <= |picks|
    requires Fed(picks, l.size, r.size) && Calm(picks, i)
    requires UsRecorded(v1, v3, i, l.sample, dl, dr)
    requires RunTwo(l.v[..], r.v[..], dl, dr, picks, i, l.sample + r.sample, l.sample, true) == run
    modifies l.v, r.v, v1
    ensures halt.None? ==> i < |picks| && Calm(picks, i + 1) && UsRecorded(v1, v3', i + 1, l.sample, dl', dr')
    ensures halt.None? ==> RunTwo(l.v[..], r.v[..], dl', dr', picks, i + 1, l.sample + r.sample, l.sample, true) == run
    ensures halt.Some? ==> Stopped(halt.value, picks, l.sample + r.sample) && halt.value.at == i
    ensures halt.Some? ==> UsRecorded(v1, v3', i, l.sample, dl', dr') && (l.v[..], r.v[..], dl', dr') == run
    ensures halt.Some? ==> StallMeans(halt.value, picks, if i < l.sample then l.v[..] else r.v[..])
  {
    if i == |picks| {
      halt, v3', dl', dr' := Some(Stalled(i)), v3, dl, dr;
      return;
    }
    assert run == NextTwo(l.v[..], r.v[..], dl, dr, picks, i, l.sample + r.sample, l.sample, true)
               == PlayTwo(l.v[..], r.v[..], dl, dr, picks, i, l.sample + r.sample, l.sample, true);
    var quit, ok;
    ghost var spun;
    quit, ok, v3', dl', dr', spun := PickUs(l, r, v1, v3, picks[i], i, dl, dr);
    if ok {
      halt := None;
      CalmStep(picks, i);
    } else {
      halt := Some(if quit then Quit(i) else Stalled(i));
    }
  }

  /** The pick loop of us_dream. */
  method CollectUs(l: Machine, r: Machine, picks: seq<Pick>)
    returns (halt: Option<Outcome>, v1: array<int>, v3: int, ghost dl: seq<int>, ghost dr: seq<int>)
    requires l.Valid() && r.Valid() && l.v != r.v && Fed(picks, l.size, r.size)
    modifies l.v, r.v
    ensures fresh(v1) && v1.Length == l.sample
    ensures halt.None? ==> UsRecorded(v1, v3, l.sample + r.sample, l.sample, dl, dr)
    ensures halt.None? ==> l.sample + r.sample <= |picks| && Calm(picks, l.sample + r.sample)
    ensures halt.Some? ==> Stopped(halt.value, picks, l.sample + r.sample)
    ensures halt.Some? ==> UsRecorded(v1, v3, halt.value.at, l.sample, dl, dr)
    ensures RunTwo(old(l.v[..]), old(r.v[..]), [], [], picks, 0, l.sample + r.sample, l.sample, true) ==
      (l.v[..], r.v[..], dl, dr)
    ensures halt.Some? ==> StallMeans(halt.value, picks, if halt.value.at < l.sample then l.v[..] else r.v[..])
  {
    ghost var run := RunTwo(l.v[..], r.v[..], [], [], picks, 0, l.sample + r.sample, l.sample, true);
    v1 := new int[l.sample];
    v3 := 0;
    dl, dr := [], [];
    halt := None;
    var i := 0;
    while i < l.sample + r.sample && halt.None?
      invariant 0 <= i <= l.sample + r.sample
      invariant v1 != l.v && v1 != r.v
      invariant halt.None? ==> i <= |picks| && Calm(picks, i) && UsRecorded(v1, v3, i, l.sample, dl, dr)
      invariant halt.None? ==> RunTwo(l.v[..], r.v[..], dl, dr, picks, i, l.sample + r.sample, l.sample, true) == run
      invariant halt.Some? ==> Stopped(halt.value, picks, l.sample + r.sample) && halt.value.at == i
      invariant halt.Some? ==> UsRecorded(v1, v3, i, l.sample, dl, dr) && (l.v[..], r.v[..], dl, dr) == run
      invariant halt.Some? ==> StallMeans(halt.value, picks, if i < l.sample then l.v[..] else r.v[..])
      decreases l.sample + r.sample - i, if halt.None? then 1 else 0
    {
      halt, v3, dl, dr := TurnUs(l, r, v1, v3, picks, i, dl, dr, run);
      if halt.None? {
        i := i + 1;
      }
    }
  }

  /** The end of us_dream, on drums seeded with 1..number and books kept through all
      lsample + 1 picks: distsort(lsample, v1, v2) gives the winning numbers and v3 is
      shown as the one bonus number. */
  method AnnounceUs(l: Machine, r: Machine, v1: array<int>, v3: int,
                    ghost dl: seq<int>, ghost dr: seq<int>, ghost fl: multiset<int>, ghost fr: multiset<int>)
    returns (o: Outcome)
    requires l.Valid() && r.Valid() && v1.Length == l.sample && r.sample == 1
    requires l.number <= DSMAX && r.number <= DSMAX
    requires fl == multiset(Balls(l.number)) && fr == multiset(Balls(r.number))
    requires UsBooks(l, r, v1, v3, l.sample + 1, dl, dr, fl, fr)
    ensures o.Won? && |o.drawn| == l.sample + 1
    ensures FairDraw(o.drawn[..l.sample], l.number) && 1 <= o.drawn[l.sample] <= r.number
    ensures Announces(o, dl + dr, l.sample, 1)
  {
    TakenFair(l.v[..], dl, l.number);
    TakenFair(r.v[..], dr, r.number);
    var n := v1.Length;
    assert v1[..n] == dl && dr == [v3];
    var v2 := new int[n];
    DistSort(n, v1, v2);
    assert v2[..n] == v2[..];
    assert (dl + dr)[..n] == dl && (dl + dr)[n..] == [v3];
    o := Won(v2[..], [v3], v1[..] + [v3]);
  }

  /** us_dream from the first pick to the winning numbers and the bonus ball, for drums
      seeded with 1..number that hand out one bonus ball; `pool` is the drum being drawn
      when the game stops early. */
  method DrawUs(l: Machine, r: Machine, picks: seq<Pick>, ghost fl: multiset<int>, ghost fr: multiset<int>)
    returns (o: Outcome, ghost pool: seq<int>)
    requires l.Valid() && r.Valid() && l.v != r.v && l.number <= DSMAX && r.number <= DSMAX && r.sample == 1
    requires Live(l.v[..]) == fl && fl == multiset(Balls(l.number))
    requires Live(r.v[..]) == fr && fr == multiset(Balls(r.number))
    requires Fed(picks, l.size, r.size)
    modifies l.v, r.v
    ensures o.Won? ==> |o.drawn| == l.sample + 1 <= |picks| && Calm(picks, l.sample + 1)
    ensures o.Won? ==> FairDraw(o.drawn[..l.sample], l.number) && 1 <= o.drawn[l.sample] <= r.number
    ensures o.Won? ==> Announces(o, o.drawn, l.sample, 1)
    ensures !o.Won? ==> Stopped(o, picks, l.sample + 1)
    ensures DualLeft(o, l, r, pool) && StallMeans(o, picks, pool)
    ensures Follows(o, pool, RunTwo(old(l.v[..]), old(r.v[..]), [], [], picks, 0, l.sample + r.sample, l.sample, true),
                    l.sample, l.sample + r.sample)
  {
    var halt, v1, v3, dl, dr := CollectUs(l, r, picks);
    RunTwoAccounted(old(l.v[..]), old(r.v[..]), [], [], picks, 0, l.sample + r.sample, l.sample, true, fl, fr);
    if halt.Some? {
      o := halt.value;
      pool := if o.at < l.sample then l.v[..] else r.v[..];
      Remaining(pool, if o.at < l.sample then dl else dr, if o.at < l.sample then l.number else r.number);
      return;
    }
    pool := r.v[..];
    o := AnnounceUs(l, r, v1, v3, dl, dr, fl, fr);
  }

  /** us_dream for Powerball and Mega Millions. */
  method UsDream(v: Variant, picks: seq<Pick>) returns (o: Outcome, ghost pool: seq<int>)
    requires (v.Powerball? || v.MegaMillions?) && Fed(picks, Drum(v).size, Twin(v).size)
    ensures o.Won? ==> |o.drawn| == Draws(v) <= |picks| && Calm(picks, Draws(v))
    ensures o.Won? ==> FairDraw(o.drawn[..Drum(v).sample], Drum(v).number)
    ensures o.Won? ==> 1 <= o.drawn[Drum(v).sample] <= Twin(v).number
    ensures o.Won? ==> Announces(o, o.drawn, Drum(v).sample, Twin(v).sample)
    ensures !o.Won? ==> Stopped(o, picks, Draws(v))
    ensures !o.Won? ==> |Live(pool)| == (if o.at < Drum(v).sample then Drum(v).number - o.at else Twin(v).number)
    ensures !o.Won? ==> |Live(pool)| >= 1
    ensures StallMeans(o, picks, pool)
    ensures Follows(o, pool, RunTwo(Loaded(Drum(v)), Loaded(Twin(v)), [], [], picks, 0, Draws(v), Drum(v).sample, true),
                    Drum(v).sample, Draws(v))
  {
    TableFits(v);
    TableAccepted(v);
    var l := Build(Drum(v), Pair(if v.Powerball? then 14 else 16));
    var r := Build(Twin(v), Pair(if v.Powerball? then 11 else 13));
    assert l.v[..] == Loaded(Drum(v)) && r.v[..] == Loaded(Twin(v)) && l.sample + r.sample == Draws(v);
    o, pool := DrawUs(l, r, picks, Live(l.v[..]), Live(r.v[..]));
  }

  /** The books of a dual-drum game after i picks: dl came from l, dr from r, both are
      accounted for, and all of them are recorded in v1 and v3 in the order drawn. */
  ghost predicate DualBooks(l: Machine, r: Machine, v1: array<int>, v3: array<int>, i: nat,
                            dl: seq<int>, dr: seq<int>, fl: multiset<int>, fr: multiset<int>)
    reads l.v, r.v, v1, v3
  {
    EuRecorded(v1, v3, i, l.sample, dl, dr) &&
    Accounted(l.v[..], dl, fl) && Accounted(r.v[..], dr, fr)
  }

  /** How eu_dream records its picks after i of them: dl, the main drum's balls, then
      dr, the star drum's, in the order drawn across v1 and v3. */
  ghost predicate EuRecorded(v1: array<int>, v3: array<int>, i: nat, lsample: int, dl: seq<int>, dr: seq<int>)
    reads v1, v3
  {
    |dl| == Min(i, lsample) && |dr| == i - |dl| && Recorded(dl + dr, v1[..], v3[..])
  }

  /** Pick i of eu_dream: only the drum being drawn spins, the main drum while
      i < lsample and the star drum after that; the ball the rejection loop finds on it
      goes to v1[i] or v3[i - lsample], and its slot is emptied. */
  method PickEu(l: Machine, r: Machine, v1: array<int>, v3: array<int>, p: Pick, i: nat,
                ghost dl: seq<int>, ghost dr: seq<int>)
    returns (quit: bool, ok: bool, ghost dl': seq<int>, ghost dr': seq<int>, ghost spun: seq<int>)
    requires l.Valid() && r.Valid() && l.v != r.v && v1 != v3
    requires v1 != l.v && v1 != r.v && v3 != l.v && v3 != r.v
    requires v1.Length == l.sample && v3.Length == r.sample && i < l.sample + r.sample
    requires Feeds(p.spins, l.size, DAINOBONNOU) && Feeds(p.twin, r.size, DAINOBONNOU)
    requires EuRecorded(v1, v3, i, l.sample, dl, dr)
    modifies l.v, r.v, v1, v3
    ensures spun == if i < l.sample then Spun(old(l.v[..]), p.spins, Frames(p.keys)) else Spun(old(r.v[..]), p.twin, Frames(p.keys))
    ensures quit <==> QuitPressed(p)
    ensures quit ==> !ok
    ensures !quit && !ok ==> Exhausted(if i < l.sample then l.v[..] else r.v[..], p.before.nsec, p.after)
    ensures (l.v[..], r.v[..], dl', dr', ok) == StepTwo(old(l.v[..]), old(r.v[..]), dl, dr, p, i < l.sample, false)
    ensures EuRecorded(v1, v3, if ok then i + 1 else i, l.sample, dl', dr')

  {
    var left := i < l.sample;
    var ball;
    quit, ball, spun := PickDual(l, r, p, left, false);
    dl', dr' := dl, dr;
    ok := ball.Some?;
    if ok {
      if left {
        dl' := dl + [ball.value];
      } else {
        dr' := dr + [ball.value];
      }
    }
    if ok {
      Record(v1, v3, i, ball.value, dl + dr);
      Regroup(dl, dr, ball.value);
    }
  }

  /** Pick i of eu_dream, as the pick loop sees it: either the game goes on to pick
      i + 1 with the books kept and the run from there ending where the run from i
      ends, or the game stops at i with the drums where that run ends. */
  method TurnEu(l: Machine, r: Machine, v1: array<int>, v3: array<int>, picks: seq<Pick>, i: nat,
                ghost dl: seq<int>, ghost dr: seq<int>, ghost run: (seq<int>, seq<int>, seq<int>, seq<int>))
    returns (halt: Option<Outcome>, ghost dl': seq<int>, ghost dr': seq<int>)
    requires l.Valid() && r.Valid() && l.v != r.v && v1 != v3
    requires v1 != l.v && v1 != r.v && v3 != l.v && v3 != r.v
    requires v1.Length == l.sample && v3.Length == r.sample && i < l.sample + r.sample && i <= |picks|
    requires Fed(picks, l.size, r.size) && Calm(picks, i)
    requires EuRecorded(v1, v3, i, l.sample, dl, dr)
    requires RunTwo(l.v[..], r.v[..], dl, dr, picks, i, l.sample + r.sample, l.sample, false) == run
    modifies l.v, r.v, v1, v3
    ensures halt.None? ==> i < |picks| && Calm(picks, i + 1) && EuRecorded(v1, v3, i + 1, l.sample, dl', dr')
    ensures halt.None? ==> RunTwo(l.v[..], r.v[..], dl', dr', picks, i + 1, l.sample + r.sample, l.sample, false) == run
    ensures halt.Some? ==> Stopped(halt.value, picks, l.sample + r.sample) && halt.value.at == i
    ensures halt.Some? ==> EuRecorded(v1, v3, i, l.sample, dl', dr') && (l.v[..], r.v[..], dl', dr') == run
    ensures halt.Some? ==> StallMeans(halt.value, picks, if i < l.sample then l.v[..] else r.v[..])
  {
    if i == |picks| {
      halt, dl', dr' := Some(Stalled(i)), dl, dr;
      return;
    }
    assert run == NextTwo(l.v[..], r.v[..], dl, dr, picks, i, l.sample + r.sample, l.sample, false)
               == PlayTwo(l.v[..], r.v[..], dl, dr, picks, i, l.sample + r.sample, l.sample, false);
    var quit, ok;
    ghost var spun;
    quit, ok, dl', dr', spun := PickEu(l, r, v1, v3, picks[i], i, dl, dr);
    if ok {
      halt := None;
      CalmStep(picks, i);
    } else {
      halt := Some(if quit then Quit(i) else Stalled(i));
    }
  }

  /** The pick loop of eu_dream: pick i goes to v1[i] from the main drum while
      i < lsample, and to v3[i - lsample] from the star drum after that. */
  method CollectEu(l: Machine, r: Machine, picks: seq<Pick>)
    returns (halt: Option<Outcome>, v1: array<int>, v3: array<int>, ghost dl: seq<int>, ghost dr: seq<int>)
    requires l.Valid() && r.Valid() && l.v != r.v && Fed(picks, l.size, r.size)
    modifies l.v, r.v
    ensures fresh(v1) && fresh(v3) && v1.Length == l.sample && v3.Length == r.sample
    ensures halt.None? ==> EuRecorded(v1, v3, l.sample + r.sample, l.sample, dl, dr)
    ensures halt.None? ==> l.sample + r.sample <= |picks| && Calm(picks, l.sample + r.sample)
    ensures halt.Some? ==> Stopped(halt.value, picks, l.sample + r.sample)
    ensures halt.Some? ==> EuRecorded(v1, v3, halt.value.at, l.sample, dl, dr)
    ensures RunTwo(old(l.v[..]), old(r.v[..]), [], [], picks, 0, l.sample + r.sample, l.sample, false) ==
      (l.v[..], r.v[..], dl, dr)
    ensures halt.Some? ==> StallMeans(halt.value, picks, if halt.value.at < l.sample then l.v[..] else r.v[..])
  {
    ghost var run := RunTwo(l.v[..], r.v[..], [], [], picks, 0, l.sample + r.sample, l.sample, false);
    v1 := new int[l.sample];
    v3 := new int[r.sample];
    dl, dr := [], [];
    halt := None;
    var i := 0;
    while i < l.sample + r.sample && halt.None?
      invariant 0 <= i <= l.sample + r.sample
      invariant v1 != l.v && v1 != r.v && v3 != l.v && v3 != r.v
      invariant halt.None? ==> i <= |picks| && Calm(picks, i) && EuRecorded(v1, v3, i, l.sample, dl, dr)
      invariant halt.None? ==> RunTwo(l.v[..], r.v[..], dl, dr, picks, i, l.sample + r.sample, l.sample, false) == run
      invariant halt.Some? ==> Stopped(halt.value, picks, l.sample + r.sample) && halt.value.at == i
      invariant halt.Some? ==> EuRecorded(v1, v3, i, l.sample, dl, dr) && (l.v[..], r.v[..], dl, dr) == run
      invariant halt.Some? ==> StallMeans(halt.value, picks, if i < l.sample then l.v[..] else r.v[..])
      decreases l.sample + r.sample - i, if halt.None? then 1 else 0
    {
      halt, dl, dr := TurnEu(l, r, v1, v3, picks, i, dl, dr, run);
      if halt.None? {
        i := i + 1;
      }
    }
  }

  /** The end of eu_dream, on drums seeded with 1..number and books kept through all
      lsample + 2 picks: distsort gives the winning numbers, and the two stars are
      shown smaller first, by the omake rule with omake = 2. */
  method AnnounceEu(l: Machine, r: Machine, v1: array<int>, v3: array<int>,
                    ghost dl: seq<int>, ghost dr: seq<int>, ghost fl: multiset<int>, ghost fr: multiset<int>)
    returns (o: Outcome)
    requires l.Valid() && r.Valid() && v1.Length == l.sample && v3.Length == r.sample && r.sample == 2
    requires l.number <= DSMAX && r.number <= DSMAX
    requires fl == multiset(Balls(l.number)) && fr == multiset(Balls(r.number))
    requires DualBooks(l, r, v1, v3, l.sample + r.sample, dl, dr, fl, fr)
    ensures o.Won? && |o.drawn| == l.sample + r.sample
    ensures FairDraw(o.drawn[..l.sample], l.number) && FairDraw(o.drawn[l.sample..], r.number)
    ensures Announces(o, dl + dr, l.sample, r.sample)
  {
    TakenFair(l.v[..], dl, l.number);
    TakenFair(r.v[..], dr, r.number);
    assert (dl + dr)[..l.sample] == dl && (dl + dr)[l.sample..] == dr;
    assert InDomain(dl + dr);
    o := Announce(v1, v3, r.sample, dl + dr);
  }

  /** eu_dream from the first pick to the winning numbers and the two stars, for drums
      seeded with 1..number; `pool` is the drum being drawn when the game stops early. */
  method DrawEu(l: Machine, r: Machine, picks: seq<Pick>, ghost fl: multiset<int>, ghost fr: multiset<int>)
    returns (o: Outcome, ghost pool: seq<int>)
    requires l.Valid() && r.Valid() && l.v != r.v && l.number <= DSMAX && r.number <= DSMAX
    requires r.sample == 2
    requires Live(l.v[..]) == fl && fl == multiset(Balls(l.number))
    requires Live(r.v[..]) == fr && fr == multiset(Balls(r.number))
    requires Fed(picks, l.size, r.size)
    modifies l.v, r.v
    ensures o.Won? ==> |o.drawn| == l.sample + r.sample <= |picks| && Calm(picks, |o.drawn|)
    ensures o.Won? ==> FairDraw(o.drawn[..l.sample], l.number) && FairDraw(o.drawn[l.sample..], r.number)
    ensures o.Won? ==> Announces(o, o.drawn, l.sample, r.sample)
    ensures !o.Won? ==> Stopped(o, picks, l.sample + r.sample)
    ensures DualLeft(o, l, r, pool) && StallMeans(o, picks, pool)
    ensures Follows(o, pool, RunTwo(old(l.v[..]), old(r.v[..]), [], [], picks, 0, l.sample + r.sample, l.sample, false),
                    l.sample, l.sample + r.sample)
  {
    var halt, v1, v3, dl, dr := CollectEu(l, r, picks);
    RunTwoAccounted(old(l.v[..]), old(r.v[..]), [], [], picks, 0, l.sample + r.sample, l.sample, false, fl, fr);
    if halt.Some? {
      o := halt.value;
      pool := if o.at < l.sample then l.v[..] else r.v[..];
      Remaining(pool, if o.at < l.sample then dl else dr, if o.at < l.sample then l.number else r.number);
      return;
    }
    pool := r.v[..];
    o := AnnounceEu(l, r, v1, v3, dl, dr, fl, fr);
  }

  /** eu_dream from the first pick to the winning numbers and the two stars. */
  method EuDream(v: Variant, picks: seq<Pick>) returns (o: Outcome, ghost pool: seq<int>)
    requires v.EuroStyle? && Fed(picks, Drum(v).size, Twin(v).size)
    ensures o.Won? ==> |o.drawn| == Draws(v) <= |picks| && Calm(picks, Draws(v))
    ensures o.Won? ==> FairDraw(o.drawn[..Drum(v).sample], Drum(v).number)
    ensures o.Won? ==> FairDraw(o.drawn[Drum(v).sample..], Twin(v).number)
    ensures o.Won? ==> Announces(o, o.drawn, Drum(v).sample, Twin(v).sample)
    ensures !o.Won? ==> Stopped(o, picks, Draws(v))
    ensures !o.Won? ==> |Live(pool)| == (if o.at < Drum(v).sample then Drum(v).number - o.at
                                         else Twin(v).number - (o.at - Drum(v).sample))
    ensures !o.Won? ==> |Live(pool)| >= 1
    ensures StallMeans(o, picks, pool)
    ensures Follows(o, pool, RunTwo(Loaded(Drum(v)), Loaded(Twin(v)), [], [], picks, 0, Draws(v), Drum(v).sample, false),
                    Drum(v).sample, Draws(v))
  {
    TableFits(v);
    TableAccepted(v);
    var l := Build(Drum(v), Pair(11));
    var r := Build(Twin(v), Pair(13));
    assert l.v[..] == Loaded(Drum(v)) && r.v[..] == Loaded(Twin(v)) && l.sample + r.sample == Draws(v);
    o, pool := DrawEu(l, r, picks, Live(l.v[..]), Live(r.v[..]));
  }
}
