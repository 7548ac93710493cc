# garapon: the lottery draw engine, modelled in Dafny

garapon is a terminal lottery machine. Each game builds one or two drums
(`GARAPON` records). A drum is a pool of `size` slots with the balls `1..number` in
its first slots and 0 ("empty") elsewhere. The game then draws `sample` main
numbers and some bonus ("omake") numbers:

- While the operator watches, the drum is shuffled frame by frame with a
  Fisher-Yates pass, until Enter is pressed or 108 frames (`DAINOBONNOU`) have gone by.
- A slot is then chosen from the sub-second part of the time since the pick started,
  modulo the drum size.
- Empty slots are rejected by reading the clock again.
- The drawn ball is recorded and its slot is set to 0.

Once all balls are drawn, the main numbers are sorted by a counting sort (`distsort`)
and the bonus numbers are shown by a one-or-two rule.

The project models this engine as it is written in `garapon/garapon.c`, and the variant
table of `garapon/garapon.h`. It has one module per concern:

| module | file | models |
|---|---|---|
| `Header` | header.dfy | the constant table, `STEP`, `MIN`, `MAX`, the six games as a `Variant` |
| `Pool` | pool.dfy | the pool as a value: zero fill, seeding, slot removal, swap, a whole shuffle, many shuffles |
| `Machines` | machine.dfy | the `GARAPON` record as a class over an `array<int>`: `make_machine`, seeding, `shuffle`, the zeroing of a drawn slot |
| `Clock` | clock.dfy | `struct timespec` and `diffnsec` |
| `Picker` | picker.dfy | one pick: the animation loop, and the rejection loop with the removal of the ball |
| `Sorter` | distsort.dfy | `distsort` on arrays, proved against a reference sort (`Tally`) |
| `Presentation` | presentation.dfy | what `colorful` sets and returns, and the omake box rule |
| `Sessions` | sessions.dfy | the draw phase of `ja_dream`, `us_dream` and `eu_dream` |

The outside world arrives as values:

- `random()`/`rnd()` becomes a row of reals in `[0, 1)` per shuffle.
- Each `clock_gettime` reading becomes a `Stamp`.
- Each non-blocking `wgetch` during the animation becomes a `Key`.
- A game is played against a sequence of `Pick` values, one per pick. Each holds the
  keys, the random rows for both drums, the starting clock reading and the readings
  the rejection loop will see.

A game ends in one of three ways:

- `Won`, with the sorted winning numbers, the bonus numbers as shown, and the balls in
  the order drawn.
- `Quit`, when 'q' is pressed during the animation of a pick.
- `Stalled`, when the supplied picks run out, or when no 'q' was pressed and every
  clock reading of a pick points at an empty slot of the drum being drawn. That drum
  still holds a ball then, so the program itself would simply keep waiting.

The headline results:

- Every ball drawn from a drum is in `1..number`, and no ball is drawn twice.
  `Sessions.JaDream`, `Sessions.UsDream` and `Sessions.EuDream` state this through
  `FairDraw`.
- Each game ends as its pick loop run on values says: `RunOne` for `ja_dream`,
  `RunTwo` for the two-drum games. A game is won exactly when that run draws all its
  balls, and then it shows those balls. Otherwise it stops at the pick after the last
  ball drawn, and the drum being drawn is as the run left it. `RunTwoPhased` shows
  that `RunTwo` agrees with `RunPhased`, the same game played as two phases.
- The total number of picks is `sample + omake` for the Japanese games and
  `lsample + rsample` for the two-drum games.
- Draw `i` is recorded in `v1[i]` while `i < sample`, and in `v3` after that.
- The winning numbers are the ascending permutation of the main draws.
- `shuffle` is a permutation of the pool.
- `diffnsec` is the elapsed time modulo one second.

## Model

| member | source | states |
|---|---|---|
| Header.TableFits | garapon/garapon.h:13-37 | in every game, `0 <= bonus <= 2` and `sample + bonus <= number <= size`; every ball number is at most 67 and every size at most 108; the second drum draws one ball in Powerball and Mega Millions and two in the EuroStyle game |
| Header.Min | garapon/garapon.h:41-42 | `MIN(a, b)` is one of its arguments and no larger than either |
| Header.Max | garapon/garapon.h:43-44 | `MAX(a, b)` is one of its arguments and no smaller than either |
| Header.Drum | garapon/garapon.c:891-917 | the drum each game draws its main numbers from, with the table's size, number, sample and bonus; for the two-drum games these are the `lmachine` rows at garapon.c:549-572 and 725-729 |
| Header.Twin | garapon/garapon.c:725-734 | the second drum of a two-drum game: the star drum here, and the `rmachine` rows at garapon.c:554-572 for the US games |
| Pool.ZerosAreZero | garapon/garapon.c:44-47 | the `calloc`ed pool of n slots holds exactly n zeros |
| Pool.BallsOnce | garapon/garapon.c:937-938 | the seeded balls hold each of `1..n` exactly once and nothing else |
| Pool.SeededLive | garapon/garapon.c:937-938 | a seeded pool (balls `1..number`, then zeros up to size) holds exactly the balls `1..number` in its non-zero slots, `number` of them |
| Pool.TakeOne | garapon/garapon.c:990-991 | zeroing a non-empty slot removes exactly that one ball from the drum, and the drum holds one ball fewer |
| Pool.DrawnFromBalls | garapon/garapon.c:958-1005 | any balls taken out of a drum seeded with `1..n` are distinct and lie in `1..n` |
| Pool.UpdateTrades | garapon/garapon.c:990-991 | overwriting one slot trades its old value for the new one in the pool's multiset |
| Pool.SwapPermutes | garapon/garapon.c:174-176 | the three-assignment exchange through `temp` keeps the pool's multiset |
| Pool.SwapIndex | garapon/garapon.c:173 | the swap partner `(size_t) ((i + 1) * rnd())` satisfies `j <= i` for any random in `[0, 1)` |
| Pool.ShuffleFromPermutes | garapon/garapon.c:172-177 | the passes i down to 1 keep the pool's length and multiset |
| Pool.ShufflePermutes | garapon/garapon.c:168-178 | a whole shuffle keeps the pool's length, its multiset and so its balls |
| Pool.SpunPermutes | garapon/garapon.c:964-965 | any number of animation frames leaves the pool's multiset and its balls as they were |
| Machines.SizeAsInt | garapon/garapon.c:91 | `(int) n` is the low 32 bits of n in two's complement: it is congruent to n modulo 2^32 and equals n below 2^31 |
| Machines.Accepts | garapon/garapon.c:91 | `make_machine`'s check only passes when `0 <= bonus <= sample <= num <= n`, and for n below 2^31 it passes exactly then |
| Machines.MakeMachine | garapon/garapon.c:87-102 | null exactly when the check fails; otherwise a fresh machine holding the given fields and a pool of n zero slots |
| Machines.Machine.constructor | garapon/garapon.c:93-100 | stores size, number, sample, omake and colour, and allocates an all-zero pool of n slots |
| Machines.Machine.Seed | garapon/garapon.c:937-938 | `v[i] == i + 1` for every `i < number`, and every later slot keeps its value |
| Machines.Machine.Shuffle | garapon/garapon.c:168-178 | the pool becomes `Shuffled(old pool, randoms)`, a permutation of the old pool; an empty pool is left alone |
| Machines.Machine.Take | garapon/garapon.c:990-991 | returns the slot's ball and sets only that slot to 0 |
| Machines.SeededMachine | garapon/garapon.c:937-938 | a made and seeded machine holds the balls `1..number` among its non-zero slots |
| Machines.EmptyPoolShuffleOverruns | garapon/garapon.c:172 | `make_machine(0, 0, 0, 0, _)` is accepted, and on that pool shuffle's first `i` is `SIZE_MAX`; for any other size it is `size - 1` |
| Clock.SubSecond | garapon/garapon.c:495-497 | for nanosecond fields in `[0, 1e9)`, the delta lies in `[0, 1e9)` and is `(after - before) mod 1e9` |
| Clock.DropsWholeSeconds | garapon/garapon.c:493-499 | the delta is the whole elapsed time modulo one second: the seconds fields are ignored |
| Clock.ExactBelowOneSecond | garapon/garapon.c:493-499 | when less than one second has passed, the delta is exactly the elapsed nanoseconds |
| Clock.Timespec.Load | garapon/garapon.c:983 | `clock_gettime` fills both fields from the reading |
| Clock.DiffNsec | garapon/garapon.c:493-499 | returns the sub-second delta and also writes it into `after.tv_nsec`; `after.tv_sec` is untouched |
| Picker.FramesFromStop | garapon/garapon.c:964-978 | the animation runs from frame f to the first frame after which a key is read, and never past `DAINOBONNOU`: every frame before the last reads no key |
| Picker.FramesStop | garapon/garapon.c:964-978 | a pick shows between 1 and 108 frames; all frames but the last read no key, and the last reads Enter or 'q' unless the cap was reached |
| Picker.FramesUnique | garapon/garapon.c:964-978 | the number of frames is determined by the keys alone |
| Picker.Spin | garapon/garapon.c:964-978 | shuffles the drum exactly `Frames(keys)` times; reports 'q' exactly when the last key read is 'q'; the drum keeps its balls |
| Picker.ShuffleBoth | garapon/garapon.c:622-623 | one frame of us_dream: each drum becomes its own shuffle with its own randoms |
| Picker.SpinBoth | garapon/garapon.c:621-638 | shuffles both drums `Frames(keys)` times each, in step; reports 'q' exactly when the last key read is 'q'; both drums keep their balls |
| Picker.ToSize | garapon/garapon.c:985-986 | the `long`-to-`size_t` conversion is the value modulo 2^64, and the identity on non-negative values below 2^64 |
| Picker.Slot | garapon/garapon.c:985-986 | `diffnsec(...) % size` is a slot index below size |
| Picker.FirstHit | garapon/garapon.c:982-987 | the slot the rejection loop settles on, if any reading finds one, is in range and holds a ball |
| Picker.FirstHitNone | garapon/garapon.c:982-987 | the rejection loop finds no slot exactly when every reading points at an empty slot |
| Picker.Select | garapon/garapon.c:982-987 | the loop stops at the first reading whose slot holds a ball, which is `FirstHit` of the readings; every earlier reading pointed at an empty slot; when no reading finds a ball, all of them pointed at empty slots |
| Picker.Draw | garapon/garapon.c:982-991 | the slot chosen is `FirstHit` of the readings on the drum as it stands; on success exactly that slot is zeroed, the ball is non-zero, and it leaves the drum's multiset of balls; otherwise the drum is unchanged |
| Sorter.TallyPermutes | garapon/garapon.c:218-233 | the reference sort of values in `[0, 100]` is a permutation of its input |
| Sorter.TallySorted | garapon/garapon.c:218-233 | the reference sort is ascending |
| Sorter.TallyInDomain | garapon/garapon.c:218-233 | the reference sort stays in `[0, 100]` |
| Sorter.TallyByCounts | garapon/garapon.c:218-233 | the result depends only on how often each value occurs, so input order is irrelevant |
| Sorter.TallyIdempotent | garapon/garapon.c:218-233 | sorting a sorted result returns it unchanged |
| Sorter.CountKeys | garapon/garapon.c:224-227 | after the first two passes, `count[c]` is the number of keys equal to `c` in `a[0..n)` |
| Sorter.Accumulate | garapon/garapon.c:228-229 | after the prefix sums, `count[c]` is the end of key c's run in the sorted output |
| Sorter.Place | garapon/garapon.c:230-233 | the backward pass leaves each count at the start of its run, with every slot of every run filled with its key |
| Sorter.DistSort | garapon/garapon.c:218-233 | `b[0..n)` becomes the reference sort of `a[0..n)`, ascending and a permutation of it; `a` and `b[n..]` are untouched |
| Presentation.CRem | garapon/garapon.c:125 | C's `%` by a positive divisor: quotient times divisor plus remainder gives the dividend, and the remainder has the dividend's sign |
| Presentation.ColorPair | garapon/garapon.c:122-125 | pair 10 for an empty slot; for a ball n, pair `n % 7 + 1` in `1..7` |
| Presentation.Colorful | garapon/garapon.c:118-127 | returns its argument unchanged; the pair it sets is in `1..7` or is 10, for any non-negative argument |
| Presentation.ColorsCycle | garapon/garapon.c:125 | two balls share a colour exactly when they are a multiple of 7 apart |
| Presentation.BonusShown | garapon/garapon.c:1021-1029 | one bonus is shown as drawn; two are shown as `MIN` then `MAX`, ascending and the same two numbers; any other count shows nothing |
| Presentation.BonusOrderFree | garapon/garapon.c:852-853 | the two shown numbers do not depend on the order the bonus balls came out in |
| Presentation.BonusCountsCovered | garapon/garapon.c:1021-1029 | for every bonus count in the table, the box shows all bonus balls, no more and no fewer |
| Sessions.TableAccepted | garapon/garapon.h:13-37 | with `BONNOU` 0, every drum of every game passes `make_machine`'s check |
| Sessions.TakenFair | garapon/garapon.c:958-1005 | whatever has left a drum seeded with `1..number` is distinct, in `1..number`, and within distsort's domain |
| Sessions.Build | garapon/garapon.c:911-938 | a made and seeded drum holds exactly the balls `1..number` and the fields of its table row |
| Sessions.Hit | garapon/garapon.c:982-991 | the rejection loop on a still drum yields no ball exactly when every reading points at an empty slot, and otherwise a ball that is in the drum |
| Sessions.Settle | garapon/garapon.c:982-991 | the ball handed out is `Hit` of the readings on the drum; on a hit exactly its slot is zeroed, on a miss the drum is unchanged; the balls left plus the balls drawn are still the balls the drum was seeded with |
| Sessions.PickOne | garapon/garapon.c:961-991 | the drum is shuffled `Frames(keys)` times; 'q' is reported exactly when pressed and then nothing is drawn; otherwise the ball is `Hit` of the readings on the shuffled drum, only its slot is zeroed, and the books stay balanced |
| Sessions.Record | garapon/garapon.c:989-1002 | draw i goes to `v1[i]` while `i < sample` and to `v3[i - sample]` after that; nothing else in the two vectors changes |
| Sessions.PickSingle | garapon/garapon.c:958-1002 | pick i of ja_dream spins the drum; the ball the rejection loop finds on the spun drum is recorded at position i of v1 then v3 and accounted for, and only its slot is emptied; the pick fails only on 'q' or when every reading points at an empty slot of the spun drum, which is then left as spun |
| Sessions.Loaded | garapon/garapon.c:911-938 | the pool of a drum just made and seeded holds `size` slots whose balls are exactly `1..number` |
| Sessions.TurnedKeeps | garapon/garapon.c:961-991 | one pick on values, after its animation, loses no ball of the drum but the one it hands out, and that ball is not 0 |
| Sessions.RunAppends | garapon/garapon.c:958-1002 | ja_dream's pick loop on values only appends: it keeps the balls drawn before and draws at most one ball per pick |
| Sessions.RunAccounted | garapon/garapon.c:958-1002 | the pick loop on values loses no ball: the balls left in the drum and the balls drawn are the balls it started with |
| Sessions.RunFair | garapon/garapon.c:937-1002 | from a drum seeded with `1..number`, the pick loop on values draws no ball twice and each in `1..number` |
| Sessions.CollectSingle | garapon/garapon.c:955-1005 | completes `sample + omake` picks, all recorded in order in v1 then v3 and accounted for; a game stopped at pick `at` has its `at` balls recorded and accounted for, had no 'q' before `at`, and a stall there means no 'q' and every reading of that pick pointed at an empty slot; the drum and the balls drawn are where `RunOne` of the seeded drum ends |
| Sessions.Announce | garapon/garapon.c:1009-1029 | the winning numbers are distsort of the main draws, ascending and a permutation of them; the omake box shows the bonus draws by the one-or-two rule |
| Sessions.DrawSingle | garapon/garapon.c:955-1029 | a won game has drawn `sample + omake` distinct balls of `1..number`, and shows them as above; otherwise it stopped on 'q' or a stall as above, with `number - at` balls still in the drum; the game is won exactly when `RunOne` draws all balls, the balls shown are the ones it draws, and a game stopped at `at` leaves the drum as `RunOne` does, with `at` balls drawn |
| Sessions.JaDream | garapon/garapon.c:874-1029 | the same, for Mini Loto, Loto 6 and Loto 7 from the table, with `RunOne` started on the freshly seeded drum; a game cut short at pick `at` still had at least one ball in the drum |
| Sessions.Animate | garapon/garapon.c:784-803 | both drums are shuffled `Frames(keys)` times in us_dream; in eu_dream only the drum being drawn is, and the other is unchanged; 'q' is reported exactly when pressed; both drums keep their balls |
| Sessions.PickDual | garapon/garapon.c:781-833 | the ball is `Hit` of the readings on the drum being drawn after its animation, the main drum while i < lsample and the second drum after that; on a miss that drum is as the animation left it; the other drum is shuffled (us_dream) or unchanged (eu_dream) and loses nothing |
| Sessions.Remaining | garapon/garapon.c:990-991 | a drum seeded with `1..number` that has handed out k balls holds `number - k` |
| Sessions.StepTwo | garapon/garapon.c:615-671 | one two-drum pick on values keeps both drums' sizes; it draws from the main drum or the second drum and spins the other one in us_dream only (eu_dream's pick, garapon.c:778-838, leaves it still); this and the rows down to `RunTwoFair` cover both games |
| Sessions.RunTwo | garapon/garapon.c:613-671 | the two-drum pick loop on values, pick by pick, keeps both drums' sizes; `RunTwoPhased` relates it to the phased reference |
| Sessions.NextTwo | garapon/garapon.c:613-671 | pick k of that loop when draws remain keeps both drums' sizes; it stalls when no pick k is supplied |
| Sessions.PlayTwo | garapon/garapon.c:615-671 | pick k of that loop, followed by the rest of the game unless it handed out nothing, keeps both drums' sizes |
| Sessions.RunSide | garapon/garapon.c:615-671 | one phase of a two-drum game on values, all picks from one drum, keeps both drums' sizes and says whether all its picks drew a ball |
| Sessions.RunSideAccounted | garapon/garapon.c:615-671 | a phase loses no ball of the drum it draws from but those it hands out, and none of the drum that only spins |
| Sessions.RunPhased | garapon/garapon.c:613-671 | the reference two-drum game: `lsample` picks from the main drum, then the rest from the second one only if the first phase drew all its balls; it keeps both drums' sizes |
| Sessions.RunPhasedStep | garapon/garapon.c:615-671 | pick k of the phased game is one `StepTwo`: on a ball the game goes on from what that step leaves, otherwise it ends there |
| Sessions.RunTwoPhased | garapon/garapon.c:613-671 | pick by pick (`RunTwo`) and phase by phase (`RunPhased`) a two-drum game ends in the same state |
| Sessions.RunTwoAccounted | garapon/garapon.c:613-671 | in a two-drum game on values neither drum loses a ball but the ones it hands out |
| Sessions.RunTwoFair | garapon/garapon.c:595-671 | from drums seeded with `1..lnumber` and `1..rnumber`, a two-drum game on values draws no ball twice from either drum, each within its drum's numbers |
| Sessions.PickUs | garapon/garapon.c:615-671 | both drums spin; the ball the rejection loop finds on the spun drum being drawn goes to `v1[i]` from the main drum or overwrites the scalar `v3` from the second drum, and only its slot is emptied; the other drum is left as spun; the pick fails only on 'q' or when every reading points at an empty slot of the spun drum |
| Sessions.FileUs | garapon/garapon.c:651-661 | ball i goes to `v1[i]` while i < lsample and into `v3` after that; nothing else in v1 changes |
| Sessions.TurnUs | garapon/garapon.c:615-671 | pick i of us_dream either lets the game go on to pick i + 1 with the books kept and `RunTwo` from there ending where it ended from i, or stops the game at i on 'q' or a stall with the drums and balls where that run ends |
| Sessions.CollectUs | garapon/garapon.c:613-671 | completes `lsample + rsample` picks, the main balls in v1 in order and the last second-drum ball in v3; a game stopped at pick `at` has its books kept to `at`, and a stall there means no 'q' and every reading pointed at an empty slot of the drum being drawn; the drums and the balls drawn are where `RunTwo` of the seeded drums ends |
| Sessions.AnnounceUs | garapon/garapon.c:675-686 | after all picks, the main balls are distinct and in `1..lnumber` and the bonus ball in `1..rnumber`; the winning numbers are distsort of v1, ascending and a permutation; v3 is shown as the single bonus number |
| Sessions.DrawUs | garapon/garapon.c:595-686 | a won game has `lsample` distinct main balls in `1..lnumber` and one bonus ball in `1..rnumber`, shown as above; a game stopped at pick `at` leaves the drum being drawn with its seeded balls less those drawn from it, at least one; the game is won exactly when `RunTwo` draws all balls, the balls shown are the ones it draws, and a stopped game leaves the drum being drawn as `RunTwo` does (`Follows`) |
| Sessions.UsDream | garapon/garapon.c:547-686 | the same, for Powerball and Mega Millions from the table, with `RunTwo` started on the freshly seeded drums |
| Sessions.PickEu | garapon/garapon.c:778-838 | only the drum being drawn spins and the other is unchanged; the ball the rejection loop finds on the spun drum goes to `v1[i]` or `v3[i - lsample]`, and only its slot is emptied; the books stay balanced; the pick fails only on 'q' or when every reading points at an empty slot of the spun drum |
| Sessions.TurnEu | garapon/garapon.c:778-838 | pick i of eu_dream either lets the game go on to pick i + 1 with the books kept and `RunTwo` from there ending where it ended from i, or stops the game at i on 'q' or a stall with the drums and balls where that run ends |
| Sessions.CollectEu | garapon/garapon.c:775-838 | completes `lsample + rsample` picks, all recorded in order in v1 then v3 and accounted for; a game stopped at pick `at` has its books kept to `at`, and a stall there means no 'q' and every reading pointed at an empty slot of the drum being drawn; the drums and the balls drawn are where `RunTwo` of the seeded drums ends |
| Sessions.AnnounceEu | garapon/garapon.c:842-853 | after the `lsample + 2` picks, the main balls and the two stars are each distinct and within their drum; the balls shown are the main balls then the stars, in the order drawn; the winning numbers are distsort of v1, and the two stars are shown smaller first |
| Sessions.DrawEu | garapon/garapon.c:757-853 | a won game has `lsample` distinct balls of `1..lnumber`, then two distinct stars of `1..rnumber`, shown as above; a game stopped at pick `at` leaves the drum being drawn with its seeded balls less those drawn from it, at least one; the outcome and that drum follow `RunTwo` as in `Sessions.DrawUs` |
| Sessions.EuDream | garapon/garapon.c:723-853 | for the table's Euro-style row (5 balls of `1..47`, 2 stars of `1..9`), a won game has distinct main balls of the main drum's numbers and distinct stars of the star drum's; the winning numbers are sorted and the stars are shown as `MIN`, `MAX`; a game cut short had its seeded balls less those drawn left in the drum it was drawing, at least one; the outcome follows `RunTwo` started on the freshly seeded drums |

## Left out

- The ncurses display (`printvec`, `print_mid`, `print_item_name`, `nowsleep`, windows
  and colour setup, `init_game_menu`) is left out. It only paints. The colour a
  machine is made with is kept as an opaque `Color` value.
- The blocking `wgetch` loops before the first pick ("Press <Enter> key") and after the
  result ("'r' to retry, 'q' to exit") are left out, as is the `main` menu loop
  dispatching to the games.
- A 'q' press ends the process through `finish(0)`. The model returns a `Quit`
  outcome instead.
- `rnd()` and `random()` are left out: floating point over a library PRNG. Each
  shuffle receives its randoms as a row of reals in `[0, 1)`; uniformity is not
  modelled.
- `clock_gettime` is left out. Its readings are inputs, and its failure path
  (`err(1, NULL)`) is not modelled.
- The rejection loop has no upper bound in the source. The model gives each pick a
  finite sequence of readings and reports `Stalled` when they all point at empty slots.
- Allocation failures (`new_machine` returning NULL, `err` in `new_vector`),
  `signal(SIGINT, finish)` and `finish` are left out.
- `bonnou.h` is not part of this model. `BONNOU` 0 and `DAINOBONNOU` 108 are used.
- The `default:` branches of the games' `switch`, which leave the machine pointers
  NULL, are left out. From the menu they cannot be reached, so the model never
  builds such a game.
- `free_vector` and `free_machine` are left out, and so are `makepoint`, `num_mid`
  and the tray positions. They are memory release and layout only.
- `distsort`'s `count` array is `static`. The model allocates it afresh for each call,
  because the source clears it before use.
- Stability of `distsort` is not stated: for `int` keys equal values cannot be told
  apart, so the output is determined by the multiset.
- `napms(30)` and the frame timing are left out.
- Header.Step: `STEP(a)` is defined as the macro writes it, `a * 3`, with no contract of its
  own. It only places numbers on the screen, and a contract would repeat its body.
- Sessions.DrawUs: requires the second drum to draw exactly one ball, as both US games
  in the table do. With more, the source's scalar `v3` would show only the last one.
- Presentation.Colorful: for a negative argument it states only that the pair is
  C's `n % 7 + 1`; pool values are never negative.
- The return to the menu is left out. After 'r', a game frees its drums and vectors
  and returns (garapon.c:1033-1046, 689-701, 856-870). `main` then shows the game menu
  again (garapon.c:1069-1115). Each of `Sessions.JaDream`, `Sessions.UsDream` and
  `Sessions.EuDream` models one playthrough, from the first pick to the result.

Three behaviours of the source worth noting:

- A 'q' during a game exits the whole process. It does not return to the menu.
- A bonus count other than 1 or 2 shows no bonus at all in `ja_dream`. It does not
  show them in draw order.
- Seeding writes only the first `number` slots. The rest keep what they held, which is
  0 only because the pool was just `calloc`ed.

## Findings

| source | as written | input that shows it | evidently intended | confidence | as-written member | corrected member |
|---|---|---|---|---|---|---|
| garapon/garapon.c:172 | `for (i = machine->size - 1; i > 0; --i)` with `size_t i`; `make_machine` accepts `n == 0` | `make_machine(0, 0, 0, 0, c)` then `shuffle`: `i` starts at `SIZE_MAX`, passes `i > 0`, and `v[i]` is read and written outside an empty pool. No game of the menu reaches it, since the table's sizes are 54, 70 and 108; and where `calloc(0, ...)` returns NULL, `new_vector` (garapon.c:50-57) exits before any shuffle | an empty pool is left as it is | not executed | Machines.EmptyPoolShuffleOverruns | Machines.Machine.Shuffle |
