// The constant table and expression macros of garapon.h, with the default
// BONNOU of 0 (the alternative bonnou.h is not part of this model).

module Header {

  const BONNOU: int := 0
  /** Frames of shuffle animation shown per pick before the draw goes ahead. */
  const DAINOBONNOU: nat := 108

  const US_SIZE: nat := 108
  const PMAIN_N: int := 66 + BONNOU
  const PMAIN_S: int := 5
  const POWER_N: int := 23 + BONNOU
  const POWER_S: int := 1
  const MMAIN_N: int := 67 + BONNOU
  const MMAIN_S: int := 5
  const MEGA_N: int := 22 + BONNOU
  const MEGA_S: int := 1
  const EU_SIZE: nat := 108
  const LS_SIZE: nat := 54
  const SMAIN_N: int := 47 + BONNOU
  const SMAIN_S: int := 5
  const STARS_N: int := 9 + BONNOU
  const STARS_S: int := 2
  const JA_SIZE: nat := 70
  const MIN_L_N: int := 28 + BONNOU
  const MIN_L_S: int := 5
  const MIN_L_O: int := 1
  const L_SIX_N: int := 40 + BONNOU
  const L_SIX_S: int := 6
  const L_SIX_O: int := 1
  const L_SEV_N: int := 34 + BONNOU
  const L_SEV_S: int := 7
  const L_SEV_O: int := 2

  /** STEP(a): the column offset of the a-th number printed in a tray. */
  function Step(a: int): int { a * 3 }

  /** MIN(a, b) */
  function Min(a: int, b: int): (r: int)
    ensures r <= a && r <= b
    ensures r == a || r == b
  {
    if a < b then a else b
  }

  /** MAX(a, b) */
  function Max(a: int, b: int): (r: int)
    ensures r >= a && r >= b
    ensures r == a || r == b
  {
    if a > b then a else b
  }

  /** The arguments one drum is built with: make_machine(size, number, sample, bonus, _). */
  datatype Config = Config(size: nat, number: int, sample: int, bonus: int)

  /** The six games of the menu. */
  datatype Variant = MiniLoto | LotoSix | LotoSeven | Powerball | MegaMillions | EuroStyle
  {
    /** Games played with a single drum that also supplies the bonus ("omake") balls. */
    predicate Japanese() { MiniLoto? || LotoSix? || LotoSeven? }
    /** Games played with a main drum and a second drum. */
    predicate DualDrum() { !Japanese() }
  }

  /** The drum a game draws its main numbers from (the only drum of a Japanese game). */
  function Drum(v: Variant): Config
  {
    match v
    case MiniLoto => Config(JA_SIZE, MIN_L_N, MIN_L_S, MIN_L_O)
    case LotoSix => Config(JA_SIZE, L_SIX_N, L_SIX_S, L_SIX_O)
    case LotoSeven => Config(JA_SIZE, L_SEV_N, L_SEV_S, L_SEV_O)
    case Powerball => Config(US_SIZE, PMAIN_N, PMAIN_S, 0)
    case MegaMillions => Config(US_SIZE, MMAIN_N, MMAIN_S, 0)
    case EuroStyle => Config(EU_SIZE, SMAIN_N, SMAIN_S, 0)
  }

  /** The second drum of a dual-drum game. */
  function Twin(v: Variant): Config
    requires v.DualDrum()
  {
    match v
    case Powerball => Config(US_SIZE, POWER_N, POWER_S, 0)
    case MegaMillions => Config(US_SIZE, MEGA_N, MEGA_S, 0)
    case EuroStyle => Config(LS_SIZE, STARS_N, STARS_S, 0)
  }

  /** The number of picks one playthrough performs. */
  function Draws(v: Variant): int
  {
    if v.Japanese() then Drum(v).sample + Drum(v).bonus
    else Drum(v).sample + Twin(v).sample
  }

  /** Facts about the table the draw engine relies on: every drum passes make_machine's
      ordering check with room to spare for all its picks, no ball exceeds distsort's
      domain, and no game has more than two bonus or second-drum numbers. */
  lemma TableFits(v: Variant)
    ensures 0 <= Drum(v).bonus <= 2
    ensures 0 <= Drum(v).sample && Drum(v).sample + Drum(v).bonus <= Drum(v).number <= Drum(v).size
    ensures Drum(v).number <= 67 && Drum(v).size <= 108
    ensures v.Japanese() ==> 1 <= Drum(v).bonus
    ensures v.DualDrum() ==> Drum(v).bonus == 0 && 1 <= Twin(v).sample <= 2
    ensures v.DualDrum() ==> Twin(v).sample <= Twin(v).number <= Twin(v).size <= 108 && Twin(v).number <= 67
    ensures v.EuroStyle? <==> v.DualDrum() && Twin(v).sample == 2
  {
    match v
    case MiniLoto =>
    case LotoSix =>
    case LotoSeven =>
    case Powerball =>
    case MegaMillions =>
    case EuroStyle =>
  }
}
