/**
 Realm tables, attribute clamps and lifespan caps of the cultivation game.
 Realms are indices into the source's realm order: 0 is Qi Refining and 8 is
 Ascension. Probabilities are thousandths, roll comparisons and year products are
 exact, so no floating point occurs here.
 */
module GameConstants {
  datatype Option<+T> = None | Some(value: T)

  /** The fixed meaning of the slots A, B, C and D. */
  datatype Category = Steady | Chance | Risk | Fate

  datatype Difficulty = Easy | Normal | Hard

  /** Preparation keys that gate a breakthrough. */
  datatype Aid =
    | FoundationAid | GoldenCoreAid | NascentSoulAid | SpiritTransformationAid
    | UnityLawAid | MahayanaVowAid | TribulationPreparation
    | TribulationElixir | AscensionProtection

  datatype Attributes = Attributes(
    rootBone: int, comprehension: int, luck: int, willpower: int, physique: int, soul: int)

  const QI_REFINING: RealmIndex := 0
  const ASCENSION: RealmIndex := 8

  type RealmIndex = r: nat | r <= 8

  const ATTRIBUTE_MAX := 10
  const ATTRIBUTE_TOTAL := 30
  const NO_CHANGE := Attributes(0, 0, 0, 0, 0, 0)

  function Max(a: int, b: int): int { if a < b then b else a }

  function Min(a: int, b: int): int { if a < b then a else b }

  function Clamp(low: int, high: int, v: int): int { Max(low, Min(high, v)) }

  /** The last `n` elements, or all of them when there are fewer. */
  function Tail<T>(s: seq<T>, n: nat): (r: seq<T>)
    ensures |r| == if |s| <= n then |s| else n
    ensures forall x :: x in r ==> x in s
  {
    if |s| <= n then s else s[|s| - n..]
  }

  ghost predicate NoRepeats<T>(s: seq<T>) { forall i, j :: 0 <= i < j < |s| ==> s[i] != s[j] }

  function AddNew<T(==,!new)>(s: seq<T>, x: T): (r: seq<T>)
    ensures forall y :: y in r <==> y in s || y == x
  {
    if x in s then s else s + [x]
  }

  // ---- Attributes ----------------------------------------------------------

  /** New values live on 0..10; larger ones are legacy 0..100 values. */
  function NormalizeAttribute(v: int): (r: int)
    ensures 0 <= r <= ATTRIBUTE_MAX
    ensures 0 <= v <= ATTRIBUTE_MAX ==> r == v
  {
    if v <= ATTRIBUTE_MAX then Clamp(0, ATTRIBUTE_MAX, v)
    else Clamp(0, ATTRIBUTE_MAX, (Min(100, v) + 5) / 10)
  }

  predicate InScale(a: Attributes) {
    && 0 <= a.rootBone <= ATTRIBUTE_MAX && 0 <= a.comprehension <= ATTRIBUTE_MAX
    && 0 <= a.luck <= ATTRIBUTE_MAX && 0 <= a.willpower <= ATTRIBUTE_MAX
    && 0 <= a.physique <= ATTRIBUTE_MAX && 0 <= a.soul <= ATTRIBUTE_MAX
  }

  function ShiftAttribute(v: int, change: int): (r: int)
    ensures 0 <= r <= ATTRIBUTE_MAX
    ensures 0 <= v <= ATTRIBUTE_MAX && 0 <= change ==> v <= r
  {
    Clamp(0, ATTRIBUTE_MAX, NormalizeAttribute(v) + change)
  }

  function ShiftAttributes(a: Attributes, d: Attributes): (r: Attributes)
    ensures InScale(r)
  {
    Attributes(
      ShiftAttribute(a.rootBone, d.rootBone),
      ShiftAttribute(a.comprehension, d.comprehension),
      ShiftAttribute(a.luck, d.luck),
      ShiftAttribute(a.willpower, d.willpower),
      ShiftAttribute(a.physique, d.physique),
      ShiftAttribute(a.soul, d.soul))
  }

  function NormalizeAttributes(a: Attributes): (r: Attributes)
    ensures InScale(r)
    ensures InScale(a) ==> r == a
  {
    ShiftAttributes(a, NO_CHANGE)
  }

  function AddAttributes(a: Attributes, b: Attributes): Attributes {
    Attributes(a.rootBone + b.rootBone, a.comprehension + b.comprehension, a.luck + b.luck,
               a.willpower + b.willpower, a.physique + b.physique, a.soul + b.soul)
  }

  function Aptitude(a: Attributes): int { a.rootBone + a.comprehension + a.luck }

  // ---- Realms --------------------------------------------------------------

  function Stages(realm: RealmIndex): (n: nat)
    ensures 1 <= n <= 9
  {
    if realm == QI_REFINING then 9 else if realm == ASCENSION then 1 else 4
  }

  /** The gates of a realm's breakthrough; rule preparation grants the same keys. */
  function RequiredAids(realm: RealmIndex): seq<Aid> {
    match realm
    case 0 => [FoundationAid]
    case 1 => [GoldenCoreAid]
    case 2 => [NascentSoulAid]
    case 3 => [SpiritTransformationAid]
    case 4 => [UnityLawAid]
    case 5 => [MahayanaVowAid]
    case 6 => [TribulationPreparation]
    case 7 => [TribulationElixir, AscensionProtection]
    case _ => []
  }

  function BaseRate(realm: RealmIndex): nat {
    match realm
    case 0 => 800
    case 1 => 600
    case 2 => 450
    case 3 => 300
    case 4 => 200
    case 5 => 150
    case 6 => 100
    case 7 => 50
    case _ => 0
  }

  function YearRange(realm: RealmIndex): (r: (nat, nat))
    ensures r.0 <= r.1 <= 500
  {
    match realm
    case 0 => (1, 3)
    case 1 => (1, 5)
    case 2 => (3, 10)
    case 3 => (5, 20)
    case 4 => (10, 50)
    case 5 => (20, 100)
    case 6 => (50, 200)
    case 7 => (100, 500)
    case _ => (0, 0)
  }

  function LifespanRange(realm: RealmIndex): (r: (nat, nat))
    ensures 80 <= r.0 <= r.1
  {
    match realm
    case 0 => (80, 120)
    case 1 => (160, 240)
    case 2 => (400, 600)
    case 3 => (800, 1200)
    case 4 => (1600, 2400)
    case 5 => (3200, 4800)
    case 6 => (4200, 5800)
    case 7 => (5200, 6800)
    case _ => (9999, 9999)
  }

  // ---- Lifespan caps -------------------------------------------------------

  /** Every span is a multiple of twenty, so the source's rounding never rounds. */
  function StartingLifespan(
    realm: RealmIndex, a: Attributes, heavenly: bool, difficulty: Difficulty, extra: int): (cap: int)
    ensures 1 <= cap
  {
    var (low, high) := LifespanRange(realm);
    var span := high - low;
    var scored := low + span / 20 * (NormalizeAttribute(a.physique) + NormalizeAttribute(a.rootBone));
    var gifted := scored + (if heavenly then Max(5, span / 8) else 0);
    var tempered := match difficulty
      case Hard => gifted - Max(3, span / 12)
      case Easy => gifted + Max(3, span / 12)
      case Normal => gifted;
    Max(1, Min(high + Max(0, extra), tempered + extra))
  }

  function BreakthroughLifespan(
    realm: RealmIndex, current: int, a: Attributes, heavenly: bool, difficulty: Difficulty): (cap: int)
    ensures current <= cap && 1 <= cap
  {
    Max(current, StartingLifespan(realm, a, heavenly, difficulty, 0))
  }
}
