/**
 What an ordinary turn does to the character, read from the settled turn slot by slot:
 attributes, years, pressure, wounds, death, titles, preparation, stage and history.
 */
module TurnEffects {
  import opened GameConstants
  import opened RuleRng
  import opened StoryCatalog
  import opened GameSession
  import opened GameWorld
  import opened Realm
  import opened TurnRules
  import opened Engine
  import opened EngineLaws
  import opened RunLaws
  import opened AuthorityLaws
  import opened ListLaws

  // ---- The settled turn, field by field -------------------------------------

  /** The settled state before the stage check. */
  function Settled(w: World, c: Core, cat: Category): Core { Apply(Bump(c), TurnDelta(w, c, cat)) }

  lemma OrdinaryTurnIsStaged(w: World, c: Core, i: Input)
    requires OrdinaryTurn(w, c, i)
    ensures
      var s := Settled(w, c, CategoryOf(i));
      RuleTurn(w, c, i) ==
        Recorded(s.(stage := AdvancedStage(w, s)), TurnDelta(w, c, CategoryOf(i)).eventId)
  {
    hide TurnDelta, AdvancedStage, CanBreakThrough, Staged;
    SettledDeltaIsOrdinary(w, c, CategoryOf(i));
    SettledIsTurnDelta(w, c, CategoryOf(i));
    SettledIsSound(w, c, TurnDelta(w, c, CategoryOf(i)));
    StagingOnlyMovesStage(w, Settled(w, c, CategoryOf(i)));
  }

  lemma SettledIsSound(w: World, c: Core, d: Delta)
    requires RunInvariant(c) && OrdinaryDelta(Bump(c), d)
    ensures
      var s := Apply(Bump(c), d);
      1 <= s.stage <= Stages(s.realm) && InScale(s.attributes) && 1 <= s.age && 1 <= s.lifespan
  {
    hide AddAll, RemoveAll, ShiftAttributes;
  }

  /** Every field a delta without realm and strike can move. */
  lemma SettledFields(c: Core, d: Delta)
    requires d.realm == None && d.struck == None
    ensures
      var s := Apply(c, d);
      && s.attributes == (if d.attributes.Some? then ShiftAttributes(c.attributes, d.attributes.value)
                          else c.attributes)
      && s.lifespan == Max(1, Changed(c.lifespan, d.lifespan)) && s.age == Max(1, Changed(c.age, d.age))
      && s.flags == AddAll(c.flags, d.flags) && s.titles == AddAll(c.titles, d.titles) && s.aids == c.aids + d.aids
      && s.effects == AddAll(RemoveAll(c.effects, d.removed), d.added)
      && s.realm == c.realm && s.over == (c.over || d.over) && s.stage == Changed(c.stage, d.stage)
      && s.reason == (if d.reason != NoReason then d.reason else c.reason)
      && s.profile == c.profile && s.realmTurns == c.realmTurns && s.turnCount == c.turnCount
      && s.rngCounter == c.rngCounter && s.events == c.events
      && s.place == (if d.place.Some? then d.place.value else c.place) && s.localNode == c.localNode
  {
    hide AddAll, RemoveAll, ShiftAttributes;
    AddAllNothing(AddAll(RemoveAll(c.effects, d.removed), d.added));
  }

  // ---- Attributes ----------------------------------------------------------

  function AttributeRoll(w: World, c: Core, name: string, low: int, high: int): int
    requires low <= high
  {
    RandInt(Draw(w, Bump(c), "attribute:" + name), low, high)
  }

  /** What each slot draws; what it does not name stands. */
  function SlotChange(w: World, c: Core, cat: Category): Attributes {
    match cat
    case Steady => Attributes(0, AttributeRoll(w, c, "comprehension", 0, 1), 0,
                              AttributeRoll(w, c, "willpower", 0, 2), 0, 0)
    case Chance => Attributes(0, AttributeRoll(w, c, "comprehension", 0, 2),
                              AttributeRoll(w, c, "luck", 0, 2), 0, 0, 0)
    case Risk => Attributes(0, 0, 0, AttributeRoll(w, c, "willpower", 0, 3),
                            AttributeRoll(w, c, "physique", -2, 2), 0)
    case Fate => Attributes(0, 0, AttributeRoll(w, c, "luck", -3, 5), 0, 0, 0)
  }

  function OnScale(v: int): int { Clamp(0, ATTRIBUTE_MAX, v) }

  /** Attributes moved by a change and kept on the scale. */
  function Scaled(a: Attributes, g: Attributes): Attributes {
    Attributes(OnScale(a.rootBone + g.rootBone), OnScale(a.comprehension + g.comprehension), OnScale(a.luck + g.luck),
               OnScale(a.willpower + g.willpower), OnScale(a.physique + g.physique), OnScale(a.soul + g.soul))
  }

  lemma ShiftingScales(a: Attributes, g: Attributes)
    requires InScale(a)
    ensures ShiftAttributes(a, g) == Scaled(a, g) && Scaled(a, NO_CHANGE) == a
  {
  }

  lemma ChangesAreDrawn(w: World, c: Core, cat: Category)
    ensures
      var d := AttributeChanges(w, Bump(c), cat);
      if d.Some? then d.value == SlotChange(w, c, cat) else SlotChange(w, c, cat) == NO_CHANGE
  {
    hide Draw, RandInt;
  }

  /** Slot by slot, the attributes after an ordinary turn. */
  lemma AttributesByRoute(w: World, c: Core, i: Input)
    requires OrdinaryTurn(w, c, i)
    ensures RuleTurn(w, c, i).attributes == Scaled(c.attributes, SlotChange(w, c, CategoryOf(i)))
  {
    hide RuleTurn, AdvancedStage, Scaled, SlotChange, AttributeChanges, Apply, ElapsedYears, SettleLifespan;
    hide TurnEvent, StoryAfter, RiskDeathReason, NewAids, CanBreakThrough;
    OrdinaryTurnIsStaged(w, c, i);
    SettledFields(Bump(c), TurnDelta(w, c, CategoryOf(i)));
    ChangesAreDrawn(w, c, CategoryOf(i));
    ShiftingScales(c.attributes, SlotChange(w, c, CategoryOf(i)));
  }

  /** An inclusive draw reaches both its ends: the smallest word the lower, the greatest the upper. */
  lemma DrawsReachTheirEnds(low: int, high: int)
    requires low <= high <= low + 500
    ensures RandInt(0, low, high) == low && RandInt(TWO_64 - 1, low, high) == high
  {
    var span := high - low + 1;
    assert (TWO_64 - 1) * span == (span - 1) * TWO_64 + (TWO_64 - span);
    QuotientOf((TWO_64 - 1) * span, span - 1, TWO_64 - span);
  }

  lemma QuotientOf(n: nat, q: nat, r: nat)
    requires n == q * TWO_64 + r && r < TWO_64
    ensures n / TWO_64 == q
  {
  }

  predicate Within(v: int, low: int, high: int, r: int) { v + low <= r <= v + high }

  /** The attributes a slot moves and how far. */
  predicate RangedBy(cat: Category, a: Attributes, r: Attributes) {
    match cat
    case Steady =>
      && r.luck == a.luck && r.physique == a.physique
      && Within(a.willpower, 0, 2, r.willpower) && Within(a.comprehension, 0, 1, r.comprehension)
    case Chance =>
      && r.willpower == a.willpower && r.physique == a.physique
      && Within(a.luck, 0, 2, r.luck) && Within(a.comprehension, 0, 2, r.comprehension)
    case Risk =>
      && r.luck == a.luck && r.comprehension == a.comprehension
      && Within(a.physique, -2, 2, r.physique) && Within(a.willpower, 0, 3, r.willpower)
    case Fate =>
      && r.willpower == a.willpower && r.physique == a.physique && r.comprehension == a.comprehension
      && Within(a.luck, -3, 5, r.luck)
  }

  /** So slot by slot the change lies in its range, and what the slot does not name stands. */
  lemma AttributeRanges(w: World, c: Core, i: Input)
    requires OrdinaryTurn(w, c, i)
    ensures
      var a, r := c.attributes, RuleTurn(w, c, i).attributes;
      && r.rootBone == a.rootBone && r.soul == a.soul
      && RangedBy(CategoryOf(i), a, r)
  {
    hide RuleTurn, Draw, CanBreakThrough;
    AttributesByRoute(w, c, i);
  }

  /** By the buttons: A trains willpower and comprehension, B luck and comprehension, C body and will, D luck. */
  lemma ButtonsMoveTheirAttributes(w: World, c: Core, slot: nat)
    requires OrdinaryTurn(w, c, Pick(slot)) && slot < 4
    ensures RangedBy([Steady, Chance, Risk, Fate][slot], c.attributes, RuleTurn(w, c, Pick(slot)).attributes)
  {
    hide RuleTurn, RangedBy, OrdinaryTurn;
    AttributeRanges(w, c, Pick(slot));
  }

  // ---- Years ---------------------------------------------------------------

  /** Hundredths of the drawn years that a slot takes on a difficulty. */
  function Pace(cat: Category, difficulty: Difficulty): nat {
    match (cat, difficulty)
    case (Steady, Easy) => 56
    case (Steady, Normal) => 80
    case (Steady, Hard) => 104
    case (Risk, Easy) => 105
    case (Risk, Normal) => 150
    case (Risk, Hard) => 195
    case (_, Easy) => 70
    case (_, Normal) => 100
    case (_, Hard) => 130
  }

  lemma YearsByRoute(w: World, c: Core, i: Input)
    requires OrdinaryTurn(w, c, i) && c.profile.storyVersion != 3
    ensures
      var (low, high) := YearRange(c.realm);
      var years := RandInt(Draw(w, Bump(c), "elapsed_years"), low, high);
      RuleTurn(w, c, i).age == c.age + Max(1, years * Pace(CategoryOf(i), c.profile.difficulty) / 100)
  {
    hide RuleTurn, Draw, CanBreakThrough, RandInt, YearRange;
    OrdinaryTurnAges(w, c, i);
    var (low, high) := YearRange(c.realm);
    var years := RandInt(Draw(w, Bump(c), "elapsed_years"), low, high);
    PaceIsProduct(years, CategoryOf(i), c.profile.difficulty);
  }

  lemma PaceIsProduct(years: int, cat: Category, difficulty: Difficulty)
    ensures years * RouteTenths(cat) * DifficultyTenths(difficulty) == years * Pace(cat, difficulty)
  {
  }

  // ---- Pressure, wounds and death ------------------------------------------

  /** A stalled Qi Refining character loses years by age: from 50 below stage six, from 70 below stage nine. */
  function Pressure(c: Core, newAge: int): (int, Option<Effect>) {
    if c.realm != QI_REFINING || newAge < 50 then (0, None)
    else if c.stage < 9 && 90 <= newAge then (15, Some(Frailty))
    else if c.stage < 9 && 70 <= newAge then (8, Some(BloodDecline))
    else if c.stage < 6 then (4, Some(Bottleneck))
    else (0, None)
  }

  /** The turn found the character already past the cap. */
  predicate Overdrawn(c: Core, newAge: int) { c.realm != ASCENSION && c.lifespan <= newAge }

  /** The adversity of a version 3 turn strikes. */
  predicate Struck(w: World, c: Core, cat: Category, newAge: int) {
    RiskDeathReason(w, Bump(c), cat, newAge) != NoReason
  }

  lemma AgingIsPressure(c: Core, newAge: int)
    ensures
      var s := SettleLifespan(c, newAge);
      var (lost, effect) := Pressure(c, newAge);
      if Overdrawn(c, newAge) then s == Aging(Keep, [], LifespanSpent)
      else
        && Changed(c.lifespan, s.lifespan) == c.lifespan - lost
        && s.effects == (if effect.Some? then [effect.value] else [])
        && s.reason == (if effect.Some? && Max(1, c.lifespan - lost) <= newAge then
                          (if effect == Some(Frailty) then FrailDeath else LifespanSpent)
                        else NoReason)
  {
  }

  /** Lifespan and effects after an ordinary turn: age pressure, and healing by slot A alone. */
  lemma PressureAndWounds(w: World, c: Core, i: Input)
    requires OrdinaryTurn(w, c, i)
    ensures
      var r := RuleTurn(w, c, i);
      var (lost, effect) := if Overdrawn(c, r.age) then (0, None) else Pressure(c, r.age);
      && r.lifespan == Max(1, c.lifespan - lost)
      && forall e :: e in r.effects <==>
           (e in c.effects && !(CategoryOf(i) == Steady && Blocking(e))) || effect == Some(e)
  {
    hide RuleTurn, AdvancedStage, AttributeChanges, Apply, ElapsedYears, SettleLifespan, TurnEvent, StoryAfter;
    hide RiskDeathReason, NewAids, CanBreakThrough, AddAll, RemoveAll, Blockers, RunInvariant;
    OrdinaryTurnIsStaged(w, c, i);
    OrdinaryTurnAges(w, c, i);
    var d := TurnDelta(w, c, CategoryOf(i));
    SettledFields(Bump(c), d);
    AgingIsPressure(Bump(c), RuleTurn(w, c, i).age);
  }

  /** The reason, if any, that an ordinary turn ends the run for: adversity, then age, then the story. */
  lemma EndOfOrdinaryTurn(w: World, c: Core, i: Input)
    requires OrdinaryTurn(w, c, i)
    ensures
      var r := RuleTurn(w, c, i);
      var (lost, effect) := Pressure(c, r.age);
      var aged := Overdrawn(c, r.age) || (effect.Some? && Max(1, c.lifespan - lost) <= r.age);
      if Struck(w, c, CategoryOf(i), r.age) then
        r.over && r.reason == if CategoryOf(i) == Risk then RiskDeath else HardTimesDeath
      else if aged then
        r.over && r.reason == if !Overdrawn(c, r.age) && effect == Some(Frailty) then FrailDeath else LifespanSpent
      else if c.story.status == Active && r.story.status in {Resolved, Failed} then
        r.over && r.reason == StoryEnded(r.story.ending)
      else !r.over && r.reason == c.reason
  {
    hide RuleTurn, AdvancedStage, AttributeChanges, Apply, ElapsedYears, SettleLifespan, TurnEvent, StoryAfter;
    hide RiskDeathReason, NewAids, CanBreakThrough, AddAll, RemoveAll, Blockers, RunInvariant;
    OrdinaryTurnIsStaged(w, c, i);
    OrdinaryTurnAges(w, c, i);
    var cat, b := CategoryOf(i), Bump(c);
    var d := TurnDelta(w, c, cat);
    SettledFields(b, d);
    SettledStoryOf(b, d);
    var newAge := RuleTurn(w, c, i).age;
    AgingIsPressure(b, newAge);
    AdversityReason(w, b, cat, newAge);
    StoryComesFromActive(w, b, cat, TurnEvent(w, b, cat, newAge).lore, newAge,
                         Struck(w, c, cat, newAge) || SettleLifespan(b, newAge).reason != NoReason);
  }

  lemma SettledStoryOf(c: Core, d: Delta)
    ensures Apply(c, d).story == if d.story.Some? then d.story.value else c.story
  {
    hide AddAll, RemoveAll, ShiftAttributes;
  }

  lemma AdversityReason(w: World, c: Core, cat: Category, newAge: int)
    ensures RiskDeathReason(w, c, cat, newAge) in {NoReason, if cat == Risk then RiskDeath else HardTimesDeath}
  {
  }

  lemma StoryComesFromActive(w: World, c: Core, cat: Category, lore: string, newAge: int, dead: bool)
    ensures
      var s := StoryAfter(w, c, cat, lore, newAge, dead);
      && (s.Some? && s.value.status in {Resolved, Failed} ==> c.story.status == Active)
      && (s.None? ==> c.story.status in {Resolved, Failed} || c.profile.storyVersion !in {1, 2, 3})
  {
    hide PickMotif, NextFate, TurnBeats, Dominant, PhaseAt;
  }

  // ---- Titles, preparation, history ----------------------------------------

  /** Long enough at the end of a realm: version 3 and gifted version 2 characters are prepared by the rules. */
  predicate Prepared(c: Core) {
    var last := Stages(c.realm) - 1;
    && last <= c.stage
    && (c.profile.storyVersion == 3 || (c.profile.storyVersion == 2 && 21 <= Aptitude(c.attributes)))
    && (if c.profile.storyVersion == 3 then Max(4, 2 * last)
        else if c.realm == QI_REFINING then 2 * last else 3 * last) <= c.realmTurns + 1
  }

  lemma PreparationIff(c: Core)
    requires InScale(c.attributes)
    ensures PreparationAids(Bump(c)) == if Prepared(c) then RequiredAids(c.realm) else []
  {
  }

  /** How far fate pulls the catalogue towards a slot's events: its story weight, within three. */
  function Pull(weights: Weights, cat: Category): int {
    var pull := match cat
      case Steady => weights.steady
      case Chance => weights.chance
      case Risk => weights.risk
      case Fate => weights.fate;
    if pull < -3 then -3 else if 3 < pull then 3 else pull
  }

  /** Flags, titles, event record and what the catalogue was asked, after an ordinary turn. */
  lemma GrantsAndRecord(w: World, c: Core, i: Input)
    requires OrdinaryTurn(w, c, i)
    ensures
      var r := RuleTurn(w, c, i);
      var event := w.event(EventQuery(c.profile, c.place, CategoryOf(i), r.age, c.turnCount + 1,
                                      RecentEvents(c.events), Pull(c.story.fate.weights, CategoryOf(i)),
                                      c.realm, c.stage));
      && (forall k :: k in r.flags <==> k in c.flags || (Prepared(c) && k in RequiredAids(c.realm)))
      && r.titles == (if event.id == MERIT_EVENT then AddNew(c.titles, MERIT_TITLE) else c.titles)
      && r.events == c.events + [event.id] && r.aids == c.aids && r.place == c.place
  {
    hide RuleTurn, AdvancedStage, AttributeChanges, Apply, ElapsedYears, SettleLifespan, StoryAfter, RecentEvents;
    hide RiskDeathReason, CanBreakThrough, RemoveAll, Blockers, PreparationAids, Prepared;
    OrdinaryTurnIsStaged(w, c, i);
    OrdinaryTurnAges(w, c, i);
    SettledFields(Bump(c), TurnDelta(w, c, CategoryOf(i)));
    PreparationIff(c);
    AddAllNothing(c.titles);
  }

  // ---- Stage ---------------------------------------------------------------

  /** The stage that age and turns alone give: only Qi Refining paces every character. */
  function Paced(c: Core): int {
    if c.profile.storyVersion == 2 && 21 <= Aptitude(c.attributes) then
      1 + c.realmTurns / if c.realm == QI_REFINING then 2 else 3
    else if c.realm == QI_REFINING then Min(1 + Max(0, c.age - 16) / 2, 1 + c.turnCount / 3)
    else 0
  }

  /** The chance of a further stage by luck, in thousandths. */
  function Insight(c: Core): int {
    220 + 30 * Max(0, c.attributes.comprehension - 5) + 30 * Max(0, c.attributes.rootBone - 5)
  }

  /**
   The stage after an ordinary turn: a wounded character and one at its last stage stay;
   pacing catches up at once; otherwise one further stage comes by luck, with a chance
   between 220 and 520 thousandths.
   */
  lemma StageAfterTurn(w: World, c: Core, i: Input)
    requires OrdinaryTurn(w, c, i)
    ensures
      var r := RuleTurn(w, c, i);
      var paced := Min(Stages(c.realm), Paced(r));
      && 220 <= Insight(r) <= 520
      && r.stage == if c.stage == Stages(c.realm) || Blocked(r) then c.stage
                    else if c.stage < paced then paced
                    else if c.profile.golden && c.profile.storyVersion == 2 && 21 <= Aptitude(r.attributes) then c.stage
                    else if Draw(w, c, "stage_advance") * 1000 <= Insight(r) * TWO_64 then c.stage + 1
                    else c.stage
  {
    hide RuleTurn, TurnDelta, Apply, CanBreakThrough, Blockers;
    OrdinaryTurnIsStaged(w, c, i);
    var d := TurnDelta(w, c, CategoryOf(i));
    SettledDeltaIsOrdinary(w, c, CategoryOf(i));
    SettledIsTurnDelta(w, c, CategoryOf(i));
    TurnDeltaShape(w, c, CategoryOf(i));
    SettledFields(Bump(c), d);
    SettledIsSound(w, c, d);
    StageOf(w, Settled(w, c, CategoryOf(i)));
  }

  lemma TurnDeltaShape(w: World, c: Core, cat: Category)
    ensures
      var d := TurnDelta(w, c, cat);
      d.realm == None && d.place == None && d.struck == None && d.stage == Keep && !d.finale
  {
  }

  lemma StageOf(w: World, s: Core)
    requires InScale(s.attributes) && 1 <= s.stage <= Stages(s.realm)
    ensures
      var paced := Min(Stages(s.realm), Paced(s));
      && 220 <= Insight(s) <= 520
      && AdvancedStage(w, s) ==
         if s.stage == Stages(s.realm) || Blocked(s) then s.stage
         else if s.stage < paced then paced
         else if s.profile.golden && s.profile.storyVersion == 2 && 21 <= Aptitude(s.attributes) then s.stage
         else if Draw(w, s, "stage_advance") * 1000 <= Insight(s) * TWO_64 then s.stage + 1
         else s.stage
  {
    hide Blocked, Draw;
  }

  // ---- Local turns ---------------------------------------------------------

  /** What an authored option grants of attributes. */
  function Authored(option: LocalOption): Attributes {
    if option.attributes.Some? then option.attributes.value else NO_CHANGE
  }

  lemma LocalTurnIsStaged(w: World, c: Core, cat: Category, option: LocalOption)
    requires RunInvariant(c) && !c.over
    ensures
      var moved := c.(localNode := option.next);
      var s := Apply(Bump(moved), LocalDelta(w, c, cat, option));
      && AfterTurn(w, moved, LocalDelta(w, c, cat, option)) == s.(stage := AdvancedStage(w, s))
      && RunInvariant(AfterTurn(w, moved, LocalDelta(w, c, cat, option)))
  {
    hide LocalDelta, AdvancedStage, Staged, AfterTurn;
    var moved := c.(localNode := option.next);
    LocalDeltaIsOrdinary(w, c, cat, option);
    SettledIsSound(w, moved, LocalDelta(w, c, cat, option));
    StagingOnlyMovesStage(w, Apply(Bump(moved), LocalDelta(w, c, cat, option)));
    OrdinaryKeepsInvariant(w, moved, LocalDelta(w, c, cat, option));
    AfterTurnIsStaged(w, moved, LocalDelta(w, c, cat, option));
  }

  lemma AfterTurnIsStaged(w: World, c: Core, d: Delta)
    ensures AfterTurn(w, c, d) == Staged(w, Apply(Bump(c), d))
  {
    hide Staged, Apply;
  }

  lemma NodeDrawsTheSame(w: World, c: Core, node: string, cat: Category)
    ensures SlotChange(w, c.(localNode := node), cat) == SlotChange(w, c, cat)
  {
  }

  lemma SettledLocally(w: World, c: Core, cat: Category, option: LocalOption)
    requires RunInvariant(c) && !c.over
    ensures AfterTurn(w, c.(localNode := option.next), LocalDelta(w, c, cat, option)).attributes
            == Scaled(c.attributes, AddAttributes(Authored(option), SlotChange(w, c, cat)))
  {
    hide AdvancedStage, AttributeChanges, Apply, AfterTurn, LocalDelta, Scaled, SlotChange, RunInvariant, TurnDelta;
    hide AddAttributes, ShiftAttributes;
    var moved, d := c.(localNode := option.next), LocalDelta(w, c, cat, option);
    LocalTurnIsStaged(w, c, cat, option);
    LocalDeltaParts(w, c, cat, option);
    SettledFields(Bump(moved), d);
    NodeDrawsTheSame(w, c, option.next, cat);
    InvariantHasScale(c);
    ShiftingScales(c.attributes, AddAttributes(Authored(option), SlotChange(w, c, cat)));
    NothingAddsUp();
  }

  lemma NothingAddsUp()
    ensures AddAttributes(NO_CHANGE, NO_CHANGE) == NO_CHANGE
  {
  }

  /**
   In a local turn authored and drawn attribute changes add up and are clamped once; an
   attempt made in the same turn leaves them alone.
   */
  lemma LocalAttributesAddUp(w: World, c: Core, cat: Category, option: LocalOption)
    requires RunInvariant(c) && !c.over
    ensures AfterLocalTurn(w, c, cat, option).attributes
            == Scaled(c.attributes, AddAttributes(Authored(option), SlotChange(w, c, cat)))
  {
    hide AfterTurn, LocalDelta, Scaled, SlotChange, CanBreakThrough, RunInvariant, AttemptDelta, AddAttributes, Apply;
    SettledLocally(w, c, cat, option);
    LocalTurnIsStaged(w, c, cat, option);
    var gate := AfterTurn(w, c.(localNode := option.next), LocalDelta(w, c, cat, option));
    if option.breakthrough && CanBreakThrough(gate) {
      LocalAttempt(w, gate);
    }
  }

  lemma InvariantHasScale(c: Core)
    requires RunInvariant(c)
    ensures InScale(c.attributes)
  {
  }

  /** What the merge makes of an authored option and the rules' own outcome. */
  lemma LocalDeltaParts(w: World, c: Core, cat: Category, option: LocalOption)
    ensures
      var d, rule := LocalDelta(w, c, cat, option), TurnDelta(w, c.(localNode := option.next), cat);
      && d == rule.(attributes := d.attributes, flags := d.flags, aids := option.aids, added := option.added,
                    place := option.place)
      && (if d.attributes.Some? then
            d.attributes.value == AddAttributes(Authored(option), SlotChange(w, c.(localNode := option.next), cat))
          else
            && Authored(option) == NO_CHANGE
            && SlotChange(w, c.(localNode := option.next), cat) == NO_CHANGE)
      && d.flags == (if rule.flags != [] then rule.flags else option.flags)
      && d.realm == None && d.struck == None
  {
    hide AttributeChanges, ElapsedYears, SettleLifespan, RiskDeathReason, TurnEvent, StoryAfter, NewAids, SlotChange;
    ChangesAreDrawn(w, c.(localNode := option.next), cat);
  }

  /**
   A local turn that makes no attempt: flags come from the rules if they grant any and
   from the option otherwise, effects from the option alone, and slot A still heals.
   */
  lemma LocalGrants(w: World, c: Core, cat: Category, option: LocalOption)
    requires RunInvariant(c) && !c.over && !option.breakthrough
    ensures
      var r := AfterLocalTurn(w, c, cat, option);
      var granted := exists k :: k in RequiredAids(c.realm) && k !in c.flags && Prepared(c);
      && (forall k :: k in r.flags <==>
            k in c.flags || (if granted then k in RequiredAids(c.realm) else k in option.flags))
      && (forall e :: e in r.effects <==>
            (e in c.effects && !(cat == Steady && Blocking(e))) || e in option.added)
      && r.aids == c.aids + option.aids && r.localNode == option.next
      && r.place == if option.place.Some? then option.place.value else c.place
  {
    hide AdvancedStage, AttributeChanges, Apply, AfterTurn, LocalDelta, SlotChange, CanBreakThrough;
    hide RunInvariant, Prepared, PreparationAids, Blockers, AddAll, RemoveAll;
    var moved, d := c.(localNode := option.next), LocalDelta(w, c, cat, option);
    LocalTurnIsStaged(w, c, cat, option);
    LocalDeltaParts(w, c, cat, option);
    LocalRule(w, moved, cat);
    SettledFields(Bump(moved), d);
    assert InScale(c.attributes) by { InvariantHasScale(c); }
    PreparationIff(moved);
    PreparedIgnoresNode(c, option.next);
    if NewAids(Bump(moved)) != [] {
      assert NewAids(Bump(moved))[0] in NewAids(Bump(moved));
    }
  }

  lemma LocalRule(w: World, c: Core, cat: Category)
    ensures
      var d := TurnDelta(w, c, cat);
      && d.flags == NewAids(Bump(c)) && d.removed == if cat == Steady then Blockers(c.effects) else []
  {
    hide AttributeChanges, ElapsedYears, SettleLifespan, RiskDeathReason, TurnEvent, StoryAfter, NewAids, Blockers;
  }

  lemma PreparedIgnoresNode(c: Core, node: string)
    ensures Prepared(c.(localNode := node)) == Prepared(c)
  {
  }
}
