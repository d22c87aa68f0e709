/** The rule-owned settlement of one turn, computed before any narrator is asked. */
module TurnRules {
  import opened GameConstants
  import opened RuleRng
  import opened StoryCatalog
  import opened GameSession
  import opened GameWorld
  import opened Realm

  const MERIT_EVENT := "steady-merit-recognition"
  const MERIT_TITLE := "diligent outer disciple"

  // ---- Years and attributes ------------------------------------------------

  function RouteTenths(cat: Category): nat {
    match cat
    case Steady => 8
    case Risk => 15
    case _ => 10
  }

  function DifficultyTenths(d: Difficulty): nat {
    match d
    case Easy => 7
    case Hard => 13
    case Normal => 10
  }

  /** A v3 turn is a season: only every fourth moves the calendar. */
  function ElapsedYears(w: World, c: Core, cat: Category): (years: nat)
    ensures c.profile.storyVersion != 3 ==> 1 <= years
  {
    if c.profile.storyVersion == 3 then
      if Max(1, c.turnCount) % 4 == 0 then 1 else 0
    else
      var (low, high) := YearRange(c.realm);
      var years := RandInt(Draw(w, c, "elapsed_years"), low, high);
      Max(1, years * RouteTenths(cat) * DifficultyTenths(c.profile.difficulty) / 100)
  }

  function AttributeDraw(w: World, c: Core, name: string, low: int, high: int): (change: int)
    requires low <= high
    ensures low <= change <= high
  {
    RandInt(Draw(w, c, "attribute:" + name), low, high)
  }

  function AttributeChanges(w: World, c: Core, cat: Category): (r: Option<Attributes>)
    ensures cat == Steady && r.Some? ==>
      r.value.rootBone == r.value.luck == 0 && 0 <= r.value.comprehension
  {
    var changes := match cat
      case Steady => NO_CHANGE.(willpower := AttributeDraw(w, c, "willpower", 0, 2),
                                comprehension := AttributeDraw(w, c, "comprehension", 0, 1))
      case Chance => NO_CHANGE.(luck := AttributeDraw(w, c, "luck", 0, 2),
                                comprehension := AttributeDraw(w, c, "comprehension", 0, 2))
      case Risk => NO_CHANGE.(physique := AttributeDraw(w, c, "physique", -2, 2),
                              willpower := AttributeDraw(w, c, "willpower", 0, 3))
      case Fate => NO_CHANGE.(luck := AttributeDraw(w, c, "luck", -3, 5));
    if changes == NO_CHANGE then None else Some(changes)
  }

  // ---- Lifespan and death --------------------------------------------------

  datatype Aging = Aging(lifespan: Change, effects: seq<Effect>, reason: Reason)

  datatype AgePressure = NoPressure | AgePressure(loss: int, effect: Effect, reason: Reason)

  /** A Qi Refining run that stalls for decades loses lifespan. */
  function LowRealmPressure(c: Core, newAge: int): AgePressure {
    if c.realm != QI_REFINING then NoPressure
    else if newAge >= 90 && c.stage < 9 then AgePressure(15, Frailty, FrailDeath)
    else if newAge >= 70 && c.stage < 9 then AgePressure(8, BloodDecline, LifespanSpent)
    else if newAge >= 50 && c.stage < 6 then AgePressure(4, Bottleneck, LifespanSpent)
    else NoPressure
  }

  function SettleLifespan(c: Core, newAge: int): (r: Aging)
    ensures c.realm != ASCENSION && r.reason == NoReason ==>
      newAge < Max(1, Changed(c.lifespan, r.lifespan))
    ensures forall e :: e in r.effects ==> !Blocking(e)
    ensures c.realm != ASCENSION && c.lifespan <= newAge ==> r.reason != NoReason
  {
    if c.lifespan <= newAge && c.realm != ASCENSION then Aging(Keep, [], LifespanSpent)
    else match LowRealmPressure(c, newAge)
      case NoPressure => Aging(Keep, [], NoReason)
      case AgePressure(loss, effect, reason) =>
        Aging(By(0 - loss), [effect], if Max(1, c.lifespan - loss) <= newAge then reason else NoReason)
  }

  /** Points of aptitude below twelve. */
  function Shortfall(c: Core): nat { Max(0, 12 - Aptitude(c.attributes)) }

  /** Years beyond 65 hundredths of the lifespan, in hundredths. */
  function Strain(c: Core, newAge: int): nat { Max(0, newAge * 100 - 65 * Max(1, c.lifespan)) }

  /** The v3 death chance; probabilities share the denominator 100000 * lifespan. */
  function RiskChance(c: Core, cat: Category, newAge: int): int {
    var risky := cat == Risk;
    var base := (if risky then 4 else 0)
                + (if c.profile.difficulty == Hard then (if risky then 6 else 3) else 0)
                + Shortfall(c) * (if risky then 1 else 4);
    base * 100 * Max(1, c.lifespan) + Strain(c, newAge) * (if risky then 20 else 6)
  }

  /** Seeded adversity of a v3 turn, never above twelve hundredths. */
  function RiskDeathReason(w: World, c: Core, cat: Category, newAge: int): Reason {
    if c.profile.storyVersion != 3 then NoReason
    else
      var chance := RiskChance(c, cat, newAge);
      var word := Draw(w, c, "risk_death");
      if chance <= 0 then NoReason
      else if RollsBelow(word, 120) && word * (100000 * Max(1, c.lifespan)) < chance * TWO_64 then
        if cat == Risk then RiskDeath else HardTimesDeath
      else NoReason
  }

  // ---- Story ---------------------------------------------------------------

  function EventWeight(s: StoryState, cat: Category): int {
    Clamp(-3, 3, match cat
      case Steady => s.fate.weights.steady
      case Chance => s.fate.weights.chance
      case Risk => s.fate.weights.risk
      case Fate => s.fate.weights.fate)
  }

  function TurnEvent(w: World, c: Core, cat: Category, newAge: int): ChronicleEvent {
    w.event(EventQuery(c.profile, c.place, cat, newAge, Max(1, c.turnCount),
                       RecentEvents(c.events), EventWeight(c.story, cat), c.realm, c.stage))
  }

  function StoryAfter(w: World, c: Core, cat: Category, lore: string, newAge: int, dead: bool)
    : Option<StoryState>
  {
    TurnStory(w.dice, c.profile.storyVersion, c.profile.storyKey, c.story,
              StoryTurn(c.turnCount, cat, lore, newAge, dead, Aptitude(c.attributes),
                        c.profile.difficulty == Hard, Draw(w, c, "v3_arc_risk")))
  }

  /** A v1 or v2 main line that settles ends the run. */
  function StoryReason(story: Option<StoryState>): Reason {
    if story.Some? && (story.value.status == Resolved || story.value.status == Failed) then
      StoryEnded(story.value.ending)
    else NoReason
  }

  // ---- Settlement ----------------------------------------------------------

  /** The outcome of an ordinary turn; the turn counters of `c` already moved. */
  function SettleTurn(w: World, c: Core, cat: Category): Delta {
    var years := ElapsedYears(w, c, cat);
    var newAge := c.age + years;
    var aging := SettleLifespan(c, newAge);
    var risk := RiskDeathReason(w, c, cat, newAge);
    var death := if risk != NoReason then risk else aging.reason;
    var event := TurnEvent(w, c, cat, newAge);
    var story := StoryAfter(w, c, cat, event.lore, newAge, death != NoReason);
    var reason := if death != NoReason then death else StoryReason(story);
    NO_DELTA.(
      age := By(years),
      lifespan := aging.lifespan,
      attributes := AttributeChanges(w, c, cat),
      removed := if cat == Steady then Blockers(c.effects) else [],
      added := aging.effects,
      flags := NewAids(c),
      titles := if event.id == MERIT_EVENT then [MERIT_TITLE] else [],
      story := story,
      over := reason != NoReason,
      reason := reason,
      eventId := event.id)
  }

  /** A breakthrough turn advances the story as a risk turn without an event. */
  function AttachStory(w: World, c: Core, d: Delta): Delta {
    match StoryAfter(w, c, Risk, "", c.age, false)
    case Some(story) => d.(story := Some(story))
    case None => d
  }

  // ---- Local story ---------------------------------------------------------

  /**
   Rule-owned keys win over the authored option and attribute changes add up.
   The merge copies no rule-added status effect.
   */
  function MergeLocal(option: LocalOption, rule: Delta): Delta {
    rule.(
      attributes := match (option.attributes, rule.attributes)
        case (Some(a), Some(b)) => Some(AddAttributes(a, b))
        case (Some(a), None) => Some(a)
        case (None, b) => b,
      flags := if rule.flags != [] then rule.flags else option.flags,
      aids := option.aids,
      added := option.added,
      place := option.place)
  }
}
