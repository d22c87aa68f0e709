/**
 What a breakthrough attempt by slot C does, read from the settled turn: the draw that
 decides it, the realm it enters, the wound it leaves, and how the rate moves.
 */
module AttemptLaws {
  import opened GameConstants
  import opened RuleRng
  import opened StoryCatalog
  import opened GameSession
  import opened GameWorld
  import opened Realm
  import opened TurnRules
  import opened Engine
  import opened EngineLaws
  import opened RunLaws
  import opened ListLaws

  /** A live run outside the local story that stands before an open gate. */
  predicate AtGate(c: Core) { RunInvariant(c) && c.started && !c.localStory && CanBreakThrough(c) }

  /** The word an attempt is decided by: a validation run has a digest of its own. */
  function AttemptWord(w: World, c: Core): nat {
    if c.profile.golden then
      w.dice.goldenDigest(c.profile.seed, c.profile.storyKey, c.realm, c.realmTurns, c.turnCount) % TWO_64
    else Draw(w, c, "breakthrough")
  }

  /** A gifted version 2 character on the validation route needs no luck. */
  predicate NeedsNoLuck(c: Core) {
    c.profile.golden && c.profile.storyVersion == 2 && 21 <= Aptitude(c.attributes)
  }

  // ---- Who climbs ----------------------------------------------------------

  lemma AttemptNumbers(w: World, c: Core)
    requires AtGate(c)
    ensures
      var r := RuleTurn(w, c, Pick(2));
      Attempts(w, c, Pick(2)) && r == Recorded(AfterAttempt(w, c, AttemptOutcome(w, c)), "")
  {
    hide AfterAttempt, AttemptOutcome;
    GateIsLive(c);
  }

  lemma AttemptRealm(w: World, c: Core)
    requires CanBreakThrough(c)
    ensures AfterAttempt(w, c, AttemptOutcome(w, c)).realm
            == if BreakthroughSucceeds(w, c) then c.realm + 1 else c.realm
  {
    hide StoryAfter, BreakthroughSucceeds, BreakthroughLifespan, AddAll, RemoveAll, ShiftAttributes, RequirementsMet;
  }

  lemma SuccessIsLowDraw(w: World, c: Core)
    requires InScale(c.attributes)
    ensures BreakthroughSucceeds(w, c) <==>
      NeedsNoLuck(c) || AttemptWord(w, c) * 1000 < BreakthroughRate(c) * TWO_64
  {
    hide BreakthroughRate;
  }

  /**
   An attempt climbs one realm exactly when its draw lies below the rate; on the
   validation route a gifted version 2 character always climbs.
   */
  lemma AttemptClimbsIff(w: World, c: Core)
    requires AtGate(c)
    ensures
      var r := RuleTurn(w, c, Pick(2));
      var climbs := NeedsNoLuck(c) || AttemptWord(w, c) * 1000 < BreakthroughRate(c) * TWO_64;
      r.realm == if climbs then c.realm + 1 else c.realm
  {
    hide AfterAttempt, AttemptOutcome, RuleTurn, BreakthroughSucceeds, BreakthroughRate, CanBreakThrough, NeedsNoLuck;
    hide Attempts;
    AttemptNumbers(w, c);
    AttemptRealm(w, c);
    SuccessIsLowDraw(w, c);
  }

  /** A lower draw never loses where a higher one wins. */
  lemma LowerDrawsClimb(w: World, v: World, c: Core)
    requires AtGate(c) && AttemptWord(w, c) <= AttemptWord(v, c)
    ensures RuleTurn(w, c, Pick(2)).realm >= RuleTurn(v, c, Pick(2)).realm
  {
    hide RuleTurn, AtGate, AttemptWord, BreakthroughRate, NeedsNoLuck;
    AttemptClimbsIff(w, c);
    AttemptClimbsIff(v, c);
  }

  /** Draws below five hundredths climb whatever the character, draws from ninety-five hundredths up wound. */
  lemma ExtremeDrawsDecide(w: World, c: Core)
    requires AtGate(c)
    ensures AttemptWord(w, c) * 1000 < 50 * TWO_64 ==> RuleTurn(w, c, Pick(2)).realm == c.realm + 1
    ensures 950 * TWO_64 <= AttemptWord(w, c) * 1000 && !NeedsNoLuck(c) ==>
      RuleTurn(w, c, Pick(2)).realm == c.realm && Blocked(RuleTurn(w, c, Pick(2)))
  {
    hide RuleTurn, AttemptWord, NeedsNoLuck, CanBreakThrough, Blocked, Attempts, AfterAttempt, AttemptOutcome;
    AttemptClimbsIff(w, c);
    assert 50 <= BreakthroughRate(c) <= 950;
    AttemptNumbers(w, c);
    AttemptMove(w, c);
    RecordingKeepsWounds(AfterAttempt(w, c, AttemptOutcome(w, c)));
  }

  lemma RecordingKeepsWounds(c: Core)
    ensures Blocked(Recorded(c, "")) == Blocked(c)
  {
  }

  /**
   An authored attempt is decided by the same word on the state its own turn settled:
   the local turn changes realm exactly when the option asks for it, the gate is open
   there and the draw is low.
   */
  lemma LocalAttemptClimbsIff(w: World, c: Core, i: Input)
    requires RunInvariant(c) && c.started && !c.over && c.localStory && w.localOption(Unread(c), i).Some?
    ensures
      var gate := Gate(w, c, i);
      var climbs := NeedsNoLuck(gate) || AttemptWord(w, gate) * 1000 < BreakthroughRate(gate) * TWO_64;
      && gate.realm == c.realm && gate.rngCounter == c.rngCounter && gate.turnCount == c.turnCount + 1
      && RuleTurn(w, c, i).realm ==
         if w.localOption(Unread(c), i).value.breakthrough && CanBreakThrough(gate) && climbs then c.realm + 1
         else c.realm
  {
    hide AfterTurn, LocalDelta, Apply, AttemptDelta, CanBreakThrough, Blockers, BreakthroughRate, NeedsNoLuck;
    hide AttemptWord, BreakthroughSucceeds;
    var option := w.localOption(Unread(c), i).value;
    var moved, d := c.(localNode := option.next), LocalDelta(w, c, CategoryOf(i), option);
    LocalDeltaIsOrdinary(w, c, CategoryOf(i), option);
    OrdinaryKeepsInvariant(w, moved, d);
    TurnMovesCounters(w, moved, d);
    var gate := AfterTurn(w, moved, d);
    SuccessIsLowDraw(w, gate);
    if CanBreakThrough(gate) {
      AttemptedRealm(w, gate);
    }
  }

  lemma AttemptedRealm(w: World, c: Core)
    requires CanBreakThrough(c)
    ensures Apply(c, AttemptDelta(w, c)).realm == if BreakthroughSucceeds(w, c) then c.realm + 1 else c.realm
  {
    hide BreakthroughSucceeds, BreakthroughLifespan, AddAll, RemoveAll, ShiftAttributes, RequirementsMet;
  }

  // ---- What it leaves ------------------------------------------------------

  /** The wounds of a failed attempt; only Qi Refining fails harder with age. */
  function Wounds(c: Core): set<Effect> {
    if c.realm == QI_REFINING && 70 <= c.age then {SevereRoot, Unrecovered}
    else if c.realm == QI_REFINING && 50 <= c.age then {Unrecovered}
    else {Deviation}
  }

  function YearsLost(c: Core): nat {
    if c.realm == QI_REFINING && 70 <= c.age then 20
    else if c.realm == QI_REFINING && 50 <= c.age then 10
    else 0
  }

  /** A failed attempt costs its years and leaves its wounds, and moves nothing else but the counters. */
  lemma FailureLeaves(w: World, c: Core)
    requires AtGate(c) && RuleTurn(w, c, Pick(2)).realm == c.realm
    ensures
      var r := RuleTurn(w, c, Pick(2));
      && (forall e :: e in r.effects <==> e in c.effects || e in Wounds(c))
      && r.lifespan == Max(1, c.lifespan - YearsLost(c)) && r.age == c.age && r.stage == c.stage
      && r.attributes == c.attributes && r.flags == c.flags && r.aids == c.aids && r.titles == c.titles
      && r.realmTurns == c.realmTurns + 1 && !r.over && r.finale == c.finale && r.reason == c.reason
  {
    hide AttemptOutcome, AfterAttempt, Attempts, CanBreakThrough, BreakthroughSucceeds, RunInvariant;
    AttemptNumbers(w, c);
    AttemptRealm(w, c);
    GateIsLive(c);
    assert c.realm < ASCENSION && !BreakthroughSucceeds(w, c);
    assert 1 <= c.age by { AgeIsPositive(c); }
    FailedAttempt(w, c);
  }

  lemma AgeIsPositive(c: Core)
    requires RunInvariant(c)
    ensures 1 <= c.age
  {
  }

  /** Every field of an applied delta that touches neither attributes nor world. */
  lemma AppliedFields(c: Core, d: Delta)
    requires d.attributes == None && d.place == None
    ensures
      var r := Apply(c, d);
      && r.lifespan == Max(1, Changed(c.lifespan, d.lifespan)) && r.stage == Changed(c.stage, d.stage)
      && r.age == Max(1, Changed(c.age, d.age)) && r.attributes == c.attributes
      && r.realmTurns == (if d.realm.Some? && d.realm.value != c.realm then 0 else c.realmTurns)
      && r.flags == AddAll(c.flags, d.flags) && r.titles == AddAll(c.titles, d.titles) && r.aids == c.aids + d.aids
      && r.effects == AddAll(AddAll(RemoveAll(c.effects, d.removed), d.added),
                             if d.struck.Some? then [d.struck.value] else [])
      && r.over == (c.over || d.over) && r.finale == (c.finale || d.finale)
      && r.reason == (if d.reason != NoReason then d.reason else c.reason)
  {
    hide AddAll, RemoveAll;
  }

  /** An attempt's outcome as applied: the attempt, with the story of the moved state. */
  lemma AttachedTwice(w: World, c: Core)
    requires CanBreakThrough(c)
    ensures
      var e := AttachStory(w, Bump(c), AttemptOutcome(w, c));
      e == AttemptDelta(w, c).(story := e.story) && AfterAttempt(w, c, AttemptOutcome(w, c)) == Apply(Bump(c), e)
  {
    hide StoryAfter, AttemptDelta, Apply, CanBreakThrough;
  }

  lemma FailedAttempt(w: World, c: Core)
    requires CanBreakThrough(c) && !BreakthroughSucceeds(w, c) && 1 <= c.age
    ensures
      var r := AfterAttempt(w, c, AttemptOutcome(w, c));
      && (forall e :: e in r.effects <==> e in c.effects || e in Wounds(c))
      && r.lifespan == Max(1, c.lifespan - YearsLost(c)) && r.age == c.age && r.stage == c.stage
      && r.attributes == c.attributes && r.flags == c.flags && r.aids == c.aids && r.titles == c.titles
      && r.realmTurns == c.realmTurns + 1 && !r.over && r.finale == c.finale && r.reason == c.reason
  {
    hide AttachStory, BreakthroughSucceeds, RequirementsMet, Blocked, Apply, AddAll, RemoveAll, AfterAttempt;
    hide AttemptOutcome;
    AddAllNothing(c.flags);
    AddAllNothing(c.titles);
    AttachedTwice(w, c);
    AppliedFields(Bump(c), AttachStory(w, Bump(c), AttemptOutcome(w, c)));
  }

  /** A successful attempt enters the next realm at its first stage and with its lifespan. */
  lemma SuccessEnters(w: World, c: Core)
    requires AtGate(c) && RuleTurn(w, c, Pick(2)).realm != c.realm
    ensures
      var r := RuleTurn(w, c, Pick(2));
      && r.realm == c.realm + 1 && r.stage == 1 && r.realmTurns == 0
      && r.lifespan == BreakthroughLifespan(c.realm + 1, c.lifespan, c.attributes, c.profile.heavenly,
                                            c.profile.difficulty)
      && r.effects == c.effects && r.age == c.age && r.attributes == c.attributes
      && r.flags == c.flags && r.aids == c.aids && r.titles == c.titles
      && (r.over <==> r.realm == ASCENSION) && (r.over ==> r.finale && r.reason == Ascended)
  {
    hide AttemptOutcome, AfterAttempt, Attempts, CanBreakThrough, BreakthroughSucceeds, RunInvariant;
    AttemptNumbers(w, c);
    AttemptRealm(w, c);
    GateIsLive(c);
    AgeIsPositive(c);
    SucceededAttempt(w, c);
  }

  lemma SucceededAttempt(w: World, c: Core)
    requires CanBreakThrough(c) && BreakthroughSucceeds(w, c) && 1 <= c.age
    ensures
      var r := AfterAttempt(w, c, AttemptOutcome(w, c));
      && r.realm == c.realm + 1 && r.stage == 1 && r.realmTurns == 0
      && r.lifespan == BreakthroughLifespan(c.realm + 1, c.lifespan, c.attributes, c.profile.heavenly,
                                            c.profile.difficulty)
      && r.effects == c.effects && r.age == c.age && r.attributes == c.attributes
      && r.flags == c.flags && r.aids == c.aids && r.titles == c.titles
      && (r.over <==> r.realm == ASCENSION) && (r.over ==> r.finale && r.reason == Ascended)
  {
    hide AttachStory, BreakthroughSucceeds, RequirementsMet, BreakthroughLifespan, Blocked, Apply, AfterAttempt;
    hide AttemptOutcome, AddAll, RemoveAll;
    AddAllNothing(c.flags);
    AddAllNothing(c.titles);
    AddAllNothing(c.effects);
    AttachedTwice(w, c);
    AppliedFields(Bump(c), AttachStory(w, Bump(c), AttemptOutcome(w, c)));
    AttemptRealm(w, c);
    assert BreakthroughLifespan(c.realm + 1, c.lifespan, c.attributes, c.profile.heavenly, c.profile.difficulty) >= 1;
  }

  // ---- The gates -----------------------------------------------------------

  /** The realm whose gate a preparation opens. */
  function GateOf(k: Aid): RealmIndex {
    match k
    case FoundationAid => 0
    case GoldenCoreAid => 1
    case NascentSoulAid => 2
    case SpiritTransformationAid => 3
    case UnityLawAid => 4
    case MahayanaVowAid => 5
    case TribulationPreparation => 6
    case TribulationElixir => 7
    case AscensionProtection => 7
  }

  /**
   A preparation is asked for at one gate only, and an unwounded live character at its
   last stage passes a gate exactly when it holds, as a flag or as an item, everything
   that belongs to that gate.
   */
  lemma GateOpensIff(c: Core)
    requires !c.over && !Blocked(c) && c.stage >= Stages(c.realm) && c.realm != ASCENSION
    ensures CanBreakThrough(c) <==> forall k :: GateOf(k) == c.realm ==> k in c.flags || k in c.aids
  {
    forall k: Aid ensures k in RequiredAids(c.realm) <==> GateOf(k) == c.realm {
      KeyBelongs(k, c.realm);
    }
  }

  lemma KeyBelongs(k: Aid, realm: RealmIndex)
    requires realm != ASCENSION
    ensures k in RequiredAids(realm) <==> GateOf(k) == realm
  {
  }

  /** Old values above ten, on the scale of a hundred, become the nearest tenth. */
  lemma LegacyValuesRound(v: int)
    requires ATTRIBUTE_MAX < v
    ensures
      var r := NormalizeAttribute(v);
      if 95 <= v then r == 10 else 10 * r - 5 <= v < 10 * r + 5
  {
  }

  // ---- The rate ------------------------------------------------------------

  const AVERAGE := Attributes(5, 5, 5, 5, 5, 5)

  /** The rate of an average character without a root grade, in every realm and at every age. */
  lemma AverageRates(c: Core)
    requires c.attributes == AVERAGE && c.profile.rootBonus == 0 && c.realm < ASCENSION
    ensures BreakthroughRate(c) ==
      if c.realm == QI_REFINING then (if c.age < 50 then 800 else if c.age < 70 then 650 else 450)
      else [600, 450, 300, 200, 150, 100, 50][c.realm - 1]
  {
  }

  /**
   Between its bounds the rate rises by fifteen thousandths for each point of
   comprehension and of root bone, ten for luck and one for each of the root grade.
   */
  lemma RateSteps(c: Core, a: Attributes, bonus: nat)
    requires InScale(c.attributes) && InScale(a)
    ensures
      var b, d := c.attributes, c.(attributes := a, profile := c.profile.(rootBonus := bonus));
      50 < BreakthroughRate(c) < 950 && 50 < BreakthroughRate(d) < 950 ==>
        BreakthroughRate(d) - BreakthroughRate(c)
        == 15 * (a.comprehension - b.comprehension) + 15 * (a.rootBone - b.rootBone) + 10 * (a.luck - b.luck)
           + (bonus - c.profile.rootBonus)
  {
  }

  // ---- Lifespan of a realm -------------------------------------------------

  lemma Twentieths(span: nat, k: nat, body: nat)
    requires span == 20 * k && body <= 20
    ensures span * body / 20 == k * body <= span
  {
    assert span * body == 20 * (k * body);
    assert 0 <= k * (20 - body);
  }

  lemma SpansAreTwentieths(realm: RealmIndex)
    ensures var (low, high) := LifespanRange(realm); high - low == 20 * ((high - low) / 20) && 80 <= low <= high
  {
  }

  lemma PlainLifespan(realm: RealmIndex, a: Attributes, extra: nat)
    requires InScale(a)
    ensures
      var (low, high) := LifespanRange(realm);
      StartingLifespan(realm, a, false, Normal, extra)
      == Max(1, Min(high + extra, low + (high - low) / 20 * (a.physique + a.rootBone) + extra))
  {
    hide NormalizeAttribute, LifespanRange;
    assert NormalizeAttribute(a.physique) == a.physique && NormalizeAttribute(a.rootBone) == a.rootBone;
  }

  /** A normal character without gifts: the weakest body has the realm's shortest life, the strongest its longest. */
  lemma BodySetsLifespan(realm: RealmIndex, a: Attributes, extra: nat)
    requires InScale(a)
    ensures
      var (low, high) := LifespanRange(realm);
      && StartingLifespan(realm, a, false, Normal, 0) == low + (high - low) * (a.physique + a.rootBone) / 20
      && low <= StartingLifespan(realm, a, false, Normal, 0) <= high
      && StartingLifespan(realm, a, false, Normal, extra) == StartingLifespan(realm, a, false, Normal, 0) + extra
  {
    hide NormalizeAttribute, LifespanRange, StartingLifespan;
    var (low, high) := LifespanRange(realm);
    var k := (high - low) / 20;
    SpansAreTwentieths(realm);
    Twentieths(high - low, k, a.physique + a.rootBone);
    PlainLifespan(realm, a, 0);
    PlainLifespan(realm, a, extra);
  }

  /** Heavenly roots add an eighth of the range, difficulty a twelfth either way, below the longest life. */
  lemma GiftsMoveLifespan(realm: RealmIndex, a: Attributes, heavenly: bool, difficulty: Difficulty)
    requires InScale(a)
    ensures
      var (low, high) := LifespanRange(realm);
      var plain := StartingLifespan(realm, a, false, Normal, 0);
      var gift := if heavenly then Max(5, (high - low) / 8) else 0;
      var shift := match difficulty
        case Easy => Max(3, (high - low) / 12)
        case Hard => -Max(3, (high - low) / 12)
        case Normal => 0;
      StartingLifespan(realm, a, heavenly, difficulty, 0) == Max(1, Min(high, plain + gift + shift))
  {
    hide NormalizeAttribute, LifespanRange;
    var (low, high) := LifespanRange(realm);
    SpansAreTwentieths(realm);
    Twentieths(high - low, (high - low) / 20, a.physique + a.rootBone);
    PlainLifespan(realm, a, 0);
    assert NormalizeAttribute(a.physique) == a.physique && NormalizeAttribute(a.rootBone) == a.rootBone;
    var scored := low + (high - low) / 20 * (a.physique + a.rootBone);
    assert StartingLifespan(realm, a, false, Normal, 0) == scored;
  }
}
