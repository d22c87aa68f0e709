/**
 The golden validation run: a high-aptitude version 2 run that plays A and breaks
 through whenever it may. Seventeen turns in Qi Refining and ten in each later
 realm lead to Ascension at turn 87, unless the last realm outlasts the lifespan.
 */
module GoldenRoute {
  import opened GameConstants
  import opened RuleRng
  import opened StoryCatalog
  import opened GameSession
  import opened GameWorld
  import opened Realm
  import opened TurnRules
  import opened Engine
  import opened EngineLaws
  import opened RunLaws
  import opened ListLaws

  const TRIBULATION: RealmIndex := 7

  /** C when the rules allow an attempt, otherwise A. */
  function GoldenInput(c: Core): Input { Pick(if CanBreakThrough(c) then 2 else 0) }

  function GoldenRun(w: World, c: Core, n: nat): Core {
    if n == 0 then c else RuleTurn(w, GoldenRun(w, c, n - 1), GoldenInput(GoldenRun(w, c, n - 1)))
  }

  // ---- The shape of the route ----------------------------------------------

  /** Ordinary turns a realm takes before its attempt. */
  function Span(realm: RealmIndex): nat { (Stages(realm) - 1) * TurnsPerStage(realm) }

  /** The turn on which a realm is entered. */
  function Entry(realm: RealmIndex): nat {
    if realm == QI_REFINING then 0 else 17 + 10 * (realm - 1)
  }

  function PeakYears(d: Difficulty, realm: RealmIndex): nat {
    Max(1, YearRange(realm).1 * 8 * DifficultyTenths(d) / 100)
  }

  /** The greatest age at which a realm can be entered. */
  function EntryAge(d: Difficulty, realm: RealmIndex): nat {
    (match d
     case Easy => [16, 32, 50, 95, 194, 446, 950, 1958, 4478]
     case Normal => [16, 48, 84, 156, 300, 660, 1380, 2820, 6420]
     case Hard => [16, 64, 109, 199, 379, 847, 1783, 3655, 8335])[realm]
  }

  function LifespanFloor(d: Difficulty, realm: RealmIndex): int {
    LifespanRange(realm).0 - if d == Hard then Max(3, (LifespanRange(realm).1 - LifespanRange(realm).0) / 12) else 0
  }

  /** A live golden run after `k` turns. */
  predicate OnRoute(c: Core, k: nat) {
    && RunInvariant(c) && CountersAgree(c)
    && c.turnCount == k == Entry(c.realm) + c.realmTurns && c.realmTurns <= Span(c.realm)
    && c.started && !c.over && !c.finale && !c.localStory && c.realm < ASCENSION
    && c.profile.golden && HighAptitudeV2(c)
    && !Blocked(c)
    && c.story.status == Active
    && c.stage == PacedStage(c)
    && (c.realmTurns == Span(c.realm) ==> RequirementsMet(c))
    && c.age <= EntryAge(c.profile.difficulty, c.realm)
                + c.realmTurns * PeakYears(c.profile.difficulty, c.realm)
    && LifespanFloor(c.profile.difficulty, c.realm) <= c.lifespan
  }

  lemma SpanIsShort(realm: RealmIndex)
    requires realm < ASCENSION
    ensures Span(realm) == if realm == QI_REFINING then 16 else 9
  {
  }

  lemma AttemptOnlyAtSpanEnd(c: Core, k: nat)
    requires OnRoute(c, k)
    ensures CanBreakThrough(c) <==> c.realmTurns == Span(c.realm)
    ensures 1 + c.realmTurns / TurnsPerStage(c.realm) <= Stages(c.realm)
  {
  }

  // ---- Lifespan along the route --------------------------------------------

  lemma PeakYearsTable(d: Difficulty, realm: RealmIndex)
    requires realm < ASCENSION
    ensures PeakYears(d, realm) == (match d
      case Easy => [1, 2, 5, 11, 28, 56, 112, 280]
      case Normal => [2, 4, 8, 16, 40, 80, 160, 400]
      case Hard => [3, 5, 10, 20, 52, 104, 208, 520])[realm]
  {
  }

  /** A realm spent at the peak pace leads to the next entry age. */
  lemma EntryAgesAreReached(d: Difficulty, realm: RealmIndex)
    requires realm < ASCENSION
    ensures EntryAge(d, realm) + Span(realm) * PeakYears(d, realm) == EntryAge(d, realm + 1)
  {
    hide PeakYears, Span;
    PeakYearsTable(d, realm);
    SpanIsShort(realm);
  }

  /** Before Tribulation no draw can use up the shortest lifespan; on Easy not even there. */
  lemma YouthBeforeTribulation(d: Difficulty, realm: RealmIndex)
    requires realm < TRIBULATION || (realm == TRIBULATION && d == Easy)
    ensures EntryAge(d, realm + 1) < LifespanFloor(d, realm)
  {
  }

  /** Qi Refining ends long before its age pressure starts. */
  lemma YouthInQiRefining(d: Difficulty)
    ensures EntryAge(d, QI_REFINING) + 10 * PeakYears(d, QI_REFINING) < 50
    ensures EntryAge(d, 1) < 70
  {
  }

  lemma SteadyYearsBelowPeak(w: World, c: Core)
    requires c.profile.storyVersion == 2
    ensures 1 <= ElapsedYears(w, c, Steady) <= PeakYears(c.profile.difficulty, c.realm)
  {
    hide Draw;
    var (low, high) := YearRange(c.realm);
    var years := RandInt(Draw(w, c, "elapsed_years"), low, high);
    var tenths := DifficultyTenths(c.profile.difficulty);
    assert years * 8 * tenths <= high * 8 * tenths;
  }

  /** The years a steady turn takes; they depend on the seed, the counter and the realm alone. */
  function SteadyYears(w: World, c: Core): nat { ElapsedYears(w, Bump(c), Steady) }

  lemma SteadyAgeBound(w: World, c: Core, k: nat)
    requires OnRoute(c, k) && c.realmTurns < Span(c.realm)
    ensures
      var d, newAge := c.profile.difficulty, c.age + SteadyYears(w, c);
      && newAge <= EntryAge(d, c.realm + 1)
      && (c.realm == QI_REFINING ==> newAge < 70 && (c.realmTurns < 10 ==> newAge < 50))
  {
    hide EntryAge, PeakYears, LifespanFloor, ElapsedYears, Blockers, RequirementsMet, PacedStage, RunInvariant;
    hide Span, HighAptitudeV2;
    var d := c.profile.difficulty;
    SteadyYearsAtRealm(w, c);
    EntryAgesAreReached(d, c.realm);
    YouthInQiRefining(d);
    AgeBelow(c.age, SteadyYears(w, c), EntryAge(d, c.realm), c.realmTurns, Span(c.realm), PeakYears(d, c.realm));
    if c.realmTurns < 10 {
      AgeBelow(c.age, SteadyYears(w, c), EntryAge(d, c.realm), c.realmTurns, 10, PeakYears(d, c.realm));
    }
  }

  lemma SteadyYearsAtRealm(w: World, c: Core)
    requires HighAptitudeV2(c)
    ensures 1 <= SteadyYears(w, c) <= PeakYears(c.profile.difficulty, c.realm)
  {
    hide PeakYears, ElapsedYears;
    SteadyYearsBelowPeak(w, Bump(c));
  }

  lemma AgeBelow(age: int, years: int, entry: int, turns: nat, span: nat, peak: nat)
    requires age <= entry + turns * peak && years <= peak && turns < span
    ensures age + years <= entry + span * peak
  {
    var rest: nat := span - turns - 1;
    assert span == turns + 1 + rest;
    calc {
      span * peak;
      (turns + 1 + rest) * peak;
      turns * peak + peak + rest * peak;
    }
  }

  /** Only the lifespan check itself can end a golden turn before turn 90. */
  lemma SteadyTurnSurvives(w: World, c: Core, k: nat)
    requires OnRoute(c, k) && c.realmTurns < Span(c.realm)
    ensures
      var aging := SettleLifespan(Bump(c), c.age + SteadyYears(w, c));
      && aging.effects == [] && aging.lifespan == Keep
      && aging.reason == if c.lifespan <= c.age + SteadyYears(w, c) then LifespanSpent else NoReason
    ensures c.realm < TRIBULATION || c.profile.difficulty == Easy ==> c.age + SteadyYears(w, c) < c.lifespan
  {
    hide EntryAge, PeakYears, LifespanFloor, SteadyYears, Blockers, RequirementsMet, InScale;
    var d := c.profile.difficulty;
    SteadyAgeBound(w, c, k);
    if c.realm < TRIBULATION || d == Easy {
      YouthBeforeTribulation(d, c.realm);
    }
  }

  // ---- A steady turn -------------------------------------------------------

  lemma NoneBlocking(effects: seq<Effect>)
    ensures Blockers(effects) == [] <==> forall e :: e in effects ==> !Blocking(e)
  {
  }

  lemma SteadyEffects(effects: seq<Effect>)
    ensures Blockers(AddAll(RemoveAll(effects, Blockers(effects)), [])) == []
  {
    NoneBlocking(AddAll(RemoveAll(effects, Blockers(effects)), []));
  }

  lemma SteadyAptitude(w: World, c: Core, a: Attributes)
    requires InScale(a) && Aptitude(a) >= 21
    ensures
      var d := AttributeChanges(w, c, Steady);
      var r := if d.Some? then ShiftAttributes(a, d.value) else a;
      && InScale(r) && Aptitude(r) >= 21
      && r.rootBone == a.rootBone && r.physique == a.physique
  {
  }

  lemma GoldenStoryStaysActive(w: World, c: Core, cat: Category, lore: string, newAge: int)
    requires c.profile.storyVersion == 2 && c.story.status == Active && c.turnCount < 90
    ensures
      var s := StoryAfter(w, c, cat, lore, newAge, false);
      s.Some? && s.value.status == Active
  {
  }

  /** What a steady turn makes of the rule-owned fields a golden run depends on. */
  predicate SteadyResult(w: World, c: Core, r: Core) {
    && r.realm == c.realm && r.realmTurns == c.realmTurns + 1 && r.profile == c.profile
    && r.story.status == Active && !Blocked(r)
    && InScale(r.attributes) && Aptitude(r.attributes) >= 21
    && r.attributes.rootBone == c.attributes.rootBone && r.attributes.physique == c.attributes.physique
    && r.age == c.age + SteadyYears(w, c) && r.lifespan == c.lifespan && !r.over && !r.finale
    && (forall k :: k in c.flags || k in PreparationAids(Bump(c)) ==> k in r.flags)
    && r.stage == c.stage
  }

  lemma SteadyOutcome(w: World, c: Core, k: nat)
    requires OnRoute(c, k) && c.realmTurns < Span(c.realm) && k < 89
    requires c.age + SteadyYears(w, c) < c.lifespan
    ensures SteadyResult(w, c, Apply(Bump(c), TurnDelta(w, c, Steady)))
  {
    hide TurnEvent, StoryAfter, ElapsedYears, SettleLifespan, AttributeChanges, PreparationAids;
    hide EntryAge, LifespanFloor, PeakYears, RequirementsMet, AddAll, RemoveAll, Blockers;
    hide PacedStage, ShiftAttributes, Aptitude;
    var b := Bump(c);
    var newAge := c.age + SteadyYears(w, c);
    SteadyTurnSurvives(w, c, k);
    SteadyEffects(c.effects);
    AptitudeOnRoute(c);
    SteadyAptitude(w, b, c.attributes);
    GoldenStoryStaysActive(w, b, Steady, TurnEvent(w, b, Steady, newAge).lore, newAge);
    var d := TurnDelta(w, c, Steady);
    assert d.reason == NoReason && !d.over;
    var r := Apply(b, d);
    AddAllNothing(AddAll(RemoveAll(c.effects, d.removed), d.added));
  }

  lemma AptitudeOnRoute(c: Core)
    requires InScale(c.attributes)
    ensures HighAptitudeV2(c) <==> c.profile.storyVersion == 2 && Aptitude(c.attributes) >= 21
  {
  }

  lemma SteadyStage(w: World, c: Core, k: nat, r: Core)
    requires OnRoute(c, k) && c.realmTurns < Span(c.realm) && SteadyResult(w, c, r)
    ensures
      var after := Staged(w, r);
      && after == r.(stage := PacedStage(r))
      && PacedStage(r) == 1 + r.realmTurns / TurnsPerStage(r.realm) <= Stages(r.realm)
      && HighAptitudeV2(r) && HighAptitudeV2(after)
  {
    hide EntryAge, LifespanFloor, PeakYears, RequirementsMet, Blockers, ElapsedYears, Aptitude, PreparationAids;
    hide Staged;
    AptitudeOnRoute(r);
    AptitudeOnRoute(c);
    SpanIsShort(c.realm);
    AttemptOnlyAtSpanEnd(c, k);
    StagingOnlyMovesStage(w, r);
    assert c.stage == 1 + c.realmTurns / TurnsPerStage(c.realm);
    assert c.stage <= PacedStage(r);
  }

  lemma SteadyPreparation(w: World, c: Core, k: nat, r: Core)
    requires OnRoute(c, k) && c.realmTurns < Span(c.realm) && SteadyResult(w, c, r)
    ensures r.realmTurns == Span(r.realm) ==> RequirementsMet(r.(stage := PacedStage(r)))
  {
  }

  /** A steady golden turn ages the character and either stays on the route or is its last. */
  lemma SteadyTurn(w: World, c: Core, k: nat)
    requires OnRoute(c, k) && c.realmTurns < Span(c.realm)
    ensures
      var r := RuleTurn(w, c, GoldenInput(c));
      if c.age + SteadyYears(w, c) < c.lifespan then
        && OnRoute(r, k + 1) && r.realm == c.realm && r.age == c.age + SteadyYears(w, c)
        && r.lifespan == c.lifespan && r.profile == c.profile
        && r.attributes.rootBone == c.attributes.rootBone
        && r.attributes.physique == c.attributes.physique
      else
        && r.over && !r.finale && r.reason == LifespanSpent
        && r.realm == c.realm && r.turnCount == k + 1
  {
    hide Apply, Staged, SettleTurn, EntryAge, LifespanFloor, PeakYears, Blockers, RequirementsMet, ElapsedYears;
    hide PacedStage, HighAptitudeV2, Aptitude, CanBreakThrough;
    AttemptOnlyAtSpanEnd(c, k);
    TurnIsLegal(w, c, GoldenInput(c));
    TurnCountsOnce(w, c, GoldenInput(c));
    SpanIsShort(c.realm);
    assert k < 87;
    if c.age + SteadyYears(w, c) < c.lifespan {
      SteadyOutcome(w, c, k);
      var settled := Apply(Bump(c), TurnDelta(w, c, Steady));
      SteadyStage(w, c, k, settled);
      SteadyPreparation(w, c, k, settled);
      SteadyKeepsRoute(w, c, k, settled);
      OneFurtherOnRoute(c, k, RuleTurn(w, c, Pick(0)));
    } else {
      SteadyDeath(w, c, k);
    }
  }

  /** One ordinary turn further along the same realm. */
  predicate OneFurther(c: Core, r: Core) {
    && RunInvariant(r) && CountersAgree(r) && r.turnCount == c.turnCount + 1
    && r.realm == c.realm && r.realmTurns == c.realmTurns + 1 && r.profile == c.profile
    && r.started && !r.over && !r.finale && !r.localStory
    && HighAptitudeV2(r) && !Blocked(r) && r.story.status == Active && r.stage == PacedStage(r)
    && (r.realmTurns == Span(r.realm) ==> RequirementsMet(r))
    && r.age <= c.age + PeakYears(c.profile.difficulty, c.realm) && r.lifespan == c.lifespan
  }

  lemma OneFurtherOnRoute(c: Core, k: nat, r: Core)
    requires OnRoute(c, k) && c.realmTurns < Span(c.realm) && OneFurther(c, r)
    ensures OnRoute(r, k + 1)
  {
    hide EntryAge, LifespanFloor, PeakYears, Blockers, RequirementsMet, HighAptitudeV2, RunInvariant;
    hide PacedStage, Span;
    var peak := PeakYears(c.profile.difficulty, c.realm);
    assert (c.realmTurns + 1) * peak == c.realmTurns * peak + peak;
  }

  lemma SteadyKeepsRoute(w: World, c: Core, k: nat, settled: Core)
    requires OnRoute(c, k) && c.realmTurns < Span(c.realm) && SteadyResult(w, c, settled)
    requires settled == Apply(Bump(c), TurnDelta(w, c, Steady))
    requires !CanBreakThrough(c) && CountedOnce(c, RuleTurn(w, c, Pick(0)))
    requires RunInvariant(RuleTurn(w, c, Pick(0)))
    ensures OneFurther(c, RuleTurn(w, c, Pick(0)))
    ensures
      var r := RuleTurn(w, c, Pick(0));
      && r.age == c.age + SteadyYears(w, c) && r.attributes == settled.attributes
  {
    hide Apply, Staged, TurnDelta, EntryAge, LifespanFloor, PeakYears, Blockers, RequirementsMet, ElapsedYears;
    hide Aptitude, CanBreakThrough, RunInvariant, SteadyYears, PreparationAids, Span;
    SteadyStage(w, c, k, settled);
    SteadyPreparation(w, c, k, settled);
    SteadyYearsAtRealm(w, c);
    var after := settled.(stage := PacedStage(settled));
    assert RuleTurn(w, c, Pick(0)) == Recorded(after, TurnDelta(w, c, Steady).eventId);
    ApplyKeepsCounters(Bump(c), TurnDelta(w, c, Steady));
    RecordingKeepsGates(after, TurnDelta(w, c, Steady).eventId);
  }

  lemma RecordingKeepsGates(c: Core, eventId: string)
    ensures RequirementsMet(Recorded(c, eventId)) == RequirementsMet(c)
    ensures HighAptitudeV2(Recorded(c, eventId)) == HighAptitudeV2(c)
    ensures PacedStage(Recorded(c, eventId)) == PacedStage(c)
  {
  }

  lemma SteadyDeath(w: World, c: Core, k: nat)
    requires OnRoute(c, k) && c.realmTurns < Span(c.realm) && !CanBreakThrough(c)
    requires c.lifespan <= c.age + SteadyYears(w, c)
    ensures
      var r := RuleTurn(w, c, Pick(0));
      r.over && !r.finale && r.reason == LifespanSpent && r.realm == c.realm
  {
    hide TurnEvent, StoryAfter, ElapsedYears, AttributeChanges, PreparationAids, AdvancedStage, Blockers;
    hide EntryAge, LifespanFloor, PeakYears, RequirementsMet, AddAll, RemoveAll, ShiftAttributes, CanBreakThrough;
    hide Aptitude;
    SteadyTurnSurvives(w, c, k);
  }

  // ---- An attempt ----------------------------------------------------------

  /** Every attempt of the route succeeds: one realm up, or the end of the run in Ascension. */
  lemma AttemptTurn(w: World, c: Core, k: nat)
    requires OnRoute(c, k) && c.realmTurns == Span(c.realm)
    ensures
      var r := RuleTurn(w, c, GoldenInput(c));
      && r.age == c.age && r.profile == c.profile && r.attributes == c.attributes
      && r.realm == c.realm + 1 && r.turnCount == k + 1
      && r.lifespan == BreakthroughLifespan(r.realm, c.lifespan, c.attributes, c.profile.heavenly,
                                            c.profile.difficulty)
      && if c.realm == TRIBULATION then r.over && r.finale && r.reason == Ascended
         else OnRoute(r, k + 1)
  {
    hide EntryAge, PeakYears, LifespanFloor, Blockers, RequirementsMet, Aptitude, BreakthroughLifespan;
    hide Apply, AttachStory, AttemptDelta;
    AttemptOnlyAtSpanEnd(c, k);
    TurnCountsOnce(w, c, GoldenInput(c));
    TurnIsLegal(w, c, GoldenInput(c));
    AttemptFields(w, c, k);
    if c.realm != TRIBULATION {
      FloorAfterBreakthrough(c);
      AttemptKeepsRoute(w, c, k);
    }
  }

  lemma AttemptFields(w: World, c: Core, k: nat)
    requires OnRoute(c, k) && CanBreakThrough(c)
    ensures
      var r := AfterAttempt(w, c, AttemptOutcome(w, c));
      && r.age == c.age && r.profile == c.profile && r.attributes == c.attributes && r.effects == c.effects
      && r.realm == c.realm + 1 && r.stage == 1 && r.realmTurns == 0
      && r.lifespan == BreakthroughLifespan(r.realm, c.lifespan, c.attributes, c.profile.heavenly,
                                            c.profile.difficulty)
      && r.over == r.finale == (r.realm == ASCENSION) && (r.over ==> r.reason == Ascended)
      && r.story.status == Active && r.localStory == c.localStory
  {
    hide EntryAge, PeakYears, LifespanFloor, Blockers, RequirementsMet, BreakthroughLifespan, StoryAfter;
    hide PacedStage, NormalizeAttributes, Aptitude, Apply, AttemptDelta, CanBreakThrough;
    SpanIsShort(c.realm);
    GateIsLive(c);
    GoldenStoryStaysActive(w, c, Risk, "", c.age);
    GoldenStoryStaysActive(w, Bump(c), Risk, "", c.age);
    var d := AttachStory(w, Bump(c), AttemptOutcome(w, c));
    assert d == AttemptDelta(w, c).(story := d.story);
    SuccessFields(w, c, Bump(c), d.story);
  }

  lemma SuccessFields(w: World, gate: Core, c: Core, story: Option<StoryState>)
    requires CanBreakThrough(gate) && gate.profile.golden && HighAptitudeV2(gate) && SameCharacter(gate, c)
    requires 1 <= c.age && !c.finale
    ensures
      var r := Apply(c, AttemptDelta(w, gate).(story := story));
      && r.age == gate.age && r.profile == c.profile && r.attributes == gate.attributes
      && r.effects == gate.effects && r.localStory == c.localStory
      && r.realm == gate.realm + 1 && r.stage == 1 && r.realmTurns == 0
      && r.lifespan == BreakthroughLifespan(r.realm, gate.lifespan, gate.attributes, gate.profile.heavenly,
                                            gate.profile.difficulty)
      && r.over == r.finale == (r.realm == ASCENSION) && (r.over ==> r.reason == Ascended)
      && (story.Some? ==> r.story == story.value)
  {
    hide Blockers, RequirementsMet, AddAll, RemoveAll, HighAptitudeV2;
    AddAllNothing(c.effects);
    GateIsLive(gate);
  }

  lemma FloorAfterBreakthrough(c: Core)
    requires c.realm < ASCENSION
    ensures
      var next: RealmIndex := c.realm + 1;
      LifespanFloor(c.profile.difficulty, next)
        <= BreakthroughLifespan(next, c.lifespan, c.attributes, c.profile.heavenly, c.profile.difficulty)
  {
    hide NormalizeAttribute;
    var next: RealmIndex := c.realm + 1;
    var (low, high) := LifespanRange(next);
    var points := NormalizeAttribute(c.attributes.physique) + NormalizeAttribute(c.attributes.rootBone);
    assert 0 <= (high - low) / 20 * points;
  }

  lemma AttemptKeepsRoute(w: World, c: Core, k: nat)
    requires OnRoute(c, k) && CanBreakThrough(c) && c.realmTurns == Span(c.realm) && c.realm < TRIBULATION
    requires RunInvariant(RuleTurn(w, c, Pick(2))) && CountedOnce(c, RuleTurn(w, c, Pick(2)))
    requires LifespanFloor(c.profile.difficulty, c.realm + 1)
             <= BreakthroughLifespan(c.realm + 1, c.lifespan, c.attributes, c.profile.heavenly,
                                     c.profile.difficulty)
    ensures OnRoute(RuleTurn(w, c, Pick(2)), k + 1)
  {
    hide AfterAttempt, AttemptOutcome, PeakYears, LifespanFloor, RequirementsMet, BreakthroughLifespan;
    hide RunInvariant, Aptitude, CanBreakThrough, EntryAge;
    EntryAgesAreReached(c.profile.difficulty, c.realm);
    AttemptFields(w, c, k);
    SpanIsShort(c.realm);
    SpanIsShort(c.realm + 1);
    var r := RuleTurn(w, c, Pick(2));
    assert r == Recorded(AfterAttempt(w, c, AttemptOutcome(w, c)), "");
    assert r.attributes == c.attributes;
    assert PacedStage(r) == 1;
  }

  // ---- The whole route -----------------------------------------------------

  predicate GoldenStart(c: Core) { OnRoute(c, 0) }

  /** The seeded years of `n` steady turns in Tribulation, from draw counter `counter` on. */
  function TribulationYears(w: World, c: Core, counter: nat, n: nat): nat {
    if n == 0 then 0
    else TribulationYears(w, c, counter, n - 1)
         + SteadyYears(w, c.(realm := TRIBULATION, rngCounter := counter + n - 1))
  }

  lemma YearsReadCounterOnly(w: World, c: Core, d: Core)
    requires c.profile == d.profile && c.profile.storyVersion == 2
    requires c.realm == d.realm && c.rngCounter == d.rngCounter
    ensures SteadyYears(w, c) == SteadyYears(w, d)
  {
  }

  /** The first 77 turns are safe on every difficulty and for every seed. */
  lemma {:induction false} RouteToTribulation(w: World, c: Core, n: nat)
    requires GoldenStart(c) && n <= 77
    ensures OnRoute(GoldenRun(w, c, n), n) && GoldenRun(w, c, n).profile == c.profile
    ensures n <= 76 ==> GoldenRun(w, c, n).realm < TRIBULATION
    ensures n == 77 ==> GoldenRun(w, c, n).realm == TRIBULATION && GoldenRun(w, c, n).realmTurns == 0
  {
    hide RuleTurn, GoldenInput, EntryAge, LifespanFloor, PeakYears, RequirementsMet, Blockers, HighAptitudeV2;
    hide RunInvariant, PacedStage, ElapsedYears, BreakthroughLifespan;
    if n > 0 {
      var before := GoldenRun(w, c, n - 1);
      RouteToTribulation(w, c, n - 1);
      SpanIsShort(before.realm);
      if before.realmTurns < Span(before.realm) {
        SteadyTurnSurvives(w, before, n - 1);
        SteadyTurn(w, before, n - 1);
      } else {
        AttemptTurn(w, before, n - 1);
      }
    }
    EntryIsLinear(GoldenRun(w, c, n).realm);
  }

  lemma EntryIsLinear(realm: RealmIndex)
    ensures Entry(TRIBULATION) == 77
    ensures realm < TRIBULATION ==> Entry(realm) + Span(realm) <= 76
    ensures realm == TRIBULATION ==> Entry(realm) == 77
  {
  }

  /** How the last realm goes: alive exactly while the drawn years fit the lifespan. */
  lemma {:induction false} InsideTribulation(w: World, c: Core, j: nat)
    requires GoldenStart(c) && j <= 9
    ensures
      var t := GoldenRun(w, c, 77);
      var r := GoldenRun(w, c, 77 + j);
      if t.age + TribulationYears(w, c, 77, j) < t.lifespan then
        && OnRoute(r, 77 + j) && r.realm == TRIBULATION && r.realmTurns == j && r.profile == c.profile
        && r.age == t.age + TribulationYears(w, c, 77, j) && r.lifespan == t.lifespan
      else
        r.over && !r.finale && r.reason == LifespanSpent && r.realm == TRIBULATION && 78 <= r.turnCount <= 77 + j
  {
    hide RuleTurn, EntryAge, LifespanFloor, PeakYears, RequirementsMet, Blockers, HighAptitudeV2;
    hide PacedStage, ElapsedYears, BreakthroughLifespan;
    RouteToTribulation(w, c, 77);
    if j > 0 {
      InsideTribulation(w, c, j - 1);
      var before := GoldenRun(w, c, 77 + j - 1);
      SpanIsShort(TRIBULATION);
      if before.over {
        OverStays(w, before);
      } else {
        TribulationStep(w, c, before, j);
      }
    }
  }

  lemma OverStays(w: World, c: Core)
    requires c.over
    ensures RuleTurn(w, c, GoldenInput(c)) == c
  {
  }

  lemma TribulationStep(w: World, c: Core, before: Core, j: nat)
    requires OnRoute(before, 77 + j - 1) && before.realm == TRIBULATION && before.realmTurns == j - 1 && 1 <= j <= 9
    requires before.profile == c.profile
    ensures
      var years := TribulationYears(w, c, 77, j) - TribulationYears(w, c, 77, j - 1);
      var r := RuleTurn(w, before, GoldenInput(before));
      && years == SteadyYears(w, before)
      && if before.age + years < before.lifespan then
           && OnRoute(r, 77 + j) && r.realm == TRIBULATION && r.realmTurns == j && r.profile == c.profile
           && r.age == before.age + years && r.lifespan == before.lifespan
         else r.over && !r.finale && r.reason == LifespanSpent && r.realm == TRIBULATION
              && r.turnCount == 77 + j
  {
    hide RuleTurn, EntryAge, LifespanFloor, PeakYears, RequirementsMet, Blockers, RunInvariant;
    hide PacedStage, ElapsedYears, GoldenInput;
    SpanIsShort(TRIBULATION);
    SteadyTurn(w, before, 77 + j - 1);
    YearsReadCounterOnly(w, before, c.(realm := TRIBULATION, rngCounter := 77 + j - 1));
  }

  lemma {:induction false} TribulationYearsBelowPeak(w: World, c: Core, counter: nat, n: nat)
    requires c.profile.storyVersion == 2
    ensures TribulationYears(w, c, counter, n) <= n * PeakYears(c.profile.difficulty, TRIBULATION)
  {
    hide PeakYears, ElapsedYears;
    if n > 0 {
      TribulationYearsBelowPeak(w, c, counter, n - 1);
      SteadyYearsBelowPeak(w, Bump(c.(realm := TRIBULATION, rngCounter := counter + n - 1)));
    }
  }

  /**
   Every golden run is over by turn 87. It ascends, on turn 87 exactly, if and only
   if the nine seeded year draws of Tribulation fit the lifespan it entered with;
   otherwise it dies there of age. On Easy they always fit.
   */
  lemma GoldenVerdict(w: World, c: Core)
    requires GoldenStart(c)
    ensures
      var t, r := GoldenRun(w, c, 77), GoldenRun(w, c, 87);
      && r.over && (r.finale <==> t.age + TribulationYears(w, c, 77, 9) < t.lifespan)
      && (r.finale ==> r.realm == ASCENSION && r.turnCount == 87 && r.reason == Ascended)
      && (!r.finale ==> r.realm == TRIBULATION && 78 <= r.turnCount <= 86 && r.reason == LifespanSpent)
    ensures c.profile.difficulty == Easy ==> GoldenRun(w, c, 87).finale
  {
    hide RuleTurn, LifespanFloor, RequirementsMet, Blockers, HighAptitudeV2, RunInvariant, PeakYears;
    hide EntryAge, PacedStage, ElapsedYears, BreakthroughLifespan, GoldenInput, TribulationYears;
    var t, last := GoldenRun(w, c, 77), GoldenRun(w, c, 86);
    RouteToTribulation(w, c, 77);
    InsideTribulation(w, c, 9);
    SpanIsShort(TRIBULATION);
    if last.over {
      OverStays(w, last);
    } else {
      AttemptTurn(w, last, 86);
    }
    if c.profile.difficulty == Easy {
      GoldenProfileIsV2(c);
      TribulationYearsBelowPeak(w, c, 77, 9);
      EntryAgesAreReached(Easy, TRIBULATION);
      YouthBeforeTribulation(Easy, TRIBULATION);
    }
  }

  lemma GoldenProfileIsV2(c: Core)
    requires HighAptitudeV2(c)
    ensures c.profile.storyVersion == 2
  {
  }

  // ---- The driver loop -----------------------------------------------------

  /** The validation driver: at most `maxTurns` turns, stopping when the run is over. */
  method RunGoldenRoute(engine: GameEngine, narrator: Answer, maxTurns: nat) returns (ascended: bool)
    requires Worded(engine.w) && Verdict(narrator).None?
    requires EngineInvariant(engine.w, engine.session.View()) && engine.session.pending.None?
    requires GoldenStart(engine.session.core)
    modifies engine.session
    ensures engine.session.core == GoldenRun(engine.w, old(engine.session.core), Min(maxTurns, 87))
    ensures ascended <==>
      var t := GoldenRun(engine.w, old(engine.session.core), 77);
      87 <= maxTurns && t.age + TribulationYears(engine.w, old(engine.session.core), 77, 9) < t.lifespan
  {
    hide RuleTurn, EngineInvariant, GoldenStart, TribulationYears, ElapsedYears, Step, CanBreakThrough;
    ghost var start := engine.session.core;
    GoldenVerdict(engine.w, start);
    GoldenStartCounters(start);
    ghost var n: nat := 0;
    while engine.session.core.turnCount < maxTurns && !engine.session.core.over
      invariant EngineInvariant(engine.w, engine.session.View()) && engine.session.pending.None?
      invariant n <= Min(maxTurns, 87) && engine.session.core == GoldenRun(engine.w, start, n)
      invariant !engine.session.core.over ==> engine.session.core.turnCount == n
      decreases 87 - n
    {
      GoldenRunIsLive(engine.w, start, n);
      PlayHoldsOrSettles(engine.w, engine.session.View(), GoldenInput(engine.session.core).slot, narrator);
      engine.Handle(Play(GoldenInput(engine.session.core), narrator));
      n := n + 1;
      if !engine.session.core.over {
        GoldenRunCounts(engine.w, start, n);
      }
    }
    OverRunStands(engine.w, start, n, Min(maxTurns, 87));
    if maxTurns < 87 {
      NoEarlyAscension(engine.w, start, maxTurns);
    }
    ascended := engine.session.core.finale;
  }

  lemma NoEarlyAscension(w: World, c: Core, n: nat)
    requires GoldenStart(c) && n < 87
    ensures !GoldenRun(w, c, n).finale
  {
    hide RuleTurn, RunInvariant, Blockers, RequirementsMet, HighAptitudeV2, TribulationYears, PacedStage;
    if n <= 77 {
      RouteToTribulation(w, c, n);
    } else {
      InsideTribulation(w, c, n - 77);
    }
  }

  lemma GoldenStartCounters(c: Core)
    requires GoldenStart(c)
    ensures c.turnCount == 0 && !c.over
  {
  }

  lemma {:induction false} OverRunStands(w: World, c: Core, n: nat, m: nat)
    requires n <= m && (n < m ==> GoldenRun(w, c, n).over)
    ensures GoldenRun(w, c, m) == GoldenRun(w, c, n)
    decreases m
  {
    hide RuleTurn;
    if n < m {
      OverRunStands(w, c, n, m - 1);
      OverStays(w, GoldenRun(w, c, m - 1));
    }
  }

  /** A golden run that is still live after `n` turns has counted `n` and is short of 87. */
  lemma GoldenRunIsLive(w: World, c: Core, n: nat)
    requires GoldenStart(c) && n <= 87 && !GoldenRun(w, c, n).over
    ensures n < 87
  {
    GoldenVerdict(w, c);
  }

  lemma {:induction false} GoldenRunCounts(w: World, c: Core, n: nat)
    requires GoldenStart(c) && !GoldenRun(w, c, n).over
    ensures GoldenRun(w, c, n).turnCount == n && GoldenRun(w, c, n).started && !GoldenRun(w, c, n).localStory
  {
    hide RuleTurn, GoldenInput, RunInvariant, Blockers, RequirementsMet;
    if n > 0 {
      var before := GoldenRun(w, c, n - 1);
      if before.over {
        OverStays(w, before);
      } else {
        GoldenRunCounts(w, c, n - 1);
        TurnCountsOnce(w, before, GoldenInput(before));
        TurnStaysGlobal(w, before, GoldenInput(before));
      }
    }
  }

  lemma TurnStaysGlobal(w: World, c: Core, i: Input)
    requires !c.localStory
    ensures !RuleTurn(w, c, i).localStory
  {
    hide Apply, AttachStory, TurnDelta, AttemptOutcome, CanBreakThrough, StageDelta;
    if c.started && !c.over {
      if Attempts(w, c, i) {
        ApplyKeepsCounters(Bump(c), AttachStory(w, Bump(c), AttemptOutcome(w, c)));
      } else {
        TurnMovesCounters(w, c, TurnDelta(w, c, CategoryOf(i)));
      }
    }
  }

  // ---- The driver's own profile --------------------------------------------

  /** The character the driver creates: heavenly talent, 7/7/7/3/3/3, Normal difficulty. */
  function DriverStart(dice: Dice, seed: string, rootBonus: nat, key: string, name: string, place: string): Core {
    StartCore(Profile(seed, true, Normal, true, rootBonus, key, 2), Attributes(7, 7, 7, 3, 3, 3), 0, [], place,
              OpeningStory(dice, 2, key, seed, name))
  }

  /** A world whose every rule draw is the greatest 64-bit word. */
  ghost predicate AlwaysHigh(w: World) {
    forall seed, counter, stream :: w.dice.digest(seed, counter, stream) % TWO_64 == TWO_64 - 1
  }

  lemma DriverIsGolden(
    dice: Dice, seed: string, rootBonus: nat, key: string, name: string, place: string)
    ensures GoldenStart(DriverStart(dice, seed, rootBonus, key, name, place))
  {
    hide CommitmentPair;
    var c := DriverStart(dice, seed, rootBonus, key, name, place);
    StartingLifespanIsLong(c.attributes, true, Normal, 0);
    NoneBlocking(c.effects);
    AptitudeOnRoute(c);
    assert EntryAge(Normal, 0) == 16;
  }

  lemma HighYears(w: World, c: Core)
    requires AlwaysHigh(w) && c.profile.storyVersion == 2
    ensures SteadyYears(w, c) == PeakYears(c.profile.difficulty, c.realm)
  {
  }

  /** What stays of the driver's character when every draw is the greatest. */
  predicate DriverAt(c: Core) {
    && c.profile.difficulty == Normal && c.profile.heavenly
    && c.attributes.rootBone == 7 && c.attributes.physique == 3
    && c.age == EntryAge(Normal, c.realm) + c.realmTurns * PeakYears(Normal, c.realm)
    && (c.realm < TRIBULATION ==> c.lifespan <= 5800)
    && (c.realm == TRIBULATION ==> c.lifespan == 6200)
  }

  lemma DriverLifespan(realm: RealmIndex, current: int, a: Attributes)
    requires a.rootBone == 7 && a.physique == 3 && current <= 5800 && realm <= TRIBULATION
    ensures realm < TRIBULATION ==> BreakthroughLifespan(realm, current, a, true, Normal) <= 5800
    ensures realm == TRIBULATION ==> BreakthroughLifespan(realm, current, a, true, Normal) == 6200
  {
  }

  lemma DriverSteadyTurn(w: World, c: Core, k: nat)
    requires AlwaysHigh(w) && OnRoute(c, k) && DriverAt(c) && c.realmTurns < Span(c.realm) && k < 77
    ensures DriverAt(RuleTurn(w, c, GoldenInput(c)))
  {
    hide RuleTurn, EntryAge, PeakYears, LifespanFloor, RequirementsMet, Blockers, RunInvariant;
    hide ElapsedYears, GoldenInput, PacedStage, Span, SteadyYears, HighAptitudeV2;
    GoldenProfileIsV2(c);
    EntryIsLinear(c.realm);
    HighYears(w, c);
    SteadyTurnSurvives(w, c, k);
    SteadyTurn(w, c, k);
    var peak := PeakYears(Normal, c.realm);
    assert (c.realmTurns + 1) * peak == c.realmTurns * peak + peak;
  }

  lemma DriverTurn(w: World, c: Core, k: nat)
    requires AlwaysHigh(w) && OnRoute(c, k) && DriverAt(c) && k < 77
    ensures DriverAt(RuleTurn(w, c, GoldenInput(c)))
  {
    hide RuleTurn, EntryAge, PeakYears, LifespanFloor, RequirementsMet, Blockers, RunInvariant;
    hide ElapsedYears, BreakthroughLifespan, GoldenInput, PacedStage, HighAptitudeV2, Span;
    if c.realmTurns < Span(c.realm) {
      DriverSteadyTurn(w, c, k);
    } else {
      EntryAgesAreReached(Normal, c.realm);
      EntryIsLinear(c.realm);
      SpanIsShort(c.realm);
      AttemptTurn(w, c, k);
      DriverLifespan(c.realm + 1, c.lifespan, c.attributes);
    }
  }

  lemma {:induction false} DriverReachesTribulation(w: World, c: Core, n: nat)
    requires AlwaysHigh(w) && GoldenStart(c) && DriverAt(c) && n <= 77
    ensures DriverAt(GoldenRun(w, c, n))
  {
    hide RuleTurn, DriverAt, OnRoute, GoldenInput;
    if n > 0 {
      DriverReachesTribulation(w, c, n - 1);
      RouteToTribulation(w, c, n - 1);
      DriverTurn(w, GoldenRun(w, c, n - 1), n - 1);
    }
  }

  lemma {:induction false} HighTribulationYears(w: World, c: Core, n: nat)
    requires AlwaysHigh(w) && c.profile.storyVersion == 2 && c.profile.difficulty == Normal
    ensures TribulationYears(w, c, 77, n) == 400 * n
  {
    hide ElapsedYears, PeakYears;
    PeakYearsTable(Normal, TRIBULATION);
    if n > 0 {
      HighTribulationYears(w, c, n - 1);
      HighYears(w, c.(realm := TRIBULATION, rngCounter := 77 + n - 1));
    }
  }

  /**
   On Normal the route is not safe: with the greatest draws the driver's own
   character is 2820 at turn 77, may live to 6200, and dies in Tribulation.
   */
  lemma DriverMayDie(w: World, seed: string, rootBonus: nat, key: string, name: string, place: string)
    requires AlwaysHigh(w)
    ensures
      var r := GoldenRun(w, DriverStart(w.dice, seed, rootBonus, key, name, place), 87);
      r.over && !r.finale && r.realm == TRIBULATION && r.reason == LifespanSpent
  {
    hide RuleTurn, OnRoute, PeakYears, ElapsedYears, TribulationYears, OpeningStory;
    var c := DriverStart(w.dice, seed, rootBonus, key, name, place);
    DriverIsGolden(w.dice, seed, rootBonus, key, name, place);
    DriverReachesTribulation(w, c, 77);
    RouteToTribulation(w, c, 77);
    HighTribulationYears(w, c, 9);
    GoldenVerdict(w, c);
  }
}
