/**
 Comparative laws of the settlement rules: which route and difficulty costs more
 years, when the risk route is really the deadlier one, what raises a breakthrough
 rate, which narrated texts reach the player, and how a story can end without
 ending its run.
 */
module RuleLaws {
  import opened GameConstants
  import opened RuleRng
  import opened StoryCatalog
  import opened GameSession
  import opened GameWorld
  import opened Realm
  import opened TurnRules
  import opened Engine
  import opened EngineLaws
  import opened RunLaws
  import opened AuthorityLaws
  import opened ListLaws

  // ---- Years ---------------------------------------------------------------

  lemma ProductGrows(x: nat, y: nat, a: nat, b: nat)
    requires x <= y && a <= b
    ensures x * a <= y * b
  {
    assert 0 <= x * (b - a) && 0 <= (y - x) * b;
    assert y * b - x * a == (y - x) * b + x * (b - a);
  }

  lemma HundredthsGrow(x: nat, y: nat)
    requires x <= y
    ensures Max(1, x / 100) <= Max(1, y / 100)
  {
  }

  lemma ScalingIsMonotone(years: nat, a: nat, b: nat, c: nat, d: nat)
    requires a <= b && c <= d
    ensures Max(1, years * a * c / 100) <= Max(1, years * b * d / 100)
  {
    hide Max;
    ProductGrows(years, years, a, b);
    ProductGrows(years * a, years * b, c, d);
    HundredthsGrow(years * a * c, years * b * d);
  }

  /** From one state and one draw, C takes at least as long as B or D, and these as long as A. */
  lemma RoutesByYears(w: World, c: Core)
    requires c.profile.storyVersion != 3
    ensures ElapsedYears(w, c, Steady) <= ElapsedYears(w, c, Chance) == ElapsedYears(w, c, Fate)
            <= ElapsedYears(w, c, Risk)
  {
    var (low, high) := YearRange(c.realm);
    var years := RandInt(Draw(w, c, "elapsed_years"), low, high);
    var tenths := DifficultyTenths(c.profile.difficulty);
    ScalingIsMonotone(years, RouteTenths(Steady), RouteTenths(Chance), tenths, tenths);
    ScalingIsMonotone(years, RouteTenths(Chance), RouteTenths(Risk), tenths, tenths);
  }

  /** A harder difficulty never takes fewer years. */
  lemma DifficultiesByYears(w: World, c: Core, cat: Category)
    requires c.profile.storyVersion != 3
    ensures
      var easy := c.(profile := c.profile.(difficulty := Easy));
      var normal := c.(profile := c.profile.(difficulty := Normal));
      var hard := c.(profile := c.profile.(difficulty := Hard));
      ElapsedYears(w, easy, cat) <= ElapsedYears(w, normal, cat) <= ElapsedYears(w, hard, cat)
  {
    hide Draw, Max;
    var (low, high) := YearRange(c.realm);
    var years := RandInt(Draw(w, c, "elapsed_years"), low, high);
    var route := RouteTenths(cat);
    assert forall d :: Draw(w, c.(profile := c.profile.(difficulty := d)), "elapsed_years")
                       == Draw(w, c, "elapsed_years") by { SameSeedSameDraw(w, c); }
    ScalingIsMonotone(years, route, route, 7, 10);
    ScalingIsMonotone(years, route, route, 10, 13);
  }

  lemma SameSeedSameDraw(w: World, c: Core)
    ensures forall d :: Draw(w, c.(profile := c.profile.(difficulty := d)), "elapsed_years")
                        == Draw(w, c, "elapsed_years")
  {
  }

  /** No turn of the run is a breakthrough attempt by slot C. */
  predicate NoAttempts(w: World, c: Core, ms: seq<Move>) {
    ms == [] ||
    (var m := ms[|ms| - 1];
     NoAttempts(w, c, ms[..|ms| - 1]) && (m.Turn? ==> !Attempts(w, Replay(w, c, ms[..|ms| - 1]), m.input)))
  }

  lemma LocalTurnAges(w: World, c: Core, i: Input)
    requires RunInvariant(c) && !c.over && c.localStory && w.localOption(Unread(c), i).Some?
    ensures AfterLocalTurn(w, c, CategoryOf(i), w.localOption(Unread(c), i).value).age
            == c.age + ElapsedYears(w, Bump(c), CategoryOf(i))
  {
    hide ElapsedYears, AfterTurn, SettleLifespan, RiskDeathReason, TurnEvent, StoryAfter, CanBreakThrough, NewAids;
    hide AttributeChanges, Apply, AttemptDelta;
    var option := w.localOption(Unread(c), i).value;
    var moved := c.(localNode := option.next);
    var d := LocalDelta(w, c, CategoryOf(i), option);
    LocalDeltaIsOrdinary(w, c, CategoryOf(i), option);
    SettledAge(w, moved, d);
    NodeTakesNoTime(w, c, option.next, CategoryOf(i));
    OrdinaryKeepsInvariant(w, moved, d);
    var settled := AfterTurn(w, moved, d);
    if CanBreakThrough(settled) {
      GateIsLive(settled);
      LocalAttempt(w, settled);
    }
  }

  lemma NodeTakesNoTime(w: World, c: Core, node: string, cat: Category)
    ensures ElapsedYears(w, Bump(c.(localNode := node)), cat) == ElapsedYears(w, Bump(c), cat)
  {
  }

  lemma SettledAge(w: World, c: Core, d: Delta)
    requires RunInvariant(c) && OrdinaryDelta(Bump(c), d)
    ensures AfterTurn(w, c, d).age == c.age + d.age.d
  {
    hide Apply, Staged;
    OrdinaryNumbers(w, Bump(c), d);
  }

  /** An attempt takes no time; every other turn that counts ages by its elapsed years. */
  lemma TurnAges(w: World, c: Core, i: Input)
    requires RunInvariant(c)
    ensures
      var r := RuleTurn(w, c, i);
      r.age == c.age + if r.turnCount == c.turnCount || Attempts(w, c, i) then 0
                       else ElapsedYears(w, Bump(c), CategoryOf(i))
  {
    hide AfterTurn, AfterAttempt, AfterLocalTurn, TurnDelta, AttemptOutcome, LocalDelta, CanBreakThrough, ElapsedYears;
    hide RunInvariant;
    TurnCountsOnce(w, c, i);
    if c.started && !c.over {
      if c.localStory {
        if w.localOption(Unread(c), i).Some? {
          LocalTurnAges(w, c, i);
        }
      } else if Attempts(w, c, i) {
        AttemptMove(w, c);
      } else {
        OrdinaryTurnAges(w, c, i);
      }
    }
  }

  lemma MoveAges(w: World, c: Core, m: Move)
    requires RunInvariant(c) && c.profile.storyVersion == 3
    ensures
      var r := RuleMove(w, c, m);
      && r.profile == c.profile && c.turnCount <= r.turnCount
      && r.age == c.age + if m.Turn? && Attempts(w, c, m.input) then 0 else r.turnCount / 4 - c.turnCount / 4
  {
    hide RuleTurn, Attempts, RunInvariant;
    if m.Turn? {
      TurnCountsOnce(w, c, m.input);
      TurnAges(w, c, m.input);
    }
  }

  /**
   The version 3 calendar: over any run a year passes with every fourth counted turn,
   whatever is chosen and narrated, except those spent on a breakthrough attempt.
   */
  lemma {:induction false} SeasonsOfVersionThree(w: World, c: Core, ms: seq<Move>)
    requires RunInvariant(c) && c.profile.storyVersion == 3
    ensures
      var r := Replay(w, c, ms);
      && RunInvariant(r) && r.profile == c.profile && c.turnCount <= r.turnCount
      && r.age <= c.age + r.turnCount / 4 - c.turnCount / 4
      && (NoAttempts(w, c, ms) ==> r.age == c.age + r.turnCount / 4 - c.turnCount / 4)
  {
    hide RuleMove, RunInvariant, Attempts;
    if ms != [] {
      var before := Replay(w, c, ms[..|ms| - 1]);
      SeasonsOfVersionThree(w, c, ms[..|ms| - 1]);
      MoveAges(w, before, ms[|ms| - 1]);
      MoveIsLegal(w, before, ms[|ms| - 1]);
    }
  }

  // ---- Seeded adversity ----------------------------------------------------

  /** The chance after the cap of twelve hundredths, over the same denominator. */
  function CappedChance(c: Core, cat: Category, newAge: int): int {
    Min(12000 * Max(1, c.lifespan), RiskChance(c, cat, newAge))
  }

  lemma ChanceIsNotNegative(c: Core, cat: Category, newAge: int)
    ensures 0 <= RiskChance(c, cat, newAge)
  {
    var life, risky := Max(1, c.lifespan), cat == Risk;
    var base := (if risky then 4 else 0)
                + (if c.profile.difficulty == Hard then (if risky then 6 else 3) else 0)
                + Shortfall(c) * (if risky then 1 else 4);
    assert 0 <= base * (100 * life);
  }

  /** A version 3 turn kills exactly when its draw is below the capped chance. */
  lemma DeathIsBelowCappedChance(w: World, c: Core, cat: Category, newAge: int)
    ensures
      RiskDeathReason(w, c, cat, newAge) != NoReason <==>
      c.profile.storyVersion == 3
      && Draw(w, c, "risk_death") * (100000 * Max(1, c.lifespan)) < CappedChance(c, cat, newAge) * TWO_64
  {
    hide RiskChance;
    ChanceIsNotNegative(c, cat, newAge);
    var word, life, chance := Draw(w, c, "risk_death"), Max(1, c.lifespan), RiskChance(c, cat, newAge);
    CapBound(word, life);
    if chance <= 12000 * life {
      ScalesUp(chance, 12000 * life);
    } else {
      ScalesUp(12000 * life, chance);
    }
  }

  lemma CapBound(word: nat, life: nat)
    requires 1 <= life
    ensures RollsBelow(word, 120) <==> word * (100000 * life) < 12000 * life * TWO_64
  {
    var k := 100 * life;
    assert word * (100000 * life) == word * 1000 * k;
    assert 12000 * life * TWO_64 == 120 * TWO_64 * k;
    if word * 1000 < 120 * TWO_64 {
      assert 0 < (120 * TWO_64 - word * 1000) * k;
    } else {
      assert 0 <= (word * 1000 - 120 * TWO_64) * k;
    }
  }

  lemma ScalesUp(a: int, b: int)
    requires a <= b
    ensures a * TWO_64 <= b * TWO_64
  {
  }

  lemma BelowCap(base: nat, life: nat, strain: nat, weight: nat)
    requires base <= 51 && 1 <= life && strain <= 35 * life && weight <= 20
    ensures base * 100 * life + strain * weight < 12000 * life
  {
    ProductGrows(base * 100, 5100, life, life);
    ProductGrows(strain, 35 * life, weight, 20);
  }

  /** No character within its lifespan reaches the cap. */
  lemma CapIsOutOfReach(c: Core, cat: Category, newAge: int)
    requires InScale(c.attributes) && newAge <= Max(1, c.lifespan)
    ensures CappedChance(c, cat, newAge) == RiskChance(c, cat, newAge) < 12000 * Max(1, c.lifespan)
  {
    hide Strain;
    var risky := cat == Risk;
    var base := (if risky then 4 else 0)
                + (if c.profile.difficulty == Hard then (if risky then 6 else 3) else 0)
                + Shortfall(c) * (if risky then 1 else 4);
    StrainBound(c, newAge);
    BelowCap(base, Max(1, c.lifespan), Strain(c, newAge), if risky then 20 else 6);
  }

  lemma StrainBound(c: Core, newAge: int)
    requires newAge <= Max(1, c.lifespan)
    ensures Strain(c, newAge) <= 35 * Max(1, c.lifespan)
  {
  }

  /** Both chances by years of life, missing points and strain. */
  lemma ChanceTerms(c: Core, newAge: int)
    ensures
      var hard, life := if c.profile.difficulty == Hard then 1 else 0, Max(1, c.lifespan);
      var missing := Shortfall(c) * life;
      && RiskChance(c, Steady, newAge) == 300 * (hard * life) + 400 * missing + 6 * Strain(c, newAge)
      && RiskChance(c, Risk, newAge) == 400 * life + 600 * (hard * life) + 100 * missing + 20 * Strain(c, newAge)
  {
    hide Shortfall, Strain;
  }

  /**
   The capped risk of C is above that of A exactly while A is below the cap and the
   aptitude shortfall is small enough: each missing point weighs four times as much on
   the other routes.
   */
  lemma RiskRouteIsDeadlierIff(c: Core, newAge: int)
    ensures
      var hard := if c.profile.difficulty == Hard then 1 else 0;
      CappedChance(c, Steady, newAge) < CappedChance(c, Risk, newAge) <==>
      && RiskChance(c, Steady, newAge) < 12000 * Max(1, c.lifespan)
      && 300 * Shortfall(c) * Max(1, c.lifespan) < (400 + 300 * hard) * Max(1, c.lifespan) + 14 * Strain(c, newAge)
  {
    hide RiskChance, Strain, Shortfall;
    ChanceTerms(c, newAge);
    var hard, life := if c.profile.difficulty == Hard then 1 else 0, Max(1, c.lifespan);
    assert 300 * Shortfall(c) * life == 300 * (Shortfall(c) * life);
    assert (400 + 300 * hard) * life == 400 * life + 300 * (hard * life);
  }

  /** So a young character with aptitude ten or less, nine on Hard, is safer on C than on A. */
  lemma LowAptitudeFearsTheSteadyRoute(w: World, c: Core, newAge: int)
    requires c.profile.storyVersion == 3 && Strain(c, newAge) == 0
    requires Aptitude(c.attributes) <= if c.profile.difficulty == Hard then 9 else 10
    ensures RiskChance(c, Risk, newAge) < RiskChance(c, Steady, newAge)
    ensures InScale(c.attributes) ==> CappedChance(c, Risk, newAge) < CappedChance(c, Steady, newAge)
    ensures RiskDeathReason(w, c, Risk, newAge) != NoReason ==> RiskDeathReason(w, c, Steady, newAge) != NoReason
  {
    var life, short := Max(1, c.lifespan), Shortfall(c);
    var hard := if c.profile.difficulty == Hard then 1 else 0;
    assert RiskChance(c, Steady, newAge) == (3 * hard + 4 * short) * 100 * life;
    assert RiskChance(c, Risk, newAge) == (4 + 6 * hard + short) * 100 * life;
    assert 4 + 6 * hard + short < 3 * hard + 4 * short;
    MoreIsMore(4 + 6 * hard + short, 3 * hard + 4 * short, life);
    MoreIsMore(RiskChance(c, Risk, newAge), RiskChance(c, Steady, newAge), TWO_64);
    if InScale(c.attributes) {
      CapIsOutOfReach(c, Steady, newAge);
      CapIsOutOfReach(c, Risk, newAge);
    }
  }

  lemma MoreIsMore(a: int, b: int, life: int)
    requires a < b && 0 < life
    ensures a * 100 * life < b * 100 * life && a * life < b * life
  {
  }

  // ---- Breakthrough rate ---------------------------------------------------

  /** Better aptitude never lowers the rate; in Qi Refining youth never does either. */
  lemma RateRisesWithAptitude(c: Core, a: Attributes, age: int)
    requires InScale(c.attributes) && InScale(a)
    requires c.attributes.comprehension <= a.comprehension && c.attributes.rootBone <= a.rootBone
    requires c.attributes.luck <= a.luck && age <= c.age
    ensures BreakthroughRate(c) <= BreakthroughRate(c.(attributes := a, age := age))
  {
  }

  // ---- Narrated texts ------------------------------------------------------

  /** The slots the engine may rewrite: C while an attempt is allowed, A while wounded. */
  predicate Reserved(c: Core, slot: nat) {
    if CanBreakThrough(c) then slot == 2 else slot == 0 && Blocked(c)
  }

  /**
   At every other slot the player is shown the narrated text exactly when it is neither
   English nor reads as a breakthrough, and the slot's fallback in its place otherwise.
   */
  lemma HarmlessTextsAreShown(w: World, c: Core, cs: seq<string>, slot: nat)
    requires Worded(w) && |Normalized(cs)| == 4 && slot < 4 && !Reserved(c, slot)
    ensures
      var text, shown := Normalized(cs)[slot], ShownChoices(w, c, cs)[slot];
      if !w.english(text) && !w.mentions(text) then shown == text else shown == w.fallback(Unread(c), slot)
  {
    hide Normalized, CanBreakThrough, Blocked;
    assert !w.mentions(w.fallback(Unread(c), slot));
  }

  /** An accepted ordinary turn therefore shows every harmless text of its answer outside the reserved slots. */
  lemma AcceptedTextsReachThePlayer(w: World, s: Session, cat: Category, a: Answer, slot: nat)
    requires Worded(w) && Verdict(a).None? && slot < 4
    ensures
      var d := TurnDelta(w, s.core, cat);
      var t := AcceptTurn(w, s, d, a);
      |t.choices| == 4
      && (!Reserved(AfterTurn(w, s.core, d), slot) ==>
            var text := Normalized(a.choices)[slot];
            if !w.english(text) && !w.mentions(text) then t.choices[slot] == text
            else t.choices[slot] == w.fallback(Unread(AfterTurn(w, s.core, d)), slot))
  {
    hide Normalized, ShownChoices, AfterTurn, TurnDelta, Reserved;
    var c := AfterTurn(w, s.core, TurnDelta(w, s.core, cat));
    if !Reserved(c, slot) {
      HarmlessTextsAreShown(w, c, a.choices, slot);
    }
  }

  /** A local input shows at every slot that slot's own authored text, and none once the run is over. */
  lemma LocalTextsAreShown(w: World, s: Session, i: Input, slot: nat)
    requires slot < 4
    ensures
      var t := LocalTurn(w, s, i);
      match w.localOption(Unread(s.core), i)
      case None => |t.choices| == 4 && t.choices[slot] == w.localText(Unread(s.core), slot)
      case Some(option) =>
        var c := AfterLocalTurn(w, s.core, CategoryOf(i), option);
        if c.over then t.choices == [] else |t.choices| == 4 && t.choices[slot] == w.localText(Unread(c), slot)
  {
    hide AfterLocalTurn, LocalDelta;
  }

  /** What the reserved slots show: C keeps or gains a breakthrough text, A names the wounds to heal. */
  lemma ReservedTexts(w: World, c: Core, cs: seq<string>)
    requires Worded(w) && |Normalized(cs)| == 4
    ensures
      var shown := ShownChoices(w, c, cs);
      && (CanBreakThrough(c) ==>
            shown[2] == if !w.english(Normalized(cs)[2]) && w.mentions(Normalized(cs)[2]) then Normalized(cs)[2]
                        else w.challenge(c.realm + 1))
      && (Blocked(c) ==> shown[0] == w.healing(Blockers(c.effects)))
  {
    hide Normalized;
    assert !w.mentions(w.fallback(Unread(c), 2));
    assert !w.mentions(w.healing(Blockers(c.effects)));
  }

  /** The wounds keep the order in which they came, each once. */
  lemma WoundsKeepOrder(effects: seq<Effect>, e: Effect)
    ensures Blockers(effects + [e]) ==
      if Blocking(e) && e !in effects then Blockers(effects) + [e] else Blockers(effects)
  {
    assert (effects + [e])[..|effects|] == effects;
  }

  // ---- Wounds and preparation ----------------------------------------------

  lemma EffectsAfterTurn(w: World, c: Core, d: Delta)
    requires d.struck == None
    ensures AfterTurn(w, c, d).effects == AddAll(RemoveAll(c.effects, d.removed), d.added)
    ensures forall k :: k in c.flags || k in d.flags ==> k in AfterTurn(w, c, d).flags
    ensures AfterTurn(w, c, d).realm == if d.realm.Some? then d.realm.value else c.realm
  {
    hide AdvancedStage, ShiftAttributes;
    var settled := Apply(Bump(c), d);
    AddAllNothing(settled.effects);
    AddAllNothing(settled.flags);
    AddAllNothing(AddAll(RemoveAll(c.effects, d.removed), d.added));
  }

  /** An ordinary turn leaves a blocking wound exactly when there was one and A was not chosen. */
  lemma OnlySteadyHeals(w: World, c: Core, i: Input)
    requires OrdinaryTurn(w, c, i)
    ensures Blocked(RuleTurn(w, c, i)) <==> Blocked(c) && CategoryOf(i) != Steady
  {
    hide ElapsedYears, SettleLifespan, TurnEvent, StoryAfter, AttributeChanges, NewAids, RiskDeathReason, AfterTurn;
    hide CanBreakThrough, RunInvariant, Blockers;
    var d, r := TurnDelta(w, c, CategoryOf(i)), RuleTurn(w, c, i);
    EffectsAfterTurn(w, c, d);
    assert r.effects == AddAll(RemoveAll(c.effects, d.removed), d.added);
    if Blocked(r) {
      assert Blockers(r.effects)[0] in c.effects;
    }
    if Blocked(c) && CategoryOf(i) != Steady {
      assert Blockers(c.effects)[0] in r.effects;
    }
  }

  /** Granted preparation is complete: after such a turn every requirement of the realm is met. */
  lemma PreparationMeetsTheGate(w: World, c: Core, i: Input)
    requires OrdinaryTurn(w, c, i) && PreparationAids(Bump(c)) != []
    ensures RequirementsMet(RuleTurn(w, c, i))
  {
    hide ElapsedYears, SettleLifespan, TurnEvent, StoryAfter, AttributeChanges, RiskDeathReason, AfterTurn;
    hide CanBreakThrough, RunInvariant, Blockers, HighAptitudeV2;
    EffectsAfterTurn(w, c, TurnDelta(w, c, CategoryOf(i)));
  }

  // ---- Stories that end without their run ----------------------------------

  /** A live version 1 or 2 run about to play the turn on which its story settles. */
  predicate AtResolutionTurn(c: Core) {
    && RunInvariant(c) && c.started && !c.over
    && c.profile.storyVersion in {1, 2} && c.story.status == Active
    && c.turnCount + 1 == LastTurn(c.profile.storyVersion)
  }

  /** A local input that matches no option plays no turn. */
  predicate PlaysTurn(w: World, c: Core, i: Input) {
    c.localStory ==> w.localOption(Unread(c), i).Some?
  }

  predicate StoryDead(w: World, c: Core, cat: Category, newAge: int) {
    RiskDeathReason(w, c, cat, newAge) != NoReason || SettleLifespan(c, newAge).reason != NoReason
  }

  lemma StorySettlesAtLastTurn(w: World, c: Core, cat: Category, lore: string, newAge: int, dead: bool)
    requires c.profile.storyVersion in {1, 2} && c.story.status == Active
    requires c.turnCount == LastTurn(c.profile.storyVersion)
    ensures
      var s := StoryAfter(w, c, cat, lore, newAge, dead);
      s.Some? && s.value.status == (if dead then Failed else Resolved)
  {
  }

  /** The settlement of the last turn ends the run and the story together. */
  lemma LastSettlementEnds(w: World, c: Core, cat: Category)
    requires AtResolutionTurn(c)
    ensures
      var d := TurnDelta(w, c, cat);
      d.over && d.story.Some? && d.story.value.status != Active
  {
    hide ElapsedYears, SettleLifespan, TurnEvent, Draw, StoryAfter, AttributeChanges, NewAids;
    hide Blockers, RiskDeathReason;
    var b := Bump(c);
    var newAge := c.age + ElapsedYears(w, b, cat);
    StorySettlesAtLastTurn(w, b, cat, TurnEvent(w, b, cat, newAge).lore, newAge, StoryDead(w, b, cat, newAge));
  }

  /** What a settled outcome says of story and ending stays through the stage check. */
  lemma SettledEnds(w: World, c: Core, d: Delta)
    requires d.over && d.story.Some?
    ensures AfterTurn(w, c, d).over && AfterTurn(w, c, d).story == d.story.value
  {
    hide AdvancedStage, AddAll, RemoveAll, ShiftAttributes;
  }

  lemma OrdinaryResolutionEnds(w: World, c: Core, i: Input)
    requires AtResolutionTurn(c) && !c.localStory && !Attempts(w, c, i)
    ensures RuleTurn(w, c, i).over && RuleTurn(w, c, i).story.status != Active
  {
    hide TurnDelta, AfterTurn, RunInvariant, CanBreakThrough;
    LastSettlementEnds(w, c, CategoryOf(i));
    SettledEnds(w, c, TurnDelta(w, c, CategoryOf(i)));
  }

  /** In the local story the run is over before an authored attempt could be made. */
  lemma LocalResolutionEnds(w: World, c: Core, i: Input)
    requires AtResolutionTurn(c) && c.localStory && PlaysTurn(w, c, i)
    ensures RuleTurn(w, c, i).over && RuleTurn(w, c, i).story.status != Active
  {
    hide TurnDelta, AfterTurn, RunInvariant, AttemptDelta;
    var option := w.localOption(Unread(c), i).value;
    var moved := c.(localNode := option.next);
    assert AtResolutionTurn(moved) by { NodeIsNotRead(c, option.next); }
    LastSettlementEnds(w, moved, CategoryOf(i));
    SettledEnds(w, moved, LocalDelta(w, c, CategoryOf(i), option));
  }

  lemma NodeIsNotRead(c: Core, node: string)
    ensures RunInvariant(c.(localNode := node)) == RunInvariant(c)
  {
  }

  lemma AttemptResolutionSettles(w: World, c: Core)
    requires AtResolutionTurn(c) && CanBreakThrough(c)
    ensures
      var r := AfterAttempt(w, c, AttemptOutcome(w, c));
      r.story.status == Resolved && (r.over <==> c.realm + 1 == ASCENSION && BreakthroughSucceeds(w, c))
  {
    hide StoryAfter, Apply, CanBreakThrough, AttemptDelta, LastTurn, BreakthroughSucceeds;
    GateIsLive(c);
    AttemptMove(w, c);
    AttemptEnds(w, c);
    StorySettlesAtLastTurn(w, Bump(c), Risk, "", c.age, false);
    var d := AttachStory(w, Bump(c), AttemptOutcome(w, c));
    StoryOfApplied(Bump(c), d);
  }

  /** Only a successful attempt from Tribulation ends a run. */
  lemma AttemptEnds(w: World, c: Core)
    requires CanBreakThrough(c)
    ensures AfterAttempt(w, c, AttemptOutcome(w, c)).over <==> c.realm + 1 == ASCENSION && BreakthroughSucceeds(w, c)
  {
    hide StoryAfter, BreakthroughSucceeds, BreakthroughLifespan, AddAll, RemoveAll, ShiftAttributes, RequirementsMet;
  }

  lemma StoryOfApplied(c: Core, d: Delta)
    ensures d.story.Some? ==> Apply(c, d).story == d.story.value
  {
  }

  /**
   On its last turn the story always settles, but the run ends with it exactly when
   that turn is not a breakthrough, or is the one that ascends. Local turns always end
   it.
   */
  lemma ResolutionEndsRunIff(w: World, c: Core, i: Input)
    requires AtResolutionTurn(c) && PlaysTurn(w, c, i)
    ensures
      var r := RuleTurn(w, c, i);
      && r.story.status != Active
      && (r.over <==> !Attempts(w, c, i) || (c.realm + 1 == ASCENSION && BreakthroughSucceeds(w, c)))
  {
    hide AfterAttempt, AttemptOutcome, AfterTurn, TurnDelta, CanBreakThrough, RunInvariant, BreakthroughSucceeds;
    hide AfterLocalTurn, LocalDelta;
    if c.localStory {
      LocalResolutionEnds(w, c, i);
    } else if Attempts(w, c, i) {
      AttemptResolutionSettles(w, c);
    } else {
      OrdinaryResolutionEnds(w, c, i);
    }
  }
}
