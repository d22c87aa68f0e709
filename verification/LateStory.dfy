/**
 Runs that put their breakthrough off to the last turn of their story. A version 2 run
 reaches that turn from an ordinary start, resolves its story by the attempt and goes
 on; a version 1 run never can, because the rules grant it no preparation.
 */
module LateStory {
  import opened GameConstants
  import opened StoryCatalog
  import opened GameSession
  import opened GameWorld
  import opened Realm
  import opened TurnRules
  import opened Engine
  import opened EngineLaws
  import opened RunLaws
  import opened AuthorityLaws
  import opened RuleLaws
  import opened ListLaws

  // ---- Version 2: a reachable exception ------------------------------------

  /**
   An easy version 2 character of high aptitude and sound body; the character form
   accepts Attributes(8, 7, 6, 2, 5, 2), for one.
   */
  predicate Gifted(profile: Profile, attributes: Attributes) {
    && profile.storyVersion == 2 && profile.difficulty == Easy && InScale(attributes)
    && 21 <= Aptitude(attributes) && 12 <= attributes.rootBone + attributes.physique
  }

  /** After k steady turns in Qi Refining: one year each, the gate kept closed by choice. */
  predicate Waiting(c: Core, k: nat) {
    && c.started && !c.over && !c.localStory && c.realm == QI_REFINING
    && c.turnCount == c.realmTurns == c.rngCounter == k && |c.events| == k && c.age == START_AGE + k
    && 106 <= c.lifespan
    && c.profile.storyVersion == 2 && c.profile.difficulty == Easy
    && InScale(c.attributes) && 21 <= Aptitude(c.attributes)
    && c.effects == [] && c.story.status == Active
    && Min(9, 1 + k / 2) <= c.stage <= 9
    && (16 <= k ==> FoundationAid in c.flags)
  }

  lemma StartWaits(
    profile: Profile, attributes: Attributes, extra: nat, titles: seq<string>, place: string, story: StoryState)
    requires Gifted(profile, attributes) && story.status == Active
    ensures Waiting(StartCore(profile, attributes, extra, titles, place, story), 0)
  {
    hide NormalizeAttribute;
    assert NormalizeAttribute(attributes.physique) == attributes.physique;
    assert NormalizeAttribute(attributes.rootBone) == attributes.rootBone;
  }

  /** A steady turn on Easy takes exactly one year in Qi Refining. */
  lemma OneYear(w: World, c: Core)
    requires c.realm == QI_REFINING && c.profile.storyVersion == 2 && c.profile.difficulty == Easy
    ensures ElapsedYears(w, c, Steady) == 1
  {
    hide Draw;
  }

  lemma SteadyGrowth(w: World, c: Core, a: Attributes)
    requires InScale(a) && 21 <= Aptitude(a)
    ensures
      var d := AttributeChanges(w, c, Steady);
      var r := if d.Some? then ShiftAttributes(a, d.value) else a;
      InScale(r) && 21 <= Aptitude(r)
  {
  }

  lemma StoryWaits(w: World, c: Core, lore: string, newAge: int)
    requires c.profile.storyVersion == 2 && c.story.status == Active && c.turnCount < 90
    ensures
      var s := StoryAfter(w, c, Steady, lore, newAge, false);
      s.Some? && s.value.status == Active
  {
  }

  lemma NoPressure(c: Core, k: nat)
    requires Waiting(c, k) && k < 89
    ensures SettleLifespan(Bump(c), c.age + 1) == Aging(Keep, [], NoReason)
  {
  }

  /** The state between settlement and stage check. */
  predicate Settled(c: Core, r: Core) {
    && r == c.(turnCount := c.turnCount + 1, realmTurns := c.realmTurns + 1, age := c.age + 1,
               attributes := r.attributes, flags := r.flags, titles := r.titles, story := r.story)
    && InScale(r.attributes) && 21 <= Aptitude(r.attributes) && r.story.status == Active
    && (forall x :: x in c.flags || x in PreparationAids(Bump(c)) ==> x in r.flags)
  }

  lemma TurnSettles(w: World, c: Core, k: nat)
    requires Waiting(c, k) && k < 89
    ensures Settled(c, Apply(Bump(c), TurnDelta(w, c, Steady)))
  {
    hide TurnEvent, StoryAfter, ElapsedYears, SettleLifespan, AttributeChanges, PreparationAids;
    hide AddAll, RemoveAll, ShiftAttributes, Aptitude, RiskDeathReason;
    var b := Bump(c);
    OneYear(w, b);
    NoPressure(c, k);
    SteadyGrowth(w, b, c.attributes);
    StoryWaits(w, b, TurnEvent(w, b, Steady, c.age + 1).lore, c.age + 1);
    assert Blockers(c.effects) == [];
    AddAllNothing(c.effects);
    NothingRemoved();
    assert RiskDeathReason(w, b, Steady, c.age + 1) == NoReason by { NoSeededRisk(w, b, c.age + 1); }
  }

  lemma NothingRemoved()
    ensures RemoveAll<Effect>([], []) == [] && AddAll<Effect>([], []) == []
  {
  }

  lemma NoSeededRisk(w: World, c: Core, newAge: int)
    requires c.profile.storyVersion == 2
    ensures RiskDeathReason(w, c, Steady, newAge) == NoReason
  {
  }

  lemma StageFollows(w: World, c: Core)
    requires c.realm == QI_REFINING && c.effects == [] && 1 <= c.stage <= 9
    requires c.profile.storyVersion == 2 && InScale(c.attributes) && 21 <= Aptitude(c.attributes)
    ensures Max(c.stage, Min(9, 1 + c.realmTurns / 2)) <= AdvancedStage(w, c) <= 9
  {
    assert NormalizeAttributes(c.attributes) == c.attributes;
  }

  lemma SteadyTurnWaits(w: World, c: Core, k: nat)
    requires Waiting(c, k) && k < 89
    ensures Waiting(RuleTurn(w, c, Pick(0)), k + 1)
  {
    hide TurnDelta, Apply, AdvancedStage, CanBreakThrough, Aptitude, Staged;
    var r := Apply(Bump(c), TurnDelta(w, c, Steady));
    TurnSettles(w, c, k);
    StageFollows(w, r);
    StagingOnlyMovesStage(w, r);
  }

  /** Slot A pressed k times. */
  function Patience(k: nat): seq<nat> { seq(k, i => 0) }

  lemma {:induction false} PatienceWaits(w: World, c: Core, k: nat)
    requires Waiting(c, 0) && k <= 89
    ensures Waiting(RuleCampaign(w, c, Patience(k)), k)
  {
    hide Waiting, RuleTurn;
    if k > 0 {
      PatienceWaits(w, c, k - 1);
      assert Patience(k)[..k - 1] == Patience(k - 1);
      SteadyTurnWaits(w, RuleCampaign(w, c, Patience(k - 1)), k - 1);
    }
  }

  lemma WaitingCanAttempt(c: Core)
    requires Waiting(c, 89)
    ensures AtResolutionTurn(c) && CanBreakThrough(c) && CountersAgree(c)
  {
  }

  /**
   Every gifted start on Easy that presses A for 89 turns and then C resolves its story
   on turn 90 and goes on, under every digest and every seed.
   */
  lemma StoryResolvesAndRunGoesOn(
    w: World, profile: Profile, attributes: Attributes, extra: nat, titles: seq<string>, place: string,
    story: StoryState)
    requires Gifted(profile, attributes) && story.status == Active
    ensures
      var start := StartCore(profile, attributes, extra, titles, place, story);
      var before := RuleCampaign(w, start, Patience(89));
      var r := RuleCampaign(w, start, Patience(89) + [2]);
      && AtResolutionTurn(before) && CountersAgree(before)
      && r.turnCount == 90 && r.story.status == Resolved && !r.over
  {
    hide AfterAttempt, AttemptOutcome, Waiting, CanBreakThrough, AtResolutionTurn;
    var start := StartCore(profile, attributes, extra, titles, place, story);
    var before := RuleCampaign(w, start, Patience(89));
    StartWaits(profile, attributes, extra, titles, place, story);
    PatienceWaits(w, start, 89);
    WaitingCanAttempt(before);
    var slots := Patience(89) + [2];
    assert slots[..|slots| - 1] == Patience(89);
    LastTurnResolves(w, before);
  }

  lemma LastTurnResolves(w: World, c: Core)
    requires Waiting(c, 89)
    ensures
      var r := RuleTurn(w, c, Pick(2));
      r.turnCount == 90 && r.story.status == Resolved && !r.over
  {
    hide AfterAttempt, AttemptOutcome, CanBreakThrough, BreakthroughSucceeds;
    WaitingCanAttempt(c);
    AttemptResolutionSettles(w, c);
    TurnCountsOnce(w, c, Pick(2));
  }

  // ---- Version 1: no exception ---------------------------------------------

  /** A version 1 run outside the local story holds no preparation at all. */
  predicate Unprepared(c: Core) {
    c.profile.storyVersion == 1 && (c.localStory || (c.flags == [] && c.aids == {}))
  }

  lemma UnpreparedCannotAttempt(c: Core)
    requires Unprepared(c) && !c.localStory
    ensures !CanBreakThrough(c)
  {
    if c.realm != ASCENSION {
      assert RequiredAids(c.realm)[0] in RequiredAids(c.realm);
    }
  }

  lemma OrdinaryTurnPreparesNothing(w: World, c: Core, cat: Category)
    requires Unprepared(c) && !c.localStory
    ensures Unprepared(AfterTurn(w, c, TurnDelta(w, c, cat)))
  {
    hide TurnEvent, StoryAfter, ElapsedYears, SettleLifespan, AttributeChanges, RiskDeathReason;
    hide ShiftAttributes, AdvancedStage, Blockers;
    var d := TurnDelta(w, c, cat);
    assert d.flags == [] && d.aids == {};
    assert AddAll<Aid>([], []) == [];
  }

  lemma MovePreparesNothing(w: World, c: Core, m: Move)
    requires Unprepared(c)
    ensures Unprepared(RuleMove(w, c, m))
  {
    hide AfterTurn, AfterAttempt, AfterLocalTurn, TurnDelta, AttemptOutcome, LocalDelta, CanBreakThrough;
    if m.Turn? && c.started && !c.over {
      if c.localStory {
        match w.localOption(Unread(c), m.input)
        case None =>
        case Some(option) => LocalTurnCountsOnce(w, c, CategoryOf(m.input), option, "");
      } else {
        UnpreparedCannotAttempt(c);
        OrdinaryTurnPreparesNothing(w, c, CategoryOf(m.input));
      }
    }
  }

  lemma {:induction false} ReplayPreparesNothing(w: World, c: Core, ms: seq<Move>)
    requires Unprepared(c)
    ensures Unprepared(Replay(w, c, ms))
  {
    hide RuleMove;
    if ms != [] {
      ReplayPreparesNothing(w, c, ms[..|ms| - 1]);
      MovePreparesNothing(w, Replay(w, c, ms[..|ms| - 1]), ms[|ms| - 1]);
    }
  }

  /**
   In every reachable state of a version 1 run slot C never leads to an attempt, so the
   turn on which its story settles always ends the run.
   */
  lemma VersionOneEndsWithItsStory(
    w: World, profile: Profile, attributes: Attributes, extra: nat, titles: seq<string>, place: string,
    story: StoryState, ms: seq<Move>, i: Input)
    requires profile.storyVersion == 1
    ensures
      var c := Replay(w, StartCore(profile, attributes, extra, titles, place, story), ms);
      && !Attempts(w, c, i)
      && (AtResolutionTurn(c) && PlaysTurn(w, c, i) ==>
            RuleTurn(w, c, i).over && RuleTurn(w, c, i).story.status != Active)
  {
    hide Replay, RuleTurn, CanBreakThrough, AtResolutionTurn, StartingLifespan;
    var start := StartCore(profile, attributes, extra, titles, place, story);
    ReplayPreparesNothing(w, start, ms);
    var c := Replay(w, start, ms);
    if !c.localStory {
      UnpreparedCannotAttempt(c);
    }
    if AtResolutionTurn(c) && PlaysTurn(w, c, i) {
      ResolutionEndsRunIff(w, c, i);
    }
  }
}
