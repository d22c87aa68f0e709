/**
 What the authority projection leaves out, and where visible text still matters:
 equal projections may diverge, the opening's place reaches the story through the
 event lore, and typed letters name the shown slots only while the texts differ.
 */
module AuthorityLaws {
  import opened GameConstants
  import opened StoryCatalog
  import opened RuleRng
  import opened GameSession
  import opened GameWorld
  import opened Realm
  import opened TurnRules
  import opened Engine
  import opened EngineLaws
  import opened RunLaws

  /** The fields whose hash a replay compares across narrators. */
  datatype Authority = Authority(
    turnCount: nat, realmTurns: nat, rngCounter: nat,
    started: bool, over: bool, finale: bool, reason: Reason,
    seed: string, golden: bool, localStory: bool,
    realm: RealmIndex, stage: int, age: int, lifespan: int, attributes: Attributes,
    flags: seq<Aid>, titles: seq<string>, effects: seq<Effect>,
    storyKey: string, storyVersion: nat, story: StoryState)

  function Projection(c: Core): Authority {
    Authority(c.turnCount, c.realmTurns, c.rngCounter, c.started, c.over, c.finale, c.reason,
              c.profile.seed, c.profile.golden, c.localStory, c.realm, c.stage, c.age, c.lifespan,
              c.attributes, c.flags, c.titles, c.effects,
              c.profile.storyKey, c.profile.storyVersion, c.story)
  }

  /** An ordinary turn that the narrator route plays. */
  predicate OrdinaryTurn(w: World, c: Core, i: Input) {
    RunInvariant(c) && c.started && !c.over && !c.localStory && !Attempts(w, c, i)
  }

  lemma OrdinaryTurnAges(w: World, c: Core, i: Input)
    requires OrdinaryTurn(w, c, i)
    ensures RuleTurn(w, c, i).age == c.age + ElapsedYears(w, Bump(c), CategoryOf(i))
  {
    hide ElapsedYears, Apply, Staged, SettleLifespan, RiskDeathReason, TurnEvent, StoryAfter, CanBreakThrough;
    SettledDeltaIsOrdinary(w, c, CategoryOf(i));
    OrdinaryNumbers(w, Bump(c), SettleTurn(w, Bump(c), CategoryOf(i)));
  }

  lemma HardYearsAreMore(years: nat, route: nat)
    requires 3 <= years && 8 <= route
    ensures Max(1, years * route * 7 / 100) < Max(1, years * route * 13 / 100)
  {
  }

  /**
   The projection is not closed under turns: difficulty is outside it, and from
   Golden Core upward the easy and the hard twin of one state never age alike.
   */
  lemma ProjectionIsNotClosed(w: World, c: Core, i: Input)
    requires OrdinaryTurn(w, c, i) && c.profile.storyVersion != 3 && 2 <= c.realm
    ensures
      var easy := c.(profile := c.profile.(difficulty := Easy));
      var hard := c.(profile := c.profile.(difficulty := Hard));
      && Projection(easy) == Projection(hard)
      && Projection(RuleTurn(w, easy, i)) != Projection(RuleTurn(w, hard, i))
  {
    hide RuleTurn, Blockers;
    var easy := c.(profile := c.profile.(difficulty := Easy));
    var hard := c.(profile := c.profile.(difficulty := Hard));
    assert OrdinaryTurn(w, easy, i) && OrdinaryTurn(w, hard, i);
    OrdinaryTurnAges(w, easy, i);
    OrdinaryTurnAges(w, hard, i);
    var (low, high) := YearRange(c.realm);
    var years := RandInt(Draw(w, Bump(c), "elapsed_years"), low, high);
    HardYearsAreMore(years, RouteTenths(CategoryOf(i)));
  }

  // ---- The opening text ----------------------------------------------------

  /** Whether this turn puts the event's lore into a version 1 or 2 story. */
  predicate TellsLore(w: World, c: Core, cat: Category) {
    var b := Bump(c);
    var newAge := c.age + ElapsedYears(w, b, cat);
    && c.profile.storyVersion in {1, 2} && c.story.status == Active
    && b.turnCount % 4 == 0 && b.turnCount < LastTurn(c.profile.storyVersion)
    && SettleLifespan(b, newAge).reason == NoReason
  }

  lemma AppendedTailDiffers<T>(s: seq<T>, x: T, y: T, n: nat)
    requires 0 < n
    ensures Tail(s + [x], n) == Tail(s + [y], n) <==> x == y
  {
    var a, b := Tail(s + [x], n), Tail(s + [y], n);
    assert a[|a| - 1] == x && b[|b| - 1] == y;
  }

  lemma LoreIsKept(dice: Dice, version: nat, key: string, s: StoryState, i: StoryTurn, lore: string)
    requires version in {1, 2} && s.status == Active && 1 <= i.turn < LastTurn(version)
    requires i.turn % 4 == 0 && !i.dead
    ensures NextActive(dice, version, key, s, i) == NextActive(dice, version, key, s, i.(lore := lore))
            <==> i.lore == lore
  {
    hide PickMotif, NextFate, Dominant;
    var phase := PhaseAt(version, i.turn);
    AppendedTailDiffers(s.beats, PhaseBeat(i.newAge, phase, i.category, i.lore),
                        PhaseBeat(i.newAge, phase, i.category, lore), 6);
  }

  lemma SettledStory(w: World, c: Core, i: Input)
    requires OrdinaryTurn(w, c, i) && TellsLore(w, c, CategoryOf(i))
    ensures
      var b := Bump(c);
      var cat := CategoryOf(i);
      var newAge := c.age + ElapsedYears(w, b, cat);
      StoryAfter(w, b, cat, TurnEvent(w, b, cat, newAge).lore, newAge, false)
        == Some(RuleTurn(w, c, i).story)
  {
    hide ElapsedYears, SettleLifespan, TurnEvent, Draw, NextActive, AttributeChanges, AdvancedStage, NewAids;
    hide AddAll, RemoveAll, Blockers, CanBreakThrough, ShiftAttributes;
  }

  /**
   The opening answer may name the starting place, and event lore is told from that
   place: a due turn of a version 1 or 2 story from two places leaves the same
   story exactly when the two event texts are the same.
   */
  lemma OpeningPlaceReachesStory(w: World, c: Core, i: Input, place: string)
    requires OrdinaryTurn(w, c, i) && TellsLore(w, c, CategoryOf(i))
    ensures
      var d := c.(place := place);
      var newAge := c.age + ElapsedYears(w, Bump(c), CategoryOf(i));
      RuleTurn(w, c, i).story == RuleTurn(w, d, i).story
      <==> TurnEvent(w, Bump(c), CategoryOf(i), newAge).lore == TurnEvent(w, Bump(d), CategoryOf(i), newAge).lore
  {
    hide RuleTurn, NextActive, Blockers, SettleLifespan, ElapsedYears, TurnEvent, Draw, CanBreakThrough;
    var d := c.(place := place);
    var b, cat := Bump(c), CategoryOf(i);
    var newAge := c.age + ElapsedYears(w, b, cat);
    PlaceOnlyMovesLore(w, c, cat, place, newAge);
    PlaceOnlyMovesLore(w, b, cat, place, newAge);
    SettledStory(w, c, i);
    SettledStory(w, d, i);
    LoreIsKept(w.dice, c.profile.storyVersion, c.profile.storyKey, c.story,
               StoryTurn(b.turnCount, cat, TurnEvent(w, b, cat, newAge).lore, newAge, false,
                         Aptitude(c.attributes), c.profile.difficulty == Hard, Draw(w, b, "v3_arc_risk")),
               TurnEvent(w, Bump(d), cat, newAge).lore);
  }

  lemma PlaceOnlyMovesLore(w: World, c: Core, cat: Category, place: string, newAge: int)
    ensures
      var d := c.(place := place);
      && SettleLifespan(d, newAge) == SettleLifespan(c, newAge)
      && ElapsedYears(w, d, cat) == ElapsedYears(w, c, cat)
      && CanBreakThrough(d) == CanBreakThrough(c)
      && Draw(w, d, "v3_arc_risk") == Draw(w, c, "v3_arc_risk")
  {
  }

  // ---- Typed letters -------------------------------------------------------

  /** A typed letter counts through the normalized texts, not through the shown slots. */
  function LetterText(s: Session, slot: nat): Option<string> {
    var cs := Normalized(s.choices);
    if slot < |cs| then Some(cs[slot]) else None
  }

  lemma {:induction false} NonEmptyKeepsAll(cs: seq<string>)
    requires "" !in cs
    ensures NonEmpty(cs) == cs
  {
    if cs != [] {
      NonEmptyKeepsAll(cs[1..]);
    }
  }

  /** Letters and slot buttons agree at every slot exactly when no shown text repeats. */
  lemma LettersNameSlotsIffDistinct(s: Session)
    requires |s.choices| == 4 && "" !in s.choices
    ensures (forall slot :: 0 <= slot < 4 ==> LetterText(s, slot) == Text(s, Pick(slot)))
            <==> NoRepeats(s.choices)
  {
    hide Deduped, NonEmpty, Text, LetterText;
    NonEmptyKeepsAll(s.choices);
    if NoRepeats(s.choices) {
      DedupedDistinct(s.choices);
      LettersReadNormalized(s);
    }
    if forall slot :: 0 <= slot < 4 ==> LetterText(s, slot) == Text(s, Pick(slot)) {
      LettersReadNormalized(s);
      var cs := Normalized(s.choices);
      assert LetterText(s, 0) == Text(s, Pick(0));
      assert LetterText(s, 1) == Text(s, Pick(1));
      assert LetterText(s, 2) == Text(s, Pick(2));
      assert LetterText(s, 3) == Text(s, Pick(3));
      assert s.choices == cs == Deduped(s.choices);
    }
  }

  lemma LettersReadNormalized(s: Session)
    requires |s.choices| == 4
    ensures forall slot: nat :: slot < 4 ==>
      Text(s, Pick(slot)) == Some(s.choices[slot])
      && LetterText(s, slot) == if slot < |Normalized(s.choices)| then Some(Normalized(s.choices)[slot]) else None
  {
  }
}
