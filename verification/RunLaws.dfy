/**
 Realm and lifespan laws over whole runs: realms are climbed one gate at a time,
 stages stay in range and never fall inside a realm, and nobody lives past the
 lifespan cap except with a wound that the next turn punishes.
 */
module RunLaws {
  import opened GameConstants
  import opened StoryCatalog
  import opened GameSession
  import opened GameWorld
  import opened Realm
  import opened TurnRules
  import opened Engine
  import opened EngineLaws
  import opened ListLaws

  const START_AGE := 16

  /** A run as the character form starts it, its rule-owned bindings in place. */
  function StartCore(
    profile: Profile, attributes: Attributes, extraLifespan: int, titles: seq<string>,
    place: string, story: StoryState): Core
  {
    Core(profile, 0, 0, 0, true, false, false, NoReason,
         QI_REFINING, 1, START_AGE,
         StartingLifespan(QI_REFINING, attributes, profile.heavenly, profile.difficulty, extraLifespan),
         attributes, [], {}, titles, [], place, story, false, "", [])
  }

  // ---- Invariant and order -------------------------------------------------

  predicate RunInvariant(c: Core) {
    && 1 <= c.stage <= Stages(c.realm)
    && InScale(c.attributes)
    && 1 <= c.age
    && (!c.over ==> c.realm != ASCENSION && (c.age < c.lifespan || Blocked(c)))
  }

  /** A later state of the same climb. */
  predicate Rises(c: Core, r: Core) {
    c.age <= r.age && (c.realm < r.realm || (c.realm == r.realm && c.stage <= r.stage))
  }

  /** What a settled ordinary or local outcome may say about the character's numbers. */
  predicate OrdinaryDelta(c: Core, d: Delta) {
    && d.age.By? && 0 <= d.age.d && d.stage == Keep && d.realm == None && d.struck == None && !d.finale
    && (d.over <==> d.reason != NoReason)
    && (c.realm != ASCENSION && !d.over ==> c.age + d.age.d < Max(1, Changed(c.lifespan, d.lifespan)))
    && (c.realm != ASCENSION && c.lifespan <= c.age + d.age.d ==> d.over)
  }

  lemma SettledDeltaIsOrdinary(w: World, c: Core, cat: Category)
    ensures OrdinaryDelta(Bump(c), SettleTurn(w, Bump(c), cat))
  {
  }

  lemma LocalDeltaIsOrdinary(w: World, c: Core, cat: Category, option: LocalOption)
    ensures OrdinaryDelta(Bump(c.(localNode := option.next)), LocalDelta(w, c, cat, option))
  {
  }

  lemma AdvancedStageInRange(w: World, c: Core)
    requires 1 <= c.stage <= Stages(c.realm)
    ensures c.stage <= AdvancedStage(w, c) <= Stages(c.realm)
  {
  }

  lemma StagingOnlyMovesStage(w: World, c: Core)
    requires 1 <= c.stage <= Stages(c.realm) && InScale(c.attributes) && 1 <= c.age && 1 <= c.lifespan
    ensures Staged(w, c) == c.(stage := AdvancedStage(w, c))
  {
    hide AdvancedStage;
    AddAllNothing(c.titles);
    AddAllNothing(c.flags);
    AddAllNothing(c.effects);
  }

  /** The character's numbers after an ordinary outcome and its stage check. */
  lemma OrdinaryNumbers(w: World, c: Core, d: Delta)
    requires RunInvariant(c) && OrdinaryDelta(c, d)
    ensures
      var r := Staged(w, Apply(c, d));
      && r.realm == c.realm && c.stage <= r.stage <= Stages(c.realm)
      && InScale(r.attributes)
      && r.age == c.age + d.age.d && r.lifespan == Max(1, Changed(c.lifespan, d.lifespan))
      && r.over == (c.over || d.over)
  {
  }

  lemma OrdinaryKeepsInvariant(w: World, c: Core, d: Delta)
    requires RunInvariant(c) && !c.over && OrdinaryDelta(Bump(c), d)
    ensures RunInvariant(AfterTurn(w, c, d)) && Rises(c, AfterTurn(w, c, d))
    ensures AfterTurn(w, c, d).realm == c.realm
    ensures c.lifespan <= c.age ==> AfterTurn(w, c, d).over
  {
    hide Apply, Staged;
    OrdinaryNumbers(w, Bump(c), d);
  }

  // ---- Attempts ------------------------------------------------------------

  /** An attempt decided at `gate`, applied to a state that differs only in counters. */
  predicate SameCharacter(gate: Core, c: Core) {
    && c.realm == gate.realm && c.stage == gate.stage && c.age == gate.age && c.lifespan == gate.lifespan
    && c.attributes == gate.attributes && c.effects == gate.effects && c.over == gate.over
  }

  /** Success climbs one realm without losing lifespan; failure leaves a blocking wound. */
  predicate Attempted(gate: Core, r: Core) {
    && r.age == gate.age && r.attributes == gate.attributes
    && if r.realm == gate.realm then r.stage == gate.stage && Blocked(r) && !r.over
       else
         && r.realm == gate.realm + 1 && r.stage == 1 && gate.lifespan <= r.lifespan
         && (r.over <==> r.realm == ASCENSION) && r.effects == gate.effects
  }

  lemma AttemptResult(w: World, gate: Core, c: Core, story: Option<StoryState>)
    requires CanBreakThrough(gate) && SameCharacter(gate, c) && 1 <= c.age
    ensures Attempted(gate, Apply(c, AttemptDelta(w, gate).(story := story)))
  {
    hide BreakthroughSucceeds, AddAll, RemoveAll, BreakthroughLifespan, ShiftAttributes, RequirementsMet;
    AddAllNothing(c.effects);
    var d := AttemptDelta(w, gate).(story := story);
    var r := Apply(c, d);
    if d.struck.Some? {
      assert d.struck.value in r.effects;
      assert d.struck.value in Blockers(r.effects);
    }
  }

  lemma AttemptKeepsInvariant(gate: Core, r: Core)
    requires RunInvariant(gate) && CanBreakThrough(gate) && Attempted(gate, r)
    ensures RunInvariant(r) && Rises(gate, r)
  {
  }

  lemma AttemptMove(w: World, c: Core)
    requires RunInvariant(c) && CanBreakThrough(c)
    ensures Attempted(c, AfterAttempt(w, c, AttemptOutcome(w, c)))
  {
    hide Apply, StoryAfter, AttemptDelta, CanBreakThrough;
    var d := AttemptOutcome(w, c);
    var e := AttachStory(w, Bump(c), d);
    assert e == AttemptDelta(w, c).(story := e.story);
    AttemptResult(w, c, Bump(c), e.story);
  }

  lemma LocalAttempt(w: World, c: Core)
    requires RunInvariant(c) && CanBreakThrough(c)
    ensures Attempted(c, Apply(c, AttemptDelta(w, c)))
  {
    hide Apply, CanBreakThrough;
    assert AttemptDelta(w, c) == AttemptDelta(w, c).(story := None);
    AttemptResult(w, c, c, None);
  }

  // ---- One move ------------------------------------------------------------

  /** The state in which a turn's breakthrough attempt, if any, is decided. */
  function Gate(w: World, c: Core, i: Input): Core {
    if !c.localStory || w.localOption(Unread(c), i).None? then c
    else
      var option := w.localOption(Unread(c), i).value;
      AfterTurn(w, c.(localNode := option.next), LocalDelta(w, c, CategoryOf(i), option))
  }

  /** The laws of one settled turn of a live run. */
  predicate LegalTurn(w: World, c: Core, i: Input, r: Core) {
    && RunInvariant(r) && Rises(c, r)
    && (r.realm != c.realm ==>
        && CanBreakThrough(Gate(w, c, i)) && Gate(w, c, i).realm == c.realm
        && r.realm == c.realm + 1 && r.stage == 1 && Gate(w, c, i).lifespan <= r.lifespan)
    && (c.lifespan <= c.age ==> r == c || r.over)
  }

  lemma LocalTurnIsLegal(w: World, c: Core, i: Input)
    requires RunInvariant(c) && c.started && !c.over && c.localStory
    ensures LegalTurn(w, c, i, RuleTurn(w, c, i))
  {
    hide AfterTurn, LocalDelta, Apply, AttemptDelta, CanBreakThrough, Blockers;
    if w.localOption(Unread(c), i).Some? {
      var option := w.localOption(Unread(c), i).value;
      var moved := c.(localNode := option.next);
      var d := LocalDelta(w, c, CategoryOf(i), option);
      LocalDeltaIsOrdinary(w, c, CategoryOf(i), option);
      OrdinaryKeepsInvariant(w, moved, d);
      var settled := AfterTurn(w, moved, d);
      if CanBreakThrough(settled) {
        GateIsLive(settled);
        LocalAttempt(w, settled);
        AttemptKeepsInvariant(settled, Apply(settled, AttemptDelta(w, settled)));
      }
    }
  }

  lemma GateIsLive(c: Core)
    requires CanBreakThrough(c)
    ensures !c.over && !Blocked(c) && c.stage >= Stages(c.realm) && RequirementsMet(c) && c.realm < ASCENSION
  {
  }

  lemma TurnIsLegal(w: World, c: Core, i: Input)
    requires RunInvariant(c) && c.started && !c.over
    ensures LegalTurn(w, c, i, RuleTurn(w, c, i))
  {
    hide AfterTurn, AfterAttempt, TurnDelta, AttemptOutcome, CanBreakThrough, Blockers, Stages;
    if c.localStory {
      LocalTurnIsLegal(w, c, i);
    } else if Attempts(w, c, i) {
      GateIsLive(c);
      AttemptMove(w, c);
      AttemptKeepsInvariant(c, AfterAttempt(w, c, AttemptOutcome(w, c)));
    } else {
      assert OrdinaryDelta(Bump(c), TurnDelta(w, c, CategoryOf(i))) by {
        SettledDeltaIsOrdinary(w, c, CategoryOf(i));
        SettledIsTurnDelta(w, c, CategoryOf(i));
      }
      OrdinaryKeepsInvariant(w, c, TurnDelta(w, c, CategoryOf(i)));
    }
  }

  lemma SettledIsTurnDelta(w: World, c: Core, cat: Category)
    ensures TurnDelta(w, c, cat) == SettleTurn(w, Bump(c), cat)
  {
  }

  lemma MoveIsLegal(w: World, c: Core, m: Move)
    requires RunInvariant(c)
    ensures RunInvariant(RuleMove(w, c, m)) && Rises(c, RuleMove(w, c, m))
  {
    hide Blockers, Gate, CanBreakThrough;
    if m.Turn? && c.started && !c.over {
      hide RuleTurn;
      TurnIsLegal(w, c, m.input);
    }
  }

  // ---- Whole runs ----------------------------------------------------------

  /** The shortest Qi Refining life: the lowest cap on the hardest difficulty. */
  lemma StartingLifespanIsLong(attributes: Attributes, heavenly: bool, difficulty: Difficulty, extra: nat)
    ensures 77 <= StartingLifespan(QI_REFINING, attributes, heavenly, difficulty, extra)
  {
    hide NormalizeAttribute;
    assert LifespanRange(QI_REFINING) == (80, 120);
  }

  /** Every profile start, whatever its opening request brought, satisfies both invariants. */
  lemma StartIsLegal(
    w: World, profile: Profile, attributes: Attributes, extra: nat, titles: seq<string>, place: string,
    story: StoryState, opening: Answer)
    requires Worded(w) && InScale(attributes)
    ensures
      var s := Begun(w, StartCore(profile, attributes, extra, titles, place, story), opening);
      EngineInvariant(w, s) && RunInvariant(s.core) && CountersAgree(s.core)
  {
    hide StartingLifespan, ShownChoices, Normalized;
    StartingLifespanIsLong(attributes, profile.heavenly, profile.difficulty, extra);
    if Verdict(opening).None? {
      var c := StartCore(profile, attributes, extra, titles, place, story);
      ShownChoicesAreHonest(w, OpenedAt(c, opening), opening.choices, "");
    }
  }

  lemma {:induction false} ReplayIsLegal(w: World, c: Core, ms: seq<Move>)
    requires RunInvariant(c)
    ensures RunInvariant(Replay(w, c, ms))
  {
    hide RunInvariant, Rises, RuleMove;
    if ms != [] {
      ReplayIsLegal(w, c, ms[..|ms| - 1]);
      MoveIsLegal(w, Replay(w, c, ms[..|ms| - 1]), ms[|ms| - 1]);
    }
  }

  /** Between any two moments of a run the realm, then the stage inside it, never falls. */
  lemma {:induction false} RealmNeverFalls(w: World, c: Core, ms: seq<Move>, k: nat)
    requires RunInvariant(c) && k <= |ms|
    ensures Rises(Replay(w, c, ms[..k]), Replay(w, c, ms))
  {
    hide RunInvariant, RuleMove;
    if k == |ms| {
      assert ms[..k] == ms;
    } else {
      var before := ms[..|ms| - 1];
      assert before[..k] == ms[..k];
      RealmNeverFalls(w, c, before, k);
      ReplayIsLegal(w, c, before);
      MoveIsLegal(w, Replay(w, c, before), ms[|ms| - 1]);
    }
  }

  /**
   In every state a run can reach from a profile start, whatever was narrated: the
   stage is in range, and a live character is inside the lifespan cap or carries a
   blocking wound.
   */
  lemma ReachableStatesAreLegal(w: World, s: Session, es: seq<Event>)
    requires Worded(w) && EngineInvariant(w, s) && RunInvariant(s.core)
    ensures RunInvariant(Run(w, s, es).core)
    ensures Rises(s.core, Run(w, s, es).core)
  {
    hide RunInvariant, Step, Settles;
    RunIsReplay(w, s, es);
    ReplayIsLegal(w, s.core, Moves(w, s, es));
    RealmNeverFalls(w, s.core, Moves(w, s, es), 0);
    assert Replay(w, s.core, []) == s.core;
  }

  /** From a live state past its lifespan, a settled turn ends the run. */
  lemma OverdrawnLifespanEndsNextTurn(w: World, c: Core, i: Input)
    requires RunInvariant(c) && c.started && !c.over && c.lifespan <= c.age
    ensures RuleTurn(w, c, i) == c || RuleTurn(w, c, i).over
    ensures !c.localStory ==> RuleTurn(w, c, i).over
  {
    hide RunInvariant, Rises, Gate, CanBreakThrough, AfterTurn;
    TurnIsLegal(w, c, i);
    TurnCountsOnce(w, c, i);
  }
}
