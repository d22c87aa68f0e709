/**
 The story laws on real runs: every settled turn of a version 3 game, ordinary,
 local or breakthrough, tells exactly one story turn, so the arc invariant holds in
 every state an engine can reach, whatever the narrator does.
 */
module StoryRuns {
  import opened GameConstants
  import opened RuleRng
  import opened StoryCatalog
  import opened StoryLaws
  import opened GameSession
  import opened GameWorld
  import opened Realm
  import opened TurnRules
  import opened Engine
  import opened EngineLaws
  import opened RunLaws

  /** What the story is told of an ordinary or local turn on the bumped state `b`. */
  function OrdinaryStoryTurn(w: World, b: Core, cat: Category): StoryTurn {
    var newAge := b.age + ElapsedYears(w, b, cat);
    StoryTurn(b.turnCount, cat, TurnEvent(w, b, cat, newAge).lore, newAge, Dies(w, b, cat, newAge),
              Aptitude(b.attributes), b.profile.difficulty == Hard, Draw(w, b, "v3_arc_risk"))
  }

  predicate Dies(w: World, b: Core, cat: Category, newAge: int) {
    RiskDeathReason(w, b, cat, newAge) != NoReason || SettleLifespan(b, newAge).reason != NoReason
  }

  function AttemptStoryTurn(w: World, b: Core): StoryTurn {
    StoryTurn(b.turnCount, Risk, "", b.age, false, Aptitude(b.attributes), b.profile.difficulty == Hard,
              Draw(w, b, "v3_arc_risk"))
  }

  /** The story turn of a settled move. */
  function StoryTurnOf(w: World, c: Core, i: Input): StoryTurn {
    if Attempts(w, c, i) then AttemptStoryTurn(w, Bump(c))
    else if c.localStory && w.localOption(Unread(c), i).Some? then
      OrdinaryStoryTurn(w, Bump(c.(localNode := w.localOption(Unread(c), i).value.next)), CategoryOf(i))
    else OrdinaryStoryTurn(w, Bump(c), CategoryOf(i))
  }

  lemma SettledDeltaTells(w: World, b: Core, cat: Category)
    requires b.profile.storyVersion == 3 && 1 <= b.turnCount
    ensures
      var d := SettleTurn(w, b, cat);
      var s := if d.story.Some? then d.story.value else b.story;
      s == StoryLaws.Told(w.dice, b.profile.storyKey, b.story, OrdinaryStoryTurn(w, b, cat))
    ensures SettleTurn(w, b, cat).over <==> Dies(w, b, cat, b.age + ElapsedYears(w, b, cat))
  {
    hide ElapsedYears, SettleLifespan, RiskDeathReason, TurnEvent, AttributeChanges, NewAids, Draw;
    hide NextActive, NextPostArc, Blockers;
    VersionThreeNeverResolvesPlainly(w, b, cat);
  }

  /** A version 3 turn leaves the plain resolved status to nobody; failed means dead. */
  lemma VersionThreeNeverResolvesPlainly(w: World, b: Core, cat: Category)
    requires b.profile.storyVersion == 3 && 1 <= b.turnCount
    ensures
      var i := OrdinaryStoryTurn(w, b, cat);
      var s := TurnStory(w.dice, 3, b.profile.storyKey, b.story, i);
      s.Some? ==> s.value.status != Resolved && (s.value.status == Failed ==> i.dead)
  {
    hide ElapsedYears, SettleLifespan, RiskDeathReason, TurnEvent, Draw, PickMotif, NextFate, TurnBeats, Dominant;
  }

  lemma AppliedStory(c: Core, d: Delta)
    ensures Apply(c, d).story == if d.story.Some? then d.story.value else c.story
    ensures Apply(c, d).over == (c.over || d.over)
  {
  }

  lemma LocalDeltaTells(w: World, c: Core, cat: Category, option: LocalOption)
    ensures
      var d, rule := LocalDelta(w, c, cat, option), TurnDelta(w, c.(localNode := option.next), cat);
      d.story == rule.story && d.over == rule.over
  {
  }

  /** After an outcome and its stage check, the story is the outcome's, or the old one. */
  lemma TurnStoryIsDelta(w: World, c: Core, d: Delta)
    ensures AfterTurn(w, c, d).story == if d.story.Some? then d.story.value else c.story
    ensures AfterTurn(w, c, d).over == (c.over || d.over)
  {
  }

  lemma LocalTurnTells(w: World, c: Core, cat: Category, option: LocalOption)
    requires c.profile.storyVersion == 3
    ensures
      var b := Bump(c.(localNode := option.next));
      AfterLocalTurn(w, c, cat, option).story
      == StoryLaws.Told(w.dice, c.profile.storyKey, c.story, OrdinaryStoryTurn(w, b, cat))
  {
    hide AfterTurn, SettleTurn, Apply, CanBreakThrough, StoryLaws.Told, OrdinaryStoryTurn;
    var moved := c.(localNode := option.next);
    SettledDeltaTells(w, Bump(moved), cat);
    LocalDeltaTells(w, c, cat, option);
    TurnStoryIsDelta(w, moved, LocalDelta(w, c, cat, option));
    var settled := AfterTurn(w, moved, LocalDelta(w, c, cat, option));
    if option.breakthrough && CanBreakThrough(settled) {
      AttemptHasNoStory(w, settled);
      AppliedStory(settled, AttemptDelta(w, settled));
    }
  }

  lemma AttemptHasNoStory(w: World, c: Core)
    requires CanBreakThrough(c)
    ensures AttemptDelta(w, c).story == None
  {
  }

  lemma AttemptTells(w: World, c: Core)
    requires c.profile.storyVersion == 3 && CanBreakThrough(c)
    ensures AfterAttempt(w, c, AttemptOutcome(w, c)).story
         == StoryLaws.Told(w.dice, c.profile.storyKey, c.story, AttemptStoryTurn(w, Bump(c)))
            || c.story.status in {Resolved, Failed}
  {
    hide Apply, AttemptDelta, NextActive, NextPostArc, Draw, CanBreakThrough;
    AppliedStory(Bump(c), AttachStory(w, Bump(c), AttemptOutcome(w, c)));
  }

  /** One settled turn, one told story turn. */
  lemma TurnTellsOnce(w: World, c: Core, i: Input)
    requires c.profile.storyVersion == 3 && c.started && !c.over && c.story.status !in {Resolved, Failed}
    ensures RuleTurn(w, c, i) == c
            || RuleTurn(w, c, i).story
               == StoryLaws.Told(w.dice, c.profile.storyKey, c.story, StoryTurnOf(w, c, i))
  {
    hide AfterTurn, AfterAttempt, AfterLocalTurn, AttemptOutcome, LocalDelta, SettleTurn, CanBreakThrough;
    hide StoryLaws.Told, OrdinaryStoryTurn, AttemptStoryTurn;
    var cat := CategoryOf(i);
    if c.localStory {
      match w.localOption(Unread(c), i)
      case None =>
      case Some(option) => LocalTurnTells(w, c, cat, option);
    } else if Attempts(w, c, i) {
      AttemptTells(w, c);
    } else {
      SettledDeltaTells(w, Bump(c), cat);
      TurnStoryIsDelta(w, c, TurnDelta(w, c, cat));
    }
  }

  // ---- Reachable states ----------------------------------------------------

  /** The arc invariant of a run; a failed arc ends its run and a closed one is at least ninety turns old. */
  ghost predicate StoryOk(c: Core) {
    && c.profile.storyVersion == 3 && c.started
    && ArcInvariant(c.story, c.turnCount)
    && (!c.over ==> c.story.status != Failed)
    && (c.story.status == PostArc ==> LastTurn(3) <= c.turnCount)
  }

  /** How one told turn can change the status of a moving arc. */
  lemma ToldStatus(dice: Dice, key: string, s: StoryState, i: StoryTurn)
    requires 1 <= i.turn && ArcInvariant(s, i.turn - 1) && s.status !in {Resolved, Failed}
    ensures
      var t := StoryLaws.Told(dice, key, s, i);
      && (t.status == Failed ==> i.dead)
      && (t.status == PostArc && s.status != PostArc ==> LastTurn(3) <= i.turn)
  {
  }

  /** A fatal turn ends the run, whichever way it was played. */
  lemma DeadMeansOver(w: World, c: Core, i: Input)
    requires c.profile.storyVersion == 3 && c.started && !c.over && StoryTurnOf(w, c, i).dead
    ensures RuleTurn(w, c, i) == c || RuleTurn(w, c, i).over
  {
    hide AfterTurn, AfterAttempt, AfterLocalTurn, AttemptOutcome, LocalDelta, SettleTurn, CanBreakThrough;
    hide Dies, ElapsedYears, TurnEvent, Draw;
    var cat := CategoryOf(i);
    if c.localStory {
      match w.localOption(Unread(c), i)
      case None =>
      case Some(option) =>
        SettledDeltaTells(w, Bump(c.(localNode := option.next)), cat);
        LocalDeltaTells(w, c, cat, option);
        LocalOver(w, c, cat, option);
    } else if !Attempts(w, c, i) {
      SettledDeltaTells(w, Bump(c), cat);
      TurnStoryIsDelta(w, c, TurnDelta(w, c, cat));
    }
  }

  lemma LocalOver(w: World, c: Core, cat: Category, option: LocalOption)
    ensures LocalDelta(w, c, cat, option).over ==> AfterLocalTurn(w, c, cat, option).over
  {
    hide AfterTurn, LocalDelta, Apply, CanBreakThrough;
    var moved := c.(localNode := option.next);
    TurnStoryIsDelta(w, moved, LocalDelta(w, c, cat, option));
    var settled := AfterTurn(w, moved, LocalDelta(w, c, cat, option));
    if option.breakthrough && CanBreakThrough(settled) {
      AppliedStory(settled, AttemptDelta(w, settled));
    }
  }

  lemma TurnKeepsStory(w: World, c: Core, i: Input)
    requires StoryOk(c)
    ensures StoryOk(RuleTurn(w, c, i))
  {
    hide ArcInvariant, StoryLaws.Told, RuleTurn, StoryTurnOf, LastTurn;
    if c.over {
      OverCoreStands(w, c, i);
    } else if RuleTurn(w, c, i) != c {
      TurnCountsOnce(w, c, i);
      LiveArc(c);
      TurnTellsOnce(w, c, i);
      StoryTurnNumber(w, c, i);
      var told := StoryTurnOf(w, c, i);
      TurnKeepsArc(w.dice, c.profile.storyKey, c.story, c.turnCount, told);
      ToldStatus(w.dice, c.profile.storyKey, c.story, told);
      if told.dead {
        DeadMeansOver(w, c, i);
      }
    }
  }

  lemma OverCoreStands(w: World, c: Core, i: Input)
    requires c.over
    ensures RuleTurn(w, c, i) == c
  {
  }

  lemma LiveArc(c: Core)
    requires StoryOk(c) && !c.over
    ensures c.story.status !in {Resolved, Failed}
  {
  }

  lemma StoryTurnNumber(w: World, c: Core, i: Input)
    ensures StoryTurnOf(w, c, i).turn == c.turnCount + 1
  {
  }

  lemma MoveKeepsStory(w: World, c: Core, m: Move)
    requires StoryOk(c)
    ensures StoryOk(RuleMove(w, c, m))
  {
    hide RuleTurn, ArcInvariant, Attempts;
    if m.Turn? {
      TurnKeepsStory(w, c, m.input);
    }
  }

  lemma {:induction false} ReplayKeepsStory(w: World, c: Core, ms: seq<Move>)
    requires StoryOk(c)
    ensures StoryOk(Replay(w, c, ms))
  {
    hide RuleMove, StoryOk;
    if ms != [] {
      ReplayKeepsStory(w, c, ms[..|ms| - 1]);
      MoveKeepsStory(w, Replay(w, c, ms[..|ms| - 1]), ms[|ms| - 1]);
    }
  }

  /**
   In every state a version 3 run can reach, through any narrator failures, retries,
   local turns and breakthroughs: no pressure, as many clues as chance turns, fresh
   motifs, and commitments in step with the arc.
   */
  lemma ReachableStoriesKeepArc(w: World, s: Session, es: seq<Event>)
    requires Worded(w) && EngineInvariant(w, s) && StoryOk(s.core)
    ensures StoryOk(Run(w, s, es).core)
  {
    hide StoryOk, Step, Settles, Replay, Moves, EngineInvariant;
    RunIsReplay(w, s, es);
    ReplayKeepsStory(w, s.core, Moves(w, s, es));
  }

  lemma TurnStoryContinues(w: World, c: Core, i: Input)
    requires StoryOk(c)
    ensures Continues(c.story, RuleTurn(w, c, i).story)
  {
    hide ArcInvariant, StoryLaws.Told, RuleTurn, StoryTurnOf, LastTurn, Continues;
    ContinuesSame(c.story, c.turnCount);
    if c.over {
      OverCoreStands(w, c, i);
    } else if RuleTurn(w, c, i) != c {
      LiveArc(c);
      TurnTellsOnce(w, c, i);
      StoryTurnNumber(w, c, i);
      TurnContinues(w.dice, c.profile.storyKey, c.story, c.turnCount, StoryTurnOf(w, c, i));
    }
  }

  lemma MoveStoryContinues(w: World, c: Core, m: Move)
    requires StoryOk(c)
    ensures Continues(c.story, RuleMove(w, c, m).story)
  {
    hide RuleTurn, ArcInvariant, Attempts, Continues, LastTurn;
    ContinuesSame(c.story, c.turnCount);
    if m.Turn? {
      TurnStoryContinues(w, c, m.input);
    }
  }

  /**
   Between any two moments of a real run both commitments keep their identity and
   only move forward, and a closed arc keeps everything it settled.
   */
  lemma {:induction false} RunStoriesContinue(w: World, c: Core, ms: seq<Move>, k: nat)
    requires StoryOk(c) && k <= |ms|
    ensures Continues(Replay(w, c, ms[..k]).story, Replay(w, c, ms).story)
  {
    hide RuleMove, StoryOk, Continues;
    ReplayKeepsStory(w, c, ms);
    if k == |ms| {
      assert ms[..k] == ms;
      SameStoryContinues(Replay(w, c, ms));
    } else {
      var before := ms[..|ms| - 1];
      assert before[..k] == ms[..k];
      RunStoriesContinue(w, c, before, k);
      ReplayKeepsStory(w, c, before);
      MoveStoryContinues(w, Replay(w, c, before), ms[|ms| - 1]);
      ContinuesOn(Replay(w, c, ms[..k]).story, Replay(w, c, before).story, Replay(w, c, ms).story);
    }
  }

  lemma SameStoryContinues(c: Core)
    requires StoryOk(c)
    ensures Continues(c.story, c.story)
  {
  }

  /** A version 3 start satisfies it. */
  lemma StartStoryIsOk(
    dice: Dice, profile: Profile, attributes: Attributes, extra: nat, titles: seq<string>, place: string, name: string)
    requires profile.storyVersion == 3
    ensures StoryOk(StartCore(profile, attributes, extra, titles, place,
                              OpeningStory(dice, 3, profile.storyKey, profile.seed, name)))
  {
    hide ArcInvariant, OpeningStory, StartingLifespan;
    OpeningMeetsArc(dice, profile.storyKey, profile.seed, name);
    OpeningIsActive(dice, profile.storyKey, profile.seed, name);
  }

  lemma OpeningIsActive(dice: Dice, key: string, seed: string, name: string)
    ensures OpeningStory(dice, 3, key, seed, name).status == Active
  {
  }

  // ---- The ninetieth turn --------------------------------------------------

  /**
   Turn ninety of a live run closes the arc unless it is fatal: it fails exactly
   when the exposure roll of the marks left by due risk turns does, so a run without
   marks resolves.
   */
  lemma NinetiethTurnCloses(w: World, c: Core, i: Input)
    requires StoryOk(c) && !c.over && c.turnCount == LastTurn(3) - 1 && !StoryTurnOf(w, c, i).dead
    requires RuleTurn(w, c, i) != c
    ensures
      var r, told := RuleTurn(w, c, i), StoryTurnOf(w, c, i);
      && c.story.status == Active && r.story.status == PostArc
      && r.story.fate.resolution == Some(if RiskRollFails(c.story.fate.riskMarks, told) then Failed else Resolved)
      && (c.story.fate.riskMarks == 0 ==> r.story.fate.resolution == Some(Resolved))
  {
    hide RuleTurn, ArcInvariant, StoryLaws.Told, StoryTurnOf;
    ArcIsActiveBeforeNinety(c);
    TurnTellsOnce(w, c, i);
    StoryTurnNumber(w, c, i);
    FinalTurnVerdict(w.dice, c.profile.storyKey, c.story, StoryTurnOf(w, c, i));
  }

  lemma ArcIsActiveBeforeNinety(c: Core)
    requires StoryOk(c) && !c.over && c.turnCount < LastTurn(3)
    ensures c.story.status == Active
  {
  }
}
