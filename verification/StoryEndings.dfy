/**
 How a version 1 or 2 story ends, told from the turns that were played: pressure, route
 counts and attitudes are folds over the moves of the run, and on the last turn they
 alone decide the ending and the reason the run is over.
 */
module StoryEndings {
  import opened GameConstants
  import opened RuleRng
  import opened StoryCatalog
  import opened GameSession
  import opened GameWorld
  import opened Realm
  import opened TurnRules
  import opened Engine
  import opened EngineLaws
  import opened RunLaws
  import opened RuleLaws
  import opened StoryRuns

  // ---- What was played -----------------------------------------------------

  /** A breakthrough attempt counts as the risk route. */
  function RouteOf(w: World, c: Core, i: Input): Category { if Attempts(w, c, i) then Risk else CategoryOf(i) }

  /** The turn a move plays, if any: its number and its route. */
  function PlayedTurn(w: World, c: Core, m: Move): Option<(nat, Category)> {
    if m.Turn? && RuleTurn(w, c, m.input).turnCount != c.turnCount then
      Some((c.turnCount + 1, RouteOf(w, c, m.input)))
    else None
  }

  /** All turns of a run, in order. */
  function Turns(w: World, c: Core, ms: seq<Move>): seq<(nat, Category)> {
    if ms == [] then []
    else
      Turns(w, c, ms[..|ms| - 1])
      + match PlayedTurn(w, Replay(w, c, ms[..|ms| - 1]), ms[|ms| - 1])
        case Some(t) => [t]
        case None => []
  }

  /** Only every fourth turn presses: risk by two, a steady hand relieves by one, never below zero. */
  function PressureOf(ts: seq<(nat, Category)>): nat {
    if ts == [] then 0
    else
      var (turn, route) := ts[|ts| - 1];
      var before := PressureOf(ts[..|ts| - 1]);
      if turn % 4 != 0 then before
      else match route
        case Risk => before + 2
        case Steady => if before == 0 then 0 else before - 1
        case _ => before
  }

  function Tally(ts: seq<(nat, Category)>, route: Category): nat {
    if ts == [] then 0
    else Tally(ts[..|ts| - 1], route) + if ts[|ts| - 1].1 == route then 1 else 0
  }

  /** The most travelled route, the earlier slot among equals. */
  predicate Leads(ts: seq<(nat, Category)>, route: Category) {
    && (forall o :: Tally(ts, o) <= Tally(ts, route))
    && (route != Steady ==> Tally(ts, Steady) < Tally(ts, route))
    && (route == Risk || route == Fate ==> Tally(ts, Chance) < Tally(ts, route))
    && (route == Fate ==> Tally(ts, Risk) < Tally(ts, route))
  }

  /** The story keeps count of the run. */
  ghost predicate Agrees(s: StoryState, version: nat, ts: seq<(nat, Category)>) {
    && s.pressure == PressureOf(ts)
    && (forall o :: RouteCount(s.routes, o) == Tally(ts, o))
    && s.ally == Min(10, Tally(ts, Steady)) && s.rival == -Min(10, Tally(ts, Risk))
    && s.neutral == Min(10, Tally(ts, Chance))
    && (forall o :: o in s.promises <==> exists k :: 0 <= k < |ts| && ts[k].0 % 4 == 0 && ts[k].1 == o)
    && (ts != [] ==> s.progress == ts[|ts| - 1].0 && s.phase == PhaseAt(version, Max(1, s.progress)))
  }

  // ---- One turn ------------------------------------------------------------

  lemma OneMoreTurn(ts: seq<(nat, Category)>, t: (nat, Category))
    ensures
      var more := ts + [t];
      && PressureOf(more) == (if t.0 % 4 != 0 then PressureOf(ts)
                              else match t.1
                                case Risk => PressureOf(ts) + 2
                                case Steady => if PressureOf(ts) == 0 then 0 else PressureOf(ts) - 1
                                case _ => PressureOf(ts))
      && (forall o :: Tally(more, o) == Tally(ts, o) + if t.1 == o then 1 else 0)
  {
    var more := ts + [t];
    assert more[..|more| - 1] == ts;
  }

  /** One told turn keeps the count. */
  lemma NextKeepsCount(
    dice: Dice, version: nat, key: string, s: StoryState, i: StoryTurn, ts: seq<(nat, Category)>)
    requires version in {1, 2} && 1 <= i.turn && Agrees(s, version, ts)
    ensures Agrees(NextActive(dice, version, key, s, i), version, ts + [(i.turn, i.category)])
  {
    hide PickMotif, NextFate, TurnBeats, Dominant, Outcome, PhaseAt, PressureOf, Tally;
    var more := ts + [(i.turn, i.category)];
    OneMoreTurn(ts, (i.turn, i.category));
    var next := NextActive(dice, version, key, s, i);
    forall o ensures o in next.promises <==> exists k :: 0 <= k < |more| && more[k].0 % 4 == 0 && more[k].1 == o {
      if o in s.promises {
        var k :| 0 <= k < |ts| && ts[k].0 % 4 == 0 && ts[k].1 == o;
        assert more[k] == ts[k];
      }
      if i.turn % 4 == 0 && o == i.category {
        assert more[|ts|] == (i.turn, i.category);
      }
      if exists k :: 0 <= k < |more| && more[k].0 % 4 == 0 && more[k].1 == o {
        var k :| 0 <= k < |more| && more[k].0 % 4 == 0 && more[k].1 == o;
        if k < |ts| {
          assert ts[k] == more[k];
        }
      }
    }
  }

  /** How a told turn ends the story, from what was played up to and including it. */
  lemma NextEnds(dice: Dice, version: nat, key: string, s: StoryState, i: StoryTurn, ts: seq<(nat, Category)>)
    requires version in {1, 2} && 1 <= i.turn && Agrees(s, version, ts)
    ensures
      var next := NextActive(dice, version, key, s, i);
      var more := ts + [(i.turn, i.category)];
      if i.dead then next.status == Failed && next.ending == FailureBranch
      else if i.turn < LastTurn(version) then next.status == Active && next.ending == NoEnding
      else
        && next.status == Resolved
        && (next.ending == FailureBranch <==> 8 <= PressureOf(more))
        && (next.ending != FailureBranch ==> next.ending.RouteEnding? && Leads(more, next.ending.route))
  {
    hide PickMotif, NextFate, TurnBeats, PhaseAt, PressureOf, Tally, LastTurn;
    OneMoreTurn(ts, (i.turn, i.category));
    NextKeepsCount(dice, version, key, s, i, ts);
    DominantLeads(NextActive(dice, version, key, s, i).routes, ts + [(i.turn, i.category)]);
  }

  lemma DominantLeads(r: Routes, ts: seq<(nat, Category)>)
    requires forall o :: RouteCount(r, o) == Tally(ts, o)
    ensures Leads(ts, Dominant(r))
  {
    hide Tally;
    assert RouteCount(r, Steady) == Tally(ts, Steady) && RouteCount(r, Chance) == Tally(ts, Chance);
    assert RouteCount(r, Risk) == Tally(ts, Risk) && RouteCount(r, Fate) == Tally(ts, Fate);
  }

  // ---- The settled turn tells it -------------------------------------------

  lemma SettlementTells(w: World, c: Core, cat: Category)
    requires c.profile.storyVersion in {1, 2} && c.story.status == Active
    ensures TurnDelta(w, c, cat).story ==
      Some(NextActive(w.dice, c.profile.storyVersion, c.profile.storyKey, c.story,
                      OrdinaryStoryTurn(w, Bump(c), cat)))
  {
    hide ElapsedYears, SettleLifespan, RiskDeathReason, TurnEvent, AttributeChanges, NewAids, Draw, NextActive;
    hide Blockers;
  }

  lemma AttemptTellsToo(w: World, c: Core)
    requires c.profile.storyVersion in {1, 2} && c.story.status == Active && CanBreakThrough(c)
    ensures AfterAttempt(w, c, AttemptOutcome(w, c)).story ==
      NextActive(w.dice, c.profile.storyVersion, c.profile.storyKey, c.story, AttemptStoryTurn(w, Bump(c)))
  {
    hide Apply, AttemptDelta, NextActive, Draw, CanBreakThrough;
    AppliedStory(Bump(c), AttachStory(w, Bump(c), AttemptOutcome(w, c)));
  }

  lemma LocalTurnTellsToo(w: World, c: Core, cat: Category, option: LocalOption)
    requires c.profile.storyVersion in {1, 2} && c.story.status == Active
    ensures AfterLocalTurn(w, c, cat, option).story ==
      NextActive(w.dice, c.profile.storyVersion, c.profile.storyKey, c.story,
                 OrdinaryStoryTurn(w, Bump(c.(localNode := option.next)), cat))
  {
    hide AfterTurn, TurnDelta, Apply, CanBreakThrough, NextActive, OrdinaryStoryTurn, LocalDelta;
    var moved := c.(localNode := option.next);
    SettlementTells(w, moved, cat);
    LocalDeltaTells(w, c, cat, option);
    TurnStoryIsDelta(w, moved, LocalDelta(w, c, cat, option));
    var settled := AfterTurn(w, moved, LocalDelta(w, c, cat, option));
    if option.breakthrough && CanBreakThrough(settled) {
      AttemptHasNoStory(w, settled);
      AppliedStory(settled, AttemptDelta(w, settled));
    }
  }

  /** A turn that counts tells an active story exactly once. */
  lemma TurnTells(w: World, c: Core, i: Input)
    requires c.profile.storyVersion in {1, 2} && c.story.status == Active
    requires RuleTurn(w, c, i).turnCount != c.turnCount
    ensures RuleTurn(w, c, i).story ==
      NextActive(w.dice, c.profile.storyVersion, c.profile.storyKey, c.story, StoryTurnOf(w, c, i))
    ensures StoryTurnOf(w, c, i).turn == c.turnCount + 1 && StoryTurnOf(w, c, i).category == RouteOf(w, c, i)
  {
    hide AfterTurn, AfterAttempt, AfterLocalTurn, AttemptOutcome, LocalDelta, TurnDelta, CanBreakThrough, NextActive;
    hide ElapsedYears, TurnEvent, Dies, Draw;
    var cat := CategoryOf(i);
    if c.localStory {
      match w.localOption(Unread(c), i)
      case None =>
      case Some(option) => LocalTurnTellsToo(w, c, cat, option);
    } else if Attempts(w, c, i) {
      AttemptTellsToo(w, c);
    } else {
      SettlementTells(w, c, cat);
      TurnStoryIsDelta(w, c, TurnDelta(w, c, cat));
    }
  }

  /** A story that has ended stays as it ended. */
  lemma EndedStoryStands(w: World, c: Core, i: Input)
    requires c.profile.storyVersion in {1, 2} && c.story.status in {Resolved, Failed}
    ensures RuleTurn(w, c, i).story == c.story
  {
    hide AfterTurn, AfterAttempt, AttemptOutcome, LocalDelta, TurnDelta, CanBreakThrough, AttemptDelta, Apply;
    var cat := CategoryOf(i);
    if c.started && !c.over {
      if c.localStory {
        match w.localOption(Unread(c), i)
        case None =>
        case Some(option) =>
          var moved := c.(localNode := option.next);
          NothingToTell(w, moved, cat);
          LocalDeltaTells(w, c, cat, option);
          TurnStoryIsDelta(w, moved, LocalDelta(w, c, cat, option));
          var settled := AfterTurn(w, moved, LocalDelta(w, c, cat, option));
          if option.breakthrough && CanBreakThrough(settled) {
            AttemptHasNoStory(w, settled);
            AppliedStory(settled, AttemptDelta(w, settled));
          }
      } else if Attempts(w, c, i) {
        NothingToAttach(w, c);
      } else {
        NothingToTell(w, c, cat);
        TurnStoryIsDelta(w, c, TurnDelta(w, c, cat));
      }
    }
  }

  lemma NothingToTell(w: World, c: Core, cat: Category)
    requires c.profile.storyVersion in {1, 2} && c.story.status in {Resolved, Failed}
    ensures TurnDelta(w, c, cat).story == None
  {
    hide ElapsedYears, SettleLifespan, RiskDeathReason, TurnEvent, AttributeChanges, NewAids, Draw, Blockers;
  }

  lemma NothingToAttach(w: World, c: Core)
    requires c.profile.storyVersion in {1, 2} && c.story.status in {Resolved, Failed} && CanBreakThrough(c)
    ensures AfterAttempt(w, c, AttemptOutcome(w, c)).story == c.story
  {
    hide Apply, AttemptDelta, Draw, CanBreakThrough;
    AttemptHasNoStory(w, c);
    AppliedStory(Bump(c), AttachStory(w, Bump(c), AttemptOutcome(w, c)));
  }

  // ---- Whole runs ----------------------------------------------------------

  /** While the story is active it keeps count; it is never anything but active, resolved or failed. */
  ghost predicate Counts(w: World, start: Core, ms: seq<Move>) {
    var c := Replay(w, start, ms);
    && c.profile == start.profile && c.story.status in {Active, Resolved, Failed}
    && (c.story.status == Active ==> Agrees(c.story, start.profile.storyVersion, Turns(w, start, ms)))
  }

  lemma ProfileStands(w: World, c: Core, m: Move)
    ensures RuleMove(w, c, m).profile == c.profile
  {
    hide RuleTurn, Attempts;
    if m.Turn? {
      TurnCountsOnce(w, c, m.input);
    }
  }

  /** The story of a move that plays no turn, or moves no story. */
  lemma MoveStory(w: World, c: Core, m: Move)
    ensures RuleMove(w, c, m).story == if m.Turn? then RuleTurn(w, c, m.input).story else c.story
  {
    hide RuleTurn, Attempts;
  }

  lemma {:induction false} RunCounts(w: World, start: Core, ms: seq<Move>)
    requires start.profile.storyVersion in {1, 2} && start.story.status == Active
    requires Agrees(start.story, start.profile.storyVersion, [])
    ensures Counts(w, start, ms)
  {
    hide RuleMove, RuleTurn, Agrees, RouteOf, StoryTurnOf, NextActive;
    if ms != [] {
      var before, m := Replay(w, start, ms[..|ms| - 1]), ms[|ms| - 1];
      RunCounts(w, start, ms[..|ms| - 1]);
      ProfileStands(w, before, m);
      MoveStory(w, before, m);
      MoveCounts(w, before, m, Turns(w, start, ms[..|ms| - 1]));
    }
  }

  lemma MoveCounts(w: World, c: Core, m: Move, ts: seq<(nat, Category)>)
    requires c.profile.storyVersion in {1, 2} && c.story.status in {Active, Resolved, Failed}
    requires c.story.status == Active ==> Agrees(c.story, c.profile.storyVersion, ts)
    ensures
      var s := if m.Turn? then RuleTurn(w, c, m.input).story else c.story;
      var more := ts + match PlayedTurn(w, c, m) case Some(t) => [t] case None => [];
      && s.status in {Active, Resolved, Failed}
      && (s.status == Active ==> Agrees(s, c.profile.storyVersion, more))
  {
    hide RuleTurn, Agrees, RouteOf, StoryTurnOf, NextActive;
    assert ts + [] == ts;
    if m.Turn? {
      if c.story.status != Active {
        EndedStoryStands(w, c, m.input);
      } else if RuleTurn(w, c, m.input).turnCount != c.turnCount {
        TurnTells(w, c, m.input);
        var told := StoryTurnOf(w, c, m.input);
        NextKeepsCount(w.dice, c.profile.storyVersion, c.profile.storyKey, c.story, told, ts);
        NextEnds(w.dice, c.profile.storyVersion, c.profile.storyKey, c.story, told, ts);
      } else {
        TurnCountsOnce(w, c, m.input);
      }
    }
  }

  /**
   The end of a version 1 or 2 story in any run: alive on its last turn it resolves, on
   the failure branch exactly when the pressure of the played turns has reached eight
   and along the leading route otherwise; an ordinary or local turn ends the run for
   that ending.
   */
  lemma StoryEndsAsPlayed(
    w: World, profile: Profile, attributes: Attributes, extra: nat, titles: seq<string>, place: string,
    first: Category, second: Category, ms: seq<Move>, i: Input)
    requires profile.storyVersion in {1, 2}
    ensures
      var story := OpeningWith(profile.storyVersion, profile.seed, first, second);
      var start := StartCore(profile, attributes, extra, titles, place, story);
      var c, r := Replay(w, start, ms), RuleTurn(w, Replay(w, start, ms), i);
      var played := Turns(w, start, ms + [Turn(i, false)]);
      AtResolutionTurn(c) && PlaysTurn(w, c, i) ==>
        && r.story.status in {Resolved, Failed}
        && (r.story.status == Failed ==> r.story.ending == FailureBranch)
        && (r.story.status == Resolved ==>
              && (r.story.ending == FailureBranch <==> 8 <= PressureOf(played))
              && (r.story.ending != FailureBranch ==>
                    r.story.ending.RouteEnding? && Leads(played, r.story.ending.route))
              && (!Attempts(w, c, i) ==> r.over && r.reason == StoryEnded(r.story.ending)))
  {
    hide Replay, RuleTurn, AtResolutionTurn, StartingLifespan, NextActive, StoryTurnOf, Agrees, Turns, Attempts;
    hide PressureOf, Leads;
    var story := OpeningWith(profile.storyVersion, profile.seed, first, second);
    var start := StartCore(profile, attributes, extra, titles, place, story);
    OpeningAgrees(profile.storyVersion, profile.seed, first, second);
    RunCounts(w, start, ms);
    var c := Replay(w, start, ms);
    if AtResolutionTurn(c) && PlaysTurn(w, c, i) {
      LastTurnFacts(w, c, i);
      TurnTells(w, c, i);
      LastOfTurns(w, start, ms, i);
      NextEnds(w.dice, profile.storyVersion, profile.storyKey, c.story, StoryTurnOf(w, c, i), Turns(w, start, ms));
      if RuleTurn(w, c, i).story.status == Resolved && !Attempts(w, c, i) {
        ResolvedReason(w, c, i);
      }
    }
  }

  lemma OpeningAgrees(version: nat, seed: string, first: Category, second: Category)
    ensures Agrees(OpeningWith(version, seed, first, second), version, [])
  {
  }

  lemma LastTurnFacts(w: World, c: Core, i: Input)
    requires AtResolutionTurn(c) && PlaysTurn(w, c, i)
    ensures c.story.status == Active && c.turnCount + 1 == LastTurn(c.profile.storyVersion)
    ensures RuleTurn(w, c, i).turnCount == c.turnCount + 1
  {
    hide RuleTurn, RunInvariant;
    TurnCountsOnce(w, c, i);
  }

  lemma LastOfTurns(w: World, start: Core, ms: seq<Move>, i: Input)
    requires RuleTurn(w, Replay(w, start, ms), i).turnCount != Replay(w, start, ms).turnCount
    ensures
      var c := Replay(w, start, ms);
      Turns(w, start, ms + [Turn(i, false)]) == Turns(w, start, ms) + [(c.turnCount + 1, RouteOf(w, c, i))]
  {
    hide RuleTurn, Replay, RouteOf;
    var all := ms + [Turn(i, false)];
    assert all[..|all| - 1] == ms;
  }

  lemma ResolvedReason(w: World, c: Core, i: Input)
    requires AtResolutionTurn(c) && PlaysTurn(w, c, i) && !Attempts(w, c, i)
    requires RuleTurn(w, c, i).story.status == Resolved
    ensures RuleTurn(w, c, i).over && RuleTurn(w, c, i).reason == StoryEnded(RuleTurn(w, c, i).story.ending)
  {
    hide AfterTurn, TurnDelta, RunInvariant, AttemptDelta, LocalDelta, CanBreakThrough;
    if c.localStory {
      var option := w.localOption(Unread(c), i).value;
      var moved := c.(localNode := option.next);
      ReasonOfSettlement(w, moved, CategoryOf(i));
      LocalDeltaReason(w, c, CategoryOf(i), option);
      ReasonIsDelta(w, moved, LocalDelta(w, c, CategoryOf(i), option));
      assert AtResolutionTurn(moved) by { NodeIsNotRead(c, option.next); }
      LastSettlementEnds(w, moved, CategoryOf(i));
      GateIsShut(AfterTurn(w, moved, LocalDelta(w, c, CategoryOf(i), option)));
    } else {
      ReasonOfSettlement(w, c, CategoryOf(i));
      LastSettlementEnds(w, c, CategoryOf(i));
      ReasonIsDelta(w, c, TurnDelta(w, c, CategoryOf(i)));
    }
  }

  lemma GateIsShut(c: Core)
    requires c.over
    ensures !CanBreakThrough(c)
  {
  }

  lemma LocalDeltaReason(w: World, c: Core, cat: Category, option: LocalOption)
    ensures
      var d, rule := LocalDelta(w, c, cat, option), TurnDelta(w, c.(localNode := option.next), cat);
      d.story == rule.story && d.over == rule.over && d.reason == rule.reason
  {
  }

  lemma ReasonIsDelta(w: World, c: Core, d: Delta)
    ensures
      var r := AfterTurn(w, c, d);
      && r.reason == (if d.reason != NoReason then d.reason else c.reason)
      && r.over == (c.over || d.over) && r.story == (if d.story.Some? then d.story.value else c.story)
  {
  }

  /** A settlement that resolves its story names the ending as its reason. */
  lemma ReasonOfSettlement(w: World, c: Core, cat: Category)
    requires c.profile.storyVersion in {1, 2} && c.story.status == Active
    ensures
      var d := TurnDelta(w, c, cat);
      d.story.Some? && d.story.value.status == Resolved ==> d.over && d.reason == StoryEnded(d.story.value.ending)
  {
    hide ElapsedYears, SettleLifespan, TurnEvent, Draw, AttributeChanges, NewAids, RiskDeathReason, Blockers;
    hide PickMotif, NextFate, TurnBeats, Dominant, PhaseAt, LastTurn;
  }
}
