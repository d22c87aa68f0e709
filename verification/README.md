# Cultivation game: turn rules and session protocol

Formal model and proofs for a web game in which a character cultivates through nine
realms. Rules settle every turn from a seed; a language model only narrates. The
model has two linked parts.

**The turn engine.** A turn is settled before the narrator is asked. An unusable
answer freezes the outcome until the player retries, switches to an authored local
story, or ends the run. `GameSession`, `GameWorld`, `Realm`, `TurnRules`,
`StoryCatalog` and `Engine` define the rule-owned state (`Core`), deltas, settlement
and one player event (`Step`); `GameEngine` and `SessionObject` perform it in place.
`EngineLaws` compares every run with a reference that has no narrator at all.
`TurnEffects` and `AttemptLaws` say what each turn does to the character. `RunLaws`,
`RuleLaws`, `GoldenRoute`, `StoryLaws`, `StoryRuns`, `FateFolds`, `StoryEndings`,
`LateStory`, `AuthorityLaws` and `SaveLoad` prove what reachable states and runs keep.

**The session protocol.** Every start, turn, save, load and end is one request with an
id and an expected version, served under a per-session lock by a cached runner and
committed by a compare-and-swap. `SessionStore` gives the tables and the transaction,
`Operations` and `WebService` the requests, `ServedRequests`, `Endings` and
`Ascensions` what a served request leaves behind, `StoreLaws` and `TurnLog` the laws of
the tables, `Protocol` the interleavings of any number of processes, `Uncontended` their
agreement with served requests, `Rivalry` the race of two processes for one request, and
`ServedLogs` the turn log under interleavings.

`LocalStory`, `LegacyPoints`, `RateLimiter` and `RollbackAliasing` are self-contained.

Draws are 64-bit prefixes of an arbitrary digest; probabilities are exact thousandths
and years exact products, so no floating point occurs in the model. The narrator, the
event catalogue, system texts and the local story graph are arbitrary functions of
exactly what the source reads. Fallback and healing texts are taken not to read as
breakthrough intent and the formal attempt text to read as one (`GameWorld.Worded`).

## Where the code departs from what it says or suggests

- The comment at `src/agens_novel/engine/turn_rules.py:320-322` wants C to stay
  materially more dangerous than A. For aptitude ten or less (nine on Hard) and an
  unstrained lifespan the opposite holds: `RuleLaws.LowAptitudeFearsTheSteadyRoute`,
  with the exact condition in `RuleLaws.RiskRouteIsDeadlierIff`. The cap of twelve
  hundredths is out of reach for every live character (`RuleLaws.CapIsOutOfReach`).
- The authority projection is compared across narrators, but equal projections may
  diverge (`AuthorityLaws.ProjectionIsNotClosed`), so equality is proved on the whole
  rule-owned state. The opening answer is not without influence either: its place
  reaches the story through event lore (`AuthorityLaws.OpeningPlaceReachesStory`).
- A version 3 story keeps its run seed only until its first turn, so later motif draws
  depend on the arc alone (`StoryLaws.SeedOnlyPicksCommitments`).
- A story that settles on a breakthrough turn does not end its run
  (`RuleLaws.ResolutionEndsRunIff`). Version 2 runs reach such a turn
  (`LateStory.StoryResolvesAndRunGoesOn`); version 1 runs never do
  (`LateStory.VersionOneEndsWithItsStory`).
- The engine's action handler does not itself hold back a breakthrough while a failure
  is pending (`Operations.PendingBlocksActionsIff`). Its callers in the repository do,
  and so do the events of this model.
- The rules do not make the golden route safe on Normal for the driver's own character:
  under the greatest draws it dies (`GoldenRoute.DriverMayDie`). Which seeds of SHA-256
  give such draws is not decided here.
- Ending a session leaves a pending failure behind that can still be retried
  (`Operations.EndedSessionStandsIffNothingPending`).
- A repeated choice request is rejected instead of replayed when its slot is gone
  (`Operations.ResentRequest`, `Operations.LastTurnCannotBeRepeated`).
- A start over a played run breaks the turn log (`TurnLog.StartKeepsLogIffUnplayed`).
  When the run holds its first turn, as one played from its own start does, the session
  stays at turn zero until it is loaded (`TurnLog.RestartedSessionIsStuck`). A run that
  a load opened holds no first turn, so there the collision comes later
  (`TurnLog.LoadOpensWithoutTurns`, `TurnLog.TurnIsTakenIff`).
- A commit that finds its request logged by another process adopts the stored version
  but keeps its own state. Unless both did the same work, its next commit overwrites
  what was committed, up to taking a settled turn back (`Rivalry.CommittedTurnIsLost`);
  the exact conditions are `Protocol.AdoptionIsCoherentIff` and
  `Protocol.AdoptedTurnIsCoherentIff`.
- An eviction and an unlocked read during a request leave a cache that refuses every
  current version (`Protocol.EvictedRequestLeavesRefusingCache`).
- Save dictionaries share the session's lists, so a rollback does not undo appended
  flags and effects (`RollbackAliasing.FailedRequest`). The other modules treat
  snapshots as values.
- A local-story breakthrough authored at C would be shown as a safe action but resolved
  as the breakthrough (`LocalStory.AuthoredBreakthroughAtC`). This is latent: the shipped
  graph authors breakthroughs at A and D only and so meets the condition of
  `LocalStory.ShownIsResolvedIff`.
- Local turns drop status effects added by the rules, and the stage check also runs on
  a fatal turn; both are modelled as they are (`TurnRules.MergeLocal`,
  `Engine.AfterTurn`).

## Model

| member | source | states |
|---|---|---|
| EngineLaws.StepIsRuleMove | src/agens_novel/engine/breakthrough_flow.py:107-189 | One player event in any state that keeps the engine invariant moves the rule-owned state by exactly one rule-only move or not at all. While a failure is pending the state is the pre-turn state and the frozen outcome equals what the rules would settle now, so retry and local story apply the same rules once. |
| EngineLaws.RunIsReplay | src/agens_novel/verification/authority.py:19-63 | For every event sequence, the rule-owned state is the replay of the settled moves by a reference that knows no narrator, no choices and no pending failure; the engine invariant holds throughout. |
| EngineLaws.NonInterference | src/agens_novel/engine/turn_flow.py:321-384 | Two runs from equal rule-owned states that settle the same moves end in equal rule-owned states, whatever was narrated and however often requests failed. |
| EngineLaws.SameSlotsSameRun | src/agens_novel/engine/turn_flow.py:116-186 | The same slots pressed from the same rule-owned state lead to the same rule-owned state for any two narrators and any number of failed attempts before each acceptance. |
| EngineLaws.CampaignIsRuleCampaign | src/agens_novel/verification/authority.py:48-63 | Pressing slots and retrying every failure until it is accepted equals the rule-only slot campaign, with nothing left pending. |
| EngineLaws.InsistingIsARuleTurn | src/agens_novel/engine/turn_flow.py:153-186 | One pressed slot retried until accepted is one rule-only turn. |
| EngineLaws.RetryHoldsOrSettles | src/agens_novel/engine/turn_flow.py:153-186 | A retry with a failing answer leaves the same frozen request and state; with an accepted one it settles exactly that turn. |
| EngineLaws.PlayHoldsOrSettles | src/agens_novel/engine/game_engine.py:336-365 | A pressed slot settles its rule-only turn now, or leaves its own frozen request behind and the state untouched. |
| EngineLaws.FilteredChoicesAreHonest | src/agens_novel/engine/game_engine.py:402-437 | After filtering, a visible text reads as breakthrough intent at slot C exactly when the rules allow the attempt, and at no other slot. |
| EngineLaws.TextDecidesRoute | src/agens_novel/engine/game_engine.py:392-400 | In a reachable live state routing to a breakthrough depends on slot C (or free-text intent) and eligibility, never on what the narrator wrote. |
| EngineLaws.EverySettledTurnCountsOnce | src/agens_novel/engine/turn_flow.py:217-237 | The turn counter grows by exactly the number of settled turns of the run: failed requests and retries of one count nothing, a frozen outcome counts once. |
| EngineLaws.DrawCounterIsTurnCounter | src/agens_novel/engine/turn_flow.py:423-434 | In every reachable state of a seeded run the draw counter equals the turn counter, and a pending failure carries that counter. |
| EngineLaws.TurnCountsOnce | src/agens_novel/engine/turn_flow.py:386-434 | A live turn, ordinary, local or breakthrough, moves turn counter, draw counter and history by one each. |
| AuthorityLaws.ProjectionIsNotClosed | src/agens_novel/verification/authority.py:74-122 | The hashed authority projection does not determine the next turn: from Golden Core upward the easy and hard twins of one state have equal projections and unequal ones a turn later, for every seed. |
| AuthorityLaws.OpeningPlaceReachesStory | src/agens_novel/engine/opening_application.py:102-140 | A due turn of a version 1 or 2 story played from two starting places leaves the same story exactly when the two event texts are the same: the opening answer can reach the authority state through the place it names. |
| AuthorityLaws.LettersNameSlotsIffDistinct | src/agens_novel/engine/game_engine.py:439-459 | Typed letters and slot buttons select the same text at every slot exactly when no shown text repeats. |
| RunLaws.ReachableStatesAreLegal | src/agens_novel/game/realm.py:294-349 | In every reachable state the stage lies in 1..stages, attributes are on scale, and a live character is below the lifespan cap or carries a blocking wound; the whole run only rises. |
| RunLaws.RealmNeverFalls | src/agens_novel/game/realm.py:129-165 | Between any two moments of a run the realm, then the stage inside a realm, then the age never falls. |
| RunLaws.TurnIsLegal | src/agens_novel/game/realm.py:232-288 | A live turn changes realm only by one step up, only when the gate state has the last stage, no blocker and every requirement, arriving at stage one without losing lifespan; a turn begun past the lifespan ends the run. |
| RunLaws.OverdrawnLifespanEndsNextTurn | src/agens_novel/engine/turn_rules.py:283-300 | From a live state with age at or above the lifespan, the next settled turn ends the run. |
| RunLaws.AttemptResult | src/agens_novel/game/realm.py:232-288 | An attempt either climbs one realm keeping age, attributes and effects and not losing lifespan, ending the run exactly in Ascension, or keeps realm and stage and leaves a blocking wound. |
| AttemptLaws.AttemptClimbsIff | src/agens_novel/game/realm.py:232-288 | An attempt by slot C climbs one realm exactly when its draw lies below the rate; a gifted version 2 character on the validation route always climbs, and other validation runs use a digest of their own. |
| AttemptLaws.LowerDrawsClimb | src/agens_novel/game/realm.py:243-243 | A lower draw never loses where a higher one wins. |
| AttemptLaws.ExtremeDrawsDecide | src/agens_novel/game/realm.py:220-226 | Draws below fifty thousandths climb whatever the character, draws at or above 950 thousandths leave a blocking wound. |
| AttemptLaws.LocalAttemptClimbsIff | src/agens_novel/engine/turn_flow.py:48-114 | An authored attempt is decided by the same word on the state its own local turn settled. |
| AttemptLaws.FailureLeaves | src/agens_novel/game/realm.py:249-288 | A failed attempt leaves exactly its wounds and costs exactly its years, by realm and age, and moves nothing else but the counters. |
| AttemptLaws.SuccessEnters | src/agens_novel/game/realm.py:249-288 | A successful attempt enters the next realm at stage one, with a fresh realm counter and that realm's lifespan, and ends the run exactly in Ascension. |
| AttemptLaws.GateOpensIff | src/agens_novel/game/realm.py:129-187 | Every preparation belongs to one gate, and an unwounded live character at its last stage passes a gate exactly when it holds, as flag or item, everything that belongs to it. |
| AttemptLaws.AverageRates | src/agens_novel/game/constants.py:113-230 | The rate of an average character in every realm, with the losses of age in Qi Refining. |
| AttemptLaws.RateSteps | src/agens_novel/game/realm.py:189-226 | Between its bounds the rate moves by 15 thousandths for each point of comprehension and root bone, 10 for luck and 1 for each of the root grade. |
| AttemptLaws.BodySetsLifespan | src/agens_novel/game/constants.py:307-330 | Without gifts on Normal the lifespan runs linearly from the realm's shortest to its longest life with body and root bone. |
| AttemptLaws.GiftsMoveLifespan | src/agens_novel/game/constants.py:307-330 | Heavenly roots and difficulty move the lifespan by fixed shares of the range, below the longest life. |
| TurnEffects.AttributesByRoute | src/agens_novel/engine/turn_rules.py:266-280 | The attributes after an ordinary turn: each slot moves exactly its own by its named draws, clamped to the scale. |
| TurnEffects.AttributeRanges | src/agens_novel/engine/turn_rules.py:50-69 | A moves only willpower (0 to 2) and comprehension (0 to 1), B only luck and comprehension (0 to 2), C only physique (-2 to 2) and willpower (0 to 3), D only luck (-3 to 5). |
| TurnEffects.ButtonsMoveTheirAttributes | src/agens_novel/engine/turn_rules.py:50-69 | The same ranges by button. |
| TurnEffects.DrawsReachTheirEnds | src/agens_novel/rule_rng.py:30-34 | The smallest word draws the lower end of a range and the greatest word the upper end. |
| TurnEffects.YearsByRoute | src/agens_novel/engine/turn_rules.py:239-263 | The years of a version 1 or 2 turn: the drawn years times the pace of slot and difficulty, at least one. |
| TurnEffects.PressureAndWounds | src/agens_novel/engine/turn_rules.py:283-300 | Lifespan and effects after an ordinary turn: age pressure in Qi Refining by age and stage, and healing of every blocking wound by slot A alone. |
| TurnEffects.EndOfOrdinaryTurn | src/agens_novel/engine/turn_rules.py:157-174 | Whether and for what reason an ordinary turn ends the run: seeded adversity first, then age, then the story. |
| TurnEffects.GrantsAndRecord | src/agens_novel/engine/turn_rules.py:145-167 | Flags, titles and the recorded event after an ordinary turn, and exactly what the catalogue was asked; preparation is granted by stage, realm turns and version alone. |
| TurnEffects.StageAfterTurn | src/agens_novel/game/realm.py:294-349 | The stage after an ordinary turn: wounded or complete characters stay, pacing catches up at once, and otherwise one stage comes by luck with a chance between 220 and 520 thousandths. |
| TurnEffects.LocalAttributesAddUp | src/agens_novel/engine/turn_flow.py:476-497 | In a local turn authored and drawn attribute changes add up and are clamped once. |
| TurnEffects.LocalGrants | src/agens_novel/engine/action_delta_policy.py:399-415 | A local turn without attempt takes flags from the rules if they grant any and from the option otherwise, effects from the option alone, and slot A still heals. |
| RunLaws.SettledDeltaIsOrdinary | src/agens_novel/engine/turn_rules.py:127-220 | A settled ordinary outcome never touches realm or stage; it ends the run exactly when it names a reason, and always when the new age reaches the lifespan. |
| RunLaws.AdvancedStageInRange | src/agens_novel/game/realm.py:294-349 | The stage check never lowers the stage and never leaves the realm's stages. |
| RunLaws.StartIsLegal | src/agens_novel/engine/profile_setup.py:33-82 | Every profile start, whatever its opening request brought, satisfies the engine and run invariants. |
| RunLaws.StartingLifespanIsLong | src/agens_novel/game/constants.py:307-330 | No profile starts with a lifespan below 77. |
| RuleLaws.RiskRouteIsDeadlierIff | src/agens_novel/engine/turn_rules.py:303-337 | The exact condition, cap included, under which the risk route carries the greater seeded death chance than A. |
| RuleLaws.DeathIsBelowCappedChance | src/agens_novel/engine/turn_rules.py:303-337 | A version 3 turn kills exactly when its draw lies below the chance capped at twelve hundredths. |
| RuleLaws.CapIsOutOfReach | src/agens_novel/engine/turn_rules.py:336-337 | No character within its lifespan reaches that cap, whatever its attributes, route and difficulty. |
| RuleLaws.LowAptitudeFearsTheSteadyRoute | src/agens_novel/engine/turn_rules.py:319-334 | A young character of aptitude ten or less (nine on Hard) is in more danger on A than on C: whenever C would kill, A would too. |
| RuleLaws.RoutesByYears | src/agens_novel/engine/turn_rules.py:239-263 | From one state and one draw, A takes no longer than B and D, and these no longer than C. |
| RuleLaws.DifficultiesByYears | src/agens_novel/engine/turn_rules.py:239-263 | A harder difficulty never takes fewer years for the same draw. |
| RuleLaws.SeasonsOfVersionThree | src/agens_novel/engine/turn_rules.py:239-263 | Over any version 3 run a year passes with every fourth counted turn, whatever is chosen and narrated, except turns spent on a breakthrough attempt. |
| RuleLaws.RateRisesWithAptitude | src/agens_novel/game/realm.py:189-226 | Better aptitude or, in Qi Refining, youth never lowers the breakthrough rate. |
| RuleLaws.ReservedTexts | src/agens_novel/engine/game_engine.py:402-437 | While an attempt is allowed C shows the narrated breakthrough text or the formal attempt; while wounded A shows the healing action for exactly the active wounds. |
| RuleLaws.HarmlessTextsAreShown | src/agens_novel/engine/game_engine.py:148-182 | At every slot that is not reserved the narrated text is shown exactly when it is neither English nor reads as a breakthrough, and the fallback otherwise. |
| RuleLaws.AcceptedTextsReachThePlayer | src/agens_novel/engine/turn_flow.py:239-264 | An accepted ordinary turn therefore shows every harmless text of its answer. |
| RuleLaws.LocalTextsAreShown | src/agens_novel/engine/turn_flow.py:48-114 | A local input shows at every slot that slot's own authored text of the state it leaves, the current ones again when nothing matched, and none once the run is over. |
| RuleLaws.OnlySteadyHeals | src/agens_novel/engine/turn_rules.py:375-379 | An ordinary turn leaves a blocking wound exactly when there was one and A was not chosen. |
| RuleLaws.WoundsKeepOrder | src/agens_novel/game/realm.py:46-62 | The blocking wounds are listed in the order they came, each once, whatever else is added. |
| RuleLaws.PreparationMeetsTheGate | src/agens_novel/game/realm.py:432-463 | A turn that grants preparation leaves every requirement of the realm met. |
| RuleLaws.ResolutionEndsRunIff | src/agens_novel/engine/turn_rules.py:168-173 | On the last turn of a version 1 or 2 story, local turns included, the story always settles, and the run ends with it exactly when that turn is no breakthrough attempt, or one from Tribulation that succeeds. |
| StoryEndings.StoryEndsAsPlayed | src/agens_novel/engine/story_catalog.py:480-513 | In any version 1 or 2 run alive on its last story turn: the ending is the failure branch exactly when the pressure of the played turns has reached eight, and the leading route's otherwise, the earlier slot among equals; an ordinary or local turn ends the run for that ending. |
| StoryEndings.RunCounts | src/agens_novel/engine/story_catalog.py:130-216 | While such a story is active, its pressure, route counts, attitudes, promises, progress and phase are folds over the turns that were played. |
| LateStory.StoryResolvesAndRunGoesOn | src/agens_novel/engine/breakthrough_flow.py:205-226 | Every version 2 start on Easy with aptitude 21 and a sound body that presses A for 89 turns and then C resolves its story on turn 90 and goes on, under every digest and every seed. |
| LateStory.VersionOneEndsWithItsStory | src/agens_novel/game/realm.py:432-463 | In every reachable state of a version 1 run slot C leads to no attempt, because the rules grant it no preparation, so there the turn that settles the story always ends the run. |
| GoldenRoute.GoldenVerdict | scripts/validate_90_turns.py:53-82 | Every golden run is over by turn 87; it ascends, on turn 87 exactly, if and only if the nine seeded year draws of Tribulation fit the lifespan it entered with, and otherwise dies there. On Easy it always ascends. |
| GoldenRoute.RouteToTribulation | src/agens_novel/game/realm.py:368-382 | The first 77 turns of a golden run are safe on every difficulty and for every seed, and Tribulation is entered on turn 77. |
| GoldenRoute.InsideTribulation | src/agens_novel/engine/turn_rules.py:283-300 | Inside Tribulation the run is alive exactly while the drawn years fit the lifespan. |
| GoldenRoute.SteadyTurn | src/agens_novel/game/realm.py:432-449 | A steady golden turn either dies of age or stays on the route: same realm, next realm turn, paced stage, preparation complete at the end of the span. |
| GoldenRoute.AttemptTurn | src/agens_novel/game/realm.py:466-472 | Every attempt on the route succeeds and enters the next realm at the computed lifespan; the last one ends the run in Ascension. |
| GoldenRoute.YouthBeforeTribulation | src/agens_novel/game/constants.py:103-113 | The greatest age reachable at the end of a realm before Tribulation, and on Easy of Tribulation too, is below the shortest lifespan there. |
| GoldenRoute.EntryAgesAreReached | src/agens_novel/engine/turn_rules.py:239-263 | The entry ages are the exact sums of the greatest yearly pace of every realm. |
| GoldenRoute.DriverMayDie | scripts/validate_90_turns.py:31-48 | Under a digest whose draws are all greatest the driver's own Normal character dies in Tribulation before its last breakthrough; the lemma exhibits no seed of the real hash. |
| GoldenRoute.RunGoldenRoute | scripts/validate_90_turns.py:53-82 | The driver loop ends in the closed-form golden state for its turn limit, and reports ascension exactly under the year condition. |
| StoryLaws.ReachableArc | src/agens_novel/engine/story_catalog.py:130-216 | Every version 3 playthrough keeps the arc invariant: no pressure ever, as many clues as chance turns, fresh motifs, two commitments in step with the arc, and a closed arc with matching resolution and ending. |
| StoryLaws.MotifsNeverRepeat | src/agens_novel/engine/story_catalog.py:264-280 | The motif window has at most five entries and never a repetition, through the main arc and any number of aftermath turns. |
| StoryLaws.SurvivorVerdict | src/agens_novel/engine/story_catalog.py:361-379 | A run alive at its last turn always closes its arc and fails exactly when the one exposure roll on its due risk turns does; without a due risk turn it resolves. |
| FateFolds.SurvivorFailsIff | src/agens_novel/engine/story_catalog.py:361-379 | A version 3 run alive at its last turn fails exactly when it spent due turns on risk and the draw lies below its exposure, written out; the cap of 650 thousandths is out of reach. |
| FateFolds.ArcKeepsCount | src/agens_novel/engine/story_catalog.py:382-453 | Through every active version 3 arc routes, attitudes, clues, focus, marks, weights and consequences are folds over the played turns, and both commitments stand where the calendar puts them. |
| FateFolds.CommitmentsAreLeast | src/agens_novel/engine/story_catalog.py:219-240 | The two commitments stand on the routes with the smallest and the next smallest digest. |
| FateFolds.MotifOfPhase | src/agens_novel/engine/story_catalog.py:264-280 | The motif of a turn is the fresh one of its phase's two, by the parity of the draw when both are, and a renamed one when neither is. |
| FateFolds.OpeningCommits | src/agens_novel/engine/story_catalog.py:219-240 | A story opens with both commitments pending, the least digest first; without a seed the name decides. |
| FateFolds.BeatOfTurn | src/agens_novel/engine/story_catalog.py:162-178 | The beat of a told turn: a due version 3 turn tells its event even when it is the last or fatal; otherwise death before the ending before the phase. |
| FateFolds.FirstAftermaths | src/agens_novel/engine/story_catalog.py:412-453 | The first three turns of every aftermath tell its three events, each once, and the fourth repeats the first under a dated name. |
| StoryLaws.ActiveOutcome | src/agens_novel/engine/story_catalog.py:480-513 | In a reachable arc neither pressure nor missing clues can fail it: the verdict of a turn is death, still active, the exposure roll, or resolution along the dominant route. |
| StoryLaws.CommitmentsAndClosure | src/agens_novel/engine/story_catalog.py:412-453 | Between any two moments both commitments keep identity and only move forward, and a closed arc keeps resolution, ending, routes, clues and commitments. |
| StoryLaws.CommitmentsFollowTheArc | src/agens_novel/engine/story_catalog.py:382-409 | Both commitments are fulfilled exactly when the arc resolved and broken exactly when it failed. |
| StoryLaws.SeedOnlyPicksCommitments | src/agens_novel/engine/story_catalog.py:516-553 | Two runs of one arc that play alike tell the same story whatever their seeds, apart from the commitments they carry. |
| StoryLaws.PickedMotifIsNew | src/agens_novel/engine/story_catalog.py:264-280 | The selected or renamed motif is never in the recent window. |
| StoryRuns.ReachableStoriesKeepArc | src/agens_novel/engine/breakthrough_flow.py:420-436 | The arc invariant holds in every state an engine run of version 3 can reach, through failures, retries, local turns and breakthroughs. |
| StoryRuns.StartStoryIsOk | src/agens_novel/engine/story_catalog.py:56-103 | Every version 3 profile start satisfies the arc invariant. |
| StoryRuns.TurnTellsOnce | src/agens_novel/engine/breakthrough_flow.py:205-226 | Every settled turn tells exactly one story turn with the moved turn number, although a breakthrough attaches story progress twice. |
| StoryRuns.NinetiethTurnCloses | src/agens_novel/engine/story_catalog.py:480-513 | Turn ninety of a live run closes the arc unless it is fatal; it fails exactly by the exposure roll of the marks, so a run without marks resolves. |
| StoryRuns.RunStoriesContinue | src/agens_novel/engine/story_catalog.py:382-453 | Commitments and closure between any two moments of a real run. |
| StoryRuns.DeadMeansOver | src/agens_novel/engine/turn_rules.py:159-174 | A fatal turn ends the run, whichever way it was played. |
| SaveLoad.LoadUndoesSave | src/agens_novel/session/game_session.py:272-457 | Loading a save gives back the session with its choices and pending failure, except for turns older than the last twenty. |
| SaveLoad.StepKeepsAlike | src/agens_novel/engine/event_catalog.py:123-136 | One event cannot tell a session from its loaded copy: the rules read only the last three events of the history. |
| SaveLoad.ReloadsLeaveNoTrace | src/agens_novel/session/game_session.py:336-457 | Saving and loading at any moments of a run leaves the same choices, pending failure and rule-owned state as the events alone. |
| SaveLoad.ReloadsKeepAuthority | src/agens_novel/verification/authority.py:66-122 | The authority projection agrees after every prefix with and without reloads. |
| SaveLoad.SettledAlike | src/agens_novel/engine/event_catalog.py:28-75 | Two states that differ only in history older than three turns settle every turn alike. |
| SaveLoad.TamperedFailureIsDropped | src/agens_novel/engine/pending_model_failure.py:58-85 | Every pending failure a save writes comes back whole; exchanging its outcome without its digest drops it, under a digest without collisions, and leaves the rest of the loaded session as it is. |
| SaveLoad.StartIsReady | src/agens_novel/engine/profile_setup.py:33-82 | Every profile start with clean titles and seed can be saved and loaded from its first moment. |
| SaveLoad.StepKeepsReady | src/agens_novel/session/state_delta.py:173-200 | Every event leaves lists without repetition and a failure that a load will accept. |
| Engine.GameEngine.Handle | src/agens_novel/engine/game_engine.py:280-293 | The engine object performs one event exactly as specified, in place. |
| Engine.GameEngine.HandleAction | src/agens_novel/engine/game_engine.py:336-365 | Routing of an action in any state: refused, local, breakthrough or ordinary. A pending failure stops only the ordinary one. |
| Operations.PendingBlocksActionsIff | src/agens_novel/engine/breakthrough_flow.py:68-105 | The engine's action handler leaves a session with a pending failure as it is exactly when the action does not route to a breakthrough attempt; one that does settles a turn and discards the frozen one. |
| Engine.GameEngine.OrdinaryAction | src/agens_novel/engine/turn_flow.py:116-151 | Refused while a failure is pending. Otherwise counters move before settlement and move back on failure; the outcome is accepted or frozen. |
| Engine.GameEngine.RestoreUnsettledTurn | src/agens_novel/engine/turn_flow.py:234-237 | Restoring undoes exactly the bump of the counters. |
| Engine.GameEngine.FinishTurn | src/agens_novel/engine/turn_flow.py:239-264 | An accepted turn applies outcome and stage check, shows filtered choices, records and clears the failure. |
| Engine.GameEngine.Record | src/agens_novel/engine/turn_flow.py:386-434 | The draw counter moves only after the record. |
| Engine.GameEngine.AttemptBreakthrough | src/agens_novel/engine/breakthrough_flow.py:68-105 | The attempt is decided on the unmoved state and accepted or frozen. |
| Engine.GameEngine.FinishAttempt | src/agens_novel/engine/breakthrough_flow.py:158-189 | An accepted attempt is applied once, with choices cleared at the end of the run. |
| Engine.GameEngine.LocalAction | src/agens_novel/engine/turn_flow.py:48-114 | A local turn settles by the rules, may carry its own attempt, and a text that matches nothing only redraws the choices; a pending failure stays. |
| Engine.GameEngine.Retry | src/agens_novel/engine/turn_flow.py:153-186 | A retry raises the request number, and applies the frozen outcome only when accepted. |
| Engine.GameEngine.TellLocally | src/agens_novel/engine/turn_flow.py:188-215 | The frozen outcome is applied once and the local story entered. |
| Engine.GameEngine.StartFromProfile | src/agens_novel/engine/start_flow.py:139-152 | A start binds the rules first and then opens or freezes the opening request. |
| EngineLaws.AnswerIsAcceptedIff | src/agens_novel/engine/model_result.py:38-63 | An answer is accepted exactly when it narrates, leaves no residue and its first four non-empty choices exist and differ; a fifth choice never stands in for a repeated one. |
| EngineLaws.DecisionsAreWordsOtherwise | web/backend/service_turns.py:56-63 | While nothing is pending, the words of the three failure decisions are ordinary free text. |
| EngineLaws.ClaimsAreIgnored | src/agens_novel/engine/turn_flow.py:321-384 | Whatever state changes the answers of a run claim, the whole session evolves the same: rule state, choices, narratives and pending failure. |
| GameSession.SessionObject.ApplyDelta | src/agens_novel/session/state_delta.py:24-31 | Numbers, identity, lists, world and ending of one delta, applied in order in place. |
| GameSession.SessionObject.RecordTurn | src/agens_novel/session/game_session.py:212-255 | A record appends the event and the narrative with the current choices. |
| GameSession.Extended | src/agens_novel/session/state_delta.py:268-287 | The append loop adds only new items, in order. |
| GameSession.Blockers | src/agens_novel/game/realm.py:46-62 | Exactly the active breakthrough-blocking effects. |
| RuleRng.RandInt | src/agens_novel/rule_rng.py:30-34 | An inclusive draw never leaves its bounds. |
| Realm.BreakthroughRate | src/agens_novel/game/realm.py:189-226 | The rate lies between 50 and 950 thousandths. |
| GameConstants.BreakthroughLifespan | src/agens_novel/game/constants.py:333-348 | A breakthrough never lowers the lifespan cap. |
| GameConstants.NormalizeAttribute | src/agens_novel/game/constants.py:68-80 | Every stored value lands on the 0-10 scale and values already there stay. |
| AttemptLaws.LegacyValuesRound | src/agens_novel/game/constants.py:68-80 | Old values on the scale of a hundred become the nearest tenth. |
| TurnRules.SettleLifespan | src/agens_novel/engine/turn_rules.py:283-300 | Without a reason the new age is below the resulting cap; at or past the cap there is always a reason; no blocking effect is added. |
| SessionStore.SessionRepository.CommitSessionMutation | web/backend/database_postgres_session.py:70-181 | The transaction performs one commit exactly as specified: swap, statements in order, request log, or nothing at all. |
| SessionStore.EnsureActiveRun | web/backend/database_postgres_session.py:248-277 | Inserting the active run forgives only its own id. |
| SessionStore.RewindActiveRun | web/backend/database_postgres_session.py:183-224 | A load removes later turns, moves the run to the loaded turn, clears the request log, and refuses completed runs. |
| SessionStore.InsertTurn | web/backend/database_postgres_session.py:279-333 | A turn needs its run, a new number and a new request. |
| SessionStore.FinalizeTerminal | web/backend/database_postgres_session.py:377-516 | The first settlement completes the run and pays it out; later ones change nothing. |
| SessionStore.InsertRewards | web/backend/database_postgres_session.py:419-473 | Inserting rewards adds exactly the new keys. |
| SessionStore.GrantBonuses | web/backend/database_postgres_session.py:474-498 | Bonuses are added once and existing rows keep their remaining runs. |
| StoreLaws.ProgressIsConserved | web/backend/database_postgres_session.py:499-516 | In every reachable database a user's counters are the numbers of that user's completed and ascended runs, and every payout row belongs to a completed run. |
| StoreLaws.CompletedRunsStand | web/backend/database_postgres_session.py:191-196 | A completed run keeps its row through any later sequence of transactions. |
| StoreLaws.ResendIsHarmless | web/backend/database_postgres_session.py:92-129 | A committed request sent again at any later time changes nothing, whatever its sender computed and whatever rivals with the same id committed in between. It gets the answer that stands in the log or a version conflict: the original answer until another request commits a load of the session, and after such a load a conflict, unless the id has been reused under a later expected version. |
| StoreLaws.LogAfterCommit | web/backend/database_postgres_session.py:206-224 | A commit logs its own request and forgets earlier ones exactly when it loads their session. |
| StoreLaws.OnlyCommitsChange | web/backend/database_postgres_session.py:94-129 | Only a fresh commit changes anything; it needs the expected version and logs its answer under the next one. |
| StoreLaws.TakeLaw | web/backend/database_postgres.py:605-670 | Every writer of the tables keeps the invariants, lets versions only grow and completed runs stand. |
| StoreLaws.CompletionCounts | web/backend/database_postgres_session.py:377-412 | Completing a run moves its user's counters by one and nobody else's. |
| Operations.ResentRequest | web/backend/service_turns.py:20-57 | A logged request sent again changes neither tables nor runner, and is answered from the log exactly unless it presses a slot that no longer exists. |
| Operations.LastTurnCannotBeRepeated | web/backend/service_turns.py:20-57 | In every state that keeps the engine invariant and is about to ascend by slot C: once its commit succeeds, as a guest's always does, the turn is done and logged, and the same request sent again is rejected because its slot is gone. |
| Operations.EndedSessionStandsIffNothingPending | web/backend/service_sessions.py:126-158 | No later event moves an ended session if and only if no failure was pending when it ended. |
| Operations.StepRecordsTurns | web/backend/service_turns.py:84-130 | The turn counter stays, or moves by one together with a record carrying it. |
| Endings.StepEndsHonestly | src/agens_novel/engine/breakthrough_flow.py:205-226 | No event makes an ascension of anything else: flag, reason and realm agree in every session, pending outcomes included. |
| Endings.PerformEndsHonestly | web/backend/service_sessions.py:126-158 | Every operation keeps that, and ending a session clears the flag. |
| ServedRequests.DoneStoresResult | web/backend/service.py:541-583 | The row, the runner and the answer of a done request carry its result under the next version. |
| ServedRequests.SaveKeepsSession | web/backend/service_saves.py:13-42 | A done save writes the runner's session into its slot, alike to it for every later play, leaves every other slot and table as it was, and names the slot in its answer; no other operation touches a slot. |
| ServedRequests.SavedComesBack | web/backend/service_saves.py:45-82 | What a user has saved comes back by any later load of the slot, in any session and after any steps that do not store over it; the load is never rejected for a missing save. |
| ServedRequests.LoadMovesRun | web/backend/database_postgres_session.py:183-224 | A done load cuts the turns after the loaded one, moves the open run there and forgets the earlier requests. |
| ServedRequests.StartOpensRun | web/backend/service_sessions.py:75-123 | A done start opens the user's run if there is none and spends bonuses exactly when it used them. |
| ServedRequests.TurnIsLogged | web/backend/service_turns.py:84-130 | A done turn is logged under its number, request and age exactly when it was counted. |
| ServedRequests.EndingIsRecorded | web/backend/service.py:607-622 | The request that ends a user's open run completes its row with the session's reason, turn and realm, counts an ascension exactly when the session ascended, and pays what the final session earned. |
| ServedRequests.CompletedRunIsNotPaidTwice | web/backend/database_postgres_session.py:408-412 | No later done request of any kind changes a completed run or its user's account for it. |
| Ascensions.AscensionsAreReal | web/backend/database_postgres_session.py:499-516 | After any sequence of requests on any sessions a user's ascension counter is the number of that user's runs that ended in Ascension by ascending. |
| TurnLog.LogsAreAlwaysSound | web/backend/database_postgres_session.py:279-333 | After any sequence of requests on any sessions, loads of saves made elsewhere included, every turn log is bounded by its snapshot, and no request ever found its turn number taken, as long as no start is made over a played run. |
| TurnLog.RequestKeepsLogSound | web/backend/service_turns.py:43-81 | A request served from a coherent runner never finds its turn number taken and keeps every session's log sound. |
| TurnLog.StartKeepsLogIffUnplayed | web/backend/service_sessions.py:75-123 | A committed start leaves the log sound if and only if there was no run, or it holds no turn beyond number zero and, unless completed, counts none. |
| TurnLog.FirstTurnIsRefusedIff | web/backend/database_postgres_session.py:279-333 | After a committed start the first settled turn is refused for its number if and only if the old log holds turn one, whether or not the old run had ended. |
| TurnLog.TurnIsTakenIff | web/backend/service_turns.py:84-130 | A settled turn on an existing run is refused for its number exactly when that number is logged. |
| TurnLog.FirstTurnIsLogged | web/backend/database_postgres_session.py:279-333 | A first turn on a run without logged turns commits and is logged as number one. |
| TurnLog.TurnStaysLogged | web/backend/database_postgres_session.py:197-205 | A logged turn stays logged through any requests until its session is loaded to an earlier turn. |
| TurnLog.LoadOpensWithoutTurns | web/backend/database_postgres_session.py:183-224 | A run that a load opened holds no turn, so no first turn either. |
| TurnLog.RestartedSessionIsStuck | web/backend/service_sessions.py:75-123 | A start committed over a run that holds turn one leaves the session at turn zero through any later requests on any sessions until it is loaded: no turn is settled in it again. |
| ServedLogs.SchedulesKeepLog | web/backend/service.py:541-605 | The same under interleaved processes: along every schedule with faithful adoptions and clean starts no landing finds its turn number taken and the log stays bounded by the stored snapshot. |
| ServedLogs.OneProcessKeepsLog | web/backend/service.py:523-539 | For the schedules of one process this needs no condition on adoptions. |
| Protocol.NoLostUpdate | web/backend/service.py:541-605 | For any number of processes and any interleaving of requests, cold loads, evictions, aborts and unlocked reads in which every adoption is faithful (both did the same work on the same version, or the adopting runner is dropped): version v+1 is one operation applied to version v, and a quiescent runner of version v holds what version v held. |
| Protocol.OneProcessLosesNothing | web/backend/service.py:523-539 | With a single process nothing is ever adopted, so the same holds unconditionally. |
| Protocol.MoveKeepsSystem | web/backend/service.py:632-681 | Every single move but an unfaithful adoption keeps the system coherent. |
| Protocol.FreshSystemIsOk | web/backend/service_sessions.py:20-33 | A new session row with idle processes is coherent. |
| Protocol.AdoptionOfSameWork | web/backend/service.py:577-583 | When the logged request did the same operation, narrator answer included, on the version this one started from, the adopting runner holds what the stored version held. |
| Protocol.AdoptionIsCoherentIff | web/backend/service.py:577-583 | When the stored version was made from the one this request started from, the adopting runner is coherent exactly when both operations make the same of that version. |
| Protocol.AdoptedTurnIsCoherentIff | web/backend/service.py:577-583 | For one turn request served by two processes: exactly when the two narrator answers agree, or had no say in the turn. They agree when they fail alike, or are both accepted and their choices pass the filters with the same texts. |
| Protocol.SameChoicesAgree | src/agens_novel/engine/choices.py:49-60 | Answers with one verdict and the same normalized choices agree. |
| Rivalry.RaceOutcome | web/backend/service.py:577-583 | Two processes race with one request and the loser then ends the session, both commits succeeding: the loser's runner is coherent exactly when both results are alike, and its commit is one operation on the committed version exactly when they are alike once ended. |
| Rivalry.WinnerDecides | web/backend/database_postgres_session.py:377-412 | Both commits of such a race succeed for every guest, and for a registered user as soon as the winner's start or turn does. |
| Rivalry.CommittedTurnIsLost | web/backend/service_turns.py:43-81 | From every coherent system with two idle processes, for guests and registered users: one process commits a narrated turn, the other freezes the same request, adopts its version, and its next commit takes the turn count back. |
| Rivalry.OpeningRace | web/backend/service_sessions.py:75-123 | The same from the first request of a fresh session of a guest or a registered user, once the narrated start commits: the failed opening is stored on top of it. |
| Protocol.StaleCacheRefuses | web/backend/service.py:527-539 | A cached runner that missed a version refuses every fresh request naming the current version and stays as it is. |
| Protocol.LandingIsCurrentIffAttached | web/backend/service_sessions.py:67-72 | After a committed landing the cached runner is at the row's version exactly when the request worked on the cached object itself or was a load. |
| Protocol.EvictedRequestLeavesRefusingCache | web/backend/service.py:527-539 | The whole accident as one schedule: eviction and unlocked read during a request, then its commit. Afterwards every fresh request naming the current version is refused and changes nothing. |
| Protocol.EvictThenReadDetaches | web/backend/service.py:632-681 | An eviction and an unlocked read during a request put a second, cold-loaded runner into the cache and detach the working one. |
| Protocol.RollbackIsCoherent | web/backend/service.py:585-606 | A rollback registers a runner coherent with the version it started from. |
| Uncontended.UncontendedRequestIsServed | web/backend/service.py:523-606 | A request that one process takes on, computes and lands with nothing in between leaves exactly the tables and the runner that serving it leaves, committed, rolled back or lost to a conflict. |
| Uncontended.TurnedAwayIsServed | web/backend/service.py:523-539 | A request that lacks its choice, is logged already or names a stale version changes nothing, in the interleaved system and when served. |
| Uncontended.RefusedTurnIsServed | web/backend/service.py:585-606 | A turn request that raises is rolled back to the same tables and runner in both. |
| WebService.WebGameService.AdvanceTurn | web/backend/service_turns.py:43-81 | Tables, cached runner and reply of a turn request, rollback included. |
| WebService.WebGameService.StartSession | web/backend/service_sessions.py:75-123 | Tables, cached runner and reply of a start request. |
| WebService.WebGameService.EndSession | web/backend/service_sessions.py:126-158 | Tables, cached runner and reply of an end request. |
| WebService.WebGameService.Save | web/backend/service_saves.py:13-42 | Tables, cached runner and reply of a save request. |
| WebService.WebGameService.Load | web/backend/service_saves.py:45-82 | A load commits a fresh runner and registers it only afterwards. |
| WebService.WebGameService.CommitRunner | web/backend/service.py:541-583 | A commit writes what the runner holds and moves its version to the answer's. |
| WebService.WebGameService.RunnerOf | web/backend/service.py:632-656 | The cached runner, or one cold-loaded from the row. |
| RollbackAliasing.FailedRequest | src/agens_novel/session/game_session.py:295-302 | After a failed request scalars are restored, and the shared lists exactly when the delta appended to none of them. |
| RollbackAliasing.LiveSession.ApplyDelta | src/agens_novel/session/state_delta.py:241-306 | Flags grow in place; effects grow in place unless a removal rebound them first. |
| RollbackAliasing.AddingKnownChangesNothing | src/agens_novel/session/state_delta.py:260-265 | Appending changes a list exactly when something new is appended. |
| LocalStory.ShownIsResolvedIff | src/agens_novel/engine/local_story.py:435-464 | Submitting the text shown at a slot selects exactly the option shown there, at every slot, if and only if C is not itself an authored breakthrough. |
| LocalStory.AuthoredBreakthroughAtC | src/agens_novel/engine/local_story.py:450-464 | With an authored breakthrough at C the safe text is shown but the breakthrough is resolved, allowed or not. |
| LocalStory.BreakthroughShownOnlyAtC | src/agens_novel/engine/local_story.py:496-513 | A breakthrough is on show only at C, exactly when the rules allow it and it is authored at another slot. |
| LocalStory.FormalAttemptIsFirstAuthored | src/agens_novel/engine/local_story.py:516-530 | The formal attempt offered at C is the node's first authored breakthrough, with only its text replaced. |
| LocalStory.BlockedBreakthroughIsSafe | src/agens_novel/engine/local_story.py:532-575 | A breakthrough that may not be offered is replaced by a safe action that stays on the node, naming the wounds to heal at A when there are any. |
| LocalStory.MatchOption | src/agens_novel/engine/local_story.py:411-477 | The matching loops resolve a submitted text as specified. |
| LegacyPoints.DistributionIsExactAndFair | src/agens_novel/engine/death_rewards.py:247-254 | Distribution raises the total by exactly the pool or the room left below sixty, lowers nothing, and leaves no raised attribute more than one above the lowest. |
| LegacyPoints.DistributePoints | src/agens_novel/engine/death_rewards.py:247-254 | The loop over the attributes in place computes that distribution. |
| LegacyPoints.ManualIsRandomWithin | src/agens_novel/engine/profile_setup.py:85-139 | Manual creation accepts exactly the random profiles with every attribute between two and eight. |
| LegacyPoints.ApplyLegacyBonuses | src/agens_novel/engine/death_rewards.py:203-244 | The bonus loop folds every stored bonus into attributes and gifts. |
| LegacyPoints.BonusesKeepProfileAcceptable | src/agens_novel/engine/profile_setup.py:85-139 | Every accepted profile stays acceptable under any bonuses, and its total becomes thirty plus their points, capped at sixty. |
| LegacyPoints.RandomAttributes | web/backend/service.py:823-838 | Every random draw, in any key order, is an accepted random profile. |
| LegacyPoints.EveryProfileCanBeDrawn | web/backend/service.py:823-838 | Every accepted random profile lies, slot by slot, in the ranges the draw allows. |
| RateLimiter.WindowNeverOverfull | web/backend/security.py:83-96 | With a non-decreasing clock no span of one window ever holds more accepted calls than the limit. |
| RateLimiter.RefusedOnlyWhenFull | web/backend/security.py:94-96 | A call is refused exactly when the limit of accepted calls lies in the window it closes. |
| RateLimiter.InMemoryRateLimiter.Check | web/backend/security.py:89-96 | The deque loop keeps exactly the calls of the window. |
| RateLimiter.RedisRateLimiter.Check | web/backend/security.py:102-145 | The script keeps the scores of the window and renews the expiry either way. |
| RateLimiter.ServeInMemory | web/backend/security.py:83-96 | The in-process limiter gives exactly the specified verdicts over any run of calls. |
| RateLimiter.ServeShared | web/backend/security.py:102-145 | The shared limiter gives the same verdicts for limit and window raised to at least one; expiry loses nothing. |
| RateLimiter.ExpiryLosesNothing | web/backend/security.py:110-113 | An expired key held only calls the window would not see. |

## Left out

- Narrator and world-builder agents, prompts, parsing, streaming and the text policies on narratives: model output is an arbitrary answer, reduced to its narrative, its choices, a residue flag, a place and a claimed state change.
- The two built-in second attempts of one narrator request: an answer is the last word after them.
- The start from a free concept, which trusts model-supplied character numbers, and unseeded legacy runs with process randomness.
- The choice of a chronicle event among catalogue entries: an arbitrary function of exactly the fields it reads.
- Techniques, ordinary inventory, equipment, relationships, region, scene, quests and lore lists: no rule reads them. Inventory matters only through the preparation keys it names (`aids`).
- Free text that is a bare slot letter: `AuthorityLaws.LettersNameSlotsIffDistinct` says when it equals the button.
- The local story graph inside engine runs: an input resolves to an authored option by an arbitrary function of the state; `LocalStory` treats display and resolution for one node, without the keyword search and the repeat texts.
- Rounding of floating-point rolls: the source's 64-bit quotient can round up to one, the model compares exact integers.
- ElapsedYears: the source multiplies by floating-point factors and truncates, which for some draws gives one year less than the exact product (slot A on Easy, base 225: 125 years against 126).
- Guest tokens, their expiry and deletion, titles, user-interface events, users and authorization, model settings, and the public wrappers of the reward tables.
- A pending failure's identifier and base version: no operation of the model reads them.
- LRU order and idle times of the runner cache: an eviction may happen at any moment.
- Time stamps, JSON encoding and isolation levels of the database: a transaction is one atomic step.
- EndedSessionStandsIffNothingPending: says nothing of a pending opening, whose retry changes only place and choices.
- LogsAreAlwaysSound: takes each request as one atomic step on a runner coherent with the row; `ServedLogs` removes this assumption for schedules with faithful adoptions. Starts over a played run are excluded, `RestartedSessionIsStuck` says what they do.
- DriverMayDie: speaks of an arbitrary digest, not of a seed of SHA-256.
- MatchOption: leaves out the keyword search and the repeat texts of the source's matching.
- RunIsReplay: speaks of engine events. A session ended by the service while a failure is pending leaves the engine invariant, as `Operations.EndedSessionStandsIffNothingPending` shows.
- ReloadsLeaveNoTrace: the forgotten history older than twenty turns and the narrative log are outside the likeness it states.
- NoLostUpdate: that a runner holds what a version held means likeness up to turns no rule reads, because a live runner keeps history that a snapshot cuts.
- OpeningPlaceReachesStory: treats versions 1 and 2; version 3 keeps the lore in its event beats in the same way.
- ResendIsHarmless: the repetition names an expected version no later than the original's; a later one is a new request to the compare-and-swap.
- WebGameService.AdvanceTurn: describes the runner of the requested session; that other cached runners are other objects is not stated.
- RandomAttributes: the shuffle and the draws are arbitrary parameters, not a distribution.
