/**
 Saving and loading. The save dictionary keeps the last twenty turns and drops
 nothing else the rules read; loading normalizes, deduplicates and validates.
 A saved and loaded run is indistinguishable to every later sequence of events.
 */
module SaveLoad {
  import opened GameConstants
  import opened RuleRng
  import opened StoryCatalog
  import opened GameSession
  import opened GameWorld
  import opened Realm
  import opened TurnRules
  import opened Engine
  import opened EngineLaws
  import opened RunLaws
  import opened AuthorityLaws
  import opened ListLaws

  const HISTORY_LIMIT := 20

  // ---- The dictionary ------------------------------------------------------

  datatype RuleSection = RuleSection(seed: string, counter: int, validation: string)

  datatype CharacterSection = CharacterSection(
    realm: RealmIndex, stage: int, age: int, lifespan: int, attributes: Attributes,
    difficulty: Difficulty, heavenly: bool, rootBonus: nat,
    flags: seq<Aid>, aids: set<Aid>, titles: seq<string>, effects: seq<Effect>)

  datatype WorldSection = WorldSection(place: string, storyKey: string, storyVersion: nat, story: StoryState)

  /** A pending failure travels with a digest of its frozen outcome. */
  datatype FailurePayload = FailurePayload(failure: ModelFailure, outcomeHash: string)

  datatype SaveDict = SaveDict(
    turnCount: nat, realmTurns: int, rule: RuleSection, started: bool, over: bool,
    character: CharacterSection, world: WorldSection,
    events: seq<string>, history: seq<Narrated>, choices: seq<string>,
    localActive: bool, localNode: string,
    failure: Option<FailurePayload>,
    finale: bool, error: Reason)

  type Digest = Delta -> string

  function ToSaveDict(hash: Digest, s: Session): SaveDict {
    var c := s.core;
    SaveDict(
      c.turnCount, c.realmTurns,
      RuleSection(c.profile.seed, c.rngCounter, if c.profile.golden then "golden_route" else ""),
      c.started, c.over,
      CharacterSection(c.realm, c.stage, c.age, c.lifespan, c.attributes,
                       c.profile.difficulty, c.profile.heavenly, c.profile.rootBonus,
                       c.flags, c.aids, c.titles, c.effects),
      WorldSection(c.place, c.profile.storyKey, c.profile.storyVersion, c.story),
      Tail(c.events, HISTORY_LIMIT), Tail(s.log, HISTORY_LIMIT), s.choices,
      c.localStory, c.localNode,
      match s.pending
      case Some(p) => Some(FailurePayload(p, hash(p.frozen)))
      case None => None,
      c.finale, c.reason)
  }

  function TrimLeft(s: string): string {
    if s != "" && s[0] == ' ' then TrimLeft(s[1..]) else s
  }

  function TrimRight(s: string): string {
    if s != "" && s[|s| - 1] == ' ' then TrimRight(s[..|s| - 1]) else s
  }

  function Trim(s: string): string { TrimRight(TrimLeft(s)) }

  function Trimmed(xs: seq<string>): seq<string> {
    seq(|xs|, i requires 0 <= i < |xs| => Trim(xs[i]))
  }

  /** A payload whose digest does not match its outcome is dropped. */
  function FromPayload(hash: Digest, p: Option<FailurePayload>): Option<ModelFailure> {
    match p
    case None => None
    case Some(payload) =>
      if payload.outcomeHash != hash(payload.failure.frozen) then None
      else Some(payload.failure.(requestNo := Max(1, payload.failure.requestNo)))
  }

  function FromSaveDict(hash: Digest, d: SaveDict): Session {
    var ch, wd := d.character, d.world;
    Session(
      Core(
        Profile(Trim(d.rule.seed), d.rule.validation == "golden_route", ch.difficulty, ch.heavenly, ch.rootBonus,
                wd.storyKey, wd.storyVersion),
        d.turnCount, Max(0, d.realmTurns), Max(0, d.rule.counter),
        d.started, d.over, d.finale, d.error,
        ch.realm, ch.stage, ch.age, ch.lifespan, NormalizeAttributes(ch.attributes),
        AddAll([], ch.flags), ch.aids, Deduped(Trimmed(ch.titles)), ch.effects,
        wd.place, wd.story, d.localActive, d.localNode, d.events),
      FromPayload(hash, d.failure), d.choices, d.history)
  }

  // ---- What a load preserves -----------------------------------------------

  /** The part of the history that rules read: the last three events. */
  predicate Alike(c: Core, d: Core) {
    d == c.(events := d.events) && Tail(c.events, 3) == Tail(d.events, 3)
  }

  predicate SessionsAlike(s: Session, t: Session) {
    Alike(s.core, t.core) && s.pending == t.pending && s.choices == t.choices
  }

  ghost predicate CleanTexts(xs: seq<string>) {
    NoRepeats(xs) && forall x :: x in xs ==> x != "" && Trim(x) == x
  }

  /** What the engine keeps of every session and a load relies on. */
  ghost predicate Saveable(c: Core) {
    InScale(c.attributes) && NoRepeats(c.flags) && CleanTexts(c.titles) && Trim(c.profile.seed) == c.profile.seed
  }

  lemma ListsSurvive(c: Core)
    requires Saveable(c)
    ensures AddAll([], c.flags) == c.flags && Deduped(Trimmed(c.titles)) == c.titles
  {
    hide Trim;
    assert [] + c.flags == c.flags;
    AddingDistinct([], c.flags);
    assert Trimmed(c.titles) == c.titles;
    DedupedDistinct(c.titles);
  }

  /** Loading a save gives back the session, up to the forgotten part of its history. */
  lemma LoadUndoesSave(hash: Digest, s: Session)
    requires Saveable(s.core) && (s.pending.Some? ==> 1 <= s.pending.value.requestNo)
    ensures
      var t := FromSaveDict(hash, ToSaveDict(hash, s));
      && SessionsAlike(s, t)
      && t.log == Tail(s.log, 20) && t.core.events == Tail(s.core.events, 20)
  {
    hide Trim, AddAll, Deduped, Trimmed, Tail, NormalizeAttributes, NoRepeats, CleanTexts;
    var c := s.core;
    ListsSurvive(c);
    TailOfTail(c.events, 3, HISTORY_LIMIT);
    var t := FromSaveDict(hash, ToSaveDict(hash, s));
    assert t.core.profile == c.profile;
    assert t.core == c.(events := t.core.events);
  }

  /** Different outcomes have different digests. */
  ghost predicate Injective(hash: Digest) { forall d, e :: hash(d) == hash(e) ==> d == e }

  /** A save whose frozen outcome was exchanged while its digest stayed. */
  function Forged(d: SaveDict, outcome: Delta): SaveDict
    requires d.failure.Some?
  {
    d.(failure := Some(FailurePayload(d.failure.value.failure.(frozen := outcome), d.failure.value.outcomeHash)))
  }

  /**
   Every pending failure that a save writes comes back whole. With its frozen outcome
   exchanged it is dropped, unless the outcome is the one that was saved; the rest of
   the session loads either way.
   */
  lemma TamperedFailureIsDropped(hash: Digest, s: Session, outcome: Delta)
    requires Injective(hash) && s.pending.Some? && 1 <= s.pending.value.requestNo
    ensures
      var d := ToSaveDict(hash, s);
      var loaded, forged := FromSaveDict(hash, d), FromSaveDict(hash, Forged(d, outcome));
      && loaded.pending == s.pending
      && forged == loaded.(pending := if outcome == s.pending.value.frozen then s.pending else None)
  {
    hide Trim, AddAll, Deduped, Trimmed, NormalizeAttributes;
  }

  // ---- The rules read no more ----------------------------------------------

  lemma NumbersReadNoHistory(c: Core, es: seq<string>, x: Delta)
    ensures WithNumbers(c.(events := es), x) == WithNumbers(c, x).(events := es)
    ensures WithIdentity(c.(events := es), x) == WithIdentity(c, x).(events := es)
    ensures WithNumbers(c, x).events == WithIdentity(c, x).events == c.events
  {
  }

  lemma ListsReadNoHistory(c: Core, es: seq<string>, x: Delta)
    ensures WithLists(c.(events := es), x) == WithLists(c, x).(events := es)
    ensures WithLists(c, x).events == c.events
  {
  }

  lemma WorldReadsNoHistory(c: Core, es: seq<string>, x: Delta)
    ensures WithWorld(c.(events := es), x) == WithWorld(c, x).(events := es)
    ensures WithWorld(c, x).events == c.events
  {
  }

  lemma MetaReadsNoHistory(c: Core, es: seq<string>, x: Delta)
    ensures WithMeta(c.(events := es), x) == WithMeta(c, x).(events := es)
    ensures WithMeta(c, x).events == c.events
  {
  }

  lemma ApplyKeepsAlike(c: Core, d: Core, x: Delta)
    requires Alike(c, d)
    ensures Alike(Apply(c, x), Apply(d, x))
  {
    hide WithNumbers, WithIdentity, WithLists, WithWorld, WithMeta, Tail;
    var c1 := WithNumbers(c, x);
    var c2 := WithIdentity(c1, x);
    var c3 := WithLists(c2, x);
    var c4 := WithWorld(c3, x);
    NumbersReadNoHistory(c, d.events, x);
    NumbersReadNoHistory(c1, d.events, x);
    ListsReadNoHistory(c2, d.events, x);
    WorldReadsNoHistory(c3, d.events, x);
    MetaReadsNoHistory(c4, d.events, x);
  }

  lemma SettledAlike(w: World, c: Core, d: Core, cat: Category)
    requires Alike(c, d)
    ensures SettleTurn(w, c, cat) == SettleTurn(w, d, cat)
  {
    hide Tail, AttributeChanges, ElapsedYears, SettleLifespan, RiskDeathReason, StoryAfter, NewAids, StoryReason;
    assert RecentEvents(c.events) == RecentEvents(d.events);
    var es := d.events;
    YearsReadNoHistory(w, c, es, cat);
    var newAge := c.age + ElapsedYears(w, c, cat);
    DeathReadsNoHistory(w, c, es, cat, newAge);
    var dead := RiskDeathReason(w, c, cat, newAge) != NoReason || SettleLifespan(c, newAge).reason != NoReason;
    StoryReadsNoHistory(w, c, es, cat, TurnEvent(w, c, cat, newAge).lore, newAge, dead);
  }

  // Every rule but event selection ignores the history altogether.

  lemma YearsReadNoHistory(w: World, c: Core, es: seq<string>, cat: Category)
    ensures
      var d := c.(events := es);
      && AttributeChanges(w, d, cat) == AttributeChanges(w, c, cat)
      && ElapsedYears(w, d, cat) == ElapsedYears(w, c, cat)
      && NewAids(d) == NewAids(c)
  {
  }

  lemma DeathReadsNoHistory(w: World, c: Core, es: seq<string>, cat: Category, newAge: int)
    ensures
      var d := c.(events := es);
      && SettleLifespan(d, newAge) == SettleLifespan(c, newAge)
      && RiskDeathReason(w, d, cat, newAge) == RiskDeathReason(w, c, cat, newAge)
  {
  }

  lemma StoryReadsNoHistory(w: World, c: Core, es: seq<string>, cat: Category, lore: string, age: int, dead: bool)
    ensures StoryAfter(w, c.(events := es), cat, lore, age, dead) == StoryAfter(w, c, cat, lore, age, dead)
  {
  }

  lemma EligibilityReadsNoHistory(c: Core, es: seq<string>)
    ensures CanBreakThrough(c.(events := es)) == CanBreakThrough(c)
  {
  }

  lemma RollsReadNoHistory(w: World, c: Core, es: seq<string>)
    ensures
      var d := c.(events := es);
      AdvancedStage(w, d) == AdvancedStage(w, c) && BreakthroughSucceeds(w, d) == BreakthroughSucceeds(w, c)
  {
    hide Blockers, NormalizeAttributes;
  }

  lemma GatesReadNoHistory(w: World, c: Core, es: seq<string>)
    ensures
      var d := c.(events := es);
      && CanBreakThrough(d) == CanBreakThrough(c)
      && AdvancedStage(w, d) == AdvancedStage(w, c)
      && BreakthroughSucceeds(w, d) == BreakthroughSucceeds(w, c)
  {
    hide CanBreakThrough, AdvancedStage, BreakthroughSucceeds;
    EligibilityReadsNoHistory(c, es);
    RollsReadNoHistory(w, c, es);
  }

  lemma AttemptReadsNoHistory(w: World, c: Core, es: seq<string>)
    requires CanBreakThrough(c)
    ensures CanBreakThrough(c.(events := es)) && AttemptDelta(w, c.(events := es)) == AttemptDelta(w, c)
  {
    hide Blockers, RequirementsMet, BreakthroughLifespan;
    GatesReadNoHistory(w, c, es);
    hide BreakthroughSucceeds;
  }

  lemma AttachReadsNoHistory(w: World, c: Core, es: seq<string>, x: Delta)
    ensures AttachStory(w, c.(events := es), x) == AttachStory(w, c, x)
  {
  }

  lemma BumpKeepsAlike(c: Core, d: Core)
    requires Alike(c, d)
    ensures Alike(Bump(c), Bump(d)) && Alike(Localized(c), Localized(d)) && Unread(c) == Unread(d)
    ensures forall node :: Alike(c.(localNode := node), d.(localNode := node))
  {
  }

  lemma StagedAlike(w: World, c: Core, d: Core)
    requires Alike(c, d)
    ensures Alike(Staged(w, c), Staged(w, d))
  {
    hide Alike, Apply, AdvancedStage;
    AlikeIsHistoryOnly(c, d);
    GatesReadNoHistory(w, c, d.events);
    ApplyKeepsAlike(c, d, StageDelta(w, c));
  }

  lemma AlikeIsHistoryOnly(c: Core, d: Core)
    requires Alike(c, d)
    ensures d == c.(events := d.events)
  {
  }

  lemma TurnsAlike(w: World, c: Core, d: Core, x: Delta)
    requires Alike(c, d)
    ensures Alike(AfterTurn(w, c, x), AfterTurn(w, d, x))
  {
    hide Alike, Apply, Staged;
    BumpKeepsAlike(c, d);
    ApplyKeepsAlike(Bump(c), Bump(d), x);
    StagedAlike(w, Apply(Bump(c), x), Apply(Bump(d), x));
  }

  lemma TurnDeltaAlike(w: World, c: Core, d: Core, cat: Category)
    requires Alike(c, d)
    ensures TurnDelta(w, c, cat) == TurnDelta(w, d, cat)
  {
    hide Alike, SettleTurn;
    BumpKeepsAlike(c, d);
    SettledAlike(w, Bump(c), Bump(d), cat);
  }

  lemma AttemptsAlike(w: World, c: Core, d: Core)
    requires Alike(c, d) && CanBreakThrough(c)
    ensures CanBreakThrough(d) && AttemptOutcome(w, c) == AttemptOutcome(w, d)
    ensures AttemptDelta(w, c) == AttemptDelta(w, d)
  {
    hide Alike, AttachStory, AttemptDelta, CanBreakThrough;
    AlikeIsHistoryOnly(c, d);
    AttemptReadsNoHistory(w, c, d.events);
    AttachReadsNoHistory(w, c, d.events, AttemptDelta(w, c));
  }

  lemma AfterAttemptAlike(w: World, c: Core, d: Core, x: Delta)
    requires Alike(c, d)
    ensures Alike(AfterAttempt(w, c, x), AfterAttempt(w, d, x))
  {
    hide Alike, Apply, AttachStory;
    BumpKeepsAlike(c, d);
    AlikeIsHistoryOnly(Bump(c), Bump(d));
    AttachReadsNoHistory(w, Bump(c), Bump(d).events, x);
    ApplyKeepsAlike(Bump(c), Bump(d), AttachStory(w, Bump(c), x));
  }

  lemma LocalTurnsAlike(w: World, c: Core, d: Core, cat: Category, option: LocalOption)
    requires Alike(c, d)
    ensures LocalDelta(w, c, cat, option) == LocalDelta(w, d, cat, option)
    ensures Alike(AfterLocalTurn(w, c, cat, option), AfterLocalTurn(w, d, cat, option))
  {
    hide Alike, Apply, TurnDelta, AfterTurn, CanBreakThrough, AttemptDelta, AttemptOutcome;
    BumpKeepsAlike(c, d);
    var cc, dd := c.(localNode := option.next), d.(localNode := option.next);
    TurnDeltaAlike(w, cc, dd, cat);
    var x := LocalDelta(w, c, cat, option);
    TurnsAlike(w, cc, dd, x);
    var a, b := AfterTurn(w, cc, x), AfterTurn(w, dd, x);
    AlikeIsHistoryOnly(a, b);
    GatesReadNoHistory(w, a, b.events);
    if option.breakthrough && CanBreakThrough(a) {
      AttemptsAlike(w, a, b);
      ApplyKeepsAlike(a, b, AttemptDelta(w, a));
    }
  }

  // ---- Choices -------------------------------------------------------------

  lemma ChoicesAlike(w: World, c: Core, d: Core, cs: seq<string>)
    requires Alike(c, d)
    ensures |Normalized(cs)| == 4 ==> ShownChoices(w, c, cs) == ShownChoices(w, d, cs)
    ensures LocalChoices(w, c) == LocalChoices(w, d)
  {
    hide Alike, Normalized, CanBreakThrough;
    BumpKeepsAlike(c, d);
    AlikeIsHistoryOnly(c, d);
    GatesReadNoHistory(w, c, d.events);
  }

  // ---- One event -----------------------------------------------------------

  lemma ToldAlike(s: Session, t: Session, narrative: string, eventId: string)
    requires SessionsAlike(s, t)
    ensures SessionsAlike(Told(s, narrative, eventId), Told(t, narrative, eventId))
  {
  }

  lemma AcceptTurnAlike(w: World, s: Session, t: Session, d: Delta, a: Answer)
    requires SessionsAlike(s, t) && Verdict(a).None?
    ensures SessionsAlike(AcceptTurn(w, s, d, a), AcceptTurn(w, t, d, a))
  {
    hide Alike, AfterTurn, ShownChoices, Told, Normalized;
    TurnsAlike(w, s.core, t.core, d);
    var c, e := AfterTurn(w, s.core, d), AfterTurn(w, t.core, d);
    ChoicesAlike(w, c, e, a.choices);
    ToldAlike(Shown(s, c, ShownChoices(w, c, a.choices)), Shown(t, e, ShownChoices(w, e, a.choices)),
              a.narrative, d.eventId);
  }

  lemma AcceptAttemptAlike(w: World, s: Session, t: Session, d: Delta, a: Answer)
    requires SessionsAlike(s, t) && Verdict(a).None?
    ensures SessionsAlike(AcceptAttempt(w, s, d, a), AcceptAttempt(w, t, d, a))
  {
    hide Alike, AfterAttempt, ShownChoices, Told, Normalized;
    AfterAttemptAlike(w, s.core, t.core, d);
    var c, e := AfterAttempt(w, s.core, d), AfterAttempt(w, t.core, d);
    AlikeIsHistoryOnly(c, e);
    ChoicesAlike(w, c, e, a.choices);
    ToldAlike(Shown(s, c, if c.over then [] else ShownChoices(w, c, a.choices)),
              Shown(t, e, if e.over then [] else ShownChoices(w, e, a.choices)), a.narrative, "");
  }

  lemma LocalTurnAlike(w: World, s: Session, t: Session, i: Input)
    requires SessionsAlike(s, t)
    ensures SessionsAlike(LocalTurn(w, s, i), LocalTurn(w, t, i))
  {
    hide Alike, AfterLocalTurn, LocalDelta, LocalChoices, Told;
    BumpKeepsAlike(s.core, t.core);
    ChoicesAlike(w, s.core, t.core, []);
    match w.localOption(Unread(s.core), i)
    case None =>
    case Some(option) =>
      var cat := CategoryOf(i);
      LocalTurnsAlike(w, s.core, t.core, cat, option);
      var c, e := AfterLocalTurn(w, s.core, cat, option), AfterLocalTurn(w, t.core, cat, option);
      AlikeIsHistoryOnly(c, e);
      ChoicesAlike(w, c, e, []);
      ToldAlike(Shown(s, c, if c.over then [] else LocalChoices(w, c)),
                Shown(t, e, if e.over then [] else LocalChoices(w, e)),
                "", LocalDelta(w, s.core, cat, option).eventId);
  }

  lemma OrdinaryAlike(w: World, s: Session, t: Session, i: Input, a: Answer)
    requires SessionsAlike(s, t)
    ensures
      var d := TurnDelta(w, s.core, CategoryOf(i));
      && TurnDelta(w, t.core, CategoryOf(i)) == d
      && (forall code :: SessionsAlike(Held(s, TurnStage, i, d, code), Held(t, TurnStage, i, d, code)))
      && (Verdict(a).None? ==> SessionsAlike(AcceptTurn(w, s, d, a), AcceptTurn(w, t, d, a)))
  {
    hide Alike, AcceptTurn, TurnDelta, Normalized;
    AlikeIsHistoryOnly(s.core, t.core);
    TurnDeltaAlike(w, s.core, t.core, CategoryOf(i));
    if Verdict(a).None? {
      AcceptTurnAlike(w, s, t, TurnDelta(w, s.core, CategoryOf(i)), a);
    }
  }

  lemma AttemptAlike(w: World, s: Session, t: Session, i: Input, a: Answer)
    requires SessionsAlike(s, t) && CanBreakThrough(s.core)
    ensures CanBreakThrough(t.core)
    ensures
      var d := AttemptOutcome(w, s.core);
      && AttemptOutcome(w, t.core) == d
      && (forall code :: SessionsAlike(Held(s, BreakthroughStage, i, d, code), Held(t, BreakthroughStage, i, d, code)))
      && (Verdict(a).None? ==> SessionsAlike(AcceptAttempt(w, s, d, a), AcceptAttempt(w, t, d, a)))
  {
    hide Alike, AcceptAttempt, AttemptOutcome, CanBreakThrough, Normalized;
    AlikeIsHistoryOnly(s.core, t.core);
    AttemptsAlike(w, s.core, t.core);
    if Verdict(a).None? {
      AcceptAttemptAlike(w, s, t, AttemptOutcome(w, s.core), a);
    }
  }

  lemma PlayedAlike(w: World, s: Session, t: Session, i: Input, a: Answer)
    requires SessionsAlike(s, t)
    ensures SessionsAlike(Played(w, s, i, a), Played(w, t, i, a))
  {
    hide Alike, LocalTurn, AcceptAttempt, AcceptTurn, TurnDelta, AttemptOutcome, CanBreakThrough, Normalized;
    hide Held;
    AlikeIsHistoryOnly(s.core, t.core);
    EligibilityReadsNoHistory(s.core, t.core.events);
    if s.core.localStory {
      LocalTurnAlike(w, s, t, i);
    } else {
      OrdinaryAlike(w, s, t, i, a);
      if CanBreakThrough(s.core) {
        AttemptAlike(w, s, t, i, a);
      }
    }
  }

  lemma ToldLocallyAlike(w: World, s: Session, t: Session, p: ModelFailure)
    requires SessionsAlike(s, t)
    ensures SessionsAlike(ToldLocally(w, s, p), ToldLocally(w, t, p))
  {
    hide Alike, AfterTurn, AfterAttempt, LocalChoices, Told, Localized;
    var (a, b) := match p.stage
      case TurnStage => (AfterTurn(w, s.core, p.frozen), AfterTurn(w, t.core, p.frozen))
      case BreakthroughStage => (AfterAttempt(w, s.core, p.frozen), AfterAttempt(w, t.core, p.frozen))
      case OpeningStage => (s.core, t.core);
    TurnsAlike(w, s.core, t.core, p.frozen);
    AfterAttemptAlike(w, s.core, t.core, p.frozen);
    BumpKeepsAlike(a, b);
    AlikeIsHistoryOnly(a, b);
    var (c, e) := if p.stage.BreakthroughStage? && a.over then (a, b) else (Localized(a), Localized(b));
    AlikeIsHistoryOnly(c, e);
    ChoicesAlike(w, c, e, []);
    var cs := if p.stage.BreakthroughStage? && c.over then [] else LocalChoices(w, c);
    if !p.stage.OpeningStage? {
      ToldAlike(Shown(s, c, cs), Shown(t, e, cs), "", if p.stage.TurnStage? then p.frozen.eventId else "");
    }
  }

  lemma RetriedAlike(w: World, s: Session, t: Session, p: ModelFailure, a: Answer)
    requires SessionsAlike(s, t)
    ensures SessionsAlike(Retried(w, s, p, a), Retried(w, t, p, a))
  {
    hide Alike, AcceptTurn, AcceptAttempt, ShownChoices, Normalized;
    if Verdict(a).None? {
      match p.stage
      case TurnStage => AcceptTurnAlike(w, s, t, p.frozen, a);
      case BreakthroughStage => AcceptAttemptAlike(w, s, t, p.frozen, a);
      case OpeningStage =>
        OpenedAlike(s.core, t.core, a);
        ChoicesAlike(w, OpenedAt(s.core, a), OpenedAt(t.core, a), a.choices);
    }
  }

  lemma OpenedAlike(c: Core, d: Core, a: Answer)
    requires Alike(c, d) && a.Answer?
    ensures Alike(OpenedAt(c, a), OpenedAt(d, a))
  {
  }

  /** One event cannot tell a session from its loaded copy. */
  lemma StepKeepsAlike(w: World, s: Session, t: Session, e: Event)
    requires SessionsAlike(s, t)
    ensures SessionsAlike(Step(w, s, e), Step(w, t, e))
  {
    hide Played, Retried, ToldLocally, Tail;
    match (s.pending, e)
    case (None, Play(i, a)) => PlayedAlike(w, s, t, i, a);
    case (None, Decide(d, a)) => PlayedAlike(w, s, t, Act(DecisionText(d), Chance), a);
    case (Some(_), Play(_, _)) =>
    case (Some(p), Decide(RetryModel, a)) => RetriedAlike(w, s, t, p, a);
    case (Some(p), Decide(UseLocalStory, _)) => ToldLocallyAlike(w, s, t, p);
    case (Some(_), Decide(EndRun, _)) =>
  }

  // ---- What every run keeps ready to save ----------------------------------

  lemma ApplyKeepsSaveable(c: Core, d: Delta)
    requires Saveable(c) && forall x :: x in d.titles ==> x != "" && Trim(x) == x
    ensures Saveable(Apply(c, d))
  {
    hide Trim, Apply, AddAll, InScale;
    AddingKeepsDistinct(c.flags, d.flags);
    AddingKeepsDistinct(c.titles, d.titles);
    AppliedLists(c, d);
  }

  lemma AppliedLists(c: Core, d: Delta)
    ensures
      var r := Apply(c, d);
      && r.titles == AddAll(c.titles, d.titles) && r.flags == AddAll(c.flags, d.flags)
      && r.profile == c.profile && (InScale(c.attributes) ==> InScale(r.attributes))
  {
    hide RemoveAll, ShiftAttributes, InScale;
  }

  lemma SettledTitlesAreClean(w: World, c: Core, cat: Category)
    ensures forall x :: x in TurnDelta(w, c, cat).titles ==> x == MERIT_TITLE
    ensures MERIT_TITLE != "" && Trim(MERIT_TITLE) == MERIT_TITLE
  {
    hide SettleLifespan, RiskDeathReason, StoryAfter, ElapsedYears, TurnEvent, AttributeChanges, NewAids, Trim;
    MeritTitleIsTrimmed();
  }

  lemma MeritTitleIsTrimmed()
    ensures Trim(MERIT_TITLE) == MERIT_TITLE
  {
  }

  lemma TurnKeepsSaveable(w: World, c: Core, d: Delta)
    requires Saveable(c) && forall x :: x in d.titles ==> x != "" && Trim(x) == x
    ensures Saveable(AfterTurn(w, c, d))
  {
    hide Apply, AdvancedStage, Trim;
    assert Saveable(Bump(c));
    ApplyKeepsSaveable(Bump(c), d);
    ApplyKeepsSaveable(Apply(Bump(c), d), StageDelta(w, Apply(Bump(c), d)));
  }

  lemma AttemptTitles(w: World, c: Core)
    requires CanBreakThrough(c)
    ensures AttemptDelta(w, c).titles == []
  {
  }

  lemma RuleTurnKeepsSaveable(w: World, c: Core, i: Input)
    requires Saveable(c)
    ensures Saveable(RuleTurn(w, c, i))
  {
    hide AfterTurn, AfterAttempt, AfterLocalTurn, TurnDelta, AttemptOutcome, LocalDelta, CanBreakThrough;
    hide Trim, NoRepeats, InScale, CleanDelta;
    if c.started && !c.over {
      var cat := CategoryOf(i);
      if c.localStory {
        match w.localOption(Unread(c), i)
        case None =>
        case Some(option) => LocalTurnKeepsSaveable(w, c, cat, option);
      } else if Attempts(w, c, i) {
        AttemptOutcomeIsClean(w, c);
        AttemptKeepsSaveable(w, c, AttemptOutcome(w, c));
      } else {
        TurnDeltaIsClean(w, c, cat);
        CleanTurnKeepsSaveable(w, c, TurnDelta(w, c, cat));
      }
    }
  }

  lemma {:induction false} ReplayKeepsSaveable(w: World, c: Core, ms: seq<Move>)
    requires Saveable(c)
    ensures Saveable(Replay(w, c, ms))
  {
    hide RuleTurn, Attempts, NoRepeats, CleanTexts, InScale, Trim;
    if ms != [] {
      var before := Replay(w, c, ms[..|ms| - 1]);
      ReplayKeepsSaveable(w, c, ms[..|ms| - 1]);
      var m := ms[|ms| - 1];
      if m.Turn? {
        RuleTurnKeepsSaveable(w, before, m.input);
      }
    }
  }

  // ---- Whole runs ----------------------------------------------------------

  datatype Moment = Plays(event: Event) | Reloads

  /** A life in which any moment may be a save followed by a load of it. */
  function Lived(w: World, hash: Digest, s: Session, ms: seq<Moment>): Session {
    if ms == [] then s
    else
      var before := Lived(w, hash, s, ms[..|ms| - 1]);
      match ms[|ms| - 1]
      case Plays(e) => Step(w, before, e)
      case Reloads => FromSaveDict(hash, ToSaveDict(hash, before))
  }

  function EventsOf(ms: seq<Moment>): seq<Event> {
    if ms == [] then []
    else
      EventsOf(ms[..|ms| - 1])
      + match ms[|ms| - 1]
        case Plays(e) => [e]
        case Reloads => []
  }

  lemma AlikeThrough(s: Session, t: Session, u: Session)
    requires SessionsAlike(s, t) && SessionsAlike(t, u)
    ensures SessionsAlike(s, u)
  {
  }

  lemma ReadyToSave(w: World, s: Session, es: seq<Event>, t: Session)
    requires Worded(w) && EngineInvariant(w, s) && Saveable(s.core) && SessionsAlike(Run(w, s, es), t)
    ensures Saveable(t.core) && (t.pending.Some? ==> 1 <= t.pending.value.requestNo)
  {
    hide Run, Moves, Replay, Tail, NoRepeats, CleanTexts, InScale, Trim, Attempts, TurnDelta, SlotsHonest;
    RunIsReplay(w, s, es);
    ReplayKeepsSaveable(w, s.core, Moves(w, s, es));
  }

  /**
   Saving and loading at any moments of a run leaves no trace: the run ends in the
   same choices, the same pending failure and the same rule-owned state as the
   events alone, except for turns the rules no longer read.
   */
  lemma {:induction false} ReloadsLeaveNoTrace(w: World, hash: Digest, s: Session, ms: seq<Moment>)
    requires Worded(w) && EngineInvariant(w, s) && Saveable(s.core)
    ensures SessionsAlike(Run(w, s, EventsOf(ms)), Lived(w, hash, s, ms))
  {
    hide Step, ToSaveDict, FromSaveDict, EngineInvariant, Saveable, SessionsAlike;
    if ms == [] {
      SameIsAlike(s);
    } else {
      var earlier := ms[..|ms| - 1];
      var before, straight := Lived(w, hash, s, earlier), Run(w, s, EventsOf(earlier));
      ReloadsLeaveNoTrace(w, hash, s, earlier);
      match ms[|ms| - 1]
      case Plays(e) =>
        assert EventsOf(ms)[..|EventsOf(ms)| - 1] == EventsOf(earlier);
        StepKeepsAlike(w, straight, before, e);
      case Reloads =>
        assert EventsOf(ms) == EventsOf(earlier);
        ReadyToSave(w, s, EventsOf(earlier), before);
        LoadUndoesSave(hash, before);
        AlikeThrough(straight, before, Lived(w, hash, s, ms));
    }
  }

  lemma SameIsAlike(s: Session)
    ensures SessionsAlike(s, s)
  {
  }

  /** In particular the authority projection agrees after every prefix. */
  lemma ReloadsKeepAuthority(w: World, hash: Digest, s: Session, ms: seq<Moment>)
    requires Worded(w) && EngineInvariant(w, s) && Saveable(s.core)
    ensures Projection(Lived(w, hash, s, ms).core) == Projection(Run(w, s, EventsOf(ms)).core)
  {
    hide Lived, Run, EngineInvariant, Saveable, Tail;
    ReloadsLeaveNoTrace(w, hash, s, ms);
  }

  // ---- Sessions that can be saved at any time -------------------------------

  predicate CleanDelta(d: Delta) { forall x :: x in d.titles ==> x != "" && Trim(x) == x }

  ghost predicate Ready(s: Session) {
    Saveable(s.core) && (s.pending.Some? ==> 1 <= s.pending.value.requestNo && CleanDelta(s.pending.value.frozen))
  }

  lemma TurnDeltaIsClean(w: World, c: Core, cat: Category)
    ensures CleanDelta(TurnDelta(w, c, cat))
  {
    hide TurnDelta, Trim;
    SettledTitlesAreClean(w, c, cat);
  }

  lemma AttemptOutcomeIsClean(w: World, c: Core)
    requires CanBreakThrough(c)
    ensures CleanDelta(AttemptOutcome(w, c))
  {
  }

  lemma AttemptKeepsSaveable(w: World, c: Core, d: Delta)
    requires Saveable(c) && CleanDelta(d)
    ensures Saveable(AfterAttempt(w, c, d))
  {
    hide Apply, StoryAfter, Trim, NoRepeats, InScale;
    assert Saveable(Bump(c));
    ApplyKeepsSaveable(Bump(c), AttachStory(w, Bump(c), d));
  }

  lemma ReadyAfter(s: Session, c: Core, cs: seq<string>, narrative: string, eventId: string)
    requires Saveable(c)
    ensures Ready(Told(Shown(s, c, cs), narrative, eventId)) && Ready(Shown(s, c, cs))
  {
  }

  lemma LocalizedIsSaveable(c: Core)
    requires Saveable(c)
    ensures Saveable(Localized(c))
  {
  }

  lemma PlayedIsReady(w: World, s: Session, i: Input, a: Answer)
    requires Ready(s) && s.pending.None?
    ensures Ready(Played(w, s, i, a))
  {
    hide AfterTurn, AfterAttempt, AfterLocalTurn, LocalDelta, TurnDelta, AttemptOutcome, CanBreakThrough;
    hide ShownChoices, Normalized, LocalChoices, Saveable, CleanDelta, Told, Shown, Text;
    var cat := CategoryOf(i);
    if !s.core.started || s.core.over || Text(s, i).None? {
    } else if s.core.localStory {
      match w.localOption(Unread(s.core), i)
      case None =>
      case Some(option) =>
        LocalTurnKeepsSaveable(w, s.core, cat, option);
        var c := AfterLocalTurn(w, s.core, cat, option);
        ReadyAfter(s, c, if c.over then [] else LocalChoices(w, c), "", LocalDelta(w, s.core, cat, option).eventId);
    } else if w.mentions(Text(s, i).value) && CanBreakThrough(s.core) {
      var d := AttemptOutcome(w, s.core);
      AttemptOutcomeIsClean(w, s.core);
      AttemptKeepsSaveable(w, s.core, d);
      if Verdict(a).None? {
        var c := AfterAttempt(w, s.core, d);
        ReadyAfter(s, c, if c.over then [] else ShownChoices(w, c, a.choices), a.narrative, "");
      }
    } else {
      var d := TurnDelta(w, s.core, cat);
      TurnDeltaIsClean(w, s.core, cat);
      CleanTurnKeepsSaveable(w, s.core, d);
      if Verdict(a).None? {
        var c := AfterTurn(w, s.core, d);
        ReadyAfter(s, c, ShownChoices(w, c, a.choices), a.narrative, d.eventId);
      }
    }
  }

  lemma CleanTurnKeepsSaveable(w: World, c: Core, d: Delta)
    requires Saveable(c) && CleanDelta(d)
    ensures Saveable(AfterTurn(w, c, d))
  {
    hide Saveable, AfterTurn, Trim;
    TurnKeepsSaveable(w, c, d);
  }

  lemma LocalTurnKeepsSaveable(w: World, c: Core, cat: Category, option: LocalOption)
    requires Saveable(c)
    ensures Saveable(AfterLocalTurn(w, c, cat, option))
  {
    hide Apply, AfterTurn, TurnDelta, AttemptDelta, CanBreakThrough, Trim, NoRepeats, InScale;
    var moved := c.(localNode := option.next);
    SettledTitlesAreClean(w, moved, cat);
    assert Saveable(moved);
    TurnKeepsSaveable(w, moved, LocalDelta(w, c, cat, option));
    var settled := AfterTurn(w, moved, LocalDelta(w, c, cat, option));
    if option.breakthrough && CanBreakThrough(settled) {
      AttemptTitles(w, settled);
      ApplyKeepsSaveable(settled, AttemptDelta(w, settled));
    }
  }

  lemma ResolvedIsReady(w: World, s: Session, p: ModelFailure, a: Answer)
    requires Ready(s) && s.pending == Some(p)
    ensures Ready(Retried(w, s, p, a)) && Ready(ToldLocally(w, s, p))
  {
    hide AfterTurn, AfterAttempt, ShownChoices, Normalized, LocalChoices, Saveable, CleanDelta, Told, Shown;
    hide Localized;
    CleanTurnKeepsSaveable(w, s.core, p.frozen);
    AttemptKeepsSaveable(w, s.core, p.frozen);
    LocalizedIsSaveable(s.core);
    var c, b := AfterTurn(w, s.core, p.frozen), AfterAttempt(w, s.core, p.frozen);
    LocalizedIsSaveable(c);
    LocalizedIsSaveable(b);
    ReadyAfter(s, Localized(c), LocalChoices(w, Localized(c)), "", p.frozen.eventId);
    ReadyAfter(s, b, [], "", "");
    ReadyAfter(s, Localized(b), if Localized(b).over then [] else LocalChoices(w, Localized(b)), "", "");
    ReadyAfter(s, Localized(s.core), LocalChoices(w, Localized(s.core)), "", "");
    if Verdict(a).None? {
      OpenedIsSaveable(s.core, a);
      ReadyAfter(s, c, ShownChoices(w, c, a.choices), a.narrative, p.frozen.eventId);
      ReadyAfter(s, b, if b.over then [] else ShownChoices(w, b, a.choices), a.narrative, "");
      ReadyAfter(s, OpenedAt(s.core, a), ShownChoices(w, OpenedAt(s.core, a), a.choices), "", "");
    }
  }

  lemma OpenedIsSaveable(c: Core, a: Answer)
    requires Saveable(c) && a.Answer?
    ensures Saveable(OpenedAt(c, a))
  {
  }

  /** Every event leaves a session that a load gives back. */
  lemma StepKeepsReady(w: World, s: Session, e: Event)
    requires Ready(s)
    ensures Ready(Step(w, s, e))
  {
    hide Played, Retried, ToldLocally, Trim, NoRepeats, InScale, CleanTexts;
    match (s.pending, e)
    case (None, Play(i, a)) => PlayedIsReady(w, s, i, a);
    case (None, Decide(d, a)) => PlayedIsReady(w, s, Act(DecisionText(d), Chance), a);
    case (Some(_), Play(_, _)) =>
    case (Some(p), Decide(_, a)) => ResolvedIsReady(w, s, p, a);
  }

  lemma BegunIsReady(w: World, c: Core, a: Answer)
    requires Saveable(c)
    ensures Ready(Begun(w, c, a))
  {
  }

  /** A start with deduplicated titles and a trimmed seed can be saved from its first moment on. */
  lemma StartIsReady(
    w: World, profile: Profile, attributes: Attributes, extra: nat, titles: seq<string>, place: string,
    story: StoryState, opening: Answer)
    requires InScale(attributes) && CleanTexts(titles) && Trim(profile.seed) == profile.seed
    ensures Ready(Begun(w, StartCore(profile, attributes, extra, titles, place, story), opening))
  {
    hide Trim, StartingLifespan, Begun;
    BegunIsReady(w, StartCore(profile, attributes, extra, titles, place, story), opening);
  }
}
