/**
 What the narrator cannot do. Every event sequence of the engine is a replay of
 rule-only moves: a frozen outcome is applied at most once, identically by retry
 and by the local story, and two runs whose settled moves agree end in the same
 rule-owned state whatever was narrated.
 */
module EngineLaws {
  import opened GameConstants
  import opened StoryCatalog
  import opened GameSession
  import opened GameWorld
  import opened Realm
  import opened TurnRules
  import opened Engine

  // ---- The rule-only reference ---------------------------------------------

  /** Slot C or breakthrough wording: the only thing about an input that routes it. */
  predicate Wants(w: World, i: Input) {
    match i
    case Pick(slot) => slot == 2
    case Act(text, _) => w.mentions(text)
  }

  predicate Attempts(w: World, c: Core, i: Input) {
    !c.localStory && Wants(w, i) && CanBreakThrough(c)
  }

  /** One turn played by the rules alone: no narrator, no choices, no history texts. */
  function RuleTurn(w: World, c: Core, i: Input): Core {
    if !c.started || c.over then c
    else if c.localStory then
      match w.localOption(Unread(c), i)
      case None => c
      case Some(option) =>
        Recorded(AfterLocalTurn(w, c, CategoryOf(i), option),
                 LocalDelta(w, c, CategoryOf(i), option).eventId)
    else if Attempts(w, c, i) then Recorded(AfterAttempt(w, c, AttemptOutcome(w, c)), "")
    else
      var d := TurnDelta(w, c, CategoryOf(i));
      Recorded(AfterTurn(w, c, d), d.eventId)
  }

  /** A settled move of a run. */
  datatype Move =
    | Turn(input: Input, toldLocally: bool)
    | Abandon
    | Opened(place: string)
    | OpenedLocally

  function RuleMove(w: World, c: Core, m: Move): Core {
    match m
    case Turn(i, toldLocally) =>
      var next := RuleTurn(w, c, i);
      if toldLocally && !(Attempts(w, c, i) && next.over) then Localized(next) else next
    case Abandon => Abandoned(c)
    case Opened(place) => c.(place := place)
    case OpenedLocally => Localized(c)
  }

  function Replay(w: World, c: Core, ms: seq<Move>): Core {
    if ms == [] then c else RuleMove(w, Replay(w, c, ms[..|ms| - 1]), ms[|ms| - 1])
  }

  // ---- What an event settles -----------------------------------------------

  function InputOf(e: Event): Input {
    match e
    case Play(i, _) => i
    case Decide(d, _) => Act(DecisionText(d), Chance)
  }

  function Settles(w: World, s: Session, e: Event): Option<Move> {
    match (s.pending, e)
    case (None, _) =>
      var i := InputOf(e);
      if !s.core.started || s.core.over || Text(s, i).None? then None
      else if if s.core.localStory then w.localOption(Unread(s.core), i).Some? else Verdict(e.answer).None? then
        Some(Turn(i, false))
      else None
    case (Some(_), Play(_, _)) => None
    case (Some(p), Decide(RetryModel, a)) =>
      if Verdict(a).Some? then None
      else if p.stage.OpeningStage? then Some(Opened(OpenedAt(s.core, a).place))
      else Some(Turn(p.input, false))
    case (Some(p), Decide(UseLocalStory, _)) =>
      Some(if p.stage.OpeningStage? then OpenedLocally else Turn(p.input, true))
    case (Some(_), Decide(EndRun, _)) => Some(Abandon)
  }

  function Run(w: World, s: Session, es: seq<Event>): Session {
    if es == [] then s else Step(w, Run(w, s, es[..|es| - 1]), es[|es| - 1])
  }

  function Moves(w: World, s: Session, es: seq<Event>): seq<Move> {
    if es == [] then []
    else
      var before := es[..|es| - 1];
      Moves(w, s, before)
      + match Settles(w, Run(w, s, before), es[|es| - 1])
        case Some(m) => [m]
        case None => []
  }

  // ---- The engine invariant ------------------------------------------------

  /** A visible text reads as a breakthrough exactly at slot C, exactly when allowed. */
  predicate SlotsHonest(w: World, c: Core, cs: seq<string>) {
    |cs| == 4 && forall i :: 0 <= i < 4 ==> (w.mentions(cs[i]) <==> i == 2 && CanBreakThrough(c))
  }

  predicate Live(s: Session) { s.core.started && !s.core.over }

  /** A pending failure holds what the rules still say about the untouched state. */
  predicate FrozenFaithfully(w: World, s: Session, p: ModelFailure) {
    && Live(s) && !s.core.localStory
    && p.counter == s.core.rngCounter && 1 <= p.requestNo && p.status == Waiting
    && match p.stage
       case OpeningStage => s.choices == []
       case TurnStage =>
         !Attempts(w, s.core, p.input) && p.frozen == TurnDelta(w, s.core, CategoryOf(p.input))
       case BreakthroughStage =>
         Attempts(w, s.core, p.input) && p.frozen == AttemptOutcome(w, s.core)
  }

  predicate EngineInvariant(w: World, s: Session) {
    && (Live(s) && s.pending.None? ==> |s.choices| == 4)
    && (Live(s) && !s.core.localStory && s.choices != [] ==> SlotsHonest(w, s.core, s.choices))
    && (s.pending.Some? ==> FrozenFaithfully(w, s, s.pending.value))
  }

  /** Deduplication leaves a list without repetition as it is. */
  lemma {:induction false} DedupedDistinct(xs: seq<string>)
    requires NoRepeats(xs) && "" !in xs
    ensures Deduped(xs) == xs
  {
    if xs != [] {
      DedupedDistinct(xs[..|xs| - 1]);
      assert xs == xs[..|xs| - 1] + [xs[|xs| - 1]];
    }
  }

  /** While nothing is pending the words of the three decisions are ordinary free text. */
  lemma DecisionsAreWordsOtherwise(w: World, s: Session, a: Answer)
    requires s.pending.None?
    ensures Step(w, s, Decide(RetryModel, a)) == Step(w, s, Play(Act("retry_model", Chance), a))
    ensures Step(w, s, Decide(UseLocalStory, a)) == Step(w, s, Play(Act("use_local_story", Chance), a))
    ensures Step(w, s, Decide(EndRun, a)) == Step(w, s, Play(Act("end_model_failure", Chance), a))
  {
    hide Played;
  }

  lemma LastIsNew(front: seq<string>, last: string)
    ensures NoRepeats(front + [last]) <==> NoRepeats(front) && last !in front
  {
    var xs := front + [last];
    if NoRepeats(xs) {
      forall i, j | 0 <= i < j < |front| ensures front[i] != front[j] {
        assert xs[i] != xs[j];
      }
      forall i | 0 <= i < |front| ensures front[i] != last {
        assert xs[i] != xs[|front|];
      }
    }
  }

  /** A list survives deduplication whole exactly when it has neither repeats nor empty texts. */
  lemma {:induction false} DedupedWholeIff(xs: seq<string>)
    ensures |Deduped(xs)| == |xs| <==> NoRepeats(xs) && "" !in xs
  {
    if xs != [] {
      var front, last := xs[..|xs| - 1], xs[|xs| - 1];
      DedupedWholeIff(front);
      assert xs == front + [last];
      LastIsNew(front, last);
    }
  }

  /**
   An answer is accepted exactly when it narrates, leaves no residue and its first four
   non-empty choices exist and differ; a fifth never stands in for a repeated one.
   */
  lemma AnswerIsAcceptedIff(a: Answer)
    ensures Verdict(a).None? <==>
      && a.Answer? && !a.residue && a.narrative != ""
      && 4 <= |NonEmpty(a.choices)| && NoRepeats(NonEmpty(a.choices)[..4])
  {
    if a.Answer? {
      var kept := NonEmpty(a.choices);
      var four := if |kept| <= 4 then kept else kept[..4];
      assert "" !in kept && forall x :: x in four ==> x in kept;
      assert |kept| == 4 ==> kept[..4] == kept;
      DedupedWholeIff(four);
    }
  }

  lemma FilteredChoicesAreHonest(w: World, c: Core, cs: seq<string>)
    requires Worded(w) && |cs| == 4
    ensures SlotsHonest(w, c, FilterChoices(w, c, cs))
  {
    forall i: nat ensures !w.mentions(w.fallback(Unread(c), i)) {
    }
  }

  lemma ShownChoicesAreHonest(w: World, c: Core, cs: seq<string>, eventId: string)
    requires Worded(w) && |Normalized(cs)| == 4
    ensures SlotsHonest(w, c, ShownChoices(w, c, cs))
    ensures SlotsHonest(w, Recorded(c, eventId), ShownChoices(w, c, cs))
  {
    var texts := Normalized(cs);
    FilteredChoicesAreHonest(w, c, seq(4, i requires 0 <= i < 4 =>
      if w.english(texts[i]) then w.fallback(Unread(c), i) else texts[i]));
  }

  lemma TextDecidesRoute(w: World, s: Session, i: Input)
    requires EngineInvariant(w, s) && Live(s) && !s.core.localStory && Text(s, i).Some?
    ensures w.mentions(Text(s, i).value) && CanBreakThrough(s.core) <==> Attempts(w, s.core, i)
  {
  }

  // ---- One event -----------------------------------------------------------

  /** The rule-owned state moves by one rule-only move, or not at all. */
  predicate Simulates(w: World, s: Session, e: Event) {
    && EngineInvariant(w, Step(w, s, e))
    && Step(w, s, e).core == match Settles(w, s, e)
                             case Some(m) => RuleMove(w, s.core, m)
                             case None => s.core
  }

  lemma PlaySimulates(w: World, s: Session, e: Event)
    requires Worded(w) && EngineInvariant(w, s) && s.pending.None?
    ensures Simulates(w, s, e)
  {
    hide AfterTurn, AfterAttempt, AfterLocalTurn, TurnDelta, AttemptOutcome, LocalDelta;
    hide CanBreakThrough, ShownChoices, Normalized, LocalChoices;
    var i, a := InputOf(e), e.answer;
    assert Step(w, s, e) == Played(w, s, i, a);
    if Live(s) && Text(s, i).Some? {
      if s.core.localStory {
        LocalPlaySimulates(w, s, e);
      } else {
        TextDecidesRoute(w, s, i);
        if Verdict(a).None? {
          if Attempts(w, s.core, i) {
            AcceptedAttempt(w, s, a);
          } else {
            AcceptedTurn(w, s, CategoryOf(i), a);
          }
        }
      }
    }
  }

  lemma LocalPlaySimulates(w: World, s: Session, e: Event)
    requires EngineInvariant(w, s) && s.pending.None? && Live(s) && s.core.localStory
    requires Text(s, InputOf(e)).Some?
    ensures Simulates(w, s, e)
  {
    hide AfterLocalTurn, LocalDelta, CanBreakThrough, LocalChoices;
    match w.localOption(Unread(s.core), InputOf(e))
    case None =>
    case Some(option) => LocalTurnCountsOnce(w, s.core, CategoryOf(InputOf(e)), option, "");
  }

  lemma AcceptedTurn(w: World, s: Session, cat: Category, a: Answer)
    requires Worded(w) && Verdict(a).None?
    ensures
      var d := TurnDelta(w, s.core, cat);
      var t := AcceptTurn(w, s, d, a);
      EngineInvariant(w, t) && t.core == Recorded(AfterTurn(w, s.core, d), d.eventId)
  {
    var d := TurnDelta(w, s.core, cat);
    ShownChoicesAreHonest(w, AfterTurn(w, s.core, d), a.choices, d.eventId);
  }

  lemma AcceptedAttempt(w: World, s: Session, a: Answer)
    requires Worded(w) && Verdict(a).None? && CanBreakThrough(s.core)
    ensures
      var d := AttemptOutcome(w, s.core);
      var t := AcceptAttempt(w, s, d, a);
      EngineInvariant(w, t) && t.core == Recorded(AfterAttempt(w, s.core, d), "")
  {
    var d := AttemptOutcome(w, s.core);
    ShownChoicesAreHonest(w, AfterAttempt(w, s.core, d), a.choices, "");
  }

  lemma RetrySimulates(w: World, s: Session, a: Answer)
    requires Worded(w) && EngineInvariant(w, s) && s.pending.Some?
    ensures Simulates(w, s, Decide(RetryModel, a))
  {
    hide AfterTurn, AfterAttempt, AfterLocalTurn, TurnDelta, AttemptOutcome, LocalDelta;
    hide CanBreakThrough, ShownChoices, Normalized, LocalChoices;
    var p := s.pending.value;
    if Verdict(a).None? {
      match p.stage
      case TurnStage => AcceptedTurn(w, s, CategoryOf(p.input), a);
      case BreakthroughStage => AcceptedAttempt(w, s, a);
      case OpeningStage =>
        ShownChoicesAreHonest(w, OpenedAt(s.core, a), a.choices, "");
    }
  }

  lemma RecordCommutesWithLocal(c: Core, eventId: string)
    ensures Recorded(Localized(c), eventId) == Localized(Recorded(c, eventId))
  {
  }

  lemma LocalTellingSimulates(w: World, s: Session, a: Answer)
    requires EngineInvariant(w, s) && s.pending.Some?
    ensures Simulates(w, s, Decide(UseLocalStory, a))
  {
    hide AfterTurn, AfterAttempt, AfterLocalTurn, TurnDelta, AttemptOutcome, LocalDelta;
    hide CanBreakThrough, ShownChoices, Normalized, LocalChoices;
    var p := s.pending.value;
    match p.stage
    case TurnStage => RecordCommutesWithLocal(AfterTurn(w, s.core, p.frozen), p.frozen.eventId);
    case BreakthroughStage => RecordCommutesWithLocal(AfterAttempt(w, s.core, p.frozen), "");
    case OpeningStage =>
  }

  /**
   While a failure is pending the rule-owned state is the one before the turn; the
   frozen outcome equals what the rules would settle now, so retrying and telling
   it locally apply the same rules once.
   */
  lemma StepIsRuleMove(w: World, s: Session, e: Event)
    requires Worded(w) && EngineInvariant(w, s)
    ensures Simulates(w, s, e)
  {
    hide AfterTurn, AfterAttempt, AfterLocalTurn, TurnDelta, AttemptOutcome, LocalDelta;
    hide CanBreakThrough, ShownChoices, Normalized, LocalChoices;
    match (s.pending, e)
    case (None, _) => PlaySimulates(w, s, e);
    case (Some(_), Play(_, _)) =>
    case (Some(_), Decide(RetryModel, a)) => RetrySimulates(w, s, a);
    case (Some(_), Decide(UseLocalStory, a)) => LocalTellingSimulates(w, s, a);
    case (Some(_), Decide(EndRun, _)) =>
  }

  // ---- Whole runs ----------------------------------------------------------

  /** Any run is the rule-only replay of the moves it settled. */
  lemma {:induction false} RunIsReplay(w: World, s: Session, es: seq<Event>)
    requires Worded(w) && EngineInvariant(w, s)
    ensures EngineInvariant(w, Run(w, s, es))
    ensures Run(w, s, es).core == Replay(w, s.core, Moves(w, s, es))
  {
    hide Step, RuleMove, EngineInvariant, Settles;
    if es != [] {
      var before := es[..|es| - 1];
      RunIsReplay(w, s, before);
      StepIsRuleMove(w, Run(w, s, before), es[|es| - 1]);
      var ms := Moves(w, s, es);
      match Settles(w, Run(w, s, before), es[|es| - 1])
      case Some(m) =>
        assert ms == Moves(w, s, before) + [m];
        assert ms[..|ms| - 1] == Moves(w, s, before);
      case None =>
        assert ms == Moves(w, s, before);
    }
  }

  /** An answer without the state change it claims. */
  function Unclaimed(a: Answer): Answer {
    match a
    case NoAnswer => NoAnswer
    case Answer(narrative, choices, residue, place, _) => Answer(narrative, choices, residue, place, NO_DELTA)
  }

  function UnclaimedEvent(e: Event): Event {
    match e
    case Play(i, a) => Play(i, Unclaimed(a))
    case Decide(d, a) => Decide(d, Unclaimed(a))
  }

  /** The same events, up to the state changes that the answers claim. */
  predicate SameButClaims(es: seq<Event>, fs: seq<Event>) {
    |es| == |fs| && forall i :: 0 <= i < |es| ==> UnclaimedEvent(es[i]) == UnclaimedEvent(fs[i])
  }

  lemma ClaimChangesNothing(w: World, s: Session, e: Event)
    ensures Step(w, s, e) == Step(w, s, UnclaimedEvent(e))
  {
    hide AfterTurn, AfterAttempt, AfterLocalTurn, TurnDelta, AttemptOutcome, LocalDelta;
    hide CanBreakThrough, FilterChoices, LocalChoices, ToldLocally, LocalTurn;
  }

  /** Whatever state changes a narrator claims, the whole session evolves the same. */
  lemma {:induction false} ClaimsAreIgnored(w: World, s: Session, es: seq<Event>, fs: seq<Event>)
    requires SameButClaims(es, fs)
    ensures Run(w, s, es) == Run(w, s, fs)
  {
    hide Step;
    if es != [] {
      var n := |es| - 1;
      ClaimsAreIgnored(w, s, es[..n], fs[..n]);
      ClaimChangesNothing(w, Run(w, s, es[..n]), es[n]);
      ClaimChangesNothing(w, Run(w, s, es[..n]), fs[n]);
    }
  }

  /** Two runs that settle the same moves agree on everything the rules own. */
  lemma NonInterference(w: World, s: Session, t: Session, es: seq<Event>, fs: seq<Event>)
    requires Worded(w) && EngineInvariant(w, s) && EngineInvariant(w, t)
    requires s.core == t.core && Moves(w, s, es) == Moves(w, t, fs)
    ensures Run(w, s, es).core == Run(w, t, fs).core
  {
    hide Step, RuleMove, EngineInvariant, Settles;
    RunIsReplay(w, s, es);
    RunIsReplay(w, t, fs);
  }

  // ---- Scripts of slots ----------------------------------------------------

  /** Keep retrying the pending request until it is accepted or the answers run out. */
  function Persist(w: World, s: Session, answers: seq<Answer>): Session
    decreases |answers|
  {
    if s.pending.None? || answers == [] then s
    else Persist(w, Step(w, s, Decide(RetryModel, answers[0])), answers[1..])
  }

  function Insist(w: World, s: Session, i: Input, answers: seq<Answer>): Session
    requires answers != []
  {
    Persist(w, Step(w, s, Play(i, answers[0])), answers[1..])
  }

  /** Some answer is accepted in the end. */
  predicate Eventually(answers: seq<Answer>) {
    answers != [] && Verdict(answers[|answers| - 1]).None?
  }

  /** The input of a pending turn or breakthrough. */
  predicate Awaits(s: Session, i: Input) {
    s.pending.Some? && s.pending.value.input == i && !s.pending.value.stage.OpeningStage?
  }

  /** A retry leaves the frozen request behind or settles exactly its turn. */
  lemma RetryHoldsOrSettles(w: World, s: Session, i: Input, a: Answer)
    requires Worded(w) && EngineInvariant(w, s) && Awaits(s, i)
    ensures
      var t := Step(w, s, Decide(RetryModel, a));
      && EngineInvariant(w, t)
      && if Verdict(a).Some? then Awaits(t, i) && t.core == s.core
         else t.pending.None? && t.core == RuleTurn(w, s.core, i)
  {
    hide AfterTurn, AfterAttempt, AfterLocalTurn, RuleTurn;
    hide CanBreakThrough, ShownChoices, Normalized, LocalChoices;
    StepIsRuleMove(w, s, Decide(RetryModel, a));
  }

  /** A pressed slot settles now or leaves its own frozen request behind. */
  lemma PlayHoldsOrSettles(w: World, s: Session, slot: nat, a: Answer)
    requires Worded(w) && EngineInvariant(w, s) && s.pending.None? && slot < 4
    ensures
      var t := Step(w, s, Play(Pick(slot), a));
      && EngineInvariant(w, t)
      && (if t.pending.Some? then Awaits(t, Pick(slot)) && t.core == s.core && Verdict(a).Some?
          else t.core == RuleTurn(w, s.core, Pick(slot)))
  {
    hide AfterTurn, AfterAttempt, AfterLocalTurn, TurnDelta, AttemptOutcome, LocalDelta;
    hide CanBreakThrough, ShownChoices, Normalized, LocalChoices;
    StepIsRuleMove(w, s, Play(Pick(slot), a));
  }

  lemma {:induction false} PersistenceSettlesTheFrozenTurn(
    w: World, s: Session, i: Input, answers: seq<Answer>)
    requires Worded(w) && EngineInvariant(w, s) && Eventually(answers) && Awaits(s, i)
    ensures
      var t := Persist(w, s, answers);
      EngineInvariant(w, t) && t.pending.None? && t.core == RuleTurn(w, s.core, i)
    decreases |answers|
  {
    hide Step, EngineInvariant, RuleTurn, Verdict;
    var next := Step(w, s, Decide(RetryModel, answers[0]));
    RetryHoldsOrSettles(w, s, i, answers[0]);
    if next.pending.Some? {
      PersistenceSettlesTheFrozenTurn(w, next, i, answers[1..]);
    }
  }

  lemma InsistingIsARuleTurn(w: World, s: Session, slot: nat, answers: seq<Answer>)
    requires Worded(w) && EngineInvariant(w, s) && s.pending.None? && slot < 4 && Eventually(answers)
    ensures
      var t := Insist(w, s, Pick(slot), answers);
      EngineInvariant(w, t) && t.pending.None? && t.core == RuleTurn(w, s.core, Pick(slot))
  {
    hide Step, EngineInvariant, RuleTurn, Verdict;
    PlayHoldsOrSettles(w, s, slot, answers[0]);
    if Step(w, s, Play(Pick(slot), answers[0])).pending.Some? {
      PersistenceSettlesTheFrozenTurn(w, Step(w, s, Play(Pick(slot), answers[0])), Pick(slot), answers[1..]);
    }
  }

  /** A player who presses the slots in order and retries every failure. */
  function Campaign(w: World, s: Session, slots: seq<nat>, narrator: seq<seq<Answer>>): Session
    requires |narrator| == |slots| && forall k :: 0 <= k < |narrator| ==> Eventually(narrator[k])
  {
    if slots == [] then s
    else
      var n := |slots| - 1;
      assert Eventually(narrator[n]);
      Insist(w, Campaign(w, s, slots[..n], narrator[..n]), Pick(slots[n]), narrator[n])
  }

  function RuleCampaign(w: World, c: Core, slots: seq<nat>): Core {
    if slots == [] then c
    else RuleTurn(w, RuleCampaign(w, c, slots[..|slots| - 1]), Pick(slots[|slots| - 1]))
  }

  lemma {:induction false} CampaignIsRuleCampaign(
    w: World, s: Session, slots: seq<nat>, narrator: seq<seq<Answer>>)
    requires Worded(w) && EngineInvariant(w, s) && s.pending.None?
    requires forall k :: 0 <= k < |slots| ==> slots[k] < 4
    requires |narrator| == |slots| && forall k :: 0 <= k < |narrator| ==> Eventually(narrator[k])
    ensures EngineInvariant(w, Campaign(w, s, slots, narrator))
    ensures Campaign(w, s, slots, narrator).pending.None?
    ensures Campaign(w, s, slots, narrator).core == RuleCampaign(w, s.core, slots)
  {
    hide Step, RuleMove, EngineInvariant, Settles;
    if slots != [] {
      var n := |slots| - 1;
      CampaignIsRuleCampaign(w, s, slots[..n], narrator[..n]);
      InsistingIsARuleTurn(w, Campaign(w, s, slots[..n], narrator[..n]), slots[n], narrator[n]);
    }
  }

  /**
   The same slots from the same rule-owned state end in the same rule-owned state
   for any two narrators and any number of failed attempts.
   */
  lemma SameSlotsSameRun(
    w: World, s: Session, t: Session, slots: seq<nat>, one: seq<seq<Answer>>, other: seq<seq<Answer>>)
    requires Worded(w) && EngineInvariant(w, s) && EngineInvariant(w, t)
    requires s.core == t.core && s.pending.None? && t.pending.None?
    requires forall k :: 0 <= k < |slots| ==> slots[k] < 4
    requires |one| == |other| == |slots|
    requires forall k :: 0 <= k < |slots| ==> Eventually(one[k]) && Eventually(other[k])
    ensures Campaign(w, s, slots, one).core == Campaign(w, t, slots, other).core
  {
    hide Step, RuleMove, EngineInvariant, Settles;
    CampaignIsRuleCampaign(w, s, slots, one);
    CampaignIsRuleCampaign(w, t, slots, other);
  }

  // ---- Counters ------------------------------------------------------------

  /** The draw counter equals the turn counter; a loaded history may be shorter. */
  predicate CountersAgree(c: Core) {
    c.rngCounter == c.turnCount && |c.events| <= c.turnCount && c.realmTurns <= c.turnCount
  }

  lemma ApplyKeepsCounters(c: Core, d: Delta)
    ensures
      var r := Apply(c, d);
      && r.turnCount == c.turnCount && r.rngCounter == c.rngCounter && r.events == c.events
      && r.realmTurns <= c.realmTurns && r.profile == c.profile && r.started == c.started
      && r.localStory == c.localStory && r.localNode == c.localNode
  {
  }

  lemma TurnMovesCounters(w: World, c: Core, d: Delta)
    ensures
      var r := AfterTurn(w, c, d);
      && r.turnCount == c.turnCount + 1 && r.rngCounter == c.rngCounter && r.events == c.events
      && r.realmTurns <= c.realmTurns + 1 && r.profile == c.profile && r.started == c.started
      && r.localStory == c.localStory && r.localNode == c.localNode
  {
  }

  /** One more settled turn: every counter moved by one. */
  predicate CountedOnce(c: Core, r: Core) {
    && r.profile == c.profile && r.started == c.started
    && r.turnCount == c.turnCount + 1 && r.rngCounter == c.rngCounter + 1
    && |r.events| == |c.events| + 1 && r.realmTurns <= c.realmTurns + 1
  }

  lemma LocalTurnCountsOnce(w: World, c: Core, cat: Category, option: LocalOption, eventId: string)
    ensures CountedOnce(c, Recorded(AfterLocalTurn(w, c, cat, option), eventId))
    ensures AfterLocalTurn(w, c, cat, option).localStory == c.localStory
  {
    hide Apply, AfterTurn, LocalDelta, CanBreakThrough;
    var moved := c.(localNode := option.next);
    var d := LocalDelta(w, c, cat, option);
    TurnMovesCounters(w, moved, d);
    var settled := AfterTurn(w, moved, d);
    if option.breakthrough && CanBreakThrough(settled) {
      ApplyKeepsCounters(settled, AttemptDelta(w, settled));
    }
  }

  lemma AttemptCountsOnce(w: World, c: Core, d: Delta)
    ensures CountedOnce(c, Recorded(AfterAttempt(w, c, d), ""))
  {
    hide Apply, AttachStory;
    ApplyKeepsCounters(Bump(c), AttachStory(w, Bump(c), d));
  }

  /** A live turn counts once; a local input that matches nothing counts for nothing. */
  lemma TurnCountsOnce(w: World, c: Core, i: Input)
    ensures RuleTurn(w, c, i) == c || CountedOnce(c, RuleTurn(w, c, i))
    ensures c.started && !c.over && (c.localStory ==> w.localOption(Unread(c), i).Some?) ==>
      CountedOnce(c, RuleTurn(w, c, i))
  {
    hide AfterTurn, AfterAttempt, AfterLocalTurn, TurnDelta, AttemptOutcome, LocalDelta, CanBreakThrough;
    if c.started && !c.over {
      var cat := CategoryOf(i);
      if c.localStory {
        match w.localOption(Unread(c), i)
        case None =>
        case Some(option) =>
          LocalTurnCountsOnce(w, c, cat, option, LocalDelta(w, c, cat, option).eventId);
      } else if Attempts(w, c, i) {
        AttemptCountsOnce(w, c, AttemptOutcome(w, c));
      } else {
        TurnMovesCounters(w, c, TurnDelta(w, c, cat));
      }
    }
  }

  /** Opening, entering the local story and giving up count for nothing. */
  lemma MoveKeepsCounters(w: World, c: Core, m: Move)
    requires CountersAgree(c)
    ensures CountersAgree(RuleMove(w, c, m))
    ensures RuleMove(w, c, m).profile == c.profile && RuleMove(w, c, m).started == c.started
  {
    hide RuleTurn, Attempts;
    if m.Turn? {
      TurnCountsOnce(w, c, m.input);
    }
  }

  lemma {:induction false} ReplayKeepsCounters(w: World, c: Core, ms: seq<Move>)
    requires CountersAgree(c)
    ensures CountersAgree(Replay(w, c, ms))
    ensures Replay(w, c, ms).profile == c.profile && Replay(w, c, ms).started == c.started
  {
    hide RuleMove;
    if ms != [] {
      ReplayKeepsCounters(w, c, ms[..|ms| - 1]);
      MoveKeepsCounters(w, Replay(w, c, ms[..|ms| - 1]), ms[|ms| - 1]);
    }
  }

  /** In every reachable state the draw counter equals the turn counter. */
  lemma DrawCounterIsTurnCounter(w: World, s: Session, es: seq<Event>)
    requires Worded(w) && EngineInvariant(w, s) && CountersAgree(s.core)
    ensures CountersAgree(Run(w, s, es).core)
    ensures var t := Run(w, s, es); t.pending.Some? ==> t.pending.value.counter == t.core.turnCount
  {
    hide Replay, Step, Settles;
    RunIsReplay(w, s, es);
    ReplayKeepsCounters(w, s.core, Moves(w, s, es));
  }

  // ---- At most once --------------------------------------------------------

  function TurnsIn(ms: seq<Move>): nat {
    if ms == [] then 0 else TurnsIn(ms[..|ms| - 1]) + if ms[|ms| - 1].Turn? then 1 else 0
  }

  lemma SettledTurnCounts(w: World, s: Session, e: Event)
    requires Worded(w) && EngineInvariant(w, s)
    ensures Step(w, s, e).core.turnCount
         == s.core.turnCount + (if Settles(w, s, e).Some? && Settles(w, s, e).value.Turn? then 1 else 0)
  {
    hide Step, RuleTurn, Normalized, SlotsHonest, TurnDelta, AttemptOutcome, CanBreakThrough;
    StepIsRuleMove(w, s, e);
    match Settles(w, s, e)
    case None =>
    case Some(m) =>
      if m.Turn? {
        TurnCountsOnce(w, s.core, m.input);
      }
  }

  /**
   The turn counter moves once for every settled turn and for nothing else: not for
   a failed request, not for a retry of one, and not twice for a frozen outcome.
   */
  lemma {:induction false} EverySettledTurnCountsOnce(w: World, s: Session, es: seq<Event>)
    requires Worded(w) && EngineInvariant(w, s)
    ensures Run(w, s, es).core.turnCount == s.core.turnCount + TurnsIn(Moves(w, s, es))
  {
    hide Step, Settles, EngineInvariant;
    if es != [] {
      var before := es[..|es| - 1];
      EverySettledTurnCountsOnce(w, s, before);
      RunIsReplay(w, s, before);
      SettledTurnCounts(w, Run(w, s, before), es[|es| - 1]);
      var ms := Moves(w, s, es);
      match Settles(w, Run(w, s, before), es[|es| - 1])
      case Some(m) => assert ms[..|ms| - 1] == Moves(w, s, before);
      case None => assert ms == Moves(w, s, before);
    }
  }
}
