/**
 How a run may end: the ascension flag, the reason and the realm agree in every
 reachable session, whatever is retried, told locally, abandoned, ended or loaded.
 */
module Endings {
  import opened GameConstants
  import opened StoryCatalog
  import opened GameSession
  import opened GameWorld
  import opened Realm
  import opened TurnRules
  import opened Engine
  import opened SaveLoad
  import opened SessionStore
  import opened Operations

  /** The flag is set exactly for the reason Ascended, in Ascension and at the end only. */
  predicate EndsHonestly(c: Core) {
    (c.finale <==> c.reason == Ascended) && (c.finale ==> c.over && c.realm == ASCENSION)
  }

  predicate HonestDelta(d: Delta) {
    (d.finale <==> d.reason == Ascended) && (d.finale ==> d.over && d.realm == Some(ASCENSION))
  }

  /** A session that ends honestly, its pending outcome included. */
  predicate Honest(s: Session) {
    EndsHonestly(s.core) && (s.pending.Some? ==> !s.core.finale && HonestDelta(s.pending.value.frozen))
  }

  lemma ApplyEnds(c: Core, d: Delta)
    requires EndsHonestly(c) && HonestDelta(d) && (c.finale ==> d.reason == NoReason && d.realm == None)
    ensures EndsHonestly(Apply(c, d))
  {
    hide AddAll, RemoveAll, ShiftAttributes;
  }

  lemma OutcomesAreHonest(w: World, c: Core, cat: Category)
    ensures HonestDelta(TurnDelta(w, c, cat)) && !TurnDelta(w, c, cat).finale
    ensures CanBreakThrough(c) ==> HonestDelta(AttemptDelta(w, c)) && HonestDelta(AttemptOutcome(w, c))
  {
    hide ElapsedYears, TurnEvent, StoryAfter, AttributeChanges, NewAids, Blockers, Draw, CanBreakThrough;
    hide BreakthroughSucceeds, BreakthroughLifespan;
  }

  lemma AfterTurnEnds(w: World, c: Core, d: Delta)
    requires EndsHonestly(c) && !c.finale && HonestDelta(d)
    ensures EndsHonestly(AfterTurn(w, c, d)) && EndsHonestly(AfterAttempt(w, c, d))
  {
    hide Apply, AdvancedStage, StoryAfter;
    ApplyEnds(Bump(c), d);
    ApplyEnds(Apply(Bump(c), d), StageDelta(w, Apply(Bump(c), d)));
    ApplyEnds(Bump(c), AttachStory(w, Bump(c), d));
  }

  lemma LocalTurnEnds(w: World, c: Core, cat: Category, option: LocalOption)
    requires EndsHonestly(c) && !c.over
    ensures EndsHonestly(AfterLocalTurn(w, c, cat, option))
  {
    hide AfterTurn, AttemptDelta, Apply, TurnDelta;
    var moved := c.(localNode := option.next);
    OutcomesAreHonest(w, moved, cat);
    AfterTurnEnds(w, moved, LocalDelta(w, c, cat, option));
    var gate := AfterTurn(w, moved, LocalDelta(w, c, cat, option));
    if option.breakthrough && CanBreakThrough(gate) {
      OutcomesAreHonest(w, gate, cat);
      GateIsOpen(gate);
      ApplyEnds(gate, AttemptDelta(w, gate));
    }
  }

  lemma GateIsOpen(c: Core)
    requires CanBreakThrough(c)
    ensures !c.over
  {
  }

  lemma ToldHonestly(s: Session, c: Core, cs: seq<string>, narrative: string, eventId: string)
    requires EndsHonestly(c)
    ensures Honest(Told(Shown(s, c, cs), narrative, eventId)) && Honest(Shown(s, c, cs))
  {
  }

  lemma HeldHonestly(s: Session, stage: FailureStage, i: Input, d: Delta, code: string)
    requires EndsHonestly(s.core) && !s.core.finale && HonestDelta(d)
    ensures Honest(Held(s, stage, i, d, code))
  {
  }

  lemma LiveIsUndecided(c: Core)
    requires EndsHonestly(c) && !c.over
    ensures !c.finale
  {
  }

  lemma PlayedEnds(w: World, s: Session, i: Input, a: Answer)
    requires Honest(s) && s.pending.None?
    ensures Honest(Played(w, s, i, a))
  {
    hide AfterTurn, AfterAttempt, AfterLocalTurn, LocalDelta, TurnDelta, AttemptOutcome, CanBreakThrough;
    hide ShownChoices, LocalChoices, Normalized, Told, Shown, Held, HonestDelta, EndsHonestly, Text;
    var cat := CategoryOf(i);
    if s.core.started && !s.core.over && Text(s, i).Some? {
      LiveIsUndecided(s.core);
      if s.core.localStory {
        match w.localOption(Unread(s.core), i)
        case None =>
        case Some(option) =>
          LocalTurnEnds(w, s.core, cat, option);
          var c := AfterLocalTurn(w, s.core, cat, option);
          ToldHonestly(s, c, if c.over then [] else LocalChoices(w, c), "", LocalDelta(w, s.core, cat, option).eventId);
      } else {
        OutcomesAreHonest(w, s.core, cat);
        if w.mentions(Text(s, i).value) && CanBreakThrough(s.core) {
          DecidedEnds(w, s, BreakthroughStage, i, AttemptOutcome(w, s.core), a);
        } else {
          DecidedEnds(w, s, TurnStage, i, TurnDelta(w, s.core, cat), a);
        }
      }
    }
  }

  /** Accepted now or frozen, an honest outcome leaves an honest session. */
  lemma DecidedEnds(w: World, s: Session, stage: FailureStage, i: Input, d: Delta, a: Answer)
    requires EndsHonestly(s.core) && !s.core.finale && HonestDelta(d)
    ensures Verdict(a).None? ==> Honest(AcceptTurn(w, s, d, a)) && Honest(AcceptAttempt(w, s, d, a))
    ensures Verdict(a).Some? ==> Honest(Held(s, stage, i, d, Verdict(a).value))
  {
    hide AfterTurn, AfterAttempt, ShownChoices, Normalized, Told, Shown, Held, HonestDelta, EndsHonestly;
    AfterTurnEnds(w, s.core, d);
    if Verdict(a).None? {
      var c, b := AfterTurn(w, s.core, d), AfterAttempt(w, s.core, d);
      ToldHonestly(s, c, ShownChoices(w, c, a.choices), a.narrative, d.eventId);
      ToldHonestly(s, b, if b.over then [] else ShownChoices(w, b, a.choices), a.narrative, "");
    } else {
      HeldHonestly(s, stage, i, d, Verdict(a).value);
    }
  }

  lemma LocalizedEnds(c: Core)
    ensures EndsHonestly(Localized(c)) == EndsHonestly(c)
  {
  }

  lemma ToldLocallyEnds(w: World, s: Session, p: ModelFailure)
    requires Honest(s) && s.pending == Some(p)
    ensures Honest(ToldLocally(w, s, p))
  {
    hide AfterTurn, AfterAttempt, LocalChoices, Told, Shown, EndsHonestly, HonestDelta, Localized;
    AfterTurnEnds(w, s.core, p.frozen);
    var c, b := AfterTurn(w, s.core, p.frozen), AfterAttempt(w, s.core, p.frozen);
    LocalizedEnds(c);
    LocalizedEnds(b);
    LocalizedEnds(s.core);
    match p.stage
    case TurnStage => ToldHonestly(s, Localized(c), LocalChoices(w, Localized(c)), "", p.frozen.eventId);
    case BreakthroughStage =>
      ToldHonestly(s, b, [], "", "");
      ToldHonestly(s, Localized(b), if Localized(b).over then [] else LocalChoices(w, Localized(b)), "", "");
    case OpeningStage => ToldHonestly(s, Localized(s.core), LocalChoices(w, Localized(s.core)), "", "");
  }

  lemma RetriedEnds(w: World, s: Session, p: ModelFailure, a: Answer)
    requires Honest(s) && s.pending == Some(p)
    ensures Honest(Retried(w, s, p, a))
  {
    hide AcceptTurn, AcceptAttempt, ShownChoices, Normalized, Shown, EndsHonestly, HonestDelta;
    if Verdict(a).None? {
      DecidedEnds(w, s, p.stage, p.input, p.frozen, a);
      assert EndsHonestly(OpenedAt(s.core, a)) by { OpeningEnds(s.core, a); }
      ToldHonestly(s, OpenedAt(s.core, a), ShownChoices(w, OpenedAt(s.core, a), a.choices), "", "");
    }
  }

  lemma OpeningEnds(c: Core, a: Answer)
    requires EndsHonestly(c) && a.Answer?
    ensures EndsHonestly(OpenedAt(c, a))
  {
  }

  lemma ResolvedEnds(w: World, s: Session, p: ModelFailure, a: Answer)
    requires Honest(s) && s.pending == Some(p)
    ensures Honest(Retried(w, s, p, a)) && Honest(ToldLocally(w, s, p))
  {
    hide Retried, ToldLocally, Honest;
    RetriedEnds(w, s, p, a);
    ToldLocallyEnds(w, s, p);
  }

  /** No event makes an ascension of anything else. */
  lemma StepEndsHonestly(w: World, s: Session, e: Event)
    requires Honest(s)
    ensures Honest(Step(w, s, e))
  {
    hide Played, Retried, ToldLocally;
    match (s.pending, e)
    case (None, Play(i, a)) => PlayedEnds(w, s, i, a);
    case (None, Decide(d, a)) => PlayedEnds(w, s, Act(DecisionText(d), Chance), a);
    case (Some(_), Play(_, _)) =>
    case (Some(p), Decide(_, a)) => ResolvedEnds(w, s, p, a);
  }

  /** A start as the form gives it has not ended. */
  predicate FreshStart(op: Operation) { op.Begin? ==> !op.core.finale && op.core.reason == NoReason }

  lemma BegunHonestly(w: World, c: Core, a: Answer)
    requires !c.finale && c.reason == NoReason
    ensures Honest(Begun(w, c, a))
  {
    hide ShownChoices, Verdict;
  }

  /** Every operation keeps sessions honest; ending one clears its flag. */
  lemma PerformEndsHonestly(rules: Rules, db: Db, user: Option<string>, s: Session, op: Operation)
    requires Honest(s) && FreshStart(op) && Accepts(db, user, s, op)
    requires forall k :: k in db.saves ==> Honest(db.saves[k])
    ensures Honest(Perform(rules, db, user, s, op))
    ensures op.Finish? ==> !Perform(rules, db, user, s, op).core.finale
  {
    hide Step, Begun, Honest;
    match op
    case Begin(core, opening, _) => BegunHonestly(rules.w, core, opening);
    case Advance(e) => StepEndsHonestly(rules.w, s, e);
    case Store(_) =>
    case Restore(_) =>
    case Finish(reason) => FinishedHonestly(s, reason);
  }

  lemma FinishedHonestly(s: Session, reason: string)
    requires Honest(s)
    ensures Honest(Finished(s, reason)) && !Finished(s, reason).core.finale
  {
  }

  lemma StoredHonestly(rules: Rules, s: Session)
    requires Honest(s)
    ensures Honest(Stored(rules, s))
  {
  }

  lemma AlikeHonestly(s: Session, t: Session)
    requires Honest(s) && SessionsAlike(s, t)
    ensures Honest(t)
  {
  }
}
