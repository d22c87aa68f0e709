/**
 The operations of the web service on one session, and the table mutation each of
 them asks for: start, turn, save, load, end.
 */
module Operations {
  import opened GameConstants
  import opened StoryCatalog
  import opened GameSession
  import opened GameWorld
  import opened Realm
  import opened TurnRules
  import opened Engine
  import opened EngineLaws
  import opened SaveLoad
  import opened SessionStore

  /** What a settled run pays, as evaluated from its final session. */
  datatype Payout = Payout(achievements: seq<Reward>, rewards: seq<Reward>, bonuses: seq<Reward>)

  datatype Rules = Rules(w: World, hash: Digest, payout: Session -> Payout)

  datatype Operation =
    | Begin(core: Core, opening: Answer, bonuses: bool)
    | Advance(event: Event)
    | Store(slot: string)
    | Restore(slot: string)
    | Finish(text: string)

  /** What a snapshot gives back when it is read. */
  function Stored(rules: Rules, s: Session): Session {
    FromSaveDict(rules.hash, ToSaveDict(rules.hash, s))
  }

  /** A turn needs a usable slot and, while a failure is pending, a decision. */
  predicate Accepts(db: Db, user: Option<string>, s: Session, op: Operation) {
    match op
    case Advance(Play(i, _)) => s.pending.None? && Text(s, i).Some?
    case Store(_) => user.Some?
    case Restore(slot) => user.Some? && (user.value, slot) in db.saves
    case _ => true
  }

  /** Ending a session marks it over; a pending failure stays where it is. */
  function Finished(s: Session, reason: string): Session {
    s.(core := s.core.(over := true, finale := false, reason := PlayerQuit(reason)))
  }

  function Perform(rules: Rules, db: Db, user: Option<string>, s: Session, op: Operation): Session
    requires Accepts(db, user, s, op)
  {
    match op
    case Begin(core, opening, _) => Begun(rules.w, core, opening)
    case Advance(e) => Step(rules.w, s, e)
    case Store(_) => s
    case Restore(slot) => db.saves[(user.value, slot)]
    case Finish(reason) => Finished(s, reason)
  }

  // ---- The requested mutation ----------------------------------------------

  function InfoOf(s: Session): RunInfo { RunInfo(s.core.turnCount, s.core.realm) }

  /** A turn is logged when the turn counter moved and the last record carries it. */
  function TurnPayload(user: Option<string>, before: Session, after: Session, request: string): Option<TurnRow> {
    if user.None? || after.core.turnCount <= before.core.turnCount then None
    else if after.log == [] || after.log[|after.log| - 1].turn != after.core.turnCount then None
    else Some(TurnRow(after.core.turnCount, Some(request), after.core.age, ""))
  }

  function TerminalOf(rules: Rules, s: Session): Option<Terminal> {
    if !s.core.over then None
    else
      var p := rules.payout(s);
      Some(Terminal(InfoOf(s), s.core.reason, s.core.finale, p.achievements, p.rewards, p.bonuses))
  }

  function MutationFor(
    rules: Rules, session: string, user: Option<string>, before: Session, after: Session,
    version: nat, request: string, op: Operation): Mutation
  {
    var plain := Mutation(session, user, Stored(rules, after), version, request, after,
                          None, None, false, None, None, None);
    match op
    case Begin(_, _, bonuses) =>
      plain.(startRun := Some(InfoOf(after)), consume := bonuses, terminal := TerminalOf(rules, after))
    case Advance(_) =>
      plain.(turn := TurnPayload(user, before, after, request), terminal := TerminalOf(rules, after))
    case Store(slot) => plain.(slot := Some(slot))
    case Restore(_) => plain.(rewind := Some(InfoOf(after)))
    case Finish(_) => plain.(terminal := TerminalOf(rules, after))
  }

  // ---- One request under the session lock ----------------------------------

  /** A cached runner: the live session and the version it was committed at. */
  datatype Runner = Runner(state: Session, version: nat)

  datatype Reply =
    | Done(response: Response)
    | Repeated(response: Response)
    | Stale
    | Rejected
    | Errored(error: Error)

  /** A failed request puts back what the runner would save, loaded again. */
  function RolledBack(rules: Rules, r: Runner): Runner { Runner(Stored(rules, r.state), r.version) }

  /** A load builds a fresh runner, so its failure leaves the old one untouched. */
  function AfterFailure(rules: Rules, r: Runner, op: Operation): Runner {
    if op.Restore? then r else RolledBack(rules, r)
  }

  /** A slot button is read against the choices now on show, before anything else. */
  predicate ChoiceMissing(s: Session, op: Operation) {
    op.Advance? && op.event.Play? && op.event.input.Pick? && Text(s, op.event.input).None?
  }

  ghost function Serve(
    rules: Rules, db: Db, session: string, user: Option<string>, r: Runner,
    request: string, expected: nat, op: Operation): (Db, Runner, Reply)
  {
    if ChoiceMissing(r.state, op) then (db, r, Rejected)
    else if (session, request) in db.mutations then
      (db, r, Repeated(db.mutations[(session, request)].response))
    else if expected != r.version then (db, r, Stale)
    else if !Accepts(db, user, r.state, op) then
      (db, if op.Advance? then RolledBack(rules, r) else r, Rejected)
    else
      var after := Perform(rules, db, user, r.state, op);
      var (next, o) := Commit(db, MutationFor(rules, session, user, r.state, after, r.version, request, op));
      match o
      case Committed(response) => (next, Runner(after, response.version), Done(response))
      case Replayed(response) => (next, Runner(after, response.version), Repeated(response))
      case VersionConflict => (next, AfterFailure(rules, r, op), Stale)
      case Failed(error) => (next, AfterFailure(rules, r, op), Errored(error))
  }

  /**
   A logged request sent again changes neither tables nor runner. It is answered
   from the log if and only if it does not press a slot that no longer exists: a
   run's last turn clears its choices, so pressing that slot again is rejected.
   */
  lemma ResentRequest(
    rules: Rules, db: Db, session: string, user: Option<string>, r: Runner,
    request: string, expected: nat, op: Operation)
    requires (session, request) in db.mutations
    ensures
      var (next, after, reply) := Serve(rules, db, session, user, r, request, expected, op);
      && next == db && after == r
      && (reply == Repeated(db.mutations[(session, request)].response) <==> !ChoiceMissing(r.state, op))
      && (ChoiceMissing(r.state, op) ==> reply == Rejected)
  {
  }

  /** A prepared Tribulation run whose attempt by slot C will succeed. */
  predicate AboutToAscend(w: World, s: Session) {
    && EngineInvariant(w, s) && s.core.started && !s.core.over && !s.core.localStory && s.pending.None?
    && CanBreakThrough(s.core) && s.core.realm + 1 == ASCENSION && BreakthroughSucceeds(w, s.core)
  }

  /** The ascending turn ends the run and clears its choices. */
  lemma AscensionClearsChoices(w: World, s: Session, a: Answer)
    requires AboutToAscend(w, s) && Usable(a)
    ensures
      var t := Step(w, s, Play(Pick(2), a));
      Text(s, Pick(2)).Some? && t.core.over && t.pending.None? && t.choices == []
  {
    hide BreakthroughSucceeds, BreakthroughLifespan, Blocked, RequirementsMet, StoryAfter, ShownChoices, Normalized;
    hide AddAll, RemoveAll, ShiftAttributes;
  }

  /**
   Such a run's last turn, once its commit succeeds, is served and logged, but the same
   request sent again is rejected: the slot it names is gone. A guest's commit always
   succeeds.
   */
  lemma LastTurnCannotBeRepeated(
    rules: Rules, db: Db, session: string, user: Option<string>, r: Runner, request: string, a: Answer)
    requires AboutToAscend(rules.w, r.state) && Usable(a)
    requires session in db.sessions && db.sessions[session].version == r.version
    requires (session, request) !in db.mutations
    requires user.None? || Commit(db, AscensionOf(rules, session, user, r, request, a)).1.Committed?
    ensures
      var op := Advance(Play(Pick(2), a));
      var (next, after, reply) := Serve(rules, db, session, user, r, request, r.version, op);
      && reply.Done? && (session, request) in next.mutations
      && Serve(rules, next, session, user, after, request, r.version, op) == (next, after, Rejected)
  {
    hide Step, MutationFor, AboutToAscend, Usable;
    AscensionClearsChoices(rules.w, r.state, a);
    NothingPending(rules.w, r.state);
    AscensionIsLogged(rules, db, session, user, r, request, a);
  }

  /** The mutation that the ascending turn asks for. */
  function AscensionOf(rules: Rules, session: string, user: Option<string>, r: Runner, request: string, a: Answer)
    : Mutation
  {
    var e := Play(Pick(2), a);
    MutationFor(rules, session, user, r.state, Step(rules.w, r.state, e), r.version, request, Advance(e))
  }

  lemma NothingPending(w: World, s: Session)
    requires AboutToAscend(w, s)
    ensures s.pending.None?
  {
  }

  lemma AscensionIsLogged(
    rules: Rules, db: Db, session: string, user: Option<string>, r: Runner, request: string, a: Answer)
    requires session in db.sessions && db.sessions[session].version == r.version
    requires (session, request) !in db.mutations
    requires user.None? || Commit(db, AscensionOf(rules, session, user, r, request, a)).1.Committed?
    ensures
      var (next, o) := Commit(db, AscensionOf(rules, session, user, r, request, a));
      o.Committed? && (session, request) in next.mutations
  {
    hide Stored, TerminalOf, TurnPayload, Step;
  }

  // ---- What an ended session still allows ----------------------------------

  lemma OverNeedsDecision(w: World, s: Session, e: Event)
    requires s.core.over && s.pending.None?
    ensures Step(w, s, e) == s
  {
  }

  /** The narrator answer that a retry of this failure accepts exists for every world. */
  predicate Usable(a: Answer) { Verdict(a).None? }

  /**
   Ending a session does not settle its pending failure. No later event moves the
   rule-owned state of an ended session if and only if nothing was pending: a
   frozen turn can still be retried after the end.
   */
  lemma EndedSessionStandsIffNothingPending(w: World, s: Session, reason: string, a: Answer)
    requires Usable(a) && (s.pending.Some? ==> !s.pending.value.stage.OpeningStage?)
    ensures (forall e :: Step(w, Finished(s, reason), e).core == Finished(s, reason).core) <==> s.pending.None?
  {
    hide AfterTurn, AfterAttempt, ShownChoices, Normalized, Played, ToldLocally;
    var t := Finished(s, reason);
    if s.pending.None? {
      forall e ensures Step(w, t, e).core == t.core {
        OverNeedsDecision(w, t, e);
      }
    } else {
      RetryMovesCounter(w, t, s.pending.value, a);
      assert Step(w, t, Decide(RetryModel, a)).core != t.core;
    }
  }

  predicate TurnCounted(s: Session, t: Session) { t.core.turnCount == s.core.turnCount + 1 }

  lemma RetryMovesCounter(w: World, s: Session, p: ModelFailure, a: Answer)
    requires s.pending == Some(p) && Usable(a) && !p.stage.OpeningStage?
    ensures TurnCounted(s, Step(w, s, Decide(RetryModel, a)))
  {
    hide Apply, AttachStory, ShownChoices, Normalized, Staged, AfterTurn;
    TurnMovesCounters(w, s.core, p.frozen);
    ApplyKeepsCounters(Bump(s.core), AttachStory(w, Bump(s.core), p.frozen));
  }

  /**
   The engine's own action handler respects a pending failure exactly when the action
   does not route to a breakthrough attempt. One that does settles a turn of its own
   and discards the frozen one; only the caller's guard rules it out.
   */
  lemma PendingBlocksActionsIff(w: World, s: Session, i: Input, a: Answer)
    requires EngineInvariant(w, s) && s.pending.Some? && Usable(a)
    ensures (forall b :: Acted(w, s, i, b) == s) <==> !RoutesToAttempt(w, s, i)
    ensures RoutesToAttempt(w, s, i) ==>
      Acted(w, s, i, a).pending.None? && TurnCounted(s, Acted(w, s, i, a))
  {
    hide Apply, AttachStory, ShownChoices, Normalized, AttemptOutcome, CanBreakThrough, LocalTurn, AcceptTurn;
    hide TurnDelta, AttemptDelta, SlotsHonest, Attempts;
    if RoutesToAttempt(w, s, i) {
      var d := AttemptOutcome(w, s.core);
      ApplyKeepsCounters(Bump(s.core), AttachStory(w, Bump(s.core), d));
      assert Acted(w, s, i, a) == AcceptAttempt(w, s, d, a);
    }
  }

  // ---- Turns are recorded --------------------------------------------------

  /** The turn counter stays, or moves by one together with a record that carries it. */
  predicate CountsAsRecorded(s: Session, t: Session) {
    || t.core.turnCount == s.core.turnCount
    || (t.core.turnCount == s.core.turnCount + 1 && t.log != []
        && t.log[|t.log| - 1].turn == t.core.turnCount)
  }

  lemma ToldCarriesTurn(s: Session, narrative: string, eventId: string)
    ensures
      var t := Told(s, narrative, eventId);
      t.core.turnCount == s.core.turnCount && t.log != [] && t.log[|t.log| - 1].turn == t.core.turnCount
  {
  }

  lemma LocalTurnRecords(w: World, s: Session, i: Input)
    ensures CountsAsRecorded(s, LocalTurn(w, s, i))
  {
    hide AfterLocalTurn, LocalDelta, LocalChoices, Told;
    match w.localOption(Unread(s.core), i)
    case None =>
    case Some(option) =>
      var cat := CategoryOf(i);
      var c := AfterLocalTurn(w, s.core, cat, option);
      LocalTurnCountsOnce(w, s.core, cat, option, "");
      ToldCarriesTurn(Shown(s, c, if c.over then [] else LocalChoices(w, c)), "",
                      LocalDelta(w, s.core, cat, option).eventId);
  }

  lemma AcceptRecords(w: World, s: Session, d: Delta, a: Answer)
    requires Usable(a)
    ensures CountsAsRecorded(s, AcceptTurn(w, s, d, a))
    ensures CountsAsRecorded(s, AcceptAttempt(w, s, d, a))
  {
    hide Apply, AttachStory, ShownChoices, Normalized, Staged, Told, AfterTurn;
    TurnMovesCounters(w, s.core, d);
    ApplyKeepsCounters(Bump(s.core), AttachStory(w, Bump(s.core), d));
    var c := AfterTurn(w, s.core, d);
    ToldCarriesTurn(Shown(s, c, ShownChoices(w, c, a.choices)), a.narrative, d.eventId);
    var b := AfterAttempt(w, s.core, d);
    ToldCarriesTurn(Shown(s, b, if b.over then [] else ShownChoices(w, b, a.choices)), a.narrative, "");
  }

  lemma LocalTellingRecords(w: World, s: Session, p: ModelFailure)
    ensures CountsAsRecorded(s, ToldLocally(w, s, p))
  {
    hide Apply, AttachStory, Staged, LocalChoices, AfterTurn;
    TurnMovesCounters(w, s.core, p.frozen);
    ApplyKeepsCounters(Bump(s.core), AttachStory(w, Bump(s.core), p.frozen));
  }

  lemma StepRecordsTurns(w: World, s: Session, e: Event)
    ensures CountsAsRecorded(s, Step(w, s, e))
    ensures !s.core.started && s.pending.None? ==> Step(w, s, e) == s
  {
    hide AcceptTurn, AcceptAttempt, LocalTurn, ToldLocally, Normalized, ShownChoices, TurnDelta, AttemptOutcome;
    hide CanBreakThrough;
    match (s.pending, e)
    case (None, _) =>
      var i := InputOf(e);
      LocalTurnRecords(w, s, i);
      if Usable(e.answer) {
        AcceptRecords(w, s, TurnDelta(w, s.core, CategoryOf(i)), e.answer);
        if CanBreakThrough(s.core) {
          AcceptRecords(w, s, AttemptOutcome(w, s.core), e.answer);
        }
      }
    case (Some(_), Play(_, _)) =>
    case (Some(p), Decide(RetryModel, a)) =>
      if Usable(a) {
        AcceptRecords(w, s, p.frozen, a);
      }
    case (Some(p), Decide(UseLocalStory, _)) => LocalTellingRecords(w, s, p);
    case (Some(_), Decide(EndRun, _)) =>
  }
}
