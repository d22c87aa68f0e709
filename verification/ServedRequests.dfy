/**
 What a served request leaves behind, operation by operation, in the terms of the
 player: the stored session, the save slot, the logged turn, the run row and the
 account's counters. Nothing here speaks of the mutation a request is turned into.
 */
module ServedRequests {
  import opened GameConstants
  import opened GameSession
  import opened Engine
  import opened EngineLaws
  import opened SaveLoad
  import opened SessionStore
  import opened StoreLaws
  import opened Operations
  import opened Protocol
  import opened Endings

  /** A request as it reaches the service. */
  datatype Request = Request(session: string, user: Option<string>, id: string, expected: nat, op: Operation)

  ghost function Served(rules: Rules, db: Db, r: Runner, q: Request): (Db, Runner, Reply) {
    Serve(rules, db, q.session, q.user, r, q.id, q.expected, q.op)
  }

  function Asked(rules: Rules, db: Db, r: Runner, q: Request): Mutation
    requires Accepts(db, q.user, r.state, q.op)
  {
    MutationFor(rules, q.session, q.user, r.state, Perform(rules, db, q.user, r.state, q.op), r.version, q.id, q.op)
  }

  // ---- Every done request --------------------------------------------------

  lemma DoneIsCommitted(rules: Rules, db: Db, r: Runner, q: Request)
    requires Served(rules, db, r, q).2.Done?
    ensures Accepts(db, q.user, r.state, q.op)
    ensures
      var (next, after, reply) := Served(rules, db, r, q);
      var c := Asked(rules, db, r, q);
      && Swaps(db, c) && Written(Swapped(db, c), c).Ok? && next == Noted(Written(Swapped(db, c), c).value, c)
      && after == Runner(Perform(rules, db, q.user, r.state, q.op), r.version + 1)
      && reply.response == Answered(c)
      && c.session == q.session && c.user == q.user && c.request == q.id && c.expected == r.version
      && c.view == after.state && c.snapshot == Stored(rules, after.state)
  {
    hide Stored, TerminalOf, TurnPayload, Written, Perform, Accepts, ChoiceMissing;
  }

  /** The row, the runner and the answer of a done request carry its result under the next version. */
  lemma DoneStoresResult(rules: Rules, db: Db, r: Runner, q: Request)
    requires Served(rules, db, r, q).2.Done?
    ensures
      var (next, after, reply) := Served(rules, db, r, q);
      && next.sessions == db.sessions[q.session := SessionRow(q.user, Stored(rules, after.state), r.version + 1)]
      && after.version == reply.response.version == r.version + 1 == q.expected + 1
      && reply.response.view == after.state
      && (q.session, q.id) in next.mutations && next.mutations[(q.session, q.id)].response == reply.response
  {
    hide Stored, Perform, Accepts, ChoiceMissing, Written, MutationFor;
    DoneIsCommitted(rules, db, r, q);
    var c := Asked(rules, db, r, q);
    WrittenTouches(Swapped(db, c), c);
  }

  /** Any other reply leaves every table as it was. */
  lemma OnlyDoneChanges(rules: Rules, db: Db, r: Runner, q: Request)
    ensures !Served(rules, db, r, q).2.Done? ==> Served(rules, db, r, q).0 == db
  {
    hide Stored, Perform, Accepts, ChoiceMissing, Written, MutationFor;
    if Accepts(db, q.user, r.state, q.op) {
      OnlyCommitsChange(db, Asked(rules, db, r, q));
    }
  }

  // ---- Saves ---------------------------------------------------------------

  /** The statements that never touch the save slots. */
  lemma SavesChangeOnlyBySlot(tx: Db, c: Mutation)
    requires Written(tx, c).Ok?
    ensures Written(tx, c).value.saves ==
      if c.user.Some? && c.slot.Some? then tx.saves[(c.user.value, c.slot.value) := c.snapshot] else tx.saves
  {
    hide StoreLaws.Opened, Closed, Written;
    if c.user.None? {
      GuestsWriteNothing(tx, c);
    } else {
      WrittenInTwo(tx, c);
      OpenedSaves(tx, c);
      ClosedSaves(StoreLaws.Opened(tx, c).value, c);
    }
  }

  lemma EnsuredSaves(db: Db, session: string, user: string, info: RunInfo)
    requires Ensured(db, session, user, info).Ok?
    ensures Ensured(db, session, user, info).value.saves == db.saves
  {
  }

  lemma OpenedSaves(tx: Db, c: Mutation)
    requires c.user.Some? && StoreLaws.Opened(tx, c).Ok?
    ensures StoreLaws.Opened(tx, c).value.saves == tx.saves
  {
    hide Ensured, TurnsUpTo, WithoutMutations;
    var begun := tx;
    if c.startRun.Some? {
      EnsuredSaves(tx, c.session, c.user.value, c.startRun.value);
      begun := Ensured(tx, c.session, c.user.value, c.startRun.value).value;
    }
    if c.rewind.Some? && Ensured(begun, c.session, c.user.value, c.rewind.value).Ok? {
      EnsuredSaves(begun, c.session, c.user.value, c.rewind.value);
    }
  }

  lemma FinalizedSaves(db: Db, session: string, user: string, t: Terminal)
    requires Finalized(db, session, user, t).Ok?
    ensures Finalized(db, session, user, t).value.saves == db.saves
  {
    hide Ensured, Keys, SessionStore.Granted, Progressed;
    EnsuredSaves(db, session, user, t.info);
  }

  lemma LoggedSaves(db: Db, run: string, turn: TurnRow)
    requires SessionStore.Logged(db, run, turn).Ok?
    ensures SessionStore.Logged(db, run, turn).value.saves == db.saves
  {
  }

  lemma ClosedSaves(tx: Db, c: Mutation)
    requires c.user.Some? && Closed(tx, c).Ok?
    ensures Closed(tx, c).value.saves ==
      if c.slot.Some? then tx.saves[(c.user.value, c.slot.value) := c.snapshot] else tx.saves
  {
    hide SessionStore.Logged, Finalized;
    var logged := tx;
    if c.turn.Some? {
      LoggedSaves(tx, c.session, c.turn.value);
      logged := SessionStore.Logged(tx, c.session, c.turn.value).value;
    }
    var spent := if c.consume then Consumed(logged, c.user.value) else logged;
    if c.terminal.Some? {
      FinalizedSaves(spent, c.session, c.user.value, c.terminal.value);
    }
  }

  lemma SlotOfOperation(rules: Rules, db: Db, r: Runner, q: Request)
    requires Accepts(db, q.user, r.state, q.op)
    ensures Asked(rules, db, r, q).slot == if q.op.Store? then Some(q.op.slot) else None
  {
    hide Stored, TerminalOf, TurnPayload, Perform, Accepts;
  }

  /**
   A done save writes the runner's session into its slot, alike to it for every later
   play, leaves every other slot and every other table but row and request log as they
   were, and names the slot in its answer. No other operation touches a slot.
   */
  lemma SaveKeepsSession(rules: Rules, db: Db, r: Runner, q: Request)
    requires Served(rules, db, r, q).2.Done? && Ready(r.state)
    ensures
      var (next, after, reply) := Served(rules, db, r, q);
      if q.op.Store? then
        && q.user.Some? && after.state == r.state
        && (q.user.value, q.op.slot) in next.saves
        && SessionsAlike(r.state, next.saves[(q.user.value, q.op.slot)])
        && (forall k :: k != (q.user.value, q.op.slot) ==>
              (k in next.saves <==> k in db.saves) && (k in db.saves ==> next.saves[k] == db.saves[k]))
        && reply.response.saved == Some(q.op.slot)
        && next.runs == db.runs && next.turns == db.turns && next.achievements == db.achievements
        && next.rewards == db.rewards && next.bonuses == db.bonuses && next.progress == db.progress
      else next.saves == db.saves && reply.response.saved == None
  {
    hide Stored, Ready, SessionsAlike, Step, Begun, Written, MutationFor;
    DoneIsCommitted(rules, db, r, q);
    var c := Asked(rules, db, r, q);
    SavesChangeOnlyBySlot(Swapped(db, c), c);
    SlotOfOperation(rules, db, r, q);
    if q.op.Store? {
      StoredIsAlike(rules, r.state);
      StoreTouchesNothingElse(rules, db, r, q);
    }
  }

  lemma StoreTouchesNothingElse(rules: Rules, db: Db, r: Runner, q: Request)
    requires Accepts(db, q.user, r.state, q.op) && q.op.Store? && Swaps(db, Asked(rules, db, r, q))
    ensures
      var c := Asked(rules, db, r, q);
      var w := Written(Swapped(db, c), c);
      && w.Ok? && w.value.runs == db.runs && w.value.turns == db.turns && w.value.achievements == db.achievements
      && w.value.rewards == db.rewards && w.value.bonuses == db.bonuses && w.value.progress == db.progress
  {
    hide Stored, TerminalOf, TurnPayload;
  }

  /** Nobody stores over this slot. */
  predicate LeavesSlot(step: DbStep, user: string, slot: string) {
    !(step.Commits? && step.change.user == Some(user) && step.change.slot == Some(slot))
  }

  lemma TakeKeepsSlot(db: Db, step: DbStep, user: string, slot: string)
    requires LeavesSlot(step, user, slot) && (user, slot) in db.saves
    ensures (user, slot) in Take(db, step).saves && Take(db, step).saves[(user, slot)] == db.saves[(user, slot)]
  {
    hide Written;
    if step.Commits? && Commit(db, step.change).1.Committed? {
      SavesChangeOnlyBySlot(Swapped(db, step.change), step.change);
    }
  }

  lemma {:induction false} SlotStays(db: Db, steps: seq<DbStep>, user: string, slot: string)
    requires (forall step :: step in steps ==> LeavesSlot(step, user, slot)) && (user, slot) in db.saves
    ensures (user, slot) in After(db, steps).saves && After(db, steps).saves[(user, slot)] == db.saves[(user, slot)]
  {
    hide Take, LeavesSlot;
    if steps != [] {
      var earlier, last := steps[..|steps| - 1], steps[|steps| - 1];
      assert last in steps;
      assert forall step :: step in earlier ==> step in steps;
      SlotStays(db, earlier, user, slot);
      TakeKeepsSlot(After(db, earlier), last, user, slot);
    }
  }

  /**
   The round trip: what a user has saved comes back by any later load of the slot, in
   any of the user's sessions and after any steps that do not store over it. The load
   is never rejected for a missing save.
   */
  lemma SavedComesBack(
    rules: Rules, db: Db, r: Runner, save: Request, steps: seq<DbStep>, other: Runner, load: Request)
    requires save.op.Store? && Served(rules, db, r, save).2.Done? && Ready(r.state)
    requires load.op == Restore(save.op.slot) && load.user == save.user
    requires save.user.Some? ==> forall step :: step in steps ==> LeavesSlot(step, save.user.value, save.op.slot)
    ensures
      var later := After(Served(rules, db, r, save).0, steps);
      var (next, after, reply) := Served(rules, later, other, load);
      reply != Rejected && (reply.Done? ==> SessionsAlike(r.state, after.state))
  {
    hide Stored, Ready, SessionsAlike, Step, Begun, Written, MutationFor, After, LeavesSlot;
    SaveKeepsSession(rules, db, r, save);
    var user, slot := save.user.value, save.op.slot;
    var stored := Served(rules, db, r, save).0;
    SlotStays(stored, steps, user, slot);
    var later := After(stored, steps);
    LoadIsNeverRejected(rules, later, other, load);
    if Served(rules, later, other, load).2.Done? {
      DoneIsCommitted(rules, later, other, load);
    }
  }

  lemma LoadIsNeverRejected(rules: Rules, db: Db, r: Runner, q: Request)
    requires q.op.Restore? && q.user.Some? && (q.user.value, q.op.slot) in db.saves
    ensures Served(rules, db, r, q).2 != Rejected
    ensures Served(rules, db, r, q).2.Done? ==> Served(rules, db, r, q).1.state == db.saves[(q.user.value, q.op.slot)]
  {
    hide MutationFor, Written;
  }

  // ---- Loads, starts and turns ---------------------------------------------

  lemma RewindWrites(tx: Db, c: Mutation)
    requires c.user.Some? && c.rewind.Some? && c.startRun.None? && c.turn.None? && c.terminal.None?
    requires c.slot.None? && !c.consume && Written(tx, c).Ok?
    ensures Written(tx, c) == Rewound(tx, c.session, c.user.value, c.rewind.value)
  {
    hide Rewound;
  }

  lemma RewoundMoves(tx: Db, session: string, user: string, info: RunInfo)
    requires Rewound(tx, session, user, info).Ok?
    ensures
      var next := Rewound(tx, session, user, info).value;
      && next.turns == TurnsUpTo(tx.turns, session, info.turnCount)
      && session in next.runs && !next.runs[session].completed
      && next.runs[session].turnCount == info.turnCount && next.runs[session].realm == info.realm
      && (forall k :: k in next.mutations ==> k.0 != session)
      && next.bonuses == tx.bonuses && next.progress == tx.progress
  {
    hide SessionHasRun, TurnsUpTo;
  }

  lemma LoadMutation(rules: Rules, db: Db, r: Runner, q: Request)
    requires Accepts(db, q.user, r.state, q.op) && q.op.Restore?
    ensures
      var c := Asked(rules, db, r, q);
      && c.user.Some? && c.rewind == Some(InfoOf(Perform(rules, db, q.user, r.state, q.op)))
      && c.startRun.None? && c.turn.None? && c.terminal.None? && c.slot.None? && !c.consume
  {
    hide Stored;
  }

  /** A done load of a user's session cuts the turns after the loaded one and moves the run there. */
  lemma LoadMovesRun(rules: Rules, db: Db, r: Runner, q: Request)
    requires Served(rules, db, r, q).2.Done? && q.op.Restore?
    ensures
      var (next, after, _) := Served(rules, db, r, q);
      && (forall k :: k in next.turns <==> k in db.turns && !(k.0 == q.session && after.state.core.turnCount < k.1))
      && (forall k :: k in next.turns ==> next.turns[k] == db.turns[k])
      && q.session in next.runs && !next.runs[q.session].completed
      && next.runs[q.session].turnCount == after.state.core.turnCount
      && next.runs[q.session].realm == after.state.core.realm
      && (forall k :: k in next.mutations && k.0 == q.session ==> k.1 == q.id)
      && next.bonuses == db.bonuses && next.progress == db.progress
  {
    hide Stored, SessionsAlike, Rewound, MutationFor, Written, Perform;
    DoneIsCommitted(rules, db, r, q);
    LoadMutation(rules, db, r, q);
    var c := Asked(rules, db, r, q);
    RewindWrites(Swapped(db, c), c);
    RewoundMoves(Swapped(db, c), c.session, c.user.value, c.rewind.value);
  }

  /** The user's run after a start: an existing one stands, a new one counts what the session counts. */
  ghost predicate Started(db: Db, next: Db, session: string, user: string, s: Session) {
    && session in next.runs && next.turns == db.turns && next.progress == db.progress
    && if session in db.runs then next.runs == db.runs
       else
         && next.runs == db.runs[session := next.runs[session]]
         && next.runs[session].user == user && !next.runs[session].completed
         && next.runs[session].turnCount == s.core.turnCount && next.runs[session].realm == s.core.realm
  }

  /** One run of each of the user's remaining bonuses is spent, or none. */
  ghost predicate Spends(db: Db, next: Db, user: string, bonuses: bool) {
    && next.bonuses.Keys == db.bonuses.Keys
    && forall k :: k in db.bonuses ==>
         next.bonuses[k].runsRemaining ==
         if bonuses && k.user == user then Max(0, db.bonuses[k].runsRemaining - 1) else db.bonuses[k].runsRemaining
  }

  lemma StartWrites(tx: Db, c: Mutation, s: Session)
    requires c.user.Some? && c.startRun == Some(InfoOf(s)) && c.rewind.None? && c.turn.None? && c.terminal.None?
    requires c.slot.None? && Written(tx, c).Ok?
    ensures Started(tx, Written(tx, c).value, c.session, c.user.value, s)
    ensures Spends(tx, Written(tx, c).value, c.user.value, c.consume)
  {
    hide SessionHasRun;
  }

  lemma StartMutation(rules: Rules, db: Db, r: Runner, q: Request)
    requires Accepts(db, q.user, r.state, q.op) && q.op.Begin? && !q.op.core.over
    ensures
      var c := Asked(rules, db, r, q);
      && c.startRun == Some(InfoOf(Perform(rules, db, q.user, r.state, q.op))) && c.consume == q.op.bonuses
      && c.rewind.None? && c.turn.None? && c.terminal.None? && c.slot.None?
  {
    hide Stored, Begun;
    BegunIsLive(rules, q.op.core, q.op.opening);
  }

  /** A done start opens the user's run if there is none and spends the bonuses exactly when it used them. */
  lemma StartOpensRun(rules: Rules, db: Db, r: Runner, q: Request)
    requires Served(rules, db, r, q).2.Done? && q.op.Begin? && q.user.Some? && !q.op.core.over
    ensures
      var (next, after, _) := Served(rules, db, r, q);
      && Started(db, next, q.session, q.user.value, after.state)
      && Spends(db, next, q.user.value, q.op.bonuses)
  {
    hide Stored, Written, MutationFor, Perform;
    DoneIsCommitted(rules, db, r, q);
    StartMutation(rules, db, r, q);
    var c := Asked(rules, db, r, q);
    StartWrites(Swapped(db, c), c, Served(rules, db, r, q).1.state);
  }

  lemma BegunIsLive(rules: Rules, core: Core, opening: Answer)
    ensures Begun(rules.w, core, opening).core.over == core.over
  {
    hide ShownChoices;
  }

  /** A done turn of a user is logged under its number, request and age exactly when it was counted. */
  lemma TurnIsLogged(rules: Rules, db: Db, r: Runner, q: Request)
    requires Served(rules, db, r, q).2.Done? && q.op.Advance? && q.user.Some?
    ensures
      var (next, after, _) := Served(rules, db, r, q);
      var n := after.state.core.turnCount;
      if n == r.state.core.turnCount then next.turns == db.turns
      else
        && n == r.state.core.turnCount + 1 && (q.session, n) !in db.turns
        && next.turns == db.turns[(q.session, n) := TurnRow(n, Some(q.id), after.state.core.age, "")]
        && q.session in next.runs && (!next.runs[q.session].completed ==> next.runs[q.session].turnCount == n)
  {
    hide Stored, TerminalOf, Step, Written, StoreLaws.Opened, Closed;
    DoneIsCommitted(rules, db, r, q);
    StepRecordsTurns(rules.w, r.state, q.op.event);
    var c := Asked(rules, db, r, q);
    var tx := Swapped(db, c);
    WrittenInTwo(tx, c);
    assert StoreLaws.Opened(tx, c) == Ok(tx) by { NothingToOpen(tx, c); }
    ClosedTurns(tx, c);
  }

  lemma NothingToOpen(tx: Db, c: Mutation)
    requires c.user.Some? && c.startRun.None? && c.rewind.None?
    ensures StoreLaws.Opened(tx, c) == Ok(tx)
  {
  }

  lemma ClosedTurns(tx: Db, c: Mutation)
    requires c.user.Some? && Closed(tx, c).Ok?
    ensures
      var next := Closed(tx, c).value;
      if c.turn.None? then next.turns == tx.turns
      else
        && (c.session, c.turn.value.turnNo) !in tx.turns
        && next.turns == tx.turns[(c.session, c.turn.value.turnNo) := c.turn.value]
        && c.session in next.runs
        && (!next.runs[c.session].completed ==> next.runs[c.session].turnCount == c.turn.value.turnNo)
  {
    hide Ensured, RequestLogged, Keys, SessionStore.Granted, Progressed;
    var logged := tx;
    if c.turn.Some? {
      logged := SessionStore.Logged(tx, c.session, c.turn.value).value;
    }
    var spent := if c.consume then Consumed(logged, c.user.value) else logged;
    if c.terminal.Some? {
      FinalizedTurnsAndRun(spent, c.session, c.user.value, c.terminal.value);
    }
  }

  lemma FinalizedTurnsAndRun(db: Db, session: string, user: string, t: Terminal)
    requires Finalized(db, session, user, t).Ok?
    ensures
      var next := Finalized(db, session, user, t).value;
      && next.turns == db.turns && session in next.runs && next.runs[session].completed
  {
    hide Keys, SessionStore.Granted, Progressed;
  }

  // ---- Endings -------------------------------------------------------------

  predicate Ascends(s: Session) { s.core.reason == Ascended && s.core.realm == ASCENSION }

  /** The run's row says how the session ended; every other run stands. */
  ghost predicate RowEnded(db: Db, next: Db, session: string, s: Session) {
    && session in next.runs
    && (var run := next.runs[session];
        && run.completed && run.cause == s.core.reason && run.turnCount == s.core.turnCount
        && run.realm == s.core.realm && (run.ascended <==> Ascends(s)))
    && (forall k :: k != session && k in next.runs ==> k in db.runs && next.runs[k] == db.runs[k])
    && (forall k :: k != session && k in db.runs ==> k in next.runs)
  }

  /** One more run, and one more ascension exactly for an ascension, on this account alone. */
  ghost predicate Counted(db: Db, next: Db, user: string, s: Session) {
    && ProgressOf(next, user).runs == ProgressOf(db, user).runs + 1
    && ProgressOf(next, user).ascensions == ProgressOf(db, user).ascensions + (if Ascends(s) then 1 else 0)
    && (forall u :: u != user ==> ProgressOf(next, u) == ProgressOf(db, u))
  }

  ghost predicate Granting(user: string, session: string, rs: seq<Reward>, k: RewardKey) {
    exists a :: a in rs && k == RewardKey(user, session, a.kind, a.value)
  }

  ghost predicate Gains(
    before: set<RewardKey>, after: set<RewardKey>, user: string, session: string, rs: seq<Reward>)
  {
    forall k :: k in after <==> k in before || Granting(user, session, rs, k)
  }

  /** The payout evaluated from the final session is what the account gains. */
  ghost predicate Paid(db: Db, next: Db, session: string, user: string, p: Payout) {
    && Gains(db.achievements, next.achievements, user, session, p.achievements)
    && Gains(db.rewards, next.rewards, user, session, p.rewards)
    && Gains(db.bonuses.Keys, next.bonuses.Keys, user, session, p.bonuses)
    && (forall k :: k in next.bonuses && k !in db.bonuses ==> next.bonuses[k].runsRemaining == 1)
  }

  /** The run row, the payouts and the counters that the end of a run leaves. */
  ghost predicate RecordedEnd(rules: Rules, db: Db, next: Db, session: string, user: string, s: Session) {
    RowEnded(db, next, session, s) && Counted(db, next, user, s) && Paid(db, next, session, user, rules.payout(s))
  }

  ghost predicate RunIsOpen(db: Db, session: string) { session in db.runs ==> !db.runs[session].completed }

  lemma KeysAre(user: string, session: string, rs: seq<Reward>, k: RewardKey)
    ensures k in Keys(user, session, rs) <==> Granting(user, session, rs, k)
  {
  }

  lemma GrantsKeys(before: set<RewardKey>, user: string, session: string, rs: seq<Reward>)
    ensures Gains(before, before + Keys(user, session, rs), user, session, rs)
  {
    hide Keys, Granting;
    forall k ensures k in before + Keys(user, session, rs) <==> k in before || Granting(user, session, rs, k) {
      KeysAre(user, session, rs, k);
    }
  }

  /** A first settlement, as applied to the tables with the run in place. */
  lemma FinalizedIsPaidFor(db: Db, session: string, user: string, t: Terminal)
    requires RunIsOpen(db, session) && Finalized(db, session, user, t).Ok?
    ensures
      var ready := Ensured(db, session, user, t.info).value;
      && Ensured(db, session, user, t.info).Ok? && session in ready.runs && !ready.runs[session].completed
      && Finalized(db, session, user, t).value == PaidFor(ready, session, user, t)
      && ready == db.(runs := ready.runs)
      && (forall k :: k != session ==> (k in ready.runs <==> k in db.runs))
      && (forall k :: k != session && k in db.runs ==> ready.runs[k] == db.runs[k])
  {
    hide SessionHasRun, Keys, SessionStore.Granted, Progressed;
  }

  lemma FinalizedRecords(rules: Rules, db: Db, session: string, user: string, s: Session)
    requires s.core.over && Honest(s) && RunIsOpen(db, session)
    requires Finalized(db, session, user, TerminalOf(rules, s).value).Ok?
    ensures RecordedEnd(rules, db, Finalized(db, session, user, TerminalOf(rules, s).value).value, session, user, s)
  {
    hide Finalized, Ensured, Keys, RunIsOpen, Gains;
    var t := TerminalOf(rules, s).value;
    var pay := rules.payout(s);
    FinalizedIsPaidFor(db, session, user, t);
    GrantsKeys(db.achievements, user, session, pay.achievements);
    GrantsKeys(db.rewards, user, session, pay.rewards);
    GrantsKeys(db.bonuses.Keys, user, session, pay.bonuses);
    var next := PaidFor(Ensured(db, session, user, t.info).value, session, user, t);
    assert next.bonuses.Keys == db.bonuses.Keys + Keys(user, session, pay.bonuses);
  }

  /** An ending reads and writes the run and account tables alone. */
  lemma RecordedReadsTables(
    rules: Rules, db: Db, mid: Db, next: Db, last: Db, session: string, user: string, s: Session)
    requires RecordedEnd(rules, mid, next, session, user, s)
    requires mid.progress == db.progress && mid.achievements == db.achievements && mid.rewards == db.rewards
    requires mid.bonuses == db.bonuses
    requires forall k :: k != session && k in mid.runs ==> k in db.runs && mid.runs[k] == db.runs[k]
    requires forall k :: k != session && k in db.runs ==> k in mid.runs
    requires last.runs == next.runs && last.progress == next.progress && last.achievements == next.achievements
    requires last.rewards == next.rewards && last.bonuses == next.bonuses
    ensures RecordedEnd(rules, db, last, session, user, s)
  {
    hide Gains;
    forall u ensures ProgressOf(last, u) == ProgressOf(next, u) && ProgressOf(mid, u) == ProgressOf(db, u) {
    }
    forall u | u != user ensures ProgressOf(last, u) == ProgressOf(db, u) {
      assert ProgressOf(next, u) == ProgressOf(mid, u);
    }
  }

  /**
   The turn or the end request that ends a user's open run completes its row with the
   session's own reason, turn and realm. It counts as an ascension exactly when the
   session ascended, the account's counters move by that, and the payout is the one
   evaluated from the final session.
   */
  lemma EndingIsRecorded(rules: Rules, db: Db, r: Runner, q: Request)
    requires Served(rules, db, r, q).2.Done? && (q.op.Advance? || q.op.Finish?) && q.user.Some?
    requires Honest(r.state) && RunIsOpen(db, q.session) && Served(rules, db, r, q).1.state.core.over
    ensures
      var (next, after, _) := Served(rules, db, r, q);
      RecordedEnd(rules, db, next, q.session, q.user.value, after.state)
    ensures q.op.Finish? ==> !Served(rules, db, r, q).0.runs[q.session].ascended
  {
    hide Stored, Step, Written, StoreLaws.Opened, Closed, RecordedEnd, Honest, TurnPayload, TerminalOf;
    DoneIsCommitted(rules, db, r, q);
    var c := Asked(rules, db, r, q);
    var tx := Swapped(db, c);
    var after := Served(rules, db, r, q).1.state;
    if q.op.Advance? {
      StepEndsHonestly(rules.w, r.state, q.op.event);
    } else {
      FinishedHonestly(r.state, q.op.text);
    }
    EndMutation(rules, db, r, q);
    WrittenInTwo(tx, c);
    NothingToOpen(tx, c);
    ClosedRecords(rules, tx, c, after);
    NotingRecords(rules, db, tx, Closed(tx, c).value, c, after);
    if q.op.Finish? {
      FinishIsNoAscension(rules, db, Served(rules, db, r, q).0, q.session, q.user.value, r.state, q.op.text);
    }
  }

  lemma FinishIsNoAscension(rules: Rules, db: Db, next: Db, session: string, user: string, s: Session, text: string)
    requires RecordedEnd(rules, db, next, session, user, Finished(s, text))
    ensures session in next.runs && !next.runs[session].ascended
  {
  }

  lemma EndMutation(rules: Rules, db: Db, r: Runner, q: Request)
    requires Accepts(db, q.user, r.state, q.op) && (q.op.Advance? || q.op.Finish?)
    requires Perform(rules, db, q.user, r.state, q.op).core.over
    ensures
      var c := Asked(rules, db, r, q);
      && c.startRun.None? && c.rewind.None? && c.slot.None? && !c.consume
      && c.terminal == TerminalOf(rules, Perform(rules, db, q.user, r.state, q.op)) && c.terminal.Some?
  {
    hide Stored, Step, TurnPayload;
  }

  lemma ClosedRecords(rules: Rules, tx: Db, c: Mutation, s: Session)
    requires c.user.Some? && c.slot.None? && !c.consume && c.terminal == TerminalOf(rules, s) && c.terminal.Some?
    requires s.core.over && Honest(s) && RunIsOpen(tx, c.session) && Closed(tx, c).Ok?
    ensures RecordedEnd(rules, tx, Closed(tx, c).value, c.session, c.user.value, s)
  {
    hide Finalized, RecordedEnd, Honest, TerminalOf, RequestLogged;
    if c.turn.Some? {
      var logged := SessionStore.Logged(tx, c.session, c.turn.value).value;
      FinalizedRecords(rules, logged, c.session, c.user.value, s);
      var next := Closed(tx, c).value;
      RecordedReadsTables(rules, tx, logged, next, next, c.session, c.user.value, s);
    } else {
      FinalizedRecords(rules, tx, c.session, c.user.value, s);
    }
  }

  lemma NotingRecords(rules: Rules, db: Db, tx: Db, next: Db, c: Mutation, s: Session)
    requires Swaps(db, c) && tx == Swapped(db, c) && c.user.Some?
    requires RecordedEnd(rules, tx, next, c.session, c.user.value, s)
    ensures RecordedEnd(rules, db, Noted(next, c), c.session, c.user.value, s)
  {
    hide RecordedEnd;
    RecordedReadsTables(rules, db, tx, next, Noted(next, c), c.session, c.user.value, s);
  }

  /** What statements over a completed run leave alone. */
  ghost predicate Settled(db: Db, next: Db) {
    && next.runs == db.runs && next.progress == db.progress
    && next.achievements == db.achievements && next.rewards == db.rewards && next.bonuses.Keys == db.bonuses.Keys
  }

  lemma OpenedOverCompleted(tx: Db, c: Mutation)
    requires c.user.Some? && c.session in tx.runs && tx.runs[c.session].completed && StoreLaws.Opened(tx, c).Ok?
    ensures Settled(tx, StoreLaws.Opened(tx, c).value)
  {
  }

  lemma ClosedOverCompleted(tx: Db, c: Mutation)
    requires c.user.Some? && c.session in tx.runs && tx.runs[c.session].completed && Closed(tx, c).Ok?
    ensures Settled(tx, Closed(tx, c).value)
  {
    hide RequestLogged, Keys, SessionStore.Granted, Progressed;
  }

  /** A completed run is settled once: no later request of any kind changes its row or the account for it. */
  lemma CompletedRunIsNotPaidTwice(rules: Rules, db: Db, r: Runner, q: Request)
    requires Served(rules, db, r, q).2.Done? && q.session in db.runs && db.runs[q.session].completed
    ensures Settled(db, Served(rules, db, r, q).0)
  {
    hide Perform, Accepts, Written, StoreLaws.Opened, Closed, MutationFor, Stored;
    DoneIsCommitted(rules, db, r, q);
    var c := Asked(rules, db, r, q);
    var tx := Swapped(db, c);
    if c.user.None? {
      GuestsWriteNothing(tx, c);
    } else {
      WrittenInTwo(tx, c);
      OpenedOverCompleted(tx, c);
      ClosedOverCompleted(StoreLaws.Opened(tx, c).value, c);
    }
  }
}
