/**
 The turn log agrees with the stored snapshot: every logged turn number is at most
 the snapshot's turn count, so a new turn never collides with a logged one, across
 saves and loads from any session. Only a start over a played run breaks it, and a
 start over a run that holds its first turn leaves the session stuck.
 */
module TurnLog {
  import opened GameConstants
  import opened GameSession
  import opened Engine
  import opened EngineLaws
  import opened SaveLoad
  import opened SessionStore
  import opened StoreLaws
  import opened Operations

  // ---- Soundness of one session's log --------------------------------------

  /** The log of a run is bounded by its snapshot; an active run counts what the snapshot counts. */
  ghost predicate RunFollows(db: Db, session: string, snapshot: Session) {
    && (forall n :: (session, n) in db.turns ==> n <= snapshot.core.turnCount)
    && (session in db.runs && !db.runs[session].completed ==>
          db.runs[session].turnCount == snapshot.core.turnCount)
    && (session !in db.runs ==> !snapshot.core.started && snapshot.pending.None?)
  }

  ghost predicate LogSound(db: Db, session: string) {
    session in db.sessions && db.sessions[session].user.Some? ==>
      RunFollows(db, session, db.sessions[session].snapshot)
  }

  /** Other sessions' runs and turns stay as they are. */
  ghost predicate OthersStand(db: Db, next: Db, session: string) {
    && (forall s :: s != session && s in db.runs ==> s in next.runs && next.runs[s] == db.runs[s])
    && (forall s :: s != session && s in next.runs ==> s in db.runs)
    && (forall k: (string, nat) :: k.0 != session && k in db.turns ==> k in next.turns && next.turns[k] == db.turns[k])
    && (forall k: (string, nat) :: k.0 != session && k in next.turns ==> k in db.turns)
  }

  // ---- One statement at a time ---------------------------------------------

  lemma EnsuredFollows(db: Db, session: string, user: string, info: RunInfo)
    requires TurnsHaveRuns(db) && Ensured(db, session, user, info).Ok?
    ensures
      var next := Ensured(db, session, user, info).value;
      && OthersStand(db, next, session) && next.turns == db.turns && TurnsHaveRuns(next)
      && session in next.runs
      && next.runs[session] == if session in db.runs then db.runs[session]
           else RunRow(user, session, info.turnCount, info.realm, NoReason, false, false)
  {
  }

  lemma RewoundFollows(db: Db, session: string, user: string, info: RunInfo, snapshot: Session)
    requires TurnsHaveRuns(db) && Rewound(db, session, user, info).Ok?
    requires info.turnCount == snapshot.core.turnCount
    ensures
      var next := Rewound(db, session, user, info).value;
      OthersStand(db, next, session) && RunFollows(next, session, snapshot)
  {
    hide Ensured, OthersStand;
    EnsuredFollows(db, session, user, info);
    var ready, next := Ensured(db, session, user, info).value, Rewound(db, session, user, info).value;
    RewindTouchesOwnRun(ready, next, session, info);
    OthersStandThrough(db, ready, next, session);
  }

  lemma RewindTouchesOwnRun(db: Db, next: Db, session: string, info: RunInfo)
    requires next.turns == TurnsUpTo(db.turns, session, info.turnCount)
    requires session in db.runs
    requires next.runs == db.runs
             || next.runs == db.runs[session := db.runs[session].(turnCount := info.turnCount, realm := info.realm)]
    ensures OthersStand(db, next, session)
  {
  }

  lemma LoggedFollows(db: Db, session: string, turn: TurnRow, before: Session, after: Session)
    requires RunFollows(db, session, before) && TurnsHaveRuns(db)
    requires before.core.turnCount < turn.turnNo == after.core.turnCount
    ensures (session, turn.turnNo) !in db.turns
    ensures Logged(db, session, turn).Ok? ==>
      var next := Logged(db, session, turn).value;
      OthersStand(db, next, session) && RunFollows(next, session, after) && TurnsHaveRuns(next)
  {
  }

  // ---- The five operations -------------------------------------------------

  /**
   Snapshot, table state and mutation of one accepted operation on a coherent runner.
   The operation was computed from the tables as `seen`, which may be older ones.
   */
  ghost predicate Asked(
    rules: Rules, db: Db, seen: Db, session: string, user: string, runner: Session, request: string, op: Operation,
    c: Mutation)
  {
    && session in db.sessions && db.sessions[session].user == Some(user)
    && SessionsAlike(db.sessions[session].snapshot, runner)
    && Accepts(seen, Some(user), runner, op)
    && c == MutationFor(rules, session, Some(user), runner, Perform(rules, seen, Some(user), runner, op),
                        db.sessions[session].version, request, op)
  }

  /** The run has no turn logged beyond number zero and, while active, counts none. */
  ghost predicate Unplayed(db: Db, session: string)
    requires session in db.runs
  {
    && (forall n :: (session, n) in db.turns ==> n == 0)
    && (!db.runs[session].completed ==> db.runs[session].turnCount == 0)
  }

  /** A start is clean when no run exists yet or nothing has been played in it. */
  ghost predicate CleanStart(db: Db, session: string, op: Operation) {
    op.Begin? && session in db.runs ==> Unplayed(db, session)
  }

  lemma StoredTurnCount(rules: Rules, s: Session)
    ensures Stored(rules, s).core.turnCount == s.core.turnCount
    ensures Stored(rules, s).core.started == s.core.started
    ensures s.pending.None? ==> Stored(rules, s).pending.None?
  {
  }

  lemma FollowsStored(rules: Rules, db: Db, session: string, s: Session)
    requires RunFollows(db, session, s)
    ensures RunFollows(db, session, Stored(rules, s))
  {
  }

  /** The tables a mutation starts from still follow the old snapshot. */
  lemma SwapFollows(db: Db, c: Mutation, snapshot: Session)
    requires Swaps(db, c) && RunFollows(db, c.session, snapshot)
    ensures RunFollows(Swapped(db, c), c.session, snapshot)
    ensures OthersStand(db, Swapped(db, c), c.session)
    ensures TurnsHaveRuns(db) ==> TurnsHaveRuns(Swapped(db, c))
  {
  }

  lemma OthersStandThrough(a: Db, b: Db, c: Db, session: string)
    requires OthersStand(a, b, session) && OthersStand(b, c, session)
    ensures OthersStand(a, c, session)
  {
  }

  /** An advance logs its turn exactly when the counter moves. */
  lemma AdvancePayload(user: string, before: Session, after: Session, request: string)
    requires CountsAsRecorded(before, after)
    ensures
      var p := TurnPayload(Some(user), before, after, request);
      && (p.None? <==> after.core.turnCount == before.core.turnCount)
      && (p.Some? ==> p.value.turnNo == after.core.turnCount == before.core.turnCount + 1
                      && p.value.request == Some(request))
  {
  }

  /** The terminal statement, or its absence, keeps the log following the new snapshot. */
  lemma EndedFollows(rules: Rules, db: Db, session: string, user: string, s: Session)
    requires RunFollows(db, session, s) && TurnsHaveRuns(db)
    ensures
      var t := TerminalOf(rules, s);
      var r := if t.Some? then Finalized(db, session, user, t.value) else Ok(db);
      r.Ok? ==> OthersStand(db, r.value, session) && RunFollows(r.value, session, s)
  {
    hide Finalized;
    var t := TerminalOf(rules, s);
    if t.Some? && Finalized(db, session, user, t.value).Ok? {
      EnsuredThenEnded(db, session, user, t.value, s, s);
    }
  }

  lemma BeginFollows(rules: Rules, tx: Db, user: string, c: Mutation, after: Session)
    requires TurnsHaveRuns(tx)
    requires c.user == Some(user) && c.startRun == Some(InfoOf(after)) && c.rewind.None? && c.turn.None?
    requires c.slot.None? && c.terminal == TerminalOf(rules, after)
    requires after.core.turnCount == 0 && after.core.started && !after.core.over
    requires c.session in tx.runs ==> Unplayed(tx, c.session)
    requires Written(tx, c).Ok?
    ensures OthersStand(tx, Written(tx, c).value, c.session)
    ensures RunFollows(Written(tx, c).value, c.session, after)
  {
  }

  lemma AdvanceFollows(rules: Rules, tx: Db, user: string, c: Mutation, before: Session, after: Session)
    requires RunFollows(tx, c.session, before) && TurnsHaveRuns(tx) && CountsAsRecorded(before, after)
    requires !before.core.started && before.pending.None? ==> after == before
    requires c.user == Some(user) && c.turn == TurnPayload(Some(user), before, after, c.request)
    requires c.startRun.None? && c.rewind.None? && c.slot.None? && !c.consume
    requires c.terminal == TerminalOf(rules, after)
    ensures Written(tx, c) != Err(TurnTaken)
    ensures Written(tx, c).Ok? ==>
      OthersStand(tx, Written(tx, c).value, c.session) && RunFollows(Written(tx, c).value, c.session, after)
  {
    hide Ensured, Rewound, Logged, Finalized, TurnPayload, TerminalOf;
    AdvancePayload(user, before, after, c.request);
    var logged := tx;
    if c.turn.Some? {
      LoggedFollows(tx, c.session, c.turn.value, before, after);
      LoggedErrors(tx, c.session, c.turn.value);
      if Logged(tx, c.session, c.turn.value).Ok? {
        logged := Logged(tx, c.session, c.turn.value).value;
        EndedFollows(rules, logged, c.session, user, after);
      }
    } else {
      EndedFollows(rules, tx, c.session, user, after);
    }
    if c.terminal.Some? {
      FinalizedErrors(logged, c.session, user, c.terminal.value);
    }
  }

  lemma LoggedErrors(db: Db, run: string, turn: TurnRow)
    ensures Logged(db, run, turn) == Err(TurnTaken) ==> (run, turn.turnNo) in db.turns
  {
  }

  lemma FinalizedErrors(db: Db, session: string, user: string, t: Terminal)
    ensures Finalized(db, session, user, t) != Err(TurnTaken)
  {
  }

  lemma RestoreFollows(tx: Db, user: string, c: Mutation, after: Session)
    requires TurnsHaveRuns(tx) && c.user == Some(user) && c.rewind == Some(InfoOf(after))
    requires c.startRun.None? && c.turn.None? && c.terminal.None? && c.slot.None? && !c.consume
    requires Written(tx, c).Ok?
    ensures OthersStand(tx, Written(tx, c).value, c.session)
    ensures RunFollows(Written(tx, c).value, c.session, after)
  {
    hide Ensured, Rewound, Logged, Finalized;
    RewoundFollows(tx, c.session, user, InfoOf(after), after);
  }

  lemma StoreFollows(tx: Db, user: string, c: Mutation, s: Session)
    requires RunFollows(tx, c.session, s) && c.user == Some(user)
    requires c.startRun.None? && c.turn.None? && c.terminal.None? && c.rewind.None? && !c.consume
    ensures Written(tx, c).Ok?
    ensures OthersStand(tx, Written(tx, c).value, c.session)
    ensures RunFollows(Written(tx, c).value, c.session, s)
  {
    hide RunFollows, OthersStand;
    StoreWrites(tx, c);
    SameTablesFollow(tx, Written(tx, c).value, c.session, s);
  }

  lemma StoreWrites(tx: Db, c: Mutation)
    requires c.user.Some? && c.startRun.None? && c.turn.None? && c.terminal.None? && c.rewind.None? && !c.consume
    ensures Written(tx, c).Ok?
    ensures Written(tx, c).value.runs == tx.runs && Written(tx, c).value.turns == tx.turns
  {
  }

  lemma SameTablesFollow(db: Db, next: Db, session: string, s: Session)
    requires RunFollows(db, session, s) && next.runs == db.runs && next.turns == db.turns
    ensures OthersStand(db, next, session) && RunFollows(next, session, s)
  {
  }

  /** A settlement keeps the turn the snapshot already had, opening the run if need be. */
  lemma EnsuredThenEnded(db: Db, session: string, user: string, t: Terminal, before: Session, after: Session)
    requires RunFollows(db, session, before) && TurnsHaveRuns(db)
    requires after.core.turnCount == before.core.turnCount == t.info.turnCount
    requires Finalized(db, session, user, t).Ok?
    ensures
      var next := Finalized(db, session, user, t).value;
      OthersStand(db, next, session) && RunFollows(next, session, after)
  {
    hide Ensured, Keys, Granted, Progressed;
    EnsuredFollows(db, session, user, t.info);
  }

  lemma FinishFollows(rules: Rules, tx: Db, user: string, c: Mutation, before: Session, after: Session)
    requires RunFollows(tx, c.session, before) && TurnsHaveRuns(tx)
    requires after.core.turnCount == before.core.turnCount && after.core.over
    requires c.user == Some(user) && c.terminal == TerminalOf(rules, after)
    requires c.startRun.None? && c.turn.None? && c.rewind.None? && c.slot.None? && !c.consume
    requires Written(tx, c).Ok?
    ensures OthersStand(tx, Written(tx, c).value, c.session)
    ensures RunFollows(Written(tx, c).value, c.session, after)
  {
    hide Ensured, Rewound, Logged, Finalized, Keys, Granted, Progressed;
    EnsuredThenEnded(tx, c.session, user, c.terminal.value, before, after);
  }

  // ---- One request ---------------------------------------------------------

  lemma AlikeFollows(db: Db, session: string, s: Session, t: Session)
    requires SessionsAlike(s, t) && RunFollows(db, session, s)
    ensures RunFollows(db, session, t)
  {
  }

  lemma BegunIsFresh(rules: Rules, core: Core, opening: Answer)
    requires core.turnCount == 0 && core.started && !core.over
    ensures
      var s := Begun(rules.w, core, opening);
      s.core.turnCount == 0 && s.core.started && !s.core.over
  {
  }

  /** A profile start: counters at zero, started, not over. */
  predicate ProfileStart(op: Operation) {
    op.Begin? ==> op.core.turnCount == 0 && op.core.started && !op.core.over
  }

  /** What the statements of one accepted operation make of the log. */
  lemma OperationFollows(
    rules: Rules, db: Db, seen: Db, session: string, user: string, runner: Session, request: string, op: Operation,
    c: Mutation)
    requires Asked(rules, db, seen, session, user, runner, request, op, c)
    requires TurnsHaveRuns(db) && RunFollows(db, session, db.sessions[session].snapshot)
    requires ProfileStart(op) && CleanStart(db, session, op) && Swaps(db, c)
    ensures Written(Swapped(db, c), c) != Err(TurnTaken)
    ensures Written(Swapped(db, c), c).Ok? ==>
      var next := Written(Swapped(db, c), c).value;
      && OthersStand(Swapped(db, c), next, session)
      && RunFollows(next, session, Perform(rules, seen, Some(user), runner, op))
  {
    hide Written, RunFollows, OthersStand, Step, Begun, Stored, SessionsAlike, TerminalOf, TurnPayload, TurnsHaveRuns;
    AlikeFollows(db, session, db.sessions[session].snapshot, runner);
    SwapFollows(db, c, runner);
    var tx := Swapped(db, c);
    var after := Perform(rules, seen, Some(user), runner, op);
    match op
    case Begin(core, opening, _) =>
      BegunIsFresh(rules, core, opening);
      BeginErrors(tx, c);
      if Written(tx, c).Ok? {
        BeginFollows(rules, tx, user, c, after);
      }
    case Advance(e) =>
      StepRecordsTurns(rules.w, runner, e);
      AdvanceFollows(rules, tx, user, c, runner, after);
    case Store(_) => StoreFollows(tx, user, c, runner);
    case Restore(_) =>
      BeginErrors(tx, c);
      if Written(tx, c).Ok? {
        RestoreFollows(tx, user, c, after);
      }
    case Finish(reason) =>
      BeginErrors(tx, c);
      FinishedCounts(rules, runner, reason);
      if Written(tx, c).Ok? {
        FinishFollows(rules, tx, user, c, runner, after);
      }
  }

  lemma FinishedCounts(rules: Rules, s: Session, reason: string)
    ensures Finished(s, reason).core.turnCount == s.core.turnCount && Finished(s, reason).core.over
  {
  }

  lemma AlikeTurnCount(s: Session, t: Session)
    requires SessionsAlike(s, t)
    ensures s.core.turnCount == t.core.turnCount
  {
  }

  /** Only the turn statement can find its number taken. */
  lemma BeginErrors(tx: Db, c: Mutation)
    requires c.turn.None?
    ensures Written(tx, c) != Err(TurnTaken)
  {
    hide SessionHasRun, TurnsUpTo, WithoutMutations, Keys, Granted, Progressed, Consumed;
  }

  /**
   A request served from a coherent runner never finds its turn number taken, and
   leaves the log sound, unless it starts a session that has already been played.
   */
  lemma RequestKeepsLogSound(
    rules: Rules, db: Db, seen: Db, session: string, user: string, runner: Session, request: string, op: Operation,
    c: Mutation)
    requires DbInvariant(db) && LogSound(db, session)
    requires Asked(rules, db, seen, session, user, runner, request, op, c)
    requires ProfileStart(op) && CleanStart(db, session, op)
    ensures Commit(db, c).1 != Failed(TurnTaken)
    ensures LogSound(Commit(db, c).0, session)
    ensures forall s :: s != session && LogSound(db, s) ==> LogSound(Commit(db, c).0, s)
  {
    hide Written, TablesOk, RunFollows, OthersStand, MutationFor, Accepts, Perform, SessionsAlike, Stored;
    MutationBasics(rules, db, seen, session, user, runner, request, op, c);
    InvariantHasRuns(db);
    if Swaps(db, c) && (c.session, c.request) !in db.mutations {
      OperationFollows(rules, db, seen, session, user, runner, request, op, c);
      var tx := Swapped(db, c);
      if Written(tx, c).Ok? {
        var next := Written(tx, c).value;
        CommittedVersion(db, c);
        FollowsStored(rules, next, session, Perform(rules, seen, Some(user), runner, op));
        NoteFollows(next, c, session, c.snapshot);
        forall s | s != session && LogSound(db, s) ensures LogSound(Commit(db, c).0, s) {
          if s in db.sessions && db.sessions[s].user.Some? {
            OthersFollow(db, tx, next, c, s);
          }
        }
      }
    }
  }

  lemma InvariantHasRuns(db: Db)
    requires DbInvariant(db)
    ensures TurnsHaveRuns(db)
  {
  }

  lemma MutationBasics(
    rules: Rules, db: Db, seen: Db, session: string, user: string, runner: Session, request: string, op: Operation,
    c: Mutation)
    requires Asked(rules, db, seen, session, user, runner, request, op, c)
    ensures c.session == session && c.user == Some(user) && c.expected == db.sessions[session].version
    ensures c.snapshot == Stored(rules, Perform(rules, seen, Some(user), runner, op))
  {
    hide Stored, Perform, TerminalOf, TurnPayload, SessionsAlike;
  }

  lemma NoteFollows(db: Db, c: Mutation, session: string, snapshot: Session)
    requires RunFollows(db, session, snapshot)
    ensures RunFollows(Noted(db, c), session, snapshot)
  {
  }

  lemma OthersFollow(db: Db, tx: Db, next: Db, c: Mutation, s: string)
    requires Swaps(db, c) && tx == Swapped(db, c) && OthersStand(tx, next, c.session) && s != c.session
    requires s in db.sessions && RunFollows(db, s, db.sessions[s].snapshot)
    ensures RunFollows(Noted(next, c), s, db.sessions[s].snapshot)
  {
  }

  // ---- Starting again ------------------------------------------------------

  /** The start statement forgives the existing run and changes nothing in it. */
  lemma StartLeavesRun(tx: Db, c: Mutation)
    requires c.user.Some? && c.startRun.Some? && c.rewind.None? && c.turn.None? && c.terminal.None? && c.slot.None?
    requires Written(tx, c).Ok?
    ensures Written(tx, c).value.turns == tx.turns && c.session in Written(tx, c).value.runs
    ensures c.session in tx.runs ==> Written(tx, c).value.runs == tx.runs
    ensures c.session !in tx.runs ==> Written(tx, c).value.runs[c.session].turnCount == c.startRun.value.turnCount
  {
  }

  /** Tables and row after a committed start. */
  lemma StartedTables(
    rules: Rules, db: Db, seen: Db, session: string, user: string, runner: Session, request: string, op: Operation,
    c: Mutation)
    requires DbInvariant(db) && op.Begin? && ProfileStart(op)
    requires Asked(rules, db, seen, session, user, runner, request, op, c) && Commit(db, c).1.Committed?
    ensures
      var next := Commit(db, c).0;
      && next.turns == db.turns && session in next.runs
      && (if session in db.runs then next.runs == db.runs else next.runs[session].turnCount == 0)
      && session in next.sessions && next.sessions[session].user == Some(user)
      && next.sessions[session].snapshot.core.turnCount == 0
  {
    hide Written, TablesOk, Accepts, SessionsAlike, Stored, Begun;
    MutationBasics(rules, db, seen, session, user, runner, request, op, c);
    CommittedVersion(db, c);
    var after := Perform(rules, seen, Some(user), runner, op);
    BegunIsFresh(rules, op.core, op.opening);
    StoredTurnCount(rules, after);
    StartLeavesRun(Swapped(db, c), c);
  }

  /**
   The condition is exact: a committed start leaves the log sound if and only if
   there was no run or nothing had been played in it, completed or not.
   */
  lemma StartKeepsLogIffUnplayed(
    rules: Rules, db: Db, seen: Db, session: string, user: string, runner: Session, request: string, op: Operation,
    c: Mutation)
    requires DbInvariant(db) && op.Begin? && ProfileStart(op)
    requires Asked(rules, db, seen, session, user, runner, request, op, c) && Commit(db, c).1.Committed?
    ensures LogSound(Commit(db, c).0, session) <==> CleanStart(db, session, op)
  {
    hide Commit, TablesOk, Accepts, SessionsAlike, Stored, Begun, MutationFor;
    StartedTables(rules, db, seen, session, user, runner, request, op, c);
    InvariantHasRuns(db);
  }

  /** A settled turn on a run that exists is refused for its number exactly when that number is logged. */
  lemma TurnIsTakenIff(
    rules: Rules, db: Db, seen: Db, session: string, user: string, runner: Session, request: string, e: Event,
    c: Mutation)
    requires Asked(rules, db, seen, session, user, runner, request, Advance(e), c)
    requires session in db.runs && (session, request) !in db.mutations
    requires Step(rules.w, runner, e).core.turnCount != runner.core.turnCount
    ensures Commit(db, c).1 == Failed(TurnTaken) <==> (session, runner.core.turnCount + 1) in db.turns
  {
    hide Stored, TerminalOf, TurnPayload, SessionsAlike, Finalized, Step;
    MutationBasics(rules, db, seen, session, user, runner, request, Advance(e), c);
    StepRecordsTurns(rules.w, runner, e);
    AdvancePayload(user, runner, Step(rules.w, runner, e), request);
    var tx := Swapped(db, c);
    LoggedErrors(tx, session, c.turn.value);
    if Logged(tx, session, c.turn.value).Ok? && c.terminal.Some? {
      FinalizedErrors(Logged(tx, session, c.turn.value).value, session, user, c.terminal.value);
    }
  }

  /**
   After a committed start, the first settled turn is refused if and only if the old
   log holds turn one, whether or not the old run had ended.
   */
  lemma FirstTurnIsRefusedIff(
    rules: Rules, db: Db, seen: Db, session: string, user: string,
    was: Session, request: string, op: Operation, c: Mutation,
    seenNext: Db, runner: Session, nextRequest: string, e: Event, d: Mutation)
    requires DbInvariant(db) && op.Begin? && ProfileStart(op)
    requires Asked(rules, db, seen, session, user, was, request, op, c) && Commit(db, c).1.Committed?
    requires Asked(rules, Commit(db, c).0, seenNext, session, user, runner, nextRequest, Advance(e), d)
    requires (session, nextRequest) !in Commit(db, c).0.mutations
    requires Step(rules.w, runner, e).core.turnCount != runner.core.turnCount
    ensures Commit(Commit(db, c).0, d).1 == Failed(TurnTaken) <==> (session, 1) in db.turns
  {
    hide Commit, TablesOk, Accepts, SessionsAlike, Stored, Begun, MutationFor, Step, Perform;
    StartedTables(rules, db, seen, session, user, was, request, op, c);
    var next := Commit(db, c).0;
    AskedTurnCount(rules, next, seenNext, session, user, runner, nextRequest, Advance(e), d);
    TurnIsTakenIff(rules, next, seenNext, session, user, runner, nextRequest, e, d);
  }

  lemma AskedTurnCount(
    rules: Rules, db: Db, seen: Db, session: string, user: string, runner: Session, request: string, op: Operation,
    c: Mutation)
    requires Asked(rules, db, seen, session, user, runner, request, op, c)
    ensures session in db.sessions && db.sessions[session].snapshot.core.turnCount == runner.core.turnCount
  {
    AlikeTurnCount(db.sessions[session].snapshot, runner);
  }

  // ---- Any sequence of requests --------------------------------------------

  datatype Call =
    | NewSession(session: string, user: Option<string>, snapshot: Session)
    | Requests(session: string, request: string, runner: Session, op: Operation)

  function AskedMutation(rules: Rules, db: Db, call: Call): Mutation
    requires call.Requests? && call.session in db.sessions
    requires Accepts(db, db.sessions[call.session].user, call.runner, call.op)
  {
    var row := db.sessions[call.session];
    MutationFor(rules, call.session, row.user, call.runner, Perform(rules, db, row.user, call.runner, call.op),
                row.version, call.request, call.op)
  }

  /** New ids and unstarted sessions; requests from coherent runners; starts from a profile. */
  ghost predicate Plausible(db: Db, call: Call) {
    match call
    case NewSession(session, _, snapshot) =>
      session !in db.sessions && session !in db.runs && !snapshot.core.started && snapshot.pending.None?
    case Requests(session, _, runner, op) =>
      && session in db.sessions
      && SessionsAlike(db.sessions[session].snapshot, runner)
      && Accepts(db, db.sessions[session].user, runner, op)
      && ProfileStart(op)
  }

  ghost predicate CleanCall(db: Db, call: Call) {
    call.Requests? ==> CleanStart(db, call.session, call.op)
  }

  ghost function Called(rules: Rules, db: Db, call: Call): Db
    requires Plausible(db, call)
  {
    match call
    case NewSession(session, user, snapshot) => SessionSaved(db, session, user, snapshot)
    case Requests(_, _, _, _) => Commit(db, AskedMutation(rules, db, call)).0
  }

  /** The request found its turn number taken. */
  ghost predicate FindsTurnTaken(rules: Rules, db: Db, call: Call)
    requires Plausible(db, call)
  {
    call.Requests? && Commit(db, AskedMutation(rules, db, call)).1 == Failed(TurnTaken)
  }

  ghost predicate AllLogsSound(db: Db) {
    DbInvariant(db) && forall s :: LogSound(db, s)
  }

  lemma GuestRequestKeepsLogs(db: Db, c: Mutation)
    requires AllLogsSound(db) && Fair(db, Commits(c)) && c.session in db.sessions && c.user.None?
    ensures forall s :: LogSound(Commit(db, c).0, s)
  {
    hide Written, TablesOk, MutationsAreOld;
    GuestsWriteNothing(SwappedOrSame(db, c), c);
    forall s ensures LogSound(Commit(db, c).0, s) {
      assert LogSound(db, s);
    }
  }

  lemma GuestsNeverFail(db: Db, c: Mutation)
    requires c.user.None?
    ensures !Commit(db, c).1.Failed?
  {
  }

  /** The swap, or the database itself when the version has moved on. */
  ghost function SwappedOrSame(db: Db, c: Mutation): Db { if Swaps(db, c) then Swapped(db, c) else db }

  lemma NewSessionKeepsLogs(db: Db, session: string, user: Option<string>, snapshot: Session)
    requires AllLogsSound(db) && Plausible(db, NewSession(session, user, snapshot))
    ensures forall s :: LogSound(SessionSaved(db, session, user, snapshot), s)
  {
    hide TablesOk, OwnersAgree, MutationsAreOld;
    InvariantHasRuns(db);
    forall s ensures LogSound(SessionSaved(db, session, user, snapshot), s) {
      assert LogSound(db, s);
    }
  }

  lemma CallKeepsInvariant(rules: Rules, db: Db, call: Call)
    requires DbInvariant(db) && Plausible(db, call)
    ensures DbInvariant(Called(rules, db, call))
  {
    hide DbInvariant, Written, MutationFor, Perform, Accepts, SessionsAlike, SessionSaved;
    match call
    case NewSession(session, user, snapshot) => CreateLaw(db, session, user, snapshot);
    case Requests(session, request, runner, op) =>
      var c := AskedMutation(rules, db, call);
      AskedOwner(rules, db, call);
      if Commit(db, c).1.Committed? {
        CommitLaw(db, c);
      } else {
        OnlyCommitsChange(db, c);
      }
  }

  lemma CallKeepsLogs(rules: Rules, db: Db, call: Call)
    requires AllLogsSound(db) && Plausible(db, call) && CleanCall(db, call)
    ensures AllLogsSound(Called(rules, db, call)) && !FindsTurnTaken(rules, db, call)
  {
    hide DbInvariant, LogSound, Commit, MutationFor, Perform, Accepts, SessionsAlike, SessionSaved;
    CallKeepsInvariant(rules, db, call);
    match call
    case NewSession(session, user, snapshot) => NewSessionKeepsLogs(db, session, user, snapshot);
    case Requests(session, request, runner, op) =>
      var c := AskedMutation(rules, db, call);
      AskedOwner(rules, db, call);
      if db.sessions[session].user.Some? {
        var user := db.sessions[session].user.value;
        RequestKeepsLogSound(rules, db, db, session, user, runner, request, op, c);
        forall s ensures LogSound(Commit(db, c).0, s) {
          assert LogSound(db, s);
        }
      } else {
        GuestsNeverFail(db, c);
        GuestRequestKeepsLogs(db, c);
      }
  }

  lemma AskedOwner(rules: Rules, db: Db, call: Call)
    requires Plausible(db, call) && call.Requests?
    ensures
      var c := AskedMutation(rules, db, call);
      c.session == call.session && c.user == db.sessions[call.session].user && Fair(db, Commits(c))
  {
    hide Stored, Perform, TerminalOf, TurnPayload, SessionsAlike, Accepts;
  }

  ghost function CalledAll(rules: Rules, db: Db, calls: seq<Call>): Option<Db> {
    if calls == [] then Some(db)
    else
      match CalledAll(rules, db, calls[..|calls| - 1])
      case None => None
      case Some(next) =>
        if Plausible(next, calls[|calls| - 1]) then Some(Called(rules, next, calls[|calls| - 1])) else None
  }

  /** Every start among the calls is clean when it is made. */
  ghost predicate AllClean(rules: Rules, db: Db, calls: seq<Call>) {
    calls == [] ||
    (AllClean(rules, db, calls[..|calls| - 1])
     && match CalledAll(rules, db, calls[..|calls| - 1])
        case Some(next) => CleanCall(next, calls[|calls| - 1])
        case None => true)
  }

  /** No call ever finds its turn number taken. */
  ghost predicate NeverTaken(rules: Rules, db: Db, calls: seq<Call>) {
    calls == [] ||
    (NeverTaken(rules, db, calls[..|calls| - 1])
     && match CalledAll(rules, db, calls[..|calls| - 1])
        case Some(next) =>
          Plausible(next, calls[|calls| - 1]) ==> !FindsTurnTaken(rules, next, calls[|calls| - 1])
        case None => true)
  }

  /**
   After any sequence of requests on any sessions, including loads of saves made
   elsewhere, every turn log is bounded by its snapshot, and no request ever found
   its turn number taken, as long as no start is made over a played run.
   */
  lemma {:induction false} LogsAreAlwaysSound(rules: Rules, calls: seq<Call>)
    requires CalledAll(rules, EMPTY_DB, calls).Some? && AllClean(rules, EMPTY_DB, calls)
    ensures AllLogsSound(CalledAll(rules, EMPTY_DB, calls).value) && NeverTaken(rules, EMPTY_DB, calls)
  {
    hide AllLogsSound, Called, Plausible, CleanCall, FindsTurnTaken;
    if calls == [] {
      EmptyLogsAreSound();
    } else {
      LogsAreAlwaysSound(rules, calls[..|calls| - 1]);
      CallKeepsLogs(rules, CalledAll(rules, EMPTY_DB, calls[..|calls| - 1]).value, calls[|calls| - 1]);
    }
  }

  lemma EmptyLogsAreSound()
    ensures AllLogsSound(EMPTY_DB)
  {
  }

  // ---- What becomes of the first turn --------------------------------------

  /** A first turn on a run without logged turns commits and is logged as number one. */
  lemma FirstTurnIsLogged(
    rules: Rules, db: Db, seen: Db, session: string, user: string, runner: Session, request: string, e: Event,
    c: Mutation)
    requires DbInvariant(db) && Asked(rules, db, seen, session, user, runner, request, Advance(e), c)
    requires session in db.runs && (session, request) !in db.mutations
    requires forall n :: (session, n) !in db.turns
    requires runner.core.turnCount == 0 && Step(rules.w, runner, e).core.turnCount != 0
    ensures Commit(db, c).1.Committed? && (session, 1) in Commit(db, c).0.turns
  {
    hide Stored, TerminalOf, TurnPayload, SessionsAlike, Keys, Granted, Progressed, Step, DbInvariant;
    MutationBasics(rules, db, seen, session, user, runner, request, Advance(e), c);
    StepRecordsTurns(rules.w, runner, e);
    AdvancePayload(user, runner, Step(rules.w, runner, e), request);
    var tx := Swapped(db, c);
    assert Logged(tx, session, c.turn.value).Ok?;
  }

  /** A run that a load opened holds no turn at all, so no first turn either. */
  lemma LoadOpensWithoutTurns(
    rules: Rules, db: Db, seen: Db, session: string, user: string, runner: Session, request: string, slot: string,
    c: Mutation)
    requires DbInvariant(db) && Asked(rules, db, seen, session, user, runner, request, Restore(slot), c)
    requires session !in db.runs && Commit(db, c).1.Committed?
    ensures session in Commit(db, c).0.runs && forall n :: (session, n) !in Commit(db, c).0.turns
  {
    hide Stored, SessionsAlike, DbInvariant, WithoutMutations, SessionHasRun;
    InvariantHasRuns(db);
    MutationBasics(rules, db, seen, session, user, runner, request, Restore(slot), c);
  }

  /** Only a load to an earlier turn forgets a logged one. */
  lemma WrittenKeepsTurn(tx: Db, c: Mutation, session: string, n: nat)
    requires Written(tx, c).Ok? && (session, n) in tx.turns
    requires c.session == session && c.rewind.Some? ==> n <= c.rewind.value.turnCount
    ensures (session, n) in Written(tx, c).value.turns
  {
    hide StoreLaws.Opened, Closed, Written;
    if c.user.None? {
      GuestsWriteNothing(tx, c);
    } else {
      WrittenInTwo(tx, c);
      OpenedKeepsTurn(tx, c, session, n);
      ClosedKeepsTurn(StoreLaws.Opened(tx, c).value, c, session, n);
    }
  }

  lemma EnsuredTurns(db: Db, session: string, user: string, info: RunInfo)
    requires Ensured(db, session, user, info).Ok?
    ensures Ensured(db, session, user, info).value.turns == db.turns
  {
  }

  lemma RewoundTurns(db: Db, session: string, user: string, info: RunInfo)
    requires Rewound(db, session, user, info).Ok?
    ensures Rewound(db, session, user, info).value.turns == TurnsUpTo(db.turns, session, info.turnCount)
  {
    hide Ensured, TurnsUpTo, WithoutMutations;
    EnsuredTurns(db, session, user, info);
  }

  lemma LoggedTurns(db: Db, run: string, turn: TurnRow)
    requires Logged(db, run, turn).Ok?
    ensures Logged(db, run, turn).value.turns == db.turns[(run, turn.turnNo) := turn]
  {
  }

  lemma FinalizedTurns(db: Db, session: string, user: string, t: Terminal)
    requires Finalized(db, session, user, t).Ok?
    ensures Finalized(db, session, user, t).value.turns == db.turns
  {
    hide Ensured, Keys, Granted, Progressed;
    EnsuredTurns(db, session, user, t.info);
  }

  lemma OpenedKeepsTurn(tx: Db, c: Mutation, session: string, n: nat)
    requires c.user.Some? && StoreLaws.Opened(tx, c).Ok? && (session, n) in tx.turns
    requires c.session == session && c.rewind.Some? ==> n <= c.rewind.value.turnCount
    ensures (session, n) in StoreLaws.Opened(tx, c).value.turns
  {
    hide Ensured, Rewound;
    var begun := tx;
    if c.startRun.Some? {
      EnsuredTurns(tx, c.session, c.user.value, c.startRun.value);
      begun := Ensured(tx, c.session, c.user.value, c.startRun.value).value;
    }
    if c.rewind.Some? {
      RewoundTurns(begun, c.session, c.user.value, c.rewind.value);
    }
  }

  lemma ClosedKeepsTurn(tx: Db, c: Mutation, session: string, n: nat)
    requires c.user.Some? && Closed(tx, c).Ok? && (session, n) in tx.turns
    ensures (session, n) in Closed(tx, c).value.turns
  {
    hide Logged, Finalized;
    var logged := tx;
    if c.turn.Some? {
      LoggedTurns(tx, c.session, c.turn.value);
      logged := Logged(tx, c.session, c.turn.value).value;
    }
    var spent := if c.consume then Consumed(logged, c.user.value) else logged;
    if c.terminal.Some? {
      FinalizedTurns(spent, c.session, c.user.value, c.terminal.value);
    }
  }

  lemma AskedRewind(rules: Rules, db: Db, call: Call)
    requires Plausible(db, call) && call.Requests?
    ensures AskedMutation(rules, db, call).rewind.Some? <==> call.op.Restore?
    ensures call.op.Restore? ==>
      AskedMutation(rules, db, call).rewind.value.turnCount
      == db.saves[(db.sessions[call.session].user.value, call.op.slot)].core.turnCount
  {
    hide Stored, TerminalOf, TurnPayload, SessionsAlike, Step, Begun;
  }

  /** A load of this session to a moment before turn n. */
  predicate LoadsBelow(db: Db, call: Call, session: string, n: nat) {
    && call.Requests? && call.session == session && call.op.Restore? && session in db.sessions
    && db.sessions[session].user.Some? && (db.sessions[session].user.value, call.op.slot) in db.saves
    && db.saves[(db.sessions[session].user.value, call.op.slot)].core.turnCount < n
  }

  lemma TurnStays(rules: Rules, db: Db, call: Call, session: string, n: nat)
    requires Plausible(db, call) && (session, n) in db.turns && !LoadsBelow(db, call, session, n)
    ensures (session, n) in Called(rules, db, call).turns
  {
    hide Written, MutationFor, Perform, SessionsAlike;
    if call.Requests? {
      var c := AskedMutation(rules, db, call);
      AskedOwner(rules, db, call);
      AskedRewind(rules, db, call);
      if Commit(db, c).1.Committed? {
        WrittenKeepsTurn(Swapped(db, c), c, session, n);
      }
    }
  }

  /** No call loads this session to a moment before turn n. */
  ghost predicate NeverLoadsBelow(rules: Rules, db: Db, calls: seq<Call>, session: string, n: nat) {
    calls == [] ||
    (NeverLoadsBelow(rules, db, calls[..|calls| - 1], session, n)
     && match CalledAll(rules, db, calls[..|calls| - 1])
        case Some(next) => !LoadsBelow(next, calls[|calls| - 1], session, n)
        case None => true)
  }

  /** A logged turn stays logged until its session is loaded to an earlier turn. */
  lemma {:induction false} TurnStaysLogged(rules: Rules, db: Db, calls: seq<Call>, session: string, n: nat)
    requires (session, n) in db.turns && CalledAll(rules, db, calls).Some?
    requires NeverLoadsBelow(rules, db, calls, session, n)
    ensures (session, n) in CalledAll(rules, db, calls).value.turns
  {
    hide Called, Plausible, LoadsBelow;
    if calls != [] {
      TurnStaysLogged(rules, db, calls[..|calls| - 1], session, n);
      TurnStays(rules, CalledAll(rules, db, calls[..|calls| - 1]).value, calls[|calls| - 1], session, n);
    }
  }

  /** No call loads this session at all. */
  predicate NeverLoaded(calls: seq<Call>, session: string) {
    forall call :: call in calls && call.Requests? && call.session == session ==> !call.op.Restore?
  }

  /** A session at turn zero over a log that holds turn one. */
  ghost predicate Stuck(db: Db, session: string) {
    && session in db.sessions && db.sessions[session].user.Some?
    && db.sessions[session].snapshot.core.turnCount == 0 && (session, 1) in db.turns
  }

  lemma StuckStays(rules: Rules, db: Db, call: Call, session: string)
    requires DbInvariant(db) && Plausible(db, call) && Stuck(db, session) && NeverLoaded([call], session)
    ensures Stuck(Called(rules, db, call), session)
  {
    hide DbInvariant, Commit, MutationFor, Step, Begun, Stored, Accepts;
    assert call in [call];
    TurnStays(rules, db, call, session, 1);
    InvariantHasRuns(db);
    if call.Requests? {
      var c := AskedMutation(rules, db, call);
      AskedOwner(rules, db, call);
      OnlyCommitsChange(db, c);
      if Commit(db, c).1.Committed? {
        CommittedVersion(db, c);
        if call.session == session {
          StuckSnapshot(rules, db, call, c);
        }
      }
    }
  }

  lemma StuckSnapshot(rules: Rules, db: Db, call: Call, c: Mutation)
    requires DbInvariant(db) && Plausible(db, call) && call.Requests? && c == AskedMutation(rules, db, call)
    requires Stuck(db, call.session) && !call.op.Restore? && Commit(db, c).1.Committed?
    ensures c.snapshot.core.turnCount == 0
  {
    hide Commit, TablesOk, Step, Begun, Stored, SessionsAlike;
    var session, runner, op := call.session, call.runner, call.op;
    var user := db.sessions[session].user.value;
    InvariantHasRuns(db);
    assert Asked(rules, db, db, session, user, runner, call.request, op, c);
    MutationBasics(rules, db, db, session, user, runner, call.request, op, c);
    AlikeTurnCount(db.sessions[session].snapshot, runner);
    StoredTurnCount(rules, Perform(rules, db, Some(user), runner, op));
    match op
    case Begin(core, opening, _) => BegunIsFresh(rules, core, opening);
    case Advance(e) =>
      StepRecordsTurns(rules.w, runner, e);
      OnlyCommitsChange(db, c);
      if Step(rules.w, runner, e).core.turnCount != 0 {
        TurnIsTakenIff(rules, db, db, session, user, runner, call.request, e, c);
      }
    case _ =>
  }

  lemma {:induction false} StuckForever(rules: Rules, db: Db, calls: seq<Call>, session: string)
    requires DbInvariant(db) && Stuck(db, session) && CalledAll(rules, db, calls).Some? && NeverLoaded(calls, session)
    ensures
      var later := CalledAll(rules, db, calls).value;
      DbInvariant(later) && Stuck(later, session)
  {
    hide DbInvariant, Stuck, Called, Plausible;
    if calls != [] {
      var earlier, last := calls[..|calls| - 1], calls[|calls| - 1];
      assert last in calls;
      assert forall call :: call in earlier ==> call in calls;
      StuckForever(rules, db, earlier, session);
      var before := CalledAll(rules, db, earlier).value;
      CallKeepsInvariant(rules, before, last);
      StuckStays(rules, before, last, session);
    }
  }

  /**
   A start committed over a run that holds turn one leaves the session at turn zero
   through any later requests on any sessions, until it is loaded: no turn is ever
   settled in it again.
   */
  lemma RestartedSessionIsStuck(rules: Rules, db: Db, start: Call, calls: seq<Call>)
    requires DbInvariant(db) && Plausible(db, start) && start.Requests? && start.op.Begin?
    requires db.sessions[start.session].user.Some? && (start.session, 1) in db.turns
    requires Commit(db, AskedMutation(rules, db, start)).1.Committed?
    requires CalledAll(rules, Called(rules, db, start), calls).Some? && NeverLoaded(calls, start.session)
    ensures Stuck(CalledAll(rules, Called(rules, db, start), calls).value, start.session)
  {
    hide DbInvariant, Commit, MutationFor, Begun, Stored, CalledAll, SessionsAlike, NeverLoaded;
    var user := db.sessions[start.session].user.value;
    var c := AskedMutation(rules, db, start);
    assert Asked(rules, db, db, start.session, user, start.runner, start.request, start.op, c);
    StartedTables(rules, db, db, start.session, user, start.runner, start.request, start.op, c);
    CallKeepsInvariant(rules, db, start);
    StuckForever(rules, Called(rules, db, start), calls, start.session);
  }
}
