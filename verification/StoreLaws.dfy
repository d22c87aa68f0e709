/**
 Laws of the session tables over any sequence of transactions: progress counts
 completed runs exactly, completed runs never change, payouts belong to completed
 runs, versions only grow, and a request takes effect at most once.
 */
module StoreLaws {
  import opened GameConstants
  import opened GameSession
  import opened SessionStore

  // ---- Invariants ----------------------------------------------------------

  function CompletedRuns(runs: map<string, RunRow>, user: string): set<string> {
    set k | k in runs && runs[k].completed && runs[k].user == user
  }

  function AscendedRuns(runs: map<string, RunRow>, user: string): set<string> {
    set k | k in runs && runs[k].completed && runs[k].user == user && runs[k].ascended
  }

  function ProgressOf(db: Db, user: string): Progress {
    if user in db.progress then db.progress[user] else Progress(0, 0)
  }

  /** Progress is conserved: it counts the user's completed and ascended runs. */
  ghost predicate ProgressCountsRuns(db: Db) {
    forall user :: ProgressOf(db, user)
                   == Progress(|CompletedRuns(db.runs, user)|, |AscendedRuns(db.runs, user)|)
  }

  predicate PaidOut(db: Db, k: RewardKey) { k.source in db.runs && db.runs[k.source].completed }

  ghost predicate PayoutsAreEarned(db: Db) {
    && (forall k :: k in db.achievements ==> PaidOut(db, k))
    && (forall k :: k in db.rewards ==> PaidOut(db, k))
    && (forall k :: k in db.bonuses ==> PaidOut(db, k))
  }

  ghost predicate TurnsHaveRuns(db: Db) { forall k :: k in db.turns ==> k.0 in db.runs }

  ghost predicate TablesOk(db: Db) {
    ProgressCountsRuns(db) && PayoutsAreEarned(db) && TurnsHaveRuns(db)
  }

  ghost predicate OwnersAgree(db: Db) {
    forall s :: s in db.sessions && s in db.runs ==> db.sessions[s].user == Some(db.runs[s].user)
  }

  /** A logged request names a version the session has already reached. */
  ghost predicate MutationsAreOld(db: Db) {
    forall k :: k in db.mutations ==>
      && k.0 in db.sessions
      && db.mutations[k].response.version == db.mutations[k].result == db.mutations[k].expected + 1
      && db.mutations[k].result <= db.sessions[k.0].version
  }

  ghost predicate DbInvariant(db: Db) {
    TablesOk(db) && OwnersAgree(db) && MutationsAreOld(db)
  }

  // ---- What one statement keeps --------------------------------------------

  /** Completed runs stand, no run is lost or given away, no request is invented. */
  ghost predicate Kept(db: Db, next: Db) {
    && next.sessions == db.sessions
    && (forall s :: s in db.runs ==> s in next.runs && next.runs[s].user == db.runs[s].user)
    && (forall s :: s in db.runs && db.runs[s].completed ==> next.runs[s] == db.runs[s])
    && (forall k :: k in next.mutations ==> k in db.mutations && next.mutations[k] == db.mutations[k])
  }

  /** Runs that appear are the session's own, with its user. */
  ghost predicate OnlyRunOf(db: Db, next: Db, session: string, user: string) {
    forall s :: s in next.runs && s !in db.runs ==> s == session && next.runs[s].user == user
  }

  ghost predicate Statement(db: Db, next: Db, session: string, user: string) {
    TablesOk(next) && Kept(db, next) && OnlyRunOf(db, next, session, user)
  }

  predicate OwnedBy(db: Db, session: string, user: string) {
    session in db.runs ==> db.runs[session].user == user
  }

  lemma SameCompletedRuns(db: Db, next: Db)
    requires TablesOk(db) && next.progress == db.progress && TurnsHaveRuns(next)
    requires next.achievements == db.achievements && next.rewards == db.rewards
    requires next.bonuses.Keys == db.bonuses.Keys
    requires forall s :: s in next.runs && next.runs[s].completed ==> s in db.runs && db.runs[s] == next.runs[s]
    requires forall s :: s in db.runs && db.runs[s].completed ==> s in next.runs && db.runs[s] == next.runs[s]
    ensures TablesOk(next)
  {
    forall user ensures ProgressOf(next, user)
                        == Progress(|CompletedRuns(next.runs, user)|, |AscendedRuns(next.runs, user)|) {
      assert CompletedRuns(next.runs, user) == CompletedRuns(db.runs, user);
      assert AscendedRuns(next.runs, user) == AscendedRuns(db.runs, user);
      assert ProgressOf(next, user) == ProgressOf(db, user);
    }
    forall k | k in next.bonuses ensures PaidOut(next, k) {
      assert k in db.bonuses.Keys;
    }
  }

  /** Opening a run pays nothing and completes nothing. */
  lemma OpenRunKeepsTables(db: Db, session: string, run: RunRow)
    requires TablesOk(db) && session !in db.runs && !run.completed
    ensures TablesOk(db.(runs := db.runs[session := run]))
  {
    hide ProgressCountsRuns, PayoutsAreEarned;
    SameCompletedRuns(db, db.(runs := db.runs[session := run]));
  }

  lemma EnsuredLaw(db: Db, session: string, user: string, info: RunInfo)
    requires TablesOk(db) && Ensured(db, session, user, info).Ok?
    ensures Statement(db, Ensured(db, session, user, info).value, session, user)
    ensures session in Ensured(db, session, user, info).value.runs
  {
    hide TablesOk, SessionHasRun;
    if session in db.runs {
      NothingIsAStatement(db, session, user);
    } else {
      OpenRunKeepsTables(db, session, RunRow(user, session, info.turnCount, info.realm, NoReason, false, false));
    }
  }

  lemma RewoundLaw(db: Db, session: string, user: string, info: RunInfo)
    requires TablesOk(db) && OwnedBy(db, session, user) && Rewound(db, session, user, info).Ok?
    ensures Statement(db, Rewound(db, session, user, info).value, session, user)
    ensures forall k :: k in Rewound(db, session, user, info).value.mutations ==> k.0 != session
  {
    hide ProgressCountsRuns, PayoutsAreEarned, Ensured, SessionHasRun;
    EnsuredLaw(db, session, user, info);
    var ready := Ensured(db, session, user, info).value;
    var next := Rewound(db, session, user, info).value;
    SameCompletedRuns(ready, next);
  }

  lemma LoggedLaw(db: Db, session: string, user: string, turn: TurnRow)
    requires TablesOk(db) && Logged(db, session, turn).Ok?
    ensures Statement(db, Logged(db, session, turn).value, session, user)
  {
    hide ProgressCountsRuns, PayoutsAreEarned, RequestLogged;
    SameCompletedRuns(db, Logged(db, session, turn).value);
  }

  lemma ConsumedLaw(db: Db, session: string, user: string)
    requires TablesOk(db)
    ensures Statement(db, Consumed(db, user), session, user)
  {
  }

  lemma CompletionAddsOne(runs: map<string, RunRow>, session: string, run: RunRow, user: string)
    requires session in runs && !runs[session].completed && run.completed && run.user == runs[session].user
    ensures
      var next := runs[session := run];
      var mine := if run.user == user then {session} else {};
      && CompletedRuns(next, user) == CompletedRuns(runs, user) + mine
      && AscendedRuns(next, user) == AscendedRuns(runs, user) + (if run.ascended then mine else {})
      && session !in CompletedRuns(runs, user) + AscendedRuns(runs, user)
  {
  }

  /** Completing one more run of a user moves that user's counters and nobody else's. */
  lemma CompletionCounts(db: Db, session: string, user: string, run: RunRow)
    requires ProgressCountsRuns(db) && session in db.runs && !db.runs[session].completed
    requires db.runs[session].user == user == run.user && run.completed
    ensures ProgressCountsRuns(db.(runs := db.runs[session := run],
                                   progress := Progressed(db.progress, user, run.ascended)))
  {
    hide CompletedRuns, AscendedRuns;
    var next := db.(runs := db.runs[session := run], progress := Progressed(db.progress, user, run.ascended));
    forall u ensures ProgressOf(next, u) == Progress(|CompletedRuns(next.runs, u)|, |AscendedRuns(next.runs, u)|) {
      assert ProgressOf(db, u) == Progress(|CompletedRuns(db.runs, u)|, |AscendedRuns(db.runs, u)|);
      CompletionAddsOne(db.runs, session, run, u);
    }
  }

  /** The run row, the payouts and the progress of a first finalisation. */
  ghost function PaidFor(ready: Db, session: string, user: string, t: Terminal): Db
    requires session in ready.runs && !ready.runs[session].completed
  {
    ready.(
      runs := ready.runs[session := ready.runs[session].(
        turnCount := t.info.turnCount, realm := t.info.realm, cause := t.cause,
        ascended := t.ascended, completed := true)],
      achievements := ready.achievements + Keys(user, session, t.achievements),
      rewards := ready.rewards + Keys(user, session, t.rewards),
      bonuses := Granted(ready.bonuses, user, session, t.bonuses),
      progress := Progressed(ready.progress, user, t.ascended))
  }

  lemma PaidForLaw(ready: Db, session: string, user: string, t: Terminal)
    requires TablesOk(ready) && session in ready.runs && !ready.runs[session].completed
    requires ready.runs[session].user == user
    ensures Statement(ready, PaidFor(ready, session, user, t), session, user)
  {
    hide ProgressCountsRuns, CompletedRuns, AscendedRuns, Progressed;
    var next := PaidFor(ready, session, user, t);
    CompletionCounts(ready, session, user, next.runs[session]);
    ProgressReadsRunsOnly(ready.(runs := next.runs, progress := next.progress), next);
    assert PayoutsAreEarned(next);
  }

  lemma FinalizedLaw(db: Db, session: string, user: string, t: Terminal)
    requires TablesOk(db) && OwnedBy(db, session, user) && Finalized(db, session, user, t).Ok?
    ensures Statement(db, Finalized(db, session, user, t).value, session, user)
    ensures session in Finalized(db, session, user, t).value.runs
            && Finalized(db, session, user, t).value.runs[session].completed
  {
    hide TablesOk, Ensured, Statement, Progressed, Granted, Keys;
    EnsuredLaw(db, session, user, t.info);
    var ready := Ensured(db, session, user, t.info).value;
    StatementIsOk(db, ready, session, user);
    StatementKeepsOwner(db, ready, session, user);
    if !ready.runs[session].completed {
      PaidForLaw(ready, session, user, t);
      StatementsCompose(db, ready, PaidFor(ready, session, user, t), session, user);
    }
  }

  lemma ProgressReadsRunsOnly(db: Db, next: Db)
    requires ProgressCountsRuns(db) && next.runs == db.runs && next.progress == db.progress
    ensures ProgressCountsRuns(next)
  {
  }

  lemma StatementsCompose(a: Db, b: Db, c: Db, session: string, user: string)
    requires Statement(a, b, session, user) && Statement(b, c, session, user)
    ensures Statement(a, c, session, user)
  {
  }

  lemma StatementKeepsOwner(a: Db, b: Db, session: string, user: string)
    requires Statement(a, b, session, user) && OwnedBy(a, session, user)
    ensures OwnedBy(b, session, user)
  {
  }

  lemma NothingIsAStatement(db: Db, session: string, user: string)
    requires TablesOk(db)
    ensures Statement(db, db, session, user)
  {
  }

  // ---- The whole body of a transaction -------------------------------------

  /** The statements before the turn log. */
  ghost function Opened(db: Db, c: Mutation): Result<Db>
    requires c.user.Some?
  {
    var begun :- if c.startRun.Some? then Ensured(db, c.session, c.user.value, c.startRun.value) else Ok(db);
    if c.rewind.Some? then Rewound(begun, c.session, c.user.value, c.rewind.value) else Ok(begun)
  }

  /** The statements from the turn log on. */
  ghost function Closed(db: Db, c: Mutation): Result<Db>
    requires c.user.Some?
  {
    var logged :- if c.turn.Some? then Logged(db, c.session, c.turn.value) else Ok(db);
    var spent := if c.consume then Consumed(logged, c.user.value) else logged;
    var ended :- if c.terminal.Some? then Finalized(spent, c.session, c.user.value, c.terminal.value) else Ok(spent);
    Ok(if c.slot.Some? then ended.(saves := ended.saves[(c.user.value, c.slot.value) := c.snapshot]) else ended)
  }

  lemma WrittenInTwo(db: Db, c: Mutation)
    requires c.user.Some?
    ensures Written(db, c) == match Opened(db, c)
                              case Ok(mid) => Closed(mid, c)
                              case Err(e) => Err(e)
  {
  }

  lemma OpenedLaw(db: Db, c: Mutation)
    requires c.user.Some? && TablesOk(db) && OwnedBy(db, c.session, c.user.value) && Opened(db, c).Ok?
    ensures Statement(db, Opened(db, c).value, c.session, c.user.value)
    ensures c.rewind.Some? ==> forall k :: k in Opened(db, c).value.mutations ==> k.0 != c.session
  {
    hide Ensured, Rewound, Statement, TablesOk, OwnedBy;
    var user := c.user.value;
    NothingIsAStatement(db, c.session, user);
    var begun := db;
    if c.startRun.Some? {
      begun := Ensured(db, c.session, user, c.startRun.value).value;
      EnsuredLaw(db, c.session, user, c.startRun.value);
    }
    StatementKeepsOwner(db, begun, c.session, user);
    StatementIsOk(db, begun, c.session, user);
    if c.rewind.Some? {
      RewoundLaw(begun, c.session, user, c.rewind.value);
      StatementsCompose(db, begun, Opened(db, c).value, c.session, user);
    }
  }

  lemma StatementIsOk(db: Db, next: Db, session: string, user: string)
    requires Statement(db, next, session, user)
    ensures TablesOk(next)
  {
  }

  lemma SlotLaw(db: Db, session: string, user: string, slot: (string, string), snapshot: Session)
    requires TablesOk(db)
    ensures Statement(db, db.(saves := db.saves[slot := snapshot]), session, user)
  {
  }

  lemma ClosedLaw(db: Db, c: Mutation)
    requires c.user.Some? && TablesOk(db) && OwnedBy(db, c.session, c.user.value) && Closed(db, c).Ok?
    ensures Statement(db, Closed(db, c).value, c.session, c.user.value)
    ensures Closed(db, c).value.mutations == db.mutations
  {
    hide Statement, TablesOk, OwnedBy, Logged, Consumed, Finalized;
    var session, user := c.session, c.user.value;
    NothingIsAStatement(db, session, user);
    var logged := db;
    if c.turn.Some? {
      logged := Logged(db, session, c.turn.value).value;
      LoggedLaw(db, session, user, c.turn.value);
      LoggedKeepsLog(db, session, c.turn.value);
    }
    StatementIsOk(db, logged, session, user);
    StatementKeepsOwner(db, logged, session, user);
    var spent := logged;
    if c.consume {
      spent := Consumed(logged, user);
      ConsumedLaw(logged, session, user);
      assert spent.mutations == logged.mutations by { ConsumedKeepsLog(logged, user); }
      StatementsCompose(db, logged, spent, session, user);
    }
    StatementIsOk(db, spent, session, user);
    StatementKeepsOwner(db, spent, session, user);
    var ended := spent;
    if c.terminal.Some? {
      ended := Finalized(spent, session, user, c.terminal.value).value;
      FinalizedLaw(spent, session, user, c.terminal.value);
      FinalizedKeepsLog(spent, session, user, c.terminal.value);
      StatementsCompose(db, spent, ended, session, user);
    }
    StatementIsOk(db, ended, session, user);
    if c.slot.Some? {
      SlotLaw(ended, session, user, (user, c.slot.value), c.snapshot);
      StatementsCompose(db, ended, Closed(db, c).value, session, user);
    }
  }

  lemma LoggedKeepsLog(db: Db, run: string, turn: TurnRow)
    requires Logged(db, run, turn).Ok?
    ensures Logged(db, run, turn).value.mutations == db.mutations
  {
  }

  lemma ConsumedKeepsLog(db: Db, user: string)
    ensures Consumed(db, user).mutations == db.mutations
  {
  }

  lemma FinalizedKeepsLog(db: Db, session: string, user: string, t: Terminal)
    requires Finalized(db, session, user, t).Ok?
    ensures Finalized(db, session, user, t).value.mutations == db.mutations
  {
  }

  lemma WrittenLaw(db: Db, c: Mutation)
    requires c.user.Some? && TablesOk(db) && OwnedBy(db, c.session, c.user.value) && Written(db, c).Ok?
    ensures Statement(db, Written(db, c).value, c.session, c.user.value)
    ensures c.rewind.Some? ==> forall k :: k in Written(db, c).value.mutations ==> k.0 != c.session
  {
    hide Opened, Closed, Written, Statement, TablesOk, OwnedBy;
    WrittenInTwo(db, c);
    OpenedLaw(db, c);
    var mid := Opened(db, c).value;
    StatementIsOk(db, mid, c.session, c.user.value);
    StatementKeepsOwner(db, mid, c.session, c.user.value);
    ClosedLaw(mid, c);
    StatementsCompose(db, mid, Closed(mid, c).value, c.session, c.user.value);
  }

  // ---- Steps and runs ------------------------------------------------------

  datatype DbStep =
    | Commits(change: Mutation)
    | Creates(session: string, user: Option<string>, snapshot: Session)
    | RecordsRun(runId: string, runUser: string, source: string, info: RunInfo, cause: Reason, ascended: bool)

  ghost function Take(db: Db, step: DbStep): Db {
    match step
    case Commits(c) => Commit(db, c).0
    case Creates(session, user, snapshot) => SessionSaved(db, session, user, snapshot)
    case RecordsRun(runId, user, source, info, cause, ascended) =>
      RunRecorded(db, runId, user, source, info, cause, ascended)
  }

  /**
   What callers bring: a commit and a plain save carry the session's own user, a created
   id is new, and an outside run never takes another user's session id.
   */
  predicate Fair(db: Db, step: DbStep) {
    match step
    case Commits(c) => c.session in db.sessions ==> c.user == db.sessions[c.session].user
    case Creates(session, user, _) =>
      if session in db.sessions then user == db.sessions[session].user else session !in db.runs
    case RecordsRun(runId, user, _, _, _, _) => runId in db.sessions ==> db.sessions[runId].user == Some(user)
  }

  ghost function After(db: Db, steps: seq<DbStep>): Db {
    if steps == [] then db else Take(After(db, steps[..|steps| - 1]), steps[|steps| - 1])
  }

  ghost predicate AllFair(db: Db, steps: seq<DbStep>) {
    steps == [] || (AllFair(db, steps[..|steps| - 1]) && Fair(After(db, steps[..|steps| - 1]), steps[|steps| - 1]))
  }

  /** What every step keeps, stated between its two database states. */
  ghost predicate Monotone(db: Db, next: Db) {
    && (forall s :: s in db.sessions ==> s in next.sessions && db.sessions[s].version <= next.sessions[s].version)
    && (forall s :: s in db.runs && db.runs[s].completed ==> s in next.runs && next.runs[s] == db.runs[s])
  }

  lemma SwapKeepsTables(db: Db, c: Mutation)
    requires DbInvariant(db) && Swaps(db, c) && c.user == db.sessions[c.session].user
    ensures TablesOk(Swapped(db, c)) && OwnersAgree(Swapped(db, c))
    ensures c.user.Some? ==> OwnedBy(Swapped(db, c), c.session, c.user.value)
  {
  }

  lemma NoteKeepsTables(db: Db, c: Mutation)
    requires TablesOk(db)
    ensures TablesOk(Noted(db, c))
  {
  }

  lemma CommitLaw(db: Db, c: Mutation)
    requires DbInvariant(db) && Fair(db, Commits(c)) && Commit(db, c).1.Committed?
    ensures DbInvariant(Commit(db, c).0) && Monotone(db, Commit(db, c).0)
  {
    hide TablesOk, Written, Statement, Noted;
    SwapKeepsTables(db, c);
    var tx := Swapped(db, c);
    var next := Written(tx, c).value;
    if c.user.None? {
      GuestsWriteNothing(tx, c);
      NothingIsAStatement(tx, c.session, "");
      StatementFacts(tx, next, c.session, "");
    } else {
      WrittenLaw(tx, c);
      StatementIsOk(tx, next, c.session, c.user.value);
      StatementFacts(tx, next, c.session, c.user.value);
    }
    NoteKeepsTables(next, c);
    NotingKeepsOwnersAndLog(db, c, next);
  }

  lemma NotingKeepsOwnersAndLog(db: Db, c: Mutation, next: Db)
    requires OwnersAgree(db) && MutationsAreOld(db) && Swaps(db, c) && c.user == db.sessions[c.session].user
    requires Kept(Swapped(db, c), next)
    requires c.user.Some? ==> OnlyRunOf(Swapped(db, c), next, c.session, c.user.value)
    requires c.user.None? ==> next.runs == db.runs
    ensures OwnersAgree(Noted(next, c)) && MutationsAreOld(Noted(next, c)) && Monotone(db, Noted(next, c))
  {
  }

  lemma GuestsWriteNothing(db: Db, c: Mutation)
    requires c.user.None?
    ensures Written(db, c) == Ok(db)
  {
  }

  lemma StatementFacts(db: Db, next: Db, session: string, user: string)
    requires Statement(db, next, session, user)
    ensures Kept(db, next) && OnlyRunOf(db, next, session, user)
  {
  }

  lemma CreateLaw(db: Db, session: string, user: Option<string>, snapshot: Session)
    requires DbInvariant(db) && Fair(db, Creates(session, user, snapshot))
    ensures DbInvariant(SessionSaved(db, session, user, snapshot))
    ensures Monotone(db, SessionSaved(db, session, user, snapshot))
  {
  }

  lemma RecordLaw(
    db: Db, runId: string, user: string, source: string, info: RunInfo, cause: Reason, ascended: bool)
    requires DbInvariant(db) && Fair(db, RecordsRun(runId, user, source, info, cause, ascended))
    ensures DbInvariant(RunRecorded(db, runId, user, source, info, cause, ascended))
    ensures Monotone(db, RunRecorded(db, runId, user, source, info, cause, ascended))
  {
    hide SessionHasRun, TablesOk, Progressed;
    if runId !in db.runs && !SessionHasRun(db.runs, source) {
      RecordedRunKeepsTables(db, runId, RunRow(user, source, info.turnCount, info.realm, cause, ascended, true));
    }
  }

  /** A run that appears completed counts exactly like one that is opened and then completed. */
  lemma RecordedRunKeepsTables(db: Db, runId: string, run: RunRow)
    requires TablesOk(db) && runId !in db.runs && run.completed
    ensures TablesOk(db.(runs := db.runs[runId := run],
                         progress := Progressed(db.progress, run.user, run.ascended)))
  {
    hide ProgressCountsRuns, CompletedRuns, AscendedRuns, Progressed;
    var begun := db.(runs := db.runs[runId := run.(completed := false)]);
    OpenRunKeepsTables(db, runId, run.(completed := false));
    CompletionCounts(begun, runId, run.user, run);
    assert begun.runs[runId := run] == db.runs[runId := run];
  }

  lemma TakeLaw(db: Db, step: DbStep)
    requires DbInvariant(db) && Fair(db, step)
    ensures DbInvariant(Take(db, step)) && Monotone(db, Take(db, step))
  {
    hide DbInvariant, Written, SessionSaved, RunRecorded;
    match step
    case Commits(c) =>
      if Commit(db, c).1.Committed? {
        CommitLaw(db, c);
      }
    case Creates(session, user, snapshot) => CreateLaw(db, session, user, snapshot);
    case RecordsRun(runId, user, source, info, cause, ascended) =>
      RecordLaw(db, runId, user, source, info, cause, ascended);
  }

  lemma EmptyLaw()
    ensures DbInvariant(EMPTY_DB)
  {
  }

  lemma {:induction false} AfterLaw(db: Db, steps: seq<DbStep>)
    requires DbInvariant(db) && AllFair(db, steps)
    ensures DbInvariant(After(db, steps)) && Monotone(db, After(db, steps))
  {
    hide DbInvariant, Take, Fair;
    if steps != [] {
      AfterLaw(db, steps[..|steps| - 1]);
      TakeLaw(After(db, steps[..|steps| - 1]), steps[|steps| - 1]);
    }
  }

  /**
   In every reachable database: a user's counters are the numbers of that user's
   completed and ascended runs, and every payout row belongs to a completed run.
   */
  lemma ProgressIsConserved(steps: seq<DbStep>, user: string)
    requires AllFair(EMPTY_DB, steps)
    ensures
      var db := After(EMPTY_DB, steps);
      && ProgressOf(db, user).runs == |CompletedRuns(db.runs, user)|
      && ProgressOf(db, user).ascensions == |AscendedRuns(db.runs, user)|
      && PayoutsAreEarned(db)
  {
    hide After, AllFair, CompletedRuns, AscendedRuns, PayoutsAreEarned;
    EmptyLaw();
    AfterLaw(EMPTY_DB, steps);
  }

  /** Whatever happens later, a completed run keeps its row. */
  lemma CompletedRunsStand(db: Db, steps: seq<DbStep>, run: string)
    requires DbInvariant(db) && AllFair(db, steps) && run in db.runs && db.runs[run].completed
    ensures run in After(db, steps).runs && After(db, steps).runs[run] == db.runs[run]
  {
    hide DbInvariant, After, AllFair;
    AfterLaw(db, steps);
  }

  // ---- At most once --------------------------------------------------------

  /** The only answers that may have changed anything are fresh commits. */
  lemma OnlyCommitsChange(db: Db, c: Mutation)
    ensures
      var (next, o) := Commit(db, c);
      && (!o.Committed? ==> next == db)
      && (o.Committed? ==>
          && c.session in db.sessions && db.sessions[c.session].version == c.expected
          && (c.session, c.request) in next.mutations
          && next.mutations[(c.session, c.request)].response == o.response
          && o.response.version == c.expected + 1)
      && (o.Replayed? <==> (c.session, c.request) in db.mutations)
  {
  }

  /** A committed load of a user's session: it forgets the session's earlier requests. */
  predicate Forgets(d: Mutation) { d.user.Some? && d.rewind.Some? }

  /** What the log holds under a request after some step, given what it held before. */
  ghost function Heard(db: Db, step: DbStep, session: string, request: string, was: Option<Response>)
    : Option<Response>
  {
    if !step.Commits? || step.change.session != session || !Commit(db, step.change).1.Committed? then was
    else if step.change.request == request then Some(Commit(db, step.change).1.response)
    else if Forgets(step.change) then None
    else was
  }

  /** The answer that stands under a request after some steps, whoever sent them. */
  ghost function Standing(db: Db, steps: seq<DbStep>, session: string, request: string, was: Option<Response>)
    : Option<Response>
  {
    if steps == [] then was
    else
      var earlier := steps[..|steps| - 1];
      Heard(After(db, earlier), steps[|steps| - 1], session, request,
            Standing(db, earlier, session, request, was))
  }

  /** The version has passed `expected`, and the log holds exactly this answer, or none. */
  ghost predicate Spoken(db: Db, session: string, request: string, expected: nat, answer: Option<Response>) {
    && session in db.sessions && expected < db.sessions[session].version
    && answer == if (session, request) in db.mutations then Some(db.mutations[(session, request)].response) else None
  }

  /** Another request commits a load of this session. */
  ghost predicate Clears(db: Db, step: DbStep, session: string, request: string) {
    && step.Commits? && step.change.session == session && step.change.request != request
    && Forgets(step.change) && Commit(db, step.change).1.Committed?
  }

  /** Some step clears the log of this session. */
  ghost predicate Cleared(db: Db, steps: seq<DbStep>, session: string, request: string) {
    steps != []
    && (Cleared(db, steps[..|steps| - 1], session, request)
        || Clears(After(db, steps[..|steps| - 1]), steps[|steps| - 1], session, request))
  }

  /** Nobody sends this request id again under a later expected version. */
  predicate KeepsId(step: DbStep, session: string, request: string, expected: nat) {
    step.Commits? && step.change.session == session && step.change.request == request
    ==> step.change.expected <= expected
  }

  lemma SpokenStands(
    db: Db, step: DbStep, session: string, request: string, expected: nat, answer: Option<Response>)
    requires DbInvariant(db) && Fair(db, step) && Spoken(db, session, request, expected, answer)
    ensures Spoken(Take(db, step), session, request, expected, Heard(db, step, session, request, answer))
    ensures answer.Some? && !Clears(db, step, session, request) ==>
      Heard(db, step, session, request, answer) == answer
    ensures answer.None? && KeepsId(step, session, request, expected) ==>
      Heard(db, step, session, request, answer) == None
    ensures Clears(db, step, session, request) ==> Heard(db, step, session, request, answer) == None
  {
    hide DbInvariant, Written, RunRecorded, Fair;
    TakeLaw(db, step);
    match step
    case Commits(d) =>
      OnlyCommitsChange(db, d);
      if Commit(db, d).1.Committed? {
        LogAfterCommit(db, d);
      }
    case Creates(_, _, _) =>
    case RecordsRun(runId, user, source, info, cause, ascended) =>
      RecordingKeepsLog(db, runId, user, source, info, cause, ascended);
  }

  lemma RecordingKeepsLog(
    db: Db, runId: string, user: string, source: string, info: RunInfo, cause: Reason, ascended: bool)
    ensures RunRecorded(db, runId, user, source, info, cause, ascended).mutations == db.mutations
  {
  }

  /** A commit logs its own request and forgets others exactly when it loads their session. */
  lemma LogAfterCommit(db: Db, d: Mutation)
    requires DbInvariant(db) && Fair(db, Commits(d)) && Commit(db, d).1.Committed?
    ensures
      var next := Commit(db, d).0;
      && (forall k :: k in next.mutations && k != (d.session, d.request) ==>
            k in db.mutations && next.mutations[k] == db.mutations[k] && (k.0 != d.session || !Forgets(d)))
      && (forall k :: k in db.mutations && (k.0 != d.session || !Forgets(d)) ==>
            k in next.mutations && next.mutations[k] == db.mutations[k])
  {
    hide TablesOk, Statement;
    SwapKeepsTables(db, d);
    var tx := Swapped(db, d);
    if d.user.None? {
      GuestsWriteNothing(tx, d);
    } else {
      hide Written, Opened, Closed;
      WrittenInTwo(tx, d);
      OpenedLaw(tx, d);
      OpenedLog(tx, d);
      var mid := Opened(tx, d).value;
      StatementIsOk(tx, mid, d.session, d.user.value);
      StatementKeepsOwner(tx, mid, d.session, d.user.value);
      StatementFacts(tx, mid, d.session, d.user.value);
      ClosedLaw(mid, d);
    }
  }

  lemma EnsuredLog(db: Db, session: string, user: string, info: RunInfo)
    requires Ensured(db, session, user, info).Ok?
    ensures Ensured(db, session, user, info).value.mutations == db.mutations
  {
  }

  lemma RewoundLog(db: Db, session: string, user: string, info: RunInfo)
    requires Rewound(db, session, user, info).Ok?
    ensures forall k :: k in db.mutations && k.0 != session ==>
      k in Rewound(db, session, user, info).value.mutations
      && Rewound(db, session, user, info).value.mutations[k] == db.mutations[k]
  {
  }

  lemma OpenedLog(db: Db, c: Mutation)
    requires c.user.Some? && Opened(db, c).Ok?
    ensures forall k :: k in db.mutations && (k.0 != c.session || c.rewind.None?) ==>
      k in Opened(db, c).value.mutations && Opened(db, c).value.mutations[k] == db.mutations[k]
  {
    hide Ensured, Rewound;
    var begun := db;
    if c.startRun.Some? {
      begun := Ensured(db, c.session, c.user.value, c.startRun.value).value;
      EnsuredLog(db, c.session, c.user.value, c.startRun.value);
    }
    if c.rewind.Some? {
      RewoundLog(begun, c.session, c.user.value, c.rewind.value);
    }
  }

  ghost predicate KeepIds(steps: seq<DbStep>, session: string, request: string, expected: nat) {
    forall step :: step in steps ==> KeepsId(step, session, request, expected)
  }

  lemma {:induction false} SpokenForever(
    db: Db, steps: seq<DbStep>, session: string, request: string, expected: nat, answer: Response)
    requires DbInvariant(db) && AllFair(db, steps) && Spoken(db, session, request, expected, Some(answer))
    ensures
      var standing := Standing(db, steps, session, request, Some(answer));
      && Spoken(After(db, steps), session, request, expected, standing)
      && (!Cleared(db, steps, session, request) ==> standing == Some(answer))
      && (Cleared(db, steps, session, request) && KeepIds(steps, session, request, expected) ==> standing == None)
  {
    hide DbInvariant, Take, Fair, Spoken, Clears, Heard, KeepsId;
    if steps != [] {
      var earlier, last := steps[..|steps| - 1], steps[|steps| - 1];
      assert last in steps;
      assert forall step :: step in earlier ==> step in steps;
      SpokenForever(db, earlier, session, request, expected, answer);
      AfterLaw(db, earlier);
      SpokenStands(After(db, earlier), last, session, request, expected,
                   Standing(db, earlier, session, request, Some(answer)));
    }
  }

  /**
   A committed request that is sent again at any later time changes nothing, whatever
   the sender computed for it and whatever was committed in between, by rivals with the
   same id too. It gets the answer that stands in the log, or a version conflict. Until
   another request commits a load of the session that is the original answer; after
   such a load it is a conflict, unless the id has been reused at a later version.
   */
  lemma ResendIsHarmless(db: Db, c: Mutation, steps: seq<DbStep>, again: Mutation)
    requires DbInvariant(db) && Fair(db, Commits(c)) && Commit(db, c).1.Committed?
    requires AllFair(Commit(db, c).0, steps)
    requires again.session == c.session && again.request == c.request && again.expected <= c.expected
    ensures
      var (next, o) := Commit(db, c);
      var later := After(next, steps);
      var standing := Standing(next, steps, c.session, c.request, Some(o.response));
      var cleared := Cleared(next, steps, c.session, c.request);
      && Commit(later, again) == (later, if standing.Some? then Replayed(standing.value) else VersionConflict)
      && (!cleared ==> standing == Some(o.response))
      && (cleared && KeepIds(steps, c.session, c.request, c.expected) ==> standing == None)
  {
    hide DbInvariant, Take, Fair, After, AllFair, Written, Cleared, KeepIds, Standing;
    OnlyCommitsChange(db, c);
    CommitLaw(db, c);
    CommittedVersion(db, c);
    var (next, o) := Commit(db, c);
    assert Spoken(next, c.session, c.request, c.expected, Some(o.response));
    SpokenForever(next, steps, c.session, c.request, c.expected, o.response);
    OnlyCommitsChange(After(next, steps), again);
  }

  lemma CommittedVersion(db: Db, c: Mutation)
    requires DbInvariant(db) && Fair(db, Commits(c)) && Commit(db, c).1.Committed?
    ensures
      var next := Commit(db, c).0;
      c.session in next.sessions && next.sessions[c.session] == SessionRow(c.user, c.snapshot, c.expected + 1)
      && forall s :: s != c.session ==> (s in next.sessions <==> s in db.sessions)
                                        && (s in db.sessions ==> next.sessions[s] == db.sessions[s])
  {
    hide TablesOk, Written, Statement;
    SwapKeepsTables(db, c);
    var tx := Swapped(db, c);
    if c.user.None? {
      GuestsWriteNothing(tx, c);
    } else {
      WrittenLaw(tx, c);
      StatementFacts(tx, Written(tx, c).value, c.session, c.user.value);
    }
  }
}
