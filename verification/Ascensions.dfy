/**
 The account's ascension counter over any sequence of requests on any sessions: it is
 the number of the user's runs that really ended in Ascension.
 */
module Ascensions {
  import opened GameConstants
  import opened GameSession
  import opened SaveLoad
  import opened SessionStore
  import opened StoreLaws
  import opened Operations
  import opened TurnLog
  import opened Endings
  import opened ServedRequests

  /** Stored sessions and saves end honestly. */
  ghost predicate SessionsHonest(db: Db) {
    && (forall s :: s in db.sessions ==> Honest(db.sessions[s].snapshot))
    && (forall k :: k in db.saves ==> Honest(db.saves[k]))
  }

  /** A completed run is marked ascended exactly when it ended in Ascension by ascending. */
  predicate RunHonest(run: RunRow) { run.ascended <==> run.cause == Ascended && run.realm == ASCENSION }

  ghost predicate RunsHonest(db: Db) {
    forall k :: k in db.runs && db.runs[k].completed ==> RunHonest(db.runs[k])
  }

  ghost predicate AllHonest(db: Db) { DbInvariant(db) && SessionsHonest(db) && RunsHonest(db) }

  /** New sessions have not ended, starts neither. */
  predicate HonestCall(call: Call) {
    match call
    case NewSession(_, _, snapshot) => Honest(snapshot)
    case Requests(_, _, _, op) => FreshStart(op)
  }

  // ---- One transaction -----------------------------------------------------

  predicate HonestTerminal(t: Terminal) { t.ascended <==> t.cause == Ascended && t.info.realm == ASCENSION }

  lemma EnsuredRuns(db: Db, session: string, user: string, info: RunInfo)
    requires RunsHonest(db) && Ensured(db, session, user, info).Ok?
    ensures RunsHonest(Ensured(db, session, user, info).value)
  {
    hide SessionHasRun;
  }

  lemma OpenedRuns(tx: Db, c: Mutation)
    requires c.user.Some? && RunsHonest(tx) && StoreLaws.Opened(tx, c).Ok?
    ensures RunsHonest(StoreLaws.Opened(tx, c).value)
  {
    hide Ensured, TurnsUpTo, WithoutMutations;
    var begun := tx;
    if c.startRun.Some? {
      EnsuredRuns(tx, c.session, c.user.value, c.startRun.value);
      begun := Ensured(tx, c.session, c.user.value, c.startRun.value).value;
    }
    if c.rewind.Some? && Ensured(begun, c.session, c.user.value, c.rewind.value).Ok? {
      EnsuredRuns(begun, c.session, c.user.value, c.rewind.value);
    }
  }

  lemma FinalizedRuns(db: Db, session: string, user: string, t: Terminal)
    requires RunsHonest(db) && HonestTerminal(t) && Finalized(db, session, user, t).Ok?
    ensures RunsHonest(Finalized(db, session, user, t).value)
  {
    hide Ensured, Keys, SessionStore.Granted, Progressed;
    EnsuredRuns(db, session, user, t.info);
  }

  lemma LoggedRuns(db: Db, run: string, turn: TurnRow)
    requires RunsHonest(db) && SessionStore.Logged(db, run, turn).Ok?
    ensures RunsHonest(SessionStore.Logged(db, run, turn).value)
  {
    hide RequestLogged;
  }

  lemma ClosedRuns(tx: Db, c: Mutation)
    requires c.user.Some? && RunsHonest(tx) && Closed(tx, c).Ok?
    requires c.terminal.Some? ==> HonestTerminal(c.terminal.value)
    ensures RunsHonest(Closed(tx, c).value)
  {
    hide SessionStore.Logged, Finalized, HonestTerminal;
    var logged := tx;
    if c.turn.Some? {
      LoggedRuns(tx, c.session, c.turn.value);
      logged := SessionStore.Logged(tx, c.session, c.turn.value).value;
    }
    var spent := if c.consume then Consumed(logged, c.user.value) else logged;
    if c.terminal.Some? {
      FinalizedRuns(spent, c.session, c.user.value, c.terminal.value);
    }
  }

  lemma WrittenRuns(tx: Db, c: Mutation)
    requires RunsHonest(tx) && Written(tx, c).Ok?
    requires c.terminal.Some? ==> HonestTerminal(c.terminal.value)
    ensures RunsHonest(Written(tx, c).value)
  {
    hide StoreLaws.Opened, Closed, Written, RunsHonest, HonestTerminal;
    if c.user.None? {
      GuestsWriteNothing(tx, c);
    } else {
      WrittenInTwo(tx, c);
      OpenedRuns(tx, c);
      ClosedRuns(StoreLaws.Opened(tx, c).value, c);
    }
  }

  lemma TerminalIsHonest(rules: Rules, s: Session)
    requires Honest(s)
    ensures TerminalOf(rules, s).Some? ==> HonestTerminal(TerminalOf(rules, s).value)
  {
  }

  lemma AskedTerminal(rules: Rules, db: Db, call: Call)
    requires Plausible(db, call) && call.Requests?
    ensures
      var user := db.sessions[call.session].user;
      var after := Perform(rules, db, user, call.runner, call.op);
      var c := AskedMutation(rules, db, call);
      c.snapshot == Stored(rules, after) && (c.terminal.Some? ==> c.terminal == TerminalOf(rules, after))
  {
    hide Stored, Perform, TerminalOf, TurnPayload, SessionsAlike, Accepts;
  }

  // ---- One call ------------------------------------------------------------

  lemma CommitIsHonest(db: Db, c: Mutation)
    requires AllHonest(db) && Fair(db, Commits(c)) && Honest(c.snapshot)
    requires c.terminal.Some? ==> HonestTerminal(c.terminal.value)
    ensures SessionsHonest(Commit(db, c).0) && RunsHonest(Commit(db, c).0)
  {
    hide Honest, HonestTerminal, Written, DbInvariant;
    if Commit(db, c).1.Committed? {
      CommittedVersion(db, c);
      SavesChangeOnlyBySlot(Swapped(db, c), c);
      assert RunsHonest(Swapped(db, c));
      WrittenRuns(Swapped(db, c), c);
    }
  }

  lemma CallIsHonest(rules: Rules, db: Db, call: Call)
    requires AllHonest(db) && Plausible(db, call) && HonestCall(call)
    ensures AllHonest(Called(rules, db, call))
  {
    hide DbInvariant, Honest, Commit, MutationFor, Perform, Stored, SessionsAlike, Accepts, TerminalOf, HonestTerminal;
    CallKeepsInvariant(rules, db, call);
    if call.Requests? {
      var user := db.sessions[call.session].user;
      AlikeHonestly(db.sessions[call.session].snapshot, call.runner);
      PerformEndsHonestly(rules, db, user, call.runner, call.op);
      var after := Perform(rules, db, user, call.runner, call.op);
      StoredHonestly(rules, after);
      TerminalIsHonest(rules, after);
      AskedTerminal(rules, db, call);
      AskedOwner(rules, db, call);
      CommitIsHonest(db, AskedMutation(rules, db, call));
    }
  }

  lemma {:induction false} CallsAreHonest(rules: Rules, calls: seq<Call>)
    requires CalledAll(rules, EMPTY_DB, calls).Some? && forall call :: call in calls ==> HonestCall(call)
    ensures AllHonest(CalledAll(rules, EMPTY_DB, calls).value)
  {
    hide AllHonest, Called, Plausible, HonestCall;
    if calls == [] {
      assert AllHonest(EMPTY_DB) by { NothingIsHonest(); }
    } else {
      var earlier, last := calls[..|calls| - 1], calls[|calls| - 1];
      assert last in calls;
      assert forall call :: call in earlier ==> call in calls;
      CallsAreHonest(rules, earlier);
      CallIsHonest(rules, CalledAll(rules, EMPTY_DB, earlier).value, last);
    }
  }

  lemma NothingIsHonest()
    ensures AllHonest(EMPTY_DB)
  {
    EmptyLaw();
  }

  /** The user's runs that ended in Ascension by ascending. */
  function RealAscensions(runs: map<string, RunRow>, user: string): set<string> {
    set k | k in runs && runs[k].completed && runs[k].user == user
            && runs[k].cause == Ascended && runs[k].realm == ASCENSION
  }

  /**
   After any sequence of starts, turns, saves, loads and ends on any sessions, every
   stored session and save ends honestly, and a user's ascension counter is the number
   of that user's runs that ended in Ascension by ascending.
   */
  lemma AscensionsAreReal(rules: Rules, calls: seq<Call>, user: string)
    requires CalledAll(rules, EMPTY_DB, calls).Some? && forall call :: call in calls ==> HonestCall(call)
    ensures
      var db := CalledAll(rules, EMPTY_DB, calls).value;
      SessionsHonest(db) && ProgressOf(db, user).ascensions == |RealAscensions(db.runs, user)|
  {
    hide CalledAll, HonestCall, SessionsHonest;
    CallsAreHonest(rules, calls);
    var db := CalledAll(rules, EMPTY_DB, calls).value;
    assert AscendedRuns(db.runs, user) == RealAscensions(db.runs, user);
    assert ProgressOf(db, user) == Progress(|CompletedRuns(db.runs, user)|, |AscendedRuns(db.runs, user)|);
  }
}
