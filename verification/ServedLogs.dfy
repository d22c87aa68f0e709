/**
 The turn log under interleaved processes: along every schedule whose adoptions are
 faithful, and so along every schedule of one process, no landing finds its turn
 number taken and the log stays bounded by the stored snapshot.
 */
module ServedLogs {
  import opened GameConstants
  import opened GameSession
  import opened SaveLoad
  import opened SessionStore
  import opened StoreLaws
  import opened Operations
  import opened TurnLog
  import opened Protocol

  /** Other sessions' steps leave this session's run and turns alone and keep the tables' laws. */
  ghost predicate LeavesRun(session: string, db: Db, next: Db) {
    && DbInvariant(next)
    && (forall n :: (session, n) in next.turns <==> (session, n) in db.turns)
    && (session in next.runs <==> session in db.runs)
    && (session in db.runs ==> next.runs[session] == db.runs[session])
  }

  /** A start that lands is from a profile and over nothing played. */
  ghost predicate FairMove(site: Site, s: System, m: Protocol.Move) {
    match m
    case Land(p) =>
      p < |s.processes| && s.processes[p].work.Some? ==>
        ProfileStart(s.processes[p].work.value.op) && CleanStart(s.db, site.session, s.processes[p].work.value.op)
    case Elsewhere(db) => LeavesRun(site.session, s.db, db)
    case _ => true
  }

  ghost predicate Served(site: Site, s: System) {
    SystemOk(site, s) && site.user.Some? && DbInvariant(s.db) && LogSound(s.db, site.session)
  }

  /** A landing found its turn number taken. */
  ghost predicate LandsOnTakenTurn(site: Site, s: System, m: Protocol.Move) {
    m.Land? && m.p < |s.processes| && s.processes[m.p].work.Some?
    && WorkOutcome(site, s.db, s.processes[m.p].work.value).1 == Failed(TurnTaken)
  }

  /** At its own version a work in flight is an operation asked of a coherent runner. */
  lemma WorkIsAsked(site: Site, s: System, k: Work, c: Mutation)
    requires HistoryOk(site, s) && WorkOk(site, s, k) && k.computed && site.user.Some?
    requires k.before.version == Row(site, s.db).version
    requires c == MutationFor(site.rules, site.session, site.user, k.before.state, k.mine.state, k.before.version,
                              k.request, k.op)
    ensures Asked(site.rules, s.db, k.seen, site.session, site.user.value, k.before.state, k.request, k.op, c)
  {
    hide Ready, SessionsAlike, OneOperation, Accepts, Perform, MutationFor, MutationsAreOld, SaveableStart;
  }

  lemma OutcomeKeepsLog(site: Site, s: System, k: Work)
    requires HistoryOk(site, s) && WorkOk(site, s, k) && k.computed && site.user.Some?
    requires DbInvariant(s.db) && LogSound(s.db, site.session)
    requires ProfileStart(k.op) && CleanStart(s.db, site.session, k.op)
    ensures
      var (db, o) := WorkOutcome(site, s.db, k);
      o != Failed(TurnTaken) && DbInvariant(db) && LogSound(db, site.session)
  {
    hide HistoryOk, WorkOk, DbInvariant, LogSound, CleanStart, MutationFor, Written;
    var c := MutationFor(site.rules, site.session, site.user, k.before.state, k.mine.state, k.before.version,
                         k.request, k.op);
    MutationOfWork(site, k);
    HistoryHasRow(site, s);
    OnlyCommitsChange(s.db, c);
    if k.before.version == Row(site, s.db).version {
      WorkIsAsked(site, s, k, c);
      RequestKeepsLogSound(site.rules, s.db, k.seen, site.session, site.user.value, k.before.state, k.request, k.op, c);
      if Commit(s.db, c).1.Committed? {
        CommitLaw(s.db, c);
      }
    }
  }

  lemma ElsewhereKeepsLog(site: Site, db: Db, next: Db)
    requires LeavesSession(site, db, next) && LeavesRun(site.session, db, next) && LogSound(db, site.session)
    ensures DbInvariant(next) && LogSound(next, site.session)
  {
    hide DbInvariant, MutationsAreOld, Ready;
  }

  /** The tables after a move. */
  lemma NextTables(site: Site, s: System, m: Protocol.Move)
    requires site.session in s.db.sessions && Enabled(site, s, m)
    ensures Next(site, s, m).db ==
      match m
      case Land(p) => WorkOutcome(site, s.db, s.processes[p].work.value).0
      case Elsewhere(db) => db
      case _ => s.db
  {
    hide WorkOutcome, Perform, Accepts, ChoiceMissing, Stored, LeavesSession, SaveableStart;
    if m.Land? {
      WorkOutcomeKinds(site, s, s.processes[m.p].work.value);
    }
  }

  lemma MoveKeepsLog(site: Site, s: System, m: Protocol.Move)
    requires Served(site, s) && Enabled(site, s, m) && Faithful(site, s, m) && FairMove(site, s, m)
    ensures Served(site, Next(site, s, m)) && !LandsOnTakenTurn(site, s, m)
  {
    hide Next, Faithful, WorkOk, WorkOutcome, HistoryOk, DbInvariant, LogSound, CleanStart, LeavesSession, LeavesRun;
    SystemHasRow(site, s);
    MoveKeepsSystem(site, s, m);
    NextTables(site, s, m);
    match m
    case Land(p) =>
      assert ProcessOk(site, s, s.processes[p]);
      OutcomeKeepsLog(site, s, s.processes[p].work.value);
    case Elsewhere(db) => ElsewhereKeepsLog(site, s.db, db);
    case _ =>
  }

  ghost predicate AllFairMoves(site: Site, s: System, ms: seq<Protocol.Move>) {
    ms == [] ||
    (AllFairMoves(site, s, ms[..|ms| - 1])
     && match Scheduled(site, s, ms[..|ms| - 1])
        case Some(t) => FairMove(site, t, ms[|ms| - 1])
        case None => true)
  }

  ghost predicate NeverOnTakenTurn(site: Site, s: System, ms: seq<Protocol.Move>) {
    ms == [] ||
    (NeverOnTakenTurn(site, s, ms[..|ms| - 1])
     && match Scheduled(site, s, ms[..|ms| - 1])
        case Some(t) => !LandsOnTakenTurn(site, t, ms[|ms| - 1])
        case None => true)
  }

  /** Along every schedule with faithful adoptions the log stays sound and no turn number is found taken. */
  lemma {:induction false} SchedulesKeepLog(site: Site, s: System, ms: seq<Protocol.Move>)
    requires Served(site, s) && Scheduled(site, s, ms).Some?
    requires AdoptsFaithfully(site, s, ms) && AllFairMoves(site, s, ms)
    ensures Served(site, Scheduled(site, s, ms).value) && NeverOnTakenTurn(site, s, ms)
  {
    hide Served, Next, Enabled, Faithful, FairMove, LandsOnTakenTurn;
    if ms != [] {
      SchedulesKeepLog(site, s, ms[..|ms| - 1]);
      MoveKeepsLog(site, Scheduled(site, s, ms[..|ms| - 1]).value, ms[|ms| - 1]);
    }
  }

  /** One process never adopts, so its schedules need no such condition. */
  lemma OneProcessKeepsLog(site: Site, s: System, ms: seq<Protocol.Move>)
    requires Served(site, s) && Solo(site, s) && Scheduled(site, s, ms).Some? && AllFairMoves(site, s, ms)
    ensures Served(site, Scheduled(site, s, ms).value) && NeverOnTakenTurn(site, s, ms)
  {
    hide Served, Solo, Scheduled, AdoptsFaithfully, AllFairMoves, NeverOnTakenTurn;
    OneProcessNeverAdopts(site, s, ms);
    SchedulesKeepLog(site, s, ms);
  }
}
