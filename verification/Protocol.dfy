/**
 Many server processes over one session row. Each process caches a runner, serves
 one request at a time under its own lock, and may be evicted, aborted, read
 without the lock or overtaken by another process at any point. `history` records
 what every version of the row held.
 */
module Protocol {
  import opened GameConstants
  import opened GameSession
  import opened GameWorld
  import opened Realm
  import opened Engine
  import opened SaveLoad
  import opened SessionStore
  import opened StoreLaws
  import opened Operations

  /** A request in flight: the runner it works on, and the one it started from. */
  datatype Work = Work(op: Operation, request: string, seen: Db, mine: Runner, before: Runner,
                       attached: bool, computed: bool)

  /** An attached work is mutating the cached object itself. */
  datatype Process = Process(cache: Option<Runner>, work: Option<Work>)

  /** An operation and the database it read while computing. */
  datatype Applied = Applied(op: Operation, seen: Db)

  datatype System = System(db: Db, processes: seq<Process>, history: seq<Session>, applied: seq<Applied>)

  datatype Move =
    | Acquire(p: nat, request: string, expected: nat, op: Operation)
    | Compute(p: nat)
    | Land(p: nat)
    | Abort(p: nat)
    | Evict(p: nat)
    | Read(p: nat)
    | Elsewhere(db: Db)

  /** The session every process serves here. */
  datatype Site = Site(rules: Rules, session: string, user: Option<string>)

  function Row(site: Site, db: Db): SessionRow
    requires site.session in db.sessions
  {
    db.sessions[site.session]
  }

  function ColdLoad(site: Site, db: Db): Runner
    requires site.session in db.sessions
  {
    Runner(Row(site, db).snapshot, Row(site, db).version)
  }

  predicate Logged(site: Site, db: Db, request: string) { (site.session, request) in db.mutations }

  function With(s: System, p: nat, proc: Process): System
    requires p < |s.processes|
  {
    s.(processes := s.processes[p := proc])
  }

  /** Steps of other sessions: this session's row and request log stay. */
  ghost predicate LeavesSession(site: Site, db: Db, next: Db) {
    && site.session in db.sessions && site.session in next.sessions
    && next.sessions[site.session] == db.sessions[site.session]
    && (forall request :: (site.session, request) in next.mutations <==> (site.session, request) in db.mutations)
    && (forall request :: (site.session, request) in db.mutations ==>
          next.mutations[(site.session, request)] == db.mutations[(site.session, request)])
    && (forall k :: k in next.saves ==> Ready(next.saves[k]))
    && MutationsAreOld(next)
  }

  /** A start from a saveable profile. */
  ghost predicate SaveableStart(op: Operation) { op.Begin? ==> Saveable(op.core) }

  ghost predicate Enabled(site: Site, s: System, m: Move) {
    match m
    case Acquire(p, _, _, op) => p < |s.processes| && s.processes[p].work.None? && SaveableStart(op)
    case Compute(p) =>
      && p < |s.processes| && s.processes[p].work.Some? && !s.processes[p].work.value.computed
      && Accepts(s.db, site.user, s.processes[p].work.value.before.state, s.processes[p].work.value.op)
    case Land(p) => p < |s.processes| && s.processes[p].work.Some? && s.processes[p].work.value.computed
    case Abort(p) => p < |s.processes| && s.processes[p].work.Some?
    case Evict(p) => p < |s.processes|
    case Read(p) => p < |s.processes|
    case Elsewhere(db) => LeavesSession(site, s.db, db)
  }

  /** A failed request registers what it rolled back to; a failed load leaves the cache alone. */
  function Undone(site: Site, proc: Process): Process
    requires proc.work.Some?
  {
    var k := proc.work.value;
    Process(if k.op.Restore? then proc.cache else Some(RolledBack(site.rules, k.before)), None)
  }

  /** A success shows through the object it mutated; a load registers its fresh runner. */
  function Landed(proc: Process, version: nat): Process
    requires proc.work.Some?
  {
    var k := proc.work.value;
    Process(if k.attached || k.op.Restore? then Some(Runner(k.mine.state, version)) else proc.cache, None)
  }

  ghost function WorkOutcome(site: Site, db: Db, k: Work): (Db, Outcome) {
    Commit(db, MutationFor(site.rules, site.session, site.user, k.before.state, k.mine.state, k.before.version,
                           k.request, k.op))
  }

  ghost function Next(site: Site, s: System, m: Move): System
    requires site.session in s.db.sessions && Enabled(site, s, m)
  {
    match m
    case Acquire(p, request, expected, op) =>
      var r := if s.processes[p].cache.Some? then s.processes[p].cache.value else ColdLoad(site, s.db);
      var refused := ChoiceMissing(r.state, op) || Logged(site, s.db, request) || expected != r.version;
      With(s, p, Process(Some(r), if refused then None
                                  else Some(Work(op, request, s.db, r, r, !op.Restore?, false))))
    case Compute(p) =>
      var proc := s.processes[p];
      var k := proc.work.value;
      var state := Perform(site.rules, s.db, site.user, k.before.state, k.op);
      With(s, p, proc.(work := Some(k.(mine := k.mine.(state := state), computed := true, seen := s.db))))
    case Land(p) =>
      var proc := s.processes[p];
      var k := proc.work.value;
      (match WorkOutcome(site, s.db, k)
       case (db, Committed(response)) =>
         With(s, p, Landed(proc, response.version))
           .(db := db, history := s.history + [Stored(site.rules, k.mine.state)],
             applied := s.applied + [Applied(k.op, k.seen)])
       case (db, Replayed(response)) => With(s, p, Landed(proc, response.version))
       case (db, _) => With(s, p, Undone(site, proc)))
    case Abort(p) => With(s, p, Undone(site, s.processes[p]))
    case Evict(p) =>
      var proc := s.processes[p];
      With(s, p, Process(None, if proc.work.Some? then Some(proc.work.value.(attached := false)) else None))
    case Read(p) =>
      var proc := s.processes[p];
      With(s, p, if proc.cache.None? then proc.(cache := Some(ColdLoad(site, s.db))) else proc)
    case Elsewhere(db) => s.(db := db)
  }

  // ---- Coherence -----------------------------------------------------------

  /** A runner of version v holds exactly what version v of the row held. */
  ghost predicate Coherent(s: System, r: Runner) {
    r.version < |s.history| && SessionsAlike(s.history[r.version], r.state) && Ready(r.state)
  }

  ghost predicate WorkOk(site: Site, s: System, k: Work) {
    && Coherent(s, k.before) && k.mine.version == k.before.version && SaveableStart(k.op)
    && (k.computed ==>
          && Accepts(k.seen, site.user, k.before.state, k.op)
          && k.mine.state == Perform(site.rules, k.seen, site.user, k.before.state, k.op)
          && Ready(k.mine.state))
  }

  ghost predicate ProcessOk(site: Site, s: System, proc: Process) {
    && (proc.work.Some? ==> WorkOk(site, s, proc.work.value))
    && (proc.work.Some? && proc.work.value.attached ==> !proc.work.value.op.Restore?)
    && (proc.cache.Some? && !(proc.work.Some? && proc.work.value.attached) ==> Coherent(s, proc.cache.value))
  }

  /** Version v+1 is one operation applied to what version v held. */
  ghost predicate OneOperation(site: Site, held: Session, a: Applied, next: Session) {
    Accepts(a.seen, site.user, held, a.op)
    && SessionsAlike(Perform(site.rules, a.seen, site.user, held, a.op), next)
  }

  ghost predicate HistoryOk(site: Site, s: System) {
    && site.session in s.db.sessions && Row(site, s.db).user == site.user
    && |s.history| == Row(site, s.db).version + 1 && |s.applied| == |s.history| - 1
    && s.history[|s.history| - 1] == Row(site, s.db).snapshot
    && (forall v :: 0 <= v < |s.history| ==> Ready(s.history[v]))
    && (forall v :: 0 <= v < |s.applied| ==> OneOperation(site, s.history[v], s.applied[v], s.history[v + 1]))
    && (forall k :: k in s.db.saves ==> Ready(s.db.saves[k]))
    && MutationsAreOld(s.db)
  }

  ghost predicate SystemOk(site: Site, s: System) {
    HistoryOk(site, s) && forall proc :: proc in s.processes ==> ProcessOk(site, s, proc)
  }

  /** The commit finds its own request already logged and adopts the stored version. */
  ghost predicate Adopts(site: Site, s: System, m: Move) {
    m.Land? && m.p < |s.processes| && s.processes[m.p].work.Some?
    && Logged(site, s.db, s.processes[m.p].work.value.request)
  }

  /** The version under which the log holds a request. */
  function StoredVersion(site: Site, db: Db, request: string): nat
    requires Logged(site, db, request)
  {
    db.mutations[(site.session, request)].response.version
  }

  /** The same operation with the same answer; a load also has to have read the same save. */
  predicate SameOperation(site: Site, a: Applied, k: Work) {
    && a.op == k.op
    && (k.op.Restore? ==>
          && site.user.Some? && (site.user.value, k.op.slot) in a.seen.saves
          && (site.user.value, k.op.slot) in k.seen.saves
          && a.seen.saves[(site.user.value, k.op.slot)] == k.seen.saves[(site.user.value, k.op.slot)])
  }

  /** The logged request did the same work on the version this one started from. */
  ghost predicate SameWork(site: Site, s: System, k: Work) {
    && Logged(site, s.db, k.request)
    && StoredVersion(site, s.db, k.request) == k.before.version + 1
    && k.before.version < |s.applied| && SameOperation(site, s.applied[k.before.version], k)
  }

  /** An adoption is faithful when its runner is dropped anyway, or when both did the same work. */
  ghost predicate Faithful(site: Site, s: System, m: Move) {
    Adopts(site, s, m) ==>
      var k := s.processes[m.p].work.value;
      k.attached || k.op.Restore? ==> SameWork(site, s, k)
  }

  // ---- Operations respect likeness -----------------------------------------

  lemma AcceptsAlike(db: Db, user: Option<string>, s: Session, t: Session, op: Operation)
    requires SessionsAlike(s, t)
    ensures Accepts(db, user, s, op) == Accepts(db, user, t, op)
    ensures ChoiceMissing(s, op) == ChoiceMissing(t, op)
  {
  }

  lemma PerformAlike(rules: Rules, db: Db, user: Option<string>, s: Session, t: Session, op: Operation)
    requires SessionsAlike(s, t) && Accepts(db, user, s, op) && Accepts(db, user, t, op)
    ensures SessionsAlike(Perform(rules, db, user, s, op), Perform(rules, db, user, t, op))
  {
    hide Step, Begun, Tail;
    match op
    case Advance(e) => StepKeepsAlike(rules.w, s, t, e);
    case _ =>
  }

  lemma PerformIsReady(rules: Rules, db: Db, user: Option<string>, s: Session, op: Operation)
    requires Ready(s) && Accepts(db, user, s, op) && SaveableStart(op)
    requires forall k :: k in db.saves ==> Ready(db.saves[k])
    ensures Ready(Perform(rules, db, user, s, op))
  {
    hide Step, Begun, Trim, NoRepeats, InScale, CleanTexts;
    match op
    case Begin(core, opening, _) => BegunIsReady(rules.w, core, opening);
    case Advance(e) => StepKeepsReady(rules.w, s, e);
    case _ =>
  }

  lemma StoredIsAlike(rules: Rules, s: Session)
    requires Ready(s)
    ensures SessionsAlike(s, Stored(rules, s)) && Ready(Stored(rules, s))
  {
    hide Trim, NoRepeats, InScale, CleanTexts, ToSaveDict, FromSaveDict, Tail;
    LoadUndoesSave(rules.hash, s);
  }

  lemma AlikeBack(s: Session, t: Session)
    requires SessionsAlike(s, t)
    ensures SessionsAlike(t, s)
  {
  }

  // ---- Each move -----------------------------------------------------------

  /** Only the touched process has to be looked at when history is untouched. */
  lemma OneProcessMoves(site: Site, s: System, p: nat, proc: Process)
    requires SystemOk(site, s) && p < |s.processes| && ProcessOk(site, s, proc)
    ensures SystemOk(site, With(s, p, proc))
  {
    hide Ready, SessionsAlike, OneOperation, Accepts, Perform;
    var t := With(s, p, proc);
    forall q | q in t.processes ensures ProcessOk(site, t, q) {
      assert ProcessOk(site, s, q);
    }
  }

  lemma ColdLoadIsCoherent(site: Site, s: System)
    requires HistoryOk(site, s)
    ensures Coherent(s, ColdLoad(site, s.db))
  {
    hide Ready, OneOperation, Tail;
    SameIsAlike(Row(site, s.db).snapshot);
  }

  lemma RollbackIsCoherent(site: Site, s: System, r: Runner)
    requires Coherent(s, r)
    ensures Coherent(s, RolledBack(site.rules, r))
  {
    hide Ready, SessionsAlike, Stored;
    StoredIsAlike(site.rules, r.state);
    AlikeThrough(s.history[r.version], r.state, Stored(site.rules, r.state));
  }

  lemma UndoneIsOk(site: Site, s: System, proc: Process)
    requires ProcessOk(site, s, proc) && proc.work.Some?
    ensures ProcessOk(site, s, Undone(site, proc))
  {
    hide Coherent, Accepts, Perform, Ready;
    RollbackIsCoherent(site, s, proc.work.value.before);
  }

  lemma ComputedIsOk(site: Site, s: System, p: nat)
    requires SystemOk(site, s) && Enabled(site, s, Compute(p))
    ensures SystemOk(site, Next(site, s, Compute(p)))
  {
    hide Ready, SessionsAlike, OneOperation, Accepts, Perform, SaveableStart;
    var proc := s.processes[p];
    assert ProcessOk(site, s, proc);
    var k := proc.work.value;
    PerformIsReady(site.rules, s.db, site.user, k.before.state, k.op);
    var state := Perform(site.rules, s.db, site.user, k.before.state, k.op);
    var done := k.(mine := k.mine.(state := state), computed := true, seen := s.db);
    OneProcessMoves(site, s, p, proc.(work := Some(done)));
  }

  lemma AcquiredIsOk(site: Site, s: System, p: nat, request: string, expected: nat, op: Operation)
    requires SystemOk(site, s) && Enabled(site, s, Acquire(p, request, expected, op))
    ensures SystemOk(site, Next(site, s, Acquire(p, request, expected, op)))
  {
    hide Coherent, Accepts, Perform, HistoryOk, ChoiceMissing, SaveableStart;
    var proc := s.processes[p];
    assert ProcessOk(site, s, proc);
    HistoryHasRow(site, s);
    ColdLoadIsCoherent(site, s);
    var next := Next(site, s, Acquire(p, request, expected, op));
    OneProcessMoves(site, s, p, next.processes[p]);
  }

  lemma HistoryHasRow(site: Site, s: System)
    requires HistoryOk(site, s)
    ensures site.session in s.db.sessions && Row(site, s.db).user == site.user
    ensures |s.history| == Row(site, s.db).version + 1 && MutationsAreOld(s.db)
  {
    hide Ready, OneOperation, MutationsAreOld;
  }

  lemma EvictedIsOk(site: Site, s: System, p: nat)
    requires SystemOk(site, s) && p < |s.processes|
    ensures SystemOk(site, Next(site, s, Evict(p))) && SystemOk(site, Next(site, s, Read(p)))
  {
    hide Coherent, Accepts, Perform, HistoryOk, Ready, SaveableStart;
    var proc := s.processes[p];
    assert ProcessOk(site, s, proc);
    HistoryHasRow(site, s);
    ColdLoadIsCoherent(site, s);
    OneProcessMoves(site, s, p, Next(site, s, Evict(p)).processes[p]);
    OneProcessMoves(site, s, p, Next(site, s, Read(p)).processes[p]);
  }

  lemma ElsewhereIsOk(site: Site, s: System, db: Db)
    requires SystemOk(site, s) && LeavesSession(site, s.db, db)
    ensures SystemOk(site, s.(db := db))
  {
    hide Ready, SessionsAlike, OneOperation, Accepts, Perform, SaveableStart;
    var t := s.(db := db);
    forall q | q in t.processes ensures ProcessOk(site, t, q) {
      assert ProcessOk(site, s, q);
    }
  }

  // ---- Landing -------------------------------------------------------------

  /** What a fresh commit writes of this session and of the saves. */
  lemma LandingRow(site: Site, s: System, k: Work)
    requires HistoryOk(site, s) && WorkOk(site, s, k) && k.computed && WorkOutcome(site, s.db, k).1.Committed?
    ensures
      var (db, o) := WorkOutcome(site, s.db, k);
      && site.session in db.sessions
      && k.before.version == Row(site, s.db).version
      && Row(site, db) == SessionRow(site.user, Stored(site.rules, k.mine.state), k.before.version + 1)
      && o.response.version == k.before.version + 1
      && (forall x :: x in db.saves ==> Ready(db.saves[x]))
      && MutationsAreOld(db)
  {
    hide Ready, SessionsAlike, OneOperation, Accepts, Perform, Stored, SaveableStart, TurnPayload, TerminalOf;
    hide Written, WorkOk;
    var c := MutationFor(site.rules, site.session, site.user, k.before.state, k.mine.state, k.before.version,
                         k.request, k.op);
    WorkIsReady(site, s, k);
    StoredIsAlike(site.rules, k.mine.state);
    OnlyCommitsChange(s.db, c);
    MutationOfWork(site, k);
    CommitTouchesRow(s.db, c);
  }

  lemma WorkIsReady(site: Site, s: System, k: Work)
    requires WorkOk(site, s, k) && k.computed
    ensures Ready(k.mine.state)
  {
    hide Ready, SessionsAlike, Accepts, Perform, SaveableStart;
  }

  lemma MutationOfWork(site: Site, k: Work)
    ensures
      var c := MutationFor(site.rules, site.session, site.user, k.before.state, k.mine.state, k.before.version,
                           k.request, k.op);
      && c.session == site.session && c.user == site.user && c.expected == k.before.version
      && c.request == k.request && c.snapshot == Stored(site.rules, k.mine.state)
  {
    hide Stored, TerminalOf, TurnPayload;
  }

  /** Sessions, saves and request log after a fresh commit, whatever the other tables hold. */
  lemma CommitTouchesRow(db: Db, c: Mutation)
    requires MutationsAreOld(db) && Commit(db, c).1.Committed?
    ensures
      var next := Commit(db, c).0;
      && next.sessions == db.sessions[c.session := SessionRow(c.user, c.snapshot, c.expected + 1)]
      && (forall k :: k in next.saves ==>
            next.saves[k] == c.snapshot || (k in db.saves && next.saves[k] == db.saves[k]))
      && MutationsAreOld(next)
  {
    hide Written;
    WrittenTouches(Swapped(db, c), c);
  }

  /** The statements never write the sessions table and never invent a logged request. */
  ghost predicate Touches(db: Db, next: Db, snapshot: Session) {
    && next.sessions == db.sessions
    && (forall k :: k in next.saves ==> next.saves[k] == snapshot || (k in db.saves && next.saves[k] == db.saves[k]))
    && (forall k :: k in next.mutations ==> k in db.mutations && next.mutations[k] == db.mutations[k])
  }

  lemma EnsuredTouches(db: Db, session: string, user: string, info: RunInfo, snapshot: Session)
    requires Ensured(db, session, user, info).Ok?
    ensures Touches(db, Ensured(db, session, user, info).value, snapshot)
  {
  }

  lemma RewoundTouches(db: Db, session: string, user: string, info: RunInfo, snapshot: Session)
    requires Rewound(db, session, user, info).Ok?
    ensures Touches(db, Rewound(db, session, user, info).value, snapshot)
  {
  }

  lemma LoggedTouches(db: Db, run: string, turn: TurnRow, snapshot: Session)
    requires SessionStore.Logged(db, run, turn).Ok?
    ensures Touches(db, SessionStore.Logged(db, run, turn).value, snapshot)
  {
  }

  lemma FinalizedTouches(db: Db, session: string, user: string, t: Terminal, snapshot: Session)
    requires Finalized(db, session, user, t).Ok?
    ensures Touches(db, Finalized(db, session, user, t).value, snapshot)
  {
    hide Ensured, Keys, Granted, Progressed;
    EnsuredTouches(db, session, user, t.info, snapshot);
  }

  lemma WrittenTouches(db: Db, c: Mutation)
    requires Written(db, c).Ok?
    ensures Touches(db, Written(db, c).value, c.snapshot)
  {
    hide Ensured, Rewound, SessionStore.Logged, Finalized, Opened, Closed, Written;
    if c.user.None? {
      GuestsWriteNothing(db, c);
    } else {
      WrittenInTwo(db, c);
      OpenedTouches(db, c);
      ClosedTouches(Opened(db, c).value, c);
    }
  }

  lemma OpenedTouches(db: Db, c: Mutation)
    requires c.user.Some? && Opened(db, c).Ok?
    ensures Touches(db, Opened(db, c).value, c.snapshot)
  {
    hide Ensured, Rewound;
    var begun := db;
    if c.startRun.Some? {
      EnsuredTouches(db, c.session, c.user.value, c.startRun.value, c.snapshot);
      begun := Ensured(db, c.session, c.user.value, c.startRun.value).value;
    }
    if c.rewind.Some? {
      RewoundTouches(begun, c.session, c.user.value, c.rewind.value, c.snapshot);
    }
  }

  lemma TouchesThrough(a: Db, b: Db, c: Db, snapshot: Session)
    requires Touches(a, b, snapshot) && Touches(b, c, snapshot)
    ensures Touches(a, c, snapshot)
  {
  }

  lemma SmallTouches(db: Db, user: string, slot: string, snapshot: Session)
    ensures Touches(db, db, snapshot) && Touches(db, Consumed(db, user), snapshot)
    ensures Touches(db, db.(saves := db.saves[(user, slot) := snapshot]), snapshot)
  {
  }

  lemma ClosedTouches(db: Db, c: Mutation)
    requires c.user.Some? && Closed(db, c).Ok?
    ensures Touches(db, Closed(db, c).value, c.snapshot)
  {
    hide SessionStore.Logged, Finalized, Consumed, Touches;
    var user, snapshot := c.user.value, c.snapshot;
    SmallTouches(db, user, "", snapshot);
    var logged := db;
    if c.turn.Some? {
      LoggedTouches(db, c.session, c.turn.value, snapshot);
      logged := SessionStore.Logged(db, c.session, c.turn.value).value;
    }
    var spent := if c.consume then Consumed(logged, user) else logged;
    SmallTouches(logged, user, "", snapshot);
    TouchesThrough(db, logged, spent, snapshot);
    var ended := spent;
    if c.terminal.Some? {
      FinalizedTouches(spent, c.session, user, c.terminal.value, snapshot);
      ended := Finalized(spent, c.session, user, c.terminal.value).value;
      TouchesThrough(db, spent, ended, snapshot);
    }
    SmallTouches(ended, user, if c.slot.Some? then c.slot.value else "", snapshot);
    TouchesThrough(db, ended, Closed(db, c).value, snapshot);
  }

  /** A fresh commit extends the history by one operation on its last version. */
  lemma LandedHistory(site: Site, s: System, p: nat)
    requires SystemOk(site, s) && Enabled(site, s, Land(p))
    requires WorkOutcome(site, s.db, s.processes[p].work.value).1.Committed?
    ensures HistoryOk(site, Next(site, s, Land(p)))
  {
    hide Ready, SessionsAlike, Accepts, Perform, Stored, WorkOutcome, MutationsAreOld;
    var k := s.processes[p].work.value;
    assert ProcessOk(site, s, s.processes[p]);
    LandingRow(site, s, k);
    var t := Next(site, s, Land(p));
    var v := |s.applied|;
    StoredIsAlike(site.rules, k.mine.state);
    LandedOperation(site, s.history[v], k);
    forall u | 0 <= u < |t.applied| ensures OneOperation(site, t.history[u], t.applied[u], t.history[u + 1]) {
      if u < v {
        assert OneOperation(site, s.history[u], s.applied[u], s.history[u + 1]);
      }
    }
  }

  lemma LandedOperation(site: Site, held: Session, k: Work)
    requires SessionsAlike(held, k.before.state) && Accepts(k.seen, site.user, k.before.state, k.op)
    requires k.mine.state == Perform(site.rules, k.seen, site.user, k.before.state, k.op) && Ready(k.mine.state)
    ensures OneOperation(site, held, Applied(k.op, k.seen), Stored(site.rules, k.mine.state))
  {
    hide Ready, SessionsAlike, Accepts, Perform, Stored;
    AcceptsAlike(k.seen, site.user, held, k.before.state, k.op);
    PerformAlike(site.rules, k.seen, site.user, held, k.before.state, k.op);
    StoredIsAlike(site.rules, k.mine.state);
    AlikeThrough(Perform(site.rules, k.seen, site.user, held, k.op), k.mine.state, Stored(site.rules, k.mine.state));
  }

  /** Everything coherent stays coherent when the history only grows. */
  lemma GrowingKeepsProcess(site: Site, s: System, t: System, proc: Process)
    requires ProcessOk(site, s, proc) && s.history <= t.history
    ensures ProcessOk(site, t, proc)
  {
    hide Ready, SessionsAlike, Accepts, Perform, SaveableStart;
  }

  lemma LandedIsOk(site: Site, s: System, p: nat)
    requires SystemOk(site, s) && Enabled(site, s, Land(p)) && Faithful(site, s, Land(p))
    ensures SystemOk(site, Next(site, s, Land(p)))
  {
    hide Ready, SessionsAlike, Accepts, Perform, Stored, HistoryOk, WorkOk, SaveableStart, ProcessOk, SameWork;
    var proc := s.processes[p];
    var k := proc.work.value;
    assert ProcessOk(site, s, proc);
    WorkOutcomeKinds(site, s, k);
    if WorkOutcome(site, s.db, k).1.Committed? {
      LandedHistory(site, s, p);
      var t := Next(site, s, Land(p));
      HistoryHasRow(site, s);
      forall q | q in t.processes ensures ProcessOk(site, t, q) {
        if q in s.processes {
          GrowingKeepsProcess(site, s, t, q);
        } else {
          LandedProcess(site, s, p);
        }
      }
    } else if Logged(site, s.db, k.request) {
      AdoptedProcess(site, s, p);
      OneProcessMoves(site, s, p, Landed(proc, StoredVersion(site, s.db, k.request)));
    } else {
      UndoneIsOk(site, s, proc);
      OneProcessMoves(site, s, p, Undone(site, proc));
    }
  }

  /** What an operation reads of the tables is the save it loads. */
  lemma SameOperationPerforms(site: Site, a: Applied, k: Work, held: Session)
    requires SameOperation(site, a, k) && Accepts(a.seen, site.user, held, a.op)
    ensures Accepts(k.seen, site.user, held, k.op)
    ensures Perform(site.rules, a.seen, site.user, held, a.op) == Perform(site.rules, k.seen, site.user, held, k.op)
  {
    hide Step, Begun;
  }

  /** A faithful adoption is as good as a commit: the runner holds what the stored version held. */
  lemma AdoptionOfSameWork(site: Site, s: System, k: Work)
    requires HistoryOk(site, s) && WorkOk(site, s, k) && k.computed && SameWork(site, s, k)
    ensures Coherent(s, Runner(k.mine.state, StoredVersion(site, s.db, k.request)))
  {
    hide Ready, SessionsAlike, Accepts, Perform, SaveableStart, SameOperation, MutationsAreOld;
    var v := k.before.version;
    var a, held := s.applied[v], s.history[v];
    assert OneOperation(site, held, a, s.history[v + 1]);
    SameOperationPerforms(site, a, k, held);
    PerformAlike(site.rules, k.seen, site.user, held, k.before.state, k.op);
    var mine := Perform(site.rules, k.seen, site.user, held, k.op);
    AlikeBack(mine, s.history[v + 1]);
    AlikeThrough(s.history[v + 1], mine, k.mine.state);
  }

  lemma AdoptedProcess(site: Site, s: System, p: nat)
    requires SystemOk(site, s) && Enabled(site, s, Land(p)) && Faithful(site, s, Land(p))
    requires Logged(site, s.db, s.processes[p].work.value.request)
    ensures
      var proc := s.processes[p];
      ProcessOk(site, s, Landed(proc, StoredVersion(site, s.db, proc.work.value.request)))
  {
    hide Ready, SessionsAlike, Accepts, Perform, SaveableStart, SameWork, HistoryOk, Coherent;
    var k := s.processes[p].work.value;
    assert ProcessOk(site, s, s.processes[p]);
    if k.attached || k.op.Restore? {
      AdoptionOfSameWork(site, s, k);
    }
  }

  lemma WorkOutcomeKinds(site: Site, s: System, k: Work)
    ensures WorkOutcome(site, s.db, k).1.Replayed? <==> Logged(site, s.db, k.request)
    ensures Logged(site, s.db, k.request) ==>
      WorkOutcome(site, s.db, k).1.response.version == StoredVersion(site, s.db, k.request)
    ensures !WorkOutcome(site, s.db, k).1.Committed? ==> WorkOutcome(site, s.db, k).0 == s.db
  {
    hide MutationFor;
    var c := MutationFor(site.rules, site.session, site.user, k.before.state, k.mine.state, k.before.version,
                         k.request, k.op);
    MutationOfWork(site, k);
    OnlyCommitsChange(s.db, c);
  }

  lemma LandedProcess(site: Site, s: System, p: nat)
    requires SystemOk(site, s) && Enabled(site, s, Land(p))
    requires WorkOutcome(site, s.db, s.processes[p].work.value).1.Committed?
    ensures ProcessOk(site, Next(site, s, Land(p)), Next(site, s, Land(p)).processes[p])
  {
    hide Ready, SessionsAlike, Accepts, Perform, Stored, WorkOutcome, SaveableStart, OneOperation, MutationsAreOld;
    var proc := s.processes[p];
    var k := proc.work.value;
    assert ProcessOk(site, s, proc);
    LandingRow(site, s, k);
    StoredIsAlike(site.rules, k.mine.state);
    AlikeBack(k.mine.state, Stored(site.rules, k.mine.state));
  }

  /** Every move but an unfaithful adoption keeps the system coherent, for any number of processes. */
  lemma MoveKeepsSystem(site: Site, s: System, m: Move)
    requires SystemOk(site, s) && Enabled(site, s, m) && Faithful(site, s, m)
    ensures SystemOk(site, Next(site, s, m))
  {
    hide SystemOk, Faithful;
    SystemHasRow(site, s);
    match m
    case Acquire(p, request, expected, op) => AcquiredIsOk(site, s, p, request, expected, op);
    case Compute(p) => ComputedIsOk(site, s, p);
    case Land(p) => LandedIsOk(site, s, p);
    case Abort(p) => AbortedIsOk(site, s, p);
    case Evict(p) => EvictedIsOk(site, s, p);
    case Read(p) => EvictedIsOk(site, s, p);
    case Elsewhere(db) => ElsewhereIsOk(site, s, db);
  }

  lemma AbortedIsOk(site: Site, s: System, p: nat)
    requires SystemOk(site, s) && p < |s.processes| && s.processes[p].work.Some?
    ensures SystemOk(site, With(s, p, Undone(site, s.processes[p])))
  {
    hide HistoryOk, ProcessOk;
    assert ProcessOk(site, s, s.processes[p]);
    UndoneIsOk(site, s, s.processes[p]);
    OneProcessMoves(site, s, p, Undone(site, s.processes[p]));
  }

  lemma SystemHasRow(site: Site, s: System)
    requires SystemOk(site, s)
    ensures site.session in s.db.sessions
  {
    hide ProcessOk, Ready, OneOperation, MutationsAreOld;
  }

  /** A new session with idle processes is coherent. */
  lemma FreshSystemIsOk(site: Site, db: Db, processes: seq<Process>)
    requires site.session in db.sessions && Row(site, db).version == 0 && Row(site, db).user == site.user
    requires Ready(Row(site, db).snapshot) && (forall k :: k in db.saves ==> Ready(db.saves[k]))
    requires MutationsAreOld(db) && forall p :: p in processes ==> p == Process(None, None)
    ensures SystemOk(site, System(db, processes, [Row(site, db).snapshot], []))
  {
    hide Ready, MutationsAreOld;
  }

  // ---- Whole schedules -----------------------------------------------------

  /** The state a schedule leads to, as long as every move is enabled. */
  ghost function Scheduled(site: Site, s: System, ms: seq<Move>): Option<System> {
    if ms == [] then Some(s)
    else
      match Scheduled(site, s, ms[..|ms| - 1])
      case None => None
      case Some(t) =>
        if site.session in t.db.sessions && Enabled(site, t, ms[|ms| - 1]) then Some(Next(site, t, ms[|ms| - 1]))
        else None
  }

  /** Every adoption of the schedule is faithful. */
  ghost predicate AdoptsFaithfully(site: Site, s: System, ms: seq<Move>) {
    ms == [] ||
    (AdoptsFaithfully(site, s, ms[..|ms| - 1])
     && match Scheduled(site, s, ms[..|ms| - 1])
        case Some(t) => Faithful(site, t, ms[|ms| - 1])
        case None => true)
  }

  /**
   No lost update: along every schedule whose adoptions are faithful, each committed
   version is one operation applied to the version before it, and every quiescent
   runner holds what its version of the row held.
   */
  lemma {:induction false} NoLostUpdate(site: Site, s: System, ms: seq<Move>)
    requires SystemOk(site, s) && Scheduled(site, s, ms).Some? && AdoptsFaithfully(site, s, ms)
    ensures SystemOk(site, Scheduled(site, s, ms).value)
  {
    hide SystemOk, Next, Enabled, Faithful;
    if ms != [] {
      NoLostUpdate(site, s, ms[..|ms| - 1]);
      MoveKeepsSystem(site, Scheduled(site, s, ms[..|ms| - 1]).value, ms[|ms| - 1]);
    }
  }

  // ---- One process ---------------------------------------------------------

  /** Under one lock, the request in flight is never logged yet. */
  ghost predicate Solo(site: Site, s: System) {
    |s.processes| == 1
    && (s.processes[0].work.Some? ==> !Logged(site, s.db, s.processes[0].work.value.request))
  }

  lemma SoloMove(site: Site, s: System, m: Move)
    requires site.session in s.db.sessions && Solo(site, s) && Enabled(site, s, m)
    ensures !Adopts(site, s, m) && Solo(site, Next(site, s, m))
  {
    hide Perform, Accepts, WorkOutcome, Stored, RolledBack, ChoiceMissing, Ready, MutationsAreOld;
  }

  /** With a single process nothing is ever adopted, so coherence needs no condition. */
  lemma {:induction false} OneProcessNeverAdopts(site: Site, s: System, ms: seq<Move>)
    requires Solo(site, s) && Scheduled(site, s, ms).Some?
    ensures AdoptsFaithfully(site, s, ms) && Solo(site, Scheduled(site, s, ms).value)
  {
    hide Next, Enabled, Solo, Adopts, SameWork;
    if ms != [] {
      OneProcessNeverAdopts(site, s, ms[..|ms| - 1]);
      SoloMove(site, Scheduled(site, s, ms[..|ms| - 1]).value, ms[|ms| - 1]);
    }
  }

  lemma OneProcessLosesNothing(site: Site, s: System, ms: seq<Move>)
    requires SystemOk(site, s) && Solo(site, s) && Scheduled(site, s, ms).Some?
    ensures SystemOk(site, Scheduled(site, s, ms).value)
  {
    hide SystemOk, Solo, Scheduled, AdoptsFaithfully;
    OneProcessNeverAdopts(site, s, ms);
    NoLostUpdate(site, s, ms);
  }

  // ---- Adoption and stale caches -------------------------------------------

  /** The version a request started from, and what the two rivals made of it. */
  ghost predicate RivalsAgree(site: Site, s: System, k: Work)
    requires k.before.version < |s.applied| <= |s.history|
    requires Accepts(s.applied[k.before.version].seen, site.user, s.history[k.before.version],
                     s.applied[k.before.version].op)
    requires Accepts(k.seen, site.user, s.history[k.before.version], k.op)
  {
    var a, held := s.applied[k.before.version], s.history[k.before.version];
    SessionsAlike(Perform(site.rules, a.seen, site.user, held, a.op),
                  Perform(site.rules, k.seen, site.user, held, k.op))
  }

  /**
   An adopting commit keeps its own state under the stored version. When that version
   was made from the one this request started from, the runner is coherent exactly
   when both operations make the same of it.
   */
  lemma AdoptionIsCoherentIff(site: Site, s: System, k: Work)
    requires HistoryOk(site, s) && WorkOk(site, s, k) && k.computed && Logged(site, s.db, k.request)
    requires StoredVersion(site, s.db, k.request) == k.before.version + 1
    ensures
      && k.before.version < |s.applied| <= |s.history|
      && Accepts(s.applied[k.before.version].seen, site.user, s.history[k.before.version],
                 s.applied[k.before.version].op)
      && Accepts(k.seen, site.user, s.history[k.before.version], k.op)
      && (Coherent(s, Runner(k.mine.state, k.before.version + 1)) <==> RivalsAgree(site, s, k))
  {
    hide Ready, SessionsAlike, Accepts, Perform, SaveableStart;
    var v := k.before.version;
    var a, held := s.applied[v], s.history[v];
    assert OneOperation(site, held, a, s.history[v + 1]);
    AcceptsAlike(k.seen, site.user, held, k.before.state, k.op);
    PerformAlike(site.rules, k.seen, site.user, held, k.before.state, k.op);
    var theirs := Perform(site.rules, a.seen, site.user, held, a.op);
    var mine := Perform(site.rules, k.seen, site.user, held, k.op);
    assert SessionsAlike(theirs, s.history[v + 1]) && SessionsAlike(mine, k.mine.state);
    AlikeBack(theirs, s.history[v + 1]);
    AlikeBack(mine, k.mine.state);
    if SessionsAlike(theirs, mine) {
      AlikeThrough(s.history[v + 1], theirs, mine);
      AlikeThrough(s.history[v + 1], mine, k.mine.state);
    }
    if SessionsAlike(s.history[v + 1], k.mine.state) {
      AlikeThrough(theirs, s.history[v + 1], k.mine.state);
      AlikeThrough(theirs, k.mine.state, mine);
    }
  }

  /** The narrator's answer has a say in this turn. */
  predicate AnswerMatters(s: Session, i: Input) {
    s.core.started && !s.core.over && s.pending.None? && !s.core.localStory && Text(s, i).Some?
  }

  predicate AttemptsHere(w: World, s: Session, i: Input)
    requires Text(s, i).Some?
  {
    w.mentions(Text(s, i).value) && CanBreakThrough(s.core)
  }

  /** The rule-owned state in which an accepted answer's choices are shown. */
  function ShownIn(w: World, s: Session, i: Input): Core
    requires Text(s, i).Some?
  {
    if AttemptsHere(w, s, i) then AfterAttempt(w, s.core, AttemptOutcome(w, s.core))
    else AfterTurn(w, s.core, TurnDelta(w, s.core, CategoryOf(i)))
  }

  /**
   Two answers come to the same for one turn: they fail alike, or both are accepted and
   their choices pass the filters of the settled state with the same texts. An attempt
   that ends the run shows no choices at all.
   */
  predicate AnswersAgree(w: World, s: Session, i: Input, x: Answer, y: Answer)
    requires Text(s, i).Some?
  {
    && Verdict(x) == Verdict(y)
    && (Verdict(x).None? && !(AttemptsHere(w, s, i) && ShownIn(w, s, i).over) ==>
          ShownChoices(w, ShownIn(w, s, i), x.choices) == ShownChoices(w, ShownIn(w, s, i), y.choices))
  }

  /** Two answers to one turn leave sessions alike exactly when they agree or have no say. */
  lemma TurnsAgreeIff(w: World, s: Session, i: Input, x: Answer, y: Answer)
    ensures
      SessionsAlike(Step(w, s, Play(i, x)), Step(w, s, Play(i, y))) <==>
      (AnswerMatters(s, i) ==> AnswersAgree(w, s, i, x, y))
  {
    hide AfterTurn, AfterAttempt, LocalTurn, TurnDelta, AttemptOutcome, CanBreakThrough, ShownChoices, Verdict, Tail;
  }

  /** In particular answers with one verdict and the same first choices agree. */
  lemma SameChoicesAgree(w: World, s: Session, i: Input, x: Answer, y: Answer)
    requires Text(s, i).Some? && Verdict(x) == Verdict(y)
    requires Verdict(x).None? ==> Normalized(x.choices) == Normalized(y.choices)
    ensures AnswersAgree(w, s, i, x, y)
  {
    hide Normalized, Verdict, FilterChoices, ShownIn, AttemptsHere;
  }

  /**
   So a turn request that two processes served at once is adopted coherently exactly
   when the narrator's two answers agree, or had no say.
   */
  lemma AdoptedTurnIsCoherentIff(site: Site, s: System, k: Work, i: Input, x: Answer, y: Answer)
    requires HistoryOk(site, s) && WorkOk(site, s, k) && k.computed && Logged(site, s.db, k.request)
    requires StoredVersion(site, s.db, k.request) == k.before.version + 1 <= |s.applied|
    requires s.applied[k.before.version].op == Advance(Play(i, x)) && k.op == Advance(Play(i, y))
    ensures
      var held := s.history[k.before.version];
      Coherent(s, Runner(k.mine.state, k.before.version + 1)) <==>
      (AnswerMatters(held, i) ==> AnswersAgree(site.rules.w, held, i, x, y))
  {
    hide Ready, SessionsAlike, WorkOk, Step, AnswersAgree, AnswerMatters, Coherent, MutationsAreOld, OneOperation;
    hide Accepts;
    AdoptionIsCoherentIff(site, s, k);
    TurnsAgreeIff(site.rules.w, s.history[k.before.version], i, x, y);
  }

  /**
   A cached runner that missed a version refuses every fresh request that names the
   current version, and stays as it is: only an eviction helps.
   */
  lemma StaleCacheRefuses(site: Site, s: System, p: nat, request: string, op: Operation)
    requires SystemOk(site, s) && Enabled(site, s, Acquire(p, request, Row(site, s.db).version, op))
    requires s.processes[p].cache.Some? && s.processes[p].cache.value.version != Row(site, s.db).version
    ensures Next(site, s, Acquire(p, request, Row(site, s.db).version, op)) == s
  {
    hide Ready, SessionsAlike, OneOperation, ProcessOk;
    assert s.processes[p := s.processes[p]] == s.processes;
  }

  /** An eviction and an unlocked read during a request put a second runner into the cache. */
  lemma EvictThenReadDetaches(site: Site, s: System, p: nat)
    requires SystemOk(site, s) && Enabled(site, s, Land(p)) && !s.processes[p].work.value.op.Restore?
    ensures
      var k := s.processes[p].work.value;
      Next(site, Next(site, s, Evict(p)), Read(p))
      == With(s, p, Process(Some(ColdLoad(site, s.db)), Some(k.(attached := false))))
  {
    hide SystemOk, ProcessOk, HistoryOk, Accepts, WorkOutcome;
    SystemHasRow(site, s);
  }

  /**
   After a committed landing the cached runner is at the row's version exactly when the
   request worked on the cached object itself or was a load.
   */
  lemma LandingIsCurrentIffAttached(site: Site, s: System, p: nat)
    requires SystemOk(site, s) && Enabled(site, s, Land(p))
    requires WorkOutcome(site, s.db, s.processes[p].work.value).1.Committed?
    ensures
      var k := s.processes[p].work.value;
      var t := Next(site, s, Land(p));
      && site.session in t.db.sessions && t.processes[p].work.None?
      && (t.processes[p].cache.Some? ==>
            (t.processes[p].cache.value.version == Row(site, t.db).version <==> k.attached || k.op.Restore?))
  {
    hide SessionsAlike, Accepts, Perform, Ready, OneOperation, SaveableStart, Stored, WorkOutcome, MutationsAreOld;
    var k := s.processes[p].work.value;
    assert ProcessOk(site, s, s.processes[p]);
    LandingRow(site, s, k);
  }

  lemma ScheduledNext(site: Site, s: System, ms: seq<Move>, n: nat, t: System)
    requires n < |ms| && Scheduled(site, s, ms[..n]) == Some(t)
    requires site.session in t.db.sessions && Enabled(site, t, ms[n])
    ensures Scheduled(site, s, ms[..n + 1]) == Some(Next(site, t, ms[n]))
  {
    hide Next, Enabled;
    assert ms[..n + 1][..n] == ms[..n];
  }

  /** An eviction, an unlocked read and a committed landing, in this order. */
  lemma DetachedSchedule(site: Site, s: System, p: nat)
    requires SystemOk(site, s) && Enabled(site, s, Land(p)) && !s.processes[p].work.value.op.Restore?
    ensures
      var k := s.processes[p].work.value;
      var u := With(s, p, Process(Some(ColdLoad(site, s.db)), Some(k.(attached := false))));
      && Enabled(site, u, Land(p)) && SystemOk(site, u)
      && Scheduled(site, s, [Evict(p), Read(p), Land(p)]) == Some(Next(site, u, Land(p)))
  {
    hide SystemOk, Next, Scheduled, Accepts, SaveableStart;
    var ms := [Evict(p), Read(p), Land(p)];
    SystemHasRow(site, s);
    EvictThenReadDetaches(site, s, p);
    assert Scheduled(site, s, ms[..0]) == Some(s) by { ScheduledNothing(site, s); }
    MoveKeepsSystem(site, s, Evict(p));
    var evicted := Next(site, s, Evict(p));
    EvictedWork(site, s, p);
    SystemHasRow(site, evicted);
    ScheduledNext(site, s, ms, 0, s);
    MoveKeepsSystem(site, evicted, Read(p));
    SystemHasRow(site, Next(site, evicted, Read(p)));
    ScheduledNext(site, s, ms, 1, evicted);
    ScheduledNext(site, s, ms, 2, Next(site, evicted, Read(p)));
    assert ms[..3] == ms;
  }

  lemma ScheduledNothing(site: Site, s: System)
    ensures Scheduled(site, s, []) == Some(s)
  {
  }

  lemma EvictedWork(site: Site, s: System, p: nat)
    requires site.session in s.db.sessions && p < |s.processes|
    ensures |Next(site, s, Evict(p)).processes| == |s.processes|
  {
    hide Accepts, SaveableStart;
  }

  /**
   The whole accident: an eviction and an unlocked read while a request is in flight,
   then its commit. From then on every fresh request that names the current version is
   refused and changes nothing, so only another eviction helps.
   */
  lemma EvictedRequestLeavesRefusingCache(site: Site, s: System, p: nat, request: string, op: Operation)
    requires SystemOk(site, s) && Enabled(site, s, Land(p)) && !s.processes[p].work.value.op.Restore?
    requires WorkOutcome(site, s.db, s.processes[p].work.value).1.Committed? && SaveableStart(op)
    ensures
      var t := Scheduled(site, s, [Evict(p), Read(p), Land(p)]);
      && t.Some? && site.session in t.value.db.sessions
      && (var again := Acquire(p, request, Row(site, t.value.db).version, op);
          Enabled(site, t.value, again) && Next(site, t.value, again) == t.value)
  {
    hide SystemOk, Scheduled, Next, WorkOutcome, SaveableStart, Accepts;
    DetachedSchedule(site, s, p);
    SystemHasRow(site, s);
    var k := s.processes[p].work.value;
    var u := With(s, p, Process(Some(ColdLoad(site, s.db)), Some(k.(attached := false))));
    SameOutcome(site, s.db, k);
    LandingIsCurrentIffAttached(site, u, p);
    DetachedLandingKeepsCache(site, u, p);
    MoveKeepsSystem(site, u, Land(p)) by { CommitsDoNotAdopt(site, u, p); }
    StaleCacheRefuses(site, Next(site, u, Land(p)), p, request, op);
  }

  lemma SameOutcome(site: Site, db: Db, k: Work)
    ensures WorkOutcome(site, db, k.(attached := false)) == WorkOutcome(site, db, k)
  {
  }

  lemma CommitsDoNotAdopt(site: Site, s: System, p: nat)
    requires Enabled(site, s, Land(p)) && WorkOutcome(site, s.db, s.processes[p].work.value).1.Committed?
    ensures Faithful(site, s, Land(p))
  {
    hide WorkOutcome;
    WorkOutcomeKinds(site, s, s.processes[p].work.value);
  }

  lemma DetachedLandingKeepsCache(site: Site, s: System, p: nat)
    requires site.session in s.db.sessions && Enabled(site, s, Land(p))
    requires !s.processes[p].work.value.attached && !s.processes[p].work.value.op.Restore?
    requires WorkOutcome(site, s.db, s.processes[p].work.value).1.Committed?
    ensures Next(site, s, Land(p)).processes == s.processes[p := Process(s.processes[p].cache, None)]
  {
    hide WorkOutcome, Stored;
  }
}
