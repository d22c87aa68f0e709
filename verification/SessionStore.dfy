/**
 The session tables and their one mutating transaction. `Commit` is the meaning of
 one compare-and-swap; `SessionRepository` performs it on a working copy that is
 published only when every statement succeeded.
 */
module SessionStore {
  import opened GameConstants
  import opened GameSession

  // ---- Rows ----------------------------------------------------------------

  /** A snapshot is kept as the session that loading it gives back. */
  datatype SessionRow = SessionRow(user: Option<string>, snapshot: Session, version: nat)

  datatype Response = Response(view: Session, version: nat, saved: Option<string>)

  datatype MutationRow = MutationRow(expected: nat, result: nat, response: Response)

  datatype RunRow = RunRow(
    user: string, sessionId: string, turnCount: nat, realm: RealmIndex,
    cause: Reason, ascended: bool, completed: bool)

  datatype TurnRow = TurnRow(turnNo: nat, request: Option<string>, endAge: int, choice: string)

  datatype BonusRow = BonusRow(runsRemaining: nat)

  datatype Progress = Progress(runs: nat, ascensions: nat)

  /** Reward tables share a key: user, source session, kind and value. */
  datatype RewardKey = RewardKey(user: string, source: string, kind: string, value: string)

  /** Map keys are the tables' primary and unique keys. */
  datatype Db = Db(
    sessions: map<string, SessionRow>,
    mutations: map<(string, string), MutationRow>,
    runs: map<string, RunRow>,
    turns: map<(string, nat), TurnRow>,
    achievements: set<RewardKey>,
    rewards: set<RewardKey>,
    bonuses: map<RewardKey, BonusRow>,
    progress: map<string, Progress>,
    saves: map<(string, string), Session>)

  const EMPTY_DB := Db(map[], map[], map[], map[], {}, {}, map[], map[], map[])

  // ---- One requested mutation ------------------------------------------------

  datatype RunInfo = RunInfo(turnCount: nat, realm: RealmIndex)

  datatype Reward = Reward(kind: string, value: string)

  datatype Terminal = Terminal(
    info: RunInfo, cause: Reason, ascended: bool,
    achievements: seq<Reward>, rewards: seq<Reward>, bonuses: seq<Reward>)

  datatype Mutation = Mutation(
    session: string, user: Option<string>, snapshot: Session, expected: nat, request: string,
    view: Session,
    turn: Option<TurnRow>, startRun: Option<RunInfo>, consume: bool,
    terminal: Option<Terminal>, slot: Option<string>, rewind: Option<RunInfo>)

  datatype Error = RunCompleted | DuplicateRun | MissingRun | TurnTaken | RequestTaken

  datatype Result<+T> = Ok(value: T) | Err(error: Error) {
    predicate IsFailure() { Err? }

    function PropagateFailure<U>(): Result<U>
      requires Err?
    {
      Err(error)
    }

    function Extract(): T
      requires Ok?
    {
      value
    }
  }

  datatype Outcome =
    | Committed(response: Response)
    | Replayed(response: Response)
    | VersionConflict
    | Failed(error: Error)

  // ---- Statements ----------------------------------------------------------

  /** The compare-and-swap on `sessions.version`. */
  predicate Swaps(db: Db, c: Mutation) {
    c.session in db.sessions && db.sessions[c.session].version == c.expected
  }

  function Swapped(db: Db, c: Mutation): Db
    requires Swaps(db, c)
  {
    db.(sessions := db.sessions[c.session := SessionRow(c.user, c.snapshot, c.expected + 1)])
  }

  /** Another run already names this session. */
  ghost predicate SessionHasRun(runs: map<string, RunRow>, session: string) {
    session != "" && exists k :: k in runs && runs[k].sessionId == session
  }

  /** Inserting the active run is a no-op when its id exists; only the id conflict is forgiven. */
  ghost function Ensured(db: Db, session: string, user: string, info: RunInfo): Result<Db> {
    if session in db.runs then Ok(db)
    else if SessionHasRun(db.runs, session) then Err(DuplicateRun)
    else Ok(db.(runs := db.runs[session :=
      RunRow(user, session, info.turnCount, info.realm, NoReason, false, false)]))
  }

  function TurnsUpTo(turns: map<(string, nat), TurnRow>, run: string, n: nat): map<(string, nat), TurnRow> {
    map k | k in turns && !(k.0 == run && k.1 > n) :: turns[k]
  }

  function WithoutMutations(mutations: map<(string, string), MutationRow>, session: string)
    : map<(string, string), MutationRow>
  {
    map k | k in mutations && k.0 != session :: mutations[k]
  }

  /** Later turns go, the run follows the loaded state, and the request log is cleared. */
  ghost function Rewound(db: Db, session: string, user: string, info: RunInfo): Result<Db> {
    if session in db.runs && db.runs[session].completed then Err(RunCompleted)
    else
      var ready :- Ensured(db, session, user, info);
      Ok(ready.(
        turns := TurnsUpTo(ready.turns, session, info.turnCount),
        runs := if session in ready.runs && !ready.runs[session].completed then
                  ready.runs[session := ready.runs[session].(turnCount := info.turnCount, realm := info.realm)]
                else ready.runs,
        mutations := WithoutMutations(ready.mutations, session)))
  }

  ghost predicate RequestLogged(turns: map<(string, nat), TurnRow>, run: string, request: Option<string>) {
    request.Some? && exists k :: k in turns && k.0 == run && turns[k].request == request
  }

  /** A turn needs its run and must be new by number and by request. */
  ghost function Logged(db: Db, run: string, turn: TurnRow): Result<Db> {
    if run !in db.runs then Err(MissingRun)
    else if (run, turn.turnNo) in db.turns then Err(TurnTaken)
    else if RequestLogged(db.turns, run, turn.request) then Err(RequestTaken)
    else Ok(db.(
      turns := db.turns[(run, turn.turnNo) := turn],
      runs := if db.runs[run].completed then db.runs
              else db.runs[run := db.runs[run].(turnCount := turn.turnNo)]))
  }

  function Spent(b: BonusRow): BonusRow {
    if b.runsRemaining > 0 then BonusRow(b.runsRemaining - 1) else b
  }

  function Consumed(db: Db, user: string): Db {
    db.(bonuses := map k | k in db.bonuses :: if k.user == user then Spent(db.bonuses[k]) else db.bonuses[k])
  }

  function KeyOf(user: string, session: string, r: Reward): RewardKey {
    RewardKey(user, session, r.kind, r.value)
  }

  function Keys(user: string, session: string, rs: seq<Reward>): set<RewardKey> {
    set r | r in rs :: KeyOf(user, session, r)
  }

  /** New bonuses only; an existing row keeps its remaining runs. */
  function Granted(bonuses: map<RewardKey, BonusRow>, user: string, session: string, rs: seq<Reward>)
    : map<RewardKey, BonusRow>
  {
    map k | k in bonuses.Keys + Keys(user, session, rs) :: if k in bonuses then bonuses[k] else BonusRow(1)
  }

  function Progressed(progress: map<string, Progress>, user: string, ascended: bool): map<string, Progress> {
    var was := if user in progress then progress[user] else Progress(0, 0);
    progress[user := Progress(was.runs + 1, was.ascensions + if ascended then 1 else 0)]
  }

  /** The first finalisation completes the run and pays it out; every later one changes nothing. */
  ghost function Finalized(db: Db, session: string, user: string, t: Terminal): Result<Db> {
    var ready :- Ensured(db, session, user, t.info);
    if session !in ready.runs || ready.runs[session].completed then Ok(ready)
    else Ok(ready.(
      runs := ready.runs[session := ready.runs[session].(
        turnCount := t.info.turnCount, realm := t.info.realm, cause := t.cause,
        ascended := t.ascended, completed := true)],
      achievements := ready.achievements + Keys(user, session, t.achievements),
      rewards := ready.rewards + Keys(user, session, t.rewards),
      bonuses := Granted(ready.bonuses, user, session, t.bonuses),
      progress := Progressed(ready.progress, user, t.ascended)))
  }

  function Answered(c: Mutation): Response {
    Response(c.view, c.expected + 1, if c.user.Some? then c.slot else None)
  }

  function Noted(db: Db, c: Mutation): Db {
    db.(mutations := db.mutations[(c.session, c.request) := MutationRow(c.expected, c.expected + 1, Answered(c))])
  }

  /** The statements between the swap and the request log; guests own no run tables. */
  ghost function Written(db: Db, c: Mutation): Result<Db> {
    if c.user.None? then Ok(db)
    else
      var user := c.user.value;
      var begun :- if c.startRun.Some? then Ensured(db, c.session, user, c.startRun.value) else Ok(db);
      var rewound :- if c.rewind.Some? then Rewound(begun, c.session, user, c.rewind.value) else Ok(begun);
      var logged :- if c.turn.Some? then Logged(rewound, c.session, c.turn.value) else Ok(rewound);
      var spent := if c.consume then Consumed(logged, user) else logged;
      var ended :- if c.terminal.Some? then Finalized(spent, c.session, user, c.terminal.value) else Ok(spent);
      Ok(if c.slot.Some? then ended.(saves := ended.saves[(user, c.slot.value) := c.snapshot]) else ended)
  }

  /** One transaction: all of it or nothing. */
  ghost function Commit(db: Db, c: Mutation): (Db, Outcome) {
    if (c.session, c.request) in db.mutations then
      (db, Replayed(db.mutations[(c.session, c.request)].response))
    else if !Swaps(db, c) then (db, VersionConflict)
    else
      match Written(Swapped(db, c), c)
      case Ok(next) => (Noted(next, c), Committed(Answered(c)))
      case Err(error) => (db, Failed(error))
  }

  // ---- Other writers of the same tables ------------------------------------

  /** A finished run recorded from outside the mutation path. */
  ghost function RunRecorded(
    db: Db, runId: string, user: string, session: string, info: RunInfo, cause: Reason, ascended: bool): Db
  {
    if runId in db.runs || SessionHasRun(db.runs, session) then db
    else db.(
      runs := db.runs[runId := RunRow(user, session, info.turnCount, info.realm, cause, ascended, true)],
      progress := Progressed(db.progress, user, ascended))
  }

  /** A new session row starts at version zero; an existing row keeps its version. */
  function SessionSaved(db: Db, session: string, user: Option<string>, snapshot: Session): Db {
    var version := if session in db.sessions then db.sessions[session].version else 0;
    db.(sessions := db.sessions[session := SessionRow(user, snapshot, version)])
  }

  // ---- The repository ------------------------------------------------------

  class SessionRepository {
    var db: Db

    constructor ()
      ensures db == EMPTY_DB
    {
      db := EMPTY_DB;
    }

    method GetSessionMutation(session: string, request: string) returns (found: Option<Response>)
      ensures found == if (session, request) in db.mutations
                       then Some(db.mutations[(session, request)].response) else None
    {
      found := None;
      if (session, request) in db.mutations {
        found := Some(db.mutations[(session, request)].response);
      }
    }

    method CommitSessionMutation(c: Mutation) returns (o: Outcome)
      modifies this
      ensures (db, o) == Commit(old(db), c)
    {
      if (c.session, c.request) in db.mutations {
        return Replayed(db.mutations[(c.session, c.request)].response);
      }
      if c.session !in db.sessions || db.sessions[c.session].version != c.expected {
        return VersionConflict;
      }
      var tx := db.(sessions := db.sessions[c.session := SessionRow(c.user, c.snapshot, c.expected + 1)]);
      var written := WriteTables(tx, c);
      match written {
        case Err(error) =>
          o := Failed(error);
        case Ok(next) =>
          db := next.(mutations := next.mutations[(c.session, c.request) :=
            MutationRow(c.expected, c.expected + 1, Answered(c))]);
          o := Committed(Answered(c));
      }
    }
  }

  /** The statements of one transaction, in order, on its working copy. */
  method WriteTables(tx: Db, c: Mutation) returns (r: Result<Db>)
    ensures r == Written(tx, c)
  {
    if c.user.None? {
      return Ok(tx);
    }
    var user := c.user.value;
    var work := tx;
    if c.startRun.Some? {
      work :- EnsureActiveRun(work, c.session, user, c.startRun.value);
    }
    if c.rewind.Some? {
      work :- RewindActiveRun(work, c.session, user, c.rewind.value);
    }
    if c.turn.Some? {
      work :- InsertTurn(work, c.session, c.turn.value);
    }
    if c.consume {
      work := Consumed(work, user);
    }
    if c.terminal.Some? {
      work :- FinalizeTerminal(work, c.session, user, c.terminal.value);
    }
    if c.slot.Some? {
      work := work.(saves := work.saves[(user, c.slot.value) := c.snapshot]);
    }
    r := Ok(work);
  }

  /** Scans the run table for a row that names the session. */
  method FindRunOfSession(runs: map<string, RunRow>, session: string) returns (found: bool)
    ensures found <==> SessionHasRun(runs, session)
  {
    var rest := runs.Keys;
    found := false;
    while rest != {}
      invariant rest <= runs.Keys
      invariant !found
      invariant forall k :: k in runs.Keys - rest ==> runs[k].sessionId != session
      decreases |rest|
    {
      var k :| k in rest;
      if runs[k].sessionId == session {
        return session != "";
      }
      rest := rest - {k};
    }
  }

  method EnsureActiveRun(tx: Db, session: string, user: string, info: RunInfo) returns (r: Result<Db>)
    ensures r == Ensured(tx, session, user, info)
  {
    if session in tx.runs {
      return Ok(tx);
    }
    var taken := FindRunOfSession(tx.runs, session);
    if taken {
      return Err(DuplicateRun);
    }
    r := Ok(tx.(runs := tx.runs[session :=
      RunRow(user, session, info.turnCount, info.realm, NoReason, false, false)]));
  }

  method RewindActiveRun(tx: Db, session: string, user: string, info: RunInfo) returns (r: Result<Db>)
    ensures r == Rewound(tx, session, user, info)
  {
    if session in tx.runs && tx.runs[session].completed {
      return Err(RunCompleted);
    }
    var work := tx;
    if session !in tx.runs {
      work :- EnsureActiveRun(tx, session, user, info);
    }
    work := work.(turns := TurnsUpTo(work.turns, session, info.turnCount));
    if session in work.runs && !work.runs[session].completed {
      var run := work.runs[session];
      work := work.(runs := work.runs[session := run.(turnCount := info.turnCount, realm := info.realm)]);
    }
    r := Ok(work.(mutations := WithoutMutations(work.mutations, session)));
  }

  method FindRequest(turns: map<(string, nat), TurnRow>, run: string, request: Option<string>)
    returns (found: bool)
    ensures found <==> RequestLogged(turns, run, request)
  {
    var rest := turns.Keys;
    found := false;
    while rest != {}
      invariant rest <= turns.Keys
      invariant !found
      invariant forall k :: k in turns.Keys - rest ==> k.0 != run || turns[k].request != request
      decreases |rest|
    {
      var k :| k in rest;
      if k.0 == run && turns[k].request == request {
        return request.Some?;
      }
      rest := rest - {k};
    }
  }

  method InsertTurn(tx: Db, run: string, turn: TurnRow) returns (r: Result<Db>)
    ensures r == Logged(tx, run, turn)
  {
    if run !in tx.runs {
      return Err(MissingRun);
    }
    if (run, turn.turnNo) in tx.turns {
      return Err(TurnTaken);
    }
    var taken := FindRequest(tx.turns, run, turn.request);
    if taken {
      return Err(RequestTaken);
    }
    var work := tx.(turns := tx.turns[(run, turn.turnNo) := turn]);
    if !work.runs[run].completed {
      work := work.(runs := work.runs[run := work.runs[run].(turnCount := turn.turnNo)]);
    }
    r := Ok(work);
  }

  method FinalizeTerminal(tx: Db, session: string, user: string, t: Terminal) returns (r: Result<Db>)
    ensures r == Finalized(tx, session, user, t)
  {
    var work :- EnsureActiveRun(tx, session, user, t.info);
    if session !in work.runs || work.runs[session].completed {
      return Ok(work);
    }
    var achievements := InsertRewards(work.achievements, user, session, t.achievements);
    var rewards := InsertRewards(work.rewards, user, session, t.rewards);
    var bonuses := GrantBonuses(work.bonuses, user, session, t.bonuses);
    var run := work.runs[session].(turnCount := t.info.turnCount, realm := t.info.realm, cause := t.cause,
                                   ascended := t.ascended, completed := true);
    r := Ok(work.(
      runs := work.runs[session := run],
      achievements := achievements, rewards := rewards, bonuses := bonuses,
      progress := Progressed(work.progress, user, t.ascended)));
  }

  /** Inserting an existing key does nothing. */
  method InsertRewards(rows: set<RewardKey>, user: string, session: string, rs: seq<Reward>)
    returns (r: set<RewardKey>)
    ensures r == rows + Keys(user, session, rs)
  {
    r := rows;
    for i := 0 to |rs|
      invariant r == rows + Keys(user, session, rs[..i])
    {
      assert rs[..i + 1] == rs[..i] + [rs[i]];
      r := r + {KeyOf(user, session, rs[i])};
    }
    assert rs[..|rs|] == rs;
  }

  method GrantBonuses(rows: map<RewardKey, BonusRow>, user: string, session: string, rs: seq<Reward>)
    returns (r: map<RewardKey, BonusRow>)
    ensures r == Granted(rows, user, session, rs)
  {
    r := rows;
    for i := 0 to |rs|
      invariant r == Granted(rows, user, session, rs[..i])
    {
      assert rs[..i + 1] == rs[..i] + [rs[i]];
      assert Keys(user, session, rs[..i + 1]) == Keys(user, session, rs[..i]) + {KeyOf(user, session, rs[i])};
      if KeyOf(user, session, rs[i]) !in r {
        r := r[KeyOf(user, session, rs[i]) := BonusRow(1)];
      }
    }
    assert rs[..|rs|] == rs;
  }
}
