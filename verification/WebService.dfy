/**
 The web service in its own form: a cache of mutable runners over the repository.
 Each request mutates its runner in place, commits, and on failure registers a
 runner rebuilt from the rollback snapshot. Every method is one `Serve`.
 */
module WebService {
  import opened GameConstants
  import opened GameSession
  import opened Engine
  import opened SaveLoad
  import opened SessionStore
  import opened Operations

  /** One browser session: an engine over a mutable session, and the committed version. */
  class WebRunner {
    const engine: GameEngine
    var version: nat

    function View(): Runner
      reads this, engine.session
    {
      Runner(engine.session.View(), version)
    }

    constructor FromSnapshot(rules: Rules, snapshot: Session, version: nat)
      ensures fresh(engine) && fresh(engine.session)
      ensures View() == Runner(snapshot, version) && engine.w == rules.w
    {
      var session := new SessionObject(snapshot);
      engine := new GameEngine(rules.w, session);
      this.version := version;
    }
  }

  class WebGameService {
    const rules: Rules
    const repo: SessionRepository
    var runners: map<string, WebRunner>

    constructor (rules: Rules, repo: SessionRepository)
      ensures this.rules == rules && this.repo == repo && runners == map[]
    {
      this.rules, this.repo, runners := rules, repo, map[];
    }

    /** The cached runner, or a cold load of the row registered in the cache. */
    method RunnerOf(session: string) returns (r: WebRunner)
      requires session in runners || session in repo.db.sessions
      requires session in runners ==> runners[session].engine.w == rules.w
      modifies this`runners
      ensures session in runners && runners[session] == r && r.engine.w == rules.w
      ensures session in old(runners) ==> r == old(runners)[session] && runners == old(runners)
      ensures session !in old(runners) ==>
        && fresh(r) && fresh(r.engine.session) && runners == old(runners)[session := r]
        && r.View() == Runner(repo.db.sessions[session].snapshot, repo.db.sessions[session].version)
    {
      if session in runners {
        return runners[session];
      }
      var row := repo.db.sessions[session];
      r := new WebRunner.FromSnapshot(rules, row.snapshot, row.version);
      runners := runners[session := r];
    }

    /** Duplicates are answered from the log; otherwise the expected version must be the runner's. */
    method MutationContext(session: string, r: WebRunner, request: string, expected: nat)
      returns (early: Option<Reply>)
      ensures early ==
        if (session, request) in repo.db.mutations then
          Some(Repeated(repo.db.mutations[(session, request)].response))
        else if expected != r.version then Some(Stale)
        else None
    {
      var duplicate := repo.GetSessionMutation(session, request);
      if duplicate.Some? {
        return Some(Repeated(duplicate.value));
      }
      early := if expected != r.version then Some(Stale) else None;
    }

    /** The commit of what the runner now holds; success moves the runner's version. */
    method CommitRunner(
      session: string, user: Option<string>, r: WebRunner, before: Session, request: string, op: Operation)
      returns (o: Outcome)
      requires r.engine.w == rules.w
      modifies repo, r
      ensures (repo.db, o) ==
        Commit(old(repo.db), MutationFor(rules, session, user, before, old(r.engine.session.View()), old(r.version),
                                         request, op))
      ensures r.engine.session.View() == old(r.engine.session.View())
      ensures r.version == if o.Committed? || o.Replayed? then o.response.version else old(r.version)
    {
      var after := r.engine.session.View();
      o := repo.CommitSessionMutation(
        MutationFor(rules, session, user, before, after, r.version, request, op));
      if o.Committed? || o.Replayed? {
        r.version := o.response.version;
      }
    }

    /** A runner rebuilt from the rollback snapshot takes the cache slot. */
    method RestoreRollback(session: string, snapshot: Session, version: nat)
      modifies this`runners
      ensures session in runners && fresh(runners[session]) && fresh(runners[session].engine.session)
      ensures runners == old(runners)[session := runners[session]]
      ensures runners[session].View() == Runner(snapshot, version)
    {
      var restored := new WebRunner.FromSnapshot(rules, snapshot, version);
      runners := runners[session := restored];
    }

    static function ReplyOf(o: Outcome): Reply {
      match o
      case Committed(response) => Done(response)
      case Replayed(response) => Repeated(response)
      case VersionConflict => Stale
      case Failed(error) => Errored(error)
    }

    /** What the cache holds for a session after a request. */
    function Cached(session: string): Runner
      requires session in runners
      reads this, runners[session], runners[session].engine.session
    {
      runners[session].View()
    }

    /** Commits what the cached runner now holds and rolls the cache back when that fails. */
    method Conclude(
      session: string, user: Option<string>, before: Session, rollback: Session, request: string, op: Operation)
      returns (reply: Reply)
      requires session in runners && runners[session].engine.w == rules.w
      modifies this`runners, repo, runners[session]
      ensures session in runners
      ensures
        var was := old(Cached(session));
        var (next, o) := Commit(old(repo.db),
          MutationFor(rules, session, user, before, was.state, was.version, request, op));
        && repo.db == next && reply == ReplyOf(o)
        && Cached(session) == if o.Committed? || o.Replayed? then Runner(was.state, o.response.version)
                              else Runner(rollback, was.version)
    {
      hide Commit, MutationFor;
      var r := runners[session];
      var version := r.version;
      var o := CommitRunner(session, user, r, before, request, op);
      if !o.Committed? && !o.Replayed? {
        RestoreRollback(session, rollback, version);
      }
      reply := ReplyOf(o);
    }

    method AdvanceTurn(session: string, user: Option<string>, request: string, expected: nat, e: Event)
      returns (reply: Reply)
      requires session in runners && runners[session].engine.w == rules.w
      modifies this`runners, repo, runners[session], runners[session].engine.session
      ensures session in runners
      ensures (repo.db, Cached(session), reply)
        == Serve(rules, old(repo.db), session, user, old(Cached(session)), request, expected, Advance(e))
    {
      hide Commit, MutationFor, Stored, Step, Begun;
      var r := runners[session];
      var before := r.engine.session.View();
      if ChoiceMissing(before, Advance(e)) {
        return Rejected;
      }
      var early := MutationContext(session, r, request, expected);
      if early.Some? {
        return early.value;
      }
      var rollback := Stored(rules, before);
      if !Accepts(repo.db, user, before, Advance(e)) {
        RestoreRollback(session, rollback, r.version);
        return Rejected;
      }
      r.engine.Handle(e);
      reply := Conclude(session, user, before, rollback, request, Advance(e));
    }

    method StartSession(
      session: string, user: Option<string>, request: string, expected: nat,
      core: Core, opening: Answer, bonuses: bool)
      returns (reply: Reply)
      requires session in runners && runners[session].engine.w == rules.w
      modifies this`runners, repo, runners[session], runners[session].engine.session
      ensures session in runners
      ensures (repo.db, Cached(session), reply)
        == Serve(rules, old(repo.db), session, user, old(Cached(session)), request, expected,
                 Begin(core, opening, bonuses))
    {
      hide Commit, MutationFor, Stored, Step, Begun;
      var r := runners[session];
      var before := r.engine.session.View();
      var early := MutationContext(session, r, request, expected);
      if early.Some? {
        return early.value;
      }
      var rollback := Stored(rules, before);
      r.engine.StartFromProfile(core, opening);
      reply := Conclude(session, user, before, rollback, request, Begin(core, opening, bonuses));
    }

    method EndSession(session: string, user: Option<string>, request: string, expected: nat, reason: string)
      returns (reply: Reply)
      requires session in runners && runners[session].engine.w == rules.w
      modifies this`runners, repo, runners[session], runners[session].engine.session
      ensures session in runners
      ensures (repo.db, Cached(session), reply)
        == Serve(rules, old(repo.db), session, user, old(Cached(session)), request, expected, Finish(reason))
    {
      hide Commit, MutationFor, Stored, Step, Begun;
      var r := runners[session];
      var before := r.engine.session.View();
      var early := MutationContext(session, r, request, expected);
      if early.Some? {
        return early.value;
      }
      var rollback := Stored(rules, before);
      r.engine.session.core := r.engine.session.core.(over := true, finale := false, reason := PlayerQuit(reason));
      reply := Conclude(session, user, before, rollback, request, Finish(reason));
    }

    method Save(session: string, user: Option<string>, request: string, expected: nat, slot: string)
      returns (reply: Reply)
      requires session in runners && runners[session].engine.w == rules.w
      modifies this`runners, repo, runners[session]
      ensures session in runners
      ensures (repo.db, Cached(session), reply)
        == Serve(rules, old(repo.db), session, user, old(Cached(session)), request, expected, Store(slot))
    {
      hide Commit, MutationFor, Stored, Step, Begun;
      var r := runners[session];
      var before := r.engine.session.View();
      var early := MutationContext(session, r, request, expected);
      if early.Some? {
        return early.value;
      }
      if user.None? {
        return Rejected;
      }
      var rollback := Stored(rules, before);
      reply := Conclude(session, user, before, rollback, request, Store(slot));
    }

    /** A load commits a fresh runner and registers it only afterwards. */
    method Load(session: string, user: Option<string>, request: string, expected: nat, slot: string)
      returns (reply: Reply)
      requires session in runners && runners[session].engine.w == rules.w
      modifies this`runners, repo
      ensures session in runners
      ensures (repo.db, Cached(session), reply)
        == Serve(rules, old(repo.db), session, user, old(Cached(session)), request, expected, Restore(slot))
    {
      hide Commit, MutationFor, Stored, Step, Begun;
      var r := runners[session];
      var early := MutationContext(session, r, request, expected);
      if early.Some? {
        return early.value;
      }
      if user.None? || (user.value, slot) !in repo.db.saves {
        return Rejected;
      }
      var restored := new WebRunner.FromSnapshot(rules, repo.db.saves[(user.value, slot)], r.version);
      var o := CommitRunner(session, user, restored, r.engine.session.View(), request, Restore(slot));
      if o.Committed? || o.Replayed? {
        runners := runners[session := restored];
      }
      reply := ReplyOf(o);
    }
  }
}
