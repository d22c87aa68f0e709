/**
 Two processes that serve one request at once. The narrator answers them differently,
 one commits, the other adopts the stored version under its own state, and its next
 request overwrites what had been committed.
 */
module Rivalry {
  import opened GameConstants
  import opened GameSession
  import opened GameWorld
  import opened TurnRules
  import opened Engine
  import opened EngineLaws
  import opened SaveLoad
  import opened SessionStore
  import opened StoreLaws
  import opened Operations
  import opened Protocol

  /** Two idle processes with nothing cached. */
  ghost predicate Rivals(s: System, p: nat, q: nat) {
    && p < |s.processes| && q < |s.processes| && p != q
    && s.processes[p] == Process(None, None) && s.processes[q] == Process(None, None)
  }

  /** A request both processes would take on. */
  ghost predicate Taken(site: Site, s: System, request: string, op: Operation)
    requires site.session in s.db.sessions
  {
    var held := Row(site, s.db).snapshot;
    && !Protocol.Logged(site, s.db, request) && SaveableStart(op) && !op.Restore?
    && !ChoiceMissing(held, op) && Accepts(s.db, site.user, held, op)
  }

  /** Two processes race with one request; then the loser of the race ends the session. */
  function Race(p: nat, q: nat, request: string, expected: nat, a: Operation, b: Operation,
                later: string, reason: string): seq<Protocol.Move> {
    [Acquire(p, request, expected, a), Acquire(q, request, expected, b), Compute(p), Compute(q), Land(p), Land(q),
     Acquire(q, later, expected + 1, Finish(reason)), Compute(q), Land(q)]
  }

  // ---- Single moves --------------------------------------------------------

  ghost predicate Runs(site: Site, s: System, m: Protocol.Move, t: System) {
    site.session in s.db.sessions && Enabled(site, s, m) && Next(site, s, m) == t
  }

  function RunnerOf(site: Site, s: System, p: nat): Runner
    requires site.session in s.db.sessions && p < |s.processes|
  {
    if s.processes[p].cache.Some? then s.processes[p].cache.value else ColdLoad(site, s.db)
  }

  lemma Acquires(site: Site, s: System, p: nat, request: string, op: Operation)
    requires site.session in s.db.sessions && p < |s.processes| && s.processes[p].work.None?
    requires !Protocol.Logged(site, s.db, request) && SaveableStart(op) && !op.Restore?
    requires !ChoiceMissing(RunnerOf(site, s, p).state, op)
    ensures
      var r := RunnerOf(site, s, p);
      Runs(site, s, Acquire(p, request, r.version, op),
           With(s, p, Process(Some(r), Some(Work(op, request, s.db, r, r, true, false)))))
  {
    hide ChoiceMissing, SaveableStart;
  }

  lemma Computes(site: Site, s: System, p: nat)
    requires site.session in s.db.sessions && p < |s.processes| && s.processes[p].work.Some?
    requires !s.processes[p].work.value.computed
    requires Accepts(s.db, site.user, s.processes[p].work.value.before.state, s.processes[p].work.value.op)
    ensures
      var k := s.processes[p].work.value;
      var state := Perform(site.rules, s.db, site.user, k.before.state, k.op);
      var done := k.(mine := k.mine.(state := state), computed := true, seen := s.db);
      Runs(site, s, Compute(p), With(s, p, s.processes[p].(work := Some(done))))
  {
    hide Accepts, Perform;
  }

  /** What a race depends on in the tables after a commit. */
  ghost predicate Wrote(site: Site, db: Db, next: Db, k: Work) {
    && site.session in next.sessions && Row(site, next).version == k.before.version + 1
    && Row(site, next).snapshot == Stored(site.rules, k.mine.state)
    && Protocol.Logged(site, next, k.request)
    && StoredVersion(site, next, k.request) == k.before.version + 1
    && (forall x :: Protocol.Logged(site, next, x) ==> Protocol.Logged(site, db, x) || x == k.request)
    && MutationsAreOld(next)
  }

  /** The commit of this work would succeed now. */
  ghost predicate Succeeds(site: Site, db: Db, k: Work) { WorkOutcome(site, db, k).1.Committed? }

  lemma CommitWrites(site: Site, db: Db, k: Work)
    requires site.session in db.sessions && MutationsAreOld(db) && Succeeds(site, db, k)
    ensures
      var (next, o) := WorkOutcome(site, db, k);
      && o.response.version == k.before.version + 1 && Wrote(site, db, next, k)
      && Row(site, db).version == k.before.version && !Protocol.Logged(site, db, k.request)
  {
    hide Stored, TerminalOf, TurnPayload, MutationFor, Written, MutationsAreOld;
    var c := MutationFor(site.rules, site.session, site.user, k.before.state, k.mine.state, k.before.version,
                         k.request, k.op);
    MutationOfWork(site, k);
    OnlyCommitsChange(db, c);
    CommitTouchesRow(db, c);
    WrittenTouches(Swapped(db, c), c);
  }

  lemma Lands(site: Site, s: System, p: nat)
    requires site.session in s.db.sessions && p < |s.processes| && s.processes[p].work.Some?
    requires
      var k := s.processes[p].work.value;
      k.computed && k.attached && MutationsAreOld(s.db) && Succeeds(site, s.db, k)
    ensures
      var k := s.processes[p].work.value;
      var next := WorkOutcome(site, s.db, k).0;
      && Wrote(site, s.db, next, k)
      && Runs(site, s, Land(p),
              With(s, p, Process(Some(Runner(k.mine.state, k.before.version + 1)), None))
                .(db := next, history := s.history + [Stored(site.rules, k.mine.state)],
                  applied := s.applied + [Applied(k.op, k.seen)]))
  {
    hide WorkOutcome, Stored, Wrote, MutationsAreOld;
    CommitWrites(site, s.db, s.processes[p].work.value);
  }

  lemma Adopted(site: Site, s: System, p: nat)
    requires site.session in s.db.sessions && p < |s.processes| && s.processes[p].work.Some?
    requires
      var k := s.processes[p].work.value;
      k.computed && k.attached && Protocol.Logged(site, s.db, k.request)
    ensures
      var k := s.processes[p].work.value;
      Runs(site, s, Land(p),
           With(s, p, Process(Some(Runner(k.mine.state, StoredVersion(site, s.db, k.request))), None)))
  {
    hide WorkOutcome, Stored;
    WorkOutcomeKinds(site, s, s.processes[p].work.value);
  }

  // ---- The race ------------------------------------------------------------

  ghost function Result(site: Site, s: System, op: Operation): Session
    requires site.session in s.db.sessions && Accepts(s.db, site.user, Row(site, s.db).snapshot, op)
  {
    Perform(site.rules, s.db, site.user, Row(site, s.db).snapshot, op)
  }

  /** The request as process p or q holds it when its result is computed. */
  ghost function Computed(site: Site, s: System, request: string, op: Operation): Work
    requires site.session in s.db.sessions && Accepts(s.db, site.user, Row(site, s.db).snapshot, op)
  {
    var r := ColdLoad(site, s.db);
    Work(op, request, s.db, Runner(Result(site, s, op), r.version), r, true, true)
  }

  /** Both hold the stored version; each has its own state under it. */
  ghost function Raced(site: Site, s: System, p: nat, q: nat, request: string, a: Operation, b: Operation): System
    requires Rivals(s, p, q) && site.session in s.db.sessions
    requires Taken(site, s, request, a) && Taken(site, s, request, b)
  {
    var v := Row(site, s.db).version;
    var won := Computed(site, s, request, a);
    System(WorkOutcome(site, s.db, won).0,
           s.processes[p := Process(Some(Runner(Result(site, s, a), v + 1)), None)]
             [q := Process(Some(Runner(Result(site, s, b), v + 1)), None)],
           s.history + [Stored(site.rules, Result(site, s, a))], s.applied + [Applied(a, s.db)])
  }

  lemma Extends(site: Site, s: System, ms: seq<Protocol.Move>, n: nat, t: System, u: System)
    requires n < |ms| && Scheduled(site, s, ms[..n]) == Some(t) && Runs(site, t, ms[n], u)
    ensures Scheduled(site, s, ms[..n + 1]) == Some(u)
  {
    hide Next, Enabled, Scheduled;
    ScheduledNext(site, s, ms, n, t);
  }

  /** Both take the request on and compute it, without touching the tables. */
  lemma BothCompute(
    site: Site, s: System, p: nat, q: nat, request: string, a: Operation, b: Operation, later: string, reason: string)
    requires site.session in s.db.sessions && Rivals(s, p, q)
    requires Taken(site, s, request, a) && Taken(site, s, request, b)
    ensures
      var r := ColdLoad(site, s.db);
      var t := s.(processes :=
        s.processes[p := Process(Some(r), Some(Computed(site, s, request, a)))]
          [q := Process(Some(r), Some(Computed(site, s, request, b)))]);
      Scheduled(site, s, Race(p, q, request, r.version, a, b, later, reason)[..4]) == Some(t)
  {
    hide Runs, Perform, Accepts, Scheduled, ChoiceMissing, SaveableStart;
    var r := ColdLoad(site, s.db);
    var ms := Race(p, q, request, r.version, a, b, later, reason);
    ScheduledNothing(site, s);
    assert ms[..0] == [];
    Acquires(site, s, p, request, a);
    var t1 := With(s, p, Process(Some(r), Some(Work(a, request, s.db, r, r, true, false))));
    Extends(site, s, ms, 0, s, t1);
    Acquires(site, t1, q, request, b);
    var t2 := With(t1, q, Process(Some(r), Some(Work(b, request, s.db, r, r, true, false))));
    Extends(site, s, ms, 1, t1, t2);
    Computes(site, t2, p);
    var t3 := With(t2, p, Process(Some(r), Some(Computed(site, s, request, a))));
    Extends(site, s, ms, 2, t2, t3);
    Computes(site, t3, q);
    var t4 := With(t3, q, Process(Some(r), Some(Computed(site, s, request, b))));
    Extends(site, s, ms, 3, t3, t4);
    assert t4.processes ==
      s.processes[p := Process(Some(r), Some(Computed(site, s, request, a)))]
        [q := Process(Some(r), Some(Computed(site, s, request, b)))];
  }

  lemma RaceRuns(
    site: Site, s: System, p: nat, q: nat, request: string, a: Operation, b: Operation, later: string, reason: string)
    requires site.session in s.db.sessions && Rivals(s, p, q)
    requires Taken(site, s, request, a) && Taken(site, s, request, b)
    requires MutationsAreOld(s.db) && Succeeds(site, s.db, Computed(site, s, request, a))
    ensures
      Scheduled(site, s, Race(p, q, request, Row(site, s.db).version, a, b, later, reason)[..6])
      == Some(Raced(site, s, p, q, request, a, b))
    ensures Wrote(site, s.db, Raced(site, s, p, q, request, a, b).db, Computed(site, s, request, a))
  {
    hide Runs, Perform, Accepts, Scheduled, ChoiceMissing, SaveableStart, WorkOutcome, Stored, MutationsAreOld;
    hide Succeeds;
    BothCompute(site, s, p, q, request, a, b, later, reason);
    var r := ColdLoad(site, s.db);
    var v := r.version;
    var ms := Race(p, q, request, v, a, b, later, reason);
    var won, lost := Computed(site, s, request, a), Computed(site, s, request, b);
    var t4 := s.(processes := s.processes[p := Process(Some(r), Some(won))][q := Process(Some(r), Some(lost))]);
    Lands(site, t4, p);
    var t5 := With(t4, p, Process(Some(Runner(won.mine.state, v + 1)), None))
      .(db := WorkOutcome(site, s.db, won).0, history := s.history + [Stored(site.rules, won.mine.state)],
        applied := s.applied + [Applied(a, s.db)]);
    Extends(site, s, ms, 4, t4, t5);
    Adopted(site, t5, q);
    var t6 := With(t5, q, Process(Some(Runner(lost.mine.state, v + 1)), None));
    Extends(site, s, ms, 5, t5, t6);
    assert t6.processes == Raced(site, s, p, q, request, a, b).processes;
  }

  /** A session can be ended at any time. */
  lemma EndsFreely(site: Site, db: Db, s: Session, reason: string)
    ensures !ChoiceMissing(s, Finish(reason)) && SaveableStart(Finish(reason))
    ensures Accepts(db, site.user, s, Finish(reason))
    ensures Perform(site.rules, db, site.user, s, Finish(reason)) == Finished(s, reason)
  {
  }

  /** The loser's next request, computed from the adopted runner. */
  ghost function Ending(
    site: Site, s: System, p: nat, q: nat, request: string, a: Operation, b: Operation, later: string, reason: string)
    : Work
    requires site.session in s.db.sessions && Rivals(s, p, q)
    requires Taken(site, s, request, a) && Taken(site, s, request, b)
  {
    var r := Runner(Result(site, s, b), Row(site, s.db).version + 1);
    var seen := Raced(site, s, p, q, request, a, b).db;
    Work(Finish(reason), later, seen, Runner(Finished(r.state, reason), r.version), r, true, true)
  }

  /** Both commits of the race succeed; a guest's always do. */
  ghost predicate BothSucceed(
    site: Site, s: System, p: nat, q: nat, request: string, a: Operation, b: Operation, later: string, reason: string)
    requires site.session in s.db.sessions && Rivals(s, p, q)
    requires Taken(site, s, request, a) && Taken(site, s, request, b)
  {
    && Succeeds(site, s.db, Computed(site, s, request, a))
    && Succeeds(site, Raced(site, s, p, q, request, a, b).db, Ending(site, s, p, q, request, a, b, later, reason))
  }

  /** The loser's next request is taken on, computed and committed. */
  lemma LoserCommits(
    site: Site, s: System, p: nat, q: nat, request: string, a: Operation, b: Operation, later: string, reason: string)
    requires site.session in s.db.sessions && Rivals(s, p, q)
    requires Taken(site, s, request, a) && Taken(site, s, request, b)
    requires !Protocol.Logged(site, s.db, later) && later != request
    requires MutationsAreOld(s.db) && BothSucceed(site, s, p, q, request, a, b, later, reason)
    ensures
      var u := Raced(site, s, p, q, request, a, b);
      var t := Scheduled(site, s, Race(p, q, request, Row(site, s.db).version, a, b, later, reason));
      && t.Some?
      && t.value.history == u.history + [Stored(site.rules, Finished(Result(site, s, b), reason))]
      && t.value.applied == u.applied + [Applied(Finish(reason), u.db)]
  {
    hide Runs, Result, Scheduled, WorkOutcome, Stored, Finished, Accepts, ChoiceMissing, Perform, StoredVersion;
    hide MutationsAreOld, Succeeds;
    RaceRuns(site, s, p, q, request, a, b, later, reason);
    var v := Row(site, s.db).version;
    var ms := Race(p, q, request, v, a, b, later, reason);
    var u := Raced(site, s, p, q, request, a, b);
    var r := Runner(Result(site, s, b), v + 1);
    EndsFreely(site, u.db, r.state, reason);
    Acquires(site, u, q, later, Finish(reason));
    var t1 := With(u, q, Process(Some(r), Some(Work(Finish(reason), later, u.db, r, r, true, false))));
    Extends(site, s, ms, 6, u, t1);
    Computes(site, t1, q);
    var k := Ending(site, s, p, q, request, a, b, later, reason);
    var t2 := With(t1, q, Process(Some(r), Some(k)));
    assert t2 == With(t1, q, t1.processes[q].(work := Some(k)));
    Extends(site, s, ms, 7, t1, t2);
    Lands(site, t2, q);
    var t3 := With(t2, q, Process(Some(Runner(k.mine.state, v + 2)), None))
      .(db := WorkOutcome(site, u.db, k).0, history := u.history + [Stored(site.rules, k.mine.state)],
        applied := u.applied + [Applied(Finish(reason), u.db)]);
    Extends(site, s, ms, 8, t2, t3);
    assert ms[..9] == ms;
  }

  // ---- What is lost --------------------------------------------------------

  lemma ResultIsReady(site: Site, s: System, op: Operation)
    requires SystemOk(site, s) && Accepts(s.db, site.user, Row(site, s.db).snapshot, op) && SaveableStart(op)
    ensures Ready(Result(site, s, op)) && |s.history| == Row(site, s.db).version + 1 == |s.applied| + 1
  {
    hide Ready, Perform, Accepts, OneOperation, ProcessOk, SaveableStart;
    PerformIsReady(site.rules, s.db, site.user, Row(site, s.db).snapshot, op);
  }

  lemma FinishedAlike(s: Session, t: Session, reason: string)
    requires SessionsAlike(s, t)
    ensures SessionsAlike(Finished(s, reason), Finished(t, reason))
  {
  }

  lemma FinishedIsReady(s: Session, reason: string)
    requires Ready(s)
    ensures Ready(Finished(s, reason))
  {
    hide NoRepeats, CleanTexts, InScale, Trim;
  }

  /** What ending makes of the committed version, against what it made of the loser's own state. */
  lemma OverwriteIsOperationIff(site: Site, db: Db, won: Session, lost: Session, reason: string)
    requires Ready(won) && Ready(lost)
    ensures
      var held, next := Stored(site.rules, won), Stored(site.rules, Finished(lost, reason));
      OneOperation(site, held, Applied(Finish(reason), db), next) <==>
      SessionsAlike(Finished(won, reason), Finished(lost, reason))
  {
    hide Ready, SessionsAlike, Stored, Finished;
    StoredIsAlike(site.rules, won);
    FinishedIsReady(lost, reason);
    StoredIsAlike(site.rules, Finished(lost, reason));
    var held := Stored(site.rules, won);
    var mine := Finished(lost, reason);
    var next := Stored(site.rules, mine);
    EndsFreely(site, db, held, reason);
    FinishedAlike(won, held, reason);
    AlikeBack(Finished(won, reason), Finished(held, reason));
    AlikeBack(mine, next);
    if SessionsAlike(Finished(held, reason), next) {
      AlikeThrough(Finished(won, reason), Finished(held, reason), next);
      AlikeThrough(Finished(won, reason), next, mine);
    }
    if SessionsAlike(Finished(won, reason), mine) {
      AlikeThrough(Finished(held, reason), Finished(won, reason), mine);
      AlikeThrough(Finished(held, reason), mine, next);
    }
  }

  /**
   Two processes race with one request and the loser then ends the session. The
   adopted runner is coherent exactly when both results are alike, and what it commits
   is one operation on the committed version exactly when they are alike once ended.
   */
  lemma RaceOutcome(
    site: Site, s: System, p: nat, q: nat, request: string, a: Operation, b: Operation, later: string, reason: string)
    requires SystemOk(site, s) && Rivals(s, p, q) && site.session in s.db.sessions
    requires Taken(site, s, request, a) && Taken(site, s, request, b)
    requires !Protocol.Logged(site, s.db, later) && later != request
    requires BothSucceed(site, s, p, q, request, a, b, later, reason)
    ensures
      var v := Row(site, s.db).version;
      var ms := Race(p, q, request, v, a, b, later, reason);
      var u, t := Scheduled(site, s, ms[..6]), Scheduled(site, s, ms);
      var won, lost := Result(site, s, a), Result(site, s, b);
      && u == Some(Raced(site, s, p, q, request, a, b)) && t.Some?
      && |t.value.history| == v + 3 && |t.value.applied| == v + 2
      && t.value.history[v + 1..] == [Stored(site.rules, won), Stored(site.rules, Finished(lost, reason))]
      && (Coherent(u.value, u.value.processes[q].cache.value) <==> SessionsAlike(won, lost))
      && (OneOperation(site, t.value.history[v + 1], t.value.applied[v + 1], t.value.history[v + 2]) <==>
          SessionsAlike(Finished(won, reason), Finished(lost, reason)))
  {
    hide Scheduled, SystemOk, Taken, Result, Stored, Finished, SessionsAlike, Ready, OneOperation, WorkOutcome;
    hide BothSucceed;
    HistoryHasRow(site, s) by { SystemHasHistory(site, s); }
    SucceedsFirst(site, s, p, q, request, a, b, later, reason);
    assert Taken(site, s, request, a) && Taken(site, s, request, b);
    TakenIsReady(site, s, request, a);
    TakenIsReady(site, s, request, b);
    RaceRuns(site, s, p, q, request, a, b, later, reason);
    LoserCommits(site, s, p, q, request, a, b, later, reason);
    var won, lost := Result(site, s, a), Result(site, s, b);
    RunnerIsCoherentIff(site, won, lost);
    OverwriteIsOperationIff(site, Raced(site, s, p, q, request, a, b).db, won, lost, reason);
  }

  lemma SystemHasHistory(site: Site, s: System)
    requires SystemOk(site, s)
    ensures HistoryOk(site, s)
  {
  }

  lemma SucceedsFirst(
    site: Site, s: System, p: nat, q: nat, request: string, a: Operation, b: Operation, later: string, reason: string)
    requires site.session in s.db.sessions && Rivals(s, p, q)
    requires Taken(site, s, request, a) && Taken(site, s, request, b)
    requires BothSucceed(site, s, p, q, request, a, b, later, reason)
    ensures Succeeds(site, s.db, Computed(site, s, request, a))
  {
  }

  // ---- When both commits succeed -------------------------------------------

  /** A committed start or logged turn leaves its session with a run. */
  lemma RunExistsAfter(db: Db, c: Mutation)
    requires c.user.Some? && c.rewind.None? && (c.turn.Some? || c.startRun.Some?) && Written(db, c).Ok?
    ensures c.session in Written(db, c).value.runs
  {
    hide Written, StoreLaws.Opened, Closed, Ensured;
    WrittenInTwo(db, c);
    var mid := StoreLaws.Opened(db, c).value;
    if c.startRun.Some? {
      StartOpensRun(db, c);
    }
    ClosedKeepsRun(mid, c);
  }

  lemma StartOpensRun(db: Db, c: Mutation)
    requires c.user.Some? && c.rewind.None? && c.startRun.Some? && StoreLaws.Opened(db, c).Ok?
    ensures c.session in StoreLaws.Opened(db, c).value.runs
  {
  }

  lemma FinalizedKeepsRun(db: Db, session: string, user: string, t: Terminal)
    requires Finalized(db, session, user, t).Ok? && session in db.runs
    ensures session in Finalized(db, session, user, t).value.runs
  {
    hide Keys, Granted, Progressed;
  }

  lemma LoggedHasRun(db: Db, run: string, turn: TurnRow)
    requires SessionStore.Logged(db, run, turn).Ok?
    ensures run in db.runs && run in SessionStore.Logged(db, run, turn).value.runs
  {
    hide RequestLogged;
  }

  lemma ClosedKeepsRun(db: Db, c: Mutation)
    requires c.user.Some? && Closed(db, c).Ok? && (c.turn.Some? || c.session in db.runs)
    ensures c.session in Closed(db, c).value.runs
  {
    hide SessionStore.Logged, Finalized;
    var logged := db;
    if c.turn.Some? {
      LoggedHasRun(db, c.session, c.turn.value);
      logged := SessionStore.Logged(db, c.session, c.turn.value).value;
    }
    var spent := if c.consume then Consumed(logged, c.user.value) else logged;
    if c.terminal.Some? {
      FinalizedKeepsRun(spent, c.session, c.user.value, c.terminal.value);
    }
  }

  /** What makes ending a session fail is only a missing run of a registered user. */
  lemma EndingSucceeds(site: Site, db: Db, k: Work)
    requires k.op.Finish? && k.mine.state.core.over
    requires site.session in db.sessions && Row(site, db).version == k.before.version
    requires !Protocol.Logged(site, db, k.request) && (site.user.None? || site.session in db.runs)
    ensures Succeeds(site, db, k)
  {
    hide Stored, Keys, Granted, Progressed;
  }

  lemma GuestSucceeds(site: Site, db: Db, k: Work)
    requires site.user.None? && site.session in db.sessions && Row(site, db).version == k.before.version
    requires !Protocol.Logged(site, db, k.request)
    ensures Succeeds(site, db, k)
  {
    hide Stored, TerminalOf, TurnPayload;
  }

  /** The winner's operation is one that a registered user's run records. */
  ghost predicate Records(site: Site, k: Work) {
    var c := MutationFor(site.rules, site.session, site.user, k.before.state, k.mine.state, k.before.version,
                         k.request, k.op);
    site.user.Some? ==> c.rewind.None? && (c.turn.Some? || c.startRun.Some?)
  }

  lemma RecordedRunExists(site: Site, db: Db, k: Work)
    requires Succeeds(site, db, k) && Records(site, k) && site.user.Some?
    ensures site.session in WorkOutcome(site, db, k).0.runs
  {
    hide Stored, TerminalOf, TurnPayload, MutationFor, Written;
    var c := MutationFor(site.rules, site.session, site.user, k.before.state, k.mine.state, k.before.version,
                         k.request, k.op);
    MutationOfWork(site, k);
    RunExistsAfter(Swapped(db, c), c);
  }

  /** It is enough that the winner's commit succeeds. */
  lemma WinnerDecides(
    site: Site, s: System, p: nat, q: nat, request: string, a: Operation, b: Operation, later: string, reason: string)
    requires SystemOk(site, s) && Rivals(s, p, q) && site.session in s.db.sessions
    requires Taken(site, s, request, a) && Taken(site, s, request, b)
    requires !Protocol.Logged(site, s.db, later) && later != request
    requires site.user.None? || Succeeds(site, s.db, Computed(site, s, request, a))
    requires Records(site, Computed(site, s, request, a))
    ensures BothSucceed(site, s, p, q, request, a, b, later, reason)
  {
    hide SystemOk, WorkOutcome, Succeeds, Records, Result, Taken, MutationsAreOld, Stored;
    HistoryHasRow(site, s) by { SystemHasHistory(site, s); }
    TakenUp(site, s, request, a);
    TakenUp(site, s, request, b);
    var won := Computed(site, s, request, a);
    if site.user.None? {
      GuestSucceeds(site, s.db, won);
    } else {
      RecordedRunExists(site, s.db, won);
    }
    CommitWrites(site, s.db, won);
    var k := Ending(site, s, p, q, request, a, b, later, reason);
    EndingSucceeds(site, Raced(site, s, p, q, request, a, b).db, k);
  }

  lemma TakenUp(site: Site, s: System, request: string, op: Operation)
    requires site.session in s.db.sessions && Taken(site, s, request, op)
    ensures !Protocol.Logged(site, s.db, request) && Accepts(s.db, site.user, Row(site, s.db).snapshot, op)
  {
  }

  lemma TakenIsReady(site: Site, s: System, request: string, op: Operation)
    requires SystemOk(site, s) && site.session in s.db.sessions && Taken(site, s, request, op)
    ensures Accepts(s.db, site.user, Row(site, s.db).snapshot, op) && Ready(Result(site, s, op))
    ensures |s.history| == Row(site, s.db).version + 1 == |s.applied| + 1
  {
    hide SystemOk, Result, Ready, Accepts, SaveableStart, ChoiceMissing;
    ResultIsReady(site, s, op);
  }

  lemma RunnerIsCoherentIff(site: Site, won: Session, lost: Session)
    requires Ready(won)
    ensures SessionsAlike(Stored(site.rules, won), lost) <==> SessionsAlike(won, lost)
  {
    hide Ready, SessionsAlike, Stored;
    StoredIsAlike(site.rules, won);
    AlikeBack(won, Stored(site.rules, won));
    if SessionsAlike(Stored(site.rules, won), lost) {
      AlikeThrough(won, Stored(site.rules, won), lost);
    }
    if SessionsAlike(won, lost) {
      AlikeThrough(Stored(site.rules, won), won, lost);
    }
  }

  /**
   The race loses a committed turn: one process has it narrated and commits it, the
   other gets no answer and freezes it. The frozen state is adopted under the version
   of the settled turn, and ending the session then stores the turn count from before.
   */
  lemma CommittedTurnIsLost(
    site: Site, s: System, p: nat, q: nat, request: string, i: Input, answer: Answer, later: string, reason: string)
    requires SystemOk(site, s) && Rivals(s, p, q) && site.session in s.db.sessions
    requires AnswerMatters(Row(site, s.db).snapshot, i) && Usable(answer)
    requires !Protocol.Logged(site, s.db, request) && !Protocol.Logged(site, s.db, later) && later != request
    requires site.user.None? || Succeeds(site, s.db, Computed(site, s, request, Advance(Play(i, answer))))
    ensures
      var v, held := Row(site, s.db).version, Row(site, s.db).snapshot;
      var ms := Race(p, q, request, v, Advance(Play(i, answer)), Advance(Play(i, NoAnswer)), later, reason);
      var u, t := Scheduled(site, s, ms[..6]), Scheduled(site, s, ms);
      && u.Some? && t.Some? && |t.value.history| == v + 3 && |t.value.applied| == v + 2
      && q < |u.value.processes| && u.value.processes[q].cache.Some?
      && !Coherent(u.value, u.value.processes[q].cache.value)
      && t.value.history[v + 1].core.turnCount == held.core.turnCount + 1
      && t.value.history[v + 2].core.turnCount == held.core.turnCount
      && !OneOperation(site, t.value.history[v + 1], t.value.applied[v + 1], t.value.history[v + 2])
  {
    hide Scheduled, SystemOk, Stored, SessionsAlike, Ready, OneOperation, WorkOutcome, Step, Usable, Coherent;
    var held := Row(site, s.db).snapshot;
    var a, b := Advance(Play(i, answer)), Advance(Play(i, NoAnswer));
    TurnIsTaken(site, s, request, i, answer);
    TurnIsTaken(site, s, request, i, NoAnswer);
    TurnRecords(site, s, request, i, answer);
    WinnerDecides(site, s, p, q, request, a, b, later, reason);
    RaceOutcome(site, s, p, q, request, a, b, later, reason);
    SettledOrFrozen(site.rules.w, held, i, answer);
    var won, lost := Result(site, s, a), Result(site, s, b);
    StoredKeepsCount(site.rules, won);
    StoredKeepsCount(site.rules, Finished(lost, reason));
    DifferentPending(won, lost, reason);
  }

  lemma TurnIsTaken(site: Site, s: System, request: string, i: Input, x: Answer)
    requires site.session in s.db.sessions && AnswerMatters(Row(site, s.db).snapshot, i)
    requires !Protocol.Logged(site, s.db, request)
    ensures Taken(site, s, request, Advance(Play(i, x)))
    ensures Result(site, s, Advance(Play(i, x))) == Step(site.rules.w, Row(site, s.db).snapshot, Play(i, x))
  {
    hide Step;
  }

  lemma TurnRecords(site: Site, s: System, request: string, i: Input, x: Answer)
    requires site.session in s.db.sessions && AnswerMatters(Row(site, s.db).snapshot, i) && Usable(x)
    ensures Records(site, Computed(site, s, request, Advance(Play(i, x))))
  {
    hide Step, Stored, TerminalOf, Usable;
    var held := Row(site, s.db).snapshot;
    SettledOrFrozen(site.rules.w, held, i, x);
    StepRecordsTurns(site.rules.w, held, Play(i, x));
  }

  lemma StoredKeepsCount(rules: Rules, s: Session)
    ensures Stored(rules, s).core.turnCount == s.core.turnCount
  {
  }

  lemma DifferentPending(won: Session, lost: Session, reason: string)
    requires won.pending != lost.pending
    ensures !SessionsAlike(won, lost) && !SessionsAlike(Finished(won, reason), Finished(lost, reason))
    ensures Finished(lost, reason).core.turnCount == lost.core.turnCount
  {
  }

  /** A usable answer settles the turn now; without an answer it is frozen and not counted. */
  lemma SettledOrFrozen(w: World, s: Session, i: Input, x: Answer)
    requires AnswerMatters(s, i) && Usable(x)
    ensures
      var won, lost := Step(w, s, Play(i, x)), Step(w, s, Play(i, NoAnswer));
      && won.pending.None? && lost.pending.Some?
      && won.core.turnCount == s.core.turnCount + 1 && lost.core == s.core
  {
    hide TurnDelta, AttemptOutcome, AfterTurn, AfterAttempt, ShownChoices, Normalized, LocalTurn;
    SettledCounts(w, s.core);
  }

  lemma SettledCounts(w: World, c: Core)
    ensures forall d :: AfterTurn(w, c, d).turnCount == c.turnCount + 1
    ensures forall d :: AfterAttempt(w, c, d).turnCount == c.turnCount + 1
  {
    forall d ensures AfterTurn(w, c, d).turnCount == c.turnCount + 1
                     && AfterAttempt(w, c, d).turnCount == c.turnCount + 1 {
      TurnMovesCounters(w, c, d);
      ApplyKeepsCounters(Bump(c), AttachStory(w, Bump(c), d));
    }
  }

  /** A start as a process holds it when its opening has been narrated. */
  function StartWork(site: Site, db: Db, request: string, core: Core, answer: Answer): Work
    requires site.session in db.sessions
  {
    var r := ColdLoad(site, db);
    Work(Begin(core, answer, false), request, db, Runner(Begun(site.rules.w, core, answer), r.version), r, true, true)
  }

  lemma StartRecords(site: Site, s: System, request: string, core: Core, answer: Answer)
    requires site.session in s.db.sessions
    ensures Computed(site, s, request, Begin(core, answer, false)) == StartWork(site, s.db, request, core, answer)
    ensures Records(site, StartWork(site, s.db, request, core, answer))
  {
    hide Stored, TerminalOf, Begun;
  }

  /**
   The same from the very first request of a fresh session: two processes start it,
   one opening is narrated and one fails, and the failed one is stored on top.
   */
  lemma OpeningRace(
    site: Site, db: Db, request: string, core: Core, answer: Answer, later: string, reason: string)
    requires site.session in db.sessions && Row(site, db).version == 0 && Row(site, db).user == site.user
    requires Ready(Row(site, db).snapshot) && (forall k :: k in db.saves ==> Ready(db.saves[k])) && MutationsAreOld(db)
    requires Saveable(core) && Usable(answer)
    requires !Protocol.Logged(site, db, request) && !Protocol.Logged(site, db, later) && later != request
    requires site.user.None? || Succeeds(site, db, StartWork(site, db, request, core, answer))
    ensures
      var s := System(db, [Process(None, None), Process(None, None)], [Row(site, db).snapshot], []);
      var ms := Race(0, 1, request, 0, Begin(core, answer, false), Begin(core, NoAnswer, false), later, reason);
      var u, t := Scheduled(site, s, ms[..6]), Scheduled(site, s, ms);
      && SystemOk(site, s) && u.Some? && t.Some? && |t.value.history| == 3 && |t.value.applied| == 2
      && |u.value.processes| == 2 && u.value.processes[1].cache.Some?
      && !Coherent(u.value, u.value.processes[1].cache.value)
      && !OneOperation(site, t.value.history[1], t.value.applied[1], t.value.history[2])
  {
    hide Scheduled, SystemOk, Stored, SessionsAlike, Ready, OneOperation, WorkOutcome, Begun, Usable, Coherent;
    hide MutationsAreOld, Saveable;
    var s := System(db, [Process(None, None), Process(None, None)], [Row(site, db).snapshot], []);
    FreshSystemIsOk(site, db, s.processes);
    var a, b := Begin(core, answer, false), Begin(core, NoAnswer, false);
    WinnerDecides(site, s, 0, 1, request, a, b, later, reason) by { StartRecords(site, s, request, core, answer); }
    RaceOutcome(site, s, 0, 1, request, a, b, later, reason);
    OpenedOrFrozen(site.rules.w, core, answer);
    DifferentPending(Result(site, s, a), Result(site, s, b), reason);
  }

  lemma OpenedOrFrozen(w: World, core: Core, answer: Answer)
    requires Usable(answer)
    ensures Begun(w, core, answer).pending.None? && Begun(w, core, NoAnswer).pending.Some?
  {
    hide ShownChoices, Normalized;
  }
}
