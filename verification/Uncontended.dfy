/**
 The interleaved system and the single request agree: a process that nobody disturbs
 between taking a request on and landing it leaves the tables and its cached runner
 exactly as serving the request in one go does.
 */
module Uncontended {
  import opened GameConstants
  import opened GameSession
  import opened Engine
  import opened SaveLoad
  import opened SessionStore
  import opened StoreLaws
  import opened Operations
  import opened Protocol

  /** A process with a cached runner and nothing in flight. */
  predicate Idle(s: System, p: nat, r: Runner) {
    p < |s.processes| && s.processes[p] == Process(Some(r), None)
  }

  /** The request is turned away before any work on it. */
  predicate TurnedAway(site: Site, db: Db, r: Runner, request: string, expected: nat, op: Operation) {
    ChoiceMissing(r.state, op) || Protocol.Logged(site, db, request) || expected != r.version
  }

  /** A schedule ran and left these tables, and process p idle with that runner. */
  predicate Leaves(t: Option<System>, s: System, p: nat, db: Db, after: Runner)
    requires p < |s.processes|
  {
    t.Some? && t.value.db == db && t.value.processes == s.processes[p := Process(Some(after), None)]
  }

  /** Whether serving the request leaves what the schedule left. */
  ghost predicate LeftAsServed(
    site: Site, s: System, p: nat, r: Runner, request: string, op: Operation, t: Option<System>)
    requires p < |s.processes|
  {
    var (db, after, _) := Serve(site.rules, s.db, site.session, site.user, r, request, r.version, op);
    Leaves(t, s, p, db, after)
  }

  /** A request that is turned away changes nothing, here and there. */
  lemma TurnedAwayIsServed(
    site: Site, s: System, p: nat, r: Runner, request: string, expected: nat, op: Operation)
    requires site.session in s.db.sessions && Idle(s, p, r) && SaveableStart(op)
    requires TurnedAway(site, s.db, r, request, expected, op)
    ensures
      var (db, after, reply) := Serve(site.rules, s.db, site.session, site.user, r, request, expected, op);
      && db == s.db && after == r && (reply == Rejected || reply.Repeated? || reply == Stale)
      && Next(site, s, Acquire(p, request, expected, op)) == s
  {
    hide ChoiceMissing, SaveableStart, MutationFor;
    assert s.processes[p := s.processes[p]] == s.processes;
  }

  /** What the process holds when the work is computed. */
  function Landing(site: Site, s: System, r: Runner, request: string, op: Operation): Work
    requires Accepts(s.db, site.user, r.state, op)
  {
    Work(op, request, s.db, Runner(Perform(site.rules, s.db, site.user, r.state, op), r.version), r, !op.Restore?, true)
  }

  lemma TakenOnAndComputed(site: Site, s: System, p: nat, r: Runner, request: string, op: Operation)
    requires site.session in s.db.sessions && Idle(s, p, r) && SaveableStart(op)
    requires !TurnedAway(site, s.db, r, request, r.version, op) && Accepts(s.db, site.user, r.state, op)
    ensures
      Scheduled(site, s, [Acquire(p, request, r.version, op), Compute(p)])
      == Some(With(s, p, Process(Some(r), Some(Landing(site, s, r, request, op)))))
  {
    hide ChoiceMissing, SaveableStart, Accepts, Perform;
    var ms := [Acquire(p, request, r.version, op), Compute(p)];
    var taken := With(s, p, Process(Some(r), Some(Work(op, request, s.db, r, r, !op.Restore?, false))));
    assert ms[..0] == [] && ms[..2] == ms;
    assert Next(site, s, ms[0]) == taken;
    ScheduledNext(site, s, ms, 0, s);
    ScheduledNext(site, s, ms, 1, taken);
    assert taken.processes[p := Process(Some(r), Some(Landing(site, s, r, request, op)))]
        == s.processes[p := Process(Some(r), Some(Landing(site, s, r, request, op)))];
  }

  lemma LandedAsServed(site: Site, s: System, p: nat, r: Runner, request: string, op: Operation)
    requires site.session in s.db.sessions && Accepts(s.db, site.user, r.state, op) && p < |s.processes|
    requires s.processes[p] == Process(Some(r), Some(Landing(site, s, r, request, op)))
    requires !TurnedAway(site, s.db, r, request, r.version, op)
    ensures
      var (db, after, reply) := Serve(site.rules, s.db, site.session, site.user, r, request, r.version, op);
      var t := Next(site, s, Land(p));
      t.db == db && t.processes == s.processes[p := Process(Some(after), None)]
  {
    hide ChoiceMissing, Accepts, Perform, Stored, MutationFor;
    var k := Landing(site, s, r, request, op);
    WorkOutcomeKinds(site, s, k);
  }

  /**
   Taken on, computed and landed without anything in between, a request that the
   service accepts leaves exactly the tables and the runner that serving it leaves,
   committed or rolled back.
   */
  lemma UncontendedRequestIsServed(site: Site, s: System, p: nat, r: Runner, request: string, op: Operation)
    requires site.session in s.db.sessions && Idle(s, p, r) && SaveableStart(op)
    requires !TurnedAway(site, s.db, r, request, r.version, op) && Accepts(s.db, site.user, r.state, op)
    ensures
      var t := Scheduled(site, s, [Acquire(p, request, r.version, op), Compute(p), Land(p)]);
      LeftAsServed(site, s, p, r, request, op, t)
  {
    hide ChoiceMissing, SaveableStart, Accepts, Perform, Serve, Next, Scheduled;
    TakenOnAndComputed(site, s, p, r, request, op);
    var ms := [Acquire(p, request, r.version, op), Compute(p), Land(p)];
    var u := With(s, p, Process(Some(r), Some(Landing(site, s, r, request, op))));
    assert ms[..2] == [Acquire(p, request, r.version, op), Compute(p)] && ms[..3] == ms;
    ScheduledNext(site, s, ms, 2, u);
    LandedAsServed(site, u, p, r, request, op);
    var after := Serve(site.rules, s.db, site.session, site.user, r, request, r.version, op).1;
    assert u.processes[p := Process(Some(after), None)] == s.processes[p := Process(Some(after), None)];
  }

  /** A turn that cannot be accepted is rolled back, here and there. */
  lemma RefusedTurnIsServed(site: Site, s: System, p: nat, r: Runner, request: string, e: Event)
    requires site.session in s.db.sessions && Idle(s, p, r)
    requires !TurnedAway(site, s.db, r, request, r.version, Advance(e))
    requires !Accepts(s.db, site.user, r.state, Advance(e))
    ensures
      var (db, after, reply) := Serve(site.rules, s.db, site.session, site.user, r, request, r.version, Advance(e));
      var t := Scheduled(site, s, [Acquire(p, request, r.version, Advance(e)), Abort(p)]);
      && reply == Rejected && t.Some? && t.value.db == db && Idle(t.value, p, after)
  {
    hide ChoiceMissing, Accepts, Perform, Stored;
    var op := Advance(e);
    var ms := [Acquire(p, request, r.version, op), Abort(p)];
    var taken := With(s, p, Process(Some(r), Some(Work(op, request, s.db, r, r, true, false))));
    assert ms[..0] == [] && ms[..2] == ms;
    assert Next(site, s, ms[0]) == taken;
    ScheduledNext(site, s, ms, 0, s);
    ScheduledNext(site, s, ms, 1, taken);
  }
}
