/**
 The version 3 fate state told from the played turns: clues, focus, event weights and
 consequences are folds over them, commitments follow the calendar, motifs the phase,
 and the exposure roll the marks.
 */
module FateFolds {
  import opened GameConstants
  import opened RuleRng
  import opened StoryCatalog
  import opened StoryLaws
  import opened ListLaws

  function Count(turns: seq<StoryTurn>, route: Category): nat {
    if turns == [] then 0
    else Count(turns[..|turns| - 1], route) + if turns[|turns| - 1].category == route then 1 else 0
  }

  /** A fate choice pulls the fate weight up on odd turns and down on even ones, within three. */
  function FatePull(turns: seq<StoryTurn>): int {
    if turns == [] then 0
    else
      var before := FatePull(turns[..|turns| - 1]);
      if turns[|turns| - 1].category != Fate then before
      else if |turns| % 2 == 1 then Min(3, before + 1)
      else Max(-3, before - 1)
  }

  /** Turn, phase and route of every turn. */
  function Trail(turns: seq<StoryTurn>): seq<Consequence> {
    if turns == [] then []
    else Trail(turns[..|turns| - 1]) + [Consequence(|turns|, (|turns| - 1) / 10, turns[|turns| - 1].category)]
  }

  function UpTo(n: nat): seq<nat> { seq(n, i => i) }

  /** The phase a number of turns has led to. */
  function PhaseOf(turns: nat): nat { if turns == 0 then 0 else (turns - 1) / 10 }

  /** Attitudes count the routes up to ten. */
  ghost predicate KeepsRoutes(s: StoryState, turns: seq<StoryTurn>) {
    && (forall o :: RouteCount(s.routes, o) == Count(turns, o))
    && s.ally == Min(10, Count(turns, Steady)) && s.rival == -Min(10, Count(turns, Risk))
    && s.neutral == Min(10, Count(turns, Chance))
  }

  predicate KeepsFate(f: FateState, turns: seq<StoryTurn>) {
    && f.clues == Count(turns, Chance) && f.focus == Count(turns, Fate) && f.riskMarks == DueRisks(turns)
    && f.weights == Weights(0, 0, 0, FatePull(turns)) && -3 <= FatePull(turns) <= 3
    && f.consequences == Tail(Trail(turns), 30)
  }

  ghost predicate KeepsCount(s: StoryState, turns: seq<StoryTurn>) {
    KeepsRoutes(s, turns) && KeepsFate(s.fate, turns)
  }

  /** Where the arc stands after a number of turns; the open threads are the last six up to the coming phase. */
  predicate StandsAt(s: StoryState, turns: nat) {
    && s.progress == turns && s.phase == PhaseOf(turns)
    && (s.status == Active ==> s.threads == Tail(UpTo(PhaseOf(turns) + 2), 6))
  }

  /** Opening the thread after this phase, whether or not it is open already. */
  lemma ThreadsAdvance(turns: nat)
    ensures
      Tail(AddNew(Tail(UpTo(PhaseOf(turns) + 2), 6), PhaseOf(turns + 1) + 1), 6)
      == Tail(UpTo(PhaseOf(turns + 1) + 2), 6)
  {
    var p, q := PhaseOf(turns), PhaseOf(turns + 1);
    assert q == p || q == p + 1;
    var open := Tail(UpTo(p + 2), 6);
    if q == p {
      assert open[|open| - 1] == p + 1;
    } else {
      assert q + 1 !in open;
      assert UpTo(q + 2) == UpTo(p + 2) + [q + 1];
    }
  }

  lemma TailExtends<T>(s: seq<T>, x: T, n: nat)
    requires 0 < n
    ensures Tail(Tail(s, n) + [x], n) == Tail(s + [x], n)
  {
  }

  lemma OneMore(turns: seq<StoryTurn>, t: StoryTurn)
    ensures
      var more := turns + [t];
      && (forall o :: Count(more, o) == Count(turns, o) + if t.category == o then 1 else 0)
      && DueRisks(more) == DueRisks(turns) + (if t.category == Risk && |more| % 4 == 0 then 1 else 0)
      && Trail(more) == Trail(turns) + [Consequence(|more|, (|more| - 1) / 10, t.category)]
      && FatePull(more) == (if t.category != Fate then FatePull(turns)
                            else if |more| % 2 == 1 then Min(3, FatePull(turns) + 1)
                            else Max(-3, FatePull(turns) - 1))
  {
    var more := turns + [t];
    assert more[..|more| - 1] == turns;
  }

  lemma TurnKeepsRoutes(dice: Dice, key: string, s: StoryState, turns: seq<StoryTurn>, t: StoryTurn)
    requires KeepsRoutes(s, turns) && 1 <= t.turn
    ensures KeepsRoutes(NextActive(dice, 3, key, s, t), turns + [t])
  {
    hide PickMotif, TurnBeats, Dominant, Outcome, NextFate, Count, DueRisks, Trail, FatePull, UpTo, PhaseAt;
    OneMore(turns, t);
  }

  lemma TurnKeepsFate(
    s: StoryState, turns: seq<StoryTurn>, t: StoryTurn, motif: Motif, status: StoryStatus)
    requires KeepsFate(s.fate, turns) && |turns| < 90 && t.turn == |turns| + 1
    ensures KeepsFate(NextFate(s.fate, s, PhaseAt(3, t.turn), motif, status, t), turns + [t])
  {
    hide AdvanceCommitments, Count, DueRisks, Trail, FatePull, Tail;
    OneMore(turns, t);
    TailExtends(Trail(turns), Consequence(t.turn, (t.turn - 1) / 10, t.category), 30);
    assert PhaseAt(3, t.turn) == (t.turn - 1) / 10;
  }

  lemma TurnKeepsCount(dice: Dice, key: string, s: StoryState, turns: seq<StoryTurn>, t: StoryTurn)
    requires KeepsCount(s, turns) && s.status == Active && |turns| < 90 && t.turn == |turns| + 1
    ensures KeepsCount(NextActive(dice, 3, key, s, t), turns + [t])
  {
    hide PickMotif, TurnBeats, Dominant, Outcome, NextFate, KeepsRoutes, KeepsFate, PhaseAt;
    TurnKeepsRoutes(dice, key, s, turns, t);
    var next := NextActive(dice, 3, key, s, t);
    var phase := PhaseAt(3, t.turn);
    var pressure := Max(0, s.pressure + PressureChange(3, t.category, t.turn % 4 == 0));
    var (status, _) := Outcome(3, s, CountRoute(s.routes, t.category), pressure, t);
    TurnKeepsFate(s, turns, t, PickMotif(dice, key, s, phase, t), status);
  }

  lemma TurnKeepsPlace(dice: Dice, key: string, s: StoryState, turns: nat, t: StoryTurn)
    requires StandsAt(s, turns) && s.status == Active && turns < 90 && t.turn == turns + 1
    ensures StandsAt(NextActive(dice, 3, key, s, t), turns + 1)
  {
    hide PickMotif, TurnBeats, Dominant, Outcome, NextFate, UpTo;
    ThreadsAdvance(turns);
  }

  lemma TellingReadsTurnNumber(turns: seq<StoryTurn>, t: StoryTurn)
    ensures KeepsCountOf(turns + [t]) == KeepsCountOf(turns + [t.(turn := |turns| + 1)])
  {
    var more, same := turns + [t], turns + [t.(turn := |turns| + 1)];
    OneMore(turns, t);
    OneMore(turns, t.(turn := |turns| + 1));
  }

  /** All that the folds read of some turns. */
  function KeepsCountOf(turns: seq<StoryTurn>): ((nat, nat, nat, nat), nat, int, seq<Consequence>) {
    ((Count(turns, Steady), Count(turns, Chance), Count(turns, Risk), Count(turns, Fate)),
     DueRisks(turns), FatePull(turns), Trail(turns))
  }

  lemma CountsAreOfTurns(s: StoryState, turns: seq<StoryTurn>, others: seq<StoryTurn>)
    requires KeepsCountOf(turns) == KeepsCountOf(others) && KeepsCount(s, turns)
    ensures KeepsCount(s, others)
  {
    forall o ensures Count(turns, o) == Count(others, o) {
      match o
      case Steady =>
      case Chance =>
      case Risk =>
      case Fate =>
    }
  }

  /** The calendar of both commitments. */
  function Calendar(turn: nat): CommitmentStatus {
    if turn == 0 then Pending else if turn <= 30 then Hooked else if turn <= 60 then Pressured else Due
  }

  /**
   Through every active version 3 arc: routes, attitudes, clues, focus, marks, weights
   and consequences are what the played turns make them, and both commitments stand
   where the calendar puts them.
   */
  lemma {:induction false} ArcKeepsCount(dice: Dice, key: string, seed: string, name: string, turns: seq<StoryTurn>)
    requires AllAlive(turns) && |turns| < 90
    ensures
      var s := Playthrough(dice, key, seed, name, turns);
      && KeepsCount(s, turns) && StandsAt(s, |turns|) && s.status == Active
      && |s.fate.commitments| == 2 && BothStand(s.fate.commitments, Calendar(|turns|))
  {
    hide ArcInvariant, Told, NextActive, KeepsCount, StandsAt, OpeningStory, KeepsCountOf, BothStand, Calendar;
    hide CommitmentStage;
    AliveArcIsActive(dice, key, seed, name, turns);
    ReachableArc(dice, key, seed, name, turns);
    CalendarOfArc(Playthrough(dice, key, seed, name, turns), |turns|);
    if turns == [] {
      OpeningCounts(dice, key, seed, name);
    } else {
      var n := |turns| - 1;
      var before, t := Playthrough(dice, key, seed, name, turns[..n]), turns[n];
      FewerAlive(turns);
      ArcKeepsCount(dice, key, seed, name, turns[..n]);
      TurnKeepsCount(dice, key, before, turns[..n], t.(turn := n + 1));
      TurnKeepsPlace(dice, key, before, n, t.(turn := n + 1));
      ToldActively(dice, key, before, t.(turn := n + 1));
      TellingReadsTurnNumber(turns[..n], t);
      assert turns == turns[..n] + [t];
      CountsAreOfTurns(Playthrough(dice, key, seed, name, turns), turns[..n] + [t.(turn := n + 1)], turns);
    }
  }

  lemma FewerAlive(turns: seq<StoryTurn>)
    requires AllAlive(turns) && turns != []
    ensures AllAlive(turns[..|turns| - 1])
  {
    assert forall i :: i in turns[..|turns| - 1] ==> i in turns;
  }

  lemma ToldActively(dice: Dice, key: string, s: StoryState, t: StoryTurn)
    requires s.status == Active && 1 <= t.turn
    ensures Told(dice, key, s, t) == NextActive(dice, 3, key, s, t)
  {
    hide NextActive;
    assert t.(turn := Max(1, t.turn)) == t;
  }

  lemma OpeningCounts(dice: Dice, key: string, seed: string, name: string)
    ensures KeepsCount(OpeningStory(dice, 3, key, seed, name), [])
    ensures StandsAt(OpeningStory(dice, 3, key, seed, name), 0)
  {
    hide CommitmentPair;
  }

  lemma CalendarOfArc(s: StoryState, turn: nat)
    requires ArcInvariant(s, turn) && s.status == Active
    ensures |s.fate.commitments| == 2 && BothStand(s.fate.commitments, Calendar(turn))
  {
  }

  // ---- Beats ---------------------------------------------------------------

  /** The beats kept are the last six; a turn that is neither due nor final adds none. */
  predicate Adds(s: StoryState, t: StoryState, beat: Option<Beat>) {
    t.beats == match beat
               case Some(b) => Tail(s.beats + [b], 6)
               case None => Tail(s.beats, 6)
  }

  /**
   The beat of a told turn. A due version 3 turn tells its event even when it is the
   last or a fatal one; otherwise death comes before the ending and the ending before
   the phase.
   */
  lemma BeatOfTurn(dice: Dice, version: nat, key: string, s: StoryState, i: StoryTurn)
    requires version in {1, 2, 3} && 1 <= i.turn
    ensures
      var t := NextActive(dice, version, key, s, i);
      var due := i.turn % 4 == 0;
      if version == 3 && due then
        Adds(s, t, Some(EventBeat(i.newAge, PickMotif(dice, key, s, t.phase, i), t.phase, i.category, i.lore)))
      else if i.dead then Adds(s, t, Some(DeathBeat))
      else if LastTurn(version) <= i.turn then Adds(s, t, Some(EndingBeat(t.ending)))
      else if due then Adds(s, t, Some(PhaseBeat(i.newAge, t.phase, i.category, i.lore)))
      else Adds(s, t, None)
  {
    hide PickMotif, NextFate, Dominant, PhaseAt;
    assert s.beats + [] == s.beats;
  }

  // ---- Which commitments, which motif --------------------------------------

  lemma {:induction false} LeastIsLeast(score: Category -> int, cs: seq<Category>)
    requires cs != []
    ensures forall o :: o in cs ==> score(Least(score, cs)) <= score(o)
  {
    if |cs| > 1 {
      LeastIsLeast(score, cs[1..]);
    }
  }

  /** The two commitments stand on the routes with the smallest and the next smallest digest. */
  lemma CommitmentsAreLeast(dice: Dice, seed: string, key: string)
    ensures
      var (first, second) := CommitmentPair(dice, seed, key);
      && (forall o :: dice.commitmentDigest(seed, key, first) <= dice.commitmentDigest(seed, key, o))
      && (forall o :: o != first ==> dice.commitmentDigest(seed, key, second) <= dice.commitmentDigest(seed, key, o))
  {
    hide Least, Without;
    var score := CommitmentScore(dice, seed, key);
    var all := [Steady, Chance, Risk, Fate];
    var first := Least(score, all);
    var rest := Without(all, first);
    assert (if first == Steady then Chance else Steady) in rest;
    var second := Least(score, rest);
    LeastIsLeast(score, all);
    LeastIsLeast(score, rest);
    forall o: Category
      ensures dice.commitmentDigest(seed, key, first) <= dice.commitmentDigest(seed, key, o)
      ensures o != first ==> dice.commitmentDigest(seed, key, second) <= dice.commitmentDigest(seed, key, o)
    {
      assert o in all by { EveryRoute(o); }
      assert score(first) <= score(o) && (o != first ==> score(second) <= score(o));
    }
  }

  lemma EveryRoute(c: Category)
    ensures c in [Steady, Chance, Risk, Fate]
  {
    match c
    case Steady => assert [Steady, Chance, Risk, Fate][0] == c;
    case Chance => assert [Steady, Chance, Risk, Fate][1] == c;
    case Risk => assert [Steady, Chance, Risk, Fate][2] == c;
    case Fate => assert [Steady, Chance, Risk, Fate][3] == c;
  }

  /** A story opens with both pending, in this order; without a seed the name decides. */
  lemma OpeningCommits(dice: Dice, key: string, seed: string, name: string)
    ensures
      var source := if seed == "" then "catalog:" + key + ":" + name else seed;
      var (first, second) := CommitmentPair(dice, source, key);
      OpeningStory(dice, 3, key, seed, name).fate.commitments
      == [Commitment(1, first, Pending), Commitment(2, second, Pending)]
  {
    hide CommitmentPair;
  }

  /**
   The motif of a turn belongs to its phase: the fresh one of the two, by the parity of
   the draw when both are, and a renamed one when neither is.
   */
  lemma MotifOfPhase(dice: Dice, key: string, s: StoryState, phase: nat, i: StoryTurn)
    requires 1 <= i.turn && |s.fate.motifs| <= 5
    ensures
      var motif := PickMotif(dice, key, s, phase, i);
      var even := dice.storyDigest(if s.fate.seed == "" then key else s.fate.seed, key, i.turn, i.category) % 2 == 0;
      var record, pressure := StoryCatalog.Record(phase), Pressure(phase);
      if record !in s.fate.motifs then
        motif == if pressure !in s.fate.motifs && !even then pressure else record
      else if pressure !in s.fate.motifs then motif == pressure
      else motif == Echo(if even then record else pressure, i.turn)
  {
  }

  // ---- The exposure roll ---------------------------------------------------

  /** Thousandths by which marks can fail a surviving arc. */
  function Exposure(marks: nat, hard: bool, aptitude: int): int {
    50 + 12 * marks + (if hard then 80 else 0) + 10 * Max(0, 12 - aptitude)
  }

  lemma {:induction false} MarksAreFew(turns: seq<StoryTurn>)
    ensures DueRisks(turns) <= |turns| / 4
  {
    if turns != [] {
      MarksAreFew(turns[..|turns| - 1]);
    }
  }

  /**
   A run that reaches its last turn alive fails exactly when it spent due turns on risk
   and the draw of that turn lies below its exposure. The cap of 650 thousandths is out
   of reach, even of the weakest character after twenty-two such turns.
   */
  lemma SurvivorFailsIff(dice: Dice, key: string, seed: string, name: string, turns: seq<StoryTurn>)
    requires |turns| == 90 && AllAlive(turns) && 0 <= turns[89].aptitude
    ensures
      var last, marks := turns[89], DueRisks(turns);
      && Exposure(marks, last.hard, last.aptitude) < 650
      && (Playthrough(dice, key, seed, name, turns).fate.resolution == Some(Failed) <==>
            0 < marks && last.riskWord * 1000 < Exposure(marks, last.hard, last.aptitude) * TWO_64)
  {
    hide Playthrough, DueRisks;
    SurvivorVerdict(dice, key, seed, name, turns);
    MarksAreFew(turns);
  }

  // ---- Aftermath -----------------------------------------------------------

  /** One turn of aftermath: the last phase and one event told, of the given index. */
  predicate TellsAftermath(s: StoryState, t: StoryState, newAge: int, index: nat, motif: Motif) {
    && t.status == PostArc && t.phase == 9 && t.progress == Max(1, s.progress + 1)
    && t.fate.postTurns == s.fate.postTurns + 1
    && t.fate.motifs == Tail(s.fate.motifs + [motif], 5)
    && t.beats == Tail(s.beats, 5) + [AftermathBeat(newAge, index)]
  }

  /**
   The first three turns of every aftermath tell its three events, the first, the last
   and the middle one, each once; the fourth tells the first again under a dated name.
   */
  lemma FirstAftermaths(s: StoryState, a: StoryTurn, b: StoryTurn, c: StoryTurn, d: StoryTurn)
    requires s.status == PostArc && s.fate.postTurns == 0
    requires forall k :: Aftermath(k) !in s.fate.motifs
    ensures
      var t1 := NextPostArc(s, a);
      var t2 := NextPostArc(t1, b);
      var t3 := NextPostArc(t2, c);
      && TellsAftermath(s, t1, a.newAge, 0, Aftermath(0)) && TellsAftermath(t1, t2, b.newAge, 2, Aftermath(2))
      && TellsAftermath(t2, t3, c.newAge, 1, Aftermath(1))
      && TellsAftermath(t3, NextPostArc(t3, d), d.newAge, 0, AftermathAt(0, 4))
  {
    hide NextPostArc, Unused, TellsAftermath, Tail;
    UnusedOf(s.fate.motifs);
    OneAftermath(s, a, 0, [0, 1, 2]);
    var t1 := NextPostArc(s, a);
    WindowAfter(s, t1, a.newAge, 0, Aftermath(0));
    UnusedOf(t1.fate.motifs);
    OneAftermath(t1, b, 1, [1, 2]);
    var t2 := NextPostArc(t1, b);
    WindowAfter(t1, t2, b.newAge, 2, Aftermath(2));
    UnusedOf(t2.fate.motifs);
    OneAftermath(t2, c, 2, [1]);
    var t3 := NextPostArc(t2, c);
    WindowAfter(t2, t3, c.newAge, 1, Aftermath(1));
    UnusedOf(t3.fate.motifs);
    OneAftermath(t3, d, 3, []);
  }

  lemma UnusedOf(motifs: seq<Motif>)
    ensures Unused(motifs, 3) ==
      (if Aftermath(0) in motifs then [] else [0]) + (if Aftermath(1) in motifs then [] else [1])
      + (if Aftermath(2) in motifs then [] else [2])
  {
    assert Unused(motifs, 1) == if Aftermath(0) in motifs then [] else [0];
    assert Unused(motifs, 2) == Unused(motifs, 1) + if Aftermath(1) in motifs then [] else [1];
  }

  /** What stands among the last k of a window of five stands among the last k + 1 after one more. */
  lemma WindowMoves<T>(m: seq<T>, x: T, k: nat, y: T)
    requires k <= 4 && y in Tail(m, k)
    ensures y in Tail(Tail(m + [x], 5), k + 1)
  {
    hide Tail;
    TailOfTail(m + [x], k + 1, 5);
    TailOfMore(m, x, k);
  }

  lemma WindowGains<T>(m: seq<T>, x: T)
    ensures x in Tail(Tail(m + [x], 5), 1)
    ensures forall y :: y in Tail(m + [x], 5) ==> y in m || y == x
  {
    hide Tail;
    TailOfTail(m + [x], 1, 5);
    TailOfMore(m, x, 0);
    assert x in Tail(m, 0) + [x];
  }

  /** The window keeps what was told in the last turns and gains the new motif alone. */
  lemma WindowAfter(s: StoryState, t: StoryState, newAge: int, index: nat, motif: Motif)
    requires TellsAftermath(s, t, newAge, index, motif)
    ensures t.status == PostArc && t.fate.postTurns == s.fate.postTurns + 1
    ensures motif in Tail(t.fate.motifs, 1) && forall x :: x in t.fate.motifs ==> x in s.fate.motifs || x == motif
    ensures forall x :: x in Tail(s.fate.motifs, 1) ==> x in Tail(t.fate.motifs, 2)
    ensures forall x :: x in Tail(s.fate.motifs, 2) ==> x in Tail(t.fate.motifs, 3)
  {
    hide Tail;
    var m := s.fate.motifs;
    WindowGains(m, motif);
    forall x | x in Tail(m, 1) ensures x in Tail(t.fate.motifs, 2) {
      WindowMoves(m, motif, 1, x);
    }
    forall x | x in Tail(m, 2) ensures x in Tail(t.fate.motifs, 3) {
      WindowMoves(m, motif, 2, x);
    }
  }

  /** The event of a turn of aftermath, from the events its window has left over. */
  lemma OneAftermath(s: StoryState, i: StoryTurn, turns: nat, left: seq<nat>)
    requires s.status == PostArc && s.fate.postTurns == turns && left == Unused(s.fate.motifs, 3)
    ensures
      var index := if left == [] then turns % 3 else left[turns % |left|];
      var motif := if left == [] then AftermathAt(index, turns + 1) else Aftermath(index);
      TellsAftermath(s, NextPostArc(s, i), i.newAge, index, motif)
  {
    hide Unused;
  }
}
