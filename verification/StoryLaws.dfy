/**
 Laws of a version 3 story over whole runs: no pressure, exact resolution at the
 last turn, no repeated motif, two commitments that only move forward, a frozen
 aftermath, and a run seed that decides nothing but the commitments.
 */
module StoryLaws {
  import opened GameConstants
  import opened RuleRng
  import opened StoryCatalog

  /** A v3 arc told turn by turn; the k-th settled turn carries number k. */
  function Playthrough(
    dice: Dice, key: string, seed: string, name: string, turns: seq<StoryTurn>): (s: StoryState)
  {
    if turns == [] then OpeningStory(dice, 3, key, seed, name)
    else
      var before := Playthrough(dice, key, seed, name, turns[..|turns| - 1]);
      Told(dice, key, before, turns[|turns| - 1].(turn := |turns|))
  }

  function Told(dice: Dice, key: string, s: StoryState, i: StoryTurn): StoryState {
    match TurnStory(dice, 3, key, s, i)
    case Some(next) => next
    case None => s
  }

  // ---- Motifs --------------------------------------------------------------

  /** The turn a uniquely renamed motif was minted on is not later than now. */
  predicate Minted(m: Motif, turn: int, postTurns: nat) {
    match m
    case Echo(of, at) => at <= turn
    case AftermathAt(_, at) => at <= postTurns
    case _ => true
  }

  ghost predicate MotifsFresh(ms: seq<Motif>, turn: int, postTurns: nat) {
    && |ms| <= 5
    && NoRepeats(ms)
    && forall m :: m in ms ==> Minted(m, turn, postTurns)
  }

  lemma AppendKeepsDistinct<T>(s: seq<T>, x: T, n: nat)
    requires NoRepeats(s) && x !in s
    ensures NoRepeats(Tail(s + [x], n))
  {
  }

  // ---- The arc invariant ---------------------------------------------------

  predicate TwoCommitments(cs: seq<Commitment>) {
    |cs| == 2 && cs[0].index == 1 && cs[1].index == 2 && cs[0].category != cs[1].category
  }

  predicate BothStand(cs: seq<Commitment>, status: CommitmentStatus)
    requires |cs| == 2
  {
    cs[0].status == status && cs[1].status == status
  }

  /** Everything the v3 rules keep, `turn` settled turns into the main arc. */
  ghost predicate ArcInvariant(s: StoryState, turn: int) {
    && TwoCommitments(s.fate.commitments)
    && s.pressure == 0
    && s.fate.clues == s.routes.chance
    && MotifsFresh(s.fate.motifs, turn, s.fate.postTurns)
    && match s.status
       case Active =>
         && 0 <= turn < LastTurn(3) && s.progress == turn
         && RouteTotal(s.routes) == turn
         && s.fate.resolution == None && s.fate.postTurns == 0
         && BothStand(s.fate.commitments, if turn == 0 then Pending else CommitmentStage(turn))
       case Failed =>
         s.fate.resolution == None && BothStand(s.fate.commitments, Broken)
       case PostArc =>
         match s.fate.resolution {
           case Some(Resolved) =>
             BothStand(s.fate.commitments, Fulfilled) && s.ending == RouteEnding(Dominant(s.routes))
           case Some(Failed) =>
             BothStand(s.fate.commitments, Broken) && s.ending == FailureBranch
           case _ => false
         }
       case Resolved => false
  }

  lemma PickedMotifIsNew(dice: Dice, key: string, s: StoryState, phase: nat, i: StoryTurn)
    requires 1 <= i.turn && MotifsFresh(s.fate.motifs, i.turn - 1, s.fate.postTurns)
    ensures PickMotif(dice, key, s, phase, i) !in s.fate.motifs
    ensures Minted(PickMotif(dice, key, s, phase, i), i.turn, 0)
  {
  }

  lemma CommitmentsAdvance(cs: seq<Commitment>, turn: int, status: StoryStatus)
    requires TwoCommitments(cs) && BothStand(cs, if turn == 1 then Pending else CommitmentStage(turn - 1))
    requires 1 <= turn && status != PostArc && (status == Resolved ==> turn > 60)
    ensures TwoCommitments(AdvanceCommitments(cs, turn, status))
    ensures BothStand(AdvanceCommitments(cs, turn, status),
                      if status == Active then CommitmentStage(turn)
                      else if status == Resolved then Fulfilled else Broken)
  {
  }

  lemma TurnKeepsArc(dice: Dice, key: string, s: StoryState, turn: nat, i: StoryTurn)
    requires ArcInvariant(s, turn) && i.turn == turn + 1
    ensures ArcInvariant(Told(dice, key, s, i), turn + 1)
  {
    match s.status
    case Active => ActiveTurnKeepsArc(dice, key, s, i);
    case PostArc => PostTurnKeepsArc(s, i);
    case Failed =>
    case Resolved =>
  }

  lemma ActiveMotifsFresh(dice: Dice, key: string, s: StoryState, i: StoryTurn, status: StoryStatus)
    requires 1 <= i.turn && MotifsFresh(s.fate.motifs, i.turn - 1, s.fate.postTurns)
    ensures
      var phase := PhaseAt(3, i.turn);
      var next := NextFate(s.fate, s, phase, PickMotif(dice, key, s, phase, i), status, i);
      MotifsFresh(next.motifs, i.turn, s.fate.postTurns)
  {
    var phase := PhaseAt(3, i.turn);
    PickedMotifIsNew(dice, key, s, phase, i);
    AppendKeepsDistinct(s.fate.motifs, PickMotif(dice, key, s, phase, i), 5);
  }

  /** What the outcome of an active turn can be, given the arc invariant. */
  lemma ActiveOutcome(s: StoryState, i: StoryTurn)
    requires 1 <= i.turn && ArcInvariant(s, i.turn - 1) && s.status == Active
    ensures
      var routes := CountRoute(s.routes, i.category);
      Outcome(3, s, routes, 0, i) ==
        if i.dead then (Failed, FailureBranch)
        else if i.turn < LastTurn(3) then (Active, NoEnding)
        else if RiskRollFails(MarksAfter(s, i), i) then (Failed, FailureBranch)
        else (Resolved, RouteEnding(Dominant(routes)))
  {
  }

  lemma ActiveTurnKeepsArc(dice: Dice, key: string, s: StoryState, i: StoryTurn)
    requires 1 <= i.turn && ArcInvariant(s, i.turn - 1) && s.status == Active
    ensures ArcInvariant(NextActive(dice, 3, key, s, i), i.turn)
  {
    var next := NextActive(dice, 3, key, s, i);
    var routes := CountRoute(s.routes, i.category);
    var (status, ending) := Outcome(3, s, routes, 0, i);
    ActiveOutcome(s, i);
    ActiveMotifsFresh(dice, key, s, i, status);
    CommitmentsAdvance(s.fate.commitments, i.turn, status);
    assert next.pressure == 0;
    assert next.fate.commitments == AdvanceCommitments(s.fate.commitments, i.turn, status);
  }

  lemma PostTurnKeepsArc(s: StoryState, i: StoryTurn)
    requires 1 <= i.turn && ArcInvariant(s, i.turn - 1) && s.status == PostArc
    ensures ArcInvariant(NextPostArc(s, i), i.turn)
  {
    var next := NextPostArc(s, i);
    var motif := next.fate.motifs[|next.fate.motifs| - 1];
    assert motif !in s.fate.motifs;
    AppendKeepsDistinct(s.fate.motifs, motif, 5);
  }

  /** A live arc at its last turn can only fail by the single risk roll. */
  lemma FinalTurnVerdict(dice: Dice, key: string, s: StoryState, i: StoryTurn)
    requires ArcInvariant(s, i.turn - 1) && s.status == Active
    requires i.turn == LastTurn(3) && !i.dead
    ensures Told(dice, key, s, i).status == PostArc
    ensures Told(dice, key, s, i).fate.resolution
         == Some(if RiskRollFails(MarksAfter(s, i), i) then Failed else Resolved)
  {
    ActiveOutcome(s, i);
  }

  // ---- Whole runs ----------------------------------------------------------

  lemma OpeningMeetsArc(dice: Dice, key: string, seed: string, name: string)
    ensures ArcInvariant(OpeningStory(dice, 3, key, seed, name), 0)
  {
    hide CommitmentPair, ArcInvariant, OpeningWith;
    var pair := CommitmentPair(dice, if seed != "" then seed else "catalog:" + key + ":" + name, key);
    OpeningWithMeetsArc(seed, pair.0, pair.1);
  }

  lemma OpeningWithMeetsArc(seed: string, first: Category, second: Category)
    requires first != second
    ensures ArcInvariant(OpeningWith(3, seed, first, second), 0)
  {
    var s := OpeningWith(3, seed, first, second);
    assert TwoCommitments(s.fate.commitments) && BothStand(s.fate.commitments, Pending);
    assert s.fate.motifs == [] && s.fate.clues == 0 && s.fate.postTurns == 0 && s.fate.resolution == None;
    assert s.routes == NO_ROUTES;
  }

  lemma {:induction false} ReachableArc(dice: Dice, key: string, seed: string, name: string, turns: seq<StoryTurn>)
    ensures ArcInvariant(Playthrough(dice, key, seed, name, turns), |turns|)
  {
    hide ArcInvariant, Told, OpeningStory;
    if turns == [] {
      OpeningMeetsArc(dice, key, seed, name);
    } else {
      var n := |turns| - 1;
      ReachableArc(dice, key, seed, name, turns[..n]);
      TurnKeepsArc(dice, key, Playthrough(dice, key, seed, name, turns[..n]), n,
                   turns[n].(turn := n + 1));
    }
  }

  /** Through the main arc and any number of aftermath turns. */
  lemma MotifsNeverRepeat(dice: Dice, key: string, seed: string, name: string, turns: seq<StoryTurn>)
    ensures |Playthrough(dice, key, seed, name, turns).fate.motifs| <= 5
    ensures NoRepeats(Playthrough(dice, key, seed, name, turns).fate.motifs)
  {
    hide Playthrough;
    ReachableArc(dice, key, seed, name, turns);
  }

  /** The number of due turns spent on the risk route. */
  function DueRisks(turns: seq<StoryTurn>): nat {
    if turns == [] then 0
    else DueRisks(turns[..|turns| - 1])
         + if turns[|turns| - 1].category == Risk && |turns| % 4 == 0 then 1 else 0
  }

  ghost predicate AllAlive(turns: seq<StoryTurn>) { forall i :: i in turns ==> !i.dead }

  lemma AliveTurnStaysActive(dice: Dice, key: string, s: StoryState, i: StoryTurn)
    requires 1 <= i.turn < LastTurn(3) && ArcInvariant(s, i.turn - 1) && s.status == Active && !i.dead
    ensures Told(dice, key, s, i).status == Active
    ensures Told(dice, key, s, i).fate.riskMarks == MarksAfter(s, i)
  {
  }

  lemma {:induction false} AliveArcIsActive(
    dice: Dice, key: string, seed: string, name: string, turns: seq<StoryTurn>)
    requires AllAlive(turns) && |turns| < LastTurn(3)
    ensures Playthrough(dice, key, seed, name, turns).status == Active
    ensures Playthrough(dice, key, seed, name, turns).fate.riskMarks == DueRisks(turns)
  {
    hide ArcInvariant, Told, CommitmentPair;
    if turns != [] {
      var n := |turns| - 1;
      var before := Playthrough(dice, key, seed, name, turns[..n]);
      AliveArcIsActive(dice, key, seed, name, turns[..n]);
      ReachableArc(dice, key, seed, name, turns[..n]);
      assert turns[n] in turns;
      AliveTurnStaysActive(dice, key, before, turns[n].(turn := n + 1));
    }
  }

  /**
   A run that reaches its last turn alive always closes its arc, and it fails
   exactly when the one exposure roll does; without a due risk turn it resolves.
   */
  lemma SurvivorVerdict(dice: Dice, key: string, seed: string, name: string, turns: seq<StoryTurn>)
    requires |turns| == LastTurn(3) && AllAlive(turns)
    ensures Playthrough(dice, key, seed, name, turns).status == PostArc
    ensures Playthrough(dice, key, seed, name, turns).fate.resolution
         == Some(if RiskRollFails(DueRisks(turns), turns[|turns| - 1]) then Failed else Resolved)
    ensures DueRisks(turns) == 0 ==>
      Playthrough(dice, key, seed, name, turns).fate.resolution == Some(Resolved)
  {
    hide ArcInvariant, Told, OpeningStory;
    var n := |turns| - 1;
    var last := turns[n].(turn := n + 1);
    var before := Playthrough(dice, key, seed, name, turns[..n]);
    AliveArcIsActive(dice, key, seed, name, turns[..n]);
    ReachableArc(dice, key, seed, name, turns[..n]);
    assert turns[n] in turns;
    FinalTurnVerdict(dice, key, before, last);
    assert MarksAfter(before, last) == DueRisks(turns);
    assert RiskRollFails(DueRisks(turns), turns[n]) == RiskRollFails(DueRisks(turns), last);
  }

  /** How far a commitment has come; both final states are last. */
  function Milestone(s: CommitmentStatus): nat {
    if s == Fulfilled || s == Broken then 4 else CommitmentRank(s)
  }

  predicate MovedForward(before: Commitment, after: Commitment) {
    && after.index == before.index && after.category == before.category
    && Milestone(before.status) <= Milestone(after.status)
    && (Milestone(before.status) == 4 ==> after.status == before.status)
  }

  /** What no aftermath turn may touch. */
  predicate SettledTheSame(s: StoryState, t: StoryState) {
    && t.status == PostArc && s.ending == t.ending && s.routes == t.routes && s.pressure == t.pressure
    && s.fate.resolution == t.fate.resolution && s.fate.commitments == t.fate.commitments
    && s.fate.clues == t.fate.clues && s.fate.riskMarks == t.fate.riskMarks
  }

  /** A later moment of the same run, as the player sees it. */
  predicate Continues(early: StoryState, late: StoryState) {
    && |early.fate.commitments| == |late.fate.commitments| == 2
    && early.fate.commitments[0].category != early.fate.commitments[1].category
    && MovedForward(early.fate.commitments[0], late.fate.commitments[0])
    && MovedForward(early.fate.commitments[1], late.fate.commitments[1])
    && (early.status == PostArc ==> SettledTheSame(early, late))
  }

  lemma ContinuesOn(a: StoryState, b: StoryState, c: StoryState)
    requires Continues(a, b) && Continues(b, c)
    ensures Continues(a, c)
  {
  }

  lemma ContinuesSame(s: StoryState, turn: nat)
    requires ArcInvariant(s, turn)
    ensures Continues(s, s)
  {
  }

  lemma TurnContinues(dice: Dice, key: string, s: StoryState, turn: nat, i: StoryTurn)
    requires ArcInvariant(s, turn) && i.turn == turn + 1
    ensures Continues(s, Told(dice, key, s, i))
  {
    hide PickMotif, TurnBeats, Dominant;
    TurnKeepsArc(dice, key, s, turn, i);
    if s.status == Active {
      var (status, ending) := Outcome(3, s, CountRoute(s.routes, i.category), 0, i);
      ActiveOutcome(s, i);
      CommitmentsAdvance(s.fate.commitments, i.turn, status);
    }
  }

  /**
   Between any two moments of one run both commitments keep their identity and
   only move forward, and an arc once closed keeps everything it settled.
   */
  lemma {:induction false} CommitmentsAndClosure(
    dice: Dice, key: string, seed: string, name: string, turns: seq<StoryTurn>, k: nat)
    requires k <= |turns|
    ensures Continues(Playthrough(dice, key, seed, name, turns[..k]),
                      Playthrough(dice, key, seed, name, turns))
  {
    hide ArcInvariant, Told, OpeningStory, Continues;
    var n := |turns| - 1;
    ReachableArc(dice, key, seed, name, turns[..k]);
    if k == |turns| {
      assert turns[..k] == turns;
      ContinuesSame(Playthrough(dice, key, seed, name, turns), k);
    } else {
      var before := Playthrough(dice, key, seed, name, turns[..n]);
      assert turns[..n][..k] == turns[..k];
      CommitmentsAndClosure(dice, key, seed, name, turns[..n], k);
      ReachableArc(dice, key, seed, name, turns[..n]);
      TurnContinues(dice, key, before, n, turns[n].(turn := n + 1));
      ContinuesOn(Playthrough(dice, key, seed, name, turns[..k]), before,
                  Playthrough(dice, key, seed, name, turns));
    }
  }

  /** Both commitments end fulfilled exactly with a resolved arc and broken exactly with a failed one. */
  lemma CommitmentsFollowTheArc(dice: Dice, key: string, seed: string, name: string, turns: seq<StoryTurn>)
    ensures
      var s := Playthrough(dice, key, seed, name, turns);
      && |s.fate.commitments| == 2
      && (BothStand(s.fate.commitments, Fulfilled) <==> s.fate.resolution == Some(Resolved))
      && (BothStand(s.fate.commitments, Broken) <==>
          s.fate.resolution == Some(Failed) || s.status == Failed)
  {
    hide Playthrough;
    ReachableArc(dice, key, seed, name, turns);
  }

  // ---- The run seed --------------------------------------------------------

  /** Equal but for the commitments and, before the first turn, the seed itself. */
  predicate SameButCommitments(s: StoryState, t: StoryState) {
    s == t.(fate := t.fate.(commitments := s.fate.commitments, seed := s.fate.seed))
  }

  lemma ActiveTurnIgnoresSeed(dice: Dice, key: string, s: StoryState, t: StoryState, i: StoryTurn)
    requires SameButCommitments(s, t) && 1 <= i.turn
    requires s.fate.seed == t.fate.seed || i.turn % 4 != 0
    ensures SameButCommitments(NextActive(dice, 3, key, s, i), NextActive(dice, 3, key, t, i))
  {
    var phase := PhaseAt(3, i.turn);
    var routes := CountRoute(s.routes, i.category);
    var pressure := Max(0, s.pressure + PressureChange(3, i.category, i.turn % 4 == 0));
    var (status, ending) := Outcome(3, s, routes, pressure, i);
    assert (status, ending) == Outcome(3, t, routes, pressure, i);
    var m, n := PickMotif(dice, key, s, phase, i), PickMotif(dice, key, t, phase, i);
    assert i.turn % 4 == 0 ==> m == n;
    assert TurnBeats(3, phase, m, ending, i) == TurnBeats(3, phase, n, ending, i);
    var f, g := NextFate(s.fate, s, phase, m, status, i), NextFate(t.fate, t, phase, n, status, i);
    assert f == g.(commitments := f.commitments);
  }

  lemma PostTurnIgnoresSeed(s: StoryState, t: StoryState, i: StoryTurn)
    requires SameButCommitments(s, t)
    ensures SameButCommitments(NextPostArc(s, i), NextPostArc(t, i))
  {
  }

  /** A main-arc turn rebuilds the state without the run seed; an aftermath turn keeps what is there. */
  lemma SeedAfterTurn(dice: Dice, key: string, s: StoryState, i: StoryTurn)
    requires 1 <= i.turn
    ensures NextActive(dice, 3, key, s, i).fate.seed == ""
    ensures NextPostArc(s, i).fate.seed == s.fate.seed
  {
    hide PickMotif, Outcome, Dominant, AdvanceCommitments;
  }

  lemma TurnIgnoresSeed(dice: Dice, key: string, s: StoryState, t: StoryState, i: StoryTurn)
    requires SameButCommitments(s, t) && 1 <= i.turn
    requires s.fate.seed == t.fate.seed || (s.status == Active && i.turn % 4 != 0)
    ensures SameButCommitments(Told(dice, key, s, i), Told(dice, key, t, i))
    ensures Told(dice, key, s, i).fate.seed == Told(dice, key, t, i).fate.seed
  {
    hide NextActive, NextPostArc;
    SeedAfterTurn(dice, key, s, i);
    SeedAfterTurn(dice, key, t, i);
    match s.status
    case Active => ActiveTurnIgnoresSeed(dice, key, s, t, i);
    case PostArc => PostTurnIgnoresSeed(s, t, i);
    case _ =>
  }

  predicate SameStory(s: StoryState, t: StoryState, told: nat) {
    && SameButCommitments(s, t)
    && (told == 0 ==> s.status == Active)
    && (told > 0 ==> s.fate.seed == t.fate.seed)
  }

  lemma TurnKeepsSameStory(dice: Dice, key: string, s: StoryState, t: StoryState, told: nat, i: StoryTurn)
    requires SameStory(s, t, told) && i.turn == told + 1
    ensures SameStory(Told(dice, key, s, i), Told(dice, key, t, i), told + 1)
  {
    TurnIgnoresSeed(dice, key, s, t, i);
  }

  /**
   The first turn rebuilds the story state without the run seed, before the first
   due turn reads it: two runs of one arc that play alike tell the same story,
   whatever their seeds, apart from which two commitments they carry.
   */
  lemma {:induction false} SeedOnlyPicksCommitments(
    dice: Dice, key: string, seed: string, other: string, name: string, turns: seq<StoryTurn>)
    ensures SameStory(
      Playthrough(dice, key, seed, name, turns), Playthrough(dice, key, other, name, turns), |turns|)
  {
    if turns != [] {
      var n := |turns| - 1;
      SeedOnlyPicksCommitments(dice, key, seed, other, name, turns[..n]);
      TurnKeepsSameStory(dice, key, Playthrough(dice, key, seed, name, turns[..n]),
                         Playthrough(dice, key, other, name, turns[..n]), n, turns[n].(turn := n + 1));
    }
  }
}
