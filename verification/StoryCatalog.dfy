/**
 The rule-owned main story: opening state, one settled turn, and the v3 route,
 pressure, motif, commitment and aftermath machinery. Beat texts are kept as the
 data they are built from.
 */
module StoryCatalog {
  import opened GameConstants
  import opened RuleRng

  datatype StoryStatus = Active | Resolved | Failed | PostArc

  datatype Routes = Routes(steady: nat, chance: nat, risk: nat, fate: nat)

  datatype Weights = Weights(steady: int, chance: int, risk: int, fate: int)

  /** An anti-repetition label. Echo and AftermathAt carry the turn that made them unique. */
  datatype Motif =
    | Record(phase: nat)
    | Pressure(phase: nat)
    | Echo(of: Motif, turn: nat)
    | Aftermath(index: nat)
    | AftermathAt(index: nat, turn: nat)

  datatype CommitmentStatus = Pending | Hooked | Pressured | Due | Fulfilled | Broken

  datatype Commitment = Commitment(index: nat, category: Category, status: CommitmentStatus)

  datatype Ending = NoEnding | FailureBranch | RouteEnding(route: Category)

  datatype Beat =
    | PhaseBeat(age: int, phase: nat, route: Category, lore: string)
    | EventBeat(age: int, motif: Motif, phase: nat, route: Category, lore: string)
    | EndingBeat(ending: Ending)
    | DeathBeat
    | AftermathBeat(age: int, index: nat)

  datatype Consequence = Consequence(turn: int, phase: nat, route: Category)

  /** Fields only version 3 keeps. */
  datatype FateState = FateState(
    seed: string,
    commitments: seq<Commitment>,
    motifs: seq<Motif>,
    consequences: seq<Consequence>,
    clues: nat,
    weights: Weights,
    riskMarks: nat,
    focus: nat,
    resolution: Option<StoryStatus>,
    postTurns: nat)

  datatype StoryState = StoryState(
    status: StoryStatus,
    phase: nat,
    progress: int,
    routes: Routes,
    pressure: nat,
    threads: seq<nat>,
    ally: int, rival: int, neutral: int,
    promises: seq<Category>,
    beats: seq<Beat>,
    ending: Ending,
    fate: FateState)

  /** What one settled turn hands to the story. */
  datatype StoryTurn = StoryTurn(
    turn: int,
    category: Category,
    lore: string,
    newAge: int,
    dead: bool,
    aptitude: int,
    hard: bool,
    riskWord: nat)

  const NO_ROUTES := Routes(0, 0, 0, 0)
  const NO_WEIGHTS := Weights(0, 0, 0, 0)
  const NO_FATE := FateState("", [], [], [], 0, NO_WEIGHTS, 0, 0, None, 0)
  const AFTERMATHS := 3

  // ---- Phases --------------------------------------------------------------

  function PhaseCount(version: nat): nat { if version == 1 then 5 else 9 }

  function PhaseLength(version: nat): nat { if version == 1 then 12 else 10 }

  /** 60 turns for version 1, 90 for versions 2 and 3. */
  function LastTurn(version: nat): nat { PhaseCount(version) * PhaseLength(version) }

  function PhaseAt(version: nat, turn: int): (phase: nat)
    requires 1 <= turn
    ensures phase < PhaseCount(version)
    ensures turn <= LastTurn(version) ==>
      phase * PhaseLength(version) < turn <= (phase + 1) * PhaseLength(version)
  {
    Min(PhaseCount(version) - 1, (turn - 1) / PhaseLength(version))
  }

  // ---- Routes, pressure, attitudes ----------------------------------------

  function CountRoute(r: Routes, c: Category): Routes {
    match c
    case Steady => r.(steady := r.steady + 1)
    case Chance => r.(chance := r.chance + 1)
    case Risk => r.(risk := r.risk + 1)
    case Fate => r.(fate := r.fate + 1)
  }

  function RouteTotal(r: Routes): nat { r.steady + r.chance + r.risk + r.fate }

  function RouteCount(r: Routes, c: Category): nat {
    match c
    case Steady => r.steady
    case Chance => r.chance
    case Risk => r.risk
    case Fate => r.fate
  }

  /** The most travelled route; ties go to the earlier slot. */
  function Dominant(r: Routes): (c: Category)
    ensures forall o :: RouteCount(r, o) <= RouteCount(r, c)
  {
    if r.steady >= r.chance && r.steady >= r.risk && r.steady >= r.fate then Steady
    else if r.chance >= r.risk && r.chance >= r.fate then Chance
    else if r.risk >= r.fate then Risk
    else Fate
  }

  function PressureChange(version: nat, c: Category, due: bool): int {
    var beat := if !due then 0 else match c
      case Steady => -1
      case Risk => if version == 3 then 0 else 2
      case _ => 0;
    if version == 3 && c == Steady then beat - 1 else beat
  }

  // ---- Version 3 effects ---------------------------------------------------

  function CluesAfter(s: StoryState, c: Category): nat {
    s.fate.clues + if c == Chance then 1 else 0
  }

  function MarksAfter(s: StoryState, i: StoryTurn): nat {
    s.fate.riskMarks + if i.category == Risk && i.turn % 4 == 0 then 1 else 0
  }

  /** The single roll that can fail a v3 arc whose risk route left marks. */
  predicate RiskRollFails(marks: nat, i: StoryTurn) {
    && marks > 0
    && RollsBelow(i.riskWord,
                  Min(650, 50 + 12 * marks + (if i.hard then 80 else 0) + 10 * Max(0, 12 - i.aptitude)))
  }

  function AdjustWeights(w: Weights, i: StoryTurn): Weights {
    if i.category != Fate then w
    else w.(fate := Clamp(-3, 3, w.fate + if i.turn % 2 != 0 then 1 else -1))
  }

  function CommitmentRank(s: CommitmentStatus): nat {
    match s
    case Pending => 0
    case Hooked => 1
    case Pressured => 2
    case Due => 3
    case _ => 0
  }

  function CommitmentStage(turn: int): CommitmentStatus {
    if turn <= 30 then Hooked else if turn <= 60 then Pressured else Due
  }

  function AdvanceStatus(current: CommitmentStatus, turn: int, status: StoryStatus): CommitmentStatus {
    var stage := CommitmentStage(turn);
    var now := if CommitmentRank(stage) > CommitmentRank(current) then stage else current;
    match status
    case Resolved => if now == Due then Fulfilled else Broken
    case Failed => Broken
    case _ => now
  }

  function AdvanceCommitments(cs: seq<Commitment>, turn: int, status: StoryStatus): seq<Commitment> {
    var advanced := seq(|cs|, i requires 0 <= i < |cs| =>
      cs[i].(status := AdvanceStatus(cs[i].status, turn, status)));
    if |advanced| <= 2 then advanced else advanced[..2]
  }

  /** The phase's event whose motif is not recent, or a renamed one when both are. */
  function PickMotif(dice: Dice, key: string, s: StoryState, phase: nat, i: StoryTurn): Motif
    requires 1 <= i.turn
  {
    var recent := Tail(s.fate.motifs, 5);
    var seed := if s.fate.seed != "" then s.fate.seed else key;
    var draw := dice.storyDigest(seed, key, i.turn, i.category);
    if Record(phase) !in recent && Pressure(phase) !in recent then
      if draw % 2 == 0 then Record(phase) else Pressure(phase)
    else if Record(phase) !in recent then Record(phase)
    else if Pressure(phase) !in recent then Pressure(phase)
    else Echo(if draw % 2 == 0 then Record(phase) else Pressure(phase), i.turn)
  }

  // ---- One settled turn ----------------------------------------------------

  function Outcome(version: nat, s: StoryState, routes: Routes, pressure: nat, i: StoryTurn)
    : (StoryStatus, Ending)
  {
    if i.dead then (Failed, FailureBranch)
    else if i.turn < LastTurn(version) then (Active, NoEnding)
    else if pressure >= 8 then (if version == 3 then Failed else Resolved, FailureBranch)
    else if version == 3 && RiskRollFails(MarksAfter(s, i), i) then (Failed, FailureBranch)
    else if version == 3 && Dominant(routes) == Chance && CluesAfter(s, i.category) < 3 then
      (Failed, FailureBranch)
    else (Resolved, RouteEnding(Dominant(routes)))
  }

  function TurnBeats(version: nat, phase: nat, motif: Motif, ending: Ending, i: StoryTurn): seq<Beat> {
    var due := i.turn % 4 == 0;
    if version == 3 && due then [EventBeat(i.newAge, motif, phase, i.category, i.lore)]
    else if i.dead then [DeathBeat]
    else if ending != NoEnding then [EndingBeat(ending)]
    else if due then [PhaseBeat(i.newAge, phase, i.category, i.lore)]
    else []
  }

  function NextFate(
    f: FateState, s: StoryState, phase: nat, motif: Motif, status: StoryStatus, i: StoryTurn): FateState
  {
    FateState(
      // The rebuilt state carries no run seed, so later motif draws fall back to the arc key.
      "",
      AdvanceCommitments(f.commitments, i.turn, status),
      Tail(if i.turn % 4 == 0 then f.motifs + [motif] else f.motifs, 5),
      Tail(f.consequences + [Consequence(i.turn, phase, i.category)], 30),
      CluesAfter(s, i.category),
      AdjustWeights(f.weights, i),
      MarksAfter(s, i),
      f.focus + (if i.category == Fate then 1 else 0),
      if (status == Resolved || status == Failed) && !i.dead then Some(status) else None,
      0)
  }

  function NextActive(dice: Dice, version: nat, key: string, s: StoryState, i: StoryTurn): StoryState
    requires 1 <= i.turn
  {
    var phase := PhaseAt(version, i.turn);
    var routes := CountRoute(s.routes, i.category);
    var due := i.turn % 4 == 0;
    var pressure := Max(0, s.pressure + PressureChange(version, i.category, due));
    var (status, ending) := Outcome(version, s, routes, pressure, i);
    var motif := PickMotif(dice, key, s, phase, i);
    StoryState(
      if version == 3 && status != Active && !i.dead then PostArc else status,
      phase,
      i.turn,
      routes,
      pressure,
      if status == Active then Tail(AddNew(s.threads, phase + 1), 6) else [],
      if i.category == Steady then Min(10, Clamp(-10, 10, s.ally) + 1) else Clamp(-10, 10, s.ally),
      if i.category == Risk then Max(-10, Clamp(-10, 10, s.rival) - 1) else Clamp(-10, 10, s.rival),
      if i.category == Chance then Min(10, Clamp(-10, 10, s.neutral) + 1) else Clamp(-10, 10, s.neutral),
      if due then AddNew(s.promises, i.category) else s.promises,
      Tail(s.beats + TurnBeats(version, phase, motif, ending, i), 6),
      ending,
      if version == 3 then NextFate(s.fate, s, phase, motif, status, i) else NO_FATE)
  }

  /** After a v3 arc closed: only the aftermath counters, motifs and beats move. */
  function NextPostArc(s: StoryState, i: StoryTurn): StoryState {
    var turns := s.fate.postTurns + 1;
    var available := Unused(s.fate.motifs, AFTERMATHS);
    var index := if available != [] then available[(turns - 1) % |available|] else (turns - 1) % AFTERMATHS;
    var motif := if available != [] then Aftermath(index) else AftermathAt(index, turns);
    s.(phase := PhaseCount(3),
       progress := Max(1, s.progress + 1),
       beats := Tail(s.beats, 5) + [AftermathBeat(i.newAge, index)],
       fate := s.fate.(postTurns := turns, motifs := Tail(s.fate.motifs + [motif], 5)))
  }

  /** The aftermath indices below `n` whose plain motif is not recent. */
  function Unused(motifs: seq<Motif>, n: nat): (r: seq<nat>)
    ensures forall k: nat :: k in r <==> k < n && Aftermath(k) !in motifs
  {
    if n == 0 then []
    else if Aftermath(n - 1) in motifs then Unused(motifs, n - 1)
    else Unused(motifs, n - 1) + [n - 1]
  }

  /** `None` when the story no longer moves: unbound, resolved or failed. */
  function TurnStory(dice: Dice, version: nat, key: string, s: StoryState, i: StoryTurn)
    : Option<StoryState>
  {
    if version !in {1, 2, 3} then None
    else if s.status == PostArc then Some(NextPostArc(s, i))
    else if s.status != Active then None
    else Some(NextActive(dice, version, key, s, i.(turn := Max(1, i.turn))))
  }

  // ---- Opening -------------------------------------------------------------

  /** The position of the smallest digest; the earlier slot wins ties. */
  function Least(score: Category -> int, cs: seq<Category>): (c: Category)
    requires cs != []
    ensures c in cs
  {
    if |cs| == 1 then cs[0]
    else
      var rest := Least(score, cs[1..]);
      if score(cs[0]) <= score(rest) then cs[0] else rest
  }

  function Without(cs: seq<Category>, c: Category): (r: seq<Category>)
    ensures forall x :: x in r <==> x in cs && x != c
  {
    if cs == [] then []
    else if cs[0] == c then Without(cs[1..], c)
    else [cs[0]] + Without(cs[1..], c)
  }

  function CommitmentScore(dice: Dice, seed: string, key: string): Category -> int {
    c => dice.commitmentDigest(seed, key, c) as int
  }

  /** The two routes with the smallest commitment digests. */
  function CommitmentPair(dice: Dice, seed: string, key: string): (p: (Category, Category))
    ensures p.0 != p.1
  {
    var score := CommitmentScore(dice, seed, key);
    var all := [Steady, Chance, Risk, Fate];
    var first := Least(score, all);
    var rest := Without(all, first);
    assert (if first == Steady then Chance else Steady) in rest;
    (first, Least(score, rest))
  }

  function OpeningWith(version: nat, seed: string, first: Category, second: Category): StoryState {
    StoryState(
      Active, 0, 0, NO_ROUTES, 0, [0, 1], 0, 0, 0, [], [], NoEnding,
      if version == 3 then
        NO_FATE.(seed := seed,
                 commitments := [Commitment(1, first, Pending), Commitment(2, second, Pending)])
      else NO_FATE)
  }

  function OpeningStory(dice: Dice, version: nat, key: string, seed: string, name: string): StoryState {
    var pair := CommitmentPair(dice, if seed != "" then seed else "catalog:" + key + ":" + name, key);
    OpeningWith(version, seed, pair.0, pair.1)
  }
}
