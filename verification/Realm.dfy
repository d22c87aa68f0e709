/** Breakthrough eligibility, rate and execution, stage pacing, rule preparation. */
module Realm {
  import opened GameConstants
  import opened RuleRng
  import opened StoryCatalog
  import opened GameSession
  import opened GameWorld

  // ---- Eligibility ---------------------------------------------------------

  predicate RequirementsMet(c: Core) {
    forall k :: k in RequiredAids(c.realm) ==> k in c.flags || k in c.aids
  }

  predicate CanBreakThrough(c: Core) {
    && !c.over
    && !Blocked(c)
    && c.stage >= Stages(c.realm)
    && RequirementsMet(c)
    && c.realm != ASCENSION
  }

  // ---- Attempt -------------------------------------------------------------

  function BreakthroughRate(c: Core): (rate: int)
    ensures 50 <= rate <= 950
  {
    var a := NormalizeAttributes(c.attributes);
    var base := BaseRate(c.realm) + c.profile.rootBonus
                + (a.comprehension - 5) * 15 + (a.rootBone - 5) * 15 + (a.luck - 5) * 10;
    var aged := if c.realm != QI_REFINING then base
                else if c.age >= 70 then base - 350
                else if c.age >= 50 then base - 150
                else base;
    Clamp(50, 950, aged)
  }

  predicate HighAptitudeV2(c: Core) {
    c.profile.storyVersion == 2 && Aptitude(NormalizeAttributes(c.attributes)) >= 21
  }

  /** The validation route of a high-aptitude v2 run always rolls zero. */
  predicate BreakthroughSucceeds(w: World, c: Core) {
    if c.profile.golden && HighAptitudeV2(c) then true
    else if c.profile.golden then
      RollsBelow(w.dice.goldenDigest(c.profile.seed, c.profile.storyKey, c.realm, c.realmTurns, c.turnCount)
                 % TWO_64, BreakthroughRate(c))
    else RollsBelow(Draw(w, c, "breakthrough"), BreakthroughRate(c))
  }

  function FailureEffect(c: Core): (e: Effect)
    ensures Blocking(e)
  {
    if c.realm == QI_REFINING && c.age >= 70 then SevereRoot
    else if c.realm == QI_REFINING && c.age >= 50 then Unrecovered
    else Deviation
  }

  function AttemptDelta(w: World, c: Core): Delta
    requires CanBreakThrough(c)
  {
    if BreakthroughSucceeds(w, c) then
      var next: RealmIndex := c.realm + 1;
      NO_DELTA.(
        realm := Some(next),
        stage := To(1),
        lifespan := To(BreakthroughLifespan(next, c.lifespan, c.attributes, c.profile.heavenly,
                                            c.profile.difficulty)),
        finale := next == ASCENSION,
        over := next == ASCENSION,
        reason := if next == ASCENSION then Ascended else NoReason)
    else
      var effect := FailureEffect(c);
      NO_DELTA.(
        struck := Some(effect),
        added := if effect == SevereRoot then [SevereRoot, Unrecovered] else [],
        lifespan := if effect == SevereRoot then By(-20)
                    else if effect == Unrecovered then By(-10)
                    else Keep)
  }

  // ---- Stage pacing --------------------------------------------------------

  function TurnsPerStage(realm: RealmIndex): nat { if realm == QI_REFINING then 2 else 3 }

  function PacedStage(c: Core): int {
    if HighAptitudeV2(c) then
      Max(1, Min(Stages(c.realm), 1 + c.realmTurns / TurnsPerStage(c.realm)))
    else if c.realm != QI_REFINING then c.stage
    else Max(1, Min(Stages(c.realm), Min(1 + Max(0, c.age - 16) / 2, 1 + c.turnCount / 3)))
  }

  /** The stage after the advance check of a settled turn. */
  function AdvancedStage(w: World, c: Core): int {
    if c.stage >= Stages(c.realm) || Blocked(c) then c.stage
    else if PacedStage(c) > c.stage then PacedStage(c)
    else if c.profile.golden && HighAptitudeV2(c) then c.stage
    else
      var a := NormalizeAttributes(c.attributes);
      var rate := Min(550, 220 + 30 * Max(0, a.comprehension - 5) + 30 * Max(0, a.rootBone - 5));
      if Draw(w, c, "stage_advance") * 1000 <= rate * TWO_64 then c.stage + 1 else c.stage
  }

  function StageDelta(w: World, c: Core): Delta {
    NO_DELTA.(stage := if AdvancedStage(w, c) == c.stage then Keep else To(AdvancedStage(w, c)))
  }

  // ---- Preparation ---------------------------------------------------------

  /** Prerequisites the rules grant from long realm progress. */
  function PreparationAids(c: Core): seq<Aid> {
    var required :=
      if c.profile.storyVersion == 3 then Max(4, (Stages(c.realm) - 1) * 2)
      else (Stages(c.realm) - 1) * TurnsPerStage(c.realm);
    if c.profile.storyVersion != 3 && !HighAptitudeV2(c) then []
    else if c.stage < Stages(c.realm) - 1 || c.realmTurns < required then []
    else RequiredAids(c.realm)
  }

  /** The preparation keys not held yet. */
  function NewAids(c: Core): (r: seq<Aid>)
    ensures forall k :: k in r <==> k in PreparationAids(c) && k !in c.flags
  {
    RemoveAll(PreparationAids(c), c.flags)
  }
}
