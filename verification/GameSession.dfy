/**
 The game session: what the rules own (`Core`), what the narrator owns (choices
 and narratives), a frozen model failure, and the application of a settled delta.
 */
module GameSession {
  import opened GameConstants
  import opened StoryCatalog

  /** Status effects by name; the first three block a breakthrough. */
  datatype Effect =
    | SevereRoot | Unrecovered | Deviation
    | Frailty | BloodDecline | Bottleneck
    | Named(name: string)

  datatype Reason =
    | NoReason
    | LifespanSpent | FrailDeath | RiskDeath | HardTimesDeath
    | StoryEnded(ending: Ending)
    | Ascended
    | ModelUnavailable
    | PlayerQuit(text: string)

  /** Fixed at character creation. */
  datatype Profile = Profile(
    seed: string, golden: bool, difficulty: Difficulty, heavenly: bool, rootBonus: nat,
    storyKey: string, storyVersion: nat)

  /** Everything the turn rules read or write. `events` is the rule half of the turn history. */
  datatype Core = Core(
    profile: Profile,
    turnCount: nat, realmTurns: nat, rngCounter: nat,
    started: bool, over: bool, finale: bool, reason: Reason,
    realm: RealmIndex, stage: int, age: int, lifespan: int, attributes: Attributes,
    flags: seq<Aid>, aids: set<Aid>, titles: seq<string>, effects: seq<Effect>,
    place: string,
    story: StoryState,
    localStory: bool, localNode: string,
    events: seq<string>)

  // ---- Deltas --------------------------------------------------------------

  datatype Change = Keep | To(v: int) | By(d: int)

  datatype Delta = Delta(
    lifespan: Change, stage: Change, age: Change,
    realm: Option<RealmIndex>,
    attributes: Option<Attributes>,
    titles: seq<string>, flags: seq<Aid>, aids: set<Aid>,
    removed: seq<Effect>, added: seq<Effect>,
    place: Option<string>, story: Option<StoryState>,
    over: bool, reason: Reason, struck: Option<Effect>, finale: bool,
    eventId: string)

  const NO_DELTA := Delta(Keep, Keep, Keep, None, None, [], [], {}, [], [], None, None,
                          false, NoReason, None, false, "")

  function Changed(current: int, c: Change): int {
    match c
    case Keep => current
    case To(v) => v
    case By(d) => current + d
  }

  function AddAll<T(==,!new)>(s: seq<T>, xs: seq<T>): (r: seq<T>)
    ensures forall y :: y in r <==> y in s || y in xs
    decreases |xs|
  {
    if xs == [] then s else AddAll(AddNew(s, xs[0]), xs[1..])
  }

  function RemoveAll<T(==,!new)>(s: seq<T>, xs: seq<T>): (r: seq<T>)
    ensures forall y :: y in r <==> y in s && y !in xs
  {
    if s == [] then [] else (if s[0] in xs then [] else [s[0]]) + RemoveAll(s[1..], xs)
  }

  function WithNumbers(c: Core, d: Delta): Core {
    c.(lifespan := Max(1, Changed(c.lifespan, d.lifespan)),
       stage := Changed(c.stage, d.stage),
       age := Max(1, Changed(c.age, d.age)))
  }

  /** A new realm restarts its turn counter. */
  function WithIdentity(c: Core, d: Delta): Core {
    match d.realm
    case None => c
    case Some(realm) => c.(realmTurns := if realm != c.realm then 0 else c.realmTurns, realm := realm)
  }

  function WithLists(c: Core, d: Delta): Core {
    c.(attributes := if d.attributes.Some? then ShiftAttributes(c.attributes, d.attributes.value)
                     else c.attributes,
       aids := c.aids + d.aids,
       titles := AddAll(c.titles, d.titles),
       flags := AddAll(c.flags, d.flags),
       effects := AddAll(RemoveAll(c.effects, d.removed), d.added))
  }

  function WithWorld(c: Core, d: Delta): Core {
    c.(place := if d.place.Some? then d.place.value else c.place,
       story := if d.story.Some? then d.story.value else c.story)
  }

  function WithMeta(c: Core, d: Delta): Core {
    c.(over := c.over || d.over,
       reason := if d.reason != NoReason then d.reason else c.reason,
       effects := AddAll(c.effects, if d.struck.Some? then [d.struck.value] else []),
       finale := c.finale || d.finale)
  }

  /** The state after one delta: numbers, identity, lists, world, ending. */
  function Apply(c: Core, d: Delta): Core {
    WithMeta(WithWorld(WithLists(WithIdentity(WithNumbers(c, d), d), d), d), d)
  }

  /** The turn counters move before a turn is settled. */
  function Bump(c: Core): Core {
    c.(turnCount := c.turnCount + 1, realmTurns := c.realmTurns + 1)
  }

  /** Recording a turn appends to the history and only then spends the draw counter. */
  function Recorded(c: Core, eventId: string): Core {
    c.(events := c.events + [eventId], rngCounter := c.rngCounter + 1)
  }

  /** The distinct non-empty event ids of the last three recorded turns. */
  function RecentEvents(events: seq<string>): set<string> {
    set e | e in Tail(events, 3) && e != ""
  }

  predicate Blocking(e: Effect) { e == SevereRoot || e == Unrecovered || e == Deviation }

  /** The distinct active blockers, in order. */
  function Blockers(effects: seq<Effect>): (r: seq<Effect>)
    ensures forall e :: e in r <==> e in effects && Blocking(e)
  {
    if effects == [] then []
    else
      var last := effects[|effects| - 1];
      var rest := Blockers(effects[..|effects| - 1]);
      if Blocking(last) then AddNew(rest, last) else rest
  }

  predicate Blocked(c: Core) { Blockers(c.effects) != [] }

  // ---- Narrator-owned parts ------------------------------------------------

  /** What the player submits: a slot button or free text with its keyword category. */
  datatype Input = Pick(slot: nat) | Act(text: string, category: Category)

  datatype Narrated = Narrated(turn: nat, narrative: string, choices: seq<string>)

  datatype FailureStage = OpeningStage | TurnStage | BreakthroughStage

  datatype FailureStatus = Waiting | Retrying

  /** One frozen request: the input that failed and the outcome the rules gave it. */
  datatype ModelFailure = ModelFailure(
    stage: FailureStage, input: Input, frozen: Delta, counter: nat,
    requestNo: nat, status: FailureStatus, code: string)

  datatype Session = Session(
    core: Core, pending: Option<ModelFailure>, choices: seq<string>, log: seq<Narrated>)

  /** The append loop of the list appliers: new items only, in order. */
  method Extended<T(==,!new)>(s: seq<T>, xs: seq<T>) returns (r: seq<T>)
    ensures r == AddAll(s, xs)
  {
    r := s;
    var i := 0;
    while i < |xs|
      invariant i <= |xs|
      invariant AddAll(r, xs[i..]) == AddAll(s, xs)
    {
      assert xs[i..][1..] == xs[i + 1..];
      if xs[i] !in r {
        r := r + [xs[i]];
      }
      i := i + 1;
    }
  }

  /** The session object the engine mutates; the rule-owned fields form one record. */
  class SessionObject {
    var core: Core
    var pending: Option<ModelFailure>
    var choices: seq<string>
    var log: seq<Narrated>

    function View(): Session
      reads this
    {
      Session(core, pending, choices, log)
    }

    constructor (s: Session)
      ensures View() == s
    {
      core, pending, choices, log := s.core, s.pending, s.choices, s.log;
    }

    /** One delta, section by section: character, world, meta. */
    method ApplyDelta(d: Delta)
      modifies `core
      ensures core == Apply(old(core), d)
    {
      ApplyNumbers(d);
      ApplyIdentity(d);
      ApplyLists(d);
      ApplyWorld(d);
      ApplyMeta(d);
    }

    method ApplyNumbers(d: Delta)
      modifies `core
      ensures core == WithNumbers(old(core), d)
    {
      core := core.(lifespan := Changed(core.lifespan, d.lifespan));
      core := core.(stage := Changed(core.stage, d.stage));
      core := core.(age := Changed(core.age, d.age));
      core := core.(lifespan := Max(1, core.lifespan), age := Max(1, core.age));
    }

    method ApplyIdentity(d: Delta)
      modifies `core
      ensures core == WithIdentity(old(core), d)
    {
      if d.realm.Some? {
        if d.realm.value != core.realm {
          core := core.(realmTurns := 0);
        }
        core := core.(realm := d.realm.value);
      }
    }

    method ApplyLists(d: Delta)
      modifies `core
      ensures core == WithLists(old(core), d)
    {
      if d.attributes.Some? {
        core := core.(attributes := ShiftAttributes(core.attributes, d.attributes.value));
      }
      var titles := Extended(core.titles, d.titles);
      var flags := Extended(core.flags, d.flags);
      var effects := Extended(RemoveAll(core.effects, d.removed), d.added);
      core := core.(aids := core.aids + d.aids, titles := titles, flags := flags, effects := effects);
    }

    method ApplyWorld(d: Delta)
      modifies `core
      ensures core == WithWorld(old(core), d)
    {
      if d.place.Some? {
        core := core.(place := d.place.value);
      }
      if d.story.Some? {
        core := core.(story := d.story.value);
      }
    }

    method ApplyMeta(d: Delta)
      modifies `core
      ensures core == WithMeta(old(core), d)
    {
      if d.over {
        core := core.(over := true);
      }
      if d.reason != NoReason {
        core := core.(reason := d.reason);
      }
      var effects := Extended(core.effects, if d.struck.Some? then [d.struck.value] else []);
      core := core.(effects := effects);
      if d.finale {
        core := core.(finale := true);
      }
    }

    method RecordTurn(eventId: string, narrative: string)
      modifies `core, `log
      ensures core == old(core).(events := old(core).events + [eventId])
      ensures log == old(log) + [Narrated(core.turnCount, narrative, choices)]
    {
      core := core.(events := core.events + [eventId]);
      log := log + [Narrated(core.turnCount, narrative, choices)];
    }
  }
}
