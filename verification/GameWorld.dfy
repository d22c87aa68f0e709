/**
 The external facts the engine consults: draws, the event catalogue, the authored
 local story and the wording of system texts. Each is an arbitrary function of
 exactly what the source reads.
 */
module GameWorld {
  import opened GameConstants
  import opened RuleRng
  import opened StoryCatalog
  import opened GameSession

  /** All that chronicle selection and its lore template read. */
  datatype EventQuery = EventQuery(
    profile: Profile, place: string, category: Category, newAge: int, turn: int,
    recent: set<string>, weight: int, realm: RealmIndex, stage: int)

  datatype ChronicleEvent = ChronicleEvent(id: string, lore: string)

  /** What an authored local-story option grants, and the node it leads to. */
  datatype LocalOption = LocalOption(
    attributes: Option<Attributes>, flags: seq<Aid>, aids: set<Aid>, added: seq<Effect>,
    place: Option<string>, breakthrough: bool, next: string)

  datatype World = World(
    dice: Dice,
    event: EventQuery -> ChronicleEvent,
    // Keyword and language tests on a visible text.
    mentions: string -> bool,
    english: string -> bool,
    // System texts: the fallback of a slot, the healing action, the formal attempt.
    // Texts and local options are given the state without its history.
    fallback: (Core, nat) -> string,
    healing: seq<Effect> -> string,
    challenge: RealmIndex -> string,
    // The local story: what an input selects and what a slot shows.
    localOption: (Core, Input) -> Option<LocalOption>,
    localText: (Core, nat) -> string)

  /** System texts never read as breakthrough intent, except the formal attempt. */
  ghost predicate Worded(w: World) {
    && (forall c, i :: !w.mentions(w.fallback(c, i)))
    && (forall es :: !w.mentions(w.healing(es)))
    && (forall r :: w.mentions(w.challenge(r)))
  }

  function Unread(c: Core): Core { c.(events := []) }

  function Draw(w: World, c: Core, stream: string): (word: nat)
    ensures word < TWO_64
  {
    Word(w.dice, c.profile.seed, c.rngCounter, stream)
  }
}
