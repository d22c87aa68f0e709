/**
 The turn engine: an input is settled by the rules, an unreliable narrator is
 asked, and the outcome is accepted, frozen, retried, told locally or abandoned.
 `Step` is the meaning of one player event; `GameEngine` performs it in place.
 */
module Engine {
  import opened GameConstants
  import opened StoryCatalog
  import opened GameSession
  import opened GameWorld
  import opened Realm
  import opened TurnRules

  const DEFAULT_NODE := "start"
  const SLOTS := [Steady, Chance, Risk, Fate]

  /**
   The narrator's last word on one request, after the built-in second attempt. It may
   claim any state change; only an opening's place is ever read.
   */
  datatype Answer =
    | NoAnswer
    | Answer(narrative: string, choices: seq<string>, residue: bool, place: string, claims: Delta)

  datatype Decision = RetryModel | UseLocalStory | EndRun

  datatype Event = Play(input: Input, answer: Answer) | Decide(decision: Decision, answer: Answer)

  // ---- Choices -------------------------------------------------------------

  function Deduped(cs: seq<string>): (r: seq<string>)
    ensures forall x :: x in r <==> x in cs && x != ""
    ensures forall i, j :: 0 <= i < j < |r| ==> r[i] != r[j]
    ensures |r| <= |cs|
  {
    if cs == [] then []
    else
      var last := cs[|cs| - 1];
      var rest := Deduped(cs[..|cs| - 1]);
      if last == "" || last in rest then rest else rest + [last]
  }

  function NonEmpty(cs: seq<string>): (r: seq<string>)
    ensures forall x :: x in r <==> x in cs && x != ""
    ensures |r| <= |cs|
  {
    if cs == [] then [] else (if cs[0] == "" then [] else [cs[0]]) + NonEmpty(cs[1..])
  }

  /** The first four non-empty texts, without repetition. */
  function Normalized(cs: seq<string>): (r: seq<string>)
    ensures |r| <= 4
  {
    var kept := NonEmpty(cs);
    Deduped(if |kept| <= 4 then kept else kept[..4])
  }

  /** The failure code of an answer, or none when it meets the contract. */
  function Verdict(a: Answer): (code: Option<string>)
    ensures code.None? ==> a.Answer? && |Normalized(a.choices)| == 4
  {
    match a
    case NoAnswer => Some("request_failed")
    case Answer(narrative, choices, residue, _, _) =>
      if residue || narrative == "" || |Normalized(choices)| != 4 then Some("incomplete_output") else None
  }

  /** Breakthrough texts stay at slot C and only while the rules allow the attempt. */
  function FilterChoices(w: World, c: Core, cs: seq<string>): (r: seq<string>)
    requires |cs| == 4
    ensures |r| == 4
  {
    if CanBreakThrough(c) then
      seq(4, i requires 0 <= i < 4 =>
        if i == 2 then (if w.mentions(cs[2]) then cs[2] else w.challenge(c.realm + 1))
        else if w.mentions(cs[i]) then w.fallback(Unread(c), i)
        else cs[i])
    else
      var healed := if Blocked(c) then cs[0 := w.healing(Blockers(c.effects))] else cs;
      seq(4, i requires 0 <= i < 4 => if w.mentions(healed[i]) then w.fallback(Unread(c), i) else healed[i])
  }

  /** English texts give way to fallbacks before the breakthrough filter. */
  function ShownChoices(w: World, c: Core, choices: seq<string>): (r: seq<string>)
    requires |Normalized(choices)| == 4
    ensures |r| == 4
  {
    var texts := Normalized(choices);
    FilterChoices(w, c, seq(4, i requires 0 <= i < 4 =>
      if w.english(texts[i]) then w.fallback(Unread(c), i) else texts[i]))
  }

  function LocalChoices(w: World, c: Core): (r: seq<string>)
    ensures |r| == 4
  {
    seq(4, i requires 0 <= i < 4 => w.localText(Unread(c), i))
  }

  // ---- Settled outcomes ----------------------------------------------------

  function Staged(w: World, c: Core): Core { Apply(c, StageDelta(w, c)) }

  function TurnDelta(w: World, c: Core, cat: Category): Delta { SettleTurn(w, Bump(c), cat) }

  function AfterTurn(w: World, c: Core, d: Delta): Core { Staged(w, Apply(Bump(c), d)) }

  function AttemptOutcome(w: World, c: Core): Delta
    requires CanBreakThrough(c)
  {
    AttachStory(w, c, AttemptDelta(w, c))
  }

  /** The story is attached again once the counters moved; that one is kept. */
  function AfterAttempt(w: World, c: Core, d: Delta): Core {
    Apply(Bump(c), AttachStory(w, Bump(c), d))
  }

  function Localized(c: Core): Core {
    if c.localStory then c else c.(localStory := true, localNode := DEFAULT_NODE)
  }

  function LocalDelta(w: World, c: Core, cat: Category, option: LocalOption): Delta {
    MergeLocal(option, TurnDelta(w, c.(localNode := option.next), cat))
  }

  /** A local turn settles by the same rules and may carry an attempt of its own. */
  function AfterLocalTurn(w: World, c: Core, cat: Category, option: LocalOption): Core {
    var settled := AfterTurn(w, c.(localNode := option.next), LocalDelta(w, c, cat, option));
    if option.breakthrough && CanBreakThrough(settled) then Apply(settled, AttemptDelta(w, settled))
    else settled
  }

  function Abandoned(c: Core): Core {
    c.(over := true, finale := false, reason := ModelUnavailable)
  }

  // ---- Inputs --------------------------------------------------------------

  function Text(s: Session, i: Input): Option<string> {
    match i
    case Pick(slot) => if slot < |s.choices| && slot < 4 then Some(s.choices[slot]) else None
    case Act(text, _) => Some(text)
  }

  function CategoryOf(i: Input): Category {
    match i
    case Pick(slot) => if slot < 4 then SLOTS[slot] else Chance
    case Act(_, category) => category
  }

  /** A decision sent while nothing is pending is an ordinary free-text action. */
  function DecisionText(d: Decision): string {
    match d
    case RetryModel => "retry_model"
    case UseLocalStory => "use_local_story"
    case EndRun => "end_model_failure"
  }

  // ---- One event -----------------------------------------------------------

  function Shown(s: Session, c: Core, choices: seq<string>): Session {
    s.(core := c, choices := choices, pending := None)
  }

  function Told(s: Session, narrative: string, eventId: string): Session {
    s.(core := Recorded(s.core, eventId),
       log := s.log + [Narrated(s.core.turnCount, narrative, s.choices)])
  }

  function Held(s: Session, stage: FailureStage, i: Input, d: Delta, code: string): Session {
    s.(pending := Some(ModelFailure(stage, i, d, s.core.rngCounter, 1, Waiting, code)))
  }

  function AcceptTurn(w: World, s: Session, d: Delta, a: Answer): Session
    requires Verdict(a).None?
  {
    var c := AfterTurn(w, s.core, d);
    Told(Shown(s, c, ShownChoices(w, c, a.choices)), a.narrative, d.eventId)
  }

  function AcceptAttempt(w: World, s: Session, d: Delta, a: Answer): Session
    requires Verdict(a).None?
  {
    var c := AfterAttempt(w, s.core, d);
    Told(Shown(s, c, if c.over then [] else ShownChoices(w, c, a.choices)), a.narrative, "")
  }

  function LocalTurn(w: World, s: Session, i: Input): Session {
    match w.localOption(Unread(s.core), i)
    case None => s.(choices := LocalChoices(w, s.core))
    case Some(option) =>
      var c := AfterLocalTurn(w, s.core, CategoryOf(i), option);
      Told(Shown(s, c, if c.over then [] else LocalChoices(w, c)), "",
           LocalDelta(w, s.core, CategoryOf(i), option).eventId)
  }

  function Played(w: World, s: Session, i: Input, a: Answer): Session {
    if !s.core.started || s.core.over || Text(s, i).None? then s
    else if s.core.localStory then LocalTurn(w, s, i)
    else if w.mentions(Text(s, i).value) && CanBreakThrough(s.core) then
      var d := AttemptOutcome(w, s.core);
      match Verdict(a)
      case None => AcceptAttempt(w, s, d, a)
      case Some(code) => Held(s, BreakthroughStage, i, d, code)
    else
      var d := TurnDelta(w, s.core, CategoryOf(i));
      match Verdict(a)
      case None => AcceptTurn(w, s, d, a)
      case Some(code) => Held(s, TurnStage, i, d, code)
  }

  /** A breakthrough attempt, allowed and asked for. */
  predicate RoutesToAttempt(w: World, s: Session, i: Input) {
    && s.core.started && !s.core.over && !s.core.localStory
    && Text(s, i).Some? && w.mentions(Text(s, i).value) && CanBreakThrough(s.core)
  }

  /**
   The engine's own action handler. It has no guard of its own against a pending
   failure: an ordinary action is refused further down, an attempt is not, and a local
   action leaves the failure where it is.
   */
  function Acted(w: World, s: Session, i: Input, a: Answer): Session {
    if s.pending.Some? && !RoutesToAttempt(w, s, i) then
      if s.core.started && !s.core.over && s.core.localStory && Text(s, i).Some? then
        LocalTurn(w, s, i).(pending := s.pending)
      else s
    else Played(w, s, i, a)
  }

  /** The opening answer may rename the starting place; nothing else of the core is its to set. */
  function OpenedAt(c: Core, a: Answer): Core
    requires a.Answer?
  {
    c.(place := if a.place != "" then a.place else c.place)
  }

  /** A run from the character form: bindings first, then one opening request. */
  function Begun(w: World, c: Core, a: Answer): Session {
    match Verdict(a)
    case None =>
      var placed := OpenedAt(c, a);
      Session(placed, None, ShownChoices(w, placed, a.choices), [])
    case Some(code) => Held(Session(c, None, [], []), OpeningStage, Act("profile_opening", Chance), NO_DELTA, code)
  }

  function Retried(w: World, s: Session, p: ModelFailure, a: Answer): Session {
    if Verdict(a).Some? then s.(pending := Some(p.(requestNo := p.requestNo + 1, status := Waiting)))
    else match p.stage
      case TurnStage => AcceptTurn(w, s, p.frozen, a)
      case BreakthroughStage => AcceptAttempt(w, s, p.frozen, a)
      case OpeningStage =>
        var c := OpenedAt(s.core, a);
        Shown(s, c, ShownChoices(w, c, a.choices))
  }

  function ToldLocally(w: World, s: Session, p: ModelFailure): Session {
    match p.stage
    case TurnStage =>
      var c := Localized(AfterTurn(w, s.core, p.frozen));
      Told(Shown(s, c, LocalChoices(w, c)), "", p.frozen.eventId)
    case BreakthroughStage =>
      var settled := AfterAttempt(w, s.core, p.frozen);
      var c := if settled.over then settled else Localized(settled);
      Told(Shown(s, c, if c.over then [] else LocalChoices(w, c)), "", "")
    case OpeningStage =>
      var c := Localized(s.core);
      Shown(s, c, LocalChoices(w, c))
  }

  function Step(w: World, s: Session, e: Event): Session {
    match (s.pending, e)
    case (None, Play(i, a)) => Played(w, s, i, a)
    case (None, Decide(d, a)) => Played(w, s, Act(DecisionText(d), Chance), a)
    case (Some(_), Play(_, _)) => s
    case (Some(p), Decide(RetryModel, a)) => Retried(w, s, p, a)
    case (Some(p), Decide(UseLocalStory, _)) => ToldLocally(w, s, p)
    case (Some(_), Decide(EndRun, _)) => s.(core := Abandoned(s.core), pending := None)
  }

  // ---- The engine object ---------------------------------------------------

  class GameEngine {
    const w: World
    const session: SessionObject

    constructor (w: World, session: SessionObject)
      ensures this.w == w && this.session == session
    {
      this.w, this.session := w, session;
    }

    method Handle(e: Event)
      modifies session
      ensures session.View() == Step(w, old(session.View()), e)
    {
      if session.pending.Some? {
        if e.Decide? {
          ResolvePending(session.pending.value, e.decision, e.answer);
        }
      } else {
        HandleAction(if e.Play? then e.input else Act(DecisionText(e.decision), Chance), e.answer);
      }
    }

    method HandleAction(i: Input, a: Answer)
      modifies session
      ensures session.View() == Acted(w, old(session.View()), i, a)
    {
      var text := Text(session.View(), i);
      if !session.core.started || session.core.over || text.None? {
        return;
      }
      if session.core.localStory {
        LocalAction(i);
      } else if w.mentions(text.value) && CanBreakThrough(session.core) {
        AttemptBreakthrough(i, a);
      } else {
        OrdinaryAction(i, a);
      }
    }

    /**
     Refused while a failure is pending. The counters move before the rules settle and
     move back when nothing is accepted.
     */
    method OrdinaryAction(i: Input, a: Answer)
      modifies session
      ensures session.View() ==
        var s := old(session.View());
        var d := TurnDelta(w, s.core, CategoryOf(i));
        if s.pending.Some? then s
        else
          match Verdict(a)
          case None => AcceptTurn(w, s, d, a)
          case Some(code) => Held(s, TurnStage, i, d, code)
    {
      if session.pending.Some? {
        return;
      }
      session.core := Bump(session.core);
      var d := SettleTurn(w, session.core, CategoryOf(i));
      if Verdict(a).Some? {
        RestoreUnsettledTurn();
        Hold(TurnStage, i, d, Verdict(a).value);
      } else {
        FinishTurn(d, a);
      }
    }

    method RestoreUnsettledTurn()
      modifies session`core
      requires 0 < session.core.turnCount && 0 < session.core.realmTurns
      ensures Bump(session.core) == old(session.core)
    {
      session.core := session.core.(turnCount := session.core.turnCount - 1,
                                    realmTurns := session.core.realmTurns - 1);
    }

    method Hold(stage: FailureStage, i: Input, d: Delta, code: string)
      modifies session`pending
      ensures session.View() == Held(old(session.View()), stage, i, d, code)
    {
      session.pending := Some(ModelFailure(stage, i, d, session.core.rngCounter, 1, Waiting, code));
    }

    /** Applies a frozen outcome after the counters moved, then shows and records it. */
    method FinishTurn(d: Delta, a: Answer)
      modifies session
      requires Verdict(a).None?
      ensures session.View() ==
        var s := old(session.View());
        var c := Staged(w, Apply(s.core, d));
        Told(Shown(s, c, ShownChoices(w, c, a.choices)), a.narrative, d.eventId)
    {
      ApplyTurn(d);
      session.choices := ShownChoices(w, session.core, a.choices);
      Record(d.eventId, a.narrative);
      session.pending := None;
    }

    /** A settled outcome and then the stage check. */
    method ApplyTurn(d: Delta)
      modifies session`core
      ensures session.core == Staged(w, Apply(old(session.core), d))
    {
      session.ApplyDelta(d);
      session.ApplyDelta(StageDelta(w, session.core));
    }

    /** The draw counter moves only after the turn has been recorded. */
    method Record(eventId: string, narrative: string)
      modifies session`core, session`log
      ensures session.View() == Told(old(session.View()), narrative, eventId)
    {
      session.RecordTurn(eventId, narrative);
      session.core := session.core.(rngCounter := session.core.rngCounter + 1);
    }

    method AttemptBreakthrough(i: Input, a: Answer)
      modifies session
      requires CanBreakThrough(session.core)
      ensures session.View() ==
        var s := old(session.View());
        var d := AttemptOutcome(w, s.core);
        match Verdict(a)
        case None => AcceptAttempt(w, s, d, a)
        case Some(code) => Held(s, BreakthroughStage, i, d, code)
    {
      var d := AttachStory(w, session.core, AttemptDelta(w, session.core));
      if Verdict(a).Some? {
        Hold(BreakthroughStage, i, d, Verdict(a).value);
      } else {
        FinishAttempt(d, a);
      }
    }

    method FinishAttempt(d: Delta, a: Answer)
      modifies session
      requires Verdict(a).None?
      ensures session.View() == AcceptAttempt(w, old(session.View()), d, a)
    {
      ApplyAttempt(d);
      if session.core.over {
        session.choices := [];
      } else {
        session.choices := ShownChoices(w, session.core, a.choices);
      }
      Record("", a.narrative);
      session.pending := None;
    }

    method ApplyAttempt(d: Delta)
      modifies session`core
      ensures session.core == AfterAttempt(w, old(session.core), d)
    {
      session.core := Bump(session.core);
      session.ApplyDelta(AttachStory(w, session.core, d));
    }

    method LocalAction(i: Input)
      modifies session
      ensures session.View() == LocalTurn(w, old(session.View()), i).(pending := old(session.pending))
    {
      var found := w.localOption(Unread(session.core), i);
      if found.None? {
        session.choices := LocalChoices(w, session.core);
        return;
      }
      var eventId := SettleLocally(CategoryOf(i), found.value);
      session.choices := if session.core.over then [] else LocalChoices(w, session.core);
      Record(eventId, "");
    }

    method SettleLocally(cat: Category, option: LocalOption) returns (eventId: string)
      modifies session`core
      ensures session.core == AfterLocalTurn(w, old(session.core), cat, option)
      ensures eventId == LocalDelta(w, old(session.core), cat, option).eventId
    {
      session.core := Bump(session.core.(localNode := option.next));
      var d := MergeLocal(option, SettleTurn(w, session.core, cat));
      ApplyTurn(d);
      if option.breakthrough && CanBreakThrough(session.core) {
        session.ApplyDelta(AttemptDelta(w, session.core));
      }
      eventId := d.eventId;
    }

    method ResolvePending(p: ModelFailure, d: Decision, a: Answer)
      modifies session
      requires session.pending == Some(p)
      ensures session.View() == Step(w, old(session.View()), Decide(d, a))
    {
      match d {
        case RetryModel =>
          Retry(p, a);
        case UseLocalStory =>
          TellLocally(p);
        case EndRun =>
          session.pending := None;
          session.core := session.core.(over := true);
          session.core := session.core.(finale := false, reason := ModelUnavailable);
      }
    }

    method Retry(p: ModelFailure, a: Answer)
      modifies session
      requires session.pending == Some(p)
      ensures session.View() == Retried(w, old(session.View()), p, a)
    {
      session.pending := Some(p.(requestNo := p.requestNo + 1, status := Retrying));
      if Verdict(a).Some? {
        session.pending := Some(p.(requestNo := p.requestNo + 1, status := Waiting));
        return;
      }
      match p.stage {
        case TurnStage =>
          session.core := Bump(session.core);
          FinishTurn(p.frozen, a);
        case BreakthroughStage =>
          FinishAttempt(p.frozen, a);
        case OpeningStage =>
          Open(a);
          session.pending := None;
      }
    }

    method Open(a: Answer)
      modifies session`core, session`choices
      requires Verdict(a).None?
      ensures session.core == OpenedAt(old(session.core), a)
      ensures session.choices == ShownChoices(w, session.core, a.choices)
    {
      if a.place != "" {
        session.core := session.core.(place := a.place);
      }
      session.choices := ShownChoices(w, session.core, a.choices);
    }

    /** Starting over resets the session before the opening is requested. */
    method StartFromProfile(c: Core, a: Answer)
      modifies session
      ensures session.View() == Begun(w, c, a)
    {
      session.core, session.pending, session.choices, session.log := c, None, [], [];
      if Verdict(a).Some? {
        Hold(OpeningStage, Act("profile_opening", Chance), NO_DELTA, Verdict(a).value);
      } else {
        Open(a);
      }
    }

    method EnterLocalStory()
      modifies session`core, session`choices
      ensures session.core == Localized(old(session.core))
      ensures session.choices == LocalChoices(w, session.core)
    {
      if !session.core.localStory {
        session.core := session.core.(localStory := true, localNode := DEFAULT_NODE);
      }
      session.choices := LocalChoices(w, session.core);
    }

    method TellLocally(p: ModelFailure)
      modifies session
      requires session.pending == Some(p)
      ensures session.View() == ToldLocally(w, old(session.View()), p)
    {
      match p.stage {
        case TurnStage =>
          session.core := Bump(session.core);
          ApplyTurn(p.frozen);
          EnterLocalStory();
          Record(p.frozen.eventId, "");
        case BreakthroughStage =>
          ApplyAttempt(p.frozen);
          if session.core.over {
            session.choices := [];
          } else {
            EnterLocalStory();
          }
          Record("", "");
        case OpeningStage =>
          EnterLocalStory();
      }
      session.pending := None;
    }
  }
}
