/**
 The rollback snapshot shares its lists with the live session. A failed request
 that grew such a list in place is not undone by restoring the snapshot.
 */
module RollbackAliasing {
  import opened GameConstants
  import opened GameSession
  import opened ListLaws

  /** A mutable list, as the session holds it. */
  class PyList<T(==,!new)> {
    var items: seq<T>

    constructor (items: seq<T>)
      ensures this.items == items
    {
      this.items := items;
    }

    /** Appends each missing item in place. */
    method ExtendNew(xs: seq<T>)
      modifies this
      ensures items == AddAll(old(items), xs)
    {
      items := Extended(items, xs);
    }
  }

  /** Save dictionaries hold the session's own lists. */
  datatype SharedSnapshot = SharedSnapshot(flags: PyList<Aid>, effects: PyList<Effect>, age: int)

  /** Everything a delta appends to the status effects: its additions, then a backlash. */
  function Appended(d: Delta): seq<Effect> { d.added + if d.struck.Some? then [d.struck.value] else [] }

  class LiveSession {
    var flags: PyList<Aid>
    var effects: PyList<Effect>
    var age: int

    constructor (flags: PyList<Aid>, effects: PyList<Effect>, age: int)
      ensures this.flags == flags && this.effects == effects && this.age == age
    {
      this.flags, this.effects, this.age := flags, effects, age;
    }

    method ToSaveDict() returns (d: SharedSnapshot)
      ensures d == SharedSnapshot(flags, effects, age)
    {
      d := SharedSnapshot(flags, effects, age);
    }

    /** Removing effects rebinds the field to a new list; adding appends to the current one. */
    method ApplyDelta(d: Delta)
      requires flags as object != effects as object
      modifies this, flags, effects
      ensures flags == old(flags) && flags.items == AddAll(old(flags.items), d.flags)
      ensures d.removed == [] ==> effects == old(effects)
      ensures d.removed != [] ==> fresh(effects) && old(effects).items == old(effects.items)
      ensures effects.items == AddAll(RemoveAll(old(effects.items), d.removed), Appended(d))
      ensures age == Changed(old(age), d.age)
    {
      age := Changed(age, d.age);
      flags.ExtendNew(d.flags);
      if d.removed == [] {
        AddAllNothing(effects.items);
      } else {
        effects := new PyList(RemoveAll(effects.items, d.removed));
      }
      effects.ExtendNew(Appended(d));
    }
  }

  /** Loading copies the flags without repetition and keeps the effects list itself. */
  method FromSaveDict(d: SharedSnapshot) returns (s: LiveSession)
    ensures fresh(s) && s.age == d.age
    ensures fresh(s.flags) && s.flags.items == AddAll([], d.flags.items)
    ensures s.effects == d.effects
  {
    var flags := new PyList(AddAll([], d.flags.items));
    s := new LiveSession(flags, d.effects, d.age);
  }

  /** A delta that appends nothing to a list the snapshot shares. */
  ghost predicate GrowsNoSharedList(flags: seq<Aid>, effects: seq<Effect>, d: Delta) {
    && (forall f :: f in d.flags ==> f in flags)
    && (d.removed == [] ==> forall e :: e in Appended(d) ==> e in effects)
  }

  /**
   A request applies its delta, fails to commit, and restores its snapshot. Scalars
   come back; the lists come back exactly when the delta appended to none of them.
   */
  method FailedRequest(session: LiveSession, d: Delta) returns (restored: LiveSession)
    requires session.flags as object != session.effects as object && NoRepeats(session.flags.items)
    modifies session, session.flags, session.effects
    ensures restored.age == old(session.age)
    ensures restored.flags.items == AddAll(old(session.flags.items), d.flags)
    ensures restored.effects.items ==
      if d.removed == [] then AddAll(old(session.effects.items), Appended(d)) else old(session.effects.items)
    ensures (restored.flags.items == old(session.flags.items) && restored.effects.items == old(session.effects.items))
            <==> GrowsNoSharedList(old(session.flags.items), old(session.effects.items), d)
  {
    var rollback := session.ToSaveDict();
    session.ApplyDelta(d);
    AddAllNothing(old(session.effects.items));
    AddingKeepsDistinct(old(session.flags.items), d.flags);
    assert [] + rollback.flags.items == rollback.flags.items;
    AddingDistinct([], rollback.flags.items);
    restored := FromSaveDict(rollback);
    AddingKnownChangesNothing(old(session.flags.items), d.flags);
    AddingKnownChangesNothing(old(session.effects.items), Appended(d));
  }
}
