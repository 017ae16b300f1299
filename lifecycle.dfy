/** The JPA lifecycle callbacks shared by User, Tag and Comment: `onCreate` runs as
    @PrePersist and `onUpdate` as @PreUpdate. All three entities declare the same two
    hooks over the same two timestamp fields, so their meaning is stated once here and
    each entity's methods are proved against it. The clock (`LocalDateTime.now()`) is a
    parameter. */
module Lifecycle {
  import opened JavaLang

  /** The two timestamp fields an entity's hooks touch. */
  datatype Stamps = Stamps(createdAt: Option<LocalDateTime>, updatedAt: Option<LocalDateTime>)

  /** `onCreate`: stamp createdAt unless it is already set, and clear updatedAt. */
  function Created(s: Stamps, now: LocalDateTime): (t: Stamps)
    ensures s.createdAt.Some? ==> t.createdAt == s.createdAt
    ensures s.createdAt.None? ==> t.createdAt == Some(now)
    ensures t.updatedAt == None
  {
    Stamps(if s.createdAt.None? then Some(now) else s.createdAt, None)
  }

  /** `onUpdate`: stamp updatedAt; createdAt is never touched. */
  function Updated(s: Stamps, now: LocalDateTime): (t: Stamps)
    ensures t.createdAt == s.createdAt
    ensures t.updatedAt == Some(now)
  {
    s.(updatedAt := Some(now))
  }

  /** One callback fired by the persistence provider, with the clock reading it saw. */
  datatype Hook = PrePersist(now: LocalDateTime) | PreUpdate(now: LocalDateTime)

  function Fire(s: Stamps, h: Hook): Stamps {
    match h
    case PrePersist(now) => Created(s, now)
    case PreUpdate(now) => Updated(s, now)
  }

  /** The timestamps after the provider fires `hooks` in order. */
  function Replay(s: Stamps, hooks: seq<Hook>): Stamps
    decreases |hooks|
  {
    if hooks == [] then s else Replay(Fire(s, hooks[0]), hooks[1..])
  }

  /** createdAt is not updatable: once set, no sequence of callbacks moves it. */
  lemma {:induction false} CreatedAtIsFrozen(s: Stamps, hooks: seq<Hook>)
    requires s.createdAt.Some?
    ensures Replay(s, hooks).createdAt == s.createdAt
    decreases |hooks|
  {
    if hooks != [] {
      CreatedAtIsFrozen(Fire(s, hooks[0]), hooks[1..]);
    }
  }

  /** On an entity without createdAt, createdAt ends up as the clock reading of the first
      @PrePersist callback; @PreUpdate callbacks before it leave it absent. */
  lemma {:induction false} CreatedAtIsFirstPersist(s: Stamps, hooks: seq<Hook>, i: nat)
    requires s.createdAt.None?
    requires i < |hooks| && hooks[i].PrePersist?
    requires forall j :: 0 <= j < i ==> hooks[j].PreUpdate?
    ensures Replay(s, hooks).createdAt == Some(hooks[i].now)
    decreases i
  {
    var next := Fire(s, hooks[0]);
    if i == 0 {
      CreatedAtIsFrozen(next, hooks[1..]);
    } else {
      assert hooks[0].PreUpdate?;
      CreatedAtIsFirstPersist(next, hooks[1..], i - 1);
    }
  }

  /** Without any @PrePersist callback an absent createdAt stays absent. */
  lemma {:induction false} NoPersistNoCreatedAt(s: Stamps, hooks: seq<Hook>)
    requires s.createdAt.None?
    requires forall j :: 0 <= j < |hooks| ==> hooks[j].PreUpdate?
    ensures Replay(s, hooks).createdAt == None
    decreases |hooks|
  {
    if hooks != [] {
      NoPersistNoCreatedAt(Fire(s, hooks[0]), hooks[1..]);
    }
  }

  /** updatedAt reflects only the last callback: absent after a persist, that update's
      clock reading after an update. */
  lemma {:induction false} UpdatedAtIsLastHook(s: Stamps, hooks: seq<Hook>)
    requires hooks != []
    ensures Replay(s, hooks).updatedAt ==
      (if hooks[|hooks| - 1].PrePersist? then None else Some(hooks[|hooks| - 1].now))
    decreases |hooks|
  {
    if |hooks| > 1 {
      UpdatedAtIsLastHook(Fire(s, hooks[0]), hooks[1..]);
    }
  }
}
