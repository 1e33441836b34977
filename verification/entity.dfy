/** The entity base: an identity fixed at construction plus an append-only,
    insertion-ordered buffer of pending domain events. */
module Entities {

  /** A 128-bit globally unique identifier. */
  type Guid = bv128

  /** An entity's identity and its pending events of type E. */
  datatype Entity<E> = Entity(id: Guid, events: seq<E>)

  /** `after` is `before` with exactly `ev` added at the end. */
  ghost predicate Appended<E>(before: seq<E>, after: seq<E>, ev: E) {
    && |after| == |before| + 1
    && after[..|before|] == before
    && after[|before|] == ev
  }

  /** Construction: the given id and no pending events. */
  function New<E>(id: Guid): (r: Entity<E>)
    ensures r.id == id
    ensures |r.events| == 0
  {
    Entity(id, [])
  }

  /** A snapshot of the pending events, oldest first. */
  function GetDomainEvents<E>(e: Entity<E>): (evs: seq<E>) {
    e.events
  }

  /** Drops every pending event and keeps the identity. */
  function ClearDomainEvents<E>(e: Entity<E>): (r: Entity<E>)
    ensures r.id == e.id
    ensures |GetDomainEvents(r)| == 0
  {
    e.(events := [])
  }

  /** Appends one event at the end and keeps the identity. */
  function RaiseDomainEvent<E>(e: Entity<E>, ev: E): (r: Entity<E>)
    ensures r.id == e.id
    ensures Appended(GetDomainEvents(e), GetDomainEvents(r), ev)
  {
    e.(events := e.events + [ev])
  }

  /** Raises each event of `evs` in turn: they become readable in raise
      order after the events that were already pending. */
  function RaiseAll<E>(e: Entity<E>, evs: seq<E>): (r: Entity<E>)
    ensures r.id == e.id
    ensures GetDomainEvents(r) == GetDomainEvents(e) + evs
    decreases |evs|
  {
    if |evs| == 0 then e
    else
      var r := RaiseAll(RaiseDomainEvent(e, evs[0]), evs[1..]);
      assert [evs[0]] + evs[1..] == evs;
      r
  }

  /** A fresh entity that raises `evs` holds exactly `evs`, in order. */
  lemma NewThenRaiseAll<E>(id: Guid, evs: seq<E>)
    ensures GetDomainEvents(RaiseAll(New<E>(id), evs)) == evs
    ensures RaiseAll(New<E>(id), evs).id == id
  {
  }

  /** Raising an event adds exactly one occurrence of it. */
  lemma RaiseCountsOnce<E>(e: Entity<E>, ev: E)
    ensures multiset(GetDomainEvents(RaiseDomainEvent(e, ev)))[ev]
            == multiset(GetDomainEvents(e))[ev] + 1
  {
  }

  /** Clearing is idempotent, and reading never changes the entity. */
  lemma ClearIsIdempotent<E>(e: Entity<E>)
    ensures ClearDomainEvents(ClearDomainEvents(e)) == ClearDomainEvents(e)
  {
  }
}
