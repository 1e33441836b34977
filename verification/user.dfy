/** The user entity and its factory. The name and e-mail value objects are
    kept opaque: only their string is modelled. */
module Users {
  import opened Entities
  import opened DomainEvents

  datatype FirstName = FirstName(value: string)
  datatype LastName = LastName(value: string)
  datatype Email = Email(value: string)

  datatype User = User(entity: Entity<Event>, firstName: FirstName, lastName: LastName, email: Email)

  /** User.Create: `id` stands for the freshly generated Guid. The new user
      holds exactly one event, a UserCreated naming the user's own id. */
  function Create(id: Guid, firstName: FirstName, lastName: LastName, email: Email): (u: User)
    ensures u.entity.id == id
    ensures u.firstName == firstName && u.lastName == lastName && u.email == email
    ensures GetDomainEvents(u.entity) == [UserCreated(u.entity.id)]
  {
    var user := User(New(id), firstName, lastName, email);
    var entity := RaiseDomainEvent(user.entity, UserCreated(user.entity.id));
    assert GetDomainEvents(entity) == [UserCreated(id)];
    user.(entity := entity)
  }

  /** Two users created from the same details differ only through their
      ids: same names and e-mail, and they hold the same state (and the
      same events) exactly when their ids agree. */
  lemma CreateDependsOnIdOnlyThroughIdentity(id1: Guid, id2: Guid, firstName: FirstName,
                                             lastName: LastName, email: Email)
    ensures var u1 := Create(id1, firstName, lastName, email);
            var u2 := Create(id2, firstName, lastName, email);
            && u1.firstName == u2.firstName && u1.lastName == u2.lastName && u1.email == u2.email
            && (u1 == u2 <==> id1 == id2)
            && (GetDomainEvents(u1.entity) == GetDomainEvents(u2.entity) <==> id1 == id2)
  {
  }
}
