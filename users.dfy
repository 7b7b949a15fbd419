/** User (User.h): an id and a display name. */
module Users {

  datatype User = User(id: int, name: string)
  {
    /** User::operator==(const User&): users are equal when their ids are. */
    predicate Equals(other: User)
    {
      id == other.id
    }

    /** User::operator==(int) */
    predicate HasId(userId: int)
    {
      id == userId
    }
  }

  /** Equality of users looks at the id alone: the name plays no part. */
  lemma UserEqualityIsById(u: User, v: User)
    ensures u.Equals(v) <==> u.HasId(v.id)
    ensures u.Equals(v) <==> v.Equals(u)
    ensures u.Equals(u.(name := v.name))
  {
  }
}
