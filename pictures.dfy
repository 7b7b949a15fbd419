/** Picture (Picture.cpp): an id, a name, a path on disk, a creation date and
    the set of ids of the users tagged in it. */
module Pictures {
  import opened Users

  /** A picture as a value: the form in which an album's list holds it. */
  datatype PictureData = PictureData(id: int, name: string, path: string, creationDate: string, tags: set<int>)
  {
    /** Picture::isUserTagged(int) */
    predicate IsUserIdTagged(userId: int)
    {
      userId in tags
    }

    /** Picture::isUserTagged(const User&) */
    predicate IsUserTagged(user: User)
    {
      user.id in tags
    }

    /** Picture::getTagsCount */
    function TagsCount(): nat
    {
      |tags|
    }

    /** The picture after Picture::tagUser(userId). */
    function WithTag(userId: int): PictureData
    {
      this.(tags := tags + {userId})
    }

    /** The picture after Picture::untagUser(userId). */
    function WithoutTag(userId: int): PictureData
    {
      this.(tags := tags - {userId})
    }

    /** Picture::operator==: two pictures are equal when their ids are. */
    predicate Equals(other: PictureData)
    {
      id == other.id
    }
  }

  /** Tagging makes the user tagged, is idempotent, and adds exactly one tag
      when the user was not tagged before. */
  lemma TagUserTags(p: PictureData, userId: int)
    ensures p.WithTag(userId).IsUserIdTagged(userId)
    ensures p.IsUserIdTagged(userId) ==> p.WithTag(userId) == p
    ensures !p.IsUserIdTagged(userId) ==> p.WithTag(userId).TagsCount() == p.TagsCount() + 1
    ensures forall u :: u != userId ==> (p.WithTag(userId).IsUserIdTagged(u) <==> p.IsUserIdTagged(u))
  {
    if p.IsUserIdTagged(userId) {
      assert p.tags + {userId} == p.tags;
    }
  }

  /** Untagging makes the user untagged, is a no-op for a user who was not
      tagged, and removes exactly one tag when the user was tagged. */
  lemma UntagUserUntags(p: PictureData, userId: int)
    ensures !p.WithoutTag(userId).IsUserIdTagged(userId)
    ensures !p.IsUserIdTagged(userId) ==> p.WithoutTag(userId) == p
    ensures p.IsUserIdTagged(userId) ==> p.WithoutTag(userId).TagsCount() == p.TagsCount() - 1
    ensures forall u :: u != userId ==> (p.WithoutTag(userId).IsUserIdTagged(u) <==> p.IsUserIdTagged(u))
  {
    if !p.IsUserIdTagged(userId) {
      assert p.tags - {userId} == p.tags;
    } else {
      assert p.tags == (p.tags - {userId}) + {userId};
    }
  }

  /** Tagging a user who was not tagged and untagging them again gives back
      the original picture. */
  lemma TagThenUntagRestores(p: PictureData, userId: int)
    requires !p.IsUserIdTagged(userId)
    ensures p.WithTag(userId).WithoutTag(userId) == p
  {
    assert p.tags + {userId} - {userId} == p.tags;
  }

  /** The two overloads of isUserTagged agree. */
  lemma IsUserTaggedOverloadsAgree(p: PictureData, user: User)
    ensures p.IsUserTagged(user) == p.IsUserIdTagged(user.id)
  {
  }

  /** Picture equality looks at the id alone: name, path, date and tags play no part. */
  lemma PictureEqualityIsById(p: PictureData, q: PictureData)
    ensures p.Equals(q) <==> p.id == q.id
    ensures p.Equals(q.(id := p.id))
  {
  }

  class Picture {
    var id: int
    var name: string
    var path: string
    var creationDate: string
    var tags: set<int>

    /** The picture's current value. */
    function Data(): PictureData
      reads this
    {
      PictureData(id, name, path, creationDate, tags)
    }

    /** Picture(int, std::string): the creation date is read from the clock,
        passed in here as `now`; the path starts empty and nobody is tagged. */
    constructor (id: int, name: string, now: string)
      ensures Data() == PictureData(id, name, "", now, {})
    {
      this.id := id;
      this.name := name;
      this.path := "";
      this.creationDate := now;
      this.tags := {};
    }

    /** Picture(int, std::string, std::string, std::string) */
    constructor WithDetails(id: int, name: string, pathOnDisk: string, creationDate: string)
      ensures Data() == PictureData(id, name, pathOnDisk, creationDate, {})
    {
      this.id := id;
      this.name := name;
      this.path := pathOnDisk;
      this.creationDate := creationDate;
      this.tags := {};
    }

    method SetId(newId: int)
      modifies this
      ensures Data() == old(Data()).(id := newId)
    {
      id := newId;
    }

    method SetName(newName: string)
      modifies this
      ensures Data() == old(Data()).(name := newName)
    {
      name := newName;
    }

    method SetPath(location: string)
      modifies this
      ensures Data() == old(Data()).(path := location)
    {
      path := location;
    }

    method SetCreationDate(creationTime: string)
      modifies this
      ensures Data() == old(Data()).(creationDate := creationTime)
    {
      creationDate := creationTime;
    }

    /** Picture::tagUser(const User&) */
    method TagUser(user: User)
      modifies this
      ensures Data() == old(Data()).WithTag(user.id)
      ensures Data().IsUserTagged(user)
    {
      tags := tags + {user.id};
    }

    /** Picture::tagUser(int) */
    method TagUserId(userId: int)
      modifies this
      ensures Data() == old(Data()).WithTag(userId)
      ensures Data().IsUserIdTagged(userId)
    {
      tags := tags + {userId};
    }

    /** Picture::untagUser(const User&): erases the id only when it is tagged. */
    method UntagUser(user: User)
      modifies this
      ensures Data() == old(Data()).WithoutTag(user.id)
      ensures !Data().IsUserTagged(user)
    {
      if Data().IsUserTagged(user) {
        tags := tags - {user.id};
      }
    }

    /** Picture::untagUser(int): erases the id only when it is tagged. */
    method UntagUserId(userId: int)
      modifies this
      ensures Data() == old(Data()).WithoutTag(userId)
      ensures !Data().IsUserIdTagged(userId)
    {
      if Data().IsUserIdTagged(userId) {
        tags := tags - {userId};
      }
    }
  }
}
