/** Album (Album.cpp): an owner id, a name, a creation date and an ordered
    list of pictures held by value. */
module Albums {
  import opened Results
  import opened Pictures

  /** The index of the first picture called `pictureName`, if there is one. */
  function FirstNamed(pictures: seq<PictureData>, pictureName: string): (r: Option<nat>)
    ensures r.None? <==> forall i :: 0 <= i < |pictures| ==> pictures[i].name != pictureName
    ensures r.Some? ==> r.value < |pictures| && pictures[r.value].name == pictureName
    ensures r.Some? ==> forall j :: 0 <= j < r.value ==> pictures[j].name != pictureName
  {
    if |pictures| == 0 then None
    else if pictures[0].name == pictureName then Some(0)
    else match FirstNamed(pictures[1..], pictureName)
      case None => None
      case Some(i) => Some(i + 1)
  }

  /** std::list<Picture>::remove(p): drops every picture equal to `p` under
      Picture::operator==, keeping the others in order. */
  function RemoveEqual(pictures: seq<PictureData>, p: PictureData): seq<PictureData>
  {
    if |pictures| == 0 then []
    else
      var last := pictures[|pictures| - 1];
      RemoveEqual(pictures[..|pictures| - 1], p) + (if last.Equals(p) then [] else [last])
  }

  /** What remains after the removal is exactly the pictures whose id differs from p's. */
  lemma {:induction false} RemoveEqualKeepsOtherIds(pictures: seq<PictureData>, p: PictureData)
    ensures forall x :: x in RemoveEqual(pictures, p) <==> x in pictures && x.id != p.id
    ensures |RemoveEqual(pictures, p)| <= |pictures|
  {
    if |pictures| > 0 {
      var init := pictures[..|pictures| - 1];
      RemoveEqualKeepsOtherIds(init, p);
      assert pictures == init + [pictures[|pictures| - 1]];
    }
  }

  /** The removal works part by part: on a concatenation it is the removal
      from each part, so the remaining pictures keep their relative order. */
  lemma {:induction false} RemoveEqualDistributes(xs: seq<PictureData>, ys: seq<PictureData>, p: PictureData)
    ensures RemoveEqual(xs + ys, p) == RemoveEqual(xs, p) + RemoveEqual(ys, p)
    decreases |ys|
  {
    if |ys| == 0 {
      assert xs + ys == xs;
    } else {
      var init := ys[..|ys| - 1];
      var last := ys[|ys| - 1];
      var kept := if last.Equals(p) then [] else [last];
      var whole := xs + ys;
      assert whole[..|whole| - 1] == xs + init && whole[|whole| - 1] == last;
      assert RemoveEqual(whole, p) == RemoveEqual(xs + init, p) + kept;
      RemoveEqualDistributes(xs, init, p);
      assert RemoveEqual(ys, p) == RemoveEqual(init, p) + kept;
    }
  }

  /** On a single picture the removal drops it exactly when its id is p's,
      so every remaining picture keeps its multiplicity. */
  lemma RemoveEqualSingle(x: PictureData, p: PictureData)
    ensures RemoveEqual([x], p) == if x.id == p.id then [] else [x]
  {
    assert [x][..0] == [];
  }

  /** A picture list in which no picture has p's id is left as it is. */
  lemma {:induction false} RemoveEqualAbsent(pictures: seq<PictureData>, p: PictureData)
    requires forall i :: 0 <= i < |pictures| ==> pictures[i].id != p.id
    ensures RemoveEqual(pictures, p) == pictures
  {
    if |pictures| > 0 {
      var init := pictures[..|pictures| - 1];
      RemoveEqualAbsent(init, p);
      assert pictures == init + [pictures[|pictures| - 1]];
    }
  }

  /** An album as a value: the form in which MemoryAccess's list holds it. */
  datatype AlbumData = AlbumData(ownerId: int, name: string, creationDate: string, pictures: seq<PictureData>)
  {
    /** Album::operator==: two albums are equal when their owners are. */
    predicate Equals(other: AlbumData)
    {
      ownerId == other.ownerId
    }

    /** Album::doesPictureExists */
    predicate DoesPictureExists(pictureName: string)
    {
      FirstNamed(pictures, pictureName).Some?
    }

    /** The album after Album::addPicture: the picture is appended, with no
        check of its name. */
    function AddPicture(p: PictureData): AlbumData
    {
      this.(pictures := pictures + [p])
    }

    /** The album after Album::removePicture: the first picture with that name
        selects an id, and every picture with that id goes. */
    function RemovePicture(pictureName: string): Result<AlbumData>
    {
      match FirstNamed(pictures, pictureName)
      case None => Err(ItemNotFound("Picture", ByName(pictureName)))
      case Some(i) => Ok(this.(pictures := RemoveEqual(pictures, pictures[i])))
    }

    /** The album after Album::untagUserInAlbum. */
    function UntagUserInAlbum(userId: int): AlbumData
    {
      this.(pictures := seq(|pictures|, i requires 0 <= i < |pictures| => pictures[i].WithoutTag(userId)))
    }

    /** The album after Album::tagUserInAlbum. */
    function TagUserInAlbum(userId: int): AlbumData
    {
      this.(pictures := seq(|pictures|, i requires 0 <= i < |pictures| => pictures[i].WithTag(userId)))
    }

    /** The album after Album::untagUserInPicture: every picture with that name is untagged. */
    function UntagUserInPicture(userId: int, pictureName: string): AlbumData
    {
      this.(pictures := seq(|pictures|, i requires 0 <= i < |pictures| =>
        if pictures[i].name == pictureName then pictures[i].WithoutTag(userId) else pictures[i]))
    }

    /** The album after Album::tagUserInPicture: every picture with that name is tagged. */
    function TagUserInPicture(userId: int, pictureName: string): AlbumData
    {
      this.(pictures := seq(|pictures|, i requires 0 <= i < |pictures| =>
        if pictures[i].name == pictureName then pictures[i].WithTag(userId) else pictures[i]))
    }
  }

  /** Album equality looks at the owner alone: the name plays no part. */
  lemma AlbumEqualityIsByOwner(a: AlbumData, b: AlbumData)
    ensures a.Equals(b) <==> a.ownerId == b.ownerId
    ensures a.Equals(b.(ownerId := a.ownerId))
  {
  }

  /** doesPictureExists holds exactly when some picture has the name. */
  lemma DoesPictureExistsIffNamed(a: AlbumData, pictureName: string)
    ensures a.DoesPictureExists(pictureName) <==> exists i :: 0 <= i < |a.pictures| && a.pictures[i].name == pictureName
  {
  }

  /** addPicture appends at the end and keeps every earlier picture, even when
      a picture of the same name is already there. */
  lemma AddPictureAppends(a: AlbumData, p: PictureData)
    ensures |a.AddPicture(p).pictures| == |a.pictures| + 1
    ensures a.AddPicture(p).pictures[|a.pictures|] == p
    ensures a.AddPicture(p).pictures[..|a.pictures|] == a.pictures
    ensures a.AddPicture(p).DoesPictureExists(p.name)
  {
    assert a.AddPicture(p).pictures[|a.pictures|].name == p.name;
  }

  /** removePicture fails with ItemNotFound("Picture", name) exactly when no
      picture has the name; otherwise the pictures that remain are exactly
      those whose id differs from that of the first picture with the name. */
  lemma RemovePictureRemovesById(a: AlbumData, pictureName: string)
    ensures a.RemovePicture(pictureName).Err? <==> !a.DoesPictureExists(pictureName)
    ensures a.RemovePicture(pictureName).Err? ==>
      a.RemovePicture(pictureName).error == ItemNotFound("Picture", ByName(pictureName))
    ensures a.RemovePicture(pictureName).Ok? ==>
      var b := a.RemovePicture(pictureName).value;
      var i := FirstNamed(a.pictures, pictureName).value;
      && b.ownerId == a.ownerId && b.name == a.name && b.creationDate == a.creationDate
      && |b.pictures| < |a.pictures|
      && (forall x :: x in b.pictures <==> x in a.pictures && x.id != a.pictures[i].id)
      && b.pictures == RemoveEqual(a.pictures[..i], a.pictures[i]) + RemoveEqual(a.pictures[i + 1..], a.pictures[i])
  {
    match FirstNamed(a.pictures, pictureName)
    case None =>
    case Some(i) =>
      RemoveEqualKeepsOtherIds(a.pictures, a.pictures[i]);
      RemoveEqualShrinks(a.pictures, a.pictures[i], i);
      RemoveEqualAt(a.pictures, i);
  }

  /** Removing the picture at position k keeps the pictures before and after it, in order. */
  lemma RemoveEqualAt(pictures: seq<PictureData>, k: nat)
    requires k < |pictures|
    ensures RemoveEqual(pictures, pictures[k]) ==
      RemoveEqual(pictures[..k], pictures[k]) + RemoveEqual(pictures[k + 1..], pictures[k])
  {
    SplitAround(pictures, k);
    RemoveEqualAround(pictures[..k], pictures[k], pictures[k + 1..]);
  }

  /** A list is its prefix before k, its element at k and its suffix after k. */
  lemma SplitAround<T>(s: seq<T>, k: nat)
    requires k < |s|
    ensures s == s[..k] + [s[k]] + s[k + 1..]
  {
  }

  /** Removing p from a list in which p sits between `before` and `after`
      leaves the filtered `before` followed by the filtered `after`. */
  lemma RemoveEqualAround(before: seq<PictureData>, p: PictureData, after: seq<PictureData>)
    ensures RemoveEqual(before + [p] + after, p) == RemoveEqual(before, p) + RemoveEqual(after, p)
  {
    assert before + [p] + after == before + ([p] + after);
    RemoveEqualDistributes(before, [p] + after, p);
    RemoveEqualDropsFirst(p, after);
  }

  /** A list that starts with p loses that first picture under the removal. */
  lemma RemoveEqualDropsFirst(p: PictureData, after: seq<PictureData>)
    ensures RemoveEqual([p] + after, p) == RemoveEqual(after, p)
  {
    RemoveEqualSingle(p, p);
    RemoveEqualDistributes([p], after, p);
  }

  /** The removal drops at least one picture when some picture has p's id. */
  lemma {:induction false} RemoveEqualShrinks(pictures: seq<PictureData>, p: PictureData, k: nat)
    requires k < |pictures| && pictures[k].id == p.id
    ensures |RemoveEqual(pictures, p)| < |pictures|
  {
    var init := pictures[..|pictures| - 1];
    RemoveEqualKeepsOtherIds(init, p);
    if k < |pictures| - 1 && !pictures[|pictures| - 1].Equals(p) {
      RemoveEqualShrinks(init, p, k);
    }
  }

  /** After untagUserInAlbum no picture tags the user; each picture keeps its
      place and is otherwise the same, and so are the album's own fields. */
  lemma UntagUserInAlbumClears(a: AlbumData, userId: int)
    ensures |a.UntagUserInAlbum(userId).pictures| == |a.pictures|
    ensures forall i :: 0 <= i < |a.pictures| ==>
      var p := a.UntagUserInAlbum(userId).pictures[i];
      !p.IsUserIdTagged(userId) && p == a.pictures[i].WithoutTag(userId)
    ensures a.UntagUserInAlbum(userId).(pictures := a.pictures) == a
  {
  }

  /** After tagUserInAlbum every picture tags the user; each picture keeps its
      place and is otherwise the same, and so are the album's own fields. */
  lemma TagUserInAlbumMarks(a: AlbumData, userId: int)
    ensures |a.TagUserInAlbum(userId).pictures| == |a.pictures|
    ensures forall i :: 0 <= i < |a.pictures| ==>
      var p := a.TagUserInAlbum(userId).pictures[i];
      p.IsUserIdTagged(userId) && p == a.pictures[i].WithTag(userId)
    ensures a.TagUserInAlbum(userId).(pictures := a.pictures) == a
  {
  }

  /** tagUserInPicture tags every picture with the name, leaves the others as
      they are, and changes nothing when no picture has the name. */
  lemma TagUserInPictureTagsNamed(a: AlbumData, userId: int, pictureName: string)
    ensures |a.TagUserInPicture(userId, pictureName).pictures| == |a.pictures|
    ensures forall i :: 0 <= i < |a.pictures| ==>
      var p := a.TagUserInPicture(userId, pictureName).pictures[i];
      (a.pictures[i].name == pictureName ==> p.IsUserIdTagged(userId) && p == a.pictures[i].WithTag(userId))
      && (a.pictures[i].name != pictureName ==> p == a.pictures[i])
    ensures !a.DoesPictureExists(pictureName) ==> a.TagUserInPicture(userId, pictureName) == a
  {
  }

  /** untagUserInPicture untags every picture with the name, leaves the others
      as they are, and changes nothing when no picture has the name. */
  lemma UntagUserInPictureUntagsNamed(a: AlbumData, userId: int, pictureName: string)
    ensures |a.UntagUserInPicture(userId, pictureName).pictures| == |a.pictures|
    ensures forall i :: 0 <= i < |a.pictures| ==>
      var p := a.UntagUserInPicture(userId, pictureName).pictures[i];
      (a.pictures[i].name == pictureName ==> !p.IsUserIdTagged(userId) && p == a.pictures[i].WithoutTag(userId))
      && (a.pictures[i].name != pictureName ==> p == a.pictures[i])
    ensures !a.DoesPictureExists(pictureName) ==> a.UntagUserInPicture(userId, pictureName) == a
  {
  }

  class Album {
    var ownerId: int
    var name: string
    var creationDate: string
    var pictures: seq<PictureData>

    /** The album's current value. */
    function Data(): AlbumData
      reads this
    {
      AlbumData(ownerId, name, creationDate, pictures)
    }

    /** Album(int, std::string): the creation date is read from the clock,
        passed in here as `now`. */
    constructor (ownerId: int, name: string, now: string)
      ensures Data() == AlbumData(ownerId, name, now, [])
    {
      this.ownerId := ownerId;
      this.name := name;
      this.creationDate := now;
      this.pictures := [];
    }

    /** Album(int, std::string, std::string) */
    constructor WithCreationTime(ownerId: int, name: string, creationTime: string)
      ensures Data() == AlbumData(ownerId, name, creationTime, [])
    {
      this.ownerId := ownerId;
      this.name := name;
      this.creationDate := creationTime;
      this.pictures := [];
    }

    method SetName(newName: string)
      modifies this
      ensures Data() == old(Data()).(name := newName)
    {
      name := newName;
    }

    method SetOwner(userId: int)
      modifies this
      ensures Data() == old(Data()).(ownerId := userId)
    {
      ownerId := userId;
    }

    method SetCreationDate(creationTime: string)
      modifies this
      ensures Data() == old(Data()).(creationDate := creationTime)
    {
      creationDate := creationTime;
    }

    /** Album::getPicture: the first picture with the name, or ItemNotFound. */
    method GetPicture(pictureName: string) returns (r: Result<PictureData>)
      ensures r.Err? <==> forall i :: 0 <= i < |pictures| ==> pictures[i].name != pictureName
      ensures r.Err? ==> r.error == ItemNotFound("Picture", ByName(pictureName))
      ensures r.Ok? ==> exists i :: 0 <= i < |pictures| && pictures[i] == r.value && pictures[i].name == pictureName
                                    && forall j :: 0 <= j < i ==> pictures[j].name != pictureName
    {
      var i := 0;
      while i < |pictures|
        invariant 0 <= i <= |pictures|
        invariant forall j :: 0 <= j < i ==> pictures[j].name != pictureName
      {
        if pictureName == pictures[i].name {
          return Ok(pictures[i]);
        }
        i := i + 1;
      }
      return Err(ItemNotFound("Picture", ByName(pictureName)));
    }

    /** Album::doesPictureExists */
    function DoesPictureExists(pictureName: string): (r: bool)
      reads this
      ensures r <==> exists i :: 0 <= i < |pictures| && pictures[i].name == pictureName
    {
      Data().DoesPictureExists(pictureName)
    }

    /** Album::untagUserInAlbum: untags the user in each picture, in place. */
    method UntagUserInAlbum(userId: int)
      modifies this
      ensures Data() == old(Data()).UntagUserInAlbum(userId)
      ensures forall i :: 0 <= i < |pictures| ==> !pictures[i].IsUserIdTagged(userId)
    {
      var i := 0;
      while i < |pictures|
        invariant 0 <= i <= |pictures| == |old(pictures)|
        invariant ownerId == old(ownerId) && name == old(name) && creationDate == old(creationDate)
        invariant forall k :: 0 <= k < i ==> pictures[k] == old(pictures[k]).WithoutTag(userId)
        invariant forall k :: i <= k < |pictures| ==> pictures[k] == old(pictures[k])
      {
        pictures := pictures[i := pictures[i].WithoutTag(userId)];
        i := i + 1;
      }
    }

    /** Album::tagUserInAlbum: tags the user in each picture, in place. */
    method TagUserInAlbum(userId: int)
      modifies this
      ensures Data() == old(Data()).TagUserInAlbum(userId)
      ensures forall i :: 0 <= i < |pictures| ==> pictures[i].IsUserIdTagged(userId)
    {
      var i := 0;
      while i < |pictures|
        invariant 0 <= i <= |pictures| == |old(pictures)|
        invariant ownerId == old(ownerId) && name == old(name) && creationDate == old(creationDate)
        invariant forall k :: 0 <= k < i ==> pictures[k] == old(pictures[k]).WithTag(userId)
        invariant forall k :: i <= k < |pictures| ==> pictures[k] == old(pictures[k])
      {
        pictures := pictures[i := pictures[i].WithTag(userId)];
        i := i + 1;
      }
    }

    /** Album::untagUserInPicture: untags the user in every picture with the name. */
    method UntagUserInPicture(userId: int, pictureName: string)
      modifies this
      ensures Data() == old(Data()).UntagUserInPicture(userId, pictureName)
    {
      var i := 0;
      while i < |pictures|
        invariant 0 <= i <= |pictures| == |old(pictures)|
        invariant ownerId == old(ownerId) && name == old(name) && creationDate == old(creationDate)
        invariant forall k :: 0 <= k < i ==>
          pictures[k] == if old(pictures[k]).name == pictureName then old(pictures[k]).WithoutTag(userId) else old(pictures[k])
        invariant forall k :: i <= k < |pictures| ==> pictures[k] == old(pictures[k])
      {
        if pictures[i].name == pictureName {
          pictures := pictures[i := pictures[i].WithoutTag(userId)];
        }
        i := i + 1;
      }
    }

    /** Album::tagUserInPicture: tags the user in every picture with the name. */
    method TagUserInPicture(userId: int, pictureName: string)
      modifies this
      ensures Data() == old(Data()).TagUserInPicture(userId, pictureName)
    {
      var i := 0;
      while i < |pictures|
        invariant 0 <= i <= |pictures| == |old(pictures)|
        invariant ownerId == old(ownerId) && name == old(name) && creationDate == old(creationDate)
        invariant forall k :: 0 <= k < i ==>
          pictures[k] == if old(pictures[k]).name == pictureName then old(pictures[k]).WithTag(userId) else old(pictures[k])
        invariant forall k :: i <= k < |pictures| ==> pictures[k] == old(pictures[k])
      {
        if pictures[i].name == pictureName {
          pictures := pictures[i := pictures[i].WithTag(userId)];
        }
        i := i + 1;
      }
    }

    /** Album::addPicture */
    method AddPicture(p: PictureData)
      modifies this
      ensures Data() == old(Data()).AddPicture(p)
    {
      pictures := pictures + [p];
    }

    /** Album::removePicture: finds the first picture with the name and removes
        every picture equal to it; fails, changing nothing, when there is none. */
    method RemovePicture(pictureName: string) returns (r: Outcome)
      modifies this
      ensures old(Data()).RemovePicture(pictureName).Ok? ==>
        r == Done && Data() == old(Data()).RemovePicture(pictureName).value
      ensures old(Data()).RemovePicture(pictureName).Err? ==>
        r == Fail(old(Data()).RemovePicture(pictureName).error) && Data() == old(Data())
    {
      var i := 0;
      while i < |pictures|
        invariant 0 <= i <= |pictures|
        invariant forall j :: 0 <= j < i ==> pictures[j].name != pictureName
      {
        if pictureName == pictures[i].name {
          pictures := RemoveEqual(pictures, pictures[i]);
          return Done;
        }
        i := i + 1;
      }
      return Fail(ItemNotFound("Picture", ByName(pictureName)));
    }
  }
}
