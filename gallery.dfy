/** The state MemoryAccess keeps (a list of users and a list of albums held by
    value) described as functions, with the properties its operations rely on:
    lookups, the removals std::list::remove performs, the deleteUser cascade,
    the fixture data of open(), and the statistics. */
module Gallery {
  import opened Results
  import opened Text
  import opened Users
  import opened Pictures
  import opened Albums

  /** MemoryAccess::getLastUserId returns this constant. */
  const FIRST_USER_ID: int := 200
  /** MemoryAccess::getLastPictureId returns this constant. */
  const FIRST_PICTURE_ID: int := 100

  // ----- Users -----

  /** The index of the first user with the id, if there is one. */
  function UserIndex(users: seq<User>, userId: int): (r: Option<nat>)
    ensures r.None? <==> forall i :: 0 <= i < |users| ==> users[i].id != userId
    ensures r.Some? ==> r.value < |users| && users[r.value].id == userId
    ensures r.Some? ==> forall j :: 0 <= j < r.value ==> users[j].id != userId
  {
    if |users| == 0 then None
    else if users[0].id == userId then Some(0)
    else match UserIndex(users[1..], userId)
      case None => None
      case Some(i) => Some(i + 1)
  }

  /** What MemoryAccess::getUser yields: the first user with the id, or
      ItemNotFound("User", id). */
  function LookupUser(users: seq<User>, userId: int): Result<User>
  {
    match UserIndex(users, userId)
    case None => Err(ItemNotFound("User", ById(userId)))
    case Some(i) => Ok(users[i])
  }

  /** std::list<User>::remove(u): drops every user equal to u under User::operator==. */
  function RemoveUser(users: seq<User>, u: User): seq<User>
  {
    if |users| == 0 then []
    else
      var last := users[|users| - 1];
      RemoveUser(users[..|users| - 1], u) + (if last.Equals(u) then [] else [last])
  }

  /** The users that remain are exactly those whose id differs from u's. */
  lemma {:induction false} RemoveUserKeepsOtherIds(users: seq<User>, u: User)
    ensures forall x :: x in RemoveUser(users, u) <==> x in users && x.id != u.id
  {
    if |users| > 0 {
      var init := users[..|users| - 1];
      RemoveUserKeepsOtherIds(init, u);
      assert users == init + [users[|users| - 1]];
    }
  }

  /** Removing a user works part by part, so the remaining users keep their order. */
  lemma {:induction false} RemoveUserDistributes(xs: seq<User>, ys: seq<User>, u: User)
    ensures RemoveUser(xs + ys, u) == RemoveUser(xs, u) + RemoveUser(ys, u)
    decreases |ys|
  {
    if |ys| == 0 {
      assert xs + ys == xs;
    } else {
      var init := ys[..|ys| - 1];
      var last := ys[|ys| - 1];
      var kept := if last.Equals(u) then [] else [last];
      var whole := xs + ys;
      assert whole[..|whole| - 1] == xs + init && whole[|whole| - 1] == last;
      assert RemoveUser(whole, u) == RemoveUser(xs + init, u) + kept;
      RemoveUserDistributes(xs, init, u);
      assert RemoveUser(ys, u) == RemoveUser(init, u) + kept;
    }
  }

  /** On one user the removal drops it exactly when its id is u's. */
  lemma RemoveUserSingle(x: User, u: User)
    ensures RemoveUser([x], u) == if x.id == u.id then [] else [x]
  {
    assert [x][..0] == [];
  }

  /** Removing a user removes by id, so any user with the same id removes the same ones. */
  lemma {:induction false} RemoveUserSameId(users: seq<User>, u: User, v: User)
    requires u.id == v.id
    ensures RemoveUser(users, u) == RemoveUser(users, v)
  {
    if |users| > 0 {
      RemoveUserSameId(users[..|users| - 1], u, v);
    }
  }

  // ----- Album lookups -----

  /** The index of the first album with the name, whoever owns it. */
  function FirstAlbumNamed(albums: seq<AlbumData>, albumName: string): (r: Option<nat>)
    ensures r.None? <==> forall i :: 0 <= i < |albums| ==> albums[i].name != albumName
    ensures r.Some? ==> r.value < |albums| && albums[r.value].name == albumName
    ensures r.Some? ==> forall j :: 0 <= j < r.value ==> albums[j].name != albumName
  {
    if |albums| == 0 then None
    else if albums[0].name == albumName then Some(0)
    else match FirstAlbumNamed(albums[1..], albumName)
      case None => None
      case Some(i) => Some(i + 1)
  }

  /** The index of the first album with both the name and the owner. */
  function FirstAlbumMatching(albums: seq<AlbumData>, albumName: string, ownerId: int): (r: Option<nat>)
    ensures r.None? <==> forall i :: 0 <= i < |albums| ==> !(albums[i].name == albumName && albums[i].ownerId == ownerId)
    ensures r.Some? ==> r.value < |albums| && albums[r.value].name == albumName && albums[r.value].ownerId == ownerId
  {
    if |albums| == 0 then None
    else if albums[0].name == albumName && albums[0].ownerId == ownerId then Some(0)
    else match FirstAlbumMatching(albums[1..], albumName, ownerId)
      case None => None
      case Some(i) => Some(i + 1)
  }

  /** std::any_of over a range of albums, asking for the name and the owner. */
  function AnyAlbumMatches(albums: seq<AlbumData>, albumName: string, ownerId: int): (r: bool)
    ensures r <==> exists i :: 0 <= i < |albums| && albums[i].name == albumName && albums[i].ownerId == ownerId
  {
    if |albums| == 0 then false
    else (albums[0].name == albumName && albums[0].ownerId == ownerId) || AnyAlbumMatches(albums[1..], albumName, ownerId)
  }

  // ----- Albums of an owner, and their removal -----

  /** The albums the owner owns, in list order (MemoryAccess::getAlbumsOfUser). */
  function AlbumsOwnedBy(albums: seq<AlbumData>, ownerId: int): seq<AlbumData>
  {
    if |albums| == 0 then []
    else
      var last := albums[|albums| - 1];
      AlbumsOwnedBy(albums[..|albums| - 1], ownerId) + (if last.ownerId == ownerId then [last] else [])
  }

  /** std::count_if over the albums, counting those the owner owns: the number
      of albums getAlbumsOfUser returns, at most the number of albums. */
  function CountOwned(albums: seq<AlbumData>, ownerId: int): (n: nat)
    ensures n == |AlbumsOwnedBy(albums, ownerId)|
    ensures n <= |albums|
  {
    if |albums| == 0 then 0
    else CountOwned(albums[..|albums| - 1], ownerId) + (if albums[|albums| - 1].ownerId == ownerId then 1 else 0)
  }

  /** The albums the owner does not own, in list order. */
  function WithoutOwner(albums: seq<AlbumData>, ownerId: int): seq<AlbumData>
  {
    if |albums| == 0 then []
    else
      var last := albums[|albums| - 1];
      WithoutOwner(albums[..|albums| - 1], ownerId) + (if last.ownerId == ownerId then [] else [last])
  }

  /** std::list<Album>::remove(a): drops every album equal to a under Album::operator==. */
  function RemoveAlbum(albums: seq<AlbumData>, a: AlbumData): seq<AlbumData>
  {
    if |albums| == 0 then []
    else
      var last := albums[|albums| - 1];
      RemoveAlbum(albums[..|albums| - 1], a) + (if last.Equals(a) then [] else [last])
  }

  /** Dropping an owner's albums works part by part, so the remaining albums
      keep their order. */
  lemma {:induction false} WithoutOwnerDistributes(xs: seq<AlbumData>, ys: seq<AlbumData>, ownerId: int)
    ensures WithoutOwner(xs + ys, ownerId) == WithoutOwner(xs, ownerId) + WithoutOwner(ys, ownerId)
    decreases |ys|
  {
    if |ys| == 0 {
      assert xs + ys == xs;
    } else {
      var init := ys[..|ys| - 1];
      var last := ys[|ys| - 1];
      var kept := if last.ownerId == ownerId then [] else [last];
      var whole := xs + ys;
      assert whole[..|whole| - 1] == xs + init && whole[|whole| - 1] == last;
      assert WithoutOwner(whole, ownerId) == WithoutOwner(xs + init, ownerId) + kept;
      WithoutOwnerDistributes(xs, init, ownerId);
      assert WithoutOwner(ys, ownerId) == WithoutOwner(init, ownerId) + kept;
    }
  }

  /** On one album it is dropped exactly when the owner owns it. */
  lemma WithoutOwnerSingle(x: AlbumData, ownerId: int)
    ensures WithoutOwner([x], ownerId) == if x.ownerId == ownerId then [] else [x]
  {
    assert [x][..0] == [];
  }

  /** Owned and not-owned albums split the list: each album is in exactly one part. */
  lemma {:induction false} OwnedSplit(albums: seq<AlbumData>, ownerId: int)
    ensures forall x :: x in AlbumsOwnedBy(albums, ownerId) <==> x in albums && x.ownerId == ownerId
    ensures forall x :: x in WithoutOwner(albums, ownerId) <==> x in albums && x.ownerId != ownerId
    ensures |AlbumsOwnedBy(albums, ownerId)| + |WithoutOwner(albums, ownerId)| == |albums|
  {
    if |albums| > 0 {
      var init := albums[..|albums| - 1];
      OwnedSplit(init, ownerId);
      assert albums == init + [albums[|albums| - 1]];
    }
  }

  /** Removing one album removes every album of the same owner, whatever its
      name, because Album::operator== compares owners only. */
  lemma {:induction false} RemoveAlbumRemovesOwner(albums: seq<AlbumData>, a: AlbumData)
    ensures RemoveAlbum(albums, a) == WithoutOwner(albums, a.ownerId)
  {
    if |albums| > 0 {
      var init := albums[..|albums| - 1];
      RemoveAlbumRemovesOwner(init, a);
      assert RemoveAlbum(albums, a) == RemoveAlbum(init, a) + (if albums[|albums| - 1].ownerId == a.ownerId then [] else [albums[|albums| - 1]]);
    }
  }

  /** Removing an owner's albums twice removes nothing more. */
  lemma {:induction false} WithoutOwnerIdempotent(albums: seq<AlbumData>, ownerId: int)
    ensures WithoutOwner(WithoutOwner(albums, ownerId), ownerId) == WithoutOwner(albums, ownerId)
  {
    if |albums| > 0 {
      var init := albums[..|albums| - 1];
      var last := albums[|albums| - 1];
      WithoutOwnerIdempotent(init, ownerId);
      if last.ownerId != ownerId {
        var w := WithoutOwner(init, ownerId) + [last];
        assert WithoutOwner(albums, ownerId) == w;
        assert w[..|w| - 1] == WithoutOwner(init, ownerId) && w[|w| - 1] == last;
        assert WithoutOwner(w, ownerId) == WithoutOwner(WithoutOwner(init, ownerId), ownerId) + [last];
      } else {
        assert WithoutOwner(albums, ownerId) == WithoutOwner(init, ownerId);
      }
    }
  }

  /** When the owner owns no album, removing their albums changes nothing. */
  lemma {:induction false} WithoutOwnerNothingOwned(albums: seq<AlbumData>, ownerId: int)
    requires AlbumsOwnedBy(albums, ownerId) == []
    ensures WithoutOwner(albums, ownerId) == albums
  {
    if |albums| > 0 {
      var init := albums[..|albums| - 1];
      assert |AlbumsOwnedBy(init, ownerId)| <= |AlbumsOwnedBy(albums, ownerId)|;
      WithoutOwnerNothingOwned(init, ownerId);
      assert albums == init + [albums[|albums| - 1]];
    }
  }

  // ----- The deleteUser cascade -----

  /** Each album after Album::untagUserInAlbum(userId), in place. */
  function UntagUserEverywhere(albums: seq<AlbumData>, userId: int): seq<AlbumData>
  {
    seq(|albums|, i requires 0 <= i < |albums| => albums[i].UntagUserInAlbum(userId))
  }

  /** The album list after MemoryAccess::cleanUserData: the user's albums
      removed, then the user untagged in every remaining picture. */
  function WithoutUserData(albums: seq<AlbumData>, userId: int): seq<AlbumData>
  {
    UntagUserEverywhere(WithoutOwner(albums, userId), userId)
  }

  /** After the cascade no album belongs to the user and no picture tags them;
      every album of another owner survives, in order, with the same owner,
      name, date and pictures apart from the user's tags. */
  lemma WithoutUserDataIsClean(albums: seq<AlbumData>, userId: int)
    ensures var rest := WithoutUserData(albums, userId);
      && |rest| == |WithoutOwner(albums, userId)|
      && forall i :: 0 <= i < |rest| ==>
        && rest[i].ownerId != userId
        && rest[i] == WithoutOwner(albums, userId)[i].UntagUserInAlbum(userId)
        && forall j :: 0 <= j < |rest[i].pictures| ==> !rest[i].pictures[j].IsUserIdTagged(userId)
    ensures forall a :: a in albums && a.ownerId != userId ==> a.UntagUserInAlbum(userId) in WithoutUserData(albums, userId)
  {
    OwnedSplit(albums, userId);
    var w := WithoutOwner(albums, userId);
    forall i | 0 <= i < |w| ensures w[i].ownerId != userId {
      assert w[i] in w;
    }
    forall a | a in albums && a.ownerId != userId
      ensures a.UntagUserInAlbum(userId) in WithoutUserData(albums, userId)
    {
      var i :| 0 <= i < |w| && w[i] == a;
      assert WithoutUserData(albums, userId)[i] == a.UntagUserInAlbum(userId);
    }
  }

  // ----- The fixture data of open() -----

  /** The i-th user open() creates: id i, name "User_i". */
  function FixtureUser(i: int): User
  {
    User(i, "User_" + IntToString(i))
  }

  /** The album MemoryAccess::createDummyAlbum builds for a user: "Album_<id>",
      owned by the user, holding the single picture the loop adds. */
  function DummyAlbum(user: User, now: string): AlbumData
  {
    AlbumData(user.id, "Album_" + IntToString(user.id), now,
      [PictureData(1, "Picture_1", "C:\\Pictures\\Picture_1.bmp", now, {})])
  }

  /** The users open() appends. */
  function FixtureUsers(): seq<User>
  {
    seq(5, i requires 0 <= i < 5 => FixtureUser(i))
  }

  /** The albums open() appends. */
  function FixtureAlbums(now: string): seq<AlbumData>
  {
    seq(5, i requires 0 <= i < 5 => DummyAlbum(FixtureUser(i), now))
  }

  /** The fixture: users 0..4 named "User_0".."User_4", each owning one album
      "Album_i" that holds exactly one picture, "Picture_1" with id 1. */
  lemma FixtureShape(now: string)
    ensures |FixtureUsers()| == |FixtureAlbums(now)| == 5
    ensures forall i :: 0 <= i < 5 ==>
      && FixtureUsers()[i] == User(i, "User_" + [DigitChar(i)])
      && FixtureAlbums(now)[i].ownerId == i
      && FixtureAlbums(now)[i].name == "Album_" + [DigitChar(i)]
      && FixtureAlbums(now)[i].pictures == [PictureData(1, "Picture_1", "C:\\Pictures\\Picture_1.bmp", now, {})]
  {
  }

  // ----- Statistics -----

  /** Every picture of every album, album by album, in list order. */
  function PicturesOf(albums: seq<AlbumData>): seq<PictureData>
  {
    if |albums| == 0 then []
    else PicturesOf(albums[..|albums| - 1]) + albums[|albums| - 1].pictures
  }

  /** One more element of s scanned after a fixed prefix. */
  lemma SliceSnoc<T>(prefix: seq<T>, s: seq<T>, j: nat)
    requires j < |s|
    ensures prefix + s[..j] + [s[j]] == prefix + s[..j + 1]
  {
    assert s[..j + 1] == s[..j] + [s[j]];
  }

  lemma PicturesOfPrefix(albums: seq<AlbumData>, i: nat)
    requires i < |albums|
    ensures PicturesOf(albums[..i + 1]) == PicturesOf(albums[..i]) + albums[i].pictures
  {
    assert albums[..i + 1][..i] == albums[..i];
  }

  /** The number of pictures in the list that tag the user. */
  function CountTagged(pictures: seq<PictureData>, userId: int): nat
  {
    if |pictures| == 0 then 0
    else CountTagged(pictures[..|pictures| - 1], userId) + (if pictures[|pictures| - 1].IsUserIdTagged(userId) then 1 else 0)
  }

  lemma CountTaggedPrefix(pictures: seq<PictureData>, j: nat, userId: int)
    requires j < |pictures|
    ensures CountTagged(pictures[..j + 1], userId) == CountTagged(pictures[..j], userId) + (if pictures[j].IsUserIdTagged(userId) then 1 else 0)
  {
    assert pictures[..j + 1][..j] == pictures[..j];
  }

  /** Counting over two lists joined is the sum of the counts. */
  lemma {:induction false} CountTaggedAppend(ps: seq<PictureData>, qs: seq<PictureData>, userId: int)
    ensures CountTagged(ps + qs, userId) == CountTagged(ps, userId) + CountTagged(qs, userId)
  {
    if |qs| == 0 {
      assert ps + qs == ps;
    } else {
      var init := qs[..|qs| - 1];
      CountTaggedAppend(ps, init, userId);
      assert (ps + qs)[..|ps + qs| - 1] == ps + init;
      assert (ps + qs)[|ps + qs| - 1] == qs[|qs| - 1];
    }
  }

  /** The pictures that tag the user, in list order. */
  function TaggedPictures(pictures: seq<PictureData>, userId: int): seq<PictureData>
  {
    if |pictures| == 0 then []
    else
      var last := pictures[|pictures| - 1];
      TaggedPictures(pictures[..|pictures| - 1], userId) + (if last.IsUserIdTagged(userId) then [last] else [])
  }

  /** The pictures that tag the user are as many as CountTagged says, and are
      exactly the listed pictures that tag the user. */
  lemma {:induction false} TaggedPicturesCounted(pictures: seq<PictureData>, userId: int)
    ensures |TaggedPictures(pictures, userId)| == CountTagged(pictures, userId)
    ensures forall p :: p in TaggedPictures(pictures, userId) <==> p in pictures && p.IsUserIdTagged(userId)
  {
    if |pictures| > 0 {
      var init := pictures[..|pictures| - 1];
      TaggedPicturesCounted(init, userId);
      assert pictures == init + [pictures[|pictures| - 1]];
    }
  }

  lemma TaggedPicturesSnoc(pictures: seq<PictureData>, p: PictureData, userId: int)
    ensures TaggedPictures(pictures + [p], userId) == TaggedPictures(pictures, userId) + (if p.IsUserIdTagged(userId) then [p] else [])
  {
    assert (pictures + [p])[..|pictures|] == pictures;
  }

  /** The number of tags the user has across all albums (countTagsOfUser). */
  function TagTotal(albums: seq<AlbumData>, userId: int): nat
  {
    CountTagged(PicturesOf(albums), userId)
  }

  lemma TagTotalPrefix(albums: seq<AlbumData>, i: nat, userId: int)
    requires i < |albums|
    ensures TagTotal(albums[..i + 1], userId) == TagTotal(albums[..i], userId) + CountTagged(albums[i].pictures, userId)
  {
    PicturesOfPrefix(albums, i);
    CountTaggedAppend(PicturesOf(albums[..i]), albums[i].pictures, userId);
  }

  /** Some picture of the album tags the user. */
  predicate AlbumTagsUser(a: AlbumData, userId: int)
  {
    exists j :: 0 <= j < |a.pictures| && a.pictures[j].IsUserIdTagged(userId)
  }

  /** The number of albums in which some picture tags the user (countAlbumsTaggedOfUser). */
  function CountTaggedAlbums(albums: seq<AlbumData>, userId: int): nat
  {
    if |albums| == 0 then 0
    else CountTaggedAlbums(albums[..|albums| - 1], userId) + (if AlbumTagsUser(albums[|albums| - 1], userId) then 1 else 0)
  }

  lemma CountTaggedAlbumsPrefix(albums: seq<AlbumData>, i: nat, userId: int)
    requires i < |albums|
    ensures CountTaggedAlbums(albums[..i + 1], userId) == CountTaggedAlbums(albums[..i], userId) + (if AlbumTagsUser(albums[i], userId) then 1 else 0)
  {
    assert albums[..i + 1][..i] == albums[..i];
  }

  /** An album tags the user exactly when it holds at least one picture tagging them. */
  lemma {:induction false} AlbumTagsUserCounted(pictures: seq<PictureData>, userId: int)
    ensures (exists j :: 0 <= j < |pictures| && pictures[j].IsUserIdTagged(userId)) <==> CountTagged(pictures, userId) > 0
  {
    if |pictures| > 0 {
      var init := pictures[..|pictures| - 1];
      AlbumTagsUserCounted(init, userId);
      if exists j :: 0 <= j < |init| && init[j].IsUserIdTagged(userId) {
        var j :| 0 <= j < |init| && init[j].IsUserIdTagged(userId);
        assert pictures[j] == init[j];
      }
      if exists j :: 0 <= j < |pictures| && pictures[j].IsUserIdTagged(userId) {
        var j :| 0 <= j < |pictures| && pictures[j].IsUserIdTagged(userId);
        if j < |init| {
          assert init[j] == pictures[j];
        }
      }
    }
  }

  /** A tagged album holds at least one tag, so the user never has fewer tags
      than tagged albums, and has none exactly when no album tags them. */
  lemma {:induction false} TaggedAlbumsAtMostTags(albums: seq<AlbumData>, userId: int)
    ensures CountTaggedAlbums(albums, userId) <= TagTotal(albums, userId)
    ensures CountTaggedAlbums(albums, userId) == 0 <==> TagTotal(albums, userId) == 0
  {
    if |albums| > 0 {
      var i := |albums| - 1;
      assert albums[..i + 1] == albums;
      TaggedAlbumsAtMostTags(albums[..i], userId);
      TagTotalPrefix(albums, i, userId);
      CountTaggedAlbumsPrefix(albums, i, userId);
      AlbumTagsUserCounted(albums[i].pictures, userId);
    }
  }

  /** Every user id tagged in some listed picture. */
  function TagIds(pictures: seq<PictureData>): set<int>
  {
    if |pictures| == 0 then {} else TagIds(pictures[..|pictures| - 1]) + pictures[|pictures| - 1].tags
  }

  /** An id is tagged somewhere exactly when its count is positive. */
  lemma {:induction false} TagIdsAreCounted(pictures: seq<PictureData>, userId: int)
    ensures userId in TagIds(pictures) <==> CountTagged(pictures, userId) > 0
  {
    if |pictures| > 0 {
      TagIdsAreCounted(pictures[..|pictures| - 1], userId);
    }
  }

  /** The map getTopTaggedUser accumulates: each tagged id to its number of tags. */
  function TagCounts(pictures: seq<PictureData>): map<int, int>
  {
    map u | u in TagIds(pictures) :: CountTagged(pictures, u)
  }

  /** A count map after `userTagsCountMap[u]++` for every u in ids: absent
      keys start from 0. */
  function Bumped(m: map<int, int>, ids: set<int>): map<int, int>
  {
    map u | u in m.Keys + ids :: (if u in m then m[u] else 0) + (if u in ids then 1 else 0)
  }

  /** A map that agrees with Bumped(m, ids) key by key is Bumped(m, ids). */
  lemma BumpedPointwise(m: map<int, int>, ids: set<int>, b: map<int, int>)
    requires forall k :: k in b <==> k in m || k in ids
    requires forall k :: k in b ==> b[k] == (if k in m then m[k] else 0) + (if k in ids then 1 else 0)
    ensures b == Bumped(m, ids)
  {
    var c := Bumped(m, ids);
    assert c.Keys == m.Keys + ids;
    forall k ensures k in b.Keys <==> k in m.Keys + ids {
    }
    assert b.Keys == m.Keys + ids;
    forall k | k in b ensures b[k] == c[k] {
    }
  }

  /** Counting one more picture bumps every id tagged in it. */
  lemma TagCountsStep(pictures: seq<PictureData>, p: PictureData)
    ensures Bumped(TagCounts(pictures), p.tags) == TagCounts(pictures + [p])
  {
    var ps := pictures + [p];
    assert ps[..|ps| - 1] == pictures;
    assert TagIds(ps) == TagIds(pictures) + p.tags;
    var lhs := Bumped(TagCounts(pictures), p.tags);
    var rhs := TagCounts(ps);
    assert lhs.Keys == rhs.Keys;
    forall k | k in lhs.Keys ensures lhs[k] == rhs[k] {
      TagIdsAreCounted(pictures, k);
    }
  }

  /** m is the least element of s. */
  predicate IsLeast(m: int, s: set<int>)
  {
    m in s && forall x :: x in s ==> m <= x
  }

  /** A nonempty set has an element to pick. */
  lemma NonEmptyHasElement(s: set<int>)
    requires s != {}
    ensures exists z :: z in s
  {
    if forall z :: z !in s {
      assert false;
    }
  }

  /** A nonempty finite set of ids has a least element: std::map visits it first. */
  lemma {:induction false} SetHasMinimum(s: set<int>)
    requires s != {}
    ensures exists m :: IsLeast(m, s)
  {
    NonEmptyHasElement(s);
    var y :| y in s;
    if s == {y} {
      assert IsLeast(y, s);
    } else {
      SetHasMinimum(s - {y});
      var m :| IsLeast(m, s - {y});
      var least := if y < m then y else m;
      forall x | x in s ensures least <= x {
        if x != y {
          assert x in s - {y};
        }
      }
      assert IsLeast(least, s);
    }
  }

  /** t is the user getTopTaggedUser picks: tagged somewhere, with the most
      tags, and the largest id among those with as many. */
  predicate IsTopTaggedUser(albums: seq<AlbumData>, t: int)
  {
    && t in TagIds(PicturesOf(albums))
    && forall u :: u in TagIds(PicturesOf(albums)) ==>
         TagTotal(albums, u) < TagTotal(albums, t) || (TagTotal(albums, u) == TagTotal(albums, t) && u <= t)
  }

  /** The top-tagged user has at least one tag and no user has more tags;
      and only one user is top-tagged. */
  lemma TopTaggedUserHasMostTags(albums: seq<AlbumData>, t: int, t': int)
    requires IsTopTaggedUser(albums, t)
    ensures TagTotal(albums, t) > 0
    ensures forall u :: TagTotal(albums, u) <= TagTotal(albums, t)
    ensures IsTopTaggedUser(albums, t') ==> t' == t
  {
    TagIdsAreCounted(PicturesOf(albums), t);
    forall u ensures TagTotal(albums, u) <= TagTotal(albums, t) {
      TagIdsAreCounted(PicturesOf(albums), u);
    }
  }

  /** The k-th listed picture is the one getTopTaggedPicture picks: tagged at
      all, with the most tags, and the first with that many. */
  predicate IsTopTaggedPicture(pictures: seq<PictureData>, k: int)
  {
    && 0 <= k < |pictures|
    && pictures[k].TagsCount() > 0
    && (forall j :: 0 <= j < |pictures| ==> pictures[j].TagsCount() <= pictures[k].TagsCount())
    && (forall j :: 0 <= j < k ==> pictures[j].TagsCount() < pictures[k].TagsCount())
  }

  /** The state getTopTaggedPicture keeps while scanning `seen`: no picture yet
      (every one seen is untagged), or the top-tagged one so far, at `best`,
      with its tag count in `currentMax`. */
  predicate TopPictureSoFar(seen: seq<PictureData>, most: Option<PictureData>, currentMax: int, best: int)
  {
    if most.None? then currentMax == -1 && forall q :: 0 <= q < |seen| ==> seen[q].TagsCount() == 0
    else IsTopTaggedPicture(seen, best) && most.value == seen[best] && currentMax == seen[best].TagsCount()
  }

  /** Scanning one more picture: it becomes the top one exactly when it is
      tagged and has more tags than the maximum so far. */
  lemma TopPictureSoFarStep(seen: seq<PictureData>, p: PictureData, most: Option<PictureData>, currentMax: int, best: int)
    requires TopPictureSoFar(seen, most, currentMax, best)
    ensures p.TagsCount() != 0 && !(p.TagsCount() <= currentMax) ==>
      TopPictureSoFar(seen + [p], Some(p), p.TagsCount(), |seen|)
    ensures !(p.TagsCount() != 0 && !(p.TagsCount() <= currentMax)) ==>
      TopPictureSoFar(seen + [p], most, currentMax, best)
  {
    var s := seen + [p];
    assert forall q :: 0 <= q < |seen| ==> s[q] == seen[q];
  }

  /** Only one position is the top-tagged picture. */
  lemma TopTaggedPictureUnique(pictures: seq<PictureData>, k: int, k': int)
    requires IsTopTaggedPicture(pictures, k) && IsTopTaggedPicture(pictures, k')
    ensures k == k'
  {
  }

  /** The worked example of the statistics: a user tagged in two pictures of
      one album and one picture of another has two tagged albums and three
      tags, and a user tagged nowhere has neither. */
  lemma StatisticsExample(now: string)
    ensures var x := AlbumData(0, "X", now, [PictureData(1, "a", "", now, {7}), PictureData(2, "b", "", now, {7, 8})]);
      var y := AlbumData(1, "Y", now, [PictureData(3, "c", "", now, {7}), PictureData(4, "d", "", now, {})]);
      && CountTaggedAlbums([x, y], 7) == 2 && TagTotal([x, y], 7) == 3
      && CountTaggedAlbums([x, y], 9) == 0 && TagTotal([x, y], 9) == 0
  {
    var p1, p2 := PictureData(1, "a", "", now, {7}), PictureData(2, "b", "", now, {7, 8});
    var p3, p4 := PictureData(3, "c", "", now, {7}), PictureData(4, "d", "", now, {});
    var x := AlbumData(0, "X", now, [p1, p2]);
    var y := AlbumData(1, "Y", now, [p3, p4]);
    assert [x, y][..1] == [x] && [x][..0] == [];
    assert AlbumTagsUser(x, 7) by { assert x.pictures[0].IsUserIdTagged(7); }
    assert AlbumTagsUser(y, 7) by { assert y.pictures[0].IsUserIdTagged(7); }
    assert !AlbumTagsUser(x, 9) && !AlbumTagsUser(y, 9);
    assert CountTaggedAlbums([x], 7) == 1 && CountTaggedAlbums([x], 9) == 0;
    assert PicturesOf([x]) == [p1, p2];
    assert PicturesOf([x, y]) == [p1, p2, p3, p4];
    var ps := [p1, p2, p3, p4];
    assert ps[..3] == [p1, p2, p3] && ps[..3][..2] == [p1, p2] && [p1, p2][..1] == [p1] && [p1][..0] == [];
    assert CountTagged([p1], 7) == 1 && CountTagged([p1], 9) == 0;
    assert CountTagged([p1, p2], 7) == 2 && CountTagged([p1, p2], 9) == 0;
    assert CountTagged([p1, p2, p3], 7) == 3 && CountTagged([p1, p2, p3], 9) == 0;
  }
}
