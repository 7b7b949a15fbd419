/** MemoryAccess (MemoryAccess.cpp): the in-memory gallery backend. It keeps a
    list of users and a list of albums, each album held by value. */
module Memory {
  import opened Results
  import opened Text
  import opened Users
  import opened Pictures
  import opened Albums
  import opened Gallery

  class MemoryAccess {
    var users: seq<User>
    var albums: seq<AlbumData>

    constructor ()
      ensures users == [] && albums == []
    {
      users := [];
      albums := [];
    }

    /** open(): appends users 0..4 and, for each, the album createDummyAlbum builds. */
    method Open(now: string) returns (ok: bool)
      modifies this
      ensures ok
      ensures users == old(users) + FixtureUsers()
      ensures albums == old(albums) + FixtureAlbums(now)
    {
      var i := 0;
      while i < 5
        invariant 0 <= i <= 5
        invariant users == old(users) + FixtureUsers()[..i]
        invariant albums == old(albums) + FixtureAlbums(now)[..i]
      {
        var user := User(i, "User_" + IntToString(i));
        CreateUser(user);
        var album := CreateDummyAlbum(user, now);
        albums := albums + [album];
        assert FixtureUsers()[..i + 1] == FixtureUsers()[..i] + [user];
        assert FixtureAlbums(now)[..i + 1] == FixtureAlbums(now)[..i] + [album];
        i := i + 1;
      }
      assert FixtureUsers()[..5] == FixtureUsers();
      assert FixtureAlbums(now)[..5] == FixtureAlbums(now);
      return true;
    }

    /** clear(): empties both lists, whatever they held, so a second call
        finds nothing left to change. */
    method Clear()
      modifies this
      ensures users == [] && albums == []
    {
      users := [];
      albums := [];
    }

    /** getAlbumIfExists: the position of the first album with the name,
        whoever owns it, or ItemNotFound("Album", name). */
    function GetAlbumIfExists(albumName: string): (r: Result<nat>)
      reads this
      ensures r.Err? <==> forall i :: 0 <= i < |albums| ==> albums[i].name != albumName
      ensures r.Err? ==> r.error == ItemNotFound("Album", ByName(albumName))
      ensures r.Ok? ==> r.value < |albums| && albums[r.value].name == albumName
      ensures r.Ok? ==> forall j :: 0 <= j < r.value ==> albums[j].name != albumName
    {
      match FirstAlbumNamed(albums, albumName)
      case None => Err(ItemNotFound("Album", ByName(albumName)))
      case Some(i) => Ok(i)
    }

    /** createDummyAlbum: album "Album_<id>" owned by the user. The loop runs
        once only, because the picture id is taken with `i++` before the
        loop's own `++i`, so the album holds the single picture "Picture_1". */
    static method CreateDummyAlbum(user: User, now: string) returns (r: AlbumData)
      ensures r == DummyAlbum(user, now)
      ensures |r.pictures| == 1 && r.ownerId == user.id
    {
      var name := "Album_" + IntToString(user.id);
      var album := new Album(user.id, name, now);
      var i := 1;
      assert IntToString(1) == "1";
      while i < 3
        invariant i == 1 || i == 3
        invariant album.Data() == if i == 1 then AlbumData(user.id, name, now, []) else DummyAlbum(user, now)
      {
        var picName := "Picture_" + IntToString(i);
        var pic := new Picture(i, picName, now);
        i := i + 1;
        pic.SetPath("C:\\Pictures\\" + picName + ".bmp");
        assert picName == "Picture_1";
        assert pic.Data() == PictureData(1, "Picture_1", "C:\\Pictures\\Picture_1.bmp", now, {});
        album.AddPicture(pic.Data());
        i := i + 1;
      }
      r := album.Data();
    }

    /** cleanUserData: removes the user's albums (each removal drops every
        album of that owner), then untags the user in every remaining picture. */
    method CleanUserData(user: User)
      modifies this
      ensures users == old(users)
      ensures albums == WithoutUserData(old(albums), user.id)
    {
      var owned := GetAlbumsOfUser(user);
      var i := 0;
      while i < |owned|
        invariant 0 <= i <= |owned|
        invariant users == old(users)
        invariant albums == if i == 0 then old(albums) else WithoutOwner(old(albums), user.id)
      {
        assert owned[i] in owned;
        RemoveAlbumRemovesOwner(albums, owned[i]);
        if i > 0 {
          WithoutOwnerIdempotent(old(albums), user.id);
        }
        albums := RemoveAlbum(albums, owned[i]);
        i := i + 1;
      }
      if |owned| == 0 {
        WithoutOwnerNothingOwned(old(albums), user.id);
      }
      ghost var kept := albums;
      i := 0;
      while i < |albums|
        invariant 0 <= i <= |albums| == |kept|
        invariant users == old(users)
        invariant forall k :: 0 <= k < i ==> albums[k] == kept[k].UntagUserInAlbum(user.id)
        invariant forall k :: i <= k < |albums| ==> albums[k] == kept[k]
      {
        albums := albums[i := albums[i].UntagUserInAlbum(user.id)];
        i := i + 1;
      }
    }

    /** getAlbums: a copy of the album list. */
    function GetAlbums(): seq<AlbumData>
      reads this
    {
      albums
    }

    /** getAlbumsOfUser: the albums the user owns, in list order. */
    method GetAlbumsOfUser(user: User) returns (r: seq<AlbumData>)
      ensures r == AlbumsOwnedBy(albums, user.id)
      ensures forall a :: a in r <==> a in albums && a.ownerId == user.id
    {
      r := [];
      var i := 0;
      while i < |albums|
        invariant 0 <= i <= |albums|
        invariant r == AlbumsOwnedBy(albums[..i], user.id)
      {
        assert albums[..i + 1][..i] == albums[..i];
        if albums[i].ownerId == user.id {
          r := r + [albums[i]];
        }
        i := i + 1;
      }
      assert albums[..i] == albums;
      OwnedSplit(albums, user.id);
    }

    /** createAlbum: appends the album with no check of owner or name. */
    method CreateAlbum(album: AlbumData)
      modifies this
      ensures users == old(users)
      ensures albums == old(albums) + [album]
    {
      albums := albums + [album];
    }

    /** deleteAlbum: finds an album with the name and owner and removes every
        album equal to it, that is every album of that owner; changes nothing
        when there is none. */
    method DeleteAlbum(albumName: string, userId: int)
      modifies this
      ensures users == old(users)
      ensures FirstAlbumMatching(old(albums), albumName, userId).None? ==> albums == old(albums)
      ensures FirstAlbumMatching(old(albums), albumName, userId).Some? ==> albums == WithoutOwner(old(albums), userId)
      ensures FirstAlbumMatching(old(albums), albumName, userId).Some? ==>
        forall a :: a in albums <==> a in old(albums) && a.ownerId != userId
    {
      var i := 0;
      while i < |albums|
        invariant 0 <= i <= |albums|
        invariant albums == old(albums)
        invariant forall j :: 0 <= j < i ==> !(albums[j].name == albumName && albums[j].ownerId == userId)
      {
        if albums[i].name == albumName && albums[i].ownerId == userId {
          RemoveAlbumRemovesOwner(albums, albums[i]);
          OwnedSplit(albums, userId);
          albums := RemoveAlbum(albums, albums[i]);
          return;
        }
        i := i + 1;
      }
    }

    /** doesAlbumExists as written: std::any_of over the empty range
        [cend(), cend()), so the answer is false whatever the store holds. */
    function DoesAlbumExists(albumName: string, userId: int): (r: bool)
      reads this
      ensures !r
    {
      AnyAlbumMatches(albums[|albums|..], albumName, userId)
    }

    /** doesAlbumExists as evidently intended: std::any_of over the whole list. */
    function AlbumExists(albumName: string, userId: int): (r: bool)
      reads this
      ensures r <==> exists i :: 0 <= i < |albums| && albums[i].name == albumName && albums[i].ownerId == userId
    {
      AnyAlbumMatches(albums, albumName, userId)
    }

    /** openAlbum: a copy of the first album with the name, or a MyException. */
    method OpenAlbum(albumName: string) returns (r: Result<AlbumData>)
      ensures r.Err? <==> forall i :: 0 <= i < |albums| ==> albums[i].name != albumName
      ensures r.Err? ==> r.error == Exception("No album with name " + albumName + " exists")
      ensures r.Ok? ==> exists i :: 0 <= i < |albums| && albums[i] == r.value && r.value.name == albumName
                                    && forall j :: 0 <= j < i ==> albums[j].name != albumName
    {
      var i := 0;
      while i < |albums|
        invariant 0 <= i <= |albums|
        invariant forall j :: 0 <= j < i ==> albums[j].name != albumName
      {
        if albumName == albums[i].name {
          return Ok(albums[i]);
        }
        i := i + 1;
      }
      return Err(Exception("No album with name " + albumName + " exists"));
    }

    /** addPictureToAlbumByName: adds the picture to the first album with the
        name, whoever owns it. */
    method AddPictureToAlbumByName(albumName: string, picture: PictureData) returns (r: Outcome)
      modifies this
      ensures users == old(users)
      ensures FirstAlbumNamed(old(albums), albumName).None? ==>
        r == Fail(ItemNotFound("Album", ByName(albumName))) && albums == old(albums)
      ensures FirstAlbumNamed(old(albums), albumName).Some? ==>
        var k := FirstAlbumNamed(old(albums), albumName).value;
        r == Done && albums == old(albums)[k := old(albums)[k].AddPicture(picture)]
    {
      var found := GetAlbumIfExists(albumName);
      if found.Err? {
        return Fail(found.error);
      }
      var k := found.value;
      albums := albums[k := albums[k].AddPicture(picture)];
      return Done;
    }

    /** removePictureFromAlbumByName: removes the picture from the first album
        with the name; the album's own ItemNotFound("Picture", name) passes through. */
    method RemovePictureFromAlbumByName(albumName: string, pictureName: string) returns (r: Outcome)
      modifies this
      ensures users == old(users)
      ensures FirstAlbumNamed(old(albums), albumName).None? ==>
        r == Fail(ItemNotFound("Album", ByName(albumName))) && albums == old(albums)
      ensures FirstAlbumNamed(old(albums), albumName).Some? ==>
        var k := FirstAlbumNamed(old(albums), albumName).value;
        match old(albums)[k].RemovePicture(pictureName)
        case Ok(a) => r == Done && albums == old(albums)[k := a]
        case Err(e) => r == Fail(e) && albums == old(albums)
    {
      var found := GetAlbumIfExists(albumName);
      if found.Err? {
        return Fail(found.error);
      }
      var k := found.value;
      match albums[k].RemovePicture(pictureName)
      case Ok(a) =>
        albums := albums[k := a];
        return Done;
      case Err(e) =>
        return Fail(e);
    }

    /** tagUserInPicture: tags the user in the pictures with the name in the
        first album with the name. */
    method TagUserInPicture(albumName: string, pictureName: string, userId: int) returns (r: Outcome)
      modifies this
      ensures users == old(users)
      ensures FirstAlbumNamed(old(albums), albumName).None? ==>
        r == Fail(ItemNotFound("Album", ByName(albumName))) && albums == old(albums)
      ensures FirstAlbumNamed(old(albums), albumName).Some? ==>
        var k := FirstAlbumNamed(old(albums), albumName).value;
        r == Done && albums == old(albums)[k := old(albums)[k].TagUserInPicture(userId, pictureName)]
    {
      var found := GetAlbumIfExists(albumName);
      if found.Err? {
        return Fail(found.error);
      }
      var k := found.value;
      albums := albums[k := albums[k].TagUserInPicture(userId, pictureName)];
      return Done;
    }

    /** untagUserInPicture: untags the user in the pictures with the name in
        the first album with the name. */
    method UntagUserInPicture(albumName: string, pictureName: string, userId: int) returns (r: Outcome)
      modifies this
      ensures users == old(users)
      ensures FirstAlbumNamed(old(albums), albumName).None? ==>
        r == Fail(ItemNotFound("Album", ByName(albumName))) && albums == old(albums)
      ensures FirstAlbumNamed(old(albums), albumName).Some? ==>
        var k := FirstAlbumNamed(old(albums), albumName).value;
        r == Done && albums == old(albums)[k := old(albums)[k].UntagUserInPicture(userId, pictureName)]
    {
      var found := GetAlbumIfExists(albumName);
      if found.Err? {
        return Fail(found.error);
      }
      var k := found.value;
      albums := albums[k := albums[k].UntagUserInPicture(userId, pictureName)];
      return Done;
    }

    /** getLastPictureId: the constant FIRST_PICTURE_ID, whatever is stored. */
    function GetLastPictureId(): int
    {
      FIRST_PICTURE_ID
    }

    // ----- Users -----

    /** getUser: the first user with the id, or ItemNotFound("User", id). */
    method GetUser(userId: int) returns (r: Result<User>)
      ensures r == LookupUser(users, userId)
      ensures r.Ok? ==> r.value in users && r.value.id == userId
      ensures r.Err? <==> forall i :: 0 <= i < |users| ==> users[i].id != userId
    {
      var i := 0;
      while i < |users|
        invariant 0 <= i <= |users|
        invariant forall j :: 0 <= j < i ==> users[j].id != userId
      {
        if users[i].id == userId {
          return Ok(users[i]);
        }
        i := i + 1;
      }
      return Err(ItemNotFound("User", ById(userId)));
    }

    /** createUser: appends the user with no check of the id. */
    method CreateUser(user: User)
      modifies this
      ensures albums == old(albums)
      ensures users == old(users) + [user]
    {
      users := users + [user];
    }

    /** deleteUser: when a stored user equals the given one (same id), cleans
        that user's data and removes every user with the id; otherwise
        changes nothing. */
    method DeleteUser(user: User)
      modifies this
      ensures UserIndex(old(users), user.id).None? ==> users == old(users) && albums == old(albums)
      ensures UserIndex(old(users), user.id).Some? ==>
        users == RemoveUser(old(users), user) && albums == WithoutUserData(old(albums), user.id)
      ensures forall u :: u in users ==> u.id != user.id
    {
      var i := 0;
      while i < |users|
        invariant 0 <= i <= |users|
        invariant users == old(users) && albums == old(albums)
        invariant forall j :: 0 <= j < i ==> !users[j].Equals(user)
      {
        if users[i].Equals(user) {
          var userToDelete := users[i];
          CleanUserData(userToDelete);
          RemoveUserSameId(users, userToDelete, user);
          users := RemoveUser(users, userToDelete);
          RemoveUserKeepsOtherIds(old(users), user);
          return;
        }
        i := i + 1;
      }
    }

    /** getLastUserId: the constant FIRST_USER_ID, whatever is stored. */
    function GetLastUserId(): int
    {
      FIRST_USER_ID
    }

    /** doesUserExists: some stored user has the id. */
    function DoesUserExists(userId: int): (r: bool)
      reads this
      ensures r <==> exists i :: 0 <= i < |users| && users[i].id == userId
    {
      UserIndex(users, userId).Some?
    }

    // ----- Statistics -----

    /** countAlbumsOwnedOfUser: as many as getAlbumsOfUser returns. */
    function CountAlbumsOwnedOfUser(user: User): (n: nat)
      reads this
      ensures n == |AlbumsOwnedBy(albums, user.id)|
      ensures n <= |albums|
    {
      CountOwned(albums, user.id)
    }

    /** countAlbumsTaggedOfUser: the albums with at least one picture tagging the user. */
    method CountAlbumsTaggedOfUser(user: User) returns (count: nat)
      ensures count == CountTaggedAlbums(albums, user.id)
    {
      count := 0;
      var i := 0;
      while i < |albums|
        invariant 0 <= i <= |albums|
        invariant count == CountTaggedAlbums(albums[..i], user.id)
      {
        var pics := albums[i].pictures;
        CountTaggedAlbumsPrefix(albums, i, user.id);
        var j := 0;
        while j < |pics|
          invariant 0 <= j <= |pics|
          invariant count == CountTaggedAlbums(albums[..i], user.id)
          invariant forall k :: 0 <= k < j ==> !pics[k].IsUserTagged(user)
        {
          if pics[j].IsUserTagged(user) {
            assert AlbumTagsUser(albums[i], user.id);
            count := count + 1;
            break;
          }
          j := j + 1;
        }
        i := i + 1;
      }
      assert albums[..i] == albums;
    }

    /** countTagsOfUser: the pictures, over all albums, that tag the user. */
    method CountTagsOfUser(user: User) returns (count: nat)
      ensures count == TagTotal(albums, user.id)
    {
      count := 0;
      var i := 0;
      while i < |albums|
        invariant 0 <= i <= |albums|
        invariant count == TagTotal(albums[..i], user.id)
      {
        var pics := albums[i].pictures;
        var j := 0;
        while j < |pics|
          invariant 0 <= j <= |pics|
          invariant count == TagTotal(albums[..i], user.id) + CountTagged(pics[..j], user.id)
        {
          CountTaggedPrefix(pics, j, user.id);
          if pics[j].IsUserTagged(user) {
            count := count + 1;
          }
          j := j + 1;
        }
        assert pics[..j] == pics;
        TagTotalPrefix(albums, i, user.id);
        i := i + 1;
      }
      assert albums[..i] == albums;
    }

    /** averageTagsPerAlbumOfUser: tags per tagged album, 0 when no album tags
        the user; never strictly between 0 and 1. */
    method AverageTagsPerAlbumOfUser(user: User) returns (avg: real)
      ensures CountTaggedAlbums(albums, user.id) == 0 ==> avg == 0.0
      ensures CountTaggedAlbums(albums, user.id) > 0 ==>
        avg * (CountTaggedAlbums(albums, user.id) as real) == TagTotal(albums, user.id) as real
      ensures avg == 0.0 || avg >= 1.0
    {
      var albumsTaggedCount := CountAlbumsTaggedOfUser(user);
      if albumsTaggedCount == 0 {
        return 0.0;
      }
      var tagsCount := CountTagsOfUser(user);
      TaggedAlbumsAtMostTags(albums, user.id);
      avg := tagsCount as real / albumsTaggedCount as real;
      RatioAtLeastOne(tagsCount as real, albumsTaggedCount as real);
    }

    /** The innermost loop of getTopTaggedUser: `userTagsCountMap[user]++`
        for each user a picture tags (std::set order does not matter). */
    static method BumpAll(counts: map<int, int>, userTags: set<int>) returns (userTagsCountMap: map<int, int>)
      ensures userTagsCountMap == Bumped(counts, userTags)
    {
      userTagsCountMap := counts;
      var rest := userTags;
      ghost var done: set<int> := {};
      while rest != {}
        invariant rest + done == userTags && rest !! done
        invariant forall k :: k in userTagsCountMap <==> k in counts || k in done
        invariant forall k :: k in userTagsCountMap ==>
          userTagsCountMap[k] == (if k in counts then counts[k] else 0) + (if k in done then 1 else 0)
        decreases |rest|
      {
        NonEmptyHasElement(rest);
        var u :| u in rest;
        var count := if u in userTagsCountMap then userTagsCountMap[u] else 0;
        userTagsCountMap := userTagsCountMap[u := count + 1];
        rest := rest - {u};
        done := done + {u};
      }
      BumpedPointwise(counts, userTags, userTagsCountMap);
    }

    /** The first half of getTopTaggedUser: `userTagsCountMap[user]++` for
        every tag of every picture of every album. */
    method CountTagsPerUser() returns (userTagsCountMap: map<int, int>)
      ensures userTagsCountMap == TagCounts(PicturesOf(albums))
      ensures forall u :: u in userTagsCountMap <==> TagTotal(albums, u) > 0
    {
      userTagsCountMap := map[];
      var i := 0;
      while i < |albums|
        invariant 0 <= i <= |albums|
        invariant userTagsCountMap == TagCounts(PicturesOf(albums[..i]))
      {
        var pics := albums[i].pictures;
        var j := 0;
        assert PicturesOf(albums[..i]) + pics[..0] == PicturesOf(albums[..i]);
        while j < |pics|
          invariant 0 <= j <= |pics|
          invariant userTagsCountMap == TagCounts(PicturesOf(albums[..i]) + pics[..j])
        {
          ghost var before := PicturesOf(albums[..i]) + pics[..j];
          userTagsCountMap := BumpAll(userTagsCountMap, pics[j].tags);
          TagCountsStep(before, pics[j]);
          SliceSnoc(PicturesOf(albums[..i]), pics, j);
          j := j + 1;
        }
        assert pics[..j] == pics;
        PicturesOfPrefix(albums, i);
        i := i + 1;
      }
      assert albums[..i] == albums;
      forall u ensures u in userTagsCountMap <==> TagTotal(albums, u) > 0 {
        TagIdsAreCounted(PicturesOf(albums), u);
      }
    }

    /** getTopTaggedUser: counts every tag into a map from user id to count,
        then walks the map in ascending key order keeping the last entry not
        below the running maximum; looks up that user. */
    method GetTopTaggedUser() returns (r: Result<User>)
      ensures TagIds(PicturesOf(albums)) == {} ==> r == Err(Exception("There isn't any tagged user."))
      ensures TagIds(PicturesOf(albums)) != {} ==>
        exists t :: IsTopTaggedUser(albums, t) &&
          r == (if t == -1 then Err(Exception("Failed to find most tagged user")) else LookupUser(users, t))
    {
      var userTagsCountMap := CountTagsPerUser();
      ghost var ps := PicturesOf(albums);

      if |userTagsCountMap| == 0 {
        assert userTagsCountMap.Keys == TagIds(ps);
        return Err(Exception("There isn't any tagged user."));
      }

      var topTaggedUser := -1;
      var currentMax := -1;
      var rest := userTagsCountMap.Keys;
      while rest != {}
        invariant rest <= userTagsCountMap.Keys
        invariant forall k, x :: k in userTagsCountMap.Keys - rest && x in rest ==> k < x
        invariant rest == userTagsCountMap.Keys ==> topTaggedUser == -1 && currentMax == -1
        invariant rest != userTagsCountMap.Keys ==>
          topTaggedUser in userTagsCountMap.Keys - rest && currentMax == userTagsCountMap[topTaggedUser]
        invariant forall k :: k in userTagsCountMap.Keys - rest ==>
          userTagsCountMap[k] < currentMax || (userTagsCountMap[k] == currentMax && k <= topTaggedUser)
        decreases |rest|
      {
        SetHasMinimum(rest);
        var key :| IsLeast(key, rest);
        if !(userTagsCountMap[key] < currentMax) {
          topTaggedUser := key;
          currentMax := userTagsCountMap[key];
        }
        forall k, x | k in userTagsCountMap.Keys - (rest - {key}) && x in rest - {key}
          ensures k < x
        {
          if k != key {
            assert k in userTagsCountMap.Keys - rest;
          }
        }
        rest := rest - {key};
      }
      assert userTagsCountMap.Keys == TagIds(ps);
      forall u | u in TagIds(ps)
        ensures TagTotal(albums, u) < TagTotal(albums, topTaggedUser)
             || (TagTotal(albums, u) == TagTotal(albums, topTaggedUser) && u <= topTaggedUser)
      {
        assert userTagsCountMap[u] == TagTotal(albums, u);
      }
      assert IsTopTaggedUser(albums, topTaggedUser);

      if -1 == topTaggedUser {
        return Err(Exception("Failed to find most tagged user"));
      }
      r := GetUser(topTaggedUser);
    }

    /** getTopTaggedPicture: the first picture, over all albums, with the most
        tags, untagged pictures never chosen. */
    method GetTopTaggedPicture() returns (r: Result<PictureData>)
      ensures r.Err? <==> forall k :: 0 <= k < |PicturesOf(albums)| ==> PicturesOf(albums)[k].TagsCount() == 0
      ensures r.Err? ==> r.error == Exception("There isn't any tagged picture.")
      ensures r.Ok? ==> exists k :: IsTopTaggedPicture(PicturesOf(albums), k) && r.value == PicturesOf(albums)[k]
    {
      var currentMax: int := -1;
      var mostTaggedPic: Option<PictureData> := None;
      ghost var best := -1;
      var i := 0;
      while i < |albums|
        invariant 0 <= i <= |albums|
        invariant TopPictureSoFar(PicturesOf(albums[..i]), mostTaggedPic, currentMax, best)
      {
        var pics := albums[i].pictures;
        var j := 0;
        while j < |pics|
          invariant 0 <= j <= |pics|
          invariant TopPictureSoFar(PicturesOf(albums[..i]) + pics[..j], mostTaggedPic, currentMax, best)
        {
          ghost var seen := PicturesOf(albums[..i]) + pics[..j];
          SliceSnoc(PicturesOf(albums[..i]), pics, j);
          TopPictureSoFarStep(seen, pics[j], mostTaggedPic, currentMax, best);
          var tagsCount := pics[j].TagsCount();
          // an untagged picture, or one not above the maximum, is skipped
          if tagsCount != 0 && !(tagsCount <= currentMax) {
            mostTaggedPic := Some(pics[j]);
            currentMax := tagsCount;
            best := |seen|;
          }
          j := j + 1;
        }
        assert pics[..j] == pics;
        PicturesOfPrefix(albums, i);
        i := i + 1;
      }
      assert albums[..i] == albums;

      if mostTaggedPic.None? {
        return Err(Exception("There isn't any tagged picture."));
      }
      return Ok(mostTaggedPic.value);
    }

    /** getTaggedPicturesOfUser: every picture tagging the user, album by album, in list order. */
    method GetTaggedPicturesOfUser(user: User) returns (pictures: seq<PictureData>)
      ensures pictures == TaggedPictures(PicturesOf(albums), user.id)
      ensures |pictures| == TagTotal(albums, user.id)
      ensures forall p :: p in pictures <==> p in PicturesOf(albums) && p.IsUserTagged(user)
    {
      pictures := [];
      var i := 0;
      while i < |albums|
        invariant 0 <= i <= |albums|
        invariant pictures == TaggedPictures(PicturesOf(albums[..i]), user.id)
      {
        var pics := albums[i].pictures;
        var j := 0;
        assert PicturesOf(albums[..i]) + pics[..0] == PicturesOf(albums[..i]);
        while j < |pics|
          invariant 0 <= j <= |pics|
          invariant pictures == TaggedPictures(PicturesOf(albums[..i]) + pics[..j], user.id)
        {
          TaggedPicturesSnoc(PicturesOf(albums[..i]) + pics[..j], pics[j], user.id);
          SliceSnoc(PicturesOf(albums[..i]), pics, j);
          if pics[j].IsUserTagged(user) {
            pictures := pictures + [pics[j]];
          }
          j := j + 1;
        }
        assert pics[..j] == pics;
        PicturesOfPrefix(albums, i);
        i := i + 1;
      }
      assert albums[..i] == albums;
      TaggedPicturesCounted(PicturesOf(albums), user.id);
    }
  }

  /** A ratio of a count to a positive count no larger than it is at least one. */
  lemma RatioAtLeastOne(t: real, c: real)
    requires 0.0 < c <= t
    ensures t / c >= 1.0
  {
    var q := t / c;
    assert q * c == t;
    assert (q - 1.0) * c == t - c;
  }

  /** doesAlbumExists as written misses every stored album: for any of them
      the whole-list check answers true and the empty-range check false. */
  lemma DoesAlbumExistsMissesStoredAlbums(m: MemoryAccess, i: nat)
    requires i < |m.albums|
    ensures m.AlbumExists(m.albums[i].name, m.albums[i].ownerId)
    ensures !m.DoesAlbumExists(m.albums[i].name, m.albums[i].ownerId)
  {
  }
}
