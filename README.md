# Gallery in-memory backend

A Dafny model of the console gallery's in-memory data store: the
`MemoryAccess` backend and the two entities it is built on, `Album` and
`Picture` (all under `ConsoleApp/Gallery/`).

- A **picture** has an id, a name, a path on disk, a creation date and a set
  of tagged user ids. Tagging adds an id to the set, untagging removes it, and
  two pictures are equal when their ids are.
- An **album** has an owner id, a name, a creation date and an ordered list of
  pictures. It adds pictures, looks them up and removes them by name, and tags
  or untags a user in one picture or in all of them. Two albums are equal when
  their owners are, so `std::list::remove` of an album drops every album of
  that owner.
- **MemoryAccess** keeps a list of users and a list of albums. It creates,
  finds and deletes them. Deleting a user first cleans that user's data. It
  also forwards picture and tag operations to the first album with a given
  name and computes the statistics: albums owned, albums tagged, tags,
  average tags per album, the top-tagged user and picture, and a user's
  tagged pictures.

The C++ keeps albums and pictures by value in `std::list`. The model therefore
has two layers:

- The datatypes `Pictures.PictureData` and `Albums.AlbumData` are the values
  the lists hold. The functions on them state what each operation does.
- The classes `Pictures.Picture`, `Albums.Album` and `Memory.MemoryAccess`
  carry the source's fields and loops. Each mutator is proved to leave the
  object equal to the datatype function applied to its old state, and each
  query is proved equal to a specification function. What those functions
  promise is proved as lemmas (modules `Albums` and `Gallery`).

The failures that C++ reports by throwing become values of type
`Results.Result` or `Results.Outcome`:

- `ItemNotFoundException(kind, name or id)` becomes `ItemNotFound`. Its
  `what()` text is reproduced by `GalleryError.Message`.
- `MyException(text)` becomes `Exception` with the same text.

The current time, used by the constructors and `setCreationDateNow`, becomes
a `now` string parameter.

The header of `MemoryAccess` is not part of this model. Its implicit default
construction, two empty lists, is `Memory.MemoryAccess.constructor`.

`createDummyAlbum` loops with `for (i = 1; i < 3; ++i)` and also takes the
picture id with `i++`, so each dummy album gets one picture, `Picture_1`. The
model follows the code here.

## Model

| member | source | states |
|---|---|---|
| Users.UserEqualityIsById | ConsoleApp/Gallery/User.h:17-18 | Two users are equal exactly when their ids are; equality is symmetric and ignores the name |
| Pictures.TagUserTags | ConsoleApp/Gallery/Picture.cpp:75-83 | After tagging, the user is tagged; tagging an already tagged user changes nothing; a new tag raises the count by one; no other user's tag changes |
| Pictures.UntagUserUntags | ConsoleApp/Gallery/Picture.cpp:85-96 | After untagging, the user is not tagged; untagging an untagged user changes nothing; removing a tag lowers the count by one; no other user's tag changes |
| Pictures.TagThenUntagRestores | ConsoleApp/Gallery/Picture.cpp:75-96 | Untagging undoes a tag of a user who was not tagged before |
| Pictures.IsUserTaggedOverloadsAgree | ConsoleApp/Gallery/Picture.cpp:65-73 | The User overload and the id overload of isUserTagged give the same answer |
| Pictures.PictureEqualityIsById | ConsoleApp/Gallery/Picture.cpp:108-111 | Pictures are equal exactly when their ids are, whatever their other fields |
| Pictures.Picture.constructor | ConsoleApp/Gallery/Picture.cpp:6-10 | A new picture has the id, the name, an empty path, the current time and no tags |
| Pictures.Picture.WithDetails | ConsoleApp/Gallery/Picture.cpp:12-15 | A new picture has the given id, name, path and date and no tags |
| Pictures.Picture.SetId | ConsoleApp/Gallery/Picture.cpp:22-25 | Changes the id and nothing else |
| Pictures.Picture.SetName | ConsoleApp/Gallery/Picture.cpp:32-35 | Changes the name and nothing else |
| Pictures.Picture.SetPath | ConsoleApp/Gallery/Picture.cpp:42-45 | Changes the path and nothing else |
| Pictures.Picture.SetCreationDate | ConsoleApp/Gallery/Picture.cpp:52-55 | Changes the creation date and nothing else |
| Pictures.Picture.TagUser | ConsoleApp/Gallery/Picture.cpp:75-78 | Adds the user's id to the tag set; the user is then tagged |
| Pictures.Picture.TagUserId | ConsoleApp/Gallery/Picture.cpp:80-83 | Adds the id to the tag set; the id is then tagged |
| Pictures.Picture.UntagUser | ConsoleApp/Gallery/Picture.cpp:85-89 | Removes the user's id when present; the user is then not tagged |
| Pictures.Picture.UntagUserId | ConsoleApp/Gallery/Picture.cpp:91-96 | Removes the id when present; the id is then not tagged |
| Albums.FirstNamed | ConsoleApp/Gallery/Album.cpp:62-69 | The position of the first picture with the name, and none exactly when no picture has it |
| Albums.RemoveEqualKeepsOtherIds | ConsoleApp/Gallery/Album.cpp:111-121 | `std::list::remove` of a picture keeps exactly the pictures with another id and never grows the list |
| Albums.RemoveEqualAbsent | ConsoleApp/Gallery/Album.cpp:111-121 | Removing a picture whose id is not listed changes nothing |
| Albums.RemoveEqualDistributes | ConsoleApp/Gallery/Album.cpp:111-121 | `std::list::remove` of a picture on a concatenation is the removal from each part, in order, so the remaining pictures keep their relative order |
| Albums.RemoveEqualSingle | ConsoleApp/Gallery/Album.cpp:111-121 | On a one-picture list the removal drops the picture exactly when its id is the removed one's, so each remaining picture keeps its multiplicity |
| Albums.RemoveEqualAt | ConsoleApp/Gallery/Album.cpp:111-121 | Removing the picture at a position leaves the filtered pictures before it followed by the filtered pictures after it |
| Albums.RemoveEqualAround | ConsoleApp/Gallery/Album.cpp:111-121 | On a list `before + [p] + after` the removal of `p` is the removal from `before` followed by the removal from `after` |
| Albums.RemoveEqualDropsFirst | ConsoleApp/Gallery/Album.cpp:111-121 | A list that starts with the removed picture loses that first picture and is otherwise filtered as its tail |
| Albums.RemoveEqualShrinks | ConsoleApp/Gallery/Album.cpp:111-121 | Removing a listed picture shortens the list |
| Albums.AlbumEqualityIsByOwner | ConsoleApp/Gallery/Album.cpp:131-134 | Albums are equal exactly when their owners are, whatever their names or pictures |
| Albums.DoesPictureExistsIffNamed | ConsoleApp/Gallery/Album.cpp:124-129 | A picture exists exactly when some picture has the name |
| Albums.AddPictureAppends | ConsoleApp/Gallery/Album.cpp:105-108 | The picture is appended at the end, the earlier pictures are kept, and a picture with its name then exists |
| Albums.RemovePictureRemovesById | ConsoleApp/Gallery/Album.cpp:111-121 | Fails with ItemNotFound("Picture", name) exactly when no picture has the name; otherwise the pictures with the found picture's id are gone, the others are kept in their order (the filtered pictures before the found one, then those after it), the album's other fields are kept, and the list is shorter |
| Albums.UntagUserInAlbumClears | ConsoleApp/Gallery/Album.cpp:77-81 | Every picture keeps its place and loses the user's tag, and nothing else changes |
| Albums.TagUserInAlbumMarks | ConsoleApp/Gallery/Album.cpp:83-87 | Every picture keeps its place and tags the user, and nothing else changes |
| Albums.TagUserInPictureTagsNamed | ConsoleApp/Gallery/Album.cpp:97-103 | Exactly the pictures with the name get the tag; without such a picture the album is unchanged |
| Albums.UntagUserInPictureUntagsNamed | ConsoleApp/Gallery/Album.cpp:89-95 | Exactly the pictures with the name lose the tag; without such a picture the album is unchanged |
| Albums.Album.constructor | ConsoleApp/Gallery/Album.cpp:10-14 | A new album has the owner, the name, the current time and no pictures |
| Albums.Album.WithCreationTime | ConsoleApp/Gallery/Album.cpp:16-20 | A new album has the owner, the name, the given date and no pictures |
| Albums.Album.SetName | ConsoleApp/Gallery/Album.cpp:28-31 | Changes the name and nothing else |
| Albums.Album.SetOwner | ConsoleApp/Gallery/Album.cpp:38-41 | Changes the owner and nothing else |
| Albums.Album.SetCreationDate | ConsoleApp/Gallery/Album.cpp:48-51 | Changes the creation date and nothing else |
| Albums.Album.GetPicture | ConsoleApp/Gallery/Album.cpp:62-69 | A copy of the first picture with the name, or ItemNotFound("Picture", name) exactly when there is none |
| Albums.Album.DoesPictureExists | ConsoleApp/Gallery/Album.cpp:124-129 | True exactly when some picture has the name |
| Albums.Album.UntagUserInAlbum | ConsoleApp/Gallery/Album.cpp:77-81 | The album becomes its untagged value; no picture then tags the user |
| Albums.Album.TagUserInAlbum | ConsoleApp/Gallery/Album.cpp:83-87 | The album becomes its tagged value; every picture then tags the user |
| Albums.Album.UntagUserInPicture | ConsoleApp/Gallery/Album.cpp:89-95 | The album becomes its value with the named pictures untagged |
| Albums.Album.TagUserInPicture | ConsoleApp/Gallery/Album.cpp:97-103 | The album becomes its value with the named pictures tagged |
| Albums.Album.AddPicture | ConsoleApp/Gallery/Album.cpp:105-108 | The album becomes its value with the picture appended |
| Albums.Album.RemovePicture | ConsoleApp/Gallery/Album.cpp:111-121 | Removes as RemovePicture on the value does, or reports ItemNotFound and leaves the album unchanged |
| Gallery.UserIndex | ConsoleApp/Gallery/MemoryAccess.cpp:179-186 | The position of the first user with the id, and none exactly when no user has it |
| Gallery.RemoveUserKeepsOtherIds | ConsoleApp/Gallery/MemoryAccess.cpp:198-209 | Removing a user keeps exactly the users with another id |
| Gallery.RemoveUserDistributes | ConsoleApp/Gallery/MemoryAccess.cpp:198-209 | `std::list::remove` of a user on a concatenation is the removal from each part, so the remaining users keep their order |
| Gallery.RemoveUserSingle | ConsoleApp/Gallery/MemoryAccess.cpp:198-209 | On a one-user list the removal drops the user exactly when the id matches, so each remaining user keeps its multiplicity |
| Gallery.RemoveUserSameId | ConsoleApp/Gallery/MemoryAccess.cpp:198-209 | Removing a user depends only on the id, so removing the stored user equals removing the given one |
| Gallery.FirstAlbumNamed | ConsoleApp/Gallery/MemoryAccess.cpp:46-55 | The first album with the name, whoever owns it, and none exactly when no album has it |
| Gallery.FirstAlbumMatching | ConsoleApp/Gallery/MemoryAccess.cpp:108-118 | An album with the name and the owner, and none exactly when there is no such album |
| Gallery.AnyAlbumMatches | ConsoleApp/Gallery/MemoryAccess.cpp:120-124 | True exactly when some album in the range has the name and the owner |
| Gallery.CountOwned | ConsoleApp/Gallery/MemoryAccess.cpp:220-224 | The number of albums the owner has, which is at most the number of albums |
| Gallery.WithoutOwnerDistributes | ConsoleApp/Gallery/MemoryAccess.cpp:108-118 | Dropping an owner's albums from a concatenation drops them from each part, so the remaining albums keep their order |
| Gallery.WithoutOwnerSingle | ConsoleApp/Gallery/MemoryAccess.cpp:108-118 | On a one-album list the album is dropped exactly when the owner owns it, so each remaining album keeps its multiplicity |
| Gallery.OwnedSplit | ConsoleApp/Gallery/MemoryAccess.cpp:93-101 | The owner's albums and the remaining albums partition the list by membership and by length |
| Gallery.RemoveAlbumRemovesOwner | ConsoleApp/Gallery/MemoryAccess.cpp:108-118 | `std::list::remove` of an album drops every album with that album's owner |
| Gallery.WithoutOwnerIdempotent | ConsoleApp/Gallery/MemoryAccess.cpp:75-86 | Removing an owner's albums a second time changes nothing |
| Gallery.WithoutOwnerNothingOwned | ConsoleApp/Gallery/MemoryAccess.cpp:75-86 | When the user owns no album, removing the user's albums changes nothing |
| Gallery.WithoutUserDataIsClean | ConsoleApp/Gallery/MemoryAccess.cpp:75-86 | After cleaning, no album is the user's and no picture tags the user, and every other owner's album is kept with the user's tags removed |
| Gallery.FixtureShape | ConsoleApp/Gallery/MemoryAccess.cpp:24-73 | open adds five users, "User_0" to "User_4", each owning one album "Album_i" with one picture "Picture_1" at "C:\Pictures\Picture_1.bmp" |
| Gallery.CountTaggedAppend | ConsoleApp/Gallery/MemoryAccess.cpp:244-258 | Tag counts add up over consecutive lists of pictures |
| Gallery.TaggedPicturesCounted | ConsoleApp/Gallery/MemoryAccess.cpp:330-342 | The tagged pictures are exactly those that tag the user, as many as the user's tags |
| Gallery.AlbumTagsUserCounted | ConsoleApp/Gallery/MemoryAccess.cpp:226-242 | An album tags the user exactly when its count of pictures tagging the user is positive |
| Gallery.TaggedAlbumsAtMostTags | ConsoleApp/Gallery/MemoryAccess.cpp:260-268 | A user has at least as many tags as tagged albums, and has no tags exactly when no album is tagged |
| Gallery.TagIdsAreCounted | ConsoleApp/Gallery/MemoryAccess.cpp:270-290 | An id is a key of the tag-count map exactly when the user has a tag |
| Gallery.TagCountsStep | ConsoleApp/Gallery/MemoryAccess.cpp:276-285 | Incrementing every id a picture tags turns the counts of the earlier pictures into the counts including that picture |
| Gallery.BumpedPointwise | ConsoleApp/Gallery/MemoryAccess.cpp:281-284 | A map with the counts' keys plus the picture's ids, each value one higher for those ids, is the incremented map |
| Gallery.SetHasMinimum | ConsoleApp/Gallery/MemoryAccess.cpp:292-298 | A nonempty set of ids has a least one, the one `std::map` visits first |
| Gallery.TopTaggedUserHasMostTags | ConsoleApp/Gallery/MemoryAccess.cpp:270-304 | The top-tagged user has a tag, no user has more tags, and the top-tagged user is unique |
| Gallery.TopPictureSoFarStep | ConsoleApp/Gallery/MemoryAccess.cpp:312-321 | A picture becomes the best so far exactly when it is tagged and has more tags than the best before it |
| Gallery.TopTaggedPictureUnique | ConsoleApp/Gallery/MemoryAccess.cpp:306-328 | The first picture with the most tags is unique |
| Gallery.StatisticsExample | ConsoleApp/Gallery/MemoryAccess.cpp:226-268 | In a sample store, user 7 is tagged in two albums with three tags and user 9 in none |
| Memory.MemoryAccess.Open | ConsoleApp/Gallery/MemoryAccess.cpp:24-38 | Succeeds and appends the five fixture users and their dummy albums |
| Memory.MemoryAccess.Clear | ConsoleApp/Gallery/MemoryAccess.cpp:40-44 | Leaves no users and no albums |
| Memory.MemoryAccess.GetAlbumIfExists | ConsoleApp/Gallery/MemoryAccess.cpp:46-55 | The first album with the name, or ItemNotFound("Album", name) exactly when no album has it |
| Memory.MemoryAccess.CreateDummyAlbum | ConsoleApp/Gallery/MemoryAccess.cpp:57-73 | The user's album "Album_id" with the single picture the loop adds |
| Memory.MemoryAccess.CleanUserData | ConsoleApp/Gallery/MemoryAccess.cpp:75-86 | Removes the user's albums and the user's tags, which leaves the cleaned state described by WithoutUserDataIsClean |
| Memory.MemoryAccess.GetAlbumsOfUser | ConsoleApp/Gallery/MemoryAccess.cpp:93-101 | Exactly the albums the user owns, in list order |
| Memory.MemoryAccess.CreateAlbum | ConsoleApp/Gallery/MemoryAccess.cpp:103-106 | Appends the album and leaves the users unchanged |
| Memory.MemoryAccess.DeleteAlbum | ConsoleApp/Gallery/MemoryAccess.cpp:108-118 | With an album of the name and owner, every album of that owner is removed and the rest kept; otherwise nothing changes |
| Memory.MemoryAccess.DoesAlbumExists | ConsoleApp/Gallery/MemoryAccess.cpp:120-124 | As written, the answer is false whatever is stored |
| Memory.MemoryAccess.AlbumExists | ConsoleApp/Gallery/MemoryAccess.cpp:120-124 | True exactly when an album with the name and the owner is stored |
| Memory.DoesAlbumExistsMissesStoredAlbums | ConsoleApp/Gallery/MemoryAccess.cpp:120-124 | For every stored album the intended check answers true and the check as written answers false |
| Memory.MemoryAccess.OpenAlbum | ConsoleApp/Gallery/MemoryAccess.cpp:126-133 | A copy of the first album with the name, or "No album with name ... exists" exactly when there is none |
| Memory.MemoryAccess.AddPictureToAlbumByName | ConsoleApp/Gallery/MemoryAccess.cpp:135-139 | Appends the picture to the first album with the name; with no such album, ItemNotFound and no change |
| Memory.MemoryAccess.RemovePictureFromAlbumByName | ConsoleApp/Gallery/MemoryAccess.cpp:141-145 | Removes the picture from the first album with the name; a missing album or picture reports ItemNotFound and changes nothing |
| Memory.MemoryAccess.TagUserInPicture | ConsoleApp/Gallery/MemoryAccess.cpp:147-151 | Tags the user in the named pictures of the first album with the name; with no such album, ItemNotFound and no change |
| Memory.MemoryAccess.UntagUserInPicture | ConsoleApp/Gallery/MemoryAccess.cpp:153-157 | Untags the user in the named pictures of the first album with the name; with no such album, ItemNotFound and no change |
| Memory.MemoryAccess.GetUser | ConsoleApp/Gallery/MemoryAccess.cpp:179-186 | A stored user with the id, or ItemNotFound("User", id) exactly when no user has it |
| Memory.MemoryAccess.CreateUser | ConsoleApp/Gallery/MemoryAccess.cpp:193-196 | Appends the user and leaves the albums unchanged |
| Memory.MemoryAccess.DeleteUser | ConsoleApp/Gallery/MemoryAccess.cpp:198-209 | With a user of the id, cleans that user's data and removes every user with the id; otherwise nothing changes; afterwards no user has the id |
| Memory.MemoryAccess.DoesUserExists | ConsoleApp/Gallery/MemoryAccess.cpp:211-216 | True exactly when some user has the id |
| Memory.MemoryAccess.CountAlbumsOwnedOfUser | ConsoleApp/Gallery/MemoryAccess.cpp:220-224 | As many as getAlbumsOfUser returns, at most the number of albums |
| Memory.MemoryAccess.CountAlbumsTaggedOfUser | ConsoleApp/Gallery/MemoryAccess.cpp:226-242 | The number of albums with a picture that tags the user |
| Memory.MemoryAccess.CountTagsOfUser | ConsoleApp/Gallery/MemoryAccess.cpp:244-258 | The number of pictures, over all albums, that tag the user |
| Memory.MemoryAccess.AverageTagsPerAlbumOfUser | ConsoleApp/Gallery/MemoryAccess.cpp:260-268 | 0 when no album tags the user, otherwise tags divided by tagged albums; never strictly between 0 and 1 |
| Memory.MemoryAccess.BumpAll | ConsoleApp/Gallery/MemoryAccess.cpp:281-284 | Incrementing the count of every tagged id gives the incremented map, in any order |
| Memory.MemoryAccess.CountTagsPerUser | ConsoleApp/Gallery/MemoryAccess.cpp:274-285 | The map holds each tagged id with its number of tags, and holds an id exactly when the user has a tag |
| Memory.MemoryAccess.GetTopTaggedUser | ConsoleApp/Gallery/MemoryAccess.cpp:270-304 | "There isn't any tagged user." exactly when nobody is tagged; otherwise the lookup of the top-tagged user, the highest id among those with the most tags |
| Memory.MemoryAccess.GetTopTaggedPicture | ConsoleApp/Gallery/MemoryAccess.cpp:306-328 | "There isn't any tagged picture." exactly when no picture is tagged; otherwise the first picture with the most tags |
| Memory.MemoryAccess.GetTaggedPicturesOfUser | ConsoleApp/Gallery/MemoryAccess.cpp:330-342 | Exactly the pictures tagging the user, album by album in order, as many as the user's tags |
| Text.NatToString | ConsoleApp/Gallery/MemoryAccess.cpp:29 | `std::to_string` of a natural number: a nonempty string of digits that denotes the number, with no leading zero, one digit exactly below 10 |
| Text.IntToString | ConsoleApp/Gallery/MemoryAccess.cpp:59 | `std::to_string` of any id: starts with '-' exactly for a negative number, and the digits after the sign denote its magnitude |
| Text.IntToStringInjective | ConsoleApp/Gallery/MemoryAccess.cpp:59 | Distinct ids are rendered as distinct strings |
| Results.GalleryError.Message | ConsoleApp/Gallery/ItemNotFoundException.h:7-20 | `what()` of a missing item starts with the item kind and ends with "' does not exist"; a MyException reports its own text |
| Results.MessageIdentifiesKey | ConsoleApp/Gallery/ItemNotFoundException.h:7-15 | Two ItemNotFound messages about the same kind of item are equal only when they name the same id or the same name |

## Left out

- Printing: `printAlbums`, `printUsers` and the `operator<<` overloads only write to the console.
- `closeAlbum` does nothing in the source, so it has no counterpart.
- `getLastUserId` and `getLastPictureId` return the constants 200 and 100. They are plain functions without contracts.
- `getAlbums` and the getters only return fields. `getAlbums` is a function without a contract.
- `setCreationDateNow` on albums and pictures reads the clock. The time is a `now` string parameter, and setting it is `SetCreationDate`.
- The time format (`%d/%m/%Y %H:%M:%S`) is not modelled; dates are opaque strings.
- Memory.MemoryAccess.AverageTagsPerAlbumOfUser: the result is an exact `real`. The source's `float` division and its rounding are not modelled.
- Memory.MemoryAccess.Open: one `now` stands for every clock reading `open()` makes (each `Album` and `Picture` constructor reads the clock), so the model gives every fixture album and picture the same creation date, which the source does not guarantee.
- Integer overflow of the C++ `int` counters is not modelled: counts are unbounded.
- Memory.MemoryAccess.GetTopTaggedPicture: the source keeps a pointer into the temporary list that `getPictures()` returns, and copies the picture through it after that list is destroyed, which is undefined behaviour. The model returns a copy of the picture the pointer was meant to reach.
- Memory.MemoryAccess.BumpAll: the source walks the `std::set` of tags in ascending order. The model takes the ids in any order, which gives the same counts.
- A user is modelled by its id and its name only; user equality compares ids.
- `ConsoleApp/Gallery/User.cpp` is not part of this model. User equality by id, declared in `ConsoleApp/Gallery/User.h`, follows the backend copy of `User.cpp`, whose `operator==` compares ids.

## Findings

| source | as written | input that shows it | evidently intended | confidence | as-written member | corrected member |
|---|---|---|---|---|---|---|
| ConsoleApp/Gallery/MemoryAccess.cpp:120-124 | `std::any_of(m_albums.cend(), m_albums.cend(), …)` searches an empty range, so the answer is always false | any stored album, for example "Album_0" owned by user 0 after `open` | search the whole list from `cbegin()` to `cend()` | not executed | Memory.MemoryAccess.DoesAlbumExists | Memory.MemoryAccess.AlbumExists |
