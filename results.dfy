/** Failure outcomes of the gallery operations. The source signals them with two
    exception classes: ItemNotFoundException (an item kind and the key that did
    not resolve) and its base class MyException (a free-form message). */
module Results {
  import opened Text

  datatype Option<T> = None | Some(value: T)

  /** The key an ItemNotFoundException names: a name or a numeric id. */
  datatype Key = ByName(name: string) | ById(id: int)

  datatype GalleryError =
    | ItemNotFound(item: string, key: Key)   // ItemNotFoundException
    | Exception(message: string)             // MyException
  {
    /** The text `what()` reports: for a missing item, the item kind first and
        "' does not exist" last; for MyException, its own message. */
    function Message(): (r: string)
      ensures ItemNotFound? ==> item <= r && |r| >= |item| + 16
      ensures ItemNotFound? ==> r[|r| - 16..] == "' does not exist"
      ensures Exception? ==> r == message
    {
      match this
      case ItemNotFound(item, ById(id)) => item + " with id '" + IntToString(id) + "' does not exist"
      case ItemNotFound(item, ByName(name)) => item + " with name '" + name + "' does not exist"
      case Exception(message) => message
    }
  }

  /** " with id '" and " with name '" part at their sixth character. */
  lemma MessageKindChar(item: string, k: Key)
    ensures |ItemNotFound(item, k).Message()| > |item| + 6
    ensures ItemNotFound(item, k).Message()[|item| + 6] == if k.ById? then 'i' else 'n'
  {
    var m := ItemNotFound(item, k).Message();
    match k
    case ById(id) =>
      assert m == item + " with id '" + IntToString(id) + "' does not exist";
    case ByName(name) =>
      assert m == item + " with name '" + name + "' does not exist";
  }

  /** The message of an ItemNotFoundException names its key unambiguously:
      two errors about the same kind of item with the same message are about
      the same name or the same id. */
  lemma {:induction false} MessageIdentifiesKey(item: string, k1: Key, k2: Key)
    requires ItemNotFound(item, k1).Message() == ItemNotFound(item, k2).Message()
    ensures k1 == k2
  {
    var m := ItemNotFound(item, k1).Message();
    var n := |item|;
    if k1.ById? != k2.ById? {
      MessageKindChar(item, k1);
      MessageKindChar(item, k2);
      assert false;
    } else if k1.ById? {
      var s1 := IntToString(k1.id);
      var s2 := IntToString(k2.id);
      assert m == item + " with id '" + s1 + "' does not exist";
      assert m == item + " with id '" + s2 + "' does not exist";
      assert s1 == m[n + 10..n + 10 + |s1|];
      assert s2 == m[n + 10..n + 10 + |s2|];
      IntToStringInjective(k1.id, k2.id);
    } else {
      var name1 := k1.name;
      var name2 := k2.name;
      assert m == item + " with name '" + name1 + "' does not exist";
      assert m == item + " with name '" + name2 + "' does not exist";
      assert name1 == m[n + 12..n + 12 + |name1|];
      assert name2 == m[n + 12..n + 12 + |name2|];
    }
  }

  /** The outcome of an operation that returns a value or throws. */
  datatype Result<T> = Ok(value: T) | Err(error: GalleryError)

  /** The outcome of an operation that returns nothing or throws. */
  datatype Outcome = Done | Fail(error: GalleryError)
}
