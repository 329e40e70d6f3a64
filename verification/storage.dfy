/** The browser's `localStorage` as this application uses it: one string-keyed
    store shared by the reading-progress cache (`reading_progress_<bookId>`),
    the session token (`auth_token`), the cached user (`user_data`) and the
    user identifier slot (`user_id`). Serialised values are kept as the
    records they serialise, so JSON is not modelled. */
module Storage {
  import opened Wrappers
  import opened Strings
  import opened Types

  const ProgressPrefix := "reading_progress"
  const TokenKey := "auth_token"
  const UserKey := "user_data"
  const UserIdKey := "user_id"

  /** A stored value: a raw string, or the JSON text of a record. */
  datatype Value = Text(text: string) | Record(record: Progress) | Profile(user: UserData)

  /** The key discipline every writer in the application keeps: keys under the
      progress prefix hold progress records, `user_data` holds a user, and
      `auth_token` / `user_id` hold raw strings. */
  predicate Fits(k: string, v: Value) {
    && (StartsWith(k, ProgressPrefix) ==> v.Record?)
    && (k == UserKey ==> v.Profile?)
    && (k == TokenKey || k == UserIdKey ==> v.Text?)
  }

  /** `order` lists every key of `items` exactly once, as `localStorage.key(i)`
      does for `0 <= i < localStorage.length`. */
  ghost predicate Enumerates(order: seq<string>, items: map<string, Value>) {
    && (forall k :: k in items <==> k in order)
    && (forall i, j :: 0 <= i < j < |order| ==> order[i] != order[j])
  }

  class Store {
    var items: map<string, Value>

    ghost predicate Valid()
      reads this
    {
      forall k :: k in items ==> Fits(k, items[k])
    }

    constructor ()
      ensures Valid() && items == map[]
    {
      items := map[];
    }

    /** `getItem` for a key that holds a raw string. */
    function TextAt(k: string): (r: Option<string>)
      reads this
      ensures r.Some? <==> k in items && items[k].Text?
      ensures r.Some? ==> items[k] == Text(r.value)
    {
      if k in items && items[k].Text? then Some(items[k].text) else None
    }

    method SetItem(k: string, v: Value)
      requires Valid() && Fits(k, v)
      modifies this
      ensures Valid()
      ensures items == old(items)[k := v]
    {
      items := items[k := v];
    }

    method RemoveItem(k: string)
      requires Valid()
      modifies this
      ensures Valid()
      ensures items == old(items) - {k}
    {
      items := items - {k};
    }

    method Clear()
      modifies this
      ensures Valid()
      ensures items == map[]
    {
      items := map[];
    }
  }
}
