/** Browser local storage, as the application uses it: a key-value store with
    two keys, `legalai_authenticated` and `legalai_user`. */
module LocalStore {
  import opened Common

  const AuthKey: string := "legalai_authenticated"
  const UserKey: string := "legalai_user"

  /** A stored value. A plain string, or the registration record that the
      modal serialises; the JSON text itself is not modelled, the record is
      kept as it was submitted. */
  datatype Stored =
    | Text(text: string)
    | UserJson(name: string, phone: string, aadhaar: string)

  /** JavaScript truthiness of what `getItem` returns: `null` (the key is
      absent) and the empty string are falsy; every other string is truthy,
      and a serialised object is never empty. */
  function Truthy(v: Option<Stored>): (b: bool)
    ensures !b <==> v == None || v == Some(Text(""))
  {
    match v
    case None => false
    case Some(Text(t)) => t != ""
    case Some(UserJson(_, _, _)) => true
  }

  class LocalStorage {
    var items: map<string, Stored>

    constructor (initial: map<string, Stored>)
      ensures items == initial
    {
      items := initial;
    }

    /** `localStorage.getItem(key)`: `null` for a key never set. */
    function GetItem(key: string): (r: Option<Stored>)
      reads this
      ensures r.Some? <==> key in items
      ensures r.Some? ==> r.value == items[key]
    {
      if key in items then Some(items[key]) else None
    }

    /** `localStorage.setItem(key, v)`: overwrites that key and no other. */
    method SetItem(key: string, v: Stored)
      modifies this
      ensures items == old(items)[key := v]
    {
      items := items[key := v];
    }
  }
}
