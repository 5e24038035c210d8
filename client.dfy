/** The page's two stores: the persistent `client_storage` key-value store and
    the in-memory `session`. */
module Client {
  import opened Records

  /** A stored value: a list of records, a text, or a flag. */
  datatype Stored = Entries(list: seq<Entry>) | Text(text: string) | Flag(flag: bool)

  /** `await client_storage.get_async(key) or []` for a key that holds a list
      (an absent key or a stored empty list both read as `[]`). */
  function ListIn(data: map<string, Stored>, key: string): (r: seq<Entry>)
    ensures key !in data ==> r == []
  {
    if key in data && data[key].Entries? then data[key].list else []
  }

  /** A stored text that Python treats as true (present and non-empty). */
  function TruthyText(data: map<string, Stored>, key: string): (r: Option<string>)
    ensures r.Some? ==> key in data && data[key] == Text(r.value) && r.value != ""
  {
    if key in data && data[key].Text? && data[key].text != "" then Some(data[key].text) else None
  }

  /** `page.client_storage`: survives restarts, holds one value per key. */
  class ClientStorage {
    var data: map<string, Stored>

    constructor (initial: map<string, Stored>)
      ensures data == initial
    {
      data := initial;
    }

    /** `set_async(key, value)`: a full overwrite of that key. */
    method Set(key: string, value: Stored)
      modifies this
      ensures data == old(data)[key := value]
    {
      data := data[key := value];
    }

    /** `remove_async(key)` */
    method Remove(key: string)
      modifies this
      ensures data == old(data) - {key}
    {
      data := data - {key};
    }
  }

  /** `page.session`: the signed-in user and the authentication flag. */
  class Session {
    var userId: Option<string>
    var authenticated: bool

    constructor (userId: Option<string>, authenticated: bool)
      ensures this.userId == userId && this.authenticated == authenticated
    {
      this.userId := userId;
      this.authenticated := authenticated;
    }

    /** `session.get("user_id")` when Python treats it as true. */
    function SignedInUser(): (r: Option<string>)
      reads this
      ensures r.Some? ==> r.value != "" && userId == r
      ensures r.None? ==> userId == None || userId == Some("")
    {
      if userId.Some? && userId.value != "" then userId else None
    }
  }
}
