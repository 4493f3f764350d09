/**
 * The admin session: a flag kept under the "isAdmin" key of the browser's
 * key/value storage, set by a login with the admin password and removed by
 * a logout.
 */
module Auth {
  import opened Opt

  const AdminKey := "isAdmin"
  const AdminPassword := "password"

  /** The browser's `localStorage`: string values under string keys. */
  class Storage {
    var items: map<string, string>

    constructor (initial: map<string, string>)
      ensures items == initial
    {
      items := initial;
    }

    /** `getItem`: the stored value, or null for a missing key. */
    function GetItem(key: string): (r: Option<string>)
      reads this
      ensures r.Some? <==> key in items
      ensures r.Some? ==> r.value == items[key]
    {
      if key in items then Some(items[key]) else None
    }

    method SetItem(key: string, value: string)
      modifies this
      ensures items == old(items)[key := value]
    {
      items := items[key := value];
    }

    method RemoveItem(key: string)
      modifies this
      ensures items == old(items) - {key}
    {
      items := items - {key};
    }
  }

  /** Admin mode is on exactly when the stored flag is the string "true". */
  predicate AdminIn(items: map<string, string>)
  {
    AdminKey in items && items[AdminKey] == "true"
  }

  /** The storage after a login attempt: the flag is set only for the admin password. */
  function AfterLogin(items: map<string, string>, password: string): map<string, string>
  {
    if password == AdminPassword then items[AdminKey := "true"] else items
  }

  function AfterLogout(items: map<string, string>): map<string, string>
  {
    items - {AdminKey}
  }

  /** A login with the admin password turns admin mode on, whatever was stored. */
  lemma LoginGrantsAdmin(items: map<string, string>)
    ensures AdminIn(AfterLogin(items, AdminPassword))
  {
  }

  /** Any other password changes nothing, so admin mode stays as it was. */
  lemma WrongPasswordChangesNothing(items: map<string, string>, password: string)
    requires password != AdminPassword
    ensures AfterLogin(items, password) == items
    ensures AdminIn(AfterLogin(items, password)) == AdminIn(items)
  {
  }

  /** A logout turns admin mode off and touches no other key. */
  lemma LogoutRevokesAdmin(items: map<string, string>)
    ensures !AdminIn(AfterLogout(items))
    ensures forall k :: k != AdminKey ==> (k in AfterLogout(items) <==> k in items)
    ensures forall k :: k != AdminKey && k in items ==> AfterLogout(items)[k] == items[k]
  {
  }

  /** Logging out twice is the same as logging out once. */
  lemma LogoutIdempotent(items: map<string, string>)
    ensures AfterLogout(AfterLogout(items)) == AfterLogout(items)
  {
  }

  /** `login`: true and the flag stored for the admin password, false and nothing stored otherwise. */
  method Login(store: Storage, password: string) returns (ok: bool)
    modifies store
    ensures ok <==> password == AdminPassword
    ensures store.items == AfterLogin(old(store.items), password)
  {
    if password == AdminPassword {
      store.SetItem(AdminKey, "true");
      return true;
    }
    return false;
  }

  method Logout(store: Storage)
    modifies store
    ensures store.items == AfterLogout(old(store.items))
  {
    store.RemoveItem(AdminKey);
  }

  /** `isAdmin`: the stored flag is exactly "true". */
  function IsAdmin(store: Storage): (r: bool)
    reads store
    ensures r <==> store.GetItem(AdminKey) == Some("true")
  {
    AdminIn(store.items)
  }
}
