/**
 * The session store (nextjs/store/useBearStore.js): the login flags the
 * pages read, mirrored into the browser's local storage and read back
 * when the module loads. Local storage is a string map the store owns.
 */
module SessionStore {
  import opened Base

  /** The three storage keys the store writes. */
  const LoggedInKey: string := "isLoggedIn"
  const UsernameKey: string := "username"
  const AdminKey: string := "isAdmin"

  /** `String(b)` for a boolean, as `setItem` and `toString` write it. */
  function BoolText(b: bool): (s: string)
    ensures s == "true" <==> b
  {
    if b then "true" else "false"
  }

  /** `getItem(key)`: the stored string, or null when the key is absent. */
  function GetItem(storage: map<string, string>, key: string): Option<string> {
    if key in storage then Some(storage[key]) else None
  }

  /** The session the restore block reads back from storage. */
  datatype Session = Session(isLoggedIn: bool, username: Option<string>, isAdmin: bool)

  function Restored(storage: map<string, string>): (s: Session)
    ensures s.isLoggedIn <==> GetItem(storage, LoggedInKey) == Some("true")
    ensures s.username == GetItem(storage, UsernameKey)
    ensures s.isAdmin <==> GetItem(storage, AdminKey) == Some("true")
  {
    Session(GetItem(storage, LoggedInKey) == Some("true"),
            GetItem(storage, UsernameKey),
            GetItem(storage, AdminKey) == Some("true"))
  }

  /** The storage after `setLogin(username, isAdmin)`. */
  function StoredLogin(storage: map<string, string>, username: string, isAdmin: bool): (r: map<string, string>)
    ensures r.Keys == storage.Keys + {LoggedInKey, UsernameKey, AdminKey}
    ensures forall k :: k in storage && k !in {LoggedInKey, UsernameKey, AdminKey} ==> r[k] == storage[k]
  {
    storage[LoggedInKey := "true"][UsernameKey := username][AdminKey := BoolText(isAdmin)]
  }

  /** The storage after `logout()`. */
  function StoredLogout(storage: map<string, string>): (r: map<string, string>)
    ensures r.Keys == storage.Keys - {LoggedInKey, UsernameKey, AdminKey}
    ensures forall k :: k in r ==> r[k] == storage[k]
  {
    storage - {LoggedInKey, UsernameKey, AdminKey}
  }

  /** Reloading after a login restores the same session. */
  lemma RestoreAfterLogin(storage: map<string, string>, username: string, isAdmin: bool)
    ensures Restored(StoredLogin(storage, username, isAdmin)) == Session(true, Some(username), isAdmin)
  {
    var r := StoredLogin(storage, username, isAdmin);
    assert r[LoggedInKey] == "true" && r[UsernameKey] == username && r[AdminKey] == BoolText(isAdmin);
  }

  /** Reloading after a logout restores a logged-out session, whatever
      was stored before. */
  lemma RestoreAfterLogout(storage: map<string, string>)
    ensures Restored(StoredLogout(storage)) == Session(false, None, false)
  {
  }

  /** The store: its state and the local storage it mirrors into. */
  class Store {
    var appName: Option<string>
    var isLoggedIn: bool
    var username: Option<string>
    var isAdmin: bool
    var storage: map<string, string>

    /** The state the page sees: the initial values, overwritten by the
        restore block when the module loads in a browser. */
    constructor (inBrowser: bool, initialStorage: map<string, string>)
      ensures appName.None? && storage == initialStorage
      ensures !inBrowser ==> !isLoggedIn && username.None? && !isAdmin
      ensures inBrowser ==> Session(isLoggedIn, username, isAdmin) == Restored(initialStorage)
    {
      appName := None;
      isLoggedIn := false;
      username := None;
      isAdmin := false;
      storage := initialStorage;
      if inBrowser {
        var restored := Restored(initialStorage);
        isLoggedIn, username, isAdmin := restored.isLoggedIn, restored.username, restored.isAdmin;
      }
    }

    /** The session the pages read. */
    function Current(): Session
      reads this
    {
      Session(isLoggedIn, username, isAdmin)
    }

    /** `setAppName`. */
    method SetAppName(newAppName: string)
      modifies this
      ensures appName == Some(newAppName)
      ensures Current() == old(Current()) && storage == old(storage)
    {
      appName := Some(newAppName);
    }

    /** `setLogin`: logs in and writes the three keys. */
    method SetLogin(newUsername: string, newIsAdmin: bool)
      modifies this
      ensures Current() == Session(true, Some(newUsername), newIsAdmin)
      ensures storage == StoredLogin(old(storage), newUsername, newIsAdmin)
      ensures appName == old(appName)
      ensures Restored(storage) == Current()
    {
      isLoggedIn, username, isAdmin := true, Some(newUsername), newIsAdmin;
      storage := storage[LoggedInKey := "true"];
      storage := storage[UsernameKey := newUsername];
      storage := storage[AdminKey := BoolText(newIsAdmin)];
      RestoreAfterLogin(old(storage), newUsername, newIsAdmin);
    }

    /** `logout`: logs out whatever the state and removes the three keys. */
    method Logout()
      modifies this
      ensures Current() == Session(false, None, false)
      ensures storage == StoredLogout(old(storage))
      ensures appName == old(appName)
      ensures Restored(storage) == Current()
    {
      isLoggedIn, username, isAdmin := false, None, false;
      storage := storage - {LoggedInKey};
      storage := storage - {UsernameKey};
      storage := storage - {AdminKey};
      RestoreAfterLogout(old(storage));
    }
  }
}
