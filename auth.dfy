/**
 * The demo authentication of the dashboard (`src/lib/auth.ts`): a login is
 * checked against the fixed demo users, and the signed-in user is kept in
 * `localStorage` under `cfip_user` as JSON text.
 */
module Auth {
  import opened Wrappers
  import opened JsonText
  import opened BrowserStorage

  /** A demo account, password included. */
  datatype DemoUser = DemoUser(id: string, email: string, password: string, name: string, role: string, avatar: string)

  /** The signed-in user: the account without its password. */
  datatype AuthUser = AuthUser(id: string, email: string, name: string, role: string, avatar: string)

  /** The demo accounts, in order. */
  const DemoUsers: seq<DemoUser> := [
    DemoUser("user-1", "admin@cfip.io", "admin123", "Alex Morgan", "admin", "AM"),
    DemoUser("user-2", "architect@cfip.io", "architect123", "Sarah Chen", "architect", "SC"),
    DemoUser("user-3", "developer@cfip.io", "dev123", "James Wilson", "developer", "JW"),
    DemoUser("user-4", "auditor@cfip.io", "audit123", "Maria Garcia", "auditor", "MG")
  ]

  predicate Matches(u: DemoUser, email: string, password: string) {
    u.email == email && u.password == password
  }

  /** The public part of an account. */
  function Public(u: DemoUser): AuthUser {
    AuthUser(u.id, u.email, u.name, u.role, u.avatar)
  }

  /** `users.find(...)` followed by the copy of the public fields. */
  function Authenticate(users: seq<DemoUser>, email: string, password: string): (r: Option<AuthUser>)
    ensures r.Some? ==> exists i | 0 <= i < |users| :: Matches(users[i], email, password) && r.value == Public(users[i])
  {
    if users == [] then None
    else if Matches(users[0], email, password) then Some(Public(users[0]))
    else Authenticate(users[1..], email, password)
  }

  /** `authenticateUser`. */
  function AuthenticateUser(email: string, password: string): Option<AuthUser> {
    Authenticate(DemoUsers, email, password)
  }

  /** A login succeeds exactly when some account matches both e-mail and password. */
  lemma {:induction false} AuthenticateWhen(users: seq<DemoUser>, email: string, password: string)
    ensures Authenticate(users, email, password).Some? <==>
      exists i | 0 <= i < |users| :: Matches(users[i], email, password)
  {
    if users != [] && !Matches(users[0], email, password) {
      AuthenticateWhen(users[1..], email, password);
      assert forall i | 1 <= i < |users| :: users[i] == users[1..][i - 1];
    }
  }

  /** A successful login returns the public fields of the first matching account. */
  lemma {:induction false} AuthenticateFirst(users: seq<DemoUser>, email: string, password: string, i: nat)
    requires i < |users| && Matches(users[i], email, password)
    requires forall j | 0 <= j < i :: !Matches(users[j], email, password)
    ensures Authenticate(users, email, password) == Some(Public(users[i]))
  {
    if i > 0 {
      assert !Matches(users[0], email, password);
      forall j | 0 <= j < i - 1
        ensures !Matches(users[1..][j], email, password)
      {
        assert users[1..][j] == users[j + 1];
      }
      AuthenticateFirst(users[1..], email, password, i - 1);
    }
  }

  /** The administrator logs in with their demo password and is refused with another. */
  lemma AdminLogin()
    ensures AuthenticateUser("admin@cfip.io", "admin123") == Some(AuthUser("user-1", "admin@cfip.io", "Alex Morgan", "admin", "AM"))
    ensures AuthenticateUser("admin@cfip.io", "admin") == None
  {
    AuthenticateFirst(DemoUsers, "admin@cfip.io", "admin123", 0);
    AuthenticateWhen(DemoUsers, "admin@cfip.io", "admin");
    assert "admin123" != "admin" by {
      assert |"admin123"| != |"admin"|;
    }
    forall i | 0 <= i < |DemoUsers|
      ensures !Matches(DemoUsers[i], "admin@cfip.io", "admin")
    {
      assert |DemoUsers[i].password| > 5;
    }
  }

  // ---------------------------------------------------------------------------
  // The stored user

  const UserKey := "cfip_user"

  /** The keys of the stored record, in the order `JSON.stringify` writes them. */
  const UserFields: seq<string> := ["id", "email", "name", "role", "avatar"]

  function UserValues(u: AuthUser): (vs: seq<string>)
    ensures |vs| == |UserFields|
  {
    [u.id, u.email, u.name, u.role, u.avatar]
  }

  function UserOf(vs: seq<string>): AuthUser
    requires |vs| == |UserFields|
  {
    AuthUser(vs[0], vs[1], vs[2], vs[3], vs[4])
  }

  /** `JSON.stringify(user)`. */
  function EncodeUser(u: AuthUser): string {
    Record(UserFields, UserValues(u))
  }

  /** `JSON.parse(stored)`, `None` when it throws. */
  function DecodeUser(text: string): Option<AuthUser> {
    match ParseRecord(UserFields, text)
    case None => None
    case Some(vs) => Some(UserOf(vs))
  }

  /** Stored users read back unchanged. */
  lemma DecodeEncodeUser(u: AuthUser)
    ensures DecodeUser(EncodeUser(u)) == Some(u)
  {
    ParseRecordRoundTrip(UserFields, UserValues(u));
  }

  /** `getUserFromStorage` over the stored items, given whether a browser window exists. */
  function UserIn(hasWindow: bool, items: map<string, string>): Option<AuthUser> {
    if !hasWindow || UserKey !in items || items[UserKey] == "" then None
    else DecodeUser(items[UserKey])
  }

  /** No user is read without a window, without stored text, or from text that does not parse. */
  lemma UserInNone(hasWindow: bool, items: map<string, string>)
    ensures UserIn(hasWindow, items).None? <==>
      !hasWindow || UserKey !in items || items[UserKey] == "" || DecodeUser(items[UserKey]).None?
  {
  }

  /** After `setUserToStorage(u)`, `getUserFromStorage` returns `u`. */
  lemma SetThenGet(items: map<string, string>, u: AuthUser)
    ensures UserIn(true, items[UserKey := EncodeUser(u)]) == Some(u)
  {
    DecodeEncodeUser(u);
    assert EncodeUser(u) != "" by {
      assert EncodeUser(u)[0] == '{';
    }
  }

  /** After `clearUserFromStorage()`, `getUserFromStorage` returns null. */
  lemma ClearThenGet(hasWindow: bool, items: map<string, string>)
    ensures UserIn(hasWindow, items - {UserKey}).None?
  {
  }

  /** `getUserFromStorage`: what the stored items say, by `UserIn`. */
  function GetUserFromStorage(hasWindow: bool, storage: LocalStorage): (r: Option<AuthUser>)
    reads storage
    ensures r == UserIn(hasWindow, storage.items)
  {
    if !hasWindow then None
    else match storage.GetItem(UserKey)
      case None => None
      case Some(stored) => if stored == "" then None else DecodeUser(stored)
  }

  /** `setUserToStorage`: stores the user's JSON text; nothing else changes. */
  method SetUserToStorage(storage: LocalStorage, user: AuthUser)
    modifies storage
    ensures storage.items == old(storage.items)[UserKey := EncodeUser(user)]
    ensures GetUserFromStorage(true, storage) == Some(user)
  {
    storage.SetItem(UserKey, EncodeUser(user));
    SetThenGet(old(storage.items), user);
  }

  /** `clearUserFromStorage`: drops the stored user; nothing else changes. */
  method ClearUserFromStorage(storage: LocalStorage)
    modifies storage
    ensures storage.items == old(storage.items) - {UserKey}
    ensures GetUserFromStorage(true, storage).None?
  {
    storage.RemoveItem(UserKey);
  }
}
