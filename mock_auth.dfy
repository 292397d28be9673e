/** The mock session provider the dashboard, account and navbar pages use:
    the signed-in user lives in component state and is mirrored under the
    key "user" of the browser's local storage. Stored values are kept as
    user records; their JSON encoding is not modelled. */
module MockAuth {
  import opened Common
  import opened AuthService

  const UserKey := "user"

  datatype User = User(id: string, email: string, name: string, plan: Plan, apiRequests: ApiUsage)

  /** `email.split('@')[0]`: the text before the first '@', or all of it. */
  function BeforeFirstAt(email: string): (name: string)
    ensures |name| <= |email| && name == email[..|name|]
    ensures '@' !in name
    ensures |name| == |email| || email[|name|] == '@'
  {
    if email == [] || email[0] == '@' then []
    else [email[0]] + BeforeFirstAt(email[1..])
  }

  /** The user a mock login produces. */
  function LoginUser(email: string): (u: User)
    ensures u.id == "1" && u.email == email && u.plan == Free && u.apiRequests == ApiUsage(100, 32)
    ensures '@' !in u.name && |u.name| <= |email| && u.name == email[..|u.name|]
    ensures u.name == BeforeFirstAt(email)
  {
    User("1", email, BeforeFirstAt(email), Free, ApiUsage(100, 32))
  }

  /** The user a mock registration produces; `id` is the clock's decimal reading. */
  function RegisteredUser(name: string, email: string, nowMs: nat): (u: User)
    ensures (forall i :: 0 <= i < |u.id| ==> IsDigit(u.id[i])) && DecimalValue(u.id) == nowMs
    ensures u.id == Decimal(nowMs)
    ensures u.email == email && u.name == name && u.plan == Free && u.apiRequests == ApiUsage(100, 0)
  {
    User(Decimal(nowMs), email, name, Free, ApiUsage(100, 0))
  }

  /** The user local storage holds, if any. */
  function StoredUser(storage: map<string, User>): Option<User>
  {
    if UserKey in storage then Some(storage[UserKey]) else None
  }

  class AuthProvider {
    var user: Option<User>
    var isLoading: bool
    var storage: map<string, User>

    /** The in-memory user is the stored one. */
    ghost predicate Synced()
      reads this
    {
      user == StoredUser(storage)
    }

    /** Mounting the provider: the stored user, if any, is restored and loading ends. */
    constructor (storage0: map<string, User>)
      ensures user == StoredUser(storage0) && !isLoading && storage == storage0
      ensures Synced()
    {
      storage := storage0;
      user := StoredUser(storage0);
      isLoading := false;
    }

    /** `isAuthenticated: !!user`; while in sync with storage, exactly when a
        user is stored. */
    predicate IsAuthenticated()
      reads this
      ensures Synced() ==> (IsAuthenticated() <==> UserKey in storage)
    {
      user.Some?
    }

    /** Any password is accepted; the simulated delay is not modelled. */
    method Login(email: string, password: string)
      modifies this
      ensures user == Some(LoginUser(email))
      ensures user.value.name == BeforeFirstAt(email) && user.value.id == "1"
      ensures storage == old(storage)[UserKey := LoginUser(email)]
      ensures !isLoading && Synced() && IsAuthenticated()
    {
      isLoading := true;
      var mockUser := LoginUser(email);
      storage := storage[UserKey := mockUser];
      user := Some(mockUser);
      isLoading := false;
    }

    method Register(name: string, email: string, password: string, nowMs: nat)
      modifies this
      ensures user == Some(RegisteredUser(name, email, nowMs))
      ensures storage == old(storage)[UserKey := RegisteredUser(name, email, nowMs)]
      ensures !isLoading && Synced() && IsAuthenticated()
    {
      isLoading := true;
      var mockUser := RegisteredUser(name, email, nowMs);
      storage := storage[UserKey := mockUser];
      user := Some(mockUser);
      isLoading := false;
    }

    method Logout()
      modifies this
      ensures user == None && storage == old(storage) - {UserKey}
      ensures isLoading == old(isLoading)
      ensures Synced() && !IsAuthenticated()
    {
      storage := storage - {UserKey};
      user := None;
    }
  }

  /** The mock login's name is the local part of an address with one '@'. */
  lemma {:induction false} LoginNameIsLocalPart(local: string, domain: string)
    requires '@' !in local
    ensures BeforeFirstAt(local + "@" + domain) == local
  {
    var s := local + "@" + domain;
    var name := BeforeFirstAt(s);
    assert s[|local|] == '@' && s[..|local|] == local;
    assert name == s[..|name|];
  }
}
