/** The session store (src/hooks/useAuth.tsx): the current user, a loading
    flag, and the one key of client-local storage that keeps the session
    across restarts. Credentials are never checked; the id suffix `login`
    draws at random and the clock reading are inputs. */
module Auth {
  import opened Wrappers
  import opened JsonText

  /** A signed-in user. `createdAt` is the ISO-8601 text of the moment of
      login, which is also what the stored JSON holds for it. */
  datatype User = User(id: string, email: string, name: string, createdAt: string, friends: seq<string>)

  /** The local-storage key the session lives under. */
  const StorageKey: string := "luminate_user"

  /** Every generated id starts with this. */
  const IdPrefix: string := "user-"

  /** `email.split('@')[0]`: the text before the first '@', or all of it
      when there is none. */
  function LocalPart(email: string): (r: string)
    ensures r <= email
    ensures '@' !in r
    ensures |r| < |email| ==> email[|r|] == '@'
    decreases |email|
  {
    if email == [] || email[0] == '@' then [] else [email[0]] + LocalPart(email[1..])
  }

  lemma LocalPartWithoutAt(email: string)
    requires '@' !in email
    ensures LocalPart(email) == email
  {
  }

  /** The user `login` builds: its name is the local part of the email. */
  function LoginUser(email: string, idSuffix: string, now: string): (u: User)
    ensures u.email == email && u.name == LocalPart(email)
    ensures IdPrefix <= u.id && u.id[|IdPrefix|..] == idSuffix
    ensures u.friends == [] && u.createdAt == now
  {
    User(IdPrefix + idSuffix, email, LocalPart(email), now, [])
  }

  /** The user `signup` builds: email and name exactly as given. */
  function SignupUser(email: string, name: string, idSuffix: string, now: string): (u: User)
    ensures u.email == email && u.name == name
    ensures IdPrefix <= u.id && u.id[|IdPrefix|..] == idSuffix
    ensures u.friends == [] && u.createdAt == now
  {
    User(IdPrefix + idSuffix, email, name, now, [])
  }

  /** `JSON.stringify(user)`: the fields in declaration order, no spaces. */
  function Serialize(u: User): (s: string)
    ensures ObjectText(s)
  {
    "{\"id\":" + (Quote(u.id) +
    (",\"email\":" + (Quote(u.email) +
    (",\"name\":" + (Quote(u.name) +
    (",\"createdAt\":" + (Quote(u.createdAt) +
    (",\"friends\":" + (StringArray(u.friends) + "}")))))))))
  }

  /** The outline of a stored user: the object opens with its `id` key and
      ends with the closing brace. */
  predicate ObjectText(s: string) {
    "{\"id\":" <= s && s[|s| - 1] == '}'
  }

  /** Strips the literal `lit` from the front of `s`. */
  function Expect(lit: string, s: string): (r: Option<string>)
    ensures r.Some? ==> s == lit + r.value
  {
    if lit <= s then Some(s[|lit|..]) else None
  }

  lemma ExpectPrefix(lit: string, rest: string)
    ensures Expect(lit, lit + rest) == Some(rest)
  {
    assert (lit + rest)[|lit|..] == rest;
  }

  /** `JSON.parse` of a stored user: the object layout `Serialize` writes,
      with every escape JSON allows inside its strings, except a `\u` escape
      naming a surrogate code unit. */
  function Parse(s: string): (r: Option<User>)
    ensures r.Some? ==> ObjectText(s)
  {
    var s1 :- Expect("{\"id\":", s);
    var id :- ReadQuoted(s1);
    var s2 :- Expect(",\"email\":", id.1);
    var email :- ReadQuoted(s2);
    var s3 :- Expect(",\"name\":", email.1);
    var name :- ReadQuoted(s3);
    var s4 :- Expect(",\"createdAt\":", name.1);
    var createdAt :- ReadQuoted(s4);
    var s5 :- Expect(",\"friends\":", createdAt.1);
    var friends :- ReadStringArray(s5);
    var s6 :- Expect("}", friends.1);
    if s6 == [] then Some(User(id.0, email.0, name.0, createdAt.0, friends.0)) else None
  }

  /** What is stored is read back as the same user. */
  lemma ParseSerialize(u: User)
    ensures Parse(Serialize(u)) == Some(u)
  {
    var t5 := StringArray(u.friends) + "}";
    var t4 := Quote(u.createdAt) + (",\"friends\":" + t5);
    var t3 := Quote(u.name) + (",\"createdAt\":" + t4);
    var t2 := Quote(u.email) + (",\"name\":" + t3);
    var t1 := Quote(u.id) + (",\"email\":" + t2);
    ExpectPrefix("{\"id\":", t1);
    QuoteRoundTrip(u.id, ",\"email\":" + t2);
    ExpectPrefix(",\"email\":", t2);
    QuoteRoundTrip(u.email, ",\"name\":" + t3);
    ExpectPrefix(",\"name\":", t3);
    QuoteRoundTrip(u.name, ",\"createdAt\":" + t4);
    ExpectPrefix(",\"createdAt\":", t4);
    QuoteRoundTrip(u.createdAt, ",\"friends\":" + t5);
    ExpectPrefix(",\"friends\":", t5);
    ArrayRoundTrip(u.friends, "}");
    ExpectPrefix("}", []);
    assert "}" + [] == "}";
  }

  /** The user `checkAuth` would adopt from `storage`: the key must hold a
      non-empty value (an empty string is falsy) that parses. */
  function StoredUser(storage: map<string, string>): (r: Option<User>)
    ensures StorageKey !in storage ==> r.None?
    ensures StorageKey in storage && storage[StorageKey] == "" ==> r.None?
  {
    if StorageKey in storage && storage[StorageKey] != "" then Parse(storage[StorageKey]) else None
  }

  /** Writing a user under the key and reading the storage back gives that user. */
  lemma StoredAfterWrite(storage: map<string, string>, u: User)
    ensures StoredUser(storage[StorageKey := Serialize(u)]) == Some(u)
  {
    ParseSerialize(u);
  }

  class SessionStore {
    var user: Option<User>
    var isLoading: bool
    /** Client-local storage, as the browser keeps it between sessions. */
    var storage: map<string, string>

    /** Mounting the provider: no user yet, still loading; storage is whatever the browser kept. */
    constructor (kept: map<string, string>)
      ensures user == None && isLoading && storage == kept
    {
      user := None;
      isLoading := true;
      storage := kept;
    }

    /** `isAuthenticated`: `!!user`. */
    function IsAuthenticated(): (r: bool)
      reads this
      ensures r <==> user != None
    {
      user.Some?
    }

    /** `checkAuth`: adopt the stored user when there is one that parses;
        an absent key, an empty value or a parse failure leaves `user` as it
        was. Loading is over in every case. */
    method CheckAuth()
      modifies this
      ensures storage == old(storage) && !isLoading
      ensures StoredUser(storage).Some? ==> user == StoredUser(storage)
      ensures StoredUser(storage).None? ==> user == old(user)
    {
      var stored := StoredUser(storage);
      if stored.Some? {
        user := stored;
      }
      isLoading := false;
    }

    /** Persists `u` under the key unless the write fails (`setItem` throws),
        and on success makes it the current user. */
    method Adopt(u: User, writeFails: bool) returns (ok: bool)
      modifies this
      ensures ok == !writeFails && !isLoading
      ensures ok ==> user == Some(u) && storage == old(storage)[StorageKey := Serialize(u)]
      ensures !ok ==> user == old(user) && storage == old(storage)
      ensures ok ==> StoredUser(storage) == user
    {
      isLoading := true;
      if writeFails {
        ok := false;
      } else {
        storage := storage[StorageKey := Serialize(u)];
        user := Some(u);
        StoredAfterWrite(old(storage), u);
        ok := true;
      }
      isLoading := false;
    }

    /** `login`: the password is ignored; a failed storage write is
        reported to the caller and changes nothing else. */
    method Login(email: string, password: string, idSuffix: string, now: string, writeFails: bool)
      returns (ok: bool)
      modifies this
      ensures ok == !writeFails && !isLoading
      ensures ok ==> user == Some(LoginUser(email, idSuffix, now))
      ensures ok ==> storage == old(storage)[StorageKey := Serialize(LoginUser(email, idSuffix, now))]
      ensures ok ==> StoredUser(storage) == user && user.value.email == email
      ensures !ok ==> user == old(user) && storage == old(storage)
    {
      ok := Adopt(LoginUser(email, idSuffix, now), writeFails);
    }

    /** `signup`: like `login`, with the name given rather than derived. */
    method Signup(email: string, password: string, name: string, idSuffix: string, now: string, writeFails: bool)
      returns (ok: bool)
      modifies this
      ensures ok == !writeFails && !isLoading
      ensures ok ==> user == Some(SignupUser(email, name, idSuffix, now))
      ensures ok ==> storage == old(storage)[StorageKey := Serialize(SignupUser(email, name, idSuffix, now))]
      ensures ok ==> StoredUser(storage) == user && user.value.email == email && user.value.name == name
      ensures !ok ==> user == old(user) && storage == old(storage)
    {
      ok := Adopt(SignupUser(email, name, idSuffix, now), writeFails);
    }

    /** `logout`: removes the key and forgets the user. */
    method Logout()
      modifies this
      ensures user == None && storage == old(storage) - {StorageKey} && isLoading == old(isLoading)
      ensures StoredUser(storage) == None && !IsAuthenticated()
    {
      storage := storage - {StorageKey};
      user := None;
    }
  }

  /** Logging out twice leaves the same state as logging out once. */
  method LogoutTwice(s: SessionStore)
    modifies s
    ensures s.user == None && s.storage == old(s.storage) - {StorageKey} && s.isLoading == old(s.isLoading)
  {
    s.Logout();
    ghost var once := s.storage;
    s.Logout();
    assert s.storage == once;
  }

  /** A fresh client with no session is not authenticated after `checkAuth`;
      after `signup` its session holds exactly the given email and name. */
  method FreshSignup(email: string, name: string, idSuffix: string, now: string)
    returns (before: bool, after: Option<User>)
    ensures !before
    ensures after == Some(SignupUser(email, name, idSuffix, now))
    ensures after.value.email == email && after.value.name == name
  {
    var s := new SessionStore(map[]);
    s.CheckAuth();
    before := s.IsAuthenticated();
    var ok := s.Signup(email, "pw", name, idSuffix, now, false);
    after := s.user;
  }

  /** A login survives a restart: a new provider over the same storage
      restores the user that logged in, whatever the browser kept before. */
  method LoginThenRestart(kept: map<string, string>, email: string, idSuffix: string, now: string)
    returns (loggedIn: Option<User>, restored: Option<User>)
    ensures loggedIn == Some(LoginUser(email, idSuffix, now))
    ensures restored == loggedIn
  {
    var s := new SessionStore(kept);
    s.CheckAuth();
    var ok := s.Login(email, "secret", idSuffix, now, false);
    loggedIn := s.user;
    var t := new SessionStore(s.storage);
    t.CheckAuth();
    restored := t.user;
  }
}
