/** packages/auth: salted password hashes, the demo account, and the in-memory
    session table. The key derivation (`scryptSync`) and all random bytes are
    parameters. */
module Auth {
  import opened Wrappers
  import opened JsString
  import opened Utils
  import opened DbRecords
  import opened Keyed
  import opened Db
  import opened DbUpserts

  /** The 32 bytes `scryptSync(password, salt, 32)` derives. */
  type Digest = b: seq<Byte> | |b| == 32 witness seq(32, _ => 0 as Byte)

  const DemoPassword: string := "demo1234"
  const DemoName: string := "Demo Founder"
  const DemoAvatar: string := "https://www.gravatar.com/avatar?d=identicon"
  const InvalidCredentials: string := "Invalid email or password"
  /** What `Buffer.from(undefined, 'hex')` throws. */
  const MissingHashError: string := "The first argument must be of type string"
  /** What `timingSafeEqual` throws on buffers of different lengths. */
  const LengthMismatchError: string := "Input buffers must have the same byte length"

  /** `hashPassword(password, salt)`: the salt, a colon, and the derived key in hex. */
  function HashPassword(password: string, salt: string, kdf: (string, string) -> Digest): (stored: string)
    ensures |stored| == |salt| + 65 && stored[..|salt|] == salt && stored[|salt|] == ':'
  {
    salt + ":" + Hex(kdf(password, salt))
  }

  // ---------------------------------------------------------------------------
  // `Buffer.from(s, 'hex')`: pairs of hexadecimal digits, either case, up to the
  // first pair that is not one.

  predicate IsHexChar(c: char) {
    '0' <= c <= '9' || 'a' <= c <= 'f' || 'A' <= c <= 'F'
  }

  function HexValue(c: char): (n: int)
    requires IsHexChar(c)
    ensures 0 <= n < 16
  {
    if '0' <= c <= '9' then c as int - '0' as int
    else if 'a' <= c <= 'f' then c as int - 'a' as int + 10
    else c as int - 'A' as int + 10
  }

  function DecodeHex(s: string): (bytes: seq<Byte>)
    ensures 2 * |bytes| <= |s|
  {
    if |s| < 2 || !IsHexChar(s[0]) || !IsHexChar(s[1]) then []
    else [(HexValue(s[0]) * 16 + HexValue(s[1])) as Byte] + DecodeHex(s[2..])
  }

  /** Decoding undoes `toString('hex')`. */
  lemma {:induction false} DecodeHexOfHex(bytes: seq<Byte>)
    ensures DecodeHex(Hex(bytes)) == bytes
  {
    if bytes != [] {
      var h := Hex(bytes);
      var hi, lo := bytes[0] as int / 16, bytes[0] as int % 16;
      assert h[0] == HexDigit(hi) && h[1] == HexDigit(lo);
      assert HexValue(HexDigit(hi)) == hi;
      assert HexValue(HexDigit(lo)) == lo;
      assert h[2..] == Hex(bytes[1..]);
      DecodeHexOfHex(bytes[1..]);
      assert bytes == [bytes[0]] + bytes[1..];
    }
  }

  /** `verifyPassword(password, stored)`: false without a stored hash; otherwise the
      stored digest is compared with the one derived from the stored salt, and a
      missing or odd-length digest makes the comparison throw. */
  function VerifyPassword(password: string, stored: Option<string>, kdf: (string, string) -> Digest): (r: Result<bool>)
    ensures !Truthy(stored) ==> r == Success(false)
  {
    if !Truthy(stored) then Success(false)
    else
      var parts := Split(stored.value, ':');
      if |parts| < 2 then Failure(MissingHashError)
      else
        var candidateParts := Split(HashPassword(password, parts[0], kdf), ':');
        var candidate := if |candidateParts| >= 2 then candidateParts[1] else [];
        var expected, actual := DecodeHex(parts[1]), DecodeHex(candidate);
        if |expected| != |actual| then Failure(LengthMismatchError) else Success(expected == actual)
  }

  /** A hash made with a salt verifies exactly the passwords that derive the same key
      from that salt: the password it was made from, and any other only on a
      collision of the key derivation. */
  lemma VerifyHashed(password: string, candidate: string, salt: string, kdf: (string, string) -> Digest)
    requires ':' !in salt
    ensures VerifyPassword(candidate, Some(HashPassword(password, salt, kdf)), kdf)
            == Success(kdf(candidate, salt) == kdf(password, salt))
  {
    var stored := HashPassword(password, salt, kdf);
    HexHasNoColon(kdf(password, salt));
    HexHasNoColon(kdf(candidate, salt));
    SplitAtSeparator(salt, Hex(kdf(password, salt)), ':');
    SplitAtSeparator(salt, Hex(kdf(candidate, salt)), ':');
    assert stored == salt + [':'] + Hex(kdf(password, salt));
    assert HashPassword(candidate, salt, kdf) == salt + [':'] + Hex(kdf(candidate, salt));
    DecodeHexOfHex(kdf(password, salt));
    DecodeHexOfHex(kdf(candidate, salt));
  }

  lemma HexHasNoColon(bytes: seq<Byte>)
    ensures ':' !in Hex(bytes)
  {
    var h := Hex(bytes);
    assert forall i :: 0 <= i < |h| ==> h[i] != ':';
  }

  /** A fresh salt, the hex of random bytes, holds no colon: every hash
      `hashPassword` makes verifies its own password. */
  lemma VerifyFreshHash(password: string, saltBytes: seq<Byte>, kdf: (string, string) -> Digest)
    ensures VerifyPassword(password, Some(HashPassword(password, Hex(saltBytes), kdf)), kdf) == Success(true)
  {
    HexHasNoColon(saltBytes);
    VerifyHashed(password, password, Hex(saltBytes), kdf);
  }

  // ---------------------------------------------------------------------------
  // `ensureDemoUser()`

  /** The users after `ensureDemoUser()`: the demo account is created when no user
      has the default email, given a hash when the first such user has none, and
      left alone otherwise. `hash` is the fresh `hashPassword('demo1234')`. */
  function DemoUsers(users: seq<User>, email: string, hash: string, random: Entropy): (r: seq<User>)
    ensures FirstWith(users, UserEmail, email) >= 0 ==> |r| == |users|
    ensures FirstWith(users, UserEmail, email) < 0 ==> |r| == |users| + 1 && r[..|users|] == users
  {
    var i := FirstWith(users, UserEmail, email);
    if i < 0 then UpsertUsers(users, UserDraft(None, email, DemoName, Some(DemoAvatar), AdminRole, Some(hash)), random).0
    else if !Truthy(users[i].passwordHash) then
      var e := users[i];
      UpsertUsers(users, UserDraft(Some(e.id), e.email, e.name, e.avatarUrl, e.role, Some(hash)), random).0
    else users
  }

  /** Without a user for the default email, the demo account is appended. */
  lemma DemoUserCreated(users: seq<User>, email: string, hash: string, random: Entropy)
    requires FirstWith(users, UserEmail, email) < 0
    ensures DemoUsers(users, email, hash, random)
            == users + [User(CreateId(Usr, random), email, DemoName, Some(DemoAvatar), AdminRole, Some(hash))]
  {
    UpsertUserAppendsNew(users, UserDraft(None, email, DemoName, Some(DemoAvatar), AdminRole, Some(hash)), random);
  }

  /** A demo user without a hash keeps its id and every other field and only gains
      the hash, provided no earlier user shares its id. */
  lemma DemoUserGetsHash(users: seq<User>, email: string, hash: string, random: Entropy)
    requires 0 <= FirstWith(users, UserEmail, email)
    requires !Truthy(users[FirstWith(users, UserEmail, email)].passwordHash)
    requires var i := FirstWith(users, UserEmail, email);
      forall j :: 0 <= j < i ==> users[j].id != users[i].id
    ensures var i := FirstWith(users, UserEmail, email);
      DemoUsers(users, email, hash, random) == users[i := users[i].(passwordHash := Some(hash))]
  {
    var i := FirstWith(users, UserEmail, email);
    var e := users[i];
    var d := UserDraft(Some(e.id), e.email, e.name, e.avatarUrl, e.role, Some(hash));
    UpsertUserUpdatesMatch(users, d, random, i);
    var r := UpsertUsers(users, d, random).0;
    assert r == users[i := users[i].(passwordHash := Some(hash))];
  }

  /** After `ensureDemoUser()`, the first user with the default email has a hash. */
  lemma DemoUserReady(users: seq<User>, email: string, hash: string, random: Entropy)
    requires hash != []
    ensures var after := DemoUsers(users, email, hash, random);
      var i := FirstWith(after, UserEmail, email);
      0 <= i && Truthy(after[i].passwordHash)
  {
    var i := FirstWith(users, UserEmail, email);
    var after := DemoUsers(users, email, hash, random);
    if i < 0 {
      DemoUserCreated(users, email, hash, random);
      assert after[|users|].email == email;
    } else if !Truthy(users[i].passwordHash) {
      var e := users[i];
      var d := UserDraft(Some(e.id), e.email, e.name, e.avatarUrl, e.role, Some(hash));
      var k := LookupIndex(users, d.id, UserId, UserEmail, d.email);
      assert 0 <= k <= i;
      UpsertUserUpdatesMatch(users, d, random, k);
      assert after[k].email == email && after[k].passwordHash == Some(hash);
      assert forall j :: 0 <= j < k ==> after[j] == users[j];
    }
  }

  /** `ensureDemoUser()` is idempotent: a second call changes nothing. */
  lemma DemoUsersIdempotent(users: seq<User>, email: string, hash: string, random: Entropy,
                            hash2: string, random2: Entropy)
    requires hash != []
    ensures var once := DemoUsers(users, email, hash, random);
      DemoUsers(once, email, hash2, random2) == once
  {
    DemoUserReady(users, email, hash, random);
  }

  /** A user whose email is the default one and who has a hash. */
  predicate DemoReady(users: seq<User>, email: string) {
    var i := FirstWith(users, UserEmail, email);
    0 <= i && Truthy(users[i].passwordHash)
  }

  /** `ensureDemoUser()`; `email` is `config.defaultUserEmail`, `saltBytes` the salt's
      random bytes, `random` those of a new user's id. */
  method EnsureDemoUser(db: Database, email: string, kdf: (string, string) -> Digest, saltBytes: seq<Byte>,
                        random: Entropy)
    modifies db, db.disk
    ensures db.schema == old(db.schema).(users := DemoUsers(old(db.schema.users), email,
                                                            HashPassword(DemoPassword, Hex(saltBytes), kdf), random))
    ensures DemoReady(db.schema.users, email)
    ensures old(DemoReady(db.schema.users, email)) ==> db.disk.files == old(db.disk.files)
    ensures !old(DemoReady(db.schema.users, email)) ==> db.disk.files == old(db.disk.files)[db.path := Store(db.schema)]
  {
    var users := db.Users();
    var i := FirstWith(users, UserEmail, email);
    var hash := HashPassword(DemoPassword, Hex(saltBytes), kdf);
    DemoUserReady(users, email, hash, random);
    if i < 0 {
      var _ := db.UpsertUser(UserDraft(None, email, DemoName, Some(DemoAvatar), AdminRole, Some(hash)), random);
    } else if !Truthy(users[i].passwordHash) {
      var e := users[i];
      var _ := db.UpsertUser(UserDraft(Some(e.id), e.email, e.name, e.avatarUrl, e.role, Some(hash)), random);
    }
  }

  // ---------------------------------------------------------------------------
  // Sessions

  datatype Session = Session(id: string, userId: string, token: string, createdAt: string)

  /** The module-level `sessions` map, keyed by token. */
  class SessionStore {
    var sessions: map<string, Session>

    constructor()
      ensures sessions == map[]
    {
      sessions := map[];
    }

    /** `getSession(token)`: nothing for a missing or empty token. */
    function GetSession(token: Option<string>): (r: Option<Session>)
      reads this
      ensures !Truthy(token) ==> r.None?
      ensures Truthy(token) ==> (r.Some? <==> token.value in sessions)
      ensures r.Some? ==> r.value == sessions[token.value]
    {
      if !Truthy(token) then None
      else if token.value in sessions then Some(sessions[token.value])
      else None
    }

    /** `getCurrentUser(token)`: the first user with the session's user id, if there
        is a session. */
    function GetCurrentUser(token: Option<string>, users: seq<User>): (r: Option<User>)
      reads this
      ensures GetSession(token).None? ==> r.None?
      ensures GetSession(token).Some? ==>
        (r.Some? <==> exists j :: 0 <= j < |users| && users[j].id == GetSession(token).value.userId)
      ensures r.Some? ==> r.value in users && r.value.id == GetSession(token).value.userId
      ensures r.Some? ==> r.value == users[FirstWith(users, UserId, GetSession(token).value.userId)]
    {
      match GetSession(token)
      case None => None
      case Some(s) =>
        var j := FirstWith(users, UserId, s.userId);
        if j < 0 then None else Some(users[j])
    }

    /** `signOut(token)` */
    method SignOut(token: string)
      modifies this
      ensures sessions == old(sessions) - {token}
      ensures GetSession(Some(token)).None?
    {
      sessions := sessions - {token};
    }

    /** `authenticate(email, password)`: `tokenBytes` are the token's random bytes,
        `random` those of the session id, `now` the clock. */
    method Authenticate(users: seq<User>, email: string, password: string, kdf: (string, string) -> Digest,
                        tokenBytes: seq<Byte>, random: Entropy, now: string)
      returns (r: Result<(User, Session)>)
      modifies this
      ensures var i := FirstWith(users, UserEmail, email);
        r.Success? <==> 0 <= i && VerifyPassword(password, users[i].passwordHash, kdf) == Success(true)
      ensures var i := FirstWith(users, UserEmail, email);
        && (i < 0 ==> r == Failure(InvalidCredentials))
        && (0 <= i && VerifyPassword(password, users[i].passwordHash, kdf) == Success(false) ==> r == Failure(InvalidCredentials))
      ensures var i := FirstWith(users, UserEmail, email);
        0 <= i && VerifyPassword(password, users[i].passwordHash, kdf).Failure? ==>
          r == Failure(VerifyPassword(password, users[i].passwordHash, kdf).message)
      ensures r.Failure? ==> sessions == old(sessions)
      ensures r.Success? ==> var (user, session) := r.value;
        && user == users[FirstWith(users, UserEmail, email)]
        && session == Session(CreateId(Evt, random), user.id, Hex(tokenBytes), now)
        && sessions == old(sessions)[session.token := session]
      ensures r.Success? && tokenBytes != [] ==> GetSession(Some(Hex(tokenBytes))) == Some(r.value.1)
    {
      var i := FirstWith(users, UserEmail, email);
      if i < 0 {
        return Failure(InvalidCredentials);
      }
      var user := users[i];
      var verified := VerifyPassword(password, user.passwordHash, kdf);
      if verified.Failure? {
        return Failure(verified.message);
      }
      if !verified.value {
        return Failure(InvalidCredentials);
      }
      var token := Hex(tokenBytes);
      var session := Session(CreateId(Evt, random), user.id, token, now);
      sessions := sessions[token := session];
      r := Success((user, session));
    }
  }

  /** Signing in with the demo password succeeds after `ensureDemoUser()` created the
      account, whatever the key derivation. */
  lemma DemoSignInSucceeds(users: seq<User>, email: string, saltBytes: seq<Byte>, kdf: (string, string) -> Digest,
                           random: Entropy)
    requires FirstWith(users, UserEmail, email) < 0
    ensures var after := DemoUsers(users, email, HashPassword(DemoPassword, Hex(saltBytes), kdf), random);
      var i := FirstWith(after, UserEmail, email);
      0 <= i && VerifyPassword(DemoPassword, after[i].passwordHash, kdf) == Success(true)
  {
    var hash := HashPassword(DemoPassword, Hex(saltBytes), kdf);
    DemoUserCreated(users, email, hash, random);
    var after := DemoUsers(users, email, hash, random);
    assert after[|users|].email == email;
    VerifyFreshHash(DemoPassword, saltBytes, kdf);
  }
}
