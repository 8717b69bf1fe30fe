/**
 * The session manager of src/contexts/AuthContext.tsx: the in-memory `user` and `loading`
 * state, restored at startup from the `@user`/`@token` entries of the device store,
 * written by `signIn` and wiped by `signOut`.
 */
module Auth {
  import opened Outcomes
  import opened Json
  import opened Api
  import opened Storage

  const LoginPath: string := "/auth/login"

  datatype User = User(id: string, nome: string, email: string)

  /** What a successful login answers with: the bearer token and the signed-in user. */
  datatype LoginData = LoginData(token: string, user: User)

  function UserJson(u: User): Json {
    JObject([Member("id", JString(u.id)), Member("nome", JString(u.nome)), Member("email", JString(u.email))])
  }

  /** `JSON.stringify(user)`, the text stored under `@user`. */
  function EncodeUser(u: User): (text: string)
    ensures text != ""
  {
    Serialize(UserJson(u))
  }

  /** One `"key":"value"` member: the key, the value, and the text after the value. */
  function ReadMember(text: string): (r: Option<(string, string, string)>)
    ensures r.Some? ==> |r.value.2| < |text|
  {
    match ReadQuoted(text)
    case None => None
    case Some((key, r1)) =>
      if |r1| > 0 && r1[0] == ':' then
        match ReadQuoted(r1[1..])
        case None => None
        case Some((value, r2)) => Some((key, value, r2))
      else None
  }

  /** The value of a member called `key` and the text after it. */
  function ExpectMember(text: string, key: string): Option<(string, string)> {
    match ReadMember(text)
    case Some((k, value, rest)) => if k == key then Some((value, rest)) else None
    case None => None
  }

  /** The text after a leading comma. */
  function AfterComma(text: string): Option<string> {
    if |text| > 0 && text[0] == ',' then Some(text[1..]) else None
  }

  /**
   * `JSON.parse` of a stored `@user`, for the texts `EncodeUser` writes: an object with
   * the string members `id`, `nome`, `email` in that order and no white space. Any other
   * text is treated as one `JSON.parse` rejects.
   */
  function DecodeUser(text: string): Option<User> {
    if |text| == 0 || text[0] != '{' then None
    else
      var id := ExpectMember(text[1..], "id");
      if id.None? then None
      else
        var t0 := AfterComma(id.value.1);
        if t0.None? then None
        else
          var nome := ExpectMember(t0.value, "nome");
          if nome.None? then None
          else
            var t1 := AfterComma(nome.value.1);
            if t1.None? then None
            else
              var email := ExpectMember(t1.value, "email");
              if email.None? || email.value.1 != "}" then None
              else Some(User(id.value.0, nome.value.0, email.value.0))
  }

  lemma ReadMemberOf(key: string, value: string, rest: string)
    ensures ReadMember(MemberText(key, value) + rest) == Some((key, value, rest))
  {
    var k, v := Serialize(JString(key)), Serialize(JString(value));
    assert Quote(key) == k;
    ReadQuotedOf(key, ":" + v + rest);
    ReadQuotedOf(value, rest);
    ReadMemberSplit(k, v, key, value, rest);
  }

  /** ReadMember on a key literal, a colon and a value literal, whatever the literals are. */
  lemma ReadMemberSplit(k: string, v: string, key: string, value: string, rest: string)
    requires ReadQuoted(k + (":" + v + rest)) == Some((key, ":" + v + rest))
    requires ReadQuoted(v + rest) == Some((value, rest))
    ensures ReadMember(k + ":" + v + rest) == Some((key, value, rest))
  {
    assert k + ":" + v + rest == k + (":" + v + rest);
    assert (":" + v + rest)[1..] == v + rest;
  }

  /** `"key":"value"` as `JSON.stringify` writes an object member. */
  function MemberText(key: string, value: string): string {
    Quote(key) + ":" + Serialize(JString(value))
  }

  /** The text `EncodeUser` writes, member by member. */
  lemma EncodeUserText(u: User)
    ensures EncodeUser(u) ==
            "{" + (MemberText("id", u.id) + "," + (MemberText("nome", u.nome) + "," + MemberText("email", u.email))) + "}"
  {
    var ms := UserJson(u).members;
    var parts := seq(|ms|, i requires 0 <= i < |ms| => Quote(ms[i].key) + ":" + Serialize(ms[i].value));
    assert EncodeUser(u) == "{" + Join(parts, ",") + "}";
    var p0, p1, p2 := MemberText("id", u.id), MemberText("nome", u.nome), MemberText("email", u.email);
    assert parts == [p0, p1, p2];
    assert parts[1..] == [p1, p2];
    assert parts[1..][1..] == [p2];
    assert Join([p2], ",") == p2;
    assert Join([p1, p2], ",") == p1 + "," + p2;
  }

  /** Round trip: restoring the stored text of a user gives back that user. */
  lemma DecodeEncodeUser(u: User)
    ensures DecodeUser(EncodeUser(u)) == Some(u)
  {
    EncodeUserText(u);
    DecodeMembers(u.id, u.nome, u.email);
  }

  lemma {:induction false} DecodeMembers(id: string, nome: string, email: string)
    ensures DecodeUser("{" + (MemberText("id", id) + "," + (MemberText("nome", nome) + "," + MemberText("email", email))) + "}") ==
            Some(User(id, nome, email))
  {
    var p0, p1, p2 := MemberText("id", id), MemberText("nome", nome), MemberText("email", email);
    var r1 := "," + (p2 + "}");
    var r0 := "," + (p1 + r1);
    ReadMemberOf("id", id, r0);
    ReadMemberOf("nome", nome, r1);
    ReadMemberOf("email", email, "}");
    Regroup(p0, p1, p2);
    DecodeParts(p0 + r0, r0, p1 + r1, r1, p2 + "}", User(id, nome, email));
  }

  lemma Regroup(p0: string, p1: string, p2: string)
    ensures ("{" + (p0 + "," + (p1 + "," + p2)) + "}")[1..] == p0 + ("," + (p1 + ("," + (p2 + "}"))))
  {
  }

  /** DecodeUser, one step at a time, on a text whose members have been read already. */
  lemma DecodeParts(body: string, r0: string, t0: string, r1: string, t1: string, u: User)
    requires ExpectMember(body, "id") == Some((u.id, r0))
    requires AfterComma(r0) == Some(t0) && ExpectMember(t0, "nome") == Some((u.nome, r1))
    requires AfterComma(r1) == Some(t1) && ExpectMember(t1, "email") == Some((u.email, "}"))
    ensures DecodeUser("{" + body) == Some(u)
  {
    assert ("{" + body)[1..] == body;
  }

  /**
   * The user a restore sets from the store's contents: both `@user` and `@token` must be
   * present and non-empty, and `@user` must parse. None means restore sets nothing.
   */
  function RestoredUser(entries: map<string, string>): (r: Option<User>)
    ensures r.Some? ==> UserKey in entries && TokenKey in entries && entries[TokenKey] != ""
    ensures r.Some? ==> DecodeUser(entries[UserKey]) == r
  {
    if UserKey in entries && entries[UserKey] != "" && TokenKey in entries && entries[TokenKey] != ""
    then DecodeUser(entries[UserKey])
    else None
  }

  /**
   * After a successful sign-in writes `@token` then `@user`, a restore yields the signed-in
   * user exactly when the token is non-empty (an empty token is falsy and the restore skips).
   */
  lemma {:induction false} RestoreAfterSignIn(entries: map<string, string>, data: LoginData)
    ensures RestoredUser(entries[TokenKey := data.token][UserKey := EncodeUser(data.user)]) ==
            (if data.token != "" then Some(data.user) else None)
  {
    var after := entries[TokenKey := data.token][UserKey := EncodeUser(data.user)];
    assert after[UserKey] == EncodeUser(data.user);
    assert after[TokenKey] == data.token;
    DecodeEncodeUser(data.user);
  }

  /** A wiped store restores no one. */
  lemma RestoreAfterClear()
    ensures RestoredUser(map[]) == None
  {
  }

  function Credentials(email: string, senha: string): Json {
    JObject([Member("email", JString(email)), Member("senha", JString(senha))])
  }

  /** The request `signIn` sends: an unauthenticated POST of the credentials. */
  function LoginRequest(email: string, senha: string): (r: Request)
    ensures r.url == ApiUrl + LoginPath && r.verb == POST
    ensures HeaderValue(r.headers, "Authorization").None?
    ensures HeaderValue(r.headers, "Content-Type") == Some(JsonContentType)
    ensures r.body == Some(Serialize(Credentials(email, senha)))
  {
    BuildRequest(LoginPath, Some(POST), Some(Credentials(email, senha)), None)
  }

  class AuthProvider {
    var user: Option<User>
    var loading: bool
    const storage: KeyValueStore

    /** The provider as it mounts: nobody signed in, restore still pending. */
    constructor (storage: KeyValueStore)
      ensures user == None && loading
      ensures this.storage == storage
    {
      user := None;
      loading := true;
      this.storage := storage;
    }

    /**
     * `loadUser`: sets `user` from the store when both entries are present and `@user`
     * parses, and otherwise leaves it as it was. `readFails` stands for a rejected
     * `getItem`; `loading` ends false whatever happens. The store is only read.
     */
    method LoadUser(readFails: bool)
      modifies this
      ensures !loading
      ensures user == if !readFails && RestoredUser(storage.entries).Some? then RestoredUser(storage.entries) else old(user)
    {
      if !readFails {
        var userText := storage.GetItem(UserKey);
        var token := storage.GetItem(TokenKey);
        if userText.Some? && userText.value != "" && token.Some? && token.value != "" {
          var parsed := DecodeUser(userText.value);
          if parsed.Some? {
            user := parsed;
          }
        }
      }
      loading := false;
    }

    /**
     * `signIn(email, senha)`: `reply` is what `apiRequest` gives for `sent`. On success the
     * token is stored, then the user's text, then `user` is set; on a rejection nothing
     * is written and `user` is untouched.
     */
    method SignIn(email: string, senha: string, reply: Result<LoginData, Failure>) returns (sent: Request, failure: Option<Failure>)
      modifies this, storage
      ensures sent == LoginRequest(email, senha)
      ensures loading == old(loading)
      ensures reply.Err? ==> failure == Some(reply.error) && user == old(user) && storage.entries == old(storage.entries)
      ensures reply.Ok? ==> failure == None && user == Some(reply.value.user) &&
                            storage.entries == old(storage.entries)[TokenKey := reply.value.token][UserKey := EncodeUser(reply.value.user)]
    {
      sent := LoginRequest(email, senha);
      match reply
      case Err(e) =>
        failure := Some(e);
      case Ok(data) =>
        storage.SetItem(TokenKey, data.token);
        storage.SetItem(UserKey, EncodeUser(data.user));
        user := Some(data.user);
        failure := None;
    }

    /** `signOut`: wipes the whole store, unrelated keys included, and forgets the user. */
    method SignOut()
      modifies this, storage
      ensures user == None && loading == old(loading)
      ensures storage.entries == map[]
    {
      storage.Clear();
      user := None;
    }
  }

  /** A sign-in followed by a restart of the app over the same store: who the restore brings back. */
  method SignInThenRestart(entries: map<string, string>, email: string, senha: string, data: LoginData)
    returns (restored: Option<User>)
    ensures restored == if data.token != "" then Some(data.user) else None
  {
    var store := new KeyValueStore(entries);
    var session := new AuthProvider(store);
    var _, _ := session.SignIn(email, senha, Ok(data));
    var next := new AuthProvider(store);
    next.LoadUser(false);
    RestoreAfterSignIn(entries, data);
    restored := next.user;
  }

  /** A sign-out followed by a restart: no one is restored and the biometric preference is gone too. */
  method SignOutThenRestart(entries: map<string, string>) returns (restored: Option<User>, biometric: Option<string>)
    ensures restored == None && biometric == None
  {
    var store := new KeyValueStore(entries);
    var session := new AuthProvider(store);
    session.LoadUser(false);
    session.SignOut();
    var next := new AuthProvider(store);
    next.LoadUser(false);
    restored := next.user;
    biometric := store.GetItem(BiometricKey);
  }
}
