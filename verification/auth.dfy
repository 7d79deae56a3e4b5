/** The session: two entries in browser storage (`token` and `user`), the
    `currentUser` value the provider exposes, and the `Authorization`
    header installed as the HTTP client's default. */
module Auth {
  import opened Wrappers
  import opened UserJson

  const TokenKey: string := "token"
  const UserKey: string := "user"

  /** The credential scheme of section 2.1 of RFC 6750, with its separating space. */
  const BearerPrefix: string := "Bearer "

  /** Fallback message when the Google sign-in error carries none. */
  const GoogleFailureMessage: string := "Google authentication failed"

  type Storage = map<string, string>

  /** `loading` is true until the restore effect has run; the provider
      renders its children only once it is false. */
  datatype Session = Session(
    storage: Storage,
    currentUser: Option<User>,
    authorization: Option<string>,
    loading: bool)

  /** The provider as it mounts over whatever storage holds. */
  function Mount(storage: Storage): Session {
    Session(storage, None, None, true)
  }

  /** `` `Bearer ${token}` ``. */
  function Bearer(token: string): (h: string)
    ensures |h| == |BearerPrefix| + |token|
    ensures h[..|BearerPrefix|] == BearerPrefix && h[|BearerPrefix|..] == token
  {
    BearerPrefix + token
  }

  /** The token carried by a bearer header, if it is one. */
  function TokenOf(header: string): Option<string> {
    if BearerPrefix <= header then Some(header[|BearerPrefix|..]) else None
  }

  /** The header and the token determine each other. */
  lemma BearerRoundTrip(token: string, header: string)
    ensures TokenOf(Bearer(token)) == Some(token)
    ensures TokenOf(header) == Some(token) <==> header == Bearer(token)
  {
    if TokenOf(header) == Some(token) {
      assert header == header[..|BearerPrefix|] + header[|BearerPrefix|..];
    }
  }

  function Get(storage: Storage, key: string): Option<string> {
    if key in storage then Some(storage[key]) else None
  }

  /** JavaScript truthiness of a `getItem` result: present and non-empty. */
  predicate Truthy(v: Option<string>) {
    v.Some? && v.value != ""
  }

  /** Storage entries other than the two session keys are equal. */
  ghost predicate OthersUnchanged(a: Storage, b: Storage) {
    forall k :: k != TokenKey && k != UserKey ==>
      (k in a <==> k in b) && (k in a ==> a[k] == b[k])
  }

  /** The restore effect either finishes or throws inside `JSON.parse`, in
      which case `loading` is never cleared. */
  datatype Restored = Ready(session: Session) | ParseThrew

  /** The mount effect: authenticate only when both `token` and `user` are
      truthy; otherwise stay anonymous with no header. */
  function Restore(storage: Storage): (r: Restored)
    ensures r.ParseThrew? <==>
      Truthy(Get(storage, TokenKey)) && Truthy(Get(storage, UserKey)) && Parse(storage[UserKey]).None?
    ensures r.Ready? ==> r.session.storage == storage && !r.session.loading
    ensures r.Ready? && r.session.currentUser.Some? <==>
      Truthy(Get(storage, TokenKey)) && Truthy(Get(storage, UserKey)) && Parse(storage[UserKey]).Some?
    ensures r.Ready? && r.session.currentUser.Some? ==>
      r.session.currentUser == Parse(storage[UserKey]) &&
      r.session.authorization == Some(Bearer(storage[TokenKey]))
    ensures r.Ready? && r.session.currentUser.None? ==> r.session.authorization.None?
  {
    var s := Mount(storage);
    var token := Get(storage, TokenKey);
    var user := Get(storage, UserKey);
    if Truthy(token) && Truthy(user) then
      match Parse(user.value)
      case None => ParseThrew
      case Some(u) => Ready(s.(currentUser := Some(u), authorization := Some(Bearer(token.value)), loading := false))
    else
      Ready(s.(loading := false))
  }

  /** `login(userData, token)`: persist both keys, set the user and the
      default header. */
  function Login(s: Session, user: User, token: string): (r: Session)
    ensures TokenKey in r.storage && r.storage[TokenKey] == token
    ensures UserKey in r.storage && Parse(r.storage[UserKey]) == Some(user)
    ensures OthersUnchanged(s.storage, r.storage)
    ensures r.currentUser == Some(user)
    ensures r.authorization == Some(Bearer(token))
    ensures r.loading == s.loading
  {
    ParseSerialize(user);
    Session(s.storage[TokenKey := token][UserKey := Serialize(user)], Some(user), Some(Bearer(token)), s.loading)
  }

  /** `register(userData, token)`: written out separately in the provider,
      with the same statements as `login`. */
  function Register(s: Session, user: User, token: string): Session {
    Session(s.storage[TokenKey := token][UserKey := Serialize(user)], Some(user), Some(Bearer(token)), s.loading)
  }

  lemma RegisterIsLogin(s: Session, user: User, token: string)
    ensures Register(s, user, token) == Login(s, user, token)
  {
  }

  /** `logout()`: drop both keys, the user and the header, from any state. */
  function Logout(s: Session): (r: Session)
    ensures TokenKey !in r.storage && UserKey !in r.storage
    ensures OthersUnchanged(s.storage, r.storage)
    ensures r.currentUser.None? && r.authorization.None?
    ensures r.loading == s.loading
  {
    Session(s.storage - {TokenKey, UserKey}, None, None, s.loading)
  }

  lemma LogoutIdempotent(s: Session)
    ensures Logout(Logout(s)) == Logout(s)
  {
  }

  /** Reloading after `login(u, t)` restores the same user and header,
      provided the token is a non-empty string; an empty token is falsy and
      the reload comes back anonymous. */
  lemma RestoreAfterLogin(s: Session, u: User, t: string)
    ensures var stored := Login(s, u, t).storage;
      t != "" ==> Restore(stored) == Ready(Session(stored, Some(u), Some(Bearer(t)), false))
    ensures var stored := Login(s, u, t).storage;
      t == "" ==> Restore(stored) == Ready(Session(stored, None, None, false))
  {
    var stored := Login(s, u, t).storage;
    assert Truthy(Get(stored, UserKey)) by {
      assert stored[UserKey] == Serialize(u);
    }
  }

  /** Reloading after `logout()` comes back anonymous. */
  lemma RestoreAfterLogout(s: Session)
    ensures var stored := Logout(s).storage;
      Restore(stored) == Ready(Session(stored, None, None, false))
  {
  }

  /** What the Google sign-in endpoint answered: the user and token, or an
      error with an optional `response.data.message`. */
  datatype GoogleResponse = GoogleOk(user: User, token: string) | GoogleFailed(message: Option<string>)

  /** `{ success, error }` as `googleLogin` returns it. */
  datatype GoogleResult = GoogleResult(success: bool, error: Option<string>)

  /** `googleLogin`: on an answer, `login(user, token)` and success; on a
      failure, the session untouched and the server's message or the
      fallback. */
  function GoogleLogin(s: Session, response: GoogleResponse): (r: (Session, GoogleResult))
    ensures r.1.success <==> response.GoogleOk?
    ensures response.GoogleOk? ==> r.0 == Login(s, response.user, response.token) && r.1.error.None?
    ensures response.GoogleFailed? ==> r.0 == s && r.1.error.Some?
    ensures response.GoogleFailed? && Truthy(response.message) ==> r.1.error == response.message
    ensures response.GoogleFailed? && !Truthy(response.message) ==> r.1.error == Some(GoogleFailureMessage)
  {
    match response
    case GoogleOk(user, token) => (Login(s, user, token), GoogleResult(true, None))
    case GoogleFailed(message) =>
      (s, GoogleResult(false, Some(if Truthy(message) then message.value else GoogleFailureMessage)))
  }
}
