/** Login, sign-up and e-mail verification decisions (src/services/auth.service.ts).
    Token signing and checking are opaque: login returns the payload it would
    sign, and verify receives the outcome of checking the token (None when the
    token is invalid or expired). E-mail dispatch is fire-and-forget and has
    no effect on any result. */
module AuthService {
  import opened Results
  import opened UserModel
  import opened Storage
  import opened UserRules
  import opened UserService

  const LoginFailed: string := "Login failed"
  const PendingActivation: string := "User is pending fpr activation"
  const UserSuspended: string := "User is suspended"
  const NoSuchUser: string := "User not exists"
  const UserAlreadyActive: string := "User is already active"
  const VerificationFailed: string := "Account verification failed"
  const AccountAlreadyActive: string := "Account is already active"
  const ActivationFailed: string := "Account activation failed"

  datatype LoginRequest = LoginRequest(username: string, password: string)
  datatype SignUpRequest = SignUpRequest(email: string, username: string, password: string)

  /** The claim embedded in a login token: copied from the stored record. */
  function PayloadOf(d: UserDoc): (p: TokenPayload)
    ensures p.id == d.id && p.status == d.user.status && p.username == d.user.username
    ensures p.email == d.user.email && p.role == d.user.role
  {
    TokenPayload(d.id, d.user.status, d.user.username, d.user.email, d.user.role)
  }

  /** login: the username lookup (deleted users excluded), then the PASSIVE and
      SUSPENDED refusals, then the password comparison. */
  ghost function Login(s: Store, req: LoginRequest, crypto: Crypto): (r: DataResult<TokenPayload>)
    ensures r.IsSuccess() || r.ErrorData?
    ensures !UsernameHeld(s, req.username, None) ==> r == ErrorData(LoginFailed)
    ensures r.ErrorData? ==> r.message in {LoginFailed, PendingActivation, UserSuspended}
    ensures r.IsSuccess() ==>
      && Live(s, r.data.id)
      && var u := s.users[r.data.id];
      && u.username == req.username
      && u.status == ACTIVE
      && crypto.compare(req.password, u.password)
      && r.data == PayloadOf(UserDoc(r.data.id, u))
  {
    var found := GetByUsername(s, req.username);
    if !found.IsSuccess() then ErrorData(LoginFailed)
    else if found.data.user.status == PASSIVE then ErrorData(PendingActivation)
    else if found.data.user.status == SUSPENDED then ErrorData(UserSuspended)
    else if !crypto.compare(req.password, found.data.user.password) then ErrorData(LoginFailed)
    else SuccessData(PayloadOf(found.data))
  }

  /** The status refusals come before the password is looked at: a pending or
      suspended account gets the same answer whatever password is sent. */
  lemma StatusRefusalIgnoresPassword(s: Store, req: LoginRequest, crypto: Crypto, other: string, crypto': Crypto)
    requires Login(s, req, crypto) in {ErrorData(PendingActivation), ErrorData(UserSuspended)}
    ensures Login(s, req.(password := other), crypto') == Login(s, req, crypto)
  {
  }

  /** signUp: add the user; its failure message is passed on unchanged. */
  function SignUp(s: Store, req: SignUpRequest, crypto: Crypto, newId: Id): (e: Effect<Result>)
    requires newId !in s.users
    ensures e.result.IsSuccess() <==> !UsernameHeld(s, req.username, None) && !EmailHeld(s, req.email)
    ensures UsernameHeld(s, req.username, None) ==> e.result == ErrorResult(UsernameTaken)
    ensures !UsernameHeld(s, req.username, None) && EmailHeld(s, req.email) ==> e.result == ErrorResult(EmailTaken)
    ensures !e.result.IsSuccess() ==> e.store == s
    ensures e.result.IsSuccess() ==>
      e.store == PutUser(s, newId, User(req.username, req.email, crypto.hash(req.password), Some(USER), PASSIVE))
  {
    var added := Add(s, AddRequest(req.username, req.email, req.password, None, None), crypto, newId);
    if !added.result.IsSuccess() then Effect(ErrorResult(added.result.message), s)
    else Effect(SuccessResult, added.store)
  }

  /** sendVerification: refuses unknown or deleted e-mails and active accounts. */
  ghost function SendVerification(s: Store, email: string): (r: Result)
    ensures r.IsSuccess() || r.ErrorResult?
    ensures (forall uid :: Live(s, uid) ==> s.users[uid].email != email) ==> r == ErrorResult(NoSuchUser)
    ensures ((forall uid :: Live(s, uid) && s.users[uid].email == email ==> s.users[uid].status == ACTIVE)
             && (exists uid :: Live(s, uid) && s.users[uid].email == email)) ==>
            r == ErrorResult(UserAlreadyActive)
    ensures r.IsSuccess() ==> exists uid :: Live(s, uid) && s.users[uid].email == email && s.users[uid].status != ACTIVE
  {
    var found := GetByEmail(s, email);
    if !found.IsSuccess() then ErrorResult(NoSuchUser)
    else if found.data.user.status == ACTIVE then ErrorResult(UserAlreadyActive)
    else SuccessResult
  }

  /** verify, as written: after the token and status checks it calls
      `activate` without an actor, whose permission rule then throws. */
  function Verify(s: Store, token: Option<TokenPayload>): (e: Effect<Result>)
    ensures e.store == s
    ensures !e.result.IsSuccess()
    ensures token.None? ==> e.result == ErrorResult(VerificationFailed)
    ensures token.Some? && !Live(s, token.value.id) ==> e.result == ErrorResult(VerificationFailed)
    ensures token.Some? && Live(s, token.value.id) && s.users[token.value.id].status == ACTIVE ==>
      e.result == ErrorResult(AccountAlreadyActive)
    ensures token.Some? && Live(s, token.value.id) && s.users[token.value.id].status != ACTIVE ==>
      e.result == Exception(TypeError)
  {
    match token
    case None => Effect(ErrorResult(VerificationFailed), s)
    case Some(p) =>
      var user := GetById(s, p.id);
      if !user.IsSuccess() then Effect(ErrorResult(VerificationFailed), s)
      else if user.data.status == ACTIVE then Effect(ErrorResult(AccountAlreadyActive), s)
      else
        var activation := Activate(s, p.id, None);
        match activation.result
        case SuccessResult => Effect(SuccessResult, activation.store)
        case ErrorResult(_) => Effect(ErrorResult(ActivationFailed), activation.store)
        case Exception(err) => Effect(Exception(err), activation.store)
  }

  /** verify as evidently intended: the verified token itself authorises the
      activation, through `selfActivate`. */
  function VerifyIntended(s: Store, token: Option<TokenPayload>): (e: Effect<Result>)
    ensures e.result.IsSuccess() <==>
      token.Some? && Live(s, token.value.id) && s.users[token.value.id].status != ACTIVE
    ensures e.result.IsSuccess() ==> e.store == SetStatus(s, token.value.id, ACTIVE)
    ensures !e.result.IsSuccess() ==> e.store == s && e.result.ErrorResult?
    ensures token.Some? && Live(s, token.value.id) && s.users[token.value.id].status == ACTIVE ==>
      e.result == ErrorResult(AccountAlreadyActive)
  {
    match token
    case None => Effect(ErrorResult(VerificationFailed), s)
    case Some(p) =>
      var user := GetById(s, p.id);
      if !user.IsSuccess() then Effect(ErrorResult(VerificationFailed), s)
      else if user.data.status == ACTIVE then Effect(ErrorResult(AccountAlreadyActive), s)
      else
        var activation := SelfActivate(s, p.id);
        if activation.result.IsSuccess() then Effect(SuccessResult, activation.store)
        else Effect(ErrorResult(ActivationFailed), activation.store)
  }

  /** For every account that is waiting for verification, the written verify
      throws and changes nothing, while the intended one activates it. */
  lemma VerifyNeverActivates(s: Store, p: TokenPayload)
    requires Live(s, p.id) && s.users[p.id].status != ACTIVE
    ensures Verify(s, Some(p)) == Effect(Exception(TypeError), s)
    ensures VerifyIntended(s, Some(p)) == Effect(SuccessResult, SetStatus(s, p.id, ACTIVE))
  {
  }

  /** The intended verify keeps the written status check, which refuses only
      ACTIVE accounts: a SUSPENDED account holding a token for itself lifts
      its own suspension, and it is sent such tokens, since resending
      verification refuses only deleted, unknown and active accounts. */
  lemma IntendedVerifyLiftsSuspension(s: Store, p: TokenPayload)
    requires Live(s, p.id) && s.users[p.id].status == SUSPENDED
    ensures VerifyIntended(s, Some(p)).result.IsSuccess()
    ensures VerifyIntended(s, Some(p)).store.users[p.id] == s.users[p.id].(status := ACTIVE)
  {
  }

  /** A fresh sign-up cannot log in yet: the account is pending activation. */
  lemma SignUpThenLoginIsPending(s: Store, req: SignUpRequest, crypto: Crypto, newId: Id)
    requires newId !in s.users
    requires SignUp(s, req, crypto, newId).result.IsSuccess()
    ensures Login(SignUp(s, req, crypto, newId).store, LoginRequest(req.username, req.password), crypto)
         == ErrorData(PendingActivation)
  {
    var t := SignUp(s, req, crypto, newId).store;
    OnlyHolder(s, t, newId, req.username);
  }

  /** With the intended verify, sign-up, verification and login chain up:
      the login token describes the new account. */
  lemma SignUpVerifyLogin(s: Store, req: SignUpRequest, crypto: Crypto, newId: Id, token: TokenPayload)
    requires Sound(crypto)
    requires newId !in s.users
    requires SignUp(s, req, crypto, newId).result.IsSuccess()
    requires token.id == newId
    ensures var t := VerifyIntended(SignUp(s, req, crypto, newId).store, Some(token)).store;
            Login(t, LoginRequest(req.username, req.password), crypto)
              == SuccessData(TokenPayload(newId, ACTIVE, req.username, req.email, Some(USER)))
  {
    var t1 := SignUp(s, req, crypto, newId).store;
    var t2 := VerifyIntended(t1, Some(token)).store;
    OnlyHolder(s, t1, newId, req.username);
    OnlyHolder(s, t2, newId, req.username);
    assert crypto.compare(req.password, crypto.hash(req.password));
  }

  /** With the written verify the same account stays locked out. */
  lemma SignUpVerifyLoginAsWritten(s: Store, req: SignUpRequest, crypto: Crypto, newId: Id, token: TokenPayload)
    requires newId !in s.users
    requires SignUp(s, req, crypto, newId).result.IsSuccess()
    requires token.id == newId
    ensures var t := Verify(SignUp(s, req, crypto, newId).store, Some(token)).store;
            Login(t, LoginRequest(req.username, req.password), crypto) == ErrorData(PendingActivation)
  {
    SignUpThenLoginIsPending(s, req, crypto, newId);
  }

  /** When no live user of `s` held `username` and `t` only adds or changes
      `newId`, holding it, the username lookup in `t` finds `newId`. */
  lemma OnlyHolder(s: Store, t: Store, newId: Id, username: string)
    requires !UsernameHeld(s, username, None)
    requires newId in t.users && t.users[newId].username == username && t.users[newId].status != DELETED
    requires forall uid :: uid in t.users && uid != newId ==> uid in s.users && t.users[uid] == s.users[uid]
    ensures GetByUsername(t, username).IsSuccess() && GetByUsername(t, username).data.id == newId
  {
  }

  // ---------- resubmitting the current password ----------

  /** A salted-hash stand-in: the hash is the password behind a fixed prefix,
      and comparing checks the submitted password against that form, so a
      stored plain-text password never compares equal to itself. */
  function PrefixHash(p: string): string { "$2b$" + p }
  function PrefixCompare(p: string, h: string): bool { h == PrefixHash(p) }
  const PrefixCrypto: Crypto := Crypto(PrefixHash, PrefixCompare)

  /** The stand-in satisfies the only promise the model makes about hashing. */
  lemma PrefixCryptoSound()
    ensures Sound(PrefixCrypto)
  {
    forall p: string ensures PrefixCrypto.compare(p, PrefixCrypto.hash(p)) {
    }
  }

  /** One active user whose stored password is the hash of "pw". */
  function AliceStore(): (s: Store)
    ensures Live(s, "u") && s.users["u"].username == "alice" && s.users["u"].status == ACTIVE
    ensures s.users.Keys == {"u"}
  {
    Store(map["u" := User("alice", "a@b", PrefixHash("pw"), Some(USER), ACTIVE)], map[])
  }

  /** The written update, sent the password the user already has, stores it in
      plain text; after that the same password no longer logs in. The intended
      update keeps the login working. */
  lemma ResubmittedPasswordLocksOut()
    ensures var s := AliceStore();
      var actor := TokenPayload("u", ACTIVE, "alice", "a@b", Some(USER));
      var req := UpdateRequest("alice", Some("pw"), None, None, None);
      var login := LoginRequest("alice", "pw");
      && Login(s, login, PrefixCrypto).IsSuccess()
      && Update(s, "u", req, actor, PrefixCrypto).result.IsSuccess()
      && Login(Update(s, "u", req, actor, PrefixCrypto).store, login, PrefixCrypto) == ErrorData(LoginFailed)
      && Login(UpdateIntended(s, "u", req, actor, PrefixCrypto).store, login, PrefixCrypto).IsSuccess()
  {
    var s := AliceStore();
    var actor := TokenPayload("u", ACTIVE, "alice", "a@b", Some(USER));
    var req := UpdateRequest("alice", Some("pw"), None, None, None);
    assert PrefixCompare("pw", PrefixHash("pw"));
    assert !UsernameHeld(s, "alice", Some("u"));
    var t := Update(s, "u", req, actor, PrefixCrypto).store;
    assert t.users["u"].password == "pw";
    assert !PrefixCompare("pw", "pw") by {
      assert |PrefixHash("pw")| != |"pw"|;
    }
    assert t.users.Keys == {"u"};
    PrefixCryptoSound();
    var t' := UpdateIntended(s, "u", req, actor, PrefixCrypto).store;
    assert t'.users.Keys == {"u"};
  }
}
