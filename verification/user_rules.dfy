/** The business rules of the user service: pure checks over the store, each
    returning a Result for the business runner (src/services/user.service.ts). */
module UserRules {
  import opened Results
  import opened UserModel
  import opened Storage

  const UserNotExists: string := "User not exits"
  const UsernameTaken: string := "username is taken"
  const EmailTaken: string := "email is taken"
  const NotPermitted: string := "Not permitted"
  const RoleNotExists: string := "Role is not exists"

  /** A role as it reaches `changeRole`: a string from the request, or null. */
  datatype RoleRequest = NullRole | RoleName(name: string)

  /** The role hierarchy: SYS_ADMIN may act on anyone, ADMIN only on plain users. */
  predicate Outranks(actor: Option<Role>, target: Option<Role>) {
    actor == Some(SYS_ADMIN) || (actor == Some(ADMIN) && target == Some(USER))
  }

  /** A non-deleted user other than `exclude` (when given) holds `username`. */
  predicate UsernameHeld(s: Store, username: string, exclude: Option<Id>) {
    exists uid :: uid in s.users && s.users[uid].username == username && s.users[uid].status != DELETED
                  && (exclude.None? || uid != exclude.value)
  }

  /** Some user, soft-deleted ones included, holds `email`. */
  predicate EmailHeld(s: Store, email: string) {
    exists uid :: uid in s.users && s.users[uid].email == email
  }

  /** isExists: a user with this id whose status is not DELETED. */
  function IsExists(s: Store, id: Id): (r: Result)
    ensures r.IsSuccess() <==> Live(s, id)
    ensures !r.IsSuccess() ==> r == ErrorResult(UserNotExists)
  {
    var found := Find(s.users, (uid: Id, u: User) => uid == id && u.status != DELETED);
    assert Live(s, id) ==> id in found;
    if found != {} then
      SuccessResult
    else ErrorResult(UserNotExists)
  }

  /** isExistsUsername: some non-deleted user holds the username. */
  function IsExistsUsername(s: Store, username: string): (r: Result)
    ensures r.IsSuccess() <==> UsernameHeld(s, username, None)
    ensures !r.IsSuccess() ==> r == ErrorResult(UserNotExists)
  {
    var found := Find(s.users, (uid: Id, u: User) => u.username == username && u.status != DELETED);
    if found != {} then
      SuccessResult
    else ErrorResult(UserNotExists)
  }

  /** isExistsEmail: some non-deleted user holds the email. */
  function IsExistsEmail(s: Store, email: string): (r: Result)
    ensures r.IsSuccess() <==> exists uid :: Live(s, uid) && s.users[uid].email == email
    ensures !r.IsSuccess() ==> r == ErrorResult(UserNotExists)
  {
    var found := Find(s.users, (uid: Id, u: User) => u.email == email && u.status != DELETED);
    if found != {} then
      SuccessResult
    else ErrorResult(UserNotExists)
  }

  /** isUsernameUnique: fails when a non-deleted user other than `exclude`
      holds the username; without `exclude` every non-deleted holder counts. */
  function IsUsernameUnique(s: Store, username: string, exclude: Option<Id>): (r: Result)
    ensures r.IsSuccess() <==> !UsernameHeld(s, username, exclude)
    ensures !r.IsSuccess() ==> r == ErrorResult(UsernameTaken)
  {
    var taken := Find(s.users, (uid: Id, u: User) =>
      (exclude.None? || uid != exclude.value) && u.username == username && u.status != DELETED);
    if taken != {} then
      ErrorResult(UsernameTaken)
    else SuccessResult
  }

  /** isEmailUnique: fails when any user holds the email, deleted ones included. */
  function IsEmailUnique(s: Store, email: string): (r: Result)
    ensures r.IsSuccess() <==> !EmailHeld(s, email)
    ensures !r.IsSuccess() ==> r == ErrorResult(EmailTaken)
  {
    var taken := Find(s.users, (uid: Id, u: User) => u.email == email);
    if taken != {} then
      ErrorResult(EmailTaken)
    else SuccessResult
  }

  /** isUserAllowedForOperation: SYS_ADMIN always, the actor on itself, ADMIN on a
      plain USER. The ADMIN branch reads the target's role from a lookup that
      does not skip deleted users and throws when the id is unknown. */
  function IsUserAllowedForOperation(s: Store, id: Id, actor: TokenPayload): (r: Result)
    ensures r.IsSuccess() || r == ErrorResult(NotPermitted) || r == Exception(TypeError)
    ensures r.Exception? <==> actor.role == Some(ADMIN) && actor.id != id && id !in s.users
    ensures id in s.users ==> (r.IsSuccess() <==> actor.id == id || Outranks(actor.role, s.users[id].role))
    ensures id !in s.users ==> (r.IsSuccess() <==> actor.id == id || actor.role == Some(SYS_ADMIN))
  {
    if actor.role == Some(SYS_ADMIN) then SuccessResult
    else if actor.id == id then SuccessResult
    else if actor.role == Some(ADMIN) then
      if id !in s.users then Exception(TypeError)
      else if s.users[id].role == Some(USER) then SuccessResult
      else ErrorResult(NotPermitted)
    else ErrorResult(NotPermitted)
  }

  /** canChange: the same rule without the self case. A missing actor
      (`undefined`) throws when its role is read. */
  function CanChange(s: Store, id: Id, actor: Option<TokenPayload>): (r: Result)
    ensures r.IsSuccess() || r == ErrorResult(NotPermitted) || r == Exception(TypeError)
    ensures actor.None? ==> r == Exception(TypeError)
    ensures actor.Some? ==> (r.Exception? <==> actor.value.role == Some(ADMIN) && id !in s.users)
    ensures actor.Some? && id in s.users ==> (r.IsSuccess() <==> Outranks(actor.value.role, s.users[id].role))
    ensures actor.Some? && id !in s.users ==> (r.IsSuccess() <==> actor.value.role == Some(SYS_ADMIN))
  {
    match actor
    case None => Exception(TypeError)
    case Some(a) =>
      if a.role == Some(SYS_ADMIN) then SuccessResult
      else if a.role == Some(ADMIN) then
        if id !in s.users then Exception(TypeError)
        else if s.users[id].role == Some(USER) then SuccessResult
        else ErrorResult(NotPermitted)
      else ErrorResult(NotPermitted)
  }

  /** isRolePossible: null, or any name `role in Roles` finds, which takes in
      the names inherited from `Object.prototype` as well as the enum keys. */
  function IsRolePossible(role: RoleRequest): (r: Result)
    ensures r.IsSuccess() <==> role.NullRole? || role.name in EnumKeys + PrototypeNames
    ensures !r.IsSuccess() ==> r == ErrorResult(RoleNotExists)
  {
    match role
    case NullRole => SuccessResult
    case RoleName(n) => if RoleOfName(n).Some? then SuccessResult else ErrorResult(RoleNotExists)
  }

  /** isRolePossible as evidently intended: null or one of the enumeration's
      own keys, tested with an own-property check instead of `in`. */
  function IsRoleKey(role: RoleRequest): (r: Result)
    ensures r.IsSuccess() <==> role.NullRole? || role.name in EnumKeys
    ensures !r.IsSuccess() ==> r == ErrorResult(RoleNotExists)
  {
    match role
    case NullRole => SuccessResult
    case RoleName(n) => if n in EnumKeys then SuccessResult else ErrorResult(RoleNotExists)
  }

  /** The role value `changeRole` writes for a request. */
  function RequestedRole(role: RoleRequest): (r: Option<Role>)
    ensures role.NullRole? ==> r.None?
    ensures role.RoleName? && r.Some? ==> NameOf(r.value) == role.name
    ensures IsRolePossible(role).IsSuccess() ==> (role.NullRole? <==> r.None?)
    ensures IsRoleKey(role).IsSuccess() && r.Some? ==> IsEnumRole(r.value)
  {
    match role
    case NullRole => None
    case RoleName(n) => RoleOfName(n)
  }

  /** canChange differs from isUserAllowedForOperation exactly in the self case. */
  lemma AllowedIsCanChangeOrSelf(s: Store, id: Id, actor: TokenPayload)
    ensures IsUserAllowedForOperation(s, id, actor)
         == if actor.id == id then SuccessResult else CanChange(s, id, Some(actor))
  {
  }

  /** An ADMIN can act neither on another ADMIN nor on a SYS_ADMIN, and the
      answer is the same generic refusal either way. */
  lemma AdminCannotActOnPeers(s: Store, id: Id, actor: TokenPayload)
    requires actor.role == Some(ADMIN) && actor.id != id
    requires id in s.users && s.users[id].role in {Some(ADMIN), Some(SYS_ADMIN)}
    ensures IsUserAllowedForOperation(s, id, actor) == ErrorResult(NotPermitted)
    ensures CanChange(s, id, Some(actor)) == ErrorResult(NotPermitted)
  {
  }

  /** SYS_ADMIN passes both permission rules on any target, known or not. */
  lemma SysAdminAlwaysAllowed(s: Store, id: Id, actor: TokenPayload)
    requires actor.role == Some(SYS_ADMIN)
    ensures IsUserAllowedForOperation(s, id, actor).IsSuccess()
    ensures CanChange(s, id, Some(actor)).IsSuccess()
  {
  }

  /** A recognised role request is accepted and written as that very role. */
  lemma RecognisedRoleAccepted(r: Role)
    ensures IsRolePossible(RoleName(NameOf(r))).IsSuccess()
    ensures RequestedRole(RoleName(NameOf(r))) == Some(r)
  {
    RoleNameRoundTrip(r);
  }

  /** isRolePossible accepts "toString", which is no member of the
      enumeration, and the role then written is that inherited name; the
      intended own-key check refuses it. */
  lemma PrototypeNameAccepted()
    ensures IsRolePossible(RoleName("toString")).IsSuccess()
    ensures RequestedRole(RoleName("toString")) == Some(Inherited(ToString))
    ensures IsRoleKey(RoleName("toString")) == ErrorResult(RoleNotExists)
  {
  }
}
