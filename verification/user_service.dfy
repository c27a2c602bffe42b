/** The user service's operations as store transitions
    (src/services/user.service.ts). Each mutating operation runs its checks
    through the business runner and writes only when all of them pass. */
module UserService {
  import opened Results
  import opened UserModel
  import opened PostModel
  import opened Storage
  import opened UserRules
  import opened BusinessRunner
  import Seqs

  const OperationFailed: string := "Operation failed"

  // ---------- getAll: pagination arithmetic ----------

  datatype Pagination = Pagination(page: int, pageSize: nat, skip: int, totalItems: nat, totalPages: nat)

  /** The ids `countDocuments({status: {$ne: DELETED}})` counts. */
  function NonDeleted(s: Store): (ids: set<Id>)
    ensures forall id :: id in ids <==> Live(s, id)
  {
    set id | id in s.users && s.users[id].status != DELETED
  }

  /** JavaScript truthiness of an optional number: absent and 0 are falsy. */
  predicate Given(n: Option<int>) {
    n.Some? && n.value != 0
  }

  /** The page size used: the requested limit, or everything when none is given. */
  function PageSize(limit: Option<int>, count: nat): int {
    if Given(limit) then limit.value else count
  }

  /** The page count is only a number when the page size is positive. */
  predicate LimitUsable(limit: Option<int>, count: nat) {
    PageSize(limit, count) > 0
  }

  function CeilDiv(n: nat, d: nat): (q: nat)
    requires d > 0
    ensures n == 0 ==> q == 0
    ensures n > 0 ==> (q - 1) * d < n <= q * d
  {
    var q := (n + d - 1) / d;
    assert n + d - 1 == q * d + (n + d - 1) % d;
    assert (q - 1) * d == q * d - d;
    q
  }

  /** getAll's page window and page count for `count` listed users. */
  function Paginate(page: Option<int>, limit: Option<int>, count: nat): (r: Pagination)
    requires LimitUsable(limit, count)
    ensures r.totalItems == count
    ensures r.pageSize > 0 && r.pageSize == PageSize(limit, count)
    ensures r.page == (if Given(page) then page.value else 1)
    ensures r.skip == (r.page - 1) * r.pageSize
    ensures count == 0 ==> r.totalPages == 0
    ensures count > 0 ==> (r.totalPages - 1) * r.pageSize < count <= r.totalPages * r.pageSize
  {
    var pageIndex := if Given(page) then page.value - 1 else 0;
    var size: nat := PageSize(limit, count);
    Pagination(pageIndex + 1, size, pageIndex * size, count, CeilDiv(count, size))
  }

  /** getAll: the users that are not soft-deleted, paginated. */
  function GetAll(s: Store, page: Option<int>, limit: Option<int>): (r: Pagination)
    requires LimitUsable(limit, |NonDeleted(s)|)
    ensures r.totalItems == |NonDeleted(s)|
    ensures r.pageSize > 0 && r.pageSize == PageSize(limit, |NonDeleted(s)|)
    ensures r.page == (if Given(page) then page.value else 1)
    ensures r.skip == (r.page - 1) * r.pageSize
    ensures r.totalItems > 0 ==> (r.totalPages - 1) * r.pageSize < r.totalItems <= r.totalPages * r.pageSize
    ensures r.totalItems == 0 ==> r.totalPages == 0
  {
    Paginate(page, limit, |NonDeleted(s)|)
  }

  lemma MulMonotone(a: int, b: int, d: nat)
    requires a <= b
    ensures a * d <= b * d
  {
    var t: nat := b - a;
    assert b * d == a * d + t * d;
  }

  /** Item `i` of `n` lies on page `i / d`, which is below the page count. */
  lemma ItemPage(n: nat, d: nat, i: nat)
    requires d > 0 && i < n
    ensures i / d < CeilDiv(n, d)
    ensures (i / d) * d <= i < (i / d) * d + d
  {
    var k := i / d;
    var q := CeilDiv(n, d);
    assert i == k * d + i % d;
    if k >= q {
      MulMonotone(q, k, d);
      assert false;
    }
  }

  /** Every listed user falls on exactly the page `i / pageSize + 1`, and that
      page is one of the `totalPages` pages. */
  lemma EveryUserOnOnePage(count: nat, limit: Option<int>, i: nat)
    requires LimitUsable(limit, count)
    requires i < count
    ensures var size := PageSize(limit, count);
            var r := Paginate(Some(i / size + 1), limit, count);
            1 <= r.page <= r.totalPages && r.skip <= i < r.skip + r.pageSize
  {
    var size: nat := PageSize(limit, count);
    ItemPage(count, size, i);
  }

  /** Pages past the last one start beyond the last user. */
  lemma NoUserPastLastPage(count: nat, page: int, limit: Option<int>)
    requires LimitUsable(limit, count)
    requires page > 0
    ensures var r := Paginate(Some(page), limit, count);
            page > r.totalPages ==> r.skip >= r.totalItems
  {
    var r := Paginate(Some(page), limit, count);
    if page > r.totalPages {
      MulMonotone(r.totalPages, page - 1, r.pageSize);
    }
  }

  // ---------- reads ----------

  /** getById: the stored record of a non-deleted user, otherwise an error. */
  function GetById(s: Store, id: Id): (r: DataResult<User>)
    ensures r.IsSuccess() <==> Live(s, id)
    ensures r.IsSuccess() ==> r.data == s.users[id]
    ensures !r.IsSuccess() ==> r == ErrorData(UserNotExists)
  {
    var check := Run([IsExists(s, id)]);
    RunOne(IsExists(s, id));
    if !check.IsSuccess() then Failed(check) else SuccessData(s.users[id])
  }

  /** findOne on the user collection: some matching document, which one the
      store picks is left open. */
  ghost function FindOne(s: Store, matches: (Id, User) -> bool): (r: Option<UserDoc>)
    ensures r.None? <==> Find(s.users, matches) == {}
    ensures r.Some? ==> r.value.id in s.users && s.users[r.value.id] == r.value.user && matches(r.value.id, r.value.user)
  {
    if Find(s.users, matches) == {} then None
    else
      var id :| id in Find(s.users, matches);
      Some(UserDoc(id, s.users[id]))
  }

  /** getByUsername: a non-deleted user holding the username. */
  ghost function GetByUsername(s: Store, username: string): (r: DataResult<UserDoc>)
    ensures r.IsSuccess() <==> UsernameHeld(s, username, None)
    ensures r.IsSuccess() ==> Live(s, r.data.id) && r.data.user == s.users[r.data.id] && r.data.user.username == username
    ensures !r.IsSuccess() ==> r == ErrorData(UserNotExists)
  {
    var check := Run([IsExistsUsername(s, username)]);
    RunOne(IsExistsUsername(s, username));
    if !check.IsSuccess() then Failed(check)
    else
      match FindOne(s, (uid: Id, u: User) => u.username == username && u.status != DELETED)
      case None => ErrorData(UserNotExists)
      case Some(d) => SuccessData(d)
  }

  /** getByEmail: a non-deleted user holding the email. */
  ghost function GetByEmail(s: Store, email: string): (r: DataResult<UserDoc>)
    ensures r.IsSuccess() <==> exists uid :: Live(s, uid) && s.users[uid].email == email
    ensures r.IsSuccess() ==> Live(s, r.data.id) && r.data.user == s.users[r.data.id] && r.data.user.email == email
    ensures !r.IsSuccess() ==> r == ErrorData(UserNotExists)
  {
    var check := Run([IsExistsEmail(s, email)]);
    RunOne(IsExistsEmail(s, email));
    if !check.IsSuccess() then Failed(check)
    else
      match FindOne(s, (uid: Id, u: User) => u.email == email && u.status != DELETED)
      case None => ErrorData(UserNotExists)
      case Some(d) => SuccessData(d)
  }

  // ---------- add and update ----------

  /** A sign-up body. `role` and `status` stand for anything else a client
      might send; `add` copies only username, email and the hashed password. */
  datatype AddRequest = AddRequest(username: string, email: string, password: string, role: Option<Role>, status: Option<Status>)

  /** An update body; only username and password are written. */
  datatype UpdateRequest = UpdateRequest(username: string, password: Option<string>, email: Option<string>, role: Option<Role>, status: Option<Status>)

  /** The record `add` creates: whitelisted fields plus the schema defaults. */
  function NewUser(req: AddRequest, crypto: Crypto): User {
    User(req.username, req.email, crypto.hash(req.password), DefaultRole, DefaultStatus)
  }

  /** add: both uniqueness checks in order, then the create. `newId` is the
      fresh ObjectId the store assigns. */
  function Add(s: Store, req: AddRequest, crypto: Crypto, newId: Id): (e: Effect<DataResult<User>>)
    requires newId !in s.users
    ensures e.result.IsSuccess() <==> !UsernameHeld(s, req.username, None) && !EmailHeld(s, req.email)
    ensures UsernameHeld(s, req.username, None) ==> e.result == ErrorData(UsernameTaken)
    ensures !UsernameHeld(s, req.username, None) && EmailHeld(s, req.email) ==> e.result == ErrorData(EmailTaken)
    ensures !e.result.IsSuccess() ==> e.store == s
    ensures e.result.IsSuccess() ==>
      && e.store.users == s.users[newId := e.result.data]
      && e.store.posts == s.posts
      && e.result.data.username == req.username
      && e.result.data.email == req.email
      && e.result.data.password == crypto.hash(req.password)
      && e.result.data.role == Some(USER)
      && e.result.data.status == PASSIVE
  {
    var a := IsUsernameUnique(s, req.username, None);
    var b := IsEmailUnique(s, req.email);
    RunTwo(a, b);
    var check := Run([a, b]);
    if !check.IsSuccess() then Effect(Failed(check), s)
    else
      var u := NewUser(req, crypto);
      Effect(SuccessData(u), PutUser(s, newId, u))
  }

  /** The password `update` writes: nothing new when none is sent, the raw
      value when it is empty or already compares equal to the stored hash,
      otherwise its hash. */
  function NewPassword(submitted: Option<string>, current: string, crypto: Crypto): (r: string)
    ensures submitted.None? ==> r == current
    ensures submitted.Some? ==> r == submitted.value || r == crypto.hash(submitted.value)
    ensures Sound(crypto) && submitted.Some? && submitted.value != "" && !crypto.compare(submitted.value, current) ==>
      crypto.compare(submitted.value, r)
    ensures submitted.Some? && crypto.compare(submitted.value, current) ==> r == submitted.value
  {
    match submitted
    case None => current
    case Some(p) => if p != "" && !crypto.compare(p, current) then crypto.hash(p) else p
  }

  /** update's checks: existence, permission, then username uniqueness
      excluding the user itself. */
  function UpdateChecks(s: Store, id: Id, req: UpdateRequest, actor: TokenPayload): (r: Result)
    ensures r.IsSuccess() <==>
      Live(s, id) && (actor.id == id || Outranks(actor.role, s.users[id].role)) && !UsernameHeld(s, req.username, Some(id))
    ensures r.IsSuccess() || r.ErrorResult?
    ensures !Live(s, id) ==> r == ErrorResult(UserNotExists)
  {
    var a := IsExists(s, id);
    var b := IsUserAllowedForOperation(s, id, actor);
    var c := IsUsernameUnique(s, req.username, Some(id));
    RunThree(a, b, c);
    Run([a, b, c])
  }

  /** update, as written: after the checks, a write of username and password
      only, where the password is chosen by `NewPassword`. */
  function Update(s: Store, id: Id, req: UpdateRequest, actor: TokenPayload, crypto: Crypto): (e: Effect<Result>)
    ensures e.result == UpdateChecks(s, id, req, actor)
    ensures !e.result.IsSuccess() ==> e.store == s
    ensures e.result.IsSuccess() ==>
      var prev := s.users[id];
      && id in e.store.users
      && var next := e.store.users[id];
      && e.store.users == s.users[id := next]
      && e.store.posts == s.posts
      && next.username == req.username
      && next.email == prev.email && next.role == prev.role && next.status == prev.status
      && (req.password.None? ==> next.password == prev.password)
      && (req.password.Some? && req.password.value != "" && !crypto.compare(req.password.value, prev.password) ==>
            next.password == crypto.hash(req.password.value))
      && (req.password.Some? && (req.password.value == "" || crypto.compare(req.password.value, prev.password)) ==>
            next.password == req.password.value)
  {
    var check := UpdateChecks(s, id, req, actor);
    if !check.IsSuccess() then Effect(check, s)
    else
      var prev := s.users[id];
      Effect(SuccessResult, PutUser(s, id, prev.(username := req.username, password := NewPassword(req.password, prev.password, crypto))))
  }

  /** The password update evidently means to store: the current hash when the
      submitted password already matches it, otherwise a fresh hash. An empty
      password is still written as it is. */
  function NewPasswordIntended(submitted: Option<string>, current: string, crypto: Crypto): (r: string)
    ensures submitted.None? ==> r == current
    ensures submitted == Some("") ==> r == ""
    ensures Sound(crypto) && submitted.Some? && submitted.value != "" ==> crypto.compare(submitted.value, r)
    ensures submitted.Some? && submitted.value != "" && crypto.compare(submitted.value, current) ==> r == current
  {
    match submitted
    case None => current
    case Some(p) => if p == "" then p else if crypto.compare(p, current) then current else crypto.hash(p)
  }

  /** update as evidently intended: the same checks and frame, and a non-empty
      submitted password always compares equal to what is stored afterwards. */
  function UpdateIntended(s: Store, id: Id, req: UpdateRequest, actor: TokenPayload, crypto: Crypto): (e: Effect<Result>)
    ensures e.result == UpdateChecks(s, id, req, actor)
    ensures !e.result.IsSuccess() ==> e.store == s
    ensures e.result.IsSuccess() ==>
      var prev := s.users[id];
      && id in e.store.users
      && var next := e.store.users[id];
      && e.store.users == s.users[id := next]
      && e.store.posts == s.posts
      && next.username == req.username
      && next.email == prev.email && next.role == prev.role && next.status == prev.status
      && (req.password.None? ==> next.password == prev.password)
      && (Sound(crypto) && req.password.Some? && req.password.value != "" ==>
            crypto.compare(req.password.value, next.password))
  {
    var check := UpdateChecks(s, id, req, actor);
    if !check.IsSuccess() then Effect(check, s)
    else
      var prev := s.users[id];
      Effect(SuccessResult, PutUser(s, id, prev.(username := req.username, password := NewPasswordIntended(req.password, prev.password, crypto))))
  }

  // ---------- role and status ----------

  /** changeRole: existence and a recognised (or null) role; no permission check. */
  function ChangeRole(s: Store, id: Id, role: RoleRequest): (e: Effect<Result>)
    ensures e.result.IsSuccess() <==> Live(s, id) && IsRolePossible(role).IsSuccess()
    ensures !Live(s, id) ==> e.result == ErrorResult(UserNotExists)
    ensures Live(s, id) && !IsRolePossible(role).IsSuccess() ==> e.result == ErrorResult(RoleNotExists)
    ensures !e.result.IsSuccess() ==> e.store == s
    ensures e.result.IsSuccess() ==> e.store == PutUser(s, id, s.users[id].(role := RequestedRole(role)))
  {
    var a := IsExists(s, id);
    var b := IsRolePossible(role);
    RunTwo(a, b);
    var check := Run([a, b]);
    if !check.IsSuccess() then Effect(check, s)
    else Effect(SuccessResult, PutUser(s, id, s.users[id].(role := RequestedRole(role))))
  }

  /** changeRole with isRolePossible as evidently intended: only the
      enumeration's own keys (or null) are accepted, so every role it writes
      is one the permission rules know. */
  function ChangeRoleIntended(s: Store, id: Id, role: RoleRequest): (e: Effect<Result>)
    ensures e.result.IsSuccess() <==> Live(s, id) && (role.NullRole? || role.name in EnumKeys)
    ensures !Live(s, id) ==> e.result == ErrorResult(UserNotExists)
    ensures Live(s, id) && role.RoleName? && role.name !in EnumKeys ==> e.result == ErrorResult(RoleNotExists)
    ensures !e.result.IsSuccess() ==> e.store == s
    ensures e.result.IsSuccess() ==> e.store == PutUser(s, id, s.users[id].(role := RequestedRole(role)))
    ensures e.result.IsSuccess() ==> e.store.users[id].role.None? || IsEnumRole(e.store.users[id].role.value)
  {
    var a := IsExists(s, id);
    var b := IsRoleKey(role);
    RunTwo(a, b);
    var check := Run([a, b]);
    if !check.IsSuccess() then Effect(check, s)
    else Effect(SuccessResult, PutUser(s, id, s.users[id].(role := RequestedRole(role))))
  }

  /** As written, changeRole(id, "toString") succeeds and stores the inherited
      name as the user's role; the intended version refuses the request and
      leaves the store alone. */
  lemma PrototypeNameBecomesRole(s: Store, id: Id)
    requires Live(s, id)
    ensures ChangeRole(s, id, RoleName("toString")).result.IsSuccess()
    ensures ChangeRole(s, id, RoleName("toString")).store.users[id].role == Some(Inherited(ToString))
    ensures ChangeRoleIntended(s, id, RoleName("toString")) == Effect(ErrorResult(RoleNotExists), s)
  {
    PrototypeNameAccepted();
  }

  function SetStatus(s: Store, id: Id, status: Status): (t: Store)
    requires id in s.users
    ensures t == PutUser(s, id, s.users[id].(status := status))
  {
    PutUser(s, id, s.users[id].(status := status))
  }

  /** suspend: existence, then canChange, then status SUSPENDED. */
  function Suspend(s: Store, id: Id, actor: TokenPayload): (e: Effect<Result>)
    ensures e.result.IsSuccess() <==> Live(s, id) && Outranks(actor.role, s.users[id].role)
    ensures e.result.IsSuccess() || e.result.ErrorResult?
    ensures !Live(s, id) ==> e.result == ErrorResult(UserNotExists)
    ensures !e.result.IsSuccess() ==> e.store == s
    ensures e.result.IsSuccess() ==> e.store == SetStatus(s, id, SUSPENDED)
  {
    var a := IsExists(s, id);
    var b := CanChange(s, id, Some(actor));
    RunTwo(a, b);
    var check := Run([a, b]);
    if !check.IsSuccess() then Effect(check, s) else Effect(SuccessResult, SetStatus(s, id, SUSPENDED))
  }

  /** activate: existence, then canChange, then status ACTIVE. Called without
      an actor, canChange throws. */
  function Activate(s: Store, id: Id, actor: Option<TokenPayload>): (e: Effect<Result>)
    ensures e.result.IsSuccess() <==> Live(s, id) && actor.Some? && Outranks(actor.value.role, s.users[id].role)
    ensures !Live(s, id) ==> e.result == ErrorResult(UserNotExists)
    ensures Live(s, id) && actor.None? ==> e.result == Exception(TypeError)
    ensures !e.result.IsSuccess() ==> e.store == s
    ensures e.result.IsSuccess() ==> e.store == SetStatus(s, id, ACTIVE)
  {
    var a := IsExists(s, id);
    var b := CanChange(s, id, actor);
    RunTwo(a, b);
    var check := Run([a, b]);
    if !check.IsSuccess() then Effect(check, s) else Effect(SuccessResult, SetStatus(s, id, ACTIVE))
  }

  /** selfActivate: existence only, then status ACTIVE. */
  function SelfActivate(s: Store, id: Id): (e: Effect<Result>)
    ensures e.result.IsSuccess() <==> Live(s, id)
    ensures !e.result.IsSuccess() ==> e == Effect(ErrorResult(UserNotExists), s)
    ensures e.result.IsSuccess() ==> e.store == SetStatus(s, id, ACTIVE)
  {
    var check := Run([IsExists(s, id)]);
    RunOne(IsExists(s, id));
    if !check.IsSuccess() then Effect(check, s) else Effect(SuccessResult, SetStatus(s, id, ACTIVE))
  }

  /** remove: existence only, then the soft delete. */
  function Remove(s: Store, id: Id): (e: Effect<Result>)
    ensures e.result.IsSuccess() <==> Live(s, id)
    ensures !e.result.IsSuccess() ==> e == Effect(ErrorResult(UserNotExists), s)
    ensures e.result.IsSuccess() ==> e.store == SetStatus(s, id, DELETED)
  {
    var check := Run([IsExists(s, id)]);
    RunOne(IsExists(s, id));
    if !check.IsSuccess() then Effect(check, s) else Effect(SuccessResult, SetStatus(s, id, DELETED))
  }

  // ---------- purge ----------

  /** The three store writes of the purge cascade, in order. */
  datatype PurgeStep = DeletePosts | PullComments | DeleteUser

  /** `deleteMany({owner: id})` on posts. */
  function WithoutPostsOf(posts: map<Id, Post>, id: Id): (r: map<Id, Post>)
    ensures forall pid :: pid in r <==> pid in posts && posts[pid].owner != id
    ensures forall pid :: pid in r ==> r[pid] == posts[pid]
  {
    map pid | pid in posts && posts[pid].owner != id :: posts[pid]
  }

  function NotBy(id: Id): Comment -> bool {
    (c: Comment) => c.owner != Some(id)
  }

  /** `updateMany({}, {$pull: {comments: {owner: id}}}, {timestamps: false})`. */
  function WithoutCommentsOf(posts: map<Id, Post>, id: Id): (r: map<Id, Post>)
    ensures r.Keys == posts.Keys
    ensures forall pid :: pid in r ==> r[pid] == posts[pid].(comments := Seqs.Filter(posts[pid].comments, NotBy(id)))
  {
    map pid | pid in posts :: posts[pid].(comments := Seqs.Filter(posts[pid].comments, NotBy(id)))
  }

  /** purge: the permission rule alone (no existence check), then the cascade.
      `fault` names the first store write that throws, if any; the writes
      before it stay done and the caller sees only "Operation failed". */
  function Purge(s: Store, id: Id, actor: TokenPayload, fault: Option<PurgeStep>): (e: Effect<Result>)
    ensures !IsUserAllowedForOperation(s, id, actor).IsSuccess() ==> e == Effect(IsUserAllowedForOperation(s, id, actor), s)
    ensures e.result.IsSuccess() <==> IsUserAllowedForOperation(s, id, actor).IsSuccess() && fault.None?
    ensures IsUserAllowedForOperation(s, id, actor).IsSuccess() && fault.Some? ==> e.result == ErrorResult(OperationFailed)
    ensures fault == Some(DeletePosts) ==> e.store == s
    ensures IsUserAllowedForOperation(s, id, actor).IsSuccess() && fault == Some(PullComments) ==>
      e.store == s.(posts := WithoutPostsOf(s.posts, id))
    ensures IsUserAllowedForOperation(s, id, actor).IsSuccess() && fault == Some(DeleteUser) ==>
      e.store == s.(posts := WithoutCommentsOf(WithoutPostsOf(s.posts, id), id))
    ensures e.result.IsSuccess() ==>
      && e.store.users == s.users - {id}
      && (forall pid :: pid in e.store.posts <==> pid in s.posts && s.posts[pid].owner != id)
      && (forall pid :: pid in e.store.posts ==> e.store.posts[pid].owner != id)
      && (forall pid, c :: pid in e.store.posts && c in e.store.posts[pid].comments ==> c.owner != Some(id))
      && (forall pid :: pid in e.store.posts ==>
            && e.store.posts[pid] == s.posts[pid].(comments := e.store.posts[pid].comments)
            && (forall c :: c in e.store.posts[pid].comments <==> c in s.posts[pid].comments && c.owner != Some(id)))
  {
    var check := Run([IsUserAllowedForOperation(s, id, actor)]);
    RunOne(IsUserAllowedForOperation(s, id, actor));
    if !check.IsSuccess() then Effect(check, s)
    else
      var afterPosts := s.(posts := WithoutPostsOf(s.posts, id));
      var afterComments := afterPosts.(posts := WithoutCommentsOf(afterPosts.posts, id));
      var afterUser := afterComments.(users := afterComments.users - {id});
      match fault
      case Some(DeletePosts) => Effect(ErrorResult(OperationFailed), s)
      case Some(PullComments) => Effect(ErrorResult(OperationFailed), afterPosts)
      case Some(DeleteUser) => Effect(ErrorResult(OperationFailed), afterComments)
      case None => Effect(SuccessResult, afterUser)
  }
}
