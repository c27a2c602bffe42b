/** Store-wide invariants the services keep between requests: usernames unique
    among non-deleted users, e-mails unique among all users, one like per user
    on every post. Each service operation, as one command, preserves them,
    except that a post update carrying its own likes array can duplicate a
    like. */
module Consistency {
  import opened Results
  import opened UserModel
  import opened PostModel
  import opened Storage
  import opened UserRules
  import UserService
  import AuthService
  import PostService
  import Seqs

  ghost predicate UsernamesUnique(s: Store) {
    forall a, b :: Live(s, a) && Live(s, b) && s.users[a].username == s.users[b].username ==> a == b
  }

  ghost predicate EmailsUnique(s: Store) {
    forall a, b :: a in s.users && b in s.users && s.users[a].email == s.users[b].email ==> a == b
  }

  predicate LikesUnique(s: Store) {
    forall pid :: pid in s.posts ==> OneLikePerUser(s.posts[pid])
  }

  ghost predicate Consistent(s: Store) {
    UsernamesUnique(s) && EmailsUnique(s) && LikesUnique(s)
  }

  /** One request to a service, with the values the store or the clock supply. */
  datatype Command =
    | AddUser(add: UserService.AddRequest, newUserId: Id)
    | SignUp(signUp: AuthService.SignUpRequest, newUserId: Id)
    | UpdateUser(userId: Id, update: UserService.UpdateRequest, actor: TokenPayload)
    | UpdateUserIntended(userId: Id, update: UserService.UpdateRequest, actor: TokenPayload)
    | ChangeRole(userId: Id, role: RoleRequest)
    | ChangeRoleIntended(userId: Id, role: RoleRequest)
    | Suspend(userId: Id, actor: TokenPayload)
    | Activate(userId: Id, maybeActor: Option<TokenPayload>)
    | SelfActivate(userId: Id)
    | RemoveUser(userId: Id)
    | Purge(userId: Id, actor: TokenPayload, fault: Option<UserService.PurgeStep>)
    | Verify(token: Option<TokenPayload>)
    | VerifyIntended(token: Option<TokenPayload>)
    | AddPost(input: PostInput, actor: TokenPayload, newPostId: Id, now: int)
    | UpdatePost(postId: Id, patch: PostService.PostPatch, actor: TokenPayload, now: int)
    | RemovePost(postId: Id, actor: TokenPayload)
    | AddComment(postId: Id, comment: PostService.CommentInput, actor: TokenPayload, commentId: Id)
    | RemoveComment(postId: Id, commentId: Id, actor: TokenPayload)
    | AddLike(postId: Id, actor: TokenPayload)
    | RemoveLike(postId: Id, actor: TokenPayload)

  /** Ids the store assigns to new documents are fresh. */
  predicate Enabled(s: Store, c: Command) {
    match c
    case AddUser(_, newId) => newId !in s.users
    case SignUp(_, newId) => newId !in s.users
    case AddPost(_, _, newId, _) => newId !in s.posts
    case _ => true
  }

  /** The store a command leaves behind. Update, changeRole and verify come
      both as written and in their corrected forms. Across every command: a
      soft-deleted user record never changes, user records only disappear
      through purge, post records only through purge and post removal, and no
      e-mail is ever rewritten, so an e-mail once registered stays taken. */
  function Next(s: Store, c: Command, crypto: Crypto): (t: Store)
    requires Enabled(s, c)
    ensures forall uid :: uid in s.users && s.users[uid].status == DELETED && uid in t.users ==> t.users[uid] == s.users[uid]
    ensures !c.Purge? ==> s.users.Keys <= t.users.Keys
    ensures !c.Purge? && !c.RemovePost? ==> s.posts.Keys <= t.posts.Keys
    ensures forall uid :: uid in s.users && uid in t.users ==> t.users[uid].email == s.users[uid].email
  {
    match c
    case AddUser(req, newId) => UserService.Add(s, req, crypto, newId).store
    case SignUp(req, newId) => AuthService.SignUp(s, req, crypto, newId).store
    case UpdateUser(id, req, actor) => UserService.Update(s, id, req, actor, crypto).store
    case UpdateUserIntended(id, req, actor) => UserService.UpdateIntended(s, id, req, actor, crypto).store
    case ChangeRole(id, role) => UserService.ChangeRole(s, id, role).store
    case ChangeRoleIntended(id, role) => UserService.ChangeRoleIntended(s, id, role).store
    case Suspend(id, actor) => UserService.Suspend(s, id, actor).store
    case Activate(id, actor) => UserService.Activate(s, id, actor).store
    case SelfActivate(id) => UserService.SelfActivate(s, id).store
    case RemoveUser(id) => UserService.Remove(s, id).store
    case Purge(id, actor, fault) => UserService.Purge(s, id, actor, fault).store
    case Verify(token) => AuthService.Verify(s, token).store
    case VerifyIntended(token) => AuthService.VerifyIntended(s, token).store
    case AddPost(input, actor, newId, now) => PostService.Add(s, input, actor, newId, now).store
    case UpdatePost(pid, patch, actor, now) => PostService.Update(s, pid, patch, actor, now).store
    case RemovePost(pid, actor) => PostService.Remove(s, pid, actor).store
    case AddComment(pid, input, actor, cid) => PostService.AddComment(s, pid, input, actor, cid).store
    case RemoveComment(pid, cid, actor) => PostService.RemoveComment(s, pid, cid, actor).store
    case AddLike(pid, actor) => PostService.AddLike(s, pid, actor).store
    case RemoveLike(pid, actor) => PostService.RemoveLike(s, pid, actor).store
  }

  // ---------- frames ----------

  /** Users only shrink or lose liveness, names and e-mails fixed: both
      uniqueness rules survive. */
  lemma UsersShrink(s: Store, t: Store)
    requires UsernamesUnique(s) && EmailsUnique(s)
    requires forall uid :: uid in t.users ==>
      && uid in s.users
      && t.users[uid].username == s.users[uid].username
      && t.users[uid].email == s.users[uid].email
      && (t.users[uid].status != DELETED ==> s.users[uid].status != DELETED)
    ensures UsernamesUnique(t) && EmailsUnique(t)
  {
  }

  /** Posts only shrink, likes fixed: one like per user survives. */
  lemma PostsShrink(s: Store, t: Store)
    requires LikesUnique(s)
    requires forall pid :: pid in t.posts ==> pid in s.posts && t.posts[pid].likes == s.posts[pid].likes
    ensures LikesUnique(t)
  {
  }

  /** A status change on a live user keeps both uniqueness rules. */
  lemma StatusChangeKeeps(s: Store, id: Id, status: Status)
    requires UsernamesUnique(s) && EmailsUnique(s) && Live(s, id)
    ensures var t := UserService.SetStatus(s, id, status);
      UsernamesUnique(t) && EmailsUnique(t)
  {
    var t := UserService.SetStatus(s, id, status);
    if status == DELETED {
      UsersShrink(s, t);
    } else {
      assert forall uid :: Live(t, uid) ==> Live(s, uid);
    }
  }

  /** A user added under a name no live user holds and an e-mail nobody holds
      keeps both uniqueness rules. */
  lemma FreshUserKeeps(s: Store, newId: Id, u: User)
    requires UsernamesUnique(s) && EmailsUnique(s)
    requires newId !in s.users
    requires !UsernameHeld(s, u.username, None) && !EmailHeld(s, u.email)
    ensures UsernamesUnique(PutUser(s, newId, u)) && EmailsUnique(PutUser(s, newId, u))
  {
    var t := PutUser(s, newId, u);
    assert forall uid :: Live(s, uid) ==> s.users[uid].username != u.username;
    assert forall uid :: uid in s.users ==> s.users[uid].email != u.email;
    assert forall uid :: Live(t, uid) && uid != newId ==> Live(s, uid) && t.users[uid] == s.users[uid];
  }

  /** A renamed live user whose new name no other live user holds keeps both
      uniqueness rules, the e-mail and status being unchanged. */
  lemma RenameKeeps(s: Store, id: Id, u: User)
    requires UsernamesUnique(s) && EmailsUnique(s) && Live(s, id)
    requires u.email == s.users[id].email && u.status == s.users[id].status
    requires !UsernameHeld(s, u.username, Some(id))
    ensures UsernamesUnique(PutUser(s, id, u)) && EmailsUnique(PutUser(s, id, u))
  {
    var t := PutUser(s, id, u);
    assert forall uid :: Live(s, uid) && uid != id ==> s.users[uid].username != u.username;
    assert forall uid :: uid in t.users ==> uid in s.users && t.users[uid].email == s.users[uid].email;
    assert forall uid :: Live(t, uid) ==> Live(s, uid);
  }

  /** Replacing one post by one whose likes are duplicate-free keeps the rule. */
  lemma PostReplaceKeeps(s: Store, pid: Id, p: Post)
    requires LikesUnique(s) && OneLikePerUser(p)
    ensures LikesUnique(PutPost(s, pid, p))
  {
  }

  // ---------- preservation, command by command ----------

  /** Commands that create, rename or re-role an account. */
  lemma AccountCommandKeeps(s: Store, c: Command, crypto: Crypto)
    requires Enabled(s, c) && Consistent(s)
    requires c.AddUser? || c.SignUp? || c.UpdateUser? || c.UpdateUserIntended? || c.ChangeRole? || c.ChangeRoleIntended?
    ensures Consistent(Next(s, c, crypto))
  {
    var t := Next(s, c, crypto);
    match c
    case AddUser(req, newId) =>
      var e := UserService.Add(s, req, crypto, newId);
      if e.result.IsSuccess() {
        FreshUserKeeps(s, newId, e.result.data);
      }
    case SignUp(req, newId) =>
      var e := AuthService.SignUp(s, req, crypto, newId);
      if e.result.IsSuccess() {
        FreshUserKeeps(s, newId, User(req.username, req.email, crypto.hash(req.password), Some(USER), PASSIVE));
      }
    case UpdateUser(id, req, actor) =>
      var e := UserService.Update(s, id, req, actor, crypto);
      if e.result.IsSuccess() {
        RenameKeeps(s, id, e.store.users[id]);
      }
    case UpdateUserIntended(id, req, actor) =>
      var e := UserService.UpdateIntended(s, id, req, actor, crypto);
      if e.result.IsSuccess() {
        RenameKeeps(s, id, e.store.users[id]);
      }
    case ChangeRole(id, role) =>
      if UserService.ChangeRole(s, id, role).result.IsSuccess() {
        UsersShrink(s, t);
      }
    case ChangeRoleIntended(id, role) =>
      if UserService.ChangeRoleIntended(s, id, role).result.IsSuccess() {
        UsersShrink(s, t);
      }
  }

  /** Commands that only move an account between statuses. */
  lemma StatusCommandKeeps(s: Store, c: Command, crypto: Crypto)
    requires Enabled(s, c) && Consistent(s)
    requires c.Suspend? || c.Activate? || c.SelfActivate? || c.RemoveUser? || c.Verify? || c.VerifyIntended?
    ensures Consistent(Next(s, c, crypto))
  {
    match c
    case Suspend(id, actor) =>
      if UserService.Suspend(s, id, actor).result.IsSuccess() {
        StatusChangeKeeps(s, id, SUSPENDED);
      }
    case Activate(id, actor) =>
      if UserService.Activate(s, id, actor).result.IsSuccess() {
        StatusChangeKeeps(s, id, ACTIVE);
      }
    case SelfActivate(id) =>
      if UserService.SelfActivate(s, id).result.IsSuccess() {
        StatusChangeKeeps(s, id, ACTIVE);
      }
    case RemoveUser(id) =>
      if UserService.Remove(s, id).result.IsSuccess() {
        StatusChangeKeeps(s, id, DELETED);
      }
    case Verify(token) =>
    case VerifyIntended(token) =>
      if AuthService.VerifyIntended(s, token).result.IsSuccess() {
        StatusChangeKeeps(s, token.value.id, ACTIVE);
      }
  }

  lemma PurgeKeeps(s: Store, id: Id, actor: TokenPayload, fault: Option<UserService.PurgeStep>, crypto: Crypto)
    requires Consistent(s)
    ensures Consistent(Next(s, Purge(id, actor, fault), crypto))
  {
    var t := Next(s, Purge(id, actor, fault), crypto);
    var allowed := IsUserAllowedForOperation(s, id, actor).IsSuccess();
    var afterPosts := UserService.WithoutPostsOf(s.posts, id);
    if allowed && fault != Some(UserService.DeletePosts) {
      assert forall pid :: pid in t.posts ==> pid in s.posts && t.posts[pid].likes == s.posts[pid].likes;
    }
    PostsShrink(s, t);
    UsersShrink(s, t);
  }

  /** A likes array sent with a post update is the one exception to the likes
      rule. */
  predicate CarriesDuplicateLikes(c: Command) {
    c.UpdatePost? && c.patch.likes.Some? && !Seqs.NoDuplicates(c.patch.likes.value)
  }

  /** Commands that create, edit or delete a post. */
  lemma PostEditKeeps(s: Store, c: Command, crypto: Crypto)
    requires Enabled(s, c) && Consistent(s)
    requires c.AddPost? || c.UpdatePost? || c.RemovePost?
    ensures UsernamesUnique(Next(s, c, crypto)) && EmailsUnique(Next(s, c, crypto))
    ensures !CarriesDuplicateLikes(c) ==> LikesUnique(Next(s, c, crypto))
  {
    var t := Next(s, c, crypto);
    match c
    case AddPost(input, actor, newId, now) =>
      var e := PostService.Add(s, input, actor, newId, now);
      if e.result.IsSuccess() {
        PostReplaceKeeps(s, newId, e.result.data);
      }
    case UpdatePost(pid, patch, actor, now) =>
      var e := PostService.Update(s, pid, patch, actor, now);
      if e.result.IsSuccess() && !CarriesDuplicateLikes(c) {
        PostReplaceKeeps(s, pid, e.store.posts[pid]);
      }
    case RemovePost(pid, actor) =>
      PostsShrink(s, t);
  }

  /** Commands on a post's comments and likes. */
  lemma ReactionKeeps(s: Store, c: Command, crypto: Crypto)
    requires Enabled(s, c) && Consistent(s)
    requires c.AddComment? || c.RemoveComment? || c.AddLike? || c.RemoveLike?
    ensures Consistent(Next(s, c, crypto))
  {
    match c
    case AddComment(pid, input, actor, cid) =>
      var e := PostService.AddComment(s, pid, input, actor, cid);
      if e.result.IsSuccess() {
        PostReplaceKeeps(s, pid, e.store.posts[pid]);
      }
    case RemoveComment(pid, cid, actor) =>
      var e := PostService.RemoveComment(s, pid, cid, actor);
      if e.result.IsSuccess() {
        PostReplaceKeeps(s, pid, e.store.posts[pid]);
      }
    case AddLike(pid, actor) =>
      var e := PostService.AddLike(s, pid, actor);
      if e.result.IsSuccess() {
        var p := s.posts[pid];
        assert Like(actor.id) !in p.likes;
        Seqs.PushNoDuplicates(p.likes, Like(actor.id));
        PostReplaceKeeps(s, pid, e.store.posts[pid]);
      }
    case RemoveLike(pid, actor) =>
      var e := PostService.RemoveLike(s, pid, actor);
      if e.result.IsSuccess() {
        var p := s.posts[pid];
        Seqs.FilterNoDuplicates(p.likes, PostService.NotLikeOf(actor.id));
        PostReplaceKeeps(s, pid, e.store.posts[pid]);
      }
  }

  /** Every command keeps the store consistent, save a post update whose
      body brings a likes array with a repeated like. */
  lemma NextKeepsConsistent(s: Store, c: Command, crypto: Crypto)
    requires Enabled(s, c) && Consistent(s)
    ensures UsernamesUnique(Next(s, c, crypto)) && EmailsUnique(Next(s, c, crypto))
    ensures !CarriesDuplicateLikes(c) ==> Consistent(Next(s, c, crypto))
  {
    if c.Purge? {
      PurgeKeeps(s, c.userId, c.actor, c.fault, crypto);
    } else if c.AddPost? || c.UpdatePost? || c.RemovePost? {
      PostEditKeeps(s, c, crypto);
    } else if c.AddComment? || c.RemoveComment? || c.AddLike? || c.RemoveLike? {
      ReactionKeeps(s, c, crypto);
    } else if c.Suspend? || c.Activate? || c.SelfActivate? || c.RemoveUser? || c.Verify? || c.VerifyIntended? {
      StatusCommandKeeps(s, c, crypto);
    } else {
      AccountCommandKeeps(s, c, crypto);
    }
  }

  /** After a successful post update that sends likes, one like per user
      holds exactly when the sent array repeats no like: the exception in
      NextKeepsConsistent is real. */
  lemma UpdatedLikesDecide(s: Store, pid: Id, patch: PostService.PostPatch, actor: TokenPayload, now: int)
    requires LikesUnique(s)
    requires PostService.Update(s, pid, patch, actor, now).result.IsSuccess()
    requires patch.likes.Some?
    ensures LikesUnique(PostService.Update(s, pid, patch, actor, now).store) <==> Seqs.NoDuplicates(patch.likes.value)
  {
    var t := PostService.Update(s, pid, patch, actor, now).store;
    assert pid in t.posts && t.posts[pid].likes == patch.likes.value;
    if Seqs.NoDuplicates(patch.likes.value) {
      PostReplaceKeeps(s, pid, t.posts[pid]);
    }
  }

  // ---------- consequences ----------

  /** With usernames unique, login no longer depends on which record the
      lookup picks: it is decided by the one live holder of the name. */
  lemma LoginOfHolder(s: Store, uid: Id, req: AuthService.LoginRequest, crypto: Crypto)
    requires UsernamesUnique(s)
    requires Live(s, uid) && s.users[uid].username == req.username
    ensures var u := s.users[uid];
      && (u.status == PASSIVE ==> AuthService.Login(s, req, crypto) == ErrorData(AuthService.PendingActivation))
      && (u.status == SUSPENDED ==> AuthService.Login(s, req, crypto) == ErrorData(AuthService.UserSuspended))
      && (u.status == ACTIVE ==>
            AuthService.Login(s, req, crypto) ==
              if crypto.compare(req.password, u.password) then SuccessData(AuthService.PayloadOf(UserDoc(uid, u)))
              else ErrorData(AuthService.LoginFailed))
  {
    var found := UserService.GetByUsername(s, req.username);
    assert found.IsSuccess();
    assert found.data.id == uid;
  }

  /** With the corrected update, an active user who sets a non-empty password
      logs in with it afterwards, under the new name. */
  lemma UpdatedPasswordLogsIn(s: Store, id: Id, req: UserService.UpdateRequest, actor: TokenPayload, crypto: Crypto)
    requires Consistent(s) && Sound(crypto)
    requires UserService.UpdateIntended(s, id, req, actor, crypto).result.IsSuccess()
    requires s.users[id].status == ACTIVE
    requires req.password.Some? && req.password.value != ""
    ensures var t := UserService.UpdateIntended(s, id, req, actor, crypto).store;
      AuthService.Login(t, AuthService.LoginRequest(req.username, req.password.value), crypto)
        == SuccessData(AuthService.PayloadOf(UserDoc(id, t.users[id])))
  {
    var t := UserService.UpdateIntended(s, id, req, actor, crypto).store;
    RenameKeeps(s, id, t.users[id]);
    LoginOfHolder(t, id, AuthService.LoginRequest(req.username, req.password.value), crypto);
  }

  /** An e-mail held by any record, soft-deleted ones included, is still held
      after any command except purge. */
  lemma EmailStaysTaken(s: Store, c: Command, crypto: Crypto, email: string)
    requires Enabled(s, c) && !c.Purge?
    requires EmailHeld(s, email)
    ensures EmailHeld(Next(s, c, crypto), email)
  {
    var uid :| uid in s.users && s.users[uid].email == email;
    var t := Next(s, c, crypto);
    assert uid in t.users && t.users[uid].email == email;
  }

  /** Removing an account does not free its e-mail: signing up again with it
      fails. */
  lemma RemovedEmailCannotSignUp(s: Store, id: Id, req: AuthService.SignUpRequest, crypto: Crypto, newId: Id)
    requires id in s.users && req.email == s.users[id].email
    requires newId !in Next(s, RemoveUser(id), crypto).users
    ensures !AuthService.SignUp(Next(s, RemoveUser(id), crypto), req, crypto, newId).result.IsSuccess()
  {
    EmailStaysTaken(s, RemoveUser(id), crypto, req.email);
  }

  /** With e-mails unique, resending verification is decided by the one
      record holding the e-mail: a deleted or unknown holder gets "User not
      exists", an active one "User is already active", anyone else a mail. */
  lemma SendVerificationOfHolder(s: Store, uid: Id)
    requires EmailsUnique(s) && uid in s.users
    ensures var u := s.users[uid];
      AuthService.SendVerification(s, u.email) ==
        if u.status == DELETED then ErrorResult(AuthService.NoSuchUser)
        else if u.status == ACTIVE then ErrorResult(AuthService.UserAlreadyActive)
        else SuccessResult
  {
    var email := s.users[uid].email;
    assert forall other :: other in s.users && s.users[other].email == email ==> other == uid;
  }
}
