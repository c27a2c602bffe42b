/** The post service's reads and mutations as store transitions, as its unit
    tests pin them down (test/unit/services/posts.service.test.ts). */
module PostService {
  import opened Results
  import opened UserModel
  import opened PostModel
  import opened Storage
  import opened UserRules
  import opened PostRules
  import opened BusinessRunner
  import Seqs

  // ---------- list filters ----------

  /** The filter a list read hands to `find`: an optional owner, the accepted
      visibilities and categories, and whether comments are projected in. */
  datatype ListQuery = ListQuery(owner: Option<Id>, visibilities: set<Visibility>, categories: set<Category>, withComments: bool)

  /** getAll's filter: PUBLIC and every category unless given, comments left out.
      `allCategories` is the value set of the Category enumeration. */
  function GetAllQuery(visibilities: Option<set<Visibility>>, categories: Option<set<Category>>, allCategories: set<Category>): (q: ListQuery)
    ensures q.owner.None? && !q.withComments
    ensures visibilities.None? ==> q.visibilities == {PUBLIC}
    ensures visibilities.Some? ==> q.visibilities == visibilities.value
    ensures categories.None? ==> q.categories == allCategories
    ensures categories.Some? ==> q.categories == categories.value
  {
    ListQuery(None, visibilities.GetOr({PUBLIC}), categories.GetOr(allCategories), false)
  }

  /** getByUserId's filter: getAll's defaults plus the owner; comments are
      not projected out. */
  function GetByUserIdQuery(userId: Id, visibilities: Option<set<Visibility>>, categories: Option<set<Category>>, allCategories: set<Category>): (q: ListQuery)
    ensures q.owner == Some(userId) && q.withComments
    ensures q.visibilities == GetAllQuery(visibilities, categories, allCategories).visibilities
    ensures q.categories == GetAllQuery(visibilities, categories, allCategories).categories
  {
    ListQuery(Some(userId), visibilities.GetOr({PUBLIC}), categories.GetOr(allCategories), true)
  }

  predicate Matches(q: ListQuery, p: Post) {
    && (q.owner.None? || p.owner == q.owner.value)
    && p.visibility in q.visibilities
    && p.category in q.categories
  }

  /** The posts a list read returns, keyed by id. */
  function List(s: Store, q: ListQuery): (r: map<Id, Post>)
    ensures forall pid :: pid in r <==> pid in s.posts && Matches(q, s.posts[pid])
    ensures forall pid :: pid in r ==> r[pid] == if q.withComments then s.posts[pid] else s.posts[pid].(comments := [])
  {
    map pid | pid in s.posts && Matches(q, s.posts[pid]) :: if q.withComments then s.posts[pid] else s.posts[pid].(comments := [])
  }

  /** The default listing is exactly the PUBLIC posts of a known category,
      without their comments. */
  lemma DefaultListingIsPublic(s: Store, allCategories: set<Category>, pid: Id)
    ensures var r := List(s, GetAllQuery(None, None, allCategories));
      && (pid in r <==> pid in s.posts && s.posts[pid].visibility == PUBLIC && s.posts[pid].category in allCategories)
      && (pid in r ==> r[pid].comments == [])
  {
  }

  /** A user's listing holds only that user's posts; asked for PRIVATE, it
      holds that user's private posts, comments included, with no requester
      involved at all. */
  lemma UserListingIsOwners(s: Store, userId: Id, vis: Option<set<Visibility>>, cats: Option<set<Category>>, allCategories: set<Category>, pid: Id)
    ensures var r := List(s, GetByUserIdQuery(userId, vis, cats, allCategories));
      && (pid in r ==> s.posts[pid].owner == userId)
      && (vis == Some({PRIVATE}) && cats.None? && pid in s.posts && s.posts[pid].owner == userId
            && s.posts[pid].visibility == PRIVATE && s.posts[pid].category in allCategories ==>
            pid in r && r[pid] == s.posts[pid])
  {
  }

  // ---------- getById ----------

  /** A user reference populated with `_id username` only. */
  datatype UserRef = UserRef(id: Id, username: string)
  datatype CommentView = CommentView(id: Id, owner: Option<UserRef>, comment: string)
  datatype PostView = PostView(
    owner: Option<UserRef>,
    header: string,
    body: string,
    image: string,
    category: Category,
    visibility: Visibility,
    comments: seq<CommentView>,
    likes: seq<Like>,
    createdAt: int,
    updatedAt: int)

  /** `populate({select: "_id username"})`: null when the user record is gone. */
  function RefTo(s: Store, uid: Id): (r: Option<UserRef>)
    ensures r.Some? <==> uid in s.users
    ensures r.Some? ==> r.value.id == uid && r.value.username == s.users[uid].username
  {
    if uid in s.users then Some(UserRef(uid, s.users[uid].username)) else None
  }

  /** A comment's populated owner: null when it has none or the user is gone. */
  function OwnerRef(s: Store, owner: Option<Id>): (r: Option<UserRef>)
    ensures r.Some? <==> owner.Some? && owner.value in s.users
    ensures r.Some? ==> r == RefTo(s, owner.value)
  {
    match owner
    case None => None
    case Some(uid) => RefTo(s, uid)
  }

  /** The returned shape of a post: owner and comment owners reduced to id and username. */
  function Project(s: Store, postId: Id): (v: PostView)
    requires postId in s.posts
    ensures var p := s.posts[postId];
      && v.owner == RefTo(s, p.owner)
      && v.header == p.header && v.body == p.body && v.image == p.image
      && v.category == p.category && v.visibility == p.visibility && v.likes == p.likes
      && v.createdAt == p.createdAt && v.updatedAt == p.updatedAt
      && |v.comments| == |p.comments|
      && forall i :: 0 <= i < |p.comments| ==>
           v.comments[i].id == p.comments[i].id && v.comments[i].comment == p.comments[i].comment
           && v.comments[i].owner == OwnerRef(s, p.comments[i].owner)
  {
    var p := s.posts[postId];
    var cs := seq(|p.comments|, i requires 0 <= i < |p.comments| =>
      CommentView(p.comments[i].id, OwnerRef(s, p.comments[i].owner), p.comments[i].comment));
    PostView(RefTo(s, p.owner), p.header, p.body, p.image, p.category, p.visibility, cs, p.likes, p.createdAt, p.updatedAt)
  }

  /** getById: existence, then the visibility resolver; a hidden post fails
      exactly like a missing one. */
  function GetById(s: Store, postId: Id, requester: Option<TokenPayload>): (r: DataResult<PostView>)
    ensures r.IsSuccess() <==> postId in s.posts && Visible(s.posts[postId].visibility, s.posts[postId].owner, requester)
    ensures r.IsSuccess() ==> r.data == Project(s, postId)
    ensures !r.IsSuccess() ==> r == ErrorData(PostNotFound)
  {
    var exists_ := IsPostExists(s, postId);
    if !exists_.IsSuccess() then Failed(exists_)
    else if Visible(s.posts[postId].visibility, s.posts[postId].owner, requester) then SuccessData(Project(s, postId))
    else ErrorData(PostNotFound)
  }

  /** A caller who may not read a post cannot tell it from an absent id. */
  lemma HiddenLooksAbsent(s: Store, postId: Id, absent: Id, requester: Option<TokenPayload>)
    requires postId in s.posts && !Visible(s.posts[postId].visibility, s.posts[postId].owner, requester)
    requires absent !in s.posts
    ensures GetById(s, postId, requester) == GetById(s, absent, requester)
  {
  }

  // ---------- add, update, remove ----------

  /** add: the author must be a non-deleted user; the post is created with
      the author as owner. `newId` is the fresh id the store assigns. */
  function Add(s: Store, input: PostInput, actor: TokenPayload, newId: Id, now: int): (e: Effect<DataResult<Post>>)
    requires newId !in s.posts
    ensures e.result.IsSuccess() <==> Live(s, actor.id) && Present(input.header) && Present(input.body) && Present(input.image)
    ensures !Live(s, actor.id) ==> e.result == ErrorData(UserNotExists)
    ensures !e.result.IsSuccess() ==> e.store == s
    ensures e.result.IsSuccess() ==>
      && e.store == PutPost(s, newId, e.result.data)
      && e.result == Create(actor.id, input, now)
      && e.result.data.owner == actor.id
  {
    var check := Run([IsExists(s, actor.id)]);
    RunOne(IsExists(s, actor.id));
    if !check.IsSuccess() then Effect(Failed(check), s)
    else
      match Create(actor.id, input, now)
      case SuccessData(p) => Effect(SuccessData(p), PutPost(s, newId, p))
      case ErrorData(m) => Effect(ErrorData(m), s)
      case ExceptionData(err) => Effect(ExceptionData(err), s)
  }

  /** An update body: the fields it sets. The body reaches the store as it
      came, so besides the editable content it may carry a new owner, comments
      or likes; the timestamps are kept by the store itself. */
  datatype PostPatch = PostPatch(
    header: Option<string>,
    body: Option<string>,
    image: Option<string>,
    category: Option<Category>,
    visibility: Option<Visibility>,
    owner: Option<Id>,
    comments: Option<seq<Comment>>,
    likes: Option<seq<Like>>)

  function Patched(p: Post, patch: PostPatch, now: int): Post {
    p.(header := patch.header.GetOr(p.header),
       body := patch.body.GetOr(p.body),
       image := patch.image.GetOr(p.image),
       category := patch.category.GetOr(p.category),
       visibility := patch.visibility.GetOr(p.visibility),
       owner := patch.owner.GetOr(p.owner),
       comments := patch.comments.GetOr(p.comments),
       likes := patch.likes.GetOr(p.likes),
       updatedAt := now)
  }

  /** update: existence, then ownership unless privileged, then the body as
      sent (timestamps updated). The author's user record is not consulted. */
  function Update(s: Store, postId: Id, patch: PostPatch, actor: TokenPayload, now: int): (e: Effect<Result>)
    ensures e.result.IsSuccess() <==> postId in s.posts && (Privileged(actor) || s.posts[postId].owner == actor.id)
    ensures postId !in s.posts ==> e.result == ErrorResult(PostNotFound)
    ensures !e.result.IsSuccess() ==> e.store == s && e.result.ErrorResult?
    ensures e.result.IsSuccess() ==>
      var p := s.posts[postId];
      && postId in e.store.posts
      && var q := e.store.posts[postId];
      && e.store == PutPost(s, postId, q)
      && q.createdAt == p.createdAt && q.updatedAt == now
      && (patch.header.Some? ==> q.header == patch.header.value) && (patch.header.None? ==> q.header == p.header)
      && (patch.body.Some? ==> q.body == patch.body.value) && (patch.body.None? ==> q.body == p.body)
      && (patch.image.Some? ==> q.image == patch.image.value) && (patch.image.None? ==> q.image == p.image)
      && (patch.category.Some? ==> q.category == patch.category.value) && (patch.category.None? ==> q.category == p.category)
      && (patch.visibility.Some? ==> q.visibility == patch.visibility.value) && (patch.visibility.None? ==> q.visibility == p.visibility)
      && (patch.owner.Some? ==> q.owner == patch.owner.value) && (patch.owner.None? ==> q.owner == p.owner)
      && (patch.comments.Some? ==> q.comments == patch.comments.value) && (patch.comments.None? ==> q.comments == p.comments)
      && (patch.likes.Some? ==> q.likes == patch.likes.value) && (patch.likes.None? ==> q.likes == p.likes)
  {
    var a := IsPostExists(s, postId);
    var b := IsPostOwner(s, postId, actor);
    RunTwo(a, b);
    var check := Run([a, b]);
    if !check.IsSuccess() then Effect(check, s)
    else Effect(SuccessResult, PutPost(s, postId, Patched(s.posts[postId], patch, now)))
  }

  /** remove: existence, then ownership unless privileged, then the hard delete. */
  function Remove(s: Store, postId: Id, actor: TokenPayload): (e: Effect<Result>)
    ensures e.result.IsSuccess() <==> postId in s.posts && (Privileged(actor) || s.posts[postId].owner == actor.id)
    ensures postId !in s.posts ==> e.result == ErrorResult(PostNotFound)
    ensures !e.result.IsSuccess() ==> e.store == s && e.result.ErrorResult?
    ensures e.result.IsSuccess() ==> e.store.posts == s.posts - {postId} && e.store.users == s.users
  {
    var a := IsPostExists(s, postId);
    var b := IsPostOwner(s, postId, actor);
    RunTwo(a, b);
    var check := Run([a, b]);
    if !check.IsSuccess() then Effect(check, s)
    else Effect(SuccessResult, s.(posts := s.posts - {postId}))
  }

  // ---------- comments ----------

  function NotWithId(commentId: Id): Comment -> bool {
    (c: Comment) => c.id != commentId
  }

  /** A comment body as the request sends it: optionally its own `_id` and an
      owner, and the text. */
  datatype CommentInput = CommentInput(id: Option<Id>, owner: Option<Id>, comment: string)

  /** The sub-document the store makes of a body: the body's `_id` if it has
      one, else the fresh id the store assigns; owner and text as sent. */
  function Received(input: CommentInput, commentId: Id): (c: Comment)
    ensures input.id.Some? ==> c.id == input.id.value
    ensures input.id.None? ==> c.id == commentId
    ensures c.owner == input.owner && c.comment == input.comment
  {
    Comment(input.id.GetOr(commentId), input.owner, input.comment)
  }

  /** addComment: a non-deleted actor and an existing post; the body is
      pushed as received, without touching the post's timestamps. The actor
      is not written into the comment. */
  function AddComment(s: Store, postId: Id, input: CommentInput, actor: TokenPayload, commentId: Id): (e: Effect<Result>)
    ensures e.result.IsSuccess() <==> Live(s, actor.id) && postId in s.posts
    ensures !Live(s, actor.id) ==> e.result == ErrorResult(UserNotExists)
    ensures Live(s, actor.id) && postId !in s.posts ==> e.result == ErrorResult(PostNotFound)
    ensures !e.result.IsSuccess() ==> e.store == s
    ensures e.result.IsSuccess() ==>
      && postId in e.store.posts
      && var q := e.store.posts[postId];
      && e.store == PutPost(s, postId, q)
      && q == s.posts[postId].(comments := q.comments)
      && |q.comments| == |s.posts[postId].comments| + 1
      && q.comments[..|s.posts[postId].comments|] == s.posts[postId].comments
      && q.comments[|s.posts[postId].comments|] == Received(input, commentId)
  {
    var a := IsExists(s, actor.id);
    var b := IsPostExists(s, postId);
    RunTwo(a, b);
    var check := Run([a, b]);
    if !check.IsSuccess() then Effect(check, s)
    else
      var p := s.posts[postId];
      Effect(SuccessResult, PutPost(s, postId, p.(comments := p.comments + [Received(input, commentId)])))
  }

  /** removeComment: a non-deleted actor, an existing post and, unless the
      actor is privileged, a comment with this id by the actor; then every
      comment with this id is pulled, timestamps untouched. */
  function RemoveComment(s: Store, postId: Id, commentId: Id, actor: TokenPayload): (e: Effect<Result>)
    ensures e.result.IsSuccess() <==>
      Live(s, actor.id) && postId in s.posts && (Privileged(actor) || OwnsComment(s, postId, commentId, actor.id))
    ensures !Live(s, actor.id) ==> e.result == ErrorResult(UserNotExists)
    ensures !e.result.IsSuccess() ==> e.store == s && e.result.ErrorResult?
    ensures e.result.IsSuccess() ==>
      && postId in e.store.posts
      && var q := e.store.posts[postId];
      && e.store == PutPost(s, postId, q)
      && q == s.posts[postId].(comments := q.comments)
      && forall c :: c in q.comments <==> c in s.posts[postId].comments && c.id != commentId
  {
    var a := IsExists(s, actor.id);
    var b := IsPostExists(s, postId);
    var c := IsCommentOwner(s, postId, commentId, actor);
    RunThree(a, b, c);
    var check := Run([a, b, c]);
    if !check.IsSuccess() then Effect(check, s)
    else
      var p := s.posts[postId];
      Effect(SuccessResult, PutPost(s, postId, p.(comments := Seqs.Filter(p.comments, NotWithId(commentId)))))
  }

  // ---------- likes ----------

  function NotLikeOf(uid: Id): Like -> bool {
    (l: Like) => l.owner != uid
  }

  /** addLike: a non-deleted actor, an existing post and no like by the actor
      yet; then `{owner: actor}` is pushed. */
  function AddLike(s: Store, postId: Id, actor: TokenPayload): (e: Effect<Result>)
    ensures e.result.IsSuccess() <==> Live(s, actor.id) && postId in s.posts && !HasLiked(s, postId, actor.id)
    ensures Live(s, actor.id) && HasLiked(s, postId, actor.id) ==> e.result == ErrorResult(AlreadyLiked)
    ensures !e.result.IsSuccess() ==> e.store == s && e.result.ErrorResult?
    ensures e.result.IsSuccess() ==>
      e.store == PutPost(s, postId, s.posts[postId].(likes := s.posts[postId].likes + [Like(actor.id)]))
  {
    var a := IsExists(s, actor.id);
    var b := IsPostExists(s, postId);
    var c := IsNotLiked(s, postId, actor.id);
    RunThree(a, b, c);
    var check := Run([a, b, c]);
    if !check.IsSuccess() then Effect(check, s)
    else
      var p := s.posts[postId];
      Effect(SuccessResult, PutPost(s, postId, p.(likes := p.likes + [Like(actor.id)])))
  }

  /** removeLike: a non-deleted actor, an existing post and a like by the
      actor; then the actor's likes are pulled. */
  function RemoveLike(s: Store, postId: Id, actor: TokenPayload): (e: Effect<Result>)
    ensures e.result.IsSuccess() <==> Live(s, actor.id) && postId in s.posts && HasLiked(s, postId, actor.id)
    ensures Live(s, actor.id) && postId in s.posts && !HasLiked(s, postId, actor.id) ==> e.result == ErrorResult(NotLiked)
    ensures !e.result.IsSuccess() ==> e.store == s && e.result.ErrorResult?
    ensures e.result.IsSuccess() ==>
      && postId in e.store.posts
      && var q := e.store.posts[postId];
      && e.store == PutPost(s, postId, q)
      && q == s.posts[postId].(likes := q.likes)
      && Like(actor.id) !in q.likes
      && forall l :: l in q.likes <==> l in s.posts[postId].likes && l.owner != actor.id
  {
    var a := IsExists(s, actor.id);
    var b := IsPostExists(s, postId);
    var c := IsLiked(s, postId, actor.id);
    RunThree(a, b, c);
    var check := Run([a, b, c]);
    if !check.IsSuccess() then Effect(check, s)
    else
      var p := s.posts[postId];
      Effect(SuccessResult, PutPost(s, postId, p.(likes := Seqs.Filter(p.likes, NotLikeOf(actor.id)))))
  }

  /** A second like by the same actor is refused and changes nothing. */
  lemma SecondLikeRefused(s: Store, postId: Id, actor: TokenPayload)
    requires AddLike(s, postId, actor).result.IsSuccess()
    ensures var t := AddLike(s, postId, actor).store;
            AddLike(t, postId, actor) == Effect(ErrorResult(AlreadyLiked), t)
  {
    var t := AddLike(s, postId, actor).store;
    assert Like(actor.id) in t.posts[postId].likes;
  }

  /** Removing a like undoes adding it: the store is back where it started. */
  lemma LikeRoundTrip(s: Store, postId: Id, actor: TokenPayload)
    requires AddLike(s, postId, actor).result.IsSuccess()
    ensures var t := AddLike(s, postId, actor).store;
            RemoveLike(t, postId, actor) == Effect(SuccessResult, s)
  {
    var p := s.posts[postId];
    var t := AddLike(s, postId, actor).store;
    assert Like(actor.id) in t.posts[postId].likes;
    assert forall l :: l in p.likes ==> NotLikeOf(actor.id)(l);
    Seqs.FilterUndoesPush(p.likes, Like(actor.id), NotLikeOf(actor.id));
    assert t.posts[postId := p] == s.posts;
  }

  /** Removing a fresh comment that names its author as owner undoes adding
      it. */
  lemma CommentRoundTrip(s: Store, postId: Id, input: CommentInput, actor: TokenPayload, commentId: Id)
    requires AddComment(s, postId, input, actor, commentId).result.IsSuccess()
    requires input.owner == Some(actor.id)
    requires forall c :: c in s.posts[postId].comments ==> c.id != Received(input, commentId).id
    ensures var t := AddComment(s, postId, input, actor, commentId).store;
            RemoveComment(t, postId, Received(input, commentId).id, actor) == Effect(SuccessResult, s)
  {
    var p := s.posts[postId];
    var t := AddComment(s, postId, input, actor, commentId).store;
    var added := Received(input, commentId);
    assert t.posts[postId].comments == p.comments + [added];
    assert added in t.posts[postId].comments;
    assert OwnsComment(t, postId, added.id, actor.id);
    assert forall c :: c in p.comments ==> NotWithId(added.id)(c);
    Seqs.FilterUndoesPush(p.comments, added, NotWithId(added.id));
    assert t.posts[postId := p] == s.posts;
  }

  /** The owner the body names, not the actor, owns the pushed comment: a
      non-privileged actor who names someone else cannot remove the comment,
      while the named user can. */
  lemma SentOwnerOwnsComment(s: Store, postId: Id, input: CommentInput, actor: TokenPayload, commentId: Id, other: TokenPayload)
    requires AddComment(s, postId, input, actor, commentId).result.IsSuccess()
    requires !Privileged(actor) && input.owner == Some(other.id) && other.id != actor.id
    requires forall c :: c in s.posts[postId].comments ==> c.id != Received(input, commentId).id
    requires Live(s, other.id)
    ensures var t := AddComment(s, postId, input, actor, commentId).store;
      && !RemoveComment(t, postId, Received(input, commentId).id, actor).result.IsSuccess()
      && RemoveComment(t, postId, Received(input, commentId).id, other).result.IsSuccess()
  {
    var p := s.posts[postId];
    var t := AddComment(s, postId, input, actor, commentId).store;
    var added := Received(input, commentId);
    assert t.posts[postId].comments == p.comments + [added];
    assert added in t.posts[postId].comments;
    assert OwnsComment(t, postId, added.id, other.id);
  }

  /** A post just created with the default visibility can be read by anyone,
      and reads back with the submitted text and no comments. */
  lemma AddedPostIsPublic(s: Store, input: PostInput, actor: TokenPayload, newId: Id, now: int, requester: Option<TokenPayload>)
    requires newId !in s.posts
    requires Add(s, input, actor, newId, now).result.IsSuccess()
    requires input.visibility.None?
    ensures var t := Add(s, input, actor, newId, now).store;
      var r := GetById(t, newId, requester);
      && r.IsSuccess()
      && r.data.header == input.header && r.data.body == input.body && r.data.image == input.image
      && r.data.visibility == PUBLIC && r.data.comments == []
      && r.data.owner == RefTo(s, actor.id)
  {
    var t := Add(s, input, actor, newId, now).store;
    assert t.users == s.users;
  }

  /** After a successful remove the post reads as absent to everyone. */
  lemma RemovedPostIsGone(s: Store, postId: Id, actor: TokenPayload, requester: Option<TokenPayload>)
    requires Remove(s, postId, actor).result.IsSuccess()
    ensures GetById(Remove(s, postId, actor).store, postId, requester) == ErrorData(PostNotFound)
  {
  }

  /** The body is stored as sent, so an owner can hand a post to someone else
      and is then refused on it like any other non-privileged user. */
  lemma UpdateHandsOverOwnership(s: Store, postId: Id, patch: PostPatch, actor: TokenPayload, now: int, later: PostPatch, laterNow: int)
    requires postId in s.posts && s.posts[postId].owner == actor.id && !Privileged(actor)
    requires patch.owner.Some? && patch.owner.value != actor.id
    ensures Update(s, postId, patch, actor, now).result.IsSuccess()
    ensures var t := Update(s, postId, patch, actor, now).store;
      !Update(t, postId, later, actor, laterNow).result.IsSuccess() && !Remove(t, postId, actor).result.IsSuccess()
  {
  }

  /** A privileged actor passes the ownership checks on any existing post. */
  lemma PrivilegedSkipsOwnership(s: Store, postId: Id, patch: PostPatch, actor: TokenPayload, now: int)
    requires Privileged(actor) && postId in s.posts
    ensures Update(s, postId, patch, actor, now).result.IsSuccess()
    ensures Remove(s, postId, actor).result.IsSuccess()
  {
  }
}
