/** Checks and the visibility resolver of the post service. The service's
    own source is not part of this model: the behaviour here is the one its
    unit tests pin down (test/unit/services/posts.service.test.ts). The
    failure wording is not pinned down by those tests. */
module PostRules {
  import opened Results
  import opened UserModel
  import opened PostModel
  import opened Storage
  import opened UserRules

  const PostNotFound: string := "Post not found"
  const AlreadyLiked: string := "Post already liked"
  const NotLiked: string := "Post not liked"

  /** ADMIN and SYS_ADMIN skip ownership checks and see every post. */
  predicate Privileged(actor: TokenPayload) {
    actor.role == Some(ADMIN) || actor.role == Some(SYS_ADMIN)
  }

  /** `findOne({_id: postId, owner: uid})` finds a document. */
  predicate OwnsPost(s: Store, postId: Id, uid: Id) {
    postId in s.posts && s.posts[postId].owner == uid
  }

  /** The post holds a comment with this id written by `uid`. */
  predicate OwnsComment(s: Store, postId: Id, commentId: Id, uid: Id) {
    postId in s.posts && exists c :: c in s.posts[postId].comments && c.id == commentId && c.owner == Some(uid)
  }

  /** `findOne({_id: postId, likes: {$elemMatch: {owner: uid}}})` finds a document. */
  predicate HasLiked(s: Store, postId: Id, uid: Id) {
    postId in s.posts && Like(uid) in s.posts[postId].likes
  }

  /** `find({_id: postId})` is not empty. */
  function IsPostExists(s: Store, postId: Id): (r: Result)
    ensures r.IsSuccess() <==> postId in s.posts
    ensures !r.IsSuccess() ==> r == ErrorResult(PostNotFound)
  {
    var found := set pid | pid in s.posts && pid == postId;
    assert postId in s.posts ==> postId in found;
    if found != {} then SuccessResult else ErrorResult(PostNotFound)
  }

  /** Ownership, looked up only for a non-privileged actor. */
  function IsPostOwner(s: Store, postId: Id, actor: TokenPayload): (r: Result)
    ensures r.IsSuccess() <==> Privileged(actor) || OwnsPost(s, postId, actor.id)
    ensures !r.IsSuccess() ==> r == ErrorResult(NotPermitted)
  {
    if Privileged(actor) then SuccessResult
    else if postId in s.posts && s.posts[postId].owner == actor.id then SuccessResult
    else ErrorResult(NotPermitted)
  }

  /** Comment ownership, looked up only for a non-privileged actor. */
  function IsCommentOwner(s: Store, postId: Id, commentId: Id, actor: TokenPayload): (r: Result)
    ensures r.IsSuccess() <==> Privileged(actor) || OwnsComment(s, postId, commentId, actor.id)
    ensures !r.IsSuccess() ==> r == ErrorResult(NotPermitted)
  {
    if Privileged(actor) then SuccessResult
    else if postId in s.posts && HasCommentBy(s.posts[postId].comments, commentId, actor.id) then SuccessResult
    else ErrorResult(NotPermitted)
  }

  /** `findOne({_id: postId, comments: {_id: commentId, owner: uid}})`, read
      for its evident meaning. */
  predicate HasCommentBy(cs: seq<Comment>, commentId: Id, uid: Id) {
    exists i :: 0 <= i < |cs| && cs[i].id == commentId && cs[i].owner == Some(uid)
  }

  function IsNotLiked(s: Store, postId: Id, uid: Id): (r: Result)
    ensures r.IsSuccess() <==> !HasLiked(s, postId, uid)
    ensures !r.IsSuccess() ==> r == ErrorResult(AlreadyLiked)
  {
    if postId in s.posts && Like(uid) in s.posts[postId].likes then ErrorResult(AlreadyLiked) else SuccessResult
  }

  function IsLiked(s: Store, postId: Id, uid: Id): (r: Result)
    ensures r.IsSuccess() <==> HasLiked(s, postId, uid)
    ensures !r.IsSuccess() ==> r == ErrorResult(NotLiked)
  {
    if postId in s.posts && Like(uid) in s.posts[postId].likes then SuccessResult else ErrorResult(NotLiked)
  }

  /** The visibility resolver on a post's tier and owner: PUBLIC for everyone,
      MEMBERS for any token holder, PRIVATE for its owner and the privileged.
      Read by caller: an anonymous caller sees exactly the PUBLIC tier, the
      owner and the privileged see every tier, any other token holder every
      tier but PRIVATE. */
  predicate Visible(visibility: Visibility, owner: Id, requester: Option<TokenPayload>)
    ensures requester.None? ==> (Visible(visibility, owner, requester) <==> visibility == PUBLIC)
    ensures requester.Some? && (Privileged(requester.value) || owner == requester.value.id) ==>
      Visible(visibility, owner, requester)
    ensures requester.Some? && !Privileged(requester.value) && owner != requester.value.id ==>
      (Visible(visibility, owner, requester) <==> visibility != PRIVATE)
  {
    match visibility
    case PUBLIC => true
    case MEMBERS => requester.Some?
    case PRIVATE => requester.Some? && (Privileged(requester.value) || owner == requester.value.id)
  }

  /** The tiers nest: whoever may read a PRIVATE post may read it as MEMBERS,
      and whoever may read it as MEMBERS may read it as PUBLIC. */
  lemma TiersNest(owner: Id, requester: Option<TokenPayload>)
    ensures Visible(PRIVATE, owner, requester) ==> Visible(MEMBERS, owner, requester)
    ensures Visible(MEMBERS, owner, requester) ==> Visible(PUBLIC, owner, requester)
  {
  }
}
