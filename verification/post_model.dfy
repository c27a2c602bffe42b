/** Post, Comment and Like documents (src/models/PostModel.ts). */
module PostModel {
  import opened Results
  import opened UserModel
  import Seqs

  datatype Visibility = PUBLIC | MEMBERS | PRIVATE

  /** Categories are stored as strings; the Category enumeration itself is not
      part of this model, only its GENERAL member, which is the default. */
  type Category = string
  const GENERAL: Category := "GENERAL"

  /** An embedded comment: its own id, the owning user and the text. The
      schema does not require an owner, so a comment may have none. */
  datatype Comment = Comment(id: Id, owner: Option<Id>, comment: string)

  /** An embedded like: the owning user and nothing else. */
  datatype Like = Like(owner: Id)

  datatype Post = Post(
    owner: Id,
    header: string,
    body: string,
    image: string,
    category: Category,
    visibility: Visibility,
    comments: seq<Comment>,
    likes: seq<Like>,
    createdAt: int,
    updatedAt: int)

  /** The fields a client supplies when creating a post; absent category and
      visibility take the schema defaults. */
  datatype PostInput = PostInput(
    header: string,
    body: string,
    image: string,
    category: Option<Category>,
    visibility: Option<Visibility>)

  /** Mongoose's `required` on a String field rejects a missing or empty value. */
  predicate Present(field: string) { field != "" }

  /** The schema's required fields of a post. */
  predicate HasRequiredFields(p: Post) {
    Present(p.header) && Present(p.body) && Present(p.image)
  }

  /** At most one like per user on a post; the schema itself does not say so. */
  predicate OneLikePerUser(p: Post) {
    Seqs.NoDuplicates(p.likes)
  }

  /** Document creation: validates the required fields and fills the defaults.
      A validation failure is thrown by the store, not returned. */
  function Create(owner: Id, input: PostInput, now: int): (r: DataResult<Post>)
    ensures r.SuccessData? || r == ExceptionData(ValidationError)
    ensures r.SuccessData? <==> Present(input.header) && Present(input.body) && Present(input.image)
    ensures r.SuccessData? ==>
      && HasRequiredFields(r.data)
      && OneLikePerUser(r.data)
      && r.data.owner == owner
      && r.data.header == input.header && r.data.body == input.body && r.data.image == input.image
      && (input.category.None? ==> r.data.category == GENERAL)
      && (input.category.Some? ==> r.data.category == input.category.value)
      && (input.visibility.None? ==> r.data.visibility == PUBLIC)
      && (input.visibility.Some? ==> r.data.visibility == input.visibility.value)
      && r.data.comments == [] && r.data.likes == []
      && r.data.createdAt == now && r.data.updatedAt == now
  {
    if !(Present(input.header) && Present(input.body) && Present(input.image)) then
      ExceptionData(ValidationError)
    else
      var category := match input.category case Some(c) => c case None => GENERAL;
      var visibility := match input.visibility case Some(v) => v case None => PUBLIC;
      SuccessData(Post(owner, input.header, input.body, input.image, category, visibility, [], [], now, now))
  }

  /** The schema admits a post on which one user likes twice: the one-like rule
      lives only in the like operation's guard. */
  lemma SchemaAllowsDuplicateLikes()
    ensures exists p: Post :: HasRequiredFields(p) && !OneLikePerUser(p)
  {
    var p := Post("u", "h", "b", "i", GENERAL, PUBLIC, [], [Like("v"), Like("v")], 0, 0);
    assert p.likes[0] == p.likes[1];
    assert HasRequiredFields(p) && !OneLikePerUser(p);
  }
}
