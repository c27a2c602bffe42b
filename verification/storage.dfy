/** The document store seen by the services: the user and post collections. */
module Storage {
  import opened UserModel
  import opened PostModel

  datatype Store = Store(users: map<Id, User>, posts: map<Id, Post>)

  /** What an operation returns, together with the store it leaves behind. */
  datatype Effect<+R> = Effect(result: R, store: Store)

  /** `find(filter)` on the user collection: the ids of the matching documents. */
  function Find(users: map<Id, User>, matches: (Id, User) -> bool): (r: set<Id>)
    ensures forall id :: id in r <==> id in users && matches(id, users[id])
  {
    set id | id in users && matches(id, users[id])
  }

  /** A user record that is present and not soft-deleted. */
  predicate Live(s: Store, id: Id) {
    id in s.users && s.users[id].status != DELETED
  }

  /** The store after overwriting one user's record; nothing else changes. */
  function PutUser(s: Store, id: Id, u: User): (t: Store)
    ensures t.users == s.users[id := u] && t.posts == s.posts
  {
    s.(users := s.users[id := u])
  }

  /** The store after overwriting one post; nothing else changes. */
  function PutPost(s: Store, id: Id, p: Post): (t: Store)
    ensures t.posts == s.posts[id := p] && t.users == s.users
  {
    s.(posts := s.posts[id := p])
  }
}
