# Blog backend business rules in Dafny

This project models the business-rule core of a social-blogging REST backend.
It covers:

- the user service: pagination, lookups, sign-up, update, role and status changes, soft delete and the purge cascade;
- the auth service: login, sign-up, resending verification and verifying an account;
- the post service as its unit tests pin it down: list filters, the visibility resolver, create, update and remove, comments and likes;
- the Post, Comment and Like documents.

The store is one value: `Store(users, posts)`, two maps from document id to record.
Every service operation is a pure function from a store to an `Effect`: the result it returns and the store it leaves behind.
Results have three cases:

- success;
- an error the service returns;
- an exception the service does not catch (a rejected promise, e.g. a `TypeError` from reading a property of `undefined`, or a store validation error).

The business runner is an ordered, fail-fast fold over the checks (`BusinessRunner.Run`).

Some things the program gets from outside are modelled as parameters:

- password hashing is a `Crypto` record of two opaque functions, and the only assumption about it is that a password compares equal to its own hash (`UserModel.Sound`);
- token verification is an `Option<TokenPayload>`;
- new document ids and timestamps come in as arguments.

`findOne` may pick any matching record, so it is modelled with a ghost choice.
This makes `GetByUsername`, `GetByEmail`, `Login` and `SendVerification` ghost functions.

Modules, in dependency order:

| module | file | what it holds |
|---|---|---|
| `Results` | results.dfy | Option, Result, DataResult |
| `Seqs` | seqs.dfy | `Filter` (the store's `$pull`), duplicate-freedom |
| `BusinessRunner` | runner.dfy | the fail-fast check chain |
| `UserModel` | user_model.dfy | User, Role, Status, TokenPayload, Crypto |
| `PostModel` | post_model.dfy | Post, Comment, Like, document creation |
| `Storage` | storage.dfy | the store and its primitive writes |
| `UserRules` | user_rules.dfy | the user service's business rules |
| `UserService` | user_service.dfy | the user service's operations |
| `AuthService` | auth_service.dfy | login, sign-up, verification |
| `PostRules` | post_rules.dfy | post checks and the visibility resolver |
| `PostService` | post_service.dfy | post reads and mutations |
| `Consistency` | consistency.dfy | store-wide invariants and the commands that keep them |

The post service's source is not part of this model, so its behaviour follows its unit tests.
Some points to note:

- Post `update` and `remove` do not look up the acting user. Their unit tests mock no user lookup (test/unit/services/posts.service.test.ts:283-345, 564-630), whereas add, comment and like operations look the actor up.
- Post `update` hands the request body to the store as received (test/unit/services/posts.service.test.ts:288-297, 307-313). `add`, by contrast, stores a document built field by field (test/unit/services/posts.service.test.ts:265-274). So an update may also rewrite the owner, the comments and the likes.
- Post `addComment` pushes the request body itself as the comment (test/unit/controllers/posts.controller.test.ts:298-305, test/unit/services/posts.service.test.ts:356, 365). So the stored comment's owner, and its `_id` if sent, are whatever the body carries; the acting user is not written into it.
- `changeRole` has no permission check at all (src/services/user.service.ts:139-152).
- `isRolePossible` tests the role with `role in Roles`, which also accepts names inherited from `Object.prototype` (see Findings).
- `verify` never activates an account (see Findings).

## Model

| member | source | states |
|---|---|---|
| BusinessRunner.Run | src/services/user.service.ts:111-120 | the chain succeeds iff every check succeeds; otherwise it returns the first failing check unchanged |
| BusinessRunner.RunTwo | src/services/user.service.ts:139-148 | with two checks, the second decides only when the first passes |
| Seqs.Filter | src/services/user.service.ts:224 | a `$pull` keeps exactly the elements not matched, never more than before |
| Seqs.FilterUndoesPush | test/unit/services/posts.service.test.ts:490-537 | pulling what was just pushed restores the array when nothing already there matched |
| Seqs.FilterNoDuplicates | test/unit/services/posts.service.test.ts:537 | a pull never introduces a duplicate |
| Seqs.PushNoDuplicates | test/unit/services/posts.service.test.ts:487-490 | pushing an element that is absent keeps the array duplicate-free |
| UserModel.RoleOfName | src/services/user.service.ts:347-352 | a name maps to a role iff it is an enum key or a name every object inherits from `Object.prototype`, and then to the role found under that name; only the enum keys give enum roles |
| UserModel.RoleNameRoundTrip | src/services/user.service.ts:347-352 | every role's key is recognised and maps back to that role |
| PostModel.Create | src/models/PostModel.ts:25-39 | creation fails with a validation error iff header, body or image is empty; otherwise the post has category GENERAL and visibility PUBLIC unless given, no comments or likes, and both timestamps set to now |
| PostModel.SchemaAllowsDuplicateLikes | src/models/PostModel.ts:16-34 | the schema admits a post that one user likes twice |
| UserRules.IsExists | src/services/user.service.ts:323-329 | succeeds iff the id names a record that is not DELETED, else "User not exits" |
| UserRules.IsExistsUsername | src/services/user.service.ts:331-337 | succeeds iff a non-deleted user holds the username |
| UserRules.IsExistsEmail | src/services/user.service.ts:339-345 | succeeds iff a non-deleted user holds the e-mail |
| UserRules.IsUsernameUnique | src/services/user.service.ts:277-291 | fails with "username is taken" iff a non-deleted user other than the excluded id holds the name |
| UserRules.IsEmailUnique | src/services/user.service.ts:293-304 | fails with "email is taken" iff any user holds the e-mail, soft-deleted ones included |
| UserRules.IsUserAllowedForOperation | src/services/user.service.ts:238-258 | SYS_ADMIN, self, or ADMIN on a plain USER pass; everything else is "Not permitted"; an ADMIN acting on an unknown id throws |
| UserRules.CanChange | src/services/user.service.ts:260-275 | the same rule without the self case; a missing actor throws |
| UserRules.IsRolePossible | src/services/user.service.ts:347-352 | succeeds iff the role is null, one of the three role keys, or a name inherited from `Object.prototype`; otherwise "Role is not exists" |
| UserRules.IsRoleKey | src/services/user.service.ts:347-352 | the evident intent: succeeds iff the role is null or one of the three role keys; otherwise "Role is not exists" |
| UserRules.RequestedRole | src/services/user.service.ts:150 | null writes no role; a recognised name writes the role found under it; for a possible role, no role is written iff the request is null; after the own-key check only enum roles are written |
| UserRules.PrototypeNameAccepted | src/services/user.service.ts:348 | "toString" passes the role check and names the inherited role, while the own-key check refuses it |
| UserRules.AllowedIsCanChangeOrSelf | src/services/user.service.ts:238-275 | the two permission rules differ exactly in the self case |
| UserRules.AdminCannotActOnPeers | src/services/user.service.ts:249-257 | an ADMIN acting on another ADMIN or a SYS_ADMIN gets the generic refusal from both rules |
| UserRules.SysAdminAlwaysAllowed | src/services/user.service.ts:239-242 | a SYS_ADMIN passes both rules on any target |
| UserRules.RecognisedRoleAccepted | src/services/user.service.ts:347-352 | a role's own key passes the role check and is written as that role |
| UserService.NonDeleted | src/services/user.service.ts:20-22 | the counted users are exactly the non-deleted ones |
| UserService.CeilDiv | src/services/user.service.ts:33 | the page count is the least number of pages that holds every item |
| UserService.Paginate | src/services/user.service.ts:24-33 | page defaults to 1, page size to the full count; skip is (page - 1) times the page size; the page count is the ceiling of count over page size |
| UserService.GetAll | src/services/user.service.ts:15-36 | the pagination of the non-deleted users: their count is the total, the page is the given one or 1, and the page-size, skip and page-count facts above hold |
| UserService.EveryUserOnOnePage | src/services/user.service.ts:24-33 | each listed user falls inside the window of one page within the page count |
| UserService.NoUserPastLastPage | src/services/user.service.ts:24-33 | a page past the last one skips every user |
| UserService.GetById | src/services/user.service.ts:38-49 | returns the stored record iff the user is not deleted, else "User not exits" |
| UserService.FindOne | src/services/user.service.ts:60 | finds nothing iff no record matches; otherwise a matching stored record |
| UserService.GetByUsername | src/services/user.service.ts:51-67 | succeeds iff a non-deleted user holds the name, and returns such a user |
| UserService.GetByEmail | src/services/user.service.ts:69-85 | succeeds iff a non-deleted user holds the e-mail, and returns such a user |
| UserService.Add | src/services/user.service.ts:87-108 | succeeds iff the name is free among non-deleted users and the e-mail is free among all users (name checked first); the new record has the hashed password, role USER and status PASSIVE; a failure leaves the store alone |
| UserService.NewPassword | src/services/user.service.ts:123-127 | no password keeps the stored one; a sent one is stored raw or as its hash; with a sound hash a non-empty one that does not match the stored hash compares equal to what is stored; one that already matches is stored raw |
| UserService.UpdateChecks | src/services/user.service.ts:110-120 | passes iff the user is live, the actor may act on it, and no other live user holds the new name |
| UserService.Update | src/services/user.service.ts:110-137 | on success only username and password change; no password keeps the old one; a non-empty password that does not match the stored hash is hashed; an empty or matching one is written raw |
| UserService.NewPasswordIntended | src/services/user.service.ts:123-127 | the evident intent: no password keeps the stored one, an empty one is written empty, with a sound hash a non-empty one always compares equal to what is stored, and one that already matches keeps the stored hash |
| UserService.UpdateIntended | src/services/user.service.ts:122-128 | the same checks and frame, and with a sound hash a non-empty submitted password compares equal to what is stored |
| UserService.ChangeRole | src/services/user.service.ts:139-152 | succeeds iff the user is live and the role is possible; only the role changes |
| UserService.ChangeRoleIntended | src/services/user.service.ts:139-152 | with the own-key check: succeeds iff the user is live and the role is null or an enum key; every role it writes is an enum role |
| UserService.PrototypeNameBecomesRole | src/services/user.service.ts:139-152 | as written, changeRole(id, "toString") on a live user succeeds and stores the inherited name as the role; the intended version refuses it and leaves the store alone |
| UserService.Suspend | src/services/user.service.ts:154-167 | succeeds iff the user is live and the actor outranks it; only the status becomes SUSPENDED |
| UserService.Activate | src/services/user.service.ts:169-182 | succeeds iff the user is live and an actor is given that outranks it; a missing actor throws |
| UserService.SelfActivate | src/services/user.service.ts:184-196 | succeeds iff the user is live; only the status becomes ACTIVE |
| UserService.Remove | src/services/user.service.ts:198-210 | succeeds iff the user is live; only the status becomes DELETED |
| UserService.WithoutPostsOf | src/services/user.service.ts:223 | keeps exactly the posts not owned by the user, unchanged |
| UserService.WithoutCommentsOf | src/services/user.service.ts:224 | keeps every post and pulls the user's comments from each |
| UserService.Purge | src/services/user.service.ts:212-232 | gated by the permission rule alone; on success the user record is gone, the user's posts are gone, no comment by the user remains, and other posts lose only those comments; a failing write yields "Operation failed" with the earlier writes kept |
| AuthService.PayloadOf | src/services/auth.service.ts:38-44 | the token claim copies id, status, username, e-mail and role from the record |
| AuthService.Login | src/services/auth.service.ts:18-49 | an unknown name fails with "Login failed"; success means a live ACTIVE user with that name whose stored hash matches the password, and returns that user's claim |
| AuthService.StatusRefusalIgnoresPassword | src/services/auth.service.ts:25-31 | a pending or suspended account gets the same refusal whatever password is sent |
| AuthService.SignUp | src/services/auth.service.ts:52-71 | succeeds iff add succeeds, passing add's failure message on; creates a PASSIVE USER with the hashed password |
| AuthService.SendVerification | src/services/auth.service.ts:73-89 | an e-mail of no live user fails with "User not exists", an active one with "User is already active"; success needs a live, non-active holder |
| AuthService.Verify | src/services/auth.service.ts:91-120 | never changes the store and never succeeds; a bad token or missing user fails, an active account is refused, any other account throws |
| AuthService.VerifyIntended | src/services/auth.service.ts:113-117 | succeeds iff the token names a live, non-active user, and then activates exactly that user |
| AuthService.IntendedVerifyLiftsSuspension | src/services/auth.service.ts:108-117 | the corrected verify keeps the check that refuses only ACTIVE accounts, so a SUSPENDED account with a token for itself becomes ACTIVE |
| AuthService.VerifyNeverActivates | src/services/auth.service.ts:114 | for every pending account the written verify throws and changes nothing, while the intended one activates it |
| AuthService.SignUpThenLoginIsPending | src/services/auth.service.ts:52-71 | right after sign-up, logging in with the same name and password is refused as pending |
| AuthService.SignUpVerifyLogin | src/services/auth.service.ts:91-120 | sign-up, intended verify, then login returns the claim of the new ACTIVE USER |
| AuthService.SignUpVerifyLoginAsWritten | src/services/auth.service.ts:114 | with the written verify the new account stays refused as pending |
| AuthService.ResubmittedPasswordLocksOut | src/services/user.service.ts:122-128 | with a salted hash, resubmitting the current password through the written update makes it stop logging in; the intended update keeps it working |
| PostRules.IsPostExists | test/unit/services/posts.service.test.ts:87-96 | succeeds iff the post id is stored |
| PostRules.IsPostOwner | test/unit/services/posts.service.test.ts:283-345 | succeeds iff the actor is privileged or owns the post, else "Not permitted" |
| PostRules.IsCommentOwner | test/unit/services/posts.service.test.ts:388-466 | succeeds iff the actor is privileged or wrote a comment with this id on the post |
| PostRules.IsNotLiked | test/unit/services/posts.service.test.ts:495-513 | fails iff the actor already likes the post |
| PostRules.IsLiked | test/unit/services/posts.service.test.ts:542-560 | succeeds iff the actor likes the post |
| PostRules.TiersNest | test/unit/services/posts.service.test.ts:98-234 | whoever may read a PRIVATE post may read it as MEMBERS, and MEMBERS readers may read PUBLIC |
| PostRules.Visible | test/unit/services/posts.service.test.ts:98-234 | anonymous callers read exactly PUBLIC; the owner and the privileged read every tier; other token holders read every tier but PRIVATE |
| PostService.GetAllQuery | test/unit/services/posts.service.test.ts:17-49 | visibility defaults to PUBLIC and category to all categories; given sets replace them; comments are left out |
| PostService.GetByUserIdQuery | test/unit/services/posts.service.test.ts:51-83 | the same defaults plus the owner filter, comments kept |
| PostService.List | test/unit/services/posts.service.test.ts:19-81 | returns exactly the matching posts, with comments stripped when the query leaves them out |
| PostService.DefaultListingIsPublic | test/unit/services/posts.service.test.ts:19-33 | the default listing is exactly the PUBLIC posts of a known category, without comments |
| PostService.UserListingIsOwners | test/unit/services/posts.service.test.ts:69-81 | a user's listing holds only that user's posts and, asked for PRIVATE, returns them whole |
| PostService.RefTo | test/unit/services/posts.service.test.ts:113-115 | a reference carries only the id and the username, and is null for an unknown user |
| PostService.OwnerRef | test/unit/services/posts.service.test.ts:113-115 | a comment's populated owner is null when the comment has no owner or the user is gone, else that user's reference |
| PostService.Project | test/unit/services/posts.service.test.ts:98-118 | the returned post keeps every field, with the owner and each comment's owner reduced to id and username |
| PostService.GetById | test/unit/services/posts.service.test.ts:85-236 | succeeds iff the post exists and the resolver lets the requester see it; every failure is the same not-found error |
| PostService.HiddenLooksAbsent | test/unit/services/posts.service.test.ts:164-187 | a post the requester may not see gives the same answer as an absent id |
| PostService.Add | test/unit/services/posts.service.test.ts:238-279 | succeeds iff the author is a live user and the required fields are present; a non-live author gets "User not exits"; the stored post is the created document with the author as owner |
| PostService.Update | test/unit/services/posts.service.test.ts:281-347 | succeeds iff the post exists and the actor is privileged or the owner; each sent field, owner, comments and likes included, replaces the stored one; every other field is kept, createdAt too, and updatedAt becomes now |
| PostService.UpdateHandsOverOwnership | test/unit/services/posts.service.test.ts:288-297 | an owner can give a post to another user through update, and is then refused update and remove on it |
| PostService.Remove | test/unit/services/posts.service.test.ts:564-630 | succeeds iff the post exists and the actor is privileged or the owner; then exactly that post is deleted |
| PostService.Received | test/unit/services/posts.service.test.ts:356-365 | the pushed sub-document has the body's `_id` if sent, else the fresh id, and the body's owner and text as sent |
| PostService.AddComment | test/unit/services/posts.service.test.ts:349-386 | succeeds iff the actor is live and the post exists; appends the body as received after the existing comments and touches nothing else |
| PostService.RemoveComment | test/unit/services/posts.service.test.ts:388-468 | succeeds iff the actor is live, the post exists and the actor is privileged or wrote that comment; pulls exactly the comments with that id |
| PostService.AddLike | test/unit/services/posts.service.test.ts:470-515 | succeeds iff the actor is live, the post exists and the actor has not liked it; appends the actor's like |
| PostService.RemoveLike | test/unit/services/posts.service.test.ts:517-562 | succeeds iff the actor is live, the post exists and the actor likes it; pulls exactly the actor's likes |
| PostService.AddedPostIsPublic | test/unit/services/posts.service.test.ts:98-118 | a post just created with the default visibility is readable by anyone, with the submitted text and no comments |
| PostService.RemovedPostIsGone | test/unit/services/posts.service.test.ts:564-600 | after a successful remove the post reads as absent |
| PostService.SecondLikeRefused | test/unit/services/posts.service.test.ts:495-513 | liking the same post twice is refused the second time and changes nothing |
| PostService.LikeRoundTrip | test/unit/services/posts.service.test.ts:470-562 | removing a like right after adding it restores the store |
| PostService.CommentRoundTrip | test/unit/services/posts.service.test.ts:349-411 | removing a fresh comment whose body names the actor as owner, right after the actor added it, restores the store |
| PostService.SentOwnerOwnsComment | test/unit/services/posts.service.test.ts:356-365 | when the body names another user as owner, that user can remove the fresh comment and the non-privileged actor who sent it cannot |
| PostService.PrivilegedSkipsOwnership | test/unit/services/posts.service.test.ts:303-317 | an ADMIN may update or remove any existing post |
| Consistency.Next | src/services/user.service.ts:139-232 | over every command, with update, changeRole and verify both as written and corrected, a soft-deleted user record never changes, user records disappear only through purge, post records only through purge or post removal, and no e-mail is rewritten |
| Consistency.NextKeepsConsistent | src/services/user.service.ts:277-304 | every command, with update, changeRole and verify both as written and corrected, keeps usernames unique among live users and e-mails unique among all users; it keeps one like per user on every post too, except for a post update whose body carries a likes array that repeats a like |
| Consistency.UpdatedLikesDecide | test/unit/services/posts.service.test.ts:288-297 | after a successful post update that sends likes, one like per user holds iff the sent array repeats no like |
| Consistency.LoginOfHolder | src/services/auth.service.ts:18-49 | with unique usernames the login outcome is decided by the one live holder of the name |
| Consistency.UpdatedPasswordLogsIn | src/services/user.service.ts:122-128 | after the intended update an active user logs in with the new name and password |
| Consistency.SendVerificationOfHolder | src/services/auth.service.ts:73-89 | with unique e-mails, resending verification is decided by the one holder: deleted gives "User not exists", active gives "User is already active", otherwise success |
| Consistency.EmailStaysTaken | src/services/user.service.ts:293-304 | an e-mail held by any record stays held after every command except purge, with update and verify both as written and corrected |
| Consistency.RemovedEmailCannotSignUp | src/services/user.service.ts:198-210 | after removing an account, signing up again with its e-mail fails |

## Left out

- Controllers: the HTTP status mapping and error forwarding are adapters, not business rules.
- Token signing and checking: a wrapper over a JWT library; verification is an input, signing returns the payload.
- E-mail dispatch: file, environment and SMTP work, fire-and-forget, with no effect on any result.
- Hash internals: hashing is an opaque `Crypto` record with one assumed property.
- The post service source (src/services/post.service.ts) is not part of this model; its behaviour comes from its unit tests, and its failure messages ("Post not found", "Post already liked", "Post not liked") are placeholders.
- Post listing pagination, and sorting in both services: these are store query mechanics; only the filters are modelled.
- Concurrency: the requests' interleaving and the check-then-write race between validation and mutation.
- Success message strings: several are copy-pasted, and only success or failure and the failure messages carry meaning.
- UserService.GetAll: requires a positive page size. The source divides by zero (NaN pages) when there are no users and no limit, and accepts a negative limit. A negative page gives a negative skip, which the store's query rejects; the model still returns a pagination for it.
- UserService.GetAll: its only caller passes the query-string values unparsed (src/controllers/users.controller.ts:9-10). The model takes numbers instead, so the string "0", truthy in JavaScript, counts here as an absent 0, and arithmetic on strings is not modelled.
- UserService.Add: requires the new id to be fresh, because the store assigns it.
- PostService.Add: requires the new post id to be fresh, because the store assigns it.
- PostService.Add: the owner is taken to be the acting user from the token. The unit tests pin only that the create receives the submitted document, so whether the service sets the owner from the token or the body is not shown.
- AuthService.SignUp: requires the new id to be fresh, for the same reason.
- Consistency.Next: requires fresh ids for new users and posts, for the same reason.
- Consistency.NextKeepsConsistent: one like per user is not promised after a post update whose body carries a likes array that repeats a like. The body is stored as sent, and Consistency.UpdatedLikesDecide shows that such an update does break the rule.
- PostService.Update: timestamp keys in an update body are not modelled. createdAt is kept and updatedAt set to now, as the schema timestamps do. Keys the post schema does not declare are not modelled either.
- UserService.Update: an update body without a username is not modelled; the username is always a string.
- Update bodies: keys left undefined are assumed dropped by the store rather than written as null.
- Failing store writes outside purge: every write is taken to succeed. A failing write would make the service's promise reject, an exception the model does not produce there.
- PostService.AddComment: comment bodies with keys other than `_id`, owner and the text are not modelled, and neither is a body without a text.
- Store validators: `findOneAndUpdate` runs none, so `PostService.AddComment` stores an empty comment text although the schema marks it required.
- Comment and like timestamps: these sub-documents carry schema timestamps that no rule reads.
- The business runner's own file is not part of this model; the fail-fast, in-order behaviour is assumed from how the services use it.
- The Roles, Status, Category and Visibility enumerations are not part of this model. Statuses are a datatype with the members the services use, and a category is a string. Roles are the three members the services use, plus the names inherited from `Object.prototype` that `role in Roles` also finds.
- Visibility values outside PUBLIC, MEMBERS and PRIVATE are not modelled. The schema declares visibility as a plain string with a default and no enum validator, so a create or update body could store any string.
- UserRules.IsRolePossible: Roles is taken to be a string enumeration whose keys are the three role names, and each key's value is its own name. A numeric enumeration would also accept its reverse-mapped number keys, which are not modelled.
- Schema defaults for a new user (role USER, status PASSIVE) come from the user schema, which is not part of this model.
- The malformed top-level `$in` in the comment-ownership lookup is modelled as its evident meaning: "a comment with this id whose owner is the actor".

## Findings

| source | as written | input that shows it | evidently intended | confidence | as-written member | corrected member |
|---|---|---|---|---|---|---|
| src/services/auth.service.ts:114 | `verify` calls `activate(id)` with no token payload, so `canChange` reads `role` of `undefined` and throws | any valid token of a PASSIVE user | activate the account the verified token names. The kept status check refuses only ACTIVE accounts, and sendVerification mails SUSPENDED ones, so the corrected verify also lets a suspended account lift its own suspension (AuthService.IntendedVerifyLiftsSuspension) | high, not executed | AuthService.VerifyNeverActivates | AuthService.VerifyIntended |
| src/services/user.service.ts:122-128 | when the submitted password already compares equal to the stored hash, the raw password is written in place of the hash | an ACTIVE user re-sending the current password "pw" in an update, with a salted hash | keep the stored hash, so the password still logs in | high, not executed | AuthService.ResubmittedPasswordLocksOut | UserService.UpdateIntended |
| src/services/user.service.ts:348 | `role in Roles` also finds the names every object inherits from `Object.prototype`, and changeRole then stores such a name as the user's role | `changeRole(id, "toString")` on a live user | accept only null or the enumeration's own keys | medium, not executed; assumes Roles is a plain string enumeration | UserService.PrototypeNameBecomesRole | UserService.ChangeRoleIntended |
