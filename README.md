# FarmConnect account, forum and mentorship core in Dafny

FarmConnect is a small web application for farmers. People sign up with a
seven-field form: name, e-mail, password, confirmation, farming experience,
farm type and location. They sign in, write forum posts, like and comment on
them, and ask experienced farmers for mentorship. This project models the
server side of that application and proves properties of the model:

- **The three signup validators.** These are `validate_signup_data` of the
  fixed server and of the signup handler, and `validate_user_data` of the
  debugging tool. They live in `Signup`, with the e-mail pattern in `Email`
  and Python's `str.strip` in `Text`.
- **The SQLite account directory.** The tables of `farmconnect.db` and one
  statement method per SQL statement the scripts run live in `Store`. The
  scripts that use them are modelled in `FixServer`, `EnhancedSignup`,
  `DebugCreation` and `UserManagement`.
- **The SQLite forum.** The scripts create posts, toggle likes, add comments
  and list posts and comments (`Forum`, with `Ordering` for ORDER BY and
  LIMIT/OFFSET).
- **The SQLite mentorship workflow** (`Mentorship`): request, accept, and the
  mentor and request listings.
- **The PostgreSQL manager** (`PostgresManager`). It runs the same operations
  against PostgreSQL and adds best-effort side effects: activity logging and
  the mentor's notification.
- **The scenarios of the signup integration client** (`SignupScenarios`).

Each script that changes the database is a class whose methods change a
`Database` (or the PostgreSQL manager's own tables) step by step, statement by
statement, as the Python does. Each method is proved against a pure transition
function on the tables (`Store.AddUser`, `Forum.ToggleLike`,
`PostgresManager.RequestAndNotify`, …). Lemmas about those functions carry the
invariants the schema and the code promise:

- unique e-mails;
- ids that are never reused;
- at most one like per (user, post);
- at most one mentorship row per (mentor, mentee);
- `likes_count`/`comments_count` equal to the number of rows;
- `pending` moves only to `accepted`.

A few things from outside the core become parameters:

- Hashing. SHA-256 is a function value. bcrypt is a salted `hashpw` plus a
  `checkpw` that accepts every password against its own hash.
- The clock: `now`.
- The request's `X-Forwarded-For` header (when sent) and the peer address; `ClientIp` picks the logged one.
- Whether a best-effort insert fails.

PostgreSQL's random UUIDs and SQLite's AUTOINCREMENT become counters.

## Model

| member | source | states |
|---|---|---|
| Text.Strip | scripts/enhanced_signup_handler.py:92-94 | `str.strip()`: the result has no white space at either end and is no longer than the input |
| Text.StripKeepsInterior | scripts/enhanced_signup_handler.py:92-94 | `str.strip()` returns a slice of the input and everything it cuts off either end is white space, so the interior is kept as it was |
| Text.StripStripped | scripts/enhanced_signup_handler.py:92-94 | stripping an already stripped value changes nothing |
| Text.StripEmpty | scripts/debug_user_creation.py:153-155 | a value strips to '' exactly when every character is white space |
| Text.StrLeTotal | scripts/mentorship_management.py:51 | the TEXT order of ORDER BY full_name relates every two names |
| Text.StrLeTransitive | scripts/mentorship_management.py:51 | the TEXT order is transitive |
| Email.ShapeEndsInLetter | scripts/fix_user_creation_server.py:188-190 | every address of the pattern ends in an ASCII letter |
| Email.MatchWithoutNewline | scripts/fix_user_creation_server.py:188-190 | without a final newline, `re.match` with the anchored pattern accepts exactly the address shape |
| Email.NewlineAccepted | scripts/enhanced_signup_handler.py:118-120 | `$` also matches before a final newline: "a@b.co\n" is accepted though it is not of the shape |
| Signup.GetFormField | scripts/enhanced_signup_handler.py:92-94 | the field's first value, stripped; '' when the key is absent |
| Signup.ReadSignupForm | scripts/enhanced_signup_handler.py:31-43 | every field of the record read from a form is stripped, and an absent key reads as '' |
| Signup.MissingFields | scripts/fix_user_creation_server.py:169-171 | exactly the fields whose value is missing, in form order |
| Signup.MissingFieldsEmpty | scripts/fix_user_creation_server.py:174-179 | nothing is missing exactly when every required field passes |
| Signup.MissingFieldsStep | scripts/fix_user_creation_server.py:169-171 | the missing-field list grows one field at a time, as the loop visits them |
| Signup.EmptyFieldRejected | scripts/fix_user_creation_server.py:169-179 | a record with an empty required field is never acceptable |
| Signup.FailedChecks | scripts/fix_user_creation_server.py:181-217 | no check fails exactly when the record is acceptable; a mismatch is always among the failures |
| Signup.ContentChecks | scripts/fix_user_creation_server.py:181-217 | the loop-free chain of checks records exactly the failed checks, in order |
| Signup.ValidateSignupData | scripts/fix_user_creation_server.py:154-226 | valid iff no errors iff acceptable; missing fields are reported alone with 'Required fields are missing'; otherwise every failed check, joined by "; " |
| Signup.FirstEmpty | scripts/enhanced_signup_handler.py:100-108 | the first empty field in form order, or none when all are filled |
| Signup.FirstFailedCheck | scripts/enhanced_signup_handler.py:110-149 | none iff acceptable; otherwise the first of the collected failures |
| Signup.ValidateFirstError | scripts/enhanced_signup_handler.py:96-151 | valid iff acceptable; names the first empty key in `title()` spelling, else the first failed check |
| Signup.FirstErrorIsHeadOfCollected | scripts/enhanced_signup_handler.py:96-151 | with all fields present, the first-error validator reports the head of the collecting validator's list; a short password is reported before a mismatch |
| Signup.DebugContentChecks | scripts/debug_user_creation.py:157-176 | the chain of debug checks records exactly the failed checks, in order |
| Signup.ValidateUserData | scripts/debug_user_creation.py:147-183 | valid iff no errors iff debug-acceptable; the errors start with the blank required fields |
| Signup.DebugAcceptableIffNoErrors | scripts/debug_user_creation.py:147-183 | debug-acceptable iff no blank field and no failed check |
| Signup.DebugAcceptableHasNoErrors | scripts/debug_user_creation.py:147-183 | a debug-acceptable record has no blank field and no failed check |
| Signup.NoErrorsIsDebugAcceptable | scripts/debug_user_creation.py:147-183 | no blank field and no failed check make a record debug-acceptable |
| Signup.StrictImpliesDebugOnForms | scripts/debug_user_creation.py:147-183 | on records read from a form, the strict validators accept only what the debug validator accepts |
| Signup.DebugIsLooser | scripts/debug_user_creation.py:152 | the converse fails: a one-letter name, no confirmation and a two-letter location pass only the debug validator |
| Signup.BlankNameOnlyStrict | scripts/debug_user_creation.py:153-155 | on unstripped data, a blank name passes only the strict validator |
| Ordering.MapSeq | scripts/forum_management.py:58-70 | the projection of each row, position by position |
| Ordering.MapSeqSnoc | scripts/forum_management.py:58-70 | projecting one more row appends its projection |
| Ordering.MapSeqAppend | scripts/forum_management.py:58-70 | projection distributes over concatenation |
| Ordering.Insert | scripts/forum_management.py:42 | inserting into a sorted list keeps it sorted and adds exactly that row |
| Ordering.SortBy | scripts/forum_management.py:42 | ORDER BY: sorted by the key order and a permutation of the rows |
| Ordering.SortByMembers | scripts/forum_management.py:42 | sorting neither adds nor drops a row |
| Ordering.Window | scripts/forum_management.py:43 | SQLite LIMIT/OFFSET: a contiguous slice, at most `limit` rows when `limit` is not negative |
| Ordering.WindowSorted | scripts/forum_management.py:42-43 | a window of a sorted list is sorted |
| Ordering.WindowWithin | scripts/forum_management.py:43 | a window only holds rows of the list; offset 0 and no limit keep all of it |
| Store.UserById | scripts/user_management.py:75-81 | the row with that id, or none when no row has it |
| Store.UserByIdAppend | scripts/database_setup.py:13 | a row appended under a fresh AUTOINCREMENT id is found by that id |
| Store.FindByCredentials | scripts/user_management.py:44-51 | the first row with both the e-mail and the hash; none iff no row has both |
| Store.FindAppendedUser | scripts/database_setup.py:15 | with the e-mail not yet taken, the appended user is the one sign-in finds |
| Store.SetLastLogin | scripts/enhanced_signup_handler.py:258-264 | `last_login` of the rows with that id becomes `now`; every other row is unchanged |
| Store.EmptyTablesValid | scripts/database_setup.py:11-79 | the empty database satisfies every table invariant |
| Store.AddUserValid | scripts/database_setup.py:13-15 | inserting a user with an untaken e-mail keeps unique e-mails and fresh ids |
| Store.AddUserThenFind | scripts/fix_user_creation_server.py:328-342 | after the insert, sign-in with the same e-mail and hash finds the new row |
| Store.SetLastLoginValid | scripts/enhanced_signup_handler.py:258-264 | updating `last_login` keeps every invariant |
| Store.AddActivityValid | scripts/enhanced_signup_handler.py:286-317 | logging an activity keeps every invariant |
| Store.RemoveLike | scripts/forum_management.py:88-90 | DELETE keeps exactly the likes of other (user, post) pairs |
| Store.ShiftLikesCount | scripts/forum_management.py:92-94 | only the named post's `likes_count` moves, by the given amount |
| Store.BumpCommentsCount | scripts/forum_management.py:126-128 | only the named post's `comments_count` goes up by one |
| Store.AcceptRows | scripts/mentorship_management.py:82-86 | only the pair's pending rows become accepted |
| Store.PendingCount | scripts/mentorship_management.py:88 | `rowcount` of the UPDATE: zero iff the pair has no pending row |
| Store.Database.InsertUser | scripts/database_setup.py:13-15 | a taken e-mail violates UNIQUE and writes nothing; otherwise the row gets the next AUTOINCREMENT id |
| Store.Database.UpdateLastLogin | scripts/enhanced_signup_handler.py:258-264 | the tables become `SetLastLogin` of the old ones |
| Store.Database.InsertActivity | scripts/enhanced_signup_handler.py:307-311 | one activity row is appended under the next id |
| Store.Database.InsertPost | scripts/forum_management.py:14-20 | one post with zero counters is appended; its id is returned |
| Store.Database.DeleteLike | scripts/forum_management.py:88-90 | the likes table becomes `RemoveLike` of the old one |
| Store.Database.InsertLike | scripts/forum_management.py:99-101 | one like row is appended under the next id |
| Store.Database.UpdateLikesCount | scripts/forum_management.py:92-94 | the posts become `ShiftLikesCount` of the old ones |
| Store.Database.InsertComment | scripts/forum_management.py:120-123 | one comment row is appended; its id is returned |
| Store.Database.UpdateCommentsCount | scripts/forum_management.py:126-128 | the posts become `BumpCommentsCount` of the old ones |
| Store.Database.InsertMentorship | scripts/mentorship_management.py:26-32 | one pending request is appended; its id is returned |
| Store.Database.AcceptPending | scripts/mentorship_management.py:82-88 | the pair's pending rows are accepted; the number changed is returned |
| FixServer.FixedFarmConnectHandler.CreateUserInDatabase | scripts/fix_user_creation_server.py:307-390 | a taken e-mail is refused with no change; otherwise one row with the SHA-256 digest, and the new user is returned without it |
| FixServer.FixedFarmConnectHandler.AuthenticateUser | scripts/fix_user_creation_server.py:510-545 | succeeds iff some row has the e-mail and the password's digest; returns that row without the digest |
| FixServer.RegisterThenSignIn | scripts/fix_user_creation_server.py:307-545 | signing in after registering returns the account just created |
| EnhancedSignup.FarmConnectSignupHandler.CreateUserInDatabase | scripts/enhanced_signup_handler.py:153-204 | a taken e-mail is refused with no change; otherwise exactly one new row, returned without its digest |
| EnhancedSignup.FarmConnectSignupHandler.AuthenticateUser | scripts/enhanced_signup_handler.py:241-284 | no match changes nothing; a match sets only that user's `last_login` |
| EnhancedSignup.FarmConnectSignupHandler.LogUserActivity | scripts/enhanced_signup_handler.py:286-317 | one activity row carrying the `X-Forwarded-For` header when sent, else the peer address; or no change when the insert fails (the failure is swallowed) |
| EnhancedSignup.FarmConnectSignupHandler.HandleSignup | scripts/enhanced_signup_handler.py:25-90 | success iff the form is acceptable and the e-mail untaken; a failure changes nothing and carries the validator's or the duplicate message; success creates the account and logs `signup` best effort |
| EnhancedSignup.FarmConnectSignupHandler.HandleSignin | scripts/enhanced_signup_handler.py:210-239 | success iff the stripped credentials match; only then is `last_login` set and `login` logged best effort |
| EnhancedSignup.SignInTouchesOnlyMatchedUser | scripts/enhanced_signup_handler.py:258-264 | a sign-in changes exactly the matched row, and only its `last_login` |
| DebugCreation.UserCreationDebugger.TestUserCreation | scripts/debug_user_creation.py:74-145 | a taken e-mail is refused with no change; otherwise one new row and its id is returned |
| DebugCreation.NewIdIsFresh | scripts/debug_user_creation.py:99-122 | the id `lastrowid` reports was used by no row before, and now finds the new user |
| UserManagement.UserManager.CreateUser | scripts/user_management.py:13-37 | error iff the e-mail is taken, with no change; otherwise one new row with the next id |
| UserManagement.UserManager.AuthenticateUser | scripts/user_management.py:39-68 | succeeds iff some row has the e-mail and digest, and returns that account |
| UserManagement.UserManager.GetUserProfile | scripts/user_management.py:70-99 | succeeds iff some row has the id, and returns that row without its digest |
| UserManagement.UserManager.CreateThenAuthenticate | scripts/user_management.py:102-118 | the example run: the new id is returned, the sign-in finds the account, and the profile is that user |
| UserManagement.CreateUserAsWritten | scripts/user_management.py:13-37 | as written: the insert goes to the file named "self.db_path"; with no users table there it fails |
| UserManagement.AsWrittenAccountIsUnreachable | scripts/user_management.py:15 | the example account is not stored where sign-in looks; the corrected insert makes it found |
| Forum.LikedAfterRemove | scripts/forum_management.py:88-90 | after the DELETE, a pair is liked iff it was liked and is not the deleted pair |
| Forum.LikesOnRemove | scripts/forum_management.py:88-94 | deleting an existing like lowers the post's like count by one |
| Forum.RemoveLikeKeepsIds | scripts/database_setup.py:58 | the DELETE keeps every id below the counter |
| Forum.RemoveLikeKeepsPairs | scripts/database_setup.py:62 | the DELETE keeps one like per (user, post) |
| Forum.AddPostValid | scripts/forum_management.py:14-20 | a new post keeps every invariant and exists afterwards |
| Forum.UnlikeValid | scripts/forum_management.py:86-96 | unliking keeps every invariant, the counters included |
| Forum.LikeValid | scripts/forum_management.py:97-107 | liking keeps every invariant, the counters included |
| Forum.ToggleLikeValid | scripts/forum_management.py:74-112 | on an existing post the toggle keeps `likes_count` equal to the likes and one like per pair |
| Forum.ToggleLikeEffect | scripts/forum_management.py:74-112 | the action is "unliked" iff the pair was liked; only that pair flips; only that post's count moves, by one; no other table changes |
| Forum.ToggleTwiceRestores | scripts/forum_management.py:74-112 | toggling twice restores the counters and the liked pairs |
| Forum.CommentOnValid | scripts/forum_management.py:114-138 | on an existing post, one comment is appended, its count goes up by one, and the invariants hold |
| Forum.LikePostAsWritten | scripts/forum_management.py:74-112 | as written: the like is toggled even when no post has that id |
| Forum.AddCommentAsWritten | scripts/forum_management.py:114-138 | as written: the comment is stored even when no post has that id |
| Forum.OrphanLikeMiscounts | scripts/forum_management.py:74-112 | a like on a missing post is inherited by the post later given that id, whose `likes_count` is then wrong |
| Forum.OrphanCommentMiscounts | scripts/forum_management.py:114-138 | the same for a comment and `comments_count` |
| Forum.MatchingPosts | scripts/forum_management.py:35-53 | exactly the posts with an author and, when filtering, of the category, joined with the author |
| Forum.NewestFirstIsPreorder | scripts/forum_management.py:42 | ORDER BY created_at DESC is a total preorder |
| Forum.PostQueryMeaning | scripts/forum_management.py:30-56 | at most `limit` rows, newest first, all of the category; row k is row offset+k of the full ordered listing; with no window, every matching post |
| Forum.CommentsOfPost | scripts/forum_management.py:145-151 | exactly the post's comments that have an author |
| Forum.OldestFirstIsPreorder | scripts/forum_management.py:150 | ORDER BY created_at ASC is a total preorder |
| Forum.CommentQueryMeaning | scripts/forum_management.py:140-154 | the post's comments, oldest first, no more and no less |
| Forum.PostList | scripts/forum_management.py:58-70 | the loop builds one view per fetched row, in order |
| Forum.CommentList | scripts/forum_management.py:156-164 | the loop builds one view per fetched row, in order |
| Forum.ForumManager.CreatePost | scripts/forum_management.py:8-28 | the post is stored under the next id, which is returned |
| Forum.ForumManager.LikePost | scripts/forum_management.py:74-112 | a missing post is refused with no change; otherwise the toggle and its action |
| Forum.ForumManager.AddComment | scripts/forum_management.py:114-138 | a missing post is refused with no change; otherwise the comment and the counter, and the comment id |
| Forum.ForumManager.GetPosts | scripts/forum_management.py:30-72 | the views of the query's rows |
| Forum.ForumManager.GetComments | scripts/forum_management.py:140-166 | the views of the query's rows |
| Mentorship.AddMentorshipValid | scripts/mentorship_management.py:26-32 | a request for a new pair keeps one row per pair and leaves exactly one pending row |
| Mentorship.AcceptRowsEffect | scripts/mentorship_management.py:82-86 | acceptance keeps the invariants and every id and pair, changes no other pair, moves only pending to accepted, and leaves none pending |
| Mentorship.AcceptNothingPending | scripts/mentorship_management.py:88-90 | acceptance with nothing pending changes nothing |
| Mentorship.MentorRows | scripts/mentorship_management.py:46-59 | exactly the mentors, of the specialty when one is given |
| Mentorship.ByNameIsPreorder | scripts/mentorship_management.py:51 | ORDER BY full_name is a total preorder |
| Mentorship.RequestRows | scripts/mentorship_management.py:106-112 | exactly the mentor's pending requests whose mentee exists, joined with the mentee |
| Mentorship.NewestRequestFirstIsPreorder | scripts/mentorship_management.py:111 | ORDER BY created_at DESC is a total preorder |
| Mentorship.MentorshipManager.RequestMentorship | scripts/mentorship_management.py:8-39 | an existing pair is refused with no change; otherwise one pending row and its id |
| Mentorship.MentorshipManager.AcceptMentorship | scripts/mentorship_management.py:76-99 | refused with no change iff nothing is pending for the pair; otherwise all of it is accepted |
| Mentorship.MentorshipManager.GetAvailableMentors | scripts/mentorship_management.py:41-74 | sorted by name; every listed entry is a mentor of the specialty and every such mentor is listed |
| Mentorship.RequestViewsMeaning | scripts/mentorship_management.py:101-128 | the request listing is newest first; every entry is the view of one of the mentor's pending requests joined with its existing mentee (`RequestViewOf`), and every such request has its view listed |
| Mentorship.MentorshipManager.GetMentorshipRequests | scripts/mentorship_management.py:101-128 | newest first; every entry is the view of one of the mentor's pending requests joined with its existing mentee, and every such request is listed |
| PostgresManager.ActiveUserByEmail | scripts/postgresql_manager.py:96-105 | an active user with that e-mail; none iff there is none |
| PostgresManager.CategoryByName | scripts/postgresql_manager.py:131-135 | a category of that name; none iff there is none |
| PostgresManager.SetLastLogin | scripts/postgresql_manager.py:110-113 | only the user's `last_login` changes |
| PostgresManager.RemoveLike | scripts/postgresql_manager.py:213-214 | the DELETE keeps exactly the likes of other pairs |
| PostgresManager.AddUserValid | scripts/postgresql_manager.py:64-91 | a user with an untaken e-mail keeps unique e-mails and fresh ids |
| PostgresManager.LogActivityValid | scripts/postgresql_manager.py:332-349 | logging, or failing to log, keeps the invariants |
| PostgresManager.NotifyValid | scripts/postgresql_manager.py:311-330 | a notification, or a failed one, keeps the invariants |
| PostgresManager.RemoveLikeKeepsPairs | scripts/postgresql_manager.py:211-215 | the DELETE keeps one like per pair |
| PostgresManager.ToggleLikeValid | scripts/postgresql_manager.py:204-229 | the toggle keeps one like per pair and fresh ids |
| PostgresManager.RequestAndNotifyValid | scripts/postgresql_manager.py:281-309 | a request for a new pair and its notification keep the invariants |
| PostgresManager.RequestNotifiesMentor | scripts/postgresql_manager.py:281-309 | one request row; the mentor gets exactly one unread mentorship_request notification pointing at it, or none when that insert fails, and the request stands |
| PostgresManager.ToggleLikeEffect | scripts/postgresql_manager.py:204-229 | only the pair's like flips; `like_given` is logged only when a like is added |
| PostgresManager.ListedRows | scripts/postgresql_manager.py:159-189 | exactly the non-archived posts with an author, of the category when filtering (inner join), else any (left join) |
| PostgresManager.PinnedThenNewestIsPreorder | scripts/postgresql_manager.py:171 | ORDER BY is_pinned DESC, created_at DESC is a total preorder |
| PostgresManager.PostQueryMeaning | scripts/postgresql_manager.py:159-193 | an error iff the window is negative; otherwise at most `limit` rows, pinned first and newest first, none archived, all of the category; row k is row offset+k of the full ordered listing |
| PostgresManager.RegisterThenSignIn | scripts/postgresql_manager.py:55-124 | after registering, the new user is the active user with that e-mail and its bcrypt hash accepts the password |
| PostgresManager.ActiveUserAppended | scripts/postgresql_manager.py:96-105 | a new active user with an untaken e-mail is the one the sign-in lookup finds |
| PostgresManager.PostgreSQLFarmConnectManager.LogUserActivity | scripts/postgresql_manager.py:332-349 | one activity row, or no change when the insert fails |
| PostgresManager.PostgreSQLFarmConnectManager.CreateNotification | scripts/postgresql_manager.py:311-330 | one unread notification and its id, or a failure and no change |
| PostgresManager.PostgreSQLFarmConnectManager.CreateUser | scripts/postgresql_manager.py:64-91 | a taken e-mail is refused with no change; otherwise an active user with the bcrypt hash, returning id, name, e-mail and time |
| PostgresManager.PostgreSQLFarmConnectManager.AuthenticateUser | scripts/postgresql_manager.py:93-124 | only an active user whose hash accepts the password signs in: `last_login` set, `login` logged best effort, account returned without the hash; otherwise one error and no change |
| PostgresManager.PostgreSQLFarmConnectManager.CreatePost | scripts/postgresql_manager.py:126-157 | an unknown category is refused with no change; otherwise the post (tags default to none) and `post_created` logged best effort |
| PostgresManager.PostgreSQLFarmConnectManager.GetPosts | scripts/postgresql_manager.py:159-193 | an error iff the window is negative; otherwise at most `limit` views of the query's rows |
| PostgresManager.PostgreSQLFarmConnectManager.LikePost | scripts/postgresql_manager.py:204-229 | "unliked" iff the pair was liked; the state is the toggle |
| PostgresManager.PostgreSQLFarmConnectManager.AddCommentTo | scripts/postgresql_manager.py:231-256 | the comment under a fresh id and `comment_added` logged best effort with the post and comment ids |
| PostgresManager.PostgreSQLFarmConnectManager.RequestMentorship | scripts/postgresql_manager.py:281-309 | an existing pair is refused with no change; otherwise the request and the mentor's notification |
| SignupScenarios.StampedIsAddress | scripts/test_signup_integration.py:65 | the client's time-stamped address has the accepted shape |
| SignupScenarios.ReadFormOf | scripts/enhanced_signup_handler.py:92-94 | a form whose values have no surrounding white space reads back as its record |
| SignupScenarios.ReadValidForm | scripts/test_signup_integration.py:62-70 | the client's valid form reads as the valid user |
| SignupScenarios.ValidSignupAccepted | scripts/test_signup_integration.py:60-77 | test 1: both validators accept the valid user |
| SignupScenarios.SignupThenSigninThenDuplicate | scripts/test_signup_integration.py:78-96 | tests 1b and 2: sign-in finds the new user and the same e-mail is then taken |
| SignupScenarios.NoAtSignRejected | scripts/enhanced_signup_handler.py:117-120 | any otherwise valid signup whose address lacks '@' fails only the e-mail check, with its message |
| SignupScenarios.InvalidEmailRejected | scripts/test_signup_integration.py:98-108 | test 3: refused for the e-mail alone, with its message |
| SignupScenarios.MismatchRejected | scripts/test_signup_integration.py:110-121 | test 4: refused for the mismatch alone, with its message |
| SignupScenarios.ReadIncompleteForm | scripts/test_signup_integration.py:125-130 | test 5: the absent keys read as '' |
| SignupScenarios.MissingFieldsListed | scripts/test_signup_integration.py:123-137 | test 5: exactly the four unsent fields are reported missing |
| SignupScenarios.FirstMissingNamed | scripts/test_signup_integration.py:123-137 | test 5: the first-error validator names 'Confirmpassword' |
| SignupScenarios.ShortPasswordRejected | scripts/test_signup_integration.py:139-151 | test 6: refused for the length alone, with its message |
| SignupScenarios.InvalidExperienceRejected | scripts/test_signup_integration.py:153-164 | test 7: refused for the experience alone, with its message |
| SignupScenarios.RequestThenAcceptTwice | scripts/mentorship_management.py:76-99 | a request leaves one pending row; the first acceptance clears it and a second finds nothing |

## Left out

- HTTP and transport are left out: request parsing, JSON responses, status codes, CORS and the `run_server` loops. So are the browser scripts.
- Database setup and schema repair are left out: table creation, column checks and fixes, the listing and info endpoints, and seeding. Their effect is the table shapes and invariants of `Store`.
- The PostgreSQL search, mentor statistics, trending and dashboard queries are left out. They are database views and functions that are not part of this model.
- `hash_password` in each script is the handler's `sha256` function value, so it is deterministic by construction. The PostgreSQL `hash_password`/`verify_password` are the manager's `hashpw`/`checkpw`, and the salt is a parameter.
- SHA-256 and bcrypt are uninterpreted functions. The clock, the client address and the failure of a best-effort insert are parameters. UUIDs and AUTOINCREMENT ids are counters.
- Concurrency and transactions across connections are left out. Each method runs alone.
- The PostgreSQL schema is not part of this model. `PostgresManager` assumes these constraints:
  - `users.email` is UNIQUE;
  - `(mentor_id, mentee_id)` is UNIQUE in `mentorships`;
  - `is_active` defaults to true;
  - foreign keys are not checked.
- Trigger-maintained counters (`likes_count`, `comments_count`, `views_count`) are not modelled for PostgreSQL.
- PostgreSQL mentorship status is not modelled, because no PostgreSQL method reads or changes it.
- One `now` stands for each request's several `datetime.now()`/`CURRENT_TIMESTAMP` readings.
- ORDER BY on equal keys is left out: the database's tie order is unspecified, and the model fixes one by a stable insertion sort.
- A form key sent several times: only its first value is kept, as `get_form_field` does.
- Driver errors other than the UNIQUE violations are left out: disk, lock and type errors, and generic exceptions. The messages of the SQLite `except` branches for them are not modelled.
- Forum.ForumManager.LikePost: it checks only that the post exists, not that the user exists, which matches SQLite with foreign keys off.
- Forum.ForumManager.AddComment: likewise, only the post reference is checked.
- Mentorship.MentorshipManager.RequestMentorship: a request from a user to themself is accepted, as in the source.

## Findings

| source | as written | input that shows it | evidently intended | confidence | as-written member | corrected member |
|---|---|---|---|---|---|---|
| scripts/user_management.py:15 | `sqlite3.connect('self.db_path')` opens a file literally named `self.db_path`, not the configured database | `create_user('Test User', 'test@example.com', ...)` from the example run: the account is written to another file (or fails there), and `authenticate_user` on `farmconnect.db` never finds it | `sqlite3.connect(self.db_path)` | high (not executed) | UserManagement.AsWrittenAccountIsUnreachable | UserManagement.UserManager.CreateUser |
| scripts/forum_management.py:74-112 | `like_post` toggles the like and updates `likes_count` without checking the post exists; SQLite does not enforce the foreign key by default | like post 1 on an empty forum, then create a post: it gets id 1 and inherits the like, with `likes_count` 0 against one like row | refuse a like on a missing post | medium (not executed) | Forum.OrphanLikeMiscounts | Forum.ForumManager.LikePost |
| scripts/forum_management.py:114-138 | `add_comment` inserts the comment and bumps `comments_count` without checking the post exists | comment on post 1 on an empty forum, then create a post: it inherits the comment with `comments_count` 0 | refuse a comment on a missing post | medium (not executed) | Forum.OrphanCommentMiscounts | Forum.ForumManager.AddComment |
