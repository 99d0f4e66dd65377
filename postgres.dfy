/**
 * `PostgreSQLFarmConnectManager` (scripts/postgresql_manager.py): the
 * PostgreSQL variant of the store. Ids are fresh UUIDs, modelled by a
 * counter; passwords are hashed with bcrypt, modelled by a salted hash
 * function and a checker that accepts every password against its own hash.
 * Its side effects are best effort: a failing activity or notification
 * insert (a parameter here) is swallowed and never fails the operation that
 * triggered it.
 *
 * The PostgreSQL schema is not part of this model. The model assumes what
 * the error handlers of the code rely on: `users.email` is UNIQUE,
 * `(mentor_id, mentee_id)` is UNIQUE in `mentorships`, and `is_active`
 * defaults to true.
 */
module PostgresManager {
  import opened Wrappers
  import opened Ordering

  datatype PgUser = PgUser(
    id: nat,
    fullName: string,
    email: string,
    passwordHash: string,
    farmingExperience: string,
    farmType: string,
    location: string,
    isMentor: bool,
    bio: Option<string>,
    isActive: bool,
    createdAt: int,
    lastLogin: Option<int>)

  datatype Category = Category(id: nat, name: string)

  datatype PgPost = PgPost(
    id: nat,
    userId: nat,
    categoryId: nat,
    title: string,
    content: string,
    tags: seq<string>,
    createdAt: int,
    isPinned: bool,
    isArchived: bool)

  datatype PgLike = PgLike(id: nat, userId: nat, postId: nat, createdAt: int)

  datatype PgComment = PgComment(id: nat, postId: nat, userId: nat, content: string,
                                 parentCommentId: Option<nat>, createdAt: int)

  datatype PgMentorship = PgMentorship(id: nat, mentorId: nat, menteeId: nat, message: Option<string>, createdAt: int)

  datatype NotificationKind = MentorshipRequestNote

  datatype Notification = Notification(
    id: nat,
    userId: nat,
    kind: NotificationKind,
    title: string,
    message: string,
    relatedId: Option<nat>,
    isRead: bool,
    createdAt: int)

  datatype ActivityKind = Login | PostCreated | LikeGiven | CommentAdded

  /** The JSON objects logged with an activity. */
  datatype ActivityDetails = PostRef(postId: nat) | CommentRef(postId: nat, commentId: nat)

  datatype PgActivity = PgActivity(
    id: nat,
    userId: nat,
    kind: ActivityKind,
    details: Option<ActivityDetails>,
    ipAddress: Option<string>,
    createdAt: int)

  datatype PgTables = PgTables(
    users: seq<PgUser>,
    categories: seq<Category>,
    posts: seq<PgPost>,
    likes: seq<PgLike>,
    comments: seq<PgComment>,
    mentorships: seq<PgMentorship>,
    notifications: seq<Notification>,
    activity: seq<PgActivity>,
    nextId: nat)

  const MentorshipNoteTitle := "New Mentorship Request"
  const MentorshipNoteMessage := "You have received a new mentorship request."

  // ---------------------------------------------------------------------------
  // Invariants

  predicate EmailTaken(users: seq<PgUser>, email: string) {
    exists i :: 0 <= i < |users| && users[i].email == email
  }

  predicate Liked(likes: seq<PgLike>, userId: nat, postId: nat) {
    exists i :: 0 <= i < |likes| && likes[i].userId == userId && likes[i].postId == postId
  }

  predicate Requested(ms: seq<PgMentorship>, mentorId: nat, menteeId: nat) {
    exists i :: 0 <= i < |ms| && ms[i].mentorId == mentorId && ms[i].menteeId == menteeId
  }

  predicate OneLikePerPair(likes: seq<PgLike>) {
    forall i, j :: 0 <= i < j < |likes| ==> likes[i].userId != likes[j].userId || likes[i].postId != likes[j].postId
  }

  predicate OneRequestPerPair(ms: seq<PgMentorship>) {
    forall i, j :: 0 <= i < j < |ms| ==> ms[i].mentorId != ms[j].mentorId || ms[i].menteeId != ms[j].menteeId
  }

  /** Every id handed out is below `nextId`, so the next one is fresh. */
  predicate IdsIssued(t: PgTables) {
    && (forall i :: 0 <= i < |t.users| ==> t.users[i].id < t.nextId)
    && (forall i :: 0 <= i < |t.posts| ==> t.posts[i].id < t.nextId)
    && (forall i :: 0 <= i < |t.likes| ==> t.likes[i].id < t.nextId)
    && (forall i :: 0 <= i < |t.comments| ==> t.comments[i].id < t.nextId)
    && (forall i :: 0 <= i < |t.mentorships| ==> t.mentorships[i].id < t.nextId)
    && (forall i :: 0 <= i < |t.notifications| ==> t.notifications[i].id < t.nextId)
    && (forall i :: 0 <= i < |t.activity| ==> t.activity[i].id < t.nextId)
  }

  /** Unique user ids and e-mails, one like per (user, post), one request per (mentor, mentee). */
  predicate PgValid(t: PgTables) {
    && IdsIssued(t)
    && (forall i, j :: 0 <= i < j < |t.users| ==> t.users[i].id < t.users[j].id)
    && (forall i, j :: 0 <= i < j < |t.users| ==> t.users[i].email != t.users[j].email)
    && OneLikePerPair(t.likes)
    && OneRequestPerPair(t.mentorships)
  }

  // ---------------------------------------------------------------------------
  // Lookups

  /** `SELECT ... FROM users WHERE email = %s AND is_active = TRUE`, first row. */
  function ActiveUserByEmail(users: seq<PgUser>, email: string): (r: Option<PgUser>)
    ensures r.Some? ==> r.value in users && r.value.email == email && r.value.isActive
    ensures r.None? <==> forall i :: 0 <= i < |users| ==> users[i].email != email || !users[i].isActive
  {
    if users == [] then None
    else if users[0].email == email && users[0].isActive then Some(users[0])
    else
      var r := ActiveUserByEmail(users[1..], email);
      assert forall i :: 1 <= i < |users| ==> users[i] == users[1..][i - 1];
      r
  }

  /** `SELECT id FROM forum_categories WHERE name = %s`, first row. */
  function CategoryByName(categories: seq<Category>, name: string): (r: Option<Category>)
    ensures r.Some? ==> r.value in categories && r.value.name == name
    ensures r.None? <==> forall i :: 0 <= i < |categories| ==> categories[i].name != name
  {
    if categories == [] then None
    else if categories[0].name == name then Some(categories[0])
    else
      var r := CategoryByName(categories[1..], name);
      assert forall i :: 1 <= i < |categories| ==> categories[i] == categories[1..][i - 1];
      r
  }

  function CategoryById(categories: seq<Category>, id: nat): (r: Option<Category>)
    ensures r.Some? ==> r.value in categories && r.value.id == id
    ensures r.None? <==> forall i :: 0 <= i < |categories| ==> categories[i].id != id
  {
    if categories == [] then None
    else if categories[0].id == id then Some(categories[0])
    else
      var r := CategoryById(categories[1..], id);
      assert forall i :: 1 <= i < |categories| ==> categories[i] == categories[1..][i - 1];
      r
  }

  function UserById(users: seq<PgUser>, id: nat): (r: Option<PgUser>)
    ensures r.Some? ==> r.value in users && r.value.id == id
    ensures r.None? <==> forall i :: 0 <= i < |users| ==> users[i].id != id
  {
    if users == [] then None
    else if users[0].id == id then Some(users[0])
    else
      var r := UserById(users[1..], id);
      assert forall i :: 1 <= i < |users| ==> users[i] == users[1..][i - 1];
      r
  }

  // ---------------------------------------------------------------------------
  // Transitions: one per statement, each new row under the fresh id

  function AddUser(t: PgTables, fullName: string, email: string, passwordHash: string, farmingExperience: string,
                   farmType: string, location: string, isMentor: bool, bio: Option<string>, now: int): PgTables
  {
    t.(users := t.users + [PgUser(t.nextId, fullName, email, passwordHash, farmingExperience, farmType, location,
                                  isMentor, bio, true, now, None)],
       nextId := t.nextId + 1)
  }

  /** `UPDATE users SET last_login = CURRENT_TIMESTAMP WHERE id = %s`. */
  function SetLastLogin(t: PgTables, id: nat, now: int): (r: PgTables)
    ensures |r.users| == |t.users|
    ensures forall i :: 0 <= i < |t.users| ==>
              r.users[i] == if t.users[i].id == id then t.users[i].(lastLogin := Some(now)) else t.users[i]
  {
    t.(users := seq(|t.users|, i requires 0 <= i < |t.users| =>
                      if t.users[i].id == id then t.users[i].(lastLogin := Some(now)) else t.users[i]))
  }

  /** `log_user_activity`: one row, or nothing when the insert fails. */
  function LogActivity(t: PgTables, userId: nat, kind: ActivityKind, details: Option<ActivityDetails>,
                       ipAddress: Option<string>, now: int, fails: bool): PgTables
  {
    if fails then t
    else t.(activity := t.activity + [PgActivity(t.nextId, userId, kind, details, ipAddress, now)],
            nextId := t.nextId + 1)
  }

  function AddPost(t: PgTables, userId: nat, categoryId: nat, title: string, content: string, tags: seq<string>,
                   now: int): PgTables
  {
    t.(posts := t.posts + [PgPost(t.nextId, userId, categoryId, title, content, tags, now, false, false)],
       nextId := t.nextId + 1)
  }

  /** `DELETE FROM likes WHERE user_id = %s AND post_id = %s`. */
  function RemoveLike(likes: seq<PgLike>, userId: nat, postId: nat): (r: seq<PgLike>)
    ensures forall x :: x in r <==> x in likes && (x.userId != userId || x.postId != postId)
  {
    if likes == [] then []
    else
      var init, last := likes[..|likes| - 1], likes[|likes| - 1];
      assert likes == init + [last];
      RemoveLike(init, userId, postId) + if last.userId == userId && last.postId == postId then [] else [last]
  }

  function AddLike(t: PgTables, userId: nat, postId: nat, now: int): PgTables {
    t.(likes := t.likes + [PgLike(t.nextId, userId, postId, now)], nextId := t.nextId + 1)
  }

  function AddComment(t: PgTables, postId: nat, userId: nat, content: string, parent: Option<nat>, now: int): PgTables {
    t.(comments := t.comments + [PgComment(t.nextId, postId, userId, content, parent, now)], nextId := t.nextId + 1)
  }

  function AddMentorship(t: PgTables, mentorId: nat, menteeId: nat, message: Option<string>, now: int): PgTables {
    t.(mentorships := t.mentorships + [PgMentorship(t.nextId, mentorId, menteeId, message, now)],
       nextId := t.nextId + 1)
  }

  /** `create_notification`: one unread row, or nothing when the insert fails. */
  function Notify(t: PgTables, userId: nat, kind: NotificationKind, title: string, message: string,
                  relatedId: Option<nat>, now: int, fails: bool): PgTables
  {
    if fails then t
    else t.(notifications := t.notifications + [Notification(t.nextId, userId, kind, title, message, relatedId, false, now)],
            nextId := t.nextId + 1)
  }

  /** `like_post` after its SELECT: delete the like, or insert it and log `like_given`. */
  function ToggleLike(t: PgTables, userId: nat, postId: nat, now: int, logFails: bool): PgTables {
    if Liked(t.likes, userId, postId) then t.(likes := RemoveLike(t.likes, userId, postId))
    else LogActivity(AddLike(t, userId, postId, now), userId, LikeGiven, Some(PostRef(postId)), None, now, logFails)
  }

  /** `request_mentorship` after a successful insert: the mentor's notification, best effort. */
  function RequestAndNotify(t: PgTables, mentorId: nat, menteeId: nat, message: Option<string>, now: int,
                            notifyFails: bool): PgTables
  {
    Notify(AddMentorship(t, mentorId, menteeId, message, now), mentorId, MentorshipRequestNote,
           MentorshipNoteTitle, MentorshipNoteMessage, Some(t.nextId), now, notifyFails)
  }

  // ---------------------------------------------------------------------------
  // What the transitions keep

  lemma LogActivityValid(t: PgTables, userId: nat, kind: ActivityKind, details: Option<ActivityDetails>,
                         ipAddress: Option<string>, now: int, fails: bool)
    requires PgValid(t)
    ensures PgValid(LogActivity(t, userId, kind, details, ipAddress, now, fails))
  {
  }

  lemma NotifyValid(t: PgTables, userId: nat, kind: NotificationKind, title: string, message: string,
                    relatedId: Option<nat>, now: int, fails: bool)
    requires PgValid(t)
    ensures PgValid(Notify(t, userId, kind, title, message, relatedId, now, fails))
  {
  }

  lemma AddUserValid(t: PgTables, fullName: string, email: string, passwordHash: string, farmingExperience: string,
                     farmType: string, location: string, isMentor: bool, bio: Option<string>, now: int)
    requires PgValid(t) && !EmailTaken(t.users, email)
    ensures PgValid(AddUser(t, fullName, email, passwordHash, farmingExperience, farmType, location, isMentor, bio, now))
  {
  }

  lemma SetLastLoginValid(t: PgTables, id: nat, now: int)
    requires PgValid(t)
    ensures PgValid(SetLastLogin(t, id, now))
  {
  }

  lemma AddPostValid(t: PgTables, userId: nat, categoryId: nat, title: string, content: string, tags: seq<string>, now: int)
    requires PgValid(t)
    ensures PgValid(AddPost(t, userId, categoryId, title, content, tags, now))
  {
  }

  lemma AddCommentValid(t: PgTables, postId: nat, userId: nat, content: string, parent: Option<nat>, now: int)
    requires PgValid(t)
    ensures PgValid(AddComment(t, postId, userId, content, parent, now))
  {
  }

  lemma {:induction false} RemoveLikeKeepsPairs(likes: seq<PgLike>, userId: nat, postId: nat)
    requires OneLikePerPair(likes)
    ensures OneLikePerPair(RemoveLike(likes, userId, postId))
  {
    if likes != [] {
      var init, last := likes[..|likes| - 1], likes[|likes| - 1];
      assert likes == init + [last];
      assert forall i :: 0 <= i < |init| ==> init[i] == likes[i];
      RemoveLikeKeepsPairs(init, userId, postId);
      var r := RemoveLike(init, userId, postId);
      if !(last.userId == userId && last.postId == postId) {
        forall i | 0 <= i < |r| ensures r[i].userId != last.userId || r[i].postId != last.postId {
          var k :| 0 <= k < |init| && init[k] == r[i];
        }
        assert RemoveLike(likes, userId, postId) == r + [last];
      }
    }
  }

  /** The toggle keeps one like per pair and every id fresh. */
  lemma ToggleLikeValid(t: PgTables, userId: nat, postId: nat, now: int, logFails: bool)
    requires PgValid(t)
    ensures PgValid(ToggleLike(t, userId, postId, now, logFails))
  {
    if Liked(t.likes, userId, postId) {
      RemoveLikeKeepsPairs(t.likes, userId, postId);
      var r := RemoveLike(t.likes, userId, postId);
      forall i | 0 <= i < |r| ensures r[i].id < t.nextId {
        assert r[i] in t.likes;
      }
    } else {
      var t' := AddLike(t, userId, postId, now);
      assert forall i :: 0 <= i < |t.likes| ==> t'.likes[i] == t.likes[i];
      assert PgValid(t');
      LogActivityValid(t', userId, LikeGiven, Some(PostRef(postId)), None, now, logFails);
    }
  }

  lemma RequestAndNotifyValid(t: PgTables, mentorId: nat, menteeId: nat, message: Option<string>, now: int,
                              notifyFails: bool)
    requires PgValid(t) && !Requested(t.mentorships, mentorId, menteeId)
    ensures PgValid(RequestAndNotify(t, mentorId, menteeId, message, now, notifyFails))
  {
    var t' := AddMentorship(t, mentorId, menteeId, message, now);
    assert forall i :: 0 <= i < |t.mentorships| ==> t'.mentorships[i] == t.mentorships[i];
    assert PgValid(t');
    NotifyValid(t', mentorId, MentorshipRequestNote, MentorshipNoteTitle, MentorshipNoteMessage, Some(t.nextId), now,
                notifyFails);
  }

  // ---------------------------------------------------------------------------
  // Properties of the operations

  /**
   * A successful request creates the pair's one request row and, unless the
   * notification insert fails, exactly one notification: of type
   * mentorship_request, addressed to the mentor, unread, pointing at the new
   * request. A failing notification leaves the request in place.
   */
  lemma RequestNotifiesMentor(t: PgTables, mentorId: nat, menteeId: nat, message: Option<string>, now: int,
                              notifyFails: bool)
    requires PgValid(t) && !Requested(t.mentorships, mentorId, menteeId)
    ensures var t' := RequestAndNotify(t, mentorId, menteeId, message, now, notifyFails);
            && t'.mentorships == t.mentorships + [PgMentorship(t.nextId, mentorId, menteeId, message, now)]
            && Requested(t'.mentorships, mentorId, menteeId)
            && (forall i :: 0 <= i < |t.mentorships| ==> t.mentorships[i].id != t.nextId)
            && (notifyFails ==> t'.notifications == t.notifications)
            && (!notifyFails ==>
                  t'.notifications == t.notifications + [Notification(t.nextId + 1, mentorId, MentorshipRequestNote,
                                                                      MentorshipNoteTitle, MentorshipNoteMessage,
                                                                      Some(t.nextId), false, now)])
            && t'.users == t.users && t'.posts == t.posts && t'.likes == t.likes && t'.activity == t.activity
  {
    var t' := RequestAndNotify(t, mentorId, menteeId, message, now, notifyFails);
    assert t'.mentorships[|t.mentorships|].mentorId == mentorId;
    assert t'.mentorships[|t.mentorships|].menteeId == menteeId;
  }

  /**
   * The toggle flips the pair's like and no other; `like_given` is logged
   * only when a like is added (and the log insert works); unliking logs nothing.
   */
  lemma ToggleLikeEffect(t: PgTables, userId: nat, postId: nat, now: int, logFails: bool)
    ensures var t' := ToggleLike(t, userId, postId, now, logFails);
            && (forall u, p :: Liked(t'.likes, u, p) <==>
                                 if u == userId && p == postId then !Liked(t.likes, u, p) else Liked(t.likes, u, p))
            && (Liked(t.likes, userId, postId) || logFails ==> t'.activity == t.activity)
            && (!Liked(t.likes, userId, postId) && !logFails ==>
                  t'.activity == t.activity + [PgActivity(t.nextId + 1, userId, LikeGiven, Some(PostRef(postId)), None, now)])
  {
    var t' := ToggleLike(t, userId, postId, now, logFails);
    forall u, p
      ensures Liked(t'.likes, u, p) <==> if u == userId && p == postId then !Liked(t.likes, u, p) else Liked(t.likes, u, p)
    {
      if Liked(t.likes, userId, postId) {
        var r := RemoveLike(t.likes, userId, postId);
        if Liked(t.likes, u, p) && (u != userId || p != postId) {
          var i :| 0 <= i < |t.likes| && t.likes[i].userId == u && t.likes[i].postId == p;
          assert t.likes[i] in r;
        }
        if Liked(r, u, p) {
          var i :| 0 <= i < |r| && r[i].userId == u && r[i].postId == p;
          assert r[i] in t.likes;
        }
      } else {
        var row := PgLike(t.nextId, userId, postId, now);
        assert t'.likes == t.likes + [row];
        if Liked(t.likes, u, p) {
          var i :| 0 <= i < |t.likes| && t.likes[i].userId == u && t.likes[i].postId == p;
          assert t'.likes[i] == t.likes[i];
        }
        if u == userId && p == postId {
          assert t'.likes[|t.likes|] == row;
        }
        if Liked(t'.likes, u, p) {
          var i :| 0 <= i < |t'.likes| && t'.likes[i].userId == u && t'.likes[i].postId == p;
          if i < |t.likes| {
            assert t.likes[i] == t'.likes[i];
          }
        }
      }
    }
  }

  // ---------------------------------------------------------------------------
  // Results

  /** `RETURNING id, full_name, email, created_at`. */
  datatype NewUser = NewUser(id: nat, fullName: string, email: string, createdAt: int)

  /** The signed-in user: every selected column but `password_hash`. */
  datatype Account = Account(
    id: nat,
    fullName: string,
    email: string,
    farmingExperience: string,
    farmType: string,
    location: string,
    isMentor: bool,
    bio: Option<string>,
    createdAt: int)

  function AccountOf(u: PgUser): Account {
    Account(u.id, u.fullName, u.email, u.farmingExperience, u.farmType, u.location, u.isMentor, u.bio, u.createdAt)
  }

  datatype NewPost = NewPost(id: nat, title: string, createdAt: int)

  datatype NewComment = NewComment(id: nat, content: string, createdAt: int)

  datatype NewMentorship = NewMentorship(id: nat, createdAt: int)

  datatype LikeAction = LikeAdded | LikeRemoved

  datatype PgError =
    | EmailAlreadyExists       // 'Email already exists!'
    | InvalidCredentials       // 'Invalid email or password'
    | InvalidCategory          // 'Invalid category'
    | RequestAlreadyExists     // 'Mentorship request already exists'
    | NegativeWindow           // PostgreSQL refuses a negative LIMIT or OFFSET
    | NotificationFailed       // the notification insert raised

  function PgErrorMessage(e: PgError): string {
    match e
    case EmailAlreadyExists => "Email already exists!"
    case InvalidCredentials => "Invalid email or password"
    case InvalidCategory => "Invalid category"
    case RequestAlreadyExists => "Mentorship request already exists"
    case NegativeWindow => "Error fetching posts"
    case NotificationFailed => "Error creating notification"
  }

  // ---------------------------------------------------------------------------
  // The post listing

  /** One row of `get_posts`; the counters kept by database triggers are not part of this model. */
  datatype PostView = PostView(
    id: nat,
    title: string,
    content: string,
    tags: seq<string>,
    createdAt: int,
    authorName: string,
    authorExperience: string,
    categoryName: Option<string>)

  datatype PostRow = PostRow(post: PgPost, author: PgUser, category: Option<Category>)

  function ViewPost(r: PostRow): PostView {
    PostView(r.post.id, r.post.title, r.post.content, r.post.tags, r.post.createdAt, r.author.fullName,
             r.author.farmingExperience, if r.category.Some? then Some(r.category.value.name) else None)
  }

  predicate Filtering(categoryName: Option<string>) {
    categoryName.Some? && categoryName.value != ""
  }

  /**
   * Whether a post with this author and this category lookup is listed: not
   * archived, and, when filtering, in a category of that name (inner join);
   * otherwise any category or none (left join).
   */
  predicate Listed(p: PgPost, category: Option<Category>, categoryName: Option<string>) {
    !p.isArchived && (Filtering(categoryName) ==> category.Some? && category.value.name == categoryName.value)
  }

  function ListedRows(t: PgTables, posts: seq<PgPost>, categoryName: Option<string>): (r: seq<PostRow>)
    ensures forall x :: x in r <==>
              && x.post in posts
              && UserById(t.users, x.post.userId) == Some(x.author)
              && x.category == CategoryById(t.categories, x.post.categoryId)
              && Listed(x.post, x.category, categoryName)
  {
    if posts == [] then []
    else
      var init, last := posts[..|posts| - 1], posts[|posts| - 1];
      assert posts == init + [last];
      var r := ListedRows(t, init, categoryName);
      var category := CategoryById(t.categories, last.categoryId);
      match UserById(t.users, last.userId)
      case Some(u) => if Listed(last, category, categoryName) then r + [PostRow(last, u, category)] else r
      case None => r
  }

  /** `ORDER BY p.is_pinned DESC, p.created_at DESC`. */
  predicate PinnedThenNewest(a: PostRow, b: PostRow) {
    (a.post.isPinned && !b.post.isPinned) || (a.post.isPinned == b.post.isPinned && a.post.createdAt >= b.post.createdAt)
  }

  lemma PinnedThenNewestIsPreorder()
    ensures TotalPreorder(PinnedThenNewest)
  {
  }

  /** The rows `get_posts` fetches; PostgreSQL rejects a negative LIMIT or OFFSET. */
  function PostQuery(t: PgTables, categoryName: Option<string>, limit: int, offset: int): Result<seq<PostRow>, PgError> {
    if limit < 0 || offset < 0 then Err(NegativeWindow)
    else
      PinnedThenNewestIsPreorder();
      Ok(Window(SortBy(ListedRows(t, t.posts, categoryName), PinnedThenNewest), offset, limit))
  }

  /**
   * `get_posts` fails exactly on a negative window; otherwise it returns at
   * most `limit` rows, none archived, all pinned rows before the others and
   * each group newest first, all of the requested category: the rows of the
   * full ordered listing starting after `offset` of them.
   */
  lemma PostQueryMeaning(t: PgTables, categoryName: Option<string>, limit: int, offset: int)
    ensures PostQuery(t, categoryName, limit, offset).Err? <==> limit < 0 || offset < 0
    ensures PostQuery(t, categoryName, limit, offset).Ok? ==>
              var r := PostQuery(t, categoryName, limit, offset).value;
              && |r| <= limit
              && (forall i, j :: 0 <= i < j < |r| ==> PinnedThenNewest(r[i], r[j]))
              && (forall x :: x in r ==> x.post in t.posts && !x.post.isArchived
                                         && Listed(x.post, x.category, categoryName))
              && (forall k :: 0 <= k < |r| ==>
                    var listing := SortBy(ListedRows(t, t.posts, categoryName), PinnedThenNewest);
                    offset + k < |listing| && r[k] == listing[offset + k])
  {
    if limit >= 0 && offset >= 0 {
      PinnedThenNewestIsPreorder();
      var all := ListedRows(t, t.posts, categoryName);
      var sorted := SortBy(all, PinnedThenNewest);
      WindowSorted(sorted, offset, limit, PinnedThenNewest);
      WindowWithin(sorted, offset, limit);
      SortByMembers(all, PinnedThenNewest);
      var r := Window(sorted, offset, limit);
      assert PostQuery(t, categoryName, limit, offset) == Ok(r);
      assert forall k :: 0 <= k < |r| ==> offset + k < |sorted| && r[k] == sorted[offset + k];
    }
  }

  // ---------------------------------------------------------------------------
  // The manager

  class PostgreSQLFarmConnectManager {
    var users: seq<PgUser>
    var categories: seq<Category>
    var posts: seq<PgPost>
    var likes: seq<PgLike>
    var comments: seq<PgComment>
    var mentorships: seq<PgMentorship>
    var notifications: seq<Notification>
    var activity: seq<PgActivity>
    /** The source of fresh UUIDs. */
    var nextId: nat
    /** `bcrypt.hashpw(password, salt)`. */
    const hashpw: (string, string) -> string
    /** `bcrypt.checkpw(password, hashed)`. */
    const checkpw: (string, string) -> bool

    function State(): PgTables
      reads this
    {
      PgTables(users, categories, posts, likes, comments, mentorships, notifications, activity, nextId)
    }

    /** The table invariants, and bcrypt accepting every password against a hash of it. */
    ghost predicate Valid()
      reads this
    {
      && PgValid(State())
      && forall p, s :: checkpw(p, hashpw(p, s))
    }

    /** A connection to a database holding only the seeded forum categories. */
    constructor (categories: seq<Category>, hashpw: (string, string) -> string, checkpw: (string, string) -> bool)
      requires forall p, s :: checkpw(p, hashpw(p, s))
      ensures Valid()
      ensures State() == PgTables([], categories, [], [], [], [], [], [], 0)
      ensures this.hashpw == hashpw && this.checkpw == checkpw
    {
      this.users, this.categories, this.posts, this.likes := [], categories, [], [];
      this.comments, this.mentorships, this.notifications, this.activity := [], [], [], [];
      this.nextId := 0;
      this.hashpw, this.checkpw := hashpw, checkpw;
    }

    /** `log_user_activity`: one activity row, unless the insert fails, which is swallowed. */
    method LogUserActivity(userId: nat, kind: ActivityKind, details: Option<ActivityDetails>,
                           ipAddress: Option<string>, now: int, fails: bool)
      requires Valid()
      modifies this
      ensures Valid()
      ensures State() == LogActivity(old(State()), userId, kind, details, ipAddress, now, fails)
    {
      LogActivityValid(State(), userId, kind, details, ipAddress, now, fails);
      if !fails {
        activity, nextId := activity + [PgActivity(nextId, userId, kind, details, ipAddress, now)], nextId + 1;
      }
    }

    /**
     * `create_notification`: one unread notification, or, when the insert
     * fails, a failure result and no change.
     */
    method CreateNotification(userId: nat, kind: NotificationKind, title: string, message: string,
                              relatedId: Option<nat>, now: int, fails: bool)
      returns (r: Result<nat, PgError>)
      requires Valid()
      modifies this
      ensures Valid()
      ensures State() == Notify(old(State()), userId, kind, title, message, relatedId, now, fails)
      ensures r == if fails then Err(NotificationFailed) else Ok(old(nextId))
    {
      NotifyValid(State(), userId, kind, title, message, relatedId, now, fails);
      if fails {
        return Err(NotificationFailed);
      }
      r := Ok(nextId);
      notifications, nextId :=
        notifications + [Notification(nextId, userId, kind, title, message, relatedId, false, now)], nextId + 1;
    }

    /**
     * `create_user`: a taken e-mail violates the UNIQUE constraint and
     * nothing is written; otherwise the user is stored with a bcrypt hash of
     * the password and active, and the id, name, e-mail and creation time
     * are returned.
     */
    method CreateUser(fullName: string, email: string, password: string, farmingExperience: string, farmType: string,
                      location: string, isMentor: bool, bio: Option<string>, salt: string, now: int)
      returns (r: Result<NewUser, PgError>)
      requires Valid()
      modifies this
      ensures Valid()
      ensures EmailTaken(old(users), email) ==> r == Err(EmailAlreadyExists) && State() == old(State())
      ensures !EmailTaken(old(users), email) ==>
                && r == Ok(NewUser(old(nextId), fullName, email, now))
                && State() == AddUser(old(State()), fullName, email, hashpw(password, salt), farmingExperience,
                                      farmType, location, isMentor, bio, now)
    {
      if EmailTaken(users, email) {
        return Err(EmailAlreadyExists);
      }
      var t := AddUser(State(), fullName, email, hashpw(password, salt), farmingExperience, farmType, location,
                       isMentor, bio, now);
      AddUserValid(State(), fullName, email, hashpw(password, salt), farmingExperience, farmType, location,
                   isMentor, bio, now);
      r := Ok(NewUser(nextId, fullName, email, now));
      users, nextId := t.users, t.nextId;
      assert State() == t;
    }

    /**
     * `authenticate_user`: only an active user with this e-mail whose hash
     * accepts the password signs in; that user's `last_login` is set and a
     * `login` activity logged (best effort), and the user is returned
     * without the hash. Every other case is the same error and changes nothing.
     */
    method AuthenticateUser(email: string, password: string, now: int, logFails: bool) returns (r: Result<Account, PgError>)
      requires Valid()
      modifies this
      ensures Valid()
      ensures var found := ActiveUserByEmail(old(users), email);
              (found.None? || !checkpw(password, found.value.passwordHash)) ==>
                r == Err(InvalidCredentials) && State() == old(State())
      ensures var found := ActiveUserByEmail(old(users), email);
              found.Some? && checkpw(password, found.value.passwordHash) ==>
                && r == Ok(AccountOf(found.value))
                && State() == LogActivity(SetLastLogin(old(State()), found.value.id, now), found.value.id, Login,
                                          None, None, now, logFails)
    {
      var found := ActiveUserByEmail(users, email);
      if found.None? || !checkpw(password, found.value.passwordHash) {
        return Err(InvalidCredentials);
      }
      var u := found.value;
      var t := SetLastLogin(State(), u.id, now);
      SetLastLoginValid(State(), u.id, now);
      users := t.users;
      assert State() == t;
      LogUserActivity(u.id, Login, None, None, now, logFails);
      r := Ok(AccountOf(u));
    }

    /**
     * `create_post`: an unknown category name answers 'Invalid category' and
     * inserts nothing; otherwise the post is stored (tags default to none)
     * and `post_created` is logged (best effort).
     */
    method CreatePost(userId: nat, title: string, content: string, categoryName: string, tags: Option<seq<string>>,
                      now: int, logFails: bool)
      returns (r: Result<NewPost, PgError>)
      requires Valid()
      modifies this
      ensures Valid()
      ensures CategoryByName(old(categories), categoryName).None? ==> r == Err(InvalidCategory) && State() == old(State())
      ensures CategoryByName(old(categories), categoryName).Some? ==>
                && r == Ok(NewPost(old(nextId), title, now))
                && State() == LogActivity(AddPost(old(State()), userId, CategoryByName(old(categories), categoryName).value.id,
                                                  title, content, if tags.Some? then tags.value else [], now),
                                          userId, PostCreated, Some(PostRef(old(nextId))), None, now, logFails)
    {
      var category := CategoryByName(categories, categoryName);
      if category.None? {
        return Err(InvalidCategory);
      }
      var postId := nextId;
      var t := AddPost(State(), userId, category.value.id, title, content, if tags.Some? then tags.value else [], now);
      AddPostValid(State(), userId, category.value.id, title, content, if tags.Some? then tags.value else [], now);
      posts, nextId := t.posts, t.nextId;
      assert State() == t;
      LogUserActivity(userId, PostCreated, Some(PostRef(postId)), None, now, logFails);
      r := Ok(NewPost(postId, title, now));
    }

    /** `get_posts`: the listed rows as views, or the error of a negative window. */
    function GetPosts(categoryName: Option<string>, limit: int, offset: int): (r: Result<seq<PostView>, PgError>)
      reads this
      ensures r.Err? <==> limit < 0 || offset < 0
      ensures r.Ok? ==> |r.value| <= limit
      ensures r.Ok? ==> r.value == MapSeq(PostQuery(State(), categoryName, limit, offset).value, ViewPost)
    {
      PostQueryMeaning(State(), categoryName, limit, offset);
      match PostQuery(State(), categoryName, limit, offset)
      case Err(e) => Err(e)
      case Ok(rows) => Ok(MapSeq(rows, ViewPost))
    }

    /** `like_post`: remove the user's like, or add it and log `like_given` (best effort). */
    method LikePost(userId: nat, postId: nat, now: int, logFails: bool) returns (action: LikeAction)
      requires Valid()
      modifies this
      ensures Valid()
      ensures action == if Liked(old(likes), userId, postId) then LikeRemoved else LikeAdded
      ensures State() == ToggleLike(old(State()), userId, postId, now, logFails)
    {
      ToggleLikeValid(State(), userId, postId, now, logFails);
      if Liked(likes, userId, postId) {
        likes := RemoveLike(likes, userId, postId);
        action := LikeRemoved;
      } else {
        likes, nextId := likes + [PgLike(nextId, userId, postId, now)], nextId + 1;
        LogUserActivity(userId, LikeGiven, Some(PostRef(postId)), None, now, logFails);
        action := LikeAdded;
      }
    }

    /** `add_comment`: the comment is stored under a fresh id and `comment_added` logged (best effort). */
    method AddCommentTo(userId: nat, postId: nat, content: string, parent: Option<nat>, now: int, logFails: bool)
      returns (r: NewComment)
      requires Valid()
      modifies this
      ensures Valid()
      ensures r == NewComment(old(nextId), content, now)
      ensures State() == LogActivity(AddComment(old(State()), postId, userId, content, parent, now), userId,
                                     CommentAdded, Some(CommentRef(postId, old(nextId))), None, now, logFails)
    {
      var commentId := nextId;
      AddCommentValid(State(), postId, userId, content, parent, now);
      comments, nextId := comments + [PgComment(nextId, postId, userId, content, parent, now)], nextId + 1;
      LogUserActivity(userId, CommentAdded, Some(CommentRef(postId, commentId)), None, now, logFails);
      r := NewComment(commentId, content, now);
    }

    /**
     * `request_mentorship`: a pair that already has a request violates the
     * UNIQUE constraint and nothing is written; otherwise the request is
     * stored and the mentor notified, and a failing notification does not
     * fail the request.
     */
    method RequestMentorship(menteeId: nat, mentorId: nat, message: Option<string>, now: int, notifyFails: bool)
      returns (r: Result<NewMentorship, PgError>)
      requires Valid()
      modifies this
      ensures Valid()
      ensures Requested(old(mentorships), mentorId, menteeId) ==> r == Err(RequestAlreadyExists) && State() == old(State())
      ensures !Requested(old(mentorships), mentorId, menteeId) ==>
                && r == Ok(NewMentorship(old(nextId), now))
                && State() == RequestAndNotify(old(State()), mentorId, menteeId, message, now, notifyFails)
    {
      if Requested(mentorships, mentorId, menteeId) {
        return Err(RequestAlreadyExists);
      }
      RequestAndNotifyValid(State(), mentorId, menteeId, message, now, notifyFails);
      var mentorshipId := nextId;
      var t := AddMentorship(State(), mentorId, menteeId, message, now);
      mentorships, nextId := t.mentorships, t.nextId;
      assert State() == t;
      var _ := CreateNotification(mentorId, MentorshipRequestNote, MentorshipNoteTitle, MentorshipNoteMessage,
                                  Some(mentorshipId), now, notifyFails);
      r := Ok(NewMentorship(mentorshipId, now));
    }
  }

  /**
   * bcrypt round trip: after registering, the user is the active user with
   * that e-mail and the stored hash accepts the password, so signing in
   * with the same credentials succeeds.
   */
  lemma RegisterThenSignIn(t: PgTables, hashpw: (string, string) -> string, checkpw: (string, string) -> bool,
                           fullName: string, email: string, password: string, farmingExperience: string,
                           farmType: string, location: string, isMentor: bool, bio: Option<string>, salt: string, now: int)
    requires PgValid(t) && !EmailTaken(t.users, email)
    requires forall p, s :: checkpw(p, hashpw(p, s))
    ensures var t' := AddUser(t, fullName, email, hashpw(password, salt), farmingExperience, farmType, location,
                              isMentor, bio, now);
            var found := ActiveUserByEmail(t'.users, email);
            && found == Some(t'.users[|t.users|])
            && checkpw(password, found.value.passwordHash)
  {
    var t' := AddUser(t, fullName, email, hashpw(password, salt), farmingExperience, farmType, location,
                      isMentor, bio, now);
    ActiveUserAppended(t.users, t'.users[|t.users|]);
  }

  lemma {:induction false} ActiveUserAppended(users: seq<PgUser>, u: PgUser)
    requires !EmailTaken(users, u.email) && u.isActive
    ensures ActiveUserByEmail(users + [u], u.email) == Some(u)
  {
    if users != [] {
      assert (users + [u])[1..] == users[1..] + [u];
      assert !EmailTaken(users[1..], u.email) by {
        forall i | 0 <= i < |users[1..]| ensures users[1..][i].email != u.email {
          assert users[1..][i] == users[i + 1];
        }
      }
      ActiveUserAppended(users[1..], u);
    }
  }
}
