/**
 * The SQLite database `farmconnect.db` that the signup servers and the three
 * managers share: one table per entity (scripts/database_setup.py, with the
 * `last_login` and `is_active` columns the signup servers add), row ids handed
 * out by AUTOINCREMENT, and the constraints the code relies on.
 *
 * `Tables` is the database as a value; `Database` is the connection whose
 * fields the managers' SQL statements update in place.
 */
module Store {
  import opened Wrappers

  datatype UserRow = UserRow(
    id: nat,
    fullName: string,
    email: string,
    passwordHash: string,
    farmingExperience: string,
    farmType: string,
    location: string,
    createdAt: int,
    lastLogin: Option<int>,
    isMentor: bool,
    isActive: bool)

  /** A user as every server returns it: the columns it selects, never the password hash. */
  datatype PublicUser = PublicUser(
    id: nat,
    fullName: string,
    email: string,
    farmingExperience: string,
    farmType: string,
    location: string,
    isMentor: bool,
    createdAt: int)

  function Public(u: UserRow): PublicUser {
    PublicUser(u.id, u.fullName, u.email, u.farmingExperience, u.farmType, u.location, u.isMentor, u.createdAt)
  }

  datatype PostRow = PostRow(
    id: nat,
    userId: nat,
    title: string,
    content: string,
    category: string,
    createdAt: int,
    likesCount: int,
    commentsCount: int)

  datatype CommentRow = CommentRow(id: nat, postId: nat, userId: nat, content: string, createdAt: int)

  datatype LikeRow = LikeRow(id: nat, userId: nat, postId: nat, createdAt: int)

  /** The two values the code ever writes into `mentorships.status`. */
  datatype Status = Pending | Accepted

  datatype MentorshipRow = MentorshipRow(id: nat, mentorId: nat, menteeId: nat, status: Status, createdAt: int)

  datatype ActivityKind = SignupActivity | LoginActivity

  /** The JSON object logged with a signup. */
  datatype SignupDetails = SignupDetails(email: string, farmingExperience: string, farmType: string)

  datatype ActivityRow = ActivityRow(
    id: nat,
    userId: nat,
    kind: ActivityKind,
    details: Option<SignupDetails>,
    ipAddress: string,
    timestamp: int)

  /** Every table, and the next AUTOINCREMENT value of each. */
  datatype Tables = Tables(
    users: seq<UserRow>,
    posts: seq<PostRow>,
    comments: seq<CommentRow>,
    likes: seq<LikeRow>,
    mentorships: seq<MentorshipRow>,
    activity: seq<ActivityRow>,
    nextUserId: nat,
    nextPostId: nat,
    nextCommentId: nat,
    nextLikeId: nat,
    nextMentorshipId: nat,
    nextActivityId: nat)

  const EmptyTables := Tables([], [], [], [], [], [], 1, 1, 1, 1, 1, 1)

  // ---------------------------------------------------------------------------
  // users

  predicate EmailTaken(users: seq<UserRow>, email: string) {
    exists i :: 0 <= i < |users| && users[i].email == email
  }

  /** `email TEXT UNIQUE` (scripts/database_setup.py). */
  predicate UniqueEmails(users: seq<UserRow>) {
    forall i, j :: 0 <= i < j < |users| ==> users[i].email != users[j].email
  }

  predicate UserIdsBelow(users: seq<UserRow>, next: nat) {
    && (forall i, j :: 0 <= i < j < |users| ==> users[i].id < users[j].id)
    && (forall i :: 0 <= i < |users| ==> users[i].id < next)
  }

  /** The row an INSERT with the signup columns creates: the other columns take their defaults. */
  function NewUser(id: nat, fullName: string, email: string, passwordHash: string,
                   farmingExperience: string, farmType: string, location: string, now: int): UserRow
  {
    UserRow(id, fullName, email, passwordHash, farmingExperience, farmType, location, now, None, false, true)
  }

  /** The row with this id, if any. */
  function UserById(users: seq<UserRow>, id: nat): (r: Option<UserRow>)
    ensures r.Some? ==> r.value in users && r.value.id == id
    ensures r.None? <==> forall i :: 0 <= i < |users| ==> users[i].id != id
  {
    if users == [] then None
    else if users[0].id == id then Some(users[0])
    else
      var r := UserById(users[1..], id);
      assert forall i :: 1 <= i < |users| ==> users[i] == users[1..][i - 1];
      r
  }

  /** A row appended with an id above every existing one is what the id lookup finds. */
  lemma {:induction false} UserByIdAppend(users: seq<UserRow>, row: UserRow)
    requires forall i :: 0 <= i < |users| ==> users[i].id < row.id
    ensures UserById(users + [row], row.id) == Some(row)
  {
    if users != [] {
      assert (users + [row])[1..] == users[1..] + [row];
      UserByIdAppend(users[1..], row);
    }
  }

  /**
   * `SELECT ... FROM users WHERE email = ? AND password_hash = ?` and
   * `fetchone()`: the first row with both values, if any.
   */
  function FindByCredentials(users: seq<UserRow>, email: string, passwordHash: string): (r: Option<UserRow>)
    ensures r.Some? ==> r.value in users && r.value.email == email && r.value.passwordHash == passwordHash
    ensures r.None? <==> forall i :: 0 <= i < |users| ==> users[i].email != email || users[i].passwordHash != passwordHash
  {
    if users == [] then None
    else if users[0].email == email && users[0].passwordHash == passwordHash then Some(users[0])
    else
      var r := FindByCredentials(users[1..], email, passwordHash);
      assert forall i :: 1 <= i < |users| ==> users[i] == users[1..][i - 1];
      r
  }

  /** A row appended under an e-mail nobody had is what the credential lookup finds. */
  lemma {:induction false} FindAppendedUser(users: seq<UserRow>, row: UserRow)
    requires !EmailTaken(users, row.email)
    ensures FindByCredentials(users + [row], row.email, row.passwordHash) == Some(row)
  {
    if users != [] {
      assert (users + [row])[1..] == users[1..] + [row];
      assert !EmailTaken(users[1..], row.email) by {
        forall i | 0 <= i < |users[1..]| ensures users[1..][i].email != row.email {
          assert users[1..][i] == users[i + 1];
        }
      }
      FindAppendedUser(users[1..], row);
    }
  }

  /** `UPDATE users SET last_login = ? WHERE id = ?`. */
  function SetLastLogin(users: seq<UserRow>, id: nat, now: int): (r: seq<UserRow>)
    ensures |r| == |users|
    ensures forall i :: 0 <= i < |users| ==>
              r[i] == if users[i].id == id then users[i].(lastLogin := Some(now)) else users[i]
  {
    seq(|users|, i requires 0 <= i < |users| => if users[i].id == id then users[i].(lastLogin := Some(now)) else users[i])
  }

  // ---------------------------------------------------------------------------
  // posts, comments and likes

  predicate PostIdsBelow(posts: seq<PostRow>, next: nat) {
    && (forall i, j :: 0 <= i < j < |posts| ==> posts[i].id < posts[j].id)
    && (forall i :: 0 <= i < |posts| ==> posts[i].id < next)
  }

  predicate PostExists(posts: seq<PostRow>, id: nat) {
    exists i :: 0 <= i < |posts| && posts[i].id == id
  }

  predicate CommentIdsBelow(comments: seq<CommentRow>, next: nat) {
    && (forall i, j :: 0 <= i < j < |comments| ==> comments[i].id < comments[j].id)
    && (forall i :: 0 <= i < |comments| ==> comments[i].id < next)
  }

  predicate LikeIdsBelow(likes: seq<LikeRow>, next: nat) {
    && (forall i, j :: 0 <= i < j < |likes| ==> likes[i].id < likes[j].id)
    && (forall i :: 0 <= i < |likes| ==> likes[i].id < next)
  }

  /** Every like and every comment is on a post id already handed out. */
  predicate EngagementOnIssuedPosts(t: Tables) {
    && (forall i :: 0 <= i < |t.likes| ==> t.likes[i].postId < t.nextPostId)
    && (forall i :: 0 <= i < |t.comments| ==> t.comments[i].postId < t.nextPostId)
  }

  predicate Liked(likes: seq<LikeRow>, userId: nat, postId: nat) {
    exists i :: 0 <= i < |likes| && likes[i].userId == userId && likes[i].postId == postId
  }

  /** `UNIQUE(user_id, post_id)` (scripts/database_setup.py). */
  predicate OneLikePerPair(likes: seq<LikeRow>) {
    forall i, j :: 0 <= i < j < |likes| ==>
      likes[i].userId != likes[j].userId || likes[i].postId != likes[j].postId
  }

  /** The number of like rows on a post. */
  function LikesOn(likes: seq<LikeRow>, postId: nat): nat {
    if likes == [] then 0
    else LikesOn(likes[..|likes| - 1], postId) + (if likes[|likes| - 1].postId == postId then 1 else 0)
  }

  /** The number of comment rows on a post. */
  function CommentsOn(comments: seq<CommentRow>, postId: nat): nat {
    if comments == [] then 0
    else CommentsOn(comments[..|comments| - 1], postId) + (if comments[|comments| - 1].postId == postId then 1 else 0)
  }

  /** The denormalised counters agree with the rows they count. */
  predicate CountersMatch(t: Tables) {
    forall i :: 0 <= i < |t.posts| ==>
      && t.posts[i].likesCount == LikesOn(t.likes, t.posts[i].id)
      && t.posts[i].commentsCount == CommentsOn(t.comments, t.posts[i].id)
  }

  // ---------------------------------------------------------------------------
  // mentorships and activity

  predicate MentorshipIdsBelow(ms: seq<MentorshipRow>, next: nat) {
    && (forall i, j :: 0 <= i < j < |ms| ==> ms[i].id < ms[j].id)
    && (forall i :: 0 <= i < |ms| ==> ms[i].id < next)
  }

  predicate HasMentorship(ms: seq<MentorshipRow>, mentorId: nat, menteeId: nat) {
    exists i :: 0 <= i < |ms| && ms[i].mentorId == mentorId && ms[i].menteeId == menteeId
  }

  /** At most one row per (mentor, mentee) pair: kept by the check before every insert. */
  predicate OneMentorshipPerPair(ms: seq<MentorshipRow>) {
    forall i, j :: 0 <= i < j < |ms| ==>
      ms[i].mentorId != ms[j].mentorId || ms[i].menteeId != ms[j].menteeId
  }

  predicate ActivityIdsBelow(activity: seq<ActivityRow>, next: nat) {
    && (forall i, j :: 0 <= i < j < |activity| ==> activity[i].id < activity[j].id)
    && (forall i :: 0 <= i < |activity| ==> activity[i].id < next)
  }

  // ---------------------------------------------------------------------------
  // The whole database

  /** What every operation keeps: unique ids and emails, one like and one mentorship per pair, exact counters. */
  predicate TablesValid(t: Tables) {
    && UserIdsBelow(t.users, t.nextUserId)
    && UniqueEmails(t.users)
    && PostIdsBelow(t.posts, t.nextPostId)
    && CommentIdsBelow(t.comments, t.nextCommentId)
    && LikeIdsBelow(t.likes, t.nextLikeId)
    && OneLikePerPair(t.likes)
    && EngagementOnIssuedPosts(t)
    && CountersMatch(t)
    && MentorshipIdsBelow(t.mentorships, t.nextMentorshipId)
    && OneMentorshipPerPair(t.mentorships)
    && ActivityIdsBelow(t.activity, t.nextActivityId)
  }

  lemma EmptyTablesValid()
    ensures TablesValid(EmptyTables)
  {
  }

  /** Registration as a transition: the new row gets the next id. */
  function AddUser(t: Tables, fullName: string, email: string, passwordHash: string,
                   farmingExperience: string, farmType: string, location: string, now: int): Tables
  {
    var row := NewUser(t.nextUserId, fullName, email, passwordHash, farmingExperience, farmType, location, now);
    t.(users := t.users + [row], nextUserId := t.nextUserId + 1)
  }

  /** Registering an e-mail nobody has keeps every invariant and makes the e-mail taken. */
  lemma AddUserValid(t: Tables, fullName: string, email: string, passwordHash: string,
                     farmingExperience: string, farmType: string, location: string, now: int)
    requires TablesValid(t)
    requires !EmailTaken(t.users, email)
    ensures TablesValid(AddUser(t, fullName, email, passwordHash, farmingExperience, farmType, location, now))
    ensures EmailTaken(AddUser(t, fullName, email, passwordHash, farmingExperience, farmType, location, now).users, email)
  {
    var t' := AddUser(t, fullName, email, passwordHash, farmingExperience, farmType, location, now);
    assert t'.users[|t.users|].email == email;
  }

  /** Registration followed by a lookup with the same e-mail and hash finds the new row. */
  lemma AddUserThenFind(t: Tables, fullName: string, email: string, passwordHash: string,
                        farmingExperience: string, farmType: string, location: string, now: int)
    requires !EmailTaken(t.users, email)
    ensures FindByCredentials(AddUser(t, fullName, email, passwordHash, farmingExperience, farmType, location, now).users,
                              email, passwordHash)
            == Some(NewUser(t.nextUserId, fullName, email, passwordHash, farmingExperience, farmType, location, now))
  {
    FindAppendedUser(t.users, NewUser(t.nextUserId, fullName, email, passwordHash, farmingExperience, farmType, location, now));
  }

  /** Recording a login keeps every invariant and changes nothing but that user's `last_login`. */
  lemma SetLastLoginValid(t: Tables, id: nat, now: int)
    requires TablesValid(t)
    ensures TablesValid(t.(users := SetLastLogin(t.users, id, now)))
  {
  }

  /** `INSERT INTO user_activity (user_id, activity_type, activity_details, ip_address)`. */
  function AddActivity(t: Tables, userId: nat, kind: ActivityKind, details: Option<SignupDetails>,
                       ipAddress: string, now: int): Tables
  {
    t.(activity := t.activity + [ActivityRow(t.nextActivityId, userId, kind, details, ipAddress, now)],
       nextActivityId := t.nextActivityId + 1)
  }

  lemma AddActivityValid(t: Tables, userId: nat, kind: ActivityKind, details: Option<SignupDetails>,
                         ipAddress: string, now: int)
    requires TablesValid(t)
    ensures TablesValid(AddActivity(t, userId, kind, details, ipAddress, now))
  {
  }

  // ---------------------------------------------------------------------------
  // One transition per SQL statement the managers issue. They keep no
  // invariant on their own: a manager runs several of them and proves the
  // invariant of the end state.

  /** `INSERT INTO posts (user_id, title, content, category)`: the counters start at zero. */
  function AddPost(t: Tables, userId: nat, title: string, content: string, category: string, now: int): Tables {
    t.(posts := t.posts + [PostRow(t.nextPostId, userId, title, content, category, now, 0, 0)],
       nextPostId := t.nextPostId + 1)
  }

  /** `DELETE FROM likes WHERE user_id = ? AND post_id = ?`. */
  function RemoveLike(likes: seq<LikeRow>, userId: nat, postId: nat): (r: seq<LikeRow>)
    ensures |r| <= |likes|
    ensures forall x :: x in r <==> x in likes && (x.userId != userId || x.postId != postId)
  {
    if likes == [] then []
    else
      var last := likes[|likes| - 1];
      var r := RemoveLike(likes[..|likes| - 1], userId, postId);
      assert likes == likes[..|likes| - 1] + [last];
      if last.userId == userId && last.postId == postId then r else r + [last]
  }

  /** `INSERT INTO likes (user_id, post_id)`. */
  function AddLike(t: Tables, userId: nat, postId: nat, now: int): Tables {
    t.(likes := t.likes + [LikeRow(t.nextLikeId, userId, postId, now)], nextLikeId := t.nextLikeId + 1)
  }

  /** `UPDATE posts SET likes_count = likes_count + delta WHERE id = ?`. */
  function ShiftLikesCount(posts: seq<PostRow>, postId: nat, delta: int): (r: seq<PostRow>)
    ensures |r| == |posts|
    ensures forall i :: 0 <= i < |posts| ==>
              r[i] == if posts[i].id == postId then posts[i].(likesCount := posts[i].likesCount + delta) else posts[i]
  {
    seq(|posts|, i requires 0 <= i < |posts| =>
      if posts[i].id == postId then posts[i].(likesCount := posts[i].likesCount + delta) else posts[i])
  }

  /** `INSERT INTO comments (post_id, user_id, content)`. */
  function AddCommentRow(t: Tables, postId: nat, userId: nat, content: string, now: int): Tables {
    t.(comments := t.comments + [CommentRow(t.nextCommentId, postId, userId, content, now)],
       nextCommentId := t.nextCommentId + 1)
  }

  /** `UPDATE posts SET comments_count = comments_count + 1 WHERE id = ?`. */
  function BumpCommentsCount(posts: seq<PostRow>, postId: nat): (r: seq<PostRow>)
    ensures |r| == |posts|
    ensures forall i :: 0 <= i < |posts| ==>
              r[i] == if posts[i].id == postId then posts[i].(commentsCount := posts[i].commentsCount + 1) else posts[i]
  {
    seq(|posts|, i requires 0 <= i < |posts| =>
      if posts[i].id == postId then posts[i].(commentsCount := posts[i].commentsCount + 1) else posts[i])
  }

  /** `INSERT INTO mentorships (mentor_id, mentee_id, status) VALUES (?, ?, 'pending')`. */
  function AddMentorship(t: Tables, mentorId: nat, menteeId: nat, now: int): Tables {
    t.(mentorships := t.mentorships + [MentorshipRow(t.nextMentorshipId, mentorId, menteeId, Pending, now)],
       nextMentorshipId := t.nextMentorshipId + 1)
  }

  predicate IsPendingFor(m: MentorshipRow, mentorId: nat, menteeId: nat) {
    m.mentorId == mentorId && m.menteeId == menteeId && m.status == Pending
  }

  /**
   * `UPDATE mentorships SET status = 'accepted' WHERE mentor_id = ? AND
   * mentee_id = ? AND status = 'pending'`.
   */
  function AcceptRows(ms: seq<MentorshipRow>, mentorId: nat, menteeId: nat): (r: seq<MentorshipRow>)
    ensures |r| == |ms|
    ensures forall i :: 0 <= i < |ms| ==>
              r[i] == if IsPendingFor(ms[i], mentorId, menteeId) then ms[i].(status := Accepted) else ms[i]
  {
    seq(|ms|, i requires 0 <= i < |ms| =>
      if IsPendingFor(ms[i], mentorId, menteeId) then ms[i].(status := Accepted) else ms[i])
  }

  /** The `rowcount` of that UPDATE: how many rows it matches. */
  function PendingCount(ms: seq<MentorshipRow>, mentorId: nat, menteeId: nat): (n: nat)
    ensures n == 0 <==> forall i :: 0 <= i < |ms| ==> !IsPendingFor(ms[i], mentorId, menteeId)
    ensures n <= |ms|
  {
    if ms == [] then 0
    else
      var n := PendingCount(ms[..|ms| - 1], mentorId, menteeId);
      assert forall i :: 0 <= i < |ms| - 1 ==> ms[..|ms| - 1][i] == ms[i];
      n + if IsPendingFor(ms[|ms| - 1], mentorId, menteeId) then 1 else 0
  }

  /**
   * The connection to `farmconnect.db`. Each field is one table; the
   * statements of the managers assign them.
   */
  class Database {
    var users: seq<UserRow>
    var posts: seq<PostRow>
    var comments: seq<CommentRow>
    var likes: seq<LikeRow>
    var mentorships: seq<MentorshipRow>
    var activity: seq<ActivityRow>
    var nextUserId: nat
    var nextPostId: nat
    var nextCommentId: nat
    var nextLikeId: nat
    var nextMentorshipId: nat
    var nextActivityId: nat

    function State(): Tables
      reads this
    {
      Tables(users, posts, comments, likes, mentorships, activity,
             nextUserId, nextPostId, nextCommentId, nextLikeId, nextMentorshipId, nextActivityId)
    }

    predicate Valid()
      reads this
    {
      TablesValid(State())
    }

    /** A freshly set-up database: every table empty. */
    constructor ()
      ensures State() == EmptyTables
      ensures Valid()
    {
      users, posts, comments, likes, mentorships, activity := [], [], [], [], [], [];
      nextUserId, nextPostId, nextCommentId, nextLikeId, nextMentorshipId, nextActivityId := 1, 1, 1, 1, 1, 1;
    }

    /**
     * `INSERT INTO users (full_name, email, password_hash, farming_experience,
     * farm_type, location, created_at)`: fails on the UNIQUE e-mail constraint,
     * otherwise adds one row and yields its id (`cursor.lastrowid`).
     */
    method InsertUser(fullName: string, email: string, passwordHash: string,
                      farmingExperience: string, farmType: string, location: string, now: int)
      returns (id: Option<nat>)
      requires Valid()
      modifies this
      ensures Valid()
      ensures EmailTaken(old(users), email) ==> id.None? && State() == old(State())
      ensures !EmailTaken(old(users), email) ==>
                && id == Some(old(nextUserId))
                && State() == AddUser(old(State()), fullName, email, passwordHash, farmingExperience, farmType, location, now)
      ensures EmailTaken(users, email)
    {
      if exists i :: 0 <= i < |users| && users[i].email == email {
        return None;
      }
      var t := AddUser(State(), fullName, email, passwordHash, farmingExperience, farmType, location, now);
      AddUserValid(State(), fullName, email, passwordHash, farmingExperience, farmType, location, now);
      id := Some(nextUserId);
      users, nextUserId := t.users, t.nextUserId;
      assert State() == t;
    }

    /** `UPDATE users SET last_login = ? WHERE id = ?`. */
    method UpdateLastLogin(id: nat, now: int)
      modifies this
      ensures State() == old(State()).(users := SetLastLogin(old(users), id, now))
    {
      users := SetLastLogin(users, id, now);
    }

    /** `INSERT INTO user_activity ...`. */
    method InsertActivity(userId: nat, kind: ActivityKind, details: Option<SignupDetails>, ipAddress: string, now: int)
      modifies this
      ensures State() == AddActivity(old(State()), userId, kind, details, ipAddress, now)
    {
      activity, nextActivityId :=
        activity + [ActivityRow(nextActivityId, userId, kind, details, ipAddress, now)], nextActivityId + 1;
    }

    /** `INSERT INTO posts ...`, yielding `cursor.lastrowid`. */
    method InsertPost(userId: nat, title: string, content: string, category: string, now: int) returns (id: nat)
      modifies this
      ensures id == old(nextPostId)
      ensures State() == AddPost(old(State()), userId, title, content, category, now)
    {
      id := nextPostId;
      posts, nextPostId := posts + [PostRow(nextPostId, userId, title, content, category, now, 0, 0)], nextPostId + 1;
    }

    /** `DELETE FROM likes WHERE user_id = ? AND post_id = ?`. */
    method DeleteLike(userId: nat, postId: nat)
      modifies this
      ensures State() == old(State()).(likes := RemoveLike(old(likes), userId, postId))
    {
      likes := RemoveLike(likes, userId, postId);
    }

    /** `INSERT INTO likes (user_id, post_id)`; callers check the UNIQUE pair first. */
    method InsertLike(userId: nat, postId: nat, now: int)
      modifies this
      ensures State() == AddLike(old(State()), userId, postId, now)
    {
      likes, nextLikeId := likes + [LikeRow(nextLikeId, userId, postId, now)], nextLikeId + 1;
    }

    /** `UPDATE posts SET likes_count = likes_count + delta WHERE id = ?`. */
    method UpdateLikesCount(postId: nat, delta: int)
      modifies this
      ensures State() == old(State()).(posts := ShiftLikesCount(old(posts), postId, delta))
    {
      posts := ShiftLikesCount(posts, postId, delta);
    }

    /** `INSERT INTO comments (post_id, user_id, content)`, yielding `cursor.lastrowid`. */
    method InsertComment(postId: nat, userId: nat, content: string, now: int) returns (id: nat)
      modifies this
      ensures id == old(nextCommentId)
      ensures State() == AddCommentRow(old(State()), postId, userId, content, now)
    {
      id := nextCommentId;
      comments, nextCommentId := comments + [CommentRow(nextCommentId, postId, userId, content, now)], nextCommentId + 1;
    }

    /** `UPDATE posts SET comments_count = comments_count + 1 WHERE id = ?`. */
    method UpdateCommentsCount(postId: nat)
      modifies this
      ensures State() == old(State()).(posts := BumpCommentsCount(old(posts), postId))
    {
      posts := BumpCommentsCount(posts, postId);
    }

    /** `INSERT INTO mentorships ... 'pending'`, yielding `cursor.lastrowid`. */
    method InsertMentorship(mentorId: nat, menteeId: nat, now: int) returns (id: nat)
      modifies this
      ensures id == old(nextMentorshipId)
      ensures State() == AddMentorship(old(State()), mentorId, menteeId, now)
    {
      id := nextMentorshipId;
      mentorships, nextMentorshipId :=
        mentorships + [MentorshipRow(nextMentorshipId, mentorId, menteeId, Pending, now)], nextMentorshipId + 1;
    }

    /** The UPDATE that accepts a pending request, yielding its `rowcount`. */
    method AcceptPending(mentorId: nat, menteeId: nat) returns (rowcount: nat)
      modifies this
      ensures rowcount == PendingCount(old(mentorships), mentorId, menteeId)
      ensures State() == old(State()).(mentorships := AcceptRows(old(mentorships), mentorId, menteeId))
    {
      rowcount := PendingCount(mentorships, mentorId, menteeId);
      mentorships := AcceptRows(mentorships, mentorId, menteeId);
    }
  }
}
