/**
 * `ForumManager` (scripts/forum_management.py): posts with denormalised
 * `likes_count` and `comments_count`, a like toggle, comments, and the two
 * listings.
 *
 * As written, `like_post` and `add_comment` write rows for any post id,
 * existing or not: SQLite does not enforce the declared FOREIGN KEY unless
 * asked to. A like or comment on an id not yet handed out is then counted by
 * no counter, and the post that later receives that id starts with a count
 * that disagrees with its rows. `LikePostAsWritten` and `AddCommentAsWritten`
 * model the code as written; `ForumManager.LikePost` and
 * `ForumManager.AddComment` refuse a post that does not exist, as the
 * foreign key intends, and keep the counters exact.
 */
module Forum {
  import opened Wrappers
  import opened Store
  import opened Ordering

  /** The `action` of a like toggle: "liked" or "unliked". */
  datatype LikeAction = LikeAdded | LikeRemoved

  function ActionName(a: LikeAction): string {
    match a
    case LikeAdded => "liked"
    case LikeRemoved => "unliked"
  }

  datatype ForumError = PostNotFound

  // ---------------------------------------------------------------------------
  // Counting rows

  lemma LikesOnAppend(likes: seq<LikeRow>, row: LikeRow, q: nat)
    ensures LikesOn(likes + [row], q) == LikesOn(likes, q) + (if row.postId == q then 1 else 0)
  {
    assert (likes + [row])[..|likes|] == likes;
  }

  lemma CommentsOnAppend(comments: seq<CommentRow>, row: CommentRow, q: nat)
    ensures CommentsOn(comments + [row], q) == CommentsOn(comments, q) + (if row.postId == q then 1 else 0)
  {
    assert (comments + [row])[..|comments|] == comments;
  }

  lemma {:induction false} LikesOnAbsent(likes: seq<LikeRow>, q: nat)
    requires forall i :: 0 <= i < |likes| ==> likes[i].postId != q
    ensures LikesOn(likes, q) == 0
  {
    if likes != [] {
      LikesOnAbsent(likes[..|likes| - 1], q);
    }
  }

  lemma {:induction false} CommentsOnAbsent(comments: seq<CommentRow>, q: nat)
    requires forall i :: 0 <= i < |comments| ==> comments[i].postId != q
    ensures CommentsOn(comments, q) == 0
  {
    if comments != [] {
      CommentsOnAbsent(comments[..|comments| - 1], q);
    }
  }

  lemma LikedSnoc(likes: seq<LikeRow>, last: LikeRow, userId: nat, postId: nat)
    ensures Liked(likes + [last], userId, postId)
            <==> Liked(likes, userId, postId) || (last.userId == userId && last.postId == postId)
  {
    if Liked(likes + [last], userId, postId) {
      var i :| 0 <= i < |likes + [last]| && (likes + [last])[i].userId == userId && (likes + [last])[i].postId == postId;
      if i < |likes| {
        assert likes[i] == (likes + [last])[i];
      }
    }
    if Liked(likes, userId, postId) {
      var i :| 0 <= i < |likes| && likes[i].userId == userId && likes[i].postId == postId;
      assert (likes + [last])[i] == likes[i];
    }
    if last.userId == userId && last.postId == postId {
      assert (likes + [last])[|likes|] == last;
    }
  }

  /** After deleting the (user, post) like, a pair is liked exactly when it was liked before and is another pair. */
  lemma LikedAfterRemove(likes: seq<LikeRow>, userId: nat, postId: nat, u: nat, p: nat)
    ensures Liked(RemoveLike(likes, userId, postId), u, p) <==> Liked(likes, u, p) && (u != userId || p != postId)
  {
    var r := RemoveLike(likes, userId, postId);
    if Liked(likes, u, p) && (u != userId || p != postId) {
      var i :| 0 <= i < |likes| && likes[i].userId == u && likes[i].postId == p;
      assert likes[i] in r;
    }
    if Liked(r, u, p) {
      var i :| 0 <= i < |r| && r[i].userId == u && r[i].postId == p;
      assert r[i] in likes;
    }
  }

  /** Deleting a pair nobody liked deletes nothing. */
  lemma {:induction false} RemoveAbsentLike(likes: seq<LikeRow>, userId: nat, postId: nat)
    requires !Liked(likes, userId, postId)
    ensures RemoveLike(likes, userId, postId) == likes
  {
    if likes != [] {
      var init, last := likes[..|likes| - 1], likes[|likes| - 1];
      assert likes == init + [last];
      LikedSnoc(init, last, userId, postId);
      RemoveAbsentLike(init, userId, postId);
    }
  }

  /** Deleting the (user, post) like lowers that post's row count by one if the like was there, and no other. */
  lemma {:induction false} LikesOnRemove(likes: seq<LikeRow>, userId: nat, postId: nat, q: nat)
    requires OneLikePerPair(likes)
    ensures LikesOn(RemoveLike(likes, userId, postId), q) + (if q == postId && Liked(likes, userId, postId) then 1 else 0)
            == LikesOn(likes, q)
  {
    if likes != [] {
      var init, last := likes[..|likes| - 1], likes[|likes| - 1];
      assert likes == init + [last];
      assert OneLikePerPair(init) by {
        forall i, j | 0 <= i < j < |init| ensures init[i].userId != init[j].userId || init[i].postId != init[j].postId {
          assert init[i] == likes[i] && init[j] == likes[j];
        }
      }
      LikedSnoc(init, last, userId, postId);
      LikesOnRemove(init, userId, postId, q);
      if last.userId == userId && last.postId == postId {
        assert !Liked(init, userId, postId) by {
          forall i | 0 <= i < |init| ensures init[i].userId != userId || init[i].postId != postId {
            assert init[i] == likes[i];
          }
        }
      } else {
        LikesOnAppend(RemoveLike(init, userId, postId), last, q);
      }
    }
  }

  /** Deleting rows keeps the remaining like ids increasing and below the next id. */
  lemma {:induction false} RemoveLikeKeepsIds(likes: seq<LikeRow>, userId: nat, postId: nat, next: nat)
    requires LikeIdsBelow(likes, next)
    ensures LikeIdsBelow(RemoveLike(likes, userId, postId), next)
  {
    if likes != [] {
      var init, last := likes[..|likes| - 1], likes[|likes| - 1];
      assert likes == init + [last];
      assert forall i :: 0 <= i < |init| ==> init[i] == likes[i];
      RemoveLikeKeepsIds(init, userId, postId, next);
      var r := RemoveLike(init, userId, postId);
      if !(last.userId == userId && last.postId == postId) {
        forall i | 0 <= i < |r| ensures r[i].id < last.id {
          var k :| 0 <= k < |init| && init[k] == r[i];
        }
        assert RemoveLike(likes, userId, postId) == r + [last];
      }
    }
  }

  /** Deleting rows keeps the remaining (user, post) pairs distinct. */
  lemma {:induction false} RemoveLikeKeepsPairs(likes: seq<LikeRow>, userId: nat, postId: nat)
    requires OneLikePerPair(likes)
    ensures OneLikePerPair(RemoveLike(likes, userId, postId))
  {
    if likes != [] {
      var init, last := likes[..|likes| - 1], likes[|likes| - 1];
      assert likes == init + [last];
      assert forall i :: 0 <= i < |init| ==> init[i] == likes[i];
      RemoveLikeKeepsPairs(init, userId, postId);
      var r := RemoveLike(init, userId, postId);
      if !(last.userId == userId && last.postId == postId) {
        forall i | 0 <= i < |r| ensures r[i].userId != last.userId || r[i].postId != last.postId {
          var k :| 0 <= k < |init| && init[k] == r[i];
        }
        assert RemoveLike(likes, userId, postId) == r + [last];
      }
    }
  }

  // ---------------------------------------------------------------------------
  // Transitions

  /** `like_post` after its SELECT: delete and decrement, or insert and increment. */
  function ToggleLike(t: Tables, userId: nat, postId: nat, now: int): Tables {
    if Liked(t.likes, userId, postId) then
      t.(likes := RemoveLike(t.likes, userId, postId), posts := ShiftLikesCount(t.posts, postId, -1))
    else
      AddLike(t, userId, postId, now).(posts := ShiftLikesCount(t.posts, postId, 1))
  }

  function ToggleAction(t: Tables, userId: nat, postId: nat): LikeAction {
    if Liked(t.likes, userId, postId) then LikeRemoved else LikeAdded
  }

  /** `add_comment` after its checks: insert the comment and bump the post's counter. */
  function CommentOn(t: Tables, userId: nat, postId: nat, content: string, now: int): Tables {
    AddCommentRow(t, postId, userId, content, now).(posts := BumpCommentsCount(t.posts, postId))
  }

  lemma PostIdIssued(t: Tables, postId: nat)
    requires TablesValid(t) && PostExists(t.posts, postId)
    ensures postId < t.nextPostId
  {
    var i :| 0 <= i < |t.posts| && t.posts[i].id == postId;
  }

  /** A new post starts with counts of zero, which is what its rows number. */
  lemma AddPostValid(t: Tables, userId: nat, title: string, content: string, category: string, now: int)
    requires TablesValid(t)
    ensures TablesValid(AddPost(t, userId, title, content, category, now))
    ensures PostExists(AddPost(t, userId, title, content, category, now).posts, t.nextPostId)
  {
    LikesOnAbsent(t.likes, t.nextPostId);
    CommentsOnAbsent(t.comments, t.nextPostId);
    var t' := AddPost(t, userId, title, content, category, now);
    assert t'.posts[|t.posts|].id == t.nextPostId;
  }

  lemma UnlikeValid(t: Tables, userId: nat, postId: nat)
    requires TablesValid(t) && Liked(t.likes, userId, postId)
    ensures TablesValid(t.(likes := RemoveLike(t.likes, userId, postId), posts := ShiftLikesCount(t.posts, postId, -1)))
  {
    var t' := t.(likes := RemoveLike(t.likes, userId, postId), posts := ShiftLikesCount(t.posts, postId, -1));
    RemoveLikeKeepsIds(t.likes, userId, postId, t.nextLikeId);
    RemoveLikeKeepsPairs(t.likes, userId, postId);
    forall i | 0 <= i < |t'.posts|
      ensures t'.posts[i].likesCount == LikesOn(t'.likes, t'.posts[i].id)
    {
      LikesOnRemove(t.likes, userId, postId, t.posts[i].id);
    }
  }

  lemma LikeValid(t: Tables, userId: nat, postId: nat, now: int)
    requires TablesValid(t) && PostExists(t.posts, postId) && !Liked(t.likes, userId, postId)
    ensures TablesValid(AddLike(t, userId, postId, now).(posts := ShiftLikesCount(t.posts, postId, 1)))
  {
    var row := LikeRow(t.nextLikeId, userId, postId, now);
    var t' := AddLike(t, userId, postId, now).(posts := ShiftLikesCount(t.posts, postId, 1));
    PostIdIssued(t, postId);
    forall i | 0 <= i < |t'.posts|
      ensures t'.posts[i].likesCount == LikesOn(t'.likes, t'.posts[i].id)
    {
      LikesOnAppend(t.likes, row, t.posts[i].id);
    }
    assert OneLikePerPair(t'.likes) by {
      forall i, j | 0 <= i < j < |t'.likes|
        ensures t'.likes[i].userId != t'.likes[j].userId || t'.likes[i].postId != t'.likes[j].postId
      {
        if j == |t.likes| {
          assert t'.likes[i] == t.likes[i];
        }
      }
    }
  }

  /** The like toggle on an existing post keeps every invariant: one like per pair, exact counters. */
  lemma ToggleLikeValid(t: Tables, userId: nat, postId: nat, now: int)
    requires TablesValid(t) && PostExists(t.posts, postId)
    ensures TablesValid(ToggleLike(t, userId, postId, now))
  {
    if Liked(t.likes, userId, postId) {
      UnlikeValid(t, userId, postId);
    } else {
      LikeValid(t, userId, postId, now);
    }
  }

  /**
   * What one toggle does: the answer is "unliked" exactly when the like was
   * there; the pair's like flips; no other pair's like and no other post
   * changes; the post's `likes_count` moves by one in the direction of the flip.
   */
  lemma ToggleLikeEffect(t: Tables, userId: nat, postId: nat, now: int)
    ensures var t' := ToggleLike(t, userId, postId, now);
            && (ToggleAction(t, userId, postId) == LikeRemoved <==> Liked(t.likes, userId, postId))
            && (forall u, p :: Liked(t'.likes, u, p) <==>
                                 if u == userId && p == postId then !Liked(t.likes, u, p) else Liked(t.likes, u, p))
            && |t'.posts| == |t.posts|
            && (forall i :: 0 <= i < |t.posts| && t.posts[i].id != postId ==> t'.posts[i] == t.posts[i])
            && (forall i :: 0 <= i < |t.posts| && t.posts[i].id == postId ==>
                  t'.posts[i] == t.posts[i].(likesCount := t.posts[i].likesCount +
                                                           if Liked(t.likes, userId, postId) then -1 else 1))
            && t'.users == t.users && t'.comments == t.comments && t'.mentorships == t.mentorships
  {
    var t' := ToggleLike(t, userId, postId, now);
    forall u, p
      ensures Liked(t'.likes, u, p) <==> if u == userId && p == postId then !Liked(t.likes, u, p) else Liked(t.likes, u, p)
    {
      if Liked(t.likes, userId, postId) {
        LikedAfterRemove(t.likes, userId, postId, u, p);
      } else {
        LikedSnoc(t.likes, LikeRow(t.nextLikeId, userId, postId, now), u, p);
      }
    }
  }

  /** Moving a post's counter by `a` and then by `-a` restores the posts table. */
  lemma ShiftBack(posts: seq<PostRow>, postId: nat, a: int)
    ensures ShiftLikesCount(ShiftLikesCount(posts, postId, a), postId, -a) == posts
  {
  }

  /**
   * Toggling the same pair twice restores the likes relation and every
   * post's counters; when the pair was not liked, the likes table itself.
   */
  lemma ToggleTwiceRestores(t: Tables, userId: nat, postId: nat, now: int, later: int)
    ensures var t2 := ToggleLike(ToggleLike(t, userId, postId, now), userId, postId, later);
            && t2.posts == t.posts
            && (forall u, p :: Liked(t2.likes, u, p) <==> Liked(t.likes, u, p))
            && (!Liked(t.likes, userId, postId) ==> t2.likes == t.likes)
  {
    var t1 := ToggleLike(t, userId, postId, now);
    var t2 := ToggleLike(t1, userId, postId, later);
    LikedAfterRemove(t.likes, userId, postId, userId, postId);
    if Liked(t.likes, userId, postId) {
      ShiftBack(t.posts, postId, -1);
      forall u, p ensures Liked(t2.likes, u, p) <==> Liked(t.likes, u, p) {
        LikedSnoc(t1.likes, LikeRow(t1.nextLikeId, userId, postId, later), u, p);
        LikedAfterRemove(t.likes, userId, postId, u, p);
      }
    } else {
      var row := LikeRow(t.nextLikeId, userId, postId, now);
      LikedSnoc(t.likes, row, userId, postId);
      ShiftBack(t.posts, postId, 1);
      RemoveAbsentLike(t.likes, userId, postId);
      assert RemoveLike(t.likes + [row], userId, postId) == RemoveLike(t.likes, userId, postId) by {
        assert (t.likes + [row])[..|t.likes|] == t.likes;
      }
    }
  }

  /** A comment on an existing post keeps every invariant, and only that post's `comments_count` moves, by one. */
  lemma CommentOnValid(t: Tables, userId: nat, postId: nat, content: string, now: int)
    requires TablesValid(t) && PostExists(t.posts, postId)
    ensures var t' := CommentOn(t, userId, postId, content, now);
            && TablesValid(t')
            && t'.comments == t.comments + [CommentRow(t.nextCommentId, postId, userId, content, now)]
            && CommentsOn(t'.comments, postId) == CommentsOn(t.comments, postId) + 1
            && (forall i :: 0 <= i < |t.posts| && t.posts[i].id != postId ==> t'.posts[i] == t.posts[i])
  {
    var row := CommentRow(t.nextCommentId, postId, userId, content, now);
    var t' := CommentOn(t, userId, postId, content, now);
    PostIdIssued(t, postId);
    CommentsOnAppend(t.comments, row, postId);
    forall i | 0 <= i < |t'.posts|
      ensures t'.posts[i].commentsCount == CommentsOn(t'.comments, t'.posts[i].id)
    {
      CommentsOnAppend(t.comments, row, t.posts[i].id);
    }
  }

  // ---------------------------------------------------------------------------
  // The code as written

  /** `like_post` as written: the toggle runs whether or not the post exists, and always succeeds. */
  function LikePostAsWritten(t: Tables, userId: nat, postId: nat, now: int): (r: (Tables, LikeAction))
    ensures Liked(r.0.likes, userId, postId) <==> !Liked(t.likes, userId, postId)
    ensures r.1 == LikeRemoved <==> Liked(t.likes, userId, postId)
  {
    ToggleLikeEffect(t, userId, postId, now);
    (ToggleLike(t, userId, postId, now), ToggleAction(t, userId, postId))
  }

  /** `add_comment` as written: the comment is inserted whether or not the post exists. */
  function AddCommentAsWritten(t: Tables, userId: nat, postId: nat, content: string, now: int): (r: (Tables, nat))
    ensures r.0.comments == t.comments + [CommentRow(r.1, postId, userId, content, now)]
    ensures r.1 == t.nextCommentId
  {
    (CommentOn(t, userId, postId, content, now), t.nextCommentId)
  }

  /**
   * On an empty database, user 1 likes post 1 before any post exists; the
   * post created next gets id 1 and `likes_count` 0 while one like row
   * names it.
   */
  lemma OrphanLikeMiscounts()
    ensures TablesValid(EmptyTables)
    ensures var t1 := LikePostAsWritten(EmptyTables, 1, 1, 0).0;
            var t2 := AddPost(t1, 1, "Soil tips", "Rotate crops", "general", 1);
            && t2.posts[0].id == 1 && t2.posts[0].likesCount == 0 && LikesOn(t2.likes, 1) == 1
            && !CountersMatch(t2)
  {
    var t1 := LikePostAsWritten(EmptyTables, 1, 1, 0).0;
    assert t1.likes == [LikeRow(1, 1, 1, 0)];
    LikesOnAppend([], LikeRow(1, 1, 1, 0), 1);
  }

  /** The same for a comment on post 1 before any post exists: `comments_count` 0, one comment row. */
  lemma OrphanCommentMiscounts()
    ensures var t1 := AddCommentAsWritten(EmptyTables, 1, 1, "Welcome", 0).0;
            var t2 := AddPost(t1, 1, "Soil tips", "Rotate crops", "general", 1);
            && t2.posts[0].id == 1 && t2.posts[0].commentsCount == 0 && CommentsOn(t2.comments, 1) == 1
            && !CountersMatch(t2)
  {
    var t1 := AddCommentAsWritten(EmptyTables, 1, 1, "Welcome", 0).0;
    assert t1.comments == [CommentRow(1, 1, 1, "Welcome", 0)];
    CommentsOnAppend([], CommentRow(1, 1, 1, "Welcome", 0), 1);
  }

  // ---------------------------------------------------------------------------
  // Listings

  /** One row of `get_posts`: the post's columns and its author's name and experience. */
  datatype PostView = PostView(
    id: nat,
    title: string,
    content: string,
    category: string,
    createdAt: int,
    likesCount: int,
    commentsCount: int,
    authorName: string,
    authorExperience: string)

  function ViewPost(row: (PostRow, UserRow)): PostView {
    PostView(row.0.id, row.0.title, row.0.content, row.0.category, row.0.createdAt, row.0.likesCount,
             row.0.commentsCount, row.1.fullName, row.1.farmingExperience)
  }

  /** `if category:` filters only on a given, non-empty category. */
  predicate InCategory(p: PostRow, category: Option<string>) {
    category.None? || category.value == "" || p.category == category.value
  }

  /** `FROM posts p JOIN users u ON p.user_id = u.id [WHERE p.category = ?]`, in table order. */
  function MatchingPosts(posts: seq<PostRow>, users: seq<UserRow>, category: Option<string>): (r: seq<(PostRow, UserRow)>)
    ensures forall x :: x in r <==> x.0 in posts && InCategory(x.0, category) && UserById(users, x.0.userId) == Some(x.1)
  {
    if posts == [] then []
    else
      var init, last := posts[..|posts| - 1], posts[|posts| - 1];
      assert posts == init + [last];
      var r := MatchingPosts(init, users, category);
      match UserById(users, last.userId)
      case Some(u) => if InCategory(last, category) then r + [(last, u)] else r
      case None => r
  }

  /** `ORDER BY p.created_at DESC`. */
  predicate NewestFirst(a: (PostRow, UserRow), b: (PostRow, UserRow)) {
    a.0.createdAt >= b.0.createdAt
  }

  lemma NewestFirstIsPreorder()
    ensures TotalPreorder(NewestFirst)
  {
  }

  /** The rows `get_posts` fetches: matching posts, newest first, then `LIMIT limit OFFSET offset`. */
  function PostQuery(t: Tables, category: Option<string>, limit: int, offset: int): seq<(PostRow, UserRow)> {
    NewestFirstIsPreorder();
    Window(SortBy(MatchingPosts(t.posts, t.users, category), NewestFirst), offset, limit)
  }

  /**
   * `get_posts` returns at most `limit` rows, newest first, each a post of
   * the requested category with its author; they are the rows of the full
   * ordered listing starting after `offset` of them; and without a window
   * every matching post is there.
   */
  lemma PostQueryMeaning(t: Tables, category: Option<string>, limit: int, offset: int)
    ensures var r := PostQuery(t, category, limit, offset);
            && (limit >= 0 ==> |r| <= limit)
            && Sorted(r, NewestFirst)
            && (forall x :: x in r ==> x.0 in t.posts && InCategory(x.0, category)
                                       && UserById(t.users, x.0.userId) == Some(x.1))
            && (offset <= 0 && limit < 0 ==>
                  forall x :: x in r <==> x.0 in t.posts && InCategory(x.0, category)
                                          && UserById(t.users, x.0.userId) == Some(x.1))
            && (forall k :: 0 <= k < |r| ==>
                  var start := if offset < 0 then 0 else offset;
                  var listing := SortBy(MatchingPosts(t.posts, t.users, category), NewestFirst);
                  start + k < |listing| && r[k] == listing[start + k])
  {
    NewestFirstIsPreorder();
    var all := MatchingPosts(t.posts, t.users, category);
    var sorted := SortBy(all, NewestFirst);
    WindowSorted(sorted, offset, limit, NewestFirst);
    WindowWithin(sorted, offset, limit);
    SortByMembers(all, NewestFirst);
  }

  /** One row of `get_comments`. */
  datatype CommentView = CommentView(id: nat, content: string, createdAt: int, authorName: string, authorExperience: string)

  function ViewComment(row: (CommentRow, UserRow)): CommentView {
    CommentView(row.0.id, row.0.content, row.0.createdAt, row.1.fullName, row.1.farmingExperience)
  }

  /** `FROM comments c JOIN users u ON c.user_id = u.id WHERE c.post_id = ?`, in table order. */
  function CommentsOfPost(comments: seq<CommentRow>, users: seq<UserRow>, postId: nat): (r: seq<(CommentRow, UserRow)>)
    ensures forall x :: x in r <==> x.0 in comments && x.0.postId == postId && UserById(users, x.0.userId) == Some(x.1)
  {
    if comments == [] then []
    else
      var init, last := comments[..|comments| - 1], comments[|comments| - 1];
      assert comments == init + [last];
      var r := CommentsOfPost(init, users, postId);
      match UserById(users, last.userId)
      case Some(u) => if last.postId == postId then r + [(last, u)] else r
      case None => r
  }

  /** `ORDER BY c.created_at ASC`. */
  predicate OldestFirst(a: (CommentRow, UserRow), b: (CommentRow, UserRow)) {
    a.0.createdAt <= b.0.createdAt
  }

  lemma OldestFirstIsPreorder()
    ensures TotalPreorder(OldestFirst)
  {
  }

  function CommentQuery(t: Tables, postId: nat): seq<(CommentRow, UserRow)> {
    OldestFirstIsPreorder();
    SortBy(CommentsOfPost(t.comments, t.users, postId), OldestFirst)
  }

  /** `get_comments` returns exactly the post's comments that have an author, oldest first. */
  lemma CommentQueryMeaning(t: Tables, postId: nat)
    ensures var r := CommentQuery(t, postId);
            && Sorted(r, OldestFirst)
            && (forall x :: x in r <==> x.0 in t.comments && x.0.postId == postId
                                        && UserById(t.users, x.0.userId) == Some(x.1))
  {
    OldestFirstIsPreorder();
    SortByMembers(CommentsOfPost(t.comments, t.users, postId), OldestFirst);
  }

  /** The loop of `get_posts` that appends one view per fetched row. */
  method PostList(rows: seq<(PostRow, UserRow)>) returns (list: seq<PostView>)
    ensures list == MapSeq(rows, ViewPost)
  {
    list := [];
    var i := 0;
    while i < |rows|
      invariant 0 <= i <= |rows|
      invariant list == MapSeq(rows[..i], ViewPost)
    {
      assert rows[..i + 1] == rows[..i] + [rows[i]];
      MapSeqSnoc(rows[..i], rows[i], ViewPost);
      list := list + [ViewPost(rows[i])];
      i := i + 1;
    }
    assert rows[..|rows|] == rows;
  }

  /** The loop of `get_comments` that appends one view per fetched row. */
  method CommentList(rows: seq<(CommentRow, UserRow)>) returns (list: seq<CommentView>)
    ensures list == MapSeq(rows, ViewComment)
  {
    list := [];
    var i := 0;
    while i < |rows|
      invariant 0 <= i <= |rows|
      invariant list == MapSeq(rows[..i], ViewComment)
    {
      assert rows[..i + 1] == rows[..i] + [rows[i]];
      MapSeqSnoc(rows[..i], rows[i], ViewComment);
      list := list + [ViewComment(rows[i])];
      i := i + 1;
    }
    assert rows[..|rows|] == rows;
  }

  // ---------------------------------------------------------------------------
  // The manager

  class ForumManager {
    const db: Database

    constructor (db: Database)
      ensures this.db == db
    {
      this.db := db;
    }

    /** `create_post`: one post with zero counters, under the next id, which is returned. */
    method CreatePost(userId: nat, title: string, content: string, category: string, now: int) returns (postId: nat)
      requires db.Valid()
      modifies db
      ensures db.Valid()
      ensures postId == old(db.nextPostId)
      ensures db.State() == AddPost(old(db.State()), userId, title, content, category, now)
    {
      AddPostValid(db.State(), userId, title, content, category, now);
      postId := db.InsertPost(userId, title, content, category, now);
    }

    /**
     * `like_post`: on an existing post, delete the user's like and decrement
     * the counter, or insert it and increment; a post that does not exist is
     * refused and nothing changes.
     */
    method LikePost(userId: nat, postId: nat, now: int) returns (r: Result<LikeAction, ForumError>)
      requires db.Valid()
      modifies db
      ensures db.Valid()
      ensures !PostExists(old(db.posts), postId) ==> r == Err(PostNotFound) && db.State() == old(db.State())
      ensures PostExists(old(db.posts), postId) ==>
                && r == Ok(ToggleAction(old(db.State()), userId, postId))
                && db.State() == ToggleLike(old(db.State()), userId, postId, now)
    {
      if !PostExists(db.posts, postId) {
        return Err(PostNotFound);
      }
      ToggleLikeValid(db.State(), userId, postId, now);
      if Liked(db.likes, userId, postId) {
        db.DeleteLike(userId, postId);
        db.UpdateLikesCount(postId, -1);
        r := Ok(LikeRemoved);
      } else {
        db.InsertLike(userId, postId, now);
        db.UpdateLikesCount(postId, 1);
        r := Ok(LikeAdded);
      }
    }

    /**
     * `add_comment`: on an existing post, insert the comment and increment
     * that post's `comments_count`, returning the comment's id.
     */
    method AddComment(userId: nat, postId: nat, content: string, now: int) returns (r: Result<nat, ForumError>)
      requires db.Valid()
      modifies db
      ensures db.Valid()
      ensures !PostExists(old(db.posts), postId) ==> r == Err(PostNotFound) && db.State() == old(db.State())
      ensures PostExists(old(db.posts), postId) ==>
                && r == Ok(old(db.nextCommentId))
                && db.State() == CommentOn(old(db.State()), userId, postId, content, now)
    {
      if !PostExists(db.posts, postId) {
        return Err(PostNotFound);
      }
      CommentOnValid(db.State(), userId, postId, content, now);
      var id := db.InsertComment(postId, userId, content, now);
      db.UpdateCommentsCount(postId);
      r := Ok(id);
    }

    /** `get_posts`: the fetched rows, each turned into a post view in order. */
    method GetPosts(category: Option<string>, limit: int, offset: int) returns (list: seq<PostView>)
      ensures list == MapSeq(PostQuery(db.State(), category, limit, offset), ViewPost)
    {
      var rows := PostQuery(db.State(), category, limit, offset);
      list := PostList(rows);
    }

    /** `get_comments`: the fetched rows, each turned into a comment view in order. */
    method GetComments(postId: nat) returns (list: seq<CommentView>)
      ensures list == MapSeq(CommentQuery(db.State(), postId), ViewComment)
    {
      var rows := CommentQuery(db.State(), postId);
      list := CommentList(rows);
    }
  }
}
