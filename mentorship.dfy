/**
 * `MentorshipManager` (scripts/mentorship_management.py): a request creates
 * one `pending` row per (mentor, mentee) pair, and acceptance turns the
 * pair's pending rows into `accepted`. Two read-only listings go with it.
 */
module Mentorship {
  import opened Wrappers
  import opened Store
  import opened Ordering
  import opened Text

  datatype MentorshipError = RequestExists | NoPendingRequest

  function ErrorMessage(e: MentorshipError): string {
    match e
    case RequestExists => "Mentorship request already exists!"
    case NoPendingRequest => "No pending request found!"
  }

  // ---------------------------------------------------------------------------
  // Transitions

  /** A request for a pair with no row keeps every invariant and leaves the pair with one pending row. */
  lemma AddMentorshipValid(t: Tables, mentorId: nat, menteeId: nat, now: int)
    requires TablesValid(t) && !HasMentorship(t.mentorships, mentorId, menteeId)
    ensures var t' := AddMentorship(t, mentorId, menteeId, now);
            && TablesValid(t')
            && HasMentorship(t'.mentorships, mentorId, menteeId)
            && PendingCount(t'.mentorships, mentorId, menteeId) == 1
  {
    var ms := t.mentorships;
    var ms' := AddMentorship(t, mentorId, menteeId, now).mentorships;
    assert ms'[|ms|].mentorId == mentorId && ms'[|ms|].menteeId == menteeId;
    assert ms'[..|ms'| - 1] == ms;
    assert forall i :: 0 <= i < |ms| ==> !IsPendingFor(ms[i], mentorId, menteeId);
  }

  /**
   * Acceptance keeps every invariant; it creates no row, changes no row of
   * another pair, moves only `pending` to `accepted`, and leaves the pair
   * with no pending row, so a second acceptance finds none.
   */
  lemma AcceptRowsEffect(t: Tables, mentorId: nat, menteeId: nat)
    requires TablesValid(t)
    ensures var ms' := AcceptRows(t.mentorships, mentorId, menteeId);
            && TablesValid(t.(mentorships := ms'))
            && |ms'| == |t.mentorships|
            && (forall i :: 0 <= i < |ms'| ==>
                  && ms'[i].id == t.mentorships[i].id
                  && ms'[i].mentorId == t.mentorships[i].mentorId
                  && ms'[i].menteeId == t.mentorships[i].menteeId)
            && (forall i :: 0 <= i < |ms'| && (t.mentorships[i].mentorId != mentorId || t.mentorships[i].menteeId != menteeId)
                  ==> ms'[i] == t.mentorships[i])
            && (forall i :: 0 <= i < |ms'| && ms'[i].status != t.mentorships[i].status ==>
                  t.mentorships[i].status == Pending && ms'[i].status == Accepted)
            && PendingCount(ms', mentorId, menteeId) == 0
  {
  }

  /** Acceptance with no pending row for the pair changes nothing. */
  lemma AcceptNothingPending(ms: seq<MentorshipRow>, mentorId: nat, menteeId: nat)
    requires PendingCount(ms, mentorId, menteeId) == 0
    ensures AcceptRows(ms, mentorId, menteeId) == ms
  {
  }

  // ---------------------------------------------------------------------------
  // Listings

  /** One entry of `get_available_mentors`; `specialty` is the mentor's farm type. */
  datatype MentorView = MentorView(id: nat, fullName: string, farmingExperience: string, specialty: string, location: string)

  function ViewMentor(u: UserRow): MentorView {
    MentorView(u.id, u.fullName, u.farmingExperience, u.farmType, u.location)
  }

  /** `WHERE is_mentor = 1 [AND farm_type = ?]`: the specialty filters only when given and non-empty. */
  predicate OffersMentoring(u: UserRow, specialty: Option<string>) {
    u.isMentor && (specialty.None? || specialty.value == "" || u.farmType == specialty.value)
  }

  function MentorRows(users: seq<UserRow>, specialty: Option<string>): (r: seq<UserRow>)
    ensures forall u :: u in r <==> u in users && OffersMentoring(u, specialty)
  {
    if users == [] then []
    else
      var init, last := users[..|users| - 1], users[|users| - 1];
      assert users == init + [last];
      MentorRows(init, specialty) + if OffersMentoring(last, specialty) then [last] else []
  }

  /** `ORDER BY full_name`, compared as SQLite compares TEXT. */
  predicate ByName(a: UserRow, b: UserRow) {
    StrLe(a.fullName, b.fullName)
  }

  lemma ByNameIsPreorder()
    ensures TotalPreorder(ByName)
  {
    forall a: UserRow, b: UserRow ensures ByName(a, b) || ByName(b, a) {
      StrLeTotal(a.fullName, b.fullName);
    }
    forall a: UserRow, b: UserRow, c: UserRow | ByName(a, b) && ByName(b, c) ensures ByName(a, c) {
      StrLeTransitive(a.fullName, b.fullName, c.fullName);
    }
  }

  /** One entry of `get_mentorship_requests`: the request and its mentee. */
  datatype RequestView = RequestView(
    id: nat,
    createdAt: int,
    menteeName: string,
    menteeExperience: string,
    menteeFarmType: string,
    menteeLocation: string)

  function ViewRequest(x: (MentorshipRow, UserRow)): RequestView {
    RequestView(x.0.id, x.0.createdAt, x.1.fullName, x.1.farmingExperience, x.1.farmType, x.1.location)
  }

  predicate PendingForMentor(m: MentorshipRow, mentorId: nat) {
    m.mentorId == mentorId && m.status == Pending
  }

  /** `FROM mentorships m JOIN users u ON m.mentee_id = u.id WHERE m.mentor_id = ? AND m.status = 'pending'`. */
  function RequestRows(ms: seq<MentorshipRow>, users: seq<UserRow>, mentorId: nat): (r: seq<(MentorshipRow, UserRow)>)
    ensures forall x :: x in r <==> x.0 in ms && PendingForMentor(x.0, mentorId) && UserById(users, x.0.menteeId) == Some(x.1)
  {
    if ms == [] then []
    else
      var init, last := ms[..|ms| - 1], ms[|ms| - 1];
      assert ms == init + [last];
      var r := RequestRows(init, users, mentorId);
      match UserById(users, last.menteeId)
      case Some(u) => if PendingForMentor(last, mentorId) then r + [(last, u)] else r
      case None => r
  }

  /** `ORDER BY m.created_at DESC`. */
  predicate NewestRequestFirst(a: (MentorshipRow, UserRow), b: (MentorshipRow, UserRow)) {
    a.0.createdAt >= b.0.createdAt
  }

  lemma NewestRequestFirstIsPreorder()
    ensures TotalPreorder(NewestRequestFirst)
  {
  }

  /** `v` is the view of row `i`, a pending request to `mentorId` joined with its existing mentee. */
  predicate RequestViewOf(ms: seq<MentorshipRow>, users: seq<UserRow>, mentorId: nat, i: int, v: RequestView) {
    && 0 <= i < |ms|
    && PendingForMentor(ms[i], mentorId)
    && UserById(users, ms[i].menteeId).Some?
    && v == ViewRequest((ms[i], UserById(users, ms[i].menteeId).value))
  }

  /** The views `get_mentorship_requests` builds from its ordered rows. */
  function RequestViews(ms: seq<MentorshipRow>, users: seq<UserRow>, mentorId: nat): seq<RequestView> {
    NewestRequestFirstIsPreorder();
    MapSeq(SortBy(RequestRows(ms, users, mentorId), NewestRequestFirst), ViewRequest)
  }

  /** `v` is the view of one of the mentor's pending requests with an existing mentee. */
  predicate IsRequestView(ms: seq<MentorshipRow>, users: seq<UserRow>, mentorId: nat, v: RequestView) {
    exists i :: 0 <= i < |ms| && RequestViewOf(ms, users, mentorId, i, v)
  }

  /** Every view is the view of one of the mentor's pending requests with an existing mentee. */
  predicate RequestViewsSound(ms: seq<MentorshipRow>, users: seq<UserRow>, mentorId: nat, r: seq<RequestView>) {
    forall k :: 0 <= k < |r| ==> IsRequestView(ms, users, mentorId, r[k])
  }

  /** Every pending request to the mentor with an existing mentee has its view listed. */
  predicate RequestViewsComplete(ms: seq<MentorshipRow>, users: seq<UserRow>, mentorId: nat, r: seq<RequestView>) {
    forall i :: 0 <= i < |ms| && PendingForMentor(ms[i], mentorId) && UserById(users, ms[i].menteeId).Some? ==>
      exists k :: 0 <= k < |r| && RequestViewOf(ms, users, mentorId, i, r[k])
  }

  /** Views of joined pending rows are sound. */
  lemma ViewsOfRowsSound(ms: seq<MentorshipRow>, users: seq<UserRow>, mentorId: nat, rows: seq<(MentorshipRow, UserRow)>)
    requires forall x :: x in rows ==> x.0 in ms && PendingForMentor(x.0, mentorId) && UserById(users, x.0.menteeId) == Some(x.1)
    ensures RequestViewsSound(ms, users, mentorId, MapSeq(rows, ViewRequest))
  {
    var r := MapSeq(rows, ViewRequest);
    forall k | 0 <= k < |r| ensures IsRequestView(ms, users, mentorId, r[k]) {
      assert rows[k] in rows;
      var i :| 0 <= i < |ms| && ms[i] == rows[k].0;
      assert RequestViewOf(ms, users, mentorId, i, r[k]);
    }
  }

  /** Views of a list holding every joined pending row are complete. */
  lemma ViewsOfRowsComplete(ms: seq<MentorshipRow>, users: seq<UserRow>, mentorId: nat, rows: seq<(MentorshipRow, UserRow)>)
    requires forall x: (MentorshipRow, UserRow) :: x.0 in ms && PendingForMentor(x.0, mentorId) && UserById(users, x.0.menteeId) == Some(x.1) ==> x in rows
    ensures RequestViewsComplete(ms, users, mentorId, MapSeq(rows, ViewRequest))
  {
    var r := MapSeq(rows, ViewRequest);
    forall i | 0 <= i < |ms| && PendingForMentor(ms[i], mentorId) && UserById(users, ms[i].menteeId).Some?
      ensures exists k :: 0 <= k < |r| && RequestViewOf(ms, users, mentorId, i, r[k])
    {
      var x := (ms[i], UserById(users, ms[i].menteeId).value);
      assert x in rows;
      var k :| 0 <= k < |rows| && rows[k] == x;
      assert RequestViewOf(ms, users, mentorId, i, r[k]);
    }
  }

  lemma RequestViewsMeaning(ms: seq<MentorshipRow>, users: seq<UserRow>, mentorId: nat)
    ensures var r := RequestViews(ms, users, mentorId);
            && (forall i, j :: 0 <= i < j < |r| ==> r[i].createdAt >= r[j].createdAt)
            && RequestViewsSound(ms, users, mentorId, r)
            && RequestViewsComplete(ms, users, mentorId, r)
  {
    NewestRequestFirstIsPreorder();
    var rows := RequestRows(ms, users, mentorId);
    var sorted := SortBy(rows, NewestRequestFirst);
    SortByMembers(rows, NewestRequestFirst);
    ViewsOfRowsSound(ms, users, mentorId, sorted);
    ViewsOfRowsComplete(ms, users, mentorId, sorted);
  }

  // ---------------------------------------------------------------------------
  // The manager

  class MentorshipManager {
    const db: Database

    constructor (db: Database)
      ensures this.db == db
    {
      this.db := db;
    }

    /**
     * `request_mentorship`: any row for the pair, whatever its status,
     * refuses the request and nothing is written; otherwise one `pending`
     * row is added and its id returned.
     */
    method RequestMentorship(menteeId: nat, mentorId: nat, now: int) returns (r: Result<nat, MentorshipError>)
      requires db.Valid()
      modifies db
      ensures db.Valid()
      ensures HasMentorship(old(db.mentorships), mentorId, menteeId) ==>
                r == Err(RequestExists) && db.State() == old(db.State())
      ensures !HasMentorship(old(db.mentorships), mentorId, menteeId) ==>
                && r == Ok(old(db.nextMentorshipId))
                && db.State() == AddMentorship(old(db.State()), mentorId, menteeId, now)
    {
      if HasMentorship(db.mentorships, mentorId, menteeId) {
        return Err(RequestExists);
      }
      AddMentorshipValid(db.State(), mentorId, menteeId, now);
      var id := db.InsertMentorship(mentorId, menteeId, now);
      r := Ok(id);
    }

    /**
     * `accept_mentorship`: the pair's pending rows become accepted; when
     * there are none the answer is 'No pending request found!' and nothing
     * changes.
     */
    method AcceptMentorship(mentorId: nat, menteeId: nat) returns (r: Result<(), MentorshipError>)
      requires db.Valid()
      modifies db
      ensures db.Valid()
      ensures PendingCount(old(db.mentorships), mentorId, menteeId) == 0 ==>
                r == Err(NoPendingRequest) && db.State() == old(db.State())
      ensures PendingCount(old(db.mentorships), mentorId, menteeId) > 0 ==>
                && r == Ok(())
                && db.State() == old(db.State()).(mentorships := AcceptRows(old(db.mentorships), mentorId, menteeId))
    {
      AcceptRowsEffect(db.State(), mentorId, menteeId);
      if PendingCount(db.mentorships, mentorId, menteeId) == 0 {
        AcceptNothingPending(db.mentorships, mentorId, menteeId);
      }
      var rowcount := db.AcceptPending(mentorId, menteeId);
      if rowcount == 0 {
        return Err(NoPendingRequest);
      }
      r := Ok(());
    }

    /**
     * `get_available_mentors`: every mentor (of the specialty, when one is
     * given) and no one else, ordered by full name.
     */
    function GetAvailableMentors(specialty: Option<string>): (r: seq<MentorView>)
      reads db
      ensures forall i, j :: 0 <= i < j < |r| ==> StrLe(r[i].fullName, r[j].fullName)
      ensures forall k :: 0 <= k < |r| ==>
                exists i :: 0 <= i < |db.users| && OffersMentoring(db.users[i], specialty) && r[k] == ViewMentor(db.users[i])
      ensures forall i :: 0 <= i < |db.users| && OffersMentoring(db.users[i], specialty) ==>
                exists k :: 0 <= k < |r| && r[k] == ViewMentor(db.users[i])
    {
      ByNameIsPreorder();
      var rows := MentorRows(db.users, specialty);
      var sorted := SortBy(rows, ByName);
      SortByMembers(rows, ByName);
      var r := MapSeq(sorted, ViewMentor);
      assert forall k :: 0 <= k < |r| ==> sorted[k] in db.users;
      assert forall i :: 0 <= i < |db.users| && OffersMentoring(db.users[i], specialty) ==> db.users[i] in sorted;
      r
    }

    /**
     * `get_mentorship_requests`: the pending requests addressed to this
     * mentor whose mentee exists, each joined with its mentee, newest first.
     */
    function GetMentorshipRequests(mentorId: nat): (r: seq<RequestView>)
      reads db
      ensures forall i, j :: 0 <= i < j < |r| ==> r[i].createdAt >= r[j].createdAt
      ensures RequestViewsSound(db.mentorships, db.users, mentorId, r)
      ensures RequestViewsComplete(db.mentorships, db.users, mentorId, r)
    {
      RequestViewsMeaning(db.mentorships, db.users, mentorId);
      RequestViews(db.mentorships, db.users, mentorId)
    }
  }
}
