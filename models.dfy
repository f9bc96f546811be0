/** The four tables of cms_app/models.py as values: one record type per table,
    the whole database as a value of type Db, and the invariant the schema
    (keys, uniqueness, nullability, foreign keys) and the handlers keep. */
module Models {
  import opened Nullable
  import opened Forms

  /** Complaint.status. The column is a string; the handlers only ever store one of these five. */
  datatype Status = Pending | InProgress | Approved | Denied | Resolved

  function StatusName(s: Status): string {
    match s
    case Pending => "Pending"
    case InProgress => "In Progress"
    case Approved => "Approved"
    case Denied => "Denied"
    case Resolved => "Resolved"
  }

  /** The list update_status accepts: exactly the five names. */
  function ParseStatus(s: string): (r: Option<Status>)
    ensures forall t :: r == Some(t) <==> StatusName(t) == s
  {
    if s == "Pending" then Some(Pending)
    else if s == "Approved" then Some(Approved)
    else if s == "Denied" then Some(Denied)
    else if s == "In Progress" then Some(InProgress)
    else if s == "Resolved" then Some(Resolved)
    else None
  }

  /** A password hash; never inspected by the modelled logic. */
  type Credential = string

  datatype User = User(id: nat, username: string, email: string, password: Credential, isAdmin: bool)

  /** assignedTo holds whatever staff id an admin chose; nothing ties it to a user. */
  datatype Complaint = Complaint(
    id: nat,
    title: string,
    description: string,
    category: Category,
    priority: Option<Priority>,
    attachment: Option<string>,
    status: Status,
    userId: nat,
    assignedTo: Option<int>)

  datatype Comment = Comment(id: nat, complaintId: nat, userId: nat, text: string)

  datatype Notification = Notification(id: nat, userId: nat, message: string, isRead: bool)

  /** The database: each table in primary-key order, and the next key of each table's auto-increment counter. */
  datatype Db = Db(
    users: seq<User>,
    complaints: seq<Complaint>,
    comments: seq<Comment>,
    notifications: seq<Notification>,
    nextUserId: nat,
    nextComplaintId: nat,
    nextCommentId: nat,
    nextNotificationId: nat)

  // Primary keys

  function UserIds(us: seq<User>): seq<nat> {
    seq(|us|, i requires 0 <= i < |us| => us[i].id)
  }

  function ComplaintIds(cs: seq<Complaint>): seq<nat> {
    seq(|cs|, i requires 0 <= i < |cs| => cs[i].id)
  }

  function CommentIds(ms: seq<Comment>): seq<nat> {
    seq(|ms|, i requires 0 <= i < |ms| => ms[i].id)
  }

  function NotificationIds(ns: seq<Notification>): seq<nat> {
    seq(|ns|, i requires 0 <= i < |ns| => ns[i].id)
  }

  /** Keys handed out by an auto-increment counter: positive, strictly increasing
      in row order (so unique), and below the counter's next value. */
  predicate KeysIssued(ids: seq<nat>, next: nat) {
    && next > 0
    && (forall i :: 0 <= i < |ids| ==> 0 < ids[i] < next)
    && (forall i, j :: 0 <= i < j < |ids| ==> ids[i] < ids[j])
  }

  /** A primary-key lookup: the position of the row with key id, if any. */
  function IndexOf(ids: seq<nat>, id: nat): (r: Option<nat>)
    ensures r.Some? ==> r.value < |ids| && ids[r.value] == id
    ensures r.None? ==> id !in ids
  {
    if ids == [] then None
    else if ids[0] == id then Some(0)
    else
      match IndexOf(ids[1..], id)
      case None => None
      case Some(k) => Some(k + 1)
  }

  /** With issued keys the lookup finds the one row that carries the key. */
  lemma {:induction false} IndexOfIssued(ids: seq<nat>, next: nat, k: nat)
    requires KeysIssued(ids, next) && k < |ids|
    ensures IndexOf(ids, ids[k]) == Some(k)
  {
    if k > 0 {
      assert ids[0] < ids[k];
      assert KeysIssued(ids[1..], next);
      assert ids[1..][k - 1] == ids[k];
      IndexOfIssued(ids[1..], next, k - 1);
    }
  }

  /** Appending a row under the counter's next key, and bumping the counter, keeps the keys issued. */
  lemma KeysIssuedAppend(ids: seq<nat>, next: nat)
    requires KeysIssued(ids, next)
    ensures KeysIssued(ids + [next], next + 1)
  {
  }

  function FindComplaint(cs: seq<Complaint>, id: nat): (r: Option<nat>)
    ensures r.Some? ==> r.value < |cs| && cs[r.value].id == id
    ensures r.None? ==> forall c :: c in cs ==> c.id != id
  {
    var r := IndexOf(ComplaintIds(cs), id);
    assert forall i :: 0 <= i < |cs| ==> ComplaintIds(cs)[i] == cs[i].id;
    r
  }

  function FindNotification(ns: seq<Notification>, id: nat): (r: Option<nat>)
    ensures r.Some? ==> r.value < |ns| && ns[r.value].id == id
    ensures r.None? ==> forall n :: n in ns ==> n.id != id
  {
    var r := IndexOf(NotificationIds(ns), id);
    assert forall i :: 0 <= i < |ns| ==> NotificationIds(ns)[i] == ns[i].id;
    r
  }

  // Uniqueness and foreign keys

  predicate UniqueUsernames(us: seq<User>) {
    forall i, j :: 0 <= i < j < |us| ==> us[i].username != us[j].username
  }

  predicate UniqueEmails(us: seq<User>) {
    forall i, j :: 0 <= i < j < |us| ==> us[i].email != us[j].email
  }

  predicate EmailTaken(us: seq<User>, email: string) {
    exists u :: u in us && u.email == email
  }

  predicate UsernameTaken(us: seq<User>, username: string) {
    exists u :: u in us && u.username == username
  }

  predicate HasUser(us: seq<User>, id: nat) {
    exists u :: u in us && u.id == id
  }

  predicate HasComplaint(cs: seq<Complaint>, id: nat) {
    exists c :: c in cs && c.id == id
  }

  /** The invariant of the database:
      - every table's keys were issued by its counter;
      - usernames and emails are unique (the unique columns of User);
      - a complaint's owner (user_id, not nullable) is a user; assigned_to is unconstrained;
      - a comment has a complaint, an author and non-empty text;
      - a notification has an owner. */
  predicate Valid(db: Db) {
    && KeysIssued(UserIds(db.users), db.nextUserId)
    && KeysIssued(ComplaintIds(db.complaints), db.nextComplaintId)
    && KeysIssued(CommentIds(db.comments), db.nextCommentId)
    && KeysIssued(NotificationIds(db.notifications), db.nextNotificationId)
    && UniqueUsernames(db.users)
    && UniqueEmails(db.users)
    && (forall c :: c in db.complaints ==> HasUser(db.users, c.userId))
    && (forall m :: m in db.comments ==>
          HasComplaint(db.complaints, m.complaintId) && HasUser(db.users, m.userId) && m.text != "")
    && (forall n :: n in db.notifications ==> HasUser(db.users, n.userId))
  }

  // Cascade delete of a complaint's comments

  function WithoutComplaint(cs: seq<Complaint>, id: nat): (r: seq<Complaint>)
    ensures forall c :: c in r <==> c in cs && c.id != id
    ensures |r| <= |cs|
  {
    if cs == [] then []
    else if cs[0].id == id then WithoutComplaint(cs[1..], id)
    else [cs[0]] + WithoutComplaint(cs[1..], id)
  }

  function WithoutCommentsOf(ms: seq<Comment>, id: nat): (r: seq<Comment>)
    ensures forall m :: m in r <==> m in ms && m.complaintId != id
    ensures |r| <= |ms|
  {
    if ms == [] then []
    else if ms[0].complaintId == id then WithoutCommentsOf(ms[1..], id)
    else [ms[0]] + WithoutCommentsOf(ms[1..], id)
  }

  lemma {:induction false} WithoutComplaintKeys(cs: seq<Complaint>, id: nat, next: nat)
    requires KeysIssued(ComplaintIds(cs), next)
    ensures KeysIssued(ComplaintIds(WithoutComplaint(cs, id)), next)
  {
    if cs != [] {
      var tail := cs[1..];
      assert ComplaintIds(tail) == ComplaintIds(cs)[1..];
      WithoutComplaintKeys(tail, id, next);
      var rest := WithoutComplaint(tail, id);
      if cs[0].id != id {
        var r := [cs[0]] + rest;
        var ids := ComplaintIds(cs);
        assert ids[0] == cs[0].id;
        forall j | 0 < j < |r| ensures cs[0].id < r[j].id < next {
          assert r[j] == rest[j - 1] && r[j] in tail;
          var k :| 0 <= k < |tail| && tail[k] == r[j];
          assert ids[k + 1] == r[j].id;
        }
        assert ComplaintIds(r) == [cs[0].id] + ComplaintIds(rest);
      }
    }
  }

  lemma {:induction false} WithoutCommentsOfKeys(ms: seq<Comment>, id: nat, next: nat)
    requires KeysIssued(CommentIds(ms), next)
    ensures KeysIssued(CommentIds(WithoutCommentsOf(ms, id)), next)
  {
    if ms != [] {
      var tail := ms[1..];
      assert CommentIds(tail) == CommentIds(ms)[1..];
      WithoutCommentsOfKeys(tail, id, next);
      var rest := WithoutCommentsOf(tail, id);
      if ms[0].complaintId != id {
        var r := [ms[0]] + rest;
        var ids := CommentIds(ms);
        assert ids[0] == ms[0].id;
        forall j | 0 < j < |r| ensures ms[0].id < r[j].id < next {
          assert r[j] == rest[j - 1] && r[j] in tail;
          var k :| 0 <= k < |tail| && tail[k] == r[j];
          assert ids[k + 1] == r[j].id;
        }
        assert CommentIds(r) == [ms[0].id] + CommentIds(rest);
      }
    }
  }

  /** Deleting a complaint (cascade='all, delete-orphan' on Complaint.comments):
      the complaint and every comment on it go, everything else stays. */
  function DeleteComplaint(db: Db, id: nat): (r: Db)
    requires Valid(db)
    ensures Valid(r)
    ensures !HasComplaint(r.complaints, id)
    ensures forall m :: m in r.comments ==> m.complaintId != id
    ensures forall c :: c in r.complaints <==> c in db.complaints && c.id != id
    ensures forall m :: m in r.comments <==> m in db.comments && m.complaintId != id
    ensures r.users == db.users && r.notifications == db.notifications
  {
    WithoutComplaintKeys(db.complaints, id, db.nextComplaintId);
    WithoutCommentsOfKeys(db.comments, id, db.nextCommentId);
    db.(complaints := WithoutComplaint(db.complaints, id), comments := WithoutCommentsOf(db.comments, id))
  }
}
