/** What each request handler of cms_app/routes.py does to the database, as a
    function from the database before the request to an outcome and the
    database after it. Every refused request leaves the database as it was. */
module Lifecycle {
  import opened Nullable
  import opened Forms
  import opened Models
  import opened Policy

  /** How a request ends. Unauthorized covers every "you cannot" refusal (403 or a
      flash message), NotFound the 404 of get_or_404, Invalid a rejected input,
      ServerError an exception the handler does not catch (a 500, nothing committed). */
  datatype Outcome = Ok | Unauthorized | NotFound | Invalid | ServerError

  datatype Response = Response(outcome: Outcome, db: Db)

  /** after is before with exactly one row added at the end. */
  predicate AppendedOne<T(==)>(before: seq<T>, after: seq<T>) {
    |after| == |before| + 1 && after[..|before|] == before
  }

  function Last<T>(s: seq<T>): T
    requires s != []
  {
    s[|s| - 1]
  }

  // The notification text of update_status

  function StatusMessage(title: string, status: string): string {
    "Your complaint '" + title + "' status has been updated to '" + status + "'."
  }

  predicate OccursAt(text: string, part: string, i: nat) {
    i + |part| <= |text| && text[i..i + |part|] == part
  }

  predicate Mentions(text: string, part: string) {
    exists i: nat | i <= |text| :: OccursAt(text, part, i)
  }

  /** The owner is told both which complaint changed and its new status. */
  lemma StatusMessageMentions(title: string, status: string)
    ensures Mentions(StatusMessage(title, status), title)
    ensures Mentions(StatusMessage(title, status), status)
  {
    var head := "Your complaint '";
    var mid := "' status has been updated to '";
    var m := StatusMessage(title, status);
    assert m == head + title + mid + status + "'.";
    assert m[|head|..|head| + |title|] == title;
    assert OccursAt(m, title, |head|);
    var at := |head| + |title| + |mid|;
    assert m[at..at + |status|] == status;
    assert OccursAt(m, status, at);
  }

  // register

  /** register: refuses an email already present; otherwise adds one non-admin user. */
  function Register(db: Db, username: string, email: string, password: Credential): (r: Response)
    requires Valid(db)
    requires !EmailTaken(db.users, email) ==> !UsernameTaken(db.users, username)
    ensures Valid(r.db)
    ensures r.outcome == Ok || r.outcome == Invalid
    ensures r.outcome == Invalid <==> EmailTaken(db.users, email)
    ensures r.outcome == Invalid ==> r.db == db
    ensures r.outcome == Ok ==>
              && AppendedOne(db.users, r.db.users)
              && Last(r.db.users) == User(db.nextUserId, username, email, password, false)
              && r.db == db.(users := r.db.users, nextUserId := db.nextUserId + 1)
    ensures EmailTaken(r.db.users, email)
  {
    if EmailTaken(db.users, email) then Response(Invalid, db)
    else
      var u := User(db.nextUserId, username, email, password, false);
      var users := db.users + [u];
      assert u in users;
      assert UserIds(users) == UserIds(db.users) + [u.id];
      KeysIssuedAppend(UserIds(db.users), db.nextUserId);
      Response(Ok, db.(users := users, nextUserId := db.nextUserId + 1))
  }

  // submit_complaint

  /** An uploaded file: the name the client sent and what werkzeug's secure_filename
      made of it. secure_filename is not part of this model, so its result is an input. */
  datatype Upload = Upload(filename: string, sanitised: string)

  /** A file is handled only when one came with a non-empty name. */
  predicate FileSent(upload: Option<Upload>) {
    upload.Some? && upload.value.filename != ""
  }

  /** A name that sanitises to "" makes file.save target the upload directory itself,
      which raises before the complaint is added to the session. */
  predicate SaveFails(upload: Option<Upload>) {
    FileSent(upload) && upload.value.sanitised == ""
  }

  /** The attachment column: the sanitised name of a file that came, none otherwise. */
  function StoredAttachment(upload: Option<Upload>): Option<string> {
    if FileSent(upload) then Some(upload.value.sanitised) else None
  }

  /** submit_complaint: a valid form adds one complaint owned by the actor, Pending and
      unassigned, unless saving the uploaded file fails first. */
  function Submit(db: Db, actor: User, form: ComplaintForm, upload: Option<Upload>): (r: Response)
    requires Valid(db) && actor in db.users
    ensures Valid(r.db)
    ensures r.outcome == Ok || r.outcome == Invalid || r.outcome == ServerError
    ensures r.outcome == Invalid <==> Validate(form).None?
    ensures r.outcome == ServerError <==> Validate(form).Some? && SaveFails(upload)
    ensures r.outcome != Ok ==> r.db == db
    ensures r.outcome == Ok ==>
              && AppendedOne(db.complaints, r.db.complaints)
              && r.db == db.(complaints := r.db.complaints, nextComplaintId := db.nextComplaintId + 1)
              && var c := Last(r.db.complaints);
              && c.id == db.nextComplaintId
              && c.status == Pending
              && c.userId == actor.id
              && c.assignedTo == None
              && form.title == Some(c.title)
              && form.description == Some(c.description)
              && form.category == Some(CategoryName(c.category))
              && c.priority.Some? && form.priority == Some(PriorityName(c.priority.value))
              && (c.attachment.Some? <==> FileSent(upload))
              && (c.attachment.Some? ==> c.attachment.value == upload.value.sanitised != "")
  {
    match Validate(form)
    case None => Response(Invalid, db)
    case Some(s) =>
      if SaveFails(upload) then Response(ServerError, db) else
      var c := Complaint(db.nextComplaintId, s.title, s.description, s.category, Some(s.priority),
                         StoredAttachment(upload), Pending, actor.id, None);
      var cs := db.complaints + [c];
      assert c in cs;
      assert ComplaintIds(cs) == ComplaintIds(db.complaints) + [c.id];
      KeysIssuedAppend(ComplaintIds(db.complaints), db.nextComplaintId);
      Response(Ok, db.(complaints := cs, nextComplaintId := db.nextComplaintId + 1))
  }

  // update_status

  /** update_status: admin first, then existence, then the status name. On success
      the complaint's status changes and its owner gets one new, unread notification. */
  function UpdateStatus(db: Db, actor: User, complaintId: nat, status: string): (r: Response)
    requires Valid(db) && actor in db.users
    ensures Valid(r.db)
    ensures r.outcome != Ok ==> r.db == db
    ensures !actor.isAdmin ==> r.outcome == Unauthorized
    ensures actor.isAdmin && FindComplaint(db.complaints, complaintId).None? ==> r.outcome == NotFound
    ensures (actor.isAdmin && FindComplaint(db.complaints, complaintId).Some? && ParseStatus(status).None?)
              ==> r.outcome == Invalid
    ensures r.outcome == Ok <==>
              actor.isAdmin && FindComplaint(db.complaints, complaintId).Some? && ParseStatus(status).Some?
    ensures r.outcome == Ok ==>
              r.db == StatusChanged(db, FindComplaint(db.complaints, complaintId).value, status)
  {
    if !MayChangeStatus(actor) then Response(Unauthorized, db)
    else
      match FindComplaint(db.complaints, complaintId)
      case None => Response(NotFound, db)
      case Some(k) =>
        if ParseStatus(status).None? then Response(Invalid, db)
        else Response(Ok, StatusChanged(db, k, status))
  }

  /** The two writes of a successful update_status, taken as one step: the status of
      row k becomes the named one and its owner gets one new, unread notification that
      mentions the complaint's title and the new status. Nothing else changes. */
  function StatusChanged(db: Db, k: nat, status: string): (r: Db)
    requires Valid(db) && k < |db.complaints| && ParseStatus(status).Some?
    ensures Valid(r)
    ensures r.complaints == db.complaints[k := db.complaints[k].(status := ParseStatus(status).value)]
    ensures StatusName(r.complaints[k].status) == status
    ensures AppendedOne(db.notifications, r.notifications)
    ensures var n := Last(r.notifications);
            && n.id == db.nextNotificationId
            && n.userId == db.complaints[k].userId
            && !n.isRead
            && Mentions(n.message, db.complaints[k].title)
            && Mentions(n.message, status)
    ensures r == db.(complaints := r.complaints, notifications := r.notifications,
                     nextNotificationId := db.nextNotificationId + 1)
  {
    var c := db.complaints[k];
    var c' := c.(status := ParseStatus(status).value);
    var cs := db.complaints[k := c'];
    var n := Notification(db.nextNotificationId, c.userId, StatusMessage(c.title, status), false);
    var ns := db.notifications + [n];
    StatusMessageMentions(c.title, status);
    UpdatePreservesKeys(db.complaints, k, c');
    assert NotificationIds(ns) == NotificationIds(db.notifications) + [n.id];
    KeysIssuedAppend(NotificationIds(db.notifications), db.nextNotificationId);
    assert forall x :: x in cs ==> x in db.complaints || x == c';
    assert c in db.complaints && n in ns;
    db.(complaints := cs, notifications := ns, nextNotificationId := db.nextNotificationId + 1)
  }

  /** Rewriting one complaint row without touching its key keeps the keys, and every
      owner and every comment's complaint still exists. */
  lemma UpdatePreservesKeys(cs: seq<Complaint>, k: nat, c: Complaint)
    requires k < |cs| && c.id == cs[k].id
    ensures ComplaintIds(cs[k := c]) == ComplaintIds(cs)
    ensures forall id :: HasComplaint(cs, id) ==> HasComplaint(cs[k := c], id)
  {
    assert ComplaintIds(cs[k := c]) == ComplaintIds(cs);
    forall id | HasComplaint(cs, id) ensures HasComplaint(cs[k := c], id) {
      var x :| x in cs && x.id == id;
      var j :| 0 <= j < |cs| && cs[j] == x;
      if j == k {
        assert cs[k := c][k] == c;
      } else {
        assert cs[k := c][j] == x;
      }
    }
  }

  // view_complaint

  /** The comments of one complaint (the Complaint.comments relationship). */
  function CommentsOn(ms: seq<Comment>, complaintId: nat): (r: seq<Comment>)
    ensures |r| <= |ms|
    ensures forall m :: m in r <==> m in ms && m.complaintId == complaintId
  {
    if ms == [] then []
    else if ms[0].complaintId == complaintId then [ms[0]] + CommentsOn(ms[1..], complaintId)
    else CommentsOn(ms[1..], complaintId)
  }

  /** Each comment of the complaint comes back as often as the table holds it, and no other. */
  lemma {:induction false} CommentsOnCounts(ms: seq<Comment>, complaintId: nat)
    ensures forall m :: multiset(CommentsOn(ms, complaintId))[m] ==
                          if m.complaintId == complaintId then multiset(ms)[m] else 0
  {
    if ms != [] {
      CommentsOnCounts(ms[1..], complaintId);
      assert ms == [ms[0]] + ms[1..];
    }
  }

  /** view_complaint without a form post: the complaint and its comments. It takes no
      actor because the handler checks nothing beyond being signed in. */
  function View(db: Db, complaintId: nat): (r: Option<(Complaint, seq<Comment>)>)
    ensures r.None? <==> !HasComplaint(db.complaints, complaintId)
    ensures r.Some? ==>
              && r.value.0 in db.complaints
              && r.value.0.id == complaintId
              && (forall m :: m in r.value.1 <==> m in db.comments && m.complaintId == complaintId)
              && (forall m :: multiset(r.value.1)[m] ==
                                if m.complaintId == complaintId then multiset(db.comments)[m] else 0)
  {
    match FindComplaint(db.complaints, complaintId)
    case None => None
    case Some(k) =>
      CommentsOnCounts(db.comments, complaintId);
      Some((db.complaints[k], CommentsOn(db.comments, complaintId)))
  }

  /** view_complaint with a form post: the comment path. The complaint must exist; then the
      role gates, then the Resolved/Denied gate; then empty text adds nothing. */
  function AddComment(db: Db, actor: User, complaintId: nat, text: Option<string>): (r: Response)
    requires Valid(db) && actor in db.users
    ensures Valid(r.db)
    ensures r.outcome != Ok ==> r.db == db
    ensures r.outcome == NotFound <==> FindComplaint(db.complaints, complaintId).None?
    ensures FindComplaint(db.complaints, complaintId).Some? ==>
              var c := db.complaints[FindComplaint(db.complaints, complaintId).value];
              && (!MayComment(actor, c) ==> r.outcome == Unauthorized)
              && (c.status == Resolved || c.status == Denied ==> r.outcome == Unauthorized)
              && ((MayComment(actor, c) && OpenForComments(c) && (text.None? || text == Some("")))
                    ==> r.outcome == Invalid)
              && (r.outcome == Ok <==> MayComment(actor, c) && OpenForComments(c) && text.Some? && text.value != "")
    ensures r.outcome == Ok ==>
              && AppendedOne(db.comments, r.db.comments)
              && Last(r.db.comments) == Comment(db.nextCommentId, complaintId, actor.id, text.value)
              && r.db == db.(comments := r.db.comments, nextCommentId := db.nextCommentId + 1)
  {
    match FindComplaint(db.complaints, complaintId)
    case None => Response(NotFound, db)
    case Some(k) =>
      var c := db.complaints[k];
      if !actor.isAdmin && c.userId != actor.id then Response(Unauthorized, db)
      else if actor.isAdmin && c.assignedTo != Some(actor.id as int) then Response(Unauthorized, db)
      else if c.status == Resolved || c.status == Denied then Response(Unauthorized, db)
      else if text.None? || text.value == "" then Response(Invalid, db)
      else
        var m := Comment(db.nextCommentId, complaintId, actor.id, text.value);
        var ms := db.comments + [m];
        assert m in ms && c in db.complaints;
        assert CommentIds(ms) == CommentIds(db.comments) + [m.id];
        KeysIssuedAppend(CommentIds(db.comments), db.nextCommentId);
        Response(Ok, db.(comments := ms, nextCommentId := db.nextCommentId + 1))
  }

  // assign_complaint

  /** assign_complaint: admin first, then existence, then a staff id must have been sent.
      Any staff id is stored as it is; no notification is created. staffId is None when the
      form field is missing or empty. */
  function Assign(db: Db, actor: User, complaintId: nat, staffId: Option<int>): (r: Response)
    requires Valid(db) && actor in db.users
    ensures Valid(r.db)
    ensures r.outcome != Ok ==> r.db == db
    ensures r.db.notifications == db.notifications
    ensures !actor.isAdmin ==> r.outcome == Unauthorized
    ensures actor.isAdmin && FindComplaint(db.complaints, complaintId).None? ==> r.outcome == NotFound
    ensures (actor.isAdmin && FindComplaint(db.complaints, complaintId).Some? && staffId.None?)
              ==> r.outcome == Invalid
    ensures r.outcome == Ok <==>
              actor.isAdmin && FindComplaint(db.complaints, complaintId).Some? && staffId.Some?
    ensures r.outcome == Ok ==>
              var k := FindComplaint(db.complaints, complaintId).value;
              r.db == db.(complaints := db.complaints[k := db.complaints[k].(assignedTo := staffId)])
  {
    if !MayAssign(actor) then Response(Unauthorized, db)
    else
      match FindComplaint(db.complaints, complaintId)
      case None => Response(NotFound, db)
      case Some(k) =>
        if staffId.None? then Response(Invalid, db)
        else
          var c := db.complaints[k].(assignedTo := staffId);
          var cs := db.complaints[k := c];
          UpdatePreservesKeys(db.complaints, k, c);
          assert forall x :: x in cs ==> x in db.complaints || x == c;
          Response(Ok, db.(complaints := cs))
  }

  // read_notification

  /** read_notification: the notification must exist and belong to the actor; it is then marked read. */
  function ReadNotification(db: Db, actor: User, id: nat): (r: Response)
    requires Valid(db) && actor in db.users
    ensures Valid(r.db)
    ensures r.outcome != Ok ==> r.db == db
    ensures r.outcome == NotFound <==> FindNotification(db.notifications, id).None?
    ensures FindNotification(db.notifications, id).Some? ==>
              var k := FindNotification(db.notifications, id).value;
              && (r.outcome == Ok <==> MayReadNotification(actor, db.notifications[k]))
              && (r.outcome != Ok ==> r.outcome == Unauthorized)
              && (r.outcome == Ok ==>
                    r.db == db.(notifications := db.notifications[k := db.notifications[k].(isRead := true)]))
  {
    match FindNotification(db.notifications, id)
    case None => Response(NotFound, db)
    case Some(k) =>
      var n := db.notifications[k];
      if !MayReadNotification(actor, n) then Response(Unauthorized, db)
      else
        var ns := db.notifications[k := n.(isRead := true)];
        assert NotificationIds(ns) == NotificationIds(db.notifications);
        assert forall x :: x in ns ==> x in db.notifications || x == n.(isRead := true);
        Response(Ok, db.(notifications := ns))
  }

  /** Marking a notification read twice is the same as marking it once: same outcome, same database. */
  lemma ReadNotificationIdempotent(db: Db, actor: User, id: nat)
    requires Valid(db) && actor in db.users
    ensures ReadNotification(ReadNotification(db, actor, id).db, actor, id) == ReadNotification(db, actor, id)
  {
    var once := ReadNotification(db, actor, id);
    if once.outcome == Ok {
      var k := FindNotification(db.notifications, id).value;
      var ns := once.db.notifications;
      assert NotificationIds(ns) == NotificationIds(db.notifications);
      assert FindNotification(ns, id) == Some(k);
      assert ns[k] == db.notifications[k].(isRead := true);
      assert ns[k := ns[k].(isRead := true)] == ns;
    }
  }

  // Any request

  /** One request to any of the state-changing handlers. */
  datatype Request =
    | RegisterRequest(username: string, email: string, password: Credential)
    | SubmitRequest(actor: User, form: ComplaintForm, upload: Option<Upload>)
    | UpdateStatusRequest(actor: User, complaintId: nat, status: string)
    | CommentRequest(actor: User, complaintId: nat, text: Option<string>)
    | AssignRequest(actor: User, complaintId: nat, staffId: Option<int>)
    | ReadNotificationRequest(actor: User, notificationId: nat)

  /** What the handlers need of a request: a signed-in actor, and for register a
      username that is free whenever the email is. */
  predicate Admissible(db: Db, req: Request) {
    match req
    case RegisterRequest(username, email, _) => !EmailTaken(db.users, email) ==> !UsernameTaken(db.users, username)
    case _ => req.actor in db.users
  }

  function Handle(db: Db, req: Request): Response
    requires Valid(db) && Admissible(db, req)
  {
    match req
    case RegisterRequest(username, email, password) => Register(db, username, email, password)
    case SubmitRequest(actor, form, upload) => Submit(db, actor, form, upload)
    case UpdateStatusRequest(actor, id, status) => UpdateStatus(db, actor, id, status)
    case CommentRequest(actor, id, text) => AddComment(db, actor, id, text)
    case AssignRequest(actor, id, staffId) => Assign(db, actor, id, staffId)
    case ReadNotificationRequest(actor, id) => ReadNotification(db, actor, id)
  }

  /** A complaint keeps its key, owner and submitted fields; only status and assignment change. */
  predicate SameComplaint(c: Complaint, c': Complaint) {
    c' == c.(status := c'.status, assignedTo := c'.assignedTo)
  }

  /** A notification keeps its key, owner and message, and a read one stays read. */
  predicate SameNotification(n: Notification, n': Notification) {
    n' == n.(isRead := n'.isRead) && (n.isRead ==> n'.isRead)
  }

  /** How the database may evolve under the handlers: users and comments are only
      appended, no complaint or notification disappears, and existing rows change
      only in the columns the handlers write. */
  predicate Evolves(before: Db, after: Db) {
    && |before.users| <= |after.users| && after.users[..|before.users|] == before.users
    && |before.comments| <= |after.comments| && after.comments[..|before.comments|] == before.comments
    && |before.complaints| <= |after.complaints|
    && (forall i :: 0 <= i < |before.complaints| ==> SameComplaint(before.complaints[i], after.complaints[i]))
    && |before.notifications| <= |after.notifications|
    && (forall i :: 0 <= i < |before.notifications| ==>
          SameNotification(before.notifications[i], after.notifications[i]))
  }

  /** Every request, allowed or refused, keeps the invariant and evolves the database
      only as Evolves permits: in particular no complaint ever changes owner and no
      notification goes back to unread. */
  lemma HandleEvolves(db: Db, req: Request)
    requires Valid(db) && Admissible(db, req)
    ensures Valid(Handle(db, req).db)
    ensures Evolves(db, Handle(db, req).db)
  {
    match req
    case RegisterRequest(username, email, password) => AppendEvolves(db, Handle(db, req).db);
    case SubmitRequest(_, _, _) => AppendEvolves(db, Handle(db, req).db);
    case UpdateStatusRequest(actor, id, status) => UpdateStatusEvolves(db, actor, id, status);
    case CommentRequest(_, _, _) => AppendEvolves(db, Handle(db, req).db);
    case AssignRequest(actor, id, staffId) => AssignEvolves(db, actor, id, staffId);
    case ReadNotificationRequest(actor, id) => ReadNotificationEvolves(db, actor, id);
  }

  lemma AppendEvolves(db: Db, db': Db)
    requires db'.complaints == db.complaints || AppendedOne(db.complaints, db'.complaints)
    requires db'.users == db.users || AppendedOne(db.users, db'.users)
    requires db'.comments == db.comments || AppendedOne(db.comments, db'.comments)
    requires db'.notifications == db.notifications
    ensures Evolves(db, db')
  {
  }

  lemma UpdateStatusEvolves(db: Db, actor: User, id: nat, status: string)
    requires Valid(db) && actor in db.users
    ensures Evolves(db, UpdateStatus(db, actor, id, status).db)
  {
    var r := UpdateStatus(db, actor, id, status);
    if r.outcome == Ok {
      var k := FindComplaint(db.complaints, id).value;
      assert r.db == StatusChanged(db, k, status);
      assert r.db.notifications[..|db.notifications|] == db.notifications;
      forall i | 0 <= i < |db.notifications|
        ensures SameNotification(db.notifications[i], r.db.notifications[i])
      {
        assert r.db.notifications[i] == r.db.notifications[..|db.notifications|][i];
      }
    }
  }

  lemma AssignEvolves(db: Db, actor: User, id: nat, staffId: Option<int>)
    requires Valid(db) && actor in db.users
    ensures Evolves(db, Assign(db, actor, id, staffId).db)
  {
  }

  lemma ReadNotificationEvolves(db: Db, actor: User, id: nat)
    requires Valid(db) && actor in db.users
    ensures Evolves(db, ReadNotification(db, actor, id).db)
  {
  }
}
