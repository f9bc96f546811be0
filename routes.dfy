/** The request handlers of cms_app/routes.py over one database whose rows they
    change in place. The acting user is an explicit argument standing for
    flask_login's current_user; a handler behind login_required requires that
    the actor is a stored user. */
module Routes {
  import opened Nullable
  import opened Forms
  import opened Models
  import opened Policy
  import opened Lifecycle
  import Dashboard

  class Store {
    var users: seq<User>
    var complaints: seq<Complaint>
    var comments: seq<Comment>
    var notifications: seq<Notification>
    var nextUserId: nat
    var nextComplaintId: nat
    var nextCommentId: nat
    var nextNotificationId: nat

    /** The database the fields hold. */
    function State(): Db
      reads this
    {
      Db(users, complaints, comments, notifications, nextUserId, nextComplaintId, nextCommentId, nextNotificationId)
    }

    ghost predicate Valid()
      reads this
    {
      Models.Valid(State())
    }

    /** A session over an existing database. */
    constructor (db: Db)
      requires Models.Valid(db)
      ensures Valid() && State() == db
    {
      users, complaints, comments, notifications := db.users, db.complaints, db.comments, db.notifications;
      nextUserId, nextComplaintId := db.nextUserId, db.nextComplaintId;
      nextCommentId, nextNotificationId := db.nextCommentId, db.nextNotificationId;
    }

    /** register (POST). */
    method Register(username: string, email: string, password: Credential) returns (o: Outcome)
      requires Valid()
      requires !EmailTaken(users, email) ==> !UsernameTaken(users, username)
      modifies this
      ensures Response(o, State()) == Lifecycle.Register(old(State()), username, email, password)
      ensures Valid()
    {
      if EmailTaken(users, email) {
        return Invalid;
      }
      users := users + [User(nextUserId, username, email, password, false)];
      nextUserId := nextUserId + 1;
      o := Ok;
    }

    /** submit_complaint (POST); upload is the file that came with the form, if any. */
    method SubmitComplaint(actor: User, form: ComplaintForm, upload: Option<Upload>) returns (o: Outcome)
      requires Valid() && actor in users
      modifies this
      ensures Response(o, State()) == Lifecycle.Submit(old(State()), actor, form, upload)
      ensures Valid()
    {
      var s := Validate(form);
      if s.None? {
        return Invalid;
      }
      var attachment := None;
      if upload.Some? && upload.value.filename != "" {
        if upload.value.sanitised == "" {
          return ServerError;
        }
        attachment := Some(upload.value.sanitised);
      }
      var c := Complaint(nextComplaintId, s.value.title, s.value.description, s.value.category,
                         Some(s.value.priority), attachment, Pending, actor.id, None);
      complaints := complaints + [c];
      nextComplaintId := nextComplaintId + 1;
      o := Ok;
    }

    /** update_status. */
    method UpdateStatus(actor: User, complaintId: nat, status: string) returns (o: Outcome)
      requires Valid() && actor in users
      modifies this
      ensures Response(o, State()) == Lifecycle.UpdateStatus(old(State()), actor, complaintId, status)
      ensures Valid()
    {
      if !MayChangeStatus(actor) {
        return Unauthorized;
      }
      var k := FindComplaint(complaints, complaintId);
      if k.None? {
        return NotFound;
      }
      var s := ParseStatus(status);
      if s.None? {
        return Invalid;
      }
      var c := complaints[k.value];
      complaints := complaints[k.value := c.(status := s.value)];
      notifications := notifications + [Notification(nextNotificationId, c.userId, StatusMessage(c.title, status), false)];
      nextNotificationId := nextNotificationId + 1;
      o := Ok;
    }

    /** view_complaint (GET): no check beyond being signed in. */
    method ViewComplaint(actor: User, complaintId: nat) returns (r: Option<(Complaint, seq<Comment>)>)
      requires Valid() && actor in users
      ensures r == Lifecycle.View(State(), complaintId)
    {
      var k := FindComplaint(complaints, complaintId);
      if k.None? {
        return None;
      }
      r := Some((complaints[k.value], CommentsOn(comments, complaintId)));
    }

    /** view_complaint (POST): the comment path. */
    method CommentOn(actor: User, complaintId: nat, text: Option<string>) returns (o: Outcome)
      requires Valid() && actor in users
      modifies this
      ensures Response(o, State()) == Lifecycle.AddComment(old(State()), actor, complaintId, text)
      ensures Valid()
    {
      var k := FindComplaint(complaints, complaintId);
      if k.None? {
        return NotFound;
      }
      var c := complaints[k.value];
      if !actor.isAdmin && c.userId != actor.id {
        return Unauthorized;
      }
      if actor.isAdmin && c.assignedTo != Some(actor.id as int) {
        return Unauthorized;
      }
      if c.status == Resolved || c.status == Denied {
        return Unauthorized;
      }
      if text.None? || text.value == "" {
        return Invalid;
      }
      comments := comments + [Comment(nextCommentId, complaintId, actor.id, text.value)];
      nextCommentId := nextCommentId + 1;
      o := Ok;
    }

    /** assign_complaint; staffId is None when the form's staff_id is missing or empty. */
    method AssignComplaint(actor: User, complaintId: nat, staffId: Option<int>) returns (o: Outcome)
      requires Valid() && actor in users
      modifies this
      ensures Response(o, State()) == Lifecycle.Assign(old(State()), actor, complaintId, staffId)
      ensures Valid()
    {
      if !MayAssign(actor) {
        return Unauthorized;
      }
      var k := FindComplaint(complaints, complaintId);
      if k.None? {
        return NotFound;
      }
      if staffId.None? {
        return Invalid;
      }
      complaints := complaints[k.value := complaints[k.value].(assignedTo := staffId)];
      o := Ok;
    }

    /** read_notification. */
    method ReadNotification(actor: User, id: nat) returns (o: Outcome)
      requires Valid() && actor in users
      modifies this
      ensures Response(o, State()) == Lifecycle.ReadNotification(old(State()), actor, id)
      ensures Valid()
    {
      var k := FindNotification(notifications, id);
      if k.None? {
        return NotFound;
      }
      if !MayReadNotification(actor, notifications[k.value]) {
        return Unauthorized;
      }
      notifications := notifications[k.value := notifications[k.value].(isRead := true)];
      o := Ok;
    }

    /** dashboard: the statistics over the complaints in the actor's scope. */
    method ShowDashboard(actor: User) returns (st: Dashboard.Stats)
      requires Valid() && actor in users
      ensures st == Dashboard.Compute(actor, complaints)
    {
      st := Dashboard.Compute(actor, complaints);
    }
  }

  /** Three users: a student and two admins, one of whom acts as staff. */
  function SeedDb(): Db {
    Db([User(1, "ali", "ali@example.edu", "hash-a", false),
        User(2, "sara", "sara@example.edu", "hash-m", true),
        User(3, "omar", "omar@example.edu", "hash-s", true)],
       [], [], [], 4, 1, 1, 1)
  }

  lemma SeedValid()
    ensures Models.Valid(SeedDb())
  {
    var us := SeedDb().users;
    assert us[0].username[0] == 'a' && us[1].username[0] == 's' && us[2].username[0] == 'o';
    assert us[0].email[0] == 'a' && us[1].email[0] == 's' && us[2].email[0] == 'o';
    assert UserIds(us) == [1, 2, 3];
  }

  /** A walk through the complaint lifecycle: a student files a complaint, an admin
      assigns it to a staff member, the staff member comments, the admin resolves it
      and the student is notified; after that nobody can comment any more. */
  method BrokenAirConditioner() {
    SeedValid();
    var store := new Store(SeedDb());
    var student := store.users[0];

    var form := ComplaintForm(Some("Broken AC"), Some("Facilities"), Some("High"), Some("Room 12 is too hot"));
    assert !IsSpace("Broken AC"[0]) && !IsSpace("Room 12 is too hot"[0]);
    var o := store.SubmitComplaint(student, form, None);
    assert o == Ok;
    var c := store.complaints[0];
    assert store.complaints == [c] && c.id == 1;
    assert c.status == Pending && c.userId == student.id && c.assignedTo == None && store.comments == [];

    assert store.users == SeedDb().users;
    AssignAndDiscuss(store, c);
  }

  /** An admin assigns the new complaint to the staff member, who comments on it. */
  method AssignAndDiscuss(store: Store, c: Complaint)
    requires store.Valid() && store.users == SeedDb().users
    requires store.complaints == [c] && c.id == 1 && c.userId == 1 && c.assignedTo == None && c.status == Pending
    requires store.comments == []
    modifies store
  {
    var manager, staff := store.users[1], store.users[2];
    assert ComplaintIds(store.complaints) == [1];
    assert FindComplaint(store.complaints, 1) == Some(0);
    var o := store.AssignComplaint(manager, 1, Some(3));
    assert o == Ok;
    var current := store.complaints[0];
    assert store.complaints == [current] && current.id == 1 && current.assignedTo == Some(3);
    assert ComplaintIds(store.complaints) == [1];

    o := store.CommentOn(staff, 1, Some("investigating"));
    assert o == Ok;
    assert |store.comments| == 1;
    assert store.complaints == [current] && current.userId == 1 && current.status == Pending;
    assert store.users == SeedDb().users;
    Resolve(store, current);
  }

  /** The admin resolves the complaint the staff member commented on; the student
      is notified and the staff member can no longer comment. */
  method Resolve(store: Store, c: Complaint)
    requires store.Valid() && store.users == SeedDb().users
    requires store.complaints == [c] && c.id == 1 && c.userId == 1 && c.assignedTo == Some(3) && c.status == Pending
    modifies store
  {
    var student, manager, staff := store.users[0], store.users[1], store.users[2];
    assert ComplaintIds(store.complaints) == [1];
    assert ParseStatus("Resolved") == Some(Resolved);
    var o := store.UpdateStatus(manager, 1, "Resolved");
    assert o == Ok;
    var n := Last(store.notifications);
    assert n.userId == student.id && !n.isRead && Mentions(n.message, "Resolved");

    var resolved := store.complaints[0];
    assert store.complaints == [resolved] && resolved.status == Resolved;
    assert ComplaintIds(store.complaints) == [1];
    o := store.CommentOn(staff, 1, Some("closing"));
    assert o == Unauthorized;
  }
}
