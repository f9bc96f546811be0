# Complaint management: lifecycle and authorization model

A Dafny model of the request handlers of a Flask complaint-management
application. Users submit complaints; admins change their status, assign
them to staff and discuss them in comments; the owner of a complaint is
notified of each status change. The model covers:

- the complaint form (`cms_app/forms.py`): the fixed category and priority
  lists and the required fields (`forms.dfy`, module `Forms`);
- the four tables of `cms_app/models.py` as record types, the database as a
  value `Db`, and the invariant that the schema and the handlers keep:
  auto-increment keys, unique usernames and emails, non-null owners and
  foreign keys, and the cascade from a complaint to its comments
  (`models.dfy`, module `Models`);
- the authorization gates of `cms_app/routes.py` as predicates
  (`policy.dfy`, module `Policy`);
- the dashboard statistics as counting functions over the complaint table
  (`dashboard.dfy`, module `Dashboard`);
- what each handler does to the database, as a function from the database
  before the request to an outcome (`Ok`, `Unauthorized`, `NotFound`,
  `Invalid`, or `ServerError` for an exception the handler does not catch,
  here a failed `file.save` in submit_complaint, with nothing committed) and
  the database after it, with the properties each handler promises as its
  contract (`lifecycle.dfy`, module `Lifecycle`);
- the handlers themselves as methods of a class `Store` whose fields are
  the tables and which the handlers update in place. Each method is proved
  to produce exactly the outcome and new state its `Lifecycle` function
  describes. A three-step client walks one complaint from submission to
  resolution (`routes.dfy`, module `Routes`).

The acting user is passed to every handler explicitly. It stands for
flask_login's `current_user`, and a handler behind `login_required`
requires that the actor is a stored user. Every refused request leaves the
database unchanged.

The handlers allow more than a reader might expect; the model follows the code:

- Viewing a complaint has no authorization check: any signed-in user sees any complaint with its comments.
- An admin may comment only on a complaint assigned to them, even one they submitted.
- A comment of white space only is accepted. Only a missing or empty comment is refused, and silently.
- The form requires a priority (DataRequired), although the column is nullable.
- `assign` stores any non-empty staff id without checking it: the handler checks neither that the user exists nor that they are an admin (see "## Left out").
- Status may move from any of the five values to any other, including out of Resolved and Denied.

## Model

| member | source | states |
|---|---|---|
| `Forms.ParseCategory` | cms_app/forms.py:7-13 | a category is accepted exactly when it is one of Academic, Facilities, Transport, Hostel, Administration, and is read back as that choice |
| `Forms.ParsePriority` | cms_app/forms.py:14-18 | a priority is accepted exactly when it is one of Low, Medium, High |
| `Forms.Validate` | cms_app/forms.py:5-20 | a form passes if and only if title and description are present and not blank after stripping white space, and category and priority are present and in their lists; the accepted data is exactly what was sent; the attachment is not required |
| `Forms.ValidateFormOf` | cms_app/forms.py:5-20 | any listed category and priority with a non-blank title and description pass validation and come back unchanged |
| `Models.Valid` | cms_app/models.py:5-82 | the schema invariant every handler keeps: keys are positive, increasing and below each table's auto-increment counter; usernames and emails are unique; a complaint's owner, a comment's complaint and author, and a notification's owner exist; comment text is not empty; assigned_to is unconstrained |
| `Models.ParseStatus` | cms_app/routes.py:170 | a status name is accepted exactly when it is one of Pending, Approved, Denied, In Progress, Resolved |
| `Models.IndexOf` | cms_app/routes.py:169 | a primary-key lookup returns a position holding the key, or reports that no row has it |
| `Models.IndexOfIssued` | cms_app/models.py:36 | with keys issued by the auto-increment counter, the lookup finds the one row that carries the key |
| `Models.FindComplaint` | cms_app/routes.py:169 | get_or_404 on complaints: a found row has the requested id; not found means no complaint has it |
| `Models.FindNotification` | cms_app/routes.py:245 | get_or_404 on notifications: a found row has the requested id; not found means no notification has it |
| `Models.WithoutComplaintKeys` | cms_app/models.py:35-36 | removing complaint rows keeps the remaining keys positive, increasing and below the counter |
| `Models.DeleteComplaint` | cms_app/models.py:56-60 | deleting a complaint removes it and every comment on it, keeps every other complaint and comment, users and notifications, and keeps the database invariant |
| `Dashboard.Visible` | cms_app/routes.py:44-49 | the user_filter: an admin sees every complaint, anyone else only those whose owner is the actor |
| `Dashboard.Scoped` | cms_app/routes.py:44-49 | the loaded list holds exactly the visible complaints of the table: all for an admin, those whose owner is the actor otherwise |
| `Dashboard.ScopedCounts` | cms_app/routes.py:44-52 | the loaded list holds each visible complaint exactly as often as the table does and nothing else, which fixes its length, the total |
| `Dashboard.CountStatus` | cms_app/routes.py:54-77 | a per-status count never exceeds the number of complaints in scope |
| `Dashboard.CountCategory` | cms_app/routes.py:80-91 | a per-category count never exceeds the number of complaints in scope |
| `Dashboard.Compute` | cms_app/routes.py:44-91 | the total is the number of complaints in scope, and all complaints for an admin; each status field is the number of complaints in scope with that status; the five status counts sum to the total; the category rows sum to the total; a category has a row exactly when its count is positive |
| `Dashboard.AdminSeesAll` | cms_app/routes.py:44-46 | for an admin the scope is the whole complaint table |
| `Dashboard.StatusCountsSum` | cms_app/routes.py:52-77 | Pending, In Progress, Resolved, Approved and Denied counts add up to the number of complaints in scope |
| `Dashboard.CategoryCounts` | cms_app/routes.py:80-91 | the category group-by: a row for each category that occurs in scope, holding its count |
| `Dashboard.CategorySum` | cms_app/routes.py:80-91 | the five per-category counts add up to the number of complaints in scope |
| `Dashboard.CategoryCountsSum` | cms_app/routes.py:80-91 | the rows of the category group-by add up to the number of complaints in scope |
| `Dashboard.CountStatusInScope` | cms_app/routes.py:54-57 | a status query with user_filter counts the same as counting within the loaded list |
| `Dashboard.OnlyScopeCounts` | cms_app/routes.py:44-91 | the statistics depend only on the complaints in scope: for a non-admin, complaints of other owners change nothing |
| `Lifecycle.StatusMessage` | cms_app/routes.py:179 | the notification text of a status change, built from the complaint's title and the new status name |
| `Lifecycle.StatusMessageMentions` | cms_app/routes.py:179 | the status-change message contains the complaint's title and the new status name |
| `Lifecycle.Register` | cms_app/routes.py:145-158 | an email already present is refused with nothing changed; otherwise exactly one user is appended under the next key, with the given username, email and credential and not an admin; afterwards the email is present; usernames and emails stay unique |
| `Lifecycle.StoredAttachment` | cms_app/routes.py:115-118 | the attachment column: the sanitised name of a file that came with a non-empty name, nothing otherwise (a plain definition; `Lifecycle.Submit` states and proves the promise) |
| `Lifecycle.Submit` | cms_app/routes.py:113-132 | an invalid form changes nothing; a valid form with a file whose name sanitises to nothing fails with nothing stored; otherwise exactly one complaint is appended under the next key, owned by the actor, with status Pending, unassigned, with the submitted fields, and with the sanitised file name as attachment exactly when a file with a non-empty name came |
| `Policy.MayChangeStatus` | cms_app/routes.py:165-167 | only an admin may change a complaint's status |
| `Lifecycle.UpdateStatus` | cms_app/routes.py:164-185 | a non-admin is refused before the complaint is looked up; then a missing complaint is NotFound; then a name outside the five is Invalid; every refusal changes nothing; success happens exactly when all three pass |
| `Lifecycle.StatusChanged` | cms_app/routes.py:174-182 | the complaint's status becomes the named one and no other row changes; exactly one notification is appended, for the complaint's owner, unread, mentioning the title and the status |
| `Lifecycle.CommentsOn` | cms_app/models.py:56-60 | the Complaint.comments relationship: exactly the comments whose complaint_id is the complaint's id |
| `Lifecycle.CommentsOnCounts` | cms_app/models.py:56-60 | the relationship lists each comment of the complaint exactly as often as the comment table holds it, and no comment of another complaint |
| `Lifecycle.View` | cms_app/routes.py:189-190 | any signed-in user gets a complaint that exists with exactly its comments, each as often as the comment table holds it; only a missing complaint is refused |
| `Policy.MayComment` | cms_app/routes.py:195-202 | the two role gates of commenting: a non-admin only on a complaint they own, an admin only on one assigned to them |
| `Policy.OpenForComments` | cms_app/routes.py:204-207 | a Resolved or Denied complaint takes no more comments |
| `Lifecycle.AddComment` | cms_app/routes.py:190-220 | a missing complaint is NotFound; a non-admin who does not own it, an admin it is not assigned to, and anyone on a Resolved or Denied complaint are refused; a missing or empty text adds nothing; otherwise exactly one comment is appended carrying the complaint's id, the actor's id and the text |
| `Policy.MayAssign` | cms_app/routes.py:228-229 | only an admin may assign a complaint |
| `Lifecycle.Assign` | cms_app/routes.py:226-240 | a non-admin is refused, then a missing complaint is NotFound, then a missing staff id is Invalid, each changing nothing; on success only that complaint's assigned_to changes; no notification is ever created |
| `Policy.MayReadNotification` | cms_app/routes.py:247-250 | only the owner of a notification may mark it read |
| `Lifecycle.ReadNotification` | cms_app/routes.py:245-254 | a missing notification is NotFound; one the actor does not own is refused with nothing changed; otherwise only its read flag becomes true |
| `Lifecycle.ReadNotificationIdempotent` | cms_app/routes.py:252-254 | marking a notification read twice gives the same outcome and database as marking it once |
| `Lifecycle.HandleEvolves` | cms_app/routes.py:138-256 | every request keeps the database invariant; users and comments are only appended; no complaint or notification disappears; a complaint's owner and submitted fields never change; a read notification never becomes unread |
| `Lifecycle.UpdateStatusEvolves` | cms_app/routes.py:174-182 | a status request, allowed or refused, only appends users and comments; every existing complaint stays at its position with its key, owner and submitted fields, only status and assignment being free to differ; every existing notification keeps its key, owner and message, and a read one stays read |
| `Routes.Store.Register` | cms_app/routes.py:138-158 | the handler changes the user table in place exactly as `Lifecycle.Register` describes and keeps the invariant |
| `Routes.Store.SubmitComplaint` | cms_app/routes.py:109-136 | the handler appends to the complaint table in place exactly as `Lifecycle.Submit` describes and keeps the invariant |
| `Routes.Store.UpdateStatus` | cms_app/routes.py:162-185 | the handler updates the complaint row and appends the notification in place exactly as `Lifecycle.UpdateStatus` describes |
| `Routes.Store.ViewComplaint` | cms_app/routes.py:187-190 | returns what `Lifecycle.View` describes, without any check on the actor |
| `Routes.Store.CommentOn` | cms_app/routes.py:187-220 | the handler appends to the comment table in place exactly as `Lifecycle.AddComment` describes |
| `Routes.Store.AssignComplaint` | cms_app/routes.py:224-240 | the handler rewrites assigned_to in place exactly as `Lifecycle.Assign` describes |
| `Routes.Store.ReadNotification` | cms_app/routes.py:242-256 | the handler sets the read flag in place exactly as `Lifecycle.ReadNotification` describes |
| `Routes.Store.ShowDashboard` | cms_app/routes.py:40-106 | returns the statistics `Dashboard.Compute` gives for the actor over the current complaint table |

## Left out

- HTTP routing, templates, redirects and flash messages: each handler ends in one of the five outcomes `Ok`, `Unauthorized`, `NotFound`, `Invalid` and `ServerError` instead.
- The index, login and logout routes and the user loader (cms_app/routes.py:14-38): they are session handling. The actor is an explicit argument.
- Password hashing and checking: the stored credential is an opaque string.
- File upload: creating the upload directory and writing the file are file-system I/O. `secure_filename` is werkzeug code: the submit handler receives the file name as sent together with its sanitised form.
- Lifecycle.Submit: a failed save is modelled only for a non-empty name that sanitises to the empty string, where the path names the upload directory itself. Other save failures (disk full, permissions) are I/O and are not modelled.
- Creation timestamps (`datetime.utcnow`): a clock.
- The two commits of update_status are modelled as one step. Partial failure, transactions and concurrent requests are not modelled.
- The list of admin users passed to the dashboard template (cms_app/routes.py:93): display data.
- cms_app/__init__.py, config.py and create_admin.py: application wiring, configuration and an interactive script. Admin accounts exist only in an initial database given to the `Store` constructor.
- Lifecycle.Register: requires that the username is free whenever the email is. A clash in that case makes the database raise an error the handler does not catch.
- Routes.Store.Register: the same requirement as `Lifecycle.Register`.
- Register with a missing username, email or password field is not modelled: the inputs are strings.
- Lifecycle.Assign: the staff id is modelled as an integer or absent. Non-numeric text is left out, because a strict MySQL server rejects it. Foreign-key enforcement by the database engine for an unknown staff id is left out too, because the model follows the handler, not the database engine's foreign-key check. Under MySQL both cases fail at the commit, with nothing stored.
- Email comparison is exact string equality. The database's collation (case and accent folding, trailing spaces) is not modelled.
- Column length limits (`String(50)` and the like) and the CSRF token of Flask-WTF are not modelled.
- The status, category and priority columns are strings in the database. The model stores them as enumerations, because the handlers only ever write listed values.
- No handler deletes a complaint. `Models.DeleteComplaint` models only the cascade the schema declares.
