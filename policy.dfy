/** The authorization gates of the handlers in cms_app/routes.py, as predicates
    over the acting user and the record acted on. */
module Policy {
  import opened Nullable
  import opened Models

  /** update_status: admins only. */
  predicate MayChangeStatus(actor: User) {
    actor.isAdmin
  }

  /** assign_complaint: admins only. */
  predicate MayAssign(actor: User) {
    actor.isAdmin
  }

  /** The two role gates of the comment path: a non-admin comments only on a complaint
      they submitted; an admin only on a complaint assigned to them, owning it is not enough. */
  predicate MayComment(actor: User, c: Complaint) {
    if actor.isAdmin then c.assignedTo == Some(actor.id as int) else c.userId == actor.id
  }

  /** The third gate of the comment path, which applies to every actor. */
  predicate OpenForComments(c: Complaint) {
    c.status != Resolved && c.status != Denied
  }

  /** read_notification: only the notification's owner. */
  predicate MayReadNotification(actor: User, n: Notification) {
    n.userId == actor.id
  }
}
