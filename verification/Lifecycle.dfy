/** The statuses of jobs, tasks and teams. */
module Lifecycle {

  datatype Status =
    | Active | Pending | Queued | Running | AwaitingUser | Interrupted | Completed | Failed | Cancelled
  {
    predicate Ended() {
      Completed? || Failed? || Cancelled?
    }

    /** A job in one of these statuses may be given a worker. */
    predicate Dispatchable() {
      Queued? || Running? || AwaitingUser? || Interrupted?
    }
  }
}
