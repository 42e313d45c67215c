/** The status column of the videos table, shared by the backfill protocol and the video services. */
module VideoStatus {

  datatype Status = Pending | Downloaded | Skipped | Failed | Cancelled

  predicate Terminal(status: Status) {
    status == Downloaded || status == Skipped || status == Failed
  }
}
