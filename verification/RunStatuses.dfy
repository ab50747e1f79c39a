/** The lifecycle status of one execution attempt. */
module RunStatuses {
  datatype RunStatus = Queued | Running | WaitingForInput | Succeeded | Failed | Cancelled
  {
    predicate Terminal() { Succeeded? || Failed? || Cancelled? }
  }
}
