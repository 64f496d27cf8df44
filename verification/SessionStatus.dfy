/** Values of the status columns of interview_sessions. */
module SessionStatus {

  datatype Status = Pending | OnGoing | Completed | Aborted | Cancelled | TimedOut

  datatype FinalizeStatus = Ongoing | Finalizing | Finalized | Failed
}
