/** Small shared vocabulary: an optional value and an operator's return status. */
module Common {

  datatype Option<+T> = None | Some(value: T)

  /** What an operator's `execute` hands back to the host: {'FINISHED'} or {'CANCELLED'}. */
  datatype Status = Finished | Cancelled
}
