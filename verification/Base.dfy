/** Small value types shared by every module. */
module Base {

  /** A pointer or a lookup that may be nil. */
  datatype Option<+T> = None | Some(value: T)

  /** `ctrl.Result`: zero, an immediate requeue, or a requeue after a number of seconds. */
  datatype Requeue = NoRequeue | RequeueNow | RequeueAfter(seconds: int)

  /** A write is done, is lost, or is done although the caller sees an error. */
  datatype WriteFault = Fine | Lost | DoneButFailed
}
