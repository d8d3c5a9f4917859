/** Shared optional values and the error codes the dispatch protocol inspects. */
module Wrappers {
  datatype Option<+T> = None | Some(value: T)

  /** Only the codes some branch of the modelled code compares against. */
  datatype ErrorCode =
    | ResultUncertain
    | ActionGoalNotMet
    | SessionExpired(sessionScope: bool)
    | WorkerTimeout
    | TabNotFound
    | OtherCode
}
