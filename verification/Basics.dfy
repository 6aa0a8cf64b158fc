/** Types shared by every module: optional values and results of calls that may fail. */
module Basics {

  datatype Option<+T> = None | Some(value: T)

  datatype Result<+T, +E> = Success(value: T) | Failure(error: E)

  type ProductId = int
  type OrderId = int
  type UserId = int

  /** Event ids are fresh UUIDs in the program; a counter stands for them here. */
  type EventId = nat

  /** How a call to a database or a broker ends; a lost answer is a call that took effect and reports an error. */
  datatype CallResult = Works | Fails | LostAck

  ghost predicate AllWork(calls: nat -> CallResult) {
    forall n :: calls(n).Works?
  }

  /** `fault(n)` says whether the n-th call of a method fails. */
  ghost predicate NoFaults(fault: nat -> bool) {
    forall n :: !fault(n)
  }
}
