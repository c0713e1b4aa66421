/**
 * `DevQueue(maxSize, allowedToEmit)`: a queue gated on the second allowed
 * status, `dev`, with the other two arguments passed through unchanged.
 */
module DevQueues {
  import opened Values
  import opened Issues
  import opened Queues

  /** The arguments the `Queue` factory receives from `DevQueue`, and what it
      makes of them: the gate is always accepted, so only the capacity
      (2nd argument) and the emit flag (3rd) can be refused. */
  function DevQueueArgs(maxSize: Value, allowedToEmit: Value): (r: Result<QueueConfig>)
    ensures r.Success? <==>
              IsInteger(maxSize) && 1.0 <= maxSize.n <= 20.0
              && (allowedToEmit.Bool? || allowedToEmit == Undefined)
    ensures r.Failure? ==> r.error in {TypeError(2), TypeError(3)}
    ensures r.Success? ==>
              && r.value.gate == "dev"
              && r.value.maxSize as real == maxSize.n
              && r.value.allowedToEmit == (allowedToEmit == Bool(true))
  {
    CheckQueueArgs(Str(AllowedStatuses[1]), maxSize, allowedToEmit)
  }

  method NewDevQueue(maxSize: Value, allowedToEmit: Value) returns (r: Result<Queue>)
    ensures r.Failure? ==> DevQueueArgs(maxSize, allowedToEmit) == Failure(r.error)
    ensures r.Success? <==> DevQueueArgs(maxSize, allowedToEmit).Success?
    ensures r.Success? ==>
              && fresh(r.value) && r.value.Valid()
              && r.value.gate == "dev"
              && r.value.maxSize as real == maxSize.n
              && r.value.allowedToEmit == (allowedToEmit == Bool(true))
              && r.value.items == map[] && r.value.keys == [] && r.value.events == [] && r.value.pendingPops == []
  {
    r := NewQueue(Str(AllowedStatuses[1]), maxSize, allowedToEmit);
  }
}
