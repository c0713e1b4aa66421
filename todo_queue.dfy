/**
 * `TodoQueue(maxSize)`: a queue gated on the first allowed status, `todo`,
 * whose emit flag always takes its default, so it can never emit.
 */
module TodoQueues {
  import opened Values
  import opened Issues
  import opened Queues

  /** What the `Queue` factory makes of `TodoQueue`'s arguments: only the
      capacity can be refused, and the queue never gets `emit`. */
  function TodoQueueArgs(maxSize: Value): (r: Result<QueueConfig>)
    ensures r.Success? <==> IsInteger(maxSize) && 1.0 <= maxSize.n <= 20.0
    ensures r.Failure? ==> r.error == TypeError(2)
    ensures r.Success? ==>
              && r.value.gate == "todo"
              && r.value.maxSize as real == maxSize.n
              && !r.value.allowedToEmit
  {
    CheckQueueArgs(Str(AllowedStatuses[0]), maxSize, Undefined)
  }

  method NewTodoQueue(maxSize: Value) returns (r: Result<Queue>)
    ensures r.Failure? ==> TodoQueueArgs(maxSize) == Failure(r.error)
    ensures r.Success? <==> TodoQueueArgs(maxSize).Success?
    ensures r.Success? ==>
              && fresh(r.value) && r.value.Valid()
              && r.value.gate == "todo"
              && r.value.maxSize as real == maxSize.n
              && !r.value.CanEmit()
              && r.value.items == map[] && r.value.keys == [] && r.value.events == [] && r.value.pendingPops == []
  {
    r := NewQueue(Str(AllowedStatuses[0]), maxSize, Undefined);
  }

  /** `getSize()` and `getMaxSize()` readings the argument checks accept: a
      non-negative integer. */
  predicate IsCount(v: Value) {
    IsInteger(v) && v.n >= 0.0
  }

  /** The 1st-argument check that `GameMaster` and `IssueGenerator` make of
      the todo queue they are handed: a truthy object, a `getSize` method
      returning a count and a `getMaxSize` method returning a count, in that
      order. Every refusal is a 1st-argument error. */
  function CheckQueueLike(todoQueue: Value): (r: Outcome)
    ensures r.Fail? ==> r.error == TypeError(1)
    ensures r == Pass <==>
              && IsObject(todoQueue)
              && "getSize" in Methods(todoQueue) && IsCount(Methods(todoQueue)["getSize"])
              && "getMaxSize" in Methods(todoQueue) && IsCount(Methods(todoQueue)["getMaxSize"])
  {
    if !IsObject(todoQueue) then Fail(TypeError(1))
    else if "getSize" !in Methods(todoQueue) then Fail(TypeError(1))
    else if !IsCount(Methods(todoQueue)["getSize"]) then Fail(TypeError(1))
    else if "getMaxSize" !in Methods(todoQueue) then Fail(TypeError(1))
    else if !IsCount(Methods(todoQueue)["getMaxSize"]) then Fail(TypeError(1))
    else Pass
  }

  /** A queue as the argument checks see it: the two readings they call. */
  function QueueView(q: Queue): (v: Value)
    reads q
  {
    Obj(map["getSize" := Num(|q.items| as real), "getMaxSize" := Num(q.maxSize as real)])
  }

  /** Every queue passes the check, with its size and capacity as readings. */
  lemma QueuePassesCheck(q: Queue)
    requires q.Valid()
    ensures CheckQueueLike(QueueView(q)) == Pass
    ensures Methods(QueueView(q))["getSize"].n == |q.items| as real
    ensures Methods(QueueView(q))["getMaxSize"].n == q.maxSize as real >= 1.0
  {
    assert (|q.items| as real).Floor == |q.items|;
    assert (q.maxSize as real).Floor == q.maxSize;
  }
}
