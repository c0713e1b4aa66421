/**
 * `GameMaster(todoQueue, workerEmitter)`: a disapproval level between 0 and
 * 100 that a periodic sample raises with the todo queue's fill ratio and
 * that every issue the worker pops lowers by the issue's complexity. Both
 * updates stop once `stop()` has been called.
 */
module GameMasters {
  import opened Values
  import opened Rounding
  import opened Issues
  import opened Queues
  import opened TodoQueues

  /** `maxDisapproval`: what one sample of a full todo queue adds. */
  const MaxSampleStep: real := 8.0

  /** The cap `Math.min(100, …)` puts on the level. */
  const Cap: real := 100.0

  /** The 2nd-argument check: a truthy object with an `on` method. */
  predicate IsEmitter(workerEmitter: Value) {
    IsObject(workerEmitter) && "on" in Methods(workerEmitter)
  }

  /** The argument check as the code writes it: the todo queue first, then
      the worker's emitter. A capacity reading of 0 is let through. */
  function CheckMonitorArgsAsWritten(todoQueue: Value, workerEmitter: Value): (r: Outcome)
    ensures r == Pass <==> CheckQueueLike(todoQueue) == Pass && IsEmitter(workerEmitter)
    ensures r == Fail(TypeError(1)) <==> CheckQueueLike(todoQueue).Fail?
    ensures r.Fail? ==> r.error in {TypeError(1), TypeError(2)}
  {
    if CheckQueueLike(todoQueue).Fail? then CheckQueueLike(todoQueue)
    else if !IsEmitter(workerEmitter) then Fail(TypeError(2))
    else Pass
  }

  /** The argument check with the capacity reading required to be positive,
      which the sample divides by. */
  function CheckMonitorArgs(todoQueue: Value, workerEmitter: Value): (r: Outcome)
    ensures r == Pass <==>
              CheckQueueLike(todoQueue) == Pass && Methods(todoQueue)["getMaxSize"].n >= 1.0
              && IsEmitter(workerEmitter)
    ensures r == Fail(TypeError(1)) <==>
              CheckQueueLike(todoQueue).Fail? || Methods(todoQueue)["getMaxSize"] == Num(0.0)
    ensures r.Fail? ==> r.error in {TypeError(1), TypeError(2)}
  {
    if CheckQueueLike(todoQueue).Fail? then CheckQueueLike(todoQueue)
    else if Methods(todoQueue)["getMaxSize"] == Num(0.0) then Fail(TypeError(1))
    else if !IsEmitter(workerEmitter) then Fail(TypeError(2))
    else Pass
  }

  /** The two checks differ only on a capacity reading of 0. */
  lemma MonitorChecksDifferOnlyAtZeroCapacity(todoQueue: Value, workerEmitter: Value)
    ensures CheckMonitorArgs(todoQueue, workerEmitter) != CheckMonitorArgsAsWritten(todoQueue, workerEmitter)
            <==> CheckQueueLike(todoQueue) == Pass && Methods(todoQueue)["getMaxSize"] == Num(0.0)
  {
  }

  /** A level the game master can hold: whole hundredths within [0, 100]. */
  predicate InRange(d: real) {
    IsCents(d) && 0.0 <= d <= Cap
  }

  /** `roundAfterPoint(8 * size / maxSize, 2)`: what one sample adds. */
  function SampleIncrement(size: nat, maxSize: int): real
    requires maxSize >= 1
  {
    Round2(MaxSampleStep * size as real / maxSize as real)
  }

  /** The increment is whole hundredths, 0 for an empty queue, at most 8
      and exactly 8 for a full one, and at least 0.4 once anything is queued
      in a queue of at most 20. */
  lemma SampleIncrementBounds(size: nat, maxSize: int)
    requires maxSize >= 1
    ensures IsCents(SampleIncrement(size, maxSize)) && 0.0 <= SampleIncrement(size, maxSize)
    ensures size == 0 ==> SampleIncrement(size, maxSize) == 0.0
    ensures size <= maxSize ==> SampleIncrement(size, maxSize) <= MaxSampleStep
    ensures size == maxSize ==> SampleIncrement(size, maxSize) == MaxSampleStep
    ensures 1 <= size && maxSize <= 20 ==> SampleIncrement(size, maxSize) >= 0.4
  {
    var m := maxSize as real;
    var ratio := MaxSampleStep * size as real / m;
    QuotientAtLeast(MaxSampleStep * size as real, m, 0.0);
    Round2IsCents(ratio);
    Round2Monotone(0.0, ratio);
    Round2OfInteger(0);
    Round2OfInteger(8);
    if size <= maxSize {
      QuotientAtMost(MaxSampleStep * size as real, m, MaxSampleStep);
      Round2Monotone(ratio, MaxSampleStep);
    }
    if size == maxSize {
      QuotientAtLeast(MaxSampleStep * size as real, m, MaxSampleStep);
      assert ratio == 8.0;
    }
    if size == 0 {
      assert ratio == 0.0;
    }
    if 1 <= size && maxSize <= 20 {
      QuotientAtLeast(MaxSampleStep * size as real, m, 0.4);
      Round2Monotone(0.4, ratio);
      CentsOf(0.4, 40);
      Round2OfCents(0.4);
    }
  }

  lemma QuotientAtLeast(a: real, m: real, lo: real)
    requires m > 0.0 && a >= lo * m
    ensures a / m >= lo
  {
    var q := a / m;
    assert q * m == a;
    assert (q - lo) * m >= 0.0;
  }

  lemma QuotientAtMost(a: real, m: real, hi: real)
    requires m > 0.0 && a <= hi * m
    ensures a / m <= hi
  {
    var q := a / m;
    assert q * m == a;
    assert (hi - q) * m >= 0.0;
  }

  /** The level after a sample of a queue holding `size` of `maxSize`. */
  function Sampled(d: real, size: nat, maxSize: int): real
    requires maxSize >= 1
  {
    Min(Cap, d + SampleIncrement(size, maxSize))
  }

  /** A sample never lowers the level below the cap, never passes the cap,
      keeps the level in range, leaves it alone for an empty queue and
      strictly raises it below the cap once anything is queued. */
  lemma SampledBounds(d: real, size: nat, maxSize: int)
    requires maxSize >= 1
    ensures Sampled(d, size, maxSize) <= Cap
    ensures Sampled(d, size, maxSize) >= Min(Cap, d)
    ensures InRange(d) ==> InRange(Sampled(d, size, maxSize))
    ensures d < Cap && 1 <= size && maxSize <= 20 ==> Sampled(d, size, maxSize) > d
    ensures size == 0 && d <= Cap ==> Sampled(d, size, maxSize) == d
  {
    SampleIncrementBounds(size, maxSize);
    if InRange(d) {
      CentsSum(d, SampleIncrement(size, maxSize));
      IntegerIsCents(100);
    }
  }

  /** The level after the worker pops an issue of complexity `c`. */
  function Relieved(d: real, c: int): real {
    Round2(Max(0.0, d - c as real))
  }

  /** Relief never goes below 0, is exact on whole hundredths, keeps the
      level in range without raising it, clears it when the complexity
      covers it and strictly lowers a positive level. */
  lemma ReliefBounds(d: real, c: int)
    ensures 0.0 <= Relieved(d, c) && IsCents(Relieved(d, c))
    ensures IsCents(d) ==> Relieved(d, c) == Max(0.0, d - c as real)
    ensures InRange(d) && c >= 0 ==> InRange(Relieved(d, c)) && Relieved(d, c) <= d
    ensures IsCents(d) && c as real >= d ==> Relieved(d, c) == 0.0
    ensures IsCents(d) && d > 0.0 && c >= 1 ==> Relieved(d, c) < d
  {
    var x := Max(0.0, d - c as real);
    Round2IsCents(x);
    Round2Monotone(0.0, x);
    Round2OfInteger(0);
    if IsCents(d) {
      IntegerIsCents(c);
      CentsSum(d, c as real);
      IntegerIsCents(0);
      Round2OfCents(x);
    }
  }

  /** A JavaScript number as far as a division by zero needs it. */
  datatype Double = Finite(x: real) | NaN | Infinity

  /** `a / b` for non-negative operands. */
  function DivideAsWritten(a: real, b: real): Double
    requires a >= 0.0 && b >= 0.0
  {
    if b != 0.0 then Finite(a / b) else if a == 0.0 then NaN else Infinity
  }

  /** `roundAfterPoint(x, 2)`, which keeps NaN and Infinity. */
  function Round2AsWritten(x: Double): Double {
    if x.Finite? then Finite(Round2(x.x)) else x
  }

  /** `disapproval += …` and then `Math.min(100, disapproval)`. */
  function AddCappedAsWritten(d: Double, inc: Double): Double {
    if d.NaN? || inc.NaN? then NaN
    else if d.Infinity? || inc.Infinity? then Finite(Cap)
    else Finite(Min(Cap, d.x + inc.x))
  }

  /** One sample as the code computes it, on every reading the argument
      check accepts. */
  function SampleAsWritten(d: Double, size: nat, maxSize: nat): Double {
    AddCappedAsWritten(d, Round2AsWritten(DivideAsWritten(MaxSampleStep * size as real, maxSize as real)))
  }

  /** `Math.max(0, disapproval - complexity)`, then rounded. */
  function RelievedAsWritten(d: Double, c: int): Double {
    if d.Finite? then Finite(Round2(Max(0.0, d.x - c as real))) else d
  }

  /** On a positive capacity the computation is the one of `Sampled`. */
  lemma SampleAsWrittenAgrees(d: real, size: nat, maxSize: nat)
    requires maxSize >= 1
    ensures SampleAsWritten(Finite(d), size, maxSize) == Finite(Sampled(d, size, maxSize))
  {
  }

  /** A stand-in queue reading 0 of capacity 0 passes the check as written,
      and the first sample then turns the level into NaN, which no later
      sample or pop ever leaves. The corrected check refuses it. */
  lemma ZeroCapacityPoisonsLevel(size: nat, maxSize: nat, c: int)
    ensures CheckMonitorArgsAsWritten(Obj(map["getSize" := Num(0.0), "getMaxSize" := Num(0.0)]),
                                      Obj(map["on" := Func])) == Pass
    ensures SampleAsWritten(Finite(0.0), 0, 0) == NaN
    ensures SampleAsWritten(NaN, size, maxSize) == NaN && RelievedAsWritten(NaN, c) == NaN
    ensures CheckMonitorArgs(Obj(map["getSize" := Num(0.0), "getMaxSize" := Num(0.0)]),
                             Obj(map["on" := Func])) == Fail(TypeError(1))
  {
    var q := Obj(map["getSize" := Num(0.0), "getMaxSize" := Num(0.0)]);
    assert Methods(q)["getSize"] == Num(0.0) && Methods(q)["getMaxSize"] == Num(0.0);
    assert (0.0).Floor == 0;
  }

  class GameMaster {
    /** The todo queue whose fill ratio each sample reads. */
    const todoQueue: Queue
    var disapproval: real
    var isGameFinished: bool
    /** The `disapproval/update` events emitted so far, each carrying the
        new level. */
    var updates: seq<real>

    ghost predicate Valid()
      reads this, todoQueue
    {
      todoQueue.Valid() && InRange(disapproval)
    }

    constructor (todoQueue: Queue)
      requires todoQueue.Valid()
      ensures Valid()
      ensures this.todoQueue == todoQueue
      ensures disapproval == 0.0 && !isGameFinished && updates == []
    {
      this.todoQueue := todoQueue;
      disapproval := 0.0;
      isGameFinished := false;
      updates := [];
      IntegerIsCents(0);
    }

    /** `updateDisapproval`: unless stopped, raise the level by the sample
        increment, capped at 100, and emit the new level. */
    method Sample()
      requires Valid()
      modifies this
      ensures Valid()
      ensures old(isGameFinished) ==> unchanged(this)
      ensures !old(isGameFinished) ==>
                && disapproval == Sampled(old(disapproval), todoQueue.Size(), todoQueue.maxSize)
                && updates == old(updates) + [disapproval]
                && isGameFinished == old(isGameFinished)
    {
      if isGameFinished {
        return;
      }
      SampledBounds(disapproval, todoQueue.Size(), todoQueue.maxSize);
      disapproval := Min(Cap, disapproval + SampleIncrement(todoQueue.Size(), todoQueue.maxSize));
      updates := updates + [disapproval];
    }

    /** `reduceDisapproval`, the listener on the worker's `issue/pop`:
        unless stopped, lower the level by the popped issue's complexity,
        never below 0. No event is emitted. */
    method OnIssuePop(issue: Issue)
      requires Valid() && issue.Valid()
      modifies this
      ensures Valid()
      ensures old(isGameFinished) ==> unchanged(this)
      ensures !old(isGameFinished) ==>
                && disapproval == Relieved(old(disapproval), issue.complexity)
                && updates == old(updates) && isGameFinished == old(isGameFinished)
    {
      if isGameFinished {
        return;
      }
      ReliefBounds(disapproval, issue.complexity);
      disapproval := Round2(Max(0.0, disapproval - issue.complexity as real));
    }

    /** `stop`: both updates become no-ops; stopping again changes nothing. */
    method Stop()
      modifies this
      ensures isGameFinished
      ensures disapproval == old(disapproval) && updates == old(updates)
    {
      isGameFinished := true;
    }
  }

  /** The `GameMaster` factory over a queue of this model: the arguments are
      checked, and the first sample runs before it returns. A queue always
      passes the queue check with a capacity of at least 1, so the corrected
      check and the code's check decide alike and only the emitter can be
      refused. */
  method NewGameMaster(todoQueue: Queue, workerEmitter: Value) returns (r: Result<GameMaster>)
    requires todoQueue.Valid()
    ensures r.Failure? <==> CheckMonitorArgs(QueueView(todoQueue), workerEmitter).Fail?
    ensures CheckMonitorArgs(QueueView(todoQueue), workerEmitter)
            == CheckMonitorArgsAsWritten(QueueView(todoQueue), workerEmitter)
    ensures r.Failure? ==> r.error == TypeError(2) && !IsEmitter(workerEmitter)
    ensures r.Success? ==>
              && fresh(r.value) && r.value.Valid() && r.value.todoQueue == todoQueue
              && !r.value.isGameFinished
              && r.value.disapproval == SampleIncrement(todoQueue.Size(), todoQueue.maxSize)
              && r.value.updates == [r.value.disapproval]
  {
    QueuePassesCheck(todoQueue);
    var check := CheckMonitorArgs(QueueView(todoQueue), workerEmitter);
    if check.Fail? {
      return Failure(check.error);
    }
    var gm := new GameMaster(todoQueue);
    SampleIncrementBounds(todoQueue.Size(), todoQueue.maxSize);
    gm.Sample();
    assert gm.disapproval == Min(Cap, 0.0 + SampleIncrement(todoQueue.Size(), todoQueue.maxSize));
    r := Success(gm);
  }
}
