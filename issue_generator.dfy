/**
 * `IssueGenerator(todoQueue, projectNames, issueGeneratonRate)`: a cycle
 * that, unless stopped, tops the todo queue up with one random `todo` issue
 * when there is room, swallows any error that creating or pushing it
 * raises, and schedules the next cycle after a period that makes
 * `maxSize * rate` attempts a second. The random draws are parameters.
 */
module IssueGenerators {
  import opened Values
  import opened Issues
  import opened Queues
  import opened TodoQueues

  /** An element of `projectNames` the check accepts: a non-empty string. */
  predicate IsName(v: Value) {
    v.Str? && |v.s| > 0
  }

  /** The 2nd argument the check accepts: a non-empty array of names. */
  predicate IsNameList(projectNames: Value) {
    && projectNames.Arr?
    && |projectNames.elems| >= 1
    && forall i :: 0 <= i < |projectNames.elems| ==> IsName(projectNames.elems[i])
  }

  /** The argument checks in the order the code makes them; each failure
      names the argument it rejects. */
  function CheckGeneratorArgs(todoQueue: Value, projectNames: Value, rate: Value): (r: Outcome)
    ensures r == Fail(TypeError(1)) <==> CheckQueueLike(todoQueue).Fail?
    ensures r == Fail(TypeError(2)) <==> CheckQueueLike(todoQueue) == Pass && !IsNameList(projectNames)
    ensures r.Fail? ==> r.error in {TypeError(1), TypeError(2), TypeError(3)}
  {
    if CheckQueueLike(todoQueue).Fail? then CheckQueueLike(todoQueue)
    else if !projectNames.Arr? then Fail(TypeError(2))
    else if |projectNames.elems| == 0 then Fail(TypeError(2))
    else if exists i :: 0 <= i < |projectNames.elems| && !IsName(projectNames.elems[i]) then Fail(TypeError(2))
    else if !IsFloat(rate) || rate.n <= 0.0 || rate.n >= 1.0 then Fail(TypeError(3))
    else Pass
  }

  /** The rate check `isFloat(r) && 0 < r < 1` accepts exactly the numbers
      strictly between 0 and 1: the `isFloat` part refuses nothing more. */
  lemma GeneratorArgsAccepted(todoQueue: Value, projectNames: Value, rate: Value)
    ensures CheckGeneratorArgs(todoQueue, projectNames, rate) == Pass <==>
              CheckQueueLike(todoQueue) == Pass && IsNameList(projectNames)
              && rate.Num? && 0.0 < rate.n < 1.0
  {
    if rate.Num? && 0.0 < rate.n < 1.0 {
      OpenUnitIntervalIsFloat(rate);
    }
  }

  /** `1000 / (todoQueue.getMaxSize() * issueGeneratonRate)`: the period, in
      milliseconds, until the next cycle. */
  function Timeout(maxSize: int, rate: real): real
    requires maxSize >= 1 && 0.0 < rate < 1.0
  {
    1000.0 / (maxSize as real * rate)
  }

  /** The period makes `maxSize * rate` cycles a second, so it is longer than
      a second divided by the capacity, and a higher rate shortens it. */
  lemma TimeoutMeaning(maxSize: int, rate: real, faster: real)
    requires maxSize >= 1 && 0.0 < rate < faster < 1.0
    ensures Timeout(maxSize, rate) > 0.0
    ensures 1000.0 / Timeout(maxSize, rate) == maxSize as real * rate
    ensures Timeout(maxSize, rate) > 1000.0 / maxSize as real
    ensures Timeout(maxSize, faster) < Timeout(maxSize, rate)
  {
    var m := maxSize as real;
    assert m * rate < m * faster;
    assert m * rate < m;
    PeriodShrinks(m * rate, m * faster);
    PeriodShrinks(m * rate, m);
  }

  lemma PeriodShrinks(a: real, b: real)
    requires 0.0 < a < b
    ensures 1000.0 / b < 1000.0 / a
  {
    var x, y := 1000.0 / b, 1000.0 / a;
    assert x * b == 1000.0 && y * a == 1000.0 && y > 0.0;
    assert y * a < y * b;
    assert (y - x) * b > 0.0;
  }

  /** `projectNames[getRandomNumber(0, length - 1)]`: the drawn element, or
      `undefined` for an index outside the array. */
  function Drawn(names: seq<string>, pick: int): Value {
    if 0 <= pick < |names| then Str(names[pick]) else Undefined
  }

  /** Draws within the ranges the code asks for always make a valid issue;
      any draw outside them makes the factory throw, which the cycle
      swallows. */
  lemma DrawsAccepted(names: seq<string>, pick: int, priority: int, complexity: int)
    requires forall i :: 0 <= i < |names| ==> |names[i]| > 0
    ensures CheckIssueArgs(Drawn(names, pick), Num(priority as real), Num(complexity as real)) == Pass
            <==> 0 <= pick < |names| && 1 <= priority <= 3 && 1 <= complexity <= 10
  {
    assert (priority as real).Floor == priority;
    assert (complexity as real).Floor == complexity;
    if 0 <= pick < |names| {
      assert |names[pick]| > 0;
    }
  }

  /** What one cycle does to the queue `q` and the id counter `ids`, from
      the queue's entries, keys, events, pending pops and the counter's next
      id before it: nothing when the queue is full or the draws are refused;
      otherwise the counter advances and, when the queue takes `todo`
      issues, the new issue is stored under its id and its push event
      recorded, while any other queue refuses it and keeps its contents. */
  ghost predicate OneCycle(q: Queue, ids: IdCounter, items0: map<int, Issue>, keys0: seq<int>,
                           events0: seq<Event>, pend0: seq<Issue>, count0: nat,
                           name: Value, priority: int, complexity: int)
    reads q, ids, q.items.Values
  {
    && q.pendingPops == pend0
    && (|items0| >= q.maxSize || CheckIssueArgs(name, Num(priority as real), Num(complexity as real)).Fail? ==>
          q.items == items0 && q.keys == keys0 && q.events == events0 && ids.count == count0)
    && (|items0| < q.maxSize && CheckIssueArgs(name, Num(priority as real), Num(complexity as real)) == Pass ==>
          && ids.count == count0 + 1
          && (q.gate == AllowedStatuses[0] ==>
                && count0 in q.items
                && q.items == items0[count0 := q.items[count0]]
                && q.keys == (if count0 in items0 then keys0 else keys0 + [count0])
                && q.items[count0].Snapshot() == Snap(count0, name.s, priority, complexity, AllowedStatuses[0], 0.0)
                && q.events == events0 + [IssuePush(q.items[count0].Snapshot())])
          && (q.gate != AllowedStatuses[0] ==>
                q.items == items0 && q.keys == keys0 && q.events == events0))
  }

  /** When the next cycle runs: never again, or after `timeout` ms. */
  datatype Cycle = Idle | Again(timeout: real)

  class IssueGenerator {
    const todoQueue: Queue
    const projectNames: seq<string>
    const rate: real
    /** The counter the `Issue` factory takes its ids from. */
    const issueIds: IdCounter
    var isGameFinished: bool

    ghost predicate Valid()
      reads todoQueue
    {
      && todoQueue.Valid()
      && |projectNames| >= 1
      && (forall i :: 0 <= i < |projectNames| ==> |projectNames[i]| > 0)
      && 0.0 < rate < 1.0
    }

    constructor (todoQueue: Queue, projectNames: seq<string>, rate: real, issueIds: IdCounter)
      ensures this.todoQueue == todoQueue && this.projectNames == projectNames
      ensures this.rate == rate && this.issueIds == issueIds
      ensures !isGameFinished
    {
      this.todoQueue := todoQueue;
      this.projectNames := projectNames;
      this.rate := rate;
      this.issueIds := issueIds;
      isGameFinished := false;
    }

    /** `pushNewIssue`, one cycle, with `pick`, `priority` and `complexity`
        the three random draws. */
    method PushNewIssue(pick: int, priority: int, complexity: int) returns (next: Cycle)
      requires Valid()
      modifies todoQueue, issueIds
      ensures Valid()
      ensures isGameFinished ==> next == Idle && unchanged(todoQueue, issueIds)
      ensures !isGameFinished ==>
                && next == Again(Timeout(todoQueue.maxSize, rate))
                && OneCycle(todoQueue, issueIds, old(todoQueue.items), old(todoQueue.keys),
                            old(todoQueue.events), old(todoQueue.pendingPops), old(issueIds.count),
                            Drawn(projectNames, pick), priority, complexity)
      ensures |todoQueue.items| <= old(|todoQueue.items|) + 1
    {
      if isGameFinished {
        return Idle;
      }
      var timeout := Timeout(todoQueue.maxSize, rate);
      if todoQueue.Size() >= todoQueue.maxSize {
        return Again(timeout);
      }
      var made := NewIssue(issueIds, Drawn(projectNames, pick), Num(priority as real), Num(complexity as real));
      if made.Success? {
        var pushed := todoQueue.Push(made.value);
      }
      next := Again(timeout);
    }

    /** `stop`: every later cycle does nothing. */
    method Stop()
      modifies this
      ensures isGameFinished
    {
      isGameFinished := true;
    }
  }

  /** The `IssueGenerator` factory over a queue of this model: the arguments
      are checked, and the first cycle runs, with the draws given, before it
      returns. A queue always passes the 1st-argument check. */
  method NewIssueGenerator(todoQueue: Queue, projectNames: Value, rate: Value, issueIds: IdCounter,
                           pick: int, priority: int, complexity: int)
    returns (r: Result<IssueGenerator>, next: Cycle)
    requires todoQueue.Valid()
    modifies todoQueue, issueIds
    ensures r.Failure? <==> CheckGeneratorArgs(old(QueueView(todoQueue)), projectNames, rate).Fail?
    ensures r.Failure? ==>
              && r.error == CheckGeneratorArgs(old(QueueView(todoQueue)), projectNames, rate).error
              && r.error in {TypeError(2), TypeError(3)}
              && next == Idle && unchanged(todoQueue, issueIds)
    ensures r.Success? ==>
              && fresh(r.value) && r.value.Valid() && !r.value.isGameFinished
              && r.value.todoQueue == todoQueue && r.value.issueIds == issueIds
              && r.value.rate == rate.n
              && IsNameList(projectNames) && r.value.projectNames == NamesOf(projectNames.elems)
              && next == Again(Timeout(todoQueue.maxSize, rate.n))
              && OneCycle(todoQueue, issueIds, old(todoQueue.items), old(todoQueue.keys),
                          old(todoQueue.events), old(todoQueue.pendingPops), old(issueIds.count),
                          Drawn(r.value.projectNames, pick), priority, complexity)
  {
    QueuePassesCheck(todoQueue);
    GeneratorArgsAccepted(QueueView(todoQueue), projectNames, rate);
    var check := CheckGeneratorArgs(QueueView(todoQueue), projectNames, rate);
    if check.Fail? {
      return Failure(check.error), Idle;
    }
    var names := NamesOf(projectNames.elems);
    var g := new IssueGenerator(todoQueue, names, rate.n, issueIds);
    next := g.PushNewIssue(pick, priority, complexity);
    r := Success(g);
  }

  /** The strings of an array of names, in order. */
  function NamesOf(elems: seq<Value>): (names: seq<string>)
    requires forall i :: 0 <= i < |elems| ==> IsName(elems[i])
    ensures |names| == |elems|
    ensures forall i :: 0 <= i < |elems| ==> Str(names[i]) == elems[i] && |names[i]| > 0
  {
    seq(|elems|, i requires 0 <= i < |elems| && IsName(elems[i]) => elems[i].s)
  }
}
