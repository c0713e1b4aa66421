/**
 * The worker: a dev queue of its own and a loop of work terms. Each term
 * walks the queued issues in work order, spending the term's points on
 * them, completing (popping and setting `done`) those the points cover and
 * advancing the first one they do not.
 */
module Workers {
  import opened Values
  import opened Rounding
  import opened Issues
  import opened Queues
  import opened DevQueues
  import opened WorkOrders
  import opened WorkTerms

  /** The argument checks of the `Worker` factory, in order. */
  function CheckWorkerArgs(maxActiveIssues: Value, workPoints: Value): (r: Outcome)
    ensures r == Pass <==> IsInteger(maxActiveIssues) && maxActiveIssues.n >= 1.0
                           && workPoints.Num? && workPoints.n > 0.0
    ensures r == Fail(TypeError(1)) <==> !(IsInteger(maxActiveIssues) && maxActiveIssues.n >= 1.0)
    ensures r.Fail? ==> r.error in {TypeError(1), TypeError(2)}
  {
    if !IsInteger(maxActiveIssues) || maxActiveIssues.n < 1.0 then Fail(TypeError(1))
    else if !workPoints.Num? || workPoints.n <= 0.0 then Fail(TypeError(2))
    else Pass
  }

  /** The term's work points for the queued issues `s`. */
  function BudgetOf(s: seq<Snap>, workPoints: real, maxActiveIssues: int): real
    requires maxActiveIssues >= 1
  {
    TermBudget(workPoints, |s|, |FirstSeen(s)|, maxActiveIssues)
  }

  /** The term a worker runs on the queued issues `s`. */
  function TermOn(s: seq<Snap>, workPoints: real, maxActiveIssues: int): (t: Term)
    requires workPoints > 0.0 && 1 <= |s| <= maxActiveIssues
    ensures |t.after| == |s| == |WorkOrder(s)|
    ensures 0.0 <= t.budget <= BudgetOf(s, workPoints, maxActiveIssues)
  {
    TermBudgetBounds(workPoints, |s|, |FirstSeen(s)|, maxActiveIssues);
    WorkOrderIsPermutation(s);
    assert |WorkOrder(s)| == |multiset(WorkOrder(s))|;
    Walk(WorkOrder(s), BudgetOf(s, workPoints, maxActiveIssues), |WorkOrder(s)|)
  }

  /** Within its queue's capacity a term's budget lies in
      `[0.1 * workPoints, workPoints]` and the stress it reports in `[0, 90]`. */
  lemma TermBounds(s: seq<Snap>, workPoints: real, maxActiveIssues: int)
    requires workPoints > 0.0 && 1 <= |s| <= maxActiveIssues
    ensures 0.1 * workPoints <= BudgetOf(s, workPoints, maxActiveIssues) <= workPoints
    ensures 0.0 <= Stress(BudgetOf(s, workPoints, maxActiveIssues), workPoints) <= 90.0
    ensures |s| == 1 ==> Stress(BudgetOf(s, workPoints, maxActiveIssues), workPoints) == 0.0
  {
    TermBudgetBounds(workPoints, |s|, |FirstSeen(s)|, maxActiveIssues);
    StressBounds(workPoints, |s|, |FirstSeen(s)|, maxActiveIssues);
  }

  function IdSet(ids: seq<int>): set<int> {
    set x | x in ids
  }

  /** The stored issues under `ids`, in order. */
  function Lookup(m: map<int, Issue>, ids: seq<int>): (r: seq<Issue>)
    requires forall i :: 0 <= i < |ids| ==> ids[i] in m
    ensures |r| == |ids|
    ensures forall i :: 0 <= i < |ids| ==> r[i] == m[ids[i]]
  {
    if ids == [] then [] else Lookup(m, ids[..|ids| - 1]) + [m[ids[|ids| - 1]]]
  }

  function IssuesFor(m: map<int, Issue>, order: seq<Snap>): (r: seq<Issue>)
    requires forall k :: 0 <= k < |order| ==> order[k].id in m
    ensures |r| == |order|
    ensures forall k :: 0 <= k < |order| ==> r[k] == m[order[k].id]
  {
    if order == [] then [] else IssuesFor(m, order[..|order| - 1]) + [m[order[|order| - 1].id]]
  }

  lemma IdSetAppend(p: seq<int>, q: seq<int>)
    ensures IdSet(p + q) == IdSet(p) + IdSet(q)
  {
  }

  lemma MapMinusUnion(m: map<int, Issue>, a: set<int>, b: set<int>)
    ensures m - (a + b) == (m - a) - b
  {
  }

  /** The bookkeeping a walk `t` leaves on a queue that held `items0`,
      `keys0`, `pend0` and `events0` before it: the issues it popped are gone
      from the map and from the key list and wait, in order, for their pop
      events, and its work events follow the earlier events. */
  ghost predicate Ran(t: Term, items0: map<int, Issue>, keys0: seq<int>, pend0: seq<Issue>, events0: seq<Event>,
                      items: map<int, Issue>, keys: seq<int>, pend: seq<Issue>, events: seq<Event>)
  {
    && (forall j :: 0 <= j < |t.popped| ==> t.popped[j] in items0)
    && items == items0 - IdSet(t.popped)
    && keys == Without(keys0, IdSet(t.popped))
    && pend == pend0 + Lookup(items0, t.popped)
    && events == events0 + t.work
  }

  /** A walk that has done nothing has left the queue as it was. */
  lemma RanNothing(b: real, items0: map<int, Issue>, keys0: seq<int>, pend0: seq<Issue>, events0: seq<Event>)
    ensures Ran(Term(b, [], [], []), items0, keys0, pend0, events0, items0, keys0, pend0, events0)
  {
    WithoutNone(keys0);
    assert IdSet([]) == {};
    assert items0 - {} == items0;
  }

  /** The popped ids after one more step, popping `id` when `completed`. */
  function Popped(popped: seq<int>, id: int, completed: bool): seq<int> {
    popped + (if completed then [id] else [])
  }

  lemma ItemsAdvance(items0: map<int, Issue>, popped: seq<int>, id: int, completed: bool,
                     m1: map<int, Issue>, m2: map<int, Issue>)
    requires m1 == items0 - IdSet(popped)
    requires completed ==> m2 == m1 - {id}
    requires !completed ==> m2 == m1
    ensures m2 == items0 - IdSet(Popped(popped, id, completed))
  {
    var d := if completed then [id] else [];
    assert IdSet(d) == (if completed then {id} else {});
    IdSetAppend(popped, d);
    MapMinusUnion(items0, IdSet(popped), IdSet(d));
  }

  lemma KeysAdvance(keys0: seq<int>, popped: seq<int>, id: int, completed: bool, k1: seq<int>, k2: seq<int>)
    requires k1 == Without(keys0, IdSet(popped))
    requires completed ==> k2 == Without(k1, {id})
    requires !completed ==> k2 == k1
    ensures k2 == Without(keys0, IdSet(Popped(popped, id, completed)))
  {
    var d := if completed then [id] else [];
    assert IdSet(d) == (if completed then {id} else {});
    IdSetAppend(popped, d);
    if !completed { WithoutNone(k1); }
    WithoutWithout(keys0, IdSet(popped), IdSet(d));
  }

  lemma PopsAdvance(items0: map<int, Issue>, pend0: seq<Issue>, popped: seq<int>, id: int, completed: bool,
                    q1: seq<Issue>, q2: seq<Issue>)
    requires forall j :: 0 <= j < |popped| ==> popped[j] in items0
    requires id in items0
    requires q1 == pend0 + Lookup(items0, popped)
    requires completed ==> q2 == q1 + [items0[id]]
    requires !completed ==> q2 == q1
    ensures forall j :: 0 <= j < |Popped(popped, id, completed)| ==> Popped(popped, id, completed)[j] in items0
    ensures q2 == pend0 + Lookup(items0, Popped(popped, id, completed))
  {
    if completed {
      var p := popped + [id];
      assert p[..|p| - 1] == popped;
      assert forall j :: 0 <= j < |p| ==> p[j] in items0 by {
        forall j | 0 <= j < |p| ensures p[j] in items0 {
          if j < |popped| { assert p[j] == popped[j]; }
        }
      }
      var l := Lookup(items0, popped);
      assert Lookup(items0, p) == l + [items0[id]];
      assert (pend0 + l) + [items0[id]] == pend0 + (l + [items0[id]]);
    }
  }

  /** One more issue's step, popping it when `completed`, extends what the
      walk has left on the queue so far. */
  lemma RanOneMore(t: Term, t': Term, id: int, completed: bool, x: seq<Event>,
                   items0: map<int, Issue>, keys0: seq<int>, pend0: seq<Issue>, events0: seq<Event>,
                   m1: map<int, Issue>, k1: seq<int>, q1: seq<Issue>, e1: seq<Event>,
                   m2: map<int, Issue>, k2: seq<int>, q2: seq<Issue>, e2: seq<Event>)
    requires Ran(t, items0, keys0, pend0, events0, m1, k1, q1, e1)
    requires id in items0
    requires t'.popped == Popped(t.popped, id, completed) && t'.work == t.work + x
    requires e2 == e1 + x
    requires completed ==> m2 == m1 - {id} && k2 == Without(k1, {id}) && q2 == q1 + [items0[id]]
    requires !completed ==> m2 == m1 && k2 == k1 && q2 == q1
    ensures Ran(t', items0, keys0, pend0, events0, m2, k2, q2, e2)
  {
    ItemsAdvance(items0, t.popped, id, completed, m1, m2);
    KeysAdvance(keys0, t.popped, id, completed, k1, k2);
    PopsAdvance(items0, pend0, t.popped, id, completed, q1, q2);
    assert (events0 + t.work) + x == events0 + (t.work + x);
  }

  /** Issues with distinct ids are distinct objects. */
  lemma OthersApart(refs: seq<Issue>, order: seq<Snap>, i: int)
    requires 0 <= i < |order| == |refs| && DistinctIds(order)
    requires forall k :: 0 <= k < |order| ==> refs[k].id == order[k].id
    ensures forall k :: 0 <= k < |order| && k != i ==> refs[k] != refs[i]
  {
    forall k | 0 <= k < |order| && k != i
      ensures refs[k] != refs[i]
    {
      if k < i { assert order[k].id != order[i].id; } else { assert order[i].id != order[k].id; }
    }
  }

  /** The issues after `i` are still ahead of the walk once the issue at `i`
      has taken its step. */
  lemma StillAhead(order: seq<Snap>, popped: seq<int>, i: int, completed: bool)
    requires 0 <= i < |order| && DistinctIds(order)
    requires forall k :: i <= k < |order| ==> order[k].id !in IdSet(popped)
    ensures forall k :: i + 1 <= k < |order| ==> order[k].id !in IdSet(Popped(popped, order[i].id, completed))
  {
    forall k | i + 1 <= k < |order|
      ensures order[k].id !in IdSet(Popped(popped, order[i].id, completed))
    {
      assert order[i].id != order[k].id;
      IdSetAppend(popped, if completed then [order[i].id] else []);
    }
  }

  /** How the issues `refs` look now, in order. */
  ghost function Looks(refs: seq<Issue>): (r: seq<Snap>)
    reads set k | 0 <= k < |refs| :: refs[k]
    ensures |r| == |refs|
    ensures forall k :: 0 <= k < |refs| ==> r[k] == refs[k].Snapshot()
  {
    if refs == [] then [] else Looks(refs[..|refs| - 1]) + [refs[|refs| - 1].Snapshot()]
  }

  /** Replacing the first of the issues still ahead by its settled copy
      moves it behind. */
  lemma SettleNext(after: seq<Snap>, order: seq<Snap>, i: int, x: Snap)
    requires |after| == i < |order|
    ensures (after + order[i..])[i := x] == (after + [x]) + order[i + 1..]
  {
  }

  /** Each issue of `order`, looked up by id in `items0`, now looks as
      `after` says. */
  ghost predicate Settles(items0: map<int, Issue>, order: seq<Snap>, after: seq<Snap>)
    reads items0.Values
  {
    && |after| == |order|
    && forall k :: 0 <= k < |order| ==> order[k].id in items0 && items0[order[k].id].Snapshot() == after[k]
  }

  lemma SnapsFollow(refs: seq<Issue>, m: map<int, Issue>, order: seq<Snap>, after: seq<Snap>)
    requires |refs| == |order|
    requires forall k :: 0 <= k < |order| ==> order[k].id in m && m[order[k].id] == refs[k]
    requires Looks(refs) == after + order[|order|..]
    ensures Settles(m, order, after)
  {
    assert after + order[|order|..] == after;
  }

  /** The work order of a coherent queue's issues names each stored issue
      once, and each entry is a copy of the issue stored under its id. */
  lemma OrderOfQueue(items: map<int, Issue>, keys: seq<int>, snaps: seq<Snap>)
    requires Coherent(items, keys)
    requires |snaps| == |keys|
    requires forall i :: 0 <= i < |keys| ==> snaps[i] == items[keys[i]].Snapshot()
    ensures DistinctIds(WorkOrder(snaps))
    ensures forall k :: 0 <= k < |WorkOrder(snaps)| ==>
              WorkOrder(snaps)[k].id in items && items[WorkOrder(snaps)[k].id].Snapshot() == WorkOrder(snaps)[k]
  {
    var order := WorkOrder(snaps);
    assert forall i :: 0 <= i < |snaps| ==> snaps[i].id == keys[i];
    WorkOrderIsPermutation(snaps);
    PermutationKeepsDistinctIds(order, snaps);
    forall k | 0 <= k < |order|
      ensures order[k].id in items && items[order[k].id].Snapshot() == order[k]
    {
      assert order[k] in multiset(snaps);
      var p :| 0 <= p < |snaps| && snaps[p] == order[k];
    }
  }

  /** What a call of `work` leaves scheduled: nothing (the game is over), a
      term once an issue is pushed into the queue, or the next term after the
      term's pause. */
  datatype Schedule = Halted | AwaitingPush | TermDue

  class Worker {
    const id: int
    const maxActiveIssues: int
    const workPoints: real
    /** The worker's dev queue; its emitter is the worker's emitter. */
    const queue: Queue
    var isGameFinished: bool
    /** How many one-time `issue/push` listeners `work` has left on the
        queue's emitter; each schedules a term when the next push fires. */
    var pushWaiters: nat

    ghost predicate Valid()
      reads queue
    {
      && queue.Valid()
      && queue.gate == "dev"
      && queue.maxSize == maxActiveIssues
      && queue.CanEmit()
      && workPoints > 0.0
    }

    constructor (id: int, maxActiveIssues: int, workPoints: real, queue: Queue)
      requires queue.Valid() && queue.gate == "dev" && queue.maxSize == maxActiveIssues
      requires queue.CanEmit() && workPoints > 0.0
      ensures Valid()
      ensures this.id == id && this.maxActiveIssues == maxActiveIssues
      ensures this.workPoints == workPoints && this.queue == queue
      ensures !isGameFinished && pushWaiters == 0
    {
      this.id := id;
      this.maxActiveIssues := maxActiveIssues;
      this.workPoints := workPoints;
      this.queue := queue;
      isGameFinished := false;
      pushWaiters := 0;
    }

    /** One step of the walk on `issue`, which is stored in the queue: the
        issue, the queue and the points left change as `Step` says. */
    method WorkOn(issue: Issue, ghost s: Snap, budget: real) returns (left: real)
      requires Valid() && budget >= 0.0 && issue.Snapshot() == s
      requires issue.id in queue.items && queue.items[issue.id] == issue
      modifies queue, issue
      ensures Valid()
      ensures left == Step(s, budget).budget
      ensures issue.Snapshot() == Settled(Step(s, budget))
      ensures queue.events == old(queue.events) + (if Step(s, budget).worked then [IssueWork(Step(s, budget).issue)] else [])
      ensures Step(s, budget).completed ==>
                && queue.items == old(queue.items) - {issue.id}
                && queue.keys == Without(old(queue.keys), {issue.id})
                && queue.pendingPops == old(queue.pendingPops) + [issue]
      ensures !Step(s, budget).completed ==>
                && queue.items == old(queue.items) && queue.keys == old(queue.keys)
                && queue.pendingPops == old(queue.pendingPops)
    {
      if budget == 0.0 {
        return 0.0;
      }
      var needed := Needed(issue.Snapshot());
      ghost var r := Step(s, budget);
      Round2Monotone(0.0, Max(0.0, issue.complexity as real - issue.spentWork));
      Round2OfInteger(0);
      if needed > budget {
        assert r == StepResult(s.(spentWork := Round2(s.spentWork + budget)), 0.0, true, false);
        var spent := issue.SpentAdditionalWork(Num(budget));
        assert issue.Snapshot() == Settled(r);
        queue.Emit(IssueWork(issue.Snapshot()));
        return 0.0;
      }
      if needed > 0.0 {
        assert r == StepResult(s.(spentWork := Round2(s.spentWork + needed)), Round2(Max(0.0, budget - needed)), true, true);
        var spent := issue.SpentAdditionalWork(Num(needed));
        left := Round2(Max(0.0, budget - needed));
      } else {
        assert r == StepResult(s, budget, true, true);
        left := budget;
      }
      assert issue.Snapshot() == r.issue;
      queue.Emit(IssueWork(issue.Snapshot()));
      var done := queue.PopById(issue.id);
      var marked := done.value.SetStatus(Str(AllowedStatuses[2]));
    }

    /** The order the next term walks the queued issues in. */
    ghost function NextOrder(): seq<Snap>
      reads queue, queue.items.Values
      requires Valid()
    {
      WorkOrder(queue.Snapshots())
    }

    /** The term `work` runs on the queue as it stands. */
    ghost function NextTerm(): Term
      reads queue, queue.items.Values
      requires Valid() && |queue.items| > 0
    {
      TermOn(queue.Snapshots(), workPoints, maxActiveIssues)
    }

    /** The stress the next term reports. */
    ghost function NextStress(): real
      reads queue, queue.items.Values
      requires Valid() && |queue.items| > 0
    {
      Stress(BudgetOf(queue.Snapshots(), workPoints, maxActiveIssues), workPoints)
    }

    /** `work`: nothing once the game is finished; with an empty queue, wait
        for the next push; otherwise run one term on the queued issues and
        schedule the next. */
    method Work() returns (next: Schedule)
      requires Valid()
      modifies this, queue, queue.items.Values
      ensures Valid()
      ensures isGameFinished == old(isGameFinished)
      ensures old(isGameFinished) ==> next == Halted && unchanged(this, queue) && unchanged(queue.items.Values)
      ensures !old(isGameFinished) && old(|queue.items|) == 0 ==>
                next == AwaitingPush && pushWaiters == old(pushWaiters) + 1 && unchanged(queue)
      ensures !old(isGameFinished) && old(|queue.items|) > 0 ==>
                && next == TermDue && pushWaiters == old(pushWaiters)
                && Ran(old(NextTerm()), old(queue.items), old(queue.keys), old(queue.pendingPops),
                       old(queue.events) + [WorkerStress(old(NextStress()))],
                       queue.items, queue.keys, queue.pendingPops, queue.events)
                && Settles(old(queue.items), old(NextOrder()), old(NextTerm()).after)
    {
      if isGameFinished {
        return Halted;
      }
      if |queue.items| == 0 {
        pushWaiters := pushWaiters + 1;
        return AwaitingPush;
      }
      RunTerm();
      next := TermDue;
    }

    /** One term on a non-empty queue: the stress is reported, the issues are
        walked in work order, and the next term is scheduled. */
    method RunTerm()
      requires Valid() && |queue.items| > 0
      modifies queue, queue.items.Values
      ensures Valid()
      ensures Ran(old(NextTerm()), old(queue.items), old(queue.keys), old(queue.pendingPops),
                  old(queue.events) + [WorkerStress(old(NextStress()))],
                  queue.items, queue.keys, queue.pendingPops, queue.events)
      ensures Settles(old(queue.items), old(NextOrder()), old(NextTerm()).after)
    {
      ghost var t, o, st := NextTerm(), NextOrder(), NextStress();
      ghost var items0, keys0, pend0, events0 := queue.items, queue.keys, queue.pendingPops, queue.events;
      var issues := queue.Snapshots();
      var budget := BudgetOf(issues, workPoints, maxActiveIssues);
      TermBounds(issues, workPoints, maxActiveIssues);
      queue.Emit(WorkerStress(Stress(budget, workPoints)));
      assert SnapsOf(queue.items, queue.keys) == issues;
      var order, refs := Plan(issues);
      assert t == Walk(order, budget, |order|);
      assert queue.events == events0 + [WorkerStress(st)];
      var left := Allocate(refs, order, budget);
      assert Ran(t, items0, keys0, pend0, events0 + [WorkerStress(st)],
                 queue.items, queue.keys, queue.pendingPops, queue.events);
      assert Settles(items0, o, t.after);
    }

    /** The queued issues, their work order and the queued objects in that
        order. */
    method Plan(issues: seq<Snap>) returns (order: seq<Snap>, refs: seq<Issue>)
      requires Valid() && issues == queue.Snapshots()
      ensures order == WorkOrder(issues)
      ensures |refs| == |order| == |issues|
      ensures DistinctIds(order)
      ensures forall k :: 0 <= k < |order| ==> refs[k].id == order[k].id
      ensures forall k :: 0 <= k < |order| ==> order[k].id in queue.items && queue.items[order[k].id] == refs[k]
      ensures forall k :: 0 <= k < |order| ==> refs[k].Snapshot() == order[k]
      ensures forall k :: 0 <= k < |refs| ==> refs[k] in queue.items.Values
    {
      order := WorkOrder(issues);
      OrderOfQueue(queue.items, queue.keys, issues);
      assert |order| == |issues| by {
        WorkOrderIsPermutation(issues);
        assert |order| == |multiset(order)|;
      }
      refs := IssuesFor(queue.items, order);
    }

    /** The walk over the work order: each issue in turn gets the step `Walk`
        prescribes with the points the issues before it left. */
    method Allocate(refs: seq<Issue>, order: seq<Snap>, budget: real) returns (left: real)
      requires Valid() && budget >= 0.0 && |refs| == |order|
      requires DistinctIds(order)
      requires forall k :: 0 <= k < |order| ==> refs[k].id == order[k].id
      requires forall k :: 0 <= k < |order| ==> order[k].id in queue.items && queue.items[order[k].id] == refs[k]
      requires forall k :: 0 <= k < |order| ==> refs[k].Snapshot() == order[k]
      modifies queue, refs
      ensures Valid()
      ensures left == Walk(order, budget, |order|).budget
      ensures Ran(Walk(order, budget, |order|), old(queue.items), old(queue.keys), old(queue.pendingPops), old(queue.events),
                  queue.items, queue.keys, queue.pendingPops, queue.events)
      ensures Settles(old(queue.items), order, Walk(order, budget, |order|).after)
    {
      left := budget;
      var i := 0;
      ghost var items0, keys0, pend0, events0 := queue.items, queue.keys, queue.pendingPops, queue.events;
      ghost var w := Walk(order, budget, 0);
      StartWalk(refs, order, budget);
      ghost var stored := forall k :: 0 <= k < |order| ==> order[k].id in items0 && items0[order[k].id] == refs[k];
      assert stored;
      while i < |order|
        invariant 0 <= i <= |order|
        invariant Valid()
        invariant Walked(refs, order, budget, i, w, left, items0, keys0, pend0, events0)
      {
        left, w := Turn(refs, order, budget, i, w, left, items0, keys0, pend0, events0);
        i := i + 1;
      }
      assert stored;
      EndWalk(refs, order, budget, w, left, items0, keys0, pend0, events0);
      assert old(queue.items) == items0 && old(queue.keys) == keys0;
      assert old(queue.pendingPops) == pend0 && old(queue.events) == events0;
    }

    /** Before the first turn the walk has done nothing. */
    lemma StartWalk(refs: seq<Issue>, order: seq<Snap>, budget: real)
      requires budget >= 0.0 && |refs| == |order|
      requires forall k :: 0 <= k < |order| ==> refs[k].Snapshot() == order[k]
      ensures Walked(refs, order, budget, 0, Walk(order, budget, 0), budget,
                     queue.items, queue.keys, queue.pendingPops, queue.events)
    {
      assert Walk(order, budget, 0) == Term(budget, [], [], []);
      RanNothing(budget, queue.items, queue.keys, queue.pendingPops, queue.events);
      assert Looks(refs) == [] + order[0..];
    }

    /** After the last turn the walk is the whole of `Walk`. */
    lemma EndWalk(refs: seq<Issue>, order: seq<Snap>, budget: real, w: Term, left: real,
                  items0: map<int, Issue>, keys0: seq<int>, pend0: seq<Issue>, events0: seq<Event>)
      requires budget >= 0.0 && |refs| == |order|
      requires forall k :: 0 <= k < |order| ==> order[k].id in items0 && items0[order[k].id] == refs[k]
      requires Walked(refs, order, budget, |order|, w, left, items0, keys0, pend0, events0)
      ensures left == Walk(order, budget, |order|).budget
      ensures Ran(Walk(order, budget, |order|), items0, keys0, pend0, events0,
                  queue.items, queue.keys, queue.pendingPops, queue.events)
      ensures Settles(items0, order, Walk(order, budget, |order|).after)
    {
      SnapsFollow(refs, items0, order, w.after);
    }

    /** Where the walk over `order` stands after its first `i` issues, against
        the queue as it was before the walk. */
    ghost predicate Walked(refs: seq<Issue>, order: seq<Snap>, budget: real, i: nat, w: Term, left: real,
                           items0: map<int, Issue>, keys0: seq<int>, pend0: seq<Issue>, events0: seq<Event>)
      requires budget >= 0.0 && i <= |order| == |refs|
      reads queue, set k | 0 <= k < |refs| :: refs[k]
    {
      && w == Walk(order, budget, i)
      && left == w.budget
      && Ran(w, items0, keys0, pend0, events0, queue.items, queue.keys, queue.pendingPops, queue.events)
      && (forall k :: i <= k < |order| ==> order[k].id !in IdSet(w.popped))
      && Looks(refs) == w.after + order[i..]
    }

    /** One turn of the walk: the issue at `i` takes its step. */
    method Turn(refs: seq<Issue>, order: seq<Snap>, budget: real, i: nat, ghost w: Term, left: real,
                ghost items0: map<int, Issue>, ghost keys0: seq<int>, ghost pend0: seq<Issue>, ghost events0: seq<Event>)
      returns (left': real, ghost w': Term)
      requires Valid() && budget >= 0.0 && i < |order| == |refs|
      requires DistinctIds(order)
      requires forall k :: 0 <= k < |order| ==> refs[k].id == order[k].id
      requires forall k :: 0 <= k < |order| ==> order[k].id in items0 && items0[order[k].id] == refs[k]
      requires Walked(refs, order, budget, i, w, left, items0, keys0, pend0, events0)
      modifies queue, refs[i]
      ensures Valid()
      ensures Walked(refs, order, budget, i + 1, w', left', items0, keys0, pend0, events0)
    {
      ghost var r := Step(order[i], w.budget);
      var issue := refs[i];
      OthersApart(refs, order, i);
      ghost var e1, m1, k1, q1 := queue.events, queue.items, queue.keys, queue.pendingPops;
      left' := Advance(refs, i, w.after + order[i..], left);
      ghost var x := if r.worked then [IssueWork(r.issue)] else [];
      w' := Term(r.budget, w.after + [Settled(r)], w.work + x,
                 Popped(w.popped, order[i].id, r.completed));
      RanOneMore(w, w', issue.id, r.completed, x, items0, keys0, pend0, events0,
                 m1, k1, q1, e1, queue.items, queue.keys, queue.pendingPops, queue.events);
      StillAhead(order, w.popped, i, r.completed);
      SettleNext(w.after, order, i, Settled(r));
    }

    /** `WorkOn` the `i`-th of the term's issues, whose snapshots were `s`:
        that one issue changes and the others stay as they were. */
    method Advance(refs: seq<Issue>, i: nat, ghost s: seq<Snap>, budget: real) returns (left: real)
      requires Valid() && budget >= 0.0 && i < |refs|
      requires Looks(refs) == s
      requires forall k :: 0 <= k < |refs| && k != i ==> refs[k] != refs[i]
      requires refs[i].id in queue.items && queue.items[refs[i].id] == refs[i]
      modifies queue, refs[i]
      ensures Valid()
      ensures left == Step(s[i], budget).budget
      ensures Looks(refs) == s[i := Settled(Step(s[i], budget))]
      ensures queue.events == old(queue.events) + (if Step(s[i], budget).worked then [IssueWork(Step(s[i], budget).issue)] else [])
      ensures Step(s[i], budget).completed ==>
                && queue.items == old(queue.items) - {refs[i].id}
                && queue.keys == Without(old(queue.keys), {refs[i].id})
                && queue.pendingPops == old(queue.pendingPops) + [refs[i]]
      ensures !Step(s[i], budget).completed ==>
                && queue.items == old(queue.items) && queue.keys == old(queue.keys)
                && queue.pendingPops == old(queue.pendingPops)
    {
      left := WorkOn(refs[i], s[i], budget);
      forall k | 0 <= k < |refs| && k != i
        ensures refs[k].Snapshot() == s[k]
      {
        assert refs[k] != refs[i];
      }
    }

    /** `push` into the worker's queue: the `issue/push` event fires every
        one-time listener `work` left, and each schedules a term. */
    method Assign(issue: Issue) returns (r: Outcome, terms: nat)
      requires Valid()
      modifies queue, this
      ensures Valid()
      ensures |old(queue.items)| >= maxActiveIssues ==> r == Fail(RangeError)
      ensures r.Pass? <==> |old(queue.items)| < maxActiveIssues && issue.status == "dev"
      ensures r.Pass? ==> && queue.items == old(queue.items)[issue.id := issue]
                          && queue.keys == (if issue.id in old(queue.items) then old(queue.keys)
                                            else old(queue.keys) + [issue.id])
                          && queue.events == old(queue.events) + [IssuePush(issue.Snapshot())]
      ensures r.Fail? ==> && queue.items == old(queue.items) && queue.keys == old(queue.keys)
                          && queue.events == old(queue.events)
      ensures queue.pendingPops == old(queue.pendingPops)
      ensures terms == (if r.Pass? then old(pushWaiters) else 0)
      ensures pushWaiters == (if r.Pass? then 0 else old(pushWaiters))
      ensures isGameFinished == old(isGameFinished)
    {
      r := queue.Push(issue);
      terms := 0;
      if r.Pass? {
        terms := pushWaiters;
        pushWaiters := 0;
      }
    }

    /** `stop` */
    method Stop()
      modifies this
      ensures isGameFinished && pushWaiters == old(pushWaiters)
    {
      isGameFinished := true;
    }
  }

  /** The two checks a `Worker` call goes through, its own and then its dev
      queue's, accept exactly an integer capacity within [1, 20] and a
      positive number of work points. A capacity above 20 passes the
      worker's own check and is refused by the queue as its 2nd argument. */
  lemma WorkerArgsAccepted(maxActiveIssues: Value, workPoints: Value)
    ensures CheckWorkerArgs(maxActiveIssues, workPoints) == Pass
            && DevQueueArgs(maxActiveIssues, Bool(true)).Success?
            <==> IsInteger(maxActiveIssues) && 1.0 <= maxActiveIssues.n <= 20.0
                 && workPoints.Num? && workPoints.n > 0.0
    ensures CheckWorkerArgs(maxActiveIssues, workPoints) == Pass && maxActiveIssues.n > 20.0 ==>
              DevQueueArgs(maxActiveIssues, Bool(true)) == Failure(TypeError(2))
  {
  }

  /** The `Worker` factory. The arguments are checked first; the worker then
      takes the next id, even when building its dev queue fails after that.
      On success the first `work` call has run on the empty queue and left
      one listener for the next push. */
  method NewWorker(workerIds: IdCounter, maxActiveIssues: Value, workPoints: Value) returns (r: Result<Worker>)
    modifies workerIds
    ensures CheckWorkerArgs(maxActiveIssues, workPoints).Fail? ==>
              && r == Failure(CheckWorkerArgs(maxActiveIssues, workPoints).error)
              && workerIds.count == old(workerIds.count)
    ensures CheckWorkerArgs(maxActiveIssues, workPoints) == Pass ==>
              workerIds.count == old(workerIds.count) + 1
    ensures CheckWorkerArgs(maxActiveIssues, workPoints) == Pass
            && DevQueueArgs(maxActiveIssues, Bool(true)).Failure? ==>
              r == Failure(DevQueueArgs(maxActiveIssues, Bool(true)).error)
    ensures r.Success? <==>
              CheckWorkerArgs(maxActiveIssues, workPoints) == Pass
              && DevQueueArgs(maxActiveIssues, Bool(true)).Success?
    ensures r.Success? ==>
              && fresh(r.value) && fresh(r.value.queue) && r.value.Valid()
              && r.value.id == old(workerIds.count)
              && r.value.maxActiveIssues as real == maxActiveIssues.n
              && r.value.workPoints == workPoints.n
              && !r.value.isGameFinished && r.value.pushWaiters == 1
              && r.value.queue.items == map[] && r.value.queue.keys == []
              && r.value.queue.events == [] && r.value.queue.pendingPops == []
  {
    var check := CheckWorkerArgs(maxActiveIssues, workPoints);
    if check.Fail? {
      return Failure(check.error);
    }
    var id := workerIds.count;
    workerIds.count := workerIds.count + 1;
    var made := NewDevQueue(maxActiveIssues, Bool(true));
    if made.Failure? {
      return Failure(made.error);
    }
    var q := made.value;
    var w := new Worker(id, q.maxSize, workPoints.n, q);
    var next := w.Work();
    r := Success(w);
  }
}
