/**
 * One term of a worker, as values: the term's work points after the
 * penalties for many issues and many projects, the stress it reports, and
 * the walk over the work order that spends the points issue by issue.
 */
module WorkTerms {
  import opened Values
  import opened Rounding
  import opened Issues
  import opened Queues

  const MaxIssuesPenalty: real := 0.5
  const MaxProjectsPenalty: real := 0.8

  /** `1 - penalty * count / maxActiveIssues` */
  function Factor(penalty: real, count: nat, maxActiveIssues: int): real
    requires maxActiveIssues >= 1
  {
    1.0 - penalty * count as real / maxActiveIssues as real
  }

  /** For a count within capacity the factor lies in `[1 - penalty, 1]`. */
  lemma FactorBounds(penalty: real, count: nat, maxActiveIssues: int)
    requires maxActiveIssues >= 1 && 0.0 <= penalty && count <= maxActiveIssues
    ensures 1.0 - penalty <= Factor(penalty, count, maxActiveIssues) <= 1.0
  {
    var m := maxActiveIssues as real;
    var q := penalty * count as real / m;
    assert q * m == penalty * count as real;
    assert penalty * count as real <= penalty * m;
    assert 0.0 <= q <= penalty;
  }

  /** The term's work points: each penalty applies only when there is more
      than one issue, respectively more than one project group. */
  function TermBudget(workPoints: real, totalIssues: nat, totalProjectGroups: nat, maxActiveIssues: int): real
    requires maxActiveIssues >= 1
  {
    var afterIssues :=
      if totalIssues > 1 then workPoints * Factor(MaxIssuesPenalty, totalIssues, maxActiveIssues)
      else workPoints;
    if totalProjectGroups > 1 then afterIssues * Factor(MaxProjectsPenalty, totalProjectGroups, maxActiveIssues)
    else afterIssues
  }

  /** With at most `maxActiveIssues` queued issues the penalties keep at least
      a tenth of the work points, and a lone issue gets all of them. */
  lemma TermBudgetBounds(workPoints: real, totalIssues: nat, totalProjectGroups: nat, maxActiveIssues: int)
    requires workPoints > 0.0
    requires 1 <= totalProjectGroups <= totalIssues <= maxActiveIssues
    ensures 0.1 * workPoints <= TermBudget(workPoints, totalIssues, totalProjectGroups, maxActiveIssues) <= workPoints
    ensures totalIssues == 1 ==> TermBudget(workPoints, totalIssues, totalProjectGroups, maxActiveIssues) == workPoints
  {
    var f1 := if totalIssues > 1 then Factor(MaxIssuesPenalty, totalIssues, maxActiveIssues) else 1.0;
    var f2 := if totalProjectGroups > 1 then Factor(MaxProjectsPenalty, totalProjectGroups, maxActiveIssues) else 1.0;
    FactorBounds(MaxIssuesPenalty, totalIssues, maxActiveIssues);
    FactorBounds(MaxProjectsPenalty, totalProjectGroups, maxActiveIssues);
    var a := workPoints * f1;
    ScaleBounds(workPoints, f1, 0.5);
    assert 0.5 * workPoints <= a <= workPoints;
    ScaleBounds(a, f2, 0.2);
    assert 0.2 * a <= a * f2 <= a;
    assert 0.1 * workPoints <= 0.2 * a;
    assert TermBudget(workPoints, totalIssues, totalProjectGroups, maxActiveIssues) == a * f2;
  }

  lemma ScaleBounds(x: real, f: real, lo: real)
    requires x > 0.0 && 0.0 <= lo <= f <= 1.0
    ensures lo * x <= x * f <= x
  {
  }

  /** What the worker reports on `worker/stress`: the share of its work
      points the penalties take away, in percent. */
  function Stress(budget: real, workPoints: real): real
    requires workPoints > 0.0
  {
    100.0 - Round2(budget / workPoints * 100.0)
  }

  /** The reported stress lies between 0 and 90 percent; a worker with a
      single issue reports none. */
  lemma StressBounds(workPoints: real, totalIssues: nat, totalProjectGroups: nat, maxActiveIssues: int)
    requires workPoints > 0.0
    requires 1 <= totalProjectGroups <= totalIssues <= maxActiveIssues
    ensures var s := Stress(TermBudget(workPoints, totalIssues, totalProjectGroups, maxActiveIssues), workPoints);
            0.0 <= s <= 90.0 && (totalIssues == 1 ==> s == 0.0)
  {
    var b := TermBudget(workPoints, totalIssues, totalProjectGroups, maxActiveIssues);
    TermBudgetBounds(workPoints, totalIssues, totalProjectGroups, maxActiveIssues);
    var x := b / workPoints * 100.0;
    assert 10.0 <= x <= 100.0;
    Round2Monotone(10.0, x);
    Round2Monotone(x, 100.0);
    Round2OfInteger(10);
    Round2OfInteger(100);
    if totalIssues == 1 {
      assert x == 100.0;
    }
  }

  /** `workPointsTillCompletion` */
  function Needed(s: Snap): real {
    Round2(Max(0.0, s.complexity as real - s.spentWork))
  }

  /** An issue under way: a whole number of hundredths spent, between none
      and its whole complexity. */
  predicate InProgress(s: Snap) {
    IsCents(s.spentWork) && 0.0 <= s.spentWork <= s.complexity as real
  }

  /** For an issue under way the work still needed is exactly what its
      complexity exceeds its spent work by. */
  lemma NeededExact(s: Snap)
    requires InProgress(s)
    ensures Needed(s) == s.complexity as real - s.spentWork
    ensures IsCents(Needed(s))
  {
    IntegerIsCents(s.complexity);
    CentsSum(s.complexity as real, s.spentWork);
    Round2OfCents(s.complexity as real - s.spentWork);
  }

  /** Nothing is needed exactly when the spent work has reached the
      complexity. */
  lemma NothingNeededIff(s: Snap)
    requires IsCents(s.spentWork)
    ensures Needed(s) == 0.0 <==> s.spentWork >= s.complexity as real
  {
    IntegerIsCents(s.complexity);
    IntegerIsCents(0);
    CentsSum(s.complexity as real, s.spentWork);
    Round2OfCents(Max(0.0, s.complexity as real - s.spentWork));
  }

  /** One step of the walk: the issue as it is after the work, the points
      left, and whether it got a `issue/work` event and was completed. */
  datatype StepResult = StepResult(issue: Snap, budget: real, worked: bool, completed: bool)

  /** One step of the walk on one issue. Spent points leave nothing for the
      issues behind; an issue that needs more than is left takes it all; one
      that needs no more than is left is completed. An issue that needs
      nothing is completed without spending. */
  function Step(s: Snap, budget: real): (r: StepResult)
    requires budget >= 0.0
    ensures 0.0 <= r.budget <= budget
    ensures r.issue == s.(spentWork := r.issue.spentWork)
    ensures budget == 0.0 ==> r == StepResult(s, 0.0, false, false)
    ensures budget > 0.0 ==> r.worked && (r.completed <==> Needed(s) <= budget)
    ensures !r.completed ==> r.budget == 0.0
    ensures r.completed && Needed(s) == 0.0 ==> r.issue == s && r.budget == budget
    ensures InProgress(s) ==> InProgress(r.issue) && r.issue.spentWork >= s.spentWork
    ensures InProgress(s) && r.completed ==> r.issue.spentWork == s.complexity as real
    ensures InProgress(s) && r.completed && Needed(s) > 0.0 ==>
              r.budget == Round2(budget - (s.complexity as real - s.spentWork))
    ensures budget > 0.0 && !r.completed ==>
              && r.issue.spentWork == Round2(s.spentWork + budget)
              && s.spentWork + budget - 0.005 < r.issue.spentWork <= s.spentWork + budget + 0.005
    ensures r.completed && Needed(s) > 0.0 ==> r.issue.spentWork == Round2(s.spentWork + Needed(s))
  {
    if budget == 0.0 then StepResult(s, 0.0, false, false)
    else
      var needed := Needed(s);
      Round2IsCents(Max(0.0, s.complexity as real - s.spentWork));
      Round2Monotone(0.0, Max(0.0, s.complexity as real - s.spentWork));
      Round2OfInteger(0);
      if InProgress(s) then NeededExact(s); StepOf(s, budget, needed)
      else StepOf(s, budget, needed)
  }

  /** `Step`'s case split, once `needed` has been computed. */
  function StepOf(s: Snap, budget: real, needed: real): (r: StepResult)
    requires budget > 0.0 && needed == Needed(s) && needed >= 0.0 && IsCents(needed)
    requires InProgress(s) ==> needed == s.complexity as real - s.spentWork
    ensures 0.0 <= r.budget <= budget
    ensures r.issue == s.(spentWork := r.issue.spentWork)
    ensures r.worked && (r.completed <==> needed <= budget)
    ensures !r.completed ==> r.budget == 0.0
    ensures r.completed && needed == 0.0 ==> r.issue == s && r.budget == budget
    ensures InProgress(s) ==> InProgress(r.issue) && r.issue.spentWork >= s.spentWork
    ensures InProgress(s) && r.completed ==> r.issue.spentWork == s.complexity as real
    ensures InProgress(s) && r.completed && needed > 0.0 ==>
              r.budget == Round2(budget - (s.complexity as real - s.spentWork))
    ensures !r.completed ==>
              && r.issue.spentWork == Round2(s.spentWork + budget)
              && s.spentWork + budget - 0.005 < r.issue.spentWork <= s.spentWork + budget + 0.005
    ensures r.completed && needed > 0.0 ==> r.issue.spentWork == Round2(s.spentWork + needed)
  {
    if needed > budget then
      var spent := s.spentWork + budget;
      Round2Close(spent);
      if InProgress(s) then
        Round2Within(spent, s.complexity);
        Round2IsCents(spent);
        Round2Monotone(s.spentWork, spent);
        Round2OfCents(s.spentWork);
        StepResult(s.(spentWork := Round2(spent)), 0.0, true, false)
      else StepResult(s.(spentWork := Round2(spent)), 0.0, true, false)
    else if needed > 0.0 then
      var left := Max(0.0, budget - needed);
      PositiveCents(needed);
      Round2Close(left);
      Round2Monotone(0.0, left);
      Round2OfInteger(0);
      if InProgress(s) then
        Round2OfInteger(s.complexity);
        StepResult(s.(spentWork := Round2(s.spentWork + needed)), Round2(left), true, true)
      else StepResult(s.(spentWork := Round2(s.spentWork + needed)), Round2(left), true, true)
    else
      StepResult(s, budget, true, true)
  }

  /** A step as the code writes it: it hands `spentAdditionalWork` the work
      still needed even when that is 0, which the setter rejects, and the
      exception ends the term. */
  datatype Written = Aborted(error: Error) | Went(step: StepResult)

  function StepAsWritten(s: Snap, budget: real): Written
    requires budget >= 0.0
  {
    if budget == 0.0 then Went(StepResult(s, 0.0, false, false))
    else
      var needed := Needed(s);
      if needed > budget then Went(StepResult(s.(spentWork := Round2(s.spentWork + budget)), 0.0, true, false))
      else if needed <= 0.0 then Aborted(TypeError(1))
      else Went(StepResult(s.(spentWork := Round2(s.spentWork + needed)),
                           Round2(Max(0.0, budget - needed)), true, true))
  }

  /** The code's step throws exactly when points are left and the issue needs
      nothing; otherwise it agrees with `Step`. */
  lemma AsWrittenDiffersOnlyWhenNothingNeeded(s: Snap, budget: real)
    requires budget >= 0.0
    ensures StepAsWritten(s, budget).Aborted? <==> budget > 0.0 && Needed(s) == 0.0
    ensures StepAsWritten(s, budget).Aborted? ==> StepAsWritten(s, budget).error == TypeError(1)
    ensures StepAsWritten(s, budget).Went? ==> StepAsWritten(s, budget).step == Step(s, budget)
  {
    Round2Monotone(0.0, Max(0.0, s.complexity as real - s.spentWork));
    Round2OfInteger(0);
  }

  /** A partial step whose points fall short of the need by less than half a
      hundredth rounds the spent work up to the whole complexity: the issue
      stays queued, not completed, and every later step on it throws. */
  lemma PartialStepCanReachComplexity(s: Snap, budget: real)
    requires InProgress(s) && s.spentWork < s.complexity as real
    requires 0.0 < budget
    requires s.complexity as real - s.spentWork - 0.005 <= budget < s.complexity as real - s.spentWork
    ensures StepAsWritten(s, budget).Went?
    ensures var r := StepAsWritten(s, budget).step;
            && !r.completed && r.budget == 0.0
            && r.issue.spentWork == s.complexity as real
            && forall b :: b > 0.0 ==> StepAsWritten(r.issue, b) == Aborted(TypeError(1))
  {
    NeededExact(s);
    Round2ReachesInteger(s.spentWork + budget, s.complexity);
    var r := StepAsWritten(s, budget).step;
    IntegerIsCents(s.complexity);
    NothingNeededIff(r.issue);
    forall b | b > 0.0 ensures StepAsWritten(r.issue, b) == Aborted(TypeError(1)) {
      AsWrittenDiffersOnlyWhenNothingNeeded(r.issue, b);
    }
  }

  /** The walk's state after the first `k` issues of the work order. */
  datatype Term = Term(budget: real, after: seq<Snap>, work: seq<Event>, popped: seq<int>)

  /** The issue as it is once the step is over: a completed issue has been
      popped and set to `done`. */
  function Settled(r: StepResult): Snap {
    if r.completed then r.issue.(status := AllowedStatuses[2]) else r.issue
  }

  /** The walk over the first `k` issues of `order`, starting with `budget`. */
  function Walk(order: seq<Snap>, budget: real, k: nat): (t: Term)
    requires budget >= 0.0 && k <= |order|
    ensures |t.after| == k && |t.work| <= k && |t.popped| <= k
    ensures 0.0 <= t.budget <= budget
  {
    if k == 0 then Term(budget, [], [], [])
    else
      var w := Walk(order, budget, k - 1);
      var r := Step(order[k - 1], w.budget);
      Term(r.budget,
           w.after + [Settled(r)],
           w.work + (if r.worked then [IssueWork(r.issue)] else []),
           w.popped + (if r.completed then [order[k - 1].id] else []))
  }

  /** The `j`th issue settles the way its step, with the points the `j`
      issues before it left, says. */
  lemma {:induction false} WalkAt(order: seq<Snap>, budget: real, n: nat, j: nat)
    requires budget >= 0.0 && j < n <= |order|
    ensures Walk(order, budget, n).after[j] == Settled(Step(order[j], Walk(order, budget, j).budget))
  {
    if j < n - 1 {
      WalkAt(order, budget, n - 1, j);
    }
  }

  /** The points left never grow along the walk. */
  lemma {:induction false} WalkBudgetShrinks(order: seq<Snap>, budget: real, j: nat, k: nat)
    requires budget >= 0.0 && j <= k <= |order|
    ensures Walk(order, budget, k).budget <= Walk(order, budget, j).budget
  {
    if j < k {
      WalkBudgetShrinks(order, budget, j, k - 1);
    }
  }

  /** Every issue behind one the walk could not complete is left as it was:
      the walk ends at the first issue it cannot finish. */
  lemma WalkStopsAtFirstUnfinished(order: seq<Snap>, budget: real, n: nat, j: nat, k: nat)
    requires budget >= 0.0 && j < k < n <= |order|
    requires !Step(order[j], Walk(order, budget, j).budget).completed
    ensures Walk(order, budget, n).after[k] == order[k]
  {
    assert Walk(order, budget, j + 1).budget == 0.0;
    WalkBudgetShrinks(order, budget, j + 1, k);
    WalkAt(order, budget, n, k);
  }

  /** Each issue keeps its identity; it is `done` exactly when its step
      completed it, and an issue under way stays under way, its spent work
      never drops, and a completed one has spent its whole complexity. The
      issue the walk cannot complete absorbs all the points left. */
  lemma WalkSettles(order: seq<Snap>, budget: real, n: nat, j: nat)
    requires budget >= 0.0 && j < n <= |order|
    ensures var a, r := Walk(order, budget, n).after[j], Step(order[j], Walk(order, budget, j).budget);
            && a == order[j].(spentWork := a.spentWork, status := a.status)
            && (r.completed ==> a.status == "done")
            && (!r.completed ==> a.status == order[j].status)
            && (InProgress(order[j]) ==> InProgress(a) && a.spentWork >= order[j].spentWork)
            && (InProgress(order[j]) && r.completed ==> a.spentWork == order[j].complexity as real)
            && (Walk(order, budget, j).budget > 0.0 && !r.completed ==>
                  a.spentWork == Round2(order[j].spentWork + Walk(order, budget, j).budget))
  {
    WalkAt(order, budget, n, j);
  }

  /** The ids of the `done` entries of `s`, in order. */
  function DoneIds(s: seq<Snap>): seq<int> {
    if s == [] then [] else DoneIds(s[..|s| - 1]) + (if s[|s| - 1].status == "done" then [s[|s| - 1].id] else [])
  }

  /** The walk pops exactly the issues it leaves `done`, in order, when none
      of the walked issues was `done` before. */
  lemma {:induction false} WalkPopsTheDone(order: seq<Snap>, budget: real, n: nat)
    requires budget >= 0.0 && n <= |order|
    requires forall i :: 0 <= i < |order| ==> order[i].status != "done"
    ensures Walk(order, budget, n).popped == DoneIds(Walk(order, budget, n).after)
  {
    if n > 0 {
      WalkPopsTheDone(order, budget, n - 1);
      var w := Walk(order, budget, n);
      assert w.after[..n - 1] == Walk(order, budget, n - 1).after;
    }
  }

  /** A worker with 5 work points and a lone issue of complexity 1 completes
      it in its first term, with 4 points to spare. */
  lemma LoneSmallIssueCompletes()
    ensures var s := Snap(0, "Apple", 1, 1, "dev", 0.0);
            var r := Step(s, TermBudget(5.0, 1, 1, 5));
            r.completed && r.issue.spentWork == 1.0 && r.budget == 4.0
  {
    var s := Snap(0, "Apple", 1, 1, "dev", 0.0);
    IntegerIsCents(0);
    assert InProgress(s);
    Round2OfInteger(4);
    assert Needed(s) == 1.0 by { NeededExact(s); }
  }

  /** The same worker needs two terms for an issue of complexity 10. */
  lemma LoneLargeIssueTakesTwoTerms()
    ensures var s := Snap(0, "Apple", 1, 10, "dev", 0.0);
            var r := Step(s, TermBudget(5.0, 1, 1, 5));
            !r.completed && r.issue.spentWork == 5.0 && Step(r.issue, TermBudget(5.0, 1, 1, 5)).completed
  {
    var s := Snap(0, "Apple", 1, 10, "dev", 0.0);
    IntegerIsCents(0);
    assert InProgress(s);
    NeededExact(s);
    Round2OfInteger(5);
    var s1 := s.(spentWork := 5.0);
    IntegerIsCents(5);
    assert InProgress(s1);
    NeededExact(s1);
  }

  /** A worker with 0.996 work points and a lone issue of complexity 1: the
      code's first term rounds the spent work up to 1 without completing the
      issue, and its second term throws; the corrected step completes it. */
  lemma RoundingStrandsIssue()
    ensures var s := Snap(0, "Apple", 1, 1, "dev", 0.0);
            var b := TermBudget(0.996, 1, 1, 1);
            && StepAsWritten(s, b).Went?
            && !StepAsWritten(s, b).step.completed
            && StepAsWritten(s, b).step.issue.spentWork == 1.0
            && StepAsWritten(StepAsWritten(s, b).step.issue, b) == Aborted(TypeError(1))
            && Step(StepAsWritten(s, b).step.issue, b).completed
  {
    var s := Snap(0, "Apple", 1, 1, "dev", 0.0);
    IntegerIsCents(0);
    assert InProgress(s);
    PartialStepCanReachComplexity(s, 0.996);
    var s1 := StepAsWritten(s, 0.996).step.issue;
    NothingNeededIff(s1);
  }

  /** The game's own worker, `Worker(5, 4)`, with two queued issues in two
      projects has 4 * 0.8 * 0.68 = 2.176 points a term; an issue that still
      needs 2.18 is rounded up to its complexity without being completed, and
      the next term throws. */
  lemma ShippedWorkerCanStrandIssue()
    ensures var s := Snap(0, "Apple", 1, 3, "dev", 0.82);
            var b := TermBudget(4.0, 2, 2, 5);
            && b == 2.176
            && StepAsWritten(s, b).Went?
            && !StepAsWritten(s, b).step.completed
            && StepAsWritten(s, b).step.issue.spentWork == 3.0
            && StepAsWritten(StepAsWritten(s, b).step.issue, b) == Aborted(TypeError(1))
  {
    var s := Snap(0, "Apple", 1, 3, "dev", 0.82);
    assert (0.82 * 100.0).Floor == 82;
    assert InProgress(s);
    PartialStepCanReachComplexity(s, 2.176);
  }
}
