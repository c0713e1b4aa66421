/**
 * The Issue record: an immutable identity (id, project name, priority,
 * complexity) and a mutable progress (status, spent work), changed only
 * through validating setters.
 */
module Issues {
  import opened Values
  import opened Rounding

  /** The three statuses, in the order the rest of the system indexes them. */
  const AllowedStatuses: seq<string> := ["todo", "dev", "done"]

  /** `Issue.getAllowedStatuses()`: every call hands out a new array, so a
      caller that changes its copy changes no one else's. */
  method GetAllowedStatuses() returns (a: array<string>)
    ensures fresh(a)
    ensures a[..] == AllowedStatuses
  {
    a := new string[3];
    a[0], a[1], a[2] := AllowedStatuses[0], AllowedStatuses[1], AllowedStatuses[2];
  }

  /** A value copy of an issue (what `clone` produces for event payloads). */
  datatype Snap = Snap(
    id: int,
    projectName: string,
    priority: int,
    complexity: int,
    status: string,
    spentWork: real)

  /** What every issue satisfies from construction on. */
  predicate ValidSnap(s: Snap) {
    && s.projectName != ""
    && 1 <= s.priority <= 3
    && 1 <= s.complexity <= 10
    && s.status in AllowedStatuses
    && s.spentWork >= 0.0
    && IsCents(s.spentWork)
  }

  predicate IsAllowedStatus(v: Value) {
    v.Str? && v.s in AllowedStatuses
  }

  /** The argument checks of the `Issue` factory, in the order the code makes
      them; each failure names the argument it rejects. */
  function CheckIssueArgs(projectName: Value, priority: Value, complexity: Value): (r: Outcome)
    ensures r == Pass <==>
              && projectName.Str? && projectName.s != ""
              && priority.Num? && priority.n in {1.0, 2.0, 3.0}
              && complexity.Num? && IsIntegral(complexity.n) && 1.0 <= complexity.n <= 10.0
    ensures r == Fail(TypeError(1)) <==> !(projectName.Str? && projectName.s != "")
    ensures r == Fail(TypeError(2)) <==>
              projectName.Str? && projectName.s != "" && !(IsInteger(priority) && 1.0 <= priority.n <= 3.0)
    ensures r.Fail? ==> r.error in {TypeError(1), TypeError(2), TypeError(3)}
  {
    if Falsy(projectName) || !projectName.Str? then Fail(TypeError(1))
    else if !IsInteger(priority) || priority.n < 1.0 || priority.n > 3.0 then
      Fail(TypeError(2))
    else if !IsInteger(complexity) || complexity.n < 1.0 || complexity.n > 10.0 then
      Fail(TypeError(3))
    else Pass
  }

  /** The module-level counter `totallyCreated` that gives each issue its id. */
  class IdCounter {
    var count: nat

    constructor ()
      ensures count == 0
    {
      count := 0;
    }
  }

  class Issue {
    const id: int
    const projectName: string
    const priority: int
    const complexity: int
    var status: string
    var spentWork: real

    function Snapshot(): Snap
      reads this
    {
      Snap(id, projectName, priority, complexity, status, spentWork)
    }

    ghost predicate Valid()
      reads this
    {
      ValidSnap(Snapshot())
    }

    constructor (id: int, projectName: string, priority: int, complexity: int)
      requires projectName != "" && 1 <= priority <= 3 && 1 <= complexity <= 10
      ensures Valid()
      ensures Snapshot() == Snap(id, projectName, priority, complexity, "todo", 0.0)
    {
      this.id := id;
      this.projectName := projectName;
      this.priority := priority;
      this.complexity := complexity;
      status := AllowedStatuses[0];
      spentWork := 0.0;
      new;
      assert IsCents(0.0) by { IntegerIsCents(0); }
    }

    /** `setStatus`: any allowed status in any order; anything else is
        rejected and leaves the status as it was. */
    method SetStatus(newStatus: Value) returns (r: Outcome)
      modifies this
      ensures IsAllowedStatus(newStatus) ==> r == Pass && status == newStatus.s
      ensures !IsAllowedStatus(newStatus) ==> r == Fail(TypeError(1)) && status == old(status)
      ensures spentWork == old(spentWork)
      ensures old(Valid()) ==> Valid()
    {
      if !IsAllowedStatus(newStatus) {
        return Fail(TypeError(1));
      }
      status := newStatus.s;
      r := Pass;
    }

    /** `spentAdditionalWork`: a positive number is added and the sum rounded
        to hundredths; anything else is rejected. Spent work never drops. */
    method SpentAdditionalWork(work: Value) returns (r: Outcome)
      modifies this
      ensures work.Num? && work.n > 0.0 ==> r == Pass && spentWork == Round2(old(spentWork) + work.n)
      ensures !(work.Num? && work.n > 0.0) ==> r == Fail(TypeError(1)) && spentWork == old(spentWork)
      ensures status == old(status)
      ensures old(Valid()) ==> Valid() && spentWork >= old(spentWork)
    {
      if !work.Num? || work.n <= 0.0 {
        return Fail(TypeError(1));
      }
      if Valid() {
        Round2Monotone(spentWork, spentWork + work.n);
        Round2OfCents(spentWork);
      }
      Round2IsCents(spentWork + work.n);
      spentWork := Round2(spentWork + work.n);
      r := Pass;
    }
  }

  /** The `Issue` factory: the arguments are checked first, and only a
      successful construction takes the next id from the counter, so ids are
      distinct, increase strictly and a rejected call consumes none. */
  method NewIssue(counter: IdCounter, projectName: Value, priority: Value, complexity: Value)
    returns (r: Result<Issue>)
    modifies counter
    ensures r.Failure? <==> CheckIssueArgs(projectName, priority, complexity).Fail?
    ensures r.Failure? ==> r.error == CheckIssueArgs(projectName, priority, complexity).error
                           && counter.count == old(counter.count)
    ensures r.Success? ==>
              && fresh(r.value) && r.value.Valid()
              && r.value.Snapshot() == Snap(old(counter.count), projectName.s,
                                            priority.n.Floor, complexity.n.Floor, "todo", 0.0)
              && counter.count == old(counter.count) + 1
  {
    var check := CheckIssueArgs(projectName, priority, complexity);
    if check.Fail? {
      return Failure(check.error);
    }
    var issue := new Issue(counter.count, projectName.s, priority.n.Floor, complexity.n.Floor);
    counter.count := counter.count + 1;
    r := Success(issue);
  }
}
