/**
 * The order in which a worker walks its queued issues during one term:
 * the issues are grouped by project, groups follow the order in which their
 * project is first seen, and each group is sorted by ascending priority
 * (1 first) with a stable sort.
 */
module WorkOrders {
  import opened Issues

  function ProjectsOf(s: seq<Snap>): set<string> {
    set x | x in s :: x.projectName
  }

  /** No name occurs twice in `ns`. */
  predicate UniqueNames(ns: seq<string>) {
    ns == [] || (ns[0] !in ns[1..] && UniqueNames(ns[1..]))
  }

  lemma {:induction false} UniqueSnoc(ns: seq<string>, n: string)
    requires UniqueNames(ns) && n !in ns
    ensures UniqueNames(ns + [n])
  {
    if ns != [] {
      UniqueSnoc(ns[1..], n);
      assert (ns + [n])[1..] == ns[1..] + [n];
    } else {
      assert ([] + [n])[1..] == [];
    }
  }

  function SetOf(ns: seq<string>): set<string> {
    set n | n in ns
  }

  /** The keys of the per-project counting object, in first-seen order. */
  function FirstSeen(s: seq<Snap>): (names: seq<string>)
    ensures UniqueNames(names)
    ensures SetOf(names) == ProjectsOf(s)
    ensures |names| <= |s|
    ensures |s| > 0 ==> |names| >= 1
  {
    if s == [] then []
    else
      var p := FirstSeen(s[..|s| - 1]);
      var n := s[|s| - 1].projectName;
      assert s == s[..|s| - 1] + [s[|s| - 1]];
      assert ProjectsOf(s) == ProjectsOf(s[..|s| - 1]) + {n};
      if n in p then p else UniqueSnoc(p, n); p + [n]
  }

  /** The position of the first issue of project `n` in `s`. */
  function FirstIndex(s: seq<Snap>, n: string): (i: nat)
    requires n in ProjectsOf(s)
    ensures i < |s| && s[i].projectName == n
    ensures forall j :: 0 <= j < i ==> s[j].projectName != n
  {
    if s[0].projectName == n then 0
    else
      assert n in ProjectsOf(s[1..]) by {
        var x :| x in s && x.projectName == n;
        assert x != s[0];
      }
      1 + FirstIndex(s[1..], n)
  }

  /** `issues.filter(issue => issue.getProjectName() === n)` */
  function OfProject(s: seq<Snap>, n: string): (r: seq<Snap>)
    ensures forall x :: x in r ==> x in s && x.projectName == n
  {
    if s == [] then [] else (if s[0].projectName == n then [s[0]] else []) + OfProject(s[1..], n)
  }

  /** The issues of `s` whose project is one of `ns`. */
  function OfProjects(s: seq<Snap>, ns: set<string>): seq<Snap> {
    if s == [] then [] else (if s[0].projectName in ns then [s[0]] else []) + OfProjects(s[1..], ns)
  }

  predicate SortedByPriority(s: seq<Snap>) {
    forall i, j :: 0 <= i < j < |s| ==> s[i].priority <= s[j].priority
  }

  /** Insert `x` behind every element whose priority is at most its own. */
  function Insert(x: Snap, s: seq<Snap>): seq<Snap> {
    if s == [] then [x]
    else if x.priority < s[0].priority then [x] + s
    else [s[0]] + Insert(x, s[1..])
  }

  lemma {:induction false} InsertKeeps(x: Snap, s: seq<Snap>)
    ensures multiset(Insert(x, s)) == multiset(s) + multiset{x}
  {
    if s != [] && x.priority >= s[0].priority {
      InsertKeeps(x, s[1..]);
      assert s == [s[0]] + s[1..];
    }
  }

  /** A sorted list behind an issue of at most their priority stays sorted. */
  lemma SortedCons(h: Snap, t: seq<Snap>)
    requires SortedByPriority(t)
    requires forall k :: 0 <= k < |t| ==> h.priority <= t[k].priority
    ensures SortedByPriority([h] + t)
  {
    var r := [h] + t;
    forall i, j | 0 <= i < j < |r| ensures r[i].priority <= r[j].priority {
      assert r[j] == t[j - 1];
      if i > 0 {
        assert r[i] == t[i - 1];
      }
    }
  }

  /** Insertion keeps a lower bound that `x` and all of `s` respect. */
  lemma {:induction false} InsertKeepsBound(x: Snap, s: seq<Snap>, b: int)
    requires b <= x.priority
    requires forall k :: 0 <= k < |s| ==> b <= s[k].priority
    ensures forall k :: 0 <= k < |Insert(x, s)| ==> b <= Insert(x, s)[k].priority
  {
    if s != [] && x.priority >= s[0].priority {
      InsertKeepsBound(x, s[1..], b);
      var t := Insert(x, s[1..]);
      assert Insert(x, s) == [s[0]] + t;
      forall k | 0 <= k < |Insert(x, s)| ensures b <= Insert(x, s)[k].priority {
        if k > 0 {
          assert Insert(x, s)[k] == t[k - 1];
        }
      }
    }
  }

  lemma {:induction false} InsertSorts(x: Snap, s: seq<Snap>)
    requires SortedByPriority(s)
    ensures SortedByPriority(Insert(x, s))
  {
    if s == [] {
      assert Insert(x, s) == [x];
    } else if x.priority < s[0].priority {
      assert forall k :: 0 <= k < |s| ==> x.priority <= s[k].priority by {
        forall k | 0 <= k < |s| ensures x.priority <= s[k].priority {
          assert k == 0 || s[0].priority <= s[k].priority;
        }
      }
      SortedCons(x, s);
    } else {
      var t := s[1..];
      assert SortedByPriority(t);
      InsertSorts(x, t);
      assert forall k :: 0 <= k < |t| ==> s[0].priority <= t[k].priority by {
        forall k | 0 <= k < |t| ensures s[0].priority <= t[k].priority {
          assert t[k] == s[k + 1];
        }
      }
      InsertKeepsBound(x, t, s[0].priority);
      SortedCons(s[0], Insert(x, t));
    }
  }

  /** `.sort((a, b) => a.getPriority() - b.getPriority())`, taken stable. */
  function SortByPriority(s: seq<Snap>): (r: seq<Snap>)
    ensures SortedByPriority(r)
    ensures multiset(r) == multiset(s)
  {
    if s == [] then []
    else
      var t := SortByPriority(s[..|s| - 1]);
      InsertSorts(s[|s| - 1], t);
      InsertKeeps(s[|s| - 1], t);
      assert s == s[..|s| - 1] + [s[|s| - 1]];
      Insert(s[|s| - 1], t)
  }

  /** The issues of `s` with priority `p`, order kept. */
  function OfPriority(s: seq<Snap>, p: int): seq<Snap> {
    if s == [] then [] else (if s[0].priority == p then [s[0]] else []) + OfPriority(s[1..], p)
  }

  lemma OfPriorityPrepend(x: Snap, s: seq<Snap>, p: int)
    ensures OfPriority([x] + s, p) == (if x.priority == p then [x] else []) + OfPriority(s, p)
  {
    assert ([x] + s)[1..] == s;
  }

  lemma {:induction false} OfPriorityAppend(s: seq<Snap>, y: Snap, p: int)
    ensures OfPriority(s + [y], p) == OfPriority(s, p) + (if y.priority == p then [y] else [])
  {
    if s == [] {
      assert [] + [y] == [y];
      assert [y][1..] == [];
    } else {
      OfPriorityAppend(s[1..], y, p);
      assert (s + [y])[1..] == s[1..] + [y];
      var head: seq<Snap> := if s[0].priority == p then [s[0]] else [];
      var mine: seq<Snap> := if y.priority == p then [y] else [];
      assert head + (OfPriority(s[1..], p) + mine) == (head + OfPriority(s[1..], p)) + mine;
    }
  }

  lemma {:induction false} OfPriorityAbove(s: seq<Snap>, p: int)
    requires forall y :: y in s ==> y.priority > p
    ensures OfPriority(s, p) == []
  {
    if s != [] {
      OfPriorityAbove(s[1..], p);
    }
  }

  /** Inserting in front of a list sorted by priority keeps each priority's
      issues in order. */
  lemma InsertFrontIsStable(x: Snap, s: seq<Snap>, p: int)
    requires SortedByPriority(s) && s != [] && x.priority < s[0].priority
    ensures OfPriority([x] + s, p) == OfPriority(s, p) + (if x.priority == p then [x] else [])
  {
    OfPriorityPrepend(x, s, p);
    if x.priority == p {
      forall y | y in s ensures y.priority > p {
        var k :| 0 <= k < |s| && s[k] == y;
        assert k == 0 || s[0].priority <= s[k].priority;
      }
      OfPriorityAbove(s, p);
    }
  }

  /** Putting `h` in front of two lists whose `p`-issues agree up to a
      suffix `mine` keeps that agreement. */
  lemma PrependKeepsStable(h: Snap, t: seq<Snap>, ins: seq<Snap>, mine: seq<Snap>, p: int)
    requires OfPriority(ins, p) == OfPriority(t, p) + mine
    ensures OfPriority([h] + ins, p) == OfPriority([h] + t, p) + mine
  {
    var head: seq<Snap> := if h.priority == p then [h] else [];
    var a, b := OfPriority(ins, p), OfPriority(t, p);
    OfPriorityPrepend(h, ins, p);
    OfPriorityPrepend(h, t, p);
    assert head + (b + mine) == (head + b) + mine;
  }

  lemma {:induction false} InsertIsStable(x: Snap, s: seq<Snap>, p: int)
    requires SortedByPriority(s)
    ensures OfPriority(Insert(x, s), p) == OfPriority(s, p) + (if x.priority == p then [x] else [])
  {
    if s == [] {
      assert Insert(x, s) == [x];
      assert [x][1..] == [];
    } else if x.priority < s[0].priority {
      assert Insert(x, s) == [x] + s;
      InsertFrontIsStable(x, s, p);
    } else {
      assert Insert(x, s) == [s[0]] + Insert(x, s[1..]);
      assert SortedByPriority(s[1..]);
      InsertIsStable(x, s[1..], p);
      PrependKeepsStable(s[0], s[1..], Insert(x, s[1..]), if x.priority == p then [x] else [], p);
      assert [s[0]] + s[1..] == s;
    }
  }

  /** The sort is stable: the issues of each priority keep their order. */
  lemma {:induction false} SortIsStable(s: seq<Snap>, p: int)
    ensures OfPriority(SortByPriority(s), p) == OfPriority(s, p)
  {
    if s != [] {
      SortIsStable(s[..|s| - 1], p);
      InsertIsStable(s[|s| - 1], SortByPriority(s[..|s| - 1]), p);
      OfPriorityAppend(s[..|s| - 1], s[|s| - 1], p);
      assert s[..|s| - 1] + [s[|s| - 1]] == s;
    }
  }

  /** One project's issues, sorted by priority. */
  function Group(s: seq<Snap>, n: string): (g: seq<Snap>)
    ensures forall x :: x in g ==> x in s && x.projectName == n
    ensures multiset(g) == multiset(OfProject(s, n))
    ensures SortedByPriority(g)
  {
    var g := SortByPriority(OfProject(s, n));
    assert forall x :: x in g ==> x in OfProject(s, n) by {
      forall x | x in g ensures x in OfProject(s, n) {
        assert x in multiset(g);
      }
    }
    g
  }

  /** The group of each name of `names`, in order. */
  function Groups(s: seq<Snap>, names: seq<string>): (gs: seq<seq<Snap>>)
    ensures |gs| == |names|
  {
    seq(|names|, k requires 0 <= k < |names| => Group(s, names[k]))
  }

  /** The groups one after the other, as `reduce` with `concat` joins them. */
  function Concat(gs: seq<seq<Snap>>): seq<Snap> {
    if gs == [] then [] else gs[0] + Concat(gs[1..])
  }

  /** The sequence the allocation walks. */
  function WorkOrder(s: seq<Snap>): seq<Snap> {
    Concat(Groups(s, FirstSeen(s)))
  }

  lemma {:induction false} FilterSplit(s: seq<Snap>, n: string, rest: set<string>)
    requires n !in rest
    ensures multiset(OfProjects(s, {n} + rest)) == multiset(OfProject(s, n)) + multiset(OfProjects(s, rest))
  {
    if s != [] {
      FilterSplit(s[1..], n, rest);
    }
  }

  lemma {:induction false} FilterAll(s: seq<Snap>, ns: set<string>)
    requires ProjectsOf(s) <= ns
    ensures OfProjects(s, ns) == s
  {
    if s != [] {
      ProjectsOfTail(s);
      FilterAll(s[1..], ns);
    }
  }

  lemma {:induction false} GroupsArePermutation(s: seq<Snap>, names: seq<string>)
    requires UniqueNames(names)
    ensures multiset(Concat(Groups(s, names))) == multiset(OfProjects(s, SetOf(names)))
  {
    if names == [] {
      assert SetOf(names) == {};
      NoProjects(s);
    } else {
      var rest := names[1..];
      GroupsArePermutation(s, rest);
      NotInTail(names);
      assert Groups(s, names)[1..] == Groups(s, rest);
      assert SetOf(names) == {names[0]} + SetOf(rest) by {
        assert names == [names[0]] + rest;
      }
      FilterSplit(s, names[0], SetOf(rest));
    }
  }

  lemma {:induction false} NoProjects(s: seq<Snap>)
    ensures OfProjects(s, {}) == []
  {
    if s != [] {
      NoProjects(s[1..]);
    }
  }

  /** The work order holds every queued issue exactly once. */
  lemma WorkOrderIsPermutation(s: seq<Snap>)
    ensures multiset(WorkOrder(s)) == multiset(s)
  {
    GroupsArePermutation(s, FirstSeen(s));
    FilterAll(s, SetOf(FirstSeen(s)));
  }

  /** Where entry `k` of the joined groups `gs` sits: its group and its
      place in that group. */
  function Locate(gs: seq<seq<Snap>>, k: nat): (p: (nat, nat))
    requires k < |Concat(gs)|
    ensures p.0 < |gs| && p.1 < |gs[p.0]| && Concat(gs)[k] == gs[p.0][p.1]
    decreases |gs|
  {
    if k < |gs[0]| then (0, k)
    else
      var q := Locate(gs[1..], k - |gs[0]|);
      (q.0 + 1, q.1)
  }

  /** Later entries of the joined groups sit in a later group, or further on
      in the same one. */
  lemma {:induction false} LocateAscends(gs: seq<seq<Snap>>, i: nat, j: nat)
    requires i < j < |Concat(gs)|
    ensures Locate(gs, i).0 <= Locate(gs, j).0
    ensures Locate(gs, i).0 == Locate(gs, j).0 ==> Locate(gs, i).1 < Locate(gs, j).1
    decreases |gs|
  {
    if i >= |gs[0]| {
      LocateAscends(gs[1..], i - |gs[0]|, j - |gs[0]|);
    }
  }

  /** Different places of a list of unique names hold different names. */
  lemma {:induction false} UniqueAt(ns: seq<string>, a: nat, b: nat)
    requires UniqueNames(ns) && a < b < |ns|
    ensures ns[a] != ns[b]
  {
    if a == 0 {
      assert ns[1..][b - 1] == ns[b];
    } else {
      UniqueAt(ns[1..], a - 1, b - 1);
    }
  }

  /** Entry `k` of the work order belongs to the group of the project at
      `Locate(...).0` of the first-seen order. */
  lemma InGroup(s: seq<Snap>, k: nat)
    requires k < |WorkOrder(s)|
    ensures Locate(Groups(s, FirstSeen(s)), k).0 < |FirstSeen(s)|
    ensures WorkOrder(s)[k].projectName == FirstSeen(s)[Locate(Groups(s, FirstSeen(s)), k).0]
  {
    var gs := Groups(s, FirstSeen(s));
    var p := Locate(gs, k);
    assert gs[p.0][p.1] in gs[p.0];
  }

  lemma NotInTail(names: seq<string>)
    requires UniqueNames(names) && names != []
    ensures names[0] !in names[1..]
    ensures UniqueNames(names[1..])
  {
  }



  lemma ProjectsOfTail(s: seq<Snap>)
    requires s != []
    ensures ProjectsOf(s) == ProjectsOf(s[1..]) + {s[0].projectName}
  {
    assert s == [s[0]] + s[1..];
  }

  lemma {:induction false} FirstIndexPrefix(s: seq<Snap>, x: Snap, n: string)
    requires n in ProjectsOf(s)
    ensures n in ProjectsOf(s + [x]) && FirstIndex(s + [x], n) == FirstIndex(s, n)
  {
    assert s[FirstIndex(s, n)] in s + [x];
    if s[0].projectName != n {
      assert (s + [x])[1..] == s[1..] + [x];
      ProjectsOfTail(s);
      FirstIndexPrefix(s[1..], x, n);
    }
  }

  lemma {:induction false} FirstIndexNewcomer(s: seq<Snap>, x: Snap)
    requires x.projectName !in ProjectsOf(s)
    ensures x.projectName in ProjectsOf(s + [x]) && FirstIndex(s + [x], x.projectName) == |s|
  {
    assert x in s + [x];
    if s != [] {
      assert (s + [x])[1..] == s[1..] + [x];
      ProjectsOfTail(s);
      FirstIndexNewcomer(s[1..], x);
    }
  }

  /** A project listed earlier among the groups is seen earlier in the queue. */
  lemma {:induction false} FirstSeenOrder(s: seq<Snap>, a: nat, b: nat)
    requires a < b < |FirstSeen(s)|
    ensures FirstSeen(s)[a] in ProjectsOf(s) && FirstSeen(s)[b] in ProjectsOf(s)
    ensures FirstIndex(s, FirstSeen(s)[a]) < FirstIndex(s, FirstSeen(s)[b])
  {
    var f := FirstSeen(s);
    assert f[a] in SetOf(f) && f[b] in SetOf(f);
    var p := s[..|s| - 1];
    var x := s[|s| - 1];
    var fp := FirstSeen(p);
    assert s == p + [x];
    if x.projectName in fp {
      assert f == fp;
      FirstSeenOrder(p, a, b);
      assert fp[a] in SetOf(fp) && fp[b] in SetOf(fp);
      FirstIndexPrefix(p, x, fp[a]);
      FirstIndexPrefix(p, x, fp[b]);
    } else {
      assert f == fp + [x.projectName];
      assert x.projectName !in ProjectsOf(p) by {
        assert SetOf(fp) == ProjectsOf(p);
      }
      assert fp[a] in SetOf(fp);
      FirstIndexPrefix(p, x, fp[a]);
      if b < |fp| {
        FirstSeenOrder(p, a, b);
        assert fp[b] in SetOf(fp);
        FirstIndexPrefix(p, x, fp[b]);
      } else {
        FirstIndexNewcomer(p, x);
      }
    }
  }

  /** Within a project's group the issues come in ascending priority. */
  lemma WorkOrderAscendsWithinProject(s: seq<Snap>, i: nat, j: nat)
    requires i < j < |WorkOrder(s)|
    requires WorkOrder(s)[i].projectName == WorkOrder(s)[j].projectName
    ensures WorkOrder(s)[i].priority <= WorkOrder(s)[j].priority
  {
    var f := FirstSeen(s);
    var gs := Groups(s, f);
    var pi, pj := Locate(gs, i), Locate(gs, j);
    LocateAscends(gs, i, j);
    InGroup(s, i);
    InGroup(s, j);
    if pi.0 != pj.0 {
      UniqueAt(f, pi.0, pj.0);
      assert false;
    }
    assert SortedByPriority(gs[pi.0]);
  }

  /** Issues of different projects come in the order their projects were
      first seen in the queue. */
  lemma WorkOrderFollowsFirstSeen(s: seq<Snap>, i: nat, j: nat)
    requires i < j < |WorkOrder(s)|
    requires WorkOrder(s)[i].projectName != WorkOrder(s)[j].projectName
    ensures WorkOrder(s)[i].projectName in ProjectsOf(s)
    ensures WorkOrder(s)[j].projectName in ProjectsOf(s)
    ensures FirstIndex(s, WorkOrder(s)[i].projectName) < FirstIndex(s, WorkOrder(s)[j].projectName)
  {
    var f := FirstSeen(s);
    var gs := Groups(s, f);
    var a, b := Locate(gs, i).0, Locate(gs, j).0;
    LocateAscends(gs, i, j);
    InGroup(s, i);
    InGroup(s, j);
    assert f[a] != f[b];
    FirstSeenOrder(s, a, b);
    var x, y := WorkOrder(s)[i].projectName, WorkOrder(s)[j].projectName;
    assert x == f[a] && y == f[b];
    assert x in ProjectsOf(s) && y in ProjectsOf(s);
    assert FirstIndex(s, x) < FirstIndex(s, y);
  }

  predicate DistinctIds(s: seq<Snap>) {
    forall i, j :: 0 <= i < j < |s| ==> s[i].id != s[j].id
  }

  /** Issues with distinct ids occur once each, and an id names one of them. */
  lemma {:induction false} DistinctIdsOnce(s: seq<Snap>)
    requires DistinctIds(s)
    ensures forall x :: multiset(s)[x] <= 1
    ensures forall x, y :: x in s && y in s && x.id == y.id ==> x == y
  {
    if s != [] {
      var p, y := s[..|s| - 1], s[|s| - 1];
      assert s == p + [y];
      assert DistinctIds(p);
      DistinctIdsOnce(p);
      assert y !in p by {
        assert forall k :: 0 <= k < |p| ==> p[k] == s[k] && s[k].id != y.id;
      }
      forall x1, x2 | x1 in s && x2 in s && x1.id == x2.id ensures x1 == x2 {
        var a :| 0 <= a < |s| && s[a] == x1;
        var b :| 0 <= b < |s| && s[b] == x2;
        assert a == b;
      }
    }
  }

  lemma RepeatCounts(s: seq<Snap>, i: nat, j: nat)
    requires i < j < |s| && s[i] == s[j]
    ensures multiset(s)[s[i]] >= 2
  {
    assert s == s[..j] + [s[j]] + s[j + 1..];
    assert s[i] in s[..j];
  }

  /** A rearrangement of issues with distinct ids has distinct ids. */
  lemma PermutationKeepsDistinctIds(a: seq<Snap>, b: seq<Snap>)
    requires multiset(a) == multiset(b) && DistinctIds(b)
    ensures DistinctIds(a)
  {
    DistinctIdsOnce(b);
    forall i, j | 0 <= i < j < |a| ensures a[i].id != a[j].id {
      assert a[i] in multiset(b) && a[j] in multiset(b);
      if a[i] == a[j] {
        RepeatCounts(a, i, j);
      }
    }
  }
}
