/**
 * The bounded queue: a capacity-limited map from issue id to Issue that
 * admits only issues of one status, with an event channel. Push events are
 * delivered during `push`; pop events wait in a pending list until the call
 * that popped has returned.
 */
module Queues {
  import opened Values
  import opened Issues

  /** What the queue's channel carries. Payloads are value copies. */
  datatype Event =
    | IssuePush(issue: Snap)
    | IssuePop(issue: Snap)
    | IssueWork(issue: Snap)
    | WorkerStress(stress: real)

  datatype QueueConfig = QueueConfig(gate: string, maxSize: int, allowedToEmit: bool)

  predicate Distinct(ks: seq<int>) {
    forall i, j :: 0 <= i < j < |ks| ==> ks[i] != ks[j]
  }

  /** `ks` without the members of `s`, order kept. */
  function Without(ks: seq<int>, s: set<int>): (r: seq<int>)
    ensures forall x :: x in r <==> x in ks && x !in s
    ensures |r| <= |ks|
    ensures Distinct(ks) ==> Distinct(r)
  {
    if ks == [] then []
    else (if ks[0] in s then [] else [ks[0]]) + Without(ks[1..], s)
  }

  lemma {:induction false} WithoutWithout(ks: seq<int>, a: set<int>, b: set<int>)
    ensures Without(Without(ks, a), b) == Without(ks, a + b)
  {
    if ks != [] {
      var h, t := ks[0], ks[1..];
      WithoutWithout(t, a, b);
      if h in a {
        assert Without(ks, a) == Without(t, a);
        assert Without(ks, a + b) == Without(t, a + b);
      } else {
        var w := Without(ks, a);
        assert w == [h] + Without(t, a);
        assert w[0] == h && w[1..] == Without(t, a);
        assert Without(w, b) == (if h in b then [] else [h]) + Without(Without(t, a), b);
        assert Without(ks, a + b) == (if h in b then [] else [h]) + Without(t, a + b);
      }
    }
  }

  /** Each issue is stored under its own id, and `keys` lists the stored
      ids once each. */
  ghost predicate Coherent(items: map<int, Issue>, keys: seq<int>) {
    && (forall id :: id in items ==> items[id].id == id)
    && Distinct(keys)
    && |keys| == |items|
    && (forall i :: 0 <= i < |keys| ==> keys[i] in items)
    && (forall id :: id in items ==> id in keys)
  }

  /** Removing one stored id keeps the map and its key list coherent. */
  lemma RemoveCoherent(items: map<int, Issue>, keys: seq<int>, id: int)
    requires Coherent(items, keys) && id in items
    ensures Coherent(items - {id}, Without(keys, {id}))
    ensures |items - {id}| == |items| - 1
  {
    var items', keys' := items - {id}, Without(keys, {id});
    MapRemoveSize(items, id);
    WithoutOne(keys, id);
    forall i | 0 <= i < |keys'| ensures keys'[i] in items' {
      assert keys'[i] in keys';
    }
  }

  /** Removing a member of a duplicate-free sequence shortens it by one. */
  lemma {:induction false} WithoutOne(ks: seq<int>, x: int)
    requires Distinct(ks) && x in ks
    ensures |Without(ks, {x})| == |ks| - 1
  {
    if ks[0] == x {
      assert x !in ks[1..] by {
        assert forall k :: 0 <= k < |ks| - 1 ==> ks[1..][k] == ks[k + 1];
      }
      WithoutNothing(ks[1..], x);
    } else {
      assert Distinct(ks[1..]);
      WithoutOne(ks[1..], x);
    }
  }

  lemma {:induction false} WithoutNone(ks: seq<int>)
    ensures Without(ks, {}) == ks
  {
    if ks != [] {
      WithoutNone(ks[1..]);
      assert ks == [ks[0]] + ks[1..];
    }
  }

  lemma {:induction false} WithoutNothing(ks: seq<int>, x: int)
    requires x !in ks
    ensures Without(ks, {x}) == ks
  {
    if ks != [] {
      WithoutNothing(ks[1..], x);
      assert ks == [ks[0]] + ks[1..];
    }
  }

  lemma MapRemoveSize(m: map<int, Issue>, k: int)
    requires k in m
    ensures |m - {k}| == |m| - 1
  {
    assert (m - {k}).Keys == m.Keys - {k};
    assert |m.Keys - {k}| == |m.Keys| - 1;
  }

  /** The checks of the `Queue` factory, in order; a missing third argument
      takes its default `false`. */
  function CheckQueueArgs(status: Value, maxSize: Value, allowedToEmit: Value): (r: Result<QueueConfig>)
    ensures r.Success? <==>
              && IsAllowedStatus(status)
              && IsInteger(maxSize) && 1.0 <= maxSize.n <= 20.0
              && (allowedToEmit.Bool? || allowedToEmit == Undefined)
    ensures r == Failure(TypeError(1)) <==> !IsAllowedStatus(status)
    ensures r == Failure(TypeError(2)) <==>
              IsAllowedStatus(status) && !(IsInteger(maxSize) && 1.0 <= maxSize.n <= 20.0)
    ensures r == Failure(TypeError(3)) <==>
              IsAllowedStatus(status) && IsInteger(maxSize) && 1.0 <= maxSize.n <= 20.0
              && !(allowedToEmit.Bool? || allowedToEmit == Undefined)
    ensures r.Success? ==>
              && r.value.gate == status.s && r.value.maxSize as real == maxSize.n
              && r.value.allowedToEmit == (allowedToEmit == Bool(true))
    ensures r.Failure? ==> r.error in {TypeError(1), TypeError(2), TypeError(3)}
  {
    var emit := if allowedToEmit == Undefined then Bool(false) else allowedToEmit;
    if !IsAllowedStatus(status) then Failure(TypeError(1))
    else if !IsInteger(maxSize) || maxSize.n < 1.0 || maxSize.n > 20.0 then Failure(TypeError(2))
    else if !emit.Bool? then Failure(TypeError(3))
    else Success(QueueConfig(status.s, maxSize.n.Floor, emit.b))
  }

  /** Value copies of `m`'s issues in the order of `ks`. */
  function SnapsOf(m: map<int, Issue>, ks: seq<int>): (r: seq<Snap>)
    requires forall i :: 0 <= i < |ks| ==> ks[i] in m
    reads m.Values
    ensures |r| == |ks|
    ensures forall i :: 0 <= i < |ks| ==> r[i] == m[ks[i]].Snapshot()
  {
    if ks == [] then [] else SnapsOf(m, ks[..|ks| - 1]) + [m[ks[|ks| - 1]].Snapshot()]
  }

  /** The pop events for `ps`, each copied when it is delivered. */
  function PopEvents(ps: seq<Issue>): (r: seq<Event>)
    reads set i | 0 <= i < |ps| :: ps[i]
    ensures |r| == |ps|
    ensures forall i :: 0 <= i < |ps| ==> r[i] == IssuePop(ps[i].Snapshot())
  {
    if ps == [] then [] else PopEvents(ps[..|ps| - 1]) + [IssuePop(ps[|ps| - 1].Snapshot())]
  }

  class Queue {
    const gate: string
    const maxSize: int
    const allowedToEmit: bool
    /** The `Map` from id to issue ... */
    var items: map<int, Issue>
    /** ... and its keys in insertion order, the order `getIssues` lists them. */
    var keys: seq<int>
    /** Events delivered so far, in order. */
    var events: seq<Event>
    /** Popped issues whose pop event is still to be delivered. */
    var pendingPops: seq<Issue>

    ghost predicate Valid()
      reads this
    {
      && gate in AllowedStatuses
      && 1 <= maxSize <= 20
      && |items| <= maxSize
      && Coherent(items, keys)
    }

    constructor (config: QueueConfig)
      requires config.gate in AllowedStatuses && 1 <= config.maxSize <= 20
      ensures Valid()
      ensures gate == config.gate && maxSize == config.maxSize && allowedToEmit == config.allowedToEmit
      ensures items == map[] && keys == [] && events == [] && pendingPops == []
    {
      gate, maxSize, allowedToEmit := config.gate, config.maxSize, config.allowedToEmit;
      items, keys, events, pendingPops := map[], [], [], [];
    }

    /** `getSize` */
    function Size(): (n: nat)
      reads this
      requires Valid()
      ensures n <= maxSize
    {
      |items|
    }

    /** `getIssues`: value copies of the queued issues in insertion order. */
    function Snapshots(): (r: seq<Snap>)
      reads this, items.Values
      requires Valid()
      ensures |r| == |keys|
      ensures forall i :: 0 <= i < |keys| ==> r[i] == items[keys[i]].Snapshot()
    {
      SnapsOf(items, keys)
    }

    /** The emitter has `emit`/`trigger` only for a queue built with
        `allowedToEmit`. */
    predicate CanEmit() {
      allowedToEmit
    }

    /** `push`: a full queue is refused before anything else is looked at; an
        issue of another status is refused next. An accepted issue is stored
        under its id (replacing an entry with that id) and its push event is
        delivered at once. */
    method Push(issue: Issue) returns (r: Outcome)
      requires Valid()
      modifies this
      ensures Valid()
      ensures |old(items)| >= maxSize ==> r == Fail(RangeError)
      ensures |old(items)| < maxSize && issue.status != gate ==> r == Fail(TypeError(1))
      ensures r.Pass? <==> |old(items)| < maxSize && issue.status == gate
      ensures r.Fail? ==> items == old(items) && keys == old(keys) && events == old(events)
      ensures r.Pass? ==>
                && items == old(items)[issue.id := issue]
                && keys == (if issue.id in old(items) then old(keys) else old(keys) + [issue.id])
                && events == old(events) + [IssuePush(issue.Snapshot())]
                && |items| == (if issue.id in old(items) then |old(items)| else |old(items)| + 1)
      ensures pendingPops == old(pendingPops)
    {
      if |items| >= maxSize {
        return Fail(RangeError);
      }
      if issue.status != gate {
        return Fail(TypeError(1));
      }
      if issue.id !in items {
        keys := keys + [issue.id];
      }
      items := items[issue.id := issue];
      events := events + [IssuePush(issue.Snapshot())];
      r := Pass;
    }

    /** `popById`: an absent id is refused and nothing changes; otherwise
        exactly that entry leaves and is returned, and its pop event is
        queued for delivery after the return. */
    method PopById(id: int) returns (r: Result<Issue>)
      requires Valid()
      modifies this
      ensures Valid()
      ensures id !in old(items) ==> r == Failure(ReferenceError) && unchanged(this)
      ensures id in old(items) ==>
                && r == Success(old(items)[id])
                && items == old(items) - {id}
                && keys == Without(old(keys), {id})
                && |items| == |old(items)| - 1
                && pendingPops == old(pendingPops) + [old(items)[id]]
                && events == old(events)
    {
      if id !in items {
        return Failure(ReferenceError);
      }
      var issue := items[id];
      RemoveCoherent(items, keys, id);
      items, keys := items - {id}, Without(keys, {id});
      pendingPops := pendingPops + [issue];
      r := Success(issue);
    }

    /** The next tick: pending pop events are delivered, each carrying a copy
        of the issue as it is at delivery. */
    method Deliver()
      requires Valid()
      modifies this
      ensures Valid()
      ensures events == old(events) + PopEvents(old(pendingPops)) && pendingPops == []
      ensures items == old(items) && keys == old(keys)
    {
      events := events + PopEvents(pendingPops);
      pendingPops := [];
    }

    /** `emitter.emit` of a queue built with `allowedToEmit`. */
    method Emit(e: Event)
      requires Valid() && CanEmit()
      modifies this
      ensures Valid()
      ensures events == old(events) + [e]
      ensures items == old(items) && keys == old(keys) && pendingPops == old(pendingPops)
    {
      events := events + [e];
    }
  }

  /** The `Queue` factory: the arguments are checked, then an empty queue is
      built. */
  method NewQueue(status: Value, maxSize: Value, allowedToEmit: Value) returns (r: Result<Queue>)
    ensures r.Failure? ==> CheckQueueArgs(status, maxSize, allowedToEmit) == Failure(r.error)
    ensures r.Success? <==> CheckQueueArgs(status, maxSize, allowedToEmit).Success?
    ensures r.Success? ==>
              && fresh(r.value) && r.value.Valid()
              && QueueConfig(r.value.gate, r.value.maxSize, r.value.allowedToEmit)
                 == CheckQueueArgs(status, maxSize, allowedToEmit).value
              && r.value.items == map[] && r.value.keys == []
              && r.value.events == [] && r.value.pendingPops == []
  {
    var check := CheckQueueArgs(status, maxSize, allowedToEmit);
    if check.Failure? {
      return Failure(check.error);
    }
    var q := new Queue(check.value);
    r := Success(q);
  }
}
