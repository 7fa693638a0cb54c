/**
 Admission control: a priority queue in front of four capacity limits. `heapq` is used through its contract: the
 list may be arranged in any way, and a pop removes the smallest item.
 */
module Admission {
  import opened Prelude
  import Runs
  import Seqs

  datatype Priority = Hotfix | Manual | Normal | Background
  {
    function Rank(): nat {
      match this case Hotfix => 0 case Manual => 10 case Normal => 20 case Background => 30
    }
  }

  datatype Limits = Limits(globalActive: int, perRepo: int, perActor: int, perBlueprint: int, queueSize: int)

  datatype Item = Item(priority: Priority, sequence: nat, workId: string, repo: string, actor: string, blueprint: string)

  type Active = map<string, Item>

  datatype Reason = Duplicate | Admitted | QueueFull | Queued(position: nat)

  predicate Less(a: Item, b: Item) {
    a.priority.Rank() < b.priority.Rank()
    || (a.priority.Rank() == b.priority.Rank() && a.sequence < b.sequence)
  }

  /** Hotfixes go first, then manual, normal and background work; within one priority, what was submitted first. */
  lemma OrderOfUrgency(a: Item, b: Item)
    ensures Less(a, b) <==>
              if a.priority == b.priority then a.sequence < b.sequence
              else a.priority.Hotfix? || b.priority.Background? || (a.priority.Manual? && b.priority.Normal?)
  {
  }

  lemma UrgencyOfTheLeast(item: Item, q: seq<Item>)
    requires forall j :: 0 <= j < |q| ==> Less(item, q[j])
    ensures forall x :: x in q ==>
              && (x.priority.Hotfix? ==> item.priority.Hotfix?)
              && (x.priority.Manual? ==> item.priority.Hotfix? || item.priority.Manual?)
              && (item.priority.Background? ==> x.priority.Background?)
              && (x.priority == item.priority ==> item.sequence < x.sequence)
  {
  }

  predicate SameKind(a: Item, b: Item) { a.repo == b.repo && a.actor == b.actor && a.blueprint == b.blueprint }

  function OfRepo(active: Active, repo: string): set<string> { set id | id in active && active[id].repo == repo }

  function OfActor(active: Active, actor: string): set<string> { set id | id in active && active[id].actor == actor }

  function OfBlueprint(active: Active, blueprint: string): set<string> {
    set id | id in active && active[id].blueprint == blueprint
  }

  predicate CapacityFor(lim: Limits, active: Active, repo: string, actor: string, blueprint: string) {
    && |active| < lim.globalActive
    && |OfRepo(active, repo)| < lim.perRepo
    && |OfActor(active, actor)| < lim.perActor
    && |OfBlueprint(active, blueprint)| < lim.perBlueprint
  }

  predicate Fits(lim: Limits, active: Active, x: Item) { CapacityFor(lim, active, x.repo, x.actor, x.blueprint) }

  /** There is capacity exactly while all four counts of active work are below their limits. */
  lemma CapacityIsRoomUnderEveryLimit(lim: Limits, active: Active, repo: string, actor: string, blueprint: string)
    ensures CapacityFor(lim, active, repo, actor, blueprint) <==>
              && |active| < lim.globalActive
              && |set id | id in active && active[id].repo == repo| < lim.perRepo
              && |set id | id in active && active[id].actor == actor| < lim.perActor
              && |set id | id in active && active[id].blueprint == blueprint| < lim.perBlueprint
  {
  }

  // ---- the queue in order ----

  function Insert(q: seq<Item>, x: Item): seq<Item> {
    if q == [] then [x] else if Less(x, q[0]) then [x] + q else [q[0]] + Insert(q[1..], x)
  }

  function Sorted(q: seq<Item>): seq<Item> {
    if q == [] then [] else Insert(Sorted(q[..|q| - 1]), q[|q| - 1])
  }

  ghost predicate Increasing(q: seq<Item>) { forall i, j :: 0 <= i < j < |q| ==> Less(q[i], q[j]) }

  ghost predicate DistinctKeys(q: seq<Item>) {
    forall i, j :: 0 <= i < j < |q| ==> q[i].sequence != q[j].sequence
  }

  lemma {:induction false} InsertMultiset(q: seq<Item>, x: Item)
    ensures multiset(Insert(q, x)) == multiset(q) + multiset{x}
  {
    if q != [] && !Less(x, q[0]) {
      InsertMultiset(q[1..], x);
      assert q == [q[0]] + q[1..];
    }
  }

  lemma {:induction false} SortedMultiset(q: seq<Item>)
    ensures multiset(Sorted(q)) == multiset(q)
  {
    if q != [] {
      var front, last := q[..|q| - 1], q[|q| - 1];
      SortedMultiset(front);
      InsertMultiset(Sorted(front), last);
      assert q == front + [last];
      assert multiset(q) == multiset(front) + multiset{last};
    }
  }

  lemma {:induction false} InsertIncreasing(q: seq<Item>, x: Item)
    requires Increasing(q) && forall i :: 0 <= i < |q| ==> q[i].sequence != x.sequence
    ensures Increasing(Insert(q, x))
  {
    if q != [] && !Less(x, q[0]) {
      InsertIncreasing(q[1..], x);
      InsertMultiset(q[1..], x);
      var rest := Insert(q[1..], x);
      forall j | 0 <= j < |rest| ensures Less(q[0], rest[j]) {
        assert rest[j] in multiset(rest);
        assert rest[j] == x || rest[j] in q[1..];
      }
    }
  }

  lemma {:induction false} SortedIncreasing(q: seq<Item>)
    requires DistinctKeys(q)
    ensures Increasing(Sorted(q))
  {
    if q != [] {
      var p := q[..|q| - 1];
      SortedIncreasing(p);
      SortedMultiset(p);
      forall i | 0 <= i < |Sorted(p)| ensures Sorted(p)[i].sequence != q[|q| - 1].sequence {
        Seqs.InMultiset(Sorted(p), p, i);
      }
      InsertIncreasing(Sorted(p), q[|q| - 1]);
    }
  }

  /** There is only one increasing arrangement of the same items. */
  lemma {:induction false} IncreasingIsUnique(p: seq<Item>, q: seq<Item>)
    requires Increasing(p) && Increasing(q) && multiset(p) == multiset(q)
    ensures p == q
  {
    assert |p| == |multiset(p)| == |multiset(q)| == |q|;
    if p != [] {
      Seqs.InMultiset(p, q, 0);
      Seqs.InMultiset(q, p, 0);
      assert p[0] == q[0];
      assert p == [p[0]] + p[1..] && q == [q[0]] + q[1..];
      assert multiset(p[1..]) == multiset(p) - multiset{p[0]};
      assert multiset(q[1..]) == multiset(q) - multiset{q[0]};
      IncreasingIsUnique(p[1..], q[1..]);
    }
  }

  // ---- the greedy pass ----

  datatype Pass = Pass(active: Active, admitted: seq<Item>, rest: seq<Item>)

  /** Admit whatever fits, in order; keep everything else, in order. No early exit, no deferral list. */
  function Greedy(lim: Limits, active: Active, q: seq<Item>): Pass
    decreases q
  {
    if q == [] then Pass(active, [], [])
    else if Fits(lim, active, q[0]) then
      var p := Greedy(lim, active[q[0].workId := q[0]], q[1..]);
      Pass(p.active, [q[0]] + p.admitted, p.rest)
    else
      var p := Greedy(lim, active, q[1..]);
      Pass(p.active, p.admitted, [q[0]] + p.rest)
  }

  lemma {:induction false} GreedyWhenFull(lim: Limits, active: Active, q: seq<Item>)
    requires |active| >= lim.globalActive
    ensures Greedy(lim, active, q) == Pass(active, [], q)
    decreases q
  {
    if q != [] { GreedyWhenFull(lim, active, q[1..]); }
  }

  function AfterHead(lim: Limits, active: Active, x: Item): Active {
    if Fits(lim, active, x) then active[x.workId := x] else active
  }

  lemma {:induction false} GreedyConserves(lim: Limits, active: Active, q: seq<Item>)
    ensures var p := Greedy(lim, active, q); multiset(p.admitted) + multiset(p.rest) == multiset(q)
    decreases q
  {
    if q != [] {
      GreedyConserves(lim, AfterHead(lim, active, q[0]), q[1..]);
      assert q == [q[0]] + q[1..];
    }
  }

  lemma GreedyMember(lim: Limits, active: Active, q: seq<Item>, y: Item)
    requires var p := Greedy(lim, active, q); y in p.admitted || y in p.rest
    ensures y in q
  {
    var p := Greedy(lim, active, q);
    GreedyConserves(lim, active, q);
    assert y in multiset(p.admitted) + multiset(p.rest);
    assert y in multiset(q);
  }

  lemma {:induction false} GreedyKeepsOrder(lim: Limits, active: Active, q: seq<Item>)
    requires Increasing(q)
    ensures Increasing(Greedy(lim, active, q).rest) && Increasing(Greedy(lim, active, q).admitted)
    decreases q
  {
    if q != [] {
      var a := AfterHead(lim, active, q[0]);
      GreedyKeepsOrder(lim, a, q[1..]);
      var p := Greedy(lim, a, q[1..]);
      forall x | x in p.rest || x in p.admitted ensures Less(q[0], x) { GreedyMember(lim, a, q[1..], x); }
    }
  }

  // ---- the controller's operations ----

  datatype St = St(queue: seq<Item>, active: Active, sequence: nat)

  predicate QueuedId(q: seq<Item>, workId: string) { exists i :: 0 <= i < |q| && q[i].workId == workId }

  function Position(q: seq<Item>, workId: string): nat {
    if q == [] then 0 else if q[0].workId == workId then 1 else 1 + Position(q[1..], workId)
  }

  function SubmitOp(lim: Limits, st: St, workId: string, repo: string, actor: string, blueprint: string,
                    priority: Priority): (St, Reason)
  {
    var x := Item(priority, st.sequence + 1, workId, repo, actor, blueprint);
    if workId in st.active || QueuedId(st.queue, workId) then (st, Duplicate)
    else if Fits(lim, st.active, x) then (St(st.queue, st.active[workId := x], x.sequence), Admitted)
    else if |st.queue| >= lim.queueSize then (st, QueueFull)
    else (St(Insert(st.queue, x), st.active, x.sequence), Queued(Position(Insert(st.queue, x), workId)))
  }

  function DrainOp(lim: Limits, st: St): (St, seq<Item>) {
    var p := Greedy(lim, st.active, st.queue);
    (St(p.rest, p.active, st.sequence), p.admitted)
  }

  function CompleteOp(lim: Limits, st: St, workId: string): (St, seq<Item>) {
    DrainOp(lim, st.(active := st.active - {workId}))
  }

  // ---- what every operation keeps ----

  ghost predicate WithinLimits(lim: Limits, active: Active) {
    && |active| <= Max(lim.globalActive, 0)
    && (forall r :: |OfRepo(active, r)| <= Max(lim.perRepo, 0))
    && (forall a :: |OfActor(active, a)| <= Max(lim.perActor, 0))
    && (forall b :: |OfBlueprint(active, b)| <= Max(lim.perBlueprint, 0))
  }

  ghost predicate NothingFits(lim: Limits, active: Active, q: seq<Item>) {
    forall i :: 0 <= i < |q| ==> !Fits(lim, active, q[i])
  }

  ghost predicate DistinctIds(active: Active, q: seq<Item>) {
    && (forall i, j :: 0 <= i < j < |q| ==> q[i].workId != q[j].workId)
    && (forall i :: 0 <= i < |q| ==> q[i].workId !in active)
    && (forall id :: id in active ==> active[id].workId == id)
  }

  ghost predicate Orderly(st: St) {
    && Increasing(st.queue)
    && forall i :: 0 <= i < |st.queue| ==> st.queue[i].sequence <= st.sequence
  }

  ghost predicate Inv(lim: Limits, st: St) {
    && WithinLimits(lim, st.active)
    && NothingFits(lim, st.active, st.queue)
    && DistinctIds(st.active, st.queue)
    && Orderly(st)
    && |st.queue| <= Max(lim.queueSize, 0)
  }

  lemma RepoUseAfterAdmit(active: Active, x: Item, r: string)
    requires x.workId !in active
    ensures |OfRepo(active[x.workId := x], r)| == |OfRepo(active, r)| + if r == x.repo then 1 else 0
  {
    assert OfRepo(active[x.workId := x], r) == OfRepo(active, r) + if r == x.repo then {x.workId} else {};
  }

  lemma ActorUseAfterAdmit(active: Active, x: Item, a: string)
    requires x.workId !in active
    ensures |OfActor(active[x.workId := x], a)| == |OfActor(active, a)| + if a == x.actor then 1 else 0
  {
    assert OfActor(active[x.workId := x], a) == OfActor(active, a) + if a == x.actor then {x.workId} else {};
  }

  lemma BlueprintUseAfterAdmit(active: Active, x: Item, b: string)
    requires x.workId !in active
    ensures |OfBlueprint(active[x.workId := x], b)| == |OfBlueprint(active, b)| + if b == x.blueprint then 1 else 0
  {
    assert OfBlueprint(active[x.workId := x], b) == OfBlueprint(active, b) + if b == x.blueprint then {x.workId} else {};
  }

  lemma AdmittingStaysWithinLimits(lim: Limits, active: Active, x: Item)
    requires WithinLimits(lim, active) && x.workId !in active && Fits(lim, active, x)
    ensures WithinLimits(lim, active[x.workId := x])
  {
    var more := active[x.workId := x];
    assert more.Keys == active.Keys + {x.workId};
    assert |more| == |more.Keys| == |active.Keys| + 1 == |active| + 1;
    forall r ensures |OfRepo(more, r)| <= Max(lim.perRepo, 0) { RepoUseAfterAdmit(active, x, r); }
    forall a ensures |OfActor(more, a)| <= Max(lim.perActor, 0) { ActorUseAfterAdmit(active, x, a); }
    forall b ensures |OfBlueprint(more, b)| <= Max(lim.perBlueprint, 0) { BlueprintUseAfterAdmit(active, x, b); }
  }

  lemma RemovalStaysWithinLimits(lim: Limits, active: Active, id: string)
    requires WithinLimits(lim, active)
    ensures WithinLimits(lim, active - {id})
  {
    var less := active - {id};
    Seqs.SubsetSize(less.Keys, active.Keys);
    assert |less| == |less.Keys| && |active| == |active.Keys|;
    forall r ensures |OfRepo(less, r)| <= Max(lim.perRepo, 0) { Seqs.SubsetSize(OfRepo(less, r), OfRepo(active, r)); }
    forall a ensures |OfActor(less, a)| <= Max(lim.perActor, 0) { Seqs.SubsetSize(OfActor(less, a), OfActor(active, a)); }
    forall b ensures |OfBlueprint(less, b)| <= Max(lim.perBlueprint, 0) {
      Seqs.SubsetSize(OfBlueprint(less, b), OfBlueprint(active, b));
    }
  }

  /** Admitting more work never makes room. */
  lemma AdmittingMakesNoRoom(lim: Limits, active: Active, x: Item, y: Item)
    requires x.workId !in active && Fits(lim, active[x.workId := x], y)
    ensures Fits(lim, active, y)
  {
    var more := active[x.workId := x];
    assert more.Keys == active.Keys + {x.workId};
    assert |more| == |more.Keys| == |active.Keys| + 1;
    RepoUseAfterAdmit(active, x, y.repo);
    ActorUseAfterAdmit(active, x, y.actor);
    BlueprintUseAfterAdmit(active, x, y.blueprint);
  }

  ghost predicate Grows(active: Active, more: Active) {
    forall id :: id in active ==> id in more && more[id] == active[id]
  }

  /** One element of the pass. */
  lemma HeadStep(lim: Limits, active: Active, q: seq<Item>)
    requires q != [] && WithinLimits(lim, active) && DistinctIds(active, q)
    ensures var a := AfterHead(lim, active, q[0]);
            WithinLimits(lim, a) && DistinctIds(a, q[1..]) && Grows(active, a)
  {
    if Fits(lim, active, q[0]) { AdmittingStaysWithinLimits(lim, active, q[0]); }
  }

  lemma HeadMakesNoRoom(lim: Limits, active: Active, x: Item, y: Item)
    requires x.workId !in active && !Fits(lim, active, y)
    ensures !Fits(lim, AfterHead(lim, active, x), y)
  {
    if Fits(lim, AfterHead(lim, active, x), y) { AdmittingMakesNoRoom(lim, active, x, y); }
  }

  /** The pass keeps the limits and the identifiers, and activates exactly the items it reports. */
  lemma {:induction false} GreedyKeepsLimits(lim: Limits, active: Active, q: seq<Item>)
    requires WithinLimits(lim, active) && DistinctIds(active, q)
    ensures var p := Greedy(lim, active, q);
            && WithinLimits(lim, p.active) && Grows(active, p.active)
            && (forall id :: id in p.active && id !in active ==> p.active[id] in p.admitted)
            && (forall id :: id in p.active ==> p.active[id].workId == id)
    decreases q
  {
    if q != [] {
      HeadStep(lim, active, q);
      GreedyKeepsLimits(lim, AfterHead(lim, active, q[0]), q[1..]);
    }
  }

  lemma {:induction false} GreedySeparates(lim: Limits, active: Active, q: seq<Item>, y: Item)
    requires WithinLimits(lim, active) && DistinctIds(active, q)
    requires y in Greedy(lim, active, q).rest
    ensures y.workId !in Greedy(lim, active, q).active
    decreases q
  {
    HeadStep(lim, active, q);
    var a := AfterHead(lim, active, q[0]);
    if y in Greedy(lim, a, q[1..]).rest {
      GreedySeparates(lim, a, q[1..], y);
    } else {
      HeadStaysOut(lim, a, q[1..], y);
    }
  }

  lemma {:induction false} HeadStaysOut(lim: Limits, active: Active, q: seq<Item>, y: Item)
    requires y.workId !in active && forall i :: 0 <= i < |q| ==> q[i].workId != y.workId
    ensures y.workId !in Greedy(lim, active, q).active
    decreases q
  {
    if q != [] { HeadStaysOut(lim, AfterHead(lim, active, q[0]), q[1..], y); }
  }

  /** A kind that is full stays full for the rest of the pass, and none of it is admitted. */
  lemma {:induction false} FullKindStaysFull(lim: Limits, active: Active, q: seq<Item>, y: Item)
    requires WithinLimits(lim, active) && DistinctIds(active, q) && !Fits(lim, active, y)
    ensures !Fits(lim, Greedy(lim, active, q).active, y)
    ensures forall x :: x in Greedy(lim, active, q).admitted ==> !SameKind(x, y)
    decreases q
  {
    if q != [] {
      HeadStep(lim, active, q);
      HeadMakesNoRoom(lim, active, q[0], y);
      FullKindStaysFull(lim, AfterHead(lim, active, q[0]), q[1..], y);
    }
  }

  /** Work conservation: nothing the pass leaves behind would still fit. */
  lemma {:induction false} GreedyLeavesNothingThatFits(lim: Limits, active: Active, q: seq<Item>)
    requires WithinLimits(lim, active) && DistinctIds(active, q)
    ensures NothingFits(lim, Greedy(lim, active, q).active, Greedy(lim, active, q).rest)
    decreases q
  {
    if q != [] {
      HeadStep(lim, active, q);
      var a := AfterHead(lim, active, q[0]);
      GreedyLeavesNothingThatFits(lim, a, q[1..]);
      if !Fits(lim, active, q[0]) { FullKindStaysFull(lim, active, q[1..], q[0]); }
    }
  }

  /** No overtaking inside a pass: whatever waits does not come before an admitted item of its own kind. */
  lemma {:induction false} GreedyNeverOvertakes(lim: Limits, active: Active, q: seq<Item>, x: Item, y: Item)
    requires WithinLimits(lim, active) && DistinctIds(active, q) && Increasing(q)
    requires x in Greedy(lim, active, q).admitted && y in Greedy(lim, active, q).rest && SameKind(x, y)
    ensures Less(x, y)
    decreases q
  {
    HeadStep(lim, active, q);
    var a := AfterHead(lim, active, q[0]);
    if Fits(lim, active, q[0]) {
      if x in Greedy(lim, a, q[1..]).admitted {
        GreedyNeverOvertakes(lim, a, q[1..], x, y);
      } else {
        GreedyMember(lim, a, q[1..], y);
      }
    } else {
      if y in Greedy(lim, a, q[1..]).rest {
        GreedyNeverOvertakes(lim, a, q[1..], x, y);
      } else {
        // y is the head and did not fit, so nothing of its kind is admitted after it
        FullKindStaysFull(lim, active, q[1..], y);
      }
    }
  }

  // ---- the invariant, operation by operation ----

  lemma RestHasDistinctIds(lim: Limits, active: Active, q: seq<Item>)
    requires WithinLimits(lim, active) && DistinctIds(active, q) && Increasing(q)
    ensures DistinctIds(Greedy(lim, active, q).active, Greedy(lim, active, q).rest)
  {
    var p := Greedy(lim, active, q);
    GreedyKeepsLimits(lim, active, q);
    GreedyKeepsOrder(lim, active, q);
    forall i, j | 0 <= i < j < |p.rest| ensures p.rest[i].workId != p.rest[j].workId {
      GreedyMember(lim, active, q, p.rest[i]);
      GreedyMember(lim, active, q, p.rest[j]);
      assert Less(p.rest[i], p.rest[j]);
    }
    forall i | 0 <= i < |p.rest| ensures p.rest[i].workId !in p.active { GreedySeparates(lim, active, q, p.rest[i]); }
  }

  lemma {:induction false} RestIsShorter(lim: Limits, active: Active, q: seq<Item>)
    ensures |Greedy(lim, active, q).rest| + |Greedy(lim, active, q).admitted| == |q|
    decreases q
  {
    if q != [] { RestIsShorter(lim, AfterHead(lim, active, q[0]), q[1..]); }
  }

  lemma DrainKeepsInv(lim: Limits, st: St)
    requires WithinLimits(lim, st.active) && DistinctIds(st.active, st.queue) && Orderly(st)
    requires |st.queue| <= Max(lim.queueSize, 0)
    ensures Inv(lim, DrainOp(lim, st).0)
  {
    GreedyKeepsLimits(lim, st.active, st.queue);
    GreedyLeavesNothingThatFits(lim, st.active, st.queue);
    RestHasDistinctIds(lim, st.active, st.queue);
    RestIsShorter(lim, st.active, st.queue);
    GreedyKeepsOrder(lim, st.active, st.queue);
    var p := Greedy(lim, st.active, st.queue);
    forall i | 0 <= i < |p.rest| ensures p.rest[i].sequence <= st.sequence {
      GreedyMember(lim, st.active, st.queue, p.rest[i]);
    }
  }

  lemma CompleteKeepsInv(lim: Limits, st: St, workId: string)
    requires Inv(lim, st)
    ensures Inv(lim, CompleteOp(lim, st, workId).0)
  {
    RemovalStaysWithinLimits(lim, st.active, workId);
    DrainKeepsInv(lim, st.(active := st.active - {workId}));
  }

  lemma {:induction false} InsertAt(q: seq<Item>, x: Item) returns (k: nat)
    ensures k <= |q| && Insert(q, x) == q[..k] + [x] + q[k..]
  {
    if q == [] || Less(x, q[0]) {
      k := 0;
    } else {
      var i := InsertAt(q[1..], x);
      k := i + 1;
      assert q[..k] == [q[0]] + q[1..][..i] && q[k..] == q[1..][i..];
    }
  }

  lemma {:induction false} InsertKeepsIdsApart(q: seq<Item>, x: Item)
    requires forall i, j :: 0 <= i < j < |q| ==> q[i].workId != q[j].workId
    requires forall i :: 0 <= i < |q| ==> q[i].workId != x.workId
    ensures var r := Insert(q, x);
            && |r| == |q| + 1
            && (forall i, j :: 0 <= i < j < |r| ==> r[i].workId != r[j].workId)
            && (forall y :: y in r ==> y == x || y in q)
  {
    if q != [] && !Less(x, q[0]) {
      InsertKeepsIdsApart(q[1..], x);
      var r := Insert(q[1..], x);
      forall j | 0 <= j < |r| ensures r[j].workId != q[0].workId { assert r[j] in r; }
    }
  }

  lemma EnqueueKeepsInv(lim: Limits, st: St, x: Item)
    requires Inv(lim, st) && x.workId !in st.active && forall i :: 0 <= i < |st.queue| ==> st.queue[i].workId != x.workId
    requires x.sequence == st.sequence + 1 && !Fits(lim, st.active, x) && |st.queue| < lim.queueSize
    ensures Inv(lim, St(Insert(st.queue, x), st.active, x.sequence))
  {
    var r := Insert(st.queue, x);
    InsertIncreasing(st.queue, x);
    InsertKeepsIdsApart(st.queue, x);
    forall i | 0 <= i < |r| ensures !Fits(lim, st.active, r[i]) && r[i].workId !in st.active && r[i].sequence <= x.sequence {
      assert r[i] in r;
    }
  }

  lemma AdmitKeepsInv(lim: Limits, st: St, x: Item)
    requires Inv(lim, st) && x.workId !in st.active && forall i :: 0 <= i < |st.queue| ==> st.queue[i].workId != x.workId
    requires x.sequence == st.sequence + 1 && Fits(lim, st.active, x)
    ensures Inv(lim, St(st.queue, st.active[x.workId := x], x.sequence))
  {
    AdmittingStaysWithinLimits(lim, st.active, x);
    forall i | 0 <= i < |st.queue| ensures !Fits(lim, st.active[x.workId := x], st.queue[i]) {
      HeadMakesNoRoom(lim, st.active, x, st.queue[i]);
    }
  }

  lemma SubmitKeepsInv(lim: Limits, st: St, workId: string, repo: string, actor: string, blueprint: string, priority: Priority)
    requires Inv(lim, st)
    ensures Inv(lim, SubmitOp(lim, st, workId, repo, actor, blueprint, priority).0)
  {
    var x := Item(priority, st.sequence + 1, workId, repo, actor, blueprint);
    if workId !in st.active && !QueuedId(st.queue, workId) {
      if Fits(lim, st.active, x) { AdmitKeepsInv(lim, st, x); }
      else if |st.queue| < lim.queueSize { EnqueueKeepsInv(lim, st, x); }
    }
  }

  /** A queued submission is told its exact place: everything before it is smaller, everything after it larger. */
  lemma QueuePositionIsExact(lim: Limits, st: St, workId: string, repo: string, actor: string, blueprint: string,
                             priority: Priority)
    requires Inv(lim, st)
    requires SubmitOp(lim, st, workId, repo, actor, blueprint, priority).1.Queued?
    ensures var (st', r) := SubmitOp(lim, st, workId, repo, actor, blueprint, priority);
            && 1 <= r.position <= |st'.queue| == |st.queue| + 1
            && st'.queue[r.position - 1] == Item(priority, st.sequence + 1, workId, repo, actor, blueprint)
            && (forall i :: 0 <= i < r.position - 1 ==> Less(st'.queue[i], st'.queue[r.position - 1]))
            && (forall i :: r.position <= i < |st'.queue| ==> Less(st'.queue[r.position - 1], st'.queue[i]))
            && multiset(st'.queue) == multiset(st.queue) + multiset{st'.queue[r.position - 1]}
  {
    var x := Item(priority, st.sequence + 1, workId, repo, actor, blueprint);
    SubmitQueues(lim, st, x);
    InsertLength(st.queue, x);
    InsertIncreasing(st.queue, x);
    InsertKeepsIdsApart(st.queue, x);
    InsertedPosition(st.queue, x);
  }

  lemma SubmitQueues(lim: Limits, st: St, x: Item)
    requires x.sequence == st.sequence + 1
    requires SubmitOp(lim, st, x.workId, x.repo, x.actor, x.blueprint, x.priority).1.Queued?
    ensures SubmitOp(lim, st, x.workId, x.repo, x.actor, x.blueprint, x.priority) ==
            (St(Insert(st.queue, x), st.active, x.sequence), Queued(Position(Insert(st.queue, x), x.workId)))
  {
  }

  lemma {:induction false} InsertLength(q: seq<Item>, x: Item)
    ensures |Insert(q, x)| == |q| + 1
  {
    if q != [] && !Less(x, q[0]) { InsertLength(q[1..], x); }
  }

  lemma InsertedPosition(q: seq<Item>, x: Item)
    requires Increasing(Insert(q, x))
    requires forall i, j :: 0 <= i < j < |Insert(q, x)| ==> Insert(q, x)[i].workId != Insert(q, x)[j].workId
    ensures var r, p := Insert(q, x), Position(Insert(q, x), x.workId);
            && 1 <= p <= |r| && r[p - 1] == x
            && multiset(r) == multiset(q) + multiset{x}
            && (forall i :: 0 <= i < p - 1 ==> Less(r[i], x))
            && (forall i :: p <= i < |r| ==> Less(x, r[i]))
  {
    InsertMultiset(q, x);
    var k := InsertAt(q, x);
    PositionOf(Insert(q, x), k);
  }

  lemma {:induction false} PositionOf(q: seq<Item>, k: nat)
    requires k < |q| && forall i, j :: 0 <= i < j < |q| ==> q[i].workId != q[j].workId
    ensures Position(q, q[k].workId) == k + 1
  {
    if k > 0 { PositionOf(q[1..], k - 1); }
  }

  /** What a submission is told, and what it changes. */
  lemma SubmitAnswers(lim: Limits, st: St, workId: string, repo: string, actor: string, blueprint: string, priority: Priority)
    ensures var (st', r) := SubmitOp(lim, st, workId, repo, actor, blueprint, priority);
            var x := Item(priority, st.sequence + 1, workId, repo, actor, blueprint);
            var known := workId in st.active || exists i :: 0 <= i < |st.queue| && st.queue[i].workId == workId;
            var room := CapacityFor(lim, st.active, repo, actor, blueprint);
            && (r == Duplicate <==> known)
            && (r == Admitted <==> !known && room)
            && (r == QueueFull <==> !known && !room && |st.queue| >= lim.queueSize)
            && (r.Queued? <==> !known && !room && |st.queue| < lim.queueSize)
            && (r in {Duplicate, QueueFull} ==> st' == st)
            && (r == Admitted ==> st' == St(st.queue, st.active[workId := x], st.sequence + 1))
            && (r.Queued? ==> st'.active == st.active && st'.sequence == st.sequence + 1)
  {
  }

  // ---- what a completion sets free ----

  lemma {:induction false} GreedyActivatesWhatItAdmits(lim: Limits, active: Active, q: seq<Item>)
    requires WithinLimits(lim, active) && DistinctIds(active, q)
    ensures var p := Greedy(lim, active, q);
            forall x :: x in p.admitted ==> x.workId in p.active && p.active[x.workId] == x
    decreases q
  {
    if q != [] {
      HeadStep(lim, active, q);
      var a := AfterHead(lim, active, q[0]);
      GreedyActivatesWhatItAdmits(lim, a, q[1..]);
      GreedyKeepsLimits(lim, a, q[1..]);
    }
  }

  lemma {:induction false} GreedyTakesTheFirstThatFits(lim: Limits, active: Active, q: seq<Item>, i: nat)
    requires i < |q| && Fits(lim, active, q[i]) && forall k :: 0 <= k < i ==> !Fits(lim, active, q[k])
    ensures var p := Greedy(lim, active, q); p.admitted != [] && p.admitted[0] == q[i]
    decreases q
  {
    if i > 0 { GreedyTakesTheFirstThatFits(lim, active, q[1..], i - 1); }
  }

  lemma {:induction false} GreedyWhenNothingFits(lim: Limits, active: Active, q: seq<Item>)
    requires NothingFits(lim, active, q)
    ensures Greedy(lim, active, q) == Pass(active, [], q)
    decreases q
  {
    if q != [] { GreedyWhenNothingFits(lim, active, q[1..]); }
  }

  lemma PassAdmitsFromTheQueue(lim: Limits, active: Active, q: seq<Item>)
    requires WithinLimits(lim, active) && DistinctIds(active, q)
    ensures var p := Greedy(lim, active, q);
            && (forall id :: id in active ==> id in p.active && p.active[id] == active[id])
            && (forall x :: x in p.admitted ==> x in q && x.workId in p.active && p.active[x.workId] == x)
            && (forall id :: id in p.active ==> id in active || p.active[id] in p.admitted)
            && multiset(p.admitted) + multiset(p.rest) == multiset(q)
  {
    GreedyKeepsLimits(lim, active, q);
    GreedyActivatesWhatItAdmits(lim, active, q);
    GreedyConserves(lim, active, q);
    forall x | x in Greedy(lim, active, q).admitted ensures x in q { GreedyMember(lim, active, q, x); }
  }

  /**
   A completion frees exactly its own place. The completed work is not active any longer, all other active work is, and
   beside it exactly the items reported as admitted, which come from the queue. Completing work that was not active
   changes nothing.
   */
  lemma CompletionFreesItsPlace(lim: Limits, st: St, workId: string)
    requires Inv(lim, st)
    ensures var (st', admitted) := CompleteOp(lim, st, workId);
            && workId !in st'.active
            && (forall id :: id in st.active && id != workId ==> id in st'.active && st'.active[id] == st.active[id])
            && (forall x :: x in admitted ==> x in st.queue && x.workId in st'.active && st'.active[x.workId] == x)
            && (forall id :: id in st'.active ==> (id in st.active && id != workId) || st'.active[id] in admitted)
            && multiset(admitted) + multiset(st'.queue) == multiset(st.queue)
            && (workId !in st.active ==> st' == st && admitted == [])
  {
    var left := st.active - {workId};
    RemovalStaysWithinLimits(lim, st.active, workId);
    PassAdmitsFromTheQueue(lim, left, st.queue);
    if workId !in st.active {
      assert left == st.active;
      GreedyWhenNothingFits(lim, left, st.queue);
    } else {
      CompletedIsNotReadmitted(lim, st, workId);
    }
  }

  /** Of what waits, the first item for which the completion makes room is admitted, before anything else. */
  lemma CompletionAdmitsTheFirstThatFits(lim: Limits, st: St, workId: string, i: nat)
    requires i < |st.queue| && Fits(lim, st.active - {workId}, st.queue[i])
    requires forall k :: 0 <= k < i ==> !Fits(lim, st.active - {workId}, st.queue[k])
    ensures var admitted := CompleteOp(lim, st, workId).1; admitted != [] && admitted[0] == st.queue[i]
  {
    GreedyTakesTheFirstThatFits(lim, st.active - {workId}, st.queue, i);
  }

  lemma CompletedIsNotReadmitted(lim: Limits, st: St, workId: string)
    requires Inv(lim, st) && workId in st.active
    ensures workId !in Greedy(lim, st.active - {workId}, st.queue).active
  {
    HeadStaysOut(lim, st.active - {workId}, st.queue, st.active[workId]);
  }

  // ---- nothing waits for ever ----

  ghost predicate PositiveLimits(lim: Limits) {
    lim.globalActive >= 1 && lim.perRepo >= 1 && lim.perActor >= 1 && lim.perBlueprint >= 1
  }

  /** Something is at work whenever something waits. */
  lemma WaitingMeansWorking(lim: Limits, st: St)
    requires Inv(lim, st) && PositiveLimits(lim) && st.queue != []
    ensures st.active != map[]
  {
    if st.active == map[] {
      var x := st.queue[0];
      assert OfRepo(st.active, x.repo) == {} && OfActor(st.active, x.actor) == {} && OfBlueprint(st.active, x.blueprint) == {};
      assert Fits(lim, st.active, x);
    }
  }

  lemma {:induction false} GreedyCounts(lim: Limits, active: Active, q: seq<Item>)
    requires WithinLimits(lim, active) && DistinctIds(active, q)
    ensures var p := Greedy(lim, active, q); |p.active| + |p.rest| == |active| + |q|
    decreases q
  {
    if q != [] {
      HeadStep(lim, active, q);
      GreedyCounts(lim, AfterHead(lim, active, q[0]), q[1..]);
      if Fits(lim, active, q[0]) { assert active[q[0].workId := q[0]].Keys == active.Keys + {q[0].workId}; }
    }
  }

  function Work(st: St): nat { |st.active| + |st.queue| }

  lemma CompletionReducesWork(lim: Limits, st: St, workId: string)
    requires Inv(lim, st) && workId in st.active
    ensures Work(CompleteOp(lim, st, workId).0) == Work(st) - 1
  {
    var left := st.active - {workId};
    assert left.Keys == st.active.Keys - {workId};
    assert |left| == |left.Keys| == |st.active.Keys| - 1;
    RemovalStaysWithinLimits(lim, st.active, workId);
    GreedyCounts(lim, left, st.queue);
  }

  /** Active work completes, one piece after another, in any order; `ids[k]` is the k-th. */
  ghost predicate Completions(lim: Limits, states: seq<St>, ids: seq<string>) {
    && |states| == |ids| + 1
    && forall k :: 0 <= k < |ids| ==> CompletesOne(lim, states[k], ids[k], states[k + 1])
  }

  ghost predicate CompletesOne(lim: Limits, st: St, workId: string, st': St) {
    workId in st.active && st' == CompleteOp(lim, st, workId).0
  }

  /** As long as something is left, something is active and can complete. */
  lemma SomethingCanComplete(lim: Limits, st: St)
    requires Inv(lim, st) && PositiveLimits(lim) && Work(st) > 0
    ensures exists workId :: CompletesOne(lim, st, workId, CompleteOp(lim, st, workId).0)
  {
    if st.queue != [] { WaitingMeansWorking(lim, st); }
    assert st.active != map[];
    var workId :| workId in st.active;
    assert CompletesOne(lim, st, workId, CompleteOp(lim, st, workId).0);
  }

  /** Nothing waits for ever: once all work there was has been completed, every item that waited has been admitted. */
  lemma {:induction false} EveryWaitingItemIsAdmitted(lim: Limits, states: seq<St>, ids: seq<string>, y: Item)
    requires Completions(lim, states, ids) && Inv(lim, states[0]) && |ids| == Work(states[0]) && y in states[0].queue
    ensures exists k :: 0 < k < |states| && y.workId in states[k].active && states[k].active[y.workId] == y
  {
    var st, st', admitted := states[0], states[1], CompleteOp(lim, states[0], ids[0]).1;
    assert CompletesOne(lim, states[0], ids[0], states[0 + 1]);
    CompletionFreesItsPlace(lim, st, ids[0]);
    CompletionReducesWork(lim, st, ids[0]);
    CompleteKeepsInv(lim, st, ids[0]);
    assert y in multiset(st.queue);
    if y in admitted {
      assert y.workId in states[1].active;
    } else {
      assert y in multiset(st'.queue);
      forall k | 0 <= k < |ids[1..]| ensures CompletesOne(lim, states[1..][k], ids[1..][k], states[1..][k + 1]) {
        assert CompletesOne(lim, states[k + 1], ids[k + 1], states[k + 1 + 1]);
      }
      EveryWaitingItemIsAdmitted(lim, states[1..], ids[1..], y);
      var k :| 0 < k < |states[1..]| && y.workId in states[1..][k].active && states[1..][k].active[y.workId] == y;
      assert states[k + 1] == states[1..][k];
    }
  }

  // ---- whole runs ----

  datatype Op =
    | Submit(workId: string, repo: string, actor: string, blueprint: string, priority: Priority)
    | Complete(workId: string)
    | Drain

  function Apply(lim: Limits, st: St, op: Op): St {
    match op
    case Submit(w, r, a, b, p) => SubmitOp(lim, st, w, r, a, b, p).0
    case Complete(w) => CompleteOp(lim, st, w).0
    case Drain => DrainOp(lim, st).0
  }

  ghost predicate Init(st: St) { st == St([], map[], 0) }

  ghost predicate Next(lim: Limits, st: St, st': St) { exists op :: st' == Apply(lim, st, op) }

  /** No step admits an item while a queued item of the same kind that comes before it keeps waiting. */
  ghost predicate NoOvertaking(st: St, st': St) {
    forall id, i :: id in st'.active && id !in st.active && 0 <= i < |st'.queue|
                    && SameKind(st'.active[id], st'.queue[i])
      ==> Less(st'.active[id], st'.queue[i])
  }

  lemma StepKeepsInv(lim: Limits, st: St, st': St)
    requires Inv(lim, st) && Next(lim, st, st')
    ensures Inv(lim, st')
  {
    var op :| st' == Apply(lim, st, op);
    match op
    case Submit(w, r, a, b, p) => SubmitKeepsInv(lim, st, w, r, a, b, p);
    case Complete(w) => CompleteKeepsInv(lim, st, w);
    case Drain => DrainKeepsInv(lim, st);
  }

  lemma DrainNeverOvertakes(lim: Limits, st: St, before: Active)
    requires WithinLimits(lim, st.active) && DistinctIds(st.active, st.queue) && Orderly(st)
    requires Grows(st.active, before)
    ensures NoOvertaking(st.(active := before), DrainOp(lim, st).0)
  {
    var st' := DrainOp(lim, st).0;
    GreedyKeepsLimits(lim, st.active, st.queue);
    forall id, i | id in st'.active && id !in before && 0 <= i < |st'.queue| && SameKind(st'.active[id], st'.queue[i])
      ensures Less(st'.active[id], st'.queue[i])
    {
      GreedyNeverOvertakes(lim, st.active, st.queue, st'.active[id], st'.queue[i]);
    }
  }

  /** A direct admission overtakes nobody: had anything of its kind been queued, that would have had capacity too. */
  lemma SubmitNeverOvertakes(lim: Limits, st: St, w: string, r: string, a: string, b: string, p: Priority)
    requires Inv(lim, st)
    ensures NoOvertaking(st, SubmitOp(lim, st, w, r, a, b, p).0)
  {
    var x := Item(p, st.sequence + 1, w, r, a, b);
    if w !in st.active && !QueuedId(st.queue, w) && Fits(lim, st.active, x) {
      forall i | 0 <= i < |st.queue| ensures !SameKind(x, st.queue[i]) { assert !Fits(lim, st.active, st.queue[i]); }
    }
  }

  lemma StepNeverOvertakes(lim: Limits, st: St, st': St)
    requires Inv(lim, st) && Next(lim, st, st')
    ensures NoOvertaking(st, st')
  {
    var op :| st' == Apply(lim, st, op);
    match op
    case Submit(w, r, a, b, p) => SubmitNeverOvertakes(lim, st, w, r, a, b, p);
    case Complete(w) =>
      RemovalStaysWithinLimits(lim, st.active, w);
      DrainNeverOvertakes(lim, st.(active := st.active - {w}), st.active);
    case Drain => DrainNeverOvertakes(lim, st, st.active);
  }

  /**
   In every run: after every operation all four limits hold, identifiers are unique, the queue is within its size and
   no queued item has capacity; and no operation lets an item overtake an earlier queued item of its own kind.
   */
  lemma AdmissionIsFairInEveryRun(lim: Limits, run: seq<St>, i: nat)
    requires Runs.IsRun(Init, (s, t) => Next(lim, s, t), run) && i < |run|
    ensures Inv(lim, run[i])
    ensures i + 1 < |run| ==> NoOvertaking(run[i], run[i + 1])
    ensures forall k :: 0 <= k < |run[i].queue| ==>
              var x, active := run[i].queue[k], run[i].active;
              || |active| >= lim.globalActive
              || |set id | id in active && active[id].repo == x.repo| >= lim.perRepo
              || |set id | id in active && active[id].actor == x.actor| >= lim.perActor
              || |set id | id in active && active[id].blueprint == x.blueprint| >= lim.perBlueprint
  {
    var next := (s, t) => Next(lim, s, t);
    var inv := s => Inv(lim, s);
    forall s, t | inv(s) && next(s, t) ensures inv(t) { StepKeepsInv(lim, s, t); }
    Runs.InvariantHolds(Init, next, inv, run, i);
    if i + 1 < |run| {
      assert next(run[i], run[i + 1]);
      StepNeverOvertakes(lim, run[i], run[i + 1]);
    }
    forall k | 0 <= k < |run[i].queue| ensures !Fits(lim, run[i].active, run[i].queue[k]) { }
  }

  // ---- the drain loop against the pass ----

  lemma PartHasDistinctKeys(all: seq<Item>, part: seq<Item>)
    requires DistinctKeys(all) && multiset(part) <= multiset(all)
    ensures DistinctKeys(part)
  {
    forall i, j | 0 <= i < j < |part| ensures part[i].sequence != part[j].sequence {
      Seqs.TwoPlacesInWhole(part, all, i, j);
    }
  }

  lemma SortedKeepsIds(q: seq<Item>, workId: string)
    ensures QueuedId(Sorted(q), workId) <==> QueuedId(q, workId)
  {
    SortedMultiset(q);
    var s := Sorted(q);
    if i :| 0 <= i < |q| && q[i].workId == workId {
      Seqs.InMultiset(q, s, i);
      var j :| 0 <= j < |s| && s[j] == q[i];
    }
    if i :| 0 <= i < |s| && s[i].workId == workId { Seqs.InMultiset(s, q, i); }
  }

  lemma PushedQueue(q: seq<Item>, x: Item)
    ensures Sorted(q + [x]) == Insert(Sorted(q), x) && |Sorted(q)| == |q|
  {
    assert (q + [x])[..|q + [x]| - 1] == q;
    SortedMultiset(q);
    assert |q| == |multiset(q)| == |multiset(Sorted(q))| == |Sorted(q)|;
  }

  /** `SubmitOp` in terms of the unarranged heap list. */
  lemma SubmitByCases(lim: Limits, q: seq<Item>, active: Active, sequence: nat, workId: string, repo: string,
                      actor: string, blueprint: string, priority: Priority)
    ensures var x := Item(priority, sequence + 1, workId, repo, actor, blueprint);
            SubmitOp(lim, St(Sorted(q), active, sequence), workId, repo, actor, blueprint, priority) ==
            if workId in active || QueuedId(q, workId)
            then (St(Sorted(q), active, sequence), Duplicate)
            else if CapacityFor(lim, active, repo, actor, blueprint)
            then (St(Sorted(q), active[workId := x], sequence + 1), Admitted)
            else if |q| >= lim.queueSize then (St(Sorted(q), active, sequence), QueueFull)
            else (St(Sorted(q + [x]), active, sequence + 1), Queued(Position(Sorted(q + [x]), workId)))
  {
    SortedKeepsIds(q, workId);
    PushedQueue(q, Item(priority, sequence + 1, workId, repo, actor, blueprint));
  }

  lemma OneRemoved(q: seq<Item>, k: nat, rest: seq<Item>)
    requires k < |q| && rest == q[..k] + q[k + 1..]
    ensures multiset(q) == multiset(rest) + multiset{q[k]}
    ensures DistinctKeys(q) ==> DistinctKeys(rest)
    ensures forall j :: 0 <= j < |rest| ==> rest[j] == if j < k then q[j] else q[j + 1]
  {
    Seqs.WithoutOne(q, k);
  }

  lemma LeastRemoved(q: seq<Item>, least: nat)
    requires least < |q| && DistinctKeys(q) && forall k :: 0 <= k < |q| && k != least ==> Less(q[least], q[k])
    ensures var rest := q[..least] + q[least + 1..];
            && DistinctKeys(rest)
            && Sorted(q) == [q[least]] + Sorted(rest)
            && multiset(q) == multiset(rest) + multiset{q[least]}
  {
    var item, rest := q[least], q[..least] + q[least + 1..];
    OneRemoved(q, least, rest);
    SortedIncreasing(q);
    SortedMultiset(q);
    SortedIncreasing(rest);
    SortedMultiset(rest);
    forall j | 0 <= j < |Sorted(rest)| ensures Less(item, Sorted(rest)[j]) { Seqs.InMultiset(Sorted(rest), rest, j); }
    IncreasingIsUnique(Sorted(q), [item] + Sorted(rest));
  }

  /** What a pass still to come adds to what has been admitted and deferred so far. */
  function Resume(p: Pass, admitted: seq<Item>, deferred: seq<Item>): Pass {
    Pass(p.active, admitted + p.admitted, deferred + p.rest)
  }

  lemma PassTurn(lim: Limits, active: Active, x: Item, q: seq<Item>, admitted: seq<Item>, deferred: seq<Item>)
    ensures Resume(Greedy(lim, active, [x] + q), admitted, deferred) ==
            if Fits(lim, active, x) then Resume(Greedy(lim, active[x.workId := x], q), admitted + [x], deferred)
            else Resume(Greedy(lim, active, q), admitted, deferred + [x])
  {
    assert ([x] + q)[1..] == q;
    var p := Greedy(lim, AfterHead(lim, active, x), q);
    if Fits(lim, active, x) {
      assert admitted + ([x] + p.admitted) == admitted + [x] + p.admitted;
    } else {
      assert deferred + ([x] + p.rest) == deferred + [x] + p.rest;
    }
  }

  /** Pushing the deferred items back gives a queue whose order is the pass's remainder. */
  lemma RearrangedQueue(all: seq<Item>, left: seq<Item>, deferred: seq<Item>, rest: seq<Item>)
    requires DistinctKeys(all) && multiset(left) + multiset(deferred) <= multiset(all)
    requires rest == deferred + Sorted(left) && Increasing(rest)
    ensures DistinctKeys(left + deferred) && Sorted(left + deferred) == rest
  {
    assert multiset(left + deferred) == multiset(left) + multiset(deferred);
    PartHasDistinctKeys(all, left + deferred);
    SortedIncreasing(left + deferred);
    SortedMultiset(left + deferred);
    SortedMultiset(left);
    IncreasingIsUnique(Sorted(left + deferred), rest);
  }

  /** Between two turns of the drain loop: what is still to come, added to what was done, is the pass from the start. */
  ghost predicate Draining(lim: Limits, all: seq<Item>, start: Pass, sequence: nat, queue: seq<Item>, active: Active,
                           admitted: seq<Item>, deferred: seq<Item>)
  {
    && DistinctKeys(queue)
    && multiset(queue) + multiset(deferred) <= multiset(all)
    && (forall i :: 0 <= i < |queue| ==> queue[i].sequence <= sequence)
    && (forall i :: 0 <= i < |deferred| ==> deferred[i].sequence <= sequence)
    && start == Resume(Greedy(lim, active, Sorted(queue)), admitted, deferred)
  }

  lemma DrainStart(lim: Limits, sequence: nat, queue: seq<Item>, active: Active)
    requires DistinctKeys(queue) && forall i :: 0 <= i < |queue| ==> queue[i].sequence <= sequence
    ensures Draining(lim, queue, Greedy(lim, active, Sorted(queue)), sequence, queue, active, [], [])
  {
  }

  lemma DrainTurn(lim: Limits, all: seq<Item>, start: Pass, sequence: nat, queue: seq<Item>, active: Active,
                  admitted: seq<Item>, deferred: seq<Item>, x: Item, tail: seq<Item>)
    requires Draining(lim, all, start, sequence, queue, active, admitted, deferred)
    requires Sorted(queue) == [x] + Sorted(tail) && multiset(queue) == multiset(tail) + multiset{x}
    requires DistinctKeys(tail) && x.sequence <= sequence
    requires forall i :: 0 <= i < |tail| ==> tail[i].sequence <= sequence
    ensures if Fits(lim, active, x)
            then Draining(lim, all, start, sequence, tail, active[x.workId := x], admitted + [x], deferred)
            else Draining(lim, all, start, sequence, tail, active, admitted, deferred + [x])
  {
    PassTurn(lim, active, x, Sorted(tail), admitted, deferred);
    assert multiset(deferred + [x]) == multiset(deferred) + multiset{x};
  }

  /** What the controller keeps of its heap list: no sequence number twice, none above the counter. */
  ghost predicate ValidQueue(queue: seq<Item>, sequence: nat) {
    DistinctKeys(queue) && forall i :: 0 <= i < |queue| ==> queue[i].sequence <= sequence
  }

  lemma QueuesJoin(queue: seq<Item>, deferred: seq<Item>, sequence: nat)
    requires DistinctKeys(queue + deferred)
    requires forall i :: 0 <= i < |queue| ==> queue[i].sequence <= sequence
    requires forall i :: 0 <= i < |deferred| ==> deferred[i].sequence <= sequence
    ensures ValidQueue(queue + deferred, sequence)
  {
  }

  lemma DrainRest(lim: Limits, before: Active, all: seq<Item>, start: Pass, sequence: nat, queue: seq<Item>,
                  active: Active, admitted: seq<Item>, deferred: seq<Item>)
    requires DistinctKeys(all) && start == Greedy(lim, before, Sorted(all))
    requires Draining(lim, all, start, sequence, queue, active, admitted, deferred)
    requires queue == [] || |active| >= lim.globalActive
    ensures start == Pass(active, admitted, Sorted(queue + deferred))
    ensures DistinctKeys(queue + deferred)
  {
    if |active| >= lim.globalActive { GreedyWhenFull(lim, active, Sorted(queue)); }
    assert start == Pass(active, admitted, deferred + Sorted(queue));
    SortedIncreasing(all);
    GreedyKeepsOrder(lim, before, Sorted(all));
    RearrangedQueue(all, queue, deferred, start.rest);
  }

  /** When the loop has ended, pushing the deferred items back gives the state after the whole pass. */
  lemma DrainEnd(lim: Limits, st: St, all: seq<Item>, start: Pass, queue: seq<Item>, active: Active,
                 admitted: seq<Item>, deferred: seq<Item>)
    requires DistinctKeys(all) && st.queue == Sorted(all) && start == Greedy(lim, st.active, Sorted(all))
    requires Draining(lim, all, start, st.sequence, queue, active, admitted, deferred)
    requires queue == [] || |active| >= lim.globalActive
    ensures ValidQueue(queue + deferred, st.sequence)
    ensures (St(Sorted(queue + deferred), active, st.sequence), admitted) == DrainOp(lim, st)
  {
    DrainRest(lim, st.active, all, start, st.sequence, queue, active, admitted, deferred);
    QueuesJoin(queue, deferred, st.sequence);
  }

  // ---- the controller object ----

  class AdmissionController {
    const limits: Limits
    /** The heap's list, in whatever order `heapq` leaves it. */
    var queue: seq<Item>
    var active: Active
    var sequence: nat

    ghost predicate Valid() reads this { ValidQueue(queue, sequence) }

    ghost function State(): St reads this { St(Sorted(queue), active, sequence) }

    constructor (limits: Limits)
      ensures Valid() && State() == St([], map[], 0) && this.limits == limits
    {
      this.limits := limits;
      queue, active, sequence := [], map[], 0;
    }

    method SubmitWork(workId: string, repo: string, actor: string, blueprint: string, priority: Priority)
      returns (r: Reason)
      requires Valid()
      modifies this
      ensures Valid()
      ensures (State(), r) == SubmitOp(limits, old(State()), workId, repo, actor, blueprint, priority)
    {
      SubmitByCases(limits, queue, active, sequence, workId, repo, actor, blueprint, priority);
      if workId in active || QueuedId(queue, workId) { return Duplicate; }
      if CapacityFor(limits, active, repo, actor, blueprint) {
        sequence := sequence + 1;
        active := active[workId := Item(priority, sequence, workId, repo, actor, blueprint)];
        return Admitted;
      }
      if |queue| >= limits.queueSize { return QueueFull; }
      sequence := sequence + 1;
      queue := queue + [Item(priority, sequence, workId, repo, actor, blueprint)];
      r := Queued(Position(Sorted(queue), workId));
    }

    /** `heapq.heappop`. */
    method HeapPop() returns (item: Item)
      requires Valid() && queue != []
      modifies this`queue
      ensures Valid() && Sorted(old(queue)) == [item] + Sorted(queue)
      ensures multiset(old(queue)) == multiset(queue) + multiset{item} && item.sequence <= sequence
      ensures |queue| == |old(queue)| - 1
      // a hotfix before manual work before normal before background, and within one priority the earlier submission
      ensures forall x :: x in queue ==>
                && (x.priority.Hotfix? ==> item.priority.Hotfix?)
                && (x.priority.Manual? ==> item.priority.Hotfix? || item.priority.Manual?)
                && (item.priority.Background? ==> x.priority.Background?)
                && (x.priority == item.priority ==> item.sequence < x.sequence)
    {
      var least := 0;
      for i := 1 to |queue|
        invariant 0 <= least < i && forall k :: 0 <= k < i && k != least ==> Less(queue[least], queue[k])
      {
        if Less(queue[i], queue[least]) { least := i; }
      }
      item := queue[least];
      LeastRemoved(queue, least);
      UrgencyOfTheLeast(item, queue[..least] + queue[least + 1..]);
      queue := queue[..least] + queue[least + 1..];
    }

    /** One turn of the drain loop: pop the least item, then admit or defer it. */
    method DrainTurnOf(admitted: seq<Item>, deferred: seq<Item>, ghost all: seq<Item>, ghost start: Pass)
      returns (admitted': seq<Item>, deferred': seq<Item>)
      requires queue != [] && Draining(limits, all, start, sequence, queue, active, admitted, deferred)
      modifies this`queue, this`active
      ensures Draining(limits, all, start, sequence, queue, active, admitted', deferred')
      ensures |queue| == |old(queue)| - 1
    {
      ghost var was := queue;
      admitted', deferred' := admitted, deferred;
      var item := HeapPop();
      DrainTurn(limits, all, start, sequence, was, active, admitted, deferred, item, queue);
      if CapacityFor(limits, active, item.repo, item.actor, item.blueprint) {
        active := active[item.workId := item];
        admitted' := admitted + [item];
      } else {
        deferred' := deferred + [item];
      }
    }

    /** The loop itself: turns are taken while there is something to pop and a place that is free. */
    method DrainLoop(ghost all: seq<Item>, ghost start: Pass) returns (admitted: seq<Item>, deferred: seq<Item>)
      requires Draining(limits, all, start, sequence, queue, active, [], [])
      modifies this`queue, this`active
      ensures Draining(limits, all, start, sequence, queue, active, admitted, deferred)
      ensures queue == [] || |active| >= limits.globalActive
    {
      admitted, deferred := [], [];
      while queue != [] && |active| < limits.globalActive
        invariant Draining(limits, all, start, sequence, queue, active, admitted, deferred)
        decreases |queue|
      {
        admitted, deferred := DrainTurnOf(admitted, deferred, all, start);
      }
    }

    method DrainQueue() returns (admitted: seq<Item>)
      requires Valid()
      modifies this
      ensures Valid() && (State(), admitted) == DrainOp(limits, old(State()))
    {
      ghost var all, st := queue, State();
      ghost var start := Greedy(limits, active, Sorted(queue));
      DrainStart(limits, sequence, queue, active);
      var deferred;
      admitted, deferred := DrainLoop(all, start);
      DrainEnd(limits, st, all, start, queue, active, admitted, deferred);
      PushAll(deferred);
    }

    method PushAll(items: seq<Item>)
      modifies this`queue
      ensures queue == old(queue) + items
    {
      for i := 0 to |items|
        invariant queue == old(queue) + items[..i]
      {
        queue := queue + [items[i]];
        assert items[..i + 1] == items[..i] + [items[i]];
      }
      assert items[..|items|] == items;
    }

    method CompleteWork(workId: string) returns (admitted: seq<Item>)
      requires Valid()
      modifies this
      ensures Valid() && (State(), admitted) == CompleteOp(limits, old(State()), workId)
    {
      active := active - {workId};
      admitted := DrainQueue();
    }
  }
}
