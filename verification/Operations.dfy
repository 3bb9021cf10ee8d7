/**
 One operation of the coordinator: its live pods, their cohort slots, the
 retired process incarnations and the sticky ownership of hash partitions.
 */
module Operations {
  import opened Topology
  import opened Channels

  /** A hash partition, shared by every channel of the operation with that partition count. */
  type Key = (int, int)

  datatype Member = Member(lastSeen: int, done: bool, incarnation: Incarnation, slot: int)

  datatype Operation = Operation(
    pods: map<Pod, Member>,
    epochDone: map<Pod, int>,
    owner: map<Key, Pod>,
    pinned: set<Key>,
    replicas: int,
    retired: set<(Pod, Incarnation)>,
    nextSlot: int,
    freeSlots: seq<int>,
    completed: bool)

  const NoOperation := Operation(map[], map[], map[], {}, 0, {}, 0, [], false)

  // --- invariant ----------------------------------------------------------------

  ghost predicate SlotTaken(o: Operation, k: int) {
    exists p :: p in o.pods && o.pods[p].slot == k
  }

  ghost predicate SlotsDisjoint(o: Operation) {
    && (forall p, q | p in o.pods && q in o.pods && o.pods[p].slot == o.pods[q].slot :: p == q)
    && Ascending(o.freeSlots)
    && (forall p | p in o.pods :: o.pods[p].slot !in o.freeSlots)
  }

  ghost predicate SlotsCover(o: Operation) {
    && (forall p | p in o.pods :: 0 <= o.pods[p].slot < o.nextSlot)
    && (forall s | s in o.freeSlots :: 0 <= s < o.nextSlot)
    && (forall k | 0 <= k < o.nextSlot :: k in o.freeSlots || SlotTaken(o, k))
  }

  /** Live and free cohort slots are disjoint, the free ones ascending, and together exactly 0..nextSlot-1. */
  ghost predicate SlotsPartitioned(o: Operation) {
    SlotsDisjoint(o) && SlotsCover(o) && o.nextSlot == |o.pods| + |o.freeSlots|
  }

  /** The active process of a pod is never one that was replaced. */
  ghost predicate ActiveNotRetired(o: Operation) {
    && (forall p | p in o.pods :: (p, o.pods[p].incarnation) !in o.retired)
    && (forall p | p in o.retired :: p.1 != NoSession)
  }

  ghost predicate OwnersLive(o: Operation) {
    && (forall k | k in o.owner :: o.owner[k] in o.pods)
    && o.pinned <= o.owner.Keys
  }

  ghost predicate ValidOperation(o: Operation) {
    SlotsPartitioned(o) && ActiveNotRetired(o) && OwnersLive(o)
  }

  predicate Active(o: Operation, l: Lease) {
    l.pod in o.pods && o.pods[l.pod].incarnation == l.incarnation
  }

  // --- cohort slots -------------------------------------------------------------------

  /** A new pod takes the lowest free slot, or opens the next one. */
  function Joined(o: Operation, pod: Pod, incarnation: Incarnation, now: int): Operation {
    var recycled := o.freeSlots != [];
    o.(pods := o.pods[pod := Member(now, false, incarnation, if recycled then o.freeSlots[0] else o.nextSlot)],
       freeSlots := if recycled then o.freeSlots[1..] else o.freeSlots,
       nextSlot := if recycled then o.nextSlot else o.nextSlot + 1)
  }

  /** Refreshes a pod's liveness, creating it when unknown. */
  function Touched(o: Operation, pod: Pod, incarnation: Incarnation, now: int): Operation {
    if pod in o.pods then o.(pods := o.pods[pod := o.pods[pod].(lastSeen := now, incarnation := incarnation)])
    else Joined(o, pod, incarnation, now)
  }

  function Insert(s: seq<int>, x: int): seq<int> {
    if s == [] then [x] else if x <= s[0] then [x] + s else [s[0]] + Insert(s[1..], x)
  }

  lemma {:induction false} InsertElements(s: seq<int>, x: int)
    ensures |Insert(s, x)| == |s| + 1
    ensures forall y :: y in Insert(s, x) <==> y == x || y in s
    ensures x !in s && Ascending(s) ==> Ascending(Insert(s, x))
  {
    if s != [] && x > s[0] {
      InsertElements(s[1..], x);
      var r := Insert(s[1..], x);
      if x !in s && Ascending(s) {
        forall i, j | 0 <= i < j < |[s[0]] + r| ensures ([s[0]] + r)[i] < ([s[0]] + r)[j] {
          if i == 0 { assert r[j - 1] in r; }
        }
      }
    }
  }

  ghost predicate Ascending(s: seq<int>) {
    forall i, j | 0 <= i < j < |s| :: s[i] < s[j]
  }

  /** A pod's ownership of hash partitions ends with its process. */
  function Disowned(o: Operation, pod: Pod): Operation {
    var gone := set k | k in o.owner && o.owner[k] == pod;
    o.(owner := o.owner - gone, pinned := o.pinned - gone)
  }

  /** An expired pod leaves its slot to the next one. */
  function Left(o: Operation, pod: Pod): Operation
    requires pod in o.pods
  {
    var d := Disowned(o, pod);
    d.(pods := o.pods - {pod}, freeSlots := Insert(o.freeSlots, o.pods[pod].slot), epochDone := o.epochDone - {pod})
  }

  /** A new process of a known pod: the old incarnation is retired and its progress forgotten. */
  function Replaced(o: Operation, pod: Pod, incarnation: Incarnation): Operation
    requires pod in o.pods
  {
    var m := o.pods[pod];
    var d := Disowned(o, pod);
    d.(retired := if m.incarnation != NoSession then o.retired + {(pod, m.incarnation)} else o.retired,
       pods := o.pods[pod := m.(done := false, incarnation := incarnation)],
       epochDone := o.epochDone[pod := -1],
       completed := false)
  }

  lemma JoinedDisjoint(o: Operation, pod: Pod, incarnation: Incarnation, now: int)
    requires SlotsPartitioned(o) && pod !in o.pods
    ensures SlotsDisjoint(Joined(o, pod, incarnation, now))
  {
    if o.freeSlots != [] { assert o.freeSlots[0] in o.freeSlots; }
  }

  lemma JoinedCover(o: Operation, pod: Pod, incarnation: Incarnation, now: int)
    requires SlotsPartitioned(o) && pod !in o.pods
    ensures SlotsCover(Joined(o, pod, incarnation, now))
  {
    var d := Joined(o, pod, incarnation, now);
    if o.freeSlots != [] {
      assert o.freeSlots[0] in o.freeSlots;
      assert o.freeSlots == [o.freeSlots[0]] + o.freeSlots[1..];
      assert forall s | s in o.freeSlots[1..] :: s in o.freeSlots;
    }
    forall k | 0 <= k < d.nextSlot ensures k in d.freeSlots || SlotTaken(d, k) {
      if SlotTaken(o, k) {
        var p :| p in o.pods && o.pods[p].slot == k;
        assert p in d.pods && d.pods[p].slot == k;
      } else if d.pods[pod].slot == k {
        assert pod in d.pods;
      } else {
        assert k in o.freeSlots;
      }
    }
  }

  lemma JoinedSlots(o: Operation, pod: Pod, incarnation: Incarnation, now: int)
    requires SlotsPartitioned(o) && pod !in o.pods
    ensures SlotsPartitioned(Joined(o, pod, incarnation, now))
  {
    hide SlotsDisjoint, SlotsCover;
    JoinedDisjoint(o, pod, incarnation, now);
    JoinedCover(o, pod, incarnation, now);
    JoinedCount(o, pod, incarnation, now);
  }

  lemma JoinedCount(o: Operation, pod: Pod, incarnation: Incarnation, now: int)
    requires o.nextSlot == |o.pods| + |o.freeSlots| && pod !in o.pods
    ensures var d := Joined(o, pod, incarnation, now); d.nextSlot == |d.pods| + |d.freeSlots|
  {
    var d := Joined(o, pod, incarnation, now);
    OneMore(o.pods, d.pods, pod);
  }

  lemma OneMore<K, V>(m: map<K, V>, n: map<K, V>, k: K)
    requires n.Keys == m.Keys + {k} && k !in m
    ensures |n| == |m| + 1
  {
    assert |n.Keys| == |m.Keys| + 1;
  }

  lemma SlotsSame(o: Operation, d: Operation)
    requires SlotsPartitioned(o) && d.pods.Keys == o.pods.Keys && d.freeSlots == o.freeSlots && d.nextSlot == o.nextSlot
    requires forall p | p in o.pods :: d.pods[p].slot == o.pods[p].slot
    ensures SlotsPartitioned(d)
  {
    assert |d.pods.Keys| == |o.pods.Keys|;
    forall k | 0 <= k < d.nextSlot ensures k in d.freeSlots || SlotTaken(d, k) {
      if k !in o.freeSlots {
        var p :| p in o.pods && o.pods[p].slot == k;
        assert p in d.pods && d.pods[p].slot == k;
      }
    }
  }

  lemma TouchedKeeps(o: Operation, pod: Pod, incarnation: Incarnation, now: int)
    requires ValidOperation(o) && (pod, incarnation) !in o.retired
    ensures ValidOperation(Touched(o, pod, incarnation, now))
  {
    var d := Touched(o, pod, incarnation, now);
    if pod in o.pods {
      SlotsSame(o, d);
    } else {
      JoinedSlots(o, pod, incarnation, now);
    }
  }

  lemma LeftSlots(o: Operation, pod: Pod)
    requires SlotsPartitioned(o) && pod in o.pods
    ensures SlotsPartitioned(Left(o, pod))
  {
    var d := Left(o, pod);
    var slot := o.pods[pod].slot;
    InsertElements(o.freeSlots, slot);
    assert d.pods.Keys == o.pods.Keys - {pod};
    assert |d.pods.Keys| == |o.pods.Keys| - 1;
    forall k | 0 <= k < d.nextSlot ensures k in d.freeSlots || SlotTaken(d, k) {
      if k !in o.freeSlots && k != slot {
        var p :| p in o.pods && o.pods[p].slot == k;
        assert p in d.pods && d.pods[p].slot == k;
      }
    }
  }

  lemma LeftKeeps(o: Operation, pod: Pod)
    requires ValidOperation(o) && pod in o.pods
    ensures ValidOperation(Left(o, pod))
  {
    LeftSlots(o, pod);
  }

  lemma ReplacedKeeps(o: Operation, pod: Pod, incarnation: Incarnation)
    requires ValidOperation(o) && pod in o.pods && (pod, incarnation) !in o.retired
    requires incarnation != o.pods[pod].incarnation
    ensures ValidOperation(Replaced(o, pod, incarnation))
  {
    SlotsSame(o, Replaced(o, pod, incarnation));
  }

  // --- hash ownership --------------------------------------------------------------------

  ghost predicate Least(s: set<Pod>, x: Pod) {
    x in s && forall y | y in s :: x <= y
  }

  lemma {:induction false} HasLeast(s: set<Pod>)
    requires s != {}
    ensures exists x :: Least(s, x)
  {
    var x := Witness(s);
    var t := s - {x};
    if t == {} {
      assert s == {x};
      assert Least(s, x);
    } else {
      HasLeast(t);
      var y :| Least(t, y);
      assert forall z | z in s :: z == x || z in s - {x};
      if x <= y { assert Least(s, x); } else { assert Least(s, y); }
    }
  }

  ghost function Smallest(s: set<Pod>): (x: Pod)
    requires s != {}
    ensures Least(s, x)
  {
    HasLeast(s);
    assert exists x :: Least(s, x);
    var x :| Least(s, x);
    x
  }

  /** The live pods in name order. */
  ghost function Sorted(s: set<Pod>): (r: seq<Pod>)
    ensures forall x :: x in r <==> x in s
    ensures Ascending(r) && (s != {} ==> r != [])
  {
    if s == {} then [] else [Smallest(s)] + Sorted(s - {Smallest(s)})
  }

  lemma {:induction false} SortedUnique(r: seq<int>, t: seq<int>)
    requires Ascending(r) && Ascending(t) && forall x :: x in r <==> x in t
    ensures r == t
  {
    if r == [] {
      assert forall i | 0 <= i < |t| :: t[i] in t;
    } else {
      assert r[0] in r;
      assert r[0] in t;
      assert t[0] in t;
      assert t[0] in r;
      var i :| 0 <= i < |r| && r[i] == t[0];
      var j :| 0 <= j < |t| && t[j] == r[0];
      assert r[0] <= r[i] && t[0] <= t[j];
      assert forall x :: x in r[1..] <==> x in r && x != r[0];
      assert forall x :: x in t[1..] <==> x in t && x != t[0];
      SortedUnique(r[1..], t[1..]);
    }
  }

  method LiveIds(o: Operation) returns (ids: seq<Pod>)
    ensures ids == Sorted(o.pods.Keys)
  {
    ids := [];
    var rest := o.pods.Keys;
    while rest != {}
      invariant rest <= o.pods.Keys && Ascending(ids)
      invariant forall x :: x in ids <==> x in o.pods.Keys - rest
      invariant forall x, y | x in ids && y in rest :: x < y
      decreases rest
    {
      assert Least(rest, Smallest(rest));
      var x :| x in rest && forall y | y in rest :: x <= y;
      assert forall i | 0 <= i < |ids| :: ids[i] in ids;
      ids := ids + [x];
      rest := rest - {x};
    }
    SortedUnique(ids, Sorted(o.pods.Keys));
  }

  ghost predicate OwnedLive(o: Operation, k: Key) {
    k in o.owner && o.owner[k] in o.pods
  }

  /** Only a partition whose live owner was handed work keeps its place. */
  ghost predicate IsFree(o: Operation, k: Key) {
    !(OwnedLive(o, k) && k in o.pinned)
  }

  ghost function DeadKeys(o: Operation, n: nat): set<Key> {
    set p | 0 <= p < n && (n, p) in o.owner && o.owner[(n, p)] !in o.pods :: (n, p)
  }

  ghost function PinnedTo(o: Operation, n: nat, x: Pod, upto: nat): set<int> {
    set p | 0 <= p < upto && !IsFree(o, (n, p)) && o.owner[(n, p)] == x
  }

  /** The first least-loaded pod. */
  ghost function Best(ids: seq<Pod>, load: map<Pod, int>, i: nat): (b: Pod)
    requires 0 < i <= |ids| && forall j | 0 <= j < |ids| :: ids[j] in load
    ensures b in ids[..i] && b in ids
    ensures forall x | x in ids[..i] :: load[b] <= load[x]
  {
    if i == 1 then ids[0]
    else
      var b := Best(ids, load, i - 1);
      assert ids[..i] == ids[..i - 1] + [ids[i - 1]];
      if load[ids[i - 1]] < load[b] then ids[i - 1] else b
  }

  lemma BestOfAll(ids: seq<Pod>, load: map<Pod, int>)
    requires ids != [] && forall j | 0 <= j < |ids| :: ids[j] in load
    ensures Best(ids, load, |ids|) in ids && forall x | x in ids :: x in load && load[Best(ids, load, |ids|)] <= load[x]
  {
    hide Best;
    assert ids[..|ids|] == ids;
  }

  ghost function StartLoad(o: Operation, n: nat): map<Pod, int> {
    map x | x in o.pods :: |PinnedTo(o, n, x, n)|
  }

  /** The live pod the next free partition goes to. */
  ghost function Next(o: Operation, load: map<Pod, int>): (b: Pod)
    requires o.pods.Keys != {} && load.Keys == o.pods.Keys
    ensures b in o.pods && forall x | x in o.pods :: load[b] <= load[x]
  {
    var ids := Sorted(o.pods.Keys);
    assert forall j | 0 <= j < |ids| :: ids[j] in ids;
    BestOfAll(ids, load);
    Best(ids, load, |ids|)
  }

  datatype Assignment = Assignment(owner: map<Key, Pod>, load: map<Pod, int>)

  ghost function Give(o: Operation, n: nat, p: int, r: Assignment): Assignment
    requires o.pods.Keys != {} && r.load.Keys == o.pods.Keys
  {
    var b := Next(o, r.load);
    Assignment(r.owner[(n, p) := b], r.load[b := r.load[b] + 1])
  }

  /** Ownership and load after the first `p` partitions were looked at for assignment. */
  ghost function Assign(o: Operation, n: nat, p: nat): (r: Assignment)
    requires o.pods.Keys != {}
    ensures r.load.Keys == o.pods.Keys
  {
    if p == 0 then Assignment(o.owner - DeadKeys(o, n), StartLoad(o, n))
    else if IsFree(o, (n, p - 1)) then Give(o, n, p - 1, Assign(o, n, p - 1))
    else Assign(o, n, p - 1)
  }

  /** The partitions of count `n` spread over the live pods. */
  ghost function Balanced(o: Operation, n: nat): Operation {
    if o.pods.Keys == {} then o
    else o.(owner := Assign(o, n, n).owner, pinned := o.pinned - DeadKeys(o, n))
  }

  method BalanceHash(o: Operation, n: nat) returns (r: Operation)
    ensures r == Balanced(o, n)
  {
    hide StartLoad, DeadKeys, Sorted, Best, FreeBefore;
    var ids := LiveIds(o);
    if |ids| == 0 {
      assert forall x | x in o.pods.Keys :: x in ids;
      return o;
    }
    assert ids[0] in o.pods.Keys;
    var owner, pinned, load, free := Survey(o, n);
    NothingSpread(o, n);
    owner := GiveFree(o, n, ids, owner, load, free);
    AssignByFree(o, n, n);
    r := o.(owner := owner, pinned := pinned);
  }

  /** Each free partition goes to the first least-loaded pod. */
  method GiveFree(o: Operation, n: nat, ids: seq<Pod>, owner0: map<Key, Pod>, load0: map<Pod, int>, free: seq<int>)
    returns (owner: map<Key, Pod>)
    requires o.pods.Keys != {} && ids == Sorted(o.pods.Keys) && SpreadOver(o, n, [], owner0, load0)
    ensures owner == AssignFree(o, n, free).owner
  {
    hide AssignFree, Sorted, Best, Next, Give, SpreadOver;
    var load := load0;
    owner := owner0;
    assert free[..0] == [];
    for i := 0 to |free|
      invariant SpreadOver(o, n, free[..i], owner, load)
    {
      NextIsBest(o, n, free[..i], owner, load);
      var best := FirstBest(ids, load);
      GiveFreeNext(o, n, free[..i], free[i], owner, load, best);
      assert free[..i + 1] == free[..i] + [free[i]];
      owner := owner[(n, free[i]) := best];
      load := load[best := load[best] + 1];
    }
    assert free[..|free|] == free;
    GivenOwner(o, n, free, owner, load);
  }

  ghost predicate SpreadOver(o: Operation, n: nat, free: seq<int>, owner: map<Key, Pod>, load: map<Pod, int>) {
    o.pods.Keys != {} && load.Keys == o.pods.Keys && Assignment(owner, load) == AssignFree(o, n, free)
  }

  lemma NothingSpread(o: Operation, n: nat)
    requires o.pods.Keys != {}
    ensures SpreadOver(o, n, [], o.owner - DeadKeys(o, n), StartLoad(o, n))
  {
  }

  lemma GivenOwner(o: Operation, n: nat, free: seq<int>, owner: map<Key, Pod>, load: map<Pod, int>)
    requires SpreadOver(o, n, free, owner, load)
    ensures o.pods.Keys != {} && owner == AssignFree(o, n, free).owner
  {
    hide AssignFree;
  }

  lemma GiveFreeNext(o: Operation, n: nat, free: seq<int>, p: int, owner: map<Key, Pod>, load: map<Pod, int>, best: Pod)
    requires SpreadOver(o, n, free, owner, load) && best == Next(o, load)
    ensures best in load && SpreadOver(o, n, free + [p], owner[(n, p) := best], load[best := load[best] + 1])
  {
    hide AssignFree, Next;
    AssignFreeNext(o, n, free, p);
  }

  lemma NextIsBest(o: Operation, n: nat, free: seq<int>, owner: map<Key, Pod>, load: map<Pod, int>)
    requires SpreadOver(o, n, free, owner, load)
    ensures o.pods.Keys != {} && load.Keys == o.pods.Keys && Sorted(o.pods.Keys) != []
    ensures forall j | 0 <= j < |Sorted(o.pods.Keys)| :: Sorted(o.pods.Keys)[j] in load
    ensures Next(o, load) == Best(Sorted(o.pods.Keys), load, |Sorted(o.pods.Keys)|)
  {
    hide AssignFree;
  }

  method FirstBest(ids: seq<Pod>, load: map<Pod, int>) returns (best: Pod)
    requires ids != [] && forall j | 0 <= j < |ids| :: ids[j] in load
    ensures best == Best(ids, load, |ids|)
  {
    best := ids[0];
    for j := 1 to |ids|
      invariant best == Best(ids, load, j)
    {
      if load[ids[j]] < load[best] { best := ids[j]; }
    }
  }

  /** What looking at the first `p` partitions found. */
  ghost predicate Surveyed(o: Operation, n: nat, p: nat, owner: map<Key, Pod>, pinned: set<Key>, load: map<Pod, int>, free: seq<int>) {
    && owner == o.owner - DeadBefore(o, n, p) && pinned == o.pinned - DeadBefore(o, n, p)
    && load.Keys == o.pods.Keys && (forall x | x in load :: load[x] == |PinnedTo(o, n, x, p)|)
    && free == FreeBefore(o, n, p)
  }

  lemma SurveyDead(o: Operation, n: nat, p: nat, owner: map<Key, Pod>, pinned: set<Key>, load: map<Pod, int>, free: seq<int>)
    requires Surveyed(o, n, p, owner, pinned, load, free) && (n, p) in owner && owner[(n, p)] !in o.pods
    ensures Surveyed(o, n, p + 1, owner - {(n, p)}, pinned - {(n, p)}, load, free + [p])
  {
    hide PinnedTo;
    DeadNext(o, n, p);
    PinnedNext(o, n, p);
  }

  lemma SurveyPinned(o: Operation, n: nat, p: nat, owner: map<Key, Pod>, pinned: set<Key>, load: map<Pod, int>, free: seq<int>)
    requires Surveyed(o, n, p, owner, pinned, load, free) && (n, p) in owner && owner[(n, p)] in o.pods && (n, p) in pinned
    ensures owner[(n, p)] in load
    ensures Surveyed(o, n, p + 1, owner, pinned, load[owner[(n, p)] := load[owner[(n, p)]] + 1], free)
  {
    hide PinnedTo;
    DeadNext(o, n, p);
    PinnedNext(o, n, p);
  }

  lemma SurveyFree(o: Operation, n: nat, p: nat, owner: map<Key, Pod>, pinned: set<Key>, load: map<Pod, int>, free: seq<int>)
    requires Surveyed(o, n, p, owner, pinned, load, free) && ((n, p) in owner ==> owner[(n, p)] in o.pods && (n, p) !in pinned)
    ensures Surveyed(o, n, p + 1, owner, pinned, load, free + [p])
  {
    hide PinnedTo;
    DeadNext(o, n, p);
    PinnedNext(o, n, p);
  }

  lemma SurveyStarts(o: Operation, n: nat, load: map<Pod, int>)
    requires load == map x | x in o.pods :: 0
    ensures Surveyed(o, n, 0, o.owner, o.pinned, load, [])
  {
  }

  lemma SurveyEnds(o: Operation, n: nat, owner: map<Key, Pod>, pinned: set<Key>, load: map<Pod, int>, free: seq<int>)
    requires Surveyed(o, n, n, owner, pinned, load, free)
    ensures owner == o.owner - DeadKeys(o, n) && pinned == o.pinned - DeadKeys(o, n)
    ensures load == StartLoad(o, n) && load.Keys == o.pods.Keys && free == FreeBefore(o, n, n)
  {
    assert DeadBefore(o, n, n) == DeadKeys(o, n);
  }

  /** Drops the keys of dead owners, counts the pinned load and lists the free partitions. */
  method Survey(o: Operation, n: nat) returns (owner: map<Key, Pod>, pinned: set<Key>, load: map<Pod, int>, free: seq<int>)
    ensures owner == o.owner - DeadKeys(o, n) && pinned == o.pinned - DeadKeys(o, n)
    ensures load == StartLoad(o, n) && load.Keys == o.pods.Keys && free == FreeBefore(o, n, n)
  {
    hide Surveyed, StartLoad, DeadKeys, FreeBefore;
    owner, pinned := o.owner, o.pinned;
    load := map x | x in o.pods :: 0;
    free := [];
    SurveyStarts(o, n, load);
    for p := 0 to n
      invariant Surveyed(o, n, p, owner, pinned, load, free)
    {
      var k := (n, p);
      if k in owner && owner[k] !in o.pods {
        SurveyDead(o, n, p, owner, pinned, load, free);
        owner, pinned, free := owner - {k}, pinned - {k}, free + [p];
      } else if k in owner && k in pinned {
        SurveyPinned(o, n, p, owner, pinned, load, free);
        load := load[owner[k] := load[owner[k]] + 1];
      } else {
        SurveyFree(o, n, p, owner, pinned, load, free);
        free := free + [p];
      }
    }
    SurveyEnds(o, n, owner, pinned, load, free);
  }

  ghost function DeadBefore(o: Operation, n: nat, upto: nat): set<Key> {
    set p | 0 <= p < upto && (n, p) in o.owner && o.owner[(n, p)] !in o.pods :: (n, p)
  }

  ghost function FreeBefore(o: Operation, n: nat, upto: nat): seq<int> {
    if upto == 0 then []
    else FreeBefore(o, n, upto - 1) + (if IsFree(o, (n, upto - 1)) then [upto - 1] else [])
  }

  lemma DeadNext(o: Operation, n: nat, p: nat)
    ensures DeadBefore(o, n, p + 1) == DeadBefore(o, n, p) + (if (n, p) in o.owner && o.owner[(n, p)] !in o.pods then {(n, p)} else {})
    ensures (n, p) !in DeadBefore(o, n, p)
  {
  }

  lemma PinnedNext(o: Operation, n: nat, p: nat)
    ensures forall x | x in o.pods ::
      |PinnedTo(o, n, x, p + 1)| == |PinnedTo(o, n, x, p)| + (if !IsFree(o, (n, p)) && o.owner[(n, p)] == x then 1 else 0)
  {
    forall x | x in o.pods
      ensures |PinnedTo(o, n, x, p + 1)| == |PinnedTo(o, n, x, p)| + (if !IsFree(o, (n, p)) && o.owner[(n, p)] == x then 1 else 0)
    {
      if !IsFree(o, (n, p)) && o.owner[(n, p)] == x {
        assert PinnedTo(o, n, x, p + 1) == PinnedTo(o, n, x, p) + {p};
      } else {
        assert PinnedTo(o, n, x, p + 1) == PinnedTo(o, n, x, p);
      }
    }
  }

  /** The same assignment driven by the list of free partitions. */
  ghost function AssignFree(o: Operation, n: nat, free: seq<int>): (r: Assignment)
    requires o.pods.Keys != {}
    ensures r.load.Keys == o.pods.Keys
  {
    if free == [] then Assignment(o.owner - DeadKeys(o, n), StartLoad(o, n))
    else Give(o, n, free[|free| - 1], AssignFree(o, n, free[..|free| - 1]))
  }

  lemma AssignFreeNext(o: Operation, n: nat, free: seq<int>, p: int)
    requires o.pods.Keys != {}
    ensures AssignFree(o, n, free + [p]) == Give(o, n, p, AssignFree(o, n, free))
  {
    assert (free + [p])[..|free|] == free;
  }

  lemma {:induction false} AssignByFree(o: Operation, n: nat, p: nat)
    requires o.pods.Keys != {}
    ensures AssignFree(o, n, FreeBefore(o, n, p)) == Assign(o, n, p)
  {
    hide Give, StartLoad, DeadKeys, IsFree;
    if p > 0 {
      AssignByFree(o, n, p - 1);
      if IsFree(o, (n, p - 1)) {
        AssignFreeNext(o, n, FreeBefore(o, n, p - 1), p - 1);
      } else {
        assert FreeBefore(o, n, p) == FreeBefore(o, n, p - 1);
      }
    }
  }

  // --- what the balance means ------------------------------------------------------------------

  /** The partitions of count `n` a pod owns. */
  ghost function Owned(o: Operation, n: nat, x: Pod): set<int> {
    set p | 0 <= p < n && (n, p) in o.owner && o.owner[(n, p)] == x
  }

  ghost function OwnedIn(o: Operation, n: nat, owner: map<Key, Pod>, x: Pod, upto: nat): set<int> {
    PinnedTo(o, n, x, n) + FreeIn(o, n, owner, x, upto)
  }

  /** Every pod that was given a free partition is within one of the least loaded. */
  ghost predicate Level(o: Operation, n: nat, r: Assignment, upto: nat) {
    forall p, y | 0 <= p < upto && IsFree(o, (n, p)) && y in r.load ::
      (n, p) in r.owner && r.owner[(n, p)] in r.load && r.load[r.owner[(n, p)]] <= r.load[y] + 1
  }

  /** Outside the free partitions looked at so far nothing but dead ownership changed. */
  ghost predicate Elsewhere(o: Operation, n: nat, r: Assignment, upto: nat) {
    forall k: Key | k.0 != n || !(0 <= k.1 < upto) || !IsFree(o, k) ::
      (k in r.owner <==> k in o.owner && k !in DeadKeys(o, n)) && (k in r.owner ==> r.owner[k] == o.owner[k])
  }

  ghost predicate LoadsCount(o: Operation, n: nat, r: Assignment, upto: nat) {
    forall x | x in o.pods :: x in r.load && r.load[x] == |OwnedIn(o, n, r.owner, x, upto)|
  }

  lemma PinnedSkips(o: Operation, n: nat, x: Pod, p: nat)
    requires IsFree(o, (n, p))
    ensures p !in PinnedTo(o, n, x, n)
  {
  }

  ghost function FreeIn(o: Operation, n: nat, owner: map<Key, Pod>, x: Pod, upto: nat): set<int> {
    set p | 0 <= p < upto && IsFree(o, (n, p)) && (n, p) in owner && owner[(n, p)] == x
  }

  lemma FreeInGiven(o: Operation, n: nat, owner: map<Key, Pod>, p: nat, b: Pod, x: Pod)
    requires IsFree(o, (n, p))
    ensures FreeIn(o, n, owner[(n, p) := b], x, p + 1) == FreeIn(o, n, owner, x, p) + (if b == x then {p} else {})
    ensures p !in FreeIn(o, n, owner, x, p)
  {
    hide IsFree;
    var now, was := FreeIn(o, n, owner[(n, p) := b], x, p + 1), FreeIn(o, n, owner, x, p);
    forall q ensures q in now <==> q in was || (q == p && b == x) {
      assert q != p ==> ((n, q) in owner[(n, p) := b] <==> (n, q) in owner);
    }
  }

  lemma OwnedInGiven(o: Operation, n: nat, owner: map<Key, Pod>, p: nat, b: Pod, x: Pod)
    requires p < n && IsFree(o, (n, p))
    ensures |OwnedIn(o, n, owner[(n, p) := b], x, p + 1)| == |OwnedIn(o, n, owner, x, p)| + (if b == x then 1 else 0)
  {
    hide IsFree, PinnedTo, FreeIn;
    PinnedSkips(o, n, x, p);
    FreeInGiven(o, n, owner, p, b, x);
    var was, now := OwnedIn(o, n, owner, x, p), OwnedIn(o, n, owner[(n, p) := b], x, p + 1);
    assert p !in was;
    assert now == was + (if b == x then {p} else {});
  }

  lemma OwnedInKept(o: Operation, n: nat, owner: map<Key, Pod>, p: nat, x: Pod)
    requires p < n && !IsFree(o, (n, p))
    ensures OwnedIn(o, n, owner, x, p + 1) == OwnedIn(o, n, owner, x, p)
  {
  }

  lemma LoadsCountNext(o: Operation, n: nat, p: nat, r: Assignment)
    requires o.pods.Keys != {} && p < n && r.load.Keys == o.pods.Keys && LoadsCount(o, n, r, p)
    ensures IsFree(o, (n, p)) ==> LoadsCount(o, n, Give(o, n, p, r), p + 1)
    ensures !IsFree(o, (n, p)) ==> LoadsCount(o, n, r, p + 1)
  {
    hide Next, OwnedIn, IsFree;
    if IsFree(o, (n, p)) {
      var b := Next(o, r.load);
      forall x | x in o.pods ensures |OwnedIn(o, n, r.owner[(n, p) := b], x, p + 1)| == |OwnedIn(o, n, r.owner, x, p)| + (if b == x then 1 else 0) {
        OwnedInGiven(o, n, r.owner, p, b, x);
      }
    } else {
      forall x | x in o.pods ensures OwnedIn(o, n, r.owner, x, p + 1) == OwnedIn(o, n, r.owner, x, p) {
        OwnedInKept(o, n, r.owner, p, x);
      }
    }
  }

  lemma LevelNext(o: Operation, n: nat, p: nat, r: Assignment)
    requires o.pods.Keys != {} && r.load.Keys == o.pods.Keys && Level(o, n, r, p)
    ensures IsFree(o, (n, p)) ==> Level(o, n, Give(o, n, p, r), p + 1)
    ensures !IsFree(o, (n, p)) ==> Level(o, n, r, p + 1)
  {
    hide Next, StartLoad, DeadKeys, Assign;
  }

  lemma ElsewhereNext(o: Operation, n: nat, p: nat, r: Assignment)
    requires o.pods.Keys != {} && r.load.Keys == o.pods.Keys && Elsewhere(o, n, r, p)
    ensures IsFree(o, (n, p)) ==> Elsewhere(o, n, Give(o, n, p, r), p + 1)
    ensures !IsFree(o, (n, p)) ==> Elsewhere(o, n, r, p + 1)
  {
    hide Next, DeadKeys;
  }

  lemma AssignStarts(o: Operation, n: nat)
    requires o.pods.Keys != {}
    ensures Elsewhere(o, n, Assign(o, n, 0), 0) && LoadsCount(o, n, Assign(o, n, 0), 0) && Level(o, n, Assign(o, n, 0), 0)
  {
    forall x | x in o.pods ensures StartLoad(o, n)[x] == |OwnedIn(o, n, o.owner - DeadKeys(o, n), x, 0)| {
      assert OwnedIn(o, n, o.owner - DeadKeys(o, n), x, 0) == PinnedTo(o, n, x, n);
    }
  }

  lemma {:induction false} AssignMeans(o: Operation, n: nat, p: nat)
    requires o.pods.Keys != {} && p <= n
    ensures Elsewhere(o, n, Assign(o, n, p), p)
    ensures LoadsCount(o, n, Assign(o, n, p), p)
    ensures Level(o, n, Assign(o, n, p), p)
  {
    hide Elsewhere, LoadsCount, Level, Give, StartLoad, DeadKeys, IsFree;
    if p == 0 {
      AssignStarts(o, n);
    } else {
      AssignMeans(o, n, p - 1);
      ElsewhereNext(o, n, p - 1, Assign(o, n, p - 1));
      LoadsCountNext(o, n, p - 1, Assign(o, n, p - 1));
      LevelNext(o, n, p - 1, Assign(o, n, p - 1));
    }
  }

  /** The balance: every pod given a free partition owns at most one more than any other. */
  ghost predicate WithinOne(o: Operation, r: Operation, n: nat) {
    forall p, y | 0 <= p < n && IsFree(o, (n, p)) && y in o.pods ::
      (n, p) in r.owner && |Owned(r, n, r.owner[(n, p)])| <= |Owned(r, n, y)| + 1
  }

  /**
   Sticky and balanced: every partition gets one live owner, a pinned partition
   with a live owner does not move, other partition counts are untouched, and a
   pod given a free partition is within one of the least loaded pod.
   */
  lemma BalancedMeans(o: Operation, n: nat)
    requires o.pods.Keys != {}
    ensures Balanced(o, n) == o.(owner := Balanced(o, n).owner, pinned := o.pinned - DeadKeys(o, n))
    ensures forall p | 0 <= p < n :: OwnedLive(Balanced(o, n), (n, p))
    ensures forall k | OwnedLive(o, k) && k in o.pinned ::
      k in Balanced(o, n).owner && Balanced(o, n).owner[k] == o.owner[k] && k in Balanced(o, n).pinned
    ensures forall k: Key | k.0 != n || !(0 <= k.1 < n) ::
      (k in Balanced(o, n).owner <==> k in o.owner) && (k in o.owner ==> Balanced(o, n).owner[k] == o.owner[k])
    ensures WithinOne(o, Balanced(o, n), n)
  {
    hide Assign, WithinOne, LoadsCount, Level, Elsewhere, DeadKeys;
    AssignMeans(o, n, n);
    BalancedLevel(o, n);
    BalancedElsewhere(o, n, Assign(o, n, n));
    BalancedEverywhere(o, n, Assign(o, n, n));
  }

  lemma BalancedLevel(o: Operation, n: nat)
    requires o.pods.Keys != {} && LoadsCount(o, n, Assign(o, n, n), n) && Level(o, n, Assign(o, n, n), n)
    requires Elsewhere(o, n, Assign(o, n, n), n)
    ensures WithinOne(o, Balanced(o, n), n)
  {
    hide Assign, IsFree, Elsewhere;
    var r, t := Balanced(o, n), Assign(o, n, n);
    forall x | x in o.pods ensures t.load[x] == |Owned(r, n, x)| {
      OwnedSplits(o, n, t, x);
    }
  }

  lemma OwnedSplits(o: Operation, n: nat, t: Assignment, x: Pod)
    requires Elsewhere(o, n, t, n)
    ensures OwnedIn(o, n, t.owner, x, n) == set p | 0 <= p < n && (n, p) in t.owner && t.owner[(n, p)] == x
  {
    forall p | 0 <= p < n ensures p in OwnedIn(o, n, t.owner, x, n) <==> (n, p) in t.owner && t.owner[(n, p)] == x {
      if !IsFree(o, (n, p)) { assert (n, p) !in DeadKeys(o, n); }
    }
  }

  lemma BalancedElsewhere(o: Operation, n: nat, t: Assignment)
    requires Elsewhere(o, n, t, n)
    ensures forall k | OwnedLive(o, k) && k in o.pinned :: k in t.owner && t.owner[k] == o.owner[k] && k !in DeadKeys(o, n)
    ensures forall k: Key | k.0 != n || !(0 <= k.1 < n) :: (k in t.owner <==> k in o.owner) && (k in o.owner ==> t.owner[k] == o.owner[k])
  {
    forall k | OwnedLive(o, k) && k in o.pinned ensures k !in DeadKeys(o, n) && !IsFree(o, k) {}
  }

  lemma BalancedEverywhere(o: Operation, n: nat, t: Assignment)
    requires o.pods.Keys != {} && t.load.Keys == o.pods.Keys && Level(o, n, t, n) && Elsewhere(o, n, t, n)
    ensures forall p | 0 <= p < n :: (n, p) in t.owner && t.owner[(n, p)] in o.pods
  {
    var y := Witness(o.pods.Keys);
    forall p | 0 <= p < n ensures (n, p) in t.owner && t.owner[(n, p)] in o.pods {
      if !IsFree(o, (n, p)) { assert (n, p) !in DeadKeys(o, n); }
    }
  }

  lemma FreeAgain(o: Operation, n: nat, q: nat)
    requires o.pods.Keys != {} && q < n && o.pinned <= o.owner.Keys
    ensures IsFree(Balanced(o, n), (n, q)) <==> IsFree(o, (n, q))
    ensures !IsFree(o, (n, q)) ==> Balanced(o, n).owner[(n, q)] == o.owner[(n, q)]
  {
    hide Assign, Give;
    BalancedMeans(o, n);
    if IsFree(o, (n, q)) && (n, q) in o.pinned { assert (n, q) in DeadKeys(o, n); }
  }

  lemma StartAgain(o: Operation, n: nat)
    requires o.pods.Keys != {} && o.pinned <= o.owner.Keys
    ensures DeadKeys(Balanced(o, n), n) == {} && StartLoad(Balanced(o, n), n) == StartLoad(o, n)
  {
    hide Assign, Give;
    var r := Balanced(o, n);
    BalancedMeans(o, n);
    forall x | x in o.pods ensures PinnedTo(r, n, x, n) == PinnedTo(o, n, x, n) {
      forall q | 0 <= q < n ensures q in PinnedTo(r, n, x, n) <==> q in PinnedTo(o, n, x, n) { FreeAgain(o, n, q); }
    }
    forall q | 0 <= q < n ensures OwnedLive(r, (n, q)) {}
  }

  lemma NextAgain(o: Operation, r: Operation, load: map<Pod, int>)
    requires o.pods.Keys != {} && r.pods == o.pods && load.Keys == o.pods.Keys
    ensures Next(r, load) == Next(o, load)
  {
    hide Sorted, Best;
  }

  lemma GiveAgain(o: Operation, r: Operation, n: nat, p: nat, a: Assignment, b: Assignment)
    requires o.pods.Keys != {} && r.pods == o.pods && a.load.Keys == o.pods.Keys && b.load == a.load
    ensures Give(r, n, p, b).load == Give(o, n, p, a).load
    ensures (n, p) in Give(o, n, p, a).owner && Give(r, n, p, b).owner == b.owner[(n, p) := Give(o, n, p, a).owner[(n, p)]]
  {
    hide Next;
    NextAgain(o, r, a.load);
  }

  lemma AssignedInBalance(o: Operation, n: nat, p: nat)
    requires o.pods.Keys != {} && 0 < p <= n && IsFree(o, (n, p - 1))
    ensures (n, p - 1) in Assign(o, n, p).owner && (n, p - 1) in Balanced(o, n).owner
    ensures Balanced(o, n).owner[(n, p - 1)] == Assign(o, n, p).owner[(n, p - 1)]
  {
    hide Assign;
    AssignStays(o, n, p, n);
  }

  lemma {:induction false} AssignAgain(o: Operation, n: nat, p: nat)
    requires o.pods.Keys != {} && p <= n && o.pinned <= o.owner.Keys
    ensures Assign(Balanced(o, n), n, p) == Assignment(Balanced(o, n).owner, Assign(o, n, p).load)
  {
    hide Give, StartLoad, DeadKeys, PinnedTo, Balanced, IsFree, WithinOne, OwnedLive;
    var r := Balanced(o, n);
    BalancedMeans(o, n);
    if p == 0 {
      StartAgain(o, n);
      assert r.owner - {} == r.owner;
    } else {
      AssignAgain(o, n, p - 1);
      FreeAgain(o, n, p - 1);
      if IsFree(o, (n, p - 1)) {
        AssignedInBalance(o, n, p);
        GiveAgain(o, r, n, p - 1, Assign(o, n, p - 1), Assign(r, n, p - 1));
        assert r.owner[(n, p - 1) := r.owner[(n, p - 1)]] == r.owner;
      }
    }
  }

  lemma GiveElsewhere(o: Operation, n: nat, p: nat, q: nat, r: Assignment)
    requires o.pods.Keys != {} && r.load.Keys == o.pods.Keys && p != q && (n, p) in r.owner
    ensures (n, p) in Give(o, n, q, r).owner && Give(o, n, q, r).owner[(n, p)] == r.owner[(n, p)]
  {
  }

  /** Later steps leave an assigned partition alone. */
  lemma {:induction false} AssignStays(o: Operation, n: nat, p: nat, q: nat)
    requires o.pods.Keys != {} && 0 < p <= q && IsFree(o, (n, p - 1))
    ensures (n, p - 1) in Assign(o, n, p).owner && (n, p - 1) in Assign(o, n, q).owner
    ensures Assign(o, n, q).owner[(n, p - 1)] == Assign(o, n, p).owner[(n, p - 1)]
    decreases q - p
  {
    hide Give, StartLoad, DeadKeys, IsFree;
    if p < q {
      AssignStays(o, n, p, q - 1);
      GiveElsewhere(o, n, p - 1, q - 1, Assign(o, n, q - 1));
    } else {
      GiveAgain(o, o, n, p - 1, Assign(o, n, p - 1), Assign(o, n, p - 1));
    }
  }

  /** Balancing again changes nothing: ownership does not flap. */
  lemma BalanceIsFixedPoint(o: Operation, n: nat)
    requires o.pinned <= o.owner.Keys
    ensures Balanced(Balanced(o, n), n) == Balanced(o, n)
  {
    hide Assign;
    if o.pods.Keys != {} {
      AssignAgain(o, n, n);
      BalancedMeans(o, n);
      StartAgain(o, n);
    }
  }

  lemma BalancedKeeps(o: Operation, n: nat)
    requires ValidOperation(o)
    ensures ValidOperation(Balanced(o, n))
    ensures Balanced(o, n) == o.(owner := Balanced(o, n).owner) && o.owner.Keys <= Balanced(o, n).owner.Keys
    ensures forall k | k in o.pinned :: Balanced(o, n).owner[k] == o.owner[k]
  {
    hide Assign, SlotsPartitioned, ActiveNotRetired, StartLoad;
    if o.pods.Keys != {} {
      BalancedMeans(o, n);
      NoDeadKeys(o, n);
      BalancedOwners(o, n);
      SlotsKept(o, Balanced(o, n));
    }
  }

  lemma NoDeadKeys(o: Operation, n: nat)
    requires OwnersLive(o)
    ensures DeadKeys(o, n) == {}
  {
  }

  lemma SlotsKept(o: Operation, r: Operation)
    requires SlotsPartitioned(o) && ActiveNotRetired(o)
    requires r == o.(owner := r.owner, pinned := r.pinned)
    ensures SlotsPartitioned(r) && ActiveNotRetired(r)
  {
    SlotsSame(o, r);
  }

  lemma BalancedOwners(o: Operation, n: nat)
    requires o.pods.Keys != {} && OwnersLive(o)
    ensures o.owner.Keys <= Balanced(o, n).owner.Keys
    ensures forall k | k in Balanced(o, n).owner :: Balanced(o, n).owner[k] in o.pods
  {
    hide Assign, StartLoad, WithinOne;
    BalancedMeans(o, n);
    var r := Balanced(o, n);
    forall k | k in r.owner ensures r.owner[k] in o.pods {
      if k.0 == n && 0 <= k.1 < n { assert OwnedLive(r, (n, k.1)); }
    }
    forall k | k in o.owner ensures k in r.owner {
      if k.0 == n && 0 <= k.1 < n { assert OwnedLive(r, (n, k.1)); }
    }
  }

  // --- the partitions a pod may read ---------------------------------------------------------

  /** Where a name stands, or would stand, in an ascending list. */
  function Position(ids: seq<Pod>, pod: Pod): nat {
    if ids == [] || ids[0] >= pod then 0 else 1 + Position(ids[1..], pod)
  }

  lemma {:induction false} PositionOf(ids: seq<Pod>, pod: Pod)
    requires Ascending(ids) && pod in ids
    ensures Position(ids, pod) < |ids| && ids[Position(ids, pod)] == pod
  {
    if ids[0] != pod {
      var i :| 0 <= i < |ids| && ids[i] == pod;
      assert ids[0] < ids[i];
      assert ids[1..][i - 1] == pod;
      PositionOf(ids[1..], pod);
    }
  }

  /** Hash partitions follow their owner, RoundRobin partitions go round the live pods. */
  ghost predicate AssignedTo(o: Operation, mode: Mode, n: nat, p: int, pod: Pod) {
    if mode == Hash then (n, p) in o.owner && o.owner[(n, p)] == pod
    else o.pods != map[] && p % |Sorted(o.pods.Keys)| == Position(Sorted(o.pods.Keys), pod)
  }

  method Assigned(o: Operation, mode: Mode, n: nat, pod: Pod) returns (r: Operation, parts: seq<nat>)
    ensures r == if mode == Hash then Balanced(o, n) else o
    ensures Ascending(parts) && forall p :: p in parts <==> 0 <= p < n && AssignedTo(r, mode, n, p, pod)
  {
    hide Sorted, Balanced;
    r, parts := o, [];
    var ids := LiveIds(o);
    SortedEmpty(o.pods.Keys);
    if mode == Hash {
      r := BalanceHash(o, n);
    } else if |ids| == 0 {
      return;
    }
    var at := Position(ids, pod);
    for p := 0 to n
      invariant Ascending(parts) && forall q :: q in parts <==> 0 <= q < p && AssignedTo(r, mode, n, q, pod)
    {
      var mine := if mode == Hash then (n, p) in r.owner && r.owner[(n, p)] == pod else p % |ids| == at;
      if mine {
        assert forall i | 0 <= i < |parts| :: parts[i] in parts;
        parts := parts + [p];
      }
    }
  }

  lemma SortedEmpty(s: set<Pod>)
    ensures |Sorted(s)| == 0 <==> s == {}
  {
    if s != {} {
      var x := Witness(s);
      assert x in Sorted(s);
    }
  }

  /** With a live pod every partition is assigned to exactly one pod, and that pod is live. */
  lemma AssignedOnce(o: Operation, mode: Mode, n: nat, p: nat) returns (pod: Pod)
    requires o.pods.Keys != {} && p < n && mode != Broadcast
    ensures pod in o.pods
    ensures var r := if mode == Hash then Balanced(o, n) else o;
      AssignedTo(r, mode, n, p, pod) && forall q | q in o.pods && AssignedTo(r, mode, n, p, q) :: q == pod
  {
    if mode == Hash {
      BalancedMeans(o, n);
      pod := Balanced(o, n).owner[(n, p)];
    } else {
      var ids := Sorted(o.pods.Keys);
      SortedEmpty(o.pods.Keys);
      pod := ids[p % |ids|];
      assert pod in ids;
      PositionOf(ids, pod);
      forall q | q in o.pods && AssignedTo(o, mode, n, p, q) ensures q == pod { PositionOf(ids, q); }
      SamePlace(ids, Position(ids, pod), p % |ids|);
    }
  }

  lemma SamePlace(ids: seq<int>, i: nat, j: nat)
    requires Ascending(ids) && i < |ids| && j < |ids| && ids[i] == ids[j]
    ensures i == j
  {
  }
}
