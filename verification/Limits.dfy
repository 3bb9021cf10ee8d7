/**
 Where the promises of the coordinator end: for each condition under which one is
 proved, a state of the coordinator in which the condition and the promise fail.
 */
module Limits {
  import opened Topology
  import opened Graph
  import opened Channels
  import opened Deliveries
  import opened ChannelOps
  import opened Operations
  import opened Persistence
  import opened States
  import opened Termination
  import opened Requests
  import opened Deletion
  import opened Coordination

  // --- building states --------------------------------------------------------------------

  /** A channel on which nothing was announced yet. */
  ghost predicate Bare(c: Channel) {
    && c.spec.partitions > 0 && c.segs == map[] && c.all == {} && c.inflight == {} && c.held == [] && c.log == [] && c.cursor == map[]
    && |c.queues| == c.spec.partitions && (forall p | 0 <= p < |c.queues| :: c.queues[p] == [])
    && c.produced == 0 && c.acknowledged == 0 && c.lost == 0
  }

  lemma BareIsValid(c: Channel)
    requires Bare(c)
    ensures Channels.Valid(c) && IsQuiet(c) && HoldsNothing(c) && Empty(c)
  {
    assert Admitted(c) == {} && AckedIds(c) == {} && LostIds(c) == {};
  }

  function EdgeSpec(n: Name, from: Name, to: Name): Spec {
    Spec(n, Some(from), Some(to), Hash, 1, false, false, None)
  }

  function LoopSpec(n: Name, from: Name, to: Name, mode: LoopMode, bound: int, overflow: Option<Name>): Spec {
    EdgeSpec(n, from, to).(feedback := Some(Feedback(mode, bound, overflow)))
  }

  /** A state without pods. */
  lemma Podless(ch: ChannelMap, finished: map<Name, int>)
    requires ChannelsValid(ch) && EpochsOk(ch, finished)
    requires forall n | n in ch :: !ch[n].spec.IsBroadcast() && forall a | a in ch[n].segs :: ch[n].segs[a].delivered == {}
    ensures StateOk(ch, map[], History(finished, map[], [], {}))
  {
    hide Channels.Valid, EpochOk;
  }

  function HeldOn(s: Spec, x: Announcement): Channel
    requires s.partitions == 1
  {
    Indexed(NewChannel(s, true), x, false)
  }

  /** A loop channel at epoch 0 that holds one segment for epoch 1. */
  lemma HeldOnIs(s: Spec, x: Announcement)
    requires s.partitions == 1 && !s.IsBroadcast() && s.feedback.Some? && s.feedback.value.maxEpochs > 1 && x.part == 0 && x.epoch == 1
    ensures var c := HeldOn(s, x);
      && Channels.Valid(c) && IsQuiet(c) && c.spec == s && c.finite && c.epoch == 0 && !c.sealed && c.inflight == {}
      && c.productionClosed == (if s.IsSynchronous() then {0} else {})
      && c.held == [x.append] && c.segs == map[x.append := Fresh(x, false, false)] && x.append in HeldIds(c)
  {
    hide Channels.Valid, Grows, DropsNothing, Admissible;
    var c0 := NewChannel(s, true);
    assert Bare(c0);
    BareIsValid(c0);
    FirstAdmissible(c0, x);
    IndexedKeeps(c0, x, false);
    assert QueuedIds(HeldOn(s, x)) == {};
  }

  // --- shared ids -----------------------------------------------------------------------------

  /** Two holders announced a segment with the same id, and one of the two was lost. */
  function SharedId(n: Name, b: Name, x: Announcement, y: Announcement): Channel {
    var c := Indexed(Indexed(NewChannel(Spec(n, None, Some(b), Hash, 1, false, false, None), false), x, false), y, false);
    if x.append in c.segs then MarkedLost(c, x.append) else c
  }

  /** The second announcement's id is not free, and then the tombstones name the bytes of a segment that is still waiting. */
  lemma SharedIdNamesLiveSegment(n: Name, b: Name, x: Announcement, y: Announcement)
    requires x.id == y.id && x.holder != y.holder && x.append != y.append && x.part == y.part == 0
    ensures var ch := map[n := SharedId(n, b, x, y)];
      && StateOk(ch, map[], History(map[], map[], [], {})) && !NoClash(ch, {})
      && OnlyReleased(ch, ReleasedIn(ch, {n})) && !AllReleased(ch, ReleasedIn(ch, {n}))
  {
    hide Channels.Valid, StateOk, SharedId;
    SharedIdIs(n, b, x, y);
    var d := SharedId(n, b, x, y);
    var ch := map[n := d];
    assert n in ch && ch[n] == d && x.id in ReleasedOf(d);
    assert x.id in ReleasedIn(ch, {n});
    assert ch.Keys == {n};
    NothingHanded(ch);
    assert {} + ReleasedIn(ch, {n}) == ReleasedIn(ch, {n});
    ReleasedAreReleased(ch, {});
    Podless(ch, map[]);
    assert LiveIn(ch, n, y.append) && ch[n].segs[y.append].meta.id == x.id;
    if NoClash(ch, {}) { NoClashHere(ch, {}); }
  }

  lemma SharedIdIs(n: Name, b: Name, x: Announcement, y: Announcement)
    requires x.id == y.id && x.holder != y.holder && x.append != y.append && x.part == y.part == 0
    ensures var d := SharedId(n, b, x, y);
      && Channels.Valid(d) && d.spec == Spec(n, None, Some(b), Hash, 1, false, false, None) && !d.finite && x.append in d.all
      && d.segs.Keys == {x.append, y.append}
      && d.segs[x.append] == Fresh(x, false, false).(lost := true, released := true) && d.segs[y.append] == Fresh(y, false, false)
  {
    hide Channels.Valid, Grows, DropsNothing, Admissible, CalmBut;
    var c0 := NewChannel(Spec(n, None, Some(b), Hash, 1, false, false, None), false);
    var c1, c2 := Indexed(c0, x, false), Indexed(Indexed(c0, x, false), y, false);
    assert Bare(c0);
    BareIsValid(c0);
    FirstAdmissible(c0, x);
    IndexedKeeps(c0, x, false);
    SecondAdmissible(c0, x, y);
    IndexedKeeps(c1, y, false);
    MarkedLostKeeps(c2, x.append);
    CalmValid(c2, SharedId(n, b, x, y));
  }

  lemma FirstAdmissible(c: Channel, x: Announcement)
    requires Bare(c) && c.spec.partitions == 1 && x.part == 0 && (c.finite ==> x.epoch >= c.epoch)
    ensures Admissible(c, x)
  {
  }

  lemma SecondAdmissible(c: Channel, x: Announcement, y: Announcement)
    requires Bare(c) && c.spec.partitions == 1 && !c.finite && x.part == y.part == 0 && x.holder != y.holder && x.append != y.append
    ensures Admissible(Indexed(c, x, false), y)
  {
  }

  // --- the bound of a Synchronous loop -----------------------------------------------------------

  /**
   A Synchronous loop whose inner edge was sealed: its producer `a` is an epoch
   ahead of its consumer `b`, for which the feedback channel holds a segment.
   */
  ghost function SealedEdge(a: Name, b: Name, f: Name, g: Name, x: Announcement): ChannelMap {
    map[f := NewChannel(EdgeSpec(f, b, a), true).(sealed := true, epoch := 1, productionClosed := {0, 1}),
        g := HeldOn(LoopSpec(g, a, b, Synchronous, 2, None), x)]
  }

  /** Then `a` may finish epoch 1, and the seal at the bound drops the segment. */
  lemma SealedEdgeDropsHeld(a: Name, b: Name, f: Name, g: Name, x: Announcement)
    requires a != b && f != g && x.part == 0 && x.epoch == 1
    ensures var ch := SealedEdge(a, b, f, g, x);
      && StateOk(ch, map[], History(map[a := 0], map[], [], {}))
      && InputClosed(ch, a, 1) && ClosesLoop(ch[g], a, 1) && !AtLastEpoch(ch[g])
      && x.append in DroppedIds(Sealed(ch[g])) && x.append !in DroppedIds(ch[g])
  {
    hide Channels.Valid, StateOk, HeldOn, Sealed, DroppedIds, HeldIds, IsQuiet, HoldsNothing, Empty;
    var ch := SealedEdge(a, b, f, g, x);
    assert Bare(ch[f]);
    BareIsValid(ch[f]);
    HeldOnIs(LoopSpec(g, a, b, Synchronous, 2, None), x);
    HeldIsDropped(ch[g], x.append);
    Podless(ch, map[a := 0]);
  }

  lemma HeldIsDropped(c: Channel, a: AppendId)
    requires Channels.Valid(c) && c.spec.IsSynchronous() && a in HeldIds(c)
    ensures a in DroppedIds(Sealed(c)) && a !in DroppedIds(c)
  {
    hide Channels.Valid, DroppedIds;
    SealedKeeps(c);
    HeldNotDropped(c);
  }

  // --- cohort slots --------------------------------------------------------------------------------

  function PodOf(s: SessionId, slot: int): Member {
    Member(0, false, Session(s), slot)
  }

  /** Pods 7 and 9 are those of `b`; pod 7 is also the second pod of `c`. */
  function TwoOperations(b: Name, c: Name, s: SessionId, t: SessionId, u: SessionId): OperationMap {
    map[b := NoOperation.(pods := map[7 := PodOf(s, 0), 9 := PodOf(u, 1)], nextSlot := 2),
        c := NoOperation.(pods := map[3 := PodOf(t, 0), 7 := PodOf(s, 1)], nextSlot := 2)]
  }

  /** A Broadcast channel into `b` whose one segment was delivered to two processes. */
  function Delivered(n: Name, b: Name, x: Announcement, l: Lease, m: Lease): Channel {
    var c := Indexed(NewChannel(Spec(n, None, Some(b), Broadcast, 1, false, false, None), false), x, false);
    if x.append in c.segs then Copied(Copied(c, x.append, l), x.append, m) else c
  }

  /**
   A process active in two operations may acknowledge in the name of the one that
   does not consume the channel. A slot of the consumer counts then whose own
   process still has the segment; one more acknowledgement and the sweep releases it.
   */
  lemma ForeignSlotCounts(n: Name, b: Name, c: Name, s: SessionId, t: SessionId, u: SessionId, x: Announcement)
    requires b != c
    ensures var l, m, ops := Lease(7, Session(s)), Lease(9, Session(u)), TwoOperations(b, c, s, t, u);
      var d := Delivered(n, b, x, l, m);
      var k := AckerFor(d, ops[c], 7);
      && StateOk(map[n := d], ops, History(map[], map[b := 2, c := 2], [], {}))
      && Active(ops[b], l) && Active(ops[c], l) && Active(ops[b], m) && x.append in d.segs && d.segs[x.append].delivered == {l, m}
      && k.Slot? && k.slot < ops[b].nextSlot && !OwnAcker(ops[b], l, k)
      && var e := Acked(d, x.append, l, k);
         var again := Acked(Copied(e, x.append, l), x.append, l, AckerFor(d, ops[b], 7));
         && !SlotsKnown(e, ops[b])
         && EveryReplica(again.segs[x.append], 2) && m in again.segs[x.append].delivered && !again.segs[x.append].released
  {
    hide Delivered, Channels.Valid, ValidOperation, Acked, Copied, Honest, StateOk, SlotsKnown;
    var l, m, ops := Lease(7, Session(s)), Lease(9, Session(u)), TwoOperations(b, c, s, t, u);
    var d := Delivered(n, b, x, l, m);
    DeliveredState(n, b, x, l, m);
    TwoOperationsValid(b, c, s, t, u);
    DeliveredOk(n, d, ops, b, c, l, m, x.append);
    ForeignSlotAcked(d, x.append, l, m, ops[b]);
  }

  lemma DeliveredOk(n: Name, d: Channel, ops: OperationMap, b: Name, c: Name, l: Lease, m: Lease, a: AppendId)
    requires Channels.Valid(d) && d.spec == Spec(n, None, Some(b), Broadcast, 1, false, false, None) && !d.finite
    requires d.segs.Keys == {a} && d.segs[a].delivered == {l, m} && d.segs[a].acked == {} && d.cursor == map[]
    requires ops.Keys == {b, c} && b != c && OperationsValid(ops) && |ops[b].pods| == 2 && |ops[c].pods| == 2 && ops[b].nextSlot == 2 && ops[c].nextSlot == 2
    requires Active(ops[b], l) && Active(ops[b], m)
    ensures StateOk(map[n := d], ops, History(map[], map[b := 2, c := 2], [], {}))
  {
    hide Channels.Valid, ValidOperation, Honest;
    NobodyAcked(d, n);
  }

  lemma NobodyAcked(c: Channel, n: Name)
    requires forall a | a in c.segs :: c.segs[a].acked == {}
    ensures Honest(c, n, {})
  {
  }

  lemma DeliveredState(n: Name, b: Name, x: Announcement, l: Lease, m: Lease)
    ensures var d := Delivered(n, b, x, l, m);
      && Channels.Valid(d) && d.spec == Spec(n, None, Some(b), Broadcast, 1, false, false, None) && !d.finite && d.cursor == map[]
      && d.segs == map[x.append := Fresh(x, false, false).(delivered := {l, m})]
  {
    hide Channels.Valid, Grows, DropsNothing, Admissible, Hands;
    var c0 := NewChannel(Spec(n, None, Some(b), Broadcast, 1, false, false, None), false);
    assert Bare(c0);
    BareIsValid(c0);
    AnyAdmissible(c0, x);
    IndexedKeeps(c0, x, false);
    var c1 := Indexed(c0, x, false);
    CopiedKeeps(c1, x.append, l);
    assert c1.segs == map[x.append := Fresh(x, false, false)];
    var c2 := Copied(c1, x.append, l);
    assert c1.segs[x.append].delivered + {l} == {l};
    CopiedKeeps(c2, x.append, m);
    assert c2.segs[x.append].delivered + {m} == {l, m};
  }

  lemma ForeignSlotAcked(d: Channel, a: AppendId, l: Lease, m: Lease, consumer: Operation)
    requires d.spec.IsBroadcast() && a in d.segs && d.segs[a].delivered == {l, m} && d.segs[a].acked == {} && l.pod != m.pod && !d.segs[a].released
    requires m.pod in consumer.pods && consumer.pods[m.pod].slot == 1
    ensures var e := Acked(d, a, l, Slot(1));
      && !SlotsKnown(e, consumer) && a in e.segs
      && var again := Acked(Copied(e, a, l), a, l, Slot(0));
         EveryReplica(again.segs[a], 2) && m in again.segs[a].delivered && !again.segs[a].released
  {
    var e := Acked(d, a, l, Slot(1));
    assert m in e.segs[a].delivered && Slot(1) in e.segs[a].acked;
    var again := Acked(Copied(e, a, l), a, l, Slot(0));
    assert again.segs[a].acked == {Slot(1), Slot(0)};
  }

  lemma AnyAdmissible(c: Channel, x: Announcement)
    requires Bare(c) && c.spec.IsBroadcast() && !c.finite
    ensures Admissible(c, x)
  {
  }

  lemma TwoOperationsValid(b: Name, c: Name, s: SessionId, t: SessionId, u: SessionId)
    requires b != c
    ensures var ops := TwoOperations(b, c, s, t, u);
      OperationsValid(ops) && |ops[b].pods| == 2 && |ops[c].pods| == 2
  {
    var ops := TwoOperations(b, c, s, t, u);
    assert ops[b].pods.Keys == {7, 9} && |ops[b].pods.Keys| == 2;
    assert ops[c].pods.Keys == {3, 7} && |ops[c].pods.Keys| == 2;
    TwoPodsValid(ops[b], 7, 9);
    TwoPodsValid(ops[c], 3, 7);
  }

  lemma TwoPodsValid(o: Operation, p: Pod, q: Pod)
    requires p != q && o.pods.Keys == {p, q} && |o.pods| == 2 && o.pods[p].slot == 0 && o.pods[q].slot == 1 && o.nextSlot == 2
    requires o.freeSlots == [] && o.retired == {} && o.owner == map[] && o.pinned == {}
    ensures ValidOperation(o)
  {
    assert SlotTaken(o, 0) by { assert o.pods[p].slot == 0; }
    assert SlotTaken(o, 1) by { assert o.pods[q].slot == 1; }
  }

  // --- Asynchronous loops on finite epochs ----------------------------------------------------------

  /**
   Operations `a` and `b` form an Asynchronous loop over channels `f` and `g`; `b`
   also feeds `c` over `p`, and `c` is a Synchronous loop over `r`. Work came in
   over channel `i`: `y` for `a`, then `z` for `b`, then `x` for `a` again.
   */
  datatype Scene = Scene(a: Name, b: Name, c: Name, f: Name, g: Name, p: Name, r: Name, i: Name,
                         x: Announcement, y: Announcement, z: Announcement, l: Lease, m: Lease)

  predicate Apart(a: Name, b: Name, c: Name, d: Name) {
    a != b && a != c && a != d && b != c && b != d && c != d
  }

  predicate Set(v: Scene) {
    && v.a != v.b && v.a != v.c && v.b != v.c && Apart(v.f, v.g, v.p, v.r) && v.i != v.f && v.i != v.g && v.i != v.p && v.i != v.r
    && v.x.part == v.y.part == v.z.part == 0 && v.x.epoch == 1 && v.y.epoch == v.z.epoch == 0
  }

  function InputSpec(n: Name, to: Name): Spec {
    Spec(n, None, Some(to), Hash, 1, false, false, None)
  }

  /** A channel whose one segment was delivered and acknowledged. */
  function Spent(s: Spec, x: Announcement, l: Lease): Channel
    requires s.partitions == 1
  {
    var c := HeldOn(s, x);
    if c.queues[0] != [] && c.queues[0][0] in c.segs then
      var d := Handed(c, 0, l);
      if x.append in d.segs then Acked(d, x.append, l, Replica(l.pod)) else d
    else c
  }

  lemma SpentIs(s: Spec, x: Announcement, l: Lease)
    requires s.partitions == 1 && !s.IsBroadcast() && s.feedback.None? && !s.retained && x.part == 0 && x.epoch == 0
    ensures var c := Spent(s, x, l);
      && Channels.Valid(c) && c.spec == s && c.finite && c.epoch == 0 && !c.sealed && c.inflight == {} && c.held == [] && c.productionClosed == {}
      && c.segs == map[x.append := Fresh(x, false, true).(acked := {Replica(l.pod)})]
  {
    hide Channels.Valid, Grows, DropsNothing, Admissible, Hands, Keeps;
    var c0 := NewChannel(s, true);
    assert Bare(c0);
    BareIsValid(c0);
    FirstAdmissible(c0, x);
    IndexedKeeps(c0, x, false);
    var c := HeldOn(s, x);
    assert c.queues[0] == [x.append] && c.segs == map[x.append := Fresh(x, false, false)];
    HandedKeeps(c, 0, l);
    var d := Handed(c, 0, l);
    assert d.segs[x.append].delivered == {l};
    AckedKeeps(d, x.append, l, Replica(l.pod));
    assert d.segs[x.append].delivered - {l} == {} && d.segs[x.append].acked + {Replica(l.pod)} == {Replica(l.pod)};
    assert d.segs[x.append].retryAfter - {l} == map[];
  }

  lemma SpentIsQuiet(c: Channel)
    requires Channels.Valid(c) && !c.spec.IsBroadcast() && c.inflight == {} && c.held == [] && forall a | a in c.segs :: c.segs[a].released
    ensures IsQuiet(c) && HoldsNothing(c)
  {
    forall a | a in c.segs ensures !Queued(c, a) { assert Placed(c, a); }
    assert QueuedIds(c) == {};
  }

  /** The state after the work passed on: `x` is held for the next epoch, and the input is complete. */
  ghost function MixedLoops(v: Scene): ChannelMap {
    map[v.f := Spent(EdgeSpec(v.f, v.a, v.b), v.z, v.m),
        v.g := HeldOn(LoopSpec(v.g, v.b, v.a, Asynchronous, 5, None), v.x),
        v.p := NewChannel(EdgeSpec(v.p, v.b, v.c), true),
        v.r := NewChannel(LoopSpec(v.r, v.c, v.c, Synchronous, 5, None), true),
        v.i := Sealed(Spent(InputSpec(v.i, v.a), v.y, v.l))]
  }

  ghost predicate Wired(ch: ChannelMap, v: Scene) {
    && ch.Keys == {v.f, v.g, v.p, v.r, v.i}
    && ch[v.f].spec == EdgeSpec(v.f, v.a, v.b) && ch[v.p].spec == EdgeSpec(v.p, v.b, v.c) && ch[v.i].spec == InputSpec(v.i, v.a)
    && ch[v.r].spec == LoopSpec(v.r, v.c, v.c, Synchronous, 5, None) && ch[v.g].spec == LoopSpec(v.g, v.b, v.a, Asynchronous, 5, None)
  }

  lemma MixedLoopsWired(v: Scene)
    requires Set(v)
    ensures Wired(MixedLoops(v), v)
  {
    hide Spent, HeldOn, Sealed;
    SpecsKept(InputSpec(v.i, v.a), v.y, v.l);
    SpecsKept(EdgeSpec(v.f, v.a, v.b), v.z, v.m);
    SpecsKept(LoopSpec(v.g, v.b, v.a, Asynchronous, 5, None), v.x, v.l);
  }

  lemma SpecsKept(s: Spec, x: Announcement, l: Lease)
    requires s.partitions == 1
    ensures HeldOn(s, x).spec == s && Spent(s, x, l).spec == s && Sealed(Spent(s, x, l)).spec == s
  {
  }

  lemma InputIs(v: Scene)
    requires Set(v)
    ensures var c := Sealed(Spent(InputSpec(v.i, v.a), v.y, v.l));
      && Channels.Valid(c) && c.spec == InputSpec(v.i, v.a) && c.finite && c.epoch == 0 && c.sealed && 0 in c.productionClosed
      && IsQuiet(c) && HoldsNothing(c) && forall a | a in c.segs :: c.segs[a].delivered == {}
  {
    hide Channels.Valid, Grows, DropsNothing, Spent;
    SpentIs(InputSpec(v.i, v.a), v.y, v.l);
    SealedKeeps(Spent(InputSpec(v.i, v.a), v.y, v.l));
    SpentIsQuiet(Sealed(Spent(InputSpec(v.i, v.a), v.y, v.l)));
  }

  lemma MixedLoopsChannels(v: Scene)
    requires Set(v)
    ensures var ch := MixedLoops(v);
      && IsQuiet(ch[v.f]) && IsQuiet(ch[v.g]) && IsQuiet(ch[v.p]) && IsQuiet(ch[v.r])
      && IsQuiet(ch[v.i]) && HoldsNothing(ch[v.i]) && ch[v.i].sealed && ch[v.i].epoch == 0 && 0 in ch[v.i].productionClosed
      && ch[v.g].held == [v.x.append] && v.x.append in ch[v.g].segs && ch[v.g].segs[v.x.append] == Fresh(v.x, false, false)
      && ch[v.g].inflight == {} && !ch[v.g].sealed && ch[v.g].epoch == 0
      && forall n | n in ch ::
           && Channels.Valid(ch[n]) && ch[n].epoch == 0 && ch[n].finite && (ch[n].sealed || ch[n].productionClosed == {} || (n == v.r && ch[n].productionClosed == {0}))
           && forall a | a in ch[n].segs :: ch[n].segs[a].delivered == {}
  {
    hide Channels.Valid, Spent, HeldOn, Sealed, IsQuiet, HoldsNothing;
    var ch := MixedLoops(v);
    InputIs(v);
    SpentIs(EdgeSpec(v.f, v.a, v.b), v.z, v.m);
    SpentIsQuiet(ch[v.f]);
    HeldOnIs(LoopSpec(v.g, v.b, v.a, Asynchronous, 5, None), v.x);
    assert Bare(ch[v.p]) && Bare(ch[v.r]);
    BareIsValid(ch[v.p]);
    BareIsValid(ch[v.r]);
  }

  lemma MixedLoopsState(v: Scene)
    requires Set(v)
    ensures Wired(MixedLoops(v), v) && StateOk(MixedLoops(v), map[], History(map[], map[], [], {}))
  {
    hide Channels.Valid, StateOk, MixedLoops, IsQuiet, HoldsNothing;
    var ch := MixedLoops(v);
    MixedLoopsWired(v);
    MixedLoopsChannels(v);
    forall n | n in ch ensures EpochOk(ch[n], map[]) && !ch[n].spec.IsBroadcast() && ch[n].spec.name == n {}
    Podless(ch, map[]);
  }

  /** All channels run on finite epochs, as the graph says. */
  lemma MixedLoopsAreFinite(v: Scene)
    requires Set(v)
    ensures var specs := Specs(MixedLoops(v));
      InLoopComponent(specs, Some(v.a)) && InLoopComponent(specs, Some(v.b)) && InLoopComponent(specs, Some(v.c))
  {
    hide MixedLoops, Set;
    MixedLoopsWired(v);
    var ch := MixedLoops(v);
    var specs := Specs(ch);
    assert v.f in ch && v.p in ch && v.r in ch && ch[v.f].spec in specs && ch[v.p].spec in specs && ch[v.r].spec in specs;
    ReachesSelf(WeakEdges(specs), Some(v.c));
    assert Some(v.c) in LoopEnds(specs);
    assert (Some(v.c), Some(v.b)) in WeakEdges(specs) && (Some(v.b), Some(v.a)) in WeakEdges(specs);
    SpreadsAlong(specs, Some(v.c), Some(v.b));
    SpreadsAlong(specs, Some(v.b), Some(v.a));
  }

  /**
   The sweep finds the loop finished and seals it while it holds a segment. The
   seal closes epoch 0, so the consumer may finish it; and whatever channel comes
   out of the next epoch, the segment is queued for a member.
   */
  lemma SealedLoopWakes(v: Scene, d: Channel)
    requires Set(v) && v.x.records > 0
    requires var e := Sealed(MixedLoops(v)[v.g]); Channels.Valid(d) && Advances(e, d) && d.held == LaterThan(e, e.held, e.epoch + 1)
    ensures var ch := MixedLoops(v);
      var sealed := ch[v.g := Sealed(ch[v.g])];
      && LoopFinished(ch, v.g) && ch[v.g].spec.IsAsynchronous() && !ch[v.g].sealed
      && !Dead(sealed, Specs(ch), ch[v.g].spec) && InputClosed(sealed, v.a, 0) && IsQuiet(sealed[v.g]) && IsQuiet(sealed[v.i])
      && v.x.append in QueuedIds(d)
  {
    hide Channels.Valid, StateOk, Advances, LaterThan, OnLoop, MixedLoops, IsQuiet, HoldsNothing, Sealed;
    var ch := MixedLoops(v);
    MixedLoopsWired(v);
    MixedLoopsChannels(v);
    MixedLoopFinished(ch, v);
    var e := Sealed(ch[v.g]);
    SealKeepsHeld(ch[v.g], v.x.append);
    HeldIsPromoted(e, d, v.x.append);
    NotDeadYet(ch, ch[v.g := e], v.g, v.x.append);
  }

  lemma SealKeepsHeld(c: Channel, a: AppendId)
    requires c.spec.IsAsynchronous() && a in c.held && a in c.segs
    ensures var e := Sealed(c); e.segs == c.segs && e.held == c.held && e.spec == c.spec && e.epoch == c.epoch && e.inflight == c.inflight
    ensures !c.spec.IsBroadcast() && IsQuiet(c) ==> IsQuiet(Sealed(c))
    ensures c.epoch in Sealed(c).productionClosed && Sealed(c).finite == c.finite
  {
    var e := Sealed(c);
    forall b | b in c.segs ensures e.segs[b] == c.segs[b] {}
    assert e.segs == c.segs;
    assert QueuedIds(e) == QueuedIds(c);
  }

  lemma NotDeadYet(ch: ChannelMap, dh: ChannelMap, g: Name, a: AppendId)
    requires g in ch && g in dh && dh[g].spec == ch[g].spec && a in dh[g].segs && !dh[g].segs[a].released && dh[g].segs[a].meta.records > 0
    ensures !Dead(dh, Specs(ch), ch[g].spec)
  {
    hide OnLoop;
    EndsOnLoop(Specs(ch), ch[g].spec);
  }

  lemma MixedLoopFinished(ch: ChannelMap, v: Scene)
    requires Set(v) && Wired(ch, v) && IsQuiet(ch[v.g]) && IsQuiet(ch[v.f]) && IsQuiet(ch[v.p]) && IsQuiet(ch[v.r])
    requires IsQuiet(ch[v.i]) && HoldsNothing(ch[v.i]) && ch[v.i].sealed
    ensures LoopFinished(ch, v.g)
  {
    hide IsQuiet, HoldsNothing, OnLoop;
  }

  lemma HeldIsPromoted(e: Channel, d: Channel, a: AppendId)
    requires Channels.Valid(d) && Advances(e, d) && d.held == LaterThan(e, e.held, e.epoch + 1)
    requires !e.spec.IsBroadcast() && a in e.held && a in e.segs
    requires e.segs[a].meta.epoch == e.epoch + 1 && !e.segs[a].released && e.inflight == {}
    ensures a in QueuedIds(d)
  {
    LaterThanSound(e, e.held, e.epoch + 1);
    assert Placed(d, a);
  }

  // --- members that publish with nothing in hand -----------------------------------------------------

  /** A loop of `a` and `b` after it was sealed. */
  ghost function FinishedLoop(a: Name, b: Name, f: Name, g: Name): ChannelMap {
    map[f := NewChannel(EdgeSpec(f, a, b), false),
        g := NewChannel(LoopSpec(g, b, a, Asynchronous, 5, None), false).(sealed := true)]
  }

  /**
   A member that publishes without a delivery in hand, as on a timer, wakes a
   dead loop on which nobody outside may publish.
   */
  lemma IdleMemberWakes(a: Name, b: Name, f: Name, g: Name, y: Announcement)
    requires a != b && f != g && y.part == 0 && y.records > 0
    ensures var ch := FinishedLoop(a, b, f, g);
      var s := ch[g].spec;
      var dh := ch[f := Indexed(ch[f], y, false)];
      && ChannelsValid(ch) && Dead(ch, Specs(ch), s) && ConsumingLoop(ch, Specs(ch), s) && NoIntruder(ch, Specs(ch), s)
      && (forall l :: !Working(ch, a, l)) && OpenPublish(ch, dh, f, Some(a)) && !Dead(dh, Specs(ch), s)
  {
    hide Channels.Valid, Admissible, OnLoop, Working, MayProduce, OpenPublish;
    var ch := FinishedLoop(a, b, f, g);
    assert Bare(ch[f]) && Bare(ch[g]);
    BareIsValid(ch[f]);
    BareIsValid(ch[g]);
    TwoOnLoop(ch, a, b, f, g);
    assert HasInbound(ch, a) by { assert ch[g].spec.to == Some(a); }
    assert HasInbound(ch, b) by { assert ch[f].spec.to == Some(b); }
    ClosedHasNoIntruder(ch, Specs(ch), ch[g].spec);
    forall l ensures !Working(ch, a, l) { DeadHoldsNoWork(ch, Specs(ch), ch[g].spec, a, l); }
    FirstAdmissible(ch[f], y);
    ProducerWakes(ch, Specs(ch), ch[g].spec, f, y);
  }

  lemma TwoOnLoop(ch: ChannelMap, a: Name, b: Name, f: Name, g: Name)
    requires a != b && f != g && ch.Keys == {f, g} && ch[f].spec == EdgeSpec(f, a, b) && ch[g].spec == LoopSpec(g, b, a, Asynchronous, 5, None)
    ensures forall o | OnLoopEnd(Specs(ch), ch[g].spec, Some(o)) :: o == a || o == b
  {
    var edges := ForwardEdges(Specs(ch));
    forall v | v in edges && v.0 in {a, b} ensures v.1 in {a, b} {}
    forall o | OnLoopEnd(Specs(ch), ch[g].spec, Some(o)) ensures o in {a, b} {
      if o !in {a, b} { NothingOutside(edges, {a, b}, a, o); }
    }
  }

  // --- overflow from another loop ---------------------------------------------------------------------

  /**
   A dead loop of `a` and `b`, and a loop of `d` and `e` that overflows into it;
   `d` is at work on a segment.
   */
  ghost function Overflowing(a: Name, b: Name, d: Name, e: Name, f: Name, g: Name, h: Name, k: Name, x: Announcement, l: Lease): ChannelMap {
    var work := Indexed(NewChannel(EdgeSpec(k, e, d), false), x, false);
    map[f := NewChannel(EdgeSpec(f, a, b), false),
        g := NewChannel(LoopSpec(g, b, a, Asynchronous, 5, None), false).(sealed := true),
        h := NewChannel(LoopSpec(h, d, e, Asynchronous, 5, Some(f)), false),
        k := if work.queues[0] != [] && work.queues[0][0] in work.segs then Handed(work, 0, l) else work]
  }

  lemma {:induction false} WalkStaysWithin(edges: set<(Name, Name)>, some: set<Name>, w: seq<Name>, i: nat)
    requires IsWalk(edges, w) && i < |w| && w[0] in some && forall v | v in edges && v.0 in some :: v.1 in some
    ensures w[i] in some
  {
    if i > 0 {
      WalkStaysWithin(edges, some, w, i - 1);
      assert (w[i - 1], w[i - 1 + 1]) in edges;
    }
  }

  /** From inside a set without edges leaving it nothing outside is reached. */
  lemma NothingOutside(edges: set<(Name, Name)>, some: set<Name>, x: Name, y: Name)
    requires x in some && y !in some && forall v | v in edges && v.0 in some :: v.1 in some
    ensures !Reaches(edges, x, y)
  {
    forall w | IsWalkBetween(edges, w, x, y) ensures false { WalkStaysWithin(edges, some, w, |w| - 1); }
  }

  lemma OverflowingState(a: Name, b: Name, d: Name, e: Name, f: Name, g: Name, h: Name, k: Name, x: Announcement, l: Lease)
    requires Apart(a, b, d, e) && Apart(f, g, h, k) && x.part == 0
    ensures var ch := Overflowing(a, b, d, e, f, g, h, k, x, l);
      && ch.Keys == {f, g, h, k} && ChannelsValid(ch) && Bare(ch[f]) && Bare(ch[g]) && Bare(ch[h]) && !ch[f].finite && !ch[f].sealed
      && ch[f].spec == EdgeSpec(f, a, b) && ch[g].spec == LoopSpec(g, b, a, Asynchronous, 5, None)
      && ch[h].spec == LoopSpec(h, d, e, Asynchronous, 5, Some(f)) && ch[k].spec == EdgeSpec(k, e, d) && x.append in ch[k].segs && ch[k].segs[x.append] == Fresh(x, false, false).(delivered := {l})
  {
    hide Channels.Valid, Grows, DropsNothing, Admissible, Hands;
    var ch := Overflowing(a, b, d, e, f, g, h, k, x, l);
    var c0 := NewChannel(EdgeSpec(k, e, d), false);
    assert Bare(c0);
    BareIsValid(ch[f]);
    BareIsValid(ch[g]);
    BareIsValid(ch[h]);
    BareIsValid(c0);
    FirstAdmissible(c0, x);
    IndexedKeeps(c0, x, false);
    HandedKeeps(Indexed(c0, x, false), 0, l);
  }

  lemma OthersOffLoop(ch: ChannelMap, a: Name, b: Name, d: Name, e: Name, f: Name, g: Name, h: Name, k: Name)
    requires Apart(a, b, d, e) && ch.Keys == {f, g, h, k}
    requires ch[f].spec == EdgeSpec(f, a, b) && ch[g].spec == LoopSpec(g, b, a, Asynchronous, 5, None)
    requires ch[h].spec == LoopSpec(h, d, e, Asynchronous, 5, Some(f)) && ch[k].spec == EdgeSpec(k, e, d)
    ensures forall o | OnLoopEnd(Specs(ch), ch[g].spec, Some(o)) :: o == a || o == b
  {
    var edges := ForwardEdges(Specs(ch));
    forall v | v in edges && v.0 in {a, b} ensures v.1 in {a, b} {}
    forall o | OnLoopEnd(Specs(ch), ch[g].spec, Some(o)) ensures o in {a, b} {
      if o !in {a, b} { NothingOutside(edges, {a, b}, a, o); }
    }
  }

  /** The loop is dead and its members only pass on what they get, but the other loop overflows into it and brings it back to life. */
  lemma OverflowWakes(a: Name, b: Name, d: Name, e: Name, f: Name, g: Name, h: Name, k: Name, x: Announcement, y: Announcement, l: Lease)
    requires Apart(a, b, d, e) && Apart(f, g, h, k) && x.part == y.part == 0 && x.records > 0 && y.records > 0
    ensures var ch := Overflowing(a, b, d, e, f, g, h, k, x, l);
      var s := ch[g].spec;
      var dh := ch[f := Indexed(ch[f], y, false)];
      && ChannelsValid(ch) && Dead(ch, Specs(ch), s) && ConsumingLoop(ch, Specs(ch), s) && !NoForeignOverflow(ch, Specs(ch), s)
      && Step(ch, dh) && !Dead(dh, Specs(ch), s)
  {
    hide Channels.Valid, Admissible, Step, OnLoop, Working;
    var ch := Overflowing(a, b, d, e, f, g, h, k, x, l);
    OverflowingState(a, b, d, e, f, g, h, k, x, l);
    hide Overflowing;
    OthersOffLoop(ch, a, b, d, e, f, g, h, k);
    BareIsValid(ch[f]);
    BareIsValid(ch[g]);
    assert HasInbound(ch, a) by { assert ch[g].spec.to == Some(a); }
    assert HasInbound(ch, b) by { assert ch[f].spec.to == Some(b); }
    assert Diverts(ch[h].spec, f, Some(d));
    assert Working(ch, d, l) by { AtWork(ch, d, k, x.append, l); }
    FirstAdmissible(ch[f], y);
    assert Intrudes(ch, Specs(ch), ch[g].spec, f, Some(d), l);
    IntruderWakes(ch, Specs(ch), ch[g].spec, f, Some(d), l, y);
  }

  lemma AtWork(ch: ChannelMap, d: Name, k: Name, a: AppendId, l: Lease)
    requires k in ch && ch[k].spec.to == Some(d) && a in ch[k].segs && l in ch[k].segs[a].delivered && ch[k].segs[a].meta.records > 0
    ensures Working(ch, d, l)
  {
  }
}
