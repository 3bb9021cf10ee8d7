/**
 The state of a coordinator as a whole: the invariant its operations keep across
 channels and operations, and what follows from it.
 */
module States {
  import opened Topology
  import opened Graph
  import opened Channels
  import opened Deliveries
  import opened Operations

  type ChannelMap = map<Name, Channel>
  type OperationMap = map<Name, Operation>

  /** An operation nobody mentioned yet has no pods. */
  function OpOf(ops: OperationMap, name: Name): Operation {
    if name in ops then ops[name] else NoOperation
  }

  function ConsumerOf(ops: OperationMap, spec: Spec): Operation {
    if spec.to.Some? then OpOf(ops, spec.to.value) else NoOperation
  }

  /** What was handed out and which processes ended, in order. */
  datatype Event = Gave(op: Name, key: Key, lease: Lease) | Gone(op: Name, lease: Lease)

  /**
   The ghost history of a run: the last epoch each operation finished, the most
   pods of an operation ever alive at once, the hash deliveries, and for each
   Broadcast segment the cohort slots whose own process acknowledged it.
   */
  datatype History = History(finished: map<Name, int>, mostLive: map<Name, int>, trace: seq<Event>, confirmed: set<Confirmation>)

  /** The process in a cohort slot of the consumer acknowledged what it had been delivered. */
  datatype Confirmation = Confirmation(channel: Name, append: AppendId, slot: int)

  // --- invariant ------------------------------------------------------------------

  ghost predicate ChannelsValid(ch: ChannelMap) {
    forall n | n in ch :: Valid(ch[n]) && ch[n].spec.name == n
  }

  ghost predicate OperationsValid(ops: OperationMap) {
    forall o | o in ops :: ValidOperation(ops[o])
  }

  /** Every delivery names a live pod of the consumer with its active incarnation. */
  ghost predicate LeasesActive(c: Channel, o: Operation) {
    forall a, l | a in c.segs && l in c.segs[a].delivered :: Active(o, l)
  }

  ghost predicate AllLeases(ch: ChannelMap, ops: OperationMap) {
    forall n | n in ch :: LeasesActive(ch[n], ConsumerOf(ops, ch[n].spec))
  }

  /** The segment is released, or in the pod's hands, or acknowledged for its slot. */
  ghost predicate Had(c: Channel, a: AppendId, o: Operation, p: Pod)
    requires p in o.pods
  {
    a in c.segs && (c.segs[a].released || Lease(p, o.pods[p].incarnation) in c.segs[a].delivered || Slot(o.pods[p].slot) in c.segs[a].acked)
  }

  /** A reader is past nothing it still needs. */
  ghost predicate ReadersOk(c: Channel, o: Operation) {
    forall p | p in c.cursor && c.cursor[p] > 0 ::
      && p in o.pods && c.cursor[p] <= |c.log|
      && forall i | 0 <= i < c.cursor[p] :: Had(c, c.log[i], o, p)
  }

  /**
   Broadcast acknowledgements come from cohort slots that were opened, whoever has
   a delivery has yet to acknowledge it, and no reader is past what it needs.
   */
  ghost predicate SlotsKnown(c: Channel, o: Operation) {
    c.spec.IsBroadcast() ==>
      && (forall a, k | a in c.segs && k in c.segs[a].acked :: k.Slot? && 0 <= k.slot < o.nextSlot)
      && (forall a, l | a in c.segs && l in c.segs[a].delivered :: l.pod in o.pods && Slot(o.pods[l.pod].slot) !in c.segs[a].acked)
      && ReadersOk(c, o)
  }

  lemma ReadersStay(c: Channel, d: Channel, o: Operation)
    requires c.spec.IsBroadcast() && ReadersOk(c, o) && ReadersKept(c, d) && Evolves(c, d)
    ensures ReadersOk(d, o)
  {
    forall p, i | p in d.cursor && d.cursor[p] > 0 && 0 <= i < d.cursor[p]
      ensures p in o.pods && d.cursor[p] <= |d.log| && Had(d, d.log[i], o, p)
    {
      assert Had(c, c.log[i], o, p) && d.log[i] == c.log[i];
      assert SegmentEvolves(c.segs[c.log[i]], d.segs[c.log[i]]);
    }
  }

  /** A slot counts as having acknowledged exactly if its own process did. */
  ghost predicate Honest(c: Channel, n: Name, confirmed: set<Confirmation>) {
    c.spec.IsBroadcast() ==>
      forall a, k | a in c.segs :: k in c.segs[a].acked <==> k.Slot? && Confirmation(n, a, k.slot) in confirmed
  }

  ghost predicate AllHonest(ch: ChannelMap, confirmed: set<Confirmation>) {
    && (forall n | n in ch :: Honest(ch[n], n, confirmed))
    && forall v | v in confirmed :: v.channel in ch && v.append in ch[v.channel].segs
  }

  lemma HonestKept(ch: ChannelMap, dh: ChannelMap, confirmed: set<Confirmation>)
    requires AllHonest(ch, confirmed) && ch.Keys == dh.Keys
    requires forall n | n in ch :: Evolves(ch[n], dh[n]) && AckersWithin(ch[n], dh[n], {})
    ensures AllHonest(dh, confirmed)
  {
    forall n | n in ch ensures Honest(dh[n], n, confirmed) {
      assert Evolves(ch[n], dh[n]) && AckersWithin(ch[n], dh[n], {}) && Honest(ch[n], n, confirmed);
      HonestStays(ch[n], dh[n], n, confirmed);
    }
  }

  lemma HonestStays(c: Channel, d: Channel, n: Name, confirmed: set<Confirmation>)
    requires Honest(c, n, confirmed) && Evolves(c, d) && AckersWithin(c, d, {})
    requires forall v | v in confirmed && v.channel == n :: v.append in c.segs
    ensures Honest(d, n, confirmed)
  {
    var none: set<Acker> := {};
    forall a, k | d.spec.IsBroadcast() && a in d.segs
      ensures k in d.segs[a].acked <==> k.Slot? && Confirmation(n, a, k.slot) in confirmed
    {
      assert k !in none;
      var v := Confirmation(n, a, if k.Slot? then k.slot else 0);
      assert v in confirmed ==> v.append in c.segs;
      if a in c.segs { assert SegmentEvolves(c.segs[a], d.segs[a]); }
    }
  }

  ghost predicate AllSlots(ch: ChannelMap, ops: OperationMap) {
    forall n | n in ch :: SlotsKnown(ch[n], ConsumerOf(ops, ch[n].spec))
  }

  ghost function MostLive(h: History, o: Name): int {
    if o in h.mostLive then h.mostLive[o] else 0
  }

  ghost predicate SlotsBounded(ops: OperationMap, h: History) {
    forall o | o in ops :: |ops[o].pods| <= MostLive(h, o) && ops[o].nextSlot <= MostLive(h, o)
  }

  // --- epochs ----------------------------------------------------------------------

  /** The last epoch the operation finished; external producers never finish one. */
  ghost function Fin(finished: map<Name, int>, o: Option<Name>): int {
    if o.Some? && o.value in finished then finished[o.value] else -1
  }

  /** A Synchronous feedback edge carries its producer's output into the next epoch. */
  ghost function Lag(spec: Spec): int {
    if spec.IsSynchronous() then 1 else 0
  }

  /** The consumer's epoch, what its producer closed, and how far apart the two may be. */
  ghost predicate EpochOk(c: Channel, finished: map<Name, int>) {
    c.finite ==>
      && (c.spec.to.Some? ==> c.epoch == Fin(finished, c.spec.to) + 1)
      && (!c.sealed ==>
            && (forall e | e in c.productionClosed :: e <= Fin(finished, c.spec.from) + Lag(c.spec))
            && (c.spec.to.Some? ==> Fin(finished, c.spec.to) <= Fin(finished, c.spec.from) + Lag(c.spec)))
  }

  ghost predicate EpochsOk(ch: ChannelMap, finished: map<Name, int>) {
    && (forall n | n in ch :: EpochOk(ch[n], finished))
    && (forall o | o in finished :: finished[o] >= -1)
  }

  ghost predicate SameShape(ch: ChannelMap, dh: ChannelMap) {
    ch.Keys == dh.Keys && forall n | n in ch :: Evolves(ch[n], dh[n])
  }

  ghost predicate SameClocks(ch: ChannelMap, dh: ChannelMap) {
    ch.Keys == dh.Keys && forall n | n in ch :: SameClock(ch[n], dh[n])
  }

  lemma EpochsKept(ch: ChannelMap, dh: ChannelMap, finished: map<Name, int>)
    requires EpochsOk(ch, finished) && SameShape(ch, dh) && SameClocks(ch, dh)
    ensures EpochsOk(dh, finished)
  {
    forall n | n in dh ensures EpochOk(dh[n], finished) {
      assert Evolves(ch[n], dh[n]) && SameClock(ch[n], dh[n]) && EpochOk(ch[n], finished);
    }
  }

  /** All finite inbound channels of one operation are at the same epoch. */
  lemma SharedEpoch(ch: ChannelMap, finished: map<Name, int>, m: Name, n: Name)
    requires EpochsOk(ch, finished) && m in ch && n in ch && ch[m].finite && ch[n].finite
    requires ch[m].spec.to == ch[n].spec.to && ch[n].spec.to.Some?
    ensures ch[m].epoch == ch[n].epoch
  {
    assert EpochOk(ch[m], finished) && EpochOk(ch[n], finished);
  }

  /** The finite, unsealed edges that keep the epoch. */
  ghost function OpenEdges(ch: ChannelMap): set<Edge> {
    set n | n in ch && ch[n].finite && !ch[n].sealed && !ch[n].spec.IsSynchronous() && ch[n].spec.from.Some? && ch[n].spec.to.Some?
      :: (ch[n].spec.from.value, ch[n].spec.to.value)
  }

  lemma {:induction false} SkewAlongWalk(ch: ChannelMap, finished: map<Name, int>, w: seq<Name>, i: nat)
    requires EpochsOk(ch, finished) && IsWalk(OpenEdges(ch), w) && i < |w|
    ensures Fin(finished, Some(w[i])) <= Fin(finished, Some(w[0]))
  {
    if i > 0 {
      SkewAlongWalk(ch, finished, w, i - 1);
      assert (w[i - 1], w[i - 1 + 1]) in OpenEdges(ch);
      var n :| n in ch && ch[n].finite && !ch[n].sealed && !ch[n].spec.IsSynchronous()
        && ch[n].spec.from == Some(w[i - 1]) && ch[n].spec.to == Some(w[i]);
      assert EpochOk(ch[n], finished);
    }
  }

  /** Downstream of unsealed edges nobody is ahead. */
  lemma SkewBounded(ch: ChannelMap, finished: map<Name, int>, a: Name, b: Name)
    requires EpochsOk(ch, finished) && Reaches(OpenEdges(ch), a, b)
    ensures Fin(finished, Some(b)) <= Fin(finished, Some(a))
  {
    var w :| IsWalkBetween(OpenEdges(ch), w, a, b);
    SkewAlongWalk(ch, finished, w, |w| - 1);
  }

  /** Around a Synchronous loop the two ends of the feedback edge are at most one epoch apart. */
  lemma LoopSkewBounded(ch: ChannelMap, finished: map<Name, int>, n: Name, a: Name, b: Name)
    requires EpochsOk(ch, finished) && n in ch && ch[n].finite && !ch[n].sealed && ch[n].spec.IsSynchronous()
    requires ch[n].spec.from == Some(a) && ch[n].spec.to == Some(b) && Reaches(OpenEdges(ch), b, a)
    ensures Fin(finished, Some(a)) <= Fin(finished, Some(b)) <= Fin(finished, Some(a)) + 1
  {
    SkewBounded(ch, finished, b, a);
    assert EpochOk(ch[n], finished);
  }

  // --- an operation finishes an epoch -------------------------------------------------

  /** Every finite inbound channel is at the epoch and its production of that epoch is closed. */
  ghost predicate InputClosed(ch: ChannelMap, op: Name, e: int) {
    forall n | n in ch && ch[n].finite && ch[n].spec.to == Some(op) :: ch[n].epoch == e && e in ch[n].productionClosed
  }

  ghost predicate ClosesLoop(c: Channel, op: Name, e: int) {
    c.finite && c.spec.from == Some(op) && c.spec.IsSynchronous() && BeyondBound(c.spec, e + 1)
  }

  ghost predicate ClosesEpoch(c: Channel, op: Name, e: int) {
    c.finite && c.spec.from == Some(op) && !ClosesLoop(c, op, e)
  }

  ghost predicate EntersNext(c: Channel, op: Name, e: int) {
    c.finite && c.spec.to == Some(op) && c.epoch == e
  }

  /** What finishing epoch `e` does to the clocks of one channel. */
  ghost predicate ClockAfterFinish(c: Channel, d: Channel, op: Name, e: int) {
    && Evolves(c, d)
    && d.epoch == (if EntersNext(c, op, e) then e + 1 else c.epoch)
    && (!d.sealed ==> !c.sealed && !ClosesLoop(c, op, e))
    && (!d.sealed ==> d.productionClosed == c.productionClosed + (if ClosesEpoch(c, op, e) then {e + Lag(c.spec)} else {}))
  }

  ghost function Finished(finished: map<Name, int>, op: Name, e: int): map<Name, int> {
    finished[op := if e > Fin(finished, Some(op)) then e else Fin(finished, Some(op))]
  }

  lemma EpochsAfterFinish(ch: ChannelMap, dh: ChannelMap, finished: map<Name, int>, op: Name, e: int)
    requires EpochsOk(ch, finished) && InputClosed(ch, op, e)
    requires ch.Keys == dh.Keys && forall n | n in ch :: ClockAfterFinish(ch[n], dh[n], op, e)
    ensures EpochsOk(dh, Finished(finished, op, e))
  {
    var f := Finished(finished, op, e);
    forall n | n in dh ensures EpochOk(dh[n], f) {
      var c := ch[n];
      assert ClockAfterFinish(c, dh[n], op, e) && EpochOk(c, finished);
    }
  }

  lemma HeldEpoch(c: Channel, a: AppendId)
    requires Valid(c) && a in c.held
    ensures a in c.segs && c.segs[a].meta.epoch > c.epoch && !BeyondBound(c.spec, c.segs[a].meta.epoch)
  {
    assert a in c.segs && Placed(c, a);
  }

  /** A loop closed at its bound has room for no held epoch exactly when its consumer reached the last one. */
  ghost predicate AtLastEpoch(c: Channel) {
    c.spec.feedback.Some? && c.epoch + 1 >= c.spec.feedback.value.maxEpochs
  }

  /** A channel at its last epoch holds nothing. */
  lemma LastEpochHoldsNothing(c: Channel)
    requires Valid(c) && AtLastEpoch(c)
    ensures c.held == []
  {
    hide Valid;
    if c.held != [] { HeldEpoch(c, c.held[0]); }
  }

  /**
   Whether the seal at the bound can drop a segment depends on the consumer's
   epoch alone: at its last epoch nothing is held, and before that the next
   announcement for the epoch after it is held and then dropped.
   */
  lemma BoundDropsExactly(ch: ChannelMap, finished: map<Name, int>, n: Name, op: Name, e: int, m: Announcement)
    requires ChannelsValid(ch) && EpochsOk(ch, finished) && InputClosed(ch, op, e) && n in ch && ClosesLoop(ch[n], op, e)
    requires Admissible(ch[n], m) && m.epoch == ch[n].epoch + 1
    ensures var c := Indexed(ch[n], m, false);
      && ChannelsValid(ch[n := c]) && EpochsOk(ch[n := c], finished) && InputClosed(ch[n := c], op, e) && ClosesLoop(c, op, e)
      && (m.append in HeldIds(c) <==> !AtLastEpoch(ch[n]))
      && (AtLastEpoch(ch[n]) <==> DroppedIds(Sealed(c)) == DroppedIds(c))
  {
    hide Valid, DroppedIds, Sealed, Grows, DropsNothing;
    assert Valid(ch[n]) && EpochOk(ch[n], finished);
    var c := Indexed(ch[n], m, false);
    IndexedKeeps(ch[n], m, false);
    SealedKeeps(c);
    HeldNotDropped(c);
    if AtLastEpoch(ch[n]) { LastEpochHoldsNothing(c); }
  }

  lemma HeldNotDropped(c: Channel)
    requires Valid(c)
    ensures HeldIds(c) !! DroppedIds(c)
  {
    forall a | a in HeldIds(c) ensures a !in DroppedIds(c) { assert Placed(c, a); }
  }

  /** Around unsealed edges the consumer has reached the last epoch when its loop closes. */
  lemma OpenLoopIsAtLastEpoch(ch: ChannelMap, finished: map<Name, int>, n: Name, op: Name, b: Name, e: int)
    requires EpochsOk(ch, finished) && InputClosed(ch, op, e)
    requires n in ch && ClosesLoop(ch[n], op, e) && ch[n].spec.to == Some(b) && Reaches(OpenEdges(ch), b, op)
    ensures AtLastEpoch(ch[n])
  {
    var c := ch[n];
    assert EpochOk(c, finished);
    var w :| IsWalkBetween(OpenEdges(ch), w, b, op);
    if |w| == 1 {
      assert c.epoch == e;
    } else {
      var k := |w| - 2;
      SkewAlongWalk(ch, finished, w, k);
      assert (w[k], w[k + 1]) in OpenEdges(ch);
      var m :| m in ch && ch[m].finite && !ch[m].sealed && !ch[m].spec.IsSynchronous()
        && ch[m].spec.from == Some(w[k]) && ch[m].spec.to == Some(op);
      assert EpochOk(ch[m], finished);
      assert c.epoch >= e + 1;
    }
  }

  /**
   When the loop bound seals a feedback channel whose loop runs over unsealed
   edges, it holds no segment: the seal drops nothing.
   */
  lemma BoundDropsNothing(ch: ChannelMap, finished: map<Name, int>, n: Name, op: Name, b: Name, e: int)
    requires ChannelsValid(ch) && EpochsOk(ch, finished) && InputClosed(ch, op, e)
    requires n in ch && ClosesLoop(ch[n], op, e) && ch[n].spec.to == Some(b) && Reaches(OpenEdges(ch), b, op)
    ensures ch[n].held == []
  {
    hide Valid;
    OpenLoopIsAtLastEpoch(ch, finished, n, op, b, e);
    LastEpochHoldsNothing(ch[n]);
  }

  // --- sticky ownership over a run ------------------------------------------------------

  ghost predicate EndedAfter(trace: seq<Event>, i: int, j: int) {
    exists k :: 0 <= i < k < j <= |trace| && trace[i].Gave? && trace[k] == Gone(trace[i].op, trace[i].lease)
  }

  ghost predicate StillOwner(ops: OperationMap, g: Event)
    requires g.Gave?
  {
    var o := OpOf(ops, g.op);
    g.key in o.pinned && g.key in o.owner && o.owner[g.key] == g.lease.pod && Active(o, g.lease)
  }

  /** Work of one hash partition moves to another process only after the first one ended. */
  ghost predicate StickyRun(trace: seq<Event>) {
    forall i, j | 0 <= i < j < |trace| && trace[i].Gave? && trace[j].Gave?
      && trace[i].op == trace[j].op && trace[i].key == trace[j].key && trace[i].lease != trace[j].lease ::
      EndedAfter(trace, i, j)
  }

  ghost predicate OwnersRemembered(ops: OperationMap, trace: seq<Event>) {
    forall i | 0 <= i < |trace| && trace[i].Gave? && !EndedAfter(trace, i, |trace|) :: StillOwner(ops, trace[i])
  }

  ghost predicate Sticky(ops: OperationMap, trace: seq<Event>) {
    StickyRun(trace) && OwnersRemembered(ops, trace)
  }

  lemma EndedAfterAppend(trace: seq<Event>, g: Event, i: int, j: int)
    requires 0 <= i < j <= |trace|
    ensures EndedAfter(trace + [g], i, j) <==> EndedAfter(trace, i, j)
    ensures EndedAfter(trace, i, j) ==> EndedAfter(trace + [g], i, |trace| + 1)
  {
    var t := trace + [g];
    if EndedAfter(trace, i, j) {
      var k :| 0 <= i < k < j <= |trace| && trace[i].Gave? && trace[k] == Gone(trace[i].op, trace[i].lease);
      assert t[k] == Gone(t[i].op, t[i].lease);
    }
    if EndedAfter(t, i, j) {
      var k :| 0 <= i < k < j <= |t| && t[i].Gave? && t[k] == Gone(t[i].op, t[i].lease);
      assert trace[k] == Gone(trace[i].op, trace[i].lease);
    }
  }

  /** A change that takes no partition and no process from its owner. */
  ghost predicate OwnersKept(o: Operation, d: Operation) {
    && (forall k | k in o.pinned && k in o.owner :: k in d.pinned && k in d.owner && d.owner[k] == o.owner[k])
    && (forall l | Active(o, l) :: Active(d, l) && d.pods[l.pod].slot == o.pods[l.pod].slot)
  }

  lemma StickyKept(ops: OperationMap, dps: OperationMap, trace: seq<Event>)
    requires Sticky(ops, trace) && forall o :: OwnersKept(OpOf(ops, o), OpOf(dps, o))
    ensures Sticky(dps, trace)
  {
    forall i | 0 <= i < |trace| && trace[i].Gave? && !EndedAfter(trace, i, |trace|) ensures StillOwner(dps, trace[i]) {
      assert StillOwner(ops, trace[i]);
      assert OwnersKept(OpOf(ops, trace[i].op), OpOf(dps, trace[i].op));
    }
  }

  lemma EndsNow(trace: seq<Event>, g: Event, i: int)
    requires 0 <= i < |trace| && trace[i].Gave? && g == Gone(trace[i].op, trace[i].lease)
    ensures EndedAfter(trace + [g], i, |trace| + 1)
  {
    assert (trace + [g])[|trace|] == g;
  }

  /** Of two deliveries of one partition only the process that still owns it can have had both. */
  lemma SameOwner(ops: OperationMap, trace: seq<Event>, g: Event, i: int)
    requires Sticky(ops, trace) && g.Gave? && StillOwner(ops, g)
    requires 0 <= i < |trace| && trace[i].Gave? && trace[i].op == g.op && trace[i].key == g.key
    ensures EndedAfter(trace, i, |trace|) || trace[i].lease == g.lease
  {
    if !EndedAfter(trace, i, |trace|) {
      assert StillOwner(ops, trace[i]);
      assert trace[i].lease == Lease(g.lease.pod, g.lease.incarnation);
    }
  }

  /** A process ends: nobody else loses a partition. */
  lemma StickyGone(ops: OperationMap, dps: OperationMap, trace: seq<Event>, op: Name, l: Lease)
    requires Sticky(ops, trace) && Active(OpOf(ops, op), l)
    requires forall o | o != op :: OwnersKept(OpOf(ops, o), OpOf(dps, o))
    requires forall k | k in OpOf(ops, op).pinned && k in OpOf(ops, op).owner && OpOf(ops, op).owner[k] != l.pod ::
      k in OpOf(dps, op).pinned && k in OpOf(dps, op).owner && OpOf(dps, op).owner[k] == OpOf(ops, op).owner[k]
    requires forall m | Active(OpOf(ops, op), m) && m.pod != l.pod :: Active(OpOf(dps, op), m)
    ensures Sticky(dps, trace + [Gone(op, l)])
  {
    var t := trace + [Gone(op, l)];
    forall i, j | 0 <= i < j < |t| && t[i].Gave? && t[j].Gave? && t[i].op == t[j].op && t[i].key == t[j].key && t[i].lease != t[j].lease
      ensures EndedAfter(t, i, j)
    {
      EndedAfterAppend(trace, Gone(op, l), i, j);
    }
    forall i | 0 <= i < |t| && t[i].Gave? && !EndedAfter(t, i, |t|) ensures StillOwner(dps, t[i]) {
      EndedAfterAppend(trace, Gone(op, l), i, |trace|);
      assert StillOwner(ops, trace[i]);
      if t[i].op != op {
        assert OwnersKept(OpOf(ops, t[i].op), OpOf(dps, t[i].op));
      } else if t[i].lease == l {
        EndsNow(trace, Gone(op, l), i);
      }
    }
  }

  /** A delivery goes to the owner, so every earlier process with that partition has ended or is the same. */
  lemma StickyGave(ops: OperationMap, dps: OperationMap, trace: seq<Event>, g: Event)
    requires Sticky(ops, trace) && g.Gave? && (forall o :: OwnersKept(OpOf(ops, o), OpOf(dps, o))) && StillOwner(dps, g)
    ensures Sticky(dps, trace + [g])
  {
    StickyKept(ops, dps, trace);
    var t := trace + [g];
    forall i, j | 0 <= i < j < |t| && t[i].Gave? && t[j].Gave? && t[i].op == t[j].op && t[i].key == t[j].key && t[i].lease != t[j].lease
      ensures EndedAfter(t, i, j)
    {
      EndedAfterAppend(trace, g, i, j);
      if j == |trace| { SameOwner(dps, trace, g, i); }
    }
    forall i | 0 <= i < |t| && t[i].Gave? && !EndedAfter(t, i, |t|) ensures StillOwner(dps, t[i]) {
      if i < |trace| {
        EndedAfterAppend(trace, g, i, |trace|);
        assert StillOwner(dps, trace[i]);
      }
    }
  }

  // --- the whole invariant ----------------------------------------------------------------

  ghost predicate StateOk(ch: ChannelMap, ops: OperationMap, h: History) {
    && ChannelsValid(ch)
    && OperationsValid(ops)
    && AllLeases(ch, ops)
    && AllSlots(ch, ops)
    && SlotsBounded(ops, h)
    && EpochsOk(ch, h.finished)
    && Sticky(ops, h.trace)
    && AllHonest(ch, h.confirmed)
  }

  // --- changes that keep it -----------------------------------------------------------------

  /** No channel gains a segment, a lease or an epoch. */
  ghost predicate Quietly(ch: ChannelMap, dh: ChannelMap) {
    ch.Keys == dh.Keys && forall n | n in ch :: QuietChange(ch[n], dh[n])
  }

  ghost predicate QuietChange(c: Channel, d: Channel) {
    Valid(d) && Grows(c, d) && NoNewSegments(c, d)
  }

  lemma QuietlyTransitive(ch: ChannelMap, dh: ChannelMap, eh: ChannelMap)
    requires Quietly(ch, dh) && Quietly(dh, eh)
    ensures Quietly(ch, eh)
  {
    hide Valid, Grows;
    forall n | n in ch ensures QuietChange(ch[n], eh[n]) {
      assert QuietChange(ch[n], dh[n]) && QuietChange(dh[n], eh[n]);
      GrowsTransitive(ch[n], dh[n], eh[n]);
    }
  }

  lemma QuietlyReflexive(ch: ChannelMap)
    requires ChannelsValid(ch)
    ensures Quietly(ch, ch)
  {
    hide Valid;
    forall n | n in ch ensures QuietChange(ch[n], ch[n]) {}
  }

  /** One channel changes quietly. */
  lemma QuietlyOne(ch: ChannelMap, n: Name, d: Channel)
    requires ChannelsValid(ch) && n in ch && QuietChange(ch[n], d)
    ensures Quietly(ch, ch[n := d])
  {
    hide Valid;
    forall m | m in ch ensures QuietChange(ch[m], ch[n := d][m]) {}
  }

  lemma CalmIsQuiet(c: Channel, d: Channel)
    requires CalmBut(c, d, {}) && ReadersKept(c, d)
    ensures QuietChange(c, d)
  {
  }

  lemma LeasesStay(c: Channel, d: Channel, o: Operation)
    requires d.spec == c.spec && LeasesWithin(c, d) && LeasesActive(c, o)
    ensures LeasesActive(d, o)
  {
  }

  lemma SlotsStay(c: Channel, d: Channel, o: Operation)
    requires d.spec == c.spec && AckersWithin(c, d, {}) && LeasesWithin(c, d) && ReadersKept(c, d) && Evolves(c, d) && SlotsKnown(c, o)
    ensures SlotsKnown(d, o)
  {
    if c.spec.IsBroadcast() { ReadersStay(c, d, o); }
    hide ReadersOk, ReadersKept;
    var none: set<Acker> := {};
    forall a, l | a in d.segs && l in d.segs[a].delivered ensures a in c.segs && l in c.segs[a].delivered {}
    forall a, k | a in d.segs && k in d.segs[a].acked ensures a in c.segs && k in c.segs[a].acked { assert k !in none; }
  }

  lemma QuietlyKeeps(ch: ChannelMap, dh: ChannelMap, ops: OperationMap, h: History)
    requires StateOk(ch, ops, h) && Quietly(ch, dh)
    ensures StateOk(dh, ops, h)
  {
    hide Valid, EpochOk, Sticky, ValidOperation, LeasesActive, SlotsKnown, LeasesWithin, AckersWithin, AllHonest;
    forall n | n in dh ensures LeasesActive(dh[n], ConsumerOf(ops, dh[n].spec)) && SlotsKnown(dh[n], ConsumerOf(ops, dh[n].spec)) {
      assert QuietChange(ch[n], dh[n]) && LeasesActive(ch[n], ConsumerOf(ops, ch[n].spec)) && SlotsKnown(ch[n], ConsumerOf(ops, ch[n].spec));
      LeasesStay(ch[n], dh[n], ConsumerOf(ops, ch[n].spec));
      SlotsStay(ch[n], dh[n], ConsumerOf(ops, ch[n].spec));
    }
    forall n | n in dh
      ensures Valid(dh[n]) && dh[n].spec.name == n && Evolves(ch[n], dh[n]) && SameClock(ch[n], dh[n]) && AckersWithin(ch[n], dh[n], {})
    {
      assert QuietChange(ch[n], dh[n]);
    }
    EpochsKept(ch, dh, h.finished);
    HonestKept(ch, dh, h.confirmed);
  }

  ghost function WithLive(h: History, o: Name, live: int): History {
    h.(mostLive := h.mostLive[o := if live > MostLive(h, o) then live else MostLive(h, o)])
  }

  /** An operation changes but every active process stays active and every owner keeps its partitions. */
  lemma OperationKeeps(ch: ChannelMap, ops: OperationMap, h: History, o: Name, d: Operation)
    requires StateOk(ch, ops, h) && ValidOperation(d) && OwnersKept(OpOf(ops, o), d) && OpOf(ops, o).nextSlot <= d.nextSlot
    requires d.nextSlot > OpOf(ops, o).nextSlot ==> d.nextSlot <= |d.pods|
    ensures StateOk(ch, ops[o := d], WithLive(h, o, |d.pods|))
  {
    hide Valid, EpochOk, Sticky, ValidOperation, LeasesActive, SlotsKnown, AllHonest;
    var dps := ops[o := d];
    forall p ensures OwnersKept(OpOf(ops, p), OpOf(dps, p)) {}
    StickyKept(ops, dps, h.trace);
    forall n | n in ch ensures LeasesActive(ch[n], ConsumerOf(dps, ch[n].spec)) && SlotsKnown(ch[n], ConsumerOf(dps, ch[n].spec)) {
      assert LeasesActive(ch[n], ConsumerOf(ops, ch[n].spec)) && SlotsKnown(ch[n], ConsumerOf(ops, ch[n].spec));
      ConsumerKept(ch[n], ConsumerOf(ops, ch[n].spec), ConsumerOf(dps, ch[n].spec));
    }
  }

  lemma ConsumerKept(c: Channel, o: Operation, d: Operation)
    requires LeasesActive(c, o) && SlotsKnown(c, o) && o.nextSlot <= d.nextSlot
    requires forall l | Active(o, l) :: Active(d, l) && d.pods[l.pod].slot == o.pods[l.pod].slot
    ensures LeasesActive(c, d) && SlotsKnown(c, d)
  {
    forall p | p in o.pods ensures p in d.pods && d.pods[p].incarnation == o.pods[p].incarnation && d.pods[p].slot == o.pods[p].slot {
      assert Active(o, Lease(p, o.pods[p].incarnation));
    }
  }

  /** No channel into `op` holds a lease of the pod, or remembers how far it read. */
  ghost predicate NoLeaseOf(ch: ChannelMap, op: Name, pod: Pod) {
    && (forall n, a, l | n in ch && ch[n].spec.to == Some(op) && a in ch[n].segs && l in ch[n].segs[a].delivered :: l.pod != pod)
    && (forall n | n in ch && ch[n].spec.to == Some(op) && ch[n].spec.IsBroadcast() && pod in ch[n].cursor :: ch[n].cursor[pod] <= 0)
  }

  lemma ConsumerEnds(c: Channel, o: Operation, d: Operation, pod: Pod)
    requires LeasesActive(c, o) && SlotsKnown(c, o) && d.nextSlot == o.nextSlot
    requires forall a, l | a in c.segs && l in c.segs[a].delivered :: l.pod != pod
    requires c.spec.IsBroadcast() && pod in c.cursor ==> c.cursor[pod] <= 0
    requires forall m | Active(o, m) && m.pod != pod :: Active(d, m) && d.pods[m.pod].slot == o.pods[m.pod].slot
    ensures LeasesActive(c, d) && SlotsKnown(c, d)
  {
    forall p | p in o.pods && p != pod ensures p in d.pods && d.pods[p].incarnation == o.pods[p].incarnation && d.pods[p].slot == o.pods[p].slot {
      assert Active(o, Lease(p, o.pods[p].incarnation));
    }
  }

  /** A process ends after its deliveries were returned. */
  lemma ProcessEndKeeps(ch: ChannelMap, ops: OperationMap, h: History, op: Name, l: Lease, d: Operation)
    requires StateOk(ch, ops, h) && Active(OpOf(ops, op), l) && NoLeaseOf(ch, op, l.pod) && ValidOperation(d)
    requires d.nextSlot == OpOf(ops, op).nextSlot && |d.pods| <= |OpOf(ops, op).pods|
    requires forall k | k in OpOf(ops, op).pinned && k in OpOf(ops, op).owner && OpOf(ops, op).owner[k] != l.pod ::
      k in d.pinned && k in d.owner && d.owner[k] == OpOf(ops, op).owner[k]
    requires forall m | Active(OpOf(ops, op), m) && m.pod != l.pod :: Active(d, m) && d.pods[m.pod].slot == OpOf(ops, op).pods[m.pod].slot
    ensures StateOk(ch, ops[op := d], h.(trace := h.trace + [Gone(op, l)]))
  {
    hide Valid, EpochOk, StickyRun, ValidOperation, AllHonest, SlotsKnown, LeasesActive;
    var dps := ops[op := d];
    forall o | o != op ensures OwnersKept(OpOf(ops, o), OpOf(dps, o)) {}
    StickyGone(ops, dps, h.trace, op, l);
    forall n | n in ch ensures LeasesActive(ch[n], ConsumerOf(dps, ch[n].spec)) && SlotsKnown(ch[n], ConsumerOf(dps, ch[n].spec)) {
      assert LeasesActive(ch[n], ConsumerOf(ops, ch[n].spec)) && SlotsKnown(ch[n], ConsumerOf(ops, ch[n].spec));
      if ch[n].spec.to == Some(op) { ConsumerEnds(ch[n], OpOf(ops, op), d, l.pod); }
    }
    assert op in ops;
  }

  lemma NoNewAckers(c: Channel)
    ensures AckersWithin(c, c, {})
  {
  }

  /** What a process is handed on a Broadcast channel its slot has not acknowledged yet. */
  ghost predicate Unacknowledged(c: Channel, d: Channel, l: Lease, o: Operation) {
    c.spec.IsBroadcast() && l.pod in o.pods ==>
      forall a | a in d.segs && l in d.segs[a].delivered && !(a in c.segs && l in c.segs[a].delivered) ::
        Slot(o.pods[l.pod].slot) !in d.segs[a].acked
  }

  lemma LeasedSlots(c: Channel, d: Channel, l: Lease, o: Operation)
    requires SlotsKnown(c, o) && Leases(c, d, l) && Active(o, l) && Unacknowledged(c, d, l, o) && (d.spec.IsBroadcast() ==> ReadersOk(d, o))
    ensures SlotsKnown(d, o)
  {
    hide Valid, DropsNothing, ReadersOk;
    var none: set<Acker> := {};
    forall a, k | a in d.segs && k in d.segs[a].acked ensures a in c.segs && k in c.segs[a].acked { assert k !in none; }
  }

  /** An active process leases more of one channel into its operation. */
  lemma LeasingKeeps(ch: ChannelMap, ops: OperationMap, h: History, n: Name, d: Channel, l: Lease)
    requires StateOk(ch, ops, h) && n in ch && Leases(ch[n], d, l) && Active(ConsumerOf(ops, ch[n].spec), l)
    requires Unacknowledged(ch[n], d, l, ConsumerOf(ops, ch[n].spec)) && (d.spec.IsBroadcast() ==> ReadersOk(d, ConsumerOf(ops, ch[n].spec)))
    ensures StateOk(ch[n := d], ops, h)
  {
    hide Valid, EpochOk, Sticky, ValidOperation, SlotsKnown, AckersWithin, AllHonest;
    var dh := ch[n := d];
    LeasedSlots(ch[n], d, l, ConsumerOf(ops, ch[n].spec));
    forall m | m in dh ensures LeasesActive(dh[m], ConsumerOf(ops, dh[m].spec)) && SlotsKnown(dh[m], ConsumerOf(ops, dh[m].spec)) {
      assert LeasesActive(ch[m], ConsumerOf(ops, ch[m].spec)) && SlotsKnown(ch[m], ConsumerOf(ops, ch[m].spec));
    }
    NoNewAckers(ch[n]);
    forall m | m in dh
      ensures Evolves(ch[m], dh[m]) && SameClock(ch[m], dh[m]) && Valid(dh[m]) && dh[m].spec.name == m && AckersWithin(ch[m], dh[m], {})
    {
      assert Valid(ch[m]);
      NoNewAckers(ch[m]);
    }
    EpochsKept(ch, dh, h.finished);
    HonestKept(ch, dh, h.confirmed);
  }
}
