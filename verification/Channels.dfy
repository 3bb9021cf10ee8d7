/**
 One channel of the coordinator: where each announced segment is, who holds a
 lease on it, and the record counters. A segment is named by its append id.
 */
module Channels {
  import opened Topology
  import opened Sums

  /** Pod names; only their equality and their order matter. */
  type Pod = int
  type SessionId(==, !new)
  type AppendId(==, !new)
  type SegmentId(==, !new)
  type Host(==, !new)
  /** What else an announcement says: the emitting operation, its task and the encoded size. */
  type Detail(==, !new)

  /** A process incarnation. Workers of the legacy protocol have none. */
  datatype Incarnation = NoSession | Session(id: SessionId)

  /** A fetched-but-unacknowledged delivery belongs to one process. */
  datatype Lease = Lease(pod: Pod, incarnation: Incarnation)

  /** A Broadcast segment is acknowledged per cohort slot, any other per pod. */
  datatype Acker = Slot(slot: int) | Replica(pod: Pod)

  datatype Announcement = Announcement(
    append: AppendId,
    id: SegmentId,
    holder: Host,
    producer: Pod,
    part: int,
    epoch: int,
    records: nat,
    durable: bool,
    detail: Detail)

  datatype Segment = Segment(
    meta: Announcement,
    external: bool,
    delivered: set<Lease>,
    acked: set<Acker>,
    retryAfter: map<Lease, int>,
    lost: bool,
    released: bool)

  datatype Channel = Channel(
    spec: Spec,
    finite: bool,
    sealed: bool,
    produced: int,
    overflowed: int,
    lost: int,
    acknowledged: int,
    epoch: int,
    productionClosed: set<int>,
    queues: seq<seq<AppendId>>,
    log: seq<AppendId>,
    cursor: map<Pod, int>,
    inflight: set<AppendId>,
    held: seq<AppendId>,
    segs: map<AppendId, Segment>,
    all: set<AppendId>)

  // --- invariant --------------------------------------------------------------

  ghost predicate NoDup<T>(s: seq<T>) {
    forall i, j | 0 <= i < j < |s| :: s[i] != s[j]
  }

  ghost predicate Queued(c: Channel, a: AppendId)
    requires a in c.segs
  {
    0 <= c.segs[a].meta.part < |c.queues| && a in c.queues[c.segs[a].meta.part]
  }

  /** The epoch is beyond the loop bound, so `Index` drops the segment. */
  predicate BeyondBound(spec: Spec, epoch: int) {
    spec.feedback.Some? && epoch >= spec.feedback.value.maxEpochs
  }

  ghost predicate Placed(c: Channel, a: AppendId)
    requires a in c.segs
  {
    var s := c.segs[a];
    && (s.delivered != {} <==> a in c.inflight)
    && (s.lost ==> s.released && s.delivered == {})
    && (!s.released ==> a in c.all)
    && (a in c.held ==> s.delivered == {} && s.acked == {} && !s.released)
    && (BeyondBound(c.spec, s.meta.epoch) ==> s.released && !s.lost && s.acked == {} && s.delivered == {})
    && (!c.spec.IsBroadcast() ==> PlacedOnce(c, a))
    && (c.spec.IsBroadcast() && !s.released ==> a in c.log || a in c.held)
    && !(a in c.log && a in c.held)
  }

  /** On a partitioned channel a live segment is in exactly one place, a released one in none. */
  ghost predicate PlacedOnce(c: Channel, a: AppendId)
    requires a in c.segs
  {
    var s := c.segs[a];
    && 0 <= s.meta.part < |c.queues|
    && (s.released ==> !Queued(c, a) && a !in c.inflight && a !in c.held)
    && (!s.released ==> Queued(c, a) || a in c.inflight || a in c.held)
    && !(Queued(c, a) && a in c.inflight)
    && !(Queued(c, a) && a in c.held)
    && !(a in c.inflight && a in c.held)
    && (s.acked != {} ==> s.released && !s.lost)
    && (s.released && !s.lost && s.acked == {} && !BeyondBound(c.spec, s.meta.epoch) ==> c.sealed && c.spec.IsSynchronous())
    && (forall l, m | l in s.delivered && m in s.delivered :: l == m)
  }

  ghost predicate Places(c: Channel) {
    forall a | a in c.segs :: Placed(c, a) && c.segs[a].meta.append == a
  }

  ghost predicate Queues(c: Channel) {
    && c.spec.partitions > 0
    && |c.queues| == c.spec.partitions
    && (forall p, a | 0 <= p < |c.queues| && a in c.queues[p] :: a in c.segs && c.segs[a].meta.part == p)
    && (forall p | 0 <= p < |c.queues| :: NoDup(c.queues[p]))
    && (c.spec.IsBroadcast() ==> forall p | 0 <= p < |c.queues| :: c.queues[p] == [])
  }

  ghost predicate Lists(c: Channel) {
    && NoDup(c.held) && (forall a | a in c.held :: a in c.segs)
    && (forall a | a in c.log :: a in c.segs)
    && c.inflight <= c.segs.Keys
    && c.all <= c.segs.Keys
    && (!c.spec.IsBroadcast() ==> c.log == [])
    && (forall p | p in c.cursor :: 0 <= c.cursor[p] <= |c.log|)
  }

  /** No two indexed segments share a holder and an id. */
  ghost predicate KeysUnique(c: Channel) {
    forall a, b | a in c.all && b in c.all && a in c.segs && b in c.segs && SameKey(c.segs[a].meta, c.segs[b].meta) :: a == b
  }

  ghost predicate Placement(c: Channel) {
    Places(c) && Queues(c) && Lists(c) && KeysUnique(c)
  }

  predicate SameKey(m: Announcement, n: Announcement) {
    m.holder == n.holder && m.id == n.id
  }

  /**
   The superstep barrier: on a finite partitioned channel everything that can be
   delivered carries the channel's epoch and everything held a later one. A
   segment without records carries no work and is exempt.
   */
  ghost predicate Barrier(c: Channel) {
    && (!c.finite ==> c.held == [])
    && (forall a | a in c.held && a in c.segs :: c.segs[a].meta.epoch > c.epoch)
    && (c.finite && !c.spec.IsBroadcast() ==>
          forall a | a in c.segs && (Queued(c, a) || a in c.inflight) && c.segs[a].meta.records > 0 ::
            c.segs[a].meta.epoch == c.epoch)
  }

  ghost function RecordsOf(segs: map<AppendId, Segment>): map<AppendId, int> {
    map a | a in segs :: segs[a].meta.records
  }

  ghost function Admitted(c: Channel): set<AppendId> {
    set a | a in c.segs && !BeyondBound(c.spec, c.segs[a].meta.epoch)
  }

  ghost function QueuedIds(c: Channel): set<AppendId> {
    set a | a in c.segs && Queued(c, a)
  }

  ghost function HeldIds(c: Channel): set<AppendId> {
    set a | a in c.segs && a in c.held
  }

  ghost function AckedIds(c: Channel): set<AppendId> {
    set a | a in c.segs && c.segs[a].acked != {}
  }

  ghost function LostIds(c: Channel): set<AppendId> {
    set a | a in c.segs && c.segs[a].lost
  }

  /** Segments that a seal dropped while they were held. */
  ghost function DroppedIds(c: Channel): set<AppendId> {
    set a | a in c.segs && c.segs[a].released && !c.segs[a].lost && c.segs[a].acked == {} && !BeyondBound(c.spec, c.segs[a].meta.epoch)
  }

  ghost predicate Counted(c: Channel) {
    !c.spec.IsBroadcast() && c.spec.to.Some? ==>
      && c.produced == Total(RecordsOf(c.segs), Admitted(c))
      && c.acknowledged == Total(RecordsOf(c.segs), AckedIds(c))
      && c.lost == Total(RecordsOf(c.segs), LostIds(c))
  }

  ghost predicate Valid(c: Channel) {
    Placement(c) && Barrier(c) && Counted(c)
  }

  // --- how a channel may change ---------------------------------------------------

  /** Facts about a channel that no operation ever takes back. */
  ghost predicate Evolves(c: Channel, d: Channel) {
    && d.spec == c.spec && d.finite == c.finite
    && (c.sealed ==> d.sealed)
    && c.epoch <= d.epoch && c.productionClosed <= d.productionClosed
    && c.segs.Keys <= d.segs.Keys
    && (forall a | a in c.segs :: SegmentEvolves(c.segs[a], d.segs[a]))
    && (forall a | a in d.all && a in c.segs :: a in c.all)
  }

  ghost predicate SegmentEvolves(s: Segment, t: Segment) {
    && t.meta == s.meta
    && (s.released ==> t.released)
    && (s.lost ==> t.lost)
    && s.acked <= t.acked
  }

  /** Neither the epoch nor the closed epochs moved, unless the channel was sealed. */
  ghost predicate SameClock(c: Channel, d: Channel) {
    d.epoch == c.epoch && (!d.sealed ==> d.productionClosed == c.productionClosed)
  }

  ghost predicate NoNewSegments(c: Channel, d: Channel) {
    d.segs.Keys == c.segs.Keys
  }

  ghost predicate LeasesWithin(c: Channel, d: Channel) {
    forall a, l | a in d.segs && l in d.segs[a].delivered :: a in c.segs && l in c.segs[a].delivered
  }

  ghost predicate AckersWithin(c: Channel, d: Channel, k: set<Acker>) {
    forall a, x | a in d.segs && x in d.segs[a].acked :: x in k || (a in c.segs && x in c.segs[a].acked)
  }

  /** A change that brings in no lease and does not move the epoch. */
  ghost predicate Grows(c: Channel, d: Channel) {
    Evolves(c, d) && SameClock(c, d) && LeasesWithin(c, d) && AckersWithin(c, d, {}) && ReadersKept(c, d)
  }

  /**
   The log of a Broadcast channel grows at its end only, and a reader goes back
   rather than lose what it was given: a cursor that is not at the start keeps the
   deliveries of its pod, but for those of released segments.
   */
  ghost predicate ReadersKept(c: Channel, d: Channel) {
    c.spec.IsBroadcast() ==>
      && c.log <= d.log
      && forall p | p in d.cursor && d.cursor[p] > 0 ::
           && p in c.cursor && d.cursor[p] <= c.cursor[p]
           && forall a, l: Lease | a in c.segs && l in c.segs[a].delivered && l.pod == p :: a in d.segs && (l in d.segs[a].delivered || d.segs[a].released)
  }

  /** What was queued or logged stays in front. */
  ghost predicate GrowsBehind(c: Channel, d: Channel) {
    && |d.queues| == |c.queues| && c.log <= d.log
    && forall p | 0 <= p < |c.queues| :: c.queues[p] <= d.queues[p]
  }

  lemma ReadersTransitive(c: Channel, d: Channel, e: Channel)
    requires ReadersKept(c, d) && ReadersKept(d, e) && Evolves(c, d) && Evolves(d, e)
    ensures ReadersKept(c, e)
  {
    forall a | a in d.segs ensures a in e.segs && SegmentEvolves(d.segs[a], e.segs[a]) {}
  }

  ghost predicate Keeps(c: Channel, d: Channel, k: set<Acker>) {
    && Evolves(c, d) && SameClock(c, d) && NoNewSegments(c, d)
    && LeasesWithin(c, d) && AckersWithin(c, d, k) && d.sealed == c.sealed
  }

  /** A change that brings in no segment, lease or epoch, and no acknowledger but those of `k`. */
  ghost predicate CalmBut(c: Channel, d: Channel, k: set<Acker>) {
    Valid(d) && Keeps(c, d, k) && DropsNothing(c, d)
  }

  /** On a partitioned channel no segment is released without being acknowledged or lost: only a seal does that. */
  ghost predicate DropsNothing(c: Channel, d: Channel) {
    !c.spec.IsBroadcast() ==> DroppedIds(d) == DroppedIds(c)
  }

  // --- indexing ---------------------------------------------------------------------

  predicate KeyTaken(c: Channel, m: Announcement) {
    exists b :: b in c.all && b in c.segs && SameKey(c.segs[b].meta, m)
  }

  predicate InRange(c: Channel, m: Announcement) {
    c.spec.IsBroadcast() || 0 <= m.part < |c.queues|
  }

  function Fresh(m: Announcement, external: bool, dropped: bool): Segment {
    Segment(m, external, {}, {}, map[], false, dropped)
  }

  /** The queues with one more segment at the end of its partition's queue. */
  function Enqueue(c: Channel, a: AppendId, part: int): seq<seq<AppendId>> {
    if !c.spec.IsBroadcast() && 0 <= part < |c.queues| then c.queues[part := c.queues[part] + [a]] else c.queues
  }

  function EnqueueLog(c: Channel, a: AppendId): seq<AppendId> {
    if c.spec.IsBroadcast() then c.log + [a] else c.log
  }

  predicate Waits(c: Channel, m: Announcement) {
    c.finite && m.epoch > c.epoch
  }

  /** Adds a segment to the channel's structures. */
  function Indexed(c: Channel, m: Announcement, external: bool): Channel {
    var dropped := BeyondBound(c.spec, m.epoch);
    c.(segs := c.segs[m.append := Fresh(m, external, dropped)],
       all := c.all + {m.append},
       produced := if dropped then c.produced else c.produced + m.records,
       held := if !dropped && Waits(c, m) then c.held + [m.append] else c.held,
       queues := if dropped || Waits(c, m) then c.queues else Enqueue(c, m.append, m.part),
       log := if dropped || Waits(c, m) then c.log else EnqueueLog(c, m.append))
  }

  // --- delivering, acknowledging, returning -------------------------------------------

  /** The head of a queue goes to a process. */
  function Handed(c: Channel, p: nat, l: Lease): Channel
    requires p < |c.queues| && c.queues[p] != [] && c.queues[p][0] in c.segs
  {
    var a := c.queues[p][0];
    c.(queues := c.queues[p := c.queues[p][1..]],
       segs := c.segs[a := c.segs[a].(delivered := c.segs[a].delivered + {l})],
       inflight := c.inflight + {a})
  }

  /** A Broadcast segment also goes to one more process. */
  function Copied(c: Channel, a: AppendId, l: Lease): Channel
    requires a in c.segs
  {
    c.(segs := c.segs[a := c.segs[a].(delivered := c.segs[a].delivered + {l})], inflight := c.inflight + {a})
  }

  function InflightWithout(c: Channel, a: AppendId, left: set<Lease>): set<AppendId> {
    if left == {} then c.inflight - {a} else c.inflight
  }

  /** A released segment loses the copy the coordinator holds, unless the channel retains it. */
  function FreedSegment(s: Segment, retained: bool): Segment {
    s.(released := true, external := s.external && retained)
  }

  function AllAfterFree(c: Channel, a: AppendId): set<AppendId>
    requires a in c.segs
  {
    if c.segs[a].external && !c.spec.retained then c.all - {a} else c.all
  }

  /** Nothing needs the segment any more. */
  function Freed(c: Channel, a: AppendId): Channel
    requires a in c.segs
  {
    c.(segs := c.segs[a := FreedSegment(c.segs[a], c.spec.retained)], all := AllAfterFree(c, a))
  }

  function AckedSegment(s: Segment, l: Lease, k: Acker): Segment {
    s.(delivered := s.delivered - {l}, retryAfter := s.retryAfter - {l}, acked := s.acked + {k})
  }

  /** One acknowledgement is definitive on a partitioned channel, and only there. */
  function Acked(c: Channel, a: AppendId, l: Lease, k: Acker): Channel
    requires a in c.segs
  {
    var s := c.segs[a];
    var t := AckedSegment(s, l, k);
    c.(segs := c.segs[a := if c.spec.IsBroadcast() then t else FreedSegment(t, c.spec.retained)],
       acknowledged := if k in s.acked then c.acknowledged else c.acknowledged + s.meta.records,
       inflight := InflightWithout(c, a, t.delivered),
       all := if c.spec.IsBroadcast() then c.all else AllAfterFree(c, a))
  }

  function Requeue(c: Channel, a: AppendId, part: int): seq<seq<AppendId>> {
    if 0 <= part < |c.queues| then c.queues[part := [a] + c.queues[part]] else c.queues
  }

  /** A process gives a delivery back, optionally not before `retryAt`. */
  function Nacked(c: Channel, a: AppendId, l: Lease, retryAt: Option<int>): Channel
    requires a in c.segs
  {
    var s := c.segs[a];
    var part := s.meta.part;
    var back := !c.spec.IsBroadcast() && !s.lost && !s.released && 0 <= part < |c.queues| && a !in c.queues[part];
    c.(segs := c.segs[a := s.(delivered := s.delivered - {l},
                              retryAfter := if retryAt.Some? then s.retryAfter[l := retryAt.value] else s.retryAfter)],
       inflight := InflightWithout(c, a, s.delivered - {l}),
       cursor := if c.spec.IsBroadcast() then c.cursor[l.pod := 0] else c.cursor,
       queues := if back then Requeue(c, a, part) else c.queues)
  }

  /** A delivery of a gone process goes back to the head of its queue. */
  function Returned(c: Channel, a: AppendId, l: Lease): Channel
    requires a in c.segs
  {
    var s := c.segs[a];
    c.(segs := c.segs[a := s.(delivered := s.delivered - {l})],
       inflight := if c.spec.IsBroadcast() then InflightWithout(c, a, s.delivered - {l}) else c.inflight - {a},
       queues := if c.spec.IsBroadcast() || s.lost then c.queues else Requeue(c, a, s.meta.part))
  }

  function Without<T(==, !new)>(s: seq<T>, x: T): (r: seq<T>)
    ensures forall y :: y in r <==> y in s && y != x
    ensures x !in s ==> r == s
  {
    if s == [] then []
    else if s[0] == x then Without(s[1..], x)
    else [s[0]] + Without(s[1..], x)
  }

  function QueuesWithout(c: Channel, a: AppendId, part: int): seq<seq<AppendId>> {
    if !c.spec.IsBroadcast() && 0 <= part < |c.queues| then c.queues[part := Without(c.queues[part], a)] else c.queues
  }

  function MarkedLost(c: Channel, a: AppendId): Channel
    requires a in c.segs
  {
    var s := c.segs[a];
    c.(segs := c.segs[a := s.(lost := true, released := true, delivered := {})],
       lost := c.lost + s.meta.records,
       inflight := c.inflight - {a},
       queues := QueuesWithout(c, a, s.meta.part),
       held := Without(c.held, a))
  }

  /** The deletion of the segment's bytes was handed to its holder. */
  function Forgotten(c: Channel, a: AppendId): Channel {
    c.(all := c.all - {a})
  }

  /** A seal drops what a Synchronous loop still holds for later epochs. */
  ghost function Sealed(c: Channel): Channel {
    c.(sealed := true,
       productionClosed := c.productionClosed + {c.epoch},
       segs := map a | a in c.segs :: SealedSegment(c, a),
       held := if c.spec.IsSynchronous() then [] else c.held)
  }

  ghost function SealedSegment(c: Channel, a: AppendId): Segment
    requires a in c.segs
  {
    c.segs[a].(released := c.segs[a].released || (c.spec.IsSynchronous() && a in c.held))
  }

  // --- lemmas: each change keeps the invariant -------------------------------------------

  lemma {:induction false} WithoutNoDup<T(!new)>(s: seq<T>, x: T)
    requires NoDup(s)
    ensures NoDup(Without(s, x))
  {
    if s != [] {
      WithoutNoDup(s[1..], x);
      var r := Without(s[1..], x);
      if s[0] != x {
        forall i, j | 0 <= i < j < |[s[0]] + r| ensures ([s[0]] + r)[i] != ([s[0]] + r)[j] {
          if i == 0 { assert r[j - 1] in s[1..]; }
        }
      }
    }
  }

  lemma CalmTransitive(c: Channel, d: Channel, e: Channel, k: set<Acker>)
    requires CalmBut(c, d, k) && CalmBut(d, e, k)
    ensures CalmBut(c, e, k)
  {
  }

  lemma EvolvesTransitive(c: Channel, d: Channel, e: Channel)
    requires Evolves(c, d) && Evolves(d, e)
    ensures Evolves(c, e)
  {
  }
}
