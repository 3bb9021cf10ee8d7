/** The loops over one channel: counting, delivering, returning, losing and promoting segments. */
module ChannelOps {
  import opened Topology
  import opened Sums
  import opened Channels
  import opened Deliveries

  // --- counting -----------------------------------------------------------------

  ghost function QueueIds(c: Channel, n: nat): set<AppendId>
    requires n <= |c.queues|
  {
    set p, a | 0 <= p < n && a in c.queues[p] :: a
  }

  function Ids(s: seq<AppendId>): set<AppendId> {
    set a | a in s
  }

  method SumRecords(c: Channel, ids: seq<AppendId>) returns (n: int)
    requires NoDup(ids) && forall a | a in ids :: a in c.segs
    ensures n == RecordsIn(c, Ids(ids))
  {
    n := 0;
    var w := RecordsOf(c.segs);
    for i := 0 to |ids|
      invariant n == Total(w, Ids(ids[..i]))
    {
      n := n + c.segs[ids[i]].meta.records;
      assert Ids(ids[..i + 1]) == Ids(ids[..i]) + {ids[i]};
      TotalAdd(w, Ids(ids[..i]), ids[i]);
    }
    assert ids[..|ids|] == ids;
  }

  lemma QueuesPlaced(c: Channel)
    requires Valid(c)
    ensures forall p | 0 <= p < |c.queues| :: NoDup(c.queues[p])
    ensures forall p, a | 0 <= p < |c.queues| && a in c.queues[p] :: a in c.segs && c.segs[a].meta.part == p
    ensures c.inflight <= c.segs.Keys
  {
  }

  lemma QueueIdsNext(c: Channel, p: nat)
    requires p < |c.queues| && forall q, a | 0 <= q < |c.queues| && a in c.queues[q] :: a in c.segs && c.segs[a].meta.part == q
    ensures QueueIds(c, p + 1) == QueueIds(c, p) + Ids(c.queues[p]) && QueueIds(c, p) !! Ids(c.queues[p])
    ensures QueueIds(c, p + 1) <= c.segs.Keys
  {
    forall a | a in Ids(c.queues[p]) ensures a in QueueIds(c, p + 1) { assert p < p + 1 && a in c.queues[p]; }
    forall a | a in QueueIds(c, p) ensures a in QueueIds(c, p + 1) && a !in Ids(c.queues[p]) {
      var q :| 0 <= q < p && a in c.queues[q];
      assert q < p + 1 && c.segs[a].meta.part == q;
    }
  }

  lemma QueueIdsAll(c: Channel)
    requires forall q, a | 0 <= q < |c.queues| && a in c.queues[q] :: a in c.segs && c.segs[a].meta.part == q
    ensures QueueIds(c, |c.queues|) == QueuedIds(c)
  {
  }

  /** The records of a partitioned channel that no process has fetched yet. */
  method PendingRecords(c: Channel) returns (n: int)
    requires Valid(c) && !c.spec.IsBroadcast()
    ensures n == RecordsIn(c, QueuedIds(c))
  {
    hide Valid, QueueIds, Ids, QueuedIds, RecordsOf;
    QueuesPlaced(c);
    n := 0;
    var w := RecordsOf(c.segs);
    NoQueueIds(c);
    for p := 0 to |c.queues|
      invariant QueueIds(c, p) <= c.segs.Keys && w.Keys == c.segs.Keys
      invariant n == Total(w, QueueIds(c, p))
    {
      var m := SumRecords(c, c.queues[p]);
      QueueIdsNext(c, p);
      TotalUnion(w, QueueIds(c, p), Ids(c.queues[p]));
      n := n + m;
    }
    QueueIdsAll(c);
  }

  lemma NoQueueIds(c: Channel)
    ensures QueueIds(c, 0) == {} && RecordsOf(c.segs).Keys == c.segs.Keys && Total(RecordsOf(c.segs), {}) == 0
  {
  }

  /** Records of log entries from a cursor on that are neither lost nor released. */
  method UnreadRecords(c: Channel, from: nat) returns (n: nat)
    requires Valid(c) && from <= |c.log|
    ensures n == 0 <==> UnreadIsEmpty(c, from)
  {
    n := 0;
    for i := from to |c.log|
      invariant n == 0 <==> forall j | from <= j < i :: NoWork(c, c.log[j])
    {
      assert c.log[i] in c.log;
      var s := c.segs[c.log[i]];
      if !s.lost && !s.released { n := n + s.meta.records; }
    }
  }

  ghost predicate NoWork(c: Channel, a: AppendId) {
    a in c.segs ==> c.segs[a].released || c.segs[a].lost || c.segs[a].meta.records == 0
  }

  ghost predicate UnreadIsEmpty(c: Channel, from: int) {
    forall j | 0 <= from <= j < |c.log| :: NoWork(c, c.log[j])
  }

  ghost predicate NothingPending(c: Channel) {
    if c.spec.IsBroadcast() then
      if c.cursor == map[] then UnreadIsEmpty(c, 0) else forall p | p in c.cursor :: UnreadIsEmpty(c, c.cursor[p])
    else forall a | a in QueuedIds(c) :: c.segs[a].meta.records == 0
  }

  /** Nothing pending or in flight at the current epoch. */
  ghost predicate IsQuiet(c: Channel) {
    NothingPending(c) && c.inflight == {}
  }

  method Quiet(c: Channel) returns (quiet: bool)
    requires Valid(c)
    ensures quiet <==> IsQuiet(c)
  {
    hide Valid, UnreadIsEmpty;
    if c.spec.IsBroadcast() {
      var n: nat;
      LogPlaced(c);
      if c.cursor == map[] {
        n := UnreadRecords(c, 0);
      } else {
        n := 0;
        var rest := c.cursor.Keys;
        while rest != {}
          invariant rest <= c.cursor.Keys
          invariant n == 0 <==> forall p | p in c.cursor.Keys - rest :: UnreadIsEmpty(c, c.cursor[p])
          decreases rest
        {
          ghost var some := Witness(rest);
          var p :| p in rest;
          rest := rest - {p};
          var m := UnreadRecords(c, c.cursor[p]);
          n := n + m;
        }
      }
      quiet := n == 0 && c.inflight == {};
    } else {
      var n := PendingRecords(c);
      TotalZero(RecordsOf(c.segs), QueuedIds(c));
      quiet := n == 0 && c.inflight == {};
    }
  }

  /** No live segment of the channel carries a record. */
  ghost predicate Empty(c: Channel) {
    forall a | a in c.segs :: c.segs[a].released || c.segs[a].meta.records == 0
  }

  /** A partitioned channel that is quiet and holds nothing is empty. */
  lemma QuietIsEmpty(c: Channel)
    requires Valid(c) && !c.spec.IsBroadcast() && IsQuiet(c) && (forall a | a in c.held :: c.segs[a].meta.records == 0)
    ensures Empty(c)
  {
    forall a | a in c.segs ensures c.segs[a].released || c.segs[a].meta.records == 0 {
      assert Placed(c, a);
      assert Queued(c, a) ==> a in QueuedIds(c);
    }
  }

  // --- delivering ---------------------------------------------------------------------

  /** The process gave the segment back for later. */
  ghost predicate Delayed(s: Segment, l: Lease, now: int) {
    l in s.retryAfter && s.retryAfter[l] > now
  }

  lemma QueuePlaced(c: Channel, p: nat)
    requires Valid(c) && p < |c.queues|
    ensures NoDup(c.queues[p])
    ensures forall a | a in c.queues[p] :: a in c.segs && !c.segs[a].released
  {
    forall a | a in c.queues[p] ensures a in c.segs && !c.segs[a].released { assert Placed(c, a); }
  }

  lemma LeasesReflexive(c: Channel, l: Lease)
    requires Valid(c)
    ensures Leases(c, c, l)
  {
  }

  /** Exactly the front `ids` of the partition's queue went to the process, in order. */
  ghost predicate FrontTaken(c: Channel, d: Channel, p: nat, l: Lease, ids: seq<AppendId>)
    requires p < |c.queues|
  {
    && |ids| <= |c.queues[p]| && ids == c.queues[p][..|ids|]
    && d.queues == c.queues[p := c.queues[p][|ids|..]]
    && d.inflight == c.inflight + Ids(ids)
    && d.cursor == c.cursor && d.held == c.held && d.log == c.log && d.segs.Keys == c.segs.Keys
    && (forall a | a in ids :: a in c.segs && d.segs[a] == c.segs[a].(delivered := c.segs[a].delivered + {l}))
    && (forall a | a in c.segs && a !in ids :: d.segs[a] == c.segs[a])
  }

  lemma FrontTakenNone(c: Channel, p: nat, l: Lease)
    requires p < |c.queues|
    ensures FrontTaken(c, c, p, l, [])
  {
  }

  lemma FrontTakenNext(c: Channel, d: Channel, p: nat, l: Lease, ids: seq<AppendId>)
    requires p < |c.queues| == |d.queues| && FrontTaken(c, d, p, l, ids) && d.queues[p] != [] && d.queues[p][0] in d.segs
    requires NoDup(c.queues[p])
    ensures FrontTaken(c, Handed(d, p, l), p, l, ids + [d.queues[p][0]])
    ensures d.queues[p][0] == c.queues[p][|ids|] && d.segs[d.queues[p][0]] == c.segs[d.queues[p][0]]
  {
    var a := d.queues[p][0];
    assert a == c.queues[p][|ids|];
    assert Ids(ids + [a]) == Ids(ids) + {a};
  }

  /** The front of one partition's queue goes to a process, in order. */
  method DeliverPartition(c: Channel, p: nat, l: Lease, budget: nat, now: int) returns (d: Channel, ids: seq<AppendId>)
    requires Valid(c) && p < |c.queues|
    ensures Leases(c, d, l) && FrontTaken(c, d, p, l, ids) && |d.queues| == |c.queues|
    ensures |ids| <= budget && forall a | a in ids :: a in c.segs && !c.segs[a].released
    ensures |ids| < budget && |ids| < |c.queues[p]| ==>
      c.queues[p][|ids|] in c.segs && Delayed(c.segs[c.queues[p][|ids|]], l, now)
  {
    hide Valid, Hands, FrontTaken, Handed;
    LeasesReflexive(c, l);
    QueuePlaced(c, p);
    FrontTakenNone(c, p, l);
    d, ids := c, [];
    while |d.queues[p]| > 0 && |ids| < budget
      invariant Leases(c, d, l) && FrontTaken(c, d, p, l, ids) && |d.queues| == |c.queues|
      invariant |d.queues[p]| == |c.queues[p]| - |ids|
      invariant |ids| <= budget && forall a | a in ids :: a in c.segs && !c.segs[a].released
      decreases |d.queues[p]|
    {
      var a := d.queues[p][0];
      HandedKeeps(d, p, l);
      FrontTakenNext(c, d, p, l, ids);
      if l in d.segs[a].retryAfter && now < d.segs[a].retryAfter[l] { break; }
      LeasesTransitive(c, d, Handed(d, p, l), l);
      FrontShorter(c, Handed(d, p, l), p, l, ids + [a]);
      d := Handed(d, p, l);
      ids := ids + [a];
    }
  }

  lemma FrontShorter(c: Channel, d: Channel, p: nat, l: Lease, ids: seq<AppendId>)
    requires p < |c.queues| && FrontTaken(c, d, p, l, ids)
    ensures |d.queues| == |c.queues| && |d.queues[p]| == |c.queues[p]| - |ids|
    ensures forall a | a in ids :: a in c.queues[p]
  {
  }

  lemma LeasesTransitive(c: Channel, d: Channel, e: Channel, l: Lease)
    requires Leases(c, d, l) && Leases(d, e, l)
    ensures Leases(c, e, l)
  {
  }

  function AtCursor(c: Channel, pod: Pod, at: int): Channel {
    c.(cursor := c.cursor[pod := at])
  }

  lemma SideSame(c: Channel, d: Channel)
    requires d == c.(cursor := d.cursor, overflowed := d.overflowed)
    ensures Keeps(c, d, {}) && (Places(c) ==> Places(d))
  {
    if Places(c) {
      forall b | b in d.segs ensures Placed(d, b) && d.segs[b].meta.append == b { assert Placed(c, b); }
    }
  }

  /** Cursors and the overflow count are beside the invariant. */
  lemma SideKeeps(c: Channel, d: Channel)
    requires Valid(c) && d == c.(cursor := d.cursor, overflowed := d.overflowed)
    requires forall p | p in d.cursor :: (p in c.cursor && d.cursor[p] == c.cursor[p]) || 0 <= d.cursor[p] <= |d.log|
    ensures CalmBut(c, d, {})
  {
    hide Places, Keeps;
    CountersKept(c, d);
    SideSame(c, d);
  }

  lemma CursorKeeps(c: Channel, l: Lease, at: nat)
    requires Valid(c) && at <= |c.log|
    ensures Leases(c, AtCursor(c, l.pod, at), l)
  {
    hide Valid;
    SideKeeps(c, AtCursor(c, l.pod, at));
  }

  lemma LogPlaced(c: Channel)
    requires Valid(c)
    ensures forall a | a in c.log :: a in c.segs && a !in c.held && (c.segs[a].lost ==> c.segs[a].released)
    ensures forall p | p in c.cursor :: 0 <= c.cursor[p] <= |c.log|
  {
    forall a | a in c.log ensures a in c.segs && a !in c.held && (c.segs[a].lost ==> c.segs[a].released) { assert Placed(c, a); }
  }

  /** A process of cohort slot `slot` reads the log of a Broadcast channel from its cursor on. */
  method DeliverLog(c: Channel, l: Lease, slot: int, budget: nat, now: int) returns (d: Channel, ids: seq<AppendId>)
    requires Valid(c) && c.spec.IsBroadcast() && l.pod in c.cursor
    ensures Leases(c, d, l)
    ensures |ids| <= budget && LogRead(c, d, slot, l, ids)
    ensures |ids| < budget ==> LogExhausted(d, l, now)
  {
    hide Valid, Hands, LogRead, AtCursor, Copied;
    LeasesReflexive(c, l);
    LogPlaced(c);
    LogReadNone(c, slot, l);
    d, ids := c, [];
    while d.cursor[l.pod] < |d.log| && |ids| < budget
      invariant Leases(c, d, l) && LogRead(c, d, slot, l, ids)
      invariant d.cursor.Keys == c.cursor.Keys && c.cursor[l.pod] <= d.cursor[l.pod] <= |c.log| && d.log == c.log
      invariant |ids| <= budget
      decreases |c.log| - d.cursor[l.pod]
    {
      var a := d.log[d.cursor[l.pod]];
      assert a in d.log;
      LogPlaced(d);
      var s := d.segs[a];
      if l in s.retryAfter && now < s.retryAfter[l] { break; }
      LogReadBounds(c, d, slot, l, ids);
      CursorKeeps(d, l, d.cursor[l.pod] + 1);
      ghost var d0 := d;
      d := AtCursor(d, l.pod, d.cursor[l.pod] + 1);
      LeasesTransitive(c, d0, d, l);
      LogReadNext(c, d0, slot, l, ids);
      if !(s.lost || s.released || Slot(slot) in s.acked) {
        CopiedKeeps(d, a, l);
        LeasesTransitive(c, d, Copied(d, a, l), l);
        d := Copied(d, a, l);
        ids := ids + [a];
      }
    }
  }

  /** The entries of a piece of the log that the cohort slot has not acknowledged and that are not released, in order. */
  ghost function Unread(segs: map<AppendId, Segment>, slot: int, log: seq<AppendId>): seq<AppendId> {
    if log == [] then []
    else
      var a := log[|log| - 1];
      Unread(segs, slot, log[..|log| - 1]) + (if a in segs && !segs[a].released && Slot(slot) !in segs[a].acked then [a] else [])
  }

  ghost function LeasedTo(segs: map<AppendId, Segment>, ids: seq<AppendId>, l: Lease): map<AppendId, Segment> {
    map a | a in segs :: if a in ids then segs[a].(delivered := segs[a].delivered + {l}) else segs[a]
  }

  /** Reading the log on leased the unread entries between the two cursors, in order, and did nothing else. */
  ghost predicate LogRead(c: Channel, d: Channel, slot: int, l: Lease, ids: seq<AppendId>) {
    && l.pod in c.cursor && l.pod in d.cursor && 0 <= c.cursor[l.pod] <= d.cursor[l.pod] <= |c.log|
    && ids == Unread(c.segs, slot, c.log[c.cursor[l.pod]..d.cursor[l.pod]])
    && d == c.(cursor := c.cursor[l.pod := d.cursor[l.pod]], inflight := c.inflight + Ids(ids), segs := LeasedTo(c.segs, ids, l))
  }

  /** The reader is at the end of the log, or at an entry it gave back for later. */
  ghost predicate LogExhausted(c: Channel, l: Lease, now: int) {
    l.pod in c.cursor && (0 <= c.cursor[l.pod] < |c.log| ==> c.log[c.cursor[l.pod]] in c.segs && Delayed(c.segs[c.log[c.cursor[l.pod]]], l, now))
  }

  lemma LogReadNone(c: Channel, slot: int, l: Lease)
    requires l.pod in c.cursor && 0 <= c.cursor[l.pod] <= |c.log|
    ensures LogRead(c, c, slot, l, [])
  {
    assert c.cursor[l.pod := c.cursor[l.pod]] == c.cursor;
    assert LeasedTo(c.segs, [], l) == c.segs;
    assert c.inflight + Ids([]) == c.inflight;
  }

  lemma LogReadBounds(c: Channel, d: Channel, slot: int, l: Lease, ids: seq<AppendId>)
    requires LogRead(c, d, slot, l, ids)
    ensures d.spec == c.spec && l.pod in d.cursor && d.log == c.log && d.cursor.Keys == c.cursor.Keys && d.segs.Keys == c.segs.Keys
    ensures forall at :: AtCursor(d, l.pod, at).segs == d.segs && AtCursor(d, l.pod, at).log == d.log
    ensures forall at :: AtCursor(d, l.pod, at).held == d.held && AtCursor(d, l.pod, at).spec == d.spec
    ensures forall at :: AtCursor(d, l.pod, at).cursor == d.cursor[l.pod := at]
    ensures forall at, a | a in d.segs ::
      var e := AtCursor(d, l.pod, at);
      Copied(e, a, l).log == d.log && Copied(e, a, l).cursor == e.cursor
  {
  }

  lemma {:induction false} UnreadAre(segs: map<AppendId, Segment>, slot: int, log: seq<AppendId>)
    ensures forall a :: a in Unread(segs, slot, log) <==> a in log && a in segs && !segs[a].released && Slot(slot) !in segs[a].acked
  {
    if log != [] {
      UnreadAre(segs, slot, log[..|log| - 1]);
      assert log == log[..|log| - 1] + [log[|log| - 1]];
    }
  }

  lemma LogReadNext(c: Channel, d: Channel, slot: int, l: Lease, ids: seq<AppendId>)
    requires LogRead(c, d, slot, l, ids) && 0 <= d.cursor[l.pod] < |d.log| && d.log[d.cursor[l.pod]] in d.segs
    requires var s := d.segs[d.log[d.cursor[l.pod]]]; s.lost ==> s.released
    ensures var a, e := d.log[d.cursor[l.pod]], AtCursor(d, l.pod, d.cursor[l.pod] + 1);
      if d.segs[a].lost || d.segs[a].released || Slot(slot) in d.segs[a].acked then LogRead(c, e, slot, l, ids)
      else LogRead(c, Copied(e, a, l), slot, l, ids + [a])
  {
    hide Unread, Ids;
    var from, at := c.cursor[l.pod], d.cursor[l.pod];
    var a := c.log[at];
    UnreadNext(c.segs, slot, c.log, from, at);
    IdsNext(ids, a);
    var e := AtCursor(d, l.pod, at + 1);
    assert e.cursor == c.cursor[l.pod := at + 1];
    if !(d.segs[a].lost || d.segs[a].released || Slot(slot) in d.segs[a].acked) {
      assert Copied(e, a, l).segs == LeasedTo(c.segs, ids + [a], l);
      assert Copied(e, a, l).inflight == c.inflight + Ids(ids + [a]);
    }
  }

  lemma IdsNext(ids: seq<AppendId>, a: AppendId)
    ensures Ids(ids + [a]) == Ids(ids) + {a}
  {
  }

  lemma UnreadNext(segs: map<AppendId, Segment>, slot: int, log: seq<AppendId>, from: int, at: int)
    requires 0 <= from <= at < |log|
    ensures Unread(segs, slot, log[from..at + 1])
         == Unread(segs, slot, log[from..at]) + (if log[at] in segs && !segs[log[at]].released && Slot(slot) !in segs[log[at]].acked then [log[at]] else [])
  {
    var s := log[from..at + 1];
    assert s[..|s| - 1] == log[from..at];
  }

  // --- acknowledging and giving back -------------------------------------------------------

  /** The part of an acknowledgement or refusal that names the segment. */
  datatype Receipt = Receipt(append: AppendId, id: SegmentId, retryAfter: nat)

  /** The receipt names the segment by both of its ids. */
  ghost predicate Names(c: Channel, r: Receipt) {
    r.append in c.segs && c.segs[r.append].meta.id == r.id
  }

  ghost predicate Receipted(c: Channel, rs: seq<Receipt>, a: AppendId) {
    exists r :: r in rs && r.append == a && Names(c, r)
  }

  lemma ReceiptedNext(c: Channel, rs: seq<Receipt>, i: nat, a: AppendId)
    requires i < |rs|
    ensures Receipted(c, rs[..i + 1], a) <==> Receipted(c, rs[..i], a) || (a == rs[i].append && Names(c, rs[i]))
  {
    assert rs[..i + 1] == rs[..i] + [rs[i]];
    if Receipted(c, rs[..i + 1], a) {
      var r :| r in rs[..i + 1] && r.append == a && Names(c, r);
      assert r == rs[i] || r in rs[..i];
    }
    if Receipted(c, rs[..i], a) {
      var r :| r in rs[..i] && r.append == a && Names(c, r);
      assert r in rs[..i + 1];
    }
    assert rs[i] in rs[..i + 1];
  }

  /** The process gave the segment back as acknowledged; on a partitioned channel that releases it. */
  ghost predicate AckedAs(s: Segment, t: Segment, broadcast: bool, retained: bool, l: Lease, k: Acker) {
    && t.meta == s.meta && t.lost == s.lost
    && t.acked == s.acked + {k} && t.delivered == s.delivered - {l} && t.retryAfter == s.retryAfter - {l}
    && t.released == (s.released || !broadcast)
    && t.external == (s.external && (broadcast || retained))
  }

  lemma AckedIs(c: Channel, a: AppendId, l: Lease, k: Acker)
    requires a in c.segs
    ensures Acked(c, a, l, k).segs.Keys == c.segs.Keys && forall b | b in c.segs && b != a :: Acked(c, a, l, k).segs[b] == c.segs[b]
    ensures AckedAs(c.segs[a], Acked(c, a, l, k).segs[a], c.spec.mode == Broadcast, c.spec.retained, l, k)
  {
  }

  lemma AckedOnce(s: Segment, t: Segment, broadcast: bool, retained: bool, l: Lease, k: Acker)
    requires AckedAs(s, t, broadcast, retained, l, k)
    ensures l !in t.delivered && t.meta == s.meta
  {
  }

  ghost predicate AckedExactly(c: Channel, d: Channel, l: Lease, k: Acker, rs: seq<Receipt>)
    requires c.segs.Keys == d.segs.Keys
  {
    forall a | a in c.segs ::
      if Receipted(c, rs, a) && l in c.segs[a].delivered then
        AckedAs(c.segs[a], d.segs[a], c.spec.mode == Broadcast, c.spec.retained, l, k)
      else d.segs[a] == c.segs[a]
  }

  lemma NoneAcked(c: Channel, l: Lease, k: Acker)
    ensures AckedExactly(c, c, l, k, [])
  {
  }

  lemma AckedNext(c: Channel, d: Channel, l: Lease, k: Acker, rs: seq<Receipt>, i: nat)
    requires i < |rs| && d.spec == c.spec && c.segs.Keys == d.segs.Keys && AckedExactly(c, d, l, k, rs[..i])
    requires forall a | a in c.segs :: d.segs[a].meta == c.segs[a].meta
    ensures Names(d, rs[i]) && l in d.segs[rs[i].append].delivered ==>
      AckedExactly(c, Acked(d, rs[i].append, l, k), l, k, rs[..i + 1])
    ensures !(Names(d, rs[i]) && l in d.segs[rs[i].append].delivered) ==> AckedExactly(c, d, l, k, rs[..i + 1])
  {
    hide Acked, AckedAs, Receipted;
    forall a ensures Receipted(c, rs[..i + 1], a) <==> Receipted(c, rs[..i], a) || (a == rs[i].append && Names(c, rs[i])) {
      ReceiptedNext(c, rs, i, a);
    }
    var a := rs[i].append;
    if Names(d, rs[i]) && l in d.segs[a].delivered {
      AckedIs(d, a, l, k);
      if Receipted(c, rs[..i], a) && l in c.segs[a].delivered {
        AckedOnce(c.segs[a], d.segs[a], c.spec.mode == Broadcast, c.spec.retained, l, k);
        assert false;
      }
    }
  }

  /** The named deliveries of the process. */
  ghost function Takes(c: Channel, l: Lease, rs: seq<Receipt>): set<AppendId> {
    set a | a in c.segs && Receipted(c, rs, a) && l in c.segs[a].delivered
  }

  ghost function FirstTakes(c: Channel, l: Lease, k: Acker, rs: seq<Receipt>): set<AppendId> {
    set a | a in Takes(c, l, rs) && a in c.segs && k !in c.segs[a].acked
  }

  /**
   The records of those the acknowledger did not have before are counted, and a
   segment whose bytes the coordinator held leaves the index when it is released,
   unless the channel retains it.
   */
  ghost predicate AckedBeside(c: Channel, d: Channel, l: Lease, k: Acker, rs: seq<Receipt>) {
    && d.acknowledged == c.acknowledged + RecordsIn(c, FirstTakes(c, l, k, rs))
    && forall a :: a in d.all <==> a in c.all && !(a in Takes(c, l, rs) && a in c.segs && c.spec.mode != Broadcast && c.segs[a].external && !c.spec.retained)
  }

  lemma NothingBeside(c: Channel, l: Lease, k: Acker)
    ensures AckedBeside(c, c, l, k, [])
  {
    assert FirstTakes(c, l, k, []) == {};
  }

  lemma TakesNext(c: Channel, l: Lease, rs: seq<Receipt>, i: nat)
    requires i < |rs|
    ensures Takes(c, l, rs[..i + 1]) == Takes(c, l, rs[..i])
      + (if Names(c, rs[i]) && l in c.segs[rs[i].append].delivered then {rs[i].append} else {})
  {
    hide Receipted;
    forall a ensures Receipted(c, rs[..i + 1], a) <==> Receipted(c, rs[..i], a) || (a == rs[i].append && Names(c, rs[i])) {
      ReceiptedNext(c, rs, i, a);
    }
  }

  lemma BesideNext(c: Channel, d: Channel, l: Lease, k: Acker, rs: seq<Receipt>, i: nat)
    requires i < |rs| && d.spec == c.spec && c.segs.Keys == d.segs.Keys && AckedExactly(c, d, l, k, rs[..i]) && AckedBeside(c, d, l, k, rs[..i])
    requires forall a | a in c.segs :: d.segs[a].meta == c.segs[a].meta
    ensures Names(d, rs[i]) && l in d.segs[rs[i].append].delivered ==> AckedBeside(c, Acked(d, rs[i].append, l, k), l, k, rs[..i + 1])
    ensures !(Names(d, rs[i]) && l in d.segs[rs[i].append].delivered) ==> AckedBeside(c, d, l, k, rs[..i + 1])
  {
    hide Receipted, AckedAs, Takes, RecordsIn;
    TakesNext(c, l, rs, i);
    var a := rs[i].append;
    var before := FirstTakes(c, l, k, rs[..i]);
    if Names(d, rs[i]) && l in d.segs[a].delivered {
      NotTaken(c, d, l, k, rs[..i], a);
      var now := FirstTakes(c, l, k, rs[..i + 1]);
      if k in c.segs[a].acked {
        assert now == before;
      } else {
        assert now == before + {a};
        RecordsInNext(c, before, a);
      }
    } else {
      AlreadyTaken(c, d, l, k, rs[..i], rs[i]);
      assert Takes(c, l, rs[..i + 1]) == Takes(c, l, rs[..i]);
    }
  }

  lemma RecordsInNext(c: Channel, ids: set<AppendId>, a: AppendId)
    requires a in c.segs && a !in ids && ids <= c.segs.Keys
    ensures RecordsIn(c, ids + {a}) == RecordsIn(c, ids) + c.segs[a].meta.records
  {
    TotalAdd(RecordsOf(c.segs), ids, a);
  }

  lemma NotTaken(c: Channel, d: Channel, l: Lease, k: Acker, rs: seq<Receipt>, a: AppendId)
    requires c.segs.Keys == d.segs.Keys && AckedExactly(c, d, l, k, rs) && a in d.segs && l in d.segs[a].delivered
    ensures a !in Takes(c, l, rs) && a in c.segs && d.segs[a] == c.segs[a]
  {
    hide Receipted, AckedAs;
    if Receipted(c, rs, a) && l in c.segs[a].delivered {
      AckedOnce(c.segs[a], d.segs[a], c.spec.mode == Broadcast, c.spec.retained, l, k);
      assert false;
    }
  }

  lemma AlreadyTaken(c: Channel, d: Channel, l: Lease, k: Acker, rs: seq<Receipt>, r: Receipt)
    requires c.segs.Keys == d.segs.Keys && AckedExactly(c, d, l, k, rs) && forall a | a in c.segs :: d.segs[a].meta == c.segs[a].meta
    requires !(Names(d, r) && l in d.segs[r.append].delivered)
    ensures Names(c, r) && l in c.segs[r.append].delivered ==> r.append in Takes(c, l, rs)
  {
    hide Receipted;
  }

  /** Exactly the named segments that the process holds are acknowledged, and on a partitioned channel released. */
  method AckAll(c: Channel, l: Lease, k: Acker, rs: seq<Receipt>) returns (d: Channel)
    requires Valid(c)
    ensures CalmBut(c, d, {k}) && AckedExactly(c, d, l, k, rs) && AckedBeside(c, d, l, k, rs) && d.cursor == c.cursor && d.log == c.log
  {
    hide Valid, Evolves, SameClock, LeasesWithin, AckersWithin, AckedExactly, AckedBeside;
    CalmReflexive(c, {k});
    NoneAcked(c, l, k);
    NothingBeside(c, l, k);
    assert rs[..0] == [];
    d := c;
    for i := 0 to |rs|
      invariant CalmBut(c, d, {k}) && d.spec == c.spec && AckedExactly(c, d, l, k, rs[..i]) && d.cursor == c.cursor && d.log == c.log
      invariant AckedBeside(c, d, l, k, rs[..i])
      invariant forall a | a in c.segs :: d.segs[a].meta == c.segs[a].meta
    {
      var r := rs[i];
      AckedNext(c, d, l, k, rs, i);
      BesideNext(c, d, l, k, rs, i);
      if r.append in d.segs && d.segs[r.append].meta.id == r.id && l in d.segs[r.append].delivered {
        var a := r.append;
        AckedKeeps(d, a, l, k);
        CalmTransitive(c, d, Acked(d, a, l, k), {k});
        d := Acked(d, a, l, k);
      }
    }
    assert rs[..|rs|] == rs;
  }

  lemma CalmReflexive(c: Channel, k: set<Acker>)
    requires Valid(c)
    ensures CalmBut(c, c, k)
  {
  }

  lemma ReadersReflexive(c: Channel)
    ensures ReadersKept(c, c)
  {
  }

  ghost predicate ReturnedExactly(c: Channel, d: Channel, l: Lease, rs: seq<Receipt>)
    requires c.segs.Keys == d.segs.Keys
  {
    forall a | a in c.segs ::
      if Receipted(c, rs, a) && l in c.segs[a].delivered then
        d.segs[a] == c.segs[a].(delivered := c.segs[a].delivered - {l}, retryAfter := d.segs[a].retryAfter)
      else d.segs[a] == c.segs[a]
  }

  lemma NoneReturned(c: Channel, l: Lease)
    ensures ReturnedExactly(c, c, l, []) && QueuesEndWith(c, c)
  {
  }

  lemma ReturnedNext(c: Channel, d: Channel, l: Lease, rs: seq<Receipt>, i: nat, at: Option<int>)
    requires i < |rs| && c.segs.Keys == d.segs.Keys && ReturnedExactly(c, d, l, rs[..i])
    ensures Names(d, rs[i]) && l in d.segs[rs[i].append].delivered ==>
      ReturnedExactly(c, Nacked(d, rs[i].append, l, at), l, rs[..i + 1])
    ensures !(Names(d, rs[i]) && l in d.segs[rs[i].append].delivered) ==> ReturnedExactly(c, d, l, rs[..i + 1])
  {
    forall a ensures Receipted(c, rs[..i + 1], a) <==> Receipted(c, rs[..i], a) || (a == rs[i].append && Names(c, rs[i])) {
      ReceiptedNext(c, rs, i, a);
    }
  }

  /** The first receipt for a delivery says how long its process is not to get it again. */
  ghost predicate RetriesSet(c: Channel, d: Channel, l: Lease, rs: seq<Receipt>, now: int)
    requires c.segs.Keys == d.segs.Keys
  {
    forall a | a in c.segs && l in c.segs[a].delivered && Receipted(c, rs, a) ::
      exists i: nat :: RetriedBy(c.segs[a].retryAfter, d.segs[a].retryAfter, c, l, rs, i, a, now)
  }

  ghost predicate RetriedBy(before: map<Lease, int>, after: map<Lease, int>, c: Channel, l: Lease, rs: seq<Receipt>, i: nat, a: AppendId, now: int) {
    i < |rs| && FirstFor(c, rs, i, a) && after == if rs[i].retryAfter > 0 then before[l := now + rs[i].retryAfter] else before
  }

  ghost predicate FirstFor(c: Channel, rs: seq<Receipt>, i: nat, a: AppendId)
    requires i < |rs|
  {
    rs[i].append == a && Names(c, rs[i]) && forall j | 0 <= j < i :: !(rs[j].append == a && Names(c, rs[j]))
  }

  /** A Broadcast reader that gives something back reads from the start of the log again. */
  ghost predicate StartsOver(c: Channel, d: Channel, l: Lease, rs: seq<Receipt>) {
    d.cursor == if c.spec.IsBroadcast() && exists a :: a in c.segs && l in c.segs[a].delivered && Receipted(c, rs, a)
                then c.cursor[l.pod := 0] else c.cursor
  }

  lemma NoneRetried(c: Channel, l: Lease, now: int)
    ensures RetriesSet(c, c, l, [], now) && StartsOver(c, c, l, [])
  {
  }

  lemma RetriedNext(c: Channel, d: Channel, l: Lease, rs: seq<Receipt>, i: nat, now: int)
    requires i < |rs| && d.spec == c.spec && c.segs.Keys == d.segs.Keys && ReturnedExactly(c, d, l, rs[..i])
    requires RetriesSet(c, d, l, rs[..i], now) && StartsOver(c, d, l, rs[..i])
    ensures var r := rs[i];
      var at := if r.retryAfter > 0 then Some(now + r.retryAfter) else None;
      var e := if Names(d, r) && l in d.segs[r.append].delivered then Nacked(d, r.append, l, at) else d;
      RetriesSet(c, e, l, rs[..i + 1], now) && StartsOver(c, e, l, rs[..i + 1])
  {
    hide Receipted, RetriedBy, RetriesSet;
    forall a ensures Receipted(c, rs[..i + 1], a) <==> Receipted(c, rs[..i], a) || (a == rs[i].append && Names(c, rs[i])) {
      ReceiptedNext(c, rs, i, a);
    }
    var r := rs[i];
    var at := if r.retryAfter > 0 then Some(now + r.retryAfter) else None;
    var e := if Names(d, r) && l in d.segs[r.append].delivered then Nacked(d, r.append, l, at) else d;
    assert RetriesSet(c, e, l, rs[..i + 1], now) by { RetriedAll(c, d, e, l, rs, i, now); }
  }

  lemma RetriedAll(c: Channel, d: Channel, e: Channel, l: Lease, rs: seq<Receipt>, i: nat, now: int)
    requires i < |rs| && c.segs.Keys == d.segs.Keys && ReturnedExactly(c, d, l, rs[..i]) && RetriesSet(c, d, l, rs[..i], now)
    requires var at := if rs[i].retryAfter > 0 then Some(now + rs[i].retryAfter) else None;
      e == if Names(d, rs[i]) && l in d.segs[rs[i].append].delivered then Nacked(d, rs[i].append, l, at) else d
    ensures e.segs.Keys == c.segs.Keys && RetriesSet(c, e, l, rs[..i + 1], now)
  {
    hide Receipted, RetriedBy;
    var some := rs[..i + 1];
    forall a | a in c.segs && l in c.segs[a].delivered && Receipted(c, some, a)
      ensures exists k: nat :: RetriedBy(c.segs[a].retryAfter, e.segs[a].retryAfter, c, l, some, k, a, now)
    {
      ReceiptedNext(c, rs, i, a);
      if Receipted(c, rs[..i], a) {
        var k: nat :| RetriedBy(c.segs[a].retryAfter, d.segs[a].retryAfter, c, l, rs[..i], k, a, now);
        assert e.segs[a].retryAfter == d.segs[a].retryAfter;
        RetriedStill(c.segs[a].retryAfter, d.segs[a].retryAfter, c, l, rs, i, k, a, now);
      } else {
        FirstNow(c, rs, i, a);
        RetriedHere(c.segs[a].retryAfter, e.segs[a].retryAfter, c, l, rs, i, a, now);
      }
    }
  }

  lemma RetriedStill(before: map<Lease, int>, after: map<Lease, int>, c: Channel, l: Lease, rs: seq<Receipt>, i: nat, k: nat, a: AppendId, now: int)
    requires i < |rs| && RetriedBy(before, after, c, l, rs[..i], k, a, now)
    ensures RetriedBy(before, after, c, l, rs[..i + 1], k, a, now)
  {
    forall j | 0 <= j <= k ensures rs[..i + 1][j] == rs[..i][j] {}
  }

  lemma RetriedHere(before: map<Lease, int>, after: map<Lease, int>, c: Channel, l: Lease, rs: seq<Receipt>, i: nat, a: AppendId, now: int)
    requires i < |rs| && FirstFor(c, rs[..i + 1], i, a)
    requires after == if rs[i].retryAfter > 0 then before[l := now + rs[i].retryAfter] else before
    ensures RetriedBy(before, after, c, l, rs[..i + 1], i, a, now)
  {
  }

  lemma FirstNow(c: Channel, rs: seq<Receipt>, i: nat, a: AppendId)
    requires i < |rs| && a == rs[i].append && Names(c, rs[i]) && !Receipted(c, rs[..i], a)
    ensures FirstFor(c, rs[..i + 1], i, a)
  {
    var some, before := rs[..i + 1], rs[..i];
    forall j | 0 <= j < i ensures !(some[j].append == a && Names(c, some[j])) {
      assert some[j] == before[j] && before[j] in before;
    }
  }

  /** Exactly the named deliveries of the process go back; a Broadcast reader starts over. */
  method NackAll(c: Channel, l: Lease, rs: seq<Receipt>, now: int) returns (d: Channel)
    requires Valid(c)
    ensures CalmBut(c, d, {}) && ReturnedExactly(c, d, l, rs) && ReadersKept(c, d)
    ensures QueuesEndWith(c, d) && RetriesSet(c, d, l, rs, now) && StartsOver(c, d, l, rs)
  {
    hide Valid, Evolves, SameClock, LeasesWithin, AckersWithin, ReturnedExactly, QueuesEndWith, ReadersKept, RetriesSet, StartsOver;
    CalmReflexive(c, {});
    ReadersReflexive(c);
    NoneReturned(c, l);
    NoneRetried(c, l, now);
    assert rs[..0] == [];
    d := c;
    for i := 0 to |rs|
      invariant CalmBut(c, d, {}) && ReturnedExactly(c, d, l, rs[..i]) && QueuesEndWith(c, d) && ReadersKept(c, d)
      invariant RetriesSet(c, d, l, rs[..i], now) && StartsOver(c, d, l, rs[..i]) && d.spec == c.spec
    {
      var r := rs[i];
      var at := if r.retryAfter > 0 then Some(now + r.retryAfter) else None;
      ReturnedNext(c, d, l, rs, i, at);
      RetriedNext(c, d, l, rs, i, now);
      if r.append in d.segs && d.segs[r.append].meta.id == r.id && l in d.segs[r.append].delivered {
        var a := r.append;
        NackedKeeps(d, a, l, at);
        CalmTransitive(c, d, Nacked(d, a, l, at), {});
        NackedReaders(d, a, l, at);
        ReadersTransitive(c, d, Nacked(d, a, l, at));
        RequeuedEnds(c, d, Nacked(d, a, l, at), a, d.segs[a].meta.part);
        d := Nacked(d, a, l, at);
      }
    }
    assert rs[..|rs|] == rs;
  }

  /** The older entries keep their order at the end of the queue. */
  ghost predicate EndsWith<T>(s: seq<T>, t: seq<T>) {
    |t| <= |s| && s[|s| - |t|..] == t
  }

  ghost predicate QueuesEndWith(c: Channel, d: Channel) {
    |d.queues| == |c.queues| && forall p | 0 <= p < |c.queues| :: EndsWith(d.queues[p], c.queues[p])
  }

  lemma RequeuedEnds(c: Channel, d: Channel, e: Channel, a: AppendId, part: int)
    requires QueuesEndWith(c, d) && (e.queues == d.queues || e.queues == Requeue(d, a, part))
    ensures QueuesEndWith(c, e)
  {
    forall p | 0 <= p < |c.queues| ensures EndsWith(e.queues[p], c.queues[p]) {
      assert EndsWith(d.queues[p], c.queues[p]);
      var q := d.queues[p];
      assert ([a] + q)[|q| + 1 - |c.queues[p]|..] == q[|q| - |c.queues[p]|..];
    }
  }

  // --- a process goes away ---------------------------------------------------------------------

  ghost predicate OwnedBy(l: Lease, pod: Pod, incarnation: Incarnation, all: bool) {
    l.pod == pod && (all || l.incarnation == incarnation)
  }

  ghost predicate OneLeasePerPod(c: Channel) {
    forall a, l, m | a in c.segs && l in c.segs[a].delivered && m in c.segs[a].delivered && l.pod == m.pod :: l == m
  }

  ghost predicate LeasesDropped(c: Channel, d: Channel, done: set<AppendId>, pod: Pod, incarnation: Incarnation, all: bool)
    requires c.segs.Keys == d.segs.Keys
  {
    forall a | a in c.segs ::
      if a in done then
        && d.segs[a] == c.segs[a].(delivered := d.segs[a].delivered)
        && (forall l | l in c.segs[a].delivered :: l in d.segs[a].delivered <==> !OwnedBy(l, pod, incarnation, all))
        && (forall l | l in d.segs[a].delivered :: l in c.segs[a].delivered)
      else d.segs[a] == c.segs[a]
  }

  lemma DroppedNext(c: Channel, d: Channel, done: set<AppendId>, a: AppendId, l: Lease, pod: Pod, incarnation: Incarnation, all: bool)
    requires OneLeasePerPod(c) && c.segs.Keys == d.segs.Keys && LeasesDropped(c, d, done, pod, incarnation, all)
    requires a in c.segs && a !in done && l in c.segs[a].delivered && OwnedBy(l, pod, incarnation, all)
    ensures LeasesDropped(c, Returned(d, a, l), done + {a}, pod, incarnation, all)
  {
    assert d.segs[a] == c.segs[a];
    assert forall m | m in c.segs[a].delivered :: OwnedBy(m, pod, incarnation, all) <==> m == l;
  }

  method LeasesOf(s: Segment, pod: Pod, incarnation: Incarnation, all: bool) returns (owned: set<Lease>)
    ensures owned == (set l | l in s.delivered && OwnedBy(l, pod, incarnation, all)) && forall l | l in owned :: l.pod == pod
  {
    owned := set l | l in s.delivered && l.pod == pod && (all || l.incarnation == incarnation);
  }

  /** Every delivery of the process goes back, no other changes, and its Broadcast cursor is forgotten. */
  method ReturnDeliveries(c: Channel, pod: Pod, incarnation: Incarnation, all: bool) returns (d: Channel)
    requires Valid(c) && OneLeasePerPod(c)
    ensures CalmBut(c, d, {}) && LeasesDropped(c, d, c.inflight, pod, incarnation, all)
    ensures forall a, l | a in d.segs && l in d.segs[a].delivered :: !OwnedBy(l, pod, incarnation, all)
    ensures QueuesEndWith(c, d)
    ensures d.cursor == c.cursor - {pod} && d.held == c.held && d.all == c.all && ReadersKept(c, d)
  {
    hide Valid, Evolves, SameClock, LeasesWithin, AckersWithin, LeasesDropped, QueuesEndWith, ReadersKept, OwnedBy;
    d := c.(cursor := c.cursor - {pod});
    CursorDropped(c, pod, incarnation, all);
    var rest := c.inflight;
    assert c.inflight - rest == {};
    while rest != {}
      invariant rest <= c.inflight
      invariant CalmBut(c, d, {}) && LeasesDropped(c, d, c.inflight - rest, pod, incarnation, all)
      invariant QueuesEndWith(c, d) && d.held == c.held && d.cursor == c.cursor - {pod} && d.all == c.all && ReadersKept(c, d)
      decreases rest
    {
      var a :| a in rest;
      ghost var done := c.inflight - rest;
      rest := rest - {a};
      assert c.inflight - rest == done + {a};
      AllInSegs(c);
      var owned := LeasesOf(d.segs[a], pod, incarnation, all);
      UndoneUntouched(c, d, done, a, pod, incarnation, all);
      if owned != {} {
        var l :| l in owned;
        ReturnedKeeps(d, a, l);
        CalmTransitive(c, d, Returned(d, a, l), {});
        ReturnedReaders(d, a, l);
        ReadersTransitive(c, d, Returned(d, a, l));
        DroppedNext(c, d, done, a, l, pod, incarnation, all);
        RequeuedEnds(c, d, Returned(d, a, l), a, d.segs[a].meta.part);
        d := Returned(d, a, l);
      } else {
        assert forall m | m in c.segs[a].delivered :: m in owned || !OwnedBy(m, pod, incarnation, all);
        DroppedNone(c, d, done, a, pod, incarnation, all);
      }
    }
    assert c.inflight - rest == c.inflight;
    DroppedAll(c, d, pod, incarnation, all);
  }

  lemma UndoneUntouched(c: Channel, d: Channel, done: set<AppendId>, a: AppendId, pod: Pod, incarnation: Incarnation, all: bool)
    requires c.segs.Keys == d.segs.Keys && LeasesDropped(c, d, done, pod, incarnation, all) && a in c.segs && a !in done
    ensures d.segs[a] == c.segs[a]
  {
  }

  lemma DroppedNone(c: Channel, d: Channel, done: set<AppendId>, a: AppendId, pod: Pod, incarnation: Incarnation, all: bool)
    requires c.segs.Keys == d.segs.Keys && LeasesDropped(c, d, done, pod, incarnation, all)
    requires a in c.segs && a !in done && forall l | l in c.segs[a].delivered :: !OwnedBy(l, pod, incarnation, all)
    ensures LeasesDropped(c, d, done + {a}, pod, incarnation, all)
  {
  }

  lemma DroppedAll(c: Channel, d: Channel, pod: Pod, incarnation: Incarnation, all: bool)
    requires Valid(c) && c.segs.Keys == d.segs.Keys && LeasesDropped(c, d, c.inflight, pod, incarnation, all)
    ensures forall a, l | a in d.segs && l in d.segs[a].delivered :: !OwnedBy(l, pod, incarnation, all)
  {
    forall a, l | a in d.segs && l in d.segs[a].delivered ensures !OwnedBy(l, pod, incarnation, all) {
      if a !in c.inflight { LeasedInFlight(c, a, l); }
    }
  }

  lemma AllInSegs(c: Channel)
    requires Valid(c)
    ensures c.inflight <= c.segs.Keys && c.all <= c.segs.Keys
  {
  }

  lemma CursorDropped(c: Channel, pod: Pod, incarnation: Incarnation, all: bool)
    requires Valid(c)
    ensures CalmBut(c, c.(cursor := c.cursor - {pod}), {}) && QueuesEndWith(c, c.(cursor := c.cursor - {pod}))
    ensures ReadersKept(c, c.(cursor := c.cursor - {pod}))
    ensures LeasesDropped(c, c.(cursor := c.cursor - {pod}), {}, pod, incarnation, all)
  {
    hide Valid;
    SideKeeps(c, c.(cursor := c.cursor - {pod}));
  }

  lemma LeasedInFlight(c: Channel, a: AppendId, l: Lease)
    requires Valid(c) && a in c.segs && l in c.segs[a].delivered
    ensures a in c.inflight
  {
    assert Placed(c, a);
  }

  method RemoveSegment(list: seq<AppendId>, a: AppendId) returns (out: seq<AppendId>)
    ensures out == Without(list, a)
  {
    out := [];
    for i := 0 to |list|
      invariant Without(list, a) == out + Without(list[i..], a)
    {
      assert list[i..][0] == list[i] && list[i..][1..] == list[i + 1..];
      if list[i] != a { out := out + [list[i]]; }
    }
  }

  method MarkLost(c: Channel, a: AppendId) returns (d: Channel)
    requires a in c.segs && (c.spec.IsBroadcast() || 0 <= c.segs[a].meta.part < |c.queues|)
    ensures d == MarkedLost(c, a)
  {
    var s := c.segs[a];
    d := c.(segs := c.segs[a := s.(lost := true, released := true, delivered := {})],
            lost := c.lost + s.meta.records,
            inflight := c.inflight - {a});
    if !c.spec.IsBroadcast() {
      var q := RemoveSegment(c.queues[s.meta.part], a);
      d := d.(queues := c.queues[s.meta.part := q]);
    }
    var h := RemoveSegment(c.held, a);
    d := d.(held := h);
  }

  /** The segment is on the gone pod's own disk and something still needs it. */
  predicate DiesWith(s: Segment, pod: Pod) {
    s.meta.producer == pod && !s.meta.durable && !s.released && !s.lost
  }

  ghost predicate LostExactly(c: Channel, d: Channel, done: set<AppendId>, pod: Pod)
    requires c.segs.Keys == d.segs.Keys
  {
    forall a | a in c.segs ::
      if a in done && DiesWith(c.segs[a], pod) then d.segs[a] == c.segs[a].(lost := true, released := true, delivered := {})
      else d.segs[a] == c.segs[a]
  }

  /** Exactly the unreleased segments on the pod's disk are lost. */
  method ExpireHolder(c: Channel, pod: Pod) returns (d: Channel)
    requires Valid(c)
    ensures CalmBut(c, d, {}) && LostExactly(c, d, c.all, pod) && d.cursor == c.cursor && d.all == c.all && ReadersKept(c, d)
  {
    hide Valid, Evolves, SameClock, LeasesWithin, AckersWithin, ReadersKept;
    CalmReflexive(c, {});
    ReadersReflexive(c);
    d := c;
    AllInSegs(c);
    var rest := c.all;
    while rest != {}
      invariant rest <= c.all && d.all == c.all && d.cursor == c.cursor && ReadersKept(c, d)
      invariant CalmBut(c, d, {}) && d.spec == c.spec && LostExactly(c, d, c.all - rest, pod)
      decreases rest
    {
      var a :| a in rest;
      ghost var rest0 := rest;
      rest := rest - {a};
      assert c.all - rest == (c.all - rest0) + {a};
      var s := d.segs[a];
      if DiesWith(s, pod) {
        MarkedLostKeeps(d, a);
        PartKnown(d, a);
        CalmTransitive(c, d, MarkedLost(d, a), {});
        LostReaders(d, a);
        ReadersTransitive(c, d, MarkedLost(d, a));
        d := MarkLost(d, a);
      }
    }
  }

  lemma PartKnown(c: Channel, a: AppendId)
    requires Valid(c) && a in c.segs
    ensures c.spec.IsBroadcast() || 0 <= c.segs[a].meta.part < |c.queues|
  {
    assert Placed(c, a);
  }

  // --- releasing a Broadcast channel's segments ------------------------------------------------

  /** There are `want` acknowledgements. */
  ghost predicate EveryReplica(s: Segment, want: int) {
    want > 0 && |s.acked| >= want
  }

  /** Exactly the segments of `done` with `want` acknowledgements are released; the coordinator keeps none of their bytes unless the channel retains them. */
  ghost predicate ReleasedExactly(c: Channel, d: Channel, done: set<AppendId>, want: int)
    requires c.segs.Keys == d.segs.Keys
  {
    && (forall a | a in c.segs ::
          if a in done && !c.segs[a].released && EveryReplica(c.segs[a], want)
          then d.segs[a] == c.segs[a].(released := true, external := c.segs[a].external && c.spec.retained)
          else d.segs[a] == c.segs[a])
    && forall a | a in c.all && a in c.segs ::
          a !in d.all <==> a in done && !c.segs[a].released && EveryReplica(c.segs[a], want) && c.segs[a].external && !c.spec.retained
  }

  lemma NoneReleased(c: Channel, want: int)
    ensures ReleasedExactly(c, c, {}, want)
  {
  }

  lemma ReleasedNext(c: Channel, d: Channel, done: set<AppendId>, a: AppendId, want: int)
    requires c.segs.Keys == d.segs.Keys && ReleasedExactly(c, d, done, want) && d.spec == c.spec && a in c.segs && a !in done
    ensures d.segs[a] == c.segs[a]
    ensures !c.segs[a].released && EveryReplica(c.segs[a], want) ==> ReleasedExactly(c, Freed(d, a), done + {a}, want)
    ensures !(!c.segs[a].released && EveryReplica(c.segs[a], want)) ==> ReleasedExactly(c, d, done + {a}, want)
  {
    hide EveryReplica;
  }

  /** Exactly the indexed segments with `want` acknowledgements are released. */
  method ReleaseBroadcast(c: Channel, want: int) returns (d: Channel)
    requires Valid(c) && c.spec.IsBroadcast() && want >= 0
    ensures CalmBut(c, d, {}) && ReleasedExactly(c, d, c.all, want)
    ensures d.cursor == c.cursor && d.log == c.log && d.held == c.held && d.inflight == c.inflight && d.queues == c.queues && ReadersKept(c, d)
  {
    hide Valid, Evolves, SameClock, LeasesWithin, AckersWithin, ReadersKept, ReleasedExactly;
    CalmReflexive(c, {});
    ReadersReflexive(c);
    AllInSegs(c);
    NoneReleased(c, want);
    d := c;
    var rest := c.all;
    assert c.all - rest == {};
    while rest != {}
      invariant rest <= c.all && d.cursor == c.cursor && d.log == c.log && d.held == c.held && d.inflight == c.inflight
      invariant d.queues == c.queues && ReadersKept(c, d)
      invariant CalmBut(c, d, {}) && d.spec == c.spec && ReleasedExactly(c, d, c.all - rest, want)
      decreases rest
    {
      var a :| a in rest;
      ghost var done := c.all - rest;
      rest := rest - {a};
      assert c.all - rest == done + {a};
      ReleasedNext(c, d, done, a, want);
      var s := d.segs[a];
      if !s.lost && !s.released && want != 0 && |s.acked| >= want {
        AckedNotHeld(d, a);
        FreedKeeps(d, a);
        CalmTransitive(c, d, Freed(d, a), {});
        FreedReaders(d, a);
        ReadersTransitive(c, d, Freed(d, a));
        d := Freed(d, a);
      } else if s.lost {
        LostIsReleased(d, a);
      }
    }
    assert c.all - rest == c.all;
  }

  lemma AckedNotHeld(c: Channel, a: AppendId)
    requires Valid(c) && a in c.segs && c.segs[a].acked != {}
    ensures a !in c.held && !BeyondBound(c.spec, c.segs[a].meta.epoch)
  {
    assert Placed(c, a);
  }

  lemma LostIsReleased(c: Channel, a: AppendId)
    requires Valid(c) && a in c.segs && c.segs[a].lost
    ensures c.segs[a].released
  {
    assert Placed(c, a);
  }

  // --- completing a channel --------------------------------------------------------------------

  /** The channel is complete; what a Synchronous loop still holds is released. */
  method SealUp(c: Channel) returns (d: Channel)
    requires Valid(c)
    ensures d == Sealed(c)
    ensures d.sealed && d.productionClosed == c.productionClosed + {c.epoch}
  {
    hide Barrier, Counted, Places, Queues;
    var segs, held := c.segs, c.held;
    if c.spec.feedback.Some? && c.spec.feedback.value.mode == Synchronous {
      for i := 0 to |c.held|
        invariant segs.Keys == c.segs.Keys
        invariant forall a | a in segs :: segs[a] == c.segs[a].(released := c.segs[a].released || a in c.held[..i])
      {
        var a := c.held[i];
        assert a in c.held && c.held[..i + 1] == c.held[..i] + [a];
        segs := segs[a := segs[a].(released := true)];
      }
      assert c.held[..|c.held|] == c.held;
      held := [];
    }
    d := c.(sealed := true, productionClosed := c.productionClosed + {c.epoch}, segs := segs, held := held);
    assert segs == Sealed(c).segs;
  }

  // --- the next epoch --------------------------------------------------------------------------

  /** A held segment enters its queue. */
  function Promoted(c: Channel, before: seq<AppendId>, a: AppendId, after: seq<AppendId>): Channel
    requires a in c.segs
  {
    c.(held := before + after, queues := Enqueue(c, a, c.segs[a].meta.part), log := EnqueueLog(c, a))
  }

  lemma PromotedPlaces(c: Channel, before: seq<AppendId>, a: AppendId, after: seq<AppendId>)
    requires Placement(c) && c.held == before + [a] + after && a in c.segs
    ensures Places(Promoted(c, before, a, after))
  {
    var d := Promoted(c, before, a, after);
    HeldOnce(c, before, a, after);
    assert a in c.held && Placed(c, a);
    forall b | b in d.segs ensures Placed(d, b) && d.segs[b].meta.append == b {
      assert Placed(c, b);
      assert b != a ==> (b in d.held <==> b in c.held);
      assert b != a ==> (Queued(d, b) <==> Queued(c, b));
    }
  }

  lemma HeldOnce(c: Channel, before: seq<AppendId>, a: AppendId, after: seq<AppendId>)
    requires Placement(c) && c.held == before + [a] + after
    ensures a !in before + after && NoDup(before + after)
    ensures forall b | b in c.held :: b == a || b in before + after
  {
    var h := before + after;
    forall i | 0 <= i < |h| ensures h[i] == c.held[if i < |before| then i else i + 1] {}
    assert c.held[|before|] == a;
  }

  lemma PromotedLists(c: Channel, before: seq<AppendId>, a: AppendId, after: seq<AppendId>)
    requires Placement(c) && c.held == before + [a] + after && a in c.segs
    ensures Placement(Promoted(c, before, a, after))
  {
    PromotedPlaces(c, before, a, after);
    HeldOnce(c, before, a, after);
    assert a in c.held && Placed(c, a);
    var d := Promoted(c, before, a, after);
    assert Queues(d);
  }

  ghost predicate WorkAtEpoch(c: Channel, e: int) {
    !c.spec.IsBroadcast() ==>
      && c.inflight == {}
      && forall a | a in c.segs && Queued(c, a) && c.segs[a].meta.records > 0 :: c.segs[a].meta.epoch == e
  }

  lemma PromotedWork(c: Channel, before: seq<AppendId>, a: AppendId, after: seq<AppendId>, e: int)
    requires Placement(c) && c.held == before + [a] + after && a in c.segs && c.segs[a].meta.epoch == e
    requires WorkAtEpoch(c, e)
    ensures WorkAtEpoch(Promoted(c, before, a, after), e)
  {
    var d := Promoted(c, before, a, after);
    forall b | b in d.segs && Queued(d, b) && b != a ensures Queued(c, b) { assert Placed(c, b); }
  }

  ghost predicate Advances(c: Channel, d: Channel) {
    && d.spec == c.spec && d.finite == c.finite && d.sealed == c.sealed && d.epoch == c.epoch + 1
    && d.productionClosed == c.productionClosed + (if c.sealed then {c.epoch + 1} else {})
    && d.segs == c.segs && d.inflight == c.inflight && d.all == c.all && d.cursor == c.cursor
    && d.produced == c.produced && d.acknowledged == c.acknowledged && d.lost == c.lost
  }

  /**
   A finished epoch gives way to the next: exactly the held segments of the new
   epoch become deliverable, in the order they were held.
   */
  method AdvanceEpoch(c: Channel) returns (d: Channel)
    requires Valid(c) && c.finite
    requires !c.spec.IsBroadcast() ==> IsQuiet(c)
    ensures Valid(d) && Advances(c, d)
    ensures d.held == LaterThan(c, c.held, c.epoch + 1) && Entered(c, d, c.held, c.epoch + 1)
  {
    hide Placement, Counted, WorkAtEpoch, Barrier, IsQuiet, Advances, Promoted, LaterThan, Entered;
    var e := c.epoch + 1;
    d := c.(epoch := e, productionClosed := if c.sealed then c.productionClosed + {e} else c.productionClosed);
    var rest: seq<AppendId> := [];
    StartAdvance(c, d, e);
    NoneEntered(c, d, e);
    var held := c.held;
    assert held[..0] == [];
    for i := 0 to |held|
      invariant d.held == rest + held[i..] && Placement(d) && WorkAtEpoch(d, e) && Advances(c, d)
      invariant held == c.held && forall a | a in held :: a in c.segs && c.segs[a].meta.epoch >= e
      invariant rest == LaterThan(c, held[..i], e) && Entered(c, d, held[..i], e)
    {
      var a := held[i];
      assert held[i..] == [a] + held[i + 1..];
      assert d.held == rest + [a] + held[i + 1..];
      LaterThanNext(c, held[..i], a, e);
      assert held[..i + 1] == held[..i] + [a];
      AdvancesPromoted(c, d, rest, a, held[i + 1..]);
      PartInRange(d, a);
      EnteredNext(c, d, held[..i], e, rest, a, held[i + 1..]);
      if d.segs[a].meta.epoch == e {
        PromotedLists(d, rest, a, held[i + 1..]);
        PromotedWork(d, rest, a, held[i + 1..], e);
        d := Promoted(d, rest, a, held[i + 1..]);
      } else {
        rest := rest + [a];
      }
    }
    assert held[..|held|] == held;
    EndAdvance(c, d, e);
  }

  /** The held segments of an epoch, in the order they were held; on a partitioned channel those of one partition. */
  ghost function Entering(c: Channel, held: seq<AppendId>, e: int, p: int): seq<AppendId> {
    if held == [] then []
    else
      var h := held[|held| - 1];
      Entering(c, held[..|held| - 1], e, p)
      + (if h in c.segs && c.segs[h].meta.epoch == e && (c.spec.IsBroadcast() || c.segs[h].meta.part == p) then [h] else [])
  }

  /** They follow what was deliverable before. */
  ghost predicate Entered(c: Channel, d: Channel, held: seq<AppendId>, e: int) {
    if c.spec.IsBroadcast() then d.queues == c.queues && d.log == c.log + Entering(c, held, e, 0)
    else d.log == c.log && |d.queues| == |c.queues| && forall p | 0 <= p < |c.queues| :: d.queues[p] == c.queues[p] + Entering(c, held, e, p)
  }

  lemma NoneEntered(c: Channel, d: Channel, e: int)
    requires d.queues == c.queues && d.log == c.log
    ensures Entered(c, d, [], e)
  {
  }

  lemma EnteredNext(c: Channel, d: Channel, held: seq<AppendId>, e: int, before: seq<AppendId>, a: AppendId, after: seq<AppendId>)
    requires Entered(c, d, held, e) && a in c.segs && d.segs == c.segs && d.spec == c.spec
    requires c.spec.IsBroadcast() || 0 <= c.segs[a].meta.part < |d.queues|
    ensures Entered(c, if c.segs[a].meta.epoch == e then Promoted(d, before, a, after) else d, held + [a], e)
  {
    assert (held + [a])[..|held|] == held;
    var f := if c.segs[a].meta.epoch == e then Promoted(d, before, a, after) else d;
    forall p ensures Entering(c, held + [a], e, p) == Entering(c, held, e, p)
      + (if c.segs[a].meta.epoch == e && (c.spec.IsBroadcast() || c.segs[a].meta.part == p) then [a] else []) {}
    if !c.spec.IsBroadcast() {
      forall p | 0 <= p < |c.queues| ensures f.queues[p] == c.queues[p] + Entering(c, held + [a], e, p) {}
    }
  }

  lemma EnteredBehind(c: Channel, d: Channel, held: seq<AppendId>, e: int)
    requires Entered(c, d, held, e)
    ensures GrowsBehind(c, d)
  {
    forall p | 0 <= p < |c.queues| ensures c.queues[p] <= d.queues[p] {}
  }

  lemma AdvanceDropsNothing(c: Channel, d: Channel)
    requires Advances(c, d)
    ensures DropsNothing(c, d)
  {
  }

  lemma AdvancesPromoted(c: Channel, d: Channel, before: seq<AppendId>, a: AppendId, after: seq<AppendId>)
    requires Advances(c, d) && a in c.segs
    ensures d.segs == c.segs && d.spec == c.spec && Advances(c, Promoted(d, before, a, after)) && Promoted(d, before, a, after).held == before + after
  {
  }

  ghost function LaterThan(c: Channel, held: seq<AppendId>, e: int): seq<AppendId> {
    if held == [] then []
    else
      var h := held[|held| - 1];
      LaterThan(c, held[..|held| - 1], e) + (if h in c.segs && c.segs[h].meta.epoch == e then [] else [h])
  }

  lemma LaterThanNext(c: Channel, held: seq<AppendId>, a: AppendId, e: int)
    ensures LaterThan(c, held + [a], e) == LaterThan(c, held, e) + (if a in c.segs && c.segs[a].meta.epoch == e then [] else [a])
  {
    assert (held + [a])[..|held|] == held;
  }

  lemma {:induction false} LaterThanSound(c: Channel, held: seq<AppendId>, e: int)
    ensures forall a :: a in LaterThan(c, held, e) <==> a in held && !(a in c.segs && c.segs[a].meta.epoch == e)
  {
    if held != [] {
      LaterThanSound(c, held[..|held| - 1], e);
      assert held == held[..|held| - 1] + [held[|held| - 1]];
    }
  }

  lemma StartAdvance(c: Channel, d: Channel, e: int)
    requires Valid(c) && c.finite && e == c.epoch + 1 && (!c.spec.IsBroadcast() ==> IsQuiet(c))
    requires d == c.(epoch := e, productionClosed := d.productionClosed)
    ensures Placement(d) && WorkAtEpoch(d, e) && c.held == [] + c.held[0..] && LaterThan(c, [], e) == []
    ensures d.productionClosed == c.productionClosed + (if c.sealed then {e} else {}) ==> Advances(c, d)
    ensures forall a | a in c.held :: a in c.segs && c.segs[a].meta.epoch >= e
  {
    forall b | b in d.segs ensures Placed(d, b) && d.segs[b].meta.append == b { assert Placed(c, b); }
    forall a | a in d.segs && Queued(d, a) ensures a in QueuedIds(c) {}
  }

  lemma EndAdvance(c: Channel, d: Channel, e: int)
    requires Valid(c) && c.finite && Placement(d) && WorkAtEpoch(d, e) && Advances(c, d) && e == c.epoch + 1
    requires d.held == LaterThan(c, c.held, e)
    ensures Valid(d)
  {
    LaterThanSound(c, c.held, e);
    CountersKept(c, d);
  }

  // --- segments without records -------------------------------------------------------------------

  /** The barrier for every segment, with or without records. */
  ghost predicate StrictBarrier(c: Channel) {
    c.finite && !c.spec.IsBroadcast() ==>
      forall a | a in c.segs && (Queued(c, a) || a in c.inflight) :: c.segs[a].meta.epoch == c.epoch
  }

  /**
   A quiet channel may still queue segments without records, which nobody waits
   for. The next epoch then delivers them late; without them it never does.
   */
  lemma StrictBarrierExactly(c: Channel, d: Channel)
    requires Valid(c) && c.finite && !c.spec.IsBroadcast() && IsQuiet(c) && StrictBarrier(c)
    requires Valid(d) && Advances(c, d) && d.held == LaterThan(c, c.held, c.epoch + 1)
    ensures StrictBarrier(d) <==> QueuedIds(c) == {}
    ensures forall a | a in QueuedIds(c) :: Queued(d, a) && d.segs[a].meta.records == 0 && d.segs[a].meta.epoch < d.epoch
  {
    LaterThanSound(c, c.held, c.epoch + 1);
    forall a | a in c.segs ensures Queued(c, a) ==> Queued(d, a) && d.segs[a].meta.epoch < d.epoch { assert Placed(c, a) && Placed(d, a); }
    forall a | a in d.segs && (Queued(d, a) || a in d.inflight) && QueuedIds(c) == {} ensures d.segs[a].meta.epoch == d.epoch {
      assert Placed(c, a) && Placed(d, a);
      assert a in QueuedIds(c) || a in c.held;
    }
    if QueuedIds(c) != {} {
      var a := Witness(QueuedIds(c));
      assert Queued(d, a);
    }
  }

  /** One announcement without records is enough: the barrier held before the epoch advanced and does not after it. */
  lemma RecordlessSegmentPassesBarrier(c: Channel, m: Announcement, d: Channel)
    requires Valid(c) && c.finite && !c.spec.IsBroadcast() && IsQuiet(c) && StrictBarrier(c)
    requires Admissible(c, m) && m.records == 0 && m.epoch == c.epoch && !BeyondBound(c.spec, m.epoch)
    requires var i := Indexed(c, m, false); Valid(d) && Advances(i, d) && d.held == LaterThan(i, i.held, i.epoch + 1)
    ensures Valid(Indexed(c, m, false)) && IsQuiet(Indexed(c, m, false)) && StrictBarrier(Indexed(c, m, false)) && !StrictBarrier(d)
  {
    hide Valid, IsQuiet, StrictBarrier, Advances, Indexed, Admissible, QueuedIds, LaterThan, Grows, DropsNothing;
    var i := Indexed(c, m, false);
    IndexedKeeps(c, m, false);
    RecordlessIsQuiet(c, m);
    StrictBarrierExactly(i, d);
  }

  lemma RecordlessIsQuiet(c: Channel, m: Announcement)
    requires Valid(c) && c.finite && !c.spec.IsBroadcast() && IsQuiet(c) && StrictBarrier(c)
    requires Admissible(c, m) && m.records == 0 && m.epoch == c.epoch && !BeyondBound(c.spec, m.epoch)
    ensures var i := Indexed(c, m, false); IsQuiet(i) && StrictBarrier(i) && m.append in QueuedIds(i) && i.finite && i.spec == c.spec
  {
    var i := Indexed(c, m, false);
    forall a | a in QueuedIds(i) && a != m.append ensures a in QueuedIds(c) {}
  }

  // --- indexing a batch ---------------------------------------------------------------------------

  /** One entry of a publish request: a segment, or only a count of records dropped at a loop bound. */
  datatype Notice = Notice(segment: Option<Announcement>, channel: Option<Name>, overflowed: nat)

  ghost predicate Announces(n: Notice, c: Channel) {
    n.segment.Some? && n.segment.value.append !in c.segs
  }

  datatype Refusal = Fine | OtherChannel | DifferentMetadata | ChannelSealed | EpochBehind | PartitionOutOfRange

  /** The order of the checks is the order of the answers. */
  ghost function Check(c: Channel, n: Notice): Refusal {
    if n.segment.None? then Fine
    else if n.channel.Some? && n.channel.value != c.spec.name then OtherChannel
    else
      var m := n.segment.value;
      if m.append in c.segs then (if c.segs[m.append].meta == m then Fine else DifferentMetadata)
      else if c.sealed then ChannelSealed
      else if c.finite && m.epoch < c.epoch then EpochBehind
      else if !InRange(c, m) then PartitionOutOfRange
      else Fine
  }

  function IndexOne(c: Channel, n: Notice): Channel {
    if n.segment.None? then c.(overflowed := c.overflowed + n.overflowed)
    else if n.segment.value.append in c.segs then c
    else
      var d := c.(overflowed := c.overflowed + n.overflowed);
      if KeyTaken(c, n.segment.value) then d else Indexed(d, n.segment.value, false)
  }

  ghost predicate AllFine(c: Channel, ns: seq<Notice>) {
    forall n | n in ns :: Check(c, n) == Fine
  }

  /** A change that indexes segments of the batch and does nothing else. */
  ghost predicate Indexes(c: Channel, d: Channel, ns: seq<Notice>) {
    && Valid(d) && Grows(c, d) && d.sealed == c.sealed && d.cursor == c.cursor && d.inflight == c.inflight && GrowsBehind(c, d)
    && (forall a | a in c.segs :: d.segs[a] == c.segs[a])
    && (forall a | a in d.segs && a !in c.segs :: exists n :: n in ns && Announces(n, c) && d.segs[a].meta == n.segment.value)
  }

  lemma OverflowOnly(c: Channel, n: nat)
    requires Valid(c)
    ensures Valid(c.(overflowed := c.overflowed + n)) && Grows(c, c.(overflowed := c.overflowed + n))
  {
    hide Valid;
    SideKeeps(c, c.(overflowed := c.overflowed + n));
  }

  ghost predicate MayIndex(c: Channel, n: Notice) {
    n.segment.Some? && n.segment.value.append !in c.segs ==>
      !c.sealed && InRange(c, n.segment.value) && (c.finite ==> n.segment.value.epoch >= c.epoch)
  }

  lemma IndexOneKeeps(c: Channel, n: Notice)
    requires Valid(c) && MayIndex(c, n)
    ensures Indexes(c, IndexOne(c, n), [n]) && |IndexOne(c, n).queues| == |c.queues|
    ensures IndexOne(c, n).spec == c.spec && IndexOne(c, n).finite == c.finite && IndexOne(c, n).epoch == c.epoch
    ensures c.sealed ==> IndexOne(c, n).segs == c.segs
    ensures n.segment.Some? ==> n.segment.value.append in IndexOne(c, n).segs || KeyTaken(c, n.segment.value)
  {
    hide Valid, Grows;
    OverflowOnly(c, 0);
    OverflowOnly(c, n.overflowed);
    assert c.(overflowed := c.overflowed + 0) == c;
    if Announces(n, c) {
      assert n in [n];
      var d := c.(overflowed := c.overflowed + n.overflowed);
      if !KeyTaken(c, n.segment.value) {
        assert !KeyTaken(d, n.segment.value);
        IndexedKeeps(d, n.segment.value, false);
        GrowsTransitive(c, d, Indexed(d, n.segment.value, false));
      }
    }
  }

  /** The accepted batch enters the channel's structures in order. */
  method IndexAll(c: Channel, ns: seq<Notice>) returns (d: Channel)
    requires Valid(c) && AllFine(c, ns)
    ensures Indexes(c, d, ns) && (c.sealed ==> d.segs == c.segs)
    ensures d == IndexFold(c, ns) && IndexedBehind(c, d, News(c, ns), false) && d.overflowed == c.overflowed + Overflowing(c, ns)
  {
    hide Valid, Grows, Indexes, IndexedBehind, News, Overflowing;
    d := c;
    NothingIndexed(c);
    AllInSegs(c);
    AcceptedMayIndex(c, ns);
    FoldedBehind(c, ns);
    assert ns[..0] == [];
    for i := 0 to |ns|
      invariant Indexes(c, d, ns[..i]) && Valid(d) && |d.queues| == |c.queues|
      invariant d.spec == c.spec && d.finite == c.finite && d.epoch == c.epoch && d.sealed == c.sealed
      invariant c.segs.Keys <= d.segs.Keys && (c.sealed ==> d.segs == c.segs)
      invariant d == IndexFold(c, ns[..i])
    {
      assert Check(c, ns[i]) == Fine;
      IndexOneKeeps(d, ns[i]);
      IndexesTransitive(c, d, IndexOne(d, ns[i]), ns[..i], ns[i]);
      IndexesKeepsValid(c, IndexOne(d, ns[i]), ns[..i] + [ns[i]]);
      IndexFoldNext(c, ns[..i], ns[i]);
      assert ns[..i + 1] == ns[..i] + [ns[i]];
      d := IndexOne(d, ns[i]);
    }
    assert ns[..|ns|] == ns;
  }

  lemma AcceptedMayIndex(c: Channel, ns: seq<Notice>)
    requires AllFine(c, ns)
    ensures forall n | n in ns :: MayIndex(c, n)
  {
    forall n | n in ns ensures MayIndex(c, n) { assert Check(c, n) == Fine; }
  }

  ghost function IndexFold(c: Channel, ns: seq<Notice>): Channel {
    if ns == [] then c else IndexOne(IndexFold(c, ns[..|ns| - 1]), ns[|ns| - 1])
  }

  lemma IndexFoldNext(c: Channel, ns: seq<Notice>, n: Notice)
    ensures IndexFold(c, ns + [n]) == IndexOne(IndexFold(c, ns), n)
  {
    assert (ns + [n])[..|ns|] == ns;
  }

  lemma NothingIndexed(c: Channel)
    requires Valid(c)
    ensures Indexes(c, c, [])
  {
  }

  lemma IndexesKeepsValid(c: Channel, d: Channel, ns: seq<Notice>)
    requires Indexes(c, d, ns)
    ensures Valid(d) && c.segs.Keys <= d.segs.Keys && d.sealed == c.sealed
  {
  }

  lemma IndexesTransitive(c: Channel, d: Channel, e: Channel, ns: seq<Notice>, n: Notice)
    requires Indexes(c, d, ns) && Indexes(d, e, [n])
    ensures Indexes(c, e, ns + [n])
  {
    GrowsTransitive(c, d, e);
    forall a | a in e.segs && a !in c.segs
      ensures exists m :: m in ns + [n] && Announces(m, c) && e.segs[a].meta == m.segment.value
    {
      if a in d.segs {
        var m :| m in ns && Announces(m, c) && d.segs[a].meta == m.segment.value;
        assert m in ns + [n];
      } else {
        assert n in ns + [n];
      }
    }
  }

  // --- where announced segments go ------------------------------------------------------------------

  /** Beyond the loop bound nobody gets a segment; it is held while its epoch has not begun. */
  datatype Fate = DroppedAtBound | HeldBack | Deliverable

  ghost function FateOf(c: Channel, m: Announcement): Fate {
    if c.spec.feedback.Some? && m.epoch >= c.spec.feedback.value.maxEpochs then DroppedAtBound
    else if c.finite && m.epoch > c.epoch then HeldBack
    else Deliverable
  }

  /** Those of a fate, in one partition or in all, in the order they were announced. */
  ghost function Going(c: Channel, ms: seq<Announcement>, f: Fate, part: Option<int>): seq<AppendId> {
    if ms == [] then []
    else
      var m := ms[|ms| - 1];
      Going(c, ms[..|ms| - 1], f, part) + (if FateOf(c, m) == f && (part == None || part == Some(m.part)) then [m.append] else [])
  }

  ghost function RecordsKept(c: Channel, ms: seq<Announcement>): int {
    if ms == [] then 0
    else
      var m := ms[|ms| - 1];
      RecordsKept(c, ms[..|ms| - 1]) + (if FateOf(c, m) == DroppedAtBound then 0 else m.records)
  }

  /** The segments enter behind everything that was queued, logged or held before, in the order they were announced. */
  ghost predicate IndexedBehind(c: Channel, d: Channel, ms: seq<Announcement>, external: bool) {
    HeldBehind(c, d, ms) && QueuedBehind(c, d, ms) && SegmentsAre(c, d, ms, external)
  }

  ghost predicate HeldBehind(c: Channel, d: Channel, ms: seq<Announcement>) {
    d == c.(segs := d.segs, all := d.all, produced := c.produced + RecordsKept(c, ms), overflowed := d.overflowed,
            held := c.held + Going(c, ms, HeldBack, None), queues := d.queues, log := d.log)
  }

  ghost predicate QueuedBehind(c: Channel, d: Channel, ms: seq<Announcement>) {
    && |d.queues| == |c.queues|
    && (c.spec.mode == Broadcast ==> d.queues == c.queues && d.log == c.log + Going(c, ms, Deliverable, None))
    && (c.spec.mode != Broadcast ==> d.log == c.log && forall p | 0 <= p < |c.queues| :: d.queues[p] == c.queues[p] + Going(c, ms, Deliverable, Some(p)))
  }

  ghost predicate SegmentsAre(c: Channel, d: Channel, ms: seq<Announcement>, external: bool) {
    && (forall a :: a in d.segs <==> a in c.segs || exists m :: m in ms && m.append == a)
    && (forall a :: a in d.all <==> a in c.all || exists m :: m in ms && m.append == a)
    && (forall a | a in c.segs :: a in d.segs && d.segs[a] == c.segs[a])
    && (forall m | m in ms :: m.append in d.segs && d.segs[m.append] == Segment(m, external, {}, {}, map[], false, FateOf(c, m) == DroppedAtBound))
  }

  lemma NoneBehind(c: Channel, n: int)
    ensures IndexedBehind(c, c.(overflowed := n), [], false) && IndexedBehind(c, c.(overflowed := n), [], true)
  {
  }

  lemma GoingNext(c: Channel, ms: seq<Announcement>, m: Announcement, f: Fate, part: Option<int>)
    ensures Going(c, ms + [m], f, part)
         == Going(c, ms, f, part) + (if FateOf(c, m) == f && (part == None || part == Some(m.part)) then [m.append] else [])
    ensures RecordsKept(c, ms + [m]) == RecordsKept(c, ms) + (if FateOf(c, m) == DroppedAtBound then 0 else m.records)
  {
    assert (ms + [m])[..|ms|] == ms;
  }

  lemma SegmentsNext(c: Channel, d: Channel, ms: seq<Announcement>, m: Announcement, external: bool)
    requires SegmentsAre(c, d, ms, external) && m.append !in d.segs && d.spec == c.spec
    ensures SegmentsAre(c, Indexed(d, m, external), ms + [m], external)
  {
    assert forall x :: x in ms + [m] <==> x in ms || x == m;
    var e := Indexed(d, m, external);
    forall a
      ensures a in e.segs <==> (a in c.segs || exists x :: x in ms + [m] && x.append == a)
      ensures a in e.all <==> (a in c.all || exists x :: x in ms + [m] && x.append == a)
    {
      if a == m.append { assert m in ms + [m]; }
    }
  }

  lemma QueuedNext(c: Channel, d: Channel, e: Channel, ms: seq<Announcement>, m: Announcement)
    requires QueuedBehind(c, d, ms) && (c.spec.mode == Broadcast || 0 <= m.part < |c.queues|)
    requires FateOf(c, m) != Deliverable ==> e.queues == d.queues && e.log == d.log
    requires FateOf(c, m) == Deliverable ==> if c.spec.mode == Broadcast then e.queues == d.queues && e.log == d.log + [m.append]
      else e.log == d.log && 0 <= m.part < |d.queues| && e.queues == d.queues[m.part := d.queues[m.part] + [m.append]]
    ensures QueuedBehind(c, e, ms + [m])
  {
    hide FateOf, Going, RecordsKept;
    if c.spec.mode == Broadcast {
      GoingNext(c, ms, m, Deliverable, None);
    } else {
      forall p | 0 <= p < |c.queues| ensures e.queues[p] == c.queues[p] + Going(c, ms + [m], Deliverable, Some(p)) {
        GoingNext(c, ms, m, Deliverable, Some(p));
      }
    }
  }

  lemma HeldNext(c: Channel, d: Channel, ms: seq<Announcement>, m: Announcement, external: bool)
    requires HeldBehind(c, d, ms)
    ensures HeldBehind(c, Indexed(d, m, external), ms + [m])
  {
    hide Going, RecordsKept;
    GoingNext(c, ms, m, HeldBack, None);
  }

  /** One more segment goes behind the others. */
  lemma IndexedBehindNext(c: Channel, d: Channel, ms: seq<Announcement>, m: Announcement, external: bool)
    requires IndexedBehind(c, d, ms, external) && m.append !in d.segs && InRange(c, m)
    ensures IndexedBehind(c, Indexed(d, m, external), ms + [m], external)
  {
    hide SegmentsAre, HeldBehind;
    HeldNext(c, d, ms, m, external);
    SegmentsNext(c, d, ms, m, external) by { hide QueuedBehind; HeldSame(c, d, ms); }
    QueuedNext(c, d, Indexed(d, m, external), ms, m) by { hide Going; HeldSame(c, d, ms); }
  }

  lemma HeldSame(c: Channel, d: Channel, ms: seq<Announcement>)
    requires HeldBehind(c, d, ms)
    ensures d.spec == c.spec && d.finite == c.finite && d.epoch == c.epoch
  {
  }

  /** Another indexed segment has the holder and the id. */
  ghost predicate NameTaken(c: Channel, m: Announcement) {
    exists a :: a in c.all && a in c.segs && c.segs[a].meta.holder == m.holder && c.segs[a].meta.id == m.id
  }

  /** The entries of a batch that are indexed: those that are new, by append id and by holder and id. */
  ghost function News(c: Channel, ns: seq<Notice>): seq<Announcement> {
    if ns == [] then []
    else
      var before, n := News(c, ns[..|ns| - 1]), ns[|ns| - 1];
      if n.segment.None? || n.segment.value.append in c.segs || NameTaken(c, n.segment.value) then before
      else if exists x :: x in before && (x.append == n.segment.value.append || (x.holder == n.segment.value.holder && x.id == n.segment.value.id)) then before
      else before + [n.segment.value]
  }

  /** The overflow a batch reports: that of every entry whose append id is not indexed already. */
  ghost function Overflowing(c: Channel, ns: seq<Notice>): int {
    if ns == [] then 0
    else
      var before, n := ns[..|ns| - 1], ns[|ns| - 1];
      Overflowing(c, before) +
        (if n.segment.Some? && (n.segment.value.append in c.segs || exists x :: x in News(c, before) && x.append == n.segment.value.append) then 0
         else n.overflowed)
  }

  lemma NewsNext(c: Channel, d: Channel, ns: seq<Notice>, n: Notice)
    requires c.all <= c.segs.Keys && SegmentsAre(c, d, News(c, ns), false)
    ensures News(c, ns + [n]) == News(c, ns)
      + (if n.segment.Some? && n.segment.value.append !in d.segs && !KeyTaken(d, n.segment.value) then [n.segment.value] else [])
    ensures Overflowing(c, ns + [n]) == Overflowing(c, ns) + (if n.segment.Some? && n.segment.value.append in d.segs then 0 else n.overflowed)
  {
    assert (ns + [n])[..|ns|] == ns;
    var before := News(c, ns);
    if n.segment.Some? {
      var m := n.segment.value;
      if NameTaken(c, m) {
        var a :| a in c.all && a in c.segs && c.segs[a].meta.holder == m.holder && c.segs[a].meta.id == m.id;
        assert a in d.all && a in d.segs && SameKey(d.segs[a].meta, m);
      }
      forall x | x in before && x.holder == m.holder && x.id == m.id ensures KeyTaken(d, m) {
        assert x.append in d.all && SameKey(d.segs[x.append].meta, m);
      }
      if KeyTaken(d, m) {
        var b :| b in d.all && b in d.segs && SameKey(d.segs[b].meta, m);
        assert b in c.all ==> NameTaken(c, m);
      }
    }
  }

  /** The whole batch: the new segments go behind the old ones, and the overflow is counted. */
  lemma {:induction false} FoldedBehind(c: Channel, ns: seq<Notice>)
    requires c.all <= c.segs.Keys && forall n | n in ns :: MayIndex(c, n)
    ensures IndexedBehind(c, IndexFold(c, ns), News(c, ns), false)
    ensures IndexFold(c, ns).overflowed == c.overflowed + Overflowing(c, ns)
  {
    hide SegmentsAre, QueuedBehind, HeldBehind, News, Overflowing, Indexed;
    if ns == [] {
      NoneBehind(c, c.overflowed);
      NoNews(c);
    } else {
      var k := |ns| - 1;
      var d, n := IndexFold(c, ns[..k]), ns[k];
      FoldedBehind(c, ns[..k]);
      assert ns == ns[..k] + [n];
      NewsNext(c, d, ns[..k], n);
      FoldedNext(c, d, News(c, ns[..k]), n);
    }
  }

  lemma NoNews(c: Channel)
    ensures News(c, []) == [] && Overflowing(c, []) == 0
  {
  }

  lemma FoldedNext(c: Channel, d: Channel, ms: seq<Announcement>, n: Notice)
    requires IndexedBehind(c, d, ms, false) && MayIndex(c, n)
    ensures IndexedBehind(c, IndexOne(d, n), ms
      + (if n.segment.Some? && n.segment.value.append !in d.segs && !KeyTaken(d, n.segment.value) then [n.segment.value] else []), false)
    ensures IndexOne(d, n).overflowed == d.overflowed + (if n.segment.Some? && n.segment.value.append in d.segs then 0 else n.overflowed)
  {
    hide SegmentsAre, QueuedBehind, HeldBehind, Indexed;
    var e := d.(overflowed := d.overflowed + n.overflowed);
    CountedBehind(c, d, ms, e.overflowed);
    assert ms + [] == ms;
    if n.segment.Some? && n.segment.value.append !in d.segs {
      assert KeyTaken(e, n.segment.value) <==> KeyTaken(d, n.segment.value);
      assert n.segment.value.append !in c.segs by { OldStays(c, d, ms); }
      IndexedBehindNext(c, e, ms, n.segment.value, false);
      OverflowSame(e, n.segment.value);
    }
  }

  lemma OverflowSame(c: Channel, m: Announcement)
    ensures Indexed(c, m, false).overflowed == c.overflowed
  {
  }

  lemma OldStays(c: Channel, d: Channel, ms: seq<Announcement>)
    requires SegmentsAre(c, d, ms, false)
    ensures forall a | a in c.segs :: a in d.segs
  {
  }

  lemma CountedBehind(c: Channel, d: Channel, ms: seq<Announcement>, n: int)
    requires IndexedBehind(c, d, ms, false)
    ensures IndexedBehind(c, d.(overflowed := n), ms, false)
  {
  }

  // --- publishing again -----------------------------------------------------------------------------

  /** The entry is indexed, or another segment has its holder and id. */
  ghost predicate Taken(c: Channel, n: Notice) {
    n.segment.Some? ==> n.segment.value.append in c.segs || KeyTaken(c, n.segment.value)
  }

  lemma TakenStays(c: Channel, n: Notice, m: Notice)
    requires Taken(c, m)
    ensures Taken(IndexOne(c, n), m)
  {
    var d := IndexOne(c, n);
    assert c.all <= d.all && c.segs.Keys <= d.segs.Keys;
    if m.segment.Some? && m.segment.value.append !in c.segs {
      var b :| b in c.all && b in c.segs && SameKey(c.segs[b].meta, m.segment.value);
      assert d.segs[b] == c.segs[b];
    }
  }

  lemma {:induction false} AllTaken(c: Channel, ns: seq<Notice>)
    ensures forall n | n in ns :: Taken(IndexFold(c, ns), n)
  {
    if ns != [] {
      var k := |ns| - 1;
      var d := IndexFold(c, ns[..k]);
      AllTaken(c, ns[..k]);
      forall n | n in ns ensures Taken(IndexOne(d, ns[k]), n) {
        if n in ns[..k] { TakenStays(d, ns[k], n); }
      }
    }
  }

  lemma {:induction false} TakenChangesNothing(c: Channel, ns: seq<Notice>)
    requires forall n | n in ns :: Taken(c, n)
    ensures IndexFold(c, ns) == c.(overflowed := c.overflowed + Recounted(c, ns))
  {
    if ns != [] {
      var k := |ns| - 1;
      TakenChangesNothing(c, ns[..k]);
      assert Taken(c, ns[k]);
      var d := IndexFold(c, ns[..k]);
      assert Taken(d, ns[k]) by { TakenSame(c, d, ns[k]); }
    }
  }

  lemma TakenSame(c: Channel, d: Channel, n: Notice)
    requires Taken(c, n) && d.all == c.all && d.segs == c.segs
    ensures Taken(d, n)
  {
  }

  /** The overflow counts that come with no segment of their own in the index. */
  ghost function Recounted(c: Channel, ns: seq<Notice>): int {
    if ns == [] then 0
    else
      var n := ns[|ns| - 1];
      Recounted(c, ns[..|ns| - 1]) + (if n.segment.Some? && n.segment.value.append in c.segs then 0 else n.overflowed)
  }

  /**
   A worker that publishes a batch again after a lost answer adds nothing but
   overflow counts: those of the entries that no indexed segment stands for.
   */
  lemma RepublishAddsOnlyOverflow(c: Channel, ns: seq<Notice>)
    ensures var d := IndexFold(c, ns); IndexFold(d, ns) == d.(overflowed := d.overflowed + Recounted(d, ns))
  {
    AllTaken(c, ns);
    TakenChangesNothing(IndexFold(c, ns), ns);
  }
}
