/**
 Snapshot and restore of the coordinator's state. In-flight work is not stored:
 it is rebuilt from the delivery sets of the segments.
 */
module Persistence {
  import opened Topology
  import opened Sums
  import opened Channels
  import opened Deliveries
  import opened Operations

  datatype PersistedChannel = PersistedChannel(
    spec: Spec,
    finite: bool,
    sealed: bool,
    produced: int,
    overflowed: int,
    lost: int,
    acknowledged: int,
    epoch: int,
    productionClosed: set<int>,
    segments: map<AppendId, Segment>,
    all: seq<AppendId>,
    queues: seq<seq<AppendId>>,
    log: seq<AppendId>,
    held: seq<AppendId>,
    cursor: map<Pod, int>)

  datatype Persisted = Persisted(
    channels: map<Name, PersistedChannel>,
    ops: map<Name, Operation>,
    tombstones: set<SegmentId>)

  // --- one channel ----------------------------------------------------------------

  /** The listed segments that the index still knows. */
  function Known(segments: map<AppendId, Segment>, ids: seq<AppendId>): seq<AppendId> {
    if ids == [] then []
    else Known(segments, ids[..|ids| - 1]) + (if ids[|ids| - 1] in segments then [ids[|ids| - 1]] else [])
  }

  ghost function AllKnown(segments: map<AppendId, Segment>, queues: seq<seq<AppendId>>): seq<seq<AppendId>> {
    seq(|queues|, i requires 0 <= i < |queues| => Known(segments, queues[i]))
  }

  /** What a replacement coordinator rebuilds from a stored channel. */
  ghost function Restored(pc: PersistedChannel): Channel {
    Channel(pc.spec, pc.finite, pc.sealed, pc.produced, pc.overflowed, pc.lost, pc.acknowledged, pc.epoch, pc.productionClosed,
            AllKnown(pc.segments, pc.queues), Known(pc.segments, pc.log), pc.cursor,
            (set a | a in pc.segments && pc.segments[a].delivered != {}),
            Known(pc.segments, pc.held), pc.segments,
            (set a | a in pc.segments && a in pc.all))
  }

  /** The stored form lists what the channel indexes and says nothing of the work in flight. */
  ghost predicate Stores(pc: PersistedChannel, c: Channel) {
    && pc == PersistedChannel(c.spec, c.finite, c.sealed, c.produced, c.overflowed, c.lost, c.acknowledged, c.epoch,
                              c.productionClosed, c.segs, pc.all, c.queues, c.log, c.held, c.cursor)
    && forall a :: a in pc.all <==> a in c.all
  }

  method SnapshotChannel(c: Channel) returns (pc: PersistedChannel)
    ensures Stores(pc, c)
  {
    var all: seq<AppendId> := [];
    var rest := c.all;
    while rest != {}
      invariant rest <= c.all && forall a :: a in all <==> a in c.all - rest
      decreases rest
    {
      var a :| a in rest;
      rest := rest - {a};
      all := all + [a];
    }
    pc := PersistedChannel(c.spec, c.finite, c.sealed, c.produced, c.overflowed, c.lost, c.acknowledged, c.epoch,
                           c.productionClosed, c.segs, all, c.queues, c.log, c.held, c.cursor);
  }

  method KnownOf(segments: map<AppendId, Segment>, ids: seq<AppendId>) returns (r: seq<AppendId>)
    ensures r == Known(segments, ids)
  {
    r := [];
    for i := 0 to |ids|
      invariant r == Known(segments, ids[..i])
    {
      assert ids[..i + 1][..i] == ids[..i];
      if ids[i] in segments { r := r + [ids[i]]; }
    }
    assert ids[..|ids|] == ids;
  }

  method RestoreChannel(pc: PersistedChannel) returns (c: Channel)
    ensures c == Restored(pc)
  {
    var inflight: set<AppendId>, all: set<AppendId> := {}, {};
    var rest := pc.segments.Keys;
    while rest != {}
      invariant rest <= pc.segments.Keys
      invariant inflight == set a | a in pc.segments.Keys - rest && pc.segments[a].delivered != {}
      invariant all == set a | a in pc.segments.Keys - rest && a in pc.all
      decreases rest
    {
      var a :| a in rest;
      rest := rest - {a};
      if a in pc.all { all := all + {a}; }
      if pc.segments[a].delivered != {} { inflight := inflight + {a}; }
    }
    var queues: seq<seq<AppendId>> := [];
    for p := 0 to |pc.queues|
      invariant queues == AllKnown(pc.segments, pc.queues)[..p]
    {
      var q := KnownOf(pc.segments, pc.queues[p]);
      queues := queues + [q];
    }
    var log := KnownOf(pc.segments, pc.log);
    var held := KnownOf(pc.segments, pc.held);
    c := Channel(pc.spec, pc.finite, pc.sealed, pc.produced, pc.overflowed, pc.lost, pc.acknowledged, pc.epoch,
                 pc.productionClosed, queues, log, pc.cursor, inflight, held, pc.segments, all);
  }

  lemma {:induction false} KnownIdentity(segments: map<AppendId, Segment>, ids: seq<AppendId>)
    ensures |Known(segments, ids)| <= |ids|
    ensures Known(segments, ids) == ids <==> forall a | a in ids :: a in segments
  {
    if ids != [] {
      var n := |ids| - 1;
      KnownIdentity(segments, ids[..n]);
      assert ids == ids[..n] + [ids[n]];
      if ids[n] in segments {
        assert Known(segments, ids) == ids ==> Known(segments, ids)[..n] == ids[..n];
      }
    }
  }

  /** Every list names indexed segments, and in flight is what some process holds. */
  ghost predicate Storable(c: Channel) {
    && (forall p, a | 0 <= p < |c.queues| && a in c.queues[p] :: a in c.segs)
    && (forall a | a in c.log :: a in c.segs)
    && (forall a | a in c.held :: a in c.segs)
    && c.all <= c.segs.Keys
    && c.inflight == (set a | a in c.segs && c.segs[a].delivered != {})
  }

  /** A snapshot restores to the same channel exactly when the channel is storable. */
  lemma RoundTripExactly(c: Channel, pc: PersistedChannel)
    requires Stores(pc, c)
    ensures Restored(pc) == c <==> Storable(c)
  {
    var d := Restored(pc);
    forall p | 0 <= p < |c.queues| ensures Known(c.segs, c.queues[p]) == c.queues[p] <==> forall a | a in c.queues[p] :: a in c.segs {
      KnownIdentity(c.segs, c.queues[p]);
    }
    KnownIdentity(c.segs, c.log);
    KnownIdentity(c.segs, c.held);
    if Storable(c) {
      assert d.queues == c.queues;
      assert d.all == c.all;
    } else if d == c {
      assert forall p | 0 <= p < |c.queues| :: d.queues[p] == Known(c.segs, c.queues[p]);
      assert false;
    }
  }

  lemma ValidIsStorable(c: Channel)
    requires Valid(c)
    ensures Storable(c)
  {
    forall a | a in c.segs ensures a in c.inflight <==> c.segs[a].delivered != {} { assert Placed(c, a); }
  }

  // --- the whole coordinator ----------------------------------------------------------

  ghost predicate StoresAll(p: Persisted, channels: map<Name, Channel>, ops: map<Name, Operation>) {
    && p.channels.Keys == channels.Keys
    && (forall n | n in channels :: Stores(p.channels[n], channels[n]))
    && p.ops == ops
  }

  ghost function RestoredAll(p: Persisted): map<Name, Channel> {
    map n | n in p.channels :: Restored(p.channels[n])
  }

  lemma RoundTrip(p: Persisted, channels: map<Name, Channel>, ops: map<Name, Operation>)
    requires StoresAll(p, channels, ops) && forall n | n in channels :: Valid(channels[n])
    ensures RestoredAll(p) == channels && p.ops == ops
  {
    hide Valid, Stores, Restored, Storable;
    forall n | n in channels ensures Restored(p.channels[n]) == channels[n] {
      ValidIsStorable(channels[n]);
      RoundTripExactly(channels[n], p.channels[n]);
    }
  }

  /** The ids of the released segments an Ephemeral channel still indexes. */
  ghost function ReleasedOf(c: Channel): set<SegmentId> {
    if c.spec.retained then {}
    else set a | a in c.all && a in c.segs && c.segs[a].released :: c.segs[a].meta.id
  }

  ghost function ReleasedIn(channels: map<Name, Channel>, names: set<Name>): set<SegmentId> {
    set n, i | n in names && n in channels && i in ReleasedOf(channels[n]) :: i
  }

  /** The ids whose bytes a replacement coordinator deletes: those handed out and those still to be handed out. */
  method Tombstones(channels: map<Name, Channel>, handed: set<SegmentId>) returns (ids: set<SegmentId>)
    ensures ids == handed + ReleasedIn(channels, channels.Keys)
  {
    ids := handed;
    var rest := channels.Keys;
    while rest != {}
      invariant rest <= channels.Keys
      invariant ids == handed + ReleasedIn(channels, channels.Keys - rest)
      decreases rest
    {
      var n :| n in rest;
      ghost var done := channels.Keys - rest;
      rest := rest - {n};
      assert channels.Keys - rest == done + {n};
      assert ReleasedIn(channels, done + {n}) == ReleasedIn(channels, done) + ReleasedOf(channels[n]);
      var c := channels[n];
      if !c.spec.retained { ids := ids + set a | a in c.all && a in c.segs && c.segs[a].released :: c.segs[a].meta.id; }
    }
    assert channels.Keys - rest == channels.Keys;
  }

  method Snapshot(channels: map<Name, Channel>, ops: map<Name, Operation>, handed: set<SegmentId>) returns (p: Persisted)
    ensures StoresAll(p, channels, ops) && p.tombstones == handed + ReleasedIn(channels, channels.Keys)
  {
    hide Stores;
    var stored: map<Name, PersistedChannel> := map[];
    var rest := channels.Keys;
    while rest != {}
      invariant rest <= channels.Keys && stored.Keys == channels.Keys - rest
      invariant forall n | n in stored :: Stores(stored[n], channels[n])
      decreases rest
    {
      var n :| n in rest;
      rest := rest - {n};
      var pc := SnapshotChannel(channels[n]);
      stored := stored[n := pc];
    }
    var tombs := Tombstones(channels, handed);
    p := Persisted(stored, ops, tombs);
  }

  method Restore(p: Persisted) returns (channels: map<Name, Channel>, ops: map<Name, Operation>)
    ensures channels == RestoredAll(p) && ops == p.ops
  {
    hide Restored;
    channels := map[];
    var rest := p.channels.Keys;
    while rest != {}
      invariant rest <= p.channels.Keys && channels.Keys == p.channels.Keys - rest
      invariant forall n | n in channels :: channels[n] == Restored(p.channels[n])
      decreases rest
    {
      var n :| n in rest;
      rest := rest - {n};
      var c := RestoreChannel(p.channels[n]);
      channels := channels[n := c];
    }
    ops := p.ops;
  }
}
