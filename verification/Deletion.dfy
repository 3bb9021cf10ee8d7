/**
 Which bytes may be deleted. Tombstones name segment ids, so an id must not be
 that of a segment that still waits.
 */
module Deletion {
  import opened Topology
  import opened Channels
  import opened Deliveries
  import opened ChannelOps
  import opened Persistence
  import opened States
  import opened Termination
  import opened Requests

  ghost predicate LiveIn(ch: ChannelMap, n: Name, a: AppendId) {
    n in ch && a in ch[n].segs && !ch[n].segs[a].released
  }

  /** Once the segment is released its id is among the tombstones. */
  ghost predicate Buries(ch: ChannelMap, m: Name, b: AppendId) {
    m in ch && b in ch[m].segs && b in ch[m].all && !ch[m].spec.retained
  }

  /** All of the segments with one of these ids are released. */
  ghost predicate AllReleased(ch: ChannelMap, ids: set<SegmentId>) {
    forall n, a | LiveIn(ch, n, a) :: ch[n].segs[a].meta.id !in ids
  }

  /** The ids a replacement coordinator would delete: those handed out, and those of released segments. */
  ghost function Tombs(ch: ChannelMap, keys: set<SegmentId>): set<SegmentId> {
    keys + ReleasedIn(ch, ch.Keys)
  }

  /** No segment that waits shares its id with a tombstone, or with another segment that could become one. */
  ghost predicate NoClash(ch: ChannelMap, keys: set<SegmentId>) {
    forall n, a | LiveIn(ch, n, a) ::
      && ch[n].segs[a].meta.id !in keys
      && forall m, b | Buries(ch, m, b) && ch[m].segs[b].meta.id == ch[n].segs[a].meta.id :: m == n && b == a
  }

  lemma NoClashHere(ch: ChannelMap, keys: set<SegmentId>)
    requires NoClash(ch, keys)
    ensures AllReleased(ch, Tombs(ch, keys))
  {
    forall n, a | LiveIn(ch, n, a) ensures ch[n].segs[a].meta.id !in ReleasedIn(ch, ch.Keys) {
      var i := ch[n].segs[a].meta.id;
      if i in ReleasedIn(ch, ch.Keys) {
        var m :| m in ch && i in ReleasedOf(ch[m]);
        var b :| b in ch[m].all && b in ch[m].segs && ch[m].segs[b].released && ch[m].segs[b].meta.id == i;
        assert Buries(ch, m, b);
      }
    }
  }

  /** What waits after a step without announcements waited before, under the same id, and nothing is indexed again. */
  lemma NoNewWorkMeans(ch: ChannelMap, dh: ChannelMap)
    requires NoNewWork(ch, dh)
    ensures forall n, a | LiveIn(dh, n, a) :: LiveIn(ch, n, a) && ch[n].segs[a].meta == dh[n].segs[a].meta
    ensures forall m, b | Buries(dh, m, b) :: Buries(ch, m, b) && ch[m].segs[b].meta == dh[m].segs[b].meta
  {
    forall n, a | n in dh && a in dh[n].segs ensures a in ch[n].segs && SegmentEvolves(ch[n].segs[a], dh[n].segs[a]) {
      assert Evolves(ch[n], dh[n]);
    }
    forall m, b | Buries(dh, m, b) ensures Buries(ch, m, b) { assert Evolves(ch[m], dh[m]); }
  }

  lemma NoClashStays(ch: ChannelMap, dh: ChannelMap, keys: set<SegmentId>)
    requires NoClash(ch, keys) && NoNewWork(ch, dh)
    ensures NoClash(dh, keys)
  {
    hide NoNewWork;
    NoNewWorkMeans(ch, dh);
  }

  lemma AllReleasedStays(ch: ChannelMap, dh: ChannelMap, ids: set<SegmentId>)
    requires AllReleased(ch, ids) && NoNewWork(ch, dh)
    ensures AllReleased(dh, ids)
  {
    hide NoNewWork;
    NoNewWorkMeans(ch, dh);
  }

  /** Losing one of two segments that clash names the other. */
  lemma ClashDeletes(ch: ChannelMap, keys: set<SegmentId>, n: Name, a: AppendId, m: Name, b: AppendId)
    requires ChannelsValid(ch) && LiveIn(ch, n, a) && LiveIn(ch, m, b) && Buries(ch, m, b) && (n, a) != (m, b)
    requires ch[m].segs[b].meta.id == ch[n].segs[a].meta.id
    ensures var dh := ch[m := MarkedLost(ch[m], b)];
      ChannelsValid(dh) && NoNewWork(ch, dh) && !AllReleased(dh, Tombs(dh, keys))
  {
    hide Valid, Keeps;
    var d := MarkedLost(ch[m], b);
    var dh := ch[m := d];
    MarkedLostKeeps(ch[m], b);
    LossEvolves(ch, m, b);
    assert b in d.all && d.segs[b].released && ch[n].segs[a].meta.id in ReleasedOf(d);
    assert m in dh && dh[m] == d;
    assert LiveIn(dh, n, a) && dh[n].segs[a].meta.id in ReleasedIn(dh, dh.Keys);
  }

  lemma LossEvolves(ch: ChannelMap, m: Name, b: AppendId)
    requires ChannelsValid(ch) && LiveIn(ch, m, b)
    ensures var d := MarkedLost(ch[m], b); Valid(d) && d.spec == ch[m].spec && NoNewWork(ch, ch[m := d])
  {
    hide Valid;
    MarkedLostKeeps(ch[m], b);
  }

  /**
   The tombstones never name a segment that waits, whatever happens before the
   next announcement, exactly when no two ids clash.
   */
  lemma NoClashExactly(ch: ChannelMap, keys: set<SegmentId>)
    requires ChannelsValid(ch)
    ensures NoClash(ch, keys) <==> forall dh | NoNewWork(ch, dh) :: AllReleased(dh, Tombs(dh, keys))
  {
    hide ChannelsValid, NoNewWork, AllReleased, Tombs;
    if NoClash(ch, keys) {
      forall dh | NoNewWork(ch, dh) ensures AllReleased(dh, Tombs(dh, keys)) {
        NoClashStays(ch, dh, keys);
        NoClashHere(dh, keys);
      }
    } else {
      NothingNewHere(ch);
      var n, a :| LiveIn(ch, n, a) && !(ch[n].segs[a].meta.id !in keys
        && forall m, b | Buries(ch, m, b) && ch[m].segs[b].meta.id == ch[n].segs[a].meta.id :: m == n && b == a);
      if ch[n].segs[a].meta.id !in keys {
        var m, b :| Buries(ch, m, b) && ch[m].segs[b].meta.id == ch[n].segs[a].meta.id && !(m == n && b == a);
        if LiveIn(ch, m, b) { ClashDeletes(ch, keys, n, a, m, b); } else { NamedAlready(ch, keys, n, a, m, b); }
      } else {
        NamedByKeys(ch, keys, n, a);
      }
    }
  }

  lemma NothingNewHere(ch: ChannelMap)
    ensures NoNewWork(ch, ch)
  {
  }

  lemma NamedByKeys(ch: ChannelMap, keys: set<SegmentId>, n: Name, a: AppendId)
    requires LiveIn(ch, n, a) && ch[n].segs[a].meta.id in keys
    ensures !AllReleased(ch, Tombs(ch, keys))
  {
  }

  lemma NamedAlready(ch: ChannelMap, keys: set<SegmentId>, n: Name, a: AppendId, m: Name, b: AppendId)
    requires LiveIn(ch, n, a) && Buries(ch, m, b) && !LiveIn(ch, m, b) && ch[m].segs[b].meta.id == ch[n].segs[a].meta.id
    ensures !AllReleased(ch, Tombs(ch, keys))
  {
    assert ch[m].segs[b].meta.id in ReleasedOf(ch[m]);
    assert ch[n].segs[a].meta.id in ReleasedIn(ch, ch.Keys);
  }

  // --- what an announcement must bring --------------------------------------------------------

  /**
   The announced segment's id is free: if it will wait, it is no tombstone and
   nobody's that could become one; if it could become one, nobody's who waits.
   */
  ghost predicate FreeId(ch: ChannelMap, keys: set<SegmentId>, n: Name, m: Announcement)
    requires n in ch
  {
    && (!BeyondBound(ch[n].spec, m.epoch) ==>
          m.id !in keys && forall k, b | Buries(ch, k, b) :: ch[k].segs[b].meta.id != m.id)
    && (!ch[n].spec.retained ==> forall k, b | LiveIn(ch, k, b) :: ch[k].segs[b].meta.id != m.id)
  }

  /** Indexing one more segment brings a clash exactly if its id is not free. */
  lemma FreeIdExactly(ch: ChannelMap, keys: set<SegmentId>, n: Name, m: Announcement, external: bool)
    requires n in ch && NoClash(ch, keys) && m.append !in ch[n].segs
    ensures NoClash(ch[n := Indexed(ch[n], m, external)], keys) <==> FreeId(ch, keys, n, m)
  {
    var d := Indexed(ch[n], m, external);
    var dh := ch[n := d];
    IndexedIds(ch, n, m, external);
    if FreeId(ch, keys, n, m) {
      FreeStays(ch, keys, n, m, external);
    } else if NoClash(dh, keys) {
      assert Buries(dh, n, m.append) <==> !ch[n].spec.retained;
      assert LiveIn(dh, n, m.append) <==> !BeyondBound(ch[n].spec, m.epoch);
      forall k, b | Buries(ch, k, b) ensures Buries(dh, k, b) && dh[k].segs[b] == ch[k].segs[b] && (k, b) != (n, m.append) {}
      forall k, b | LiveIn(ch, k, b) ensures LiveIn(dh, k, b) && dh[k].segs[b] == ch[k].segs[b] && (k, b) != (n, m.append) {}
      assert false;
    }
  }

  /** What indexing one segment does to who waits and who is indexed. */
  lemma IndexedIds(ch: ChannelMap, n: Name, m: Announcement, external: bool)
    requires n in ch && m.append !in ch[n].segs
    ensures var dh := ch[n := Indexed(ch[n], m, external)];
      && (forall k, b | LiveIn(dh, k, b) :: if (k, b) == (n, m.append) then !BeyondBound(ch[n].spec, m.epoch) && dh[k].segs[b].meta == m
                                            else LiveIn(ch, k, b) && dh[k].segs[b] == ch[k].segs[b])
      && (forall k, b | Buries(dh, k, b) :: if (k, b) == (n, m.append) then !ch[n].spec.retained && dh[k].segs[b].meta == m
                                            else Buries(ch, k, b) && dh[k].segs[b] == ch[k].segs[b])
      && (forall k, b | LiveIn(ch, k, b) :: LiveIn(dh, k, b) && dh[k].segs[b] == ch[k].segs[b] && (k, b) != (n, m.append))
      && (forall k, b | Buries(ch, k, b) :: Buries(dh, k, b) && dh[k].segs[b] == ch[k].segs[b] && (k, b) != (n, m.append))
  {
  }

  lemma FreeStays(ch: ChannelMap, keys: set<SegmentId>, n: Name, m: Announcement, external: bool)
    requires n in ch && NoClash(ch, keys) && m.append !in ch[n].segs && FreeId(ch, keys, n, m)
    ensures NoClash(ch[n := Indexed(ch[n], m, external)], keys)
  {
    hide Indexed, LiveIn, Buries;
    IndexedIds(ch, n, m, external);
  }

  /** A clash is not undone by indexing more. */
  lemma ClashStays(ch: ChannelMap, keys: set<SegmentId>, n: Name, m: Announcement, external: bool)
    requires n in ch && m.append !in ch[n].segs && NoClash(ch[n := Indexed(ch[n], m, external)], keys)
    ensures NoClash(ch, keys)
  {
    hide Indexed, LiveIn, Buries;
    IndexedIds(ch, n, m, external);
  }

  /** Every segment of a batch that is indexed has a free id when its turn comes. */
  ghost predicate OwnIds(ch: ChannelMap, keys: set<SegmentId>, n: Name, ns: seq<Notice>)
    requires n in ch
  {
    ns == [] ||
    (var k := |ns| - 1;
     var c := IndexFold(ch[n], ns[..k]);
     && OwnIds(ch, keys, n, ns[..k])
     && (ns[k].segment.Some? && ns[k].segment.value.append !in c.segs && !KeyTaken(c, ns[k].segment.value) ==>
           FreeId(ch[n := c], keys, n, ns[k].segment.value)))
  }

  /** A batch brings no clash exactly if its segments have free ids. */
  lemma {:induction false} OwnIdsExactly(ch: ChannelMap, keys: set<SegmentId>, n: Name, ns: seq<Notice>)
    requires n in ch && NoClash(ch, keys)
    ensures NoClash(ch[n := IndexFold(ch[n], ns)], keys) <==> OwnIds(ch, keys, n, ns)
  {
    hide NoClash, FreeId;
    if ns == [] {
      assert ch[n := ch[n]] == ch;
    } else {
      var k := |ns| - 1;
      OwnIdsExactly(ch, keys, n, ns[..k]);
      IndexOneExactly(ch, keys, n, IndexFold(ch[n], ns[..k]), ns[k]);
    }
  }

  lemma IndexOneExactly(ch: ChannelMap, keys: set<SegmentId>, n: Name, c: Channel, x: Notice)
    requires n in ch
    ensures var news := x.segment.Some? && x.segment.value.append !in c.segs && !KeyTaken(c, x.segment.value);
      NoClash(ch[n := IndexOne(c, x)], keys) <==>
        NoClash(ch[n := c], keys) && (news ==> FreeId(ch[n := c], keys, n, x.segment.value))
  {
    hide NoClash, FreeId, Indexed;
    var d := c.(overflowed := c.overflowed + x.overflowed);
    var e := IndexOne(c, x);
    CountAside(ch, n, c, d, keys);
    if e != c && e != d {
      var m := x.segment.value;
      assert ch[n := d][n := e] == ch[n := e];
      FreeAside(ch, n, c, d, keys, m);
      if NoClash(ch[n := d], keys) {
        FreeIdExactly(ch[n := d], keys, n, m, false);
      } else if NoClash(ch[n := e], keys) {
        ClashStays(ch[n := d], keys, n, m, false);
      }
    } else if x.segment.Some? && x.segment.value.append !in c.segs && !KeyTaken(c, x.segment.value) {
      NeverUnchanged(c, d, x.segment.value);
    }
  }

  lemma NeverUnchanged(c: Channel, d: Channel, m: Announcement)
    requires m.append !in c.segs && d == c.(overflowed := d.overflowed)
    ensures Indexed(d, m, false) != c && Indexed(d, m, false) != d && (KeyTaken(c, m) <==> KeyTaken(d, m))
  {
    assert m.append in Indexed(d, m, false).segs;
    if KeyTaken(c, m) { assert KeyTaken(d, m); }
    if KeyTaken(d, m) { assert KeyTaken(c, m); }
  }

  /** Ids do not depend on counts. */
  lemma CountAside(ch: ChannelMap, n: Name, c: Channel, d: Channel, keys: set<SegmentId>)
    requires n in ch && d == c.(overflowed := d.overflowed)
    ensures NoClash(ch[n := c], keys) <==> NoClash(ch[n := d], keys)
  {
    SameIds(ch[n := c], ch[n := d], keys);
    SameIds(ch[n := d], ch[n := c], keys);
  }

  lemma SameIds(ch: ChannelMap, dh: ChannelMap, keys: set<SegmentId>)
    requires ch.Keys == dh.Keys && forall n | n in ch :: dh[n].segs == ch[n].segs && dh[n].all == ch[n].all && dh[n].spec == ch[n].spec
    ensures NoClash(ch, keys) ==> NoClash(dh, keys)
    ensures forall k, b :: (LiveIn(ch, k, b) <==> LiveIn(dh, k, b)) && (Buries(ch, k, b) <==> Buries(dh, k, b))
  {
    forall k, b ensures (LiveIn(ch, k, b) <==> LiveIn(dh, k, b)) && (Buries(ch, k, b) <==> Buries(dh, k, b)) {}
  }

  lemma FreeAside(ch: ChannelMap, n: Name, c: Channel, d: Channel, keys: set<SegmentId>, m: Announcement)
    requires n in ch && d == c.(overflowed := d.overflowed)
    ensures FreeId(ch[n := c], keys, n, m) <==> FreeId(ch[n := d], keys, n, m)
  {
    SameIds(ch[n := c], ch[n := d], keys);
  }

  // --- segments the coordinator stores itself ----------------------------------------------------

  ghost function StoredAll(c: Channel, groups: seq<Announcement>): Channel {
    if groups == [] then c else Indexed(StoredAll(c, groups[..|groups| - 1]), groups[|groups| - 1], true)
  }

  ghost predicate OwnGroupIds(ch: ChannelMap, keys: set<SegmentId>, n: Name, groups: seq<Announcement>)
    requires n in ch
  {
    groups == [] ||
    (var k := |groups| - 1;
     OwnGroupIds(ch, keys, n, groups[..k]) && FreeId(ch[n := StoredAll(ch[n], groups[..k])], keys, n, groups[k]))
  }

  lemma {:induction false} OwnGroupIdsExactly(ch: ChannelMap, keys: set<SegmentId>, n: Name, groups: seq<Announcement>)
    requires n in ch && NoClash(ch, keys) && forall i, j | 0 <= i < j < |groups| :: groups[i].append != groups[j].append
    requires forall g | g in groups :: g.append !in ch[n].segs
    ensures NoClash(ch[n := StoredAll(ch[n], groups)], keys) <==> OwnGroupIds(ch, keys, n, groups)
  {
    hide NoClash, FreeId, Indexed;
    if groups == [] {
      assert ch[n := ch[n]] == ch;
    } else {
      var k := |groups| - 1;
      var c := StoredAll(ch[n], groups[..k]);
      OwnGroupIdsExactly(ch, keys, n, groups[..k]);
      StoredNew(ch[n], groups, k);
      assert ch[n := c][n := Indexed(c, groups[k], true)] == ch[n := StoredAll(ch[n], groups)];
      if NoClash(ch[n := c], keys) {
        FreeIdExactly(ch[n := c], keys, n, groups[k], true);
      } else if NoClash(ch[n := StoredAll(ch[n], groups)], keys) {
        ClashStays(ch[n := c], keys, n, groups[k], true);
      }
    }
  }

  lemma {:induction false} StoredNew(c: Channel, groups: seq<Announcement>, k: nat)
    requires k < |groups| && (forall i, j | 0 <= i < j < |groups| :: groups[i].append != groups[j].append)
    requires forall g | g in groups :: g.append !in c.segs
    ensures groups[k].append !in StoredAll(c, groups[..k]).segs
  {
    StoredKeys(c, groups[..k]);
    assert groups[k] in groups;
    forall i | 0 <= i < k ensures groups[..k][i].append != groups[k].append {}
  }

  lemma {:induction false} StoredKeys(c: Channel, groups: seq<Announcement>)
    ensures forall a | a in StoredAll(c, groups).segs :: a in c.segs || exists i :: 0 <= i < |groups| && groups[i].append == a
  {
    if groups != [] {
      var k := |groups| - 1;
      StoredKeys(c, groups[..k]);
      forall a | a in StoredAll(c, groups).segs ensures a in c.segs || exists i :: 0 <= i < |groups| && groups[i].append == a {
        if a != groups[k].append && a !in c.segs {
          var i :| 0 <= i < k && groups[..k][i].append == a;
          assert groups[i].append == a;
        }
      }
    }
  }

  // --- ids that were deleted ---------------------------------------------------------------------------

  ghost function NewIds(c: Channel, d: Channel): set<SegmentId> {
    set a | a in d.segs && a !in c.segs :: d.segs[a].meta.id
  }

  /** An id that is announced again is nobody's deleted id any more. */
  lemma ErasedStays(ch: ChannelMap, n: Name, d: Channel, erased: set<SegmentId>)
    requires n in ch && AllReleased(ch, erased) && Evolves(ch[n], d)
    ensures AllReleased(ch[n := d], erased - NewIds(ch[n], d))
  {
    var dh := ch[n := d];
    forall k, a | LiveIn(dh, k, a) ensures dh[k].segs[a].meta.id !in erased - NewIds(ch[n], d) {
      if k == n && a !in ch[n].segs {
        assert d.segs[a].meta.id in NewIds(ch[n], d);
      } else {
        assert k == n ==> SegmentEvolves(ch[n].segs[a], d.segs[a]);
        assert LiveIn(ch, k, a);
      }
    }
  }
}
