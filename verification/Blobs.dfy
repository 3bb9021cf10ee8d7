/**
 A worker's local store: segments and the large payloads they refer to. A
 payload lives as long as some segment that carries a record referring to it.
 */
module Blobs {
  import opened Topology
  import opened Sums

  type SegmentName(==, !new)

  /** Blobs are numbered by the store as it writes them. */
  datatype BlobId = BlobId(number: int)

  datatype BlobRef = BlobRef(segments: set<SegmentName>, bound: bool)

  // --- the two indexes ------------------------------------------------------------------------

  ghost predicate Lists(segBlobs: map<SegmentName, seq<BlobId>>, s: SegmentName, b: BlobId) {
    s in segBlobs && b in segBlobs[s]
  }

  /** An existing blob knows exactly the segments that list it, and is bound as soon as there is one. */
  ghost predicate Inverse(blobs: map<BlobId, BlobRef>, segBlobs: map<SegmentName, seq<BlobId>>) {
    forall b | b in blobs ::
      && (forall s :: s in blobs[b].segments <==> Lists(segBlobs, s, b))
      && (blobs[b].bound <==> blobs[b].segments != {})
  }

  ghost predicate Numbered(segBlobs: map<SegmentName, seq<BlobId>>, next: int) {
    forall s, b | Lists(segBlobs, s, b) :: b.number < next
  }

  /** The files on disk and the bytes they take. */
  ghost predicate Accounted(blobs: map<BlobId, BlobRef>, files: map<BlobId, int>, segments: map<SegmentName, int>, used: int, next: int) {
    && used == Total(files, files.Keys) + Total(segments, segments.Keys)
    && blobs.Keys <= files.Keys
    && (forall b | b in files :: b.number < next && files[b] >= 0)
    && (forall s | s in segments :: segments[s] >= 0)
  }

  lemma FileAdded<K>(files: map<K, int>, k: K, n: int)
    requires k !in files
    ensures Total(files[k := n], files[k := n].Keys) == Total(files, files.Keys) + n
  {
    var now := files[k := n];
    TotalTake(now, now.Keys, k);
    assert now.Keys - {k} == files.Keys;
    TotalFrame(files, now, files.Keys);
  }

  lemma FileRemoved<K>(files: map<K, int>, k: K)
    requires k in files
    ensures Total(files - {k}, (files - {k}).Keys) == Total(files, files.Keys) - files[k]
  {
    TotalTake(files, files.Keys, k);
    assert (files - {k}).Keys == files.Keys - {k};
    TotalFrame(files, files - {k}, files.Keys - {k});
  }

  // --- binding and releasing ---------------------------------------------------------------------

  /** The segment becomes an owner of the blob, if the blob still exists. */
  function BoundTo(blobs: map<BlobId, BlobRef>, s: SegmentName, b: BlobId): map<BlobId, BlobRef> {
    if b in blobs then blobs[b := BlobRef(blobs[b].segments + {s}, true)] else blobs
  }

  /** The segment gives up the blob; without another owner a bound blob is gone. */
  function GivenUp(blobs: map<BlobId, BlobRef>, s: SegmentName, b: BlobId): map<BlobId, BlobRef> {
    if b !in blobs then blobs
    else if blobs[b].bound && blobs[b].segments - {s} == {} then blobs - {b}
    else blobs[b := BlobRef(blobs[b].segments - {s}, blobs[b].bound)]
  }

  class SegmentStore {
    const maxBytes: int
    /** Whether the system always lets a file be deleted. */
    const reliable: bool
    var next: int
    var blobs: map<BlobId, BlobRef>
    var segBlobs: map<SegmentName, seq<BlobId>>
    /** What is on disk, with its sizes. */
    var files: map<BlobId, int>
    var segments: map<SegmentName, int>
    var usedBytes: int

    ghost predicate Valid()
      reads this
    {
      ValidBut({})
    }

    /** The files of `pending` are still to be deleted. */
    ghost predicate ValidBut(pending: set<BlobId>)
      reads this
    {
      && (reliable ==> files.Keys == blobs.Keys + pending)
      && Inverse(blobs, segBlobs) && Numbered(segBlobs, next)
      && Accounted(blobs, files, segments, usedBytes, next)
      && (maxBytes > 0 ==> usedBytes <= maxBytes)
    }

    constructor (maxBytes: int, reliable: bool)
      ensures Valid() && this.maxBytes == maxBytes && this.reliable == reliable && blobs == map[] && usedBytes == 0
    {
      this.maxBytes, this.reliable, next, blobs, segBlobs, files, segments, usedBytes := maxBytes, reliable, 0, map[], map[], map[], map[], 0;
    }

    /** Stores a payload of `n` bytes, unless it does not fit or writing it fails. */
    method WriteBlob(n: nat) returns (ok: bool, id: BlobId)
      requires Valid()
      modifies this
      ensures Valid() && segBlobs == old(segBlobs) && segments == old(segments)
      ensures ok ==> id !in old(files) && blobs == old(blobs)[id := BlobRef({}, false)] && files == old(files)[id := n]
      ensures !ok ==> blobs == old(blobs) && files == old(files) && usedBytes == old(usedBytes)
      ensures maxBytes > 0 && old(usedBytes) + n > maxBytes ==> !ok
    {
      hide Inverse, Accounted, Numbered;
      id := BlobId(next);
      next := next + 1;
      NumberTaken(blobs, segBlobs, files, segments, usedBytes, next - 1);
      var remaining := maxBytes - usedBytes;
      if maxBytes > 0 && remaining <= 0 { return false, id; }
      if maxBytes > 0 && n > remaining { return false, id; }
      var written: bool := *;
      if !written { return false, id; }
      BlobAdded(blobs, segBlobs, files, segments, usedBytes, id, n);
      usedBytes := usedBytes + n;
      files := files[id := n];
      blobs := blobs[id := BlobRef({}, false)];
      ok := true;
    }

    /** Stores a segment of `n` bytes. */
    method WriteSegment(s: SegmentName, n: nat) returns (ok: bool)
      requires Valid() && s !in segments
      modifies this`segments, this`usedBytes
      ensures Valid() && (ok ==> segments == old(segments)[s := n]) && (!ok ==> segments == old(segments) && usedBytes == old(usedBytes))
      ensures maxBytes > 0 && old(usedBytes) + n > maxBytes ==> !ok
    {
      if maxBytes > 0 && usedBytes + n > maxBytes { return false; }
      var written: bool := *;
      if !written { return false; }
      FileAdded(segments, s, n);
      segments := segments[s := n];
      usedBytes := usedBytes + n;
      ok := true;
    }

    /** The segment owns each of the blobs from now on. */
    method Bind(s: SegmentName, ids: seq<BlobId>)
      requires Valid() && forall i | 0 <= i < |ids| :: ids[i].number < next
      modifies this`blobs, this`segBlobs
      ensures Valid() && blobs.Keys == old(blobs).Keys
      ensures forall b | b in blobs ::
        blobs[b] == if b in ids then BlobRef(old(blobs)[b].segments + {s}, true) else old(blobs)[b]
    {
      hide Inverse, Numbered, Accounted;
      var bound := BindEach(blobs, s, ids);
      BindKeeps(blobs, segBlobs, bound, s, ids, next);
      AccountedByKeys(blobs, bound, files, segments, usedBytes, next);
      blobs := bound;
      if |ids| > 0 { segBlobs := segBlobs[s := (if s in segBlobs then segBlobs[s] else []) + ids]; }
    }

    /** A released segment gives up its blobs: exactly those that no other segment owns are deleted. */
    method ReleaseBlobs(s: SegmentName)
      requires Valid()
      modifies this`blobs, this`segBlobs, this`files, this`usedBytes
      ensures Valid() && segBlobs == old(segBlobs) - {s}
      ensures forall b :: b in blobs <==> b in old(blobs) && old(blobs)[b].segments != {s}
      ensures forall b | b in blobs :: blobs[b] == BlobRef(old(blobs)[b].segments - {s}, old(blobs)[b].bound)
      ensures forall b | b in blobs :: b in files
    {
      hide Inverse, Numbered, Accounted;
      var ids := if s in segBlobs then segBlobs[s] else [];
      var left, dead := GiveUpEach(blobs, segBlobs, s, ids);
      GivenUpKeeps(blobs, segBlobs, left, s, next);
      AccountedByKeys(blobs, left, files, segments, usedBytes, next);
      ghost var pending := set b | b in blobs && b !in left;
      assert reliable ==> files.Keys == left.Keys + pending;
      blobs, segBlobs := left, segBlobs - {s};
      ghost var kept, listed := blobs, segBlobs;
      for i := 0 to |dead|
        invariant blobs == kept && segBlobs == listed && ValidBut(pending)
        invariant forall b | b in pending :: b in dead[i..] && b !in kept
        invariant forall j | 0 <= j < |dead| :: dead[j] !in kept
      {
        RemoveFile(dead[i], pending);
        assert dead[i..] == [dead[i]] + dead[i + 1..];
        pending := pending - {dead[i]};
      }
      assert pending == {};
      FilesExist(blobs, files, segments, usedBytes, next);
    }

    /** Deletes a blob that no record will refer to. */
    method DropBlob(b: BlobId)
      requires Valid()
      modifies this`blobs, this`files, this`usedBytes
      ensures Valid() && blobs == old(blobs) - {b}
    {
      hide Accounted;
      DroppedKeeps(blobs, segBlobs, b);
      AccountedByKeys(blobs, blobs - {b}, files, segments, usedBytes, next);
      assert reliable ==> files.Keys == (blobs - {b}).Keys + (if b in blobs then {b} else {});
      ghost var pending := if b in blobs then {b} else {};
      blobs := blobs - {b};
      RemoveFile(b, pending);
      assert pending - {b} == {};
    }

    /** Removes a released segment's file and with it what only this segment owned. */
    method Remove(s: SegmentName)
      requires Valid()
      modifies this
      ensures Valid() && segBlobs == old(segBlobs) - {s}
      ensures forall b :: b in blobs <==> b in old(blobs) && old(blobs)[b].segments != {s}
    {
      var removed: bool := *;
      if s in segments && removed {
        FileRemoved(segments, s);
        TotalZero(segments, segments.Keys);
        usedBytes := usedBytes - segments[s];
        segments := segments - {s};
      }
      ReleaseBlobs(s);
    }

    /** Deletes a blob's file, if the system lets it. */
    method RemoveFile(b: BlobId, ghost pending: set<BlobId>)
      requires ValidBut(pending) && b !in blobs
      modifies this`files, this`usedBytes
      ensures ValidBut(pending - {b})
    {
      hide Inverse, Numbered;
      var removed: bool := *;
      if b in files && (removed || reliable) {
        FileRemoved(files, b);
        usedBytes := usedBytes - files[b];
        files := files - {b};
        assert reliable ==> files.Keys == blobs.Keys + (pending - {b});
      } else {
        assert reliable ==> b !in pending;
        assert reliable ==> pending - {b} == pending;
      }
    }
  }

  // --- facts ---------------------------------------------------------------------------------------

  lemma NumberTaken(blobs: map<BlobId, BlobRef>, segBlobs: map<SegmentName, seq<BlobId>>, files: map<BlobId, int>, segments: map<SegmentName, int>, used: int, next: int)
    requires Numbered(segBlobs, next) && Accounted(blobs, files, segments, used, next)
    ensures Numbered(segBlobs, next + 1) && Accounted(blobs, files, segments, used, next + 1) && BlobId(next) !in files && BlobId(next) !in blobs
    ensures forall s :: !Lists(segBlobs, s, BlobId(next))
  {
  }

  lemma BlobAdded(blobs: map<BlobId, BlobRef>, segBlobs: map<SegmentName, seq<BlobId>>, files: map<BlobId, int>, segments: map<SegmentName, int>, used: int, id: BlobId, n: nat)
    requires Inverse(blobs, segBlobs) && Accounted(blobs, files, segments, used, id.number + 1) && id !in files && forall s :: !Lists(segBlobs, s, id)
    ensures Inverse(blobs[id := BlobRef({}, false)], segBlobs)
    ensures Accounted(blobs[id := BlobRef({}, false)], files[id := n], segments, used + n, id.number + 1)
  {
    FileAdded(files, id, n);
  }

  lemma AccountedByKeys(blobs: map<BlobId, BlobRef>, fewer: map<BlobId, BlobRef>, files: map<BlobId, int>, segments: map<SegmentName, int>, used: int, next: int)
    requires Accounted(blobs, files, segments, used, next) && fewer.Keys <= blobs.Keys
    ensures Accounted(fewer, files, segments, used, next)
  {
  }

  lemma FilesExist(blobs: map<BlobId, BlobRef>, files: map<BlobId, int>, segments: map<SegmentName, int>, used: int, next: int)
    requires Accounted(blobs, files, segments, used, next)
    ensures forall b | b in blobs :: b in files
  {
  }

  lemma DroppedKeeps(blobs: map<BlobId, BlobRef>, segBlobs: map<SegmentName, seq<BlobId>>, b: BlobId)
    requires Inverse(blobs, segBlobs)
    ensures Inverse(blobs - {b}, segBlobs)
  {
  }

  method BindEach(blobs: map<BlobId, BlobRef>, s: SegmentName, ids: seq<BlobId>) returns (now: map<BlobId, BlobRef>)
    ensures now.Keys == blobs.Keys
    ensures forall b | b in blobs :: now[b] == if b in ids then BlobRef(blobs[b].segments + {s}, true) else blobs[b]
  {
    now := blobs;
    assert ids[..0] == [];
    for i := 0 to |ids|
      invariant now.Keys == blobs.Keys
      invariant forall b | b in blobs :: now[b] == if b in ids[..i] then BlobRef(blobs[b].segments + {s}, true) else blobs[b]
    {
      assert ids[..i + 1] == ids[..i] + [ids[i]];
      now := BoundTo(now, s, ids[i]);
    }
    assert ids[..|ids|] == ids;
  }

  lemma BindKeeps(blobs: map<BlobId, BlobRef>, segBlobs: map<SegmentName, seq<BlobId>>, now: map<BlobId, BlobRef>, s: SegmentName, ids: seq<BlobId>, next: int)
    requires Inverse(blobs, segBlobs) && Numbered(segBlobs, next) && now.Keys == blobs.Keys && forall i | 0 <= i < |ids| :: ids[i].number < next
    requires forall b | b in blobs :: now[b] == if b in ids then BlobRef(blobs[b].segments + {s}, true) else blobs[b]
    ensures var more := if |ids| > 0 then segBlobs[s := (if s in segBlobs then segBlobs[s] else []) + ids] else segBlobs;
      Inverse(now, more) && Numbered(more, next)
  {
    var more := if |ids| > 0 then segBlobs[s := (if s in segBlobs then segBlobs[s] else []) + ids] else segBlobs;
    forall t, b ensures Lists(more, t, b) <==> Lists(segBlobs, t, b) || (t == s && b in ids) {}
  }

  method GiveUpEach(blobs: map<BlobId, BlobRef>, ghost segBlobs: map<SegmentName, seq<BlobId>>, s: SegmentName, ids: seq<BlobId>)
    returns (left: map<BlobId, BlobRef>, dead: seq<BlobId>)
    requires Inverse(blobs, segBlobs) && ids == if s in segBlobs then segBlobs[s] else []
    ensures forall b :: b in left <==> b in blobs && blobs[b].segments != {s}
    ensures forall b | b in left :: left[b] == BlobRef(blobs[b].segments - {s}, blobs[b].bound)
    ensures forall i | 0 <= i < |dead| :: dead[i] !in left
    ensures forall b | b in blobs && b !in left :: b in dead
  {
    left, dead := blobs, [];
    assert ids[..0] == [];
    for i := 0 to |ids|
      invariant forall b :: b in left <==> b in blobs && !(b in ids[..i] && blobs[b].segments == {s})
      invariant forall b | b in left :: left[b] == if b in ids[..i] then BlobRef(blobs[b].segments - {s}, blobs[b].bound) else blobs[b]
      invariant forall j | 0 <= j < |dead| :: dead[j] !in left
      invariant forall b | b in blobs && b !in left :: b in dead
    {
      var b := ids[i];
      assert ids[..i + 1] == ids[..i] + [b];
      if b in left {
        OwnedBy(blobs, segBlobs, s, ids, b);
        left := GivenUp(left, s, b);
        if b !in left { dead := dead + [b]; }
      }
    }
    assert ids[..|ids|] == ids;
    NotOwned(blobs, segBlobs, s, ids);
  }

  lemma OwnedBy(blobs: map<BlobId, BlobRef>, segBlobs: map<SegmentName, seq<BlobId>>, s: SegmentName, ids: seq<BlobId>, b: BlobId)
    requires Inverse(blobs, segBlobs) && b in blobs && b in ids && ids == if s in segBlobs then segBlobs[s] else []
    ensures s in blobs[b].segments && blobs[b].bound
    ensures blobs[b].segments - {s} == {} <==> blobs[b].segments == {s}
    ensures blobs[b].segments - {s} - {s} == blobs[b].segments - {s}
  {
    assert Lists(segBlobs, s, b);
  }

  lemma NotOwned(blobs: map<BlobId, BlobRef>, segBlobs: map<SegmentName, seq<BlobId>>, s: SegmentName, ids: seq<BlobId>)
    requires Inverse(blobs, segBlobs) && ids == if s in segBlobs then segBlobs[s] else []
    ensures forall b | b in blobs && b !in ids :: s !in blobs[b].segments && blobs[b].segments - {s} == blobs[b].segments
  {
    forall b | b in blobs && b !in ids ensures s !in blobs[b].segments { assert !Lists(segBlobs, s, b); }
  }

  lemma GivenUpKeeps(blobs: map<BlobId, BlobRef>, segBlobs: map<SegmentName, seq<BlobId>>, left: map<BlobId, BlobRef>, s: SegmentName, next: int)
    requires Inverse(blobs, segBlobs) && Numbered(segBlobs, next)
    requires forall b :: b in left <==> b in blobs && blobs[b].segments != {s}
    requires forall b | b in left :: left[b] == BlobRef(blobs[b].segments - {s}, blobs[b].bound)
    ensures Inverse(left, segBlobs - {s}) && Numbered(segBlobs - {s}, next) && left.Keys <= blobs.Keys
  {
    forall t, b ensures Lists(segBlobs - {s}, t, b) <==> Lists(segBlobs, t, b) && t != s {}
    forall b | b in left.Keys ensures b in blobs.Keys {}
    forall b | b in left ensures left[b].bound <==> left[b].segments != {} { WithinOne(blobs[b].segments, s); }
  }

  lemma WithinOne<T>(t: set<T>, x: T)
    ensures t - {x} == {} <==> t == {} || t == {x}
  {
    assert t <= (t - {x}) + {x};
  }
}
