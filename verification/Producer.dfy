/**
 The producing side of a worker: records are buffered per channel, partition
 and epoch, combined by key where the channel says so, and shipped as segments.
 */
module Producing {
  import opened Topology
  import opened Sums
  import opened Combining

  /** A segment's record count and a buffer's encoded size are capped. */
  const FlushRecords := 500
  const FlushBytes := 4 * 1048576

  datatype BufKey = BufKey(channel: Name, partition: int, epoch: int)

  /** A declared output channel. */
  datatype Out = Out(spec: Spec, combine: Option<Combine>)

  /** Encoded sizes of keys and values. */
  datatype Sizes = Sizes(key: Key -> nat, value: Value -> nat)

  datatype Segment = Segment(k: BufKey, records: seq<Rec>)

  type Buffers = map<BufKey, seq<Rec>>
  type Index = map<BufKey, map<Key, int>>
  type Outs = map<Name, Out>

  datatype Answer = Done | Unknown | TooLarge | NoRoom | NotANumber | FlushFailed

  function Buf(buffers: Buffers, k: BufKey): seq<Rec> {
    if k in buffers then buffers[k] else []
  }

  predicate Combines(outs: Outs, k: BufKey) {
    k.channel in outs && outs[k.channel].combine.Some?
  }

  // --- bytes ------------------------------------------------------------------------------------

  ghost function BytesOf(z: Sizes, r: Rec): int {
    z.key(r.key) + z.value(r.value)
  }

  ghost function SizeOf(z: Sizes, recs: seq<Rec>): int {
    if recs == [] then 0 else SizeOf(z, recs[..|recs| - 1]) + BytesOf(z, recs[|recs| - 1])
  }

  lemma SizeNext(z: Sizes, recs: seq<Rec>, r: Rec)
    ensures SizeOf(z, recs + [r]) == SizeOf(z, recs) + BytesOf(z, r)
  {
    assert (recs + [r])[..|recs|] == recs;
  }

  lemma {:induction false} SizeRewritten(z: Sizes, recs: seq<Rec>, at: nat, r: Rec)
    requires at < |recs|
    ensures SizeOf(z, recs[at := r]) == SizeOf(z, recs) + BytesOf(z, r) - BytesOf(z, recs[at])
  {
    var k := |recs| - 1;
    if at == k {
      assert recs[at := r][..k] == recs[..k];
    } else {
      SizeRewritten(z, recs[..k], at, r);
      assert recs[at := r][..k] == recs[..k][at := r];
    }
  }

  /** The byte counts are those of the buffered records, and their sum. */
  ghost predicate BytesOk(z: Sizes, buffers: Buffers, bytes: map<BufKey, int>, total: int) {
    && bytes.Keys == buffers.Keys && total == Total(bytes, bytes.Keys)
    && forall k | k in buffers :: bytes[k] == SizeOf(z, buffers[k])
  }

  function BytesAt(bytes: map<BufKey, int>, k: BufKey): int {
    if k in bytes then bytes[k] else 0
  }

  lemma BytesChanged(z: Sizes, buffers: Buffers, bytes: map<BufKey, int>, total: int, k: BufKey, recs: seq<Rec>, more: int)
    requires BytesOk(z, buffers, bytes, total) && SizeOf(z, recs) == BytesAt(bytes, k) + more
    ensures BytesOk(z, buffers[k := recs], bytes[k := BytesAt(bytes, k) + more], total + more)
  {
    var now := bytes[k := BytesAt(bytes, k) + more];
    TotalFrame(bytes, now, bytes.Keys - {k});
    TotalTake(now, now.Keys, k);
    assert now.Keys - {k} == bytes.Keys - {k};
    if k in bytes { TotalTake(bytes, bytes.Keys, k); } else { assert bytes.Keys - {k} == bytes.Keys; }
  }

  lemma BytesRemoved(z: Sizes, buffers: Buffers, bytes: map<BufKey, int>, total: int, k: BufKey)
    requires BytesOk(z, buffers, bytes, total)
    ensures BytesOk(z, buffers - {k}, bytes - {k}, total - BytesAt(bytes, k))
  {
    var now := bytes - {k};
    assert now.Keys == bytes.Keys - {k};
    TotalFrame(bytes, now, now.Keys);
    if k in bytes { TotalTake(bytes, bytes.Keys, k); } else { assert now == bytes; }
  }

  // --- the index of combined keys ------------------------------------------------------------------

  /** The index of a buffer says where each key is, and nothing else. */
  ghost predicate Inverse(ix: map<Key, int>, recs: seq<Rec>) {
    && (forall key | key in ix :: 0 <= ix[key] < |recs| && recs[ix[key]].key == key)
    && (forall i | 0 <= i < |recs| :: recs[i].key in ix && ix[recs[i].key] == i)
  }

  function IndexAt(index: Index, k: BufKey): map<Key, int> {
    if k in index then index[k] else map[]
  }

  ghost predicate IndexOk(outs: Outs, buffers: Buffers, index: Index) {
    forall k | Combines(outs, k) ::
      && Inverse(IndexAt(index, k), Buf(buffers, k))
      && forall i | 0 <= i < |Buf(buffers, k)| :: Buf(buffers, k)[i].value.Number?
  }

  ghost predicate KeysDistinct(recs: seq<Rec>) {
    forall i, j | 0 <= i < j < |recs| :: recs[i].key != recs[j].key
  }

  lemma InverseIsDistinct(ix: map<Key, int>, recs: seq<Rec>)
    requires Inverse(ix, recs)
    ensures KeysDistinct(recs) && (ix == map[] <==> recs == [])
  {
    if recs != [] { assert recs[0].key in ix; }
  }

  // --- conservation -----------------------------------------------------------------------------------

  /** Everything shipped under a key, in order. */
  ghost function Shipped(shipped: seq<Segment>, k: BufKey): seq<Rec> {
    if shipped == [] then []
    else Shipped(shipped[..|shipped| - 1], k) + (if shipped[|shipped| - 1].k == k then shipped[|shipped| - 1].records else [])
  }

  lemma ShippedNext(shipped: seq<Segment>, s: Segment, k: BufKey)
    ensures Shipped(shipped + [s], k) == Shipped(shipped, k) + (if s.k == k then s.records else [])
  {
    assert (shipped + [s])[..|shipped|] == shipped;
  }

  /**
   What was emitted under a key was shipped or is buffered: without combining
   record by record in order, with combining in meaning.
   */
  ghost predicate Accounted(out: Option<Combine>, emitted: seq<Rec>, shipped: seq<Rec>, buffered: seq<Rec>) {
    if out.None? then emitted == shipped + buffered
    else forall key :: Received(out.value, shipped + buffered, key) == Meant(out.value, emitted, key)
  }

  ghost predicate Conserved(outs: Outs, emitted: Buffers, shipped: seq<Segment>, buffers: Buffers) {
    forall k: BufKey | k.channel in outs ::
      Accounted(outs[k.channel].combine, Buf(emitted, k), Shipped(shipped, k), Buf(buffers, k))
  }

  /** A combined segment holds one record for each key; no segment exceeds the cap unless a flush failed. */
  ghost predicate SegmentsOk(outs: Outs, shipped: seq<Segment>, broken: bool) {
    forall i | 0 <= i < |shipped| ::
      && shipped[i].records != [] && (Combines(outs, shipped[i].k) ==> KeysDistinct(shipped[i].records))
      && (!broken ==> |shipped[i].records| <= FlushRecords)
  }

  /** As long as no flush failed, every buffer is listed for flushing and, but for those in `full`, below the caps. */
  ghost predicate OrderOk(buffers: Buffers, bytes: map<BufKey, int>, order: seq<BufKey>, broken: bool, full: set<BufKey>) {
    !broken ==> forall k | k in buffers ::
      && k in order && |buffers[k]| <= FlushRecords
      && (k !in full ==> |buffers[k]| < FlushRecords && BytesAt(bytes, k) < FlushBytes)
  }

  ghost predicate NonEmpty(outs: Outs, buffers: Buffers) {
    forall k | k in buffers :: buffers[k] != [] && k.channel in outs
  }

  lemma FlushedAccounted(out: Option<Combine>, emitted: seq<Rec>, shipped: seq<Rec>, buffered: seq<Rec>)
    requires Accounted(out, emitted, shipped, buffered)
    ensures Accounted(out, emitted, shipped + buffered, []) && Accounted(out, emitted, shipped + [], buffered)
  {
    assert (shipped + buffered) + [] == shipped + buffered;
    assert shipped + [] == shipped;
  }

  lemma FlushedConserves(outs: Outs, emitted: Buffers, shipped: seq<Segment>, buffers: Buffers, k: BufKey)
    requires Conserved(outs, emitted, shipped, buffers) && k in buffers
    ensures Conserved(outs, emitted, shipped + [Segment(k, buffers[k])], buffers - {k})
  {
    hide Accounted, Shipped;
    forall j: BufKey | j.channel in outs
      ensures Accounted(outs[j.channel].combine, Buf(emitted, j), Shipped(shipped + [Segment(k, buffers[k])], j), Buf(buffers - {k}, j))
    {
      FlushedAccounted(outs[j.channel].combine, Buf(emitted, j), Shipped(shipped, j), Buf(buffers, j));
      ShippedNext(shipped, Segment(k, buffers[k]), j);
    }
  }

  lemma ConservedChanged(outs: Outs, emitted: Buffers, shipped: seq<Segment>, buffers: Buffers, k: BufKey, e: seq<Rec>, b: seq<Rec>)
    requires Conserved(outs, emitted, shipped, buffers) && k.channel in outs
    requires Accounted(outs[k.channel].combine, e, Shipped(shipped, k), b)
    ensures Conserved(outs, emitted[k := e], shipped, buffers[k := b])
  {
    hide Accounted, Shipped;
    forall j: BufKey | j.channel in outs && j != k ensures Buf(emitted[k := e], j) == Buf(emitted, j) && Buf(buffers[k := b], j) == Buf(buffers, j) {}
  }

  /** The buffered form of an emitted record under no combining, or under a key that is new to the buffer. */
  ghost predicate StandsFor(out: Option<Combine>, b: Rec, r: Rec) {
    if out.None? then b == r else b.key == r.key && (if out.value == Count then b.value == Number(1) else b.value == r.value && r.value.Number?)
  }

  lemma StandsForItself(r: Rec)
    ensures StandsFor(None, r, r)
  {
  }

  lemma AppendedAccounted(out: Option<Combine>, emitted: seq<Rec>, shipped: seq<Rec>, buffered: seq<Rec>, r: Rec, b: Rec)
    requires Accounted(out, emitted, shipped, buffered) && StandsFor(out, b, r)
    ensures Accounted(out, emitted + [r], shipped, buffered + [b])
  {
    assert shipped + (buffered + [b]) == (shipped + buffered) + [b];
    if out.Some? {
      forall key ensures Received(out.value, shipped + (buffered + [b]), key) == Meant(out.value, emitted + [r], key) {
        ReceivedNext(out.value, shipped + buffered, b, key);
        MeantNext(out.value, emitted, r, key);
      }
    }
  }

  /** What one more emitted value makes of the buffered record of its key. */
  ghost function Folded(mode: Combine, recs: seq<Rec>, at: nat, v: int): seq<Rec>
    requires at < |recs| && recs[at].value.Number?
  {
    recs[at := recs[at].(value := Number(Op(mode, recs[at].value.n, v)))]
  }

  /** Folding a value into the buffered record of its key means the same as emitting it. */
  lemma FoldedAccounted(mode: Combine, emitted: seq<Rec>, shipped: seq<Rec>, recs: seq<Rec>, at: nat, r: Rec, v: int)
    requires Accounted(Some(mode), emitted, shipped, recs) && at < |recs| && recs[at].key == r.key && recs[at].value.Number?
    requires if mode == Count then v == 1 else r.value == Number(v)
    ensures Accounted(Some(mode), emitted + [r], shipped, Folded(mode, recs, at, v))
  {
    var all := shipped + recs;
    var i := |shipped| + at;
    assert shipped + Folded(mode, recs, at, v) == Folded(mode, all, i, v);
    forall key ensures Received(mode, shipped + Folded(mode, recs, at, v), key) == Meant(mode, emitted + [r], key) {
      FoldedIn(mode, all, i, v, key);
      MeantNext(mode, emitted, r, key);
    }
  }

  lemma AccountedAt(outs: Outs, emitted: Buffers, shipped: seq<Segment>, buffers: Buffers, k: BufKey)
    requires Conserved(outs, emitted, shipped, buffers) && k.channel in outs
    ensures Accounted(outs[k.channel].combine, Buf(emitted, k), Shipped(shipped, k), Buf(buffers, k))
  {
  }

  // --- loop bounds ---------------------------------------------------------------------------------------

  function CountAt(counts: map<Name, nat>, ch: Name): nat {
    if ch in counts then counts[ch] else 0
  }

  /** Every dropped record is counted once. */
  ghost predicate CountsOk(overflowed: map<Name, nat>, reported: map<Name, nat>, dropped: map<Name, nat>) {
    forall ch :: CountAt(dropped, ch) == CountAt(overflowed, ch) + CountAt(reported, ch)
  }

  lemma CountDropped(overflowed: map<Name, nat>, reported: map<Name, nat>, dropped: map<Name, nat>, ch: Name)
    requires CountsOk(overflowed, reported, dropped)
    ensures CountsOk(overflowed[ch := CountAt(overflowed, ch) + 1], reported, dropped[ch := CountAt(dropped, ch) + 1])
  {
    forall c ensures CountAt(dropped[ch := CountAt(dropped, ch) + 1], c) == CountAt(overflowed[ch := CountAt(overflowed, ch) + 1], c) + CountAt(reported, c) {
      assert CountAt(dropped, c) == CountAt(overflowed, c) + CountAt(reported, c);
    }
  }

  lemma CountsReported(overflowed: map<Name, nat>, reported: map<Name, nat>, dropped: map<Name, nat>)
    requires CountsOk(overflowed, reported, dropped)
    ensures var now := map ch | ch in overflowed.Keys + reported.Keys :: CountAt(overflowed, ch) + CountAt(reported, ch);
      CountsOk(map[], now, dropped) && forall ch :: CountAt(now, ch) == CountAt(dropped, ch)
  {
    var now := map ch | ch in overflowed.Keys + reported.Keys :: CountAt(overflowed, ch) + CountAt(reported, ch);
    forall ch ensures CountAt(now, ch) == CountAt(dropped, ch) {
      assert CountAt(dropped, ch) == CountAt(overflowed, ch) + CountAt(reported, ch);
    }
  }

  /** A record on a feedback channel belongs to the next epoch. */
  ghost function EmitEpoch(outs: Outs, channel: Name, epoch: int): int {
    if channel in outs && outs[channel].spec.feedback.Some? then epoch + 1 else epoch
  }

  ghost predicate AtBound(outs: Outs, channel: Name, epoch: int) {
    channel in outs && outs[channel].spec.IsAsynchronous() && epoch + 1 >= outs[channel].spec.feedback.value.maxEpochs
  }

  ghost predicate Drops(outs: Outs, channel: Name, epoch: int) {
    AtBound(outs, channel, epoch) && outs[channel].spec.feedback.value.overflow.None?
  }

  /** The channel the record ends up on. */
  ghost function Target(outs: Outs, channel: Name, epoch: int): Name {
    if AtBound(outs, channel, epoch) && outs[channel].spec.feedback.value.overflow.Some?
    then outs[channel].spec.feedback.value.overflow.value else channel
  }

  /** The partition of a record: one log, by key, or in turn. */
  ghost function Route(spec: Spec, hash: (Key, nat) -> int, turn: map<Name, nat>, channel: Name, key: Key): int
    requires spec.partitions > 0
  {
    if spec.to.None? || spec.IsBroadcast() then 0
    else if spec.mode == Hash then hash(key, spec.partitions)
    else CountAt(turn, channel) % spec.partitions
  }

  /** Only a record of a round-robin channel takes a turn, and only one of its channel. */
  ghost predicate InTurn(before: map<Name, nat>, after: map<Name, nat>, channel: Name, spec: Spec) {
    forall c :: CountAt(after, c) == CountAt(before, c) + if c == channel && spec.to.Some? && spec.mode == RoundRobin then 1 else 0
  }

  /** On a Hash channel the records of one key share a partition, whatever was sent in between. */
  lemma KeyStaysTogether(spec: Spec, hash: (Key, nat) -> int, before: map<Name, nat>, later: map<Name, nat>, channel: Name, key: Key)
    requires spec.partitions > 0 && (spec.mode == RoundRobin ==> spec.to.None?)
    ensures Route(spec, hash, before, channel, key) == Route(spec, hash, later, channel, key)
  {
  }

  /** On a RoundRobin channel the next record goes to the next partition. */
  lemma TurnsGoRound(spec: Spec, hash: (Key, nat) -> int, before: map<Name, nat>, after: map<Name, nat>, channel: Name, a: Key, b: Key)
    requires spec.partitions > 0 && spec.to.Some? && spec.mode == RoundRobin && InTurn(before, after, channel, spec)
    ensures Route(spec, hash, after, channel, b) == NextOf(Route(spec, hash, before, channel, a), spec.partitions)
  {
    TurnsInOrder(CountAt(before, channel), spec.partitions);
  }

  // --- the worker -------------------------------------------------------------------------------------------

  class Producer {
    const outs: Outs
    const sizes: Sizes
    const hash: (Key, nat) -> int
    const maxRecordBytes: int
    const maxBufferedBytes: int
    var epoch: int
    var buffers: Buffers
    var bytes: map<BufKey, int>
    var bufferedBytes: int
    var index: Index
    var order: seq<BufKey>
    var turn: map<Name, nat>
    var overflowed: map<Name, nat>
    /** Segments written and not announced yet, or posted, in order. */
    var shipped: seq<Segment>
    /** Records dropped at a loop bound whose count was already taken for an announcement. */
    var reported: map<Name, nat>
    ghost var emitted: Buffers
    ghost var dropped: map<Name, nat>
    /** Whether a flush ever failed. */
    ghost var broken: bool

    ghost predicate Valid()
      reads this
    {
      ValidBut({})
    }

    /** The buffers in `full` may have reached a cap. */
    ghost predicate ValidBut(full: set<BufKey>)
      reads this
    {
      && BytesOk(sizes, buffers, bytes, bufferedBytes)
      && IndexOk(outs, buffers, index)
      && Conserved(outs, emitted, shipped, buffers)
      && SegmentsOk(outs, shipped, broken)
      && OrderOk(buffers, bytes, order, broken, full)
      && NonEmpty(outs, buffers)
      && CountsOk(overflowed, reported, dropped)
      && (forall n | n in outs :: outs[n].spec.partitions > 0)
    }

    constructor (outs: Outs, sizes: Sizes, hash: (Key, nat) -> int, maxRecordBytes: int, maxBufferedBytes: int)
      requires forall n | n in outs :: outs[n].spec.partitions > 0
      ensures Valid() && this.outs == outs && buffers == map[] && shipped == [] && !broken && bufferedBytes == 0
      ensures this.maxBufferedBytes == maxBufferedBytes && this.sizes == sizes
    {
      this.outs, this.sizes, this.hash, this.maxRecordBytes, this.maxBufferedBytes := outs, sizes, hash, maxRecordBytes, maxBufferedBytes;
      epoch, buffers, bytes, bufferedBytes, index, order := 0, map[], map[], 0, map[], [];
      turn, overflowed, reported, shipped := map[], map[], map[], [];
      emitted, dropped, broken := map[], map[], false;
    }

    /** Turns one buffer into a segment. Writing it may fail, and then the buffer stays. */
    method FlushBuffer(k: BufKey) returns (ok: bool)
      requires ValidBut({k})
      modifies this`buffers, this`bytes, this`bufferedBytes, this`index, this`shipped, this`broken
      ensures Valid()
      ensures ok ==> buffers == old(buffers) - {k} && bytes == old(bytes) - {k} && bufferedBytes == old(bufferedBytes) - BytesAt(old(bytes), k)
      ensures ok ==> broken == old(broken) && shipped == old(shipped) + (if k in old(buffers) then [Segment(k, old(buffers)[k])] else [])
      ensures !ok ==> broken && buffers == old(buffers) && bytes == old(bytes) && bufferedBytes == old(bufferedBytes) && shipped == old(shipped)
    {
      hide Conserved, BytesOk, IndexOk, SegmentsOk, OrderOk, NonEmpty, KeysDistinct;
      BuffersNonEmpty(outs, buffers);
      if |Buf(buffers, k)| == 0 {
        IndexRemoved(outs, buffers, index, k);
        NothingBuffered(sizes, buffers, bytes, bufferedBytes, order, broken, k);
        buffers, index, bytes := buffers - {k}, index - {k}, bytes - {k};
        return true;
      }
      var written: bool := *;
      if !written {
        StillOk(outs, buffers, bytes, order, shipped);
        broken := true;
        return false;
      }
      FlushedConserves(outs, emitted, shipped, buffers, k);
      IndexRemoved(outs, buffers, index, k);
      BytesRemoved(sizes, buffers, bytes, bufferedBytes, k);
      SegmentAdded(outs, buffers, bytes, index, order, shipped, broken, k);
      shipped := shipped + [Segment(k, buffers[k])];
      bufferedBytes := bufferedBytes - BytesAt(bytes, k);
      buffers, index, bytes := buffers - {k}, index - {k}, bytes - {k};
      ok := true;
    }

    /** Makes room for a record by flushing the oldest buffers. */
    method Reserve(n: int) returns (r: Answer)
      requires Valid()
      modifies this`buffers, this`bytes, this`bufferedBytes, this`index, this`shipped, this`broken, this`order
      ensures Valid() && (r == Done || r == NoRoom || r == FlushFailed)
      ensures r == Done ==> bufferedBytes + n <= maxBufferedBytes
      ensures r == NoRoom ==> bufferedBytes + n > maxBufferedBytes && (!broken ==> buffers == map[])
      ensures (r == FlushFailed ==> broken) && (r != FlushFailed ==> broken == old(broken))
      ensures bufferedBytes <= old(bufferedBytes)
    {
      hide Conserved, BytesOk, IndexOk, SegmentsOk, OrderOk, NonEmpty;
      while bufferedBytes + n > maxBufferedBytes
        invariant Valid() && broken == old(broken) && bufferedBytes <= old(bufferedBytes)
        decreases |order|
      {
        if order == [] {
          NothingListed(buffers, bytes, broken);
          return NoRoom;
        }
        var oldest := order[0];
        BuffersNonEmpty(outs, buffers);
        OrderWider(buffers, bytes, order, broken, oldest);
        BytesPositive(sizes, buffers, bytes, bufferedBytes, oldest);
        if |Buf(buffers, oldest)| > 0 {
          var ok := FlushBuffer(oldest);
          if !ok {
            StillOk(outs, buffers, bytes, order[1..], shipped);
            order := order[1..];
            return FlushFailed;
          }
        }
        OrderPopped(buffers, bytes, order, broken);
        order := order[1..];
      }
      r := Done;
    }

    /** A record enters its buffer. */
    method AddRecord(k: BufKey, b: Rec, ghost r: Rec)
      requires Valid() && k.channel in outs && (!broken ==> k in order) && StandsFor(outs[k.channel].combine, b, r)
      requires Combines(outs, k) ==> b.key !in IndexAt(index, k)
      modifies this`buffers, this`bytes, this`bufferedBytes, this`index, this`emitted
      ensures ValidBut({k}) && buffers == old(buffers)[k := Buf(old(buffers), k) + [b]]
      ensures emitted == old(emitted)[k := Buf(old(emitted), k) + [r]] && bufferedBytes == old(bufferedBytes) + BytesOf(sizes, b)
    {
      hide Conserved, BytesOk, IndexOk, SegmentsOk, OrderOk, NonEmpty, Accounted, StandsFor, Shipped;
      var recs := Buf(buffers, k);
      ghost var e := Buf(emitted, k) + [r];
      AccountedAt(outs, emitted, shipped, buffers, k);
      AppendedAccounted(outs[k.channel].combine, Buf(emitted, k), Shipped(shipped, k), recs, r, b);
      ConservedChanged(outs, emitted, shipped, buffers, k, e, recs + [b]);
      SizeSoFar(sizes, buffers, bytes, bufferedBytes, k);
      SizeNext(sizes, recs, b);
      BytesChanged(sizes, buffers, bytes, bufferedBytes, k, recs + [b], BytesOf(sizes, b));
      IndexAdded(outs, buffers, index, k, b, r);
      OrderAdded(outs, buffers, bytes, order, broken, k, recs + [b], BytesAt(bytes, k) + BytesOf(sizes, b));
      if Combines(outs, k) { index := index[k := IndexAt(index, k)[b.key := |recs|]]; }
      buffers := buffers[k := recs + [b]];
      bytes := bytes[k := BytesAt(bytes, k) + sizes.key(b.key) + sizes.value(b.value)];
      bufferedBytes := bufferedBytes + sizes.key(b.key) + sizes.value(b.value);
      emitted := emitted[k := e];
    }

    /** A value is folded into the buffered record of its key; the byte counts follow the new encoding. */
    method FoldRecord(k: BufKey, at: nat, v: int, ghost r: Rec)
      requires Valid() && Combines(outs, k) && at < |Buf(buffers, k)| && Buf(buffers, k)[at].key == r.key && Buf(buffers, k)[at].value.Number?
      requires if outs[k.channel].combine.value == Count then v == 1 else r.value == Number(v)
      modifies this`buffers, this`bytes, this`bufferedBytes, this`emitted
      ensures ValidBut({k}) && buffers == old(buffers)[k := Folded(outs[k.channel].combine.value, Buf(old(buffers), k), at, v)]
      ensures emitted == old(emitted)[k := Buf(old(emitted), k) + [r]]
    {
      hide Conserved, BytesOk, IndexOk, SegmentsOk, OrderOk, NonEmpty, Accounted, Shipped, Op;
      var mode := outs[k.channel].combine.value;
      var recs := buffers[k];
      var n := Combined(mode, recs[at].value.n, v);
      var now := recs[at := recs[at].(value := Number(n))];
      var more := sizes.value(now[at].value) - sizes.value(recs[at].value);
      ghost var e := Buf(emitted, k) + [r];
      AccountedAt(outs, emitted, shipped, buffers, k);
      FoldedAccounted(mode, Buf(emitted, k), Shipped(shipped, k), recs, at, r, v);
      ConservedChanged(outs, emitted, shipped, buffers, k, e, now);
      SizeSoFar(sizes, buffers, bytes, bufferedBytes, k);
      SizeRewritten(sizes, recs, at, now[at]);
      BytesChanged(sizes, buffers, bytes, bufferedBytes, k, now, more);
      IndexFolded(outs, buffers, index, k, at, v);
      OrderFolded(outs, buffers, bytes, order, broken, k, now, BytesAt(bytes, k) + more);
      buffers := buffers[k := now];
      bytes := bytes[k := BytesAt(bytes, k) + more];
      bufferedBytes := bufferedBytes + more;
      emitted := emitted[k := e];
    }

    /** Folds a record into the buffered one of its key, or buffers it as the first. */
    method CombineInto(k: BufKey, mode: Combine, r: Rec) returns (a: Answer)
      requires Valid() && k.channel in outs && outs[k.channel].combine == Some(mode) && (!broken ==> k in order)
      modifies this`buffers, this`bytes, this`bufferedBytes, this`index, this`emitted
      ensures a == Done || a == NotANumber
      ensures a == NotANumber <==> mode != Count && !r.value.Number?
      ensures a == Done ==> ValidBut({k}) && emitted == old(emitted)[k := Buf(old(emitted), k) + [r]] && k in buffers
      ensures a != Done ==> Valid() && emitted == old(emitted) && buffers == old(buffers) && bufferedBytes == old(bufferedBytes)
    {
      hide Conserved, BytesOk, SegmentsOk, OrderOk, NonEmpty, Accounted, Shipped, Op, KeysDistinct;
      assert Combines(outs, k) && Inverse(IndexAt(index, k), Buf(buffers, k));
      if mode != Count && !r.value.Number? {
        EmptyIndex(outs, buffers, index, k);
        index := index[k := IndexAt(index, k)];
        return NotANumber;
      }
      var ix := IndexAt(index, k);
      if r.key in ix {
        FoldRecord(k, ix[r.key], if mode == Count then 1 else r.value.n, r);
      } else {
        AddRecord(k, if mode == Count then Rec(r.key, Number(1), r.epoch) else r, r);
      }
      a := Done;
    }

    /** Where a record of the channel goes; round robin takes turns. */
    method Partition(channel: Name, key: Key) returns (p: int)
      requires channel in outs && outs[channel].spec.partitions > 0
      modifies this`turn
      ensures p == Route(outs[channel].spec, hash, old(turn), channel, key)
      ensures InTurn(old(turn), turn, channel, outs[channel].spec)
    {
      var spec := outs[channel].spec;
      if spec.to.None? || spec.IsBroadcast() { return 0; }
      if spec.mode == Hash { return hash(key, spec.partitions); }
      var t := if channel in turn then turn[channel] else 0;
      turn := turn[channel := t + 1];
      return t % spec.partitions;
    }

    /**
     Buffers a record. Unless a flush fails every record is kept, in order, and
     the buffers of channels that do not combine stay within the limit.
     */
    method Buffer(channel: Name, key: Key, value: Value, e: int) returns (a: Answer, ghost k: BufKey)
      requires Valid()
      modifies this
      ensures Valid() && k.channel == channel && k.epoch == e && epoch == old(epoch)
      ensures overflowed == old(overflowed) && reported == old(reported) && dropped == old(dropped)
      ensures a == Unknown <==> channel !in outs
      ensures a == Done ==> emitted == old(emitted)[k := Buf(old(emitted), k) + [Rec(key, value, e)]]
      ensures a == Done ==> k.partition == Route(outs[channel].spec, hash, old(turn), channel, key) && InTurn(old(turn), turn, channel, outs[channel].spec)
      ensures a == TooLarge <==> channel in outs && BytesOf(sizes, Rec(key, value, e)) > maxRecordBytes
      ensures a == FlushFailed ==> broken && (emitted == old(emitted) || emitted == old(emitted)[k := Buf(old(emitted), k) + [Rec(key, value, e)]])
      ensures a != Done && a != FlushFailed ==> emitted == old(emitted) && broken == old(broken)
      ensures a == Done ==> broken == old(broken)
      ensures channel !in outs ==> bufferedBytes == old(bufferedBytes)
      ensures channel in outs && outs[channel].combine.None? && old(bufferedBytes) <= maxBufferedBytes ==> bufferedBytes <= maxBufferedBytes
    {
      hide Conserved, BytesOk, IndexOk, SegmentsOk, OrderOk, NonEmpty, Accounted, CountsOk;
      k := BufKey(channel, 0, e);
      if channel !in outs { return Unknown, k; }
      var r := Rec(key, value, e);
      var n := sizes.key(key) + sizes.value(value);
      if n > maxRecordBytes { return TooLarge, k; }
      var room := Reserve(n);
      if room != Done { return room, k; }
      var p := Partition(channel, key);
      var at := BufKey(channel, p, e);
      k := at;
      a := Place(at, r);
    }

    /** The record joins its buffer, which is flushed when it reaches a cap. */
    method Place(k: BufKey, r: Rec) returns (a: Answer)
      requires Valid() && k.channel in outs
      modifies this`buffers, this`bytes, this`bufferedBytes, this`index, this`shipped, this`broken, this`order, this`emitted
      ensures Valid() && (a == Done || a == NotANumber || a == FlushFailed)
      ensures a == Done || a == FlushFailed ==> emitted == old(emitted)[k := Buf(old(emitted), k) + [r]]
      ensures a == NotANumber ==> emitted == old(emitted)
      ensures (a == FlushFailed ==> broken) && (a != FlushFailed ==> broken == old(broken))
      ensures outs[k.channel].combine.None? ==> bufferedBytes <= old(bufferedBytes) + BytesOf(sizes, r)
    {
      hide Conserved, BytesOk, IndexOk, SegmentsOk, OrderOk, NonEmpty, Accounted, CountsOk, StandsFor;
      OrderListed(buffers, bytes, order, broken, k);
      if k !in buffers { order := order + [k]; }
      var mode := outs[k.channel].combine;
      if mode.Some? {
        var c := CombineInto(k, mode.value, r);
        if c != Done { return c; }
      } else {
        StandsForItself(r);
        AddRecord(k, r, r);
      }
      a := FlushIfFull(k);
    }

    method FlushIfFull(k: BufKey) returns (a: Answer)
      requires ValidBut({k}) && k in buffers
      modifies this`buffers, this`bytes, this`bufferedBytes, this`index, this`shipped, this`broken
      ensures Valid() && (a == Done || a == FlushFailed) && bufferedBytes <= old(bufferedBytes)
      ensures (a == FlushFailed ==> broken) && (a == Done ==> broken == old(broken))
    {
      hide Conserved, BytesOk, IndexOk, SegmentsOk, OrderOk, NonEmpty, Accounted, CountsOk;
      if |buffers[k]| < FlushRecords && BytesAt(bytes, k) < FlushBytes {
        OrderNarrower(buffers, bytes, order, broken, k);
        return Done;
      }
      BytesPositive(sizes, buffers, bytes, bufferedBytes, k);
      var ok := FlushBuffer(k);
      a := if ok then Done else FlushFailed;
    }

    /**
     Emits a record. On a feedback channel it belongs to the next epoch; at the
     bound of an Asynchronous loop it goes to the overflow channel or is dropped
     and counted.
     */
    method Emit(channel: Name, key: Key, value: Value) returns (a: Answer, ghost k: BufKey)
      requires Valid()
      modifies this
      ensures Valid() && epoch == old(epoch)
      ensures a == Done && !Drops(outs, channel, old(epoch)) ==>
        && k.channel == Target(outs, channel, old(epoch)) && k.epoch == EmitEpoch(outs, channel, old(epoch))
        && emitted == old(emitted)[k := Buf(old(emitted), k) + [Rec(key, value, k.epoch)]] && dropped == old(dropped)
      ensures a == Done && !Drops(outs, channel, old(epoch)) ==>
        && k.channel in outs && k.partition == Route(outs[k.channel].spec, hash, old(turn), k.channel, key)
        && InTurn(old(turn), turn, k.channel, outs[k.channel].spec)
      ensures channel in outs && BytesOf(sizes, Rec(key, value, old(epoch))) > maxRecordBytes ==> a == TooLarge
      ensures channel !in outs ==> a == Unknown
      ensures a == Unknown && channel in outs ==> !Drops(outs, channel, old(epoch)) && Target(outs, channel, old(epoch)) !in outs
      ensures a == Done && Drops(outs, channel, old(epoch)) ==>
        emitted == old(emitted) && dropped == old(dropped)[channel := CountAt(old(dropped), channel) + 1]
      ensures a != Done && a != FlushFailed ==> emitted == old(emitted) && dropped == old(dropped)
      ensures (forall n | n in outs :: outs[n].combine.None?) && old(bufferedBytes) <= maxBufferedBytes ==> bufferedBytes <= maxBufferedBytes
    {
      hide Conserved, BytesOk, IndexOk, SegmentsOk, OrderOk, NonEmpty, CountsOk;
      k := BufKey(channel, 0, epoch);
      if channel !in outs { return Unknown, k; }
      if sizes.key(key) + sizes.value(value) > maxRecordBytes { return TooLarge, k; }
      var e, target := epoch, channel;
      var loop := outs[channel].spec.feedback;
      if loop.Some? {
        e := epoch + 1;
        if loop.value.mode == Asynchronous && e >= loop.value.maxEpochs {
          if loop.value.overflow.None? {
            CountDropped(overflowed, reported, dropped, channel);
            overflowed := overflowed[channel := CountAt(overflowed, channel) + 1];
            dropped := dropped[channel := CountAt(dropped, channel) + 1];
            return Done, k;
          }
          target := loop.value.overflow.value;
        }
      }
      a, k := Buffer(target, key, value, e);
    }

    /** Writes every buffer as a segment, and takes the counts of dropped records. */
    method Materialize() returns (ok: bool)
      requires Valid()
      modifies this`buffers, this`bytes, this`bufferedBytes, this`index, this`shipped, this`broken, this`order, this`overflowed, this`reported
      ensures Valid() && (!ok ==> broken) && (ok ==> broken == old(broken))
      ensures ok && !broken ==> buffers == map[] && bufferedBytes == 0
      ensures ok ==> forall ch :: CountAt(overflowed, ch) == 0 && CountAt(reported, ch) == CountAt(dropped, ch)
    {
      hide Conserved, BytesOk, IndexOk, SegmentsOk, OrderOk, NonEmpty, CountsOk;
      var keys := Listed(buffers, order);
      OrderFiltered(buffers, bytes, order, keys, broken);
      order := keys;
      while order != []
        invariant Valid() && broken == old(broken) && overflowed == old(overflowed) && reported == old(reported)
        decreases |order|
      {
        var k := order[0];
        OrderWider(buffers, bytes, order, broken, k);
        var flushed := FlushBuffer(k);
        if !flushed {
          StillOk(outs, buffers, bytes, [k], shipped);
          order := [k];
          return false;
        }
        OrderPopped(buffers, bytes, order, broken);
        order := order[1..];
      }
      NothingListed(buffers, bytes, broken);
      NoBytes(sizes, buffers, bytes, bufferedBytes);
      CountsReported(overflowed, reported, dropped);
      reported := map ch | ch in overflowed.Keys + reported.Keys :: CountAt(overflowed, ch) + CountAt(reported, ch);
      overflowed := map[];
      ok := true;
    }

    /** The listed keys that still have a buffer. */
    method Listed(buffers: Buffers, order: seq<BufKey>) returns (keys: seq<BufKey>)
      ensures forall k :: k in keys <==> k in order && k in buffers
    {
      keys := [];
      for i := 0 to |order|
        invariant forall k :: k in keys <==> k in order[..i] && k in buffers
      {
        assert order[..i + 1] == order[..i] + [order[i]];
        if order[i] in buffers { keys := keys + [order[i]]; }
      }
      assert order[..|order|] == order;
    }
  }

  lemma BuffersNonEmpty(outs: Outs, buffers: Buffers)
    requires NonEmpty(outs, buffers)
    ensures forall k | k in buffers :: |buffers[k]| > 0 && k.channel in outs
  {
  }

  lemma IndexRemoved(outs: Outs, buffers: Buffers, index: Index, k: BufKey)
    requires IndexOk(outs, buffers, index)
    ensures IndexOk(outs, buffers - {k}, index - {k})
  {
    forall j | Combines(outs, j)
      ensures Inverse(IndexAt(index - {k}, j), Buf(buffers - {k}, j))
      ensures forall i | 0 <= i < |Buf(buffers - {k}, j)| :: Buf(buffers - {k}, j)[i].value.Number?
    {
      if j != k { assert Buf(buffers - {k}, j) == Buf(buffers, j) && IndexAt(index - {k}, j) == IndexAt(index, j); }
    }
  }

  lemma NothingBuffered(z: Sizes, buffers: Buffers, bytes: map<BufKey, int>, total: int, order: seq<BufKey>, broken: bool, k: BufKey)
    requires BytesOk(z, buffers, bytes, total) && OrderOk(buffers, bytes, order, broken, {k}) && k !in buffers
    ensures buffers - {k} == buffers && bytes - {k} == bytes && BytesAt(bytes, k) == 0
    ensures OrderOk(buffers, bytes, order, broken, {})
  {
  }

  lemma StillOk(outs: Outs, buffers: Buffers, bytes: map<BufKey, int>, order: seq<BufKey>, shipped: seq<Segment>)
    requires SegmentsOk(outs, shipped, true) || SegmentsOk(outs, shipped, false)
    ensures SegmentsOk(outs, shipped, true) && OrderOk(buffers, bytes, order, true, {})
  {
  }

  lemma SegmentAdded(outs: Outs, buffers: Buffers, bytes: map<BufKey, int>, index: Index, order: seq<BufKey>, shipped: seq<Segment>, broken: bool, k: BufKey)
    requires IndexOk(outs, buffers, index) && SegmentsOk(outs, shipped, broken) && OrderOk(buffers, bytes, order, broken, {k})
    requires NonEmpty(outs, buffers) && k in buffers
    ensures SegmentsOk(outs, shipped + [Segment(k, buffers[k])], broken)
    ensures OrderOk(buffers - {k}, bytes - {k}, order, broken, {}) && NonEmpty(outs, buffers - {k})
  {
    if Combines(outs, k) { InverseIsDistinct(IndexAt(index, k), Buf(buffers, k)); }
  }

  lemma OrderWider(buffers: Buffers, bytes: map<BufKey, int>, order: seq<BufKey>, broken: bool, k: BufKey)
    requires OrderOk(buffers, bytes, order, broken, {})
    ensures OrderOk(buffers, bytes, order, broken, {k})
  {
  }

  lemma NothingListed(buffers: Buffers, bytes: map<BufKey, int>, broken: bool)
    requires OrderOk(buffers, bytes, [], broken, {})
    ensures !broken ==> buffers == map[]
  {
  }

  lemma OrderPopped(buffers: Buffers, bytes: map<BufKey, int>, order: seq<BufKey>, broken: bool)
    requires OrderOk(buffers, bytes, order, broken, {}) && order != [] && order[0] !in buffers
    ensures OrderOk(buffers, bytes, order[1..], broken, {})
  {
    assert order == [order[0]] + order[1..];
  }

  lemma {:induction false} SizePositive(z: Sizes, recs: seq<Rec>)
    ensures SizeOf(z, recs) >= 0
  {
    if recs != [] { SizePositive(z, recs[..|recs| - 1]); }
  }

  lemma BytesPositive(z: Sizes, buffers: Buffers, bytes: map<BufKey, int>, total: int, k: BufKey)
    requires BytesOk(z, buffers, bytes, total)
    ensures BytesAt(bytes, k) >= 0
  {
    if k in buffers { SizePositive(z, buffers[k]); }
  }

  lemma SizeSoFar(z: Sizes, buffers: Buffers, bytes: map<BufKey, int>, total: int, k: BufKey)
    requires BytesOk(z, buffers, bytes, total)
    ensures BytesAt(bytes, k) == SizeOf(z, Buf(buffers, k))
  {
  }

  lemma NoBytes(z: Sizes, buffers: Buffers, bytes: map<BufKey, int>, total: int)
    requires BytesOk(z, buffers, bytes, total)
    ensures buffers == map[] ==> total == 0
  {
  }

  lemma IndexAdded(outs: Outs, buffers: Buffers, index: Index, k: BufKey, b: Rec, r: Rec)
    requires IndexOk(outs, buffers, index) && k.channel in outs && StandsFor(outs[k.channel].combine, b, r)
    requires Combines(outs, k) ==> b.key !in IndexAt(index, k)
    ensures IndexOk(outs, buffers[k := Buf(buffers, k) + [b]],
                    if Combines(outs, k) then index[k := IndexAt(index, k)[b.key := |Buf(buffers, k)|]] else index)
  {
    var now := buffers[k := Buf(buffers, k) + [b]];
    var next := if Combines(outs, k) then index[k := IndexAt(index, k)[b.key := |Buf(buffers, k)|]] else index;
    forall j | Combines(outs, j)
      ensures Inverse(IndexAt(next, j), Buf(now, j)) && forall i | 0 <= i < |Buf(now, j)| :: Buf(now, j)[i].value.Number?
    {
      assert Inverse(IndexAt(index, j), Buf(buffers, j));
      if j != k { assert Buf(now, j) == Buf(buffers, j) && IndexAt(next, j) == IndexAt(index, j); }
    }
  }

  lemma IndexFolded(outs: Outs, buffers: Buffers, index: Index, k: BufKey, at: nat, v: int)
    requires IndexOk(outs, buffers, index) && Combines(outs, k) && at < |Buf(buffers, k)| && Buf(buffers, k)[at].value.Number?
    ensures IndexOk(outs, buffers[k := Folded(outs[k.channel].combine.value, Buf(buffers, k), at, v)], index)
  {
    hide Op;
    var now := buffers[k := Folded(outs[k.channel].combine.value, Buf(buffers, k), at, v)];
    forall j | Combines(outs, j)
      ensures Inverse(IndexAt(index, j), Buf(now, j)) && forall i | 0 <= i < |Buf(now, j)| :: Buf(now, j)[i].value.Number?
    {
      assert Inverse(IndexAt(index, j), Buf(buffers, j));
      if j != k { assert Buf(now, j) == Buf(buffers, j); }
    }
  }

  lemma EmptyIndex(outs: Outs, buffers: Buffers, index: Index, k: BufKey)
    requires IndexOk(outs, buffers, index)
    ensures IndexOk(outs, buffers, index[k := IndexAt(index, k)])
  {
    forall j ensures IndexAt(index[k := IndexAt(index, k)], j) == IndexAt(index, j) {}
  }

  lemma OrderAdded(outs: Outs, buffers: Buffers, bytes: map<BufKey, int>, order: seq<BufKey>, broken: bool, k: BufKey, recs: seq<Rec>, size: int)
    requires OrderOk(buffers, bytes, order, broken, {}) && NonEmpty(outs, buffers) && k.channel in outs && (!broken ==> k in order)
    requires |recs| == |Buf(buffers, k)| + 1
    ensures OrderOk(buffers[k := recs], bytes[k := size], order, broken, {k}) && NonEmpty(outs, buffers[k := recs])
  {
  }

  lemma OrderFolded(outs: Outs, buffers: Buffers, bytes: map<BufKey, int>, order: seq<BufKey>, broken: bool, k: BufKey, recs: seq<Rec>, size: int)
    requires OrderOk(buffers, bytes, order, broken, {}) && NonEmpty(outs, buffers) && k in buffers && |recs| == |buffers[k]|
    ensures OrderOk(buffers[k := recs], bytes[k := size], order, broken, {k}) && NonEmpty(outs, buffers[k := recs])
  {
  }

  /** A key without a buffer is listed when it gets one. */
  lemma OrderListed(buffers: Buffers, bytes: map<BufKey, int>, order: seq<BufKey>, broken: bool, k: BufKey)
    requires OrderOk(buffers, bytes, order, broken, {})
    ensures k in buffers && !broken ==> k in order
    ensures OrderOk(buffers, bytes, order + [k], broken, {})
  {
  }

  lemma OrderNarrower(buffers: Buffers, bytes: map<BufKey, int>, order: seq<BufKey>, broken: bool, k: BufKey)
    requires OrderOk(buffers, bytes, order, broken, {k}) && k in buffers && |buffers[k]| < FlushRecords && BytesAt(bytes, k) < FlushBytes
    ensures OrderOk(buffers, bytes, order, broken, {})
  {
  }

  lemma OrderFiltered(buffers: Buffers, bytes: map<BufKey, int>, order: seq<BufKey>, keys: seq<BufKey>, broken: bool)
    requires OrderOk(buffers, bytes, order, broken, {}) && forall k :: k in keys <==> k in order && k in buffers
    ensures OrderOk(buffers, bytes, keys, broken, {})
  {
  }

  /**
   After everything was written: without combining, what was shipped for a
   partition and epoch is exactly what was emitted, in order; with combining,
   every key's shipped records mean what its emitted values mean.
   */
  lemma AllShipped(p: Producer, k: BufKey)
    requires p.Valid() && p.buffers == map[] && k.channel in p.outs
    ensures p.outs[k.channel].combine.None? ==> Shipped(p.shipped, k) == Buf(p.emitted, k)
    ensures p.outs[k.channel].combine.Some? ==>
      forall key :: Received(p.outs[k.channel].combine.value, Shipped(p.shipped, k), key) == Meant(p.outs[k.channel].combine.value, Buf(p.emitted, k), key)
  {
    hide BytesOk, IndexOk, SegmentsOk, OrderOk, CountsOk;
    AccountedAt(p.outs, p.emitted, p.shipped, p.buffers, k);
    assert Shipped(p.shipped, k) + [] == Shipped(p.shipped, k);
  }

  /**
   In numbers: a consumer of what was shipped finds the least, the greatest or
   the sum of the numbers that were emitted for a key, or how many records were.
   */
  lemma ShippedInNumbers(p: Producer, k: BufKey, key: Key)
    requires p.Valid() && p.buffers == map[] && k.channel in p.outs && p.outs[k.channel].combine.Some?
    ensures var mode, there, here := p.outs[k.channel].combine.value, Numbers(Shipped(p.shipped, k), key), Numbers(Buf(p.emitted, k), key);
      && (mode == Min ==> (there == [] <==> here == []) && forall n :: IsLeast(n, there) <==> IsLeast(n, here))
      && (mode == Max ==> (there == [] <==> here == []) && forall n :: IsGreatest(n, there) <==> IsGreatest(n, here))
      && (mode == Sum ==> SumOf(there) == SumOf(here))
      && (mode == Count ==> SumOf(there) == Times(Buf(p.emitted, k), key))
  {
    var mode, there, here := p.outs[k.channel].combine.value, Shipped(p.shipped, k), Buf(p.emitted, k);
    AllShipped(p, k);
    ReceivedIsResult(mode, there, key);
    MeantIsResult(mode, here, key);
    assert Received(mode, there, key) == Meant(mode, here, key);
  }
}
