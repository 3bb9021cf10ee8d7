/**
 A retained channel: an append-only log per partition with absolute offsets,
 and named cursors that read it. Old history can be deleted; offsets stay.
 */
module RetainedLog {
  import opened Topology
  import opened Channels

  type Record(==, !new)

  /** One accepted batch. */
  datatype Entry = Entry(append: AppendId, part: int, records: seq<Record>)

  /** Where an append went. */
  datatype Place = Place(slot: int, offset: int)

  /** Who reads: a pod's process, or a named external reader. */
  datatype Reader = Reader(pod: Pod, incarnation: Incarnation)

  datatype Delivery = Delivery(offset: int, append: AppendId, owner: Reader)

  datatype Subscription = Subscription(operation: Option<Name>, positions: seq<int>, inflight: map<int, Delivery>)

  datatype SubscriptionAck = SubscriptionAck(partition: int, offset: int, append: AppendId)

  datatype Position = Position(partition: int, offset: int)

  datatype Work = Work(partition: int, offset: int, append: AppendId)

  datatype StoredSegment = StoredSegment(part: int, offset: int, records: seq<Record>)

  /** What a snapshot keeps of a retained channel: the receipts, and the history as a list of append ids. */
  datatype StoredLog = StoredLog(
    sealed: bool,
    segments: map<AppendId, StoredSegment>,
    history: seq<seq<AppendId>>,
    base: seq<int>,
    subscriptions: map<Name, Subscription>)

  /** `Panicked` is a request that ends in a run-time error inside the coordinator. */
  datatype Answer = Ok | Panicked | BadRequest | Forbidden | NotFound | Conflict | Gone | CommitFailed

  // --- invariant ------------------------------------------------------------------------------

  /** The retained history is what is left of everything ever appended. */
  ghost predicate LogOk(full: seq<seq<Entry>>, history: seq<seq<Entry>>, base: seq<int>) {
    && |history| == |full| && |base| == |full|
    && forall p | 0 <= p < |full| :: 0 <= base[p] <= |full[p]| && history[p] == full[p][base[p]..]
  }

  ghost predicate Retains(full: seq<seq<Entry>>, base: seq<int>, p: int, o: int) {
    0 <= p < |full| && p < |base| && 0 <= base[p] <= o < |full[p]|
  }

  /** The append ids are exactly those in retained history, each once. */
  ghost predicate IdsOk(full: seq<seq<Entry>>, base: seq<int>, ids: map<AppendId, Place>) {
    && (forall a | a in ids :: Retains(full, base, ids[a].slot, ids[a].offset) && full[ids[a].slot][ids[a].offset].append == a)
    && (forall p, o | Retains(full, base, p, o) :: full[p][o].append in ids && ids[full[p][o].append] == Place(p, o))
  }

  /** A cursor lies within the log, and what is in flight is the entry it points at. */
  ghost predicate SubOk(full: seq<seq<Entry>>, s: Subscription) {
    && |s.positions| == |full|
    && (forall p | 0 <= p < |full| :: 0 <= s.positions[p] <= |full[p]|)
    && (forall p | p in s.inflight :: 0 <= p < |full| && s.inflight[p].offset == s.positions[p] < |full[p]|
          && s.inflight[p].append == full[p][s.positions[p]].append)
  }

  ghost predicate SubsOk(full: seq<seq<Entry>>, subs: map<Name, Subscription>) {
    forall n | n in subs :: SubOk(full, subs[n])
  }

  /** What a subscription acknowledged since it was last moved: consecutive offsets up to its cursor. */
  ghost predicate AckedOk(full: seq<seq<Entry>>, s: Subscription, acked: seq<seq<SubscriptionAck>>) {
    && |acked| == |full| == |s.positions|
    && forall p, i | 0 <= p < |full| && 0 <= i < |acked[p]| ::
         && acked[p][i].partition == p && acked[p][i].offset == s.positions[p] - |acked[p]| + i
         && 0 <= acked[p][i].offset < |full[p]| && acked[p][i].append == full[p][acked[p][i].offset].append
  }

  ghost predicate AllAckedOk(full: seq<seq<Entry>>, subs: map<Name, Subscription>, acked: map<Name, seq<seq<SubscriptionAck>>>) {
    acked.Keys == subs.Keys && forall n | n in subs :: AckedOk(full, subs[n], acked[n])
  }

  /** Nothing that was appended ever changes place. */
  ghost predicate Extends(full: seq<seq<Entry>>, longer: seq<seq<Entry>>) {
    |longer| == |full| && forall p | 0 <= p < |full| :: full[p] <= longer[p]
  }

  lemma SubStays(full: seq<seq<Entry>>, longer: seq<seq<Entry>>, s: Subscription, acked: seq<seq<SubscriptionAck>>)
    requires SubOk(full, s) && AckedOk(full, s, acked) && Extends(full, longer)
    ensures SubOk(longer, s) && AckedOk(longer, s, acked)
  {
    forall p | p in s.inflight ensures s.inflight[p].append == longer[p][s.positions[p]].append {
      assert full[p] <= longer[p];
    }
    forall p, i | 0 <= p < |full| && 0 <= i < |acked[p]|
      ensures 0 <= acked[p][i].offset < |longer[p]| && acked[p][i].append == longer[p][acked[p][i].offset].append
    {
      assert full[p] <= longer[p];
    }
    forall p | 0 <= p < |full| ensures s.positions[p] <= |longer[p]| { assert full[p] <= longer[p]; }
  }

  /** All subscriptions that read an offset of a partition read the same append. */
  lemma OffsetsNameOneAppend(full: seq<seq<Entry>>, s: Subscription, a: seq<seq<SubscriptionAck>>, t: Subscription, b: seq<seq<SubscriptionAck>>,
                             p: nat, i: nat, j: nat)
    requires AckedOk(full, s, a) && AckedOk(full, t, b) && p < |full| && i < |a[p]| && j < |b[p]|
    ensures a[p][i].offset == b[p][j].offset ==> a[p][i].append == b[p][j].append
    ensures forall k | i < k < |a[p]| :: a[p][k].offset == a[p][i].offset + (k - i)
  {
  }

  /** An append id stands at one place of the retained history. */
  lemma AppendedOnce(full: seq<seq<Entry>>, base: seq<int>, ids: map<AppendId, Place>, p: int, o: int, q: int, r: int)
    requires IdsOk(full, base, ids) && Retains(full, base, p, o) && Retains(full, base, q, r) && full[p][o].append == full[q][r].append
    ensures p == q && o == r
  {
    assert ids[full[p][o].append] == Place(p, o);
    assert ids[full[q][r].append] == Place(q, r);
  }

  // --- snapshot and restore -------------------------------------------------------------------

  /** A Broadcast channel has one log. */
  function SlotFor(broadcast: bool, part: int): int {
    if broadcast then 0 else part
  }

  ghost predicate SlotsOk(full: seq<seq<Entry>>, broadcast: bool) {
    forall p, o | 0 <= p < |full| && 0 <= o < |full[p]| :: SlotFor(broadcast, full[p][o].part) == p
  }

  ghost function Appends(entries: seq<Entry>): seq<AppendId> {
    seq(|entries|, i requires 0 <= i < |entries| => entries[i].append)
  }

  ghost predicate StoresSegment(s: StoredSegment, history: seq<seq<Entry>>, base: seq<int>, at: Place) {
    && 0 <= at.slot < |history| && at.slot < |base| && 0 <= at.offset - base[at.slot] < |history[at.slot]|
    && var e := history[at.slot][at.offset - base[at.slot]];
       s == StoredSegment(e.part, at.offset, e.records)
  }

  ghost predicate StoresLog(stored: StoredLog, history: seq<seq<Entry>>, base: seq<int>, ids: map<AppendId, Place>, subs: map<Name, Subscription>) {
    && stored.base == base && stored.subscriptions == subs
    && stored.segments.Keys == ids.Keys && (forall a | a in ids :: StoresSegment(stored.segments[a], history, base, ids[a]))
    && |stored.history| == |history| && forall p | 0 <= p < |history| :: stored.history[p] == Appends(history[p])
  }

  /** The listed appends that still have a receipt. */
  ghost function RestoredEntries(segments: map<AppendId, StoredSegment>, listed: seq<AppendId>): seq<Entry> {
    if listed == [] then []
    else
      var a := listed[|listed| - 1];
      RestoredEntries(segments, listed[..|listed| - 1])
      + (if a in segments then [Entry(a, segments[a].part, segments[a].records)] else [])
  }

  ghost function RestoredHistory(stored: StoredLog): seq<seq<Entry>> {
    seq(|stored.history|, p requires 0 <= p < |stored.history| => RestoredEntries(stored.segments, stored.history[p]))
  }

  ghost function RestoredIds(stored: StoredLog, broadcast: bool): map<AppendId, Place> {
    map a | a in stored.segments :: Place(SlotFor(broadcast, stored.segments[a].part), stored.segments[a].offset)
  }

  method HistoryOf(stored: StoredLog) returns (history: seq<seq<Entry>>)
    ensures history == RestoredHistory(stored)
  {
    history := [];
    for p := 0 to |stored.history|
      invariant history == RestoredHistory(stored)[..p]
    {
      var listed, entries := stored.history[p], [];
      for i := 0 to |listed|
        invariant entries == RestoredEntries(stored.segments, listed[..i])
      {
        assert listed[..i + 1][..i] == listed[..i];
        if listed[i] in stored.segments {
          entries := entries + [Entry(listed[i], stored.segments[listed[i]].part, stored.segments[listed[i]].records)];
        }
      }
      assert listed[..|listed|] == listed;
      history := history + [entries];
    }
  }

  method PlacesOf(stored: StoredLog, broadcast: bool) returns (ids: map<AppendId, Place>)
    ensures ids == RestoredIds(stored, broadcast)
  {
    ids := map[];
    var rest := stored.segments.Keys;
    while rest != {}
      invariant rest <= stored.segments.Keys && ids.Keys == stored.segments.Keys - rest
      invariant forall a | a in ids :: ids[a] == RestoredIds(stored, broadcast)[a]
      decreases rest
    {
      var a :| a in rest;
      rest := rest - {a};
      ids := ids[a := Place(SlotFor(broadcast, stored.segments[a].part), stored.segments[a].offset)];
    }
  }

  lemma {:induction false} EntriesComeBack(segments: map<AppendId, StoredSegment>, entries: seq<Entry>)
    requires forall e | e in entries :: e.append in segments && segments[e.append].part == e.part && segments[e.append].records == e.records
    ensures RestoredEntries(segments, Appends(entries)) == entries
  {
    if entries != [] {
      var n := |entries| - 1;
      assert Appends(entries)[..n] == Appends(entries[..n]);
      EntriesComeBack(segments, entries[..n]);
      assert entries[n] in entries;
    }
  }

  lemma PartitionComesBack(full: seq<seq<Entry>>, history: seq<seq<Entry>>, base: seq<int>, ids: map<AppendId, Place>,
                           segments: map<AppendId, StoredSegment>, p: int)
    requires LogOk(full, history, base) && IdsOk(full, base, ids) && 0 <= p < |full|
    requires segments.Keys == ids.Keys && forall a | a in ids :: StoresSegment(segments[a], history, base, ids[a])
    ensures RestoredEntries(segments, Appends(history[p])) == history[p]
  {
    forall e | e in history[p] ensures e.append in segments && segments[e.append].part == e.part && segments[e.append].records == e.records {
      hide RestoredEntries, Appends;
      var i :| 0 <= i < |history[p]| && history[p][i] == e;
      EntryHasReceipt(full, history, base, ids, p, i);
      assert StoresSegment(segments[e.append], history, base, ids[e.append]);
    }
    EntriesComeBack(segments, history[p]);
  }

  lemma EntryHasReceipt(full: seq<seq<Entry>>, history: seq<seq<Entry>>, base: seq<int>, ids: map<AppendId, Place>, p: int, i: int)
    requires LogOk(full, history, base) && IdsOk(full, base, ids) && 0 <= p < |full| && 0 <= i < |history[p]|
    ensures history[p][i].append in ids && ids[history[p][i].append] == Place(p, base[p] + i)
  {
    assert Retains(full, base, p, base[p] + i) && full[p][base[p] + i] == history[p][i];
  }

  lemma ReceiptComesBack(full: seq<seq<Entry>>, history: seq<seq<Entry>>, base: seq<int>, ids: map<AppendId, Place>,
                         s: StoredSegment, broadcast: bool, a: AppendId)
    requires LogOk(full, history, base) && IdsOk(full, base, ids) && SlotsOk(full, broadcast) && a in ids
    requires StoresSegment(s, history, base, ids[a])
    ensures Place(SlotFor(broadcast, s.part), s.offset) == ids[a]
  {
    hide LogOk, IdsOk;
    PlaceFound(full, history, base, ids, a);
    assert full[ids[a].slot][ids[a].offset].part == s.part;
  }

  /** Restoring what was stored of a right log gives the same receipts and the same history. */
  lemma LogRoundTrip(full: seq<seq<Entry>>, history: seq<seq<Entry>>, base: seq<int>, ids: map<AppendId, Place>, subs: map<Name, Subscription>,
                     stored: StoredLog, broadcast: bool)
    requires LogOk(full, history, base) && IdsOk(full, base, ids) && SlotsOk(full, broadcast) && StoresLog(stored, history, base, ids, subs)
    ensures RestoredHistory(stored) == history && stored.base == base && RestoredIds(stored, broadcast) == ids && stored.subscriptions == subs
  {
    hide IdsOk, SlotsOk, StoresSegment, RestoredEntries, Appends;
    forall p | 0 <= p < |history| ensures RestoredHistory(stored)[p] == history[p] {
      PartitionComesBack(full, history, base, ids, stored.segments, p);
    }
    forall a | a in ids ensures RestoredIds(stored, broadcast)[a] == ids[a] {
      ReceiptComesBack(full, history, base, ids, stored.segments[a], broadcast, a);
    }
    assert RestoredIds(stored, broadcast).Keys == ids.Keys;
  }

  // --- appending ----------------------------------------------------------------------------------

  function Appended(log: seq<seq<Entry>>, p: int, e: Entry): seq<seq<Entry>>
    requires 0 <= p < |log|
  {
    log[p := log[p] + [e]]
  }

  lemma AppendKeeps(full: seq<seq<Entry>>, history: seq<seq<Entry>>, base: seq<int>, ids: map<AppendId, Place>, p: int, e: Entry)
    requires LogOk(full, history, base) && IdsOk(full, base, ids) && 0 <= p < |full| && e.append !in ids
    ensures LogOk(Appended(full, p, e), Appended(history, p, e), base) && Extends(full, Appended(full, p, e))
    ensures base[p] + |history[p]| == |full[p]|
    ensures IdsOk(Appended(full, p, e), base, ids[e.append := Place(p, |full[p]|)])
  {
    var longer := Appended(full, p, e);
    assert longer[p][base[p]..] == full[p][base[p]..] + [e];
    forall q, o | Retains(longer, base, q, o) && !(q == p && o == |full[p]|)
      ensures Retains(full, base, q, o) && longer[q][o] == full[q][o]
    {
    }
    forall a | a in ids ensures Retains(longer, base, ids[a].slot, ids[a].offset) && longer[ids[a].slot][ids[a].offset].append == a {
      assert Retains(full, base, ids[a].slot, ids[a].offset);
    }
  }

  /**
   The answer to an append the store takes: a writer without the right, a replaced
   process and a partition that does not exist are refused; an append that was
   made before answers as then if it is the same, and conflicts if it is not.
   A sealed channel takes nothing new.
   */
  ghost function AppendAnswer(retained: bool, mayProduce: bool, active: bool, sealed: bool, e: Entry, full: seq<seq<Entry>>, ids: map<AppendId, Place>): Answer {
    if !retained then BadRequest
    else if !mayProduce then Forbidden
    else if !active then Conflict
    else if !(0 <= e.part < |full|) then BadRequest
    else if e.append in ids then
      if WasAppended(e, full, ids) then Ok else Conflict
    else if sealed then Conflict
    else Ok
  }

  /** The same records stand where the receipt says. */
  ghost predicate WasAppended(e: Entry, full: seq<seq<Entry>>, ids: map<AppendId, Place>) {
    exists p, o :: 0 <= p < |full| && 0 <= o < |full[p]| && e.append in ids && ids[e.append] == Place(p, o) && full[p][o] == e
  }

  lemma PriorIs(full: seq<seq<Entry>>, history: seq<seq<Entry>>, base: seq<int>, ids: map<AppendId, Place>, e: Entry)
    requires LogOk(full, history, base) && IdsOk(full, base, ids) && e.append in ids
    ensures var at := ids[e.append];
      && 0 <= at.slot < |history| && at.slot < |base| && 0 <= at.offset - base[at.slot] < |history[at.slot]|
      && 0 <= at.slot < |full| && 0 <= at.offset < |full[at.slot]|
      && var prior := history[at.slot][at.offset - base[at.slot]];
         && prior == full[at.slot][at.offset] && prior.append == e.append && (WasAppended(e, full, ids) <==> prior.part == e.part && prior.records == e.records)
  {
    hide IdsOk, LogOk;
    PlaceFound(full, history, base, ids, e.append);
    var at := ids[e.append];
    var prior := full[at.slot][at.offset];
    assert prior == e ==> ids[e.append] == Place(at.slot, at.offset) && full[at.slot][at.offset] == e;
  }

  // --- acknowledging ----------------------------------------------------------------------------------

  /** The acknowledgement is for what is in flight, by the reader that has it. */
  ghost predicate Accepts(s: Subscription, owner: Reader, a: SubscriptionAck) {
    a.partition in s.inflight && s.inflight[a.partition] == Delivery(a.offset, a.append, owner)
  }

  /** The cursor moves past the entry. */
  ghost function AckOne(s: Subscription, owner: Reader, a: SubscriptionAck): Subscription {
    if Accepts(s, owner, a) && 0 <= a.partition < |s.positions|
    then s.(inflight := s.inflight - {a.partition}, positions := s.positions[a.partition := a.offset + 1])
    else s
  }

  ghost function AckSome(s: Subscription, owner: Reader, acks: seq<SubscriptionAck>): Subscription {
    if acks == [] then s else AckOne(AckSome(s, owner, acks[..|acks| - 1]), owner, acks[|acks| - 1])
  }

  lemma AckSomeNext(s: Subscription, owner: Reader, acks: seq<SubscriptionAck>, a: SubscriptionAck)
    ensures AckSome(s, owner, acks + [a]) == AckOne(AckSome(s, owner, acks), owner, a)
  {
    assert (acks + [a])[..|acks|] == acks;
  }

  ghost function Remembered(s: Subscription, owner: Reader, acked: seq<seq<SubscriptionAck>>, a: SubscriptionAck): seq<seq<SubscriptionAck>> {
    if Accepts(s, owner, a) && 0 <= a.partition < |acked| then acked[a.partition := acked[a.partition] + [a]] else acked
  }

  /** What the subscription remembers after a list of acknowledgements. */
  ghost function RememberSome(s: Subscription, owner: Reader, acked: seq<seq<SubscriptionAck>>, acks: seq<SubscriptionAck>): seq<seq<SubscriptionAck>> {
    if acks == [] then acked
    else
      var n := |acks| - 1;
      Remembered(AckSome(s, owner, acks[..n]), owner, RememberSome(s, owner, acked, acks[..n]), acks[n])
  }

  lemma RememberNext(s: Subscription, owner: Reader, acked: seq<seq<SubscriptionAck>>, acks: seq<SubscriptionAck>, a: SubscriptionAck)
    ensures RememberSome(s, owner, acked, acks + [a]) == Remembered(AckSome(s, owner, acks), owner, RememberSome(s, owner, acked, acks), a)
  {
    assert (acks + [a])[..|acks|] == acks;
  }

  /** Moving a cursor by hand starts the memory of its partition over, and of no other. */
  ghost predicate Forgets(told0: seq<seq<SubscriptionAck>>, moves: seq<Position>, told: seq<seq<SubscriptionAck>>) {
    |told| == |told0| && forall p | 0 <= p < |told| ::
      told[p] == if exists t :: t in moves && t.partition == p then [] else told0[p]
  }

  lemma ForgetsNext(told0: seq<seq<SubscriptionAck>>, moves: seq<Position>, told: seq<seq<SubscriptionAck>>, t: Position)
    requires Forgets(told0, moves, told) && 0 <= t.partition < |told|
    ensures Forgets(told0, moves + [t], told[t.partition := []])
  {
    var next := told[t.partition := []];
    assert t in moves + [t];
    forall p | 0 <= p < |next| ensures next[p] == if exists u :: u in moves + [t] && u.partition == p then [] else told0[p] {
      if exists u :: u in moves && u.partition == p {
        var u :| u in moves && u.partition == p;
        assert u in moves + [t];
      }
    }
  }

  lemma AckKeeps(full: seq<seq<Entry>>, s: Subscription, acked: seq<seq<SubscriptionAck>>, owner: Reader, a: SubscriptionAck)
    requires SubOk(full, s) && AckedOk(full, s, acked)
    ensures SubOk(full, AckOne(s, owner, a)) && AckedOk(full, AckOne(s, owner, a), Remembered(s, owner, acked, a))
    ensures Accepts(s, owner, a) ==> 0 <= a.partition < |s.positions|
  {
    if Accepts(s, owner, a) {
      var p := a.partition;
      var t: Subscription := AckOne(s, owner, a);
      var b: seq<seq<SubscriptionAck>> := Remembered(s, owner, acked, a);
      assert s.inflight[p].offset == s.positions[p];
      forall q, i | 0 <= q < |full| && 0 <= i < |b[q]|
        ensures b[q][i].partition == q && b[q][i].offset == t.positions[q] - |b[q]| + i
        ensures 0 <= b[q][i].offset < |full[q]| && b[q][i].append == full[q][b[q][i].offset].append
      {
        if q == p && i == |acked[p]| { assert b[q][i] == a; } else { assert b[q][i] == acked[q][i]; }
      }
    }
  }

  // --- the channel -----------------------------------------------------------------------------------------

  class RetainedChannel {
    const retained: bool
    const broadcast: bool
    var sealed: bool
    var history: seq<seq<Entry>>
    var base: seq<int>
    var ids: map<AppendId, Place>
    var subscriptions: map<Name, Subscription>
    /** Everything ever appended, and what each subscription acknowledged since it was last moved. */
    ghost var full: seq<seq<Entry>>
    ghost var acked: map<Name, seq<seq<SubscriptionAck>>>

    ghost predicate Valid()
      reads this
    {
      && LogOk(full, history, base) && IdsOk(full, base, ids)
      && SubsOk(full, subscriptions) && AllAckedOk(full, subscriptions, acked)
      && |full| > 0 && SlotsOk(full, broadcast)
    }

    constructor (partitions: nat, retained: bool, broadcast: bool)
      requires partitions > 0
      ensures Valid() && |full| == partitions && this.retained == retained && this.broadcast == broadcast
    {
      this.retained, this.broadcast, sealed := retained, broadcast, false;
      history := seq(partitions, i => []);
      base := seq(partitions, i => 0);
      ids, subscriptions, acked := map[], map[], map[];
      full := seq(partitions, i => []);
    }

    /** The log a partition is kept in. */
    function SlotOf(part: int): int {
      SlotFor(broadcast, part)
    }

    /** What a commit stores of the log. */
    method Snapshot() returns (stored: StoredLog)
      requires Valid()
      ensures StoresLog(stored, history, base, ids, subscriptions) && stored.sealed == sealed
    {
      hide SubsOk, AllAckedOk, IdsOk, LogOk, SlotsOk;
      var segments: map<AppendId, StoredSegment> := map[];
      var rest := ids.Keys;
      while rest != {}
        invariant rest <= ids.Keys && segments.Keys == ids.Keys - rest
        invariant forall a | a in segments :: StoresSegment(segments[a], history, base, ids[a])
        decreases rest
      {
        var a :| a in rest;
        rest := rest - {a};
        PlaceFound(full, history, base, ids, a);
        var e := history[ids[a].slot][ids[a].offset - base[ids[a].slot]];
        segments := segments[a := StoredSegment(e.part, ids[a].offset, e.records)];
      }
      var listed: seq<seq<AppendId>> := [];
      for p := 0 to |history|
        invariant |listed| == p && forall q | 0 <= q < p :: listed[q] == Appends(history[q])
      {
        var one: seq<AppendId> := [];
        for i := 0 to |history[p]|
          invariant one == Appends(history[p])[..i]
        {
          one := one + [history[p][i].append];
        }
        listed := listed + [one];
      }
      stored := StoredLog(sealed, segments, listed, base, subscriptions);
    }

    /** A replacement coordinator rebuilds receipts and history from what was stored. */
    constructor Restored(stored: StoredLog, retained: bool, broadcast: bool, ghost before: RetainedChannel)
      requires before.Valid() && before.broadcast == broadcast
      requires StoresLog(stored, before.history, before.base, before.ids, before.subscriptions)
      ensures Valid() && full == before.full && acked == before.acked && this.retained == retained && this.broadcast == broadcast && sealed == stored.sealed
      ensures history == before.history && base == before.base && ids == before.ids && subscriptions == before.subscriptions
    {
      hide SubsOk, AllAckedOk, IdsOk, LogOk, SlotsOk, StoresLog, RestoredIds, RestoredHistory;
      LogRoundTrip(before.full, before.history, before.base, before.ids, before.subscriptions, stored, broadcast);
      var entries := HistoryOf(stored);
      var places := PlacesOf(stored, broadcast);
      this.retained, this.broadcast, sealed := retained, broadcast, stored.sealed;
      history, base, ids, subscriptions := entries, stored.base, places, stored.subscriptions;
      full, acked := before.full, before.acked;
    }

    /**
     Appends a batch, or finds where it went before. The writer's rights and its
     process are checked by the caller's coordinator and passed in.
     */
    method Append(failed: bool, mayProduce: bool, active: bool, durable: bool, e: Entry) returns (r: Answer, offset: int)
      requires Valid()
      modifies this
      ensures Valid() && Extends(old(full), full) && subscriptions == old(subscriptions) && base == old(base) && sealed == old(sealed) && acked == old(acked)
      ensures failed ==> r == CommitFailed && full == old(full) && history == old(history) && ids == old(ids)
      ensures r == Ok || (r == CommitFailed && durable && !failed) ==>
        e.append in ids && ids[e.append] == Place(SlotOf(e.part), offset)
      ensures r == Ok ==> 0 <= SlotOf(e.part) < |full| && 0 <= offset < |full[SlotOf(e.part)]| && full[SlotOf(e.part)][offset] == e
      ensures e.append in old(ids) || (r != Ok && r != CommitFailed) ==> full == old(full) && history == old(history) && ids == old(ids)
      ensures !failed && e.append !in old(ids) && (r == Ok || r == CommitFailed) ==>
        var p := if broadcast then 0 else e.part;
        0 <= p < |old(full)| && full == old(full)[p := old(full)[p] + [e]] && offset == |old(full)[p]|
      ensures e.append in old(ids) && r == Ok ==> ids[e.append] == old(ids)[e.append]
      ensures r == CommitFailed ==> failed || (durable && e.append !in old(ids))
      ensures r != CommitFailed ==> r == AppendAnswer(retained, mayProduce, active, sealed, e, old(full), old(ids))
      ensures !failed && r == CommitFailed ==> AppendAnswer(retained, mayProduce, active, sealed, e, old(full), old(ids)) == Ok
    {
      hide IdsOk, SubsOk, AllAckedOk, Retains, WasAppended;
      offset := 0;
      if failed { return CommitFailed, 0; }
      if !retained { return BadRequest, 0; }
      if !mayProduce { return Forbidden, 0; }
      if !active { return Conflict, 0; }
      if e.part < 0 || e.part >= |history| { return BadRequest, 0; }
      var p := SlotOf(e.part);
      if e.append in ids {
        var at := ids[e.append];
        PriorIs(full, history, base, ids, e);
        var prior := history[at.slot][at.offset - base[at.slot]];
        if prior.part != e.part || prior.records != e.records { return Conflict, 0; }
        return Ok, at.offset;
      }
      if sealed { return Conflict, 0; }
      AppendKeeps(full, history, base, ids, p, e);
      SubsStay(full, Appended(full, p, e), subscriptions, acked);
      offset := base[p] + |history[p]|;
      ids := ids[e.append := Place(p, offset)];
      history := Appended(history, p, e);
      full := Appended(full, p, e);
      var stored: bool := *;
      r := if durable && !stored then CommitFailed else Ok;
    }

    method Seal()
      requires Valid()
      modifies this`sealed
      ensures Valid() && sealed
    {
      sealed := true;
    }

    // --- cursors ------------------------------------------------------------------------------------

    /** Creates a cursor at the start of what is retained; naming it again for the same operation changes nothing. */
    method SetSubscription(failed: bool, name: Name, operation: Option<Name>) returns (r: Answer)
      requires Valid()
      modifies this`subscriptions, this`acked
      ensures Valid()
      ensures r == Conflict <==> !failed && retained && name in old(subscriptions) && old(subscriptions)[name].operation != operation
      ensures name in old(subscriptions) || !retained || failed ==> subscriptions == old(subscriptions) && acked == old(acked)
      ensures forall n | n in old(acked) :: n in acked && acked[n] == old(acked)[n]
      ensures r == Ok ==> name in subscriptions && subscriptions[name].operation == operation
      ensures r == Ok && name !in old(subscriptions) ==>
        subscriptions == old(subscriptions)[name := Subscription(operation, base, map[])]
    {
      if failed { return CommitFailed; }
      if !retained { return BadRequest; }
      if name in subscriptions { return if subscriptions[name].operation != operation then Conflict else Ok; }
      subscriptions := subscriptions[name := Subscription(operation, base, map[])];
      acked := acked[name := seq(|full|, i => [])];
      var stored: bool := *;
      r := if stored then Ok else CommitFailed;
    }

    /**
     Hands a reader at most one entry of each of its partitions, the one its
     cursor points at. When an entry is no longer retained the request stops
     there, and what it handed out before stays in flight.
     */
    method Consume(name: Name, reader: Reader, active: bool, given: seq<int>, max: nat)
      returns (r: Answer, work: seq<Work>, drained: bool, ghost partitions: seq<int>)
      requires Valid() && Listed(given, |full|)
      modifies this`subscriptions
      ensures Valid() && subscriptions.Keys == old(subscriptions).Keys
      ensures forall n | n in subscriptions && n != name :: subscriptions[n] == old(subscriptions)[n]
      ensures r == NotFound <==> name !in old(subscriptions)
      ensures name in old(subscriptions) ==> partitions == ReadBy(old(subscriptions)[name], |full|, given)
      ensures r == Ok || r == Gone || r == CommitFailed ==> name in subscriptions && HandedOn(old(subscriptions)[name], subscriptions[name], reader, partitions)
      ensures r == Ok || r == CommitFailed ==> forall w | w in work :: Serves(full, base, subscriptions[name], reader, w)
      ensures r == Ok || r == CommitFailed ==> |work| <= (if max == 0 then 100 else max)
      ensures r == Ok || r == CommitFailed ==>
        |work| == (if max == 0 then 100 else max) || Offered(full, old(subscriptions)[name], subscriptions[name], reader, partitions, work)
      ensures r == Gone ==> name in subscriptions && LostPosition(subscriptions[name], base, partitions)
      ensures r == Ok ==> (drained <==> sealed && AtEnd(full, subscriptions[name]))
    {
      hide IdsOk, SubsOk, AllAckedOk, SubOk, AckedOk, Serves, AtEnd, Offered;
      work, drained, partitions := [], false, [];
      if name !in subscriptions { return NotFound, [], false, []; }
      ReadByListed(subscriptions[name], |full|, given);
      var parts := seq(|history|, i => i);
      if subscriptions[name].operation.Some? { parts := given; }
      partitions := parts;
      if subscriptions[name].operation.Some? && !active { return Conflict, [], false, parts; }
      ghost var told := SubKnown(full, subscriptions, acked, name);
      var sub, some, gone := HandEach(subscriptions[name], reader, parts, if max == 0 then 100 else max, history, base, full);
      Resubscribe(full, subscriptions, acked, name, sub);
      subscriptions := subscriptions[name := sub];
      if gone { return Gone, [], false, parts; }
      var atEnd := Drained(sub);
      var stored: bool := *;
      return (if some == [] || stored then Ok else CommitFailed), some, sealed && atEnd, parts;
    }

    method Drained(sub: Subscription) returns (drained: bool)
      requires Valid() && SubOk(full, sub)
      ensures drained <==> AtEnd(full, sub)
    {
      hide IdsOk, SubsOk, AllAckedOk;
      if sub.inflight != map[] { return false; }
      for p := 0 to |sub.positions|
        invariant forall q | 0 <= q < p :: sub.positions[q] >= |full[q]|
      {
        if sub.positions[p] < base[p] + |history[p]| { return false; }
      }
      drained := true;
    }

    /** Acknowledgements move the cursor only for what the reader has in flight. */
    method Ack(name: Name, reader: Reader, active: bool, acks: seq<SubscriptionAck>) returns (r: Answer)
      requires Valid()
      modifies this`subscriptions, this`acked
      ensures Valid()
      ensures r == NotFound <==> name !in old(subscriptions)
      ensures r == Conflict <==> name in old(subscriptions) && old(subscriptions)[name].operation.Some? && !active
      ensures r == NotFound || r == Conflict ==> subscriptions == old(subscriptions) && acked == old(acked)
      ensures r == Ok || r == CommitFailed ==>
        && subscriptions == old(subscriptions)[name := AckSome(old(subscriptions)[name], reader, acks)]
        && acked == old(acked)[name := RememberSome(old(subscriptions)[name], reader, old(acked)[name], acks)]
    {
      hide RememberSome, IdsOk, SubsOk, AllAckedOk, SubOk, AckedOk, AckSome, LogOk;
      if name !in subscriptions { return NotFound; }
      if subscriptions[name].operation.Some? && !active { return Conflict; }
      ghost var told := SubKnown(full, subscriptions, acked, name);
      var sub;
      sub, told := AckEach(subscriptions[name], reader, acks, full, told);
      SubChanged(full, subscriptions, acked, name, sub, told);
      subscriptions, acked := subscriptions[name := sub], acked[name := told];
      var stored: bool := *;
      r := if stored then Ok else CommitFailed;
    }

    /** Moves an idle cursor to retained positions: all of them are available, or none is taken. */
    method Replay(name: Name, moves: seq<Position>) returns (r: Answer)
      requires Valid()
      modifies this`subscriptions, this`acked
      ensures Valid()
      ensures r == NotFound <==> name !in old(subscriptions)
      ensures r == Conflict <==> name in old(subscriptions) && old(subscriptions)[name].inflight != map[]
      ensures r == Ok || r == CommitFailed ==>
        && (forall t | t in moves :: Available(full, base, t))
        && subscriptions == old(subscriptions)[name := MovedTo(old(subscriptions)[name], moves)]
        && acked.Keys == old(acked).Keys && (forall n | n in acked && n != name :: acked[n] == old(acked)[n])
        && Forgets(old(acked)[name], moves, acked[name])
      ensures r != Ok && r != CommitFailed ==> subscriptions == old(subscriptions) && acked == old(acked)
      ensures name in old(subscriptions) && old(subscriptions)[name].inflight == map[] && (forall t | t in moves :: Available(full, base, t)) ==>
        r == Ok || r == CommitFailed
    {
      hide IdsOk, SubsOk, AllAckedOk, SubOk, AckedOk, MovedTo, Forgets;
      if name !in subscriptions { return NotFound; }
      if subscriptions[name].inflight != map[] { return Conflict; }
      for i := 0 to |moves|
        invariant forall j | 0 <= j < i :: Available(full, base, moves[j])
      {
        var t := moves[i];
        assert t in moves;
        if t.partition < 0 || t.partition >= |history| { return BadRequest; }
        if t.offset < base[t.partition] || t.offset > base[t.partition] + |history[t.partition]| { return Gone; }
      }
      ghost var told := SubKnown(full, subscriptions, acked, name);
      var sub;
      sub, told := MoveEach(subscriptions[name], moves, full, base, told);
      SubChanged(full, subscriptions, acked, name, sub, told);
      subscriptions, acked := subscriptions[name := sub], acked[name := told];
      var stored: bool := *;
      r := if stored then Ok else CommitFailed;
    }

    /**
     Deletes history before the given positions; offsets and cursors stay. The
     positions are checked against what is retained before the request, so going
     back in a partition within one request ends in a run-time error half way.
     */
    method DeleteBefore(upTo: seq<Position>) returns (r: Answer, done: nat)
      requires Valid()
      modifies this`history, this`base, this`ids
      ensures Valid() && done <= |upTo|
      ensures r == Ok || r == CommitFailed || r == Panicked <==> retained && forall t | t in upTo :: Available(full, old(base), t)
      ensures r == Panicked <==> retained && (forall t | t in upTo :: Available(full, old(base), t)) && !Climbs(upTo)
      ensures r == Panicked ==> done < |upTo| && Climbs(upTo[..done]) && !Climbs(upTo[..done + 1])
      ensures r == Ok || r == CommitFailed ==> done == |upTo|
      ensures r == Ok || r == CommitFailed || r == Panicked ==> forall p | 0 <= p < |full| :: base[p] == NewBase(old(base)[p], p, upTo[..done])
      ensures r != Ok && r != CommitFailed && r != Panicked ==> base == old(base) && history == old(history) && ids == old(ids)
      ensures forall a | a in old(ids) :: a in ids <==> old(ids)[a].offset >= base[old(ids)[a].slot]
    {
      hide SubsOk, AllAckedOk, IdsOk, SlotsOk, NewBase, Climbs;
      DeletesNothing(full, base, ids);
      done := 0;
      if !retained { return BadRequest, 0; }
      for i := 0 to |upTo|
        invariant forall j | 0 <= j < i :: Available(full, base, upTo[j])
      {
        var t := upTo[i];
        assert t in upTo;
        if t.partition < 0 || t.partition >= |history| { return BadRequest, 0; }
        if t.offset < base[t.partition] || t.offset > base[t.partition] + |history[t.partition]| { return BadRequest, 0; }
      }
      history, base, ids, done := DeleteEach(history, base, ids, upTo, full);
      if done < |upTo| {
        ClimbsPrefix(upTo, done + 1);
        return Panicked, done;
      }
      assert upTo[..|upTo|] == upTo;
      var stored: bool := *;
      r := if stored then Ok else CommitFailed;
    }

    /** What a gone or replaced process had in flight is free for another reader; the cursor stays. */
    method ReturnDeliveries(operation: Name, pod: Pod, incarnation: Incarnation, all: bool)
      requires Valid()
      modifies this`subscriptions
      ensures Valid() && subscriptions.Keys == old(subscriptions).Keys
      ensures forall n | n in subscriptions :: subscriptions[n] == GivenUp(old(subscriptions)[n], operation, pod, incarnation, all)
    {
      hide IdsOk, LogOk, SubsOk, AllAckedOk, GivenUp;
      var next: map<Name, Subscription> := map[];
      var rest := subscriptions.Keys;
      while rest != {}
        invariant rest <= subscriptions.Keys && next.Keys == subscriptions.Keys - rest && Valid() && subscriptions == old(subscriptions)
        invariant forall n | n in next :: next[n] == GivenUp(subscriptions[n], operation, pod, incarnation, all)
        decreases rest
      {
        var n :| n in rest;
        rest := rest - {n};
        var s := subscriptions[n];
        NothingGivenUp(s, operation, pod, incarnation, all);
        if s.operation == Some(operation) { s := GiveUp(s, operation, pod, incarnation, all); }
        next := next[n := s];
      }
      ReturnKeeps(full, subscriptions, next, acked, operation, pod, incarnation, all);
      subscriptions := next;
    }
  }

  lemma SubsStay(full: seq<seq<Entry>>, longer: seq<seq<Entry>>, subs: map<Name, Subscription>, acked: map<Name, seq<seq<SubscriptionAck>>>)
    requires SubsOk(full, subs) && AllAckedOk(full, subs, acked) && Extends(full, longer)
    ensures SubsOk(longer, subs) && AllAckedOk(longer, subs, acked)
  {
    hide SubOk, AckedOk, Extends;
    forall n | n in subs ensures SubOk(longer, subs[n]) && AckedOk(longer, subs[n], acked[n]) {
      SubStays(full, longer, subs[n], acked[n]);
    }
  }

  lemma PlaceFound(full: seq<seq<Entry>>, history: seq<seq<Entry>>, base: seq<int>, ids: map<AppendId, Place>, a: AppendId)
    requires LogOk(full, history, base) && IdsOk(full, base, ids) && a in ids
    ensures var at := ids[a];
      && 0 <= at.slot < |full| && at.slot < |history| && at.slot < |base| && 0 <= base[at.slot] <= at.offset < |full[at.slot]|
      && at.offset - base[at.slot] < |history[at.slot]|
      && history[at.slot][at.offset - base[at.slot]] == full[at.slot][at.offset] && full[at.slot][at.offset].append == a
  {
    assert Retains(full, base, ids[a].slot, ids[a].offset);
  }

  /** Some of the partitions asked for are newly in flight with the reader; cursors did not move. */
  ghost predicate HandedOn(s: Subscription, t: Subscription, reader: Reader, partitions: seq<int>) {
    && t.operation == s.operation && t.positions == s.positions && s.inflight.Keys <= t.inflight.Keys
    && (forall p | p in s.inflight :: t.inflight[p] == s.inflight[p])
    && (forall p | p in t.inflight && p !in s.inflight :: p in partitions && t.inflight[p].owner == reader)
  }

  /** The reader gets the retained entry at the cursor, and has it in flight. */
  ghost predicate Serves(full: seq<seq<Entry>>, base: seq<int>, s: Subscription, reader: Reader, w: Work) {
    && Retains(full, base, w.partition, w.offset) && w.partition < |s.positions| && w.offset == s.positions[w.partition]
    && full[w.partition][w.offset].append == w.append
    && w.partition in s.inflight && s.inflight[w.partition] == Delivery(w.offset, w.append, reader)
  }

  ghost predicate AtEnd(full: seq<seq<Entry>>, s: Subscription) {
    s.inflight == map[] && forall p | 0 <= p < |s.positions| && p < |full| :: s.positions[p] >= |full[p]|
  }

  lemma SubKnown(full: seq<seq<Entry>>, subs: map<Name, Subscription>, acked: map<Name, seq<seq<SubscriptionAck>>>, n: Name)
    returns (told: seq<seq<SubscriptionAck>>)
    requires SubsOk(full, subs) && AllAckedOk(full, subs, acked) && n in subs
    ensures n in acked && told == acked[n] && SubOk(full, subs[n]) && AckedOk(full, subs[n], told)
  {
    told := acked[n];
  }

  lemma SubChanged(full: seq<seq<Entry>>, subs: map<Name, Subscription>, acked: map<Name, seq<seq<SubscriptionAck>>>, n: Name,
                   s: Subscription, told: seq<seq<SubscriptionAck>>)
    requires SubsOk(full, subs) && AllAckedOk(full, subs, acked) && n in subs && SubOk(full, s) && AckedOk(full, s, told)
    ensures SubsOk(full, subs[n := s]) && AllAckedOk(full, subs[n := s], acked[n := told])
  {
    hide SubOk, AckedOk;
  }

  /** Only what is in flight changed. */
  lemma Resubscribe(full: seq<seq<Entry>>, subs: map<Name, Subscription>, acked: map<Name, seq<seq<SubscriptionAck>>>, n: Name, s: Subscription)
    requires SubsOk(full, subs) && AllAckedOk(full, subs, acked) && n in subs && SubOk(full, s) && s.positions == subs[n].positions
    ensures SubsOk(full, subs[n := s]) && AllAckedOk(full, subs[n := s], acked)
  {
    hide SubOk;
    assert AckedOk(full, s, acked[n]);
    assert acked[n := acked[n]] == acked;
    SubChanged(full, subs, acked, n, s, acked[n]);
  }

  /** An external reader reads every partition, a pod of an operation those assigned to it. */
  ghost function ReadBy(s: Subscription, n: nat, given: seq<int>): seq<int> {
    if s.operation.Some? then given else seq(n, i => i)
  }

  lemma ReadByListed(s: Subscription, n: nat, given: seq<int>)
    requires Listed(given, n)
    ensures Listed(ReadBy(s, n, given), n)
  {
  }

  /** One of the cursors points at what is no longer retained. */
  ghost predicate LostPosition(s: Subscription, base: seq<int>, partitions: seq<int>) {
    exists p :: p in partitions && 0 <= p < |s.positions| && p < |base| && s.positions[p] < base[p]
  }

  /** Some of `n` partitions, each at most once. */
  ghost predicate Listed(partitions: seq<int>, n: nat) {
    && (forall i | 0 <= i < |partitions| :: 0 <= partitions[i] < n)
    && (forall i, j | 0 <= i < j < |partitions| :: partitions[i] != partitions[j])
  }

  /** No partition was passed over: its cursor is at the end, or its entry is in flight and known to the reader that may have it. */
  ghost predicate Offered(full: seq<seq<Entry>>, s: Subscription, t: Subscription, reader: Reader, partitions: seq<int>, work: seq<Work>) {
    forall p | p in partitions && 0 <= p < |full| && p < |t.positions| ::
      || t.positions[p] >= |full[p]|
      || (p in t.inflight && (t.inflight[p].owner == reader && (s.operation.None? || p !in s.inflight) ==> exists w :: w in work && w.partition == p))
  }

  lemma OfferedNext(full: seq<seq<Entry>>, s: Subscription, t: Subscription, u: Subscription, reader: Reader, partitions: seq<int>,
                    work: seq<Work>, more: seq<Work>, p: int)
    requires Offered(full, s, t, reader, partitions, work) && u.positions == t.positions && t.inflight.Keys <= u.inflight.Keys
    requires forall q | q in t.inflight :: u.inflight[q] == t.inflight[q]
    requires forall w | w in work :: w in more
    requires Offered(full, s, u, reader, [p], more)
    ensures Offered(full, s, u, reader, partitions + [p], more)
  {
    forall q | q in partitions + [p] && 0 <= q < |full| && q < |u.positions|
      ensures || u.positions[q] >= |full[q]|
              || (q in u.inflight && (u.inflight[q].owner == reader && (s.operation.None? || q !in s.inflight) ==> exists w :: w in more && w.partition == q))
    {
      if q == p { assert q in [p]; } else { assert q in partitions; }
    }
  }

  /** One partition after the other; stops where the entry at the cursor is no longer retained. */
  method HandEach(s: Subscription, reader: Reader, partitions: seq<int>, limit: nat, history: seq<seq<Entry>>, base: seq<int>, ghost full: seq<seq<Entry>>)
    returns (t: Subscription, work: seq<Work>, gone: bool)
    requires SubOk(full, s) && LogOk(full, history, base) && Listed(partitions, |full|)
    ensures SubOk(full, t) && HandedOn(s, t, reader, partitions)
    ensures |work| <= limit && forall w | w in work :: Serves(full, base, t, reader, w)
    ensures gone ==> exists p :: p in partitions && 0 <= p < |full| && s.positions[p] < base[p]
    ensures !gone ==> |work| == limit || Offered(full, s, t, reader, partitions, work)
  {
    hide Offered;
    t, work, gone := s, [], false;
    NothingOffered(full, s, reader);
    assert partitions[..0] == [];
    for i := 0 to |partitions|
      invariant SubOk(full, t) && HandedOn(s, t, reader, partitions[..i])
      invariant |work| <= limit && forall w | w in work :: Serves(full, base, t, reader, w)
      invariant Offered(full, s, t, reader, partitions[..i], work)
    {
      HandedOnMore(s, t, reader, partitions, i);
      if |work| >= limit { return; }
      var p := partitions[i];
      assert p in partitions;
      assert partitions[..i + 1] == partitions[..i] + [p];
      var position := t.positions[p];
      if position < base[p] { return t, work, true; }
      var u, more := HandOne(s, t, reader, p, work, history, base, full);
      OfferedNext(full, s, t, u, reader, partitions[..i], work, more, p);
      t, work := u, more;
    }
    assert partitions[..|partitions|] == partitions;
  }

  lemma HandedOnMore(s: Subscription, t: Subscription, reader: Reader, partitions: seq<int>, i: nat)
    requires i < |partitions| && HandedOn(s, t, reader, partitions[..i]) && forall j | 0 <= j < i :: partitions[j] != partitions[i]
    ensures HandedOn(s, t, reader, partitions) && (partitions[i] in t.inflight ==> partitions[i] in s.inflight)
  {
    assert partitions == partitions[..i] + partitions[i..];
    NotBefore(partitions, i);
    var before := partitions[..i];
    forall p | p in t.inflight && p !in s.inflight ensures p in partitions && t.inflight[p].owner == reader && p in before {}
    var p := partitions[i];
    assert p in t.inflight && p !in s.inflight ==> p in before;
  }

  lemma NotBefore(partitions: seq<int>, i: nat)
    requires i < |partitions| && forall j | 0 <= j < i :: partitions[j] != partitions[i]
    ensures partitions[i] !in partitions[..i]
  {
    forall j | 0 <= j < |partitions[..i]| ensures partitions[..i][j] != partitions[i] {}
  }

  lemma NothingOffered(full: seq<seq<Entry>>, s: Subscription, reader: Reader)
    ensures Offered(full, s, s, reader, [], [])
  {
  }

  /** The entry at the cursor goes to the reader, unless another one has it. */
  method HandOne(ghost s: Subscription, t: Subscription, reader: Reader, p: int, work: seq<Work>, history: seq<seq<Entry>>, base: seq<int>, ghost full: seq<seq<Entry>>)
    returns (u: Subscription, more: seq<Work>)
    requires SubOk(full, t) && LogOk(full, history, base) && 0 <= p < |full| && t.positions[p] >= base[p]
    requires t.operation == s.operation && s.inflight.Keys <= t.inflight.Keys && (p in t.inflight ==> p in s.inflight)
    requires forall w | w in work :: Serves(full, base, t, reader, w)
    ensures SubOk(full, u) && HandedOn(t, u, reader, [p]) && |work| <= |more| <= |work| + 1
    ensures forall w | w in work :: w in more
    ensures forall w | w in more :: Serves(full, base, u, reader, w)
    ensures Offered(full, s, u, reader, [p], more)
  {
    var position := t.positions[p];
    var index := position - base[p];
    u, more := t, work;
    if p in t.inflight {
      if t.operation.None? && t.inflight[p].owner == reader {
        more := work + [Work(p, position, history[p][index].append)];
        assert more[|work|] in more;
      }
    } else if index < |history[p]| {
      var entry := history[p][index];
      u := t.(inflight := t.inflight[p := Delivery(position, entry.append, reader)]);
      more := work + [Work(p, position, entry.append)];
      assert more[|work|] in more;
    }
  }

  /** An acknowledgement of what the reader has in flight moves the cursor past it; any other is ignored. */
  method TakeAck(s: Subscription, reader: Reader, a: SubscriptionAck) returns (t: Subscription)
    requires Accepts(s, reader, a) ==> 0 <= a.partition < |s.positions|
    ensures t == AckOne(s, reader, a)
  {
    if a.partition !in s.inflight { return s; }
    var d := s.inflight[a.partition];
    if d.owner != reader || d.offset != a.offset || d.append != a.append { return s; }
    t := s.(inflight := s.inflight - {a.partition}, positions := s.positions[a.partition := a.offset + 1]);
  }

  /** One acknowledgement after the other. */
  method AckEach(s: Subscription, reader: Reader, acks: seq<SubscriptionAck>, ghost full: seq<seq<Entry>>, ghost told0: seq<seq<SubscriptionAck>>)
    returns (t: Subscription, ghost told: seq<seq<SubscriptionAck>>)
    requires SubOk(full, s) && AckedOk(full, s, told0)
    ensures t == AckSome(s, reader, acks) && SubOk(full, t) && AckedOk(full, t, told) && told == RememberSome(s, reader, told0, acks)
  {
    hide RememberSome, SubOk, AckedOk, AckSome, AckOne, Remembered;
    t, told := s, told0;
    AckNothing(s, reader, told);
    assert acks[..0] == [];
    for i := 0 to |acks|
      invariant t == AckSome(s, reader, acks[..i]) && SubOk(full, t) && AckedOk(full, t, told)
      invariant told == RememberSome(s, reader, told0, acks[..i])
    {
      RememberNext(s, reader, told0, acks[..i], acks[i]);
      AckKeeps(full, t, told, reader, acks[i]);
      AckSomeNext(s, reader, acks[..i], acks[i]);
      assert acks[..i + 1] == acks[..i] + [acks[i]];
      told := Remembered(t, reader, told, acks[i]);
      t := TakeAck(t, reader, acks[i]);
    }
    assert acks[..|acks|] == acks;
  }

  /** One move after the other; each partition's memory of acknowledgements starts over. */
  method MoveEach(s: Subscription, moves: seq<Position>, ghost full: seq<seq<Entry>>, ghost base: seq<int>, ghost told0: seq<seq<SubscriptionAck>>)
    returns (t: Subscription, ghost told: seq<seq<SubscriptionAck>>)
    requires SubOk(full, s) && AckedOk(full, s, told0) && s.inflight == map[]
    requires forall j | 0 <= j < |moves| :: Available(full, base, moves[j]) && base[moves[j].partition] >= 0
    ensures t == MovedTo(s, moves) && SubOk(full, t) && AckedOk(full, t, told) && Forgets(told0, moves, told)
  {
    t, told := s, told0;
    assert moves[..0] == [];
    for i := 0 to |moves|
      invariant t == MovedTo(s, moves[..i]) && SubOk(full, t) && AckedOk(full, t, told) && t.inflight == map[]
      invariant Forgets(told0, moves[..i], told)
    {
      ForgetsNext(told0, moves[..i], told, moves[i]);
      assert Available(full, base, moves[i]);
      MovedNext(s, moves[..i], moves[i]);
      assert moves[..i + 1] == moves[..i] + [moves[i]];
      t := t.(positions := t.positions[moves[i].partition := moves[i].offset]);
      told := told[moves[i].partition := []];
    }
    assert moves[..|moves|] == moves;
  }

  lemma AckNothing(s: Subscription, reader: Reader, acked: seq<seq<SubscriptionAck>>)
    ensures AckSome(s, reader, []) == s && RememberSome(s, reader, acked, []) == acked
  {
  }

  /** A position within what is retained, or right at its end. */
  ghost predicate Available(full: seq<seq<Entry>>, base: seq<int>, t: Position) {
    0 <= t.partition < |full| && t.partition < |base| && base[t.partition] <= t.offset <= |full[t.partition]|
  }

  ghost function MovedTo(s: Subscription, moves: seq<Position>): Subscription {
    if moves == [] then s
    else
      var t, r := moves[|moves| - 1], MovedTo(s, moves[..|moves| - 1]);
      if 0 <= t.partition < |r.positions| then r.(positions := r.positions[t.partition := t.offset]) else r
  }

  lemma MovedNext(s: Subscription, moves: seq<Position>, t: Position)
    requires 0 <= t.partition < |MovedTo(s, moves).positions|
    ensures MovedTo(s, moves + [t]) == MovedTo(s, moves).(positions := MovedTo(s, moves).positions[t.partition := t.offset])
  {
    assert (moves + [t])[..|moves|] == moves;
  }

  // --- retention ---------------------------------------------------------------------------------------------

  ghost function NewBase(before: int, p: int, upTo: seq<Position>): int {
    if upTo == [] then before
    else if upTo[|upTo| - 1].partition == p then upTo[|upTo| - 1].offset
    else NewBase(before, p, upTo[..|upTo| - 1])
  }

  function WithoutBefore(ids: map<AppendId, Place>, p: int, offset: int): map<AppendId, Place> {
    map a | a in ids && !(ids[a].slot == p && ids[a].offset < offset) :: ids[a]
  }

  lemma DeleteKeeps(full: seq<seq<Entry>>, history: seq<seq<Entry>>, base: seq<int>, ids: map<AppendId, Place>, p: int, offset: int)
    requires LogOk(full, history, base) && IdsOk(full, base, ids) && 0 <= p < |full| && base[p] <= offset <= |full[p]|
    ensures 0 <= offset - base[p] <= |history[p]|
    ensures LogOk(full, history[p := history[p][offset - base[p]..]], base[p := offset])
    ensures IdsOk(full, base[p := offset], WithoutBefore(ids, p, offset))
  {
    assert full[p][offset..] == full[p][base[p]..][offset - base[p]..];
    forall q, o | Retains(full, base[p := offset], q, o) ensures Retains(full, base, q, o) {}
    forall a | a in WithoutBefore(ids, p, offset) ensures Retains(full, base[p := offset], ids[a].slot, ids[a].offset) {
      assert Retains(full, base, ids[a].slot, ids[a].offset);
    }
  }

  /** Receipts disappear exactly with the history they belong to. */
  ghost predicate DeletedFrom(full: seq<seq<Entry>>, base0: seq<int>, base: seq<int>, ids0: map<AppendId, Place>, ids: map<AppendId, Place>) {
    && |base| == |base0| == |full| && (forall p | 0 <= p < |base| :: base0[p] <= base[p])
    && (forall a | a in ids :: a in ids0 && ids[a] == ids0[a])
    && (forall a | a in ids0 :: 0 <= ids0[a].slot < |base| && (a in ids <==> ids0[a].offset >= base[ids0[a].slot]))
  }

  lemma DeletesNothing(full: seq<seq<Entry>>, base: seq<int>, ids: map<AppendId, Place>)
    requires IdsOk(full, base, ids) && |base| == |full|
    ensures DeletedFrom(full, base, base, ids, ids)
  {
    forall a | a in ids ensures Retains(full, base, ids[a].slot, ids[a].offset) {}
  }

  lemma DeletedNext(full: seq<seq<Entry>>, base0: seq<int>, base: seq<int>, ids0: map<AppendId, Place>, ids: map<AppendId, Place>, p: int, offset: int)
    requires DeletedFrom(full, base0, base, ids0, ids) && 0 <= p < |base| && base[p] <= offset
    ensures DeletedFrom(full, base0, base[p := offset], ids0, WithoutBefore(ids, p, offset))
  {
  }

  /** No position goes back behind an earlier one of its partition. */
  ghost predicate Climbs(upTo: seq<Position>) {
    forall i, j | 0 <= i < j < |upTo| && upTo[i].partition == upTo[j].partition :: upTo[i].offset <= upTo[j].offset
  }

  lemma ClimbsPrefix(upTo: seq<Position>, n: nat)
    requires n <= |upTo|
    ensures Climbs(upTo) ==> Climbs(upTo[..n])
  {
  }

  /** The base after some positions is the last one given for the partition, or what it was. */
  lemma {:induction false} NewBaseIs(base0: int, p: int, upTo: seq<Position>)
    ensures || (NewBase(base0, p, upTo) == base0 && forall i | 0 <= i < |upTo| :: upTo[i].partition != p)
            || exists i :: 0 <= i < |upTo| && upTo[i].partition == p && upTo[i].offset == NewBase(base0, p, upTo)
                        && forall j | i < j < |upTo| :: upTo[j].partition != p
  {
    if upTo != [] {
      var n := |upTo| - 1;
      if upTo[n].partition != p {
        NewBaseIs(base0, p, upTo[..n]);
      }
    }
  }

  /** Going on to the next position works exactly if it does not go back. */
  lemma ClimbsOn(base0: int, upTo: seq<Position>, t: Position)
    requires Climbs(upTo) && base0 <= t.offset
    ensures Climbs(upTo + [t]) <==> NewBase(base0, t.partition, upTo) <= t.offset
  {
    NewBaseIs(base0, t.partition, upTo);
    var all := upTo + [t];
    if NewBase(base0, t.partition, upTo) <= t.offset {
      forall i, j | 0 <= i < j < |all| && all[i].partition == all[j].partition ensures all[i].offset <= all[j].offset {
        if j == |upTo| { assert upTo[i].partition == t.partition; }
      }
    } else {
      var i :| 0 <= i < |upTo| && upTo[i].partition == t.partition && upTo[i].offset == NewBase(base0, t.partition, upTo);
      assert all[i].partition == all[|upTo|].partition && all[i].offset > all[|upTo|].offset;
    }
  }

  /** One position after the other; it stops where one goes back. */
  method DeleteEach(history0: seq<seq<Entry>>, base0: seq<int>, ids0: map<AppendId, Place>, upTo: seq<Position>, ghost full: seq<seq<Entry>>)
    returns (history: seq<seq<Entry>>, base: seq<int>, ids: map<AppendId, Place>, done: nat)
    requires LogOk(full, history0, base0) && IdsOk(full, base0, ids0)
    requires forall j | 0 <= j < |upTo| :: Available(full, base0, upTo[j])
    ensures LogOk(full, history, base) && IdsOk(full, base, ids) && DeletedFrom(full, base0, base, ids0, ids)
    ensures done <= |upTo| && Climbs(upTo[..done]) && (done < |upTo| ==> !Climbs(upTo[..done + 1]))
    ensures forall p | 0 <= p < |full| :: base[p] == NewBase(base0[p], p, upTo[..done])
  {
    hide IdsOk, Climbs, NewBase, DeletedFrom;
    history, base, ids, done := history0, base0, ids0, 0;
    DeletesNothing(full, base, ids);
    NothingClimbs(base0);
    while done < |upTo|
      invariant done <= |upTo| && Climbs(upTo[..done])
      invariant LogOk(full, history, base) && IdsOk(full, base, ids) && DeletedFrom(full, base0, base, ids0, ids)
      invariant forall p | 0 <= p < |full| :: base[p] == NewBase(base0[p], p, upTo[..done])
    {
      var t := upTo[done];
      var p := t.partition;
      assert Available(full, base0, t);
      assert upTo[..done + 1] == upTo[..done] + [t];
      ClimbsOn(base0[p], upTo[..done], t);
      if t.offset < base[p] { return; }
      var count := t.offset - base[p];
      DeleteKeeps(full, history, base, ids, p, t.offset);
      DeletedNext(full, base0, base, ids0, ids, p, t.offset);
      NewBaseNext(base0, upTo[..done], t);
      ids := WithoutBefore(ids, p, t.offset);
      history := history[p := history[p][count..]];
      base := base[p := t.offset];
      done := done + 1;
    }
  }

  lemma NothingClimbs(base0: seq<int>)
    ensures Climbs([]) && forall p | 0 <= p < |base0| :: NewBase(base0[p], p, []) == base0[p]
  {
  }

  lemma NewBaseNext(base0: seq<int>, upTo: seq<Position>, t: Position)
    ensures forall p | 0 <= p < |base0| :: NewBase(base0[p], p, upTo + [t]) == if p == t.partition then t.offset else NewBase(base0[p], p, upTo)
  {
    assert (upTo + [t])[..|upTo|] == upTo;
  }

  // --- processes that go away --------------------------------------------------------------------------------------

  ghost predicate Owned(d: Delivery, pod: Pod, incarnation: Incarnation, all: bool) {
    d.owner.pod == pod && (all || d.owner.incarnation == incarnation)
  }

  ghost function GivenUp(s: Subscription, operation: Name, pod: Pod, incarnation: Incarnation, all: bool): Subscription {
    if s.operation != Some(operation) then s
    else s.(inflight := map p | p in s.inflight && !Owned(s.inflight[p], pod, incarnation, all) :: s.inflight[p])
  }

  /** Drops what the process has in flight, looking at one partition after the other. */
  method GiveUp(s: Subscription, operation: Name, pod: Pod, incarnation: Incarnation, all: bool) returns (t: Subscription)
    requires s.operation == Some(operation)
    ensures t == GivenUp(s, operation, pod, incarnation, all)
  {
    var left: map<int, Delivery> := map[];
    var rest := s.inflight.Keys;
    while rest != {}
      invariant rest <= s.inflight.Keys
      invariant left == map p | p in s.inflight && p !in rest && !Owned(s.inflight[p], pod, incarnation, all) :: s.inflight[p]
      decreases rest
    {
      ghost var some := Witness(rest);
      var p :| p in rest;
      rest := rest - {p};
      var owner := s.inflight[p].owner;
      if owner.pod != pod || (!all && owner.incarnation != incarnation) { left := left[p := s.inflight[p]]; }
    }
    t := s.(inflight := left);
  }

  lemma NothingGivenUp(s: Subscription, operation: Name, pod: Pod, incarnation: Incarnation, all: bool)
    ensures s.operation != Some(operation) ==> GivenUp(s, operation, pod, incarnation, all) == s
  {
  }

  lemma ReturnKeeps(full: seq<seq<Entry>>, subs: map<Name, Subscription>, next: map<Name, Subscription>, acked: map<Name, seq<seq<SubscriptionAck>>>,
                   operation: Name, pod: Pod, incarnation: Incarnation, all: bool)
    requires SubsOk(full, subs) && AllAckedOk(full, subs, acked) && next.Keys == subs.Keys
    requires forall n | n in subs :: next[n] == GivenUp(subs[n], operation, pod, incarnation, all)
    ensures SubsOk(full, next) && AllAckedOk(full, next, acked)
  {
    forall n | n in next ensures SubOk(full, next[n]) && AckedOk(full, next[n], acked[n]) {
      assert SubOk(full, subs[n]) && AckedOk(full, subs[n], acked[n]);
    }
  }
}
