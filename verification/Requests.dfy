/** The effect of one worker request on the state as a whole, before the sweep that ends it. */
module Requests {
  import opened Topology
  import opened Channels
  import opened Deliveries
  import opened ChannelOps
  import opened Operations
  import opened States
  import opened Termination
  import opened Expiry
  import opened Settlement
  import opened Consuming
  import opened Registry

  lemma SameShapeReflexive(ch: ChannelMap)
    ensures SameShape(ch, ch) && NoNewWork(ch, ch)
  {
  }

  lemma SameShapeTransitive(ch: ChannelMap, dh: ChannelMap, eh: ChannelMap)
    requires SameShape(ch, dh) && SameShape(dh, eh)
    ensures SameShape(ch, eh)
  {
    hide Evolves;
    forall n | n in ch ensures Evolves(ch[n], eh[n]) { EvolvesTransitive(ch[n], dh[n], eh[n]); }
  }

  lemma NoNewWorkTransitive(ch: ChannelMap, dh: ChannelMap, eh: ChannelMap)
    requires NoNewWork(ch, dh) && NoNewWork(dh, eh)
    ensures NoNewWork(ch, eh) && SameShape(ch, eh)
  {
    hide Evolves;
    forall n | n in ch ensures Evolves(ch[n], eh[n]) { EvolvesTransitive(ch[n], dh[n], eh[n]); }
  }

  lemma QuietIsNoNewWork(ch: ChannelMap, dh: ChannelMap)
    requires Quietly(ch, dh)
    ensures NoNewWork(ch, dh) && SameShape(ch, dh)
  {
    hide Channels.Valid;
    forall n | n in ch ensures Evolves(ch[n], dh[n]) && NoNewSegments(ch[n], dh[n]) { assert QuietChange(ch[n], dh[n]); }
  }

  // --- publishing -------------------------------------------------------------------------

  /** Some entry of the batch is not indexed yet. */
  ghost predicate HasNews(c: Channel, ns: seq<Notice>) {
    exists i :: 0 <= i < |ns| && (ns[i].segment.None? || Announces(ns[i], c))
  }

  /** The first entry that cannot be accepted decides the answer for the whole batch. */
  method CheckAll(c: Channel, ns: seq<Notice>) returns (r: Refusal, news: bool)
    ensures r == Fine <==> AllFine(c, ns)
    ensures r != Fine ==> exists i :: 0 <= i < |ns| && Check(c, ns[i]) == r && forall j | 0 <= j < i :: Check(c, ns[j]) == Fine
    ensures r == Fine ==> (news <==> HasNews(c, ns))
  {
    r, news := Fine, false;
    for i := 0 to |ns|
      invariant r == Fine && forall j | 0 <= j < i :: Check(c, ns[j]) == Fine
      invariant news <==> exists j :: 0 <= j < i && (ns[j].segment.None? || Announces(ns[j], c))
    {
      if ns[i].segment.None? {
        news := true;
        continue;
      }
      var m := ns[i].segment.value;
      if ns[i].channel.Some? && ns[i].channel.value != c.spec.name {
        r := OtherChannel;
      } else if m.append in c.segs {
        if c.segs[m.append].meta != m { r := DifferentMetadata; }
      } else {
        news := true;
        if c.sealed {
          r := ChannelSealed;
        } else if c.finite && m.epoch < c.epoch {
          r := EpochBehind;
        } else if !c.spec.IsBroadcast() && (m.part < 0 || m.part >= |c.queues|) {
          r := PartitionOutOfRange;
        }
      }
      assert Check(c, ns[i]) == r && ns[i] in ns;
      if r != Fine { return; }
    }
  }

  lemma IndexingKeeps(ch: ChannelMap, ops: OperationMap, h: History, n: Name, d: Channel)
    requires StateOk(ch, ops, h) && n in ch && Channels.Valid(d) && Grows(ch[n], d)
    ensures StateOk(ch[n := d], ops, h) && SameShape(ch, ch[n := d])
  {
    hide Channels.Valid, EpochOk, Sticky, ValidOperation, LeasesActive, SlotsKnown, LeasesWithin, AckersWithin, AllHonest;
    var dh := ch[n := d];
    forall m | m in dh ensures LeasesActive(dh[m], ConsumerOf(ops, dh[m].spec)) && SlotsKnown(dh[m], ConsumerOf(ops, dh[m].spec)) {
      assert LeasesActive(ch[m], ConsumerOf(ops, ch[m].spec)) && SlotsKnown(ch[m], ConsumerOf(ops, ch[m].spec));
      if m == n {
        LeasesStay(ch[m], d, ConsumerOf(ops, ch[m].spec));
        SlotsStay(ch[m], d, ConsumerOf(ops, ch[m].spec));
      }
    }
    forall m | m in dh
      ensures Evolves(ch[m], dh[m]) && SameClock(ch[m], dh[m]) && Channels.Valid(dh[m]) && dh[m].spec.name == m && AckersWithin(ch[m], dh[m], {})
    {
      NoNewAckers(ch[m]);
    }
    EpochsKept(ch, dh, h.finished);
    HonestKept(ch, dh, h.confirmed);
  }

  lemma IndexedGrows(c: Channel, d: Channel, ns: seq<Notice>)
    requires Indexes(c, d, ns)
    ensures Channels.Valid(d) && Grows(c, d)
  {
  }

  /** A published batch followed by a quiet sweep is a step of the run. */
  lemma PublishedStep(ch: ChannelMap, dh: ChannelMap, n: Name, d: Channel, op: Option<Name>)
    requires n in ch && MayProduce(ch, n, op) && Grows(ch[n], d) && (ch[n].sealed ==> d.segs == ch[n].segs)
    requires SameShape(ch[n := d], dh) && NoNewWork(ch[n := d], dh)
    ensures OpenStep(ch, dh)
    ensures forall l | op.Some? && HasInbound(ch, op.value) ==> Working(ch, op.value, l) :: PublishStep(ch, dh, n, op, l)
  {
    hide Channels.Valid, Evolves;
    forall m | m in ch ensures Evolves(ch[m], dh[m]) {
      assert Evolves(ch[n := d][m], dh[m]);
      if m == n { EvolvesTransitive(ch[n], d, dh[n]); }
    }
    forall m | m in ch && (m != n || ch[n].sealed) ensures NoNewSegments(ch[m], dh[m]) {
      assert NoNewSegments(ch[n := d][m], dh[m]);
    }
    assert OpenPublish(ch, dh, n, op);
  }

  // --- acknowledging -------------------------------------------------------------------------

  /** A Broadcast segment is acknowledged for the pod's cohort slot. */
  function AckerFor(c: Channel, o: Operation, pod: Pod): Acker {
    if c.spec.IsBroadcast() && pod in o.pods then Slot(o.pods[pod].slot) else Replica(pod)
  }

  /** The acknowledger is the cohort slot of the process in the consumer itself. */
  ghost predicate OwnAcker(consumer: Operation, l: Lease, k: Acker) {
    l.pod in consumer.pods && k == Slot(consumer.pods[l.pod].slot)
  }

  /** A Broadcast acknowledgement names no delivery of the process, or counts for the slot the process has in the consumer. */
  ghost predicate MayAck(c: Channel, consumer: Operation, k: Acker, l: Lease, rs: seq<Receipt>) {
    c.spec.IsBroadcast() ==> OwnAcker(consumer, l, k) || forall a | a in c.segs && Receipted(c, rs, a) :: l !in c.segs[a].delivered
  }

  /** What the process truly acknowledges: the named deliveries it has, for its slot in the consumer. */
  ghost function Confirms(c: Channel, n: Name, consumer: Operation, l: Lease, rs: seq<Receipt>): set<Confirmation> {
    if c.spec.IsBroadcast() && l.pod in consumer.pods then
      set a | a in c.segs && Receipted(c, rs, a) && l in c.segs[a].delivered :: Confirmation(n, a, consumer.pods[l.pod].slot)
    else {}
  }

  /** The consumer's side of the channel is in order. */
  ghost predicate GoodConsumer(c: Channel, n: Name, consumer: Operation, confirmed: set<Confirmation>) {
    SlotsKnown(c, consumer) && LeasesActive(c, consumer) && ValidOperation(consumer) && Honest(c, n, confirmed)
  }

  /**
   The request takes the slot from the operation it names, which need not be the
   consumer. The acknowledgements stay those of the processes in their slots
   exactly when the request may acknowledge.
   */
  lemma HonestExactly(c: Channel, d: Channel, n: Name, consumer: Operation, confirmed: set<Confirmation>, l: Lease, k: Acker, rs: seq<Receipt>)
    requires GoodConsumer(c, n, consumer, confirmed) && d.spec == c.spec && d.segs.Keys == c.segs.Keys && AckedExactly(c, d, l, k, rs)
    ensures Honest(d, n, confirmed + Confirms(c, n, consumer, l, rs)) <==> MayAck(c, consumer, k, l, rs)
  {
    hide Receipted, ValidOperation;
    if MayAck(c, consumer, k, l, rs) {
      StaysHonest(c, d, n, consumer, confirmed, l, k, rs);
    } else {
      var a :| a in c.segs && Receipted(c, rs, a) && l in c.segs[a].delivered;
      var own := consumer.pods[l.pod].slot;
      assert Confirmation(n, a, own) in Confirms(c, n, consumer, l, rs);
      assert Slot(own) !in d.segs[a].acked;
    }
  }

  lemma StaysHonest(c: Channel, d: Channel, n: Name, consumer: Operation, confirmed: set<Confirmation>, l: Lease, k: Acker, rs: seq<Receipt>)
    requires GoodConsumer(c, n, consumer, confirmed) && d.spec == c.spec && d.segs.Keys == c.segs.Keys && AckedExactly(c, d, l, k, rs)
    requires MayAck(c, consumer, k, l, rs)
    ensures Honest(d, n, confirmed + Confirms(c, n, consumer, l, rs))
  {
    hide Receipted, ValidOperation, SlotsKnown;
    var more := Confirms(c, n, consumer, l, rs);
    forall a, j | c.spec.IsBroadcast() && a in d.segs
      ensures j in d.segs[a].acked <==> j.Slot? && Confirmation(n, a, j.slot) in confirmed + more
    {
      assert j in c.segs[a].acked <==> j.Slot? && Confirmation(n, a, j.slot) in confirmed;
      var own := if l.pod in consumer.pods then consumer.pods[l.pod].slot else 0;
      assert forall v | v in more && v.append == a :: v == Confirmation(n, a, own) && Receipted(c, rs, a) && l in c.segs[a].delivered;
      if Receipted(c, rs, a) && l in c.segs[a].delivered {
        assert Active(consumer, l);
        assert Confirmation(n, a, own) in more;
      }
    }
  }

  /** Then the slots stay right too: nobody is counted who still has the delivery. */
  lemma AckedSlots(c: Channel, d: Channel, n: Name, consumer: Operation, confirmed: set<Confirmation>, l: Lease, k: Acker, rs: seq<Receipt>)
    requires GoodConsumer(c, n, consumer, confirmed) && d.spec == c.spec && d.segs.Keys == c.segs.Keys && AckedExactly(c, d, l, k, rs)
    requires MayAck(c, consumer, k, l, rs) && d.cursor == c.cursor && d.log == c.log
    ensures SlotsKnown(d, consumer)
  {
    hide GoodConsumer, MayAck, AckedExactly, ReadersOk, Receipted;
    if c.spec.IsBroadcast() {
      AckedReaders(c, d, n, consumer, confirmed, l, k, rs);
      AckedAwaiting(c, d, n, consumer, confirmed, l, k, rs);
      AckedRange(c, d, n, consumer, confirmed, l, k, rs);
    }
  }

  lemma AckedAwaiting(c: Channel, d: Channel, n: Name, consumer: Operation, confirmed: set<Confirmation>, l: Lease, k: Acker, rs: seq<Receipt>)
    requires GoodConsumer(c, n, consumer, confirmed) && d.spec == c.spec && d.segs.Keys == c.segs.Keys && AckedExactly(c, d, l, k, rs)
    requires MayAck(c, consumer, k, l, rs) && c.spec.IsBroadcast()
    ensures forall a, m | a in d.segs && m in d.segs[a].delivered :: m.pod in consumer.pods && Slot(consumer.pods[m.pod].slot) !in d.segs[a].acked
  {
    hide Receipted, ValidOperation, Honest, ReadersOk;
    if l.pod in consumer.pods { OwnSlotIsOwn(consumer, l.pod); }
    forall a, m | a in d.segs && m in d.segs[a].delivered
      ensures m.pod in consumer.pods && Slot(consumer.pods[m.pod].slot) !in d.segs[a].acked
    {
      assert m in c.segs[a].delivered && Active(consumer, m);
      if Receipted(c, rs, a) && l in c.segs[a].delivered { assert Active(consumer, l) && m != l; }
    }
  }

  lemma AckedRange(c: Channel, d: Channel, n: Name, consumer: Operation, confirmed: set<Confirmation>, l: Lease, k: Acker, rs: seq<Receipt>)
    requires GoodConsumer(c, n, consumer, confirmed) && d.spec == c.spec && d.segs.Keys == c.segs.Keys && AckedExactly(c, d, l, k, rs)
    requires MayAck(c, consumer, k, l, rs) && c.spec.IsBroadcast()
    ensures forall a, j | a in d.segs && j in d.segs[a].acked :: j.Slot? && 0 <= j.slot < consumer.nextSlot
  {
    hide Receipted, ValidOperation, Honest, ReadersOk;
    if l.pod in consumer.pods { OwnSlotIsOwn(consumer, l.pod); }
  }

  lemma AckedReaders(c: Channel, d: Channel, n: Name, consumer: Operation, confirmed: set<Confirmation>, l: Lease, k: Acker, rs: seq<Receipt>)
    requires GoodConsumer(c, n, consumer, confirmed) && d.spec == c.spec && d.segs.Keys == c.segs.Keys && AckedExactly(c, d, l, k, rs)
    requires MayAck(c, consumer, k, l, rs) && d.cursor == c.cursor && d.log == c.log && c.spec.IsBroadcast()
    ensures ReadersOk(d, consumer)
  {
    hide Receipted, ValidOperation, Honest;
    forall p, i | p in d.cursor && d.cursor[p] > 0 && 0 <= i < d.cursor[p]
      ensures p in consumer.pods && d.cursor[p] <= |d.log| && Had(d, d.log[i], consumer, p)
    {
      var a := c.log[i];
      assert Had(c, a, consumer, p);
      if Receipted(c, rs, a) && l in c.segs[a].delivered { assert Active(consumer, l); }
    }
  }

  lemma OwnSlotIsOwn(o: Operation, pod: Pod)
    requires ValidOperation(o) && pod in o.pods
    ensures 0 <= o.pods[pod].slot < o.nextSlot && forall q | q in o.pods && q != pod :: o.pods[q].slot != o.pods[pod].slot
  {
  }

  /** A process of the consumer itself always may. */
  lemma ConsumerMayAck(c: Channel, o: Operation, l: Lease, rs: seq<Receipt>)
    requires Active(o, l)
    ensures MayAck(c, o, AckerFor(c, o, l.pod), l, rs)
  {
  }

  /** So does one that is not active in the consumer: it holds nothing. */
  lemma StrangerMayAck(ch: ChannelMap, ops: OperationMap, h: History, n: Name, k: Acker, l: Lease, rs: seq<Receipt>)
    requires StateOk(ch, ops, h) && n in ch && !Active(ConsumerOf(ops, ch[n].spec), l)
    ensures MayAck(ch[n], ConsumerOf(ops, ch[n].spec), k, l, rs)
  {
    hide StateOk, Receipted;
    NoLeaseElsewhere(ch, ops, h, n, l);
  }

  lemma AckKeeps(ch: ChannelMap, ops: OperationMap, h: History, n: Name, d: Channel, k: Acker, more: set<Confirmation>)
    requires StateOk(ch, ops, h) && n in ch && CalmBut(ch[n], d, {k}) && SlotsKnown(d, ConsumerOf(ops, ch[n].spec))
    requires Honest(d, n, h.confirmed + more) && forall v | v in more :: v.channel == n && v.append in ch[n].segs
    ensures StateOk(ch[n := d], ops, h.(confirmed := h.confirmed + more)) && SameShape(ch, ch[n := d]) && NoNewWork(ch, ch[n := d])
  {
    hide Channels.Valid, EpochOk, Sticky, ValidOperation, LeasesActive, SlotsKnown, LeasesWithin, Honest, Evolves, SameClock, CalmBut, NoNewSegments;
    CalmMeans(ch[n], d, k);
    SameShapeReflexive(ch);
    ClocksStay(ch);
    var dh := ch[n := d];
    forall m | m in dh ensures LeasesActive(dh[m], ConsumerOf(ops, dh[m].spec)) && SlotsKnown(dh[m], ConsumerOf(ops, dh[m].spec)) {
      assert LeasesActive(ch[m], ConsumerOf(ops, ch[m].spec)) && SlotsKnown(ch[m], ConsumerOf(ops, ch[m].spec));
      if m == n {
        LeasesStay(ch[m], d, ConsumerOf(ops, ch[m].spec));
      }
    }
    forall m | m in dh ensures Evolves(ch[m], dh[m]) && SameClock(ch[m], dh[m]) && Channels.Valid(dh[m]) && dh[m].spec.name == m {}
    EpochsKept(ch, dh, h.finished);
    forall m | m in dh && m != n ensures Honest(dh[m], m, h.confirmed + more) {
      assert Honest(ch[m], m, h.confirmed);
      OthersHonest(ch[m], m, h.confirmed, more);
    }
  }

  lemma CalmMeans(c: Channel, d: Channel, k: Acker)
    requires CalmBut(c, d, {k})
    ensures Channels.Valid(d) && Evolves(c, d) && SameClock(c, d) && LeasesWithin(c, d) && NoNewSegments(c, d) && d.spec == c.spec
  {
  }

  lemma ClocksStay(ch: ChannelMap)
    ensures forall m | m in ch :: SameClock(ch[m], ch[m]) && NoNewSegments(ch[m], ch[m])
  {
  }

  lemma OthersHonest(c: Channel, m: Name, confirmed: set<Confirmation>, more: set<Confirmation>)
    requires Honest(c, m, confirmed) && forall v | v in more :: v.channel != m
    ensures Honest(c, m, confirmed + more)
  {
    forall a: AppendId, i: int ensures Confirmation(m, a, i) !in more {
      assert Confirmation(m, a, i).channel == m;
    }
  }

  lemma CalmKind(c: Channel, d: Channel, k: set<Acker>)
    requires CalmBut(c, d, k)
    ensures d.spec == c.spec
  {
  }

  lemma ConsumerIsGood(ch: ChannelMap, ops: OperationMap, h: History, n: Name)
    requires StateOk(ch, ops, h) && n in ch
    ensures GoodConsumer(ch[n], n, ConsumerOf(ops, ch[n].spec), h.confirmed)
  {
    hide Channels.Valid, EpochOk, Sticky, LeasesActive, SlotsKnown, Honest;
    if ch[n].spec.to.Some? { OperationIsValid(ch, ops, h, ch[n].spec.to.value); }
  }

  lemma NoLeaseElsewhere(ch: ChannelMap, ops: OperationMap, h: History, n: Name, l: Lease)
    requires StateOk(ch, ops, h) && n in ch && !Active(ConsumerOf(ops, ch[n].spec), l)
    ensures forall a | a in ch[n].segs :: l !in ch[n].segs[a].delivered
  {
    hide Channels.Valid, EpochOk, Sticky, ValidOperation;
    assert LeasesActive(ch[n], ConsumerOf(ops, ch[n].spec));
  }

  /** The named deliveries of an active process are acknowledged. */
  method AckDeliveries(ch: ChannelMap, ops: OperationMap, ghost h: History, n: Name, op: Name, l: Lease, rs: seq<Receipt>)
    returns (d: Channel, ghost g: History)
    requires StateOk(ch, ops, h) && n in ch && Active(OpOf(ops, op), l)
    requires MayAck(ch[n], ConsumerOf(ops, ch[n].spec), AckerFor(ch[n], OpOf(ops, op), l.pod), l, rs)
    ensures StateOk(ch[n := d], ops, g) && SameShape(ch, ch[n := d]) && NoNewWork(ch, ch[n := d])
    ensures d.segs.Keys == ch[n].segs.Keys && AckedExactly(ch[n], d, l, AckerFor(ch[n], OpOf(ops, op), l.pod), rs)
    ensures AckedBeside(ch[n], d, l, AckerFor(ch[n], OpOf(ops, op), l.pod), rs)
    ensures g == h.(confirmed := h.confirmed + Confirms(ch[n], n, ConsumerOf(ops, ch[n].spec), l, rs))
  {
    hide StateOk, Channels.Valid, Evolves, SameClock, LeasesWithin, AckersWithin, AckedExactly, AckedBeside, SlotsKnown, MayAck, Receipted, Honest, GoodConsumer, Confirms;
    StateIsValid(ch, ops, h);
    ConsumerIsGood(ch, ops, h, n);
    var k := AckerFor(ch[n], OpOf(ops, op), l.pod);
    d := AckAll(ch[n], l, k, rs);
    CalmKind(ch[n], d, {k});
    ghost var more := Confirms(ch[n], n, ConsumerOf(ops, ch[n].spec), l, rs);
    HonestExactly(ch[n], d, n, ConsumerOf(ops, ch[n].spec), h.confirmed, l, k, rs);
    AckedSlots(ch[n], d, n, ConsumerOf(ops, ch[n].spec), h.confirmed, l, k, rs);
    ConfirmsNames(ch[n], n, ConsumerOf(ops, ch[n].spec), l, rs);
    AckKeeps(ch, ops, h, n, d, k, more);
    g := h.(confirmed := h.confirmed + more);
  }

  lemma ConfirmsNames(c: Channel, n: Name, consumer: Operation, l: Lease, rs: seq<Receipt>)
    ensures forall v | v in Confirms(c, n, consumer, l, rs) :: v.channel == n && v.append in c.segs
  {
  }

  /** The named deliveries of a process go back. */
  method NackDeliveries(ch: ChannelMap, ops: OperationMap, ghost h: History, n: Name, l: Lease, rs: seq<Receipt>, now: int)
    returns (d: Channel)
    requires StateOk(ch, ops, h) && n in ch
    ensures StateOk(ch[n := d], ops, h) && Quietly(ch, ch[n := d])
    ensures d.segs.Keys == ch[n].segs.Keys && ReturnedExactly(ch[n], d, l, rs) && QueuesEndWith(ch[n], d)
    ensures RetriesSet(ch[n], d, l, rs, now) && StartsOver(ch[n], d, l, rs)
  {
    hide StateOk, Channels.Valid, Evolves, SameClock, LeasesWithin, AckersWithin, ReturnedExactly, QueuesEndWith, QuietChange, RetriesSet, StartsOver;
    StateIsValid(ch, ops, h);
    d := NackAll(ch[n], l, rs, now);
    CalmIsQuiet(ch[n], d);
    QuietlyOne(ch, n, d);
    QuietlyKeeps(ch, ch[n := d], ops, h);
  }

  // --- consuming --------------------------------------------------------------------------------

  /** A process of a Broadcast consumer reads the log from its cursor on. */
  method DeliverBroadcast(ch: ChannelMap, ops: OperationMap, ghost h: History, n: Name, op: Name, l: Lease, max: nat, now: int)
    returns (d: Channel, ids: seq<AppendId>)
    requires StateOk(ch, ops, h) && n in ch && ch[n].spec.to == Some(op) && ch[n].spec.IsBroadcast() && Active(OpOf(ops, op), l)
    ensures StateOk(ch[n := d], ops, h) && Leases(ch[n], d, l) && |ids| <= max
    ensures LogRead(WithCursor(ch[n], l.pod), d, OpOf(ops, op).pods[l.pod].slot, l, ids) && (|ids| < max ==> LogExhausted(d, l, now))
  {
    hide LogExhausted, StateOk, Channels.Valid, Hands, LogRead, WithCursor;
    StateIsValid(ch, ops, h);
    CursorIsLease(ch[n], l);
    var c := WithCursor(ch[n], l.pod);
    d, ids := DeliverLog(c, l, OpOf(ops, op).pods[l.pod].slot, max, now);
    LeasesTransitive(ch[n], c, d, l);
    ReadIsUnacknowledged(ch[n], d, OpOf(ops, op), l, ids);
    ReadIsHad(ch, ops, h, n, d, op, l, ids);
    LeasingKeeps(ch, ops, h, n, d, l);
  }

  lemma ReadIsHad(ch: ChannelMap, ops: OperationMap, h: History, n: Name, d: Channel, op: Name, l: Lease, ids: seq<AppendId>)
    requires StateOk(ch, ops, h) && n in ch && ch[n].spec.to == Some(op) && ch[n].spec.IsBroadcast() && Active(OpOf(ops, op), l)
    requires LogRead(WithCursor(ch[n], l.pod), d, OpOf(ops, op).pods[l.pod].slot, l, ids)
    ensures ReadersOk(d, OpOf(ops, op))
  {
    hide Channels.Valid, EpochOk, Sticky, ValidOperation, LeasesActive, LogRead, WithCursor, ReadersOk, AllHonest;
    assert SlotsKnown(ch[n], ConsumerOf(ops, ch[n].spec)) && Channels.Valid(ch[n]);
    LogKnown(ch[n]);
    ReadOnIsHad(ch[n], d, OpOf(ops, op), l, ids);
  }

  lemma LogKnown(c: Channel)
    requires Channels.Valid(c)
    ensures forall a | a in c.log :: a in c.segs
  {
  }

  lemma ReadOnIsHad(c: Channel, d: Channel, o: Operation, l: Lease, ids: seq<AppendId>)
    requires ReadersOk(c, o) && Active(o, l) && LogRead(WithCursor(c, l.pod), d, o.pods[l.pod].slot, l, ids) && forall a | a in c.log :: a in c.segs
    ensures ReadersOk(d, o)
  {
    hide LogRead, WithCursor;
    ReadMeans(c, d, o.pods[l.pod].slot, l, ids);
    forall p, i | p in d.cursor && d.cursor[p] > 0 && 0 <= i < d.cursor[p]
      ensures p in o.pods && d.cursor[p] <= |d.log| && Had(d, d.log[i], o, p)
    {
      var a := c.log[i];
      assert a in c.log;
      if p != l.pod || (p in c.cursor && i < c.cursor[p]) { assert p in c.cursor && Had(c, a, o, p); }
    }
  }

  /** What reading on did, entry by entry. */
  lemma ReadMeans(c: Channel, d: Channel, slot: int, l: Lease, ids: seq<AppendId>)
    requires LogRead(WithCursor(c, l.pod), d, slot, l, ids) && forall a | a in c.log :: a in c.segs
    ensures d.log == c.log && l.pod in d.cursor && d.cursor[l.pod] <= |c.log| && d.segs.Keys == c.segs.Keys
    ensures forall p | p != l.pod && p in d.cursor :: p in c.cursor && d.cursor[p] == c.cursor[p]
    ensures forall a | a in c.segs :: d.segs[a].acked == c.segs[a].acked && d.segs[a].released == c.segs[a].released && c.segs[a].delivered <= d.segs[a].delivered
    ensures forall i | 0 <= i < d.cursor[l.pod] && !(l.pod in c.cursor && i < c.cursor[l.pod]) ::
      var a := c.log[i]; a in d.segs && (d.segs[a].released || l in d.segs[a].delivered || Slot(slot) in d.segs[a].acked)
  {
    var from := WithCursor(c, l.pod);
    var piece := from.log[from.cursor[l.pod]..d.cursor[l.pod]];
    UnreadAre(from.segs, slot, piece);
    forall i | 0 <= i < d.cursor[l.pod] && !(l.pod in c.cursor && i < c.cursor[l.pod])
      ensures var a := c.log[i]; a in d.segs && (d.segs[a].released || l in d.segs[a].delivered || Slot(slot) in d.segs[a].acked)
    {
      assert piece[i - from.cursor[l.pod]] == c.log[i] && c.log[i] in piece && c.log[i] in c.log;
    }
  }

  lemma ReadIsUnacknowledged(c: Channel, d: Channel, o: Operation, l: Lease, ids: seq<AppendId>)
    requires l.pod in o.pods && LogRead(WithCursor(c, l.pod), d, o.pods[l.pod].slot, l, ids)
    ensures Unacknowledged(c, d, l, o)
  {
    var from := WithCursor(c, l.pod);
    UnreadAre(from.segs, o.pods[l.pod].slot, from.log[from.cursor[l.pod]..d.cursor[l.pod]]);
  }

  lemma CursorIsLease(c: Channel, l: Lease)
    requires Channels.Valid(c)
    ensures Leases(c, WithCursor(c, l.pod), l) && WithCursor(c, l.pod).spec == c.spec && l.pod in WithCursor(c, l.pod).cursor
  {
    hide Channels.Valid;
    WithCursorKeeps(c, l.pod);
  }

  /** A consumer that is not registered yet joins, if it speaks the protocol without sessions. */
  ghost predicate MayConsume(o: Operation, l: Lease) {
    Active(o, l) || (l.incarnation == NoSession && l.pod !in o.pods)
  }

  lemma ConsumerTouched(ch: ChannelMap, ops: OperationMap, h: History, op: Name, l: Lease, now: int)
    requires StateOk(ch, ops, h) && MayConsume(OpOf(ops, op), l)
    ensures var d := Touched(OpOf(ops, op), l.pod, l.incarnation, now);
      StateOk(ch, ops[op := d], WithLive(h, op, |d.pods|)) && d.retired == OpOf(ops, op).retired
      && l.pod in d.pods && d.pods[l.pod].lastSeen == now && Active(d, l)
  {
    hide StateOk, ValidOperation;
    var o := OpOf(ops, op);
    OperationIsValid(ch, ops, h, op);
    ConsumerNotRetired(o, l);
    TouchedKeeps(o, l.pod, l.incarnation, now);
    TouchedOwners(o, l.pod, l.incarnation, now);
    OperationKeeps(ch, ops, h, op, Touched(o, l.pod, l.incarnation, now));
  }

  lemma ConsumerNotRetired(o: Operation, l: Lease)
    requires ValidOperation(o) && MayConsume(o, l)
    ensures (l.pod, l.incarnation) !in o.retired && !Replaces(o, l.pod, l.incarnation)
  {
    NoSessionStays(o, l.pod);
  }

  lemma HeardStays(ops: OperationMap, dps: OperationMap, now: int, op: Name, l: Lease)
    requires ExpiredExactly(ops, dps, Silent(ops, now, None)) && op in ops && Active(ops[op], l) && ops[op].pods[l.pod].lastSeen == now
    ensures Active(OpOf(dps, op), l)
  {
    assert (op, l.pod) !in Silent(ops, now, None);
  }

  /** The consumer is heard from. */
  ghost function Joining(ops: OperationMap, op: Name, l: Lease, now: int): OperationMap {
    ops[op := Touched(OpOf(ops, op), l.pod, l.incarnation, now)]
  }

  /** A consumer shows up: it is heard from, silent pods expire and finished loops are sealed. */
  method Prepare(ch: ChannelMap, ops: OperationMap, ghost h: History, now: int, n: Name, op: Name, l: Lease)
    returns (dh: ChannelMap, dps: OperationMap, ghost g: History, ghost left: ChannelMap)
    requires StateOk(ch, ops, h) && n in ch && ch[n].spec.to == Some(op) && MayConsume(OpOf(ops, op), l)
    ensures StateOk(dh, dps, g) && Quietly(ch, dh) && Active(OpOf(dps, op), l) && RetiredGrows(ops, dps)
    ensures AllMourned(ch, left, PodsOf(Silent(Joining(ops, op, l, now), now, None)))
    ensures AllOthersKeep(ch, left, Silent(Joining(ops, op, l, now), now, None))
    ensures Quietly(left, dh) && AllSettled(left, dh, dps) && SealsFinished(left, dh) && FinishedSealed(left, dh, {})
    ensures ExpiredExactly(Joining(ops, op, l, now), dps, Silent(Joining(ops, op, l, now), now, None))
    ensures g.confirmed == h.confirmed
  {
    hide StateOk, Quietly, NoSeals, AllMourned, AllOthersKeep, ExpiredExactly, Silent, PodsOf, AllSettled, SealsFinished, FinishedSealed,
      Touched, WithCursor, Channels.Valid, QuietChange, RetiredGrows;
    var o := Touched(OpOf(ops, op), l.pod, l.incarnation, now);
    ConsumerTouched(ch, ops, h, op, l, now);
    dps := ops[op := o];
    g := WithLive(h, op, |o.pods|);
    StateIsValid(ch, ops, h);
    WithCursorKeeps(ch[n], l.pod);
    CursorReaders(ch[n], l.pod);
    CalmIsQuiet(ch[n], WithCursor(ch[n], l.pod));
    QuietlyOne(ch, n, WithCursor(ch[n], l.pod));
    var eh := ch[n := WithCursor(ch[n], l.pod)];
    QuietlyKeeps(ch, eh, dps, g);
    ghost var eps := dps;
    dh, dps, g := ExpireAllExcept(eh, dps, g, now, None);
    CursorMourned(ch, n, l.pod, dh, PodsOf(Silent(eps, now, None)));
    CursorOthers(ch, n, l.pod, dh, Silent(eps, now, None));
    HeardStays(eps, dps, now, op, l);
    ExpiryRetires(eps, dps, Silent(eps, now, None));
    TouchRetires(ops, eps, dps, op);
    QuietlyTransitive(ch, eh, dh);
    eh := dh;
    left := eh;
    dh := Settle(eh, dps, g);
    QuietlyTransitive(ch, eh, dh);
  }

  lemma CursorMourned(ch: ChannelMap, n: Name, pod: Pod, dh: ChannelMap, gone: set<Pod>)
    requires n in ch && AllMourned(ch[n := WithCursor(ch[n], pod)], dh, gone)
    ensures AllMourned(ch, dh, gone)
  {
    hide Mourned;
    var eh := ch[n := WithCursor(ch[n], pod)];
    forall m | m in ch ensures Mourned(ch[m], dh[m], gone) {
      assert Mourned(eh[m], dh[m], gone);
      if m == n { MournedBeside(ch[n], eh[n], dh[n], gone); }
    }
  }

  lemma CursorOthers(ch: ChannelMap, n: Name, pod: Pod, dh: ChannelMap, gone: set<(Name, Pod)>)
    requires n in ch && AllOthersKeep(ch[n := WithCursor(ch[n], pod)], dh, gone)
    ensures AllOthersKeep(ch, dh, gone)
  {
    var eh := ch[n := WithCursor(ch[n], pod)];
    forall m | m in ch ensures OthersKeep(ch[m], dh[m], PodsInto(ch[m].spec.to, gone)) {
      assert OthersKeep(eh[m], dh[m], PodsInto(eh[m].spec.to, gone));
    }
  }

  lemma MournedBeside(c: Channel, e: Channel, d: Channel, gone: set<Pod>)
    requires Mourned(e, d, gone) && e.segs == c.segs && e.all == c.all
    ensures Mourned(c, d, gone)
  {
  }

  lemma CursorReaders(c: Channel, pod: Pod)
    ensures ReadersKept(c, WithCursor(c, pod))
  {
  }

  lemma TouchRetires(ops: OperationMap, eps: OperationMap, dps: OperationMap, op: Name)
    requires op in eps && eps == ops[op := eps[op]] && eps[op].retired == OpOf(ops, op).retired && RetiredGrows(eps, dps)
    ensures RetiredGrows(ops, dps)
  {
    forall o ensures OpOf(ops, o).retired <= OpOf(dps, o).retired { assert OpOf(eps, o).retired == OpOf(ops, o).retired; }
  }

  /**
   What a delivery means for the consumer: the segment is leased to it alone (or
   not acknowledged for its slot yet), belongs to the current epoch, and a hash
   partition is from now on its own.
   */
  ghost predicate GoodSegment(d: Channel, o: Operation, l: Lease, p: int, a: AppendId) {
    && a in d.segs && l in d.segs[a].delivered && !d.segs[a].released
    && (d.spec.IsBroadcast() ==> l.pod in o.pods && Slot(o.pods[l.pod].slot) !in d.segs[a].acked)
    && (!d.spec.IsBroadcast() ==> d.segs[a].meta.part == p && d.segs[a].delivered == {l})
    && (!d.spec.IsBroadcast() && d.finite && d.segs[a].meta.records > 0 ==> d.segs[a].meta.epoch == d.epoch)
    && (d.spec.mode == Hash ==>
          && (d.spec.partitions, p) in o.pinned && (d.spec.partitions, p) in o.owner
          && o.owner[(d.spec.partitions, p)] == l.pod)
  }

  ghost predicate GoodWork(d: Channel, o: Operation, l: Lease, work: seq<Work>) {
    forall w, a | w in work && a in w.segments :: GoodSegment(d, o, l, w.partition, a)
  }

  lemma ShareIsGood(c: Channel, d: Channel, o: Operation, r: Operation, l: Lease, work: seq<Work>)
    requires Channels.Valid(c) && Leases(c, d, l) && !c.spec.IsBroadcast()
    requires forall w | w in work :: Share(c, d, w, l) && AssignedTo(r, c.spec.mode, c.spec.partitions, w.partition, l.pod)
    requires o == r.(pinned := o.pinned)
    requires o.pinned == r.pinned + (if c.spec.mode == Hash then KeysOf(c.spec.partitions, work) else {})
    ensures GoodWork(d, o, l, work)
  {
    hide Channels.Valid, Share;
    forall w, a | w in work && a in w.segments ensures GoodSegment(d, o, l, w.partition, a) {
      ShareSegment(c, d, w, l, a);
      if c.spec.mode == Hash {
        Consuming.OwnedBy(r, c.spec.mode, c.spec.partitions, w.partition, l.pod);
        assert (c.spec.partitions, w.partition) in KeysOf(c.spec.partitions, work);
      }
    }
  }

  lemma ShareSegment(c: Channel, d: Channel, w: Work, l: Lease, a: AppendId)
    requires Channels.Valid(c) && Leases(c, d, l) && !c.spec.IsBroadcast() && Share(c, d, w, l) && a in w.segments
    ensures a in d.segs && d.spec == c.spec && !d.segs[a].released && d.segs[a].meta.part == w.partition && d.segs[a].delivered == {l}
    ensures d.finite && d.segs[a].meta.records > 0 ==> d.segs[a].meta.epoch == d.epoch
  {
    assert a in c.queues[w.partition];
    assert Placed(c, a) && Placed(d, a);
    assert SegmentEvolves(c.segs[a], d.segs[a]);
  }

  lemma LogIsGood(c: Channel, d: Channel, o: Operation, l: Lease, ids: seq<AppendId>)
    requires c.spec.IsBroadcast() && Active(o, l) && LogRead(c, d, o.pods[l.pod].slot, l, ids)
    ensures GoodWork(d, o, l, [Work(0, ids)])
  {
    UnreadAre(c.segs, o.pods[l.pod].slot, c.log[c.cursor[l.pod]..d.cursor[l.pod]]);
  }

  /** The consumer with its hash partitions given out. */
  ghost function Rebalanced(o: Operation, s: Spec): Operation {
    if s.mode == Hash then Balanced(o, s.partitions) else o
  }

  /** What a delivery of `work` leaves of its consumer. */
  ghost function AfterDelivery(o: Operation, c: Channel, work: seq<Work>): Operation {
    if (c.spec.materialized && !InputComplete(c)) || c.spec.mode == Broadcast then o
    else
      var r := Rebalanced(o, c.spec);
      r.(pinned := r.pinned + (if c.spec.mode == Hash then KeysOf(c.spec.partitions, work) else {}))
  }

  /**
   Where the delivered segments came from: the fronts of the queues of the
   process's partitions, or the log from its cursor on. A response that is not
   full leaves nothing that could have been handed out.
   */
  ghost predicate TakenInOrder(c: Channel, d: Channel, o: Operation, l: Lease, max: nat, now: int, work: seq<Work>) {
    if c.spec.IsBroadcast() then
      && l.pod in o.pods
      && exists ids ::
           && LogRead(WithCursor(c, l.pod), d, o.pods[l.pod].slot, l, ids) && work == LogWork(ids)
           && (|ids| < max ==> LogExhausted(d, l, now))
    else
      var s, r := c.spec, Rebalanced(o, c.spec);
      && Rising(work) && (forall w | w in work :: Share(c, d, w, l) && AssignedTo(r, s.mode, s.partitions, w.partition, l.pod))
      && (Count(work) == max || forall p | 0 <= p < s.partitions && AssignedTo(r, s.mode, s.partitions, p, l.pod) :: Exhausted(d, p, l, now))
      && |d.queues| == |c.queues|
      && (forall p | 0 <= p < |c.queues| && (forall w | w in work :: w.partition != p) :: d.queues[p] == c.queues[p])
  }

  /** The reader has in hand or acknowledged, for its slot, all that is live and not held for a later epoch. */
  ghost predicate HasEverything(c: Channel, o: Operation, l: Lease) {
    forall a | a in c.segs && !c.segs[a].released && a !in c.held ::
      l in c.segs[a].delivered || (l.pod in o.pods && Slot(o.pods[l.pod].slot) in c.segs[a].acked)
  }

  /** The next entry of the log is one that the reader gave back for later. */
  ghost predicate ReaderWaits(c: Channel, l: Lease, now: int) {
    exists i :: 0 <= i < |c.log| && l.pod in c.cursor && c.cursor[l.pod] == i && c.log[i] in c.segs && Delayed(c.segs[c.log[i]], l, now)
  }

  /** Whoever has read the log to its end has missed nothing. */
  lemma ReadToTheEnd(ch: ChannelMap, ops: OperationMap, h: History, n: Name, op: Name, l: Lease, now: int)
    requires StateOk(ch, ops, h) && n in ch && ch[n].spec.to == Some(op) && ch[n].spec.IsBroadcast() && Active(OpOf(ops, op), l)
    requires LogExhausted(ch[n], l, now)
    ensures HasEverything(ch[n], OpOf(ops, op), l) || ReaderWaits(ch[n], l, now)
  {
    hide EpochOk, Sticky, ValidOperation, LeasesActive, AllHonest, Counted, Barrier, KeysUnique, Queues;
    var c, o := ch[n], OpOf(ops, op);
    assert SlotsKnown(c, ConsumerOf(ops, c.spec)) && Channels.Valid(c);
    if c.cursor[l.pod] < |c.log| {
      assert ReaderWaits(c, l, now);
    } else {
      forall a | a in c.segs && !c.segs[a].released && a !in c.held
        ensures l in c.segs[a].delivered || (l.pod in o.pods && Slot(o.pods[l.pod].slot) in c.segs[a].acked)
      {
        assert Placed(c, a) && a in c.log;
        var i :| 0 <= i < |c.log| && c.log[i] == a;
        assert Had(c, c.log[i], o, l.pod);
      }
    }
  }

  function LogWork(ids: seq<AppendId>): seq<Work> {
    if ids == [] then [] else [Work(0, ids)]
  }

  /** What the history records of a delivery. */
  ghost function Record(c: Channel, op: Name, l: Lease, work: seq<Work>): seq<Event> {
    if c.spec.mode == Hash then Given(op, c.spec.partitions, l, work) else []
  }

  /** Hands the channel's work to one active process of its consumer. */
  method Deliver(ch: ChannelMap, ops: OperationMap, ghost h: History, n: Name, op: Name, l: Lease, max: nat, now: int)
    returns (dh: ChannelMap, dps: OperationMap, work: seq<Work>, ghost g: History)
    requires StateOk(ch, ops, h) && n in ch && ch[n].spec.to == Some(op) && Active(OpOf(ops, op), l)
    ensures StateOk(dh, dps, g) && NoNewWork(ch, dh) && RetiredGrows(ops, dps)
    ensures ch[n].spec.materialized && !InputComplete(ch[n]) ==> work == [] && dh == ch
    ensures GoodWork(dh[n], OpOf(dps, op), l, work) && Count(work) <= max
    ensures !ch[n].spec.materialized || InputComplete(ch[n]) ==> TakenInOrder(ch[n], dh[n], OpOf(ops, op), l, max, now, work)
    ensures ch[n].spec.mode == Broadcast && (!ch[n].spec.materialized || InputComplete(ch[n])) && Count(work) < max ==>
      HasEverything(dh[n], OpOf(dps, op), l) || ReaderWaits(dh[n], l, now)
    ensures OpOf(dps, op) == AfterDelivery(OpOf(ops, op), ch[n], work) && forall o | o != op :: OpOf(dps, o) == OpOf(ops, o)
    ensures dh[n].sealed == ch[n].sealed && dh[n].epoch == ch[n].epoch
    ensures g.trace == h.trace + Record(ch[n], op, l, work) && g.finished == h.finished && g.confirmed == h.confirmed
  {
    hide StateOk, Channels.Valid, Hands, LogRead, WithCursor, Share, AssignedTo, KeysOf, Balanced, RetiredGrows, GoodWork, Given, Exhausted,
      LogExhausted, Rising, HasEverything, ReaderWaits;
    dh, dps, g, work := ch, ops, h, [];
    SameShapeReflexive(ch);
    RetiredSame(ops, ops);
    StateIsValid(ch, ops, h);
    GoodNothing(ch[n], OpOf(ops, op), l);
    GivenNone(op, ch[n].spec.partitions, l);
    var c := ch[n];
    if c.spec.materialized {
      if c.finite {
        if c.epoch !in c.productionClosed { return; }
      } else if !c.sealed {
        return;
      }
    }
    if ch[n].spec.IsBroadcast() {
      var d, ids := DeliverBroadcast(ch, ops, h, n, op, l, max, now);
      dh := ch[n := d];
      LeasesAre(ch, n, d, l);
      WithCursorKeeps(ch[n], l.pod);
      LogIsGood(WithCursor(ch[n], l.pod), d, OpOf(ops, op), l, ids);
      GoodNothing(d, OpOf(ops, op), l);
      CountOne(ids);
      if |ids| < max { ReadToTheEnd(dh, ops, h, n, op, l, now); }
      work := LogWork(ids);
    } else {
      ghost var r;
      var d;
      d, dps, work, g, r := DeliverPartitions(ch, ops, h, n, op, l, max, now);
      dh := ch[n := d];
      LeasesAre(ch, n, d, l);
      ShareIsGood(ch[n], d, OpOf(dps, op), r, l, work);
      BalancedRetires(OpOf(ops, op), ch[n].spec.partitions);
      RetiredSame(ops, dps);
      QueuesCount(ch[n]);
      QueuesCount(d);
    }
  }

  lemma GoodNothing(c: Channel, o: Operation, l: Lease)
    ensures GoodWork(c, o, l, []) && Count([]) == 0
  {
  }

  lemma CountOne(ids: seq<AppendId>)
    ensures Count(LogWork(ids)) == |ids|
  {
    CountNext([], Work(0, ids));
    assert [] + [Work(0, ids)] == [Work(0, ids)];
  }

  lemma BalancedRetires(o: Operation, n: nat)
    ensures Balanced(o, n).retired == o.retired
  {
  }

  lemma RetiredSame(ops: OperationMap, dps: OperationMap)
    requires forall o :: OpOf(dps, o).retired == OpOf(ops, o).retired
    ensures RetiredGrows(ops, dps)
  {
  }

  lemma LeasesAre(ch: ChannelMap, n: Name, d: Channel, l: Lease)
    requires n in ch && Leases(ch[n], d, l)
    ensures NoNewWork(ch, ch[n := d]) && Channels.Valid(d) && d.spec == ch[n].spec
    ensures d.sealed == ch[n].sealed && d.epoch == ch[n].epoch
  {
  }
}
