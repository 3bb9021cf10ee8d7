/** The pods of an operation: registration, heartbeats and the replacement of processes. */
module Registry {
  import opened Topology
  import opened Channels
  import opened Deliveries
  import opened Operations
  import opened States
  import opened Termination
  import opened Expiry

  /** Replaced processes stay retired, and a pod that ran sessions never runs without one again. */
  ghost predicate Refused(o: Operation, pod: Pod, incarnation: Incarnation) {
    || (incarnation != NoSession && (pod, incarnation) in o.retired)
    || (pod in o.pods && o.pods[pod].incarnation != NoSession && incarnation == NoSession)
  }

  ghost predicate Replaces(o: Operation, pod: Pod, incarnation: Incarnation) {
    pod in o.pods && o.pods[pod].incarnation != incarnation
  }

  /** A known or new pod is alive now, with its progress recorded. */
  function Registered(o: Operation, pod: Pod, incarnation: Incarnation, now: int): Operation {
    var t := Touched(o, pod, incarnation, now);
    t.(epochDone := if pod in t.epochDone then t.epochDone else t.epochDone[pod := -1])
  }

  /** What no request ever takes back. */
  ghost predicate RetiredGrows(ops: OperationMap, dps: OperationMap) {
    forall o :: OpOf(ops, o).retired <= OpOf(dps, o).retired
  }

  lemma RegisteredKeeps(ch: ChannelMap, ops: OperationMap, h: History, op: Name, pod: Pod, incarnation: Incarnation, now: int)
    requires StateOk(ch, ops, h) && !Refused(OpOf(ops, op), pod, incarnation) && !Replaces(OpOf(ops, op), pod, incarnation)
    ensures var d := Registered(OpOf(ops, op), pod, incarnation, now);
      StateOk(ch, ops[op := d], WithLive(h, op, |d.pods|))
  {
    hide StateOk, ValidOperation, Touched;
    var o := OpOf(ops, op);
    OperationIsValid(ch, ops, h, op);
    NotRetired(o, pod, incarnation);
    TouchedKeeps(o, pod, incarnation, now);
    TouchedOwners(o, pod, incarnation, now);
    ProgressSame(Touched(o, pod, incarnation, now), Registered(o, pod, incarnation, now));
    OperationKeeps(ch, ops, h, op, Registered(o, pod, incarnation, now));
  }

  lemma NotRetired(o: Operation, pod: Pod, incarnation: Incarnation)
    requires ValidOperation(o) && !Refused(o, pod, incarnation)
    ensures (pod, incarnation) !in o.retired
  {
    NoSessionStays(o, pod);
  }

  lemma NoSessionStays(o: Operation, pod: Pod)
    requires ValidOperation(o)
    ensures (pod, NoSession) !in o.retired
  {
    var p := (pod, NoSession);
    assert p in o.retired ==> p.1 != NoSession;
  }

  lemma TouchedOwners(o: Operation, pod: Pod, incarnation: Incarnation, now: int)
    requires ValidOperation(o) && !Replaces(o, pod, incarnation)
    ensures var d := Touched(o, pod, incarnation, now);
      OwnersKept(o, d) && o.nextSlot <= d.nextSlot && (d.nextSlot > o.nextSlot ==> d.nextSlot <= |d.pods|)
  {
    var d := Touched(o, pod, incarnation, now);
    if pod !in o.pods { assert d.pods.Keys == o.pods.Keys + {pod}; }
  }

  lemma ProgressSame(o: Operation, d: Operation)
    requires ValidOperation(o) && d == o.(epochDone := d.epochDone)
    ensures ValidOperation(d) && (forall c | OwnersKept(c, o) :: OwnersKept(c, d))
  {
    SlotsSame(o, d);
  }

  /**
   What a registration leaves behind in the operation: the pod is alive, in its
   own slot or in the first free one, with its progress recorded; a new process of
   it starts over. Nothing else about the operation changes.
   */
  ghost predicate RegisteredAs(o: Operation, d: Operation, pod: Pod, incarnation: Incarnation, now: int) {
    var known := pod in o.pods;
    var taken := known && o.pods[pod].incarnation != incarnation;
    var slot := if known then o.pods[pod].slot else if o.freeSlots != [] then o.freeSlots[0] else o.nextSlot;
    && d.pods == o.pods[pod := Member(now, known && !taken && o.pods[pod].done, incarnation, slot)]
    && d.freeSlots == (if !known && o.freeSlots != [] then o.freeSlots[1..] else o.freeSlots)
    && d.nextSlot == (if !known && o.freeSlots == [] then o.nextSlot + 1 else o.nextSlot)
    && d.epochDone == (if taken || pod !in o.epochDone then o.epochDone[pod := -1] else o.epochDone)
    && d.retired == o.retired + (if taken && o.pods[pod].incarnation != NoSession then {(pod, o.pods[pod].incarnation)} else {})
    && d.completed == (o.completed && !taken) && d.replicas == o.replicas
    && (forall k :: k in d.owner <==> k in o.owner && !(taken && o.owner[k] == pod))
    && (forall k | k in d.owner :: d.owner[k] == o.owner[k])
    && (forall k :: k in d.pinned <==> k in o.pinned && !(taken && k in o.owner && o.owner[k] == pod))
  }

  /** A new process takes over a known pod: the old one is retired and what it held goes back. */
  method ReplaceProcess(ch: ChannelMap, ops: OperationMap, ghost h: History, op: Name, pod: Pod, incarnation: Incarnation)
    returns (dh: ChannelMap, dps: OperationMap, ghost g: History)
    requires StateOk(ch, ops, h) && !Refused(OpOf(ops, op), pod, incarnation) && Replaces(OpOf(ops, op), pod, incarnation)
    ensures StateOk(dh, dps, g) && Quietly(ch, dh) && NoSeals(ch, dh) && AllMourned(ch, dh, {}) && NoLeaseOf(dh, op, pod) && AllOthersKeep(ch, dh, {(op, pod)})
    ensures dps == ops[op := Operations.Replaced(OpOf(ops, op), pod, incarnation)]
    ensures g == h.(trace := h.trace + [Gone(op, Lease(pod, OpOf(ops, op).pods[pod].incarnation))])
  {
    hide StateOk, Quietly, NoLeaseOf, NoSeals, Operations.Replaced, ValidOperation, AllMourned, AllOthersKeep;
    var o := OpOf(ops, op);
    var l := Lease(pod, o.pods[pod].incarnation);
    dh := ReturnConsumerDeliveries(ch, ops, h, op, l, false);
    QuietlyKeeps(ch, dh, ops, h);
    OperationIsValid(dh, ops, h, op);
    NotRetired(o, pod, incarnation);
    ReplacedKeeps(o, pod, incarnation);
    ReplacedFacts(o, l, incarnation);
    ProcessEndKeeps(dh, ops, h, op, l, Operations.Replaced(o, pod, incarnation));
    dps := ops[op := Operations.Replaced(o, pod, incarnation)];
    g := h.(trace := h.trace + [Gone(op, l)]);
  }

  lemma ReplacedFacts(o: Operation, l: Lease, incarnation: Incarnation)
    requires l.pod in o.pods
    ensures var d := Operations.Replaced(o, l.pod, incarnation);
      && d.nextSlot == o.nextSlot && |d.pods| <= |o.pods|
      && (forall k | k in o.pinned && k in o.owner && o.owner[k] != l.pod :: k in d.pinned && k in d.owner && d.owner[k] == o.owner[k])
      && (forall m | Active(o, m) && m.pod != l.pod :: Active(d, m) && d.pods[m.pod].slot == o.pods[m.pod].slot)
  {
    assert Operations.Replaced(o, l.pod, incarnation).pods.Keys == o.pods.Keys;
    assert |Operations.Replaced(o, l.pod, incarnation).pods.Keys| == |o.pods.Keys|;
  }

  lemma ReplacedAs(o: Operation, r: Operation, d: Operation, pod: Pod, incarnation: Incarnation, now: int)
    requires r == if Replaces(o, pod, incarnation) then Operations.Replaced(o, pod, incarnation) else o
    requires d == Registered(r, pod, incarnation, now)
    ensures RegisteredAs(o, d, pod, incarnation, now)
  {
    var known := pod in o.pods;
    var taken := known && o.pods[pod].incarnation != incarnation;
    var slot := if known then o.pods[pod].slot else if o.freeSlots != [] then o.freeSlots[0] else o.nextSlot;
    assert d.pods == o.pods[pod := Member(now, known && !taken && o.pods[pod].done, incarnation, slot)];
    assert taken ==> d.epochDone == o.epochDone[pod := -1];
  }

  /** Registers a pod, or refreshes it; a new process of a known pod takes over. Silent pods are gone before. */
  method RegisterPod(ch: ChannelMap, ops: OperationMap, ghost h: History, now: int, op: Name, pod: Pod, incarnation: Incarnation)
    returns (ok: bool, dh: ChannelMap, dps: OperationMap, ghost g: History, ghost eps: OperationMap)
    requires StateOk(ch, ops, h)
    ensures StateOk(dh, dps, g) && Quietly(ch, dh) && NoSeals(ch, dh) && RetiredGrows(ops, dps)
    ensures ok <==> !Refused(OpOf(ops, op), pod, incarnation)
    ensures ExpiredExactly(ops, eps, Silent(ops, now, Some((op, pod)))) && SamePod(OpOf(ops, op), OpOf(eps, op), pod)
    ensures ok ==> RegisteredAs(OpOf(eps, op), OpOf(dps, op), pod, incarnation, now) && forall o | o != op :: OpOf(dps, o) == OpOf(eps, o)
    ensures !ok ==> dps == eps
    ensures ok && Replaces(OpOf(ops, op), pod, incarnation) ==> NoLeaseOf(dh, op, pod)
    ensures AllMourned(ch, dh, PodsOf(Silent(ops, now, Some((op, pod)))))
    ensures AllOthersKeep(ch, dh, Silent(ops, now, Some((op, pod))) + (if ok && Replaces(OpOf(ops, op), pod, incarnation) then {(op, pod)} else {}))
    ensures g.finished == h.finished && g.confirmed == h.confirmed
  {
    hide StateOk, Quietly, NoSeals, ValidOperation, AllMourned, AllOthersKeep, ExpiredExactly, Operations.Replaced,
      Registered, RegisteredAs, NoLeaseOf, RetiredGrows, Silent, SamePod, PodsOf;
    ghost var gone := Silent(ops, now, Some((op, pod)));
    assert gone + {} == gone;
    dh, dps, g := ExpireAllExcept(ch, ops, h, now, Some((op, pod)));
    eps := dps;
    SkippedSame(ops, dps, now, op, pod);
    ExpiryRetires(ops, dps, gone);
    var o := OpOf(dps, op);
    SamePodAnswers(OpOf(ops, op), o, pod, incarnation);
    if incarnation != NoSession && (pod, incarnation) in o.retired { return false, dh, dps, g, eps; }
    if pod in o.pods && o.pods[pod].incarnation != incarnation {
      if o.pods[pod].incarnation != NoSession && incarnation == NoSession { return false, dh, dps, g, eps; }
      ghost var dh0 := dh;
      dh, dps, g := ReplaceProcess(dh, dps, g, op, pod, incarnation);
      QuietlyTransitive(ch, dh0, dh);
      NoSealsTransitive(ch, dh0, dh);
      AllMournedTransitive(ch, dh0, dh, PodsOf(gone), {});
      assert PodsOf(gone) + {} == PodsOf(gone);
      AllOthersTransitive(ch, dh0, dh, gone, {(op, pod)});
      ReplacedIsFresh(o, pod, incarnation);
    }
    ok := true;
    var d := Registered(OpOf(dps, op), pod, incarnation, now);
    RegisteredKeeps(dh, dps, g, op, pod, incarnation, now);
    ReplacedAs(o, OpOf(dps, op), d, pod, incarnation, now);
    g := WithLive(g, op, |d.pods|);
    dps := dps[op := d];
    RetiredGrew(ops, eps, dps, op, d, pod, incarnation, now);
  }

  /** Two states of an operation that agree on one pod. */
  ghost predicate SamePod(o: Operation, d: Operation, pod: Pod) {
    && d.retired == o.retired && (pod in d.pods <==> pod in o.pods)
    && (pod in o.pods ==> pod in d.pods && d.pods[pod] == o.pods[pod])
  }

  lemma SkippedSame(ops: OperationMap, dps: OperationMap, now: int, op: Name, pod: Pod)
    requires ExpiredExactly(ops, dps, Silent(ops, now, Some((op, pod))))
    ensures SamePod(OpOf(ops, op), OpOf(dps, op), pod)
  {
    assert (op, pod) !in Silent(ops, now, Some((op, pod)));
  }

  lemma SamePodAnswers(o: Operation, d: Operation, pod: Pod, incarnation: Incarnation)
    requires SamePod(o, d, pod)
    ensures Refused(o, pod, incarnation) <==> Refused(d, pod, incarnation)
    ensures Replaces(o, pod, incarnation) <==> Replaces(d, pod, incarnation)
  {
  }

  lemma ExpiryRetires(ops: OperationMap, dps: OperationMap, gone: set<(Name, Pod)>)
    requires ExpiredExactly(ops, dps, gone)
    ensures RetiredGrows(ops, dps)
  {
  }

  lemma ReplacedIsFresh(o: Operation, pod: Pod, incarnation: Incarnation)
    requires !Refused(o, pod, incarnation) && Replaces(o, pod, incarnation)
    ensures !Refused(Operations.Replaced(o, pod, incarnation), pod, incarnation)
    ensures !Replaces(Operations.Replaced(o, pod, incarnation), pod, incarnation)
  {
  }

  lemma RetiredGrew(ops: OperationMap, dps: OperationMap, eps: OperationMap, op: Name, d: Operation, pod: Pod, incarnation: Incarnation, now: int)
    requires RetiredGrows(ops, dps) && RegisteredAs(OpOf(dps, op), d, pod, incarnation, now)
    requires OpOf(eps, op) == d && forall o | o != op :: OpOf(eps, o) == OpOf(dps, o)
    ensures RetiredGrows(ops, eps)
  {
  }
}
