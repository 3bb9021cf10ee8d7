/**
 The coordinator: one object under one lock. Channels, operations and segments
 are records held in its maps; every public method is one atomic request.
 */
module Coordination {
  import opened Topology
  import Graph
  import Grouping
  import opened Channels
  import opened Deliveries
  import opened ChannelOps
  import opened Operations
  import opened Persistence
  import opened States
  import opened Termination
  import opened Expiry
  import opened Settlement
  import opened Supersteps
  import opened Consuming
  import opened Registry
  import opened Requests
  import opened Deletion

  datatype Status = Ok | BadRequest | Forbidden | NotFound | Conflict | TooEarly | CommitFailed

  datatype Delivery = Delivery(
    sealed: bool,
    epoch: int,
    finiteEpochs: bool,
    productionClosed: bool,
    work: seq<Work>,
    drained: bool,
    quiescent: bool)

  const NoDelivery := Delivery(false, 0, false, false, [], false, false)

  function Normalised(s: Spec): Spec {
    s.(partitions := if s.partitions == 0 then 1 else s.partitions,
       retained := s.retained || s.to.None?)
  }

  /** A declared channel before anything was announced on it. */
  function NewChannel(s: Spec, finite: bool): Channel {
    Channel(s, finite, false, 0, 0, 0, 0, 0, if s.IsSynchronous() then {0} else {},
            seq(s.partitions, i => []), [], map[], {}, [], map[], {})
  }

  class Coordinator {
    const durable: bool
    var channels: ChannelMap
    var ops: OperationMap
    var now: int
    var failed: bool
    var tombstoneKeys: set<SegmentId>
    var committed: Option<Persisted>
    ghost var hist: History
    ghost var committedHist: History
    /** Segments whose deletion was handed to their holder. */
    ghost var handed: set<(Name, AppendId)>
    /** Segment ids whose bytes a replacement coordinator deleted, and that were not announced again. */
    ghost var erased: set<SegmentId>
    /** Whether every segment indexed so far came with a free id. */
    ghost var apart: bool

    // --- invariant ----------------------------------------------------------------

    ghost predicate Live()
      reads this`channels, this`ops, this`hist
    {
      StateOk(channels, ops, hist)
    }

    /** A replacement coordinator would start from a good state in which everything handed out is released. */
    ghost predicate Durable()
      reads this`committed, this`committedHist, this`handed, this`erased, this`apart
    {
      durable ==> CommittedOk(committed, committedHist, handed, erased, apart)
    }

    ghost predicate Valid()
      reads this
    {
      && Live() && HandedReleased(channels, handed) && OnlyReleased(channels, tombstoneKeys) && OnlyReleased(channels, erased)
      && (apart ==> NoClash(channels, tombstoneKeys) && AllReleased(channels, erased)) && Durable()
    }

    // --- construction ----------------------------------------------------------------

    constructor (specs: map<Name, Spec>, durable: bool)
      requires forall n | n in specs :: specs[n].name == n
      ensures Valid() && this.durable == durable && channels.Keys == specs.Keys && handed == {} && erased == {} && apart
      ensures forall n | n in specs ::
        && channels[n].segs == map[]
        && channels[n].spec == specs[n].(partitions := if specs[n].partitions == 0 then 1 else specs[n].partitions, retained := specs[n].retained || specs[n].to == None)
      ensures forall n | n in specs :: channels[n].finite <==>
        || Graph.InLoopComponent(Specs(channels), specs[n].from)
        || Graph.InLoopComponent(Specs(channels), specs[n].to)
    {
      hide StateOk, Normalised, Graph.InLoopComponent, Specs;
      this.durable := durable;
      channels, ops := map[], map[];
      now, failed, tombstoneKeys, committed := 0, false, {}, None;
      hist := History(map[], map[], [], {});
      committedHist := History(map[], map[], [], {});
      handed, erased, apart := {}, {}, true;
      new;
      var all := set n | n in specs :: Normalised(specs[n]);
      var finite := Graph.FiniteOperations(all);
      channels := map n | n in specs :: NewChannel(Normalised(specs[n]), specs[n].from in finite || specs[n].to in finite);
      NewChannelShape(specs, channels);
      NormalisedAre(specs);
      NewSpecs(specs, channels);
      NewStateOk(specs, channels, hist);
      NothingClashes(channels);
    }

    // --- durability ------------------------------------------------------------------

    /**
     Writes a checkpoint. The store may fail, or store the checkpoint and lose
     the answer; either way the coordinator stops committing.
     */
    method Commit() returns (ok: bool)
      requires Valid()
      modifies this`failed, this`committed, this`committedHist
      ensures Valid()
      ensures ok ==> !failed && (durable ==> committed.Some? && StoresAll(committed.value, channels, ops) && committedHist == hist)
      ensures old(failed) ==> !ok && failed && committed == old(committed) && committedHist == old(committedHist)
      ensures ok && durable ==> committed.value.tombstones == tombstoneKeys + ReleasedIn(channels, channels.Keys)
      ensures committed == old(committed) || (committed.Some? && StoresAll(committed.value, channels, ops) && committedHist == hist)
      ensures !ok ==> failed
    {
      hide StateOk, HandedReleased, OnlyReleased, StoresAll, ReleasedIn, NoClash, AllReleased;
      if failed { return false; }
      if !durable { return true; }
      var p := Snapshot(channels, ops, tombstoneKeys);
      StateIsValid(channels, ops, hist);
      RoundTrip(p, channels, ops);
      ReleasedAreReleased(channels, tombstoneKeys);
      if apart { ClearToCommit(channels, tombstoneKeys); }
      var stored: bool, answered: bool := *, *;
      if stored {
        committed, committedHist := Some(p), hist;
        if answered { return true; }
      }
      failed := true;
      return false;
    }

    /** Remembers whether the ids that came in were free, and forgets that they were ever deleted. */
    ghost method NoteIds(own: bool, ids: set<SegmentId>)
      requires Valid()
      modifies this`apart, this`erased
      ensures Valid() && apart == (old(apart) && own) && erased == old(erased) - ids
    {
      hide StateOk, HandedReleased, OnlyReleased, NoClash, AllReleased, CommittedOk;
      TombstonesShrink(channels, erased, erased - ids);
      if apart { FewerReleased(channels, erased, ids); }
      if durable { CommittedLess(committed, committedHist, handed, erased, ids, apart, own); }
      apart := apart && own;
      erased := erased - ids;
    }

    /** The outcome of a request becomes the state. */
    method Adopt(dh: ChannelMap, dps: OperationMap, ghost g: History)
      requires Valid() && StateOk(dh, dps, g) && SameShape(channels, dh) && StaysApart(channels, dh, tombstoneKeys, erased, apart)
      modifies this`channels, this`ops, this`hist
      ensures Valid() && channels == dh && ops == dps && hist == g
    {
      hide StateOk, SameShape, HandedReleased, OnlyReleased, Durable, NoClash, AllReleased, StaysApart;
      ReleasedStays(channels, dh, handed, tombstoneKeys);
      ReleasedStays(channels, dh, handed, erased);
      ApartKept(channels, dh, tombstoneKeys, erased, apart);
      channels, ops, hist := dh, dps, g;
    }

    /** Stores the outcome of a request, or undoes it from a snapshot taken before. */
    method Transact(dh: ChannelMap, dps: OperationMap, ghost g: History) returns (ok: bool)
      requires Valid() && StateOk(dh, dps, g) && SameShape(channels, dh) && StaysApart(channels, dh, tombstoneKeys, erased, apart)
      modifies this`channels, this`ops, this`hist, this`failed, this`committed, this`committedHist
      ensures Valid()
      ensures ok ==> channels == dh && ops == dps && hist == g
      ensures !ok ==> channels == old(channels) && ops == old(ops) && hist == old(hist)
    {
      hide StateOk, Durable, HandedReleased, OnlyReleased, SameShape, StoresAll, NoClash, AllReleased, StaysApart;
      var before := Snapshot(channels, ops, tombstoneKeys);
      RoundTripHere(before, channels, ops, hist);
      ghost var was := hist;
      Adopt(dh, dps, g);
      ok := Commit();
      if !ok {
        var oldChannels, oldOps := Restore(before);
        channels, ops, hist := oldChannels, oldOps, was;
      }
    }

    /** The sweep and the checkpoint that end a request. */
    method Conclude(mid: ChannelMap, dps: OperationMap, ghost g: History) returns (ok: bool)
      requires Valid() && StateOk(mid, dps, g) && SameShape(channels, mid) && StaysApart(channels, mid, tombstoneKeys, erased, apart)
      modifies this`channels, this`ops, this`hist, this`failed, this`committed, this`committedHist
      ensures Valid() && Swept(mid, channels, dps) && ops == dps && hist == g
      ensures ok ==> !failed && (durable ==> committed.Some? && StoresAll(committed.value, channels, ops))
      ensures !ok ==> failed
    {
      hide StateOk, SameShape, HandedReleased, OnlyReleased, Durable, Quietly, AllSettled, SealsFinished, FinishedSealed, StoresAll, StaysApart, NoClash, AllReleased, NoNewWork;
      var dh := Settle(mid, dps, g);
      QuietIsNoNewWork(mid, dh);
      SameShapeTransitive(channels, mid, dh);
      ApartOn(channels, mid, dh, tombstoneKeys, erased, apart);
      Adopt(dh, dps, g);
      ok := Commit();
    }

    // --- pods ---------------------------------------------------------------------------

    /** The controller publishes how many replicas an operation should have. */
    method SetReplicas(op: Name, replicas: int)
      requires Valid()
      modifies this`ops, this`hist
      ensures Valid()
      ensures ops == old(ops)[op := OpOf(old(ops), op).(replicas := replicas)] && hist.confirmed == old(hist).confirmed
    {
      hide StateOk, Durable, HandedReleased, OnlyReleased, ValidOperation, OwnersKept;
      var d := OpOf(ops, op).(replicas := replicas);
      OperationIsValid(channels, ops, hist, op);
      ProgressKeeps(OpOf(ops, op), d);
      OperationKeeps(channels, ops, hist, op, d);
      ops, hist := ops[op := d], WithLive(hist, op, |d.pods|);
    }

    /** Registration and heartbeat; the only way a process becomes active or is retired. */
    method Register(op: Name, pod: Pod, incarnation: Incarnation) returns (s: Status, ghost eps: OperationMap)
      requires Valid()
      modifies this`channels, this`ops, this`hist, this`failed, this`committed, this`committedHist
      ensures Valid()
      ensures NoNewWork(old(channels), channels) && RetiredGrows(old(ops), ops)
      ensures (s == Ok || s == Conflict || s == CommitFailed) && hist.confirmed == old(hist).confirmed
      ensures s == Conflict <==> Refused(OpOf(old(ops), op), pod, incarnation)
      ensures ExpiredExactly(old(ops), eps, Silent(old(ops), now, Some((op, pod)))) && SamePod(OpOf(old(ops), op), OpOf(eps, op), pod)
      ensures s == Conflict ==> ops == eps
      ensures s != Conflict ==>
        RegisteredAs(OpOf(eps, op), OpOf(ops, op), pod, incarnation, now) && forall o | o != op :: OpOf(ops, o) == OpOf(eps, o)
      ensures s != Conflict && Replaces(OpOf(old(ops), op), pod, incarnation) ==> NoLeaseOf(channels, op, pod)
      ensures AllMourned(old(channels), channels, PodsOf(Silent(old(ops), now, Some((op, pod)))))
      ensures AllOthersKeep(old(channels), channels, Silent(old(ops), now, Some((op, pod)))
        + (if s != Conflict && Replaces(OpOf(old(ops), op), pod, incarnation) then {(op, pod)} else {}))
    {
      hide StateOk, Quietly, Durable, HandedReleased, OnlyReleased, NoNewWork, RetiredGrows, Refused, RegisteredAs, NoLeaseOf, AllMourned, AllOthersKeep, SameShape, NoSeals, PodsOf, Silent, Replaces, ExpiredExactly, SamePod;
      var ok, dh, dps;
      ghost var g;
      ok, dh, dps, g, eps := RegisterPod(channels, ops, hist, now, op, pod, incarnation);
      QuietIsNoNewWork(channels, dh);
      Adopt(dh, dps, g);
      if !ok { return Conflict, eps; }
      var stored := Commit();
      s := if stored then Ok else CommitFailed;
    }

    /** A pod has emitted everything it will emit. */
    method SourceDone(op: Name, pod: Pod, incarnation: Incarnation) returns (s: Status)
      requires Valid()
      modifies this`channels, this`ops, this`hist, this`failed, this`committed, this`committedHist
      ensures Valid() && NoNewWork(old(channels), channels) && RetiredGrows(old(ops), ops) && hist.confirmed == old(hist).confirmed
      ensures !Active(OpOf(old(ops), op), Lease(pod, incarnation)) <==> s == Conflict
      ensures s == Conflict ==> channels == old(channels) && ops == old(ops)
      ensures s == BadRequest <==> s != Conflict && NoInput(old(channels), op) && pod !in OpOf(old(ops), op).epochDone
      ensures s == Ok || s == Conflict || s == BadRequest || s == CommitFailed
      ensures s != Conflict ==> pod in OpOf(ops, op).pods && OpOf(ops, op).pods[pod].done
      ensures s != Conflict ==> forall o | o != op :: OpOf(ops, o) == OpOf(old(ops), o)
      ensures s != Conflict ==>
        OpOf(ops, op) == DoneMarked(OpOf(old(ops), op), pod).(epochDone :=
          if SourceReports(old(channels), old(ops), op, pod) then OpOf(old(ops), op).epochDone[pod := 0] else OpOf(old(ops), op).epochDone)
      ensures if s != Conflict && SourceReports(old(channels), old(ops), op, pod) && EveryPodFinished(OpOf(ops, op), now, 0) then
          && hist.finished == Finished(old(hist).finished, op, 0)
          && forall n | n in old(channels) :: n in channels && FinishedAs(old(channels)[n], channels[n], op, 0)
        else channels == old(channels) && hist.finished == old(hist).finished
    {
      hide StateOk, Durable, HandedReleased, OnlyReleased, NoNewWork, SameShape, FinishedAs, EveryPodFinished, EpochRecorded, IsQuiet,
        Reports, SourceReports, NoInput, HasInbound;
      SameShapeReflexive(channels);
      if !Active(OpOf(ops, op), Lease(pod, incarnation)) { return Conflict; }
      var d := ops[op].(pods := ops[op].pods[pod := ops[op].pods[pod].(done := true)]);
      assert d == DoneMarked(ops[op], pod);
      DoneMarkedKeeps(channels, ops, hist, op, pod);
      ghost var g := WithLive(hist, op, |d.pods|);
      var dps := ops[op := d];
      MarkedOnly(ops, op, pod);
      var inbound := IsFed(channels, op);
      if !inbound {
        var answer, dh, eps;
        answer, dh, eps, g := RecordEpochDone(channels, dps, g, now, op, pod, 0);
        SourceRecorded(channels, ops, dh, eps, now, op, pod, answer);
        NoNewWorkShape(channels, dh);
        Adopt(dh, eps, g);
        if answer == UnknownPod { return BadRequest; }
        if answer == InputOpen { return TooEarly; }
      } else {
        Adopt(channels, dps, g);
      }
      var stored := Commit();
      s := if stored then Ok else CommitFailed;
    }

    // --- producing ------------------------------------------------------------------------

    /**
     A worker publishes a batch: all of it is indexed, or the request is refused
     and changes nothing. Publishing the batch again indexes nothing more.
     */
    method Announce(name: Name, op: Option<Name>, session: Option<Lease>, ns: seq<Notice>) returns (s: Status)
      requires Valid()
      modifies this`channels, this`ops, this`hist, this`failed, this`committed, this`committedHist, this`apart, this`erased
      ensures Valid() && ops == old(ops) && hist == old(hist)
      ensures apart == (old(apart) &&
        (PublishAnswer(old(failed), old(channels), old(ops), name, op, session, ns) == Ok && HasNews(old(channels)[name], ns) ==>
          OwnIds(old(channels), tombstoneKeys, name, ns)))
      ensures s == PublishAnswer(old(failed), old(channels), old(ops), name, op, session, ns) || (s == CommitFailed && failed)
      ensures PublishAnswer(old(failed), old(channels), old(ops), name, op, session, ns) != Ok ==>
        s != Ok && channels == old(channels) && committed == old(committed)
      ensures PublishAnswer(old(failed), old(channels), old(ops), name, op, session, ns) == Ok ==>
        if HasNews(old(channels)[name], ns) then
          var c, d := old(channels)[name], IndexFold(old(channels)[name], ns);
          && IndexedBehind(c, d, News(c, ns), false) && d.overflowed == c.overflowed + Overflowing(c, ns)
          && Swept(old(channels)[name := d], channels, ops)
        else channels == old(channels)
      ensures OpenStep(old(channels), channels) && (Disciplined(old(channels), op) ==> Step(old(channels), channels))
    {
      hide StateOk, Durable, HandedReleased, OnlyReleased, NoNewWork, SameShape, Indexes, IndexFold, IndexedBehind, News, Overflowing, AllFine, HasNews,
        MayProduce, Working, Step, OpenStep, Swept, Channels.Valid, Grows, HasInbound, OwnIds, NoClash, AllReleased, NewIds, StaysApart;
      NoStep(channels);
      if failed { return CommitFailed; }
      if name !in channels { return NotFound; }
      var may := AdmitsProducer(channels, name, op);
      if !may { return Forbidden; }
      if session.Some? && !(op.Some? && Active(OpOf(ops, op.value), session.value)) { return Conflict; }
      var refusal, news := CheckAll(channels[name], ns);
      if refusal != Fine {
        FirstRefusal(channels[name], ns, refusal);
        return if refusal == DifferentMetadata || refusal == ChannelSealed then Conflict else BadRequest;
      }
      NoRefusal(channels[name], ns);
      if !news { return Ok; }
      StateIsValid(channels, ops, hist);
      var d := IndexAll(channels[name], ns);
      IndexedGrows(channels[name], d, ns);
      IndexingKeeps(channels, ops, hist, name, d);
      ghost var before := channels;
      PublishedApart(channels, tombstoneKeys, erased, name, d, ns, apart);
      NoteIds(OwnIds(channels, tombstoneKeys, name, ns), NewIds(channels[name], d));
      var stored := Conclude(channels[name := d], ops, hist);
      SweptPublishes(before, name, d, channels, ops, op);
      s := if stored then Ok else CommitFailed;
    }

    /** The channel is complete. */
    method Seal(name: Name) returns (s: Status)
      requires Valid()
      modifies this`channels, this`ops, this`hist, this`failed, this`committed, this`committedHist
      ensures Valid() && ops == old(ops) && hist == old(hist) && NoNewWork(old(channels), channels)
      ensures s == NotFound <==> name !in old(channels)
      ensures s == NotFound ==> channels == old(channels)
      ensures s != NotFound ==> Swept(old(channels)[name := Sealed(old(channels)[name])], channels, ops)
    {
      hide StateOk, Durable, HandedReleased, OnlyReleased, NoNewWork, SameShape, Swept, Channels.Valid, Grows, Sealed, Quietly;
      SameShapeReflexive(channels);
      if name !in channels { return NotFound; }
      StateIsValid(channels, ops, hist);
      var d := SealUp(channels[name]);
      SealedKeeps(channels[name]);
      QuietlyOne(channels, name, d);
      QuietlyKeeps(channels, channels[name := d], ops, hist);
      QuietIsNoNewWork(channels, channels[name := d]);
      ghost var before := channels;
      var stored := Conclude(channels[name := d], ops, hist);
      SweptWork(before, before[name := d], channels, ops);
      s := if stored then Ok else CommitFailed;
    }

    /**
     Records from outside are grouped by partition and epoch and kept by the
     coordinator itself, one segment for each group.
     */
    method Produce(name: Name, op: Option<Name>, q: Grouping.Router, turn: nat, recs: seq<Grouping.Outside>, naming: Naming)
      returns (s: Status, ghost groups: seq<Announcement>, ghost stored: nat)
      requires Valid() && q.partitions > 0 && |recs| <= |naming.names|
      requires name in channels && channels[name].spec.to.Some? ==> Routes(q, channels[name].spec) && NewNames(channels[name], naming)
      modifies this`channels, this`ops, this`hist, this`failed, this`committed, this`committedHist, this`apart, this`erased
      ensures Valid() && ops == old(ops) && hist == old(hist)
      ensures Groups(q, turn, recs, naming, groups)
      ensures apart == (old(apart) &&
        (ProduceAnswer(old(channels), name, op, groups) == Ok && old(channels)[name].spec.to.Some? ==>
          stored <= |groups| && OwnGroupIds(old(channels), tombstoneKeys, name, groups[..stored])))
      ensures s == ProduceAnswer(old(channels), name, op, groups) || s == CommitFailed
      ensures ProduceAnswer(old(channels), name, op, groups) != Ok ==> s != CommitFailed && channels == old(channels)
      ensures ProduceAnswer(old(channels), name, op, groups) == Ok ==>
        var c := old(channels)[name];
        if c.spec.to.None? then channels == old(channels)[name := c.(produced := c.produced + |recs|)]
        else if stored == |groups| then Swept(old(channels)[name := StoredAll(c, groups)], channels, ops)
        else stored < |groups| && s == CommitFailed && channels == old(channels)[name := StoredAll(c, groups[..stored])]
      ensures ProduceAnswer(old(channels), name, op, groups) == Ok && old(channels)[name].spec.to.Some? ==>
        && stored <= |groups|
        && IndexedBehind(old(channels)[name], StoredAll(old(channels)[name], groups[..stored]), groups[..stored], true)
      ensures OpenStep(old(channels), channels) && (Disciplined(old(channels), op) ==> Step(old(channels), channels))
    {
      hide StateOk, Durable, HandedReleased, OnlyReleased, MayProduce, Swept, StoredAll, IndexedBehind, Numbered, Disciplined, Step, OpenStep,
        NoNewWork, OwnGroupIds, NoClash, AllReleased, Groups, Routes, NewNames, Grouping.In, Grouping.FirstAt;
      var order, made, next := Grouping.Group(q, turn, recs);
      Grouping.GroupsCover(q, turn, recs, order);
      Grouping.NoMoreGroups(q, turn, recs, order);
      var some := Announced(order, made, naming);
      MadeGroups(q, turn, recs, order, made, naming);
      groups := some;
      if name in channels && channels[name].spec.to.Some? {
        StateIsValid(channels, ops, hist);
        assert Channels.Valid(channels[name]);
        MadeNumbered(channels[name], q, turn, recs, naming, some);
      }
      GroupsCount(q, turn, recs, naming, some);
      s, stored := ProduceGroups(name, op, some);
    }

    /**
     Stores groups under ids that nobody else uses. When its store fails half way,
     the groups stored before are indexed and the request fails.
     */
    method ProduceGroups(name: Name, op: Option<Name>, groups: seq<Announcement>) returns (s: Status, ghost stored: nat)
      requires Valid() && (name in channels && channels[name].spec.to.Some? ==> Numbered(channels[name], groups))
      modifies this`channels, this`ops, this`hist, this`failed, this`committed, this`committedHist, this`apart, this`erased
      ensures Valid() && ops == old(ops) && hist == old(hist)
      ensures apart == (old(apart) &&
        (ProduceAnswer(old(channels), name, op, groups) == Ok && old(channels)[name].spec.to.Some? ==>
          stored <= |groups| && OwnGroupIds(old(channels), tombstoneKeys, name, groups[..stored])))
      ensures s == ProduceAnswer(old(channels), name, op, groups) || s == CommitFailed
      ensures ProduceAnswer(old(channels), name, op, groups) != Ok ==> s != CommitFailed && channels == old(channels)
      ensures ProduceAnswer(old(channels), name, op, groups) == Ok ==>
        var c := old(channels)[name];
        if c.spec.to.None? then channels == old(channels)[name := Appended(c, groups)]
        else if stored == |groups| then Swept(old(channels)[name := StoredAll(c, groups)], channels, ops)
        else stored < |groups| && s == CommitFailed && channels == old(channels)[name := StoredAll(c, groups[..stored])]
      ensures ProduceAnswer(old(channels), name, op, groups) == Ok && old(channels)[name].spec.to.Some? ==>
        && stored <= |groups|
        && IndexedBehind(old(channels)[name], StoredAll(old(channels)[name], groups[..stored]), groups[..stored], true)
      ensures OpenStep(old(channels), channels) && (Disciplined(old(channels), op) ==> Step(old(channels), channels))
    {
      hide StateOk, Durable, HandedReleased, OnlyReleased, SameShape, MayProduce, Swept, Channels.Valid, Grows, StoredAll, IndexedBehind, Numbered, Appended,
        Behind, CommittedOk, Quietly, Disciplined, Step, OpenStep, NoNewWork, OwnGroupIds, NoClash, AllReleased, NewIds, StaysApart;
      stored := 0;
      NoStep(channels);
      ghost var before := channels;
      if name !in channels { return NotFound, 0; }
      var may := AdmitsProducer(channels, name, op);
      if !may { return Forbidden, 0; }
      if channels[name].sealed { return Conflict, 0; }
      StateIsValid(channels, ops, hist);
      if channels[name].spec.to.None? {
        s := KeepRecords(name, op, groups);
        return s, 0;
      }
      var behind := AnyBehind(channels[name], groups);
      if behind { return BadRequest, 0; }
      var d, k := StoreGroups(channels[name], groups, durable);
      stored := k;
      IndexingKeeps(channels, ops, hist, name, d);
      StoredApart(channels, tombstoneKeys, erased, name, d, groups, k, apart);
      NoteIds(OwnGroupIds(channels, tombstoneKeys, name, groups[..k]), NewIds(channels[name], d));
      if k < |groups| {
        NewWorkStep(before, name, d, op);
        Adopt(channels[name := d], ops, hist);
        return CommitFailed, k;
      }
      assert groups[..k] == groups;
      var written := Conclude(channels[name := d], ops, hist);
      SweptPublishes(before, name, d, channels, ops, op);
      s := if written then Ok else CommitFailed;
    }

    /** Records of a channel that no operation consumes are kept and counted. */
    method KeepRecords(name: Name, op: Option<Name>, groups: seq<Announcement>) returns (s: Status)
      requires Valid() && name in channels && channels[name].spec.to.None? && !channels[name].sealed && MayProduce(channels, name, op)
      modifies this`channels, this`ops, this`hist, this`failed, this`committed, this`committedHist
      ensures Valid() && ops == old(ops) && hist == old(hist) && (s == Ok || s == CommitFailed)
      ensures channels == old(channels)[name := Appended(old(channels)[name], groups)]
      ensures OpenStep(old(channels), channels) && (Disciplined(old(channels), op) ==> Step(old(channels), channels))
    {
      hide StateOk, Durable, HandedReleased, OnlyReleased, SameShape, MayProduce, Channels.Valid, Grows, Appended, Disciplined, Step, OpenStep,
        NoNewWork, NoClash, AllReleased, StaysApart;
      StateIsValid(channels, ops, hist);
      ghost var before := channels;
      var d := Appended(channels[name], groups);
      AppendedKeeps(channels[name], groups);
      IndexingKeeps(channels, ops, hist, name, d);
      NewWorkStep(before, name, d, op);
      OneIsNoNewWork(channels, name, d, tombstoneKeys, erased, apart);
      Adopt(channels[name := d], ops, hist);
      var written := Commit();
      s := if written then Ok else CommitFailed;
    }

    // --- consuming ---------------------------------------------------------------------------

    /**
     A process asks for work. Either everything the request did is stored, or all
     of it is undone. No deleted segment is ever delivered.
     */
    method Consume(name: Name, op: Option<Name>, l: Lease, max: nat)
      returns (s: Status, resp: Delivery, ghost left: ChannelMap, ghost mid: ChannelMap, ghost eps: OperationMap)
      requires Valid()
      modifies this`channels, this`ops, this`hist, this`failed, this`committed, this`committedHist
      ensures Valid() && hist.confirmed == old(hist).confirmed
      ensures s == ConsumeAnswer(old(channels), old(ops), name, op, l)
        || (s == CommitFailed && ConsumeAnswer(old(channels), old(ops), name, op, l) == Ok)
      ensures s != Ok ==> channels == old(channels) && ops == old(ops) && hist == old(hist) && resp == NoDelivery
      ensures s == Ok ==>
        && Served(old(channels), old(ops), left, mid, eps, channels, ops, name, l, max, now, resp)
        && (forall w, a | w in resp.work && a in w.segments :: (name, a) !in handed)
        && (apart ==> NothingErased(channels[name], erased, resp.work))
    {
      hide StateOk, Durable, HandedReleased, OnlyReleased, SameShape, Served, GoodWork, NoClash, AllReleased, StaysApart, NothingErased, NoNewWork;
      left, mid, eps := channels, channels, ops;
      resp := NoDelivery;
      if name !in channels { return NotFound, NoDelivery, left, mid, eps; }
      if channels[name].spec.to.None? { return BadRequest, NoDelivery, left, mid, eps; }
      if op.Some? && channels[name].spec.to != op { return Forbidden, NoDelivery, left, mid, eps; }
      var consumer := channels[name].spec.to.value;
      var o := OpOf(ops, consumer);
      var registered := l.pod in o.pods;
      if !(registered && o.pods[l.pod].incarnation == l.incarnation) {
        if l.incarnation != NoSession || registered { return Conflict, NoDelivery, left, mid, eps; }
      }
      var dh, dps, answer;
      ghost var g;
      dh, dps, answer, g, left, mid, eps := Serve(channels, ops, hist, now, name, consumer, l, max);
      ServedShape(channels, ops, left, mid, eps, dh, dps, name, l, max, now, answer);
      QuietStaysApart(channels, dh, tombstoneKeys, erased, apart);
      var stored := Transact(dh, dps, g);
      if !stored { return CommitFailed, NoDelivery, left, mid, eps; }
      NeverDeleted(channels, handed, name, ConsumerOf(ops, channels[name].spec), l, answer.work);
      if apart { NeverErased(channels, erased, name, ConsumerOf(ops, channels[name].spec), l, answer.work); }
      return Ok, answer, left, mid, eps;
    }

    // --- acknowledging ------------------------------------------------------------------------

    /**
     Deliveries were processed. A Broadcast acknowledgement counts for the cohort
     slot in the operation the request names, so that slot must be one the
     channel's consumer opened.
     */
    method Ack(name: Name, op: Name, l: Lease, rs: seq<Receipt>) returns (s: Status, ghost acked: Channel)
      requires Valid()
      requires name in channels && Active(OpOf(ops, op), l) ==>
        MayAck(channels[name], ConsumerOf(ops, channels[name].spec), AckerFor(channels[name], OpOf(ops, op), l.pod), l, rs)
      modifies this`channels, this`ops, this`hist, this`failed, this`committed, this`committedHist
      ensures Valid() && ops == old(ops) && NoNewWork(old(channels), channels)
      ensures s == NotFound <==> name !in old(channels)
      ensures s == Conflict <==> name in old(channels) && !Active(OpOf(old(ops), op), l)
      ensures s == NotFound || s == Conflict ==> channels == old(channels) && hist == old(hist)
      ensures s != NotFound && s != Conflict ==>
        && acked.segs.Keys == old(channels)[name].segs.Keys
        && AckedExactly(old(channels)[name], acked, l, AckerFor(old(channels)[name], OpOf(ops, op), l.pod), rs)
        && AckedBeside(old(channels)[name], acked, l, AckerFor(old(channels)[name], OpOf(ops, op), l.pod), rs)
        && hist.confirmed == old(hist).confirmed + Confirms(old(channels)[name], name, ConsumerOf(ops, old(channels)[name].spec), l, rs)
        && Swept(old(channels)[name := acked], channels, ops)
    {
      hide StateOk, Durable, HandedReleased, OnlyReleased, NoNewWork, SameShape, Swept, AckedExactly, AckedBeside, Active, ConsumerOf, AckerFor, MayAck;
      SameShapeReflexive(channels);
      if name !in channels { return NotFound, NewChannel(Spec(name, None, None, Hash, 1, false, false, None), false); }
      acked := channels[name];
      if !Active(OpOf(ops, op), l) { return Conflict, acked; }
      var d;
      ghost var g;
      d, g := AckDeliveries(channels, ops, hist, name, op, l, rs);
      acked := d;
      ghost var before := channels;
      var stored := Conclude(channels[name := d], ops, g);
      SweptWork(before, before[name := d], channels, ops);
      s := if stored then Ok else CommitFailed;
    }

    /** Unfinished deliveries go back to the head of their queues. */
    method Nack(name: Name, op: Name, l: Lease, rs: seq<Receipt>) returns (s: Status, ghost returned: Channel)
      requires Valid()
      modifies this`channels, this`ops, this`hist, this`failed, this`committed, this`committedHist
      ensures Valid() && ops == old(ops) && hist == old(hist) && NoNewWork(old(channels), channels)
      ensures s == NotFound <==> name !in old(channels)
      ensures s == Conflict <==> name in old(channels) && !Active(OpOf(old(ops), op), l)
      ensures s == NotFound || s == Conflict ==> channels == old(channels)
      ensures s != NotFound && s != Conflict ==>
        && returned.segs.Keys == old(channels)[name].segs.Keys
        && ReturnedExactly(old(channels)[name], returned, l, rs) && QueuesEndWith(old(channels)[name], returned)
        && RetriesSet(old(channels)[name], returned, l, rs, now) && StartsOver(old(channels)[name], returned, l, rs)
        && Swept(old(channels)[name := returned], channels, ops)
    {
      hide StateOk, Durable, HandedReleased, OnlyReleased, NoNewWork, SameShape, Swept, ReturnedExactly, QueuesEndWith, RetriesSet, StartsOver, Active, Quietly;
      SameShapeReflexive(channels);
      if name !in channels { return NotFound, NewChannel(Spec(name, None, None, Hash, 1, false, false, None), false); }
      returned := channels[name];
      if !Active(OpOf(ops, op), l) { return Conflict, returned; }
      var d := NackDeliveries(channels, ops, hist, name, l, rs, now);
      returned := d;
      QuietIsNoNewWork(channels, channels[name := d]);
      ghost var before := channels;
      var stored := Conclude(channels[name := d], ops, hist);
      SweptWork(before, before[name := d], channels, ops);
      s := if stored then Ok else CommitFailed;
    }

    // --- epochs ------------------------------------------------------------------------------------

    /** A worker finished an epoch and published everything it produced in it. */
    method OperationEpochDone(op: Name, l: Lease, e: int) returns (s: Status, ghost mid: ChannelMap, ghost eps: OperationMap, ghost answer: EpochAnswer)
      requires Valid()
      modifies this`channels, this`ops, this`hist, this`failed, this`committed, this`committedHist
      ensures Valid() && NoNewWork(old(channels), channels) && RetiredGrows(old(ops), ops) && hist.confirmed == old(hist).confirmed
      ensures s == Conflict <==> !Active(OpOf(old(ops), op), l)
      ensures s == Conflict ==> channels == old(channels) && ops == old(ops)
      ensures s != Conflict ==>
        && op in old(ops) && l.pod in old(ops)[op].pods && Quietly(old(channels), mid) && NoSeals(old(channels), mid)
        && AllMourned(old(channels), mid, PodsOf(Silent(Heard(old(ops), op, l.pod, now), now, Some((op, l.pod)))))
        && AllOthersKeep(old(channels), mid, Silent(Heard(old(ops), op, l.pod, now), now, Some((op, l.pod))))
        && ExpiredExactly(Heard(old(ops), op, l.pod, now), eps, Silent(Heard(old(ops), op, l.pod, now), now, Some((op, l.pod))))
        && EpochRecorded(mid, eps, channels, ops, now, op, l.pod, e, answer)
        && (if Reports(mid, eps, op, l.pod, e) && EveryPodFinished(OpOf(ops, op), now, e)
            then hist.finished == Finished(old(hist).finished, op, e)
            else hist.finished == old(hist).finished && channels == mid)
        && (match answer case Recorded => s == Ok || s == CommitFailed case UnknownPod => s == BadRequest case InputOpen => s == TooEarly)
    {
      hide StateOk, Durable, HandedReleased, OnlyReleased, NoNewWork, SameShape, Quietly, NoSeals, AllMourned, AllOthersKeep, RetiredGrows,
        ExpiredExactly, Silent, PodsOf, EpochRecorded;
      SameShapeReflexive(channels);
      RetiredReflexive(ops);
      mid, eps, answer := channels, ops, Recorded;
      if !Active(OpOf(ops, op), l) { return Conflict, mid, eps, answer; }
      var p := ops[op].pods[l.pod].(lastSeen := now);
      var heard := ops[op := ops[op].(pods := ops[op].pods[l.pod := p])];
      HeardKeeps(channels, ops, hist, op, l.pod, now);
      ghost var g := WithLive(hist, op, |ops[op].pods|);
      var dh, dps;
      dh, dps, g := ExpireAllExcept(channels, heard, g, now, Some((op, l.pod)));
      ExpiryRetires(heard, dps, Silent(heard, now, Some((op, l.pod))));
      QuietIsNoNewWork(channels, dh);
      mid, eps := dh, dps;
      var reply, eh, fps;
      reply, eh, fps, g := RecordEpochDone(dh, dps, g, now, op, l.pod, e);
      answer := reply;
      NoNewWorkTransitive(channels, dh, eh);
      NoNewWorkShape(channels, eh);
      ReportRetires(ops, heard, dh, dps, eh, fps, now, op, l.pod, e, reply);
      StaysUnlessReported(dh, dps, eh, fps, now, op, l.pod, e, reply);
      Adopt(eh, fps, g);
      if reply == UnknownPod { return BadRequest, mid, eps, answer; }
      if reply == InputOpen { return TooEarly, mid, eps, answer; }
      var stored := Commit();
      s := if stored then Ok else CommitFailed;
    }

    // --- deleting ---------------------------------------------------------------------------------

    /** Moves what the pod may delete from the index to the tombstones, and stores that. */
    method HandOut(pod: Pod) returns (ok: bool, out: set<(Name, AppendId)>)
      requires Valid()
      modifies this`channels, this`ops, this`hist, this`failed, this`committed, this`committedHist, this`tombstoneKeys, this`handed
      ensures Valid() && ops == old(ops) && hist == old(hist)
      ensures ok ==>
        && out == Deletable(old(channels), pod) && channels == Forgetting(old(channels), pod) && handed == old(handed) + out
        && HandedReleased(channels, out)
        && (durable ==> committed.Some? && HandedReleased(RestoredAll(committed.value), handed))
        && (durable ==> IdsOf(old(channels), out) <= committed.value.tombstones)
      ensures !ok ==> out == {} && channels == old(channels) && handed == old(handed)
    {
      hide StateOk, Durable, HandedReleased, OnlyReleased, SameShape, Quietly, StoresAll, Deletable, Forgetting, IdsOf, NoClash, AllReleased, StaysApart, NoNewWork;
      var was := channels;
      var dh, removed, ids := Bury(channels, ops, hist, pod, tombstoneKeys);
      if apart { BuriedClash(channels, tombstoneKeys, pod); }
      QuietStaysApart(channels, dh, tombstoneKeys, erased, apart);
      Adopt(dh, ops, hist);
      ghost var keys := tombstoneKeys;
      tombstoneKeys := tombstoneKeys + ids;
      ok := Commit();
      if !ok {
        channels := was;
        tombstoneKeys := tombstoneKeys - ids;
        TombstonesShrink(channels, keys, tombstoneKeys);
        if apart { FewerKeys(channels, keys, tombstoneKeys); }
        return false, {};
      }
      HandedUnion(channels, handed, removed);
      if durable { RoundTripHere(committed.value, channels, ops, hist); }
      MarkHanded(removed);
      out := removed;
    }

    /** The stored state has the released segments, so their deletion may be handed out. */
    ghost method MarkHanded(removed: set<(Name, AppendId)>)
      requires Valid() && HandedReleased(channels, handed + removed)
      requires durable ==> committed.Some? && RestoredAll(committed.value) == channels
      modifies this`handed
      ensures Valid() && handed == old(handed) + removed
      ensures durable ==> HandedReleased(RestoredAll(committed.value), handed)
    {
      hide StateOk, HandedReleased, OnlyReleased, NoClash, AllReleased;
      handed := handed + removed;
    }

    /**
     Hands a pod the segments it may delete: those it holds that are released, in
     the stored state if there is one. If that cannot be stored nothing is handed out.
     */
    method Released(op: Option<Name>, l: Lease) returns (s: Status, out: set<(Name, AppendId)>, ghost mid: ChannelMap)
      requires Valid()
      modifies this`channels, this`ops, this`hist, this`failed, this`committed, this`committedHist, this`tombstoneKeys, this`handed
      ensures Valid() && RetiredGrows(old(ops), ops) && Quietly(old(channels), mid) && hist.confirmed == old(hist).confirmed
      ensures s == Conflict <==> op.Some? && !Active(OpOf(old(ops), op.value), l)
      ensures s == Conflict ==> channels == old(channels) && ops == old(ops)
      ensures s != Conflict ==> ExpiredExactly(old(ops), ops, Silent(old(ops), now, None))
      ensures s != Conflict ==> AllMourned(old(channels), mid, PodsOf(Silent(old(ops), now, None))) && NoSeals(old(channels), mid)
      ensures s != Conflict ==> AllOthersKeep(old(channels), mid, Silent(old(ops), now, None))
      ensures s != Ok ==> out == {} && handed == old(handed) && channels == mid
      ensures s == Ok ==>
        && (forall n, a | (n, a) in out ::
              && n in mid && a in mid[n].segs
              && mid[n].segs[a].meta.producer == l.pod && mid[n].segs[a].released && !mid[n].segs[a].external && !mid[n].spec.retained)
        && out == Deletable(mid, l.pod) && channels == Forgetting(mid, l.pod) && handed == old(handed) + out
        && HandedReleased(channels, out)
        && (durable ==> committed.Some? && HandedReleased(RestoredAll(committed.value), handed))
        && (durable ==> IdsOf(mid, out) <= committed.value.tombstones)
    {
      hide StateOk, Durable, HandedReleased, OnlyReleased, NoNewWork, SameShape, Quietly, RetiredGrows, NoSeals, AllMourned, AllOthersKeep,
        ExpiredExactly, Silent, PodsOf, Active, Deletable, Forgetting, IdsOf;
      mid := channels;
      StateIsValid(channels, ops, hist);
      QuietlyReflexive(channels);
      RetiredReflexive(ops);
      if op.Some? && !Active(OpOf(ops, op.value), l) { return Conflict, {}, mid; }
      var dh, dps;
      ghost var g;
      dh, dps, g := ExpireAllExcept(channels, ops, hist, now, None);
      ExpiryRetires(ops, dps, Silent(ops, now, None));
      QuietIsNoNewWork(channels, dh);
      Adopt(dh, dps, g);
      mid := dh;
      DeletableAre(mid, l.pod);
      var ok;
      ok, out := HandOut(l.pod);
      s := if ok then Ok else CommitFailed;
    }

    // --- restarting -----------------------------------------------------------------------------------

    /**
     A replacement coordinator claims the checkpoint, starts from the stored state
     and deletes the bytes its tombstones name: only those of released segments.
     */
    method Restart() returns (deleted: set<SegmentId>)
      requires Valid() && durable
      modifies this`channels, this`ops, this`hist, this`failed, this`committed, this`committedHist, this`tombstoneKeys, this`erased
      ensures Valid() && erased == old(erased) + deleted
      ensures apart ==> AllReleased(channels, deleted)
      ensures old(committed).Some? ==>
        && channels == RestoredAll(old(committed).value) && ops == old(committed).value.ops && hist == old(committedHist)
        && deleted == old(committed).value.tombstones && OnlyReleased(channels, deleted)
        && HandedReleased(channels, handed)
      ensures old(committed).None? ==> channels == map[] && ops == map[] && deleted == {}
    {
      hide StateOk, HandedReleased, OnlyReleased, StoresAll, NoClash, AllReleased, CommittedOk;
      deleted := {};
      failed, tombstoneKeys := false, {};
      if committed.None? {
        channels, ops, hist := map[], map[], History(map[], map[], [], {});
        NewStateOk(map[], channels, hist);
        NothingHanded(channels);
        NothingReleased({}, erased);
        NothingStored(committedHist, handed, erased, apart);
        return;
      }
      deleted := committed.value.tombstones;
      var ch, os := Restore(committed.value);
      channels, ops, hist := ch, os, committedHist;
      NothingHanded(channels);
      CommittedErases(committed, committedHist, handed, erased, apart);
      erased := erased + deleted;
      if deleted != {} { var ok := Commit(); }
    }

    /** Expiry and settling without a request, as reading the metrics does. */
    method Sweep() returns (ghost left: ChannelMap)
      requires Valid()
      modifies this`channels, this`ops, this`hist
      ensures AllMourned(old(channels), left, PodsOf(Silent(old(ops), now, None))) && Swept(left, channels, ops)
      ensures AllOthersKeep(old(channels), left, Silent(old(ops), now, None))
      ensures Valid() && NoNewWork(old(channels), channels) && RetiredGrows(old(ops), ops) && hist.confirmed == old(hist).confirmed
      ensures ExpiredExactly(old(ops), ops, Silent(old(ops), now, None))
    {
      hide StateOk, Quietly, Durable, HandedReleased, OnlyReleased, NoNewWork, RetiredGrows, SameShape, NoSeals, AllMourned, AllOthersKeep, AllSettled, SealsFinished, FinishedSealed, ExpiredExactly, Silent, PodsOf;
      var dh, dps;
      ghost var g;
      dh, dps, g := ExpireAllExcept(channels, ops, hist, now, None);
      ExpiryRetires(ops, dps, Silent(ops, now, None));
      left := dh;
      var eh := Settle(dh, dps, g);
      QuietlyTransitive(channels, dh, eh);
      QuietIsNoNewWork(channels, eh);
      Adopt(eh, dps, g);
    }

    /** Time passes. */
    method Tick(elapsed: nat)
      requires Valid()
      modifies this`now
      ensures Valid() && now == old(now) + elapsed
    {
      now := now + elapsed;
    }
  }

  // --- the stored state ---------------------------------------------------------------------------

  /** What a replacement coordinator would start from and delete. */
  ghost predicate CommittedOk(committed: Option<Persisted>, h: History, handed: set<(Name, AppendId)>, erased: set<SegmentId>, apart: bool) {
    if committed.None? then handed == {} && erased == {}
    else
      var ch := RestoredAll(committed.value);
      && StateOk(ch, committed.value.ops, h) && HandedReleased(ch, handed)
      && OnlyReleased(ch, committed.value.tombstones) && OnlyReleased(ch, erased)
      && (apart ==> NoClash(ch, {}) && AllReleased(ch, committed.value.tombstones) && AllReleased(ch, erased))
  }

  /** Deleting what the tombstones name leaves the stored state right. */
  lemma CommittedErases(committed: Option<Persisted>, h: History, handed: set<(Name, AppendId)>, erased: set<SegmentId>, apart: bool)
    requires CommittedOk(committed, h, handed, erased, apart) && committed.Some?
    ensures CommittedOk(committed, h, handed, erased + committed.value.tombstones, apart)
    ensures var ch := RestoredAll(committed.value);
      && StateOk(ch, committed.value.ops, h) && HandedReleased(ch, handed) && OnlyReleased(ch, erased + committed.value.tombstones)
      && OnlyReleased(ch, committed.value.tombstones)
      && (apart ==> NoClash(ch, {}) && AllReleased(ch, committed.value.tombstones) && AllReleased(ch, erased + committed.value.tombstones))
  {
    hide StateOk, HandedReleased, OnlyReleased, NoClash;
    OnlyReleasedUnion(RestoredAll(committed.value), erased, committed.value.tombstones);
  }

  lemma CommittedLess(committed: Option<Persisted>, h: History, handed: set<(Name, AppendId)>, erased: set<SegmentId>, ids: set<SegmentId>,
                      apart: bool, own: bool)
    requires CommittedOk(committed, h, handed, erased, apart)
    ensures CommittedOk(committed, h, handed, erased - ids, apart && own)
  {
    hide StateOk, HandedReleased, OnlyReleased, NoClash;
    if committed.Some? { TombstonesShrink(RestoredAll(committed.value), erased, erased - ids); }
  }

  // --- ids ------------------------------------------------------------------------------------

  /** A change that brings no clash: it indexes nothing, or there is none after it. */
  ghost predicate StaysApart(ch: ChannelMap, dh: ChannelMap, keys: set<SegmentId>, erased: set<SegmentId>, apart: bool) {
    NoNewWork(ch, dh) || (apart ==> NoClash(dh, keys) && AllReleased(dh, erased))
  }

  lemma QuietStaysApart(ch: ChannelMap, dh: ChannelMap, keys: set<SegmentId>, erased: set<SegmentId>, apart: bool)
    requires NoNewWork(ch, dh)
    ensures StaysApart(ch, dh, keys, erased, apart)
  {
  }

  lemma ApartKept(ch: ChannelMap, dh: ChannelMap, keys: set<SegmentId>, erased: set<SegmentId>, apart: bool)
    requires (apart ==> NoClash(ch, keys) && AllReleased(ch, erased)) && StaysApart(ch, dh, keys, erased, apart)
    ensures apart ==> NoClash(dh, keys) && AllReleased(dh, erased)
  {
    hide NoNewWork, NoClash, AllReleased;
    if apart && NoNewWork(ch, dh) {
      NoClashStays(ch, dh, keys);
      AllReleasedStays(ch, dh, erased);
    }
  }

  lemma ApartOn(ch: ChannelMap, mid: ChannelMap, dh: ChannelMap, keys: set<SegmentId>, erased: set<SegmentId>, apart: bool)
    requires StaysApart(ch, mid, keys, erased, apart) && NoNewWork(mid, dh)
    ensures StaysApart(ch, dh, keys, erased, apart)
  {
    hide NoNewWork, NoClash, AllReleased;
    if NoNewWork(ch, mid) {
      NoNewWorkTransitive(ch, mid, dh);
    } else {
      ApartKept(mid, dh, keys, erased, apart);
    }
  }

  /** A published batch stays clear of clashes if its ids are free. */
  lemma PublishedApart(ch: ChannelMap, keys: set<SegmentId>, erased: set<SegmentId>, n: Name, d: Channel, ns: seq<Notice>, apart: bool)
    requires n in ch && d == IndexFold(ch[n], ns) && Evolves(ch[n], d) && (apart ==> NoClash(ch, keys) && AllReleased(ch, erased))
    ensures StaysApart(ch, ch[n := d], keys, erased - NewIds(ch[n], d), apart && OwnIds(ch, keys, n, ns))
  {
    hide NoNewWork, NoClash, AllReleased, OwnIds, NewIds, Evolves;
    if apart {
      OwnIdsExactly(ch, keys, n, ns);
      ErasedStays(ch, n, d, erased);
    }
  }

  lemma StoredApart(ch: ChannelMap, keys: set<SegmentId>, erased: set<SegmentId>, n: Name, d: Channel, groups: seq<Announcement>, k: nat, apart: bool)
    requires n in ch && k <= |groups| && d == StoredAll(ch[n], groups[..k]) && Grows(ch[n], d) && Numbered(ch[n], groups)
    requires apart ==> NoClash(ch, keys) && AllReleased(ch, erased)
    ensures StaysApart(ch, ch[n := d], keys, erased - NewIds(ch[n], d), apart && OwnGroupIds(ch, keys, n, groups[..k]))
  {
    hide NoNewWork, NoClash, AllReleased, OwnGroupIds, NewIds, Evolves, SameClock, LeasesWithin, AckersWithin;
    if apart {
      OwnGroupIdsExactly(ch, keys, n, groups[..k]);
      ErasedStays(ch, n, d, erased);
    }
  }

  lemma OneIsNoNewWork(ch: ChannelMap, n: Name, d: Channel, keys: set<SegmentId>, erased: set<SegmentId>, apart: bool)
    requires n in ch && Grows(ch[n], d) && NoNewSegments(ch[n], d)
    ensures StaysApart(ch, ch[n := d], keys, erased, apart)
  {
  }

  /** A snapshot of a state without clashes is one, and its tombstones name nothing that waits. */
  lemma ClearToCommit(ch: ChannelMap, keys: set<SegmentId>)
    requires NoClash(ch, keys)
    ensures NoClash(ch, {}) && AllReleased(ch, keys + ReleasedIn(ch, ch.Keys))
  {
    NoClashHere(ch, keys);
    FewerKeys(ch, keys, {});
  }

  lemma FewerKeys(ch: ChannelMap, keys: set<SegmentId>, less: set<SegmentId>)
    requires NoClash(ch, keys) && less <= keys
    ensures NoClash(ch, less)
  {
  }

  lemma FewerReleased(ch: ChannelMap, ids: set<SegmentId>, some: set<SegmentId>)
    requires AllReleased(ch, ids)
    ensures AllReleased(ch, ids - some)
  {
  }

  lemma NothingClashes(ch: ChannelMap)
    requires forall n | n in ch :: ch[n].segs == map[]
    ensures NoClash(ch, {}) && AllReleased(ch, {})
  {
  }

  /** What a pod is told to delete clashes with nothing that waits. */
  lemma BuriedClash(ch: ChannelMap, keys: set<SegmentId>, pod: Pod)
    requires NoClash(ch, keys)
    ensures NoClash(Forgetting(ch, pod), keys + IdsOf(ch, Deletable(ch, pod)))
  {
    var dh := Forgetting(ch, pod);
    forall n, a | LiveIn(dh, n, a)
      ensures LiveIn(ch, n, a) && dh[n].segs[a] == ch[n].segs[a] && dh[n].segs[a].meta.id !in IdsOf(ch, Deletable(ch, pod))
    {
      if dh[n].segs[a].meta.id in IdsOf(ch, Deletable(ch, pod)) {
        var v :| v in Deletable(ch, pod) && v.0 in ch && v.1 in ch[v.0].segs && ch[v.0].segs[v.1].meta.id == dh[n].segs[a].meta.id;
        assert Buries(ch, v.0, v.1);
      }
    }
    forall m, b | Buries(dh, m, b) ensures Buries(ch, m, b) && dh[m].segs[b] == ch[m].segs[b] {}
  }

  lemma NormalisedAre(specs: map<Name, Spec>)
    ensures forall n | n in specs ::
      Normalised(specs[n]) == specs[n].(partitions := if specs[n].partitions == 0 then 1 else specs[n].partitions, retained := specs[n].retained || specs[n].to == None)
  {
  }

  lemma NewChannelShape(specs: map<Name, Spec>, ch: ChannelMap)
    requires ch.Keys == specs.Keys && forall n | n in ch :: ch[n] == NewChannel(Normalised(specs[n]), ch[n].finite)
    ensures forall n | n in specs :: ch[n].spec == Normalised(specs[n]) && ch[n].segs == map[]
  {
  }

  lemma ReleasedAreReleased(ch: ChannelMap, ids: set<SegmentId>)
    requires OnlyReleased(ch, ids)
    ensures OnlyReleased(ch, ids + ReleasedIn(ch, ch.Keys))
  {
    forall i | i in ReleasedIn(ch, ch.Keys)
      ensures exists n, a :: n in ch && a in ch[n].segs && ch[n].segs[a].meta.id == i && ch[n].segs[a].released
    {
      var n :| n in ch && i in ReleasedOf(ch[n]);
      var a :| a in ch[n].all && a in ch[n].segs && ch[n].segs[a].released && ch[n].segs[a].meta.id == i;
    }
  }

  lemma NewChannelValid(s: Spec, finite: bool)
    requires s.partitions > 0
    ensures Channels.Valid(NewChannel(s, finite))
  {
    var c := NewChannel(s, finite);
    assert Admitted(c) == {} && AckedIds(c) == {} && LostIds(c) == {};
  }

  lemma NewSpecs(specs: map<Name, Spec>, ch: ChannelMap)
    requires ch.Keys == specs.Keys && forall n | n in ch :: ch[n].spec == Normalised(specs[n])
    ensures Specs(ch) == set n | n in specs :: Normalised(specs[n])
  {
    var all := set n | n in specs :: Normalised(specs[n]);
    forall s | s in all ensures s in Specs(ch) {
      var n :| n in specs && s == Normalised(specs[n]);
      assert n in ch && s == ch[n].spec;
    }
    forall s | s in Specs(ch) ensures s in all {
      var n :| n in ch && s == ch[n].spec;
      assert n in specs && s == Normalised(specs[n]);
    }
  }

  lemma NewStateOk(specs: map<Name, Spec>, ch: ChannelMap, h: History)
    requires forall n | n in specs :: specs[n].name == n
    requires ch.Keys == specs.Keys && forall n | n in ch :: ch[n] == NewChannel(Normalised(specs[n]), ch[n].finite)
    requires h == History(map[], map[], [], {})
    ensures StateOk(ch, map[], h)
  {
    hide Channels.Valid;
    forall n | n in ch ensures Channels.Valid(ch[n]) && EpochOk(ch[n], h.finished) {
      NewChannelValid(Normalised(specs[n]), ch[n].finite);
    }
  }

  ghost predicate HandedReleased(ch: ChannelMap, handed: set<(Name, AppendId)>) {
    forall h | h in handed :: h.0 in ch && h.1 in ch[h.0].segs && ch[h.0].segs[h.1].released
  }

  /** Every id is that of some released segment. */
  ghost predicate OnlyReleased(ch: ChannelMap, ids: set<SegmentId>) {
    forall i | i in ids :: exists n, a :: n in ch && a in ch[n].segs && ch[n].segs[a].meta.id == i && ch[n].segs[a].released
  }

  lemma ReleasedStays(ch: ChannelMap, dh: ChannelMap, handed: set<(Name, AppendId)>, ids: set<SegmentId>)
    requires SameShape(ch, dh) && HandedReleased(ch, handed) && OnlyReleased(ch, ids)
    ensures HandedReleased(dh, handed) && OnlyReleased(dh, ids)
  {
    forall n, a | n in ch && a in ch[n].segs ensures SegmentEvolves(ch[n].segs[a], dh[n].segs[a]) { assert Evolves(ch[n], dh[n]); }
    forall i | i in ids ensures exists n, a :: n in dh && a in dh[n].segs && dh[n].segs[a].meta.id == i && dh[n].segs[a].released {
      var n, a :| n in ch && a in ch[n].segs && ch[n].segs[a].meta.id == i && ch[n].segs[a].released;
      assert n in dh && a in dh[n].segs;
    }
  }

  /** What the sweep made of the channels. */
  ghost predicate Swept(ch: ChannelMap, dh: ChannelMap, ops: OperationMap) {
    Quietly(ch, dh) && AllSettled(ch, dh, ops) && SealsFinished(ch, dh) && FinishedSealed(ch, dh, {})
  }

  lemma NoNewWorkShape(ch: ChannelMap, dh: ChannelMap)
    requires NoNewWork(ch, dh)
    ensures SameShape(ch, dh)
  {
  }

  ghost function DoneMarked(o: Operation, pod: Pod): Operation
    requires pod in o.pods
  {
    o.(pods := o.pods[pod := o.pods[pod].(done := true)])
  }

  lemma DoneMarkedKeeps(ch: ChannelMap, ops: OperationMap, h: History, op: Name, pod: Pod)
    requires StateOk(ch, ops, h) && op in ops && pod in ops[op].pods
    ensures StateOk(ch, ops[op := DoneMarked(ops[op], pod)], WithLive(h, op, |DoneMarked(ops[op], pod).pods|))
  {
    hide StateOk, ValidOperation;
    OperationIsValid(ch, ops, h, op);
    DoneMarkedValid(ops[op], pod);
    OperationKeeps(ch, ops, h, op, DoneMarked(ops[op], pod));
  }

  lemma DoneMarkedValid(o: Operation, pod: Pod)
    requires ValidOperation(o) && pod in o.pods
    ensures ValidOperation(DoneMarked(o, pod)) && OwnersKept(o, DoneMarked(o, pod))
  {
    SlotsSame(o, DoneMarked(o, pod));
  }

  // --- facts about requests ------------------------------------------------------------------

  ghost function StatusOf(r: Refusal): Status {
    match r
    case Fine => Ok
    case OtherChannel => BadRequest
    case DifferentMetadata => Conflict
    case ChannelSealed => Conflict
    case EpochBehind => BadRequest
    case PartitionOutOfRange => BadRequest
  }

  /** The first entry that is not fine. */
  ghost function BatchRefusal(c: Channel, ns: seq<Notice>): Refusal {
    if ns == [] then Fine else if Check(c, ns[0]) != Fine then Check(c, ns[0]) else BatchRefusal(c, ns[1..])
  }

  /** The answer to a publish request, as far as the state decides it. */
  ghost function PublishAnswer(failed: bool, ch: ChannelMap, ops: OperationMap, name: Name, op: Option<Name>, session: Option<Lease>, ns: seq<Notice>): Status {
    if failed then CommitFailed
    else if name !in ch then NotFound
    else if !MayProduce(ch, name, op) then Forbidden
    else if session.Some? && !(op.Some? && Active(OpOf(ops, op.value), session.value)) then Conflict
    else StatusOf(BatchRefusal(ch[name], ns))
  }

  /** Whether the operation may publish on the channel, looking for a loop that overflows into it last. */
  method AdmitsProducer(ch: ChannelMap, name: Name, op: Option<Name>) returns (may: bool)
    requires name in ch
    ensures may <==> MayProduce(ch, name, op)
  {
    may := ch[name].spec.from == None || ch[name].spec.from == op;
    var rest := ch.Keys;
    while rest != {} && !may
      invariant rest <= ch.Keys
      invariant may <==> (ch[name].spec.from == None || ch[name].spec.from == op || exists m :: m in ch && m !in rest && Diverts(ch[m].spec, name, op))
      decreases rest
    {
      var m :| m in rest;
      rest := rest - {m};
      var s := ch[m].spec;
      may := s.feedback.Some? && s.feedback.value.overflow == Some(name) && s.from == op;
    }
  }

  /** Workers publish before they acknowledge: a consumer produces only while it holds work. */
  ghost predicate Disciplined(ch: ChannelMap, op: Option<Name>) {
    op.Some? && HasInbound(ch, op.value) ==> exists l :: Working(ch, op.value, l)
  }

  lemma {:induction false} FirstRefusal(c: Channel, ns: seq<Notice>, r: Refusal)
    requires exists i :: 0 <= i < |ns| && Check(c, ns[i]) == r && forall j | 0 <= j < i :: Check(c, ns[j]) == Fine
    requires r != Fine
    ensures BatchRefusal(c, ns) == r
  {
    var i :| 0 <= i < |ns| && Check(c, ns[i]) == r && forall j | 0 <= j < i :: Check(c, ns[j]) == Fine;
    if i > 0 {
      assert ns[1..][i - 1] == ns[i];
      assert forall j | 0 <= j < i - 1 :: ns[1..][j] == ns[j + 1];
      FirstRefusal(c, ns[1..], r);
    }
  }

  lemma {:induction false} NoRefusal(c: Channel, ns: seq<Notice>)
    requires AllFine(c, ns)
    ensures BatchRefusal(c, ns) == Fine
  {
    if ns != [] { NoRefusal(c, ns[1..]); }
  }

  lemma NoStep(ch: ChannelMap)
    ensures Step(ch, ch) && OpenStep(ch, ch) && NoNewWork(ch, ch)
  {
  }

  /** New segments on one channel, then the sweep. */
  lemma SweptPublishes(ch: ChannelMap, n: Name, d: Channel, dh: ChannelMap, ops: OperationMap, op: Option<Name>)
    requires n in ch && MayProduce(ch, n, op) && Grows(ch[n], d) && (ch[n].sealed ==> d.segs == ch[n].segs)
    requires Swept(ch[n := d], dh, ops)
    ensures OpenStep(ch, dh) && (Disciplined(ch, op) ==> Step(ch, dh))
  {
    hide Quietly, MayProduce, Grows, OpenStep, OpenPublish, HasInbound, Working, SameShape, NoNewWork;
    QuietIsNoNewWork(ch[n := d], dh);
    PublishedStep(ch, dh, n, d, op);
    if Disciplined(ch, op) {
      var l := Lease(0, NoSession);
      if op.Some? && HasInbound(ch, op.value) { l :| Working(ch, op.value, l); }
      assert PublishStep(ch, dh, n, op, l);
    }
  }

  lemma NewWorkStep(ch: ChannelMap, n: Name, d: Channel, op: Option<Name>)
    requires n in ch && MayProduce(ch, n, op) && Grows(ch[n], d) && (ch[n].sealed ==> d.segs == ch[n].segs)
    ensures OpenStep(ch, ch[n := d]) && (Disciplined(ch, op) ==> Step(ch, ch[n := d]))
  {
    hide MayProduce, Grows, OpenStep, OpenPublish, HasInbound, Working, SameShape, NoNewWork;
    SameShapeReflexive(ch[n := d]);
    PublishedStep(ch, ch[n := d], n, d, op);
    if Disciplined(ch, op) {
      var l := Lease(0, NoSession);
      if op.Some? && HasInbound(ch, op.value) { l :| Working(ch, op.value, l); }
      assert PublishStep(ch, ch[n := d], n, op, l);
    }
  }

  lemma SweptWork(ch: ChannelMap, mid: ChannelMap, dh: ChannelMap, ops: OperationMap)
    requires NoNewWork(ch, mid) && Swept(mid, dh, ops)
    ensures NoNewWork(ch, dh)
  {
    hide Quietly, NoNewWork, SameShape;
    QuietIsNoNewWork(mid, dh);
    NoNewWorkTransitive(ch, mid, dh);
  }

  /** No channel leads into the operation. */
  ghost predicate NoInput(ch: ChannelMap, op: Name) {
    forall n | n in ch :: ch[n].spec.to != Some(op)
  }

  /** The first report that the source of an operation without inputs ran. */
  ghost predicate SourceReports(ch: ChannelMap, ops: OperationMap, op: Name, pod: Pod) {
    && NoInput(ch, op) && pod in OpOf(ops, op).epochDone && OpOf(ops, op).epochDone[pod] < 0
  }

  lemma MarkedOnly(ops: OperationMap, op: Name, pod: Pod)
    requires op in ops && pod in ops[op].pods
    ensures DoneMarked(ops[op], pod).(epochDone := ops[op].epochDone) == DoneMarked(ops[op], pod)
    ensures DoneMarked(ops[op], pod).retired == ops[op].retired && pod in DoneMarked(ops[op], pod).pods && DoneMarked(ops[op], pod).pods[pod].done
  {
  }

  /** What recording epoch zero made of the operation whose source ran. */
  lemma SourceRecorded(ch: ChannelMap, ops: OperationMap, dh: ChannelMap, dps: OperationMap, now: int, op: Name, pod: Pod, answer: EpochAnswer)
    requires op in ops && pod in ops[op].pods && NoInput(ch, op)
    requires EpochRecorded(ch, ops[op := DoneMarked(ops[op], pod)], dh, dps, now, op, pod, 0, answer)
    ensures (answer == UnknownPod <==> pod !in ops[op].epochDone) && answer != InputOpen
    ensures SourceReports(ch, ops, op, pod) == Reports(ch, ops[op := DoneMarked(ops[op], pod)], op, pod, 0)
    ensures OpOf(dps, op) == DoneMarked(ops[op], pod).(epochDone :=
      if SourceReports(ch, ops, op, pod) then ops[op].epochDone[pod := 0] else ops[op].epochDone)
    ensures (forall o | o != op :: OpOf(dps, o) == OpOf(ops, o)) && dh.Keys == ch.Keys
    ensures if SourceReports(ch, ops, op, pod) && EveryPodFinished(OpOf(dps, op), now, 0)
      then forall n | n in ch :: FinishedAs(ch[n], dh[n], op, 0)
      else dh == ch
  {
    hide FinishedAs, EveryPodFinished, IsQuiet, BoundsDropNothing;
  }

  /** Whether any channel leads into the operation. */
  method IsFed(ch: ChannelMap, op: Name) returns (fed: bool)
    ensures (fed <==> HasInbound(ch, op)) && (fed <==> !NoInput(ch, op))
    ensures fed ==> forall ops, pod :: !SourceReports(ch, ops, op, pod)
  {
    fed := false;
    var rest := ch.Keys;
    while rest != {} && !fed
      invariant rest <= ch.Keys
      invariant fed <==> exists n :: n in ch && n !in rest && ch[n].spec.to == Some(op)
      decreases rest
    {
      var n :| n in rest;
      rest := rest - {n};
      fed := ch[n].spec.to == Some(op);
    }
  }

  /** The process is heard from now. */
  ghost function Heard(ops: OperationMap, op: Name, pod: Pod, now: int): OperationMap
    requires op in ops && pod in ops[op].pods
  {
    ops[op := ops[op].(pods := ops[op].pods[pod := ops[op].pods[pod].(lastSeen := now)])]
  }

  lemma HeardKeeps(ch: ChannelMap, ops: OperationMap, h: History, op: Name, pod: Pod, now: int)
    requires StateOk(ch, ops, h) && op in ops && pod in ops[op].pods
    ensures StateOk(ch, Heard(ops, op, pod, now), WithLive(h, op, |ops[op].pods|))
  {
    hide StateOk, ValidOperation;
    OperationIsValid(ch, ops, h, op);
    HeardValid(ops[op], Heard(ops, op, pod, now)[op], pod, now);
    OperationKeeps(ch, ops, h, op, Heard(ops, op, pod, now)[op]);
  }

  lemma HeardValid(o: Operation, d: Operation, pod: Pod, now: int)
    requires ValidOperation(o) && pod in o.pods && d == o.(pods := o.pods[pod := o.pods[pod].(lastSeen := now)])
    ensures ValidOperation(d) && OwnersKept(o, d) && d.nextSlot == o.nextSlot && |d.pods| == |o.pods|
  {
    SlotsSame(o, d);
    assert d.pods.Keys == o.pods.Keys;
    assert |d.pods.Keys| == |o.pods.Keys|;
  }

  lemma RetiredReflexive(ops: OperationMap)
    ensures RetiredGrows(ops, ops)
  {
  }

  lemma ReportRetires(ops: OperationMap, heard: OperationMap, ch: ChannelMap, dps: OperationMap, dh: ChannelMap, eps: OperationMap,
                      now: int, op: Name, pod: Pod, e: int, answer: EpochAnswer)
    requires RetiredGrows(heard, dps) && op in ops && pod in ops[op].pods
    requires heard == Heard(ops, op, pod, now) && EpochRecorded(ch, dps, dh, eps, now, op, pod, e, answer)
    ensures RetiredGrows(ops, eps)
  {
    hide Reports, EveryPodFinished, BoundsDropNothing, FinishedAs, InputsReady;
    forall o ensures OpOf(ops, o).retired <= OpOf(eps, o).retired {
      assert OpOf(heard, o).retired == OpOf(ops, o).retired;
      assert OpOf(eps, o).retired == OpOf(dps, o).retired;
    }
  }

  lemma StaysUnlessReported(ch: ChannelMap, ops: OperationMap, dh: ChannelMap, dps: OperationMap, now: int, op: Name, pod: Pod, e: int, answer: EpochAnswer)
    requires EpochRecorded(ch, ops, dh, dps, now, op, pod, e, answer)
    ensures !(Reports(ch, ops, op, pod, e) && EveryPodFinished(OpOf(dps, op), now, e)) ==> dh == ch
  {
    hide Reports, EveryPodFinished, FinishedAs, BoundsDropNothing;
  }

  // --- records from outside -----------------------------------------------------------------------

  /** How the coordinator names the segments it holds: its own address, and an append id and an id for each group. */
  datatype Naming = Naming(holder: Host, producer: Pod, detail: Detail, names: seq<(AppendId, SegmentId)>)

  /** Records are routed as the channel says. */
  ghost predicate Routes(q: Grouping.Router, s: Spec) {
    q.mode == s.mode && q.partitions == s.partitions && forall k :: 0 <= q.hash(k) < q.partitions
  }

  /** The names are new to the channel. */
  ghost predicate NewNames(c: Channel, naming: Naming) {
    && (forall i | 0 <= i < |naming.names| :: naming.names[i].0 !in c.segs)
    && (forall i, b | 0 <= i < |naming.names| && b in c.all && b in c.segs && c.segs[b].meta.holder == naming.holder :: c.segs[b].meta.id != naming.names[i].1)
    && (forall i, j | 0 <= i < j < |naming.names| :: naming.names[i].0 != naming.names[j].0 && naming.names[i].1 != naming.names[j].1)
  }

  ghost function GroupOf(k: Grouping.Slot, n: nat, naming: Naming, i: nat): Announcement
    requires i < |naming.names|
  {
    Announcement(naming.names[i].0, naming.names[i].1, naming.holder, naming.producer, k.part, k.epoch, n, false, naming.detail)
  }

  /** One announcement for each group, in order. */
  method Announced(order: seq<Grouping.Slot>, made: map<Grouping.Slot, seq<Grouping.Outside>>, naming: Naming) returns (groups: seq<Announcement>)
    requires |order| <= |naming.names| && forall k | k in order :: k in made
    ensures |groups| == |order| && forall i | 0 <= i < |order| :: groups[i] == GroupOf(order[i], |made[order[i]]|, naming, i)
  {
    groups := [];
    for i := 0 to |order|
      invariant |groups| == i && forall j | 0 <= j < i :: groups[j] == GroupOf(order[j], |made[order[j]]|, naming, j)
    {
      var k := order[i];
      groups := groups
        + [Announcement(naming.names[i].0, naming.names[i].1, naming.holder, naming.producer, k.part, k.epoch, |made[k]|, false, naming.detail)];
    }
  }

  ghost function SlotOf(m: Announcement): Grouping.Slot {
    Grouping.Slot(m.part, m.epoch)
  }

  ghost function SlotsOf(groups: seq<Announcement>): seq<Grouping.Slot> {
    seq(|groups|, i requires 0 <= i < |groups| => SlotOf(groups[i]))
  }

  /** The groups of the records: each holds all records of its partition and epoch, in the order the first ones came. */
  ghost predicate Groups(q: Grouping.Router, turn: nat, recs: seq<Grouping.Outside>, naming: Naming, groups: seq<Announcement>)
    requires q.partitions > 0
  {
    && |groups| <= |naming.names|
    && (forall i | 0 <= i < |groups| :: groups[i] == GroupOf(SlotOf(groups[i]), |Grouping.In(q, turn, recs, SlotOf(groups[i]))|, naming, i))
    && (forall i, j | 0 <= i < j < |groups| ::
          Grouping.FirstAt(q, turn, recs, SlotOf(groups[i])) < Grouping.FirstAt(q, turn, recs, SlotOf(groups[j])))
    && forall k :: k in SlotsOf(groups) <==> Grouping.In(q, turn, recs, k) != []
  }

  lemma MadeGroups(q: Grouping.Router, turn: nat, recs: seq<Grouping.Outside>, order: seq<Grouping.Slot>,
                   made: map<Grouping.Slot, seq<Grouping.Outside>>, naming: Naming)
    requires q.partitions > 0 && |order| <= |naming.names|
    requires forall k :: k in order <==> k in made
    requires forall i, j | 0 <= i < j < |order| :: Grouping.FirstAt(q, turn, recs, order[i]) < Grouping.FirstAt(q, turn, recs, order[j])
    requires forall k :: k in made <==> Grouping.In(q, turn, recs, k) != []
    requires forall k | k in made :: made[k] == Grouping.In(q, turn, recs, k)
    ensures forall groups: seq<Announcement> | |groups| == |order| && (forall i | 0 <= i < |order| :: groups[i] == GroupOf(order[i], |made[order[i]]|, naming, i)) ::
      Groups(q, turn, recs, naming, groups)
  {
    hide Grouping.In, Grouping.FirstAt;
    forall groups: seq<Announcement> | |groups| == |order| && (forall i | 0 <= i < |order| :: groups[i] == GroupOf(order[i], |made[order[i]]|, naming, i))
      ensures Groups(q, turn, recs, naming, groups)
    {
      assert SlotsOf(groups) == order;
      assert forall i | 0 <= i < |groups| :: SlotOf(groups[i]) == order[i];
    }
  }

  lemma MadeNumbered(c: Channel, q: Grouping.Router, turn: nat, recs: seq<Grouping.Outside>, naming: Naming, groups: seq<Announcement>)
    requires Channels.Valid(c) && q.partitions > 0 && Groups(q, turn, recs, naming, groups) && Routes(q, c.spec) && NewNames(c, naming)
    ensures Numbered(c, groups)
  {
    hide Grouping.FirstAt;
    forall i | 0 <= i < |groups| ensures InRange(c, groups[i]) && groups[i].append !in c.segs && !KeyTaken(c, groups[i]) {
      var k := SlotOf(groups[i]);
      assert SlotsOf(groups)[i] == k && k in SlotsOf(groups);
      Grouping.InFrom(q, turn, recs);
      var r := Grouping.In(q, turn, recs, k)[0];
      assert r in Grouping.In(q, turn, recs, k);
      var j :| 0 <= j < |recs| && recs[j] == r && Grouping.SlotAt(q, turn, recs, j) == k;
    }
    forall i, j | 0 <= i < j < |groups| ensures groups[i].append != groups[j].append && !SameKey(groups[i], groups[j]) {
      assert groups[i].append == naming.names[i].0 && groups[j].append == naming.names[j].0;
      assert groups[i].id == naming.names[i].1 && groups[j].id == naming.names[j].1;
    }
  }

  /** The groups hold as many records as came. */
  lemma GroupsCount(q: Grouping.Router, turn: nat, recs: seq<Grouping.Outside>, naming: Naming, groups: seq<Announcement>)
    requires q.partitions > 0 && Groups(q, turn, recs, naming, groups)
    ensures RecordCount(groups) == |recs|
  {
    hide Grouping.In, Grouping.FirstAt;
    var order := SlotsOf(groups);
    assert forall i | 0 <= i < |groups| :: order[i] == SlotOf(groups[i]);
    Grouping.GroupsCover(q, turn, recs, order);
    Grouping.SizesAddUp(q, turn, recs, order);
    CountIsSize(q, turn, recs, groups);
  }

  lemma {:induction false} CountIsSize(q: Grouping.Router, turn: nat, recs: seq<Grouping.Outside>, groups: seq<Announcement>)
    requires q.partitions > 0 && forall i | 0 <= i < |groups| :: groups[i].records == |Grouping.In(q, turn, recs, SlotOf(groups[i]))|
    ensures RecordCount(groups) == Grouping.SizeOf(q, turn, recs, SlotsOf(groups))
  {
    hide Grouping.In;
    if groups != [] {
      var n := |groups| - 1;
      CountIsSize(q, turn, recs, groups[..n]);
      assert SlotsOf(groups)[..n] == SlotsOf(groups[..n]);
    }
  }

  /** The ids the coordinator numbers its own segments with are new, and partitions are computed, not asked for. */
  ghost predicate Numbered(c: Channel, groups: seq<Announcement>) {
    && (forall i | 0 <= i < |groups| :: InRange(c, groups[i]) && groups[i].append !in c.segs && !KeyTaken(c, groups[i]))
    && (forall i, j | 0 <= i < j < |groups| :: groups[i].append != groups[j].append && !SameKey(groups[i], groups[j]))
  }

  /** The segment is of an epoch that is over. */
  ghost predicate Behind(c: Channel, m: Announcement) {
    c.finite && m.epoch < c.epoch
  }

  method AnyBehind(c: Channel, groups: seq<Announcement>) returns (found: bool)
    ensures found <==> exists i :: 0 <= i < |groups| && Behind(c, groups[i])
  {
    for i := 0 to |groups|
      invariant forall j | 0 <= j < i :: !Behind(c, groups[j])
    {
      if c.finite && groups[i].epoch < c.epoch { return true; }
    }
    return false;
  }

  ghost function ProduceAnswer(ch: ChannelMap, name: Name, op: Option<Name>, groups: seq<Announcement>): Status {
    if name !in ch then NotFound
    else if !MayProduce(ch, name, op) then Forbidden
    else if ch[name].sealed then Conflict
    else if ch[name].spec.to.Some? && exists i :: 0 <= i < |groups| && Behind(ch[name], groups[i]) then BadRequest
    else Ok
  }

  function RecordCount(groups: seq<Announcement>): int {
    if groups == [] then 0 else RecordCount(groups[..|groups| - 1]) + groups[|groups| - 1].records
  }

  /** A channel without a consumer only counts its records. */
  function Appended(c: Channel, groups: seq<Announcement>): Channel {
    c.(produced := c.produced + RecordCount(groups))
  }

  lemma AppendedKeeps(c: Channel, groups: seq<Announcement>)
    requires Channels.Valid(c) && c.spec.to.None?
    ensures Channels.Valid(Appended(c, groups)) && Grows(c, Appended(c, groups)) && NoNewSegments(c, Appended(c, groups))
  {
    var d := Appended(c, groups);
    forall b | b in d.segs ensures Placed(d, b) && d.segs[b].meta.append == b { assert Placed(c, b); }
  }

  lemma StoredNext(c: Channel, groups: seq<Announcement>, m: Announcement)
    ensures StoredAll(c, groups + [m]) == Indexed(StoredAll(c, groups), m, true)
  {
    assert (groups + [m])[..|groups|] == groups;
  }

  /** Each group is written to the store, if there is one, and then indexed. */
  method StoreGroups(c: Channel, groups: seq<Announcement>, durable: bool) returns (d: Channel, k: nat)
    requires Channels.Valid(c) && Numbered(c, groups) && forall i | 0 <= i < |groups| :: !Behind(c, groups[i])
    ensures k <= |groups| && d == StoredAll(c, groups[..k]) && Channels.Valid(d) && Grows(c, d)
    ensures IndexedBehind(c, d, groups[..k], true) && d.overflowed == c.overflowed
    ensures !durable ==> k == |groups|
  {
    hide Channels.Valid, Grows, Indexed, StoredAll, IndexedBehind;
    d, k := c, 0;
    StoredNone(c);
    assert groups[..0] == [];
    while k < |groups|
      invariant k <= |groups| && d == StoredAll(c, groups[..k]) && Channels.Valid(d) && Grows(c, d)
      invariant IndexedBehind(c, d, groups[..k], true) && d.overflowed == c.overflowed && InOneOf(c, groups)
      invariant d.finite == c.finite && d.epoch == c.epoch
      invariant forall j | k <= j < |groups| :: InRange(d, groups[j]) && groups[j].append !in d.segs && !KeyTaken(d, groups[j])
    {
      var lost: bool := *;
      if durable && lost { return; }
      StoredNext(c, groups[..k], groups[k]);
      assert groups[..k + 1] == groups[..k] + [groups[k]];
      IndexedKeeps(d, groups[k], true);
      GrowsTransitive(c, d, Indexed(d, groups[k], true));
      forall j | k < j < |groups|
        ensures InRange(Indexed(d, groups[k], true), groups[j]) && groups[j].append !in Indexed(d, groups[k], true).segs
        ensures !KeyTaken(Indexed(d, groups[k], true), groups[j])
      {
        StillNumbered(d, groups[k], groups[j]);
      }
      ClockKept(d, groups[k]);
      IndexedBehindNext(c, d, groups[..k], groups[k], true);
      d := Indexed(d, groups[k], true);
      k := k + 1;
    }
  }

  /** Every group names a partition of the channel. */
  ghost predicate InOneOf(c: Channel, groups: seq<Announcement>) {
    forall i | 0 <= i < |groups| :: InRange(c, groups[i])
  }

  lemma StoredNone(c: Channel)
    requires Channels.Valid(c)
    ensures StoredAll(c, []) == c && Grows(c, c) && IndexedBehind(c, c, [], true)
  {
    NoneBehind(c, c.overflowed);
    assert c.(overflowed := c.overflowed) == c;
  }

  lemma ClockKept(c: Channel, m: Announcement)
    ensures Indexed(c, m, true).finite == c.finite && Indexed(c, m, true).epoch == c.epoch && Indexed(c, m, true).overflowed == c.overflowed
  {
  }

  lemma StillNumbered(c: Channel, m: Announcement, n: Announcement)
    requires InRange(c, n) && n.append !in c.segs && !KeyTaken(c, n) && m.append !in c.segs
    requires m.append != n.append && !SameKey(m, n)
    ensures InRange(Indexed(c, m, true), n) && n.append !in Indexed(c, m, true).segs && !KeyTaken(Indexed(c, m, true), n)
  {
    var d := Indexed(c, m, true);
    forall b | b in d.all && b in d.segs ensures !SameKey(d.segs[b].meta, n) {
      if b != m.append { assert b in c.all && b in c.segs; }
    }
  }

  // --- consuming ---------------------------------------------------------------------------------------

  ghost function ConsumeAnswer(ch: ChannelMap, ops: OperationMap, name: Name, op: Option<Name>, l: Lease): Status {
    if name !in ch then NotFound
    else if ch[name].spec.to.None? then BadRequest
    else if op.Some? && ch[name].spec.to != op then Forbidden
    else if !MayConsume(OpOf(ops, ch[name].spec.to.value), l) then Conflict
    else Ok
  }

  /** The state a consume response reports: `c` before the delivery and `d` after it. */
  ghost predicate Answers(c: Channel, d: Channel, resp: Delivery) {
    && resp.sealed == c.sealed && resp.epoch == c.epoch && resp.finiteEpochs == c.finite
    && resp.productionClosed == (c.epoch in c.productionClosed)
    && resp.drained == (c.sealed && IsQuiet(d))
    && resp.quiescent == (c.finite && c.epoch in c.productionClosed && IsQuiet(d))
  }

  /**
   What one consume request does: the consumer is heard from, silent pods expire
   and leave the channels `left`, the sweep runs, and then work is handed out of
   the settled channel `mid[n]` to the pods left in `eps`.
   */
  ghost predicate Served(ch: ChannelMap, ops: OperationMap, left: ChannelMap, mid: ChannelMap, eps: OperationMap, dh: ChannelMap, dps: OperationMap,
                         n: Name, l: Lease, max: nat, now: int, resp: Delivery) {
    && n in ch && ch[n].spec.to.Some? && PodsServed(ops, eps, dps, ch[n].spec.to.value, mid, n, l, now, resp.work)
    && AllMourned(ch, left, PodsOf(Silent(Joining(ops, ch[n].spec.to.value, l, now), now, None)))
    && AllOthersKeep(ch, left, Silent(Joining(ops, ch[n].spec.to.value, l, now), now, None)) && Swept(left, mid, eps)
    && NoNewWork(ch, dh) && RetiredGrows(ops, dps) && n in ch && Quietly(ch, mid) && n in mid && n in dh
    && Answers(mid[n], dh[n], resp) && Count(resp.work) <= max
    && GoodWork(dh[n], ConsumerOf(dps, dh[n].spec), l, resp.work)
    && (if mid[n].spec.materialized && !InputComplete(mid[n]) then resp.work == [] && dh == mid
        else TakenInOrder(mid[n], dh[n], OpOf(eps, ch[n].spec.to.value), l, max, now, resp.work))
    && (mid[n].spec.mode == Broadcast && (!mid[n].spec.materialized || InputComplete(mid[n])) && Count(resp.work) < max ==>
          HasEverything(dh[n], OpOf(dps, ch[n].spec.to.value), l) || ReaderWaits(dh[n], l, now))
  }

  /** What the request did to the pods: the consumer joined, the silent ones left, and partitions were given out. */
  ghost predicate PodsServed(ops: OperationMap, eps: OperationMap, dps: OperationMap, op: Name, mid: ChannelMap, n: Name,
                             l: Lease, now: int, work: seq<Work>) {
    && ExpiredExactly(Joining(ops, op, l, now), eps, Silent(Joining(ops, op, l, now), now, None))
    && n in mid && OpOf(dps, op) == AfterDelivery(OpOf(eps, op), mid[n], work)
    && forall o | o != op :: OpOf(dps, o) == OpOf(eps, o)
  }

  method Serve(ch: ChannelMap, ops: OperationMap, ghost h: History, now: int, n: Name, op: Name, l: Lease, max: nat)
    returns (dh: ChannelMap, dps: OperationMap, resp: Delivery, ghost g: History, ghost left: ChannelMap, ghost mid: ChannelMap, ghost eps: OperationMap)
    requires StateOk(ch, ops, h) && n in ch && ch[n].spec.to == Some(op) && MayConsume(OpOf(ops, op), l)
    ensures StateOk(dh, dps, g) && Served(ch, ops, left, mid, eps, dh, dps, n, l, max, now, resp)
    ensures g.confirmed == h.confirmed
  {
    hide Joining, ExpiredExactly, Silent, AllMourned, AllOthersKeep, AllSettled, SealsFinished, FinishedSealed, PodsOf, AfterDelivery, StateOk, NoNewWork, SameShape, Quietly, RetiredGrows, GoodWork, TakenInOrder, HasEverything, ReaderWaits, Record, InputComplete, MayConsume, Active, Channels.Valid, IsQuiet;
    var eh, fps;
    eh, fps, g, left := Prepare(ch, ops, h, now, n, op, l);
    eps := fps;
    QuietIsNoNewWork(ch, eh);
    QuietKind(ch, eh, n);
    mid := eh;
    var work;
    dh, dps, work, g := Deliver(eh, fps, g, n, op, l, max, now);
    DeliveredKind(eh, dh, n);
    NoNewWorkTransitive(ch, eh, dh);
    RetiredTransitive(ops, eps, dps);
    StateIsValid(dh, dps, g);
    var quiet := Quiet(dh[n]);
    var c := eh[n];
    var closed := c.epoch in c.productionClosed;
    resp := Delivery(c.sealed, c.epoch, c.finite, closed, work, c.sealed && quiet, c.finite && closed && quiet);
  }

  lemma ServedShape(ch: ChannelMap, ops: OperationMap, left: ChannelMap, mid: ChannelMap, eps: OperationMap, dh: ChannelMap, dps: OperationMap,
                    n: Name, l: Lease, max: nat, now: int, resp: Delivery)
    requires Served(ch, ops, left, mid, eps, dh, dps, n, l, max, now, resp)
    ensures SameShape(ch, dh) && NoNewWork(ch, dh) && n in dh && GoodWork(dh[n], ConsumerOf(dps, dh[n].spec), l, resp.work)
  {
    hide PodsServed, Swept, AllMourned, AllOthersKeep, GoodWork, TakenInOrder, HasEverything, ReaderWaits, InputComplete, Answers, Quietly;
  }

  lemma QuietKind(ch: ChannelMap, dh: ChannelMap, n: Name)
    requires Quietly(ch, dh) && n in ch
    ensures n in dh && dh[n].spec == ch[n].spec
  {
    assert QuietChange(ch[n], dh[n]);
  }

  lemma DeliveredKind(ch: ChannelMap, dh: ChannelMap, n: Name)
    requires NoNewWork(ch, dh) && n in ch
    ensures n in dh && dh[n].spec == ch[n].spec && SameShape(ch, dh)
  {
  }

  lemma RetiredTransitive(ops: OperationMap, dps: OperationMap, eps: OperationMap)
    requires RetiredGrows(ops, dps) && RetiredGrows(dps, eps)
    ensures RetiredGrows(ops, eps)
  {
    forall o ensures OpOf(ops, o).retired <= OpOf(eps, o).retired {
      assert OpOf(ops, o).retired <= OpOf(dps, o).retired;
    }
  }

  lemma NeverDeleted(ch: ChannelMap, handed: set<(Name, AppendId)>, n: Name, o: Operation, l: Lease, work: seq<Work>)
    requires HandedReleased(ch, handed) && n in ch && GoodWork(ch[n], o, l, work)
    ensures forall w, a | w in work && a in w.segments :: (n, a) !in handed
  {
    forall w, a | w in work && a in w.segments ensures (n, a) !in handed {
      assert GoodSegment(ch[n], o, l, w.partition, a);
    }
  }

  /** The bytes of none of this work were deleted by a replacement coordinator. */
  ghost predicate NothingErased(c: Channel, erased: set<SegmentId>, work: seq<Work>) {
    forall w, a | w in work && a in w.segments :: a in c.segs && c.segs[a].meta.id !in erased
  }

  lemma NeverErased(ch: ChannelMap, erased: set<SegmentId>, n: Name, o: Operation, l: Lease, work: seq<Work>)
    requires AllReleased(ch, erased) && n in ch && GoodWork(ch[n], o, l, work)
    ensures NothingErased(ch[n], erased, work)
  {
    forall w, a | w in work && a in w.segments ensures a in ch[n].segs && ch[n].segs[a].meta.id !in erased {
      assert GoodSegment(ch[n], o, l, w.partition, a);
    }
  }

  // --- deleting ------------------------------------------------------------------------------------------

  /** A released segment of the pod whose bytes only the pod has. */
  ghost predicate MayForget(c: Channel, pod: Pod, a: AppendId) {
    !c.spec.retained && a in c.all && a in c.segs && c.segs[a].meta.producer == pod && c.segs[a].released && !c.segs[a].external
  }

  ghost function ForgottenBy(c: Channel, pod: Pod): set<AppendId> {
    set a | a in c.all && MayForget(c, pod, a)
  }

  lemma DeletableAre(ch: ChannelMap, pod: Pod)
    ensures forall n, a | (n, a) in Deletable(ch, pod) ::
      && n in ch && a in ch[n].segs
      && ch[n].segs[a].meta.producer == pod && ch[n].segs[a].released && !ch[n].segs[a].external && !ch[n].spec.retained
  {
  }

  ghost function Deletable(ch: ChannelMap, pod: Pod): set<(Name, AppendId)> {
    set n, a | n in ch && a in ForgottenBy(ch[n], pod) :: (n, a)
  }

  ghost function WithoutForgotten(c: Channel, pod: Pod): Channel {
    c.(all := c.all - ForgottenBy(c, pod))
  }

  ghost function Forgetting(ch: ChannelMap, pod: Pod): ChannelMap {
    map n | n in ch :: WithoutForgotten(ch[n], pod)
  }

  ghost function IdsOf(ch: ChannelMap, out: set<(Name, AppendId)>): set<SegmentId> {
    set v | v in out && v.0 in ch && v.1 in ch[v.0].segs :: ch[v.0].segs[v.1].meta.id
  }

  /** One channel forgets what the pod may delete. */
  method ForgetOn(c: Channel, pod: Pod) returns (d: Channel, gone: set<AppendId>, ids: set<SegmentId>)
    requires Channels.Valid(c)
    ensures QuietChange(c, d) && d == WithoutForgotten(c, pod) && gone == ForgottenBy(c, pod)
    ensures ids == set a | a in gone && a in c.segs :: c.segs[a].meta.id
  {
    hide Channels.Valid, CalmBut, QuietChange;
    CalmReflexive(c, {});
    d, gone, ids := c, {}, {};
    var rest := c.all;
    AllInSegs(c);
    while rest != {}
      invariant rest <= c.all && gone <= c.all - rest && CalmBut(c, d, {}) && Channels.Valid(d)
      invariant gone == set a | a in c.all - rest && MayForget(c, pod, a)
      invariant d == c.(all := c.all - gone) && ReadersKept(c, d)
      invariant ids == set a | a in gone && a in c.segs :: c.segs[a].meta.id
      decreases rest
    {
      var a :| a in rest;
      rest := rest - {a};
      var s := c.segs[a];
      if !c.spec.retained && s.meta.producer == pod && s.released && !s.external {
        ForgottenKeeps(d, a);
        CalmTransitive(c, d, Forgotten(d, a), {});
        CalmValid(c, Forgotten(d, a));
        ghost var gone0 := gone;
        gone := gone + {a};
        ids := ids + {c.segs[a].meta.id};
        d := Forgotten(d, a);
        assert c.all - gone == c.all - gone0 - {a};
      }
    }
    assert gone == ForgottenBy(c, pod);
    CalmIsQuiet(c, d);
  }

  lemma CalmValid(c: Channel, d: Channel)
    requires CalmBut(c, d, {})
    ensures Channels.Valid(d)
  {
  }

  /** Every channel forgets what the pod may delete. */
  method ForgetReleased(ch: ChannelMap, pod: Pod) returns (dh: ChannelMap, out: set<(Name, AppendId)>, ids: set<SegmentId>)
    requires ChannelsValid(ch)
    ensures Quietly(ch, dh) && dh == Forgetting(ch, pod) && out == Deletable(ch, pod) && ids == IdsOf(ch, out)
  {
    hide Channels.Valid, QuietChange, WithoutForgotten, ForgottenBy;
    dh, out, ids := map[], {}, {};
    var rest := ch.Keys;
    while rest != {}
      invariant rest <= ch.Keys && dh.Keys == ch.Keys - rest
      invariant forall n | n in dh :: QuietChange(ch[n], dh[n]) && dh[n] == WithoutForgotten(ch[n], pod)
      invariant out == set n, a | n in ch.Keys - rest && a in ForgottenBy(ch[n], pod) :: (n, a)
      invariant ids == IdsOf(ch, out)
      decreases rest
    {
      var n :| n in rest;
      ghost var done := ch.Keys - rest;
      rest := rest - {n};
      assert ch.Keys - rest == done + {n};
      assert Channels.Valid(ch[n]);
      var d, gone, here := ForgetOn(ch[n], pod);
      IdsNext(ch, out, n, gone, here);
      dh := dh[n := d];
      out := out + set a | a in gone :: (n, a);
      ids := ids + here;
    }
  }

  lemma IdsNext(ch: ChannelMap, out: set<(Name, AppendId)>, n: Name, gone: set<AppendId>, here: set<SegmentId>)
    requires n in ch && here == set a | a in gone && a in ch[n].segs :: ch[n].segs[a].meta.id
    ensures IdsOf(ch, out + set a | a in gone :: (n, a)) == IdsOf(ch, out) + here
  {
    var more := set a | a in gone :: (n, a);
    forall i | i in IdsOf(ch, out) + here ensures i in IdsOf(ch, out + more) {
      if i in here {
        var a :| a in gone && a in ch[n].segs && ch[n].segs[a].meta.id == i;
        assert (n, a) in more;
        assert (n, a) in out + more && (n, a).0 in ch;
      } else {
        var v :| v in out && v.0 in ch && v.1 in ch[v.0].segs && ch[v.0].segs[v.1].meta.id == i;
        assert v in out + more;
      }
    }
  }

  lemma ForgettingFacts(ch: ChannelMap, pod: Pod)
    ensures HandedReleased(Forgetting(ch, pod), Deletable(ch, pod))
  {
  }

  lemma TombstonesGrow(ch: ChannelMap, pod: Pod, ids: set<SegmentId>)
    requires OnlyReleased(Forgetting(ch, pod), ids)
    ensures OnlyReleased(Forgetting(ch, pod), ids + IdsOf(ch, Deletable(ch, pod)))
  {
    var dh := Forgetting(ch, pod);
    forall i | i in IdsOf(ch, Deletable(ch, pod))
      ensures exists n, a :: n in dh && a in dh[n].segs && dh[n].segs[a].meta.id == i && dh[n].segs[a].released
    {
      var v :| v in Deletable(ch, pod) && v.0 in ch && v.1 in ch[v.0].segs && ch[v.0].segs[v.1].meta.id == i;
      assert dh[v.0].segs[v.1].released;
    }
  }

  /** What the pod may delete leaves the index; its ids join the tombstones. */
  method Bury(ch: ChannelMap, ops: OperationMap, ghost h: History, pod: Pod, ghost tombstones: set<SegmentId>)
    returns (dh: ChannelMap, removed: set<(Name, AppendId)>, ids: set<SegmentId>)
    requires StateOk(ch, ops, h) && OnlyReleased(ch, tombstones)
    ensures StateOk(dh, ops, h) && SameShape(ch, dh) && NoNewWork(ch, dh)
    ensures dh == Forgetting(ch, pod) && removed == Deletable(ch, pod)
    ensures ids == IdsOf(ch, removed) && HandedReleased(dh, removed) && OnlyReleased(dh, tombstones + ids)
  {
    hide StateOk, HandedReleased, OnlyReleased, SameShape, Quietly, Deletable, Forgetting, IdsOf;
    StateIsValid(ch, ops, h);
    dh, removed, ids := ForgetReleased(ch, pod);
    QuietIsNoNewWork(ch, dh);
    QuietlyKeeps(ch, dh, ops, h);
    ForgettingFacts(ch, pod);
    ReleasedStays(ch, dh, {}, tombstones) by { NothingHanded(ch); }
    TombstonesGrow(ch, pod, tombstones);
  }

  lemma TombstonesShrink(ch: ChannelMap, ids: set<SegmentId>, less: set<SegmentId>)
    requires OnlyReleased(ch, ids) && less <= ids
    ensures OnlyReleased(ch, less)
  {
  }

  lemma HandedUnion(ch: ChannelMap, handed: set<(Name, AppendId)>, more: set<(Name, AppendId)>)
    requires HandedReleased(ch, handed) && HandedReleased(ch, more)
    ensures HandedReleased(ch, handed + more)
  {
  }

  lemma RoundTripHere(p: Persisted, ch: ChannelMap, ops: OperationMap, h: History)
    requires StoresAll(p, ch, ops) && StateOk(ch, ops, h)
    ensures RestoredAll(p) == ch && p.ops == ops
  {
    hide StateOk, StoresAll;
    StateIsValid(ch, ops, h);
    RoundTrip(p, ch, ops);
  }

  lemma OnlyReleasedUnion(ch: ChannelMap, ids: set<SegmentId>, more: set<SegmentId>)
    requires OnlyReleased(ch, ids) && OnlyReleased(ch, more)
    ensures OnlyReleased(ch, ids + more)
  {
  }

  lemma NothingStored(h: History, handed: set<(Name, AppendId)>, erased: set<SegmentId>, apart: bool)
    requires CommittedOk(None, h, handed, erased, apart)
    ensures handed == {} && erased == {}
  {
  }

  lemma NothingReleased(ids: set<SegmentId>, erased: set<SegmentId>)
    ensures AllReleased(map[], ids) && AllReleased(map[], erased) && NoClash(map[], {})
  {
  }

  lemma NothingHanded(ch: ChannelMap)
    ensures HandedReleased(ch, {}) && OnlyReleased(ch, {})
  {
  }
}
