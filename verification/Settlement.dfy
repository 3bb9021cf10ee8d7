/**
 The sweep after every change: Broadcast segments that every replica took are
 released, and asynchronous loops that can produce nothing more are sealed.
 */
module Settlement {
  import opened Topology
  import Graph
  import opened Channels
  import opened Deliveries
  import opened ChannelOps
  import opened Operations
  import opened States
  import opened Termination
  import opened Expiry

  /** A Broadcast segment has as many acknowledgements as replicas were published, and at least as many as there are live pods. */
  ghost predicate TakenByAll(s: Segment, o: Operation) {
    (o.replicas > 0 || |o.pods| > 0) && |s.acked| >= o.replicas && |s.acked| >= |o.pods|
  }

  /** Settling touches a segment only to release it. */
  ghost predicate OnlyReleases(c: Channel, d: Channel) {
    && d.held == c.held && d.inflight == c.inflight && d.cursor == c.cursor && d.queues == c.queues && d.log == c.log
    && d.segs.Keys == c.segs.Keys
    && forall a | a in c.segs :: d.segs[a] == c.segs[a].(released := d.segs[a].released, external := d.segs[a].external)
  }

  /** What settling does to one channel: Broadcast segments every replica took are released, a finished loop is sealed. */
  ghost predicate SettledFrom(c: Channel, d: Channel, o: Operation) {
    && QuietChange(c, d) && OnlyReleases(c, d)
    && (forall a | a in c.segs && !c.segs[a].released && d.segs[a].released ::
          c.spec.IsBroadcast() && c.spec.to.Some? && TakenByAll(c.segs[a], o))
    && (c.spec.IsBroadcast() && c.spec.to.Some? ==>
          forall a | a in c.all && a in c.segs && TakenByAll(c.segs[a], o) :: d.segs[a].released)
    && (d.sealed != c.sealed ==> c.spec.IsAsynchronous())
    && (IsQuiet(c) ==> IsQuiet(d))
  }

  lemma ReleasedIsQuieter(c: Channel, d: Channel, o: Operation, want: int)
    requires want == (if o.replicas < |o.pods| then |o.pods| else o.replicas)
    requires CalmBut(c, d, {}) && ReleasedExactly(c, d, c.all, want) && c.spec.IsBroadcast() && c.spec.to.Some?
    requires d.cursor == c.cursor && d.log == c.log && d.inflight == c.inflight && d.held == c.held && d.queues == c.queues && ReadersKept(c, d)
    ensures SettledFrom(c, d, o)
  {
    hide Channels.Valid, QuietChange, CalmBut, TakenByAll;
    CalmIsQuiet(c, d);
    TakenExactly(o, want);
    ReleasedMeans(c, d, want);
    if NothingPending(c) {
      forall i | 0 <= i < |c.log| && NoWork(c, c.log[i]) ensures NoWork(d, d.log[i]) {}
    }
  }

  lemma TakenExactly(o: Operation, want: int)
    requires want == (if o.replicas < |o.pods| then |o.pods| else o.replicas)
    ensures forall s :: EveryReplica(s, want) <==> TakenByAll(s, o)
  {
  }

  lemma ReleasedMeans(c: Channel, d: Channel, want: int)
    requires CalmBut(c, d, {}) && ReleasedExactly(c, d, c.all, want)
    ensures d.spec == c.spec && d.sealed == c.sealed && d.segs.Keys == c.segs.Keys
    ensures forall a | a in c.segs :: d.segs[a] == c.segs[a].(released := d.segs[a].released, external := d.segs[a].external)
    ensures forall a | a in c.segs && c.segs[a].released :: d.segs[a].released
  {
    hide Channels.Valid;
  }

  /** A Broadcast channel after every fully acknowledged segment was released. */
  method ReleaseTaken(c: Channel, o: Operation) returns (d: Channel)
    requires Channels.Valid(c)
    ensures SettledFrom(c, d, o) && d.sealed == c.sealed
    ensures !c.spec.IsBroadcast() ==> d == c
  {
    hide Channels.Valid, SettledFrom, ReleasedExactly;
    d := c;
    if c.spec.IsBroadcast() && c.spec.to.Some? {
      var want := o.replicas;
      if want < |o.pods| { want := |o.pods|; }
      d := ReleaseBroadcast(c, want);
      ReleasedIsQuieter(c, d, o, want);
    } else {
      SettledReflexive(c, o);
    }
  }

  lemma SettledReflexive(c: Channel, o: Operation)
    requires Channels.Valid(c) && !(c.spec.IsBroadcast() && c.spec.to.Some?)
    ensures SettledFrom(c, c, o)
  {
    QuietReflexive(c);
  }

  lemma SealedSettles(c: Channel, d: Channel, o: Operation)
    requires SettledFrom(c, d, o) && c.spec.IsAsynchronous() && d.spec == c.spec
    ensures SettledFrom(c, Sealed(d), o) && Sealed(d).sealed && Calmer(d, Sealed(d))
  {
    hide IsQuiet;
    SealedKeeps(d);
    GrowsTransitive(c, d, Sealed(d));
    SealedSame(d);
  }

  lemma SealedSame(d: Channel)
    requires Channels.Valid(d) && d.spec.IsAsynchronous()
    ensures Sealed(d).segs == d.segs && (IsQuiet(d) <==> IsQuiet(Sealed(d)))
  {
    hide Channels.Valid;
    var e := Sealed(d);
    forall a | a in d.segs ensures e.segs[a] == d.segs[a] {}
    assert QueuedIds(e) == QueuedIds(d);
  }

  /** Whatever was done about the channel stays done. */
  ghost predicate Calmer(c: Channel, d: Channel) {
    d.spec == c.spec && (c.sealed ==> d.sealed) && (IsQuiet(c) ==> IsQuiet(d)) && (HoldsNothing(c) ==> HoldsNothing(d))
  }

  ghost predicate AllCalmer(ch: ChannelMap, dh: ChannelMap) {
    ch.Keys == dh.Keys && forall n | n in ch :: Calmer(ch[n], dh[n])
  }

  lemma SettledIsCalmer(c: Channel, d: Channel, o: Operation)
    requires SettledFrom(c, d, o)
    ensures Calmer(c, d) && Channels.Valid(d) && d.spec == c.spec
  {
    hide IsQuiet, Channels.Valid;
  }

  /** The channel ends on the loop that a feedback channel closes. */
  method LoopEnds(specs: set<Spec>, s: Spec) returns (ends: set<Option<Name>>)
    ensures forall x :: x in ends <==> OnLoopEnd(specs, s, x)
  {
    ends := {s.from, s.to};
    if s.from.Some? && s.to.Some? {
      var members := Graph.CycleMembers(specs, s.from.value, s.to.value);
      ends := ends + set m | m in members :: Some(m);
    }
  }

  /** Whether every input of the loop is done, looking at one channel after the other. */
  method LoopInputsDone(ch: ChannelMap, n: Name) returns (done: bool)
    requires ChannelsValid(ch) && n in ch
    ensures done <==> LoopFinished(ch, n)
  {
    hide Channels.Valid, IsQuiet, HoldsNothing, OnLoopEnd;
    var specs := set m | m in ch :: ch[m].spec;
    var s := ch[n].spec;
    var ends := LoopEnds(specs, s);
    done := true;
    var rest := ch.Keys;
    while rest != {}
      invariant rest <= ch.Keys
      invariant done <==> forall m | m in ch && m !in rest && m != n && OnLoopEnd(specs, s, ch[m].spec.to) :: InputDone(specs, s, ch[m])
      decreases rest
    {
      var m :| m in rest;
      rest := rest - {m};
      if m != n && ch[m].spec.to in ends {
        assert Channels.Valid(ch[m]);
        var quiet := Quiet(ch[m]);
        var empty := HeldEmpty(ch[m]);
        if ch[m].spec.from in ends {
          if ch[m].spec.feedback.None? && !quiet { done := false; }
        } else if !ch[m].sealed || !quiet || !empty {
          done := false;
        }
      }
    }
    assert Channels.Valid(ch[n]);
    var quiet := Quiet(ch[n]);
    done := done && quiet;
  }

  method HeldEmpty(c: Channel) returns (empty: bool)
    requires Channels.Valid(c)
    ensures empty <==> HoldsNothing(c)
  {
    var n: nat := 0;
    for i := 0 to |c.held|
      invariant n == 0 <==> forall j | 0 <= j < i :: c.held[j] in c.segs ==> c.segs[c.held[j]].meta.records == 0
    {
      assert c.held[i] in c.held;
      n := n + c.segs[c.held[i]].meta.records;
    }
    empty := n == 0;
  }

  lemma FinishedStays(ch: ChannelMap, dh: ChannelMap, n: Name)
    requires AllCalmer(ch, dh) && n in ch && LoopFinished(ch, n)
    ensures LoopFinished(dh, n)
  {
    hide IsQuiet, HoldsNothing, OnLoopEnd;
    forall m | m in ch ensures Calmer(ch[m], dh[m]) {}
    SpecsSame(ch, dh);
  }

  lemma SpecsSame(ch: ChannelMap, dh: ChannelMap)
    requires ch.Keys == dh.Keys && forall m | m in ch :: dh[m].spec == ch[m].spec
    ensures Specs(dh) == Specs(ch)
  {
    forall s | s in Specs(ch) ensures s in Specs(dh) {
      var m :| m in ch && s == ch[m].spec;
      assert m in dh && s == dh[m].spec;
    }
    forall s | s in Specs(dh) ensures s in Specs(ch) {
      var m :| m in dh && s == dh[m].spec;
      assert m in ch && s == ch[m].spec;
    }
  }

  /** The channels not in `rest` are settled, the others untouched. */
  ghost predicate Settling(ch: ChannelMap, dh: ChannelMap, ops: OperationMap, rest: set<Name>) {
    && ch.Keys == dh.Keys
    && forall n | n in ch ::
         if n in rest then dh[n] == ch[n] else SettledFrom(ch[n], dh[n], ConsumerOf(ops, ch[n].spec))
  }

  ghost predicate AllSettled(ch: ChannelMap, dh: ChannelMap, ops: OperationMap) {
    ch.Keys == dh.Keys && forall n | n in ch :: SettledFrom(ch[n], dh[n], ConsumerOf(ops, ch[n].spec))
  }

  /** Only loops that had finished were sealed. */
  ghost predicate SealsFinished(ch: ChannelMap, dh: ChannelMap) {
    ch.Keys == dh.Keys && forall n | n in ch && !ch[n].sealed && dh[n].sealed :: ch[n].spec.IsAsynchronous() && LoopFinished(dh, n)
  }

  /** Every asynchronous loop that had finished is sealed. */
  ghost predicate FinishedSealed(ch: ChannelMap, dh: ChannelMap, rest: set<Name>) {
    ch.Keys == dh.Keys && forall n | n in ch && n !in rest && ch[n].spec.IsAsynchronous() && LoopFinished(ch, n) :: dh[n].sealed
  }

  lemma SettleStep(ch: ChannelMap, dh: ChannelMap, ops: OperationMap, rest: set<Name>, n: Name, d: Channel)
    requires ChannelsValid(ch) && ChannelsValid(dh) && Settling(ch, dh, ops, rest) && AllCalmer(ch, dh)
    requires n in rest && n in ch && SettledFrom(ch[n], d, ConsumerOf(ops, ch[n].spec))
    ensures Settling(ch, dh[n := d], ops, rest - {n}) && ChannelsValid(dh[n := d])
    ensures AllCalmer(ch, dh[n := d]) && AllCalmer(dh, dh[n := d])
  {
    hide SettledFrom, IsQuiet, HoldsNothing, Channels.Valid;
    SettledIsCalmer(ch[n], d, ConsumerOf(ops, ch[n].spec));
  }

  lemma SealsKept(ch: ChannelMap, dh: ChannelMap, eh: ChannelMap, n: Name)
    requires SealsFinished(ch, dh) && AllCalmer(dh, eh) && n in ch && eh.Keys == ch.Keys
    requires forall m | m in ch && m != n :: eh[m].sealed == dh[m].sealed
    requires eh[n].sealed == dh[n].sealed || (ch[n].spec.IsAsynchronous() && LoopFinished(eh, n))
    ensures SealsFinished(ch, eh)
  {
    hide LoopFinished, Calmer;
    forall m | m in ch && LoopFinished(dh, m) ensures LoopFinished(eh, m) { FinishedStays(dh, eh, m); }
  }

  lemma SealsGrow(ch: ChannelMap, dh: ChannelMap, eh: ChannelMap, rest: set<Name>, n: Name)
    requires FinishedSealed(ch, dh, rest) && AllCalmer(dh, eh) && n in ch
    requires ch[n].spec.IsAsynchronous() && LoopFinished(ch, n) ==> eh[n].sealed
    ensures FinishedSealed(ch, eh, rest - {n})
  {
    hide LoopFinished, IsQuiet, HoldsNothing;
    forall m | m in ch && dh[m].sealed ensures eh[m].sealed { assert Calmer(dh[m], eh[m]); }
  }

  lemma CalmerReflexive(ch: ChannelMap, ops: OperationMap)
    ensures AllCalmer(ch, ch) && SealsFinished(ch, ch) && Settling(ch, ch, ops, ch.Keys) && FinishedSealed(ch, ch, ch.Keys)
  {
    hide LoopFinished, IsQuiet, HoldsNothing;
  }

  lemma SettlingDone(ch: ChannelMap, dh: ChannelMap, ops: OperationMap)
    requires Settling(ch, dh, ops, {})
    ensures AllSettled(ch, dh, ops) && Quietly(ch, dh)
  {
    hide QuietChange, IsQuiet, OnlyReleases;
    forall n | n in ch ensures SettledFrom(ch[n], dh[n], ConsumerOf(ops, ch[n].spec)) {}
  }

  /**
   Releases what every replica took and seals the asynchronous loops that can
   produce nothing more, looking at one channel after the other.
   */
  method Settle(ch: ChannelMap, ops: OperationMap, ghost h: History) returns (dh: ChannelMap)
    requires StateOk(ch, ops, h)
    ensures StateOk(dh, ops, h) && Quietly(ch, dh) && AllSettled(ch, dh, ops)
    ensures SealsFinished(ch, dh) && FinishedSealed(ch, dh, {})
  {
    hide StateOk, Settling, SettledFrom, AllCalmer, SealsFinished, FinishedSealed, LoopFinished, ChannelsValid, Quietly, AllSettled, Sealed;
    StateIsValid(ch, ops, h);
    CalmerReflexive(ch, ops);
    dh := ch;
    var rest := ch.Keys;
    while rest != {}
      invariant rest <= ch.Keys && dh.Keys == ch.Keys && ChannelsValid(dh)
      invariant Settling(ch, dh, ops, rest) && AllCalmer(ch, dh) && SealsFinished(ch, dh) && FinishedSealed(ch, dh, rest)
      decreases rest
    {
      var n :| n in rest;
      dh := SettleOne(ch, dh, ops, rest, n);
      rest := rest - {n};
    }
    SettlingDone(ch, dh, ops);
    QuietlyKeeps(ch, dh, ops, h);
  }

  lemma Untouched(ch: ChannelMap, dh: ChannelMap, ops: OperationMap, rest: set<Name>, n: Name)
    requires Settling(ch, dh, ops, rest) && n in rest && n in ch && ChannelsValid(dh)
    ensures n in dh && dh[n] == ch[n] && Channels.Valid(dh[n])
  {
  }

  lemma SettledKind(c: Channel, d: Channel, o: Operation)
    requires SettledFrom(c, d, o)
    ensures d.spec == c.spec && Channels.Valid(d)
  {
    hide IsQuiet;
  }

  /** One channel of the sweep. */
  method SettleOne(ch: ChannelMap, dh: ChannelMap, ops: OperationMap, ghost rest: set<Name>, n: Name) returns (eh: ChannelMap)
    requires ChannelsValid(ch) && ChannelsValid(dh) && ch.Keys == dh.Keys && n in rest && n in ch
    requires Settling(ch, dh, ops, rest) && AllCalmer(ch, dh) && SealsFinished(ch, dh) && FinishedSealed(ch, dh, rest)
    ensures eh.Keys == dh.Keys && ChannelsValid(eh)
    ensures Settling(ch, eh, ops, rest - {n}) && AllCalmer(ch, eh) && SealsFinished(ch, eh) && FinishedSealed(ch, eh, rest - {n})
  {
    hide Settling, SettledFrom, AllCalmer, SealsFinished, FinishedSealed, LoopFinished, ChannelsValid, Channels.Valid, Sealed, Calmer;
    Untouched(ch, dh, ops, rest, n);
    var o := ConsumerOf(ops, dh[n].spec);
    var d := ReleaseTaken(dh[n], o);
    SettledKind(dh[n], d, o);
    SettleStep(ch, dh, ops, rest, n, d);
    eh := dh[n := d];
    if !d.sealed && d.spec.IsAsynchronous() {
      var done := LoopInputsDone(eh, n);
      if done {
        SealedSettles(dh[n], d, o);
        SettleStep(ch, dh, ops, rest, n, Sealed(d));
        SealedLoopStays(dh[n := d], n, d);
        var complete := SealUp(d);
        eh := dh[n := complete];
        assert dh[n := d][n := Sealed(d)] == eh;
      } else if LoopFinished(ch, n) {
        FinishedStays(ch, eh, n);
      }
    }
    SealsKept(ch, dh, eh, n);
    SealsGrow(ch, dh, eh, rest, n);
  }

  lemma SealedLoopStays(mid: ChannelMap, n: Name, d: Channel)
    requires n in mid && mid[n] == d && LoopFinished(mid, n) && Calmer(d, Sealed(d))
    ensures LoopFinished(mid[n := Sealed(d)], n)
  {
    hide LoopFinished, Sealed, IsQuiet, HoldsNothing;
    FinishedStays(mid, mid[n := Sealed(d)], n);
  }
}
