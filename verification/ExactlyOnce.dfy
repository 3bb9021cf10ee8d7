/**
 The checkpointing worker. It commits its state, the inputs that state covers
 and the outputs they produced in one manifest, publishes the outputs only
 afterwards, and acknowledges the inputs last. Processes may stop at any point,
 and replaced processes may go on running.
 */
module ExactlyOnce {
  import opened Topology
  import Checkpoints

  type Input(==, 0, !new)
  type State(==, 0, !new)
  type Body(==, 0, !new)

  /** The user's program: what one input segment does to the state and what it emits. */
  datatype Handlers = Handlers(
    init: State,
    apply: (State, Input) -> State,
    emit: (State, Input) -> seq<Body>,
    drain: State -> State,
    drainEmit: State -> seq<Body>)

  /** An output segment: its identity is made once, by the process that wrote it. */
  datatype Output = Output(id: nat, body: Body)

  datatype StateKey = StateKey(boundary: nat, process: nat)

  datatype Manifest = Manifest(boundary: nat, complete: bool, key: StateKey, inputs: seq<Input>, outputs: seq<Output>)

  /** One write of the fenced checkpoint object. */
  datatype Entry = Entry(handle: nat, claim: bool, manifest: Option<Manifest>)

  // --- the meaning of a manifest ------------------------------------------------------------

  ghost function Fold(h: Handlers, inputs: seq<Input>): State {
    if inputs == [] then h.init else h.apply(Fold(h, inputs[..|inputs| - 1]), inputs[|inputs| - 1])
  }

  ghost function Emitted(h: Handlers, inputs: seq<Input>): seq<Body> {
    if inputs == [] then []
    else Emitted(h, inputs[..|inputs| - 1]) + h.emit(Fold(h, inputs[..|inputs| - 1]), inputs[|inputs| - 1])
  }

  ghost function StateAt(h: Handlers, inputs: seq<Input>, complete: bool): State {
    if complete then h.drain(Fold(h, inputs)) else Fold(h, inputs)
  }

  ghost function EmittedAt(h: Handlers, inputs: seq<Input>, complete: bool): seq<Body> {
    Emitted(h, inputs) + (if complete then h.drainEmit(Fold(h, inputs)) else [])
  }

  ghost function Bodies(outputs: seq<Output>): seq<Body> {
    seq(|outputs|, i requires 0 <= i < |outputs| => outputs[i].body)
  }

  ghost predicate Distinct<T(!new)>(s: seq<T>) {
    forall i, j | 0 <= i < j < |s| :: s[i] != s[j]
  }

  ghost predicate IdsBelow(outputs: seq<Output>, n: nat) {
    && (forall i | 0 <= i < |outputs| :: outputs[i].id < n)
    && (forall i, j | 0 <= i < j < |outputs| :: outputs[i].id != outputs[j].id)
  }

  /** The stored state is every covered input applied once, in order; the outputs are what they emitted. */
  ghost predicate Good(h: Handlers, objects: map<StateKey, State>, ids: nat, m: Manifest) {
    && Distinct(m.inputs) && IdsBelow(m.outputs, ids)
    && m.key in objects && objects[m.key] == StateAt(h, m.inputs, m.complete)
    && Bodies(m.outputs) == EmittedAt(h, m.inputs, m.complete)
  }

  function InputsOf(m: Option<Manifest>): seq<Input> {
    if m.Some? then m.value.inputs else []
  }

  function OutputsOf(m: Option<Manifest>): seq<Output> {
    if m.Some? then m.value.outputs else []
  }

  predicate IsComplete(m: Option<Manifest>) {
    m.Some? && m.value.complete
  }

  /** A later manifest covers all that an earlier one covered, and a complete one is the last. */
  ghost predicate Covers(later: Option<Manifest>, earlier: Option<Manifest>) {
    && InputsOf(earlier) <= InputsOf(later) && OutputsOf(earlier) <= OutputsOf(later)
    && (IsComplete(earlier) ==> later == earlier)
  }

  lemma CoversTransitive(c: Option<Manifest>, b: Option<Manifest>, a: Option<Manifest>)
    requires Covers(c, b) && Covers(b, a)
    ensures Covers(c, a)
  {
  }

  // --- the history of the checkpoint -------------------------------------------------------------

  ghost predicate Follows(log: seq<Entry>, i: nat)
    requires i < |log|
  {
    if log[i].claim then
      && (forall j | 0 <= j < i :: log[j].handle != log[i].handle)
      && log[i].manifest == (if i == 0 then None else log[i - 1].manifest)
    else
      i > 0 && log[i - 1].handle == log[i].handle && Covers(log[i].manifest, log[i - 1].manifest)
  }

  ghost predicate IsHistory(log: seq<Entry>) {
    forall i: nat | i < |log| :: Follows(log, i)
  }

  ghost predicate AllGood(h: Handlers, objects: map<StateKey, State>, ids: nat, log: seq<Entry>) {
    forall i: nat | i < |log| && log[i].manifest.Some? :: Good(h, objects, ids, log[i].manifest.value)
  }

  function Current(log: seq<Entry>): Option<Manifest> {
    if log == [] then None else log[|log| - 1].manifest
  }

  /** What a worker sees of the stored checkpoints: the manifests their states are. */
  ghost function Seen(log: seq<Checkpoints.Entry>, read: Checkpoints.Body -> Manifest): seq<Entry> {
    seq(|log|, i requires 0 <= i < |log| => Entry(log[i].handle, log[i].claim, ReadState(log[i].value, read)))
  }

  function ReadState(cp: Checkpoints.Checkpoint, read: Checkpoints.Body -> Manifest): Option<Manifest> {
    if cp.state.Some? then Some(read(cp.state.value)) else None
  }

  /** The history of the fenced store is one of the world below, as long as each commit extends what it replaces. */
  lemma StoreHistoryIsHistory(log: seq<Checkpoints.Entry>, read: Checkpoints.Body -> Manifest)
    requires Checkpoints.IsHistory(log)
    requires forall i | 0 < i < |log| && !log[i].claim :: Covers(ReadState(log[i].value, read), ReadState(log[i - 1].value, read))
    ensures IsHistory(Seen(log, read))
  {
    hide Covers;
    forall i: nat | i < |log| ensures Follows(Seen(log, read), i) { assert Checkpoints.Follows(log, i); }
  }

  lemma {:induction false} CoversLater(log: seq<Entry>, i: nat, j: nat)
    requires IsHistory(log) && i <= j < |log|
    ensures Covers(log[j].manifest, log[i].manifest)
    decreases j
  {
    if i < j {
      CoversLater(log, i, j - 1);
      assert Follows(log, j);
      CoversTransitive(log[j].manifest, log[j - 1].manifest, log[i].manifest);
    }
  }

  lemma HistoryNext(log: seq<Entry>, e: Entry)
    requires IsHistory(log) && Follows(log + [e], |log|)
    ensures IsHistory(log + [e])
  {
    forall i: nat | i < |log + [e]| ensures Follows(log + [e], i) {
      if i < |log| { assert Follows(log, i); }
    }
  }

  /** Objects are never changed, so a good manifest stays good. */
  ghost predicate Kept(objects: map<StateKey, State>, more: map<StateKey, State>) {
    forall k | k in objects :: k in more && more[k] == objects[k]
  }

  lemma GoodStays(h: Handlers, objects: map<StateKey, State>, more: map<StateKey, State>, ids: nat, ids2: nat, log: seq<Entry>)
    requires AllGood(h, objects, ids, log) && Kept(objects, more) && ids <= ids2
    ensures AllGood(h, more, ids2, log)
  {
    forall i: nat | i < |log| && log[i].manifest.Some? ensures Good(h, more, ids2, log[i].manifest.value) {
      assert Good(h, objects, ids, log[i].manifest.value);
    }
  }

  // --- extending a manifest ---------------------------------------------------------------------------

  ghost function MemoryOf(h: Handlers, m: Option<Manifest>): State {
    if m.Some? then StateAt(h, m.value.inputs, m.value.complete) else h.init
  }

  /** New outputs with new identities. */
  ghost predicate Minted(outputs: seq<Output>, ids: nat, bodies: seq<Body>) {
    && Bodies(outputs) == bodies
    && (forall i | 0 <= i < |outputs| :: outputs[i].id == ids + i)
  }

  /** One more input, or the drain, on top of an incomplete manifest. */
  function Extended(m: Option<Manifest>, inputs: seq<Input>, complete: bool, key: StateKey, outputs: seq<Output>): Manifest {
    Manifest(key.boundary, complete, key, InputsOf(m) + inputs, OutputsOf(m) + outputs)
  }

  lemma FoldNext(h: Handlers, inputs: seq<Input>, x: Input)
    ensures Fold(h, inputs + [x]) == h.apply(Fold(h, inputs), x)
    ensures Emitted(h, inputs + [x]) == Emitted(h, inputs) + h.emit(Fold(h, inputs), x)
  {
    assert (inputs + [x])[..|inputs|] == inputs;
  }

  lemma BodiesJoin(a: seq<Output>, b: seq<Output>)
    ensures Bodies(a + b) == Bodies(a) + Bodies(b)
  {
  }

  lemma IdsJoin(a: seq<Output>, b: seq<Output>, ids: nat)
    requires IdsBelow(a, ids) && forall i | 0 <= i < |b| :: b[i].id == ids + i
    ensures IdsBelow(a + b, ids + |b|)
  {
  }

  lemma DistinctNext<T(!new)>(s: seq<T>, x: T)
    requires Distinct(s) && x !in s
    ensures Distinct(s + [x])
  {
  }

  /** A manifest extended by an input it does not cover yet is good. */
  lemma InputIsGood(h: Handlers, objects: map<StateKey, State>, ids: nat, m: Option<Manifest>, x: Input, key: StateKey, outputs: seq<Output>)
    requires !IsComplete(m) && (m.Some? ==> Good(h, objects, ids, m.value)) && x !in InputsOf(m)
    requires key in objects && objects[key] == h.apply(MemoryOf(h, m), x) && Minted(outputs, ids, h.emit(MemoryOf(h, m), x))
    ensures Good(h, objects, ids + |outputs|, Extended(m, [x], false, key, outputs))
    ensures Covers(Some(Extended(m, [x], false, key, outputs)), m)
  {
    hide Bodies, IdsBelow, Distinct, Fold, Emitted;
    NothingIsGood(ids);
    BodiesJoin(OutputsOf(m), outputs);
    FoldNext(h, InputsOf(m), x);
    IdsJoin(OutputsOf(m), outputs, ids);
    DistinctNext(InputsOf(m), x);
    FoldNothing(h);
  }

  /** So is one extended by the drain. */
  lemma DrainIsGood(h: Handlers, objects: map<StateKey, State>, ids: nat, m: Option<Manifest>, key: StateKey, outputs: seq<Output>)
    requires !IsComplete(m) && (m.Some? ==> Good(h, objects, ids, m.value))
    requires key in objects && objects[key] == h.drain(MemoryOf(h, m)) && Minted(outputs, ids, h.drainEmit(MemoryOf(h, m)))
    ensures Good(h, objects, ids + |outputs|, Extended(m, [], true, key, outputs))
    ensures Covers(Some(Extended(m, [], true, key, outputs)), m)
  {
    hide Bodies, IdsBelow, Distinct, Fold, Emitted;
    NothingIsGood(ids);
    BodiesJoin(OutputsOf(m), outputs);
    IdsJoin(OutputsOf(m), outputs, ids);
    FoldNothing(h);
    assert InputsOf(m) + [] == InputsOf(m);
  }

  lemma NothingIsGood(ids: nat)
    ensures IdsBelow([], ids) && Distinct<Input>([]) && Bodies([]) == []
  {
  }

  lemma FoldNothing(h: Handlers)
    ensures Fold(h, []) == h.init && Emitted(h, []) == []
  {
  }

  lemma GoodLater(h: Handlers, objects: map<StateKey, State>, more: map<StateKey, State>, ids: nat, later: nat, m: Manifest)
    requires Good(h, objects, ids, m) && Kept(objects, more) && ids <= later
    ensures Good(h, more, later, m)
  {
  }

  datatype Moment = Moment(log: seq<Entry>, objects: map<StateKey, State>, indexed: seq<Output>, acked: set<Input>, handles: nat, ids: nat)

  /** What no request of any process, present or past, ever undoes. */
  ghost predicate Later(a: Moment, b: Moment) {
    && a.log <= b.log && Kept(a.objects, b.objects) && a.indexed <= b.indexed && a.acked <= b.acked
    && a.handles <= b.handles && a.ids <= b.ids
  }

  lemma LaterTransitive(a: Moment, b: Moment, c: Moment)
    requires Later(a, b) && Later(b, c)
    ensures Later(a, c)
  {
  }

  lemma LaterReflexive(a: Moment)
    ensures Later(a, a)
  {
  }

  lemma MintIsLater(a: Moment, b: Moment)
    requires b == a.(ids := b.ids) && a.ids <= b.ids
    ensures Later(a, b)
  {
  }

  lemma LaterIds(a: Moment, b: Moment)
    requires Later(a, b)
    ensures a.ids <= b.ids
  {
  }

  lemma LaterObjects(a: Moment, b: Moment, k: StateKey)
    requires Later(a, b) && k in a.objects
    ensures k in b.objects && b.objects[k] == a.objects[k]
  {
  }

  // --- the world -------------------------------------------------------------------------------------------

  /** Everything outside one process: the stored objects, the checkpoint and the coordinator. */
  class World {
    const handlers: Handlers
    var log: seq<Entry>
    var objects: map<StateKey, State>
    /** Output segments the coordinator has indexed, in order. */
    var indexed: seq<Output>
    var acked: set<Input>
    var handles: nat
    var ids: nat

    ghost predicate Valid()
      reads this
    {
      && IsHistory(log) && AllGood(handlers, objects, ids, log)
      && (forall i | 0 <= i < |log| :: log[i].handle < handles)
      && (forall k | k in objects :: k.process < handles)
      && (forall o | o in indexed :: o in OutputsOf(Current(log)))
      && IdsBelow(indexed, ids)
      && (forall x | x in acked :: x in InputsOf(Current(log)))
    }

    ghost function Now(): Moment
      reads this
    {
      Moment(log, objects, indexed, acked, handles, ids)
    }

    constructor (handlers: Handlers)
      ensures Valid() && this.handlers == handlers && log == [] && indexed == [] && acked == {}
    {
      this.handlers := handlers;
      log, objects, indexed, acked, handles, ids := [], map[], [], {}, 0, 0;
    }

    /** Claims the checkpoint; the claim keeps the manifest. The request may fail, or its answer be lost. */
    method Claim() returns (ok: bool, handle: nat, at: nat)
      requires Valid()
      modifies this
      ensures Valid() && Later(old(Now()), Now()) && forall i | |old(log)| <= i < |log| :: log[i].handle >= old(handles)
      ensures ok ==> old(handles) <= handle < handles && at == |old(log)| && log == old(log) + [Entry(handle, true, Current(old(log)))]
    {
      var arrives: bool, answered: bool := *, *;
      handle, at := handles, |log|;
      handles := handles + 1;
      if arrives {
        HistoryNext(log, Entry(handle, true, Current(log)));
        log := log + [Entry(handle, true, Current(log))];
      }
      ok := arrives && answered;
    }

    /** New identities for output segments. */
    method Mint(bodies: seq<Body>) returns (outputs: seq<Output>)
      requires Valid()
      modifies this`ids
      ensures Valid() && ids == old(ids) + |bodies| && Minted(outputs, old(ids), bodies) && |outputs| == |bodies|
    {
      GoodStays(handlers, objects, objects, ids, ids + |bodies|, log);
      var first := ids;
      outputs := seq(|bodies|, i requires 0 <= i < |bodies| => Output(first + i, bodies[i]));
      MintedAre(outputs, first, bodies);
      ids := ids + |bodies|;
    }

    /** Stores an object under a key of the process; a key never changes its object. */
    method PutImmutable(key: StateKey, state: State) returns (ok: bool)
      requires Valid() && key.process < handles
      modifies this
      ensures Valid() && Later(old(Now()), Now()) && log == old(log) && ids == old(ids) && indexed == old(indexed) && acked == old(acked) && handles == old(handles)
      ensures ok ==> key in objects && objects[key] == state
      ensures forall k | k in objects && k !in old(objects) :: k == key
    {
      var arrives: bool, answered: bool := *, *;
      if arrives && key !in objects {
        GoodStays(handlers, objects, objects[key := state], ids, ids, log);
        objects := objects[key := state];
      }
      ok := arrives && answered && objects[key] == state;
    }

    /** Replaces the checkpoint if nothing was written since the writer's own entry `at`. */
    method Commit(handle: nat, at: nat, next: Manifest) returns (ok: bool)
      requires Valid() && at < |log| && log[at].handle == handle
      requires |log| == at + 1 ==> Good(handlers, objects, ids, next) && Covers(Some(next), log[at].manifest)
      modifies this
      ensures Valid() && Later(old(Now()), Now()) && objects == old(objects) && ids == old(ids) && indexed == old(indexed) && acked == old(acked) && handles == old(handles)
      ensures log == old(log) || (|old(log)| == at + 1 && log == old(log) + [Entry(handle, false, Some(next))])
      ensures ok ==> |log| == at + 2 && log[at + 1] == Entry(handle, false, Some(next))
    {
      if |log| != at + 1 { return false; }
      var arrives: bool, answered: bool := *, *;
      if arrives {
        HistoryNext(log, Entry(handle, false, Some(next)));
        log := log + [Entry(handle, false, Some(next))];
      }
      ok := arrives && answered;
    }

    /** The coordinator indexes a segment unless it already has. */
    method Index(o: Output) returns (ok: bool)
      requires Valid() && o in OutputsOf(Current(log))
      modifies this
      ensures Valid() && Later(old(Now()), Now()) && log == old(log) && objects == old(objects) && ids == old(ids) && acked == old(acked) && handles == old(handles)
      ensures indexed == old(indexed) || indexed == old(indexed) + [o]
      ensures ok ==> o in indexed
    {
      var arrives: bool, answered: bool := *, *;
      CurrentIds(handlers, objects, ids, log);
      if arrives && o !in indexed {
        IdsApart(indexed, OutputsOf(Current(log)), o, ids);
        indexed := indexed + [o];
      }
      ok := arrives && answered;
    }

    /** The coordinator takes an acknowledgement. */
    method Acknowledge(x: Input) returns (ok: bool)
      requires Valid() && x in InputsOf(Current(log))
      modifies this`acked
      ensures Valid() && Later(old(Now()), Now()) && (acked == old(acked) || acked == old(acked) + {x}) && (ok ==> x in acked)
    {
      var arrives: bool, answered: bool := *, *;
      if arrives { acked := acked + {x}; }
      ok := arrives && answered;
    }

    /** Any number of requests of other processes, zombies included; none is made in the name of `mine`. */
    method Interference(mine: nat)
      requires Valid() && mine < handles
      modifies this
      ensures Valid() && Later(old(Now()), Now()) && forall i | |old(log)| <= i < |log| :: log[i].handle != mine
    {
      var steps: nat :| true;
      for i := 0 to steps
        invariant Valid() && Later(old(Now()), Now()) && mine < handles
        invariant forall i | |old(log)| <= i < |log| :: log[i].handle != mine
      {
        OtherStep(mine);
      }
    }

    /** One request of some other process. */
    method OtherStep(mine: nat)
      requires Valid() && mine < handles
      modifies this
      ensures Valid() && Later(old(Now()), Now()) && forall i | |old(log)| <= i < |log| :: log[i].handle != mine
    {
      var choice: nat, x: Input, state: State, key: StateKey, at: nat := *, *, *, *, *;
      var m := Current(log);
      if choice == 0 {
        var ok, h, k := Claim();
      } else if choice == 1 && log != [] && log[|log| - 1].handle != mine && !IsComplete(m) {
        OtherCommit(log[|log| - 1].handle, x);
      } else if choice == 5 && log != [] && log[|log| - 1].handle != mine && !IsComplete(m) {
        OtherDrain(log[|log| - 1].handle);
      } else if choice == 2 && at < |OutputsOf(m)| {
        var ok := Index(OutputsOf(m)[at]);
      } else if choice == 3 && x in InputsOf(m) {
        var ok := Acknowledge(x);
      } else if choice == 4 && key.process < handles {
        var ok := PutImmutable(key, state);
      }
    }

    /** Another process that still owns the checkpoint commits one more input. */
    method OtherCommit(handle: nat, x: Input)
      requires Valid() && log != [] && log[|log| - 1].handle == handle && !IsComplete(Current(log))
      modifies this
      ensures Valid() && Later(old(Now()), Now()) && forall i | |old(log)| <= i < |log| :: log[i].handle == handle
    {
      hide Good, Fold, Emitted, StateAt, Bodies, IdsBelow, Minted, Extended, Covers, MemoryOf, IsHistory, AllGood;
      var m := Current(log);
      if x in InputsOf(m) { return; }
      CurrentGood(handlers, objects, ids, log);
      MemoryStored(handlers, objects, ids, m);
      ghost var ids0, objects0 := ids, objects;
      var memory := if m.Some? then objects[m.value.key] else handlers.init;
      var outputs := Mint(handlers.emit(memory, x));
      var key := StateKey((if m.Some? then m.value.boundary else 0) + 1, handle);
      var stored := PutImmutable(key, handlers.apply(memory, x));
      if stored {
        if m.Some? { GoodLater(handlers, objects0, objects, ids0, ids0, m.value); }
        InputIsGood(handlers, objects, ids0, m, x, key, outputs);
        var ok := Commit(handle, |log| - 1, Extended(m, [x], false, key, outputs));
      }
    }

    /** Another process that still owns the checkpoint drains: it commits the complete manifest. */
    method OtherDrain(handle: nat)
      requires Valid() && log != [] && log[|log| - 1].handle == handle && !IsComplete(Current(log))
      modifies this
      ensures Valid() && Later(old(Now()), Now()) && forall i | |old(log)| <= i < |log| :: log[i].handle == handle
    {
      hide Good, Fold, Emitted, StateAt, Bodies, IdsBelow, Minted, Extended, Covers, MemoryOf, IsHistory, AllGood;
      var m := Current(log);
      CurrentGood(handlers, objects, ids, log);
      MemoryStored(handlers, objects, ids, m);
      ghost var ids0, objects0 := ids, objects;
      var memory := if m.Some? then objects[m.value.key] else handlers.init;
      var outputs := Mint(handlers.drainEmit(memory));
      var key := StateKey((if m.Some? then m.value.boundary else 0) + 1, handle);
      var stored := PutImmutable(key, handlers.drain(memory));
      if stored {
        if m.Some? { GoodLater(handlers, objects0, objects, ids0, ids0, m.value); }
        DrainIsGood(handlers, objects, ids0, m, key, outputs);
        var ok := Commit(handle, |log| - 1, Extended(m, [], true, key, outputs));
      }
    }
  }

  lemma CurrentGood(h: Handlers, objects: map<StateKey, State>, ids: nat, log: seq<Entry>)
    requires AllGood(h, objects, ids, log)
    ensures Current(log).Some? ==> Good(h, objects, ids, Current(log).value)
  {
  }

  lemma MemoryStored(h: Handlers, objects: map<StateKey, State>, ids: nat, m: Option<Manifest>)
    requires m.Some? ==> Good(h, objects, ids, m.value)
    ensures m.Some? ==> m.value.key in objects && objects[m.value.key] == MemoryOf(h, m)
    ensures m.None? ==> MemoryOf(h, m) == h.init
  {
  }

  lemma MintedAre(outputs: seq<Output>, ids: nat, bodies: seq<Body>)
    requires |outputs| == |bodies| && forall i | 0 <= i < |bodies| :: outputs[i] == Output(ids + i, bodies[i])
    ensures Minted(outputs, ids, bodies)
  {
  }

  lemma CurrentIds(h: Handlers, objects: map<StateKey, State>, ids: nat, log: seq<Entry>)
    requires AllGood(h, objects, ids, log)
    ensures IdsBelow(OutputsOf(Current(log)), ids)
  {
    CurrentGood(h, objects, ids, log);
  }

  lemma IdsApart(some: seq<Output>, all: seq<Output>, o: Output, ids: nat)
    requires IdsBelow(some, ids) && IdsBelow(all, ids) && o in all && o !in some && forall s | s in some :: s in all
    ensures IdsBelow(some + [o], ids)
  {
    forall i | 0 <= i < |some| ensures some[i].id != o.id {
      assert some[i] in some;
      var j :| 0 <= j < |all| && all[j] == some[i];
      var k :| 0 <= k < |all| && all[k] == o;
    }
  }

  // --- the worker ----------------------------------------------------------------------------------------

  datatype Ending = Stopped | Drained

  class Worker {
    const world: World
    const handle: nat
    /** The manifest this process knows to be its own, the inputs it covers, and the program's memory. */
    var current: Option<Manifest>
    var covered: set<Input>
    var memory: State
    var unannounced: seq<Output>
    /** Where the process last wrote the checkpoint: what its writer checks. */
    var at: nat

    /** The process owns the claim or commit at `at` and knows what it says. */
    ghost predicate Valid()
      reads this, world
    {
      && world.Valid() && handle < world.handles && at < |world.log|
      && world.log[at].handle == handle && world.log[at].manifest == current
      && covered == (set x | x in InputsOf(current))
      && (forall o | o in unannounced :: o in OutputsOf(current))
    }

    /** Between requests: the memory is exactly what the manifest stores, and its outputs are published. */
    ghost predicate AtRest()
      reads this, world
    {
      Valid() && memory == MemoryOf(world.handlers, current) && unannounced == []
      && forall o | o in OutputsOf(current) :: o in world.indexed
    }

    constructor (world: World, handle: nat, at: nat)
      requires world.Valid() && handle < world.handles && at < |world.log| && world.log[at].handle == handle
      requires world.log[at].manifest.None?
      ensures AtRest() && this.world == world && this.handle == handle && this.at == at && current == None
    {
      this.world, this.handle, this.at := world, handle, at;
      current, covered, memory, unannounced := None, {}, world.handlers.init, [];
    }

    /** Starts from a stored manifest: its state is read back and its outputs are to be published again. */
    constructor FromManifest(world: World, handle: nat, at: nat, m: Manifest)
      requires world.Valid() && handle < world.handles && at < |world.log| && world.log[at] == Entry(handle, true, Some(m))
      ensures Valid() && this.world == world && this.handle == handle && this.at == at && current == Some(m)
      ensures memory == MemoryOf(world.handlers, current) && unannounced == m.outputs
    {
      assert Good(world.handlers, world.objects, world.ids, m);
      this.world, this.handle, this.at := world, handle, at;
      current, covered, memory, unannounced := Some(m), (set x | x in m.inputs), world.objects[m.key], m.outputs;
    }

    /** Others run for a while. */
    method Wait()
      requires Valid()
      modifies world
      ensures Valid() && Later(old(world.Now()), world.Now())
      ensures forall o | o in old(world.indexed) :: o in world.indexed
      ensures forall x | x in old(world.acked) :: x in world.acked
    {
      world.Interference(handle);
    }

    /** Publishes what is not announced yet, one segment after the other. */
    method Publish() returns (ok: bool)
      requires Valid() && forall o | o in OutputsOf(current) && o !in unannounced :: o in world.indexed
      modifies this`unannounced, world
      ensures Valid() && Later(old(world.Now()), world.Now()) && (ok ==> unannounced == [])
      ensures forall o | o in OutputsOf(current) && o !in unannounced :: o in world.indexed
    {
      hide IsHistory, AllGood, Covers, IdsBelow;
      while unannounced != []
        invariant Valid() && Later(old(world.Now()), world.Now())
        invariant forall o | o in OutputsOf(current) && o !in unannounced :: o in world.indexed
        decreases |unannounced|
      {
        Wait();
        var o := unannounced[0];
        OwnIsCurrent(world.log, at);
        assert o in unannounced;
        var sent := world.Index(o);
        if !sent { return false; }
        unannounced := unannounced[1..];
      }
      ok := true;
    }

    /** The outputs get their identities and the state is stored; then the manifest may name both. */
    method Prepare(inputs: seq<Input>, bodies: seq<Body>) returns (ok: bool, next: Manifest, ghost outputs: seq<Output>)
      requires Valid() && |inputs| <= 1 && !IsComplete(current)
      requires inputs != [] ==> inputs[0] !in covered
      requires Produced(world.handlers, current, inputs, memory, bodies)
      modifies world
      ensures Valid() && Later(old(world.Now()), world.Now()) && forall o | o in old(world.indexed) :: o in world.indexed
      ensures next.outputs == OutputsOf(current) + outputs
      ensures ok ==> Good(world.handlers, world.objects, world.ids, next) && Covers(Some(next), current)
      ensures ok ==> next.inputs == InputsOf(current) + inputs && next.complete == (inputs == []) && memory == MemoryOf(world.handlers, Some(next))
    {
      hide IsHistory, AllGood, Good, Fold, Emitted, StateAt, EmittedAt, Minted, Covers, MemoryOf, Produced, IdsBelow, Later, Kept, World.Valid;
      WorldFacts(world);
      ghost var ids0, start := world.ids, world.Now();
      OwnIds(world.handlers, world.objects, world.ids, world.log, at);
      var minted := world.Mint(bodies);
      outputs := minted;
      MintIsLater(start, world.Now());
      ghost var mark := world.Now();
      Wait();
      LaterTransitive(start, mark, world.Now());
      LaterIds(mark, world.Now());
      mark := world.Now();
      var key := StateKey((if current.Some? then current.value.boundary else 0) + 1, handle);
      next := Extended(current, inputs, inputs == [], key, minted);
      ok := world.PutImmutable(key, memory);
      LaterTransitive(start, mark, world.Now());
      mark := world.Now();
      Wait();
      LaterTransitive(start, mark, world.Now());
      LaterIds(mark, world.Now());
      if ok {
        LaterObjects(mark, world.Now(), key);
        WorldFacts(world);
        NextIsGood(world.handlers, world.objects, ids0, world.ids, world.log, at, inputs, key, minted, memory, bodies);
      }
    }

    /** The state is stored first, then the manifest that names it. Nothing is published yet. */
    method WriteManifest(inputs: seq<Input>, bodies: seq<Body>) returns (ok: bool)
      requires Valid() && unannounced == [] && |inputs| <= 1 && !IsComplete(current)
      requires forall o | o in OutputsOf(current) :: o in world.indexed
      requires inputs != [] ==> inputs[0] !in covered
      requires Produced(world.handlers, current, inputs, memory, bodies)
      modifies this, world
      ensures Valid() && Later(old(world.Now()), world.Now()) && memory == old(memory)
      ensures forall o | o in OutputsOf(current) && o !in unannounced :: o in world.indexed
      ensures ok ==> current.Some? && current.value.inputs == InputsOf(old(current)) + inputs
      ensures ok ==> current.value.complete == (inputs == []) && memory == MemoryOf(world.handlers, current)
      ensures ok ==> forall x | x in inputs :: x in covered
    {
      hide IsHistory, AllGood, Good, Fold, Emitted, StateAt, EmittedAt, Minted, Covers, Extended, MemoryOf, Produced, IdsBelow, Later, Kept, World.Valid;
      ghost var start := world.Now();
      var ready, next;
      ghost var outputs;
      ready, next, outputs := Prepare(inputs, bodies);
      if !ready { return false; }
      ghost var mark := world.Now();
      var committed := world.Commit(handle, at, next);
      LaterTransitive(start, mark, world.Now());
      if !committed { return false; }
      unannounced := next.outputs[|OutputsOf(current)|..];
      current, at := Some(next), at + 1;
      covered := set x | x in next.inputs;
      ok := true;
    }

    /** An input is acknowledged only once the checkpoint covers it. */
    method AcknowledgeCovered(x: Input) returns (ok: bool)
      requires AtRest() && x in covered
      modifies world
      ensures AtRest() && Later(old(world.Now()), world.Now()) && (ok ==> x in world.acked)
    {
      hide IsHistory, AllGood, Covers, MemoryOf, Later, World.Valid;
      ghost var start := world.Now();
      Wait();
      ghost var waited := world.Now();
      WorldFacts(world);
      OwnIsCurrent(world.log, at);
      ok := world.Acknowledge(x);
      LaterTransitive(start, waited, world.Now());
    }

    /**
     Commits the memory together with the inputs it covers, publishes what they
     emitted, and only then acknowledges them.
     */
    method CommitCheckpoint(inputs: seq<Input>, bodies: seq<Body>) returns (ok: bool)
      requires Valid() && unannounced == [] && |inputs| <= 1 && !IsComplete(current)
      requires forall o | o in OutputsOf(current) :: o in world.indexed
      requires inputs != [] ==> inputs[0] !in covered
      requires Produced(world.handlers, current, inputs, memory, bodies)
      modifies this, world
      ensures Valid() && Later(old(world.Now()), world.Now())
      ensures ok ==> AtRest() && current.Some? && current.value.inputs == InputsOf(old(current)) + inputs
      ensures ok ==> current.value.complete == (inputs == []) && forall x | x in inputs :: x in world.acked
    {
      hide IsHistory, AllGood, Covers, MemoryOf, Produced, IdsBelow, Later, Kept, World.Valid, Worker.Valid, InputsOf, OutputsOf, IsComplete;
      ghost var start := world.Now();
      var written := WriteManifest(inputs, bodies);
      if !written { return false; }
      ghost var wrote := world.Now();
      var published := Publish();
      LaterTransitive(start, wrote, world.Now());
      if !published { return false; }
      if inputs != [] {
        ghost var told := world.Now();
        ok := AcknowledgeCovered(inputs[0]);
        LaterTransitive(start, told, world.Now());
      } else {
        ok := true;
      }
    }

    /** One delivery: it is processed and committed, or only acknowledged if the manifest covers it already. */
    method Handle(x: Input) returns (ok: bool)
      requires AtRest() && !IsComplete(current)
      modifies this, world
      ensures world.Valid() && Later(old(world.Now()), world.Now())
      ensures ok ==> AtRest() && !IsComplete(current) && x in world.acked
      ensures ok ==> InputsOf(current) == InputsOf(old(current)) + (if x in InputsOf(old(current)) then [] else [x])
    {
      hide IsHistory, AllGood, Good, Fold, Emitted, StateAt, EmittedAt, Covers, Extended, MemoryOf, IdsBelow, Later, World.Valid;
      ghost var start := world.Now();
      Wait();
      ghost var waited := world.Now();
      var stops: bool := *;
      if stops { return false; }
      if x in covered {
        ok := AcknowledgeCovered(x);
      } else {
        var bodies := world.handlers.emit(memory, x);
        memory := world.handlers.apply(memory, x);
        ok := CommitCheckpoint([x], bodies);
        assert ok ==> x in [x];
      }
      LaterTransitive(start, waited, world.Now());
    }

    /** The inputs are drained: the last manifest is complete. */
    method Drain() returns (ok: bool)
      requires AtRest() && !IsComplete(current)
      modifies this, world
      ensures world.Valid() && Later(old(world.Now()), world.Now())
      ensures ok ==> AtRest() && IsComplete(current) && InputsOf(current) == InputsOf(old(current))
    {
      hide IsHistory, AllGood, Good, Fold, Emitted, StateAt, EmittedAt, Covers, Extended, MemoryOf, IdsBelow, Later, World.Valid;
      var bodies := world.handlers.drainEmit(memory);
      memory := world.handlers.drain(memory);
      ok := CommitCheckpoint([], bodies);
    }

    /**
     Consumes what is delivered, in any order and any number of times: every
     delivery before the one in hand is covered and acknowledged, wherever the
     process stops. A drained run handled all of them, and its manifest covers
     nothing else on top of what it started from.
     */
    method Run(deliveries: seq<Input>) returns (end: Ending, ghost k: nat)
      requires AtRest()
      modifies this, world
      ensures world.Valid() && Later(old(world.Now()), world.Now())
      ensures k <= |deliveries| && forall i | 0 <= i < k :: deliveries[i] in world.acked && deliveries[i] in InputsOf(Current(world.log))
      ensures end == Drained ==> AtRest() && IsComplete(current)
      ensures IsComplete(old(current)) ==> end == Drained && k == 0 && current == old(current)
      ensures end == Drained && !IsComplete(old(current)) ==> k == |deliveries| && InputsOf(current) == Handled(InputsOf(old(current)), deliveries)
    {
      hide IsHistory, AllGood, Good, Fold, Emitted, StateAt, EmittedAt, Covers, Extended, MemoryOf, IdsBelow, Later, World.Valid, Handled, OutputsOf;
      ghost var start := world.Now();
      ghost var before := InputsOf(current);
      LaterReflexive(start);
      if IsComplete(current) { return Drained, 0; }
      k := 0;
      assert deliveries[..0] == [];
      NothingHandled(before);
      for i := 0 to |deliveries|
        invariant AtRest() && Later(start, world.Now()) && !IsComplete(current)
        invariant k == i && forall j | 0 <= j < i :: deliveries[j] in world.acked
        invariant InputsOf(current) == Handled(before, deliveries[..i])
      {
        ghost var mark := world.Now();
        var handled := Handle(deliveries[i]);
        LaterTransitive(start, mark, world.Now());
        LaterAcked(mark, world.Now());
        if !handled {
          AckedAreCovered(world);
          return Stopped, i;
        }
        assert deliveries[..i + 1] == deliveries[..i] + [deliveries[i]];
        HandledNext(before, deliveries[..i], deliveries[i]);
        k := k + 1;
      }
      assert deliveries[..|deliveries|] == deliveries;
      ghost var mark := world.Now();
      var ok := Drain();
      LaterTransitive(start, mark, world.Now());
      LaterAcked(mark, world.Now());
      AckedAreCovered(world);
      return (if ok then Drained else Stopped), k;
    }
  }

  /** The inputs with each delivered one that is not among them yet, in the order of the first deliveries. */
  ghost function Handled(inputs: seq<Input>, deliveries: seq<Input>): seq<Input> {
    if deliveries == [] then inputs
    else
      var before, x := Handled(inputs, deliveries[..|deliveries| - 1]), deliveries[|deliveries| - 1];
      if x in before then before else before + [x]
  }

  lemma NothingHandled(inputs: seq<Input>)
    ensures Handled(inputs, []) == inputs
  {
  }

  lemma HandledNext(inputs: seq<Input>, deliveries: seq<Input>, x: Input)
    ensures Handled(inputs, deliveries + [x]) == Handled(inputs, deliveries) + (if x in Handled(inputs, deliveries) then [] else [x])
  {
    assert (deliveries + [x])[..|deliveries|] == deliveries;
  }

  /** That is what was there and what was delivered, and nothing else. */
  lemma {:induction false} HandledAre(inputs: seq<Input>, deliveries: seq<Input>)
    ensures inputs <= Handled(inputs, deliveries)
    ensures forall x :: x in Handled(inputs, deliveries) <==> x in inputs || x in deliveries
  {
    if deliveries != [] {
      var k := |deliveries| - 1;
      HandledAre(inputs, deliveries[..k]);
      assert deliveries == deliveries[..k] + [deliveries[k]];
    }
  }

  lemma AckedAreCovered(w: World)
    requires w.Valid()
    ensures forall x | x in w.acked :: x in InputsOf(Current(w.log))
  {
  }

  lemma LaterAcked(a: Moment, b: Moment)
    requires Later(a, b)
    ensures forall x | x in a.acked :: x in b.acked
  {
  }

  lemma WorldFacts(w: World)
    requires w.Valid()
    ensures IsHistory(w.log) && AllGood(w.handlers, w.objects, w.ids, w.log)
  {
  }

  /** What the process last wrote is covered by what is stored now. */
  lemma OwnIsCurrent(log: seq<Entry>, at: nat)
    requires IsHistory(log) && at < |log|
    ensures Covers(Current(log), log[at].manifest)
    ensures forall o | o in OutputsOf(log[at].manifest) :: o in OutputsOf(Current(log))
    ensures forall x | x in InputsOf(log[at].manifest) :: x in InputsOf(Current(log))
  {
    CoversLater(log, at, |log| - 1);
  }

  /** The program processed one more input, or drained, starting from what the manifest stores. */
  ghost predicate Produced(h: Handlers, m: Option<Manifest>, inputs: seq<Input>, memory: State, bodies: seq<Body>) {
    if inputs == [] then memory == h.drain(MemoryOf(h, m)) && bodies == h.drainEmit(MemoryOf(h, m))
    else memory == h.apply(MemoryOf(h, m), inputs[0]) && bodies == h.emit(MemoryOf(h, m), inputs[0])
  }

  lemma OwnIds(h: Handlers, objects: map<StateKey, State>, ids: nat, log: seq<Entry>, at: nat)
    requires AllGood(h, objects, ids, log) && at < |log|
    ensures IdsBelow(OutputsOf(log[at].manifest), ids)
  {
  }

  lemma NextIsGood(h: Handlers, objects: map<StateKey, State>, ids0: nat, ids: nat, log: seq<Entry>, at: nat,
                   inputs: seq<Input>, key: StateKey, outputs: seq<Output>, memory: State, bodies: seq<Body>)
    requires AllGood(h, objects, ids, log) && at < |log| && |inputs| <= 1 && ids0 + |outputs| <= ids
    requires !IsComplete(log[at].manifest) && IdsBelow(OutputsOf(log[at].manifest), ids0) && key in objects && objects[key] == memory
    requires inputs != [] ==> inputs[0] !in InputsOf(log[at].manifest)
    requires Produced(h, log[at].manifest, inputs, memory, bodies) && Minted(outputs, ids0, bodies)
    ensures Good(h, objects, ids, Extended(log[at].manifest, inputs, inputs == [], key, outputs))
    ensures Covers(Some(Extended(log[at].manifest, inputs, inputs == [], key, outputs)), log[at].manifest)
    ensures var next := Extended(log[at].manifest, inputs, inputs == [], key, outputs);
      && next.inputs == InputsOf(log[at].manifest) + inputs && next.outputs == OutputsOf(log[at].manifest) + outputs
      && next.complete == (inputs == []) && memory == MemoryOf(h, Some(next))
  {
    hide Fold, Emitted, EmittedAt, Bodies, IdsBelow, Minted, Covers, Distinct;
    var m := log[at].manifest;
    GoodAt(h, objects, ids, ids0, log, at);
    if inputs == [] {
      DrainIsGood(h, objects, ids0, m, key, outputs);
      GoodLater(h, objects, objects, ids0 + |outputs|, ids, Extended(m, [], true, key, outputs));
    } else {
      assert inputs == [inputs[0]];
      InputIsGood(h, objects, ids0, m, inputs[0], key, outputs);
      GoodLater(h, objects, objects, ids0 + |outputs|, ids, Extended(m, inputs, false, key, outputs));
    }
  }

  lemma GoodAt(h: Handlers, objects: map<StateKey, State>, ids: nat, ids0: nat, log: seq<Entry>, at: nat)
    requires AllGood(h, objects, ids, log) && at < |log| && IdsBelow(OutputsOf(log[at].manifest), ids0)
    ensures log[at].manifest.Some? ==> Good(h, objects, ids0, log[at].manifest.value)
  {
  }

  /**
   A process starts: it claims the checkpoint, restores what is stored and runs
   until it stops or drains. What it was handed it covers and acknowledges, but
   for the input in hand when it stops.
   */
  method Process(world: World, deliveries: seq<Input>) returns (end: Ending, ghost k: nat)
    requires world.Valid()
    modifies world
    ensures world.Valid() && Later(old(world.Now()), world.Now())
    ensures k <= |deliveries| && forall i | 0 <= i < k :: deliveries[i] in world.acked && deliveries[i] in InputsOf(Current(world.log))
    ensures end == Drained ==> IsComplete(Current(world.log)) && forall o | o in OutputsOf(Current(world.log)) :: o in world.indexed
    ensures end == Drained ==>
      if IsComplete(Current(old(world.log))) then Current(world.log) == Current(old(world.log))
      else k == |deliveries| && InputsOf(Current(world.log)) == Handled(InputsOf(Current(old(world.log))), deliveries)
  {
    hide World.Valid, IsHistory, AllGood, Good, MemoryOf, Later, Covers, Handled;
    ghost var start := world.Now();
    var ok, handle, at := world.Claim();
    if !ok { return Stopped, 0; }
    ghost var claimed := world.Now();
    var m := world.log[at].manifest;
    var w: Worker;
    if m.None? {
      w := new Worker(world, handle, at);
    } else {
      w := new Worker.FromManifest(world, handle, at, m.value);
      var published := w.Publish();
      LaterTransitive(start, claimed, world.Now());
      if !published { return Stopped, 0; }
    }
    ghost var ready := world.Now();
    end, k := w.Run(deliveries);
    LaterTransitive(start, ready, world.Now());
    if end == Drained { CompleteIsCurrent(world, w.at); }
  }

  /** A complete manifest is the last. */
  lemma CompleteIsCurrent(w: World, at: nat)
    requires w.Valid() && at < |w.log| && IsComplete(w.log[at].manifest)
    ensures Current(w.log) == w.log[at].manifest
  {
    WorldFacts(w);
    OwnIsCurrent(w.log, at);
  }

  // --- exactly once -------------------------------------------------------------------------------------------

  lemma {:induction false} DistinctCount<T(!new)>(s: seq<T>, x: T)
    requires Distinct(s)
    ensures multiset(s)[x] == if x in s then 1 else 0
  {
    if s != [] {
      var k := |s| - 1;
      assert s == s[..k] + [s[k]];
      DistinctCount(s[..k], x);
      assert s[k] !in s[..k];
    }
  }

  lemma SameElements<T(!new)>(a: seq<T>, b: seq<T>)
    requires Distinct(a) && Distinct(b) && forall x :: x in a <==> x in b
    ensures multiset(a) == multiset(b)
  {
    forall x ensures multiset(a)[x] == multiset(b)[x] {
      DistinctCount(a, x);
      DistinctCount(b, x);
    }
  }

  lemma {:induction false} BodiesByMultiset(a: seq<Output>, b: seq<Output>)
    requires multiset(a) == multiset(b)
    ensures multiset(Bodies(a)) == multiset(Bodies(b))
  {
    hide Bodies;
    if a == [] {
      assert |multiset(b)| == 0;
    } else {
      var k := |a| - 1;
      assert a[k] in multiset(b);
      var j :| 0 <= j < |b| && b[j] == a[k];
      WithoutOne(a, k);
      WithoutOne(b, j);
      assert a[..k] + a[k + 1..] == a[..k];
      assert multiset(a[..k]) == multiset(a) - multiset{a[k]};
      assert multiset(b[..j] + b[j + 1..]) == multiset(b) - multiset{b[j]};
      BodiesByMultiset(a[..k], b[..j] + b[j + 1..]);
    }
  }

  lemma WithoutOne(a: seq<Output>, j: nat)
    requires j < |a|
    ensures multiset(a) == multiset(a[..j] + a[j + 1..]) + multiset{a[j]}
    ensures multiset(Bodies(a)) == multiset(Bodies(a[..j] + a[j + 1..])) + multiset{a[j].body}
  {
    hide Bodies;
    var one := [a[j]];
    assert a == a[..j] + one + a[j + 1..];
    BodiesJoin(a[..j] + one, a[j + 1..]);
    BodiesJoin(a[..j], one);
    BodiesJoin(a[..j], a[j + 1..]);
    BodiesOne(a[j]);
  }

  lemma BodiesOne(o: Output)
    ensures Bodies([o]) == [o.body]
  {
  }

  lemma BelowIsDistinct(outputs: seq<Output>, ids: nat)
    requires IdsBelow(outputs, ids)
    ensures Distinct(outputs)
  {
  }

  /**
   At every moment of every run: each covered input was applied to the stored
   state once, everything announced belongs to the manifest and is indexed once,
   and only covered inputs are acknowledged.
   */
  lemma EffectsAtAnyMoment(w: World, m: Manifest)
    requires w.Valid() && Current(w.log) == Some(m)
    ensures Distinct(m.inputs) && m.key in w.objects && w.objects[m.key] == StateAt(w.handlers, m.inputs, m.complete)
    ensures Distinct(w.indexed) && forall o | o in w.indexed :: o in m.outputs
    ensures forall x | x in w.acked :: x in m.inputs
  {
    BelowIsDistinct(w.indexed, w.ids);
    assert Good(w.handlers, w.objects, w.ids, m);
  }

  /** When a process drained, what was published is exactly what one fault-free pass over the covered inputs emits. */
  lemma EffectOfDrainedRun(w: World, m: Manifest)
    requires w.Valid() && Current(w.log) == Some(m) && m.complete && forall o | o in m.outputs :: o in w.indexed
    ensures multiset(Bodies(w.indexed)) == multiset(EmittedAt(w.handlers, m.inputs, true))
  {
    hide Bodies, EmittedAt;
    assert Good(w.handlers, w.objects, w.ids, m);
    BelowIsDistinct(w.indexed, w.ids);
    BelowIsDistinct(m.outputs, w.ids);
    SameElements(w.indexed, m.outputs);
    BodiesByMultiset(w.indexed, m.outputs);
  }
}
