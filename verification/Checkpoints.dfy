/**
 Fenced writers of one checkpoint object. Any number of writers interleave
 between reading the object and replacing it; the store replaces it atomically,
 and only when the expected version is still the stored one.
 */
module Checkpoints {
  import opened Topology

  type WriterId(==, 0, !new)
  type Body(==, 0, !new)

  /** The stored envelope. The first claim stores no state. */
  datatype Checkpoint = Checkpoint(generation: nat, writer: WriterId, state: Option<Body>, tombstones: seq<Body>)

  /** What was written, in order: who wrote it, and whether by claiming the object or by committing to it. */
  datatype Entry = Entry(handle: nat, claim: bool, value: Checkpoint)

  datatype Outcome = Done | Fenced | Failed

  // --- the history of the object ------------------------------------------------------------

  ghost predicate ClaimFollows(log: seq<Entry>, i: nat)
    requires i < |log|
  {
    && (forall j | 0 <= j < i :: log[j].handle != log[i].handle)
    && (if i == 0 then log[0].value.state == None && log[0].value.tombstones == []
        else log[i].value.state == log[i - 1].value.state && log[i].value.tombstones == log[i - 1].value.tombstones)
  }

  ghost predicate CommitFollows(log: seq<Entry>, i: nat)
    requires i < |log|
  {
    i > 0 && log[i - 1].handle == log[i].handle && log[i - 1].value.writer == log[i].value.writer
  }

  /** Generations count the writes; a claim brings a new handle, a commit continues its own last write. */
  ghost predicate Follows(log: seq<Entry>, i: nat)
    requires i < |log|
  {
    log[i].value.generation == i + 1 && if log[i].claim then ClaimFollows(log, i) else CommitFollows(log, i)
  }

  ghost predicate IsHistory(log: seq<Entry>) {
    forall i: nat | i < |log| :: Follows(log, i)
  }

  lemma HistoryNext(log: seq<Entry>, e: Entry)
    requires IsHistory(log) && Follows(log + [e], |log|)
    ensures IsHistory(log + [e])
  {
    forall i: nat | i < |log + [e]| ensures Follows(log + [e], i) {
      if i < |log| { assert Follows(log, i); }
    }
  }

  /** Once a later writer claimed the object, no earlier one commits to it again. */
  lemma {:induction false} ClaimFences(log: seq<Entry>, c: nat, j: nat, i: nat)
    requires IsHistory(log) && i < c <= j < |log| && log[c].claim
    ensures log[i].handle != log[j].handle
    decreases j
  {
    assert Follows(log, j);
    if j > c && !log[j].claim { ClaimFences(log, c, j - 1, i); }
  }

  /** No stored value, and so no version, ever comes back. */
  lemma NoValueRepeats(log: seq<Entry>, i: nat, j: nat)
    requires IsHistory(log) && i < j < |log|
    ensures log[j].value.generation == log[i].value.generation + (j - i)
    ensures log[i].value != log[j].value
  {
    assert Follows(log, i) && Follows(log, j);
  }

  /** A writer that was replaced is fenced for good, whatever is written afterwards. */
  lemma FencedForGood(w: Checkpoint, handle: nat, log: seq<Entry>, c: nat)
    requires IsHistory(log) && 0 < w.generation <= c < |log| && log[w.generation - 1].handle == handle && log[c].claim
    ensures forall j: nat | c <= j < |log| :: log[j].handle != handle
  {
    forall j: nat | c <= j < |log| ensures log[j].handle != handle { ClaimFences(log, c, j, w.generation - 1); }
  }

  /** Between two writes of one handle everything was written by that handle. */
  lemma {:induction false} HandleIsContiguous(log: seq<Entry>, i: nat, k: nat, j: nat)
    requires IsHistory(log) && i <= k <= j < |log| && log[i].handle == log[j].handle
    ensures log[k].handle == log[i].handle
    decreases j
  {
    if k < j {
      assert Follows(log, j);
      HandleIsContiguous(log, i, k, j - 1);
    }
  }

  // --- the store ------------------------------------------------------------------------------

  class Store {
    /** The object; its version is its content. */
    var stored: Option<Checkpoint>
    /** Everything ever written, and the handles given out: what no request can read. */
    var log: seq<Entry>
    var handles: nat

    ghost predicate Valid()
      reads this
    {
      && IsHistory(log)
      && stored == (if log == [] then None else Some(log[|log| - 1].value))
      && forall i | 0 <= i < |log| :: log[i].handle < handles
    }

    constructor ()
      ensures Valid() && log == []
    {
      stored, log, handles := None, [], 0;
    }

    /** Writers of other processes run; none of them uses a handle in `mine`. */
    method Interference(mine: set<nat>)
      requires Valid() && forall h | h in mine :: h < handles
      modifies this
      ensures Valid() && Extends(old(log), log, mine) && old(handles) <= handles
    {
      var steps: nat :| true;
      ExtendsNone(log, mine);
      for i := 0 to steps
        invariant Valid() && Extends(old(log), log, mine) && old(handles) <= handles
      {
        var claims: bool, id: WriterId, state: Body, tombstones: seq<Body> := *, *, *, *;
        var other := handles;
        ghost var was := log;
        StoredIsLast(this);
        if claims {
          var was0 := stored;
          var next := match was0
            case None => Checkpoint(1, id, None, [])
            case Some(cp) => cp.(generation := cp.generation + 1, writer := id);
          handles := handles + 1;
          ClaimIsLegal(log, other, next);
          log := log + [Entry(other, true, next)];
          stored := Some(next);
          ExtendsNext(old(log), was, Entry(other, true, next), mine);
        } else if stored.Some? {
          var last := log[|log| - 1];
          if last.handle !in mine {
            var next := stored.value.(generation := stored.value.generation + 1, state := Some(state), tombstones := tombstones);
            CommitIsLegal(log, next);
            log := log + [Entry(last.handle, false, next)];
            stored := Some(next);
            ExtendsNext(old(log), was, Entry(last.handle, false, next), mine);
          }
        }
      }
    }

    /** Reads the object. The request may fail. */
    method Get() returns (answered: bool, value: Option<Checkpoint>)
      ensures answered ==> value == stored
    {
      answered := *;
      value := stored;
    }

    /**
     Replaces the object if it still has the expected version. The answer to a
     write that happened may be lost.
     */
    method CompareAndSwap(expected: Option<Checkpoint>, next: Checkpoint, e: Entry) returns (r: Outcome)
      requires Valid() && e.value == next && e.handle < handles && (stored == expected ==> Follows(log + [e], |log|))
      modifies this
      ensures Valid() && handles == old(handles)
      ensures log == old(log) || (old(stored) == expected && log == old(log) + [e])
      ensures r == Done ==> log == old(log) + [e] && old(stored) == expected
      ensures r == Fenced <==> old(stored) != expected
    {
      if stored != expected { return Fenced; }
      var arrives: bool, answered: bool := *, *;
      if arrives {
        HistoryNext(log, e);
        stored := Some(next);
        log := log + [e];
        if answered { return Done; }
      }
      return Failed;
    }

    /** A new handle, for one claim. */
    method NewHandle() returns (h: nat)
      requires Valid()
      modifies this`handles
      ensures Valid() && h == old(handles) && handles == h + 1
    {
      h := handles;
      handles := handles + 1;
    }
  }

  // --- a writer -----------------------------------------------------------------------------------

  class Writer {
    const store: Store
    const id: WriterId
    const handle: nat
    /** The last value this writer knows it wrote; also its version. */
    var value: Checkpoint

    constructor (store: Store, id: WriterId, value: Checkpoint, handle: nat)
      ensures this.store == store && this.id == id && this.value == value && this.handle == handle
    {
      this.store, this.id, this.value, this.handle := store, id, value, handle;
    }

    /** The writer's value is in the history, written under its handle. */
    ghost predicate Valid()
      reads this, store
    {
      && store.Valid() && handle < store.handles
      && 0 < value.generation <= |store.log|
      && store.log[value.generation - 1].handle == handle && store.log[value.generation - 1].value == value
      && value.writer == id
    }

    /**
     Replaces the checkpoint if this writer still owns it. It succeeds exactly by
     writing right behind its own last write; it fails for good as soon as
     anything else was written.
     */
    method Commit(state: Body, tombstones: seq<Body>) returns (r: Outcome)
      requires Valid()
      modifies this`value, store
      ensures Valid() && old(store.log) <= store.log
      ensures r == Done ==>
        && value.generation == old(value).generation + 1 && value.state == Some(state) && value.tombstones == tombstones
        && store.log[value.generation - 2].value == old(value)
      ensures r != Done ==> value == old(value)
      ensures r == Fenced ==> |store.log| > old(value).generation
      ensures |old(store.log)| > old(value).generation ==> r != Done
    {
      var answered, current := store.Get();
      if !answered || current.None? { return Failed; }
      var cp := current.value;
      if cp.writer != id || cp.generation != value.generation || cp != value {
        StoredIsLast(store);
        return Fenced;
      }
      ghost var before := store.log;
      store.Interference({handle});
      var next := cp.(generation := cp.generation + 1, state := Some(state), tombstones := tombstones);
      ghost var log := store.log;
      StoredIsLast(store);
      if store.stored == Some(cp) { LastValue(log, value.generation - 1, handle); }
      r := store.CompareAndSwap(Some(cp), next, Entry(handle, false, next));
      if r == Done { value := next; }
    }
  }

  /** The stored value is the last one written. */
  lemma StoredIsLast(s: Store)
    requires s.Valid()
    ensures s.stored.Some? ==> s.log != [] && s.stored.value == s.log[|s.log| - 1].value && s.stored.value.generation == |s.log|
    ensures s.stored.None? <==> s.log == []
  {
    if s.log != [] { assert Follows(s.log, |s.log| - 1); }
  }

  /** If the stored value is the writer's own then the next write follows it. */
  lemma LastValue(log: seq<Entry>, k: nat, h: nat)
    requires IsHistory(log) && k < |log| && log[k].handle == h && log[|log| - 1].value == log[k].value
    ensures k == |log| - 1
    ensures forall next: Checkpoint | next.generation == |log| + 1 && next.writer == log[k].value.writer ::
      Follows(log + [Entry(h, false, next)], |log|)
  {
    if k < |log| - 1 { NoValueRepeats(log, k, |log| - 1); }
  }

  lemma ClaimIsLegal(log: seq<Entry>, h: nat, next: Checkpoint)
    requires IsHistory(log) && forall i | 0 <= i < |log| :: log[i].handle < h
    requires next.generation == |log| + 1
    requires if log == [] then next.state == None && next.tombstones == []
      else next.state == log[|log| - 1].value.state && next.tombstones == log[|log| - 1].value.tombstones
    ensures Follows(log + [Entry(h, true, next)], |log|) && IsHistory(log + [Entry(h, true, next)])
  {
    HistoryNext(log, Entry(h, true, next));
  }

  lemma CommitIsLegal(log: seq<Entry>, next: Checkpoint)
    requires IsHistory(log) && log != [] && next.generation == |log| + 1 && next.writer == log[|log| - 1].value.writer
    ensures IsHistory(log + [Entry(log[|log| - 1].handle, false, next)])
  {
    HistoryNext(log, Entry(log[|log| - 1].handle, false, next));
  }

  /**
   Claims the object: any previous writer is fenced, and the claim gives back
   exactly the checkpoint it replaces, whose state it keeps.
   */
  method Claim(store: Store, id: WriterId) returns (r: Outcome, w: Option<Writer>, previous: Option<Checkpoint>)
    requires store.Valid()
    modifies store
    ensures store.Valid() && old(store.log) <= store.log
    ensures r == Done <==> w.Some?
    ensures r == Done ==>
      && fresh(w.value) && w.value.store == store && w.value.id == id && w.value.Valid()
      && var k := w.value.value.generation - 1;
      && |old(store.log)| <= k && store.log[k].claim && k == |store.log| - 1
      && previous == (if k == 0 then None else Some(store.log[k - 1].value))
      && (k > 0 ==> w.value.value.state == store.log[k - 1].value.state)
  {
    w, previous := None, None;
    var answered, current := store.Get();
    if !answered { return Failed, None, None; }
    StoredIsLast(store);
    var h := store.NewHandle();
    ghost var before := store.log;
    store.Interference({h});
    StoredIsLast(store);
    var next := match current
      case None => Checkpoint(1, id, None, [])
      case Some(cp) => cp.(generation := cp.generation + 1, writer := id);
    ghost var log := store.log;
    if store.stored == current {
      HandleUnused(before, log, h);
      ClaimWithHandle(log, h, next);
    }
    r := store.CompareAndSwap(current, next, Entry(h, true, next));
    if r == Done {
      var writer := new Writer(store, id, next, h);
      w := Some(writer);
      previous := current;
    }
  }

  lemma HandleUnused(log: seq<Entry>, longer: seq<Entry>, h: nat)
    requires Extends(log, longer, {h}) && forall i | 0 <= i < |log| :: log[i].handle < h
    ensures forall i | 0 <= i < |longer| :: longer[i].handle != h
  {
  }

  lemma ClaimWithHandle(log: seq<Entry>, h: nat, next: Checkpoint)
    requires IsHistory(log) && (forall i | 0 <= i < |log| :: log[i].handle != h) && next.generation == |log| + 1
    requires if log == [] then next.state == None && next.tombstones == []
      else next.state == log[|log| - 1].value.state && next.tombstones == log[|log| - 1].value.tombstones
    ensures Follows(log + [Entry(h, true, next)], |log|)
  {
  }

  /** More was written, none of it under the handles in `mine`. */
  ghost predicate Extends(log: seq<Entry>, longer: seq<Entry>, mine: set<nat>) {
    log <= longer && forall i | |log| <= i < |longer| :: longer[i].handle !in mine
  }

  lemma ExtendsNone(log: seq<Entry>, mine: set<nat>)
    ensures Extends(log, log, mine)
  {
  }

  lemma ExtendsNext(log: seq<Entry>, longer: seq<Entry>, e: Entry, mine: set<nat>)
    requires Extends(log, longer, mine) && e.handle !in mine
    ensures Extends(log, longer + [e], mine)
  {
  }
}
