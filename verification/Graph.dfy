/**
 Graph analyses: the controller's cycle check (`Validate`), the members of an
 asynchronous loop (`CycleMembers`) and the operations whose channels carry
 finite epochs (`FiniteOperations`).
 */
module Graph {
  import opened Topology

  type Edge = (Name, Name)

  // --- walks ----------------------------------------------------------------

  ghost predicate IsWalk<T(!new)>(edges: set<(T, T)>, w: seq<T>) {
    |w| >= 1 && forall i | 0 <= i < |w| - 1 :: (w[i], w[i + 1]) in edges
  }

  ghost predicate IsWalkBetween<T(!new)>(edges: set<(T, T)>, w: seq<T>, a: T, b: T) {
    IsWalk(edges, w) && w[0] == a && w[|w| - 1] == b
  }

  ghost predicate Reaches<T(!new)>(edges: set<(T, T)>, a: T, b: T) {
    exists w :: IsWalkBetween(edges, w, a, b)
  }

  ghost predicate Acyclic<T(!new)>(edges: set<(T, T)>) {
    !exists w, a :: |w| >= 2 && IsWalkBetween(edges, w, a, a)
  }

  ghost predicate ClosedForward<T(!new)>(edges: set<(T, T)>, s: set<T>) {
    forall e | e in edges && e.0 in s :: e.1 in s
  }

  ghost predicate ClosedBackward<T(!new)>(edges: set<(T, T)>, s: set<T>) {
    forall e | e in edges && e.1 in s :: e.0 in s
  }

  lemma ReachesSelf<T(!new)>(edges: set<(T, T)>, a: T)
    ensures Reaches(edges, a, a)
  {
    assert IsWalkBetween(edges, [a], a, a);
  }

  lemma ReachesAppend<T(!new)>(edges: set<(T, T)>, a: T, b: T, c: T)
    requires Reaches(edges, a, b) && (b, c) in edges
    ensures Reaches(edges, a, c)
  {
    var w :| IsWalkBetween(edges, w, a, b);
    assert IsWalkBetween(edges, w + [c], a, c);
  }

  lemma ReachesPrepend<T(!new)>(edges: set<(T, T)>, a: T, b: T, c: T)
    requires (a, b) in edges && Reaches(edges, b, c)
    ensures Reaches(edges, a, c)
  {
    var w :| IsWalkBetween(edges, w, b, c);
    var v := [a] + w;
    forall i | 0 <= i < |v| - 1 ensures (v[i], v[i + 1]) in edges {
      if i > 0 { assert v[i] == w[i - 1] && v[i + 1] == w[i]; }
    }
    assert IsWalkBetween(edges, v, a, c);
  }

  /** An edge that closes a walk back on itself is a cycle. */
  lemma ClosingEdge<T(!new)>(edges: set<(T, T)>, a: T, b: T)
    requires Reaches(edges, a, b) && (b, a) in edges
    ensures !Acyclic(edges)
  {
    var w :| IsWalkBetween(edges, w, a, b);
    assert IsWalkBetween(edges, w + [a], a, a);
  }

  lemma {:induction false} WalkStaysForward<T(!new)>(edges: set<(T, T)>, s: set<T>, w: seq<T>, i: nat)
    requires ClosedForward(edges, s) && IsWalk(edges, w) && w[0] in s && i < |w|
    ensures w[i] in s
  {
    if i > 0 {
      WalkStaysForward(edges, s, w, i - 1);
      assert (w[i - 1], w[i - 1 + 1]) in edges;
    }
  }

  lemma {:induction false} WalkStaysBackward<T(!new)>(edges: set<(T, T)>, s: set<T>, w: seq<T>, i: nat)
    requires ClosedBackward(edges, s) && IsWalk(edges, w) && i < |w| && w[|w| - 1] in s
    ensures w[i] in s
    decreases |w| - i
  {
    if i < |w| - 1 {
      WalkStaysBackward(edges, s, w, i + 1);
      assert (w[i], w[i + 1]) in edges;
    }
  }

  /** A set closed under the edges that holds `a` holds all that `a` reaches. */
  lemma ReachesInside<T(!new)>(edges: set<(T, T)>, s: set<T>, a: T, b: T)
    requires Reaches(edges, a, b)
    ensures ClosedForward(edges, s) && a in s ==> b in s
    ensures ClosedBackward(edges, s) && b in s ==> a in s
  {
    var w :| IsWalkBetween(edges, w, a, b);
    if ClosedForward(edges, s) && a in s { WalkStaysForward(edges, s, w, |w| - 1); }
    if ClosedBackward(edges, s) && b in s { WalkStaysBackward(edges, s, w, 0); }
  }

  // --- the cycle check --------------------------------------------------------

  datatype Colour = Grey | Black

  type Adjacency = map<Name, seq<Name>>

  ghost function EdgesOf(adj: Adjacency): set<Edge> {
    set a, b | a in adj && b in adj[a] :: (a, b)
  }

  /** Every edge out of a finished operation goes to one that finished earlier. */
  ghost predicate Descends(edges: set<Edge>, rank: map<Name, nat>) {
    forall e | e in edges && e.0 in rank :: e.1 in rank && rank[e.1] < rank[e.0]
  }

  lemma {:induction false} WalkDescends(edges: set<Edge>, rank: map<Name, nat>, w: seq<Name>, i: nat)
    requires Descends(edges, rank) && IsWalk(edges, w) && w[0] in rank && i < |w|
    ensures w[i] in rank && rank[w[i]] <= rank[w[0]]
    ensures i > 0 ==> rank[w[i]] < rank[w[0]]
  {
    if i > 0 {
      WalkDescends(edges, rank, w, i - 1);
      assert (w[i - 1], w[i - 1 + 1]) in edges;
    }
  }

  lemma RankedIsAcyclic(edges: set<Edge>, rank: map<Name, nat>)
    requires Descends(edges, rank)
    requires forall e | e in edges :: e.0 in rank
    ensures Acyclic(edges)
  {
    if w, a :| |w| >= 2 && IsWalkBetween(edges, w, a, a) {
      assert (w[0], w[0 + 1]) in edges;
      WalkDescends(edges, rank, w, |w| - 1);
      assert false;
    }
  }

  /** The depth-first colouring shared by the recursive closure of `Validate`. */
  class Colouring {
    const adj: Adjacency
    ghost const nodes: set<Name>
    var colour: map<Name, Colour>
    ghost var rank: map<Name, nat>

    constructor (adj: Adjacency, ghost nodes: set<Name>)
      requires forall e | e in EdgesOf(adj) :: e.0 in nodes && e.1 in nodes
      ensures this.adj == adj && this.nodes == nodes && colour == map[] && Valid()
    {
      this.adj := adj;
      this.nodes := nodes;
      colour := map[];
      rank := map[];
    }

    ghost predicate Valid()
      reads this
    {
      && (forall e | e in EdgesOf(adj) :: e.0 in nodes && e.1 in nodes)
      && colour.Keys <= nodes
      && rank.Keys == (set n | n in colour && colour[n] == Black)
      && Descends(EdgesOf(adj), rank)
    }

    ghost function GreyNames(): set<Name>
      reads this
    {
      set n | n in colour && colour[n] == Grey
    }

    /** True when a grey operation is met again: the walk so far closes a cycle. */
    method Visit(n: Name) returns (cycle: bool)
      requires Valid() && n in nodes && n !in colour
      requires forall g | g in GreyNames() :: Reaches(EdgesOf(adj), g, n)
      modifies this
      ensures cycle ==> !Acyclic(EdgesOf(adj))
      ensures !cycle ==> Valid() && n in rank && GreyNames() == old(GreyNames())
      ensures !cycle ==> forall m | m in old(rank) :: m in rank && rank[m] == old(rank[m])
      ensures !cycle ==> old(colour.Keys) <= colour.Keys
      decreases nodes - colour.Keys
    {
      ghost var edges := EdgesOf(adj);
      ghost var grey0 := GreyNames();
      colour := colour[n := Grey];
      assert GreyNames() == grey0 + {n};
      ReachesSelf(edges, n);
      var succ := if n in adj then adj[n] else [];
      for i := 0 to |succ|
        invariant Valid() && n in colour && colour[n] == Grey
        invariant old(colour.Keys) + {n} <= colour.Keys
        invariant GreyNames() == grey0 + {n}
        invariant forall j | 0 <= j < i :: succ[j] in rank
        invariant forall m | m in old(rank) :: m in rank && rank[m] == old(rank[m])
      {
        var m := succ[i];
        assert (n, m) in edges;
        if m in colour {
          if colour[m] == Grey {
            assert m in GreyNames();
            ClosingEdge(edges, m, n);
            return true;
          }
          assert m in rank;
        } else {
          forall g | g in GreyNames() ensures Reaches(edges, g, m) {
            ReachesAppend(edges, g, n, m);
          }
          var deeper := Visit(m);
          if deeper { return true; }
          assert n in GreyNames();
        }
      }
      ghost var rank1 := rank;
      ghost var top: nat := MaxRank(rank) + 1;
      colour := colour[n := Black];
      rank := rank[n := top];
      assert n !in grey0;
      assert GreyNames() == grey0;
      forall e | e in edges && e.0 in rank ensures e.1 in rank && rank[e.1] < rank[e.0] {
        if e.0 == n {
          assert e.1 in adj[n];
          assert e.1 in rank1;
          RankBound(rank1, e.1);
        } else {
          assert e.0 in rank1 && e.1 in rank1 && e.1 != n;
        }
      }
      return false;
    }
  }

  ghost function MaxRank(rank: map<Name, nat>): nat {
    if rank == map[] then 0
    else
      var n :| n in rank;
      var rest := MaxRank(rank - {n});
      if rank[n] > rest then rank[n] else rest
  }

  lemma {:induction false} RankBound(rank: map<Name, nat>, n: Name)
    requires n in rank
    ensures rank[n] <= MaxRank(rank)
    decreases |rank|
  {
    var m :| m in rank && MaxRank(rank) == (var rest := MaxRank(rank - {m}); if rank[m] > rest then rank[m] else rest);
    if m != n {
      assert n in rank - {m} && (rank - {m})[n] == rank[n];
      assert |rank - {m}| < |rank| by {
        assert (rank - {m}).Keys == rank.Keys - {m};
        assert |rank.Keys - {m}| == |rank.Keys| - 1;
      }
      RankBound(rank - {m}, n);
    }
  }

  datatype Verdict =
    | Accepted
    | DuplicateOperation
    | DuplicateChannel
    | UnknownProducer
    | UnknownConsumer
    | CollectiveWithoutStore
    | FeedbackWithoutConsumer
    | OverflowUndeclared
    | OverflowToItself
    | UnmarkedCycle

  ghost predicate Distinct(names: seq<Name>) {
    forall i, j | 0 <= i < j < |names| :: names[i] != names[j]
  }

  ghost predicate DistinctChannels(channels: seq<Spec>) {
    forall i, j | 0 <= i < j < |channels| :: channels[i].name != channels[j].name
  }

  /** The references of one channel resolve, and the operations in `storeless` need no store for it. */
  ghost predicate Resolves(ops: seq<Name>, storeless: set<Name>, channels: seq<Spec>, c: Spec) {
    && (c.from.Some? ==> c.from.value in ops)
    && (c.to.Some? ==> c.to.value in ops)
    && (c.to.Some? && c.from.Some? ==> c.from.value !in storeless)
    && (c.feedback.Some? ==>
          && c.to.Some?
          && (c.feedback.value.overflow.Some? ==>
                && (exists d :: d in channels && d.name == c.feedback.value.overflow.value)
                && c.feedback.value.overflow.value != c.name))
  }

  ghost predicate Declared(ops: seq<Name>, storeless: set<Name>, channels: seq<Spec>) {
    && Distinct(ops)
    && DistinctChannels(channels)
    && forall c | c in channels :: Resolves(ops, storeless, channels, c)
  }

  /** The graph with its feedback channels removed. */
  ghost function ForwardEdges(channels: set<Spec>): set<Edge> {
    set c | c in channels && c.IsForward() :: (c.from.value, c.to.value)
  }

  ghost function AsSet<T>(s: seq<T>): set<T> {
    set x | x in s
  }

  method FirstRepeated(names: seq<Name>) returns (seen: set<Name>, repeated: bool)
    ensures repeated <==> !Distinct(names)
    ensures !repeated ==> seen == AsSet(names)
  {
    seen := {};
    for i := 0 to |names|
      invariant Distinct(names[..i])
      invariant seen == AsSet(names[..i])
    {
      if names[i] in seen {
        var j :| 0 <= j < i && names[j] == names[i];
        return seen, true;
      }
      seen := seen + {names[i]};
      assert names[..i + 1] == names[..i] + [names[i]];
    }
    assert names[..|names|] == names;
    return seen, false;
  }

  method CheckReferences(ops: seq<Name>, known: set<Name>, storeless: set<Name>, channels: seq<Spec>, chans: set<Name>, c: Spec)
    returns (v: Verdict)
    requires known == AsSet(ops)
    requires chans == set d | d in channels :: d.name
    ensures v != UnmarkedCycle
    ensures v == Accepted <==> Resolves(ops, storeless, channels, c)
  {
    if c.from.Some? && c.from.value !in known { return UnknownProducer; }
    if c.to.Some? && c.to.value !in known { return UnknownConsumer; }
    if c.to.Some? && c.from.Some? && c.from.value in storeless { return CollectiveWithoutStore; }
    if c.feedback.Some? {
      if c.to.None? { return FeedbackWithoutConsumer; }
      if c.feedback.value.overflow.Some? {
        var o := c.feedback.value.overflow.value;
        if o !in chans { return OverflowUndeclared; }
        if o == c.name { return OverflowToItself; }
      }
    }
    return Accepted;
  }

  /** Checks one channel after the other and collects the edges of those without feedback. */
  method CollectEdges(ops: seq<Name>, known: set<Name>, storeless: set<Name>, channels: seq<Spec>, chans: set<Name>)
    returns (v: Verdict, adj: Adjacency)
    requires known == AsSet(ops)
    requires chans == set d | d in channels :: d.name
    ensures v != UnmarkedCycle
    ensures v == Accepted <==> forall c | c in channels :: Resolves(ops, storeless, channels, c)
    ensures v == Accepted ==> EdgesOf(adj) == ForwardEdges(AsSet(channels)) && forall e | e in EdgesOf(adj) :: e.0 in known && e.1 in known
  {
    adj := map[];
    for i := 0 to |channels|
      invariant forall c | c in channels[..i] :: Resolves(ops, storeless, channels, c)
      invariant EdgesOf(adj) == ForwardEdges(AsSet(channels[..i]))
      invariant forall e | e in EdgesOf(adj) :: e.0 in known && e.1 in known
    {
      var c := channels[i];
      v := CheckReferences(ops, known, storeless, channels, chans, c);
      if v != Accepted { assert c in channels; return; }
      ghost var adj0 := adj;
      if c.IsForward() {
        var a := c.from.value;
        adj := adj[a := (if a in adj then adj[a] else []) + [c.to.value]];
        assert EdgesOf(adj) == EdgesOf(adj0) + {(a, c.to.value)};
      }
      assert AsSet(channels[..i + 1]) == AsSet(channels[..i]) + {c} by {
        assert channels[..i + 1] == channels[..i] + [c];
      }
      ForwardEdgesAdd(AsSet(channels[..i]), c);
    }
    assert channels[..|channels|] == channels;
    v := Accepted;
  }

  /**
   The graph is accepted exactly when its names resolve, collective operations
   have an object store for what they hand on, and its non-feedback part has no
   cycle, whatever order the operations are visited in.
   */
  method Validate(ops: seq<Name>, collectives: set<Name>, objectStore: bool, channels: seq<Spec>) returns (v: Verdict)
    ensures v == Accepted <==> Declared(ops, if objectStore then {} else collectives, channels) && Acyclic(ForwardEdges(AsSet(channels)))
    ensures v == UnmarkedCycle <==> Declared(ops, if objectStore then {} else collectives, channels) && !Acyclic(ForwardEdges(AsSet(channels)))
  {
    var known, repeated := FirstRepeated(ops);
    if repeated { return DuplicateOperation; }
    var names := seq(|channels|, i requires 0 <= i < |channels| => channels[i].name);
    var chans, again := FirstRepeated(names);
    if again {
      var i, j :| 0 <= i < j < |names| && names[i] == names[j];
      assert channels[i].name == channels[j].name;
      return DuplicateChannel;
    }
    assert DistinctChannels(channels) by {
      forall i, j | 0 <= i < j < |channels| ensures channels[i].name != channels[j].name {
        assert names[i] != names[j];
      }
    }
    assert chans == set d | d in channels :: d.name by {
      assert forall i | 0 <= i < |channels| :: channels[i] in channels && names[i] == channels[i].name;
    }
    var adj: Adjacency;
    v, adj := CollectEdges(ops, known, if objectStore then {} else collectives, channels, chans);
    if v == Accepted { v := VisitAll(known, adj); }
  }

  lemma ForwardEdgesAdd(channels: set<Spec>, c: Spec)
    ensures ForwardEdges(channels + {c})
         == ForwardEdges(channels) + (if c.IsForward() then {(c.from.value, c.to.value)} else {})
  {
  }

  method VisitAll(ops: set<Name>, adj: Adjacency) returns (v: Verdict)
    requires forall e | e in EdgesOf(adj) :: e.0 in ops && e.1 in ops
    ensures v == Accepted || v == UnmarkedCycle
    ensures v == Accepted <==> Acyclic(EdgesOf(adj))
  {
    var dfs := new Colouring(adj, ops);
    var rest := ops;
    while rest != {}
      invariant dfs.Valid() && dfs.GreyNames() == {} && rest <= ops
      invariant dfs.adj == adj && dfs.nodes == ops
      invariant forall n | n in ops - rest :: n in dfs.rank
      decreases rest
    {
      var name :| name in rest;
      if name !in dfs.colour {
        var cycle := dfs.Visit(name);
        if cycle { return UnmarkedCycle; }
      } else {
        assert name in dfs.GreyNames() <==> dfs.colour[name] == Grey;
      }
      rest := rest - {name};
    }
    RankedIsAcyclic(EdgesOf(adj), dfs.rank);
    return Accepted;
  }

  // --- asynchronous loops -------------------------------------------------------

  /** The operations on the cycle that the feedback edge from -> to closes. */
  ghost predicate OnLoop(channels: set<Spec>, from: Name, to: Name, o: Name) {
    || o == from
    || o == to
    || (Reaches(ForwardEdges(channels), to, o) && Reaches(ForwardEdges(channels), o, from))
  }

  ghost function Endpoints(channels: set<Spec>): set<Name> {
    (set c | c in channels && c.from.Some? :: c.from.value) + (set c | c in channels && c.to.Some? :: c.to.value)
  }

  /** The saturation loop computes exactly the operations on the cycle. */
  method CycleMembers(channels: set<Spec>, from: Name, to: Name) returns (members: set<Name>)
    ensures forall o :: o in members <==> OnLoop(channels, from, to, o)
  {
    ghost var edges := ForwardEdges(channels);
    ghost var universe := Endpoints(channels) + {from, to};
    var forward, backward := {to}, {from};
    ReachesSelf(edges, to);
    ReachesSelf(edges, from);
    var changed := true;
    while changed
      invariant to in forward && from in backward
      invariant forward <= universe && backward <= universe
      invariant forall o | o in forward :: Reaches(edges, to, o)
      invariant forall o | o in backward :: Reaches(edges, o, from)
      invariant !changed ==> ClosedForward(edges, forward) && ClosedBackward(edges, backward)
      decreases |universe - forward| + |universe - backward|, changed
    {
      changed := false;
      var rest := channels;
      ghost var size := |universe - forward| + |universe - backward|;
      while rest != {}
        invariant rest <= channels && to in forward && from in backward
        invariant forward <= universe && backward <= universe
        invariant forall o | o in forward :: Reaches(edges, to, o)
        invariant forall o | o in backward :: Reaches(edges, o, from)
        invariant |universe - forward| + |universe - backward| <= size
        invariant changed ==> |universe - forward| + |universe - backward| < size
        invariant !changed ==> forall c | c in channels - rest && c.IsForward() ::
          && (c.from.value in forward ==> c.to.value in forward)
          && (c.to.value in backward ==> c.from.value in backward)
        decreases rest
      {
        var c :| c in rest;
        rest := rest - {c};
        if c.IsForward() {
          var a, b := c.from.value, c.to.value;
          assert (a, b) in edges;
          assert a in universe && b in universe;
          if a in forward && b !in forward {
            ReachesAppend(edges, to, a, b);
            AddShrinks(universe, forward, b);
            forward := forward + {b};
            changed := true;
          }
          if b in backward && a !in backward {
            ReachesPrepend(edges, a, b, from);
            AddShrinks(universe, backward, a);
            backward := backward + {a};
            changed := true;
          }
        }
      }
    }
    members := {to, from} + (forward * backward);
    forall o ensures o in forward <==> Reaches(edges, to, o) {
      if Reaches(edges, to, o) { ReachesInside(edges, forward, to, o); }
    }
    forall o ensures o in backward <==> Reaches(edges, o, from) {
      if Reaches(edges, o, from) { ReachesInside(edges, backward, o, from); }
    }
  }

  lemma AddShrinks<T>(universe: set<T>, s: set<T>, x: T)
    requires x in universe && x !in s
    ensures |universe - (s + {x})| < |universe - s|
  {
    assert universe - s == (universe - (s + {x})) + {x};
  }

  // --- finite epochs --------------------------------------------------------------

  /** One step of the saturation: either end of a channel marks the other end that names an operation. */
  ghost function WeakEdges(channels: set<Spec>): set<(Option<Name>, Option<Name>)> {
    (set c | c in channels && c.to.Some? :: (c.from, c.to)) + (set c | c in channels && c.from.Some? :: (c.to, c.from))
  }

  ghost function LoopEnds(channels: set<Spec>): set<Option<Name>> {
    (set c | c in channels && c.IsSynchronous() :: c.from) + (set c | c in channels && c.IsSynchronous() :: c.to)
  }

  /** The end is in a component of the graph that holds a Synchronous loop. */
  ghost predicate InLoopComponent(channels: set<Spec>, o: Option<Name>) {
    exists e :: e in LoopEnds(channels) && Reaches(WeakEdges(channels), e, o)
  }

  predicate Touches(c: Spec, finite: set<Option<Name>>) {
    c.from in finite || c.to in finite
  }

  /** The set with both ends of the channel that name operations. */
  function WithEnds(c: Spec, finite: set<Option<Name>>): set<Option<Name>> {
    finite + (if c.from.Some? then {c.from} else {}) + (if c.to.Some? then {c.to} else {})
  }

  ghost predicate AllInLoopComponent(channels: set<Spec>, finite: set<Option<Name>>) {
    forall o | o in finite :: InLoopComponent(channels, o)
  }

  lemma SpreadsAlong(channels: set<Spec>, a: Option<Name>, b: Option<Name>)
    requires InLoopComponent(channels, a) && (a, b) in WeakEdges(channels)
    ensures InLoopComponent(channels, b)
  {
    var e :| e in LoopEnds(channels) && Reaches(WeakEdges(channels), e, a);
    ReachesAppend(WeakEdges(channels), e, a, b);
  }

  lemma WithEndsSound(channels: set<Spec>, c: Spec, finite: set<Option<Name>>)
    requires c in channels && Touches(c, finite) && AllInLoopComponent(channels, finite)
    ensures AllInLoopComponent(channels, WithEnds(c, finite))
  {
    if c.from in finite {
      if c.to.Some? { SpreadsAlong(channels, c.from, c.to); }
    } else {
      if c.from.Some? { SpreadsAlong(channels, c.to, c.from); }
    }
  }

  lemma SaturatedIsClosed(channels: set<Spec>, finite: set<Option<Name>>)
    requires forall c | c in channels && Touches(c, finite) :: WithEnds(c, finite) == finite
    ensures ClosedForward(WeakEdges(channels), finite)
  {
    forall e | e in WeakEdges(channels) && e.0 in finite ensures e.1 in finite {
      var c :| c in channels && ((c.to.Some? && e == (c.from, c.to)) || (c.from.Some? && e == (c.to, c.from)));
      assert Touches(c, finite);
      assert e.1 in WithEnds(c, finite);
    }
  }

  method WeakPass(channels: set<Spec>, finite0: set<Option<Name>>) returns (finite: set<Option<Name>>, changed: bool)
    requires AllInLoopComponent(channels, finite0)
    ensures finite0 <= finite && AllInLoopComponent(channels, finite)
    ensures finite <= finite0 + (set c | c in channels :: c.from) + (set c | c in channels :: c.to)
    ensures changed <==> finite != finite0
    ensures !changed ==> forall c | c in channels && Touches(c, finite) :: WithEnds(c, finite) == finite
  {
    finite := finite0;
    changed := false;
    var rest := channels;
    while rest != {}
      invariant rest <= channels && finite0 <= finite && AllInLoopComponent(channels, finite)
      invariant finite <= finite0 + (set c | c in channels :: c.from) + (set c | c in channels :: c.to)
      invariant changed <==> finite != finite0
      invariant !changed ==> forall c | c in channels - rest && Touches(c, finite) :: WithEnds(c, finite) == finite
      decreases rest
    {
      var c :| c in rest;
      rest := rest - {c};
      if Touches(c, finite) {
        WithEndsSound(channels, c, finite);
        if WithEnds(c, finite) != finite {
          finite := WithEnds(c, finite);
          changed := true;
        }
      }
    }
  }

  /** The channel ends whose channels run on finite epochs. */
  method FiniteOperations(channels: set<Spec>) returns (finite: set<Option<Name>>)
    ensures forall o :: o in finite <==> InLoopComponent(channels, o)
  {
    ghost var universe := (set c | c in channels :: c.from) + (set c | c in channels :: c.to);
    finite := (set c | c in channels && c.IsSynchronous() :: c.from) + (set c | c in channels && c.IsSynchronous() :: c.to);
    forall o | o in finite ensures InLoopComponent(channels, o) { ReachesSelf(WeakEdges(channels), o); }
    var changed := true;
    while changed
      invariant LoopEnds(channels) <= finite <= universe
      invariant AllInLoopComponent(channels, finite)
      invariant !changed ==> forall c | c in channels && Touches(c, finite) :: WithEnds(c, finite) == finite
      decreases universe - finite, changed
    {
      finite, changed := WeakPass(channels, finite);
    }
    SaturatedIsClosed(channels, finite);
    forall o | InLoopComponent(channels, o) ensures o in finite {
      var e :| e in LoopEnds(channels) && Reaches(WeakEdges(channels), e, o);
      ReachesInside(WeakEdges(channels), finite, e, o);
    }
  }
}
