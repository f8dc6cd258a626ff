/**
  Composition of a chain of aggregators into one aggregation map
  (`JulESAggregator._create_aggregation_map`).

  Every aggregator maps ids at one resolution to sets of ids at the next,
  coarser one. Following the chain from an id gives the set of top-level
  aggregated ids it ends up as: the empty set when it was deleted, a single
  id when it was renamed or left alone, several ids when it fans out.
 */
module AggregationMap {

  type Id = string

  /** The identity of an entity object; Python compares objects by identity. */
  type Token = nat

  /** A model: its entities by id. */
  type Model = map<Id, Token>

  /** One aggregation step: what `get_aggregation_map()` returns. */
  type Aggregator = map<Id, set<Id>>

  /** What one step makes of one candidate: its image, or the candidate itself
      when the step does not know it. */
  function Image(agg: Aggregator, c: Id): set<Id>
  {
    if c in agg then agg[c] else {c}
  }

  /** One step applied to a whole candidate set: the union of the images. */
  function Step(agg: Aggregator, cands: set<Id>): set<Id>
  {
    set c, y | c in cands && y in Image(agg, c) :: y
  }

  /** The candidates reached from `cands` by following every step of `chain` in order. */
  function Resolve(chain: seq<Aggregator>, cands: set<Id>): set<Id>
    decreases |chain|
  {
    if chain == [] then cands else Resolve(chain[1..], Step(chain[0], cands))
  }

  /** The id is a key of no aggregator of the chain. */
  predicate UnknownToChain(chain: seq<Aggregator>, e: Id)
  {
    forall i :: 0 <= i < |chain| ==> e !in chain[i]
  }

  /** Every key of the aggregator maps to itself alone. */
  predicate IsIdentity(agg: Aggregator)
  {
    forall k :: k in agg ==> agg[k] == {k}
  }

  /** The aggregation map of a model under a chain: one entry per entity of
      the model, holding the final aggregated ids of that entity. */
  function CreateAggregationMap(model: Model, chain: seq<Aggregator>): (r: map<Id, set<Id>>)
    ensures r.Keys == model.Keys
  {
    map e | e in model :: Resolve(chain, {e})
  }

  // ---------------------------------------------------------------------
  // Properties of one step

  lemma StepSingleton(agg: Aggregator, c: Id)
    ensures Step(agg, {c}) == Image(agg, c)
  {
  }

  lemma StepEmpty(agg: Aggregator)
    ensures Step(agg, {}) == {}
  {
  }

  // ---------------------------------------------------------------------
  // Properties of the chain

  /** Following a chain in two pieces is following it in one: composition
      does not depend on how the chain is split into partial compositions. */
  lemma {:induction false} ResolveSplit(first: seq<Aggregator>, second: seq<Aggregator>, cands: set<Id>)
    ensures Resolve(first + second, cands) == Resolve(second, Resolve(first, cands))
    decreases |first|
  {
    if first == [] {
      assert first + second == second;
    } else {
      assert (first + second)[1..] == first[1..] + second;
      ResolveSplit(first[1..], second, Step(first[0], cands));
    }
  }

  /** Nothing comes from nothing: a deleted id stays deleted. */
  lemma {:induction false} ResolveEmpty(chain: seq<Aggregator>)
    ensures Resolve(chain, {}) == {}
    decreases |chain|
  {
    if chain != [] {
      StepEmpty(chain[0]);
      ResolveEmpty(chain[1..]);
    }
  }

  /** The result for a candidate set is the union of the results for each
      candidate: an id is reached iff some candidate reaches it. */
  lemma {:induction false} ResolveMembers(chain: seq<Aggregator>, cands: set<Id>, y: Id)
    ensures y in Resolve(chain, cands) <==> exists c :: c in cands && y in Resolve(chain, {c})
    decreases |chain|
  {
    if chain != [] {
      var agg, rest := chain[0], chain[1..];
      ResolveMembers(rest, Step(agg, cands), y);
      if y in Resolve(chain, cands) {
        var d :| d in Step(agg, cands) && y in Resolve(rest, {d});
        var c :| c in cands && d in Image(agg, c);
        StepSingleton(agg, c);
        ResolveMembers(rest, Image(agg, c), y);
        assert y in Resolve(chain, {c});
      }
      if exists c :: c in cands && y in Resolve(chain, {c}) {
        var c :| c in cands && y in Resolve(chain, {c});
        StepSingleton(agg, c);
        ResolveMembers(rest, Image(agg, c), y);
        var d :| d in Image(agg, c) && y in Resolve(rest, {d});
        assert d in Step(agg, cands);
      }
    }
  }

  /** Resolving a union of candidate sets gives the union of the results. */
  lemma ResolveUnion(chain: seq<Aggregator>, a: set<Id>, b: set<Id>)
    ensures Resolve(chain, a + b) == Resolve(chain, a) + Resolve(chain, b)
  {
    forall y | true
      ensures y in Resolve(chain, a + b) <==> y in Resolve(chain, a) + Resolve(chain, b)
    {
      ResolveMembers(chain, a + b, y);
      ResolveMembers(chain, a, y);
      ResolveMembers(chain, b, y);
    }
  }

  /** An id unknown to every step of the chain passes through as itself. */
  lemma {:induction false} PassThrough(chain: seq<Aggregator>, e: Id)
    requires UnknownToChain(chain, e)
    ensures Resolve(chain, {e}) == {e}
    decreases |chain|
  {
    if chain != [] {
      StepSingleton(chain[0], e);
      PassThrough(chain[1..], e);
    }
  }

  /** A chain of identity aggregators changes no candidate set. */
  lemma {:induction false} IdentityChain(chain: seq<Aggregator>, cands: set<Id>)
    requires forall i :: 0 <= i < |chain| ==> IsIdentity(chain[i])
    ensures Resolve(chain, cands) == cands
    decreases |chain|
  {
    if chain != [] {
      assert Step(chain[0], cands) == cands by {
        forall y | true ensures y in Step(chain[0], cands) <==> y in cands {
          if y in cands {
            assert y in Image(chain[0], y);
          }
        }
      }
      IdentityChain(chain[1..], cands);
    }
  }

  // ---------------------------------------------------------------------
  // The same properties, stated on the aggregation map of a model

  /** An entity that no step of the chain knows keeps its own id. */
  lemma AggregationMapPassThrough(model: Model, chain: seq<Aggregator>, e: Id)
    requires e in model && UnknownToChain(chain, e)
    ensures CreateAggregationMap(model, chain)[e] == {e}
  {
    PassThrough(chain, e);
  }

  /** An entity whose candidates are all deleted after the first `k` steps is
      mapped to the empty set, whatever the later steps say. */
  lemma AggregationMapDeletion(model: Model, chain: seq<Aggregator>, e: Id, k: nat)
    requires e in model && k <= |chain|
    requires Resolve(chain[..k], {e}) == {}
    ensures CreateAggregationMap(model, chain)[e] == {}
  {
    assert chain == chain[..k] + chain[k..];
    ResolveSplit(chain[..k], chain[k..], {e});
    ResolveEmpty(chain[k..]);
  }

  /** The entry of an entity is the composition, entry by entry, of the chain
      split anywhere: the first part gives intermediate ids, and the second
      part maps each of them; the entry is the union of those images. */
  lemma AggregationMapComposes(model: Model, first: seq<Aggregator>, second: seq<Aggregator>, e: Id, y: Id)
    requires e in model
    ensures y in CreateAggregationMap(model, first + second)[e]
        <==> exists m :: m in Resolve(first, {e}) && y in Resolve(second, {m})
  {
    ResolveSplit(first, second, {e});
    ResolveMembers(second, Resolve(first, {e}), y);
  }

  // ---------------------------------------------------------------------
  // The two-step chain of the short-term aggregation scenario

  /** Nine entities: three nodes, four modules, a thermal plant and a wind plant. */
  function ClearingModel(): Model
  {
    map["Node1" := 0, "Node2" := 1, "Node3" := 2, "Module1" := 3, "Module2" := 4,
        "Module3" := 5, "Module4" := 6, "Thermal1" := 7, "Wind1" := 8]
  }

  /** Nodes to areas, modules to themselves, the thermal plant renamed;
      then areas to themselves, modules to area modules, the thermal plant deleted. */
  function ShortChain(): seq<Aggregator>
  {
    [ map["Node1" := {"OSTLAND", "SORLAND"}, "Node2" := {"OSTLAND"}, "Node3" := {"SORLAND"},
          "Module1" := {"Module1"}, "Module2" := {"Module2"}, "Module3" := {"Module3"},
          "Module4" := {"Module4"}, "Thermal1" := {"Thermal"}],
      map["OSTLAND" := {"OSTLAND"}, "SORLAND" := {"SORLAND"},
          "Module1" := {"Module_OSTLAND"}, "Module2" := {"Module_OSTLAND", "Module_SORLAND"},
          "Module3" := {"Module_SORLAND"}, "Module4" := {"Module_SORLAND"}, "Thermal" := {}] ]
  }

  function ShortExpected(): map<Id, set<Id>>
  {
    map["Node1" := {"OSTLAND", "SORLAND"}, "Node2" := {"OSTLAND"}, "Node3" := {"SORLAND"},
        "Module1" := {"Module_OSTLAND"}, "Module2" := {"Module_OSTLAND", "Module_SORLAND"},
        "Module3" := {"Module_SORLAND"}, "Module4" := {"Module_SORLAND"},
        "Thermal1" := {}, "Wind1" := {"Wind1"}]
  }

  /** In a two-step chain, an id that the first step renames to `m` ends as `m`'s image in the second. */
  lemma ThroughOne(a: Aggregator, b: Aggregator, e: Id, m: Id)
    requires e in a && a[e] == {m}
    ensures Resolve([a, b], {e}) == Image(b, m)
  {
    StepSingleton(a, e);
    assert [a, b][1..] == [b];
    assert Resolve([a, b], {e}) == Resolve([b], {m});
    ThroughOneStep(b, m);
  }

  /** In a two-step chain, an id that the first step splits in two ends as the union of their images. */
  lemma ThroughTwo(a: Aggregator, b: Aggregator, e: Id, m1: Id, m2: Id)
    requires e in a && a[e] == {m1, m2}
    ensures Resolve([a, b], {e}) == Image(b, m1) + Image(b, m2)
  {
    StepSingleton(a, e);
    assert [a, b][1..] == [b];
    assert Resolve([a, b], {e}) == Resolve([b], {m1, m2});
    assert {m1, m2} == {m1} + {m2};
    ResolveUnion([b], {m1}, {m2});
    ThroughOneStep(b, m1);
    ThroughOneStep(b, m2);
  }

  lemma ThroughOneStep(b: Aggregator, m: Id)
    ensures Resolve([b], {m}) == Image(b, m)
  {
    StepSingleton(b, m);
    assert [b][1..] == [];
  }

  /** Fan-out survives, fan-out of a module is the union of its images,
      deletion at the second step sticks, and the wind plant passes through. */
  lemma ShortChainExample()
    ensures CreateAggregationMap(ClearingModel(), ShortChain()) == ShortExpected()
  {
    var r := CreateAggregationMap(ClearingModel(), ShortChain());
    var x := ShortExpected();
    assert r.Keys == x.Keys;
    forall k | k in x ensures r[k] == x[k] {
      ShortChainEntry(k);
    }
  }

  /** One entry of the scenario, followed step by step. */
  lemma ShortChainEntry(k: Id)
    requires k in ShortExpected()
    ensures k in ClearingModel()
    ensures CreateAggregationMap(ClearingModel(), ShortChain())[k] == ShortExpected()[k]
  {
    var a, b := ShortChain()[0], ShortChain()[1];
    assert ShortChain() == [a, b];
    ShortExpectedKeys(k);
    if k == "Node1" {
      ThroughTwo(a, b, "Node1", "OSTLAND", "SORLAND");
      assert Image(b, "OSTLAND") == {"OSTLAND"};
      assert Image(b, "SORLAND") == {"SORLAND"};
    } else if k == "Node2" {
      ThroughOne(a, b, "Node2", "OSTLAND");
      assert Image(b, "OSTLAND") == {"OSTLAND"};
    } else if k == "Node3" {
      ThroughOne(a, b, "Node3", "SORLAND");
      assert Image(b, "SORLAND") == {"SORLAND"};
    } else if k == "Module1" {
      ThroughOne(a, b, "Module1", "Module1");
      assert Image(b, "Module1") == {"Module_OSTLAND"};
    } else if k == "Module2" {
      ThroughOne(a, b, "Module2", "Module2");
      assert Image(b, "Module2") == {"Module_OSTLAND", "Module_SORLAND"};
    } else if k == "Module3" {
      ThroughOne(a, b, "Module3", "Module3");
      assert Image(b, "Module3") == {"Module_SORLAND"};
    } else if k == "Module4" {
      ThroughOne(a, b, "Module4", "Module4");
      assert Image(b, "Module4") == {"Module_SORLAND"};
    } else if k == "Thermal1" {
      ThroughOne(a, b, "Thermal1", "Thermal");
      assert Image(b, "Thermal") == {};
    } else {
      assert UnknownToChain([a, b], "Wind1");
      PassThrough([a, b], "Wind1");
    }
  }

  lemma ShortExpectedKeys(k: Id)
    requires k in ShortExpected()
    ensures k == "Node1" || k == "Node2" || k == "Node3" || k == "Module1" || k == "Module2"
         || k == "Module3" || k == "Module4" || k == "Thermal1" || k == "Wind1"
  {
  }
}
