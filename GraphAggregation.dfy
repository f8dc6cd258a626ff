/**
  Lifting an entity-level aggregation map onto graph elements
  (`JulESAggregator._get_graph_aggregation_map`).

  Each graph element is owned by one entity (`get_top_parent()`), and
  ownership is a matter of object identity: an element is tied to the entity
  object, not to the id under which some model stores it. An original
  element lifts to every aggregated element owned by one of the aggregated
  entities that its own owner is mapped to; an element that lifts to nothing
  gets no entry.
 */
module GraphAggregation {

  import opened Wrappers
  import opened AggregationMap

  /** Graph elements by id, each with the identity of the entity that owns it. */
  type Graph = map<Id, Token>

  /** No entity object is stored under two ids. */
  predicate Injective(model: Model)
  {
    forall e1, e2 :: e1 in model && e2 in model && model[e1] == model[e2] ==> e1 == e2
  }

  /** The identity-keyed lookup table from an entity object back to its id. */
  function ReverseLookup(model: Model): (r: map<Token, Id>)
    requires Injective(model)
    ensures r.Keys == model.Values
    ensures forall e :: e in model ==> model[e] in r && r[model[e]] == e
    ensures forall t :: t in r ==> r[t] in model && model[r[t]] == t
  {
    map e | e in model :: model[e] := e
  }

  /** The original entity that owns `owner` has an entry in the entity map, and
      every aggregated id of that entry is an entity of the aggregated model:
      every dictionary lookup the lifting makes for this owner succeeds. */
  predicate OwnerResolves(entityMap: map<Id, set<Id>>, original: Model, aggregated: Model, owner: Token)
  {
    exists e :: e in original && original[e] == owner && e in entityMap && entityMap[e] <= aggregated.Keys
  }

  /** Element `g` of the original graph lifts to element `h` of the aggregated
      graph: the owner of `g` is mapped to an aggregated entity that owns `h`. */
  predicate LiftsTo(entityMap: map<Id, set<Id>>, original: Model, originalGraph: Graph,
                    aggregated: Model, aggregatedGraph: Graph, g: Id, h: Id)
  {
    && g in originalGraph && h in aggregatedGraph
    && exists e, a :: && e in original && original[e] == originalGraph[g]
                      && e in entityMap && a in entityMap[e]
                      && a in aggregated && aggregated[a] == aggregatedGraph[h]
  }

  /** The aggregated elements owned by any of the aggregated entities `ids`. */
  function OwnedByAny(ids: set<Id>, aggregated: Model, aggregatedGraph: Graph): set<Id>
    requires ids <= aggregated.Keys
  {
    set a, h | a in ids && h in aggregatedGraph && aggregatedGraph[h] == aggregated[a] :: h
  }

  /** The aggregated elements owned by one entity object. */
  function OwnedBy(graph: Graph, owner: Token): set<Id>
  {
    set h | h in graph && graph[h] == owner
  }

  /** The lifted map, or `None` when a lookup fails (in the source, a `KeyError`). */
  function GetGraphAggregationMap(entityMap: map<Id, set<Id>>, original: Model, originalGraph: Graph,
                                  aggregated: Model, aggregatedGraph: Graph): (r: Option<map<Id, set<Id>>>)
    requires Injective(original)
    ensures r.None? <==> exists g :: g in originalGraph && !OwnerResolves(entityMap, original, aggregated, originalGraph[g])
    ensures r.Some? ==> forall g :: g in r.value <==>
      exists h :: LiftsTo(entityMap, original, originalGraph, aggregated, aggregatedGraph, g, h)
    ensures r.Some? ==> forall g, h :: g in r.value ==>
      (h in r.value[g] <==> LiftsTo(entityMap, original, originalGraph, aggregated, aggregatedGraph, g, h))
  {
    var reverse := ReverseLookup(original);
    if forall g :: g in originalGraph ==>
         var owner := originalGraph[g];
         owner in reverse && reverse[owner] in entityMap && entityMap[reverse[owner]] <= aggregated.Keys
    then
      var lifted := map g | g in originalGraph
                      && OwnedByAny(entityMap[reverse[originalGraph[g]]], aggregated, aggregatedGraph) != {}
                      :: OwnedByAny(entityMap[reverse[originalGraph[g]]], aggregated, aggregatedGraph);
      LiftedTargets(entityMap, original, originalGraph, aggregated, aggregatedGraph);
      Some(lifted)
    else
      None
  }

  /** For an element whose owner resolves, the aggregated elements owned by the
      entities its owner is mapped to are exactly the elements it lifts to. */
  lemma LiftedTargets(entityMap: map<Id, set<Id>>, original: Model, originalGraph: Graph,
                      aggregated: Model, aggregatedGraph: Graph)
    requires Injective(original)
    ensures forall g, h :: g in originalGraph && originalGraph[g] in ReverseLookup(original)
                           && ReverseLookup(original)[originalGraph[g]] in entityMap
                           && entityMap[ReverseLookup(original)[originalGraph[g]]] <= aggregated.Keys ==>
      (h in OwnedByAny(entityMap[ReverseLookup(original)[originalGraph[g]]], aggregated, aggregatedGraph)
       <==> LiftsTo(entityMap, original, originalGraph, aggregated, aggregatedGraph, g, h))
  {
    var reverse := ReverseLookup(original);
    forall g, h | g in originalGraph && originalGraph[g] in reverse && reverse[originalGraph[g]] in entityMap
                  && entityMap[reverse[originalGraph[g]]] <= aggregated.Keys
      ensures h in OwnedByAny(entityMap[reverse[originalGraph[g]]], aggregated, aggregatedGraph)
              <==> LiftsTo(entityMap, original, originalGraph, aggregated, aggregatedGraph, g, h)
    {
      var e := reverse[originalGraph[g]];
      if LiftsTo(entityMap, original, originalGraph, aggregated, aggregatedGraph, g, h) {
        var e', a :| && e' in original && original[e'] == originalGraph[g]
                     && e' in entityMap && a in entityMap[e']
                     && a in aggregated && aggregated[a] == aggregatedGraph[h];
        assert e' == e;
      }
    }
  }

  /** Fan-out: an element whose owner is mapped to the aggregated entities `m1`
      and `m2` lifts to every element owned by either of them, and has no entry
      when they own none. With `m1 == m2` this is the one-to-one case. */
  lemma LiftFanOut(entityMap: map<Id, set<Id>>, original: Model, originalGraph: Graph,
                   aggregated: Model, aggregatedGraph: Graph, g: Id, e: Id, m1: Id, m2: Id)
    requires Injective(original)
    requires GetGraphAggregationMap(entityMap, original, originalGraph, aggregated, aggregatedGraph).Some?
    requires g in originalGraph && e in original && original[e] == originalGraph[g]
    requires e in entityMap && entityMap[e] == {m1, m2}
    requires m1 in aggregated && m2 in aggregated
    ensures var r := GetGraphAggregationMap(entityMap, original, originalGraph, aggregated, aggregatedGraph).value;
            var targets := OwnedBy(aggregatedGraph, aggregated[m1]) + OwnedBy(aggregatedGraph, aggregated[m2]);
            && (g in r <==> targets != {})
            && (g in r ==> r[g] == targets)
  {
    var r := GetGraphAggregationMap(entityMap, original, originalGraph, aggregated, aggregatedGraph).value;
    var targets := OwnedBy(aggregatedGraph, aggregated[m1]) + OwnedBy(aggregatedGraph, aggregated[m2]);
    forall h ensures LiftsTo(entityMap, original, originalGraph, aggregated, aggregatedGraph, g, h) <==> h in targets {
      if h in targets {
        var a := if h in OwnedBy(aggregatedGraph, aggregated[m1]) then m1 else m2;
        assert e in original && original[e] == originalGraph[g] && e in entityMap && a in entityMap[e]
            && a in aggregated && aggregated[a] == aggregatedGraph[h];
      }
    }
    if g in r {
      assert r[g] == targets;
    }
    if targets != {} {
      var h :| h in targets;
      assert LiftsTo(entityMap, original, originalGraph, aggregated, aggregatedGraph, g, h);
    }
  }

  /** One-to-one: an element whose owner is mapped to the single aggregated
      entity `m` lifts to the elements `m` owns, and has no entry when it owns none. */
  lemma LiftOneToOne(entityMap: map<Id, set<Id>>, original: Model, originalGraph: Graph,
                     aggregated: Model, aggregatedGraph: Graph, g: Id, e: Id, m: Id)
    requires Injective(original)
    requires GetGraphAggregationMap(entityMap, original, originalGraph, aggregated, aggregatedGraph).Some?
    requires g in originalGraph && e in original && original[e] == originalGraph[g]
    requires e in entityMap && entityMap[e] == {m} && m in aggregated
    ensures var r := GetGraphAggregationMap(entityMap, original, originalGraph, aggregated, aggregatedGraph).value;
            && (g in r <==> OwnedBy(aggregatedGraph, aggregated[m]) != {})
            && (g in r ==> r[g] == OwnedBy(aggregatedGraph, aggregated[m]))
  {
    assert {m, m} == {m};
    LiftFanOut(entityMap, original, originalGraph, aggregated, aggregatedGraph, g, e, m, m);
  }

  /** Omission: an element whose owner is mapped only to aggregated entities
      that own no element gets no entry (not an empty one). */
  lemma LiftOmitsEmpty(entityMap: map<Id, set<Id>>, original: Model, originalGraph: Graph,
                       aggregated: Model, aggregatedGraph: Graph, g: Id, e: Id)
    requires Injective(original)
    requires GetGraphAggregationMap(entityMap, original, originalGraph, aggregated, aggregatedGraph).Some?
    requires g in originalGraph && e in original && original[e] == originalGraph[g] && e in entityMap
    requires forall a :: a in entityMap[e] && a in aggregated ==> OwnedBy(aggregatedGraph, aggregated[a]) == {}
    ensures g !in GetGraphAggregationMap(entityMap, original, originalGraph, aggregated, aggregatedGraph).value
  {
    forall h ensures !LiftsTo(entityMap, original, originalGraph, aggregated, aggregatedGraph, g, h) {
      forall e', a | && e' in original && original[e'] == originalGraph[g]
                     && e' in entityMap && a in entityMap[e'] && a in aggregated
        ensures h !in aggregatedGraph || aggregated[a] != aggregatedGraph[h]
      {
        assert e' == e;
        var owner := aggregated[a];
        assert OwnedBy(aggregatedGraph, owner) == {};
        assert h in aggregatedGraph && owner == aggregatedGraph[h] ==> h in OwnedBy(aggregatedGraph, owner);
      }
    }
  }

  /** Ownership is by identity: two elements owned by the same entity object
      lift alike, whatever their ids. */
  lemma LiftByOwnerIdentity(entityMap: map<Id, set<Id>>, original: Model, originalGraph: Graph,
                            aggregated: Model, aggregatedGraph: Graph, g1: Id, g2: Id)
    requires Injective(original)
    requires GetGraphAggregationMap(entityMap, original, originalGraph, aggregated, aggregatedGraph).Some?
    requires g1 in originalGraph && g2 in originalGraph && originalGraph[g1] == originalGraph[g2]
    ensures var r := GetGraphAggregationMap(entityMap, original, originalGraph, aggregated, aggregatedGraph).value;
            && (g1 in r <==> g2 in r)
            && (g1 in r ==> r[g1] == r[g2])
  {
    var r := GetGraphAggregationMap(entityMap, original, originalGraph, aggregated, aggregatedGraph).value;
    forall h ensures LiftsTo(entityMap, original, originalGraph, aggregated, aggregatedGraph, g1, h)
                 <==> LiftsTo(entityMap, original, originalGraph, aggregated, aggregatedGraph, g2, h)
    {
    }
    if g1 in r {
      var h :| LiftsTo(entityMap, original, originalGraph, aggregated, aggregatedGraph, g1, h);
      assert LiftsTo(entityMap, original, originalGraph, aggregated, aggregatedGraph, g2, h);
    }
    if g2 in r {
      var h :| LiftsTo(entityMap, original, originalGraph, aggregated, aggregatedGraph, g2, h);
      assert LiftsTo(entityMap, original, originalGraph, aggregated, aggregatedGraph, g1, h);
    }
  }

  // ---------------------------------------------------------------------
  // The lifting scenario: entity objects t1, t2, n1, m in the clearing model
  // are the tokens 0 to 3; t, m1, m2 in the aggregated model are 4 to 6, and
  // the aggregated model also holds the clearing object n1 (token 2).

  function ExampleClearing(): Model { map["T1" := 0, "T2" := 1, "N1" := 2, "M" := 3] }

  function ExampleAggregated(): Model { map["T" := 4, "N1" := 2, "M1" := 5, "M2" := 6] }

  /** The element "T2_simpler" is owned by t1, not by t2. */
  function ExampleClearingGraph(): Graph
  {
    map["T1_simpler" := 0, "T2_simpler" := 0, "N1_simpler" := 2, "M_simpler1" := 3, "M_simpler2" := 3]
  }

  function ExampleAggregatedGraph(): Graph
  {
    map["T_simpler" := 4, "M1_simpler1" := 5, "M1_simpler2" := 5, "M2_simpler1" := 6, "M2_simpler2" := 6]
  }

  function ExampleEntityMap(): map<Id, set<Id>>
  {
    map["T1" := {"T"}, "T2" := {"T"}, "N1" := {"N1"}, "M" := {"M1", "M2"}]
  }

  function ExampleLifted(): map<Id, set<Id>>
  {
    map["T1_simpler" := {"T_simpler"}, "T2_simpler" := {"T_simpler"},
        "M_simpler1" := {"M1_simpler1", "M2_simpler1", "M1_simpler2", "M2_simpler2"},
        "M_simpler2" := {"M1_simpler1", "M2_simpler1", "M1_simpler2", "M2_simpler2"}]
  }

  /** The scenario's inputs. */
  predicate IsExample(entityMap: map<Id, set<Id>>, original: Model, originalGraph: Graph,
                      aggregated: Model, aggregatedGraph: Graph)
  {
    && entityMap == ExampleEntityMap() && original == ExampleClearing()
    && originalGraph == ExampleClearingGraph()
    && aggregated == ExampleAggregated() && aggregatedGraph == ExampleAggregatedGraph()
  }

  lemma ExampleClearingInjective()
    ensures Injective(ExampleClearing())
  {
  }

  lemma ExampleOwnership()
    ensures OwnedBy(ExampleAggregatedGraph(), 2) == {}
    ensures OwnedBy(ExampleAggregatedGraph(), 4) == {"T_simpler"}
    ensures OwnedBy(ExampleAggregatedGraph(), 5) == {"M1_simpler1", "M1_simpler2"}
    ensures OwnedBy(ExampleAggregatedGraph(), 6) == {"M2_simpler1", "M2_simpler2"}
  {
    var g := ExampleAggregatedGraph();
    forall h | h in g ensures g[h] != 2 {
    }
  }

  /** T1_simpler and T2_simpler (both owned by t1) lift to T_simpler; the two
      elements of m fan out to the four elements of m1 and m2; N1_simpler has
      no entry because the aggregated n1 owns no element. */
  lemma GraphExample(entityMap: map<Id, set<Id>>, original: Model, originalGraph: Graph,
                     aggregated: Model, aggregatedGraph: Graph)
    requires IsExample(entityMap, original, originalGraph, aggregated, aggregatedGraph)
    ensures Injective(original)
    ensures GetGraphAggregationMap(entityMap, original, originalGraph, aggregated, aggregatedGraph)
            == Some(ExampleLifted())
  {
    ExampleOmitted(entityMap, original, originalGraph, aggregated, aggregatedGraph);
    var r := GetGraphAggregationMap(entityMap, original, originalGraph, aggregated, aggregatedGraph).value;
    var x := ExampleLifted();
    forall g | g in r ensures g in x {
      ExampleClearingGraphKeys(g);
    }
    forall g | g in x ensures g in r && r[g] == x[g] {
      ExampleEntry(entityMap, original, originalGraph, aggregated, aggregatedGraph, g);
    }
    assert r == x;
  }

  lemma ExampleLiftedKeys(g: Id)
    requires g in ExampleLifted()
    ensures g == "T1_simpler" || g == "T2_simpler" || g == "M_simpler1" || g == "M_simpler2"
  {
  }

  lemma ExampleClearingGraphKeys(g: Id)
    requires g in ExampleClearingGraph()
    ensures g in ExampleLifted() || g == "N1_simpler"
  {
  }

  /** Every lookup of the scenario succeeds. */
  lemma ExampleResolves(entityMap: map<Id, set<Id>>, original: Model, originalGraph: Graph,
                        aggregated: Model, aggregatedGraph: Graph)
    requires IsExample(entityMap, original, originalGraph, aggregated, aggregatedGraph)
    ensures Injective(original)
    ensures GetGraphAggregationMap(entityMap, original, originalGraph, aggregated, aggregatedGraph).Some?
  {
    ExampleClearingInjective();
    forall g | g in originalGraph ensures OwnerResolves(entityMap, original, aggregated, originalGraph[g]) {
      var e := if originalGraph[g] == 0 then "T1" else if originalGraph[g] == 2 then "N1" else "M";
      assert e in original && original[e] == originalGraph[g];
    }
  }

  lemma ExampleEntry(entityMap: map<Id, set<Id>>, original: Model, originalGraph: Graph,
                     aggregated: Model, aggregatedGraph: Graph, g: Id)
    requires IsExample(entityMap, original, originalGraph, aggregated, aggregatedGraph)
    requires g in ExampleLifted()
    ensures Injective(original)
    ensures var r := GetGraphAggregationMap(entityMap, original, originalGraph, aggregated, aggregatedGraph);
            r.Some? && g in r.value && r.value[g] == ExampleLifted()[g]
  {
    ExampleLiftedKeys(g);
    if g == "T1_simpler" || g == "T2_simpler" {
      ExampleEntryT(entityMap, original, originalGraph, aggregated, aggregatedGraph, g);
    } else {
      ExampleEntryM(entityMap, original, originalGraph, aggregated, aggregatedGraph, g);
    }
  }

  lemma ExampleEntryT(entityMap: map<Id, set<Id>>, original: Model, originalGraph: Graph,
                      aggregated: Model, aggregatedGraph: Graph, g: Id)
    requires IsExample(entityMap, original, originalGraph, aggregated, aggregatedGraph)
    requires g == "T1_simpler" || g == "T2_simpler"
    ensures Injective(original) && g in ExampleLifted()
    ensures var r := GetGraphAggregationMap(entityMap, original, originalGraph, aggregated, aggregatedGraph);
            r.Some? && g in r.value && r.value[g] == ExampleLifted()[g]
  {
    assert && g in originalGraph && "T1" in original && original["T1"] == originalGraph[g]
           && "T1" in entityMap && entityMap["T1"] == {"T"} && "T" in aggregated
           && OwnedBy(aggregatedGraph, aggregated["T"]) == {"T_simpler"}
           && g in ExampleLifted() && ExampleLifted()[g] == {"T_simpler"}
    by {
      ExampleOwnership();
    }
    ExampleResolves(entityMap, original, originalGraph, aggregated, aggregatedGraph);
    LiftOneToOne(entityMap, original, originalGraph, aggregated, aggregatedGraph, g, "T1", "T");
  }

  lemma ExampleEntryM(entityMap: map<Id, set<Id>>, original: Model, originalGraph: Graph,
                      aggregated: Model, aggregatedGraph: Graph, g: Id)
    requires IsExample(entityMap, original, originalGraph, aggregated, aggregatedGraph)
    requires g == "M_simpler1" || g == "M_simpler2"
    ensures Injective(original) && g in ExampleLifted()
    ensures var r := GetGraphAggregationMap(entityMap, original, originalGraph, aggregated, aggregatedGraph);
            r.Some? && g in r.value && r.value[g] == ExampleLifted()[g]
  {
    assert && g in originalGraph && "M" in original && original["M"] == originalGraph[g]
           && "M" in entityMap && entityMap["M"] == {"M1", "M2"} && "M1" in aggregated && "M2" in aggregated
           && g in ExampleLifted()
           && OwnedBy(aggregatedGraph, aggregated["M1"]) + OwnedBy(aggregatedGraph, aggregated["M2"]) == ExampleLifted()[g]
    by {
      ExampleOwnership();
    }
    ExampleResolves(entityMap, original, originalGraph, aggregated, aggregatedGraph);
    LiftFanOut(entityMap, original, originalGraph, aggregated, aggregatedGraph, g, "M", "M1", "M2");
  }

  lemma ExampleOmitted(entityMap: map<Id, set<Id>>, original: Model, originalGraph: Graph,
                       aggregated: Model, aggregatedGraph: Graph)
    requires IsExample(entityMap, original, originalGraph, aggregated, aggregatedGraph)
    ensures Injective(original)
    ensures var r := GetGraphAggregationMap(entityMap, original, originalGraph, aggregated, aggregatedGraph);
            r.Some? && "N1_simpler" !in r.value
  {
    ExampleResolves(entityMap, original, originalGraph, aggregated, aggregatedGraph);
    ExampleOwnership();
    assert entityMap["N1"] == {"N1"} && aggregated["N1"] == 2;
    LiftOmitsEmpty(entityMap, original, originalGraph, aggregated, aggregatedGraph, "N1_simpler", "N1");
  }
}
