# JulES aggregation mapping and consistency checks, in Dafny

This project models the part of fram-jules that relates a detailed energy
system model to its coarser, aggregated copy before both are handed to the
JulES solver (`framjules/solve_handler/JulESAggregator.py`). It covers five
operations:

- `_create_aggregation_map`: composes an ordered chain of aggregators. Each
  aggregator maps an id to a set of ids. The result maps every entity of the
  model to its final set of aggregated ids. An id a step does not know passes
  through unchanged. An empty image means the entity was deleted.
  (`AggregationMap.dfy`)
- `_get_graph_aggregation_map`: lifts that entity-level map onto graph
  elements. Each element is owned by one entity object (`get_top_parent()`).
  An element lifts to every aggregated element whose owner is one of the
  aggregated entities of its own owner. Elements that lift to nothing get no
  entry. (`GraphAggregation.dfy`)
- `assert_equal_storages`: compares the storage nodes of the short-, medium-
  and long-term models. It fails, reporting the three labelled remainders,
  only when each model has a storage node that neither of the other two has.
  (`StorageCheck.dfy`)
- `_check_node_rules` and `_check_flow_rules`: add at most one diagnostic
  each to a caller-owned set. A diagnostic is raised when a node with storage,
  or a flow with a start-up cost, was deleted. It is also raised when such a
  component is not connected to exactly one aggregated component with the
  same capability. (`RuleCheck.dfy`)

Entities are modelled as opaque identity tokens (`nat`), so that ownership is
decided by identity and not by name. A model is a `map<string, Token>`. A
capability (storage, start-up cost) is an `Option<string>`, so that a present
empty string counts as present. Diagnostics are structured values
(`Violation`), not formatted strings. The rule checks are methods of a class
`Diagnostics` whose field `violations` is the caller's set. The other three
operations are functions. The chain composition recurses over the sequence
of aggregators.

The behaviour modelled is the one fixed by the assertions of
`tests/test_JulESAggregator.py`, which pin each operation on concrete
inputs. Each of those test cases is restated and proved here on the model.
Where the tests leave a case open, the choice made is listed under
"## Left out".

## Model

| member | source | states |
|---|---|---|
| `AggregationMap.CreateAggregationMap` | tests/test_JulESAggregator.py:61-73 | the aggregation map has exactly one entry per entity of the model and no other keys |
| `AggregationMap.ResolveMembers` | tests/test_JulESAggregator.py:74-111 | an id is reached from a set of candidates iff it is reached from one of them: each step replaces every candidate by its image and unions the results |
| `AggregationMap.ResolveUnion` | tests/test_JulESAggregator.py:87-97 | following the chain from a union of candidates gives the union of the results |
| `AggregationMap.ResolveSplit` | tests/test_JulESAggregator.py:74-98 | following a chain equals following its first part and then its second, for any split point |
| `AggregationMap.ResolveEmpty` | tests/test_JulESAggregator.py:95-112 | an empty candidate set stays empty through any chain |
| `AggregationMap.PassThrough` | tests/test_JulESAggregator.py:71-113 | an id that is a key of no step resolves to itself alone |
| `AggregationMap.IdentityChain` | tests/test_JulESAggregator.py:87-90 | a chain of aggregators that map each key to itself leaves every candidate set unchanged |
| `AggregationMap.AggregationMapPassThrough` | tests/test_JulESAggregator.py:71-113 | an entity unknown to every step is mapped to the singleton of its own id (`Wind1`) |
| `AggregationMap.AggregationMapDeletion` | tests/test_JulESAggregator.py:84-112 | an entity whose candidates are empty after some step is mapped to the empty set, whatever the later steps say (`Thermal1`) |
| `AggregationMap.AggregationMapComposes` | tests/test_JulESAggregator.py:74-116 | an entity's entry under a split chain contains `y` iff some intermediate id reached by the first part reaches `y` through the second |
| `AggregationMap.ShortChainExample` | tests/test_JulESAggregator.py:40-116 | the two-step short-term chain maps the nine entities exactly as the test expects (fan-out of `Node1` and `Module2`, deletion of `Thermal1`, passthrough of `Wind1`) |
| `GraphAggregation.ReverseLookup` | tests/test_JulESAggregator.py:163-166 | the identity lookup table sends each entity object back to the one id it is stored under, and only objects of the model are keys |
| `GraphAggregation.GetGraphAggregationMap` | tests/test_JulESAggregator.py:185-198 | the lift fails iff some element's owner has no id, no entry or an unknown aggregated id; otherwise `g` has an entry iff it lifts to some element, and `h` is in `g`'s entry iff `g`'s owner is mapped to an aggregated entity that owns `h` |
| `GraphAggregation.LiftFanOut` | tests/test_JulESAggregator.py:149-197 | an element whose owner maps to `{M1, M2}` lifts to the union of the elements owned by `M1` and by `M2`, and has an entry iff that union is non-empty |
| `GraphAggregation.LiftOneToOne` | tests/test_JulESAggregator.py:140-195 | an element whose owner maps to a single aggregated entity lifts to exactly the elements that entity owns |
| `GraphAggregation.LiftOmitsEmpty` | tests/test_JulESAggregator.py:146-198 | an element whose owner maps only to aggregated entities owning no element has no entry at all (`N1_simpler`) |
| `GraphAggregation.LiftByOwnerIdentity` | tests/test_JulESAggregator.py:140-195 | two elements owned by the same entity object lift to the same entry (or both to none), whatever their ids (`T2_simpler` is owned by `t1`) |
| `GraphAggregation.GraphExample` | tests/test_JulESAggregator.py:120-199 | the lifting scenario gives exactly the four expected entries and no entry for `N1_simpler` |
| `StorageCheck.AssertEqualStorages` | tests/test_JulESAggregator.py:202-258 | the check fails iff each of the three models has a storage node that neither other model has as a storage node, and then reports, per model, exactly those nodes |
| `StorageCheck.RemaindersDisjoint` | tests/test_JulESAggregator.py:207-215 | no node is reported for two models |
| `StorageCheck.PassWhenOneExplained` | tests/test_JulESAggregator.py:220-258 | the check passes when one model's storage nodes all have storage in one of the other two models |
| `StorageCheck.PassWhenEqual` | tests/test_JulESAggregator.py:220-221 | three models with the same storage nodes pass |
| `StorageCheck.FailsWhenUnequal` | tests/test_JulESAggregator.py:202-217 | the failing scenario reports `{N2_s}`, `{N3_s}` and `{N_s}`, with `""` counting as storage |
| `StorageCheck.PassesWhenOnlyOneUnique` | tests/test_JulESAggregator.py:237-249 | the passing scenario, where only the long-term model has a node of its own, passes |
| `RuleCheck.BearingCount` | tests/test_JulESAggregator.py:277-280 | the set of capability-bearing aggregated ids has one element iff exactly one aggregated id carries the capability |
| `RuleCheck.CheckRule` | tests/test_JulESAggregator.py:261-351 | no mapping gives a deletion diagnostic; otherwise there is no diagnostic iff exactly one aggregated id carries the capability, and a diagnostic lists exactly the capability-bearing aggregated ids; an aggregated id without a component is a lookup failure |
| `RuleCheck.CheckNode` | tests/test_JulESAggregator.py:261-307 | a node without storage gets no diagnostic; a node with storage and no mapping gets a deletion diagnostic; otherwise a lookup fails iff an aggregated id has no component, there is no diagnostic iff exactly one aggregated node has storage, and a diagnostic under the storage rule lists exactly the aggregated nodes with storage |
| `RuleCheck.DeletedIsNotEmpty` | tests/test_JulESAggregator.py:289-307 | no mapping (deletion) and an empty set of aggregated ids give different diagnostics |
| `RuleCheck.Diagnostics.CheckNodeRules` | tests/test_JulESAggregator.py:274-275 | the caller's set only grows, by the node rule's diagnostic if any (at most one), and nothing is added on a lookup failure |
| `RuleCheck.Diagnostics.CheckFlowRules` | tests/test_JulESAggregator.py:322-323 | the caller's set only grows, by the flow rule's diagnostic if any (at most one), and nothing is added on a lookup failure |
| `RuleCheck.NodeOneToManyScenario` | tests/test_JulESAggregator.py:261-286 | a storage node connected to two storage nodes and one plain node yields one diagnostic naming `aggnode1` and `aggnode2` |
| `RuleCheck.NodeDeletedScenario` | tests/test_JulESAggregator.py:289-307 | a storage node with no mapping yields exactly one deletion diagnostic |
| `RuleCheck.FlowOneToManyScenario` | tests/test_JulESAggregator.py:310-331 | a flow with a start-up cost connected to `aggflow1`, `aggflow2` and `aggflow3` yields one diagnostic listing exactly `aggflow1` and `aggflow2` |
| `RuleCheck.FlowDeletedScenario` | tests/test_JulESAggregator.py:334-351 | a flow with a start-up cost and no mapping yields exactly one deletion diagnostic |

## Left out

- `framjules/JulES.py` is not part of this model. It only orchestrates the solver: building, configuring and running it, reading results back, profiling, timing, cache clearing and debug events.
- The rest of `JulESAggregator` (its constructor and the code that builds the aggregated models) is not part of this model. Only the five operations above are.
- The scan that calls the rule checks for every node and flow, and raises once the set of diagnostics is non-empty, is in code that is not part of this model. Only one call of each rule check is modelled.
- Diagnostics are structured values. The exact wording of the messages and Python's rendering of sets inside them are not modelled.
- The framcore `Component`, `Node` and `Flow` classes are reduced to an identity token, an owner token and an optional capability value.
- Exceptions are modelled as values. The failing storage check is `Fail`, with the three remainders. A dictionary lookup of a missing key is `None` from the lifting and `MissingComponent` from the rule checks. This model assumes the implementation indexes its dictionaries directly and raises `KeyError`.
- GraphAggregation.GetGraphAggregationMap: requires that no entity object is stored under two ids in the original model. The identity lookup table is only well defined then. With a repeated object the choice of id depends on how the table is built: if it is built by a dict comprehension, the last id wins. That case is not modelled.
- GraphAggregation.GetGraphAggregationMap: an aggregated element is matched to the aggregated ids of its owner by comparing owner objects, that is, by a forward lookup in the aggregated model. A lift through a reverse identity table for the aggregated side agrees with this only when no aggregated object is stored under two ids and every aggregated element's owner is in the aggregated model. Two cases where a reverse table differs are not modelled. First, an aggregated object stored under two ids: a last-id-wins table resolves its elements to one id only, so elements reached through the other id are lost. Second, an aggregated element whose owner is not in the aggregated model: a reverse-table lookup would raise `KeyError`, while this model just never lifts to that element.
- StorageCheck.AssertEqualStorages: the tests fix only two cases, failure when all three remainders are non-empty and success when only one is. The model fails only when all three are non-empty, so exactly two non-empty remainders pass. No test fixes that case, and it may not be the intended policy.
- RuleCheck.CheckNode: a node without storage gets no diagnostic. The tests only pass nodes with storage, so this case is not fixed by them.
