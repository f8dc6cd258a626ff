/**
  The aggregation rules for nodes with storage and flows with a start-up cost
  (`JulESAggregator._check_node_rules` and `_check_flow_rules`).

  A node with storage, or a flow with a start-up cost, must not vanish under
  aggregation, and must be connected to exactly one aggregated component that
  carries the same capability. Each check adds at most one diagnostic to a
  set owned by the caller, so that one scan over all components reports every
  violation. A diagnostic is kept as structured data: the rule, the
  component, and for a wrong connection the capability-bearing aggregated
  components it is connected to.
 */
module RuleCheck {

  import opened Wrappers
  import opened AggregationMap

  /** Which rule a diagnostic belongs to. */
  datatype Rule = NodeStorage | FlowStartUpCost

  datatype Violation =
    | Deleted(rule: Rule, entity: Id)
    | NotExactlyOne(rule: Rule, entity: Id, connectedTo: set<Id>)

  /** The outcome of one check: the diagnostic it adds, if any, or a lookup of
      an aggregated id that is not among the aggregated components (in the
      source, a `KeyError` that leaves the diagnostics untouched). */
  datatype Check = Checked(violation: Option<Violation>) | MissingComponent

  /** Aggregated components by id, each with the capability value it carries:
      what `get_storage()` or `get_startupcost()` returns. */
  type Capabilities = map<Id, Option<string>>

  /** The aggregated ids whose component carries the capability. */
  function Bearing(ids: set<Id>, components: Capabilities): set<Id>
    requires ids <= components.Keys
  {
    set i | i in ids && components[i].Some?
  }

  /** Aggregated id `i` is one of `ids` and its component carries the capability. */
  predicate IsBearing(ids: set<Id>, components: Capabilities, i: Id)
  {
    i in ids && i in components && components[i].Some?
  }

  /** Exactly one of `ids` carries the capability. */
  ghost predicate ExactlyOneBearing(ids: set<Id>, components: Capabilities)
  {
    exists b :: IsBearing(ids, components, b) && forall i :: IsBearing(ids, components, i) ==> i == b
  }

  /** Counting the capability-bearing ids decides the exactly-one rule. */
  lemma BearingCount(ids: set<Id>, components: Capabilities)
    requires ids <= components.Keys
    ensures |Bearing(ids, components)| == 1 <==> ExactlyOneBearing(ids, components)
  {
    var bearing := Bearing(ids, components);
    if |bearing| == 1 {
      var x :| x in bearing;
      assert |bearing - {x}| == 0;
      assert bearing == {x};
      forall i | IsBearing(ids, components, i) ensures i == x {
        assert i in bearing;
      }
      assert IsBearing(ids, components, x);
    }
    if ExactlyOneBearing(ids, components) {
      var b :| IsBearing(ids, components, b) && forall i :: IsBearing(ids, components, i) ==> i == b;
      forall i ensures i in bearing <==> i == b {
        assert i in bearing <==> IsBearing(ids, components, i);
      }
      assert bearing == {b};
    }
  }

  /** The rule shared by nodes and flows, for a component already known to
      carry the capability: `aggregatedIds` is `None` when the component has
      no entry in the aggregation map. */
  function CheckRule(rule: Rule, entity: Id, aggregatedIds: Option<set<Id>>, components: Capabilities): (r: Check)
    ensures r.MissingComponent? <==> aggregatedIds.Some? && !(aggregatedIds.value <= components.Keys)
    ensures aggregatedIds.None? ==> r == Checked(Some(Deleted(rule, entity)))
    ensures aggregatedIds.Some? && r.Checked? ==>
      (r.violation.None? <==> ExactlyOneBearing(aggregatedIds.value, components))
    ensures aggregatedIds.Some? && r.Checked? && r.violation.Some? ==>
      && r.violation.value.NotExactlyOne?
      && r.violation.value.rule == rule && r.violation.value.entity == entity
      && forall i :: i in r.violation.value.connectedTo <==> IsBearing(aggregatedIds.value, components, i)
  {
    match aggregatedIds
    case None => Checked(Some(Deleted(rule, entity)))
    case Some(ids) =>
      if !(ids <= components.Keys) then MissingComponent
      else
        var bearing := Bearing(ids, components);
        BearingCount(ids, components);
        if |bearing| == 1 then Checked(None)
        else Checked(Some(NotExactlyOne(rule, entity, bearing)))
  }

  /** The node rule: a node without storage is not subject to it; a node with
      storage must survive aggregation and be connected to exactly one
      aggregated node with storage. */
  function CheckNode(nodeId: Id, storage: Option<string>, aggregatedIds: Option<set<Id>>, components: Capabilities): (r: Check)
    ensures storage.None? ==> r == Checked(None)
    ensures storage.Some? ==>
      (r.MissingComponent? <==> aggregatedIds.Some? && !(aggregatedIds.value <= components.Keys))
    ensures storage.Some? && aggregatedIds.None? ==> r == Checked(Some(Deleted(NodeStorage, nodeId)))
    ensures storage.Some? && aggregatedIds.Some? && r.Checked? ==>
      (r.violation.None? <==> ExactlyOneBearing(aggregatedIds.value, components))
    ensures storage.Some? && aggregatedIds.Some? && r.Checked? && r.violation.Some? ==>
      && r.violation.value.NotExactlyOne?
      && r.violation.value.rule == NodeStorage && r.violation.value.entity == nodeId
      && forall i :: i in r.violation.value.connectedTo <==> IsBearing(aggregatedIds.value, components, i)
  {
    if storage.None? then Checked(None) else CheckRule(NodeStorage, nodeId, aggregatedIds, components)
  }

  /** The diagnostics a check adds. */
  function Added(c: Check): set<Violation>
  {
    if c.Checked? && c.violation.Some? then {c.violation.value} else {}
  }

  /** The caller-owned set of diagnostics, filled by one scan. */
  class Diagnostics {
    var violations: set<Violation>

    constructor ()
      ensures violations == {}
    {
      violations := {};
    }

    /** Adds the node rule's diagnostic, if any; `ok` is false when an
        aggregated id has no component, and then nothing is added. */
    method CheckNodeRules(nodeId: Id, storage: Option<string>, aggregatedIds: Option<set<Id>>,
                          components: Capabilities) returns (ok: bool)
      modifies this
      ensures ok <==> !CheckNode(nodeId, storage, aggregatedIds, components).MissingComponent?
      ensures violations == old(violations) + Added(CheckNode(nodeId, storage, aggregatedIds, components))
      ensures old(violations) <= violations && |violations - old(violations)| <= 1
    {
      var c := CheckNode(nodeId, storage, aggregatedIds, components);
      ok := !c.MissingComponent?;
      if c.Checked? && c.violation.Some? {
        violations := violations + {c.violation.value};
        assert violations - old(violations) <= {c.violation.value};
      }
    }

    /** Adds the flow rule's diagnostic, if any; `ok` is false when an
        aggregated id has no component, and then nothing is added. The caller
        passes only flows with a start-up cost. */
    method CheckFlowRules(flowId: Id, aggregatedIds: Option<set<Id>>, components: Capabilities) returns (ok: bool)
      modifies this
      ensures ok <==> !CheckRule(FlowStartUpCost, flowId, aggregatedIds, components).MissingComponent?
      ensures violations == old(violations) + Added(CheckRule(FlowStartUpCost, flowId, aggregatedIds, components))
      ensures old(violations) <= violations && |violations - old(violations)| <= 1
    {
      var c := CheckRule(FlowStartUpCost, flowId, aggregatedIds, components);
      ok := !c.MissingComponent?;
      if c.Checked? && c.violation.Some? {
        violations := violations + {c.violation.value};
        assert violations - old(violations) <= {c.violation.value};
      }
    }
  }

  /** No entry in the aggregation map and an entry with no aggregated ids are
      different failures: the first is a deletion, the second a connection to
      no capability-bearing component. */
  lemma DeletedIsNotEmpty(rule: Rule, entity: Id, components: Capabilities)
    ensures CheckRule(rule, entity, None, components) == Checked(Some(Deleted(rule, entity)))
    ensures CheckRule(rule, entity, Some({}), components) == Checked(Some(NotExactlyOne(rule, entity, {})))
  {
    var r := CheckRule(rule, entity, Some({}), components);
    assert !ExactlyOneBearing({}, components);
    assert r.violation.value.connectedTo == {};
  }

  // ---------------------------------------------------------------------
  // The four scenarios, each on a fresh set of diagnostics.

  /** Aggregated components aggnode1, aggnode2 (with storage) and aggnode3 (without). */
  function ThreeNodes(): Capabilities
  {
    map["aggnode1" := Some(""), "aggnode2" := Some(""), "aggnode3" := None]
  }

  /** Aggregated flows aggflow1, aggflow2 (with a start-up cost) and aggflow3 (without). */
  function ThreeFlows(): Capabilities
  {
    map["aggflow1" := Some(""), "aggflow2" := Some(""), "aggflow3" := None]
  }

  /** A storage node connected to two storage nodes gets one diagnostic,
      naming both of them and not the node without storage. */
  method NodeOneToManyScenario() returns (violations: set<Violation>)
    ensures violations == {NotExactlyOne(NodeStorage, "original_node", {"aggnode1", "aggnode2"})}
  {
    var diagnostics := new Diagnostics();
    assert Bearing({"aggnode1", "aggnode2", "aggnode3"}, ThreeNodes()) == {"aggnode1", "aggnode2"};
    var ok := diagnostics.CheckNodeRules("original_node", Some(""), Some({"aggnode1", "aggnode2", "aggnode3"}), ThreeNodes());
    violations := diagnostics.violations;
  }

  /** A storage node with no entry in the aggregation map gets one deletion diagnostic. */
  method NodeDeletedScenario() returns (violations: set<Violation>)
    ensures violations == {Deleted(NodeStorage, "original_node")}
  {
    var diagnostics := new Diagnostics();
    var ok := diagnostics.CheckNodeRules("original_node", Some(""), None, ThreeNodes());
    violations := diagnostics.violations;
  }

  /** A flow with a start-up cost connected to two such flows gets one
      diagnostic, naming exactly those two. */
  method FlowOneToManyScenario() returns (violations: set<Violation>)
    ensures violations == {NotExactlyOne(FlowStartUpCost, "original_flow", {"aggflow1", "aggflow2"})}
  {
    var diagnostics := new Diagnostics();
    assert Bearing({"aggflow1", "aggflow2", "aggflow3"}, ThreeFlows()) == {"aggflow1", "aggflow2"};
    var ok := diagnostics.CheckFlowRules("original_flow", Some({"aggflow1", "aggflow2", "aggflow3"}), ThreeFlows());
    violations := diagnostics.violations;
  }

  /** A flow with a start-up cost and no entry in the aggregation map gets one deletion diagnostic. */
  method FlowDeletedScenario() returns (violations: set<Violation>)
    ensures violations == {Deleted(FlowStartUpCost, "original_flow")}
  {
    var diagnostics := new Diagnostics();
    var ok := diagnostics.CheckFlowRules("original_flow", None, ThreeFlows());
    violations := diagnostics.violations;
  }
}
