/**
 * The Python prototype of the scheduler: the same Ready filter, an argmin
 * over per-node request times with the first index winning ties, a filter
 * on phase and scheduler name only, and a binding in the "default"
 * namespace. The Sysdig query of get_request_time is a function from the
 * full hostname to its value.
 */
module PyScheduler {
  import opened Wrappers
  import opened Kubernetes
  import opened Scheduler
  import Main

  const SchedulerName: string := "sysdigsched"

  /** What best_request_time returns: an empty list for no nodes, otherwise a node name. */
  datatype PyNodeArg = EmptyList | NodeName(name: string)

  /** Index k holds a lowest time and every earlier time is strictly higher. */
  predicate IsFirstMinimal(times: seq<real>, k: int) {
    && 0 <= k < |times|
    && (forall i :: 0 <= i < |times| ==> times[k] <= times[i])
    && (forall i :: 0 <= i < k ==> times[k] < times[i])
  }

  /** min over a non-empty list. */
  function MinTime(times: seq<real>): (m: real)
    requires |times| > 0
    ensures m in times
    ensures forall i :: 0 <= i < |times| ==> m <= times[i]
  {
    if |times| == 1 then times[0]
    else
      var rest := MinTime(times[1..]);
      assert forall i :: 1 <= i < |times| ==> times[i] == times[1..][i - 1];
      if times[0] <= rest then times[0] else rest
  }

  /** list.index: the first position holding `x`. */
  function IndexOf(xs: seq<real>, x: real): (k: nat)
    requires x in xs
    ensures k < |xs| && xs[k] == x
    ensures forall j :: 0 <= j < k ==> xs[j] != x
  {
    if xs[0] == x then 0
    else
      assert x in xs[1..];
      1 + IndexOf(xs[1..], x)
  }

  /** The list comprehension of get_request_time over the node names. */
  function NodeTimes(nodes: seq<string>, measure: string -> real): (times: seq<real>)
    ensures |times| == |nodes|
    ensures forall i :: 0 <= i < |nodes| ==> times[i] == measure(nodes[i])
  {
    seq(|nodes|, i requires 0 <= i < |nodes| => measure(nodes[i]))
  }

  /**
   * best_request_time: [] for an empty list, otherwise the node at
   * index(min(times)), the first of the nodes with the lowest time.
   */
  function BestRequestTime(nodes: seq<string>, measure: string -> real): (r: PyNodeArg)
    ensures r == EmptyList <==> nodes == []
    ensures r.NodeName? ==> exists k :: IsFirstMinimal(NodeTimes(nodes, measure), k) && r.name == nodes[k]
  {
    if nodes == [] then EmptyList
    else
      var times := NodeTimes(nodes, measure);
      var k := IndexOf(times, MinTime(times));
      assert IsFirstMinimal(times, k);
      NodeName(nodes[k])
  }

  /** The chosen node is one of the nodes and no node has a lower time. */
  lemma BestRequestTimeIsMinimal(nodes: seq<string>, measure: string -> real)
    requires nodes != []
    ensures BestRequestTime(nodes, measure).NodeName?
    ensures BestRequestTime(nodes, measure).name in nodes
    ensures forall i :: 0 <= i < |nodes| ==> measure(BestRequestTime(nodes, measure).name) <= measure(nodes[i])
  {
  }

  /**
   * When every query succeeds with the same values and none is -1, the Go
   * reduction and the Python argmin pick the same node.
   */
  lemma GoAndPythonPickTheSameNode(nodes: seq<string>, measure: string -> real, ms: seq<Measurement>)
    requires nodes != []
    requires |ms| == |nodes| && forall i :: 0 <= i < |nodes| ==> ms[i] == Measurement(nodes[i], Success(measure(nodes[i])))
    requires forall i :: 0 <= i < |nodes| ==> measure(nodes[i]) != -1.0
    ensures BestRequestTime(nodes, measure) == NodeName(Reduction(ms).name)
  {
    assert ms[0].result.Success?;
    ReductionIsFirstMinimum(ms);
    var k :| IsFirstMinimum(ms, k) && Reduction(ms) == Node(ms[k].name, ms[k].result.value);
    var times := NodeTimes(nodes, measure);
    var r := BestRequestTime(nodes, measure);
    assert r.NodeName?;
    var k' :| IsFirstMinimal(times, k') && r.name == nodes[k'];
    assert IsFirstMinimal(times, k);
    assert times[k] <= times[k'] && times[k'] <= times[k];
    assert k == k';
  }

  /** nodes_available: the nested loop that appends a node's name for each Ready/True condition. */
  method NodesAvailable(items: seq<KubeNode>) returns (readyNodes: seq<string>)
    ensures readyNodes == ReadyNames(items)
  {
    readyNodes := [];
    for i := 0 to |items|
      invariant readyNodes == ReadyNames(items[..i])
    {
      var n := items[i];
      ghost var before := readyNodes;
      for j := 0 to |n.conditions|
        invariant readyNodes == before + ReadyEntries(n.name, n.conditions[..j])
      {
        assert n.conditions[..j + 1][..j] == n.conditions[..j];
        var status := n.conditions[j];
        if status.status == "True" && status.conditionType == "Ready" {
          readyNodes := readyNodes + [n.name];
        }
      }
      assert n.conditions[..|n.conditions|] == n.conditions;
      assert items[..i + 1][..i] == items[..i];
    }
    assert items[..|items|] == items;
  }

  /** The event filter of main: phase Pending and this scheduler's name; the event type is not read. */
  predicate ShouldSchedule(phase: string, podSchedulerName: string) {
    phase == "Pending" && podSchedulerName == SchedulerName
  }

  /**
   * The Go filter is the narrower one: every event it accepts the prototype
   * accepts, and a MODIFIED event for a pending pod is accepted only by the
   * prototype.
   */
  lemma GoFilterIsNarrower(event: Main.PodEvent)
    ensures Main.Schedulable(event, SchedulerName) ==> ShouldSchedule(event.phase, event.schedulerName)
    ensures event.eventType == "MODIFIED" && ShouldSchedule(event.phase, event.schedulerName) ==>
              !Main.Schedulable(event, SchedulerName)
  {
  }

  datatype PyObjectReference = PyObjectReference(kind: string, apiVersion: string, name: PyNodeArg)
  datatype PyBinding = PyBinding(target: PyObjectReference, metadataName: string)
  /** A create_namespaced_binding call: its namespace and its body. */
  datatype PyBindingCall = PyBindingCall(namespace: string, body: PyBinding)

  /** scheduler(name, node, namespace="default"): the pod bound to the v1 Node `node`. */
  function SchedulerCall(name: string, node: PyNodeArg, namespace: string := "default"): (r: PyBindingCall)
    ensures r.namespace == namespace
    ensures r.body.target == PyObjectReference("Node", "v1", node)
    ensures r.body.metadataName == name
  {
    PyBindingCall(namespace, PyBinding(PyObjectReference("Node", "v1", node), name))
  }

  /** For a named node in the default namespace both schedulers post the same target and pod name. */
  lemma BindingsAgree(podName: string, nodeName: string)
    ensures var py := SchedulerCall(podName, NodeName(nodeName));
      var go := SchedulerBinding(podName, nodeName, "");
      && py.namespace == go.namespace
      && py.body.target.kind == go.body.target.kind
      && py.body.target.apiVersion == go.body.target.apiVersion
      && py.body.target.name == NodeName(go.body.target.name)
      && py.body.metadataName == go.body.metadata.name
  {
  }

  /**
   * One iteration of main: a filtered-out event makes no call. Otherwise
   * `listed` is what v1.list_node() gave: its items, or the message of the
   * ApiException it raised, which is caught and printed with no binding
   * posted. With the items, the pod is bound, in "default", to the best of
   * the ready nodes, and to an empty list when no node is ready.
   */
  method HandleEvent(phase: string, podSchedulerName: string, podName: string, listed: Result<seq<KubeNode>, string>, measure: string -> real)
    returns (call: Option<PyBindingCall>, printed: Option<string>)
    ensures !ShouldSchedule(phase, podSchedulerName) ==> call == None && printed == None
    ensures ShouldSchedule(phase, podSchedulerName) && listed.Failure? ==> call == None && printed == Some(listed.error)
    ensures ShouldSchedule(phase, podSchedulerName) && listed.Success? ==>
              && call == Some(SchedulerCall(podName, BestRequestTime(ReadyNames(listed.value), measure)))
              && call.value.namespace == "default"
              && printed == None
    ensures ShouldSchedule(phase, podSchedulerName) && listed.Success? && ReadyNames(listed.value) == [] ==>
              call.value.body.target.name == EmptyList
    ensures call.Some? <==> ShouldSchedule(phase, podSchedulerName) && listed.Success?
  {
    if phase == "Pending" && podSchedulerName == SchedulerName {
      match listed {
        case Failure(message) =>
          return None, Some(message);
        case Success(items) =>
          var readyNodes := NodesAvailable(items);
          var best := BestRequestTime(readyNodes, measure);
          return Some(SchedulerCall(podName, best)), None;
      }
    }
    return None, None;
  }
}
