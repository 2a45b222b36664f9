/**
 * The node choice of methods.go: the candidate supply from the cached
 * ready-node list, the metric query per node, the reduction to the node
 * with the lowest value, the best-node cache, and the Binding body.
 *
 * The goroutine fan-out is a loop over the candidates in input order, and
 * the reduction reads the outcomes in that order (the source reads them in
 * completion order). The metrics backend is a function from request to
 * response, so the model can say which request every node caused.
 */
module Scheduler {
  import opened Wrappers
  import opened ExpiringCache
  import opened Kubernetes
  import opened Sysdig

  /** Lifetime of both scheduler caches (main.go:43-44). */
  const CacheTimeout: int := 15 * Second

  /** A ranked node: name and metric value (float64 in the source, only compared). */
  datatype Node = Node(name: string, time: real)

  datatype RankError = EmptyNodeList | NoNodeFound

  datatype QueryError = RequestFailed(reason: string) | BadStatus(status: string) | DecodeFailed(reason: string) | NoDataFound

  /** What the metrics backend answers: a transport error, or a status with the decoded `data[].d` series. */
  datatype MetricResponse =
    | TransportError(reason: string)
    | HttpResponse(statusCode: int, status: string, payload: Result<seq<seq<real>>, string>)

  type MetricsGateway = HttpRequest -> MetricResponse

  /** One per-node outcome of the fan-out; the name is the full node name. */
  datatype Measurement = Measurement(name: string, result: Result<real, QueryError>)

  /** strings.Split(name, ".")[0]: the part of the name before its first dot. */
  function ShortName(name: string): (r: string)
    ensures |r| <= |name| && r == name[..|r|]
    ensures '.' !in r
    ensures |r| < |name| ==> name[|r|] == '.'
  {
    if name == [] || name[0] == '.' then []
    else [name[0]] + ShortName(name[1..])
  }

  /** The Sysdig filter that scopes a query to one host: the host name, quoted, after "host.hostName = ". */
  function HostFilter(host: string): (r: string)
    ensures |r| == |host| + 18
    ensures r[..17] == "host.hostName = '" && r[|r| - 1] == '\''
    ensures r[17..|r| - 1] == host
  {
    "host.hostName = '" + host + "'"
  }

  /** The request getRequestTime makes for `host`: the last 60 seconds, sampled by 60, host-scoped. */
  function RequestTimeQuery(api: SysdigApiClient, metrics: seq<MetricSpec>, host: string): HttpRequest
    reads api
  {
    api.Request("POST", "api/data", map[
      "metrics" := JMetrics(metrics),
      "dataSourceType" := JString("host"),
      "last" := JNumber(60),
      "filter" := JString(HostFilter(host)),
      "sampling" := JNumber(60)])
  }

  /** The value getRequestTime reads from a response: Data[0].D[0] of a 200 answer. */
  function ExtractRequestTime(response: MetricResponse): (r: Result<real, QueryError>)
    ensures r.Success? <==> && response.HttpResponse? && response.statusCode == 200 && response.payload.Success?
                            && |response.payload.value| > 0 && |response.payload.value[0]| > 0
    ensures r.Success? ==> r.value == response.payload.value[0][0]
    ensures response.HttpResponse? && response.statusCode != 200 ==> r == Failure(BadStatus(response.status))
    ensures (response.HttpResponse? && response.statusCode == 200 && response.payload.Success? && r.Failure?)
              ==> r == Failure(NoDataFound)
  {
    match response
    case TransportError(reason) => Failure(RequestFailed(reason))
    case HttpResponse(code, status, payload) =>
      if code != 200 then Failure(BadStatus(status))
      else if payload.Failure? then Failure(DecodeFailed(payload.error))
      else if |payload.value| > 0 && |payload.value[0]| > 0 then Success(payload.value[0][0])
      else Failure(NoDataFound)
  }

  /** getRequestTime: builds the query through GetData, sends it, and reads the value. */
  method GetRequestTime(api: SysdigApiClient, metrics: seq<MetricSpec>, hostname: string, gateway: MetricsGateway)
    returns (requestTime: Result<real, QueryError>, sent: HttpRequest)
    ensures sent == RequestTimeQuery(api, metrics, hostname)
    ensures requestTime == ExtractRequestTime(gateway(sent))
  {
    var hostFilter := HostFilter(hostname);
    var start, end, sampling := -60, 0, 60;
    var request := api.GetData(metrics, start, end, sampling, hostFilter, "host");
    sent := request.value;
    assert sent.body == RequestTimeQuery(api, metrics, hostname).body;
    var response := gateway(sent);
    requestTime := ExtractRequestTime(response);
  }

  /** The outcomes the fan-out collects: node i is queried by its short name and reported by its full name. */
  function Measurements(api: SysdigApiClient, metrics: seq<MetricSpec>, gateway: MetricsGateway, nodes: seq<string>): (ms: seq<Measurement>)
    reads api
    ensures |ms| == |nodes|
    ensures forall i :: 0 <= i < |nodes| ==>
              ms[i] == Measurement(nodes[i], ExtractRequestTime(gateway(RequestTimeQuery(api, metrics, ShortName(nodes[i])))))
  {
    seq(|nodes|, i reads api requires 0 <= i < |nodes| =>
      Measurement(nodes[i], ExtractRequestTime(gateway(RequestTimeQuery(api, metrics, ShortName(nodes[i]))))))
  }

  /** The accumulator before any measurement: no name, and the -1 sentinel as its time. */
  const Unranked: Node := Node("", -1.0)

  /** One step of the reduction loop: a successful value replaces the sentinel or a strictly larger value. */
  function Step(best: Node, m: Measurement): Node {
    if m.result.Success? && (best.time == -1.0 || m.result.value < best.time)
    then Node(m.name, m.result.value)
    else best
  }

  /** The reduction of the outcomes in order, as the loop over the result channel performs it. */
  function Reduction(ms: seq<Measurement>): Node {
    if ms == [] then Unranked
    else Step(Reduction(ms[..|ms| - 1]), ms[|ms| - 1])
  }

  ghost predicate NoSentinelValue(ms: seq<Measurement>) {
    forall i :: 0 <= i < |ms| && ms[i].result.Success? ==> ms[i].result.value != -1.0
  }

  ghost predicate SomeSuccess(ms: seq<Measurement>) {
    exists i :: 0 <= i < |ms| && ms[i].result.Success?
  }

  /** Outcome k succeeded, no success is lower, and every earlier success is strictly higher. */
  ghost predicate IsFirstMinimum(ms: seq<Measurement>, k: int) {
    && 0 <= k < |ms| && ms[k].result.Success?
    && (forall i :: 0 <= i < |ms| && ms[i].result.Success? ==> ms[k].result.value <= ms[i].result.value)
    && (forall i :: 0 <= i < k && ms[i].result.Success? ==> ms[k].result.value < ms[i].result.value)
  }

  /** With no successful outcome the accumulator is never touched. */
  lemma {:induction false} ReductionOfFailures(ms: seq<Measurement>)
    requires forall i :: 0 <= i < |ms| ==> ms[i].result.Failure?
    ensures Reduction(ms) == Unranked
  {
    if ms != [] {
      ReductionOfFailures(ms[..|ms| - 1]);
    }
  }

  /** The result is the sentinel or the name and value of one successful outcome. */
  lemma {:induction false} ReductionFromSuccess(ms: seq<Measurement>)
    ensures || Reduction(ms) == Unranked
            || exists k :: 0 <= k < |ms| && ms[k].result.Success? && Reduction(ms) == Node(ms[k].name, ms[k].result.value)
  {
    if ms != [] {
      var init := ms[..|ms| - 1];
      ReductionFromSuccess(init);
      if Reduction(ms) != Reduction(init) {
        assert Reduction(ms) == Node(ms[|ms| - 1].name, ms[|ms| - 1].result.value);
      } else if Reduction(init) != Unranked {
        var k :| 0 <= k < |init| && init[k].result.Success? && Reduction(init) == Node(init[k].name, init[k].result.value);
        assert ms[k] == init[k];
      }
    }
  }

  /**
   * When no successful value is the sentinel -1 and some query succeeded,
   * the reduction picks the lowest value, and among equal lowest values the
   * first outcome.
   */
  lemma {:induction false} ReductionIsFirstMinimum(ms: seq<Measurement>)
    requires NoSentinelValue(ms) && SomeSuccess(ms)
    ensures exists k :: IsFirstMinimum(ms, k) && Reduction(ms) == Node(ms[k].name, ms[k].result.value)
  {
    var init := ms[..|ms| - 1];
    var last := ms[|ms| - 1];
    assert forall i :: 0 <= i < |init| ==> init[i] == ms[i];
    if SomeSuccess(init) {
      ReductionIsFirstMinimum(init);
      var k :| IsFirstMinimum(init, k) && Reduction(init) == Node(init[k].name, init[k].result.value);
      if last.result.Success? && last.result.value < init[k].result.value {
        assert IsFirstMinimum(ms, |ms| - 1);
      } else {
        assert IsFirstMinimum(ms, k);
      }
    } else {
      ReductionOfFailures(init);
      assert IsFirstMinimum(ms, |ms| - 1);
    }
  }

  /** The fan-out of getBestRequestTime: one getRequestTime per node, by short name, with the outcomes in node order. */
  method QueryAll(nodes: seq<string>, api: SysdigApiClient, metrics: seq<MetricSpec>, gateway: MetricsGateway)
    returns (ms: seq<Measurement>, sent: seq<HttpRequest>)
    ensures ms == Measurements(api, metrics, gateway, nodes)
    ensures |sent| == |nodes| && forall i :: 0 <= i < |nodes| ==> sent[i] == RequestTimeQuery(api, metrics, ShortName(nodes[i]))
  {
    ghost var expected := Measurements(api, metrics, gateway, nodes);
    ms := [];
    sent := [];
    for i := 0 to |nodes|
      invariant ms == expected[..i]
      invariant |sent| == i && forall j :: 0 <= j < i ==> sent[j] == RequestTimeQuery(api, metrics, ShortName(nodes[j]))
    {
      var nodeNameLittle := ShortName(nodes[i]);
      var requestTime, request := GetRequestTime(api, metrics, nodeNameLittle, gateway);
      ms := ms + [Measurement(nodes[i], requestTime)];
      sent := sent + [request];
    }
    assert ms == expected;
  }

  /**
   * The fan-out and reduction of getBestRequestTime: one query per node,
   * by short name; the lowest successful value wins; NoNodeFound when the
   * winner still has no name or the sentinel time.
   */
  method Rank(nodes: seq<string>, api: SysdigApiClient, metrics: seq<MetricSpec>, gateway: MetricsGateway)
    returns (best: Node, err: Option<RankError>, sent: seq<HttpRequest>)
    ensures |sent| == |nodes| && forall i :: 0 <= i < |nodes| ==> sent[i] == RequestTimeQuery(api, metrics, ShortName(nodes[i]))
    ensures best == Reduction(Measurements(api, metrics, gateway, nodes))
    ensures err == (if best.name == "" || best.time == -1.0 then Some(NoNodeFound) else None)
    ensures var ms := Measurements(api, metrics, gateway, nodes);
      (forall i :: 0 <= i < |ms| ==> ms[i].result.Failure?) ==> best == Unranked && err == Some(NoNodeFound)
    ensures var ms := Measurements(api, metrics, gateway, nodes);
      err.None? ==> exists k :: 0 <= k < |ms| && ms[k].result.Success? && best == Node(nodes[k], ms[k].result.value)
    ensures var ms := Measurements(api, metrics, gateway, nodes);
      NoSentinelValue(ms) && SomeSuccess(ms) ==> exists k :: IsFirstMinimum(ms, k) && best == Node(nodes[k], ms[k].result.value)
  {
    var ms;
    ms, sent := QueryAll(nodes, api, metrics, gateway);
    best := Reduce(ms);
    err := None;
    if best.name == "" || best.time == -1.0 {
      err := Some(NoNodeFound);
    }
    ReductionOfNamedOutcomes(ms, nodes);
  }

  /** The loop over the result channel: each outcome in turn goes through Step. */
  method Reduce(ms: seq<Measurement>) returns (best: Node)
    ensures best == Reduction(ms)
  {
    best := Unranked;
    for i := 0 to |ms|
      invariant best == Reduction(ms[..i])
    {
      assert ms[..i + 1][..i] == ms[..i];
      var node := ms[i];
      if node.result.Success? && (best.time == -1.0 || node.result.value < best.time) {
        best := Node(node.name, node.result.value);
      }
    }
    assert ms[..|ms|] == ms;
  }

  /** The three Reduction lemmas restated for outcomes that carry the node names in order. */
  lemma ReductionOfNamedOutcomes(ms: seq<Measurement>, nodes: seq<string>)
    requires |ms| == |nodes| && forall i :: 0 <= i < |ms| ==> ms[i].name == nodes[i]
    ensures (forall i :: 0 <= i < |ms| ==> ms[i].result.Failure?) ==> Reduction(ms) == Unranked
    ensures Reduction(ms) == Unranked || exists k :: 0 <= k < |ms| && ms[k].result.Success? && Reduction(ms) == Node(nodes[k], ms[k].result.value)
    ensures NoSentinelValue(ms) && SomeSuccess(ms) ==> exists k :: IsFirstMinimum(ms, k) && Reduction(ms) == Node(nodes[k], ms[k].result.value)
  {
    ReductionFromSuccess(ms);
    if forall i :: 0 <= i < |ms| ==> ms[i].result.Failure? {
      ReductionOfFailures(ms);
    }
    if NoSentinelValue(ms) && SomeSuccess(ms) {
      ReductionIsFirstMinimum(ms);
    }
  }

  /** The cache hit of getBestRequestTime: a present node list equal, in order, to the argument, and a present best node. */
  predicate CacheHit(nodes: seq<string>, now: Time, cachedNodes: Cache<seq<string>>, bestCachedNode: Cache<Node>)
    reads cachedNodes, bestCachedNode
  {
    cachedNodes.Present(now) && cachedNodes.data == nodes && bestCachedNode.Present(now)
  }

  /** The two cache reads of getBestRequestTime. */
  method CachedBest(nodes: seq<string>, now: Time, cachedNodes: Cache<seq<string>>, bestCachedNode: Cache<Node>)
    returns (hit: Option<Node>)
    ensures hit.Some? <==> CacheHit(nodes, now, cachedNodes, bestCachedNode)
    ensures hit.Some? ==> hit.value == bestCachedNode.data
  {
    var cached := cachedNodes.Data(now);
    if cached.Some? && cached.value == nodes {
      var bestNode := bestCachedNode.Data(now);
      if bestNode.Some? {
        return Some(bestNode.value);
      }
    }
    return None;
  }

  /**
   * getBestRequestTime as written: an empty list is rejected first; a cache
   * hit is returned without queries; otherwise the fan-out result is
   * returned and stored in the best-node cache, whether or not it failed.
   */
  method GetBestRequestTime(nodes: seq<string>, now: Time, api: SysdigApiClient, metrics: seq<MetricSpec>, gateway: MetricsGateway,
                            cachedNodes: Cache<seq<string>>, bestCachedNode: Cache<Node>)
    returns (best: Node, err: Option<RankError>, sent: seq<HttpRequest>)
    modifies bestCachedNode
    ensures nodes == [] ==> best == Node("", 0.0) && err == Some(EmptyNodeList) && sent == [] && unchanged(bestCachedNode)
    ensures nodes != [] && old(CacheHit(nodes, now, cachedNodes, bestCachedNode)) ==>
              best == old(bestCachedNode.data) && err == None && sent == [] && unchanged(bestCachedNode)
    ensures nodes != [] && !old(CacheHit(nodes, now, cachedNodes, bestCachedNode)) ==>
              && |sent| == |nodes| && (forall i :: 0 <= i < |nodes| ==> sent[i] == RequestTimeQuery(api, metrics, ShortName(nodes[i])))
              && best == Reduction(Measurements(api, metrics, gateway, nodes))
              && err == (if best.name == "" || best.time == -1.0 then Some(NoNodeFound) else None)
              && bestCachedNode.loaded && bestCachedNode.data == best && bestCachedNode.deadline == now + bestCachedNode.timeout
    ensures bestCachedNode.timeout == old(bestCachedNode.timeout)
  {
    if |nodes| == 0 {
      return Node("", 0.0), Some(EmptyNodeList), [];
    }
    var hit := CachedBest(nodes, now, cachedNodes, bestCachedNode);
    if hit.Some? {
      return hit.value, None, [];
    }
    best, err, sent := Rank(nodes, api, metrics, gateway);
    bestCachedNode.SetData(best, now);
  }

  /** The best-node cache only ever holds a real ranking: a named node with a measured value. */
  predicate HoldsRankedNode(c: Cache<Node>)
    reads c
  {
    c.loaded ==> c.data.name != "" && c.data.time != -1.0
  }

  /** getBestRequestTime with the result cached only when the ranking succeeded. */
  method GetBestRequestTimeCachingSuccess(nodes: seq<string>, now: Time, api: SysdigApiClient, metrics: seq<MetricSpec>, gateway: MetricsGateway,
                                          cachedNodes: Cache<seq<string>>, bestCachedNode: Cache<Node>)
    returns (best: Node, err: Option<RankError>, sent: seq<HttpRequest>)
    requires HoldsRankedNode(bestCachedNode)
    modifies bestCachedNode
    ensures HoldsRankedNode(bestCachedNode)
    ensures err.None? ==> best.name != "" && best.time != -1.0
    ensures nodes == [] ==> err == Some(EmptyNodeList) && sent == [] && unchanged(bestCachedNode)
    ensures nodes != [] && old(CacheHit(nodes, now, cachedNodes, bestCachedNode)) ==>
              best == old(bestCachedNode.data) && err == None && sent == [] && unchanged(bestCachedNode)
    ensures nodes != [] && !old(CacheHit(nodes, now, cachedNodes, bestCachedNode)) ==>
              && |sent| == |nodes| && (forall i :: 0 <= i < |nodes| ==> sent[i] == RequestTimeQuery(api, metrics, ShortName(nodes[i])))
              && best == Reduction(Measurements(api, metrics, gateway, nodes))
              && err == (if best.name == "" || best.time == -1.0 then Some(NoNodeFound) else None)
              && (err.None? ==> bestCachedNode.loaded && bestCachedNode.data == best && bestCachedNode.deadline == now + bestCachedNode.timeout)
              && (err.Some? ==> unchanged(bestCachedNode))
    ensures bestCachedNode.timeout == old(bestCachedNode.timeout)
  {
    if |nodes| == 0 {
      return Node("", 0.0), Some(EmptyNodeList), [];
    }
    var hit := CachedBest(nodes, now, cachedNodes, bestCachedNode);
    if hit.Some? {
      return hit.value, None, [];
    }
    best, err, sent := Rank(nodes, api, metrics, gateway);
    if err.Some? {
      return;
    }
    bestCachedNode.SetData(best, now);
  }

  /**
   * nodesAvailable: the cached list when present; otherwise the ready names
   * of what kubeAPI.ListNodes returned (`listed`: its nodes, or its error,
   * which is only logged and leaves no nodes), stored in the cache whatever
   * happened. `fetched` says whether ListNodes was consulted.
   */
  method NodesAvailable(now: Time, cachedNodes: Cache<seq<string>>, listed: Result<seq<KubeNode>, string>)
    returns (readyNodes: seq<string>, fetched: bool)
    modifies cachedNodes
    ensures old(cachedNodes.Present(now)) ==> readyNodes == old(cachedNodes.data) && !fetched && unchanged(cachedNodes)
    ensures !old(cachedNodes.Present(now)) ==>
              && fetched && readyNodes == (if listed.Success? then ReadyNames(listed.value) else [])
              && cachedNodes.loaded && cachedNodes.data == readyNodes && cachedNodes.deadline == now + cachedNodes.timeout
    ensures !old(cachedNodes.Present(now)) && listed.Failure? ==> readyNodes == [] && cachedNodes.loaded && cachedNodes.data == []
    ensures cachedNodes.timeout == old(cachedNodes.timeout)
  {
    var cached := cachedNodes.Data(now);
    if cached.Some? {
      return cached.value, false;
    }
    fetched := true;
    var nodes: seq<KubeNode> := [];
    if listed.Success? {
      nodes := listed.value;
    }
    readyNodes := CollectReadyNames(nodes);
    cachedNodes.SetData(readyNodes, now);
  }

  /** The nested loop of nodesAvailable: one entry per Ready/True condition, node by node. */
  method CollectReadyNames(listed: seq<KubeNode>) returns (readyNodes: seq<string>)
    ensures readyNodes == ReadyNames(listed)
  {
    readyNodes := [];
    for i := 0 to |listed|
      invariant readyNodes == ReadyNames(listed[..i])
    {
      var node := listed[i];
      assert listed[..i + 1][..i] == listed[..i];
      for j := 0 to |node.conditions|
        invariant readyNodes == ReadyNames(listed[..i]) + ReadyEntries(node.name, node.conditions[..j])
      {
        assert node.conditions[..j + 1][..j] == node.conditions[..j];
        var status := node.conditions[j];
        if status.status == "True" && status.conditionType == "Ready" {
          readyNodes := readyNodes + [node.name];
        }
      }
      assert node.conditions[..|node.conditions|] == node.conditions;
    }
    assert listed[..|listed|] == listed;
  }

  datatype ObjectReference = ObjectReference(kind: string, apiVersion: string, name: string, namespace: string)
  datatype ObjectMeta = ObjectMeta(name: string, namespace: string)
  datatype Binding = Binding(target: ObjectReference, metadata: ObjectMeta)

  /** A CreateNamespacedBinding call: the namespace of its URL and its body. */
  datatype BindingCall = BindingCall(namespace: string, body: Binding)

  /** The body scheduler posts: the pod, in its namespace (empty means "default"), bound to the v1 Node. */
  function SchedulerBinding(podName: string, nodeName: string, namespace: string): (r: BindingCall)
    ensures r.namespace == (if namespace == "" then "default" else namespace) && r.namespace != ""
    ensures r.body.target == ObjectReference("Node", "v1", nodeName, r.namespace)
    ensures r.body.metadata == ObjectMeta(podName, r.namespace)
  {
    var ns := if namespace == "" then "default" else namespace;
    BindingCall(ns, Binding(ObjectReference("Node", "v1", nodeName, ns), ObjectMeta(podName, ns)))
  }

  /** The path CreateNamespacedBinding posts to: the bindings collection of the call's namespace. */
  function BindingPath(call: BindingCall): (r: string)
    ensures |r| == |call.namespace| + 27
    ensures r[..18] == "api/v1/namespaces/" && r[|r| - 9..] == "/bindings"
    ensures r[18..|r| - 9] == call.namespace
  {
    "api/v1/namespaces/" + call.namespace + "/bindings"
  }

  /**
   * A failed fan-out is cached and later served as a success: every query
   * of a single ready node fails, the first call reports NoNodeFound, and a
   * second call within the cache lifetime returns the nameless -1 node with
   * no error and makes no query.
   */
  method FailedRankingServedFromCache(api: SysdigApiClient, metrics: seq<MetricSpec>, nodeName: string, now: Time, later: Time)
    returns (first: (Node, Option<RankError>), second: (Node, Option<RankError>), secondSent: seq<HttpRequest>)
    requires now <= later <= now + CacheTimeout
    ensures first == (Unranked, Some(NoNodeFound))
    ensures second == (Unranked, None) && secondSent == []
  {
    var cachedNodes := new Cache<seq<string>>(CacheTimeout);
    var bestCachedNode := new Cache<Node>(CacheTimeout);
    var gateway: MetricsGateway := (request: HttpRequest) => TransportError("connection refused");
    var node := KubeNode(nodeName, [NodeCondition("Ready", "True")]);
    var candidates, fetched := NodesAvailable(now, cachedNodes, Success([node]));
    assert ReadyEntries(nodeName, [NodeCondition("Ready", "True")]) == [nodeName] by {
      assert [NodeCondition("Ready", "True")][..0] == [];
    }
    ReadyNamesOfOne(node);
    ReductionOfFailures(Measurements(api, metrics, gateway, candidates));
    var best, err, sent := GetBestRequestTime(candidates, now, api, metrics, gateway, cachedNodes, bestCachedNode);
    first := (best, err);
    assert cachedNodes.Present(later) && cachedNodes.data == candidates;
    assert bestCachedNode.Present(later) && bestCachedNode.data == Unranked;
    var candidatesLater, fetchedLater := NodesAvailable(later, cachedNodes, Success([node]));
    assert candidatesLater == candidates && CacheHit(candidates, later, cachedNodes, bestCachedNode);
    best, err, secondSent := GetBestRequestTime(candidatesLater, later, api, metrics, gateway, cachedNodes, bestCachedNode);
    second := (best, err);
  }

  /** With only successful rankings cached, the same sequence reports NoNodeFound again, after a fresh round of queries. */
  method FailedRankingNotCached(api: SysdigApiClient, metrics: seq<MetricSpec>, nodeName: string, now: Time, later: Time)
    returns (first: (Node, Option<RankError>), second: (Node, Option<RankError>), secondSent: seq<HttpRequest>)
    requires now <= later <= now + CacheTimeout
    ensures first == (Unranked, Some(NoNodeFound))
    ensures second == (Unranked, Some(NoNodeFound)) && |secondSent| == 1
  {
    var cachedNodes := new Cache<seq<string>>(CacheTimeout);
    var bestCachedNode := new Cache<Node>(CacheTimeout);
    var gateway: MetricsGateway := (request: HttpRequest) => TransportError("connection refused");
    var node := KubeNode(nodeName, [NodeCondition("Ready", "True")]);
    var candidates, fetched := NodesAvailable(now, cachedNodes, Success([node]));
    assert ReadyEntries(nodeName, [NodeCondition("Ready", "True")]) == [nodeName] by {
      assert [NodeCondition("Ready", "True")][..0] == [];
    }
    ReadyNamesOfOne(node);
    ReductionOfFailures(Measurements(api, metrics, gateway, candidates));
    var best, err, sent := GetBestRequestTimeCachingSuccess(candidates, now, api, metrics, gateway, cachedNodes, bestCachedNode);
    first := (best, err);
    assert cachedNodes.Present(later) && cachedNodes.data == candidates && !bestCachedNode.loaded;
    var candidatesLater, fetchedLater := NodesAvailable(later, cachedNodes, Success([node]));
    assert candidatesLater == candidates;
    best, err, secondSent := GetBestRequestTimeCachingSuccess(candidatesLater, later, api, metrics, gateway, cachedNodes, bestCachedNode);
    second := (best, err);
  }
}
