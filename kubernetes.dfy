/**
 * The Kubernetes client of kubernetes/kubernetes.go (duplicated in
 * kubernetes/utils.go): the node records and their Ready filter, the TLS
 * material selection, the node-list cache of ListNodes, the query of Watch
 * and the default kubeconfig location. HTTP transport, YAML/base64 decoding
 * and the crypto parsers are outside the model; their results are inputs.
 */
module Kubernetes {
  import opened Wrappers
  import opened ExpiringCache
  import opened KubeConfig

  const Second: int := 1_000_000_000

  /** Lifetime of the client's node-list cache, set by LoadKubeConfig (kubernetes/kubernetes.go:254). */
  const NodeListTimeout: int := 60 * Second

  datatype NodeCondition = NodeCondition(conditionType: string, status: string)
  datatype KubeNode = KubeNode(name: string, conditions: seq<NodeCondition>)

  /** The generic API status envelope; only code and message are read. */
  datatype KubeResponse = KubeResponse(code: int, message: string)

  predicate IsReadyCondition(c: NodeCondition) {
    c.status == "True" && c.conditionType == "Ready"
  }

  ghost predicate HasReadyCondition(n: KubeNode) {
    exists j :: 0 <= j < |n.conditions| && IsReadyCondition(n.conditions[j])
  }

  /** One copy of `name` per Ready/True condition, in condition order. */
  function ReadyEntries(name: string, conds: seq<NodeCondition>): seq<string> {
    if conds == [] then []
    else ReadyEntries(name, conds[..|conds| - 1]) + (if IsReadyCondition(conds[|conds| - 1]) then [name] else [])
  }

  /** The ready-node list both schedulers build: node by node, one entry per Ready/True condition. */
  function ReadyNames(nodes: seq<KubeNode>): seq<string> {
    if nodes == [] then []
    else ReadyNames(nodes[..|nodes| - 1]) + ReadyEntries(nodes[|nodes| - 1].name, nodes[|nodes| - 1].conditions)
  }

  lemma {:induction false} ReadyEntriesMembership(name: string, conds: seq<NodeCondition>, x: string)
    ensures x in ReadyEntries(name, conds) <==> x == name && exists j :: 0 <= j < |conds| && IsReadyCondition(conds[j])
  {
    if conds != [] {
      var init := conds[..|conds| - 1];
      ReadyEntriesMembership(name, init, x);
      if x == name && IsReadyCondition(conds[|conds| - 1]) {
        assert x in ReadyEntries(name, conds);
      }
      if exists j :: 0 <= j < |conds| && IsReadyCondition(conds[j]) {
        var j :| 0 <= j < |conds| && IsReadyCondition(conds[j]);
        if j < |conds| - 1 {
          assert init[j] == conds[j];
        }
      }
      forall j | 0 <= j < |init| && IsReadyCondition(init[j])
        ensures exists j' :: 0 <= j' < |conds| && IsReadyCondition(conds[j'])
      {
        assert conds[j] == init[j];
      }
    }
  }

  /** A name is in the ready list exactly when some node of that name has a Ready/True condition. */
  lemma {:induction false} ReadyNamesMembership(nodes: seq<KubeNode>, x: string)
    ensures x in ReadyNames(nodes) <==> exists i :: 0 <= i < |nodes| && nodes[i].name == x && HasReadyCondition(nodes[i])
  {
    if nodes != [] {
      var init := nodes[..|nodes| - 1];
      var last := nodes[|nodes| - 1];
      ReadyNamesMembership(init, x);
      ReadyEntriesMembership(last.name, last.conditions, x);
      if exists i :: 0 <= i < |nodes| && nodes[i].name == x && HasReadyCondition(nodes[i]) {
        var i :| 0 <= i < |nodes| && nodes[i].name == x && HasReadyCondition(nodes[i]);
        if i < |nodes| - 1 {
          assert init[i] == nodes[i];
        }
      }
      forall i | 0 <= i < |init| && init[i].name == x && HasReadyCondition(init[i])
        ensures exists i' :: 0 <= i' < |nodes| && nodes[i'].name == x && HasReadyCondition(nodes[i'])
      {
        assert nodes[i] == init[i];
      }
    }
  }

  /** The list keeps input order: the entries of earlier nodes come first. */
  lemma {:induction false} ReadyNamesAppend(a: seq<KubeNode>, b: seq<KubeNode>)
    ensures ReadyNames(a + b) == ReadyNames(a) + ReadyNames(b)
    decreases |b|
  {
    if b == [] {
      assert a + b == a;
    } else {
      var b' := b[..|b| - 1];
      assert (a + b)[..|a + b| - 1] == a + b';
      assert (a + b)[|a + b| - 1] == b[|b| - 1];
      ReadyNamesAppend(a, b');
    }
  }

  /** A single node contributes exactly its ready entries, each of them its own full name. */
  lemma ReadyNamesOfOne(n: KubeNode)
    ensures ReadyNames([n]) == ReadyEntries(n.name, n.conditions)
  {
  }

  lemma {:induction false} ReadyEntriesAreName(name: string, conds: seq<NodeCondition>)
    ensures forall k :: 0 <= k < |ReadyEntries(name, conds)| ==> ReadyEntries(name, conds)[k] == name
    ensures |ReadyEntries(name, conds)| <= |conds|
  {
    if conds != [] {
      ReadyEntriesAreName(name, conds[..|conds| - 1]);
    }
  }

  /** What tls.X509KeyPair is given: the selected certificate and key bytes. */
  datatype ClientCertificate = ClientCertificate(certificate: Bytes, key: Bytes)
  /** What the CA pool is built from: the selected CA bytes. */
  datatype CertPool = CertPool(pem: Bytes)

  /**
   * The three selection loops of loadTLSInfo: each overwrites its locals on
   * every match, so each keeps the last match.
   */
  method SelectTLSMaterial(conf: KubeConf) returns (certData: Bytes, keyData: Bytes, caCertData: Bytes)
    ensures certData == SelectedUser(conf).clientCertificateData
    ensures keyData == SelectedUser(conf).clientKeyData
    ensures caCertData == SelectedCa(conf)
  {
    var currentContextUser := "";
    var currentContextCluster := "";
    certData, keyData, caCertData := [], [], [];

    var contextNames := ContextNames(conf.contexts);
    for i := 0 to |conf.contexts|
      invariant var k := LastIndexBelow(contextNames, conf.currentContext, i);
        ContextData(currentContextCluster, currentContextUser) == if k.Some? then conf.contexts[k.value].data else ContextData("", "")
    {
      if conf.contexts[i].name == conf.currentContext {
        currentContextUser := conf.contexts[i].data.user;
        currentContextCluster := conf.contexts[i].data.cluster;
      }
    }
    assert ContextData(currentContextCluster, currentContextUser) == SelectedContext(conf);

    var userNames := UserNames(conf.users);
    for i := 0 to |conf.users|
      invariant var k := LastIndexBelow(userNames, currentContextUser, i);
        UserData(certData, keyData) == if k.Some? then conf.users[k.value].data else UserData([], [])
    {
      if conf.users[i].name == currentContextUser {
        certData, keyData := conf.users[i].data.clientCertificateData, conf.users[i].data.clientKeyData;
      }
    }

    var clusterNames := ClusterNames(conf.clusters);
    for i := 0 to |conf.clusters|
      invariant var k := LastIndexBelow(clusterNames, currentContextCluster, i);
        caCertData == if k.Some? then conf.clusters[k.value].data.certificateAuthorityData else []
    {
      if conf.clusters[i].name == currentContextCluster {
        caCertData := conf.clusters[i].data.certificateAuthorityData;
      }
    }
  }

  /**
   * getKubeConfigFileDefaultLocation: KUBECONFIG when it is set and
   * non-empty, else the home directory's .kube/config. `homeDir` is the
   * outcome of user.Current(); its failure is the log.Panic.
   */
  function KubeConfigFileDefaultLocation(env: map<string, string>, homeDir: Result<string, string>): (r: Result<string, string>)
    ensures "KUBECONFIG" in env && env["KUBECONFIG"] != "" ==> r == Success(env["KUBECONFIG"])
    ensures !("KUBECONFIG" in env && env["KUBECONFIG"] != "") && homeDir.Success? ==> r == Success(homeDir.value + "/.kube/config")
    ensures r.Failure? <==> !("KUBECONFIG" in env && env["KUBECONFIG"] != "") && homeDir.Failure?
  {
    if "KUBECONFIG" in env && env["KUBECONFIG"] != "" then Success(env["KUBECONFIG"])
    else match homeDir
      case Failure(e) => Failure(e)
      case Success(home) => Success(home + "/.kube/config")
  }

  /**
   * The query of Watch: a nil map is replaced by an empty one, and
   * watch=true is added (url.Values.Add appends to the key's values).
   */
  method WatchQuery(values: Option<map<string, seq<string>>>) returns (query: map<string, seq<string>>)
    ensures "watch" in query
    ensures query["watch"] == (if values.Some? && "watch" in values.value then values.value["watch"] else []) + ["true"]
    ensures values.None? ==> query.Keys == {"watch"}
    ensures values.Some? ==> query.Keys == values.value.Keys + {"watch"}
    ensures values.Some? ==> forall key :: key in values.value && key != "watch" ==> query[key] == values.value[key]
  {
    var v: map<string, seq<string>>;
    if values.None? {
      v := map[];
    } else {
      v := values.value;
    }
    var existing := if "watch" in v then v["watch"] else [];
    v := v["watch" := existing + ["true"]];
    query := v;
  }

  /** The client: its decoded config, its node-list cache and its TLS material. */
  class KubeApi {
    var config: KubeConf
    var nodeList: Cache<seq<KubeNode>>
    var clientCert: ClientCertificate
    var serverCaCert: CertPool

    /** The zero-valued package variable: empty config, a cache with zero timeout. */
    constructor ()
      ensures !nodeList.loaded && nodeList.timeout == 0 && fresh(nodeList)
    {
      config := KubeConf([], [], "", []);
      nodeList := new Cache<seq<KubeNode>>(0);
      clientCert := ClientCertificate([], []);
      serverCaCert := CertPool([]);
    }

    /** currentTLSInfo: the stored certificate and pool, as they are. */
    function CurrentTLSInfo(): (ClientCertificate, CertPool)
      reads this
    {
      (clientCert, serverCaCert)
    }

    /** loadTLSInfo: selects the material, then assigns clientCert and serverCaCert and nothing else. */
    method LoadTLSInfo()
      modifies this
      ensures CurrentTLSInfo() == (ClientCertificate(SelectedUser(config).clientCertificateData, SelectedUser(config).clientKeyData),
                                   CertPool(SelectedCa(config)))
      ensures config == old(config) && nodeList == old(nodeList)
    {
      var certData, keyData, caCertData := SelectTLSMaterial(config);
      clientCert := ClientCertificate(certData, keyData);
      serverCaCert := CertPool(caCertData);
    }

    /**
     * The state changes of LoadKubeConfig once the file is decoded: store the
     * config, install a fresh one-minute node-list cache, load the TLS material.
     */
    method LoadKubeConfig(conf: KubeConf)
      modifies this
      ensures config == conf && fresh(nodeList) && !nodeList.loaded && nodeList.timeout == NodeListTimeout
      ensures CurrentTLSInfo() == (ClientCertificate(SelectedUser(conf).clientCertificateData, SelectedUser(conf).clientKeyData),
                                   CertPool(SelectedCa(conf)))
    {
      config := conf;
      nodeList := new Cache<seq<KubeNode>>(NodeListTimeout);
      LoadTLSInfo();
    }

    /**
     * ListNodes as written. Its receiver is a value, so the SetData after a
     * successful fetch lands on a copy of the cache and the client's own
     * cache is never loaded. `fetched` is the outcome of the GET of
     * api/v1/nodes and the decoding of its items; `requested` says whether
     * that request was made.
     */
    method ListNodes(now: Time, fetched: Result<seq<KubeNode>, string>)
      returns (nodes: seq<KubeNode>, err: Option<string>, requested: bool)
      ensures nodeList.Present(now) ==> nodes == nodeList.data && err == None && !requested
      ensures !nodeList.Present(now) ==> requested
      ensures !nodeList.Present(now) && fetched.Failure? ==> nodes == [] && err == Some(fetched.error)
      ensures !nodeList.Present(now) && fetched.Success? ==> nodes == fetched.value && err == None
    {
      var copy := new Cache<seq<KubeNode>>(nodeList.timeout);
      copy.loaded, copy.data, copy.deadline := nodeList.loaded, nodeList.data, nodeList.deadline;
      var cached := copy.Data(now);
      if cached.Some? {
        return cached.value, None, false;
      }
      requested := true;
      if fetched.Failure? {
        return [], Some(fetched.error), requested;
      }
      nodes, err := fetched.value, None;
      copy.SetData(nodes, now);
    }

    /** ListNodes with the cache update kept, as a pointer receiver would keep it. */
    method ListNodesCaching(now: Time, fetched: Result<seq<KubeNode>, string>)
      returns (nodes: seq<KubeNode>, err: Option<string>, requested: bool)
      modifies nodeList
      ensures old(nodeList.Present(now)) ==> nodes == old(nodeList.data) && err == None && !requested && unchanged(nodeList)
      ensures !old(nodeList.Present(now)) ==> requested
      ensures !old(nodeList.Present(now)) && fetched.Failure? ==> nodes == [] && err == Some(fetched.error) && unchanged(nodeList)
      ensures !old(nodeList.Present(now)) && fetched.Success? ==> nodes == fetched.value && err == None
      ensures !old(nodeList.Present(now)) && fetched.Success? ==>
                nodeList.loaded && nodeList.data == nodes && nodeList.deadline == now + nodeList.timeout
      ensures nodeList.timeout == old(nodeList.timeout)
    {
      var cached := nodeList.Data(now);
      if cached.Some? {
        return cached.value, None, false;
      }
      requested := true;
      if fetched.Failure? {
        return [], Some(fetched.error), requested;
      }
      nodes, err := fetched.value, None;
      nodeList.SetData(nodes, now);
    }
  }

  /**
   * As written, two successful ListNodes calls at the same instant on a
   * freshly configured client both go to the API server.
   */
  method NodeListCacheNeverHits(conf: KubeConf, items: seq<KubeNode>, now: Time)
    returns (firstRequested: bool, secondRequested: bool)
    ensures firstRequested && secondRequested
  {
    var api := new KubeApi();
    api.LoadKubeConfig(conf);
    var nodes, err;
    nodes, err, firstRequested := api.ListNodes(now, Success(items));
    nodes, err, secondRequested := api.ListNodes(now, Success(items));
  }

  /** With the update kept, the second call within the minute is served from the cache. */
  method NodeListCacheHitsWhenKept(conf: KubeConf, items: seq<KubeNode>, now: Time, later: Time)
    returns (firstRequested: bool, secondRequested: bool, second: seq<KubeNode>)
    requires now <= later <= now + NodeListTimeout
    ensures firstRequested && !secondRequested && second == items
  {
    var api := new KubeApi();
    api.LoadKubeConfig(conf);
    var nodes, err;
    nodes, err, firstRequested := api.ListNodesCaching(now, Success(items));
    second, err, secondRequested := api.ListNodesCaching(later, Success(items));
  }
}
