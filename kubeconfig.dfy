/**
 * The already-decoded kubeconfig records (kubernetes/kubeConfig.go) and the
 * pure lookups that kubernetes/kubernetes.go and its copy kubernetes/utils.go
 * perform on them: the first-match API server lookup, and the last-match
 * selection of context, user and cluster that feeds the TLS set-up.
 */
module KubeConfig {
  import opened Wrappers

  type Bytes = seq<bv8>

  datatype ClusterData = ClusterData(certificateAuthorityData: Bytes, server: string)
  datatype Cluster = Cluster(name: string, data: ClusterData)
  datatype ContextData = ContextData(cluster: string, user: string)
  datatype Context = Context(name: string, data: ContextData)
  datatype UserData = UserData(clientCertificateData: Bytes, clientKeyData: Bytes)
  datatype User = User(name: string, data: UserData)
  datatype KubeConf = KubeConf(clusters: seq<Cluster>, contexts: seq<Context>, currentContext: string, users: seq<User>)

  function ClusterNames(clusters: seq<Cluster>): (r: seq<string>)
    ensures |r| == |clusters| && forall i :: 0 <= i < |clusters| ==> r[i] == clusters[i].name
  {
    seq(|clusters|, i requires 0 <= i < |clusters| => clusters[i].name)
  }

  function ContextNames(contexts: seq<Context>): (r: seq<string>)
    ensures |r| == |contexts| && forall i :: 0 <= i < |contexts| ==> r[i] == contexts[i].name
  {
    seq(|contexts|, i requires 0 <= i < |contexts| => contexts[i].name)
  }

  function UserNames(users: seq<User>): (r: seq<string>)
    ensures |r| == |users| && forall i :: 0 <= i < |users| ==> r[i] == users[i].name
  {
    seq(|users|, i requires 0 <= i < |users| => users[i].name)
  }

  /** The first index at or after `k` holding `name` (a range loop with an early return). */
  function FirstIndexFrom(names: seq<string>, name: string, k: nat): (r: Option<nat>)
    requires k <= |names|
    decreases |names| - k
    ensures r.Some? ==> k <= r.value < |names| && names[r.value] == name
    ensures r.Some? ==> forall j :: k <= j < r.value ==> names[j] != name
    ensures r.None? ==> forall j :: k <= j < |names| ==> names[j] != name
  {
    if k == |names| then None
    else if names[k] == name then Some(k)
    else FirstIndexFrom(names, name, k + 1)
  }

  /** The last index below `n` holding `name`: what a range loop that overwrites on every match keeps. */
  function LastIndexBelow(names: seq<string>, name: string, n: nat): (r: Option<nat>)
    requires n <= |names|
    ensures r.Some? ==> r.value < n && names[r.value] == name
    ensures r.Some? ==> forall j :: r.value < j < n ==> names[j] != name
    ensures r.None? ==> forall j :: 0 <= j < n ==> names[j] != name
  {
    if n == 0 then None
    else if names[n - 1] == name then Some(n - 1)
    else LastIndexBelow(names, name, n - 1)
  }

  /** Context `i` is named CurrentContext and cluster `j` is the cluster it names. */
  predicate Resolves(conf: KubeConf, i: int, j: int) {
    && 0 <= i < |conf.contexts|
    && 0 <= j < |conf.clusters|
    && conf.contexts[i].name == conf.currentContext
    && conf.clusters[j].name == conf.contexts[i].data.cluster
  }

  /**
   * The (context, cluster) pair the nested search stops at when it starts
   * from context `k`: the first matching context that names some existing
   * cluster, and the first cluster of that name.
   */
  ghost predicate FirstResolutionFrom(conf: KubeConf, k: nat, i: int, j: int) {
    && k <= i
    && Resolves(conf, i, j)
    && (forall i', j' :: k <= i' < i ==> !Resolves(conf, i', j'))
    && (forall j' :: 0 <= j' < j ==> !Resolves(conf, i, j'))
  }

  function EndpointFrom(conf: KubeConf, k: nat): (r: Option<string>)
    requires k <= |conf.contexts|
    decreases |conf.contexts| - k
    ensures r.Some? ==> exists i, j :: FirstResolutionFrom(conf, k, i, j) && r.value == conf.clusters[j].data.server
    ensures r.None? ==> forall i, j :: k <= i ==> !Resolves(conf, i, j)
  {
    if k == |conf.contexts| then None
    else
      var hit := if conf.contexts[k].name == conf.currentContext
                 then FirstIndexFrom(ClusterNames(conf.clusters), conf.contexts[k].data.cluster, 0)
                 else None;
      if hit.Some? then
        assert FirstResolutionFrom(conf, k, k, hit.value);
        Some(conf.clusters[hit.value].data.server)
      else
        assert forall j' :: !Resolves(conf, k, j');
        var r := EndpointFrom(conf, k + 1);
        assert r.Some? ==> exists i, j :: FirstResolutionFrom(conf, k, i, j) && r.value == conf.clusters[j].data.server by {
          if r.Some? {
            var i, j :| FirstResolutionFrom(conf, k + 1, i, j) && r.value == conf.clusters[j].data.server;
            assert FirstResolutionFrom(conf, k, i, j);
          }
        }
        r
  }

  /**
   * currentApiUrlEndpoint: the Server of the first cluster named by the first
   * context called CurrentContext that names an existing cluster. None stands
   * for the log.Panic raised when there is no such pair.
   */
  function CurrentApiUrlEndpoint(conf: KubeConf): (r: Option<string>)
    ensures r.Some? ==> exists i, j :: FirstResolutionFrom(conf, 0, i, j) && r.value == conf.clusters[j].data.server
    ensures r.None? <==> forall i, j :: !Resolves(conf, i, j)
  {
    EndpointFrom(conf, 0)
  }

  /** Index `k` holds `name` and no later index does. */
  ghost predicate LastNamed(names: seq<string>, name: string, k: int) {
    0 <= k < |names| && names[k] == name && forall j :: k < j < |names| ==> names[j] != name
  }

  /** The user and cluster of the LAST context named CurrentContext; empty names when there is none. */
  function SelectedContext(conf: KubeConf): (r: ContextData)
    ensures || (exists k :: LastNamed(ContextNames(conf.contexts), conf.currentContext, k) && r == conf.contexts[k].data)
            || ((forall i :: 0 <= i < |conf.contexts| ==> conf.contexts[i].name != conf.currentContext) && r == ContextData("", ""))
  {
    match LastIndexBelow(ContextNames(conf.contexts), conf.currentContext, |conf.contexts|)
    case None => ContextData("", "")
    case Some(i) => conf.contexts[i].data
  }

  /** Cert and key of the LAST user called `name`; empty when there is none. */
  function LastUserData(users: seq<User>, name: string): (r: UserData)
    ensures || (exists k :: LastNamed(UserNames(users), name, k) && r == users[k].data)
            || ((forall i :: 0 <= i < |users| ==> users[i].name != name) && r == UserData([], []))
  {
    match LastIndexBelow(UserNames(users), name, |users|)
    case None => UserData([], [])
    case Some(i) => users[i].data
  }

  /** CA bytes of the LAST cluster called `name`; empty when there is none. */
  function LastClusterCa(clusters: seq<Cluster>, name: string): (r: Bytes)
    ensures || (exists k :: LastNamed(ClusterNames(clusters), name, k) && r == clusters[k].data.certificateAuthorityData)
            || ((forall i :: 0 <= i < |clusters| ==> clusters[i].name != name) && r == [])
  {
    match LastIndexBelow(ClusterNames(clusters), name, |clusters|)
    case None => []
    case Some(i) => clusters[i].data.certificateAuthorityData
  }

  /** The cert/key pair loadTLSInfo feeds to the key-pair parser. */
  function SelectedUser(conf: KubeConf): UserData {
    LastUserData(conf.users, SelectedContext(conf).user)
  }

  /** The CA bytes loadTLSInfo feeds to the certificate pool. */
  function SelectedCa(conf: KubeConf): Bytes {
    LastClusterCa(conf.clusters, SelectedContext(conf).cluster)
  }

  /**
   * The two lookups disagree on duplicates: with two contexts named
   * CurrentContext pointing at different existing clusters, the API server
   * comes from the first context while the CA bytes come from the last.
   */
  lemma EndpointAndCaUseDifferentContexts(current: string, c1: Cluster, c2: Cluster)
    requires c1.name != c2.name
    ensures var conf := KubeConf([c1, c2], [Context(current, ContextData(c1.name, "")), Context(current, ContextData(c2.name, ""))], current, []);
      CurrentApiUrlEndpoint(conf) == Some(c1.data.server) && SelectedCa(conf) == c2.data.certificateAuthorityData
  {
  }
}
