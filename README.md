# kubernetes-scheduler, modelled in Dafny

This project models the Sysdig metric-driven Kubernetes scheduler. The scheduler watches the pod stream. For each newly added pending pod that names it, it:

- lists the Ready nodes;
- asks Sysdig Monitor for each node's value of the configured metric (SDC_METRIC or `-m`) over the last minute;
- binds the pod to the node with the lowest value.

When no node can be ranked, it moves the pod's deployments back to the default scheduler. Two caches, each with a 15-second lifetime, one for the ready-node list and one for the best node, keep repeated events from repeating the fan-out.

Modules, one per source component:

- `ExpiringCache` (`cache.dfy`). The single-value cache with a deadline, as a class. Time is an explicit `now` argument.
- `KubeConfig` (`kubeconfig.dfy`). The decoded kubeconfig records and the lookups done on them:
  - the first-match API server lookup;
  - the last-match choice of context, user and cluster used for TLS.
- `Kubernetes` (`kubernetes.dfy`). The node records and the Ready filter, and the `KubeApi` client class:
  - TLS material selection;
  - the node-list cache of `ListNodes`;
  - the `Watch` query;
  - the default kubeconfig location.
- `Sysdig` (`sysdig.dfy`). The Sysdig client class: the token, the request headers, and the `GetData` body built key by key.
- `Scheduler` (`scheduler.dfy`). `methods.go`:
  - the per-node query and the value extracted from its answer;
  - the fan-out and the reduction;
  - the two caches of `getBestRequestTime` and `nodesAvailable`;
  - the Binding body.
- `Main` (`main.dfy`). `main.go`:
  - the start-up resolution of token, metric and scheduler name (a set flag overrides the environment; `+`/`-` metric prefix);
  - the handling of one watch message: filter, bind, or fall back.
- `PyScheduler` (`python_scheduler.dfy`). The Python prototype:
  - first-index argmin;
  - the same Ready filter;
  - a filter that ignores the event type;
  - the binding in `default`.

  Lemmas relate it to the Go scheduler.

Outside effects become arguments or returned traces:

- The Sysdig backend is a function from request to response (`MetricsGateway`).
- The Kubernetes answers are `Result` arguments.
- The wall clock is `now`.
- Each operation returns the requests it would send, in order.
- A process exit or panic is an outcome value: `UsageExit`, `EmptyMetricPanic`, `Fatal`, or `None` for the panic of `currentApiUrlEndpoint`.

Some behaviours of the code differ from what its usage text (main.go:138) and its structure suggest. The model follows the code:

- The sort mode is ignored. The usage text offers "+" for higher-is-better, and the `+` prefix does set `sysdigMetricLower := false`. But the reduction never reads it and always takes the minimum (methods.go:111-117). So the prefix is parsed (`Main.ParseMetricPrefix`) but never applied.
- The best-node cache hit compares the cached node list with the argument as an ordered sequence, via `reflect.DeepEqual` (methods.go:75). The same nodes listed in another order miss the cache.
- A failed ranking is cached too (methods.go:127). See Findings.
- Ties and the reduction order follow the order of the node list. The source reduces in channel-completion order.
- A bind request that gets no response leaves `response` nil. Reading its body then panics (main.go:181-186). `Main.HandleEvent` ends that path in `Fatal`.

`kubernetes/utils.go` repeats `currentTLSInfo`, `loadTLSInfo`, `currentApiUrlEndpoint` and `getKubeConfigFileDefaultLocation` from `kubernetes/kubernetes.go`. The only difference is a panic message. Each of these is modelled once; the table cites one copy per member.

## Model

| member | source | states |
|---|---|---|
| ExpiringCache.Cache.constructor | cache/cache.go:25-31 | a `Cache{Timeout: t}` literal holds nothing yet and keeps timeout t |
| ExpiringCache.Cache.SetData | cache/cache.go:33-39 | the cache is loaded with exactly the new value, the deadline restarts at now + Timeout whatever the prior state, and Timeout is unchanged |
| ExpiringCache.Cache.Data | cache/cache.go:41-48 | present exactly when loaded and now is not strictly after the deadline, then with the stored value; nothing is modified |
| ExpiringCache.NeverSetIsAbsent | cache/cache.go:44 | a cache that was never set is absent at any time |
| ExpiringCache.SetThenDataPresent | cache/cache.go:36-47 | after SetData(v) at t, a read at any time up to t + Timeout returns v |
| ExpiringCache.SetThenDataExpired | cache/cache.go:38-45 | after SetData(v) at t, a read strictly after t + Timeout is absent |
| ExpiringCache.FreshCacheAtDeadline | cache/cache.go:38-47 | the deadline instant itself is still present, and one unit later the value is gone |
| KubeConfig.FirstIndexFrom | kubernetes/kubernetes.go:158-161 | the first index at or after k that holds the name, or none of them holds it |
| KubeConfig.LastIndexBelow | kubernetes/kubernetes.go:178-183 | the last index below n that holds the name (what an overwrite-on-match loop keeps), or none of them holds it |
| KubeConfig.EndpointFrom | kubernetes/utils.go:74-83 | the nested search, as in both copies: from context k on, the server of the first cluster named by the first matching context that names an existing cluster; None when no later pair resolves |
| KubeConfig.CurrentApiUrlEndpoint | kubernetes/kubernetes.go:155-166 | the server of the first resolving (context, cluster) pair, in context order and then cluster order; None, the panic, exactly when no context named CurrentContext names an existing cluster |
| KubeConfig.SelectedContext | kubernetes/kubernetes.go:178-183 | the user and cluster of the last context named CurrentContext, or empty names when there is none |
| KubeConfig.LastUserData | kubernetes/kubernetes.go:186-190 | the certificate and key of the last user with the given name, or empty bytes when there is none |
| KubeConfig.LastClusterCa | kubernetes/kubernetes.go:193-197 | the CA bytes of the last cluster with the given name, or empty bytes when there is none |
| KubeConfig.EndpointAndCaUseDifferentContexts | kubernetes/kubernetes.go:155-197 | with two contexts named CurrentContext naming two clusters, the API server comes from the first context and the CA from the last |
| Kubernetes.ReadyEntries | methods.go:142-146 | definition of one node's contribution, one name per Ready/True condition; properties proved in Kubernetes.ReadyEntriesMembership and Kubernetes.ReadyEntriesAreName |
| Kubernetes.ReadyNames | methods.go:141-147 | definition of the ready list, node by node; properties proved in Kubernetes.ReadyNamesMembership and Kubernetes.ReadyNamesAppend, and both NodesAvailable loops are proved equal to it |
| Kubernetes.ReadyEntriesMembership | methods.go:142-146 | a node contributes its name exactly when one of its conditions is type Ready with status True |
| Kubernetes.ReadyNamesMembership | methods.go:141-147 | a name is in the ready list exactly when some listed node of that name has a Ready/True condition |
| Kubernetes.ReadyNamesAppend | methods.go:141-147 | the ready list keeps input order: the entries of earlier nodes come first |
| Kubernetes.ReadyNamesOfOne | methods.go:141-147 | a single node contributes exactly its own ready entries |
| Kubernetes.ReadyEntriesAreName | methods.go:142-146 | every entry a node contributes is its full name, at most one per condition |
| Kubernetes.SelectTLSMaterial | kubernetes/utils.go:33-59 | the three overwrite-on-match loops (identical in both copies) yield the last-match user certificate and key and the last-match cluster CA |
| Kubernetes.KubeConfigFileDefaultLocation | kubernetes/kubernetes.go:49-61 | KUBECONFIG when it is set and non-empty, otherwise the home directory plus /.kube/config; an error only when the variable is unusable and the user lookup failed |
| Kubernetes.WatchQuery | kubernetes/kubernetes.go:68-71 | a nil map becomes empty, "true" is appended to the values of "watch", and every other key keeps its values |
| Kubernetes.KubeApi.constructor | kubernetes/kubernetes.go:42-47 | the zero-valued client: no node list loaded and a zero timeout |
| Kubernetes.KubeApi.CurrentTLSInfo | kubernetes/utils.go:27-29 | definition: the stored certificate and pool, unchanged; what they hold after loading is stated by Kubernetes.KubeApi.LoadTLSInfo |
| Kubernetes.KubeApi.LoadTLSInfo | kubernetes/kubernetes.go:170-209 | the stored certificate and pool are built from the selected material; config and node-list cache are unchanged |
| Kubernetes.KubeApi.LoadKubeConfig | kubernetes/kubernetes.go:253-255 | after decoding, the config is stored, a fresh one-minute node-list cache is installed, and the TLS material is loaded from the new config |
| Kubernetes.KubeApi.ListNodes | kubernetes/kubernetes.go:129-153 | as written: a present cache answers without a request; otherwise a request is made, and its error or its items are returned; the client's own cache is untouched |
| Kubernetes.KubeApi.ListNodesCaching | kubernetes/kubernetes.go:129-153 | corrected: as ListNodes, but a successful fetch is stored in the client's cache with a fresh deadline, and a failed one leaves it unchanged |
| Kubernetes.NodeListCacheNeverHits | kubernetes/kubernetes.go:129-150 | as written, two successful calls at the same instant on a configured client both go to the API server |
| Kubernetes.NodeListCacheHitsWhenKept | kubernetes/kubernetes.go:129-150 | with the update kept, a second call within the minute makes no request and returns the first call's items |
| Sysdig.SysdigApiClient.constructor | sysdig/sysdig.go:31-33 | a client starts with an empty token |
| Sysdig.SysdigApiClient.SetToken | sysdig/sysdig.go:35-37 | the token is the one given |
| Sysdig.SysdigApiClient.Request | sysdig/sysdig.go:122-133 | the URL is the API URL plus the endpoint, with Authorization "Bearer " + token and a JSON content type |
| Sysdig.SysdigApiClient.GetData | sysdig/sysdig.go:78-110 | an error exactly when start is 0; otherwise a POST of api/data whose body has exactly these keys: metrics; dataSourceType (empty means host); last = -start for negative start, or start/end for positive start; filter only when non-empty; sampling only when non-zero |
| Sysdig.SetTokenThenRequest | sysdig/sysdig.go:35-37 | a request carries the token last stored |
| Scheduler.ShortName | methods.go:95-96 | the prefix of the node name before its first dot |
| Scheduler.HostFilter | methods.go:32 | the host name appears verbatim between the quotes after "host.hostName = ", so it can be read back |
| Scheduler.RequestTimeQuery | methods.go:32-37 | definition of the query for one host; Scheduler.GetRequestTime proves that GetData with start -60, end 0, sampling 60, the host filter and "host" builds exactly it |
| Scheduler.ExtractRequestTime | methods.go:37-63 | a value exactly for a 200 answer that decodes and has a non-empty first series, namely that series' first element; a non-200 status is an error naming the status, and an empty answer is noDataFound |
| Scheduler.GetRequestTime | methods.go:31-66 | the request is GetData's query for the host over the last 60 seconds, sampled by 60, with the host filter; the result is what that query's answer yields |
| Scheduler.Measurements | methods.go:89-104 | node i is queried by its short name and reported under its full name |
| Scheduler.Step | methods.go:112-117 | definition of one pass of the accumulator loop; properties proved in Scheduler.ReductionOfFailures, Scheduler.ReductionFromSuccess and Scheduler.ReductionIsFirstMinimum |
| Scheduler.Reduction | methods.go:111-117 | definition of the accumulator loop over the outcomes in order, from the nameless -1 node; properties proved in the three Reduction lemmas, and Scheduler.Rank's loop is proved equal to it |
| Scheduler.ReductionOfFailures | methods.go:111-117 | with no successful query the accumulator stays the nameless -1 node |
| Scheduler.ReductionFromSuccess | methods.go:111-117 | the result is the sentinel, or the name and value of one successful query |
| Scheduler.ReductionIsFirstMinimum | methods.go:111-117 | when no value is -1 and some query succeeded, the result is the lowest value, and among equal lowest values the first |
| Scheduler.QueryAll | methods.go:84-109 | one getRequestTime per node, by the part of its name before the first dot, with the requests sent and the outcomes, reported under the full name, in node order |
| Scheduler.Reduce | methods.go:111-117 | the accumulator loop computes exactly Scheduler.Reduction of the outcomes |
| Scheduler.ReductionOfNamedOutcomes | methods.go:111-125 | for outcomes carrying the node names: all failures leave the nameless -1 node; otherwise the winner is the sentinel or a node with its own successful value; with no -1 value and some success it is the first lowest value |
| Scheduler.Rank | methods.go:84-125 | one query per node in order; the loop computes the reduction; noNodeFound exactly when the winner has no name or the -1 time; all failures give noNodeFound; no error means a real successful node, the first minimum when no value is -1 |
| Scheduler.CachedBest | methods.go:74-81 | a hit exactly when the node-list cache is present and equal, in order, to the argument and the best-node cache is present; then the cached node |
| Scheduler.GetBestRequestTime | methods.go:68-130 | as written: an empty list is emptyNodeList before any cache read; a hit returns the cached node with no error or query; otherwise the ranking, which is always stored in the best-node cache |
| Scheduler.GetBestRequestTimeCachingSuccess | methods.go:68-130 | corrected: as above, but only a successful ranking is cached, so the cache only ever holds a named, measured node and a result with no error is always one |
| Scheduler.NodesAvailable | methods.go:132-151 | a present cache answers as it is and ListNodes is not consulted; otherwise the ready names of the listed nodes in order, and a failed listing gives no nodes; either list is stored in the cache with a fresh deadline |
| Scheduler.CollectReadyNames | methods.go:140-147 | the nested loop over nodes and conditions is proved equal to Kubernetes.ReadyNames |
| Scheduler.SchedulerBinding | methods.go:153-169 | an empty namespace becomes default; target kind Node, apiVersion v1, the node's name; metadata the pod's name; both in the same namespace |
| Scheduler.BindingPath | kubernetes/kubernetes.go:63-65 | the bindings collection of the call's namespace; the namespace can be read back from the path |
| Scheduler.FailedRankingServedFromCache | methods.go:123-127 | as written, a failed ranking reports noNodeFound; a second round at any later time within 15 seconds lists the nodes from the cache and is served the nameless -1 node with no error and no query |
| Scheduler.FailedRankingNotCached | methods.go:123-127 | corrected, the second round within 15 seconds queries again and reports noNodeFound again |
| Main.FlagOverEnv | main.go:68-77 | a set flag wins, otherwise the environment value; missing exactly when neither is set |
| Main.ParseMetricPrefix | main.go:102-108 | '-' is stripped and lower-is-better kept; '+' is stripped and lower-is-better becomes false; any other name is unchanged; an empty name panics |
| Main.ParseMetricPrefixRoundTrip | main.go:102-108 | a prefixed name reads back as the name with its direction, and an unprefixed name as itself |
| Main.Globals.constructor | main.go:36-44 | lower-is-better, no metrics, an empty token and two unloaded 15-second caches |
| Main.Globals.InitToken | main.go:67-78 | the SDC_TOKEN block: the client's token follows flag over environment; missing both is usage() |
| Main.Globals.InitMetric | main.go:91-109 | the SDC_METRIC block: missing is usage(); an empty value panics; otherwise the parsed metric and direction |
| Main.Globals.InitSchedulerName | main.go:111-122 | the SDC_SCHEDULER block: flag over environment; missing both is usage() |
| Main.Globals.Init | main.go:62-130 | token, metric, then scheduler name, the first missing one ending in its usage message; configured exactly when all three are set and the metric is non-empty, then with exactly one new metrics entry (parsed id, timeAvg, avg) |
| Main.Schedulable | main.go:161 | definition of the filter: phase Pending, this scheduler's name, and event type ADDED; Main.HandleEvent proves other events make no call, and PyScheduler.GoFilterIsNarrower compares it with the prototype |
| Main.NameSelector | main.go:169 | "metadata.name=" followed by the pod's name label, or by nothing when the label is missing |
| Main.DecodedOrZero | main.go:185-189 | an undecodable bind response reads as the zero envelope |
| Main.ResponseReport | main.go:190-192 | a message is reported exactly when the code is neither 200 nor 201 |
| Main.Replacements | main.go:173-175 | one switch to default-scheduler per listed deployment, in order |
| Main.CachedFailureBindsToNamelessNode | main.go:164-181 | for a schedulable event handled with that second ranking, the handler makes exactly two calls, the second a binding to the node named "", and never lists deployments for the fallback |
| Main.HandleEvent | main.go:152-196 | an undecodable message is dropped with no call; only ADDED, Pending events for this scheduler are handled; a successful ranking gives exactly one bind of the pod to the winner in its namespace, posted to that namespace's bindings path; a failed one never binds, lists the deployments by name label, and switches each back to default-scheduler, stopping fatally at the first failed switch |
| PyScheduler.MinTime | python-scheduler/SysdigMonitorKubernetesScheduler.py:60 | min returns an element no greater than any other |
| PyScheduler.IndexOf | python-scheduler/SysdigMonitorKubernetesScheduler.py:60 | index returns the first position holding the value |
| PyScheduler.NodeTimes | python-scheduler/SysdigMonitorKubernetesScheduler.py:59 | one time per node, in order, queried by the full hostname |
| PyScheduler.BestRequestTime | python-scheduler/SysdigMonitorKubernetesScheduler.py:56-62 | an empty list returns [] and nothing else does; otherwise the node at the first index holding the lowest time |
| PyScheduler.BestRequestTimeIsMinimal | python-scheduler/SysdigMonitorKubernetesScheduler.py:59-60 | for a non-empty list the result is one of the nodes and no node has a lower time |
| PyScheduler.GoAndPythonPickTheSameNode | python-scheduler/SysdigMonitorKubernetesScheduler.py:56-62 | with the same successful values and no -1, the prototype and the Go reduction choose the same node |
| PyScheduler.NodesAvailable | python-scheduler/SysdigMonitorKubernetesScheduler.py:65-71 | the nested loop yields the same ready list as the Go scheduler: one entry per Ready/True condition, in order |
| PyScheduler.GoFilterIsNarrower | python-scheduler/SysdigMonitorKubernetesScheduler.py:90 | every event the Go filter accepts for sysdigsched the prototype accepts, and a MODIFIED pending event is accepted only by the prototype |
| PyScheduler.ShouldSchedule | python-scheduler/SysdigMonitorKubernetesScheduler.py:42-90 | definition of the filter: phase Pending and scheduler name sysdigsched, with no event-type test; properties proved in PyScheduler.GoFilterIsNarrower and PyScheduler.HandleEvent |
| PyScheduler.SchedulerCall | python-scheduler/SysdigMonitorKubernetesScheduler.py:74-84 | the namespace defaults to default; the target is kind Node, apiVersion v1, the given node; the metadata is the pod's name |
| PyScheduler.BindingsAgree | python-scheduler/SysdigMonitorKubernetesScheduler.py:74-84 | for a named node in the default namespace the prototype and the Go scheduler post the same namespace, target and pod name |
| PyScheduler.HandleEvent | python-scheduler/SysdigMonitorKubernetesScheduler.py:87-95 | a filtered-out event makes no call; a node listing that raises ApiException is caught, its message printed, and no binding posted; otherwise the pod is bound in default to the best ready node, and to [] when no node is ready; a call is made exactly for a scheduled event whose listing succeeded |

## Left out

- HTTP transport is not modelled: `Request` of both clients, `client.Do`, dial timeouts, TLS configuration, the Python `kubernetes`/`sdcclient` calls, and `CreateNamespacedBinding`. Requests become values, and their answers become arguments.
- The crypto parsers are not modelled: `tls.X509KeyPair`, `x509.NewCertPool` and `AppendCertsFromPEM`. The model keeps the bytes handed to them. Their panic on a bad key pair is not modelled.
- Decoding is not modelled: YAML, JSON and base64 decoding in `LoadKubeConfig`, and the decoding of watch events, node lists and Sysdig answers. The model starts from decoded records. A decode failure is a `Failure`/`None` argument.
- Concurrency is not modelled: the watch goroutine, the goroutine per message, the WaitGroup and channel fan-out, and the cache mutex. The fan-out is a loop over the nodes in list order, and the caches are sequential.
- Completion order is not modelled. The source reduces in the order answers arrive. The model reduces in node-list order, so ties go to the earliest node in the list.
- The wall clock is not modelled: `time.Now()` becomes the `now` argument, in nanoseconds for the scheduler's caches.
- The watch loop over messages is not modelled. `main` itself, `flag.Parse`, `usage`'s printing and `os.Exit` appear only as the outcome of one message or of `Init`.
- The KUBECONFIG block of `init` is not modelled: `os.Setenv`, `user.Current` and the call to `LoadKubeConfig`. Process environment mutation is outside the model. The lookup rule is `Kubernetes.KubeConfigFileDefaultLocation`, and the state change is `Kubernetes.KubeApi.LoadKubeConfig`.
- Floating point is not modelled. Metric values are `real`, because they are only compared and copied. The -1 sentinel is kept as written.
- `ListNamespacedDeployments` and `ReplaceDeploymentScheduler` are not defined in the source. Their answers are arguments of `Main.HandleEvent`.
- Logging is not modelled: `log.Println` and the prototype's console output. Only the reported bind message is kept, as `Main.ResponseReport`.
- Main.HandleEvent: `ranking` is an argument. It is what `getBestRequestTime(nodesAvailable())` returns at that moment, not computed inside, because its caches and gateways are modelled in `Scheduler`.
- Main.HandleEvent: `log.Panicln` and `log.Fatalf` both become `Fatal`. The reason string is not specified for the failed listing.
- Kubernetes.WatchQuery: the caller's map is not modelled as modified in place. The query is returned, and aliasing of the caller's `url.Values` is not captured.
- PyScheduler.NodeTimes: `get_request_time` is a function from hostname to value. Its query and the exceptions it can raise are not modelled.
- PyScheduler.HandleEvent: only an `ApiException` from `v1.list_node()` is modelled, as a failed listing. Exceptions of any other kind end `main`, and an `ApiException` from the binding call is only printed; neither is modelled.
- PyScheduler.SchedulerCall: the attribute assignments on fresh client objects are modelled as one record value.

## Findings

| source | as written | input that shows it | evidently intended | confidence | as-written member | corrected member |
|---|---|---|---|---|---|---|
| methods.go:123-127 | the fan-out result is stored in the best-node cache even when it failed, and a later cache hit returns it with no error | one Ready node whose metric query fails, and two events within 15 seconds: the second call returns the nameless node with time -1 and no error, so the caller binds the pod to the node "" instead of falling back (Main.CachedFailureBindsToNamelessNode) | only a successful ranking is cached | not executed | Scheduler.FailedRankingServedFromCache | Scheduler.GetBestRequestTimeCachingSuccess |
| kubernetes/kubernetes.go:129-150 | `ListNodes` has a value receiver, so `api.nodeList.SetData` stores into a copy and the client's cache is never loaded | a configured client and two successful `ListNodes` calls within a minute: both go to the API server | the node list is cached for one minute after a successful fetch | not executed | Kubernetes.NodeListCacheNeverHits | Kubernetes.KubeApi.ListNodesCaching |
