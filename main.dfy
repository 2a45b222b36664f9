/**
 * The scheduler process of main.go: the start-up resolution of token,
 * metric and scheduler name from flags and environment, and the handling
 * of one watch-stream message (filter, bind or fall back). The watch
 * stream, the goroutine per message and the process exit are outside the
 * model; what the gateways answer is given as arguments, and the calls the
 * handler makes are returned in order.
 */
module Main {
  import opened Wrappers
  import opened ExpiringCache
  import opened Kubernetes
  import opened Sysdig
  import opened Scheduler

  const DefaultScheduler: string := "default-scheduler"

  /** The four command-line flags; an empty string is an unset flag. */
  datatype Flags = Flags(token: string, kubeConfigFile: string, metric: string, schedulerName: string)

  /** How init ends: configured, through usage() and os.Exit, or by indexing an empty metric name. */
  datatype InitOutcome = Configured | UsageExit(message: string) | EmptyMetricPanic

  /** A flag that is set overrides the environment; with neither the setting is missing. */
  function FlagOverEnv(env: map<string, string>, key: string, flag: string): (r: Option<string>)
    ensures flag != "" ==> r == Some(flag)
    ensures flag == "" && key in env ==> r == Some(env[key])
    ensures r.None? <==> key !in env && flag == ""
  {
    if key !in env && flag == "" then None
    else if flag != "" then Some(flag)
    else Some(env[key])
  }

  /**
   * The sort prefix of the metric: "-" is stripped and keeps lower-is-better,
   * "+" is stripped and selects higher-is-better, anything else is kept as
   * it is. None is the index panic on an empty name.
   */
  function ParseMetricPrefix(metric: string, lower: bool): (r: Option<(string, bool)>)
    ensures r.None? <==> metric == ""
    ensures r.Some? && metric[0] == '-' ==> r.value == (metric[1..], lower)
    ensures r.Some? && metric[0] == '+' ==> r.value == (metric[1..], false)
    ensures r.Some? && metric[0] != '-' && metric[0] != '+' ==> r.value == (metric, lower)
  {
    if metric == "" then None
    else if metric[0] == '-' then Some((metric[1..], lower))
    else if metric[0] == '+' then Some((metric[1..], false))
    else Some((metric, lower))
  }

  /** A prefix that is written is a prefix that is read back, and the name is never changed otherwise. */
  lemma ParseMetricPrefixRoundTrip(name: string, lower: bool)
    ensures ParseMetricPrefix("-" + name, lower) == Some((name, lower))
    ensures ParseMetricPrefix("+" + name, lower) == Some((name, false))
    ensures name != "" && name[0] != '-' && name[0] != '+' ==> ParseMetricPrefix(name, lower) == Some((name, lower))
  {
  }

  /** The package-level variables of main.go that init and the handlers use. */
  class Globals {
    var schedulerName: string
    const sysdigAPI: SysdigApiClient
    var metrics: seq<MetricSpec>
    var sysdigMetric: string
    var sysdigMetricLower: bool
    const bestCachedNode: Cache<Node>
    const cachedNodes: Cache<seq<string>>

    /** The initial values: lower is better, no metrics yet, two empty 15-second caches. */
    constructor ()
      ensures schedulerName == "" && sysdigMetric == "" && sysdigMetricLower && metrics == []
      ensures fresh(sysdigAPI) && sysdigAPI.token == ""
      ensures fresh(bestCachedNode) && !bestCachedNode.loaded && bestCachedNode.timeout == CacheTimeout
      ensures fresh(cachedNodes) && !cachedNodes.loaded && cachedNodes.timeout == CacheTimeout
    {
      schedulerName := "";
      sysdigAPI := new SysdigApiClient();
      metrics := [];
      sysdigMetric := "";
      sysdigMetricLower := true;
      bestCachedNode := new Cache<Node>(CacheTimeout);
      cachedNodes := new Cache<seq<string>>(CacheTimeout);
    }

    /** The SDC_TOKEN block of init: the token stored in the client, or false for usage(). */
    method InitToken(env: map<string, string>, flag: string) returns (ok: bool)
      modifies sysdigAPI
      ensures ok <==> FlagOverEnv(env, "SDC_TOKEN", flag).Some?
      ensures ok ==> sysdigAPI.token == FlagOverEnv(env, "SDC_TOKEN", flag).value
      ensures !ok ==> sysdigAPI.token == old(sysdigAPI.token)
    {
      var tokenSetByEnv := "SDC_TOKEN" in env;
      if !tokenSetByEnv && flag == "" {
        return false;
      }
      if tokenSetByEnv {
        sysdigAPI.SetToken(env["SDC_TOKEN"]);
      }
      if flag != "" {
        sysdigAPI.SetToken(flag);
      }
      return true;
    }

    /**
     * The SDC_METRIC block of init: the metric name with its sort prefix
     * parsed off. None is success; otherwise the way init ends.
     */
    method InitMetric(env: map<string, string>, flag: string) returns (failure: Option<InitOutcome>)
      modifies this
      ensures schedulerName == old(schedulerName) && metrics == old(metrics)
      ensures FlagOverEnv(env, "SDC_METRIC", flag).None? ==> failure == Some(UsageExit("The Sysdig metric must be defined"))
      ensures FlagOverEnv(env, "SDC_METRIC", flag) == Some("") ==> failure == Some(EmptyMetricPanic)
      ensures failure.None? <==> FlagOverEnv(env, "SDC_METRIC", flag).Some? && FlagOverEnv(env, "SDC_METRIC", flag).value != ""
      ensures failure.None? ==>
        (sysdigMetric, sysdigMetricLower) == ParseMetricPrefix(FlagOverEnv(env, "SDC_METRIC", flag).value, old(sysdigMetricLower)).value
    {
      var metricSetByEnv := "SDC_METRIC" in env;
      if !metricSetByEnv && flag == "" {
        return Some(UsageExit("The Sysdig metric must be defined"));
      }
      if metricSetByEnv {
        sysdigMetric := env["SDC_METRIC"];
      }
      if flag != "" {
        sysdigMetric := flag;
      }
      if sysdigMetric == "" {
        return Some(EmptyMetricPanic);
      }
      var highOrLowMetric := sysdigMetric[0];
      if highOrLowMetric == '-' {
        sysdigMetric := sysdigMetric[1..];
      } else if highOrLowMetric == '+' {
        sysdigMetric := sysdigMetric[1..];
        sysdigMetricLower := false;
      }
      return None;
    }

    /** The SDC_SCHEDULER block of init: the scheduler name, or false for usage(). */
    method InitSchedulerName(env: map<string, string>, flag: string) returns (ok: bool)
      modifies this
      ensures sysdigMetric == old(sysdigMetric) && sysdigMetricLower == old(sysdigMetricLower) && metrics == old(metrics)
      ensures ok <==> FlagOverEnv(env, "SDC_SCHEDULER", flag).Some?
      ensures ok ==> schedulerName == FlagOverEnv(env, "SDC_SCHEDULER", flag).value
    {
      var nameSetByEnv := "SDC_SCHEDULER" in env;
      if !nameSetByEnv && flag == "" {
        return false;
      }
      if nameSetByEnv {
        schedulerName := env["SDC_SCHEDULER"];
      }
      if flag != "" {
        schedulerName := flag;
      }
      return true;
    }

    /**
     * init, after flag.Parse: token, metric and scheduler name in that order,
     * each from the environment and overridden by a set flag; the first one
     * missing ends in usage(). On success the metrics list gets one entry for
     * the parsed metric, averaged over time and over the group.
     */
    method Init(env: map<string, string>, flags: Flags) returns (outcome: InitOutcome)
      modifies this, sysdigAPI
      ensures var token := FlagOverEnv(env, "SDC_TOKEN", flags.token);
        && (token.None? ==> outcome == UsageExit("Error: Sysdig Cloud token is not set.") && sysdigAPI.token == old(sysdigAPI.token))
        && (token.Some? ==> sysdigAPI.token == token.value)
      ensures var token := FlagOverEnv(env, "SDC_TOKEN", flags.token);
        var metric := FlagOverEnv(env, "SDC_METRIC", flags.metric);
        && (token.Some? && metric.None? ==> outcome == UsageExit("The Sysdig metric must be defined"))
        && (token.Some? && metric == Some("") ==> outcome == EmptyMetricPanic)
      ensures var token := FlagOverEnv(env, "SDC_TOKEN", flags.token);
        var metric := FlagOverEnv(env, "SDC_METRIC", flags.metric);
        var name := FlagOverEnv(env, "SDC_SCHEDULER", flags.schedulerName);
        && (token.Some? && metric.Some? && metric.value != "" && name.None? ==> outcome == UsageExit("Scheduler name must be set"))
        && (outcome == Configured <==> token.Some? && metric.Some? && metric.value != "" && name.Some?)
      ensures outcome == Configured ==>
        && (sysdigMetric, sysdigMetricLower) == ParseMetricPrefix(FlagOverEnv(env, "SDC_METRIC", flags.metric).value, old(sysdigMetricLower)).value
        && schedulerName == FlagOverEnv(env, "SDC_SCHEDULER", flags.schedulerName).value
        && metrics == old(metrics) + [MetricSpec(sysdigMetric, "timeAvg", "avg")]
      ensures outcome != Configured ==> metrics == old(metrics)
    {
      var tokenOk := InitToken(env, flags.token);
      if !tokenOk {
        return UsageExit("Error: Sysdig Cloud token is not set.");
      }
      var metricFailure := InitMetric(env, flags.metric);
      if metricFailure.Some? {
        return metricFailure.value;
      }
      var nameOk := InitSchedulerName(env, flags.schedulerName);
      if !nameOk {
        return UsageExit("Scheduler name must be set");
      }
      metrics := metrics + [MetricSpec(sysdigMetric, "timeAvg", "avg")];
      return Configured;
    }
  }

  /** The part of a watch event the handler reads. */
  datatype PodEvent = PodEvent(eventType: string, phase: string, schedulerName: string, podName: string, namespace: string, labels: map<string, string>)

  /** A deployment returned by the namespaced listing. */
  datatype Deployment = Deployment(name: string)

  /** What the bind request produced: no response at all, or a response whose envelope did or did not decode. */
  datatype BindReply = BindFailed(reason: string) | BindReplied(envelope: Option<KubeResponse>)

  /** The gateway calls a handler makes, in order. */
  datatype GatewayCall =
    | RankNodes
    | CreateBinding(path: string, binding: BindingCall)
    | ListDeployments(namespace: string, selector: string)
    | ReplaceDeploymentScheduler(deployment: string, schedulerName: string)

  /** How handling one message ends. */
  datatype EventOutcome = Dropped | Ignored | Bound(reported: Option<string>) | FellBack | Fatal(reason: string)

  /** The event is ADDED, its pod is Pending, and it asks for this scheduler. */
  predicate Schedulable(event: PodEvent, schedulerName: string) {
    event.phase == "Pending" && event.schedulerName == schedulerName && event.eventType == "ADDED"
  }

  /** The label selector of the fallback; a missing "name" label reads as "". */
  function NameSelector(labels: map<string, string>): (r: string)
    ensures |r| >= 14 && r[..14] == "metadata.name="
    ensures "name" in labels ==> r[14..] == labels["name"]
    ensures "name" !in labels ==> r == "metadata.name="
  {
    "metadata.name=" + (if "name" in labels then labels["name"] else "")
  }

  /** The decoded envelope; one that failed to decode is the zero value, code 0 and no message. */
  function DecodedOrZero(envelope: Option<KubeResponse>): (r: KubeResponse)
    ensures envelope.Some? ==> r == envelope.value
    ensures envelope.None? ==> r.code == 0 && r.message == ""
  {
    if envelope.Some? then envelope.value else KubeResponse(0, "")
  }

  /** The logged message of a bind response whose code is neither 200 nor 201. */
  function ResponseReport(response: KubeResponse): (r: Option<string>)
    ensures r.None? <==> response.code == 200 || response.code == 201
    ensures r.Some? ==> r.value == response.message
  {
    if response.code != 200 && response.code != 201 then Some(response.message) else None
  }

  /** One update to the default scheduler per listed deployment. */
  function Replacements(items: seq<Deployment>): (r: seq<GatewayCall>)
    ensures |r| == |items|
    ensures forall i :: 0 <= i < |items| ==> r[i] == ReplaceDeploymentScheduler(items[i].name, DefaultScheduler)
  {
    seq(|items|, i requires 0 <= i < |items| => ReplaceDeploymentScheduler(items[i].name, DefaultScheduler))
  }

  /** The deployment loop stopped at the first update that failed, after issuing it. */
  ghost predicate StoppedAtFailure(items: seq<Deployment>, replace: Deployment -> Option<string>, calls: seq<GatewayCall>, prefix: seq<GatewayCall>) {
    exists k :: 0 <= k < |items| && replace(items[k]).Some? && (forall i :: 0 <= i < k ==> replace(items[i]).None?)
      && calls == prefix + Replacements(items[..k + 1])
  }

  /**
   * The body of the per-message goroutine. `ranking` is what
   * getBestRequestTime(nodesAvailable()) returns; `bindReply` what the
   * binding call produced; `deployments` the listing; `replace` the error,
   * if any, of updating one deployment.
   */
  method HandleEvent(decoded: Result<PodEvent, string>, schedulerName: string, ranking: (Node, Option<RankError>),
                     bindReply: BindReply, deployments: Result<seq<Deployment>, string>, replace: Deployment -> Option<string>)
    returns (calls: seq<GatewayCall>, outcome: EventOutcome)
    ensures decoded.Failure? ==> calls == [] && outcome == Dropped
    ensures decoded.Success? && !Schedulable(decoded.value, schedulerName) ==> calls == [] && outcome == Ignored
    ensures decoded.Success? && Schedulable(decoded.value, schedulerName) && ranking.1.None? ==>
              var event := decoded.value;
              && (var binding := SchedulerBinding(event.podName, ranking.0.name, event.namespace);
                  calls == [RankNodes, CreateBinding(BindingPath(binding), binding)])
              && (bindReply.BindFailed? ==> outcome.Fatal?)
              && (bindReply.BindReplied? ==> outcome == Bound(ResponseReport(DecodedOrZero(bindReply.envelope))))
    ensures decoded.Success? && Schedulable(decoded.value, schedulerName) && ranking.1.Some? ==>
              var event := decoded.value;
              var prefix := [RankNodes, ListDeployments(event.namespace, NameSelector(event.labels))];
              && (deployments.Failure? ==> calls == prefix && outcome.Fatal?)
              && (deployments.Success? ==>
                    var items := deployments.value;
                    && (outcome == FellBack <==> forall i :: 0 <= i < |items| ==> replace(items[i]).None?)
                    && (outcome == FellBack ==> calls == prefix + Replacements(items))
                    && (outcome != FellBack ==> outcome.Fatal? && StoppedAtFailure(items, replace, calls, prefix)))
    ensures forall i :: 0 <= i < |calls| && calls[i].CreateBinding? ==> ranking.1.None?
  {
    if decoded.Failure? {
      return [], Dropped;
    }
    var event := decoded.value;
    if !(event.phase == "Pending" && event.schedulerName == schedulerName && event.eventType == "ADDED") {
      return [], Ignored;
    }

    calls := [RankNodes];
    var bestNodeFound, err := ranking.0, ranking.1;
    if err.Some? {
      // Fall back to the default scheduler.
      calls := calls + [ListDeployments(event.namespace, NameSelector(event.labels))];
      if deployments.Failure? {
        return calls, Fatal(deployments.error);
      }
      var items := deployments.value;
      ghost var prefix := calls;
      for i := 0 to |items|
        invariant calls == prefix + Replacements(items[..i])
        invariant forall j :: 0 <= j < i ==> replace(items[j]).None?
      {
        calls := calls + [ReplaceDeploymentScheduler(items[i].name, DefaultScheduler)];
        assert Replacements(items[..i + 1]) == Replacements(items[..i]) + [ReplaceDeploymentScheduler(items[i].name, DefaultScheduler)];
        var failure := replace(items[i]);
        if failure.Some? {
          return calls, Fatal("could not modify deployment " + items[i].name + ": " + failure.value);
        }
      }
      assert items[..|items|] == items;
      return calls, FellBack;
    }

    var binding := SchedulerBinding(event.podName, bestNodeFound.name, event.namespace);
    calls := calls + [CreateBinding(BindingPath(binding), binding)];
    match bindReply {
      case BindFailed(reason) =>
        // The response is nil; reading its body panics.
        outcome := Fatal(reason);
      case BindReplied(envelope) =>
        var kubeResponse := DecodedOrZero(envelope);
        outcome := Bound(ResponseReport(kubeResponse));
    }
  }

  /**
   * The cached failure reaches the binding: for the second of two events
   * within the cache lifetime the ranking reports no error, so the pod is
   * bound to the node named "" and the fallback to the default scheduler
   * never runs.
   */
  method CachedFailureBindsToNamelessNode(api: SysdigApiClient, metrics: seq<MetricSpec>, nodeName: string, now: Time, later: Time,
                                          event: PodEvent, schedulerName: string, bindReply: BindReply,
                                          deployments: Result<seq<Deployment>, string>, replace: Deployment -> Option<string>)
    returns (calls: seq<GatewayCall>, outcome: EventOutcome)
    requires now <= later <= now + CacheTimeout
    requires Schedulable(event, schedulerName)
    ensures |calls| == 2 && calls[1].CreateBinding? && calls[1].binding.body.target.name == ""
    ensures forall i :: 0 <= i < |calls| ==> !calls[i].ListDeployments?
  {
    var first, second, secondSent := FailedRankingServedFromCache(api, metrics, nodeName, now, later);
    calls, outcome := HandleEvent(Success(event), schedulerName, second, bindReply, deployments, replace);
  }
}
