/**
 * The Sysdig Monitor client of sysdig/sysdig.go: the token it holds, the
 * request body GetData assembles key by key, and the request Request would
 * send. JSON encoding and the HTTP round trip are outside the model: the
 * body stays a map and the request is returned, not sent.
 */
module Sysdig {
  import opened Wrappers

  const ApiUrl: string := "https://api.sysdigcloud.com/"

  /** One entry of the metrics list: an id and its time and group aggregations. */
  datatype MetricSpec = MetricSpec(id: string, timeAggregation: string, groupAggregation: string)

  /** The JSON values a request body holds. */
  datatype Json = JNumber(n: int) | JString(s: string) | JMetrics(metrics: seq<MetricSpec>)

  datatype HttpRequest = HttpRequest(httpMethod: string, url: string, headers: seq<(string, string)>, body: map<string, Json>)

  class SysdigApiClient {
    var token: string

    constructor ()
      ensures token == ""
    {
      token := "";
    }

    method SetToken(token: string)
      modifies this
      ensures this.token == token
    {
      this.token := token;
    }

    /** The request built by Request: the endpoint appended to the API URL, the bearer token and JSON content type. */
    function Request(httpMethod: string, apiMethod: string, body: map<string, Json>): (r: HttpRequest)
      reads this
      ensures r.url == ApiUrl + apiMethod && r.httpMethod == httpMethod && r.body == body
      ensures ("Authorization", "Bearer " + token) in r.headers
      ensures ("Content-Type", "application/json") in r.headers
    {
      HttpRequest(httpMethod, ApiUrl + apiMethod, [("Authorization", "Bearer " + token), ("Content-Type", "application/json")], body)
    }

    /**
     * GetData: a POST of api/data whose body always names the metrics and the
     * data source (default "host"), carries either a relative window "last"
     * (negative start) or an absolute "start"/"end" pair (positive start),
     * and "filter"/"sampling" only when they are set. A zero start is an
     * error and no request is made.
     */
    method GetData(metrics: seq<MetricSpec>, start: int, end: int, sampling: int, filter: string, dataSourceType: string)
      returns (r: Result<HttpRequest, string>)
      ensures r.Failure? <==> start == 0
      ensures r.Failure? ==> r.error == "startTs cannot be 0"
      ensures r.Success? ==> r.value == Request("POST", "api/data", r.value.body)
      ensures r.Success? ==> var body := r.value.body;
        && body.Keys == {"metrics", "dataSourceType"}
                        + (if start < 0 then {"last"} else {"start", "end"})
                        + (if filter != "" then {"filter"} else {})
                        + (if sampling != 0 then {"sampling"} else {})
        && body["metrics"] == JMetrics(metrics)
        && body["dataSourceType"] == JString(if dataSourceType == "" then "host" else dataSourceType)
        && (start < 0 ==> body["last"] == JNumber(-start))
        && (start > 0 ==> body["start"] == JNumber(start) && body["end"] == JNumber(end))
        && (filter != "" ==> body["filter"] == JString(filter))
        && (sampling != 0 ==> body["sampling"] == JNumber(sampling))
    {
      var dst := dataSourceType;
      if dst == "" {
        dst := "host";
      }

      var reqBody: map<string, Json> := map["metrics" := JMetrics(metrics), "dataSourceType" := JString(dst)];

      if start < 0 {
        reqBody := reqBody["last" := JNumber(-start)];
      } else if start == 0 {
        return Failure("startTs cannot be 0");
      } else {
        reqBody := reqBody["start" := JNumber(start)];
        reqBody := reqBody["end" := JNumber(end)];
      }

      if filter != "" {
        reqBody := reqBody["filter" := JString(filter)];
      }

      if sampling != 0 {
        reqBody := reqBody["sampling" := JNumber(sampling)];
      }

      r := Success(Request("POST", "api/data", reqBody));
    }
  }

  /** The token a client sends is the one last stored by SetToken. */
  method SetTokenThenRequest(api: SysdigApiClient, token: string, apiMethod: string, body: map<string, Json>)
    returns (request: HttpRequest)
    modifies api
    ensures request.url == ApiUrl + apiMethod
    ensures ("Authorization", "Bearer " + token) in request.headers
  {
    api.SetToken(token);
    request := api.Request("POST", apiMethod, body);
  }
}
