/** The Cachet client (class `CachetHq` of update_status.py): the status
    mapping, the URLs of the three requests it sends, and the choice of the
    last metric point. A request is returned as a `Call` record instead of
    being sent; the decoded answers it would receive are arguments. */
module CachetHq {
  import opened Common

  /** Uptime Robot status codes. */
  const UPTIME_ROBOT_PAUSED := 0
  const UPTIME_ROBOT_NOT_CHECKED_YET := 1
  const UPTIME_ROBOT_UP := 2
  const UPTIME_ROBOT_SEEMS_DOWN := 8
  const UPTIME_ROBOT_DOWN := 9

  /** Cachet component status codes. */
  const CACHET_OPERATIONAL := 1
  const CACHET_PERFORMANCE_ISSUES := 2
  const CACHET_SEEMS_DOWN := 3
  const CACHET_DOWN := 4

  /** The module-level `CACHET_API_KEY` and `CACHET_URL`, read from the
      `cachet` section; `None` when that section is absent. */
  datatype Globals = Globals(cachetApiKey: Option<string>, cachetUrl: Option<string>)

  /** A `CachetHq` object: the key and base URL it was built with. */
  datatype Client = Client(apiKey: Option<string>, url: Option<string>)

  /** One HTTP request to Cachet; `token` is the `X-Cachet-Token` header. */
  datatype Call =
    | Put(url: string, token: Option<string>, status: int)
    | Post(url: string, token: Option<string>, value: Option<string>, timestamp: int)
    | Get(url: string, token: Option<string>)
  {
    function Token(): Option<string>
    {
      match this
      case Put(_, t, _) => t
      case Post(_, t, _, _) => t
      case Get(_, t) => t
    }
  }

  /** The constructor of `CachetHq`: each argument falls back on its global when it is falsy. */
  function NewClient(cachetApiKey: Option<string>, cachetUrl: Option<string>, g: Globals): (r: Client)
    ensures cachetApiKey.Some? && cachetApiKey.value != "" ==> r.apiKey == cachetApiKey
    ensures cachetApiKey.None? || cachetApiKey == Some("") ==> r.apiKey == g.cachetApiKey
    ensures cachetUrl.Some? && cachetUrl.value != "" ==> r.url == cachetUrl
    ensures cachetUrl.None? || cachetUrl == Some("") ==> r.url == g.cachetUrl
  {
    Client(Or(cachetApiKey, g.cachetApiKey), Or(cachetUrl, g.cachetUrl))
  }

  /** A client built from the globals themselves holds exactly the globals,
      whether or not they are set. */
  lemma ClientFromGlobals(g: Globals)
    ensures NewClient(g.cachetApiKey, g.cachetUrl, g) == Client(g.cachetApiKey, g.cachetUrl)
  {
  }

  /** The status a component is set to for an Uptime Robot status, if any. */
  function MapStatus(status: int): (r: Option<int>)
    ensures (status == UPTIME_ROBOT_NOT_CHECKED_YET || status == UPTIME_ROBOT_UP) <==> r == Some(CACHET_OPERATIONAL)
    ensures status == UPTIME_ROBOT_SEEMS_DOWN <==> r == Some(CACHET_SEEMS_DOWN)
    ensures status == UPTIME_ROBOT_DOWN <==> r == Some(CACHET_DOWN)
    ensures r.None? <==> status !in {UPTIME_ROBOT_NOT_CHECKED_YET, UPTIME_ROBOT_UP, UPTIME_ROBOT_SEEMS_DOWN, UPTIME_ROBOT_DOWN}
    ensures r != Some(CACHET_PERFORMANCE_ISSUES)
  {
    if status in [UPTIME_ROBOT_NOT_CHECKED_YET, UPTIME_ROBOT_UP] then Some(CACHET_OPERATIONAL)
    else if status == UPTIME_ROBOT_SEEMS_DOWN then Some(CACHET_SEEMS_DOWN)
    else if status == UPTIME_ROBOT_DOWN then Some(CACHET_DOWN)
    else None
  }

  function ComponentUrl(base: string, idComponent: string): string
  {
    base + "/api/v1/components/" + idComponent + "/"
  }

  function MetricPointsUrl(base: string, idMetric: string): string
  {
    base + "/api/v1/metrics/" + idMetric + "/points/"
  }

  function MetricPageUrl(base: string, idMetric: string, page: string): string
  {
    base + "/api/v1/metrics/" + idMetric + "/points?page=" + page
  }

  /** Under one base URL, distinct components have distinct URLs. */
  lemma ComponentUrlInjective(base: string, a: string, b: string)
    requires ComponentUrl(base, a) == ComponentUrl(base, b)
    ensures a == b
  {
    var u := ComponentUrl(base, a);
    var n := |base + "/api/v1/components/"|;
    assert a == u[n..|u| - 1];
    assert b == ComponentUrl(base, b)[n..|u| - 1];
  }

  /** Under one base URL, distinct metrics have distinct points URLs. */
  lemma MetricPointsUrlInjective(base: string, a: string, b: string)
    requires MetricPointsUrl(base, a) == MetricPointsUrl(base, b)
    ensures a == b
  {
    var u := MetricPointsUrl(base, a);
    var n := |base + "/api/v1/metrics/"|;
    assert a == u[n..|u| - 8];
    assert b == MetricPointsUrl(base, b)[n..|u| - 8];
  }

  /** A component URL is never a metric-points URL under the same base. */
  lemma ComponentAndMetricUrlsDiffer(base: string, idComponent: string, idMetric: string)
    ensures ComponentUrl(base, idComponent) != MetricPointsUrl(base, idMetric)
  {
    var n := |base| + 8;
    assert ComponentUrl(base, idComponent)[n] == 'c';
    assert MetricPointsUrl(base, idMetric)[n] == 'm';
  }

  /** `update_component`: a PUT of the mapped status to the component, sent
      to the client's URL with the global key as token, or nothing when the
      status does not map. */
  function UpdateComponent(client: Client, g: Globals, idComponent: string, status: int): (r: Option<Call>)
    ensures r.None? <==> MapStatus(status).None?
    ensures r.Some? ==> r.value == Put(ComponentUrl(Text(client.url), idComponent), g.cachetApiKey, MapStatus(status).value)
  {
    var componentStatus := MapStatus(status);
    if componentStatus.Some? && componentStatus.value != 0 then
      Some(Put(ComponentUrl(Text(client.url), idComponent), g.cachetApiKey, componentStatus.value))
    else
      None
  }

  /** `set_data_metrics`: a POST of one point to the metric; it goes to the
      global URL with the global key whatever client sends it. */
  function SetDataMetrics(client: Client, g: Globals, value: Option<string>, timestamp: int, idMetric: string): (r: Call)
    ensures r.Post? && r.token == g.cachetApiKey && r.value == value && r.timestamp == timestamp
    ensures Text(g.cachetUrl) + "/api/v1/metrics/" <= r.url
    ensures |r.url| == |Text(g.cachetUrl)| + 16 + |idMetric| + 8
    ensures r.url[|Text(g.cachetUrl)| + 16..|r.url| - 8] == idMetric
    ensures r.url[|r.url| - 8..] == "/points/"
  {
    Post(MetricPointsUrl(Text(g.cachetUrl), idMetric), g.cachetApiKey, value, timestamp)
  }

  /** The client that posts a metric point makes no difference to the request. */
  lemma MetricPostIgnoresClient(a: Client, b: Client, g: Globals, value: Option<string>, timestamp: int, idMetric: string)
    ensures SetDataMetrics(a, g, value, timestamp, idMetric) == SetDataMetrics(b, g, value, timestamp, idMetric)
  {
  }

  /** A decoded metric point (or any record of a points listing). */
  type Record = map<string, string>

  /** A decoded answer to a points listing: `meta.pagination.total_pages` and
      `data`, each `None` when absent (or null). */
  datatype Pagination = Pagination(totalPages: Option<int>)
  datatype Meta = Meta(pagination: Option<Pagination>)
  datatype PointsPage = PointsPage(meta: Option<Meta>, data: Option<seq<Record>>)

  /** The attribute lookup on `None` that ends `get_last_metric_point` when
      the first answer lacks `meta` or `meta.pagination`. */
  datatype Crash = MetaMissing | PaginationMissing

  /** The record made up when the last page holds no point: `created_at` is
      today's date at midnight, since only the date of `now()` is formatted. */
  function CreatedAtOnly(today: string): Record
  {
    map["created_at" := today + " 00:00:00"]
  }

  /** `get_last_metric_point`: the requests it sends and the record it
      returns, given the answer to the first request (`index`), the answer to
      the second (`lastPage`) and today's date written as `%Y-%m-%d`. */
  function GetLastMetricPoint(client: Client, g: Globals, idMetric: string, index: PointsPage, lastPage: PointsPage, today: string)
    : (r: (seq<Call>, Result<Record, Crash>))
    ensures r.1.Ok? <==> index.meta.Some? && index.meta.value.pagination.Some?
    ensures |r.0| == if r.1.Ok? then 2 else 1
    ensures r.0[0] == Get(MetricPointsUrl(Text(client.url), idMetric), g.cachetApiKey)
    ensures r.1.Ok? ==> r.0[1] == Get(MetricPageUrl(Text(client.url), idMetric,
                                         IntOrNoneText(index.meta.value.pagination.value.totalPages)), g.cachetApiKey)
    ensures r.1.Ok? && lastPage.data.Some? && |lastPage.data.value| > 0 ==> r.1.value == lastPage.data.value[0]
    ensures r.1.Ok? && (lastPage.data.None? || lastPage.data.value == []) ==>
              r.1.value.Keys == {"created_at"} && r.1.value["created_at"] == today + " 00:00:00"
  {
    var base := Text(client.url);
    var first := Get(MetricPointsUrl(base, idMetric), g.cachetApiKey);
    if index.meta.None? then ([first], Err(MetaMissing))
    else if index.meta.value.pagination.None? then ([first], Err(PaginationMissing))
    else
      var page := index.meta.value.pagination.value.totalPages;
      var second := Get(MetricPageUrl(base, idMetric, IntOrNoneText(page)), g.cachetApiKey);
      if lastPage.data.Some? && |lastPage.data.value| > 0 then ([first, second], Ok(lastPage.data.value[0]))
      else ([first, second], Ok(CreatedAtOnly(today)))
  }

  /** The second request asks for page `total_pages` of the first answer: the
      number read back from the end of its URL is that count. */
  lemma SecondRequestTargetsLastPage(client: Client, g: Globals, idMetric: string, index: PointsPage,
                                     lastPage: PointsPage, today: string, totalPages: int)
    requires index.meta.Some? && index.meta.value.pagination == Some(Pagination(Some(totalPages)))
    ensures var r := GetLastMetricPoint(client, g, idMetric, index, lastPage, today);
            var prefix := MetricPageUrl(Text(client.url), idMetric, "");
            |r.0| == 2 && prefix <= r.0[1].url && IntValue(r.0[1].url[|prefix|..]) == totalPages
  {
    var prefix := MetricPageUrl(Text(client.url), idMetric, "");
    var page := IntText(totalPages);
    var url := MetricPageUrl(Text(client.url), idMetric, page);
    assert url == prefix + page;
    assert url[|prefix|..] == page;
    IntTextRoundTrip(totalPages);
  }

  /** Every request of `get_last_metric_point` carries the global key,
      whatever key the client was built with. */
  lemma LastMetricPointUsesGlobalToken(client: Client, g: Globals, idMetric: string, index: PointsPage,
                                       lastPage: PointsPage, today: string)
    ensures forall c <- GetLastMetricPoint(client, g, idMetric, index, lastPage, today).0 :: c.Token() == g.cachetApiKey
  {
  }
}
