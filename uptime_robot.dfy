/** The Uptime Robot client (class `UptimeRobot` of update_status.py): the
    `getMonitors` request it builds and the test it applies to the decoded
    answer. The request itself and the JSON decoding happen outside the model;
    the decoded answer is an argument. */
module UptimeRobot {
  import opened Common

  const BASE_URL := "https://api.uptimerobot.com/"

  /** The defaults of `get_monitors`. */
  const DEFAULT_RESPONSE_TIMES := 0
  const DEFAULT_LOGS := 0
  const DEFAULT_UPTIME_RATIO := "30"

  /** One entry of the `monitors.monitor` list of a decoded answer. */
  datatype SourceMonitor = SourceMonitor(
    id: string,
    friendlyName: string,
    url: string,
    status: int,
    customUptimeRatio: Option<string>)

  /** A decoded `getMonitors` answer: its top-level `stat` field and its
      `monitors.monitor` list; `None` stands for a field that is absent (or null). */
  datatype Payload = Payload(stat: Option<string>, monitorList: Option<seq<SourceMonitor>>)

  /** A query string made of `name=value` parameters joined by `&`, in the given order. */
  function QueryString(params: seq<(string, string)>): string
  {
    if params == [] then "" else params[0].0 + "=" + params[0].1 + MoreParameters(params[1..])
  }

  /** The parameters after the first, each introduced by `&`. */
  function MoreParameters(params: seq<(string, string)>): string
  {
    if params == [] then "" else "&" + params[0].0 + "=" + params[0].1 + MoreParameters(params[1..])
  }

  /** The parameters of a `getMonitors` request, in the order the client writes them. */
  function MonitorsQuery(apiKey: string, responseTimes: int, logs: int, uptimeRatio: string): seq<(string, string)>
  {
    [("apiKey", apiKey), ("noJsonCallback", "1"), ("format", "json"),
     ("responseTimes", IntText(responseTimes)), ("logs", IntText(logs)),
     ("customUptimeRatio", uptimeRatio)]
  }

  /** The `getMonitors` endpoint with its query. */
  function MonitorsUrl(apiKey: string, responseTimes: int, logs: int, uptimeRatio: string): string
  {
    BASE_URL + "getMonitors?" + QueryString(MonitorsQuery(apiKey, responseTimes, logs, uptimeRatio))
  }

  /** The query, written out: JSON without a callback wrapper is asked for
      explicitly, and the options come in a fixed order after the key. */
  lemma MonitorsUrlSpelledOut(apiKey: string, responseTimes: int, logs: int, uptimeRatio: string)
    ensures MonitorsUrl(apiKey, responseTimes, logs, uptimeRatio)
         == BASE_URL + "getMonitors?apiKey=" + apiKey + "&noJsonCallback=1&format=json"
            + "&responseTimes=" + IntText(responseTimes) + "&logs=" + IntText(logs)
            + "&customUptimeRatio=" + uptimeRatio
  {
    var rt, lg := IntText(responseTimes), IntText(logs);
    var tail4 := "&logs=" + lg + ("&customUptimeRatio=" + uptimeRatio);
    var tail3 := "&responseTimes=" + rt + tail4;
    var tail1 := "&noJsonCallback=1" + ("&format=json" + tail3);
    assert QueryString(MonitorsQuery(apiKey, responseTimes, logs, uptimeRatio)) == "apiKey=" + apiKey + tail1 by {
      QueryText(apiKey, rt, lg, uptimeRatio);
    }
    var x := BASE_URL + "getMonitors?apiKey=" + apiKey;
    assert MonitorsUrl(apiKey, responseTimes, logs, uptimeRatio) == x + tail1 by {
      var head := BASE_URL + "getMonitors?";
      Assoc(head, "apiKey=" + apiKey, tail1);
      Assoc(head, "apiKey=", apiKey);
      assert head + "apiKey=" == BASE_URL + "getMonitors?apiKey=";
    }
    assert x + tail1 == x + "&noJsonCallback=1&format=json" + tail3 by {
      Assoc("&noJsonCallback=1", "&format=json", tail3);
      assert "&noJsonCallback=1" + "&format=json" == "&noJsonCallback=1&format=json";
      Assoc(x, "&noJsonCallback=1&format=json", tail3);
    }
    var y := x + "&noJsonCallback=1&format=json";
    assert y + tail3 == y + "&responseTimes=" + rt + tail4 by {
      Assoc("&responseTimes=", rt, tail4);
      Assoc(y, "&responseTimes=" + rt, tail4);
      Assoc(y, "&responseTimes=", rt);
    }
    var z := y + "&responseTimes=" + rt;
    assert z + tail4 == z + "&logs=" + lg + ("&customUptimeRatio=" + uptimeRatio) by {
      Assoc("&logs=", lg, "&customUptimeRatio=" + uptimeRatio);
      Assoc(z, "&logs=" + lg, "&customUptimeRatio=" + uptimeRatio);
      Assoc(z, "&logs=", lg);
    }
    Assoc(z + "&logs=" + lg, "&customUptimeRatio=", uptimeRatio);
  }

  /** The query of a `getMonitors` request, parameter by parameter. */
  lemma QueryText(apiKey: string, rt: string, lg: string, uptimeRatio: string)
    ensures QueryString([("apiKey", apiKey), ("noJsonCallback", "1"), ("format", "json"),
                         ("responseTimes", rt), ("logs", lg), ("customUptimeRatio", uptimeRatio)])
         == "apiKey=" + apiKey + ("&noJsonCallback=1" + ("&format=json"
            + ("&responseTimes=" + rt + ("&logs=" + lg + ("&customUptimeRatio=" + uptimeRatio)))))
  {
    var q := [("apiKey", apiKey), ("noJsonCallback", "1"), ("format", "json"),
              ("responseTimes", rt), ("logs", lg), ("customUptimeRatio", uptimeRatio)];
    assert MoreParameters(q[5..]) == "&customUptimeRatio=" + uptimeRatio;
    assert MoreParameters(q[4..]) == "&logs=" + lg + ("&customUptimeRatio=" + uptimeRatio);
    assert MoreParameters(q[3..]) == "&responseTimes=" + rt + MoreParameters(q[4..]);
    assert MoreParameters(q[2..]) == "&format=json" + MoreParameters(q[3..]);
    assert MoreParameters(q[1..]) == "&noJsonCallback=1" + MoreParameters(q[2..]);
  }

  lemma Assoc(a: string, b: string, c: string)
    ensures a + (b + c) == a + b + c
  {
  }

  /** Builds the request URL by appending to it piece by piece, as `get_monitors` does. */
  method BuildMonitorsUrl(apiKey: string, responseTimes: int, logs: int, uptimeRatio: string)
    returns (url: string)
    ensures url == MonitorsUrl(apiKey, responseTimes, logs, uptimeRatio)
  {
    url := BASE_URL;
    url := url + "getMonitors?apiKey=" + apiKey;
    url := url + "&noJsonCallback=1&format=json";
    url := url + "&responseTimes=" + IntText(responseTimes);
    url := url + "&logs=" + IntText(logs);
    url := url + "&customUptimeRatio=" + uptimeRatio;
    MonitorsUrlSpelledOut(apiKey, responseTimes, logs, uptimeRatio);
  }

  /** The acceptance test on a decoded answer: success exactly when `stat` is
      `'ok'`; the answer is handed back unchanged either way. */
  function Accept(response: Payload): (r: (bool, Payload))
    ensures r.0 <==> response.stat == Some("ok")
    ensures r.1 == response
  {
    if Truthy(response.stat) && response.stat.value == "ok" then (true, response)
    else (false, response)
  }

  /** `get_monitors`: the URL of the request it sends and, given the decoded
      answer to it, the `(success, payload)` pair it returns. */
  method GetMonitors(apiKey: string, responseTimes: int, logs: int, uptimeRatio: string, response: Payload)
    returns (url: string, success: bool, payload: Payload)
    ensures url == MonitorsUrl(apiKey, responseTimes, logs, uptimeRatio)
    ensures success <==> response.stat == Some("ok")
    ensures payload == response
  {
    url := BuildMonitorsUrl(apiKey, responseTimes, logs, uptimeRatio);
    success, payload := Accept(response).0, Accept(response).1;
  }
}
