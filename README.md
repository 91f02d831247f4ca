# cachet-uptime-robot, modelled in Dafny

`update_status.py` is a periodic job that copies monitor state from Uptime Robot to a Cachet status page. It reads a configuration file with an `uptimeRobot` section (the Uptime Robot key), a `cachet` section (the Cachet key and URL) and one section per monitored URL (Cachet key, Cachet URL, metric id, and optionally a component id). It then fetches `getMonitors` from Uptime Robot. For every returned monitor whose URL names a section, it sets that section's component to the mapped status and posts the monitor's uptime ratio as a metric point.

This project models the job's decision logic and proves properties about it. HTTP requests are not sent. Each request is a `Call` record (`Put`, `Post`, `Get`) with its URL, its `X-Cachet-Token` header and its body fields. Each decoded answer is an abstract datatype passed in as an argument. The modules follow the program:

- `Common` (common.dfy): `Option` and `Result`, and the Python conversions the program relies on. These are truthiness, `x or y`, and what `'{0}'.format` writes for a string, `None` or an integer.
- `UptimeRobot` (uptime_robot.dfy): the `getMonitors` URL, built piece by piece as the source does, and the `stat == 'ok'` acceptance test.
- `CachetHq` (cachet.dfy): the status table, the `CachetHq` constructor, the component and metric URLs, `update_component`, `set_data_metrics` and `get_last_metric_point`.
- `Configuration` (config.dfy): the start-up loop over the parsed sections. It is an imperative method filling the monitor table in place, proved equal to a left fold (`Fold`/`Load`). The lemmas about that fold state what the table holds.
- `Monitor` (monitor.dfy): `send_data_to_cachet` and `update`. `Update` is an imperative loop that issues the calls of each matched monitor. It is proved equal to the function `RunPass`/`Dispatch`, and the lemmas state how many posts and updates a pass sends and what they carry.
- `Job` (job.dfy): loading followed by one pass, plus a worked example.

Behaviour of the code that the model follows, where the documented behaviour differs:

- Metric points are posted to the global `CACHET_URL` (update_status.py:96-99). Every request carries the global `CACHET_API_KEY` (update_status.py:90, 102, 112, 126). The per-monitor `CachetUrl` and `CachetApiKey` are stored but never reach a request. `EntryCredentialsUnused` and `PassUsesGlobalCachet` prove this.
- The record made up by `get_last_metric_point` when the last page is empty formats only the date of `now()` (update_status.py:133-135). Its `created_at` is therefore today at `00:00:00`, not the current time.
- Without an `uptimeRobot` section, start-up fails on an unbound name (the key is stored in a lower-case local, update_status.py:206, and read at update_status.py:221). The model returns `Err(SourceKeyUnbound)` for this case.
- A missing option raises `KeyError`. The model returns `Err(MissingOption(section, option))`.
- The lookup failure in `send_data_to_cachet` (update_status.py:150-153) is modelled. `Dispatch` is proved never to reach it, because `update` only calls the lookup after the membership test at update_status.py:181.

Inputs the model takes as parameters: the parsed sections (in file order), the decoded `getMonitors` answer, the two decoded points listings of `get_last_metric_point`, today's date as `%Y-%m-%d` text, and a clock. `clock(k)` is the `int(time.time())` read for the k-th metric point.

## Model

| member | source | states |
|---|---|---|
| `Common.IntTextRoundTrip` | update_status.py:27-31 | the decimal text written for an integer query parameter reads back as the same integer |
| `UptimeRobot.MonitorsUrlSpelledOut` | update_status.py:14-36 | the `getMonitors` URL, built as `name=value` parameters in a fixed order, equals base + `getMonitors?apiKey=` + key + `&noJsonCallback=1&format=json&responseTimes=` + rt + `&logs=` + logs + `&customUptimeRatio=` + ratio |
| `UptimeRobot.BuildMonitorsUrl` | update_status.py:20-36 | appending the pieces one `+=` at a time yields that URL |
| `UptimeRobot.Accept` | update_status.py:43-48 | success exactly when `stat` is present and equals `'ok'`; the payload is returned unchanged in both cases |
| `UptimeRobot.GetMonitors` | update_status.py:16-48 | the request URL for the given options, and `(success, payload)` as above |
| `CachetHq.NewClient` | update_status.py:64-66 | a key or URL argument that is set and non-empty is kept; a missing or empty one is replaced by the global `CACHET_API_KEY` / `CACHET_URL` |
| `CachetHq.ClientFromGlobals` | update_status.py:64-66 | a client built from the globals (as `send_data_to_cachet` builds it) holds exactly the globals, set or not |
| `CachetHq.MapStatus` | update_status.py:51-81 | not-checked-yet (1) and up (2) map to operational (1), seems-down (8) to 3, down (9) to 4; paused (0) and every other integer map to none; performance-issues (2) is never produced |
| `CachetHq.UpdateComponent` | update_status.py:68-93 | no request when the status does not map; otherwise exactly one PUT of the mapped status to client URL + `/api/v1/components/` + id + `/`, with the global key as token |
| `CachetHq.ComponentUrlInjective` | update_status.py:84-88 | under one base URL, distinct component ids give distinct URLs |
| `CachetHq.MetricPointsUrlInjective` | update_status.py:96-99 | under one base URL, distinct metric ids give distinct points URLs |
| `CachetHq.ComponentAndMetricUrlsDiffer` | update_status.py:84-99 | a component URL never equals a metric-points URL under the same base |
| `CachetHq.SetDataMetrics` | update_status.py:95-105 | one POST carrying the given value and timestamp with the global key as token, to the global `CACHET_URL` + `/api/v1/metrics/` + the metric id (read back from the URL) + `/points/` |
| `CachetHq.MetricPostIgnoresClient` | update_status.py:95-105 | the metric POST is the same whichever client sends it: it uses only the globals |
| `CachetHq.GetLastMetricPoint` | update_status.py:107-138 | a first GET of the points; when `meta.pagination` is missing it stops after that call; otherwise a second GET of page `total_pages`, and the result is `data[0]` when `data` is non-empty, else a record with only `created_at` = today + ` 00:00:00` |
| `CachetHq.SecondRequestTargetsLastPage` | update_status.py:116-124 | the page number read back from the second URL is the first answer's `total_pages` |
| `CachetHq.LastMetricPointUsesGlobalToken` | update_status.py:107-126 | both GETs carry the global key, whatever key the client holds |
| `Configuration.Step` | update_status.py:204-219 | a section is accepted exactly when it holds every option read from it; otherwise the error names that section and an option it lacks |
| `Configuration.LoadConfig` | update_status.py:192-221 | the in-place loop over the sections computes `Load` |
| `Configuration.FoldSucceeds` | update_status.py:204-219 | the loop gets through all sections exactly when each holds its options |
| `Configuration.FoldError` | update_status.py:204-219 | on failure the error names the first section that lacks an option |
| `Configuration.FoldSourceKey` | update_status.py:205-206 | the source key is that of the last `uptimeRobot` section, unset without one |
| `Configuration.FoldGlobals` | update_status.py:207-209 | the Cachet key and URL are those of the last `cachet` section, unset without one |
| `Configuration.FoldMonitors` | update_status.py:210-219 | the table's keys are exactly the names of the non-reserved sections; each entry holds the key, URL and metric id of the last section with its name, and has `component_id` exactly when that section has `ComponentId` |
| `Configuration.LoadErrors` | update_status.py:196-221 | an empty section list, and only that, gives `NoSections` (exit 1); a missing option error occurs exactly when some section lacks one; `SourceKeyUnbound` occurs exactly when all options are present but there is no `uptimeRobot` section |
| `Configuration.LoadSucceeds` | update_status.py:200-221 | a loaded configuration has the key of the last `uptimeRobot` section, the globals of the last `cachet` section, and a table with no `uptimeRobot` or `cachet` entry and one entry per other section name as above |
| `Monitor.MonitorCalls` | update_status.py:155-170 | for one matched monitor: a PUT (to the global Cachet URL) exactly when its entry has a component and its status maps, then exactly one POST of its uptime ratio to its metric at the global URL |
| `Monitor.SendData` | update_status.py:145-153 | the table lookup fails (exit 1) exactly when the monitor's URL is not in the table |
| `Monitor.MatchedSelects` | update_status.py:180-181 | the monitors the loop hands on are exactly the returned monitors whose `url` is a table key: every kept one is returned and in the table, and every returned one in the table is kept |
| `Monitor.UpdatedSelects` | update_status.py:155-164 | the monitors that get a component update are exactly the returned ones in the table whose entry has `component_id` and whose status maps |
| `Monitor.Dispatch` | update_status.py:180-187 | the loop over the returned monitors never reaches the exit branch of the lookup |
| `Monitor.RunPass` | update_status.py:173-189 | a fetch without `stat == 'ok'` sends no Cachet request; the pass stops early only when an accepted answer has no monitor list |
| `Monitor.Update` | update_status.py:173-189 | fetches with `responseTimes=1`, logs and ratio at their defaults, and its loop computes `RunPass` |
| `Monitor.PostsFollowMatchedMonitors` | update_status.py:166-187 | the metric posts of a pass are one per matched monitor in list order; the k-th has that monitor's `customuptimeratio`, its configured metric id, the global URL and key, and the k-th clock reading; unmatched monitors give none |
| `Monitor.PutsFollowComponents` | update_status.py:160-164 | the component updates are one per matched monitor whose entry has `component_id` and whose status maps, in order; each sets that component to the mapped status |
| `Monitor.UnmatchedMonitorsIgnored` | update_status.py:180-181 | the pass over only the matched monitors sends the same requests |
| `Monitor.PassUsesGlobalCachet` | update_status.py:155-170 | a pass sends only PUTs and POSTs; every one carries the global key and goes under the global Cachet URL + `/api/v1/` |
| `Monitor.EntryCredentialsUnused` | update_status.py:155-158 | tables that differ only in the per-monitor Cachet key and URL give the same pass |
| `Job.RunJob` | update_status.py:191-222 | the run fails at start-up exactly when `Load` does; otherwise it fetches with the loaded source key |
| `Job.Run` | update_status.py:191-222 | loading followed by `update` computes `RunJob` |
| `Job.ExampleRun` | update_status.py:145-222 | a monitor that is up and has component 3 and metric 5 gives one PUT of status 1 to component 3 and one POST of its ratio to metric 5 |

## Left out

- HTTP requests (`requests.get/put/post`), JSON decoding, transport errors and non-2xx answers: these are calls into a foreign library. Requests are returned as records, and decoded answers are arguments.
- The text `update_component` returns is discarded by its caller (update_status.py:161-164). The decoded answer `set_data_metrics` returns is only printed (update_status.py:105, 171).
- `time.time()` and `datetime.now()`: the clock and today's date are parameters.
- Reading the file with `configparser`, its case-folding of option names, and `sys.argv`. The model starts from the parsed sections, with options under the names the program looks up.
- `print` output, and exit statuses other than as error values.
- The unused `urlparse` import (update_status.py:5) and the unused `UPTIME_ROBOT_API_KEY` global (update_status.py:200).
- A monitor without a `url` field, and a `status` that `int()` rejects: monitor records are typed, with an integer status.
- The default arguments of `update_component` and `set_data_metrics` (update_status.py:68, 95): the callers always pass them.
- The uptime-ratio window is taken as text, so the `7-30-45` multi-window form is covered without modelling its syntax.
- `get_last_metric_point` is not called by the pass. It is modelled on its own.
- Configuration.Step: the error names a required option that the section lacks. The contract does not say which one comes first in reading order when several are missing; the body checks them in the source's order.
