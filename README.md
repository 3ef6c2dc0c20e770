# speedtest: a Dafny model of the alerting and webhook logic

`speedtest.py` runs `speedtest-cli`, converts the result to Mbps and
milliseconds, and posts to IFTTT Maker webhooks. It can post the raw figures
to a result hook. It can post an alert when latency is above, or download or
upload below, a configured threshold. It can post a summary when asked to
notify. This project models the decision logic behind those posts:

- the quality evaluator `check_quality`;
- the three payload builders and the webhook address;
- the exception dispatch in `make_request`;
- the `__main__` block that decides which posts happen, in what order, and
  when the run stops.

Modules:

- `Cli` (cli.dfy): the measured figures (`Metrics`), the parsed options
  (`Args`) and Python truthiness of those options: a string is truthy when
  given and non-empty, an int when given and non-zero. The module globals
  LATENCY, DOWNLOAD, UPLOAD and ALERT become explicit values (`Metrics`,
  `AlertEnabled`).
- `Webhook` (webhook.dfy): the payloads of `post_results`, `alert_quality`
  and `notify_results`, and the URL template. It also holds `make_request`'s
  `try`/`except`/`else`, written as `Dispatch` from a network outcome
  (`Transport`) to how the call ended (`Handled`); only `Reraised` stops the
  run.
- `Quality` (quality.dfy): `CheckQuality`, an imperative method that
  accumulates the message and the `post_alert` flag through three `if`s. It
  is proved against the clause-list specification `Message`/`Breaches`.
- `Runner` (runner.dfy): `Run`, an imperative method for lines 107-119. It is
  proved equal to `Expected`, which executes the `Plan` of posts against the
  network until the first re-raised exception. The lemmas state which posts
  happen, to which hook, in what order, and with what exit status.
- `Scenarios` (scenarios.dfy): concrete runs worked out end to end.
- `Wrappers` (wrappers.dfy): `Option`.

Inputs that stand for what the model cannot see:

- `show: real -> string` is how an f-string renders a float.
- `net: nat -> Transport` is what the network does with the i-th request of a
  run: a response with a status code, `ConnectTimeout`, `ReadTimeout`, or any
  other exception.

Behaviour of the code that a reader of its option help might not expect, modelled as written:

- `-n/--notify` is declared without `action`, so it takes a value. Notify
  fires when that value is non-empty, not when the flag is merely present.
- Only `requests.ConnectTimeout` is swallowed. A `ReadTimeout` is not a
  `ConnectTimeout`, so it reaches `except Exception` and is re-raised: it
  aborts the run (`Scenarios.ReadTimeoutAborts`).
- A threshold of 0 is falsy and skips the quality check. A negative threshold
  is truthy.
- `raise_for_status` raises `HTTPError` for status codes 400 to 599. Any other
  status counts as success and is logged at info level.
- An exception that escapes the entry point ends the process with status 1.

## Model

| member | source | states |
|---|---|---|
| `Quality.CheckQuality` | speedtest.py:27-46 | The accumulated message equals `Message` (the base, one clause per breach in checking order, then "."). `post_alert` holds iff some metric breaches. The alert post happens iff ALERT and `post_alert` both hold, and it is `alert_quality(message, hook, key)` meeting the network outcome. |
| `Quality.Breached` | speedtest.py:31-39 | Definition of the three strict comparisons: latency above its threshold, download and upload below theirs; see `Quality.PostAlertIff` and `Quality.AtThresholdNoClause`. |
| `Quality.Clause` | speedtest.py:33-41 | Definition of the three f-string clauses, the figure rendered by `show`; see `Quality.MessageByMetric` and `Scenarios.LatencyAlertText`. |
| `Quality.Message` | speedtest.py:29-43 | Definition of the message, "Internet was unstable", one clause per breach in checking order, then "."; its properties are `Quality.MessageByMetric`, `Quality.MessageShape` and `Quality.CheckQuality`. |
| `Quality.SelectSpec` | speedtest.py:30-41 | A metric is reported iff it is among those checked and breaches its threshold; never more reports than checks. |
| `Quality.BreachesByMetric` | speedtest.py:31-41 | The breach list is the latency, download and upload checks in that order, each present iff its comparison holds: three independent checks with no early exit. |
| `Quality.MessageByMetric` | speedtest.py:29-43 | The message is "Internet was unstable", then the latency, download and upload clauses, each present iff its comparison holds, then ".". |
| `Quality.PostAlertIff` | speedtest.py:30-41 | An alert is due iff latency > its threshold, or download < its threshold, or upload < its threshold. A metric is reported iff it breaches, and reports keep checking order. |
| `Quality.AtThresholdIsFine` | speedtest.py:31-39 | The comparisons are strict: figures exactly at their thresholds give no breach and the message "Internet was unstable.". |
| `Quality.AtThresholdNoClause` | speedtest.py:31-39 | Each comparison is strict on its own: one figure exactly at its threshold is not reported and adds no clause, whatever the other figures. |
| `Quality.NoBreachMessage` | speedtest.py:29-43 | With every figure on the good side of its threshold there is no breach and the message is exactly "Internet was unstable.". |
| `Quality.MessageShape` | speedtest.py:29-43 | Whatever breaches, the message starts with the base text and ends with exactly one trailing period. |
| `Webhook.ResultsPayload` | speedtest.py:61 | Definition of the results payload, value1..value3 = latency, download, upload; see `Webhook.ResultsPayloadExact`. |
| `Webhook.MessagePayload` | speedtest.py:48-57 | Definition of the `{value1: message}` payload of the alert and notify posts; see `Webhook.MessagePayloadExact`. |
| `Webhook.NotifyMessage` | speedtest.py:55 | Definition of the summary sentence with the three figures rendered by `show`; see `Runner.PlanNotify`. |
| `Webhook.PostResults` | speedtest.py:59-62 | Definition of the results post: the result hook, the key and the three figures under value1..value3; see `Webhook.ResultsPayloadExact` and `Runner.PlanResults`. |
| `Webhook.AlertQuality` | speedtest.py:48-51 | Definition of the alert post: the alert hook, the key and the quality message under value1; see `Webhook.MessagePayloadExact` and `Runner.PlanAlert`. |
| `Webhook.NotifyResults` | speedtest.py:53-57 | Definition of the notify post: the alert hook, the key and the summary sentence `NotifyMessage` under value1; see `Webhook.MessagePayloadExact` and `Runner.PlanNotify`. |
| `Webhook.ResultsPayloadExact` | speedtest.py:59-62 | The results payload decodes to exactly the three figures (value1 latency, value2 download, value3 upload). Any payload that decodes to them is that payload. |
| `Webhook.MessagePayloadExact` | speedtest.py:48-57 | The alert and notify payload decodes to exactly its message under value1. Any payload that decodes to the message is that payload. |
| `Webhook.Url` | speedtest.py:67 | Definition of the Maker address template; see `Webhook.UrlRoundTrip`. |
| `Webhook.UrlRoundTrip` | speedtest.py:67 | `https://maker.ifttt.com/trigger/{hook}/with/key/{key}` splits back into hook and key when the hook has no '/'. An address that splits is the template of its parts. |
| `Webhook.RequestOf` | speedtest.py:65-70 | Definition of the request built for a post: the Maker URL of its hook and key, the JSON content type, the payload and timeout 10; see `Runner.PlanTargets`. |
| `Webhook.ErrorStatus` | speedtest.py:72 | Definition of the statuses `raise_for_status` raises for, 400 to 599; see `Webhook.DispatchSpec`. |
| `Webhook.Dispatch` | speedtest.py:64-81 | Definition of the `try`/`except`/`else` of `make_request` as a map from network outcome to how the call ended; see `Webhook.DispatchSpec`. |
| `Webhook.Continues` | speedtest.py:73-81 | Definition of carrying on after `make_request`: every ending but the re-raise; see `Webhook.DispatchSpec` and `Runner.ExecuteSpec`. |
| `Webhook.LogLevel` | speedtest.py:73-81 | Definition of the level of `make_request`'s one log line: info on success, error otherwise; see `Webhook.DispatchSpec`. |
| `Webhook.MakeRequest` | speedtest.py:64-81 | Definition of one `make_request` call: the post meeting its network outcome and ending as `Dispatch` says; see `Webhook.DispatchSpec` and `Runner.PlanTargets`. |
| `Webhook.DispatchSpec` | speedtest.py:64-81 | `make_request` carries on iff a response arrived (any status) or the connect timed out. HTTP 4xx/5xx statuses are swallowed. Every other exception, a read timeout included, is re-raised unchanged. The info-level success line is written iff no exception occurred. |
| `Cli.AlertEnabled` | speedtest.py:107-110 | Definition of the global ALERT: alert hook name and key both truthy; see `Runner.PlanAlert`, `Runner.PlanNotify` and `Runner.NoAlertWithoutHookAndKey`. |
| `Cli.ResultsEnabled` | speedtest.py:112 | Definition of the results gate: result hook name and key both truthy; see `Runner.PlanResults`. |
| `Cli.ThresholdsSet` | speedtest.py:115 | Definition of the quality-check gate: all three thresholds truthy; see `Runner.PlanAlert` and `Runner.SkipWithoutThresholds`. |
| `Cli.ThresholdsOf` | speedtest.py:116 | Definition of the thresholds handed to `check_quality`; see `Runner.PlanAlert` and `Runner.SkipWithoutThresholds`. |
| `Cli.NotifyGiven` | speedtest.py:118 | Definition of the notify gate's first half: the notify option truthy; see `Runner.PlanNotify`. |
| `Runner.Evaluate` | speedtest.py:27-43 | Definition of the outcome of `check_quality`: its message and its `post_alert` flag; see `Quality.CheckQuality` and `Runner.SkipWithoutThresholds`. |
| `Runner.AlertDue` | speedtest.py:45-116 | Definition of when the run sends an alert: thresholds truthy (line 115), ALERT on and a breach (line 45); see `Runner.PlanAlert`. |
| `Runner.Plan` | speedtest.py:107-119 | Definition of the posts the entry point means to make, in order; see `Runner.PlanOrder`, `Runner.PlanResults`, `Runner.PlanAlert` and `Runner.PlanNotify`. |
| `Runner.Expected` | speedtest.py:107-119 | Definition of the entry point's outcome: the plan executed until the first re-raised exception, the decision and the exit status; see `Runner.Run` and `Runner.RunSpec`. |
| `Runner.Run` | speedtest.py:107-119 | The entry point's behaviour equals `Expected`: the planned posts executed until the first re-raised exception, the quality decision when the check ran, and status 1 exactly when the run aborted. |
| `Runner.Execute` | speedtest.py:112-119 | Definition of sending the planned posts one after another with consecutive network outcomes, stopping after the first re-raised exception; see `Runner.ExecuteSpec`. |
| `Runner.ExecuteSpec` | speedtest.py:112-119 | Attempts follow the plan in order, each with the next network outcome. Every attempt but the last carried on. The run stops short of the plan only after a re-raised exception, and otherwise attempts all of it. |
| `Runner.PlanOrder` | speedtest.py:112-119 | At most three posts, strictly in the order results, alert, notify. |
| `Runner.PlanTargets` | speedtest.py:107-119 | Every post uses the one shared key. The results go to the result hook; the alert and notify posts go to the alert hook. Hook and key are never empty. The request built for each post carries the Maker URL of its hook and key, the JSON content type and timeout 10. |
| `Runner.PlanResults` | speedtest.py:112-113 | The results are posted iff the result hook and the key are truthy. The results post comes first and carries exactly the three figures. |
| `Runner.PlanAlert` | speedtest.py:45-116 | An alert is posted iff all three thresholds are truthy, the alert hook and key are truthy, and a metric breaches. It carries exactly the quality message. |
| `Runner.PlanNotify` | speedtest.py:118-119 | The notification is posted iff the notify option is truthy and ALERT holds, whatever the thresholds. It carries the summary sentence. |
| `Runner.RunSpec` | speedtest.py:112-119 | The run's attempts are the plan's posts with consecutive network outcomes, and the run stops only at a re-raised exception. The exit status is 0 iff every planned post was attempted and carried on, and 1 otherwise. |
| `Runner.SkipWithoutThresholds` | speedtest.py:112-116 | The quality decision exists iff all three thresholds are truthy and the run was not aborted by a re-raise on the results post; when it exists it is `Evaluate`'s. With a threshold missing or zero there is no decision and no alert attempt; without a results post truthy thresholds always yield the decision. |
| `Runner.NoAlertWithoutHookAndKey` | speedtest.py:45-119 | Without ALERT (alert hook or key falsy), only the results post can be attempted. |
| `Scenarios.LatencyOnlyBreach` | speedtest.py:27-46 | Latency 80 against 50, download 150 against 100, upload 25 against 20: only the latency clause, and an alert is due. |
| `Scenarios.LatencyAlertText` | speedtest.py:29-43 | That message reads "Internet was unstable, latency of {80.0} is higher than threshold.". |
| `Scenarios.LatencyOnlyBreachPosts` | speedtest.py:112-116 | In that run the results go to the result hook, then the alert to the alert hook. |
| `Scenarios.AllWithinThresholds` | speedtest.py:27-46 | All figures within thresholds: no clause, `post_alert` false, and only the results are posted, with ALERT on and with it off. |
| `Scenarios.TwoThresholdsSkipCheck` | speedtest.py:115-116 | With only two thresholds the check is skipped even when every figure breaches: no decision, no post, status 0. |
| `Scenarios.ZeroThresholdSkipsCheck` | speedtest.py:115-116 | A zero threshold skips the check as an absent one does. |
| `Scenarios.HttpErrorThenTimeout` | speedtest.py:64-81 | A 503 on the results post and a connect timeout on the alert are both swallowed. Both posts are attempted and the run exits 0. |
| `Scenarios.ReadTimeoutAborts` | speedtest.py:73-79 | A read timeout on the results post is re-raised. Nothing else is attempted, the check never runs, and the exit status is 1. |
| `Scenarios.ResultsPayloadScenario` | speedtest.py:59-62 | The results payload is exactly `{value1: latency, value2: download, value3: upload}` with the figures as given, sent to the result hook with the key. |

## Left out

- `run_speedtest` (lines 8-15): running `speedtest-cli` through a shell and building its `--server` argument is process I/O. The `-s/--speedtest_server_id` option is therefore not part of `Args`.
- `parse_results` (lines 17-25): a thin wrapper over `json.loads`, whose decoder is not part of this model.
- Conversion from bytes per second and `round(..., 2)` (lines 101-103) is floating-point arithmetic. The three figures are taken as given exact reals, and the comparisons are exact, as Python's float/int comparison is.
- Rendering a float inside an f-string (lines 33, 37, 41, 55) is the uninterpreted parameter `show`.
- The HTTP POST itself, `json.dumps` of the payload and the real service's status codes (lines 67-72): a payload is kept as a JSON object, and the network is the input `net`. No timing is modelled for the 10-second timeout; it appears only as a request field. An attempt records the post and how it ended, not the `Request` built for it; the request's URL, content type and timeout are stated per planned post by `Runner.PlanTargets`.
- `argparse` parsing and its errors (lines 88-97). `Args` is what parsing produced.
- Logging setup and the text of log lines (lines 84-86, 105 and the `LOGGER` calls). From the log the model keeps only two things: whether the quality message was logged (the `decision` of a report) and the level of `make_request`'s line (`LogLevel`).
