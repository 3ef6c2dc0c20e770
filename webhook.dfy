/**
 * The notifier: the three payload builders and `make_request`, which sends a
 * payload to an IFTTT Maker webhook and sorts what can go wrong into
 * recoverable and fatal failures.
 */
module Webhook {
  import opened Wrappers
  import opened Cli

  /** A JSON value of a payload: the figures go out as numbers, messages as strings. */
  datatype Json = Num(n: real) | Str(s: string)

  /** A payload is a JSON object. */
  type Payload = map<string, Json>

  /** Which of the three callers of `make_request` built the post. */
  datatype Purpose = Results | Alert | Notify

  /** The position of a purpose in the entry point's order of calls. */
  function Rank(p: Purpose): nat {
    match p
    case Results => 0
    case Alert => 1
    case Notify => 2
  }

  /** One call of `make_request`: the hook name, the secret key and the payload. */
  datatype Post = Post(purpose: Purpose, hook: string, key: string, payload: Payload)

  // ---------------------------------------------------------------- payloads

  /** The payload of `post_results`: latency, download and upload as numbers. */
  function ResultsPayload(m: Metrics): Payload {
    map["value1" := Num(m.latency), "value2" := Num(m.download), "value3" := Num(m.upload)]
  }

  /** The payload of `alert_quality` and `notify_results`: a single message. */
  function MessagePayload(message: string): Payload {
    map["value1" := Str(message)]
  }

  /** The sentence `notify_results` sends; `show` renders a float as Python does. */
  function NotifyMessage(m: Metrics, show: real -> string): string {
    "Speed test completed with latency of " + show(m.latency)
    + "ms, download speed of " + show(m.download)
    + "mbps and upload speed of " + show(m.upload) + "mbps"
  }

  /** `post_results(hook_name, hook_key)`. */
  function PostResults(hook: string, key: string, m: Metrics): Post {
    Post(Results, hook, key, ResultsPayload(m))
  }

  /** `alert_quality(alert_message, hook_name, hook_key)`. */
  function AlertQuality(message: string, hook: string, key: string): Post {
    Post(Alert, hook, key, MessagePayload(message))
  }

  /** `notify_results(hook_name, hook_key)`. */
  function NotifyResults(hook: string, key: string, m: Metrics, show: real -> string): Post {
    Post(Notify, hook, key, MessagePayload(NotifyMessage(m, show)))
  }

  /** Reads the three figures back out of a payload that holds exactly them. */
  function MetricsOf(p: Payload): Option<Metrics> {
    if p.Keys == {"value1", "value2", "value3"}
       && p["value1"].Num? && p["value2"].Num? && p["value3"].Num?
    then Some(Metrics(p["value1"].n, p["value2"].n, p["value3"].n))
    else None
  }

  /** Reads the message back out of a payload that holds exactly one. */
  function MessageOf(p: Payload): Option<string> {
    if p.Keys == {"value1"} && p["value1"].Str? then Some(p["value1"].s) else None
  }

  /** The results payload carries exactly the three figures, in the order latency, download, upload. */
  lemma ResultsPayloadExact(m: Metrics, p: Payload)
    ensures MetricsOf(ResultsPayload(m)) == Some(m)
    ensures MetricsOf(p) == Some(m) ==> p == ResultsPayload(m)
  {
    var r := ResultsPayload(m);
    assert r.Keys == {"value1", "value2", "value3"};
    if MetricsOf(p) == Some(m) {
      assert p.Keys == r.Keys;
      forall k | k in p.Keys ensures p[k] == r[k] {
        assert k == "value1" || k == "value2" || k == "value3";
      }
    }
  }

  /** A message payload carries exactly the message, under `value1`. */
  lemma MessagePayloadExact(message: string, p: Payload)
    ensures MessageOf(MessagePayload(message)) == Some(message)
    ensures MessageOf(p) == Some(message) ==> p == MessagePayload(message)
  {
    var r := MessagePayload(message);
    assert r.Keys == {"value1"};
    if MessageOf(p) == Some(message) {
      assert p.Keys == r.Keys;
    }
  }

  // --------------------------------------------------------------------- URL

  const UrlPrefix: string := "https://maker.ifttt.com/trigger/"
  const KeyInfix: string := "/with/key/"

  /** The webhook address every post goes to. */
  function Url(hook: string, key: string): string {
    UrlPrefix + hook + KeyInfix + key
  }

  /** The index of the first `c` in `s`, or `|s|` when there is none. */
  function IndexOf(s: string, c: char): (i: nat)
    ensures i <= |s|
    ensures i < |s| ==> s[i] == c
    ensures forall j :: 0 <= j < i ==> s[j] != c
  {
    if s == [] then 0 else if s[0] == c then 0 else 1 + IndexOf(s[1..], c)
  }

  /**
   * Splits an address of the webhook's shape into hook name and key, taking
   * the hook name to end at the first '/' after the prefix.
   */
  function SplitUrl(url: string): Option<(string, string)> {
    if |UrlPrefix| <= |url| && url[..|UrlPrefix|] == UrlPrefix then
      var rest := url[|UrlPrefix|..];
      var i := IndexOf(rest, '/');
      if i + |KeyInfix| <= |rest| && rest[i..i + |KeyInfix|] == KeyInfix
      then Some((rest[..i], rest[i + |KeyInfix|..]))
      else None
    else None
  }

  /**
   * A hook name without '/' and any key can be read back from the address,
   * and an address that splits is exactly the address of its two parts: the
   * template loses nothing and the one key appears once, at the end.
   */
  lemma UrlRoundTrip(hook: string, key: string, url: string)
    ensures '/' !in hook ==> SplitUrl(Url(hook, key)) == Some((hook, key))
    ensures SplitUrl(url) == Some((hook, key)) ==> url == Url(hook, key) && '/' !in hook
  {
    if '/' !in hook {
      var u := Url(hook, key);
      assert u[..|UrlPrefix|] == UrlPrefix;
      var rest := u[|UrlPrefix|..];
      assert rest == hook + KeyInfix + key;
      IndexOfPrefix(hook, KeyInfix + key, '/');
      assert (hook + KeyInfix + key) == hook + (KeyInfix + key);
      assert IndexOf(rest, '/') == |hook|;
      assert rest[|hook|..|hook| + |KeyInfix|] == KeyInfix;
      assert rest[..|hook|] == hook;
      assert rest[|hook| + |KeyInfix|..] == key;
    }
    if SplitUrl(url) == Some((hook, key)) {
      var rest := url[|UrlPrefix|..];
      var i := IndexOf(rest, '/');
      assert rest == rest[..i] + rest[i..i + |KeyInfix|] + rest[i + |KeyInfix|..];
      assert url == url[..|UrlPrefix|] + rest;
      forall j | 0 <= j < |hook| ensures hook[j] != '/' {
        assert hook[j] == rest[j];
      }
    }
  }

  /** The first `c` in `a + b` is the first in `b` when `a` has none. */
  lemma {:induction false} IndexOfPrefix(a: string, b: string, c: char)
    requires c !in a
    requires |b| > 0 && b[0] == c
    ensures IndexOf(a + b, c) == |a|
  {
    if a == [] {
      assert a + b == b;
    } else {
      assert (a + b)[1..] == a[1..] + b;
      IndexOfPrefix(a[1..], b, c);
    }
  }

  // ---------------------------------------------------------------- requests

  const ContentType: string := "application/json"
  const TimeoutSeconds: int := 10

  /** The request `make_request` sends: JSON body, JSON content type, ten-second timeout. */
  datatype Request = Request(url: string, contentType: string, body: Payload, timeout: int)

  function RequestOf(p: Post): Request {
    Request(Url(p.hook, p.key), ContentType, p.payload, TimeoutSeconds)
  }

  /**
   * What the network does with one request: a response with its status code,
   * `requests.ConnectTimeout`, `requests.ReadTimeout`, or any other exception
   * (named). The real network is not part of this model, so this is an input.
   */
  datatype Transport = Responded(status: int) | ConnectTimedOut | ReadTimedOut | Fault(name: string)

  /** How `make_request` ends, which decides both its log line and whether the run goes on. */
  datatype Handled =
    | Succeeded(status: int)   // logged at info level with the status code
    | HttpError(status: int)   // raised by raise_for_status, logged and swallowed
    | ConnectTimeout           // logged and swallowed
    | Reraised(cause: Transport) // logged and raised again: the run aborts

  /** `raise_for_status` raises for the client-error and server-error classes. */
  predicate ErrorStatus(status: int) {
    400 <= status < 600
  }

  /** The `try`/`except`/`else` of `make_request`, clause by clause. */
  function Dispatch(t: Transport): Handled {
    match t
    case Responded(s) => if ErrorStatus(s) then HttpError(s) else Succeeded(s)
    case ConnectTimedOut => ConnectTimeout
    case ReadTimedOut => Reraised(t)
    case Fault(_) => Reraised(t)
  }

  /** Whether the caller of `make_request` carries on after it. */
  predicate Continues(h: Handled) {
    !h.Reraised?
  }

  datatype Level = Info | Error

  /** The level of the one line `make_request` logs. */
  function LogLevel(h: Handled): Level {
    if h.Succeeded? then Info else Error
  }

  /** One attempted post and how it ended. */
  datatype Attempt = Attempt(post: Post, handled: Handled)

  /** `make_request(hook_name, hook_key, post_data)` meeting the network outcome `t`. */
  function MakeRequest(p: Post, t: Transport): Attempt {
    Attempt(p, Dispatch(t))
  }

  /**
   * Exception dispatch: HTTP error statuses and connect timeouts are
   * swallowed, every other exception (a read timeout among them) aborts, and
   * the success line, the only one at info level, is written exactly when
   * no exception occurred.
   */
  lemma DispatchSpec(t: Transport)
    ensures Continues(Dispatch(t)) <==> t.Responded? || t.ConnectTimedOut?
    ensures Dispatch(t).Succeeded? <==> t.Responded? && !ErrorStatus(t.status)
    ensures LogLevel(Dispatch(t)) == Info <==> t.Responded? && !ErrorStatus(t.status)
    ensures Dispatch(t).HttpError? <==> t.Responded? && ErrorStatus(t.status)
    ensures Dispatch(t).Reraised? ==> Dispatch(t).cause == t
    ensures t.Responded? && Continues(Dispatch(t)) ==> Dispatch(t).status == t.status
  {
  }
}
