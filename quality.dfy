/**
 * The quality evaluator, `check_quality`: three independent strict threshold
 * comparisons that build the alert message clause by clause and decide
 * whether an alert is due.
 */
module Quality {
  import opened Wrappers
  import opened Cli
  import opened Webhook
  import Seqs

  /** The three compared figures, in the order the evaluator checks them. */
  datatype Metric = Latency | Download | Upload

  const AllMetrics: seq<Metric> := [Latency, Download, Upload]

  const Base: string := "Internet was unstable"
  const LatencyLead: string := ", latency of "
  const DownloadLead: string := ", download speed of "
  const UploadLead: string := ", upload speed of "
  const Higher: string := " is higher than threshold"
  const Lower: string := " is lower than threshold"

  function Position(k: Metric): nat {
    match k
    case Latency => 0
    case Download => 1
    case Upload => 2
  }

  /** Latency breaches above its ceiling, throughput below its floor; never at it. */
  predicate Breached(k: Metric, m: Metrics, t: Thresholds) {
    match k
    case Latency => m.latency > t.latency as real
    case Download => m.download < t.download as real
    case Upload => m.upload < t.upload as real
  }

  /** The clause the evaluator appends for a breached metric. */
  function Clause(k: Metric, m: Metrics, show: real -> string): string {
    match k
    case Latency => LatencyLead + show(m.latency) + Higher
    case Download => DownloadLead + show(m.download) + Lower
    case Upload => UploadLead + show(m.upload) + Lower
  }

  /** The metrics of `ks` that breach, in the order of `ks`. */
  function Select(ks: seq<Metric>, m: Metrics, t: Thresholds): seq<Metric>
  {
    if ks == [] then []
    else (if Breached(ks[0], m, t) then [ks[0]] else []) + Select(ks[1..], m, t)
  }

  /** The breached metrics, in checking order. */
  function Breaches(m: Metrics, t: Thresholds): seq<Metric> {
    Select(AllMetrics, m, t)
  }

  /** The clauses of `ks`, one after another. */
  function Clauses(ks: seq<Metric>, m: Metrics, show: real -> string): string {
    if ks == [] then "" else Clause(ks[0], m, show) + Clauses(ks[1..], m, show)
  }

  /** The message the evaluator logs and alerts with: the base, one clause per breach, a period. */
  function Message(m: Metrics, t: Thresholds, show: real -> string): string {
    Base + Clauses(Breaches(m, t), m, show) + "."
  }

  /**
   * `check_quality` with the globals LATENCY, DOWNLOAD, UPLOAD and ALERT passed
   * in as `m` and `alert`. `outcome` is what the network does with the alert
   * post if one is made; `sent` is that post and how `make_request` ended.
   */
  method CheckQuality(t: Thresholds, m: Metrics, show: real -> string,
                      alert: bool, hook: string, key: string, outcome: Transport)
    returns (message: string, postAlert: bool, sent: Option<Attempt>)
    ensures message == Message(m, t, show)
    ensures postAlert <==> Breaches(m, t) != []
    ensures sent.Some? <==> alert && postAlert
    ensures sent.Some? ==> sent.value == MakeRequest(AlertQuality(message, hook, key), outcome)
  {
    message := Base;
    postAlert := false;
    if m.latency > t.latency as real {
      postAlert := true;
      message := message + Clause(Latency, m, show);
    }
    assert message == Base + Said(Latency, m, t, show);
    if m.download < t.download as real {
      postAlert := true;
      message := message + Clause(Download, m, show);
    }
    assert message == Base + Said(Latency, m, t, show) + Said(Download, m, t, show);
    if m.upload < t.upload as real {
      postAlert := true;
      message := message + Clause(Upload, m, show);
    }
    assert message == Base + Said(Latency, m, t, show) + Said(Download, m, t, show) + Said(Upload, m, t, show);
    message := message + ".";
    MessageByMetric(m, t, show);
    BreachesByMetric(m, t);
    sent := None;
    if alert && postAlert {
      sent := Some(MakeRequest(AlertQuality(message, hook, key), outcome));
    }
  }

  /** A metric is selected exactly when it is in `ks` and breaches; selection keeps the order of `ks`. */
  lemma {:induction false} SelectSpec(ks: seq<Metric>, m: Metrics, t: Thresholds)
    ensures forall k :: k in Select(ks, m, t) <==> k in ks && Breached(k, m, t)
    ensures |Select(ks, m, t)| <= |ks|
  {
    if ks != [] {
      SelectSpec(ks[1..], m, t);
      assert ks == [ks[0]] + ks[1..];
    }
  }

  /** The breaches are the three checks taken one after another, each present iff it holds. */
  lemma BreachesByMetric(m: Metrics, t: Thresholds)
    ensures Breaches(m, t) == Mark(Latency, m, t) + Mark(Download, m, t) + Mark(Upload, m, t)
  {
    var l, d, u := Mark(Latency, m, t), Mark(Download, m, t), Mark(Upload, m, t);
    assert AllMetrics[1..] == [Download, Upload];
    assert [Download, Upload][1..] == [Upload];
    assert [Upload][1..] == [];
    assert Select([Upload], m, t) == u;
    assert Select([Download, Upload], m, t) == d + u;
    assert Select(AllMetrics, m, t) == l + (d + u);
  }

  /** Clauses of two lists are the clauses of the first followed by those of the second. */
  lemma {:induction false} ClausesAppend(a: seq<Metric>, b: seq<Metric>, m: Metrics, show: real -> string)
    ensures Clauses(a + b, m, show) == Clauses(a, m, show) + Clauses(b, m, show)
  {
    if a == [] {
      assert a + b == b;
    } else {
      assert (a + b)[0] == a[0];
      assert (a + b)[1..] == a[1..] + b;
      ClausesAppend(a[1..], b, m, show);
      Seqs.Assoc(Clause(a[0], m, show), Clauses(a[1..], m, show), Clauses(b, m, show));
    }
  }

  /** The breach list of one metric: itself if it breaches, else nothing. */
  function Mark(k: Metric, m: Metrics, t: Thresholds): seq<Metric> {
    if Breached(k, m, t) then [k] else []
  }

  /** The text one metric adds to the message: its clause if it breaches, else nothing. */
  function Said(k: Metric, m: Metrics, t: Thresholds, show: real -> string): string {
    if Breached(k, m, t) then Clause(k, m, show) else ""
  }

  /**
   * The message is the base followed by the latency, download and upload
   * clauses, each present iff its comparison holds, then one period.
   */
  lemma MessageByMetric(m: Metrics, t: Thresholds, show: real -> string)
    ensures Message(m, t, show) ==
      Base + Said(Latency, m, t, show) + Said(Download, m, t, show) + Said(Upload, m, t, show) + "."
  {
    var l, d, u := Mark(Latency, m, t), Mark(Download, m, t), Mark(Upload, m, t);
    BreachesByMetric(m, t);
    var sl, sd, su := Said(Latency, m, t, show), Said(Download, m, t, show), Said(Upload, m, t, show);
    ClausesAppend(l + d, u, m, show);
    ClausesAppend(l, d, m, show);
    SaidIsClauses(Latency, m, t, show);
    SaidIsClauses(Download, m, t, show);
    SaidIsClauses(Upload, m, t, show);
    assert Clauses(Breaches(m, t), m, show) == (sl + sd) + su;
    Seqs.Assoc(Base, sl + sd, su);
    Seqs.Assoc(Base, sl, sd);
  }

  lemma SaidIsClauses(k: Metric, m: Metrics, t: Thresholds, show: real -> string)
    ensures Clauses(Mark(k, m, t), m, show) == Said(k, m, t, show)
  {
    if Breached(k, m, t) {
      assert Mark(k, m, t)[1..] == [];
    }
  }

  /**
   * An alert is due iff latency is above its threshold or download or upload
   * below theirs; every breached metric is reported, in checking order.
   */
  lemma PostAlertIff(m: Metrics, t: Thresholds)
    ensures Breaches(m, t) != [] <==>
      m.latency > t.latency as real || m.download < t.download as real || m.upload < t.upload as real
    ensures forall k :: k in Breaches(m, t) <==> Breached(k, m, t)
    ensures forall i, j :: 0 <= i < j < |Breaches(m, t)| ==>
      Position(Breaches(m, t)[i]) < Position(Breaches(m, t)[j])
  {
    BreachesByMetric(m, t);
    SelectSpec(AllMetrics, m, t);
  }

  /** A metric exactly at its threshold adds no clause and raises no alert. */
  lemma AtThresholdIsFine(m: Metrics, t: Thresholds, show: real -> string)
    requires m.latency == t.latency as real
    requires m.download == t.download as real
    requires m.upload == t.upload as real
    ensures Breaches(m, t) == []
    ensures Message(m, t, show) == "Internet was unstable."
  {
    NoBreachMessage(m, t, show);
  }

  /** The measured figure of one metric. */
  function Figure(k: Metric, m: Metrics): real {
    match k
    case Latency => m.latency
    case Download => m.download
    case Upload => m.upload
  }

  /** The configured threshold of one metric. */
  function Limit(k: Metric, t: Thresholds): int {
    match k
    case Latency => t.latency
    case Download => t.download
    case Upload => t.upload
  }

  /**
   * Each comparison is strict on its own: a figure exactly at its threshold
   * is not reported and adds no clause, whatever the other figures are.
   */
  lemma AtThresholdNoClause(k: Metric, m: Metrics, t: Thresholds, show: real -> string)
    requires Figure(k, m) == Limit(k, t) as real
    ensures k !in Breaches(m, t)
    ensures Said(k, m, t, show) == ""
  {
    PostAlertIff(m, t);
  }

  /** Without breaches the message is the base with its period and no alert is due. */
  lemma NoBreachMessage(m: Metrics, t: Thresholds, show: real -> string)
    requires m.latency <= t.latency as real
    requires m.download >= t.download as real
    requires m.upload >= t.upload as real
    ensures Breaches(m, t) == []
    ensures Message(m, t, show) == "Internet was unstable."
  {
    MessageByMetric(m, t, show);
    BreachesByMetric(m, t);
  }

  /** Every nonempty run of clauses ends with the last letter of "threshold". */
  lemma {:induction false} ClausesEnd(ks: seq<Metric>, m: Metrics, show: real -> string)
    ensures Clauses(ks, m, show) == "" <==> ks == []
    ensures ks != [] ==> Clauses(ks, m, show)[|Clauses(ks, m, show)| - 1] == 'd'
  {
    if ks != [] {
      ClausesEnd(ks[1..], m, show);
      var c := Clause(ks[0], m, show);
      assert |c| > 0 && c[|c| - 1] == 'd';
    }
  }

  /** The message starts with the base and carries exactly one period at its end, whatever breaches. */
  lemma MessageShape(m: Metrics, t: Thresholds, show: real -> string)
    ensures var msg := Message(m, t, show);
      |msg| >= |Base| + 1 && msg[..|Base|] == Base
      && msg[|msg| - 1] == '.' && msg[|msg| - 2] != '.'
  {
    var cs := Clauses(Breaches(m, t), m, show);
    ClausesEnd(Breaches(m, t), m, show);
    var msg := Message(m, t, show);
    assert msg == Base + cs + ".";
    assert msg[..|Base|] == Base;
    if cs == [] {
      assert msg[|msg| - 2] == Base[|Base| - 1];
    } else {
      assert msg[|msg| - 2] == cs[|cs| - 1];
    }
  }
}
