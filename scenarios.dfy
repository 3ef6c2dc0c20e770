/** Concrete runs of the entry point, each worked out end to end. */
module Scenarios {
  import opened Wrappers
  import opened Cli
  import opened Webhook
  import Seqs
  import Quality
  import opened Runner

  /** Hook names and key used by the scenarios. */
  const Sheet: string := "log_speed"
  const Phone: string := "speed_alert"
  const Secret: string := "s3cret"

  /** Options with every hook, the key and the three thresholds 50 ms, 100 and 20 Mbps. */
  function FullArgs(): Args {
    Args(Some(Sheet), Some(Phone), Some(Secret), Some(20), Some(100), Some(50), None)
  }

  /** The message of the latency-only scenario (`LatencyOnlyBreach`): the base, the latency clause and the period. */
  function LatencyAlert(show: real -> string): string {
    Quality.Base + Quality.LatencyLead + show(80.0) + Quality.Higher + "."
  }

  /**
   * Latency 80 ms against a 50 ms ceiling, download 150 and upload 25 Mbps
   * against floors of 100 and 20: only the latency clause, and an alert is due.
   */
  lemma LatencyOnlyBreach(show: real -> string)
    ensures Evaluate(Thresholds(50, 100, 20), Metrics(80.0, 150.0, 25.0), show)
         == Decision(LatencyAlert(show), true)
  {
    var m := Metrics(80.0, 150.0, 25.0);
    var t := Thresholds(50, 100, 20);
    Quality.MessageByMetric(m, t, show);
    Quality.BreachesByMetric(m, t);
    var c := Quality.Clause(Quality.Latency, m, show);
    assert Quality.Said(Quality.Latency, m, t, show) == c;
    assert Quality.Said(Quality.Download, m, t, show) == "";
    assert Quality.Said(Quality.Upload, m, t, show) == "";
    assert Quality.Base + c + "" + "" == Quality.Base + c;
    Seqs.Assoc(Quality.Base, Quality.LatencyLead + show(80.0), Quality.Higher);
    Seqs.Assoc(Quality.Base, Quality.LatencyLead, show(80.0));
  }

  /** The latency-only scenario's message written out. */
  lemma LatencyAlertText(show: real -> string)
    ensures LatencyAlert(show)
         == "Internet was unstable, latency of " + show(80.0) + " is higher than threshold."
  {
    var lead := "Internet was unstable, latency of ";
    var tail := " is higher than threshold.";
    assert lead == Quality.Base + Quality.LatencyLead;
    assert tail == Quality.Higher + ".";
    Seqs.Assoc(Quality.Base + Quality.LatencyLead + show(80.0), Quality.Higher, ".");
    Seqs.Assoc(lead, show(80.0), tail);
  }

  /** In the latency-only scenario the results go to the result hook, then the alert to the alert hook. */
  lemma LatencyOnlyBreachPosts(show: real -> string)
    ensures Plan(FullArgs(), Metrics(80.0, 150.0, 25.0), show)
         == [PostResults(Sheet, Secret, Metrics(80.0, 150.0, 25.0)),
             AlertQuality(LatencyAlert(show), Phone, Secret)]
  {
    LatencyOnlyBreach(show);
    assert ThresholdsOf(FullArgs()) == Thresholds(50, 100, 20);
  }

  /**
   * All figures within their thresholds: no clause and no alert, with the
   * alert hook given (ALERT on) and without it (ALERT off); only the results post.
   */
  lemma AllWithinThresholds(show: real -> string)
    ensures var m := Metrics(20.0, 300.0, 40.0);
      && Evaluate(Thresholds(50, 100, 20), m, show) == Decision("Internet was unstable.", false)
      && Plan(FullArgs(), m, show) == [PostResults(Sheet, Secret, m)]
      && Plan(FullArgs().(alertHook := None), m, show) == [PostResults(Sheet, Secret, m)]
  {
    var m := Metrics(20.0, 300.0, 40.0);
    var t := Thresholds(50, 100, 20);
    Quality.NoBreachMessage(m, t, show);
    assert ThresholdsOf(FullArgs()) == t;
    assert !AlertEnabled(FullArgs().(alertHook := None));
  }

  /** Only two thresholds given: the quality check is skipped even with every figure breaching. */
  lemma TwoThresholdsSkipCheck(show: real -> string, net: nat -> Transport)
    ensures var a := Args(None, Some(Phone), Some(Secret), Some(20), Some(100), None, None);
      Expected(a, Metrics(900.0, 1.0, 1.0), show, net) == Report([], None, 0)
  {
  }

  /** A zero threshold is falsy and skips the check as an absent one does. */
  lemma ZeroThresholdSkipsCheck(show: real -> string, net: nat -> Transport)
    ensures var a := Args(None, Some(Phone), Some(Secret), Some(20), Some(100), Some(0), None);
      Expected(a, Metrics(900.0, 1.0, 1.0), show, net) == Report([], None, 0)
  {
  }

  /**
   * A results post whose response is 503 is logged and swallowed; the alert
   * still goes out; its connect timeout is swallowed too and the run exits 0.
   */
  lemma HttpErrorThenTimeout(show: real -> string)
    ensures var m := Metrics(80.0, 150.0, 25.0);
      var net := (i: nat) => if i == 0 then Responded(503) else ConnectTimedOut;
      var rep := Expected(FullArgs(), m, show, net);
      && |rep.attempts| == 2
      && rep.attempts[0].handled == HttpError(503)
      && rep.attempts[1].post.purpose == Alert
      && rep.attempts[1].handled == ConnectTimeout
      && rep.exitStatus == 0
  {
    var m := Metrics(80.0, 150.0, 25.0);
    var net := (i: nat) => if i == 0 then Responded(503) else ConnectTimedOut;
    LatencyOnlyBreachPosts(show);
    RunSpec(FullArgs(), m, show, net);
    var plan := Plan(FullArgs(), m, show);
    assert Dispatch(net(0)) == HttpError(503);
    assert Dispatch(net(1)) == ConnectTimeout;
    assert forall i :: 0 <= i < |plan| ==> Continues(Dispatch(net(i)));
  }

  /**
   * A read timeout is not a connect timeout: it is re-raised, so after a
   * failed results post nothing else is attempted, the quality check never
   * runs and the exit status is 1.
   */
  lemma ReadTimeoutAborts(show: real -> string)
    ensures var m := Metrics(80.0, 150.0, 25.0) ;
      Expected(FullArgs(), m, show, (i: nat) => ReadTimedOut)
      == Report([Attempt(PostResults(Sheet, Secret, m), Reraised(ReadTimedOut))], None, 1)
  {
    LatencyOnlyBreachPosts(show);
  }

  /** Results post with both a result hook and the key: payload value1..value3 = latency, download, upload. */
  lemma ResultsPayloadScenario(show: real -> string)
    ensures var a := Args(Some(Sheet), None, Some(Secret), None, None, None, Some("yes"));
      Plan(a, Metrics(12.34, 95.5, 19.87), show)
      == [Post(Results, Sheet, Secret,
               map["value1" := Num(12.34), "value2" := Num(95.5), "value3" := Num(19.87)])]
  {
  }
}
