/**
 * The entry point after the measurement: it decides from the options which
 * webhook posts happen, to which hook and in what order, carries on past
 * recoverable failures and stops at the first fatal one.
 */
module Runner {
  import opened Wrappers
  import opened Cli
  import opened Webhook
  import Seqs
  import Quality

  /** What the quality check decided and logged. */
  datatype Decision = Decision(message: string, postAlert: bool)

  /**
   * What one run does: the posts it attempted, in order, with how each ended;
   * the quality decision, if the check ran; and the process exit status
   * (an exception escaping the entry point makes Python exit with 1).
   */
  datatype Report = Report(attempts: seq<Attempt>, decision: Option<Decision>, exitStatus: int)

  /** The decision `check_quality` reaches for thresholds `t`. */
  function Evaluate(t: Thresholds, m: Metrics, show: real -> string): Decision {
    Decision(Quality.Message(m, t, show), Quality.Breaches(m, t) != [])
  }

  /** Whether the run sends an alert: thresholds all set, ALERT on, a breach. */
  predicate AlertDue(a: Args, m: Metrics) {
    ThresholdsSet(a) && AlertEnabled(a) && Quality.Breaches(m, ThresholdsOf(a)) != []
  }

  /** Every post of the run, in order, as it would go if none of them aborted. */
  function Plan(a: Args, m: Metrics, show: real -> string): seq<Post> {
    (if ResultsEnabled(a) then [PostResults(Text(a.resultHook), Text(a.key), m)] else [])
    + (if AlertDue(a, m)
       then [AlertQuality(Quality.Message(m, ThresholdsOf(a), show), Text(a.alertHook), Text(a.key))]
       else [])
    + (if NotifyGiven(a) && AlertEnabled(a) then [NotifyResults(Text(a.alertHook), Text(a.key), m, show)] else [])
  }

  /**
   * Sends the posts of `plan` one after another, the first meeting network
   * outcome `net(n)`, stopping after the first one whose exception is re-raised.
   */
  function Execute(plan: seq<Post>, net: nat -> Transport, n: nat): seq<Attempt>
  {
    if plan == [] then []
    else
      var at := MakeRequest(plan[0], net(n));
      [at] + (if Continues(at.handled) then Execute(plan[1..], net, n + 1) else [])
  }

  /** Whether a sequence of attempts ended with a re-raised exception. */
  predicate Aborted(attempts: seq<Attempt>) {
    attempts != [] && !Continues(attempts[|attempts| - 1].handled)
  }

  /**
   * The report of a run: the plan executed against the network; the quality
   * decision when all thresholds are set and the results post, if any, did not
   * abort the run first; status 1 exactly when the run aborted.
   */
  function Expected(a: Args, m: Metrics, show: real -> string, net: nat -> Transport): Report {
    var attempts := Execute(Plan(a, m, show), net, 0);
    var evaluated := ThresholdsSet(a) && !(ResultsEnabled(a) && !Continues(Dispatch(net(0))));
    Report(attempts,
           if evaluated then Some(Evaluate(ThresholdsOf(a), m, show)) else None,
           if Aborted(attempts) then 1 else 0)
  }

  /**
   * The `__main__` block from the computed figures on, with the globals
   * passed in: `m` for LATENCY, DOWNLOAD and UPLOAD, `show` for the rendering
   * of a float in an f-string, `net(i)` for what the network does with the
   * i-th request of the run.
   */
  method Run(a: Args, m: Metrics, show: real -> string, net: nat -> Transport) returns (report: Report)
    ensures report == Expected(a, m, show, net)
  {
    ghost var r, al, no := PlanParts(a, m, show);
    ghost var done: seq<Post> := [];
    var alert := AlertEnabled(a);
    var attempts: seq<Attempt> := [];
    var decision: Option<Decision> := None;

    if ResultsEnabled(a) {
      var post := PostResults(Text(a.resultHook), Text(a.key), m);
      var at := MakeRequest(post, net(|attempts|));
      ExecuteSnoc(done, post, net, 0);
      attempts, done := attempts + [at], done + [post];
      if !Continues(at.handled) {
        AbortedRun(done, al + no, net, 0);
        report := Report(attempts, decision, 1);
        return;
      }
    }
    assert done == r;

    if ThresholdsSet(a) {
      var message, postAlert, sent :=
        Quality.CheckQuality(ThresholdsOf(a), m, show, alert, Text(a.alertHook), Text(a.key), net(|attempts|));
      decision := Some(Decision(message, postAlert));
      if sent.Some? {
        var post := sent.value.post;
        ExecuteSnoc(done, post, net, 0);
        attempts, done := attempts + [sent.value], done + [post];
        if !Continues(sent.value.handled) {
          AbortedRun(done, no, net, 0);
          report := Report(attempts, decision, 1);
          return;
        }
      }
    }
    assert done == r + al;

    if NotifyGiven(a) && alert {
      var post := NotifyResults(Text(a.alertHook), Text(a.key), m, show);
      var at := MakeRequest(post, net(|attempts|));
      ExecuteSnoc(done, post, net, 0);
      attempts, done := attempts + [at], done + [post];
      if !Continues(at.handled) {
        AbortedRun(done, [], net, 0);
        report := Report(attempts, decision, 1);
        return;
      }
    }
    assert done == r + al + no;
    report := Report(attempts, decision, 0);
  }

  /** The plan as its three optional parts: results, alert, notify. */
  lemma PlanParts(a: Args, m: Metrics, show: real -> string) returns (r: seq<Post>, al: seq<Post>, no: seq<Post>)
    ensures Plan(a, m, show) == r + al + no
    ensures r == if ResultsEnabled(a) then [PostResults(Text(a.resultHook), Text(a.key), m)] else []
    ensures al == if AlertDue(a, m)
       then [AlertQuality(Quality.Message(m, ThresholdsOf(a), show), Text(a.alertHook), Text(a.key))]
       else []
    ensures no == if NotifyGiven(a) && AlertEnabled(a) then [NotifyResults(Text(a.alertHook), Text(a.key), m, show)] else []
  {
    r := if ResultsEnabled(a) then [PostResults(Text(a.resultHook), Text(a.key), m)] else [];
    al := if AlertDue(a, m)
       then [AlertQuality(Quality.Message(m, ThresholdsOf(a), show), Text(a.alertHook), Text(a.key))]
       else [];
    no := if NotifyGiven(a) && AlertEnabled(a) then [NotifyResults(Text(a.alertHook), Text(a.key), m, show)] else [];
  }

  /** Once a run of posts aborted, nothing planned after it is attempted. */
  lemma AbortedRun(done: seq<Post>, rest: seq<Post>, net: nat -> Transport, n: nat)
    requires Aborted(Execute(done, net, n))
    ensures Execute(done + rest, net, n) == Execute(done, net, n)
  {
    ExecuteAppend(done, rest, net, n);
  }

  /** One more post after a run of posts that did not abort. */
  lemma ExecuteSnoc(done: seq<Post>, post: Post, net: nat -> Transport, n: nat)
    requires !Aborted(Execute(done, net, n))
    ensures |Execute(done, net, n)| == |done|
    ensures Execute(done + [post], net, n) == Execute(done, net, n) + [MakeRequest(post, net(n + |done|))]
  {
    ExecuteLength(done, net, n);
    ExecuteAppend(done, [post], net, n);
    assert [post][1..] == [];
    assert Execute([post], net, n + |done|) == [MakeRequest(post, net(n + |done|))];
  }

  /** A run of posts that did not abort attempted every one of them. */
  lemma {:induction false} ExecuteLength(p: seq<Post>, net: nat -> Transport, n: nat)
    ensures |Execute(p, net, n)| <= |p|
    ensures !Aborted(Execute(p, net, n)) ==> |Execute(p, net, n)| == |p|
  {
    if p != [] {
      ExecuteLength(p[1..], net, n + 1);
      var at := MakeRequest(p[0], net(n));
      if Continues(at.handled) {
        var rest := Execute(p[1..], net, n + 1);
        assert Execute(p, net, n) == [at] + rest;
        assert Aborted([at] + rest) == Aborted(rest);
      }
    }
  }

  /**
   * Executing two plans one after the other: the second is reached only if
   * the first did not abort, and its requests are numbered after the first's.
   */
  lemma {:induction false} ExecuteAppend(p: seq<Post>, q: seq<Post>, net: nat -> Transport, n: nat)
    ensures Execute(p + q, net, n) ==
      if Aborted(Execute(p, net, n)) then Execute(p, net, n)
      else Execute(p, net, n) + Execute(q, net, n + |p|)
  {
    if p == [] {
      assert p + q == q;
      assert Execute(p, net, n) == [];
    } else {
      var at := MakeRequest(p[0], net(n));
      ExecuteCons(p, q, net, n);
      if Continues(at.handled) {
        ExecuteAppend(p[1..], q, net, n + 1);
        var rest := Execute(p[1..], net, n + 1);
        AbortedCons(at, rest);
        if !Aborted(rest) {
          assert n + 1 + |p[1..]| == n + |p|;
          Seqs.Assoc([at], rest, Execute(q, net, n + |p|));
        }
      } else {
        assert Aborted([at]);
      }
    }
  }

  /** The first step of executing `p + q` when `p` is not empty. */
  lemma ExecuteCons(p: seq<Post>, q: seq<Post>, net: nat -> Transport, n: nat)
    requires p != []
    ensures var at := MakeRequest(p[0], net(n));
      && Execute(p + q, net, n) == [at] + (if Continues(at.handled) then Execute(p[1..] + q, net, n + 1) else [])
      && Execute(p, net, n) == [at] + (if Continues(at.handled) then Execute(p[1..], net, n + 1) else [])
  {
    assert (p + q)[0] == p[0];
    assert (p + q)[1..] == p[1..] + q;
  }

  /** A first attempt that carried on does not change whether the run aborted. */
  lemma AbortedCons(at: Attempt, rest: seq<Attempt>)
    requires Continues(at.handled)
    ensures Aborted([at] + rest) == Aborted(rest)
  {
    if rest != [] {
      assert ([at] + rest)[|rest|] == rest[|rest| - 1];
    }
  }

  /**
   * Execution attempts the planned posts in order, each with the next network
   * outcome; every attempt but the last carried on; it stops short of the plan
   * only after a re-raised exception, and attempts the whole plan otherwise.
   */
  lemma {:induction false} ExecuteSpec(plan: seq<Post>, net: nat -> Transport, n: nat)
    ensures var e := Execute(plan, net, n);
      && |e| <= |plan|
      && (plan != [] ==> e != [])
      && (forall i :: 0 <= i < |e| ==> e[i].post == plan[i] && e[i].handled == Dispatch(net(n + i)))
      && (forall i :: 0 <= i < |e| - 1 ==> Continues(e[i].handled))
      && (!Aborted(e) <==> |e| == |plan| && forall i :: 0 <= i < |e| ==> Continues(e[i].handled))
  {
    ExecuteLength(plan, net, n);
    ExecuteAttempts(plan, net, n);
    ExecuteCarriesOn(plan, net, n);
    var e := Execute(plan, net, n);
    if plan != [] {
      assert e[0] == MakeRequest(plan[0], net(n));
    }
  }

  /** The i-th attempt is the i-th planned post meeting the network outcome numbered n + i. */
  lemma {:induction false} ExecuteAttempts(plan: seq<Post>, net: nat -> Transport, n: nat)
    ensures |Execute(plan, net, n)| <= |plan|
    ensures var e := Execute(plan, net, n);
      forall i :: 0 <= i < |e| ==> e[i].post == plan[i] && e[i].handled == Dispatch(net(n + i))
  {
    ExecuteLength(plan, net, n);
    if plan != [] {
      ExecuteAttempts(plan[1..], net, n + 1);
      var at := MakeRequest(plan[0], net(n));
      var e := Execute(plan, net, n);
      if Continues(at.handled) {
        var rest := Execute(plan[1..], net, n + 1);
        assert e == [at] + rest;
        forall i | 0 < i < |e| ensures e[i].post == plan[i] && e[i].handled == Dispatch(net(n + i)) {
          assert e[i] == rest[i - 1];
          assert plan[1..][i - 1] == plan[i];
          assert n + 1 + (i - 1) == n + i;
        }
      } else {
        assert e == [at];
      }
    }
  }

  /** Every attempt but the last carried on. */
  lemma {:induction false} ExecuteCarriesOn(plan: seq<Post>, net: nat -> Transport, n: nat)
    ensures forall i :: 0 <= i < |Execute(plan, net, n)| - 1 ==> Continues(Execute(plan, net, n)[i].handled)
  {
    if plan != [] {
      ExecuteCarriesOn(plan[1..], net, n + 1);
      var at := MakeRequest(plan[0], net(n));
      var e := Execute(plan, net, n);
      if Continues(at.handled) {
        var rest := Execute(plan[1..], net, n + 1);
        assert e == [at] + rest;
        forall i | 0 < i < |e| - 1 ensures Continues(e[i].handled) {
          assert e[i] == rest[i - 1];
          assert 0 <= i - 1 < |rest| - 1;
          assert Continues(rest[i - 1].handled);
        }
      } else {
        assert e == [at];
      }
    }
  }

  // ------------------------------------------------------------ the plan

  /** Whether some post of `posts` has purpose `p`. */
  predicate Has(posts: seq<Post>, p: Purpose) {
    exists i :: 0 <= i < |posts| && posts[i].purpose == p
  }

  /** At most three posts, in the order results, alert, notify, each at most once. */
  lemma PlanOrder(a: Args, m: Metrics, show: real -> string)
    ensures |Plan(a, m, show)| <= 3
    ensures forall i, j :: 0 <= i < j < |Plan(a, m, show)| ==>
      Rank(Plan(a, m, show)[i].purpose) < Rank(Plan(a, m, show)[j].purpose)
  {
    var r, al, no := PlanParts(a, m, show);
    OrderedParts(r, al, no);
  }

  /** One optional post of each purpose, concatenated in rank order, is ordered by rank. */
  lemma OrderedParts(r: seq<Post>, al: seq<Post>, no: seq<Post>)
    requires |r| <= 1 && |al| <= 1 && |no| <= 1
    requires forall p :: p in r ==> p.purpose == Results
    requires forall p :: p in al ==> p.purpose == Alert
    requires forall p :: p in no ==> p.purpose == Notify
    ensures |r + al + no| <= 3
    ensures forall i, j :: 0 <= i < j < |r + al + no| ==>
      Rank((r + al + no)[i].purpose) < Rank((r + al + no)[j].purpose)
  {
    var s := r + al + no;
    forall i | 0 <= i < |s|
      ensures Rank(s[i].purpose) == if i < |r| then 0 else if i < |r| + |al| then 1 else 2
    {
      if i < |r| { assert s[i] in r; }
      else if i < |r| + |al| { assert s[i] == al[i - |r|]; }
      else { assert s[i] == no[i - |r| - |al|]; }
    }
  }

  /**
   * Every post goes to the IFTTT Maker address of its hook with the one
   * shared secret key: the result hook for the results, the alert hook for
   * the alert and the notification. Neither hook nor key is ever empty.
   */
  lemma PlanTargets(a: Args, m: Metrics, show: real -> string)
    ensures forall p :: p in Plan(a, m, show) ==>
      && StrTruthy(a.key) && p.key == a.key.value
      && (p.purpose == Results ==> StrTruthy(a.resultHook) && p.hook == a.resultHook.value)
      && (p.purpose != Results ==> StrTruthy(a.alertHook) && p.hook == a.alertHook.value)
      && p.hook != "" && p.key != ""
      && RequestOf(p) == Request(UrlPrefix + p.hook + KeyInfix + a.key.value, "application/json", p.payload, 10)
  {
    var r, al, no := PlanParts(a, m, show);
  }

  /** The results are posted iff a result hook and the key are truthy, first, with the three figures. */
  lemma PlanResults(a: Args, m: Metrics, show: real -> string)
    ensures Has(Plan(a, m, show), Results) <==> StrTruthy(a.resultHook) && StrTruthy(a.key)
    ensures Has(Plan(a, m, show), Results) ==>
      Plan(a, m, show)[0].purpose == Results
      && MetricsOf(Plan(a, m, show)[0].payload) == Some(m)
  {
    var r, al, no := PlanParts(a, m, show);
    if ResultsEnabled(a) {
      assert Plan(a, m, show)[0] == r[0];
      ResultsPayloadExact(m, map[]);
    }
  }

  /**
   * An alert is posted iff all three thresholds are truthy, ALERT holds and
   * a metric breaches its threshold; it carries exactly the quality message.
   */
  lemma PlanAlert(a: Args, m: Metrics, show: real -> string)
    ensures Has(Plan(a, m, show), Alert) <==>
      && IntTruthy(a.latencyThreshold) && IntTruthy(a.downloadThreshold) && IntTruthy(a.uploadThreshold)
      && StrTruthy(a.alertHook) && StrTruthy(a.key)
      && (m.latency > a.latencyThreshold.value as real
          || m.download < a.downloadThreshold.value as real
          || m.upload < a.uploadThreshold.value as real)
    ensures forall p :: p in Plan(a, m, show) && p.purpose == Alert ==>
      ThresholdsSet(a) && MessageOf(p.payload) == Some(Quality.Message(m, ThresholdsOf(a), show))
  {
    var r, al, no := PlanParts(a, m, show);
    if ThresholdsSet(a) {
      Quality.PostAlertIff(m, ThresholdsOf(a));
      MessagePayloadExact(Quality.Message(m, ThresholdsOf(a), show), map[]);
    }
    if Has(Plan(a, m, show), Alert) {
      var i :| 0 <= i < |Plan(a, m, show)| && Plan(a, m, show)[i].purpose == Alert;
    }
    if AlertDue(a, m) {
      assert Plan(a, m, show)[|r|].purpose == Alert;
    }
  }

  /**
   * The notification is posted iff the notify option is truthy and ALERT
   * holds, whatever the thresholds; it carries the summary sentence.
   */
  lemma PlanNotify(a: Args, m: Metrics, show: real -> string)
    ensures Has(Plan(a, m, show), Notify) <==> StrTruthy(a.notify) && StrTruthy(a.alertHook) && StrTruthy(a.key)
    ensures forall p :: p in Plan(a, m, show) && p.purpose == Notify ==>
      MessageOf(p.payload) == Some(NotifyMessage(m, show))
  {
    var r, al, no := PlanParts(a, m, show);
    MessagePayloadExact(NotifyMessage(m, show), map[]);
    if NotifyGiven(a) && AlertEnabled(a) {
      assert Plan(a, m, show)[|r| + |al|].purpose == Notify;
    }
  }

  // ------------------------------------------------------------- the run

  /**
   * The run attempts its planned posts in order and with consecutive network
   * outcomes; a post is skipped only after a re-raised exception, which ends
   * the run with status 1 and is the last attempt; HTTP errors and connect
   * timeouts let the remaining posts go ahead, and a run without a re-raised
   * exception attempts every planned post and exits with 0.
   */
  lemma RunSpec(a: Args, m: Metrics, show: real -> string, net: nat -> Transport)
    ensures var rep, plan := Expected(a, m, show, net), Plan(a, m, show);
      && |rep.attempts| <= |plan|
      && (forall i :: 0 <= i < |rep.attempts| ==>
            rep.attempts[i].post == plan[i] && rep.attempts[i].handled == Dispatch(net(i)))
      && (forall i :: 0 <= i < |rep.attempts| - 1 ==> Continues(rep.attempts[i].handled))
      && (rep.exitStatus == 0 <==>
            (|rep.attempts| == |plan| && forall i :: 0 <= i < |plan| ==> Continues(rep.attempts[i].handled)))
      && (rep.exitStatus != 0 ==> rep.exitStatus == 1 && Aborted(rep.attempts))
  {
    var plan := Plan(a, m, show);
    ExecuteSpec(plan, net, 0);
    var e := Execute(plan, net, 0);
    forall i | 0 <= i < |e| ensures e[i].post == plan[i] && e[i].handled == Dispatch(net(i)) {
      assert e[i].handled == Dispatch(net(0 + i));
    }
  }

  /**
   * The quality check runs, and is logged, iff all three thresholds are truthy
   * and the run was not aborted by the results post, and then its decision is
   * `Evaluate`'s; with a threshold missing
   * or zero nothing is compared and no alert is sent.
   */
  lemma SkipWithoutThresholds(a: Args, m: Metrics, show: real -> string, net: nat -> Transport)
    ensures Expected(a, m, show, net).decision.Some? ==> ThresholdsSet(a)
    ensures !ThresholdsSet(a) ==>
      Expected(a, m, show, net).decision == None
      && forall at :: at in Expected(a, m, show, net).attempts ==> at.post.purpose != Alert
    ensures ThresholdsSet(a) && !ResultsEnabled(a) ==>
      Expected(a, m, show, net).decision == Some(Evaluate(ThresholdsOf(a), m, show))
    ensures var rep := Expected(a, m, show, net);
      rep.decision.Some? <==>
        ThresholdsSet(a)
        && !(ResultsEnabled(a) && |rep.attempts| == 1 && Aborted(rep.attempts)
             && rep.attempts[0].post.purpose == Results)
    ensures Expected(a, m, show, net).decision.Some? ==>
      Expected(a, m, show, net).decision.value == Evaluate(ThresholdsOf(a), m, show)
  {
    var plan := Plan(a, m, show);
    ExecuteSpec(plan, net, 0);
    PlanAlert(a, m, show);
    var e := Execute(plan, net, 0);
    if !ThresholdsSet(a) {
      forall at | at in e ensures at.post.purpose != Alert {
        var i :| 0 <= i < |e| && e[i] == at;
        assert at.post == plan[i];
      }
    }
  }

  /** Without ALERT no alert and no notification is ever attempted, breaches or not. */
  lemma NoAlertWithoutHookAndKey(a: Args, m: Metrics, show: real -> string, net: nat -> Transport)
    requires !AlertEnabled(a)
    ensures forall at :: at in Expected(a, m, show, net).attempts ==> at.post.purpose == Results
  {
    var plan := Plan(a, m, show);
    ExecuteSpec(plan, net, 0);
    var r, al, no := PlanParts(a, m, show);
    var e := Execute(plan, net, 0);
    forall at | at in e ensures at.post.purpose == Results {
      var i :| 0 <= i < |e| && e[i] == at;
      assert at.post == plan[i];
    }
  }
}
