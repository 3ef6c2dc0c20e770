/**
 * The values the entry point works with: the three measured figures held in
 * the module globals LATENCY, DOWNLOAD and UPLOAD, the parsed command-line
 * options, and Python's truthiness of those options.
 */
module Cli {
  import opened Wrappers

  /**
   * The figures of one speed test after conversion and rounding: latency in
   * milliseconds, download and upload in megabits per second. The program only
   * compares them and renders them as text, so they are kept as exact reals.
   */
  datatype Metrics = Metrics(latency: real, download: real, upload: real)

  /** The three quality thresholds, once all of them are known to be given. */
  datatype Thresholds = Thresholds(latency: int, download: int, upload: int)

  /**
   * The options of one run as argparse leaves them: a string option is None
   * when absent; the thresholds are parsed with `type=int`. `--notify` takes a
   * value like every other string option. The preferred server id only feeds
   * the measurement and is not part of this model.
   */
  datatype Args = Args(
    resultHook: Option<string>,
    alertHook: Option<string>,
    key: Option<string>,
    uploadThreshold: Option<int>,
    downloadThreshold: Option<int>,
    latencyThreshold: Option<int>,
    notify: Option<string>)

  /** Python truthiness of an optional string: given and non-empty. */
  predicate StrTruthy(o: Option<string>) {
    o.Some? && o.value != ""
  }

  /** Python truthiness of an optional int: given and non-zero. */
  predicate IntTruthy(o: Option<int>) {
    o.Some? && o.value != 0
  }

  /** The text of a string option; the empty text stands for None and is never sent. */
  function Text(o: Option<string>): string {
    o.GetOr("")
  }

  /** The global ALERT: an alert hook name and the secret key are both truthy. */
  predicate AlertEnabled(a: Args) {
    StrTruthy(a.alertHook) && StrTruthy(a.key)
  }

  /** Whether the raw results are posted: a result hook name and the key are truthy. */
  predicate ResultsEnabled(a: Args) {
    StrTruthy(a.resultHook) && StrTruthy(a.key)
  }

  /** Whether the quality check runs: all three thresholds are truthy. */
  predicate ThresholdsSet(a: Args) {
    IntTruthy(a.uploadThreshold) && IntTruthy(a.downloadThreshold) && IntTruthy(a.latencyThreshold)
  }

  /** Whether the notify option is truthy. */
  predicate NotifyGiven(a: Args) {
    StrTruthy(a.notify)
  }

  /** The thresholds handed to the quality check, in its parameter order. */
  function ThresholdsOf(a: Args): Thresholds
    requires ThresholdsSet(a)
  {
    Thresholds(a.latencyThreshold.value, a.downloadThreshold.value, a.uploadThreshold.value)
  }
}
