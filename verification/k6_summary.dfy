/** The end-of-run summary k6 hands to `handleSummary`: `data.metrics` maps a
    metric name (possibly with a tag selector such as
    `http_req_duration{scenario:nordeste_users}`) to its `values` record, which
    maps a statistic name (`p(95)`, `rate`, `count`, `max`) to a number. */
module K6Summary {
  import opened Wrappers

  type Metrics = map<string, map<string, real>>

  /** `metrics[name]?.values?.[field]`: absent when either the metric or the
      statistic is missing. */
  function Value(metrics: Metrics, name: string, field: string): (v: Option<real>)
    ensures v.Some? <==> name in metrics && field in metrics[name]
    ensures v.Some? ==> v.value == metrics[name][field]
  {
    if name in metrics && field in metrics[name] then Some(metrics[name][field]) else None
  }

  /** The key k6 uses for a metric restricted to one scenario. */
  function ScenarioKey(metric: string, scenario: string): (k: string) {
    metric + "{scenario:" + scenario + "}"
  }
}
