/**
 * What a provider adapter's `generate_response` returns: the response text,
 * the chart payload (None when there is none) and any further keys of the
 * returned dict, in order.
 */
module Providers {
  import opened Wrappers
  import opened Values

  datatype ProviderResult = ProviderResult(response: string, chartData: Value, extra: Entries)

  /** The returned dict itself: "response", then "chart_data", then the further keys. */
  function AsDict(r: ProviderResult): (d: Value)
    ensures d.Dict? && |d.entries| == 2 + |r.extra|
    ensures Get(d.entries, "response") == Some(Str(r.response))
    ensures Get(d.entries, "chart_data") == Some(r.chartData)
    ensures d.entries[2..] == r.extra
  {
    Dict([("response", Str(r.response)), ("chart_data", r.chartData)] + r.extra)
  }
}
