/** The record types shared by the worker and the utility module. */
module Records {
  import opened Wrappers

  /** One probe outcome: the URL probed, the HTTP status code it answered
      with and the round-trip time in milliseconds measured by the caller. */
  datatype Response = Response(url: string, status: int, time: real)

  /** One configured objective: the URL and the two minimum rates
      (fraction of successful responses, fraction of fast responses). */
  datatype Slo = Slo(url: string, successfulResponses: real, fastResponses: real)

  /** One row of the `slis` table, the three integer columns next to its
      `url` primary key. */
  datatype Counters = Counters(successfulResponses: nat, fastResponses: nat, totalResponses: nat)

  /** What a probe of one URL yields: the status code and the round-trip time. */
  datatype Probe = Probe(status: int, time: real)

  /** One entry of the configuration document's `SLOs` list after the YAML
      loader and the float coercion: each of the three keys `url`,
      `successful-responses-SLO` and `fast-responses-SLO` may be absent. */
  datatype Entry = Entry(url: Option<string>, successfulSlo: Option<real>, fastSlo: Option<real>)

  /** The exceptions raised while turning a document into objectives. */
  datatype ConfigError = MissingKey(key: string)

  /** The configuration document: its top-level mapping, of which only the
      list under `SLOs` is read. */
  type Document = map<string, seq<Entry>>

  const SlosKey := "SLOs"
  const UrlKey := "url"
  const SuccessfulKey := "successful-responses-SLO"
  const FastKey := "fast-responses-SLO"
}
