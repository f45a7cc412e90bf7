/** The decoded records the vendor API returns, the errors that abort a run,
    and Python's truthiness of an optional string argument. */
module Api {
  import opened Wrappers

  const ApiHost := "https://api.nextpertise.nl"

  /** The connections endpoint, shared by the listing and the usage URLs. */
  const ConnectionsPath := ApiHost + "/mobile-broadband/connections/"

  /** A SIM card of a carrier record. */
  datatype Sim = Sim(iccid: string)

  /** The carrier sub-record of a connection; `tags` is kept as the text the report writes for it. */
  datatype Carrier = Carrier(nid: string, imsi: string, sim: Sim, tags: string)

  /** One mobile-broadband connection as listed by the connections endpoint, with the two
      keys the report reads. */
  datatype Connection = Connection(uuid: string, carrier: Carrier)

  /** The `data` object of a usage body; either key may be missing. */
  datatype DataUsage = DataUsage(usageInBytes: Option<int>, i18nUsage: Option<int>)

  /** The `sms` object of a usage body; its `usage` key may be missing. */
  datatype SmsUsage = SmsUsage(usage: Option<int>)

  /** The decoded month-to-date usage body; every key the report reads may be missing
      (the endpoint's status code is never checked, so an error body is possible). */
  datatype UsageResponse = UsageResponse(data: Option<DataUsage>, sms: Option<SmsUsage>)

  /** Everything that aborts a run. */
  datatype Error =
    | InvalidCredentials(message: string)  // ValueError raised by the token exchange
    | HttpError(status: int)               // raise_for_status on a listing page
    | KeyError(key: string)                // a missing key while building a report row

  /** Python's `if value:` for a value that is `None` or a string. */
  predicate Truthy(o: Option<string>) {
    o.Some? && o.value != ""
  }

  /** The argument with every falsy value collapsed to `None`. */
  function Normalize(o: Option<string>): (r: Option<string>)
    ensures r.Some? <==> Truthy(o)
    ensures Truthy(o) ==> r == o
  {
    if Truthy(o) then o else None
  }
}
