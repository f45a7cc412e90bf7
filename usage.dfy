/** `get_month_to_date_usage`: the usage URL with its optional billing-cycle parameter. */
module Usage {
  import opened Wrappers
  import opened Text
  import opened Api

  const UsagePath := "/usage/month-to-date/"
  const BillingCycleParam := "?billing_cycle="

  /** One usage lookup: the connection and the optional billing cycle. */
  datatype UsageRequest = UsageRequest(connectionUuid: string, billingCycle: Option<string>)

  function UsageUrl(r: UsageRequest): string {
    var url := ConnectionsPath + r.connectionUuid + UsagePath;
    if Truthy(r.billingCycle) then url + BillingCycleParam + r.billingCycle.value else url
  }

  /** Reads back the connection and the billing cycle from a usage URL. */
  function ParseUsageUrl(url: string): Option<UsageRequest> {
    if !(ConnectionsPath <= url) then None
    else
      var (path, query) := TakeUntil(url[|ConnectionsPath|..], '?');
      if |path| < |UsagePath| || path[|path| - |UsagePath|..] != UsagePath then None
      else
        var uuid := path[..|path| - |UsagePath|];
        if query == [] then Some(UsageRequest(uuid, None))
        else if BillingCycleParam <= query && |query| > |BillingCycleParam| then
          Some(UsageRequest(uuid, Some(query[|BillingCycleParam|..])))
        else None
  }

  lemma UsagePathHasNoQuery()
    ensures '?' !in UsagePath
  {
  }

  /** The URL is the connections path followed by the path of the connection and the query part. */
  lemma UsageUrlShape(connectionUuid: string, billingCycle: Option<string>)
    ensures UsageUrl(UsageRequest(connectionUuid, billingCycle)) ==
            ConnectionsPath + ((connectionUuid + UsagePath) +
                               (if Truthy(billingCycle) then BillingCycleParam + billingCycle.value else ""))
  {
    AppendAssoc(ConnectionsPath, connectionUuid, UsagePath);
    var head := ConnectionsPath + (connectionUuid + UsagePath);
    if Truthy(billingCycle) {
      AppendAssoc(head, BillingCycleParam, billingCycle.value);
      AppendAssoc(ConnectionsPath, connectionUuid + UsagePath, BillingCycleParam + billingCycle.value);
    } else {
      assert (connectionUuid + UsagePath) + "" == connectionUuid + UsagePath;
    }
  }

  /** The URL determines the connection and the billing cycle (a falsy billing cycle adds no
      parameter), for every connection identifier without a `?`. */
  lemma ParseUsageUrlInverts(connectionUuid: string, billingCycle: Option<string>)
    requires '?' !in connectionUuid
    ensures ParseUsageUrl(UsageUrl(UsageRequest(connectionUuid, billingCycle))) == Some(UsageRequest(connectionUuid, Normalize(billingCycle)))
  {
    var path := connectionUuid + UsagePath;
    var query := if Truthy(billingCycle) then BillingCycleParam + billingCycle.value else "";
    UsageUrlShape(connectionUuid, billingCycle);
    PrefixThenRest(ConnectionsPath, path + query);
    UsagePathHasNoQuery();
    NotInAppend('?', connectionUuid, UsagePath);
    if Truthy(billingCycle) {
      PrefixThenRest(BillingCycleParam, billingCycle.value);
      assert query[0] == '?';
    }
    TakeUntilUnique(path, query, '?');
    SplitEnd(connectionUuid, UsagePath);
  }

  /** The parameter is present exactly when the billing cycle is truthy. */
  lemma UsageUrlParameter(connectionUuid: string, billingCycle: Option<string>)
    ensures var url := UsageUrl(UsageRequest(connectionUuid, billingCycle));
            var base := ConnectionsPath + connectionUuid + UsagePath;
            base <= url && (url == base <==> !Truthy(billingCycle)) &&
            (Truthy(billingCycle) ==> url == base + BillingCycleParam + billingCycle.value)
  {
  }
}
