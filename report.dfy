/** The report script: one CSV row per listed connection joined with its month-to-date usage,
    written to a `;`-separated file named after the optional debtor code. */
module Report {
  import opened Wrappers
  import opened Text
  import opened Api
  import opened Auth
  import opened Listing
  import opened Usage
  import opened Csv

  /** The script's two settings: the first supported billing cycle, and no debtor filter. */
  const BillingCycle: Option<string> := Some("2024-06-01")
  const DebtorCode: Option<string> := None

  const Header: seq<string> := ["uuid", "nid", "imsi", "iccid", "tags", "usage_in_bytes", "i18n_usage", "sms_usage"]

  /** `writer.writerow(csv_header)`: every column name is a text field, so it is quoted. */
  function HeaderRow(): (r: seq<Field>)
    ensures |r| == |Header|
    ensures forall i :: 0 <= i < |r| ==> r[i] == TextField(Header[i])
  {
    TextRow(Header)
  }

  function TextRow(names: seq<string>): (r: seq<Field>)
    ensures |r| == |names|
    ensures forall i :: 0 <= i < |r| ==> r[i] == TextField(names[i])
  {
    if names == [] then [] else [TextField(names[0])] + TextRow(names[1..])
  }

  /** The value of a report column, looked up by its header name. */
  function ColumnValue(name: string, c: Connection, usageInBytes: int, i18nUsage: int, smsUsage: int): Option<Field> {
    if name == "uuid" then Some(TextField(c.uuid))
    else if name == "nid" then Some(TextField(c.carrier.nid))
    else if name == "imsi" then Some(TextField(c.carrier.imsi))
    else if name == "iccid" then Some(TextField(c.carrier.sim.iccid))
    else if name == "tags" then Some(TextField(c.carrier.tags))
    else if name == "usage_in_bytes" then Some(NumberField(usageInBytes))
    else if name == "i18n_usage" then Some(NumberField(i18nUsage))
    else if name == "sms_usage" then Some(NumberField(smsUsage))
    else None
  }

  /** The row of one connection, in header order (main.py lines 83-91). */
  function Row(c: Connection, usageInBytes: int, i18nUsage: int, smsUsage: int): (r: seq<Field>)
    ensures |r| == |Header|
  {
    [TextField(c.uuid), TextField(c.carrier.nid), TextField(c.carrier.imsi), TextField(c.carrier.sim.iccid),
     TextField(c.carrier.tags), NumberField(usageInBytes), NumberField(i18nUsage), NumberField(smsUsage)]
  }

  /** Every field of a row is the value of the header column above it, looked up by name;
      the five text fields come first and the three numeric fields last. */
  lemma RowFollowsHeader(c: Connection, usageInBytes: int, i18nUsage: int, smsUsage: int)
    ensures var r := Row(c, usageInBytes, i18nUsage, smsUsage);
            (forall i :: 0 <= i < |r| ==> Some(r[i]) == ColumnValue(Header[i], c, usageInBytes, i18nUsage, smsUsage)) &&
            (forall i :: 0 <= i < 5 ==> r[i].TextField?) &&
            (forall i :: 5 <= i < |r| ==> r[i].NumberField?)
  {
  }

  /** Both keys of `data` are present. */
  predicate DataComplete(d: Option<DataUsage>) {
    d.Some? && d.value.usageInBytes.Some? && d.value.i18nUsage.Some?
  }

  /** Building the row from a decoded usage body. The usage keys are looked up in the order
      `data`, `usage_in_bytes`, `i18n_usage`, `sms`, `usage`, and the first one missing is the
      KeyError. */
  function ProjectRow(c: Connection, usage: UsageResponse): (r: Result<seq<Field>, Error>)
    ensures r.Ok? <==> DataComplete(usage.data) && usage.sms.Some? && usage.sms.value.usage.Some?
    ensures r.Ok? ==> r.value == Row(c, usage.data.value.usageInBytes.value, usage.data.value.i18nUsage.value,
                                     usage.sms.value.usage.value)
    ensures r == Err(KeyError("data")) <==> usage.data.None?
    ensures r == Err(KeyError("usage_in_bytes")) <==> usage.data.Some? && usage.data.value.usageInBytes.None?
    ensures r == Err(KeyError("i18n_usage")) <==>
              usage.data.Some? && usage.data.value.usageInBytes.Some? && usage.data.value.i18nUsage.None?
    ensures r == Err(KeyError("sms")) <==> DataComplete(usage.data) && usage.sms.None?
    ensures r == Err(KeyError("usage")) <==> DataComplete(usage.data) && usage.sms.Some? && usage.sms.value.usage.None?
  {
    match usage.data
    case None => Err(KeyError("data"))
    case Some(d) =>
      if d.usageInBytes.None? then Err(KeyError("usage_in_bytes"))
      else if d.i18nUsage.None? then Err(KeyError("i18n_usage"))
      else match usage.sms
        case None => Err(KeyError("sms"))
        case Some(s) =>
          if s.usage.None? then Err(KeyError("usage"))
          else Ok(Row(c, d.usageInBytes.value, d.i18nUsage.value, s.usage.value))
  }

  /** The usage lookup of one connection, keyed as the server sees it: it sends the same URL as
      `get_month_to_date_usage(uuid, billing_cycle)`, and a falsy billing cycle is `None`. */
  function UsageLookup(c: Connection, billingCycle: Option<string>): (r: UsageRequest)
    ensures UsageUrl(r) == UsageUrl(UsageRequest(c.uuid, billingCycle))
    ensures r.connectionUuid == c.uuid && (r.billingCycle.Some? <==> Truthy(billingCycle))
  {
    UsageRequest(c.uuid, Normalize(billingCycle))
  }

  /** main.py lines 82-91 for one connection: fetch its usage, then project its row. */
  function RowFor(c: Connection, fetchUsage: UsageRequest -> UsageResponse, billingCycle: Option<string>): Result<seq<Field>, Error> {
    ProjectRow(c, fetchUsage(UsageLookup(c, billingCycle)))
  }

  /** The rows of the report body, in listing order; the first failing connection aborts. */
  function UsageRows(conns: seq<Connection>, fetchUsage: UsageRequest -> UsageResponse, billingCycle: Option<string>)
    : Result<seq<seq<Field>>, Error>
  {
    if conns == [] then Ok([])
    else
      match UsageRows(conns[..|conns| - 1], fetchUsage, billingCycle)
      case Err(e) => Err(e)
      case Ok(rows) =>
        match RowFor(conns[|conns| - 1], fetchUsage, billingCycle)
        case Err(e) => Err(e)
        case Ok(row) => Ok(rows + [row])
  }

  /** The body succeeds exactly when every connection's row does; then it holds one row per
      connection, in order, each being that connection's row. */
  lemma {:induction false} UsageRowsOk(conns: seq<Connection>, fetchUsage: UsageRequest -> UsageResponse, billingCycle: Option<string>)
    ensures UsageRows(conns, fetchUsage, billingCycle).Ok? <==>
            forall i :: 0 <= i < |conns| ==> RowFor(conns[i], fetchUsage, billingCycle).Ok?
    ensures UsageRows(conns, fetchUsage, billingCycle).Ok? ==>
            var rows := UsageRows(conns, fetchUsage, billingCycle).value;
            |rows| == |conns| &&
            forall i :: 0 <= i < |conns| ==> rows[i] == RowFor(conns[i], fetchUsage, billingCycle).value
  {
    if conns != [] {
      var front := conns[..|conns| - 1];
      UsageRowsOk(front, fetchUsage, billingCycle);
      assert forall i :: 0 <= i < |front| ==> front[i] == conns[i];
    }
  }

  /** A failed body reports the error of the first connection whose row fails. */
  lemma {:induction false} UsageRowsFirstError(conns: seq<Connection>, fetchUsage: UsageRequest -> UsageResponse, billingCycle: Option<string>)
    requires UsageRows(conns, fetchUsage, billingCycle).Err?
    ensures exists k :: 0 <= k < |conns| &&
              RowFor(conns[k], fetchUsage, billingCycle) == Err(UsageRows(conns, fetchUsage, billingCycle).error) &&
              forall j :: 0 <= j < k ==> RowFor(conns[j], fetchUsage, billingCycle).Ok?
  {
    var front := conns[..|conns| - 1];
    var n := |conns| - 1;
    assert forall i :: 0 <= i < |front| ==> front[i] == conns[i];
    if UsageRows(front, fetchUsage, billingCycle).Err? {
      UsageRowsFirstError(front, fetchUsage, billingCycle);
      var k :| 0 <= k < |front| &&
               RowFor(front[k], fetchUsage, billingCycle) == Err(UsageRows(front, fetchUsage, billingCycle).error) &&
               forall j :: 0 <= j < k ==> RowFor(front[j], fetchUsage, billingCycle).Ok?;
      assert RowFor(conns[k], fetchUsage, billingCycle) == Err(UsageRows(conns, fetchUsage, billingCycle).error);
    } else {
      UsageRowsOk(front, fetchUsage, billingCycle);
      assert RowFor(conns[n], fetchUsage, billingCycle) == Err(UsageRows(conns, fetchUsage, billingCycle).error);
      assert forall j :: 0 <= j < n ==> RowFor(conns[j], fetchUsage, billingCycle).Ok? by {
        forall j | 0 <= j < n ensures RowFor(conns[j], fetchUsage, billingCycle).Ok? {
          assert front[j] == conns[j];
        }
      }
    }
  }

  /** Once a prefix fails, the whole body fails with the same error. */
  lemma {:induction false} UsageRowsPrefixErr(conns: seq<Connection>, k: nat, fetchUsage: UsageRequest -> UsageResponse, billingCycle: Option<string>)
    requires k <= |conns|
    requires UsageRows(conns[..k], fetchUsage, billingCycle).Err?
    ensures UsageRows(conns, fetchUsage, billingCycle) == UsageRows(conns[..k], fetchUsage, billingCycle)
    decreases |conns| - k
  {
    if k < |conns| {
      assert conns[..k + 1][..k] == conns[..k];
      UsageRowsPrefixErr(conns, k + 1, fetchUsage, billingCycle);
    } else {
      assert conns[..k] == conns;
    }
  }

  /** One step of the report loop: a failing row fails the whole body with its error; a
      successful one is appended to the rows of the connections before it. */
  lemma UsageRowsStep(conns: seq<Connection>, i: nat, fetchUsage: UsageRequest -> UsageResponse, billingCycle: Option<string>,
                      rows: seq<seq<Field>>)
    requires i < |conns|
    requires UsageRows(conns[..i], fetchUsage, billingCycle) == Ok(rows)
    ensures var row := RowFor(conns[i], fetchUsage, billingCycle);
            (row.Err? ==> UsageRows(conns, fetchUsage, billingCycle) == Err(row.error)) &&
            (row.Ok? ==> UsageRows(conns[..i + 1], fetchUsage, billingCycle) == Ok(rows + [row.value]) &&
                         RenderRows(rows + [row.value]) == RenderRows(rows) + RenderRow(row.value))
  {
    assert conns[..i + 1][..i] == conns[..i];
    var row := RowFor(conns[i], fetchUsage, billingCycle);
    if row.Err? {
      UsageRowsPrefixErr(conns, i + 1, fetchUsage, billingCycle);
    } else {
      assert (rows + [row.value])[..|rows|] == rows;
    }
  }

  /** One iteration of the report loop (main.py lines 82-92): the cached token, the usage lookup,
      and, when the row can be built, its `writerow`. */
  method WriteUsageRow(cache: TokenCache, exchange: Credentials -> LoginResponse, credentials: Credentials,
                       buffer: CsvBuffer, c: Connection, fetchUsage: UsageRequest -> UsageResponse,
                       billingCycle: Option<string>)
    returns (row: Result<seq<Field>, Error>)
    requires cache.slot.Some?
    modifies cache, buffer
    ensures cache.slot == old(cache.slot) && cache.exchanges == old(cache.exchanges)
    ensures row == RowFor(c, fetchUsage, billingCycle)
    ensures buffer.text == if row.Ok? then old(buffer.text) + RenderRow(row.value) else old(buffer.text)
  {
    var token := cache.GetAccessToken(exchange, credentials);
    var usage := fetchUsage(UsageLookup(c, billingCycle));
    row := ProjectRow(c, usage);
    if row.Ok? {
      buffer.WriteRow(row.value);
    }
  }

  /** The report loop of main.py lines 81-92: one row per connection, in listing order. */
  method WriteUsageRows(cache: TokenCache, exchange: Credentials -> LoginResponse, credentials: Credentials,
                        buffer: CsvBuffer, conns: seq<Connection>, fetchUsage: UsageRequest -> UsageResponse,
                        billingCycle: Option<string>)
    returns (r: Result<(), Error>)
    requires cache.slot.Some?
    modifies cache, buffer
    ensures cache.slot == old(cache.slot) && cache.exchanges == old(cache.exchanges)
    ensures r.Ok? <==> UsageRows(conns, fetchUsage, billingCycle).Ok?
    ensures r.Err? ==> r.error == UsageRows(conns, fetchUsage, billingCycle).error
    ensures r.Ok? ==> buffer.text == old(buffer.text) + RenderRows(UsageRows(conns, fetchUsage, billingCycle).value)
  {
    var i := 0;
    ghost var rows: seq<seq<Field>> := [];
    while i < |conns|
      invariant 0 <= i <= |conns|
      invariant cache.slot == old(cache.slot) && cache.exchanges == old(cache.exchanges)
      invariant UsageRows(conns[..i], fetchUsage, billingCycle) == Ok(rows)
      invariant buffer.text == old(buffer.text) + RenderRows(rows)
    {
      var row := WriteUsageRow(cache, exchange, credentials, buffer, conns[i], fetchUsage, billingCycle);
      UsageRowsStep(conns, i, fetchUsage, billingCycle, rows);
      if row.Err? {
        return Err(row.error);
      }
      AppendAssoc(old(buffer.text), RenderRows(rows), RenderRow(row.value));
      rows := rows + [row.value];
      i := i + 1;
    }
    assert conns[..i] == conns;
    r := Ok(());
  }

  const FileStem := "mobile_connection_details"
  const FileExtension := ".csv"

  /** The output file name: the stem, `_` and the lower-cased debtor code when there is one, `.csv`. */
  function FileName(debtorCode: Option<string>): string {
    FileStem + (if Truthy(debtorCode) then "_" + AsciiLower(debtorCode.value) else "") + FileExtension
  }

  /** What the name keeps of the debtor code: nothing when it is falsy, else its lower-cased text. */
  function FileKey(debtorCode: Option<string>): Option<string> {
    if Truthy(debtorCode) then Some(AsciiLower(debtorCode.value)) else None
  }

  function ParseFileName(name: string): Option<Option<string>> {
    var head := FileStem + "_";
    if name == FileStem + FileExtension then Some(None)
    else if head <= name && |name| > |head| + |FileExtension| && name[|name| - |FileExtension|..] == FileExtension then
      Some(Some(name[|head|..|name| - |FileExtension|]))
    else None
  }

  lemma ParseFileNameInverts(debtorCode: Option<string>)
    ensures ParseFileName(FileName(debtorCode)) == Some(FileKey(debtorCode))
  {
    var name := FileName(debtorCode);
    if Truthy(debtorCode) {
      var code := AsciiLower(debtorCode.value);
      assert name == FileStem + "_" + code + FileExtension;
      assert |name| > |FileStem + FileExtension|;
      assert name[|FileStem + "_"|..|name| - |FileExtension|] == code;
      assert name[|name| - |FileExtension|..] == FileExtension;
    } else {
      assert name == FileStem + FileExtension;
    }
  }

  /** Without a debtor code the name is exactly `mobile_connection_details.csv`; two debtor codes
      give the same name exactly when they agree after lower-casing; the suffix has no upper case. */
  lemma FileNameCharacterised(a: Option<string>, b: Option<string>)
    ensures FileName(a) == FileStem + FileExtension <==> !Truthy(a)
    ensures FileName(a) == FileName(b) <==> FileKey(a) == FileKey(b)
    ensures FileKey(a).Some? ==> forall i :: 0 <= i < |FileKey(a).value| ==> !IsUpper(FileKey(a).value[i])
  {
    ParseFileNameInverts(a);
    ParseFileNameInverts(b);
    ParseFileNameInverts(None);
    if Truthy(a) {
      AsciiLowerProperties(a.value);
    }
  }

  /** The script's own settings give the plain file name, the unrestricted query and a usage
      URL that always carries `?billing_cycle=2024-06-01`; debtor code `NP` would give
      `mobile_connection_details_np.csv`. */
  lemma ScriptDefaults(connectionUuid: string)
    ensures FileName(DebtorCode) == "mobile_connection_details.csv"
    ensures ListingQuery(DebtorCode) == ActiveFilter
    ensures UsageUrl(UsageRequest(connectionUuid, BillingCycle)) ==
            ConnectionsPath + connectionUuid + UsagePath + BillingCycleParam + "2024-06-01"
    ensures FileName(Some("NP")) == "mobile_connection_details_np.csv"
  {
    assert AsciiLower("NP") == "np";
  }

  /** The file the script writes (its UTF-8 encoding is not modelled). */
  datatype ReportFile = ReportFile(name: string, content: string)

  /** The report for a listing: header row, then one row per connection. */
  function ReportFor(conns: seq<Connection>, fetchUsage: UsageRequest -> UsageResponse,
                     debtorCode: Option<string>, billingCycle: Option<string>): Result<ReportFile, Error>
  {
    match UsageRows(conns, fetchUsage, billingCycle)
    case Err(e) => Err(e)
    case Ok(rows) => Ok(ReportFile(FileName(debtorCode), RenderRow(HeaderRow()) + RenderRows(rows)))
  }

  /** The whole run: the token, then the listing, then the report; the first failure aborts it. */
  function RunOutcome(token: Result<string, Error>, listed: Result<seq<Connection>, Error>,
                      fetchUsage: UsageRequest -> UsageResponse, debtorCode: Option<string>,
                      billingCycle: Option<string>): Result<ReportFile, Error>
  {
    match token
    case Err(e) => Err(e)
    case Ok(_) =>
      match listed
      case Err(e) => Err(e)
      case Ok(conns) => ReportFor(conns, fetchUsage, debtorCode, billingCycle)
  }

  /** The run fails with the first failure among the token, the listing and the rows: it
      succeeds exactly when the token and the listing do and every listed connection's row can
      be built, and then writes the header row followed by those rows. */
  lemma RunOutcomeFirstFailure(token: Result<string, Error>, listed: Result<seq<Connection>, Error>,
                               fetchUsage: UsageRequest -> UsageResponse, debtorCode: Option<string>,
                               billingCycle: Option<string>)
    ensures var r := RunOutcome(token, listed, fetchUsage, debtorCode, billingCycle);
            (token.Err? ==> r == Err(token.error)) &&
            (token.Ok? && listed.Err? ==> r == Err(listed.error)) &&
            (r.Ok? <==> token.Ok? && listed.Ok? &&
                        forall i :: 0 <= i < |listed.value| ==> RowFor(listed.value[i], fetchUsage, billingCycle).Ok?) &&
            (token.Ok? && listed.Ok? && r.Err? ==> r.error == UsageRows(listed.value, fetchUsage, billingCycle).error) &&
            (r.Ok? ==> r.value == ReportFile(FileName(debtorCode),
                                             RenderRow(HeaderRow()) + RenderRows(UsageRows(listed.value, fetchUsage, billingCycle).value)))
  {
    if listed.Ok? {
      UsageRowsOk(listed.value, fetchUsage, billingCycle);
    }
  }

  /** A successful report names its file after the debtor code, starts with the header row
      and has one row of eight fields per listed connection, in listing order. */
  lemma ReportShape(conns: seq<Connection>, fetchUsage: UsageRequest -> UsageResponse,
                    debtorCode: Option<string>, billingCycle: Option<string>)
    requires UsageRows(conns, fetchUsage, billingCycle).Ok?
    ensures var rows := UsageRows(conns, fetchUsage, billingCycle).value;
            var file := ReportFor(conns, fetchUsage, debtorCode, billingCycle).value;
            file.name == FileName(debtorCode) &&
            file.content == RenderRow(HeaderRow()) + RenderRows(rows) &&
            |rows| == |conns| &&
            forall i :: 0 <= i < |conns| ==> |rows[i]| == |Header| && rows[i][0] == TextField(conns[i].uuid)
  {
    UsageRowsOk(conns, fetchUsage, billingCycle);
  }

  /** main.py lines 76-99: the header row, the report loop, then the file name. */
  method BuildReport(cache: TokenCache, exchange: Credentials -> LoginResponse, credentials: Credentials,
                     conns: seq<Connection>, fetchUsage: UsageRequest -> UsageResponse,
                     debtorCode: Option<string>, billingCycle: Option<string>)
    returns (r: Result<ReportFile, Error>)
    requires cache.slot.Some?
    modifies cache
    ensures cache.slot == old(cache.slot) && cache.exchanges == old(cache.exchanges)
    ensures r == ReportFor(conns, fetchUsage, debtorCode, billingCycle)
  {
    var buffer := new CsvBuffer();
    buffer.WriteRow(HeaderRow());
    assert buffer.text == RenderRow(HeaderRow());
    var written := WriteUsageRows(cache, exchange, credentials, buffer, conns, fetchUsage, billingCycle);
    if written.Err? {
      return Err(written.error);
    }
    r := Ok(ReportFile(FileName(debtorCode), buffer.text));
  }

  /** The script: list the active connections, look up each one's usage, write the file. */
  method MonthToDateReport(cache: TokenCache, exchange: Credentials -> LoginResponse, credentials: Credentials,
                           fetchListing: ListingRequest -> ListingResponse, fetchUsage: UsageRequest -> UsageResponse,
                           debtorCode: Option<string>, billingCycle: Option<string>, ghost last: nat)
    returns (r: Result<ReportFile, Error>)
    requires 1 <= last
    requires Final(fetchListing(ListingRequest(DefaultPageSize, last, ListingQuery(debtorCode))), DefaultPageSize)
    modifies cache
    ensures r == RunOutcome(Acquire(old(cache.slot), exchange(credentials)),
                            ListFrom(fetchListing, DefaultPageSize, ListingQuery(debtorCode), 1, last).outcome,
                            fetchUsage, debtorCode, billingCycle)
    ensures cache.slot == SlotAfter(old(cache.slot), exchange(credentials))
    ensures cache.exchanges == if old(cache.slot).Some? then old(cache.exchanges) else old(cache.exchanges) + 1
  {
    var requests, listed := GetActiveMobileConnections(cache, exchange, credentials, fetchListing, debtorCode, DefaultPageSize, last);
    if listed.Err? {
      return Err(listed.error);
    }
    r := BuildReport(cache, exchange, credentials, listed.value, fetchUsage, debtorCode, billingCycle);
  }
}
