/**
 * The company routes (routes/companies.js): the GET /:code assembly of a
 * company with its invoices and industries, and the status and error mapping
 * of POST, PUT and DELETE.
 */
module Companies {
  import opened Api

  /**
   * A row of `companies LEFT JOIN invoices` for one code: the company columns,
   * and the invoice columns, all NULL on the single row of a company without
   * invoices.
   */
  datatype CompanyInvoiceRow = CompanyInvoiceRow(
    id: Option<int>, amt: Option<Amount>, paid: Option<bool>,
    addDate: Option<Timestamp>, paidDate: Option<Timestamp>,
    code: string, name: string, description: string)

  /** `{id, amt, paid, add_date, paid_date}`, one of the company's invoices. */
  datatype InvoiceSummary = InvoiceSummary(
    id: Option<int>, amt: Option<Amount>, paid: Option<bool>,
    addDate: Option<Timestamp>, paidDate: Option<Timestamp>)

  /** A row `{industry}` of the second query of GET /:code. */
  datatype IndustryName = IndustryName(industry: string)

  /** `{code, name, description, invoices, industries}` */
  datatype CompanyDetail = CompanyDetail(
    code: string, name: string, description: string,
    invoices: seq<InvoiceSummary>, industries: seq<IndustryName>)

  /** A row of `RETURNING code, name, description`. */
  datatype CompanyRow = CompanyRow(code: string, name: string, description: string)

  /** `{company: ...}` of GET /:code. */
  datatype DetailBody = DetailBody(company: CompanyDetail)

  /** `{company: rows[0]}` of POST and PUT; `None` when `rows[0]` is undefined. */
  datatype CompanyBody = CompanyBody(company: Option<CompanyRow>)

  /** A null invoice id marks the row a LEFT JOIN adds for a company without invoices. */
  const NoInvoice: InvoiceSummary := InvoiceSummary(None, None, None, None, None)

  // ---------------------------------------------------------------------------
  // GET /:code

  /** The projection `({id, amt, paid, add_date, paid_date}) => ({...})` of line 52. */
  function Summary(row: CompanyInvoiceRow): InvoiceSummary {
    InvoiceSummary(row.id, row.amt, row.paid, row.addDate, row.paidDate)
  }

  /** The joined row holding company `d`'s header and invoice `s`. */
  function Unproject(d: CompanyDetail, s: InvoiceSummary): CompanyInvoiceRow {
    CompanyInvoiceRow(s.id, s.amt, s.paid, s.addDate, s.paidDate, d.code, d.name, d.description)
  }

  /** The joined rows a detail was built from: one per listed invoice. */
  function JoinedRows(d: CompanyDetail): seq<CompanyInvoiceRow> {
    seq(|d.invoices|, i requires 0 <= i < |d.invoices| => Unproject(d, d.invoices[i]))
  }

  /** All rows of a join on one company code carry that company's columns. */
  predicate SameCompany(rows: seq<CompanyInvoiceRow>) {
    forall i :: 0 <= i < |rows| ==>
      rows[i].code == rows[0].code && rows[i].name == rows[0].name && rows[i].description == rows[0].description
  }

  /**
   * The object literal of routes/companies.js:47-54, as written: header from
   * row 0, one invoice per joined row, industry rows unchanged. Nothing
   * is dropped: rebuilding the join from the result gives back the rows.
   */
  function AssembleAsWritten(rows: seq<CompanyInvoiceRow>, industries: seq<IndustryName>): (d: CompanyDetail)
    requires |rows| > 0
    ensures d.code == rows[0].code && d.name == rows[0].name && d.description == rows[0].description
    ensures |d.invoices| == |rows|
    ensures forall i :: 0 <= i < |rows| ==> d.invoices[i] == Summary(rows[i])
    ensures d.industries == industries
    ensures SameCompany(rows) ==> JoinedRows(d) == rows
  {
    CompanyDetail(rows[0].code, rows[0].name, rows[0].description,
                  seq(|rows|, i requires 0 <= i < |rows| => Summary(rows[i])),
                  industries)
  }

  /**
   * As written, a company without invoices (one join row, its invoice
   * columns NULL) is listed with one all-null invoice rather than none.
   */
  lemma NoInvoicesGivesNullEntry(code: string, name: string, description: string, industries: seq<IndustryName>)
    ensures AssembleAsWritten([CompanyInvoiceRow(None, None, None, None, None, code, name, description)], industries).invoices
      == [NoInvoice]
  {
  }

  /** The summaries of the rows that hold an invoice, in row order. */
  function InvoicesOf(rows: seq<CompanyInvoiceRow>): seq<InvoiceSummary>
    decreases |rows|
  {
    if |rows| == 0 then []
    else if rows[0].id.None? then InvoicesOf(rows[1..])
    else [Summary(rows[0])] + InvoicesOf(rows[1..])
  }

  /** The invoices listed are exactly the summaries of the rows with an invoice id. */
  lemma {:induction false} InvoicesOfMembers(rows: seq<CompanyInvoiceRow>)
    ensures forall s :: s in InvoicesOf(rows) ==> s.id.Some?
    ensures forall k :: 0 <= k < |rows| && rows[k].id.Some? ==> Summary(rows[k]) in InvoicesOf(rows)
    ensures (forall k :: 0 <= k < |rows| ==> rows[k].id.None?) ==> InvoicesOf(rows) == []
  {
    if |rows| > 0 {
      InvoicesOfMembers(rows[1..]);
      forall k | 0 <= k < |rows| && rows[k].id.Some?
        ensures Summary(rows[k]) in InvoicesOf(rows)
      {
        if k > 0 {
          assert rows[1..][k - 1] == rows[k];
        }
      }
    }
  }

  /** Positions in strictly increasing order. */
  predicate Increasing(idx: seq<nat>) {
    forall j, j' :: 0 <= j < j' < |idx| ==> idx[j] < idx[j']
  }

  /**
   * `invoices` lists, in row order and once each, the summaries of exactly the
   * rows that hold an invoice: `idx` gives, for each listed invoice, the row
   * it comes from.
   */
  predicate SelectsInvoiceRows(rows: seq<CompanyInvoiceRow>, invoices: seq<InvoiceSummary>, idx: seq<nat>) {
    && |idx| == |invoices|
    && (forall j :: 0 <= j < |idx| ==>
          idx[j] < |rows| && rows[idx[j]].id.Some? && invoices[j] == Summary(rows[idx[j]]))
    && Increasing(idx)
    && (forall k :: 0 <= k < |rows| && rows[k].id.Some? ==> k in idx)
  }

  /** The positions of `idx`, one row further on. */
  function Shift(idx: seq<nat>): (r: seq<nat>)
    ensures |r| == |idx| && forall j :: 0 <= j < |idx| ==> r[j] == idx[j] + 1
  {
    seq(|idx|, j requires 0 <= j < |idx| => idx[j] + 1)
  }

  /** Shifting keeps positions increasing, and 0 can go before the shifted positions. */
  lemma ShiftIncreasing(idx: seq<nat>)
    requires Increasing(idx)
    ensures Increasing(Shift(idx)) && Increasing([0] + Shift(idx))
  {
    var t: seq<nat> := [0] + Shift(idx);
    forall j, j' | 0 <= j < j' < |t|
      ensures t[j] < t[j']
    {
      assert t[j'] == idx[j' - 1] + 1;
      if j > 0 {
        assert t[j] == idx[j - 1] + 1;
      }
    }
  }

  /** Shifted by one, a selection from the rows after the first picks the same rows of `rows`. */
  lemma ShiftSelects(rows: seq<CompanyInvoiceRow>, invoices: seq<InvoiceSummary>, idx: seq<nat>)
    requires |rows| > 0 && SelectsInvoiceRows(rows[1..], invoices, idx)
    ensures forall j :: 0 <= j < |idx| ==>
      Shift(idx)[j] < |rows| && rows[Shift(idx)[j]].id.Some? && invoices[j] == Summary(rows[Shift(idx)[j]])
    ensures Increasing(Shift(idx)) && Increasing([0] + Shift(idx))
    ensures forall k :: 0 < k < |rows| && rows[k].id.Some? ==> k in Shift(idx)
  {
    ShiftIncreasing(idx);
    var shifted := Shift(idx);
    forall j | 0 <= j < |idx|
      ensures shifted[j] < |rows| && rows[shifted[j]] == rows[1..][idx[j]]
    {
    }
    forall k | 0 < k < |rows| && rows[k].id.Some?
      ensures k in shifted
    {
      assert rows[1..][k - 1] == rows[k];
      var j :| 0 <= j < |idx| && idx[j] == k - 1;
      assert shifted[j] == k;
    }
  }

  /** The guard keeps exactly the rows with an invoice id, in row order, each once. */
  lemma {:induction false} InvoicesOfSelects(rows: seq<CompanyInvoiceRow>)
    ensures exists idx :: SelectsInvoiceRows(rows, InvoicesOf(rows), idx)
  {
    if |rows| == 0 {
      assert SelectsInvoiceRows(rows, InvoicesOf(rows), []);
    } else {
      InvoicesOfSelects(rows[1..]);
      var idx :| SelectsInvoiceRows(rows[1..], InvoicesOf(rows[1..]), idx);
      ShiftSelects(rows, InvoicesOf(rows[1..]), idx);
      if rows[0].id.None? {
        assert InvoicesOf(rows) == InvoicesOf(rows[1..]);
        assert SelectsInvoiceRows(rows, InvoicesOf(rows), Shift(idx));
      } else {
        assert InvoicesOf(rows) == [Summary(rows[0])] + InvoicesOf(rows[1..]);
        SelectsKeep(rows, InvoicesOf(rows[1..]), idx);
      }
    }
  }

  /** A row with an invoice, put before a selection shifted by one, is selected first. */
  lemma SelectsKeep(rows: seq<CompanyInvoiceRow>, invoices: seq<InvoiceSummary>, idx: seq<nat>)
    requires |rows| > 0 && rows[0].id.Some? && SelectsInvoiceRows(rows[1..], invoices, idx)
    ensures SelectsInvoiceRows(rows, [Summary(rows[0])] + invoices, [0] + Shift(idx))
  {
    ShiftSelects(rows, invoices, idx);
    var inv: seq<InvoiceSummary>, idx': seq<nat> := [Summary(rows[0])] + invoices, [0] + Shift(idx);
    forall j | 0 <= j < |idx'|
      ensures idx'[j] < |rows| && rows[idx'[j]].id.Some? && inv[j] == Summary(rows[idx'[j]])
    {
      if j > 0 {
        assert idx'[j] == Shift(idx)[j - 1] && inv[j] == invoices[j - 1];
      }
    }
    forall k | 0 <= k < |rows| && rows[k].id.Some?
      ensures k in idx'
    {
      if k > 0 {
        assert k in Shift(idx);
      }
    }
  }

  /** On rows that all hold an invoice, the guard keeps every one of them, in order. */
  lemma {:induction false} InvoicesOfAllPresent(rows: seq<CompanyInvoiceRow>)
    ensures (forall k :: 0 <= k < |rows| ==> rows[k].id.Some?) ==>
      |InvoicesOf(rows)| == |rows| && forall k :: 0 <= k < |rows| ==> InvoicesOf(rows)[k] == Summary(rows[k])
  {
    if |rows| > 0 {
      InvoicesOfAllPresent(rows[1..]);
    }
  }

  /**
   * The assembly as evidently intended: as written, except that the row a
   * LEFT JOIN adds for a company without invoices yields no invoice.
   */
  function Assemble(rows: seq<CompanyInvoiceRow>, industries: seq<IndustryName>): (d: CompanyDetail)
    requires |rows| > 0
    ensures d.code == rows[0].code && d.name == rows[0].name && d.description == rows[0].description
    ensures d.industries == industries
    ensures forall s :: s in d.invoices ==> s.id.Some?
    ensures forall k :: 0 <= k < |rows| && rows[k].id.Some? ==> Summary(rows[k]) in d.invoices
    ensures (forall k :: 0 <= k < |rows| ==> rows[k].id.None?) ==> d.invoices == []
    ensures (forall k :: 0 <= k < |rows| ==> rows[k].id.Some?) ==> d == AssembleAsWritten(rows, industries)
    ensures exists idx :: SelectsInvoiceRows(rows, d.invoices, idx)
  {
    InvoicesOfMembers(rows);
    InvoicesOfSelects(rows);
    InvoicesOfAllPresent(rows);
    CompanyDetail(rows[0].code, rows[0].name, rows[0].description, InvoicesOf(rows), industries)
  }

  /**
   * The GET /:code handler as written, given the outcomes of its two queries;
   * the industries query is only issued once the company was found.
   */
  function GetCompany(companies: Rows<CompanyInvoiceRow>, industries: Rows<IndustryName>): (r: Response<DetailBody>)
    ensures r.Reply? <==> companies.Ok? && |companies.value| > 0 && industries.Ok?
    ensures companies.Ok? && |companies.value| == 0 ==> r == Fail(HttpError("Company not found", 404))
    ensures companies.Err? ==> r == Fail(Propagated(companies.error))
    ensures companies.Ok? && |companies.value| > 0 && industries.Err? ==> r == Fail(Propagated(industries.error))
    ensures r.Reply? ==> r.status == 200 && r.body.company == AssembleAsWritten(companies.value, industries.value)
  {
    match companies
    case Err(e) => Fail(Propagated(e))
    case Ok(rows) =>
      if |rows| == 0 then Fail(HttpError("Company not found", 404))
      else
        match industries
        case Err(e) => Fail(Propagated(e))
        case Ok(inds) => Reply(200, DetailBody(AssembleAsWritten(rows, inds)))
  }

  /**
   * The GET /:code handler as evidently intended: as written, except that a
   * company without invoices is listed with none.
   */
  function GetCompanyIntended(companies: Rows<CompanyInvoiceRow>, industries: Rows<IndustryName>): (r: Response<DetailBody>)
    ensures r.Reply? <==> companies.Ok? && |companies.value| > 0 && industries.Ok?
    ensures !r.Reply? ==> r == GetCompany(companies, industries)
    ensures r.Reply? ==> r.status == 200 && r.body.company == Assemble(companies.value, industries.value)
  {
    match companies
    case Err(e) => Fail(Propagated(e))
    case Ok(rows) =>
      if |rows| == 0 then Fail(HttpError("Company not found", 404))
      else
        match industries
        case Err(e) => Fail(Propagated(e))
        case Ok(inds) => Reply(200, DetailBody(Assemble(rows, inds)))
  }

  /** For a company without invoices, the handler as written lists one all-null invoice; as intended, none. */
  lemma NoInvoicesReply(code: string, name: string, description: string, industries: seq<IndustryName>)
    ensures
      var rows := [CompanyInvoiceRow(None, None, None, None, None, code, name, description)];
      GetCompany(Ok(rows), Ok(industries)).body.company.invoices == [NoInvoice] &&
      GetCompanyIntended(Ok(rows), Ok(industries)).body.company.invoices == []
  {
  }

  // ---------------------------------------------------------------------------
  // POST /, PUT /:code, DELETE /:code

  /**
   * The POST / handler, given the outcome of its INSERT ... RETURNING (the
   * code inserted is the slug of the name).
   */
  function PostCompany(q: Rows<CompanyRow>): (r: Response<CompanyBody>)
    ensures r.Reply? <==> q.Ok?
    ensures r.Reply? ==> r.status == 201 && r.body.company == First(q.value)
    ensures q.Err? ==>
      (r == Fail(HttpError("The company already exists", 409)) <==> q.error.code == Some(UniqueViolation))
    ensures q.Err? && q.error.code != Some(UniqueViolation) ==> r == Fail(Propagated(q.error))
  {
    match q
    case Err(e) => Fail(TranslateError(e, UniqueViolation, "The company already exists", 409))
    case Ok(rows) => Reply(201, CompanyBody(First(rows)))
  }

  /** The PUT /:code handler, given the outcome of its UPDATE ... RETURNING. */
  function PutCompany(q: Rows<CompanyRow>): (r: Response<CompanyBody>)
    ensures r.Reply? <==> q.Ok? && |q.value| > 0
    ensures r.Reply? ==> r == Reply(200, CompanyBody(Some(q.value[0])))
    ensures q.Ok? && |q.value| == 0 ==> r == Fail(HttpError("Update failed. Company not found.", 404))
    ensures q.Err? ==> r == Fail(Propagated(q.error))
  {
    match q
    case Err(e) => Fail(Propagated(e))
    case Ok(rows) =>
      if |rows| == 0 then Fail(HttpError("Update failed. Company not found.", 404))
      else Reply(200, CompanyBody(First(rows)))
  }

  /** The DELETE /:code handler: it confirms whatever the row count. */
  function DeleteCompany(q: RowCount): (r: Response<Notice>)
    ensures r.Reply? <==> q.Ok?
    ensures r.Reply? ==> r == Reply(200, Notice("message", "Company deleted"))
    ensures q.Err? ==> r == Fail(Propagated(q.error))
  {
    match q
    case Err(e) => Fail(Propagated(e))
    case Ok(_) => Reply(200, Notice("message", "Company deleted"))
  }
}
