/**
 * The invoice routes (routes/invoices.js): the GET /:id assembly of an
 * invoice with its company, the paid_date decision of PUT /:id, and the
 * status and error mapping of POST, PUT and DELETE.
 */
module Invoices {
  import opened Api

  /** A row of `invoices LEFT JOIN companies`: company columns are NULL when no company matches. */
  datatype InvoiceCompanyRow = InvoiceCompanyRow(
    id: int, amt: Amount, paid: bool, addDate: Timestamp, paidDate: Option<Timestamp>,
    code: Option<string>, name: Option<string>, description: Option<string>)

  /** The nested `company: {code, name, description}` of an invoice. */
  datatype CompanyInfo = CompanyInfo(code: Option<string>, name: Option<string>, description: Option<string>)

  /** `{id, amt, paid, add_date, paid_date, company}` */
  datatype InvoiceDetail = InvoiceDetail(
    id: int, amt: Amount, paid: bool, addDate: Timestamp, paidDate: Option<Timestamp>,
    company: CompanyInfo)

  /** A row of `RETURNING id, comp_code, amt, paid, add_date, paid_date`. */
  datatype InvoiceRow = InvoiceRow(
    id: int, compCode: string, amt: Amount, paid: bool, addDate: Timestamp, paidDate: Option<Timestamp>)

  /** A row of `SELECT paid, paid_date FROM invoices WHERE id=$1`. */
  datatype PaymentRow = PaymentRow(paid: bool, paidDate: Option<Timestamp>)

  /** `{invoice: {...}}` of GET /:id. */
  datatype DetailBody = DetailBody(invoice: InvoiceDetail)

  /** `{invoice: rows[0]}` of POST and PUT; `None` when `rows[0]` is undefined. */
  datatype InvoiceBody = InvoiceBody(invoice: Option<InvoiceRow>)

  const InvoiceNotFound: string := "Invoice not found."

  // ---------------------------------------------------------------------------
  // GET /:id

  /** The joined row a detail was built from: the inverse of the assembly. */
  function Flatten(d: InvoiceDetail): InvoiceCompanyRow {
    InvoiceCompanyRow(d.id, d.amt, d.paid, d.addDate, d.paidDate,
                      d.company.code, d.company.name, d.company.description)
  }

  /**
   * The object literal of routes/invoices.js:37-50, built from row 0; no
   * rows gives no invoice (the caller's 404), never a placeholder.
   */
  function AssembleInvoice(rows: seq<InvoiceCompanyRow>): (r: Option<InvoiceDetail>)
    ensures r.None? <==> |rows| == 0
    ensures r.Some? ==> Flatten(r.value) == rows[0]
  {
    if |rows| == 0 then None
    else
      var row := rows[0];
      Some(InvoiceDetail(row.id, row.amt, row.paid, row.addDate, row.paidDate,
                         CompanyInfo(row.code, row.name, row.description)))
  }

  /** The GET /:id handler, for the path parameter `id`. */
  function GetInvoice(id: string, q: Rows<InvoiceCompanyRow>): (r: Response<DetailBody>)
    ensures r.Reply? <==> q.Ok? && |q.value| > 0
    ensures r.Reply? ==> r.status == 200 && Flatten(r.body.invoice) == q.value[0]
    ensures q.Ok? && |q.value| == 0 ==> r == Fail(HttpError("Invoice was not found: " + id, 404))
    ensures q.Err? ==> r == Fail(Propagated(q.error))
  {
    match q
    case Err(e) => Fail(Propagated(e))
    case Ok(rows) =>
      match AssembleInvoice(rows)
      case None => Fail(HttpError("Invoice was not found: " + id, 404))
      case Some(d) => Reply(200, DetailBody(d))
  }

  // ---------------------------------------------------------------------------
  // POST /

  /** The POST / handler, given the outcome of its INSERT ... RETURNING. */
  function PostInvoice(q: Rows<InvoiceRow>): (r: Response<InvoiceBody>)
    ensures r.Reply? <==> q.Ok?
    ensures r.Reply? ==> r.status == 201 && r.body.invoice == First(q.value)
    ensures q.Err? ==>
      (r == Fail(HttpError("Company was not found.", 404)) <==> q.error.code == Some(ForeignKeyViolation))
    ensures q.Err? && q.error.code != Some(ForeignKeyViolation) ==> r == Fail(Propagated(q.error))
  {
    match q
    case Err(e) => Fail(TranslateError(e, ForeignKeyViolation, "Company was not found.", 404))
    case Ok(rows) => Reply(201, InvoiceBody(First(rows)))
  }

  // ---------------------------------------------------------------------------
  // PUT /:id

  /** The stored invariant of an invoice: it has a paid_date exactly when it is paid. */
  predicate PaymentConsistent(paid: bool, paidDate: Option<Timestamp>) {
    paid <==> paidDate.Some?
  }

  /**
   * The if / else-if / else of routes/invoices.js:81-86: the paid_date to
   * store, from the invoice's current payment state, the requested `paid`
   * and the current time.
   */
  function NewPaidDate(currentPaid: bool, currentPaidDate: Option<Timestamp>, paid: bool, now: Timestamp)
    : (r: Option<Timestamp>)
    ensures !paid ==> r == None
    ensures paid && !currentPaid ==> r == Some(now)
    ensures paid && currentPaid ==> r == currentPaidDate
  {
    if !currentPaid && paid then Some(now)
    else if !paid then None
    else currentPaidDate
  }

  /** The decision keeps "paid_date is set exactly when paid" true of the stored invoice. */
  lemma NewPaidDateConsistent(currentPaid: bool, currentPaidDate: Option<Timestamp>, paid: bool, now: Timestamp)
    requires PaymentConsistent(currentPaid, currentPaidDate)
    ensures PaymentConsistent(paid, NewPaidDate(currentPaid, currentPaidDate, paid, now))
    ensures currentPaid && paid ==> NewPaidDate(currentPaid, currentPaidDate, paid, now) == currentPaidDate
  {
  }

  /**
   * What PUT /:id does between its two queries, as written: the outcome is
   * an error (the SELECT failed) or the paid_date passed to the UPDATE. The
   * check `invoice.rows === 0` compares an array with a number and never
   * holds, and `invoice.paid` / `invoice.paid_date` are read from the query
   * result rather than from its row, so they are undefined: the decision
   * always sees an unpaid invoice with no date.
   */
  function PaymentPlanAsWritten(q: Rows<PaymentRow>, paid: bool, now: Timestamp): (r: Result<Option<Timestamp>, Failure>)
    ensures r.Ok? <==> q.Ok?
    ensures r.Ok? ==> r.value == (if paid then Some(now) else None)
    ensures q.Err? ==> r.error == TranslateError(q.error, ForeignKeyViolation, InvoiceNotFound, 404)
  {
    match q
    case Err(e) => Err(TranslateError(e, ForeignKeyViolation, InvoiceNotFound, 404))
    case Ok(_) => Ok(NewPaidDate(false, None, paid, now))
  }

  /**
   * PUT /:id between its two queries, as evidently intended: no row for the
   * id is a 404, and the decision sees the stored `paid` and `paid_date` of
   * that row.
   */
  function PaymentPlan(id: string, q: Rows<PaymentRow>, paid: bool, now: Timestamp): (r: Result<Option<Timestamp>, Failure>)
    ensures r.Ok? <==> q.Ok? && |q.value| > 0
    ensures q.Ok? && |q.value| == 0 ==> r == Err(HttpError("Invoice cannot be found: " + id, 404))
    ensures q.Err? ==> r.error == TranslateError(q.error, ForeignKeyViolation, InvoiceNotFound, 404)
    ensures r.Ok? && !paid ==> r.value == None
    ensures r.Ok? && paid && !q.value[0].paid ==> r.value == Some(now)
    ensures r.Ok? && paid && q.value[0].paid ==> r.value == q.value[0].paidDate
    ensures r.Ok? && PaymentConsistent(q.value[0].paid, q.value[0].paidDate) ==> PaymentConsistent(paid, r.value)
  {
    match q
    case Err(e) => Err(TranslateError(e, ForeignKeyViolation, InvoiceNotFound, 404))
    case Ok(rows) =>
      if |rows| == 0 then Err(HttpError("Invoice cannot be found: " + id, 404))
      else Ok(NewPaidDate(rows[0].paid, rows[0].paidDate, paid, now))
  }

  /** The reply of PUT /:id, given the outcome of its UPDATE ... RETURNING (lines 88-94). */
  function PutInvoiceReply(q: Rows<InvoiceRow>): (r: Response<InvoiceBody>)
    ensures r.Reply? <==> q.Ok?
    ensures r.Reply? ==> r.status == 200 && r.body.invoice == First(q.value)
    ensures q.Err? ==>
      (r == Fail(HttpError(InvoiceNotFound, 404)) <==> q.error.code == Some(ForeignKeyViolation))
    ensures q.Err? && q.error.code != Some(ForeignKeyViolation) ==> r == Fail(Propagated(q.error))
  {
    match q
    case Err(e) => Fail(TranslateError(e, ForeignKeyViolation, InvoiceNotFound, 404))
    case Ok(rows) => Reply(200, InvoiceBody(First(rows)))
  }

  /**
   * As written, PUT on an id with no invoice is not rejected: the plan goes
   * on to the UPDATE, which returns no row, and the reply is 200 with
   * `{invoice: undefined}`. The intended plan stops with a 404.
   */
  lemma MissingInvoiceUpdatedAnyway(id: string, paid: bool, now: Timestamp)
    ensures PaymentPlanAsWritten(Ok([]), paid, now).Ok?
    ensures PutInvoiceReply(Ok([])) == Reply(200, InvoiceBody(None))
    ensures PaymentPlan(id, Ok([]), paid, now) == Err(HttpError("Invoice cannot be found: " + id, 404))
  {
  }

  /**
   * As written, re-sending `paid: true` for an invoice already paid at `paidAt`
   * stamps it again with `now`; the intended plan keeps `paidAt`.
   */
  lemma RepaidInvoiceRestamped(paidAt: Timestamp, now: Timestamp)
    requires paidAt != now
    ensures PaymentPlanAsWritten(Ok([PaymentRow(true, Some(paidAt))]), true, now) == Ok(Some(now))
    ensures PaymentPlan("", Ok([PaymentRow(true, Some(paidAt))]), true, now) == Ok(Some(paidAt))
  {
  }

  // ---------------------------------------------------------------------------
  // DELETE /:id

  /** The DELETE /:id handler, given the affected row count of its DELETE. */
  function DeleteInvoice(q: RowCount): (r: Response<Notice>)
    ensures r.Reply? <==> q.Ok? && q.value > 0
    ensures r.Reply? ==> r == Reply(200, Notice("status", "Invoice deleted"))
    ensures q.Ok? && q.value == 0 ==> r == Fail(HttpError(InvoiceNotFound, 404))
    ensures q.Err? ==> r == Fail(Propagated(q.error))
  {
    match q
    case Err(e) => Fail(Propagated(e))
    case Ok(count) =>
      if count == 0 then Fail(HttpError(InvoiceNotFound, 404))
      else Reply(200, Notice("status", "Invoice deleted"))
  }
}
