# node-pg companies / invoices / industries: the response-shaping core in Dafny

The repository is an Express REST API over a PostgreSQL database with three
resources: companies, invoices and industries. Most of each route handler sends
a parameterized query and returns what comes back. This model covers the part
of the handlers that has logic of its own:

- **GET /industries** (`Industries`). The rows of
  `industries LEFT JOIN company_industries LEFT JOIN companies` are folded into
  an object keyed by industry name. Each key holds the distinct non-null company
  codes of that industry. The object is then listed as one single-key record
  per industry. The fold is an imperative loop over a map plus the sequence of
  keys in insertion order (`GroupByIndustry`). It is proved equal to a reference
  definition built from a first-seen deduplication (`Dedup.Distinct`). The
  grouping, dedup, null-filtering and ordering properties are lemmas about that
  reference definition.
- **Invoices** (`Invoices`):
  - the GET /:id assembly of an invoice with its nested company, or not-found;
  - the `paid_date` decision of PUT /:id;
  - the status and error mapping of POST, PUT and DELETE.
- **Companies** (`Companies`):
  - the GET /:code assembly of a company with its invoices and industries;
  - the status and error mapping of POST, PUT and DELETE.
- **Shared vocabulary** (`Api`): nullable columns, query outcomes (rows, row
  count or a driver error with its SQLSTATE code), the ExpressError / propagated
  error a handler hands to `next`, and replies.

The database is never modelled. Each handler is a function of the outcome of the
query it issues. The current time (`Date.now()`) is a parameter.

Two behaviours of the code differ from what the API evidently means to do. The
model follows the code in both:
- DELETE /companies/:code confirms with 200 "Company deleted" even when no row
  was deleted, where a missing company would be expected to give 404.
- The company detail of GET /companies/:code lists one all-null invoice for a
  company without invoices, where an empty list is evidently meant.

The second case, and two slips in PUT /invoices/:id, are logged under Findings.
Each is modelled both as written and as intended.

## Model

| member | source | states |
|---|---|---|
| `Api.TranslateError` | routes/invoices.js:63-66 | The catch-block pattern: an ExpressError with the given message and status exactly when the error's code is the given SQLSTATE. Otherwise the error itself is passed on. |
| `Dedup.DistinctMembers` | routes/industries.js:21-28 | Deduplication keeps exactly the elements of its input. Nothing is lost and nothing is invented. |
| `Dedup.DistinctNoDuplicates` | routes/industries.js:27 | After deduplication, no element occurs twice. |
| `Dedup.DistinctFirstSeenOrder` | routes/industries.js:21-28 | Deduplicated elements come in the order of their first occurrences in the input. |
| `Industries.Format` | routes/industries.js:33-35 | One record per key, in key order. Record i has the single key keys[i], holding acc[keys[i]]. |
| `Industries.GroupByIndustry` | routes/industries.js:20-35 | The loop over the rows (create on first sight, push a non-null code not yet listed), followed by the formatting, yields exactly the reference grouping `Grouped(rows)`. |
| `Industries.GetIndustries` | routes/industries.js:10-41 | 200 with `{industries: Grouped(rows)}` on query success. A query error is passed on unchanged. |
| `Industries.RecordShape` | routes/industries.js:33-35 | One record per listed industry. Each has exactly one key, the industry name, holding that industry's companies list. |
| `Industries.EachIndustryOnce` | routes/industries.js:21-25 | An industry is listed iff some row names it, and no industry is listed twice. |
| `Industries.IndustriesFirstSeenOrder` | routes/industries.js:20-25 | Industries are listed in the order of the first row that names each. |
| `Industries.CompanyMembership` | routes/industries.js:27-28 | A code is in an industry's list iff some row pairs that industry with that (non-null) code. Null codes are never listed, and a code is listed under no industry it is not paired with. |
| `Industries.EveryCodeListed` | routes/industries.js:27-28 | Every non-null code of a row is in the list of that row's industry, and that industry is listed. |
| `Industries.CompaniesNoDuplicates` | routes/industries.js:27 | No company code appears twice in one industry's list. |
| `Industries.CompaniesFirstSeenOrder` | routes/industries.js:28 | Within an industry, codes are listed in the order they were first seen. |
| `Industries.NullOnlyIndustryListedEmpty` | routes/industries.js:21-25 | An industry whose rows all have a null code is still listed, with an empty companies list. |
| `Invoices.AssembleInvoice` | routes/invoices.js:34-50 | No rows gives no invoice, never a placeholder. Otherwise the nested invoice flattens back to exactly row 0: id, amt, paid, add_date and paid_date, plus company code, name and description. |
| `Invoices.GetInvoice` | routes/invoices.js:21-55 | A reply iff the query returned rows: 200, and the invoice flattens back to row 0. No rows gives 404 "Invoice was not found: <id>". A query error is passed on. |
| `Invoices.PostInvoice` | routes/invoices.js:58-68 | 201 with `{invoice: rows[0]}` on success. Error 23503 gives 404 "Company was not found.", and any other error is passed on unchanged. |
| `Invoices.NewPaidDate` | routes/invoices.js:81-86 | Requested unpaid gives a null paid_date. Unpaid becoming paid stamps `now`. Already paid and staying paid keeps the current paid_date. |
| `Invoices.NewPaidDateConsistent` | routes/invoices.js:81-86 | If the stored invoice has a paid_date exactly when it is paid, the decision keeps that true. Paid staying paid retains the old date. |
| `Invoices.PaymentPlanAsWritten` | routes/invoices.js:74-86 | As written, any successful SELECT (even an empty one) goes on to the UPDATE. The date sent is `now` when paid is requested, else null, whatever the stored state. A SELECT error maps 23503 to 404 "Invoice not found.". |
| `Invoices.PaymentPlan` | routes/invoices.js:74-86 | As intended: no row gives 404 "Invoice cannot be found: <id>". Otherwise the three-way decision on row 0's paid and paid_date, which keeps "paid_date set iff paid". |
| `Invoices.PutInvoiceReply` | routes/invoices.js:88-94 | 200 with `{invoice: rows[0]}` on UPDATE success. Error 23503 gives 404 "Invoice not found.", and any other error is passed on. |
| `Invoices.MissingInvoiceUpdatedAnyway` | routes/invoices.js:78-79 | As written, PUT on an id with no invoice proceeds and replies 200 with `{invoice: undefined}`. The intended plan replies 404. |
| `Invoices.RepaidInvoiceRestamped` | routes/invoices.js:81-86 | As written, re-sending paid=true for an invoice paid at another time re-stamps it with `now`. The intended plan keeps the old date. |
| `Invoices.DeleteInvoice` | routes/invoices.js:99-109 | Row count 0 gives 404 "Invoice not found.". Otherwise 200 `{status: "Invoice deleted"}`. A query error is passed on. |
| `Companies.AssembleAsWritten` | routes/companies.js:47-54 | Header from row 0. One invoice per joined row, in row order, projected to id/amt/paid/add_date/paid_date. Industry rows unchanged. For rows of one company, the detail rebuilds exactly the joined rows. |
| `Companies.NoInvoicesGivesNullEntry` | routes/companies.js:52 | As written, the single all-null LEFT JOIN row of a company without invoices yields a one-element list holding an all-null invoice. |
| `Companies.InvoicesOfSelects` | routes/companies.js:52 | As intended: the listed invoices are the summaries of the rows with an invoice id, each such row once, in row order (there are strictly increasing row positions, one per listed invoice, covering every row with an id). |
| `Companies.Assemble` | routes/companies.js:47-54 | As intended: header from row 0 and industries unchanged. The invoices are the summaries of exactly the rows with an invoice id, each once, in row order. No invoices gives an empty list. When every row has an invoice, the result equals the as-written assembly. |
| `Companies.GetCompany` | routes/companies.js:22-60 | As written: a reply iff the company query returned rows and the industries query succeeded, 200 with the as-written assembly. No rows gives 404 "Company not found". Either query's error is passed on. |
| `Companies.GetCompanyIntended` | routes/companies.js:22-60 | As intended: the same outcomes and failures as the handler as written, but the reply carries the corrected assembly. |
| `Companies.NoInvoicesReply` | routes/companies.js:47-54 | For a company without invoices, the handler as written replies with one all-null invoice, and as intended with none. |
| `Companies.PostCompany` | routes/companies.js:63-78 | 201 with `{company: rows[0]}` on success. Error 23505 gives 409 "The company already exists", and any other error is passed on unchanged. |
| `Companies.PutCompany` | routes/companies.js:81-91 | No returned row gives 404 "Update failed. Company not found.". Otherwise 200 with the returned row. A query error is passed on. |
| `Companies.DeleteCompany` | routes/companies.js:94-102 | 200 `{message: "Company deleted"}` whatever the row count. A query error is passed on. |

## Findings

| source | as written | input that shows it | evidently intended | confidence | as-written member | corrected member |
|---|---|---|---|---|---|---|
| routes/invoices.js:78-79 | `invoice.rows === 0` compares the rows array with a number, so the 404 never fires | PUT /invoices/:id for an id with no invoice: the SELECT returns no row, the UPDATE returns no row, and the reply is 200 with `{invoice: undefined}` | reply 404 "Invoice cannot be found: <id>" when the SELECT returns no row | high (not executed) | `Invoices.MissingInvoiceUpdatedAnyway` | `Invoices.PaymentPlan` |
| routes/invoices.js:81-86 | `invoice.paid` and `invoice.paid_date` are read from the query result rather than from `invoice.rows[0]`, so they are undefined. The retain branch is unreachable | PUT with paid=true on an invoice already paid at time D, at time N ≠ D: as written the paid_date sent is N | keep D: an already-paid invoice keeps its paid_date | high (not executed) | `Invoices.RepaidInvoiceRestamped` | `Invoices.PaymentPlan` |
| routes/companies.js:52 | every joined row becomes an invoice, including the all-null row that the LEFT JOIN yields for a company without invoices | GET /companies/:code for a company with no invoice: `invoices` is `[{id: null, amt: null, paid: null, add_date: null, paid_date: null}]` | `invoices: []` | medium (not executed) | `Companies.NoInvoicesGivesNullEntry`, `Companies.NoInvoicesReply` | `Companies.Assemble`, `Companies.GetCompanyIntended` |

`GetCompany` is the handler as written and uses `AssembleAsWritten`.
`GetCompanyIntended` is the corrected handler and uses `Assemble`.
`PaymentPlan` is the intended first half of PUT /invoices/:id, and
`PutInvoiceReply` is its second half. The as-written members stay in the model
beside them.

## Left out

- db.js: building the connection string and opening the client is I/O.
- The SQL itself (joins, `RETURNING`, constraint enforcement): each query's rows,
  row count or error code is an input.
- Express routing, `req`/`res`/`next` and JSON serialisation. The final error
  handler that renders a failure is not part of this model. A propagated error
  stops at `Propagated`, and an ExpressError at its message and status.
- GET /companies and GET /invoices: they return the query's rows unchanged and
  have no logic.
- POST /industries and POST /industries/:ind_code: they insert a row and return
  it with 201, with no logic.
- `slugify` in POST /companies: it comes from a foreign library. The code it
  derives is part of the inserted row the handler receives.
- `Date.now()`: the current time is the parameter `now` of the paid_date
  decision.
- The read-then-update of PUT /invoices/:id is not atomic. That is a concurrency
  matter. Only the decision between the two queries is modelled
  (`PaymentPlan`), followed by the reply to the UPDATE (`PutInvoiceReply`). The
  amt, paid and id passed to the UPDATE are not modelled, since they are the
  request's own values.
- Industries.GroupByIndustry: JavaScript lists integer-like object keys first, in
  numeric order, whatever their insertion order. Industry names are assumed not
  to be integer-like, so keys come in insertion order. Names that clash with
  properties of `Object.prototype` (such as `constructor`) are also not modelled.
  On such a name the source's `!acc[row.industry]` check misbehaves.
- Industry names are taken to be non-null strings.
- Invoices.NewPaidDate: the request's `paid` is modelled as a boolean. Other
  JSON values and their JavaScript truthiness are not modelled.
