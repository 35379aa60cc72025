# Billio invoicing, modelled in Dafny

Billio is a small invoicing application. It issues invoices, estimates and
recurring profiles with their line items, records payments and reports on the
results. It has two server back ends for the same `/api/...` routes, which
behave differently, so this project models them separately:

- the Rust services (`backend/*`), over the tables in `RustDb`;
- the Node/Express server (`server/*`), over the tables in `NodeDb`.

The browser pages that drive them (`src/pages/*`, their `micro/` copies) and
the API client `src/lib/api.ts` with its demo-mode mock store are modelled
on top.

Each core file of the system is one Dafny module, named after what it holds:

- **Rust services.**
  - `AuthContext` covers `backend/common/src/lib.rs`.
  - `ClientService`, `ProductService` and `CompanyService` are the owner-scoped stores.
  - `InvoiceService` holds invoices, estimates, recurring profiles and the send transition. Each is a transaction that commits or leaves the tables unchanged.
  - `InvoiceReports` holds the dashboard, the revenue series, the CSV export and the PDF text fallback.
- **Node server.**
  - `NodeInvoices` covers `server/index.js`.
  - `NodeEstimates`, `NodePayments`, `NodeRecurring`, `NodeReports`, `NodeCompany` and `NodeAuth` cover `server/routes/*`.
  - `Numbering` and `NodeNumbering` cover the numbering service.
  - `CsvHelper` covers the CSV writer, with an RFC 4180 reader as its partner.
- **Browser.**
  - `MockApi` covers `src/lib/api.ts`, with `localStorage` as the `MockStore` object.
  - `LineItems` is the item table the editors share.
  - The other page modules are `InvoiceEditor`, `MicroInvoiceEditor`, `RecurringEditor`, `RecurringList`, `EstimatesPage`, `InvoicesPage`, `ClientsPage`, `ProductsPage`, `Search`, `Dashboard`, `ReportsPage` and `InvoiceViewPage`.
- **Shared helpers.**
  - `Wrappers`, `Text`, `Calendar`, `Tables` and `Grouping` (SQL aggregates as folds over rows).
  - `JsNumber` covers JavaScript numbers, including NaN.

Modelling choices:

- **Tables.** Stateful stores are classes:
  - a parent table is a `map` from serial id to row;
  - a child table (items, payments, resets, emails, the activity log) is a `seq` in insertion order, the order a plain `SELECT` returns.
- **Transactions.** A handler works on local copies of the tables and assigns the fields only when it commits.
  - A database failure is a parameter of the writes and the reports: the index of the statement that fails, if any. Most plain reads cannot fail (see "## Left out").
  - Its error text is not modelled.
- **Time.** The clock (`Utc::now`, `Date.now()`, `CURRENT_DATE`) is a parameter.
  - Dates are day numbers of the proleptic Gregorian calendar.
- **Money.** Amounts are `real`, and JavaScript numbers are finite values or NaN.
- **External parties.** These are parameters:
  - the server's answer to the browser;
  - the AI service's answer;
  - the user's confirmation dialogs.

The database schema is not part of this model. The model assumes that an
item row references its parent and that deleting a parent removes its items
(a cascading foreign key).

## Model

| member | source | states |
|---|---|---|
| AuthContext.CreateJwt | backend/common/src/lib.rs:18-35 | the token reads back as an HS256 token whose claims are the user, issued now and expiring seven days later |
| AuthContext.VerifyJwt | backend/common/src/lib.rs:37-44 | a token is accepted exactly when it parses, is HS256, carries the secret's MAC of its claims and has not expired beyond the leeway; the accepted claims are the token's |
| AuthContext.Authenticate | backend/common/src/lib.rs:58-74 | a missing or non-visible-ASCII header, a header without "Bearer " and a token that fails verification each give their own 401 message; success yields the token's subject |
| AuthContext.IssuedTokenAuthenticates | backend/common/src/lib.rs:18-44 | a token from create_jwt authenticates its user under the same secret until seven days plus the leeway have passed |
| AuthContext.ExpiredTokenRefused | backend/common/src/lib.rs:18-44 | after seven days plus the leeway the same token is refused with "Invalid token" |
| AuthContext.ForeignSecretRefused | backend/common/src/lib.rs:37-44 | a token signed under a different secret is rejected for its signature |
| RustDb.AppendFresh | backend/invoice-service/src/main.rs:193-197 | inserting an item under an unused id keeps item ids a key |
| RustDb.Database.constructor | backend/client-service/src/main.rs:60-72 | modelled as starting empty (the cited lines only open the connection pool): every table empty and the store's invariant holding |
| ClientService.ListClients | backend/client-service/src/main.rs:87-100 | the rows listed are exactly the caller's clients |
| ClientService.GetClient | backend/client-service/src/main.rs:126-142 | the caller's client when it owns the id; 404 "Client not found" otherwise |
| ClientService.CreateClient | backend/client-service/src/main.rs:102-124 | a new row under a fresh id owned by the caller, readable back through get; a database error changes nothing |
| ClientService.UpdateClient | backend/client-service/src/main.rs:144-168 | the caller's row is overwritten with the request; a missing or foreign id is the 500 of fetch_one and changes nothing; other users' rows are untouched |
| ClientService.DeleteClient | backend/client-service/src/main.rs:170-187 | 204 and the row gone when the caller owned it; 404 with nothing changed otherwise; other users' rows are untouched |
| ProductService.ListProducts | backend/product-service/src/main.rs:78-91 | the rows listed are exactly the caller's products |
| ProductService.GetProduct | backend/product-service/src/main.rs:112-128 | the caller's product when it owns the id; 404 "Product not found" otherwise |
| ProductService.CreateProduct | backend/product-service/src/main.rs:93-110 | a new row under a fresh id owned by the caller, readable back through get; a database error changes nothing |
| ProductService.UpdateProduct | backend/product-service/src/main.rs:130-149 | the caller's row is overwritten with the request; a missing or foreign id is a 500 and changes nothing; other users' rows are untouched |
| ProductService.DeleteProduct | backend/product-service/src/main.rs:151-168 | 204 and the row gone when the caller owned it; 404 with nothing changed otherwise; other users' rows are untouched |
| CompanyService.CompanyOf | backend/company-service/src/main.rs:109-116 | the caller's settings row when one exists, none exactly when no row belongs to the caller |
| CompanyService.GetCompany | backend/company-service/src/main.rs:105-132 | an existing row is returned unchanged; otherwise a default row is inserted for the caller and returned |
| CompanyService.OnlyRow | backend/company-service/src/main.rs:139-160 | with user_id unique, the caller's row is the only one that can conflict |
| CompanyService.UpdateCompany | backend/company-service/src/main.rs:134-184 | the upsert replaces the caller's sixteen columns keeping id and created_at, or inserts a new row; other users' rows are untouched |
| CompanyService.GetTwice | backend/company-service/src/main.rs:105-132 | reading the settings twice gives the same row: the first read creates at most one default |
| InvoiceService.ItemsOf | backend/invoice-service/src/main.rs:216 | the items read back for an invoice are exactly the item rows that point at it |
| InvoiceService.ItemsNotOf | backend/invoice-service/src/main.rs:223 | deleting an invoice's items keeps exactly the item rows of other invoices |
| InvoiceService.ItemsOfAppend | backend/invoice-service/src/main.rs:216 | reading an invoice's items distributes over appended tables |
| InvoiceService.ItemsReadBack | backend/invoice-service/src/main.rs:193-199 | items appended for a new invoice to a table holding none of its items read back exactly, in insertion order |
| InvoiceService.ItemsNotOfDistinct | backend/invoice-service/src/main.rs:223 | deleting an invoice's items keeps item ids a key |
| InvoiceService.NextItem | backend/invoice-service/src/main.rs:195 | the serial id given to an inserted item is unused |
| InvoiceService.JoinedName | backend/invoice-service/src/main.rs:161-163 | the LEFT JOIN gives the client's name exactly when the invoice names an existing client |
| InvoiceService.JoinedEmail | backend/invoice-service/src/main.rs:204-206 | the LEFT JOIN gives the client's email when the client exists and NULL otherwise |
| InvoiceService.ListInvoices | backend/invoice-service/src/main.rs:159-172 | every listed row is one of the caller's invoices joined with its client's name and no email; every invoice of the caller is listed; newest first, the later inserted first within a day |
| InvoiceService.InvoiceViews | backend/invoice-service/src/main.rs:161-163 | each row is joined with its client's name, and nothing else is produced |
| InvoiceService.GetInvoice | backend/invoice-service/src/main.rs:202-218 | the caller's invoice with its client name and email and exactly its items; 404 "Not found" otherwise |
| InvoiceService.InsertItems | backend/invoice-service/src/main.rs:193-197 | the loop inserts one row per requested item, in order, under fresh ids; a failing insert aborts it |
| InvoiceService.CommitInvoice | backend/invoice-service/src/main.rs:198-199 | committing writes the invoice row and the item table, after which get_invoice reads back the row and exactly these items |
| InvoiceService.CreateInvoice | backend/invoice-service/src/main.rs:174-200 | the transaction inserts the invoice and its items under fresh ids and get reads both back; any failing statement leaves both tables as they were |
| InvoiceService.UpdateInvoice | backend/invoice-service/src/main.rs:220-231 | the caller's invoice is rewritten and its items replaced by the request's, read back by get; a foreign or missing id is a 500 and, like any failing statement, leaves both tables as they were |
| InvoiceService.DeleteInvoice | backend/invoice-service/src/main.rs:233-236 | 204 whether or not a row matched; the caller's invoice and, by cascade, its items go; afterwards get finds nothing |
| InvoiceService.SendInvoice | backend/invoice-service/src/main.rs:409-418 | 404 for an invoice the caller does not own; otherwise 200, and a draft becomes 'sent' while any other status stays |
| InvoiceService.SendTwice | backend/invoice-service/src/main.rs:409-418 | sending twice answers the same and leaves a once-draft invoice 'sent' |
| InvoiceService.ListEstimates | backend/invoice-service/src/main.rs:284-287 | every listed row is one of the caller's estimates with its client's name, and every estimate of the caller is listed |
| InvoiceService.EstimateViews | backend/invoice-service/src/main.rs:285 | each estimate row is joined with its client's name, and nothing else is produced |
| InvoiceService.GetEstimate | backend/invoice-service/src/main.rs:294-297 | the caller's estimate with its client's name; 404 otherwise |
| InvoiceService.CreateEstimate | backend/invoice-service/src/main.rs:289-292 | a new estimate of the caller under a fresh id, whatever user the payload names |
| InvoiceService.UpdateEstimate | backend/invoice-service/src/main.rs:299-302 | the caller's estimate takes the payload's six columns, keeping owner and creation time; a missing or foreign id is a 500 |
| InvoiceService.DeleteEstimate | backend/invoice-service/src/main.rs:304-307 | 204 always; the caller's estimate goes, anything else stays |
| InvoiceService.ListRecurring | backend/invoice-service/src/main.rs:310-313 | every listed row is one of the caller's profiles with its client's name, and every profile of the caller is listed |
| InvoiceService.RecurringViews | backend/invoice-service/src/main.rs:311 | each profile is joined with its client's name, and nothing else is produced |
| InvoiceService.GetRecurring | backend/invoice-service/src/main.rs:320-323 | the caller's profile with its client's name; 404 otherwise |
| InvoiceService.CreateRecurring | backend/invoice-service/src/main.rs:315-318 | a new profile of the caller under a fresh id, with the payload's next run and no last run |
| InvoiceService.UpdateRecurring | backend/invoice-service/src/main.rs:325-328 | the caller's profile takes the payload's seven columns and keeps its last run; a missing or foreign id is a 500 |
| InvoiceService.DeleteRecurring | backend/invoice-service/src/main.rs:330-333 | 204 always; the caller's profile goes, anything else stays |
| InvoiceReports.UserInvoices | backend/invoice-service/src/main.rs:353 | the rows read are exactly the caller's invoices |
| InvoiceReports.StatsFor | backend/invoice-service/src/main.rs:353 | each group row carries its status, the number of invoices with it and the sum of their totals |
| InvoiceReports.InvoiceStats | backend/invoice-service/src/main.rs:353 | GROUP BY status gives one row per status present, none empty, each with its count and summed total |
| InvoiceReports.StatsForSums | backend/invoice-service/src/main.rs:353 | the group rows' counts and amounts add up to the counts and sums over their statuses |
| InvoiceReports.StatusGroupsPartition | backend/invoice-service/src/main.rs:353 | the status groups partition the invoices: their counts add up to the number of invoices and their amounts to the sum of all totals |
| InvoiceReports.Periods | backend/invoice-service/src/main.rs:357 | the months grouped are exactly the creation months present, newest first, each once |
| InvoiceReports.RevenueFor | backend/invoice-service/src/main.rs:357 | each month row carries the month, the sum of totals created in it and the sum of those that are paid |
| InvoiceReports.CollectedAtMostRevenue | backend/invoice-service/src/main.rs:357 | with non-negative totals, each month's collected amount lies between zero and its revenue |
| InvoiceReports.RevenueForSum | backend/invoice-service/src/main.rs:357 | the month rows' revenues add up to the sums over their months |
| InvoiceReports.RevenuePartition | backend/invoice-service/src/main.rs:368 | the months of the revenue series partition the invoices: their revenues add up to the sum of all totals |
| InvoiceReports.Dashboard | backend/invoice-service/src/main.rs:352-365 | 500 exactly when one of its queries fails; otherwise the status groups, the six newest months, the client count twice (active equals total) and the count and sum of overdue invoices |
| InvoiceReports.NoOverdueNoAmount | backend/invoice-service/src/main.rs:354 | with no overdue invoice the COALESCE gives an overdue amount of zero |
| InvoiceReports.RevenueStats | backend/invoice-service/src/main.rs:367-370 | 500 exactly when the query fails; otherwise the whole monthly series, whatever the query parameters say |
| InvoiceReports.ExportType | backend/invoice-service/src/main.rs:373 | the type parameter when present, "invoices" otherwise |
| InvoiceReports.ExportLines | backend/invoice-service/src/main.rs:375-400 | the export starts with the clients, products or invoices header, any other type exporting invoices |
| InvoiceReports.ExportReports | backend/invoice-service/src/main.rs:372-407 | 500 exactly when the export query fails; otherwise a text/csv attachment named after the requested type whose body is the lines, each ended by a newline |
| InvoiceReports.UnknownTypeExportsInvoices | backend/invoice-service/src/main.rs:392-399 | any type other than clients and products exports the same lines as invoices |
| InvoiceReports.ExportSplitsIntoLines | backend/invoice-service/src/main.rs:378-399 | splitting the body at newlines gives back the header and one line per row |
| InvoiceReports.ClientLineFields | backend/invoice-service/src/main.rs:380 | a client line splits at commas into name, email and phone, missing ones empty, when no field holds a comma |
| InvoiceReports.CommaInNameAddsField | backend/invoice-service/src/main.rs:380 | the values are written unquoted, so a comma in a name yields a fourth field |
| InvoiceReports.FallbackLines | backend/invoice-service/src/main.rs:269-274 | the fallback document has five lines, the second empty |
| InvoiceReports.FallbackBody | backend/invoice-service/src/main.rs:269-274 | the appended buffer is the fallback lines, each ended by a newline |
| InvoiceReports.FallbackSplits | backend/invoice-service/src/main.rs:269-274 | the fallback body splits back into its lines when no value holds a newline |
| InvoiceReports.GeneratePdf | backend/invoice-service/src/main.rs:238-281 | 500 when the invoice read fails; 404 for an invoice the caller does not own; 500 when its items read fails; otherwise an application/pdf attachment named after the invoice number holding the fallback text with the joined client name and the total |
| NodeDb.NodeDatabase.constructor | server/index.js:15-18 | modelled as starting empty (the cited lines only open the connection pool): every table empty with its keys and foreign keys holding |
| NodeDb.ChildrenOf | server/index.js:152 | the item rows read for a parent are exactly the rows that point at it |
| NodeDb.ChildrenNotOf | server/index.js:205 | deleting a parent's item rows keeps exactly the rows of other parents |
| NodeDb.InsertLines | server/index.js:174-181 | the loop inserts one row per input, in order, pointing at the parent; a failing insert aborts it |
| NodeDb.ChildrenOfAppend | server/index.js:152 | reading a parent's items distributes over appended tables |
| NodeDb.ReplacedReadBack | server/index.js:204-212 | after deleting a parent's items and inserting new ones, reading them back gives exactly the new ones in order |
| NodeDb.AppendedReadBack | server/index.js:174-181 | items inserted for a parent that had none read back exactly, in order |
| CsvHelper.Keys | server/utils/csvHelper.js:12 | the headers are the first row's keys, in order |
| CsvHelper.Lookup | server/utils/csvHelper.js:20 | the value under a key when the row has it, undefined when it has none |
| CsvHelper.EscapeText | server/utils/csvHelper.js:36-43 | a text without comma, quote or newline is kept; any other is wrapped in quotes |
| CsvHelper.EscapeValue | server/utils/csvHelper.js:31-44 | null and undefined give the empty text; a value is written as is exactly when it needs no quoting |
| CsvHelper.EscapeAll | server/utils/csvHelper.js:15 | each header is escaped in place |
| CsvHelper.Cells | server/utils/csvHelper.js:19-22 | one escaped cell per header, holding the row's value under that header |
| CsvHelper.DataRows | server/utils/csvHelper.js:18-23 | one line per data row |
| CsvHelper.JsonToCsv | server/utils/csvHelper.js:6-26 | the text is empty exactly when there is no row |
| CsvHelper.QuotedRoundTrip | server/utils/csvHelper.js:40 | a quoted field with doubled quotes reads back as the original text |
| CsvHelper.UnquotedRoundTrip | server/utils/csvHelper.js:43 | a field written as is reads back as itself |
| CsvHelper.FieldRoundTrip | server/utils/csvHelper.js:31-44 | every escaped text reads back as the original, whatever it holds |
| CsvHelper.RecordRoundTrip | server/utils/csvHelper.js:15 | a comma-joined record of escaped fields reads back as its fields |
| CsvHelper.DocumentRoundTrip | server/utils/csvHelper.js:25 | newline-joined records read back as the records |
| CsvHelper.DataRowsEncodeCells | server/utils/csvHelper.js:18-23 | the data lines are the encoded cell rows |
| CsvHelper.JsonToCsvRoundTrip | server/utils/csvHelper.js:6-26 | a CSV read back gives the header row of the first row's keys and then each row's cells under those headers |
| CsvHelper.PlainValuesUnquoted | server/utils/csvHelper.js:39-43 | a value needing no quotes is written unchanged |
| NodeDb.SetInvoice | server/index.js:298 | the UPDATE replaces exactly the one invoice row and keeps every other row and the database's integrity |
| NodeInvoices.RecordSent | server/index.js:291-300 | the email row is stored first; a failing status update then answers 500 with the invoices untouched, otherwise the invoice's status becomes 'sent' and nothing else in it changes |
| NodeInvoices.ReplaceInvoiceItems | server/index.js:204-214 | the invoice's items are deleted and the body's items inserted in request order, and both tables are written exactly when none of those statements nor the COMMIT fails; a failure changes neither table |
| NodeEstimates.ReplaceEstimateItems | server/routes/estimates.js:162-172 | the estimate's items are deleted and the body's items inserted in request order; a failing statement answers 500 and changes neither table, otherwise the estimate row and its items are committed together |
| NodeRecurring.ReplaceProfileItems | server/routes/recurring.js:136-148 | the profile's items are deleted and the body's items inserted in request order; a failing statement answers 500 and changes neither table, otherwise the profile row and its items are committed together |
| NodePayments.WritePayment | server/routes/payments.js:78-97 | the payment is appended to the payment table and the invoice row replaced by its settled version, nothing else changes |
| NodePayments.WriteDeletion | server/routes/payments.js:154-178 | the payment table becomes the remaining payments and the invoice row its recomputed version, nothing else changes |
| NodeInvoices.ListClients | server/index.js:30-37 | every client row of every user is listed, and nothing else, by name ascending with the unnamed last |
| NodeInvoices.CreateClient | server/index.js:39-50 | a new row under a fresh id holding the body's user, name, email and address and nothing more |
| NodeInvoices.UpdateClient | server/index.js:52-64 | the row's name, email and address are replaced, whoever owns it; a missing id answers no row and changes nothing |
| NodeInvoices.DeleteClient | server/index.js:66-74 | the row goes if present and the answer is "Client deleted" either way |
| NodeInvoices.ListProducts | server/index.js:77-84 | every product row of every user is listed, and nothing else, by name ascending with the unnamed last |
| Tables.OrderBy | server/index.js:79 | `ORDER BY`: the same rows, each as often, in the comparator's order whenever it is a total preorder |
| NodeInvoices.CreateProduct | server/index.js:86-97 | a new row under a fresh id holding the body's user, name, unit price and description |
| NodeInvoices.UpdateProduct | server/index.js:99-111 | the row's name, unit price and description are replaced; a missing id answers no row and changes nothing |
| NodeInvoices.DeleteProduct | server/index.js:113-121 | the row goes if present and the answer is "Product deleted" either way |
| NodeInvoices.JoinedClient | server/index.js:142-144 | the LEFT JOIN finds the client exactly when the invoice names an existing one |
| NodeInvoices.ListInvoices | server/index.js:124-136 | every invoice of every user is listed with its client's name, and nothing else, newest first, the later inserted first within a day |
| NodeInvoices.NameViews | server/index.js:127-129 | each row is joined with its client's name, and nothing else is produced |
| NodeInvoices.GetInvoice | server/index.js:138-161 | an existing invoice with its client's name, email and address and exactly its items; 404 "Invoice not found" otherwise |
| NodeInvoices.NewInvoice | server/index.js:168-171 | the status defaults to 'draft' when empty and the total to 0 when missing or zero |
| NodeInvoices.CommitInvoice | server/index.js:183 | COMMIT writes the invoice and the item table together |
| NodeInvoices.CreateInvoice | server/index.js:163-191 | the invoice is inserted under a fresh id and its items appended in order; any failing statement rolls both tables back with a 500 |
| NodeInvoices.CommitNewInvoice | server/index.js:172-183 | the new invoice and its items, appended in order, are committed together |
| NodeInvoices.UpdateInvoice | server/index.js:193-222 | the invoice takes the body's client, status, due date and total; items are replaced in order only when the body has them; a missing id answers no row; a failing statement rolls everything back with a 500 |
| NodeInvoices.ChildrenNotOfNone | server/index.js:205 | deleting the items of an invoice that has none changes nothing |
| NodeInvoices.PaymentsNotOf | server/index.js:227 | the cascade keeps exactly the payments of other invoices |
| NodeInvoices.DeleteInvoice | server/index.js:224-232 | the invoice goes with its items and payments and the answer is "Invoice deleted"; afterwards get answers 404 |
| NodeInvoices.SendInvoice | server/index.js:261-304 | 404 for a missing invoice; otherwise an email row naming the total is stored and the invoice becomes 'sent' whatever its status |
| NodeInvoices.DescribePrompt | server/index.js:307-329 | 400 "Notes are required" exactly when the notes are empty; otherwise the prompt embeds the notes verbatim |
| NodeInvoices.Describe | server/index.js:307-340 | 400 exactly when the notes are empty; otherwise a 500 exactly when the AI call fails, the parsed JSON when the answer parses, and the 500 carrying the answer's text exactly when it does not |
| NodeEstimates.ListViews | server/routes/estimates.js:10-16 | each estimate is joined with its client's name and email, and nothing else is produced |
| NodeEstimates.ListEstimates | server/routes/estimates.js:7-22 | every listed row is one of the caller's estimates, every estimate of the caller is listed, newest first, the later inserted first within a day |
| NodeEstimates.GetEstimate | server/routes/estimates.js:25-53 | the caller's estimate with its client's name, email and address (all empty without a client) and exactly its items; 404 "Estimate not found" otherwise |
| NodeEstimates.NewEstimate | server/routes/estimates.js:72-84 | the new row belongs to the caller, carries the generated number, defaults its status to 'draft' and its currency to 'USD', and copies the other charges |
| NodeEstimates.CommitNewEstimate | server/routes/estimates.js:86-105 | the estimate, its items in order and one activity entry are committed together |
| NodeEstimates.CreateEstimate | server/routes/estimates.js:56-113 | the estimate takes the next estimate number, its items are appended in order and a 'created' activity entry names it; any failing statement rolls all three tables back with a 500 |
| NodeEstimates.Check | server/routes/estimates.js:130-144 | 404 exactly when the caller does not own the estimate; 400 with the given message exactly when it is converted; otherwise the row |
| NodeEstimates.CommitEstimate | server/routes/estimates.js:172 | COMMIT writes the estimate and the item table together |
| NodeEstimates.UpdateEstimate | server/routes/estimates.js:116-180 | a foreign, missing or converted estimate is refused unchanged; otherwise all twelve columns are replaced and, when the body has items, the items are replaced in order |
| NodeEstimates.DeleteEstimate | server/routes/estimates.js:183-201 | "Estimate deleted" and the estimate gone with its items when the caller owned it; 404 with nothing changed otherwise |
| NodeEstimates.ConvertedInvoice | server/routes/estimates.js:241-255 | the invoice is a draft of the estimate's client and charges, unpaid, due thirty days later |
| NodeEstimates.InputsOf | server/routes/estimates.js:260-265 | each estimate item is copied field by field |
| NodeEstimates.MarkConverted | server/routes/estimates.js:268-271 | the estimate becomes 'converted' and points at the new invoice |
| NodeEstimates.ConvertEstimate | server/routes/estimates.js:204-285 | a foreign, missing or converted estimate is refused unchanged; otherwise a new invoice with the next invoice number and copies of the items is created and the estimate marked converted, all or nothing |
| NodeEstimates.CommitConversion | server/routes/estimates.js:241-273 | the invoice, its copied items and the converted estimate are committed together |
| NodeEstimates.ConvertedIsFinal | server/routes/estimates.js:141-144 | a converted estimate can be neither edited nor converted again |
| NodePayments.ViewsOf | server/routes/payments.js:21-28 | exactly the invoice's payments, each joined with its creator's email, in the order they come |
| NodePayments.ListPayments | server/routes/payments.js:6-34 | 404 "Invoice not found" unless the caller owns the invoice; otherwise exactly its payments with their creators' emails, latest payment date first and the latest recorded first within a day |
| NodePayments.RecordedStatusSettled | server/routes/payments.js:87-92 | after a positive payment the status is 'paid' exactly when the new paid amount reaches the total, and 'partially_paid' otherwise |
| NodePayments.RecordKeepsLedger | server/routes/payments.js:78-97 | adding a payment and raising the invoice's paid amount by it keeps every paid amount equal to the sum of its invoice's payments |
| NodePayments.CommitPayment | server/routes/payments.js:78-106 | the payment, the invoice's new paid amount and status, and the activity entry are committed together, keeping the ledger |
| NodePayments.RecordPayment | server/routes/payments.js:37-121 | a missing or non-positive amount is a 400, a foreign invoice a 404, a payment past the total the 400 naming total, already paid and maximum; otherwise the payment is stored, the invoice's paid amount and status follow, an activity entry is logged and the remaining balance is not negative; refusals change nothing and the ledger is kept |
| NodePayments.PaidNonNegative | server/routes/payments.js:41-43 | with only positive payments recorded, no paid amount is negative |
| NodePayments.FindPayment | server/routes/payments.js:133-139 | the payment with the id when one exists, none exactly when none does |
| NodePayments.Without | server/routes/payments.js:154 | deleting a payment keeps exactly the others |
| NodePayments.UnpaidFallsBackToDraft | server/routes/payments.js:166-173 | with no payment left and a positive total the invoice falls back to 'draft', whatever status it had |
| NodePayments.WithoutElsewhere | server/routes/payments.js:154-160 | deleting a payment leaves the sums paid on other invoices unchanged |
| NodePayments.DeleteKeepsLedger | server/routes/payments.js:154-178 | recomputing the invoice's paid amount after a deletion keeps the ledger |
| NodePayments.CommitDeletion | server/routes/payments.js:154-180 | the payment goes and its invoice takes the recomputed sum and the new status, keeping the ledger |
| NodePayments.DeletePayment | server/routes/payments.js:124-194 | 404 for an unknown payment, 403 when its invoice is another user's; otherwise the payment goes, the invoice's paid amount is the sum of what remains and its status follows; refusals change nothing |
| NodePayments.DeleteUndoesRecord | server/routes/payments.js:78-84 | deleting a payment just recorded restores the payment table |
| NodeRecurring.ViewsOf | server/routes/recurring.js:9-15 | each profile is joined with its client's name, and nothing else is produced |
| NodeRecurring.ListProfiles | server/routes/recurring.js:6-20 | every listed row is one of the caller's profiles, every profile of the caller is listed, newest first, the later inserted first within a day |
| NodeRecurring.GetProfile | server/routes/recurring.js:23-47 | the caller's profile with exactly its items; 404 "Recurring profile not found" otherwise |
| NodeRecurring.NewProfile | server/routes/recurring.js:62-75 | the new profile runs first on its start date, has not run yet, and defaults its interval to 'month', its count to 1, its status to 'active', its total to 0 and automatic sending to false |
| NodeRecurring.CommitNewProfile | server/routes/recurring.js:77-90 | the profile and its items, in order, are committed together |
| NodeRecurring.CreateProfile | server/routes/recurring.js:50-98 | the profile is inserted under a fresh id with its items in order; any failing statement rolls both tables back with a 500 |
| NodeRecurring.RevisedProfile | server/routes/recurring.js:124-134 | an update keeps the profile's id, owner, next run and last run |
| NodeRecurring.CommitProfile | server/routes/recurring.js:148 | COMMIT writes the profile and the item table together |
| NodeRecurring.UpdateProfile | server/routes/recurring.js:101-156 | a foreign or missing profile is a 404 with nothing changed; otherwise its columns are replaced and, when the body has items, its items are replaced in order; a failing statement rolls back |
| NodeRecurring.DeleteProfile | server/routes/recurring.js:159-171 | "Recurring profile deleted" in every case; the caller's profile goes with its items, anything else stays |
| NodeRecurring.StatusOnlyInput | server/routes/recurring.js:100-105 | a body holding only the status gives the handler that status, no items, and nothing for every other column |
| NodeRecurring.ToggleNullsProfile | server/routes/recurring.js:124-133 | as written, a status-only PUT sets the client, interval, count, dates, total and sending flag to NULL, so a profile with a client does not survive it unchanged |
| NodeRecurring.KeptInput | server/routes/recurring.js:100-105 | the intended toggle body resends the profile's own columns with the new status and no items |
| NodeRecurring.ToggleKeepsProfile | server/routes/recurring.js:124-133 | with that body the update leaves the profile as it was except for its status and updated_at |
| NodeCompany.GetSettings | server/routes/company.js:6-40 | the user's settings row when one exists, the fixed defaults otherwise |
| NodeCompany.DefaultsAgreeWithNumbering | server/routes/company.js:24-27 | the defaults shown for a user without settings are the prefixes and starts the numbering uses |
| NodeCompany.SettingsKey | server/routes/company.js:66-69 | the id of the user's settings row, none exactly when the user has none |
| NodeCompany.KeyedRowIsRead | server/routes/company.js:9-12 | with one row per user, the row found by key is the one the settings read returns |
| NodeCompany.Upsert | server/routes/company.js:66-108 | a user without settings gets a new row; otherwise the existing row is changed in place; either way the settings read afterwards is the row written |
| NodeCompany.PutSettings | server/routes/company.js:43-114 | the user's settings become exactly the sixteen fields sent, in a new row or the existing one |
| NodeCompany.UploadLogo | server/routes/company.js:117-149 | 400 "Logo URL is required" for an empty URL; otherwise only the logo changes, in a new row holding nothing else or in the existing row |
| NodeCompany.LogoOnlyRowKeepsNumberingDefaults | server/routes/company.js:133-137 | a row created by the logo upload has no prefix or start, so numbering still uses INV, EST and 1000 |
| NodeAuth.FindByEmail | server/routes/auth.js:18 | the user with the email when one exists, none exactly when no user has it |
| NodeAuth.FoundIsKeyed | server/routes/auth.js:51-56 | with emails unique, looking a user's email up finds that user |
| NodeAuth.CommitUser | server/routes/auth.js:28-31 | the new user is stored under a fresh id and emails stay unique |
| NodeAuth.Register | server/routes/auth.js:13-44 | 400 "User already exists" for a known email with nothing stored; otherwise a new user with the hashed password under a fresh id and a token for that id |
| NodeAuth.Login | server/routes/auth.js:47-74 | a session with a token exactly when the email is known and the password matches its hash; every other refusal is the same 400 "Invalid credentials" |
| NodeAuth.LoginAfterRegister | server/routes/auth.js:13-74 | a registered user logs in with the password they registered |
| NodeAuth.WrongPasswordLooksUnknown | server/routes/auth.js:52-61 | a wrong password gets the same answer as an unknown email |
| NodeAuth.LatestReset | server/routes/auth.js:110-113 | the newest reset row with the token that has not expired, none exactly when no row qualifies |
| NodeAuth.RemoveReset | server/routes/auth.js:129 | deleting a reset row keeps exactly the others |
| NodeAuth.Rehashed | server/routes/auth.js:126 | only the named user's password hash changes |
| NodeAuth.ForgotPassword | server/routes/auth.js:77-103 | 404 "User not found" for an unknown email; otherwise one reset row for the user, with the token and an expiry one hour later |
| NodeAuth.FreshTokenAcceptedForAnHour | server/routes/auth.js:88-113 | a freshly issued token is the one accepted for an hour, and not after |
| NodeAuth.StorePassword | server/routes/auth.js:126 | the user's hash is replaced and nothing else changes |
| NodeAuth.ConsumeReset | server/routes/auth.js:129 | the used reset row goes |
| NodeAuth.ResetPassword | server/routes/auth.js:106-135 | 400 "Invalid or expired token" when no live row has the token; otherwise the row's user gets the new hash and the row is deleted, a failure between the two statements leaving the new hash in place |
| NodeAuth.TokenWorksOnce | server/routes/auth.js:110-129 | once its row is deleted, a token is refused at any later time |
| NodeAuth.LoginAfterReset | server/routes/auth.js:47-74 | after a reset the user logs in with the new password |
| Numbering.LatestNumber | server/services/numberingService.js:19-24 | none exactly when the user has no number starting with the prefix; otherwise the number of the highest such id |
| Numbering.NumberPart | server/services/numberingService.js:30 | what remains after removing the prefix once and every non-digit is a string of digits |
| Numbering.ParseDigits | server/services/numberingService.js:31 | parseInt of a digit string is NaN exactly for the empty string, otherwise the string's decimal value |
| Numbering.NextNumber | server/services/numberingService.js:26-34 | the prefix followed by the starting number when there is no earlier number, otherwise by the padded increment of the earlier number's digits |
| Numbering.Generate | server/services/numberingService.js:7-40 | the result starts with the configured prefix (default given) and, with no earlier number, carries the configured start (1000 by default) |
| Numbering.RemovePrefix | server/services/numberingService.js:30 | replace(prefix, '') on a string that starts with the prefix leaves the rest |
| Numbering.NextAfterFormatted | server/services/numberingService.js:26-34 | after a number the service wrote itself the next one is the following integer, padded to four digits |
| Numbering.FirstNumber | server/services/numberingService.js:26-34 | the first number is the prefix followed by the padded start |
| Numbering.NoDigitsGivesNaN | server/services/numberingService.js:30-34 | an earlier number with no digits after the prefix makes the next number the prefix followed by "0NaN" |
| Numbering.DigitsOfNaNText | server/services/numberingService.js:30 | the digits kept from "0NaN" are "0" |
| Numbering.RenderOne | server/services/numberingService.js:34 | 1 is padded to "0001" |
| Numbering.AfterNaNRestarts | server/services/numberingService.js:26-34 | after a "0NaN" number the sequence restarts at 0001 |
| Numbering.DigitsOfDashedNumber | server/services/numberingService.js:30 | removing the non-digits of "-1001" leaves "1001" |
| Numbering.DashDropped | server/services/numberingService.js:3-6 | after "INV-1001" with prefix "INV" comes "INV1002": the dash of the documented format does not survive |
| Numbering.NatToStringSmall | server/services/numberingService.js:34 | String of 1001 and 1002 |
| NodeNumbering.SettingsOf | server/services/numberingService.js:10-13 | the user's settings row when one exists, none exactly when the user has none |
| NodeNumbering.NextInvoiceNumber | server/services/numberingService.js:7-40 | the next invoice number starts with the user's invoice prefix and, with no earlier number, carries the configured start |
| NodeNumbering.NextEstimateNumber | server/services/numberingService.js:46-79 | the next estimate number starts with the user's estimate prefix and, with no earlier number, carries the configured start |
| NodeNumbering.FirstEstimateNumber | server/services/numberingService.js:54-73 | a user without settings or estimates gets "EST1000" |
| NodeNumbering.FirstInvoiceNumber | server/services/numberingService.js:15-34 | a user without settings or invoices gets "INV1000" |
| NodeNumbering.RenderThousand | server/services/numberingService.js:34 | 1000 is rendered "1000" |
| NodeReports.SqlSum | server/routes/reports.js:145 | `SUM` is NULL exactly when every value it ranges over is NULL |
| NodeReports.SqlSumPositive | server/routes/reports.js:177-182 | a `SUM` over a non-empty set of positive values is present and positive |
| NodeReports.SqlSumTotal | server/routes/reports.js:35 | with no NULL among them, `SUM` is the plain total of the values |
| NodeReports.PeriodWindow | server/routes/reports.js:8-30 | '30days' groups by day over 30 days, '3months' by week over 3 months, anything else by month, over 6 months unless it is '12months' |
| NodeReports.CountedRows | server/routes/reports.js:38-41 | exactly the user's invoices issued inside the window that are not cancelled |
| NodeReports.Buckets | server/routes/reports.js:33-37 | one aggregate row per period asked for, in that order |
| NodeReports.PeriodsOf | server/routes/reports.js:42-43 | the periods that hold some row, each once, ascending |
| NodeReports.Revenue | server/routes/reports.js:6-50 | a database failure answers 500; otherwise one aggregate per occupied period, in ascending period order, none empty, each the bucket of the invoices counted since the window's start |
| NodeReports.WindowStart | server/routes/reports.js:40 | `NOW() - INTERVAL` as a first day: n days back counts the n days ending today; n months back is the calendar subtraction, its day clamped to the month's end |
| NodeReports.ThirtyDayWindow | server/routes/reports.js:40 | with '30days' an invoice counts exactly when it is the user's, not cancelled and issued in the last 30 days, today included |
| NodeReports.SixMonthWindowClamps | server/routes/reports.js:27-40 | the default window on 2026-08-31 starts on 2026-03-01, the day after 2026-02-28, the clamped six-month subtraction |
| NodeReports.PeriodRows | server/routes/reports.js:32-43 | the rows of the grouped query: one per occupied period in ascending order, each the bucket of that period, none empty |
| NodeReports.BucketsOfPeriods | server/routes/reports.js:42-43 | over ascending occupied periods the buckets ascend, are non-empty and aggregate their own period |
| NodeReports.PeriodsCounted | server/routes/reports.js:42 | a period that holds some row has a positive count |
| NodeReports.CountKeyAt | server/routes/reports.js:42 | the group of any row's own key is not empty |
| NodeReports.BucketSums | server/routes/reports.js:36-37 | the buckets' counts and collected sums add up to the counts and paid sums over their periods |
| NodeReports.RevenuePartition | server/routes/reports.js:32-46 | over any window and grouping, the periods partition the counted invoices: the counts add up to their number and the collected sums to their total paid |
| NodeReports.AgeBracket | server/routes/reports.js:66-72 | each bracket holds exactly the due dates of its 30-day band; a NULL due date falls in '90+ days' |
| NodeReports.Age | server/routes/reports.js:66-72 | a bracket's place in the list of brackets |
| NodeReports.BracketsOnlyAge | server/routes/reports.js:66-72 | as the days pass an invoice never moves to a younger bracket |
| NodeReports.AgingRowsOf | server/routes/reports.js:58-74 | one row per invoice, its balance being total less paid |
| NodeReports.AgedInvoices | server/routes/reports.js:57-78 | exactly the user's sent, overdue and partially paid invoices with a balance left, by due date ascending with the undated last |
| NodeReports.AgingRows | server/routes/reports.js:57-79 | one row per aged invoice in the query's order, each with a positive balance, by due date ascending with the undated last |
| NodeReports.AgedOwe | server/routes/reports.js:77 | every aged invoice has a total and owes a positive amount |
| NodeReports.Position | server/routes/reports.js:83 | the group of a bracket, found exactly when it exists |
| NodeReports.GroupByBracket | server/routes/reports.js:82-93 | one group per bracket in the order brackets first appear, each holding its rows and their summed balance |
| NodeReports.AddRow | server/routes/reports.js:83-92 | one step keeps the groups exact for the rows seen so far |
| NodeReports.GroupSnoc | server/routes/reports.js:90-91 | a new row changes only its own bracket's group, by joining it |
| NodeReports.ExistingGroupGrows | server/routes/reports.js:90-91 | a row of a bracket already grouped joins that group |
| NodeReports.NewGroupGrows | server/routes/reports.js:83-89 | a row of a new bracket opens its group at the end |
| NodeReports.InvoiceAging | server/routes/reports.js:53-102 | a database failure answers 500; otherwise every aged row plus its bracket groups in first-seen order |
| NodeReports.GroupSums | server/routes/reports.js:82-93 | the groups' sizes and balances add up to the counts and sums over their brackets |
| NodeReports.AgingPartition | server/routes/reports.js:95-98 | the brackets partition the rows: group sizes add to the row count and bracket balances to the total balance |
| NodeReports.LatestIssue | server/routes/reports.js:118 | `MAX(issue_date)` is NULL over no invoice and otherwise the latest issue date |
| NodeReports.InvoicesOf | server/routes/reports.js:121 | exactly the invoices the join matches to the client |
| NodeReports.OutstandingIsBilledLessPaid | server/routes/reports.js:115-117 | when every invoice has a total, the outstanding balance is billed less paid |
| NodeReports.TotalDifference | server/routes/reports.js:117 | summing a difference is the difference of the sums |
| NodeReports.SummariesOf | server/routes/reports.js:110-123 | one summary per client, in order |
| NodeReports.ClientsOf | server/routes/reports.js:122 | exactly the user's clients |
| NodeReports.ClientSummaries | server/routes/reports.js:105-131 | a database failure answers 500; otherwise one summary per client of the user, each counting and billing exactly that client's invoices, by amount billed descending |
| NodeReports.SummariesCount | server/routes/reports.js:108-123 | every summary counts and bills exactly its own client's invoices |
| NodeReports.SortedSummariesCount | server/routes/reports.js:108-131 | after ordering by amount billed, every summary still counts and bills exactly its own client's invoices |
| NodeReports.MostBilledFirst | server/routes/reports.js:124 | `ORDER BY total_billed DESC`: the same summaries, by amount billed descending |
| NodeReports.StatusRows | server/routes/reports.js:142-148 | one row per status holding its count and the `SUM` of its totals |
| NodeReports.UserInvoices | server/routes/reports.js:147 | exactly the user's invoices |
| NodeReports.StatusStats | server/routes/reports.js:141-149 | the status groups are distinct and non-empty, and their counts cover every invoice of the user |
| NodeReports.StatusGroups | server/routes/reports.js:148 | grouping by the distinct statuses gives distinct non-empty groups covering every invoice |
| NodeReports.StatusCountsOver | server/routes/reports.js:144 | the rows' counts add up to the counts over their statuses |
| NodeReports.ClientStatsOf | server/routes/reports.js:165-171 | the active clients never outnumber the clients |
| NodeReports.OverdueInvoices | server/routes/reports.js:178-182 | exactly the user's sent or overdue invoices past due with a balance left |
| NodeReports.OverdueStatsOf | server/routes/reports.js:174-183 | the count is 0 exactly when no invoice is overdue, and then the amount is NULL; otherwise the amount is positive |
| NodeReports.OverdueIsAged | server/routes/reports.js:66-77 | every invoice the dashboard counts as overdue is listed by the ageing report, in a bracket past 'current' |
| NodeReports.Dashboard | server/routes/reports.js:134-195 | a database failure answers 500; otherwise the status groups, the monthly revenue and collection since last month's start, the client figures and the overdue figures |
| NodeReports.MonthRows | server/routes/reports.js:152-162 | one `{ month, revenue, collected }` row per revenue aggregate, in the same order |
| NodeReports.RecentMonths | server/routes/reports.js:152-162 | the months since last month's start that hold invoices, each with the sums of its invoices |
| NodeReports.MonthRowsOfBuckets | server/routes/reports.js:152-162 | ascending buckets give ascending month rows, each the month row of its bucket |
| NodeReports.ExportKindOf | server/routes/reports.js:200-259 | 'invoices' or no type selects the invoices export, 'clients' and 'products' theirs, anything else nothing |
| NodeReports.InvoiceRecord | server/routes/reports.js:208-219 | an invoice record carries exactly the invoice export's columns, in order |
| NodeReports.ClientRecord | server/routes/reports.js:230-236 | a client record carries exactly the client export's columns, in order |
| NodeReports.ProductRecord | server/routes/reports.js:246-250 | a product record carries exactly the product export's columns, in order |
| NodeReports.InvoiceRecords | server/routes/reports.js:207-224 | one record per invoice, in order |
| NodeReports.ClientRecords | server/routes/reports.js:229-240 | one record per client, in order |
| NodeReports.ProductRecords | server/routes/reports.js:245-254 | one record per product, in order |
| NodeReports.ExportRows | server/routes/reports.js:205-262 | every exported row carries the export's columns; row i is the record of the i-th invoice, client or product of the user, in the query's order |
| NodeReports.ExportedInvoices | server/routes/reports.js:207-223 | the user's invoices, each once, by issue date descending |
| NodeReports.ExportedClients | server/routes/reports.js:228-239 | the user's clients, each once, by name ascending with the unnamed last |
| NodeReports.ExportedProducts | server/routes/reports.js:244-253 | exactly the user's products, by name ascending with the unnamed last |
| NodeReports.Export | server/routes/reports.js:198-278 | an unknown type answers 400 before any query; a failure 500; otherwise JSON rows exactly when format is 'json', else the CSV of the rows under the type's file name |
| NodeReports.CsvExportReadsBack | server/routes/reports.js:264-273 | a CSV export reads back as its column names then each row's cells in column order; no rows give an empty file |
| Calendar.WeekStart | server/routes/reports.js:34 | truncating to the week gives the Monday that starts the date's week, no later than the date and less than 7 days before |
| Calendar.MonthsBackClamps | server/routes/reports.js:40 | six months back from 2026-08-31 is 2026-02-28: the day is clamped to the shorter month |
| Calendar.MonthsBackKeepsDay | server/routes/reports.js:40 | six months back from 2026-10-17 is 2026-04-17: the day is kept when the month has it |
| CsvHelper.CsvTextEncodesRecords | server/utils/csvHelper.js:6-26 | the text is the header line and one line per row, each the encoded cells in header order, joined by newlines |
| JsNumber.ParseIntOf | src/pages/Reports.tsx:97 | `parseInt(x.toString())` throws for null or a missing member, reads a text by its leading digits and a non-negative number as its integer part |
| JsNumber.ParseFloatOrZero | src/pages/Reports.tsx:61-62 | a missing or falsy value reads 0, any other as `parseFloat` reads it |
| InvoiceService.StoredBelongTo | backend/invoice-service/src/main.rs:195 | every item stored with an invoice carries that invoice's id |
| MockApi.WordEnd | src/lib/api.ts:65 | the run of `\w` characters matched by `\w+` ends at the first non-word character or at the end of the path |
| MockApi.DigitEnd | src/lib/api.ts:65 | the run of digits captured by `(\d+)` ends at the first non-digit or at the end of the path |
| MockApi.MatchAt | src/lib/api.ts:65 | a match of `/\/\w+\/(\d+)/` at a position captures a non-empty span of digits after it |
| MockApi.KeyOfResource | src/lib/api.ts:63 | `path.split('/')[1]` of `/<key>/...` is the key |
| MockApi.IdOfResource | src/lib/api.ts:65-67 | the id pattern finds the id in `/<key>/<id>` and in `/<key>/<id>/<action>` |
| MockApi.Find | src/lib/api.ts:67 | the index of the first item with the id, none exactly when no item has it |
| MockApi.Without | src/lib/api.ts:161 | exactly the items whose id differs, never more items than before |
| MockApi.WithoutAppend | src/lib/api.ts:161 | the filter keeps the items' order |
| MockApi.Merged | src/lib/api.ts:134 | the spread merge holds every key of either side, the data's value winning over the item's |
| MockApi.Posted | src/lib/api.ts:93 | the new item's id is the current time in milliseconds |
| MockApi.DemoGet | src/lib/api.ts:62-70 | without an id in the path the whole list; with one the first item carrying that id, or `{ error: 'Not found' }` when none does |
| MockApi.PostThenGet | src/lib/api.ts:62-95 | in demo mode a newly posted item is what a get of its id answers |
| MockApi.PutThenGet | src/lib/api.ts:128-137 | a demo put that keeps the id leaves the item where get finds it |
| MockApi.DeleteThenGet | src/lib/api.ts:158-162 | after a demo delete no item with the id is left for get to find |
| MockApi.Seed | src/lib/api.ts:24-56 | each seeded list numbers its items 1, 2, 3 in order |
| MockApi.SeedInvoice | src/lib/api.ts:27-29 | a seeded invoice carries its id |
| MockApi.SeedClient | src/lib/api.ts:34-36 | a seeded client carries its id |
| MockApi.SeedProduct | src/lib/api.ts:41-42 | a seeded product carries its id |
| MockApi.SeedEstimate | src/lib/api.ts:47-48 | a seeded estimate carries its id |
| MockApi.SeedRecurring | src/lib/api.ts:53 | a seeded profile carries its id |
| MockApi.SeedAbsent | src/lib/api.ts:25-31 | one guarded `setMockData` writes the key's seed list only when the key is absent and keeps every other list |
| MockApi.SeededKeys | src/lib/api.ts:24-56 | `initMockData` adds the five keys and no other |
| MockApi.SeededKeeps | src/lib/api.ts:24-56 | `initMockData` keeps every list already stored |
| MockApi.SeededLists | src/lib/api.ts:24-56 | each of the five keys that was absent holds its seed list afterwards |
| MockApi.KeysDiffer | src/lib/api.ts:25-51 | the five storage keys are different |
| MockApi.SeedIdsDistinct | src/lib/api.ts:26-54 | within every seeded list the ids are distinct |
| MockApi.DemoLoginIsDemo | src/lib/api.ts:112-116 | the token fabricated after a failed login is itself a demo token, so later calls run in demo mode |
| MockApi.ServerPost | src/lib/api.ts:98-123 | outside demo mode post answers the server's body on success; on any failure, an error answer included, the fabricated login for the auth paths and the appended mock item otherwise |
| MockApi.RefusalLooksUnreachable | src/lib/api.ts:108-111 | as written, an error answer from the server is answered exactly as an unreachable server is |
| MockApi.CheckedPost | src/lib/api.ts:98-123 | the corrected post: the server's body on success, a throw on an error answer, the mock fallback only when the server cannot be reached |
| MockApi.MockStore.constructor | src/lib/api.ts:12-21 | a store with no mock lists and the given saved token |
| MockApi.MockStore.Init | src/lib/api.ts:24-56 | the mock lists become those seeded by `initMockData` from the old ones |
| MockApi.MockStore.SeedIfAbsent | src/lib/api.ts:25-31 | one guarded seeding step on the stored lists |
| MockApi.MockStore.Forget | src/lib/api.ts:76-79 | a 401 answer clears the saved token, any other answer keeps it |
| MockApi.MockStore.Get | src/lib/api.ts:61-88 | in demo mode the demo lookup on the stored list; otherwise the server's body, or the stored list for the path's key on any failure; a 401 clears the token and any other answer keeps it |
| MockApi.MockStore.Append | src/lib/api.ts:94 | the key's list gets the new item at its end and the other lists stay |
| MockApi.MockStore.Post | src/lib/api.ts:89-124 | in demo mode, or on a failure off the auth paths, the item with a fresh id is appended to the key's list and answered; a success answers the server's body and leaves the lists; a failed login or registration answers a fabricated demo login; off the auth paths a 401 clears the token, which otherwise stays |
| MockApi.MockStore.Put | src/lib/api.ts:125-153 | in demo mode the first item with the id takes the data's fields, or `{ error: 'Not found' }` with nothing changed; otherwise the server's body, and a failure throws; a 401 clears the token, which otherwise stays |
| MockApi.MockStore.Delete | src/lib/api.ts:154-176 | in demo mode with an id every item with it is dropped and `{ success: true }` answered; otherwise the server's body, and a failure throws; a 401 clears the token, which otherwise stays |
| MockApi.MockStore.GetPdf | src/lib/api.ts:177-192 | the fixed demo blob in demo mode; otherwise the server's bytes or a failure, and a 401 clears the token |
| LineItems.Item.constructor | src/pages/InvoiceEditor.tsx:86 | a new item object holds exactly the given line's values |
| LineItems.Lines | src/pages/InvoiceEditor.tsx:305 | the values shown are those the item objects hold now, one per item, in order |
| LineItems.TotalAppend | src/pages/InvoiceEditor.tsx:102-104 | the total of two runs of items is the sum of their totals |
| LineItems.TotalIsSum | src/pages/InvoiceEditor.tsx:102-104 | the left-to-right `reduce` equals the sum of the amounts taken from the front |
| LineItems.TotalReplace | src/pages/InvoiceEditor.tsx:102-104 | replacing one line changes the total by the difference of the two amounts |
| LineItems.AddItem | src/pages/InvoiceEditor.tsx:83-88 | a copy of the items with one fresh blank item (no description, quantity 1, price 0) at the end |
| LineItems.AddKeepsTotal | src/pages/InvoiceEditor.tsx:83-104 | adding the blank item leaves the total unchanged |
| LineItems.Spliced | src/pages/InvoiceEditor.tsx:90-94 | `splice(index, 1)` on a copy removes exactly the item at the index, keeping the others in order, and removes nothing one past the end |
| LineItems.RemoveKeepsOthers | src/pages/InvoiceEditor.tsx:90-94 | removing item i leaves the items before it followed by those after it |
| LineItems.RemoveTotal | src/pages/InvoiceEditor.tsx:90-104 | removing an item lowers the total by that item's amount |
| LineItems.SplitTotal | src/pages/InvoiceEditor.tsx:102-104 | the total is the total before an item, plus its amount, plus the total after it |
| LineItems.LinesSpliced | src/pages/InvoiceEditor.tsx:90-94 | the values after removing an item object are the old values with that one removed |
| LineItems.Applied | src/pages/InvoiceEditor.tsx:96-100 | an edit sets exactly the named field: the description, the quantity or the unit price |
| LineItems.UpdateItem | src/pages/InvoiceEditor.tsx:96-100 | the new array holds the same objects; the edit is written into the object at the index, so every slot holding that object sees it and the others keep their values; an index with no item throws |
| LineItems.UpdateOneLine | src/pages/InvoiceEditor.tsx:96-104 | with distinct item objects an edit changes exactly one line, and the total by the difference of its amounts |
| LineItems.SuggestedLines | src/pages/InvoiceEditor.tsx:140-144 | one line per suggestion with its description, the quantity defaulting to 1 and the price to 0 when missing or zero |
| LineItems.NewItems | src/pages/InvoiceEditor.tsx:140-145 | fresh item objects holding the given lines in order |
| LineItems.AiDescribe | src/pages/InvoiceEditor.tsx:134-153 | blank notes or an answer without items change nothing; otherwise the suggested lines follow the unchanged existing items and the notes are cleared |
| LineItems.AiTotal | src/pages/InvoiceEditor.tsx:102-145 | after the AI merge the total is the old total plus the suggestions' total |
| LineItems.LinesJson | src/pages/InvoiceEditor.tsx:114-119 | the payload holds one item object per line, in order |
| LineItems.LineOf | src/pages/InvoiceEditor.tsx:71 | a loaded item keeps its description and takes the parsed quantity and unit price |
| LineItems.LinesOf | src/pages/InvoiceEditor.tsx:71 | every item read in order, and none exactly when some item cannot be read |
| LineItems.LinesRoundTrip | src/pages/InvoiceEditor.tsx:71-119 | the items a payload sends read back as the same lines |
| LineItems.LineRoundTrip | src/pages/InvoiceEditor.tsx:71-119 | one sent item reads back as its line |
| InvoiceEditor.DueDateOffset | src/pages/InvoiceEditor.tsx:38 | a new estimate starts due 30 days after today, a new invoice 7 days after today |
| InvoiceEditor.ClientIdJson | src/pages/InvoiceEditor.tsx:116 | `parseInt` of the chosen client is sent as its number, and as null exactly when the text does not parse |
| InvoiceEditor.PayloadObject | src/pages/InvoiceEditor.tsx:114-119 | the payload spreads the form's fields, sends the computed client id, items and total, and repeats the due date as `expiry_date` exactly for an estimate |
| InvoiceEditor.Payload | src/pages/InvoiceEditor.tsx:114-119 | the payload's total is the items' total, its client id the parsed client, its items the form's lines, and an estimate carries the due date as `expiry_date` |
| InvoiceEditor.Save | src/pages/InvoiceEditor.tsx:106-126 | nothing is sent without a client; otherwise the payload is PUT to the document when a route id is present and POSTed to the collection otherwise |
| InvoiceEditor.ClientIdText | src/pages/InvoiceEditor.tsx:67 | a missing or null client id shows as empty text, an integer one as its decimal text |
| InvoiceEditor.TextOrEmpty | src/pages/InvoiceEditor.tsx:72-73 | a missing or falsy note shows as empty text, a string as itself |
| InvoiceEditor.Loaded | src/pages/InvoiceEditor.tsx:62-74 | none when the page throws (no object, a bad date); otherwise none only for a client, status, item list, notes or terms the model does not render; a form shows the parsed items, the expiry or due date, and the notes and terms or empty text |
| InvoiceEditor.NotFoundIsNotLoaded | src/pages/InvoiceEditor.tsx:65-77 | the demo answer `{ error: 'Not found' }` cannot be shown as a document |
| InvoiceEditor.LoadedFields | src/pages/InvoiceEditor.tsx:66-74 | a document whose fields each read as the form's opens as that form |
| InvoiceEditor.SaveThenLoad | src/pages/InvoiceEditor.tsx:62-126 | what the demo store keeps for a saved form opens as the same form, given dates the conversion leaves alone and a client from the list |
| InvoiceEditor.StoredMembers | src/pages/InvoiceEditor.tsx:114-119 | the stored payload holds the client, items, status, dates, notes and terms it was given, and `expiry_date` exactly for an estimate |
| InvoiceEditor.ClientIdReadBack | src/pages/InvoiceEditor.tsx:67-116 | a client id sent as a number shows back as the same text |
| InvoiceEditor.SavedTotalIsKept | src/pages/InvoiceEditor.tsx:117 | the demo store keeps the total the editor computed |
| MicroInvoiceEditor.PayloadObject | micro/src/pages/InvoiceEditor.tsx:88-93 | the payload holds exactly the form's client, status, due date and items with the computed total and user 1 |
| MicroInvoiceEditor.Payload | micro/src/pages/InvoiceEditor.tsx:88-93 | the payload's client id is the parsed client, its total the items' total, its user 1 |
| MicroInvoiceEditor.Save | micro/src/pages/InvoiceEditor.tsx:85-99 | the form is always sent, PUT to the invoice when a route id is present and POSTed to the collection otherwise |
| MicroInvoiceEditor.SavesWithoutClient | micro/src/pages/InvoiceEditor.tsx:85-93 | without a client the invoice is still sent, its client id travelling as null |
| MicroInvoiceEditor.ClientIdText | micro/src/pages/InvoiceEditor.tsx:50 | `toString` of a missing or null client id throws, an integer one shows as its decimal text |
| MicroInvoiceEditor.Loaded | micro/src/pages/InvoiceEditor.tsx:45-54 | none when the page throws (no object, no client, a bad date, items that are no array); otherwise none only for a client, status or item list the model does not render; a form shows the parsed items and the due day |
| MicroInvoiceEditor.PayloadMembers | micro/src/pages/InvoiceEditor.tsx:88-93 | the saved payload's client, items, status and due date members |
| MicroInvoiceEditor.PayloadReadable | micro/src/pages/InvoiceEditor.tsx:50-93 | each member of the saved payload reads back as the form's value |
| MicroInvoiceEditor.LoadedMembers | micro/src/pages/InvoiceEditor.tsx:45-54 | a payload whose members hold a form's values, echoed back with any id added, opens as that form |
| MicroInvoiceEditor.SaveThenLoad | micro/src/pages/InvoiceEditor.tsx:45-99 | a saved invoice with a chosen client, echoed back with any id added, opens as the same form |
| RecurringEditor.InitialForm | src/pages/RecurringInvoiceEditor.tsx:27-36 | a new profile is monthly, every 1, active, not sent automatically, starts today and has no end and no items |
| RecurringEditor.PayloadObject | src/pages/RecurringInvoiceEditor.tsx:105-110 | the payload spreads the form's interval, count, dates, status and flag, with the computed client id, items, total and user 1 |
| RecurringEditor.Payload | src/pages/RecurringInvoiceEditor.tsx:105-110 | the payload's client id is the parsed client, its total the items' total, its user 1 |
| RecurringEditor.Save | src/pages/RecurringInvoiceEditor.tsx:97-116 | nothing is sent without a client; otherwise PUT to the profile when a route id is present and POST to the collection otherwise |
| RecurringEditor.EndDateOf | src/pages/RecurringInvoiceEditor.tsx:61 | a missing or falsy end date shows as empty text, another as its day |
| RecurringEditor.Loaded | src/pages/RecurringInvoiceEditor.tsx:52-65 | none when the page throws (no object, no client, a bad start or end date, items that are no array); otherwise none only for a field the model does not render; a form shows the start day, the end day or nothing, and the parsed items |
| RecurringEditor.PayloadMembers | src/pages/RecurringInvoiceEditor.tsx:105-110 | the saved payload's members hold the form's values |
| RecurringEditor.PayloadReadable | src/pages/RecurringInvoiceEditor.tsx:56-110 | each member of the saved payload reads back as the form's value |
| RecurringEditor.LoadedMembers | src/pages/RecurringInvoiceEditor.tsx:52-65 | a payload whose members hold a form's values, echoed back with any id added, opens as that form |
| RecurringEditor.SaveThenLoad | src/pages/RecurringInvoiceEditor.tsx:52-116 | a saved profile with a chosen client and a count, kept by the demo store, opens as the same form |
| RecurringEditor.Summary | src/pages/RecurringInvoiceEditor.tsx:339 | "every N interval", with a plural 's' exactly when the count is above 1, and 'NaN' for a missing count |
| RecurringList.Toggled | src/pages/RecurringInvoices.tsx:49 | the new status always differs from the current one: 'paused' exactly when it was 'active', 'active' otherwise |
| RecurringList.ToggleTwice | src/pages/RecurringInvoices.tsx:49 | pausing and resuming undo each other; any other status toggled twice ends 'paused' |
| RecurringList.ToggleRequest | src/pages/RecurringInvoices.tsx:48-51 | a PUT to the profile whose body holds the new status and nothing else |
| RecurringList.ToggleInDemo | src/pages/RecurringInvoices.tsx:51 | in demo mode the stored profile's status flips and every other field stays |
| RecurringList.IntervalLabel | src/pages/RecurringInvoices.tsx:58-62 | 'Every month' for a count of exactly 1, 'Every N months' for any other count |
| RecurringList.LabelAgreesWithSummary | src/pages/RecurringInvoices.tsx:58-62 | the list's label and the editor's summary agree on the plural for counts of at least 1 and disagree below 1 |
| RecurringList.LastRunText | src/pages/RecurringInvoices.tsx:142 | the formatted last run when the profile has run, the placeholder otherwise |
| RecurringList.AfterDelete | src/pages/RecurringInvoices.tsx:38-46 | unconfirmed or failed deletes keep the rows; otherwise exactly the rows without the id remain, and no row appears |
| RecurringList.DeleteRemovesOne | src/pages/RecurringInvoices.tsx:38-46 | deleting a profile listed once removes exactly that row and keeps the others in order |
| RecurringList.WithoutMatch | src/pages/RecurringInvoices.tsx:42 | the filter drops a leading row carrying the id and keeps the rows after it that do not |
| RecurringList.WithoutNone | src/pages/RecurringInvoices.tsx:42 | filtering rows none of which carries the id keeps them all |
| Search.MentionsEmpty | src/pages/Clients.tsx:132-135 | the empty search occurs in every text |
| Search.VisibleAsWritten | src/pages/Clients.tsx:132-135 | the row test throws exactly when the name misses and the second field is null; otherwise it says whether the name or the second field contains the search, ignoring case |
| Search.ShownAsWritten | src/pages/Clients.tsx:132-135 | the filter as written throws exactly when some row's test throws, and otherwise shows the rows the null-safe filter shows |
| Search.Shown | src/pages/Clients.tsx:132-135 | the null-safe filter shows exactly the rows whose name or second field contains the search |
| Search.EmptySearchShowsAll | src/pages/Clients.tsx:132-135 | the empty search shows every row without reading the second field |
| Search.SearchCrashesOnNull | src/pages/Clients.tsx:132-135 | a search that misses the name of a row whose second field is null makes the page throw |
| EstimatesPage.Shown | src/pages/Estimates.tsx:80-86 | exactly the estimates passing both the search and the status test |
| EstimatesPage.NoFilterShowsAll | src/pages/Estimates.tsx:80-86 | with no search and no status chosen every estimate is listed, in the order loaded |
| EstimatesPage.ShownKeepsOrder | src/pages/Estimates.tsx:80-86 | the filter keeps the loaded order |
| EstimatesPage.SearchIgnoresCase | src/pages/Estimates.tsx:81-83 | typing the search in lower case shows the same estimates |
| EstimatesPage.Actions | src/pages/Estimates.tsx:174-218 | a converted estimate only says so; any other offers Edit and Delete, and Convert exactly when it is accepted |
| EstimatesPage.ActionsMatchServer | src/pages/Estimates.tsx:174-186 | Edit is offered on exactly the estimates the server lets their owner update, and Convert only on ones it lets the owner convert |
| EstimatesPage.ConvertRequest | src/pages/Estimates.tsx:68-71 | nothing unless confirmed; then a POST with an empty body to the estimate's convert path |
| EstimatesPage.ConvertNotice | src/pages/Estimates.tsx:72-77 | the success notice exactly when the call returns, the fixed failure text when it throws |
| EstimatesPage.RefusedConversionReportsSuccess | src/pages/Estimates.tsx:68-77 | as written, an estimate the server refuses as already converted is still reported converted |
| EstimatesPage.RefusedConversionReported | src/pages/Estimates.tsx:68-77 | with the checked post, the notice says converted exactly when the server converted it or could not be reached |
| EstimatesPage.AfterDelete | src/pages/Estimates.tsx:57-66 | nothing changes unless the delete is confirmed and the call returns; then exactly the estimates with another id remain |
| EstimatesPage.DeleteRemovesOne | src/pages/Estimates.tsx:57-66 | deleting the one estimate with an id leaves the others in their order |
| InvoicesPage.Shown | src/pages/Invoices.tsx:56-58 | every invoice for 'all'; otherwise exactly the invoices with the chosen status, as many as there are |
| InvoicesPage.ShownKeepsOrder | src/pages/Invoices.tsx:56-58 | filtering keeps the list's order: the filter of two lists joined is the two filters joined |
| InvoicesPage.ViewsPartition | src/pages/Invoices.tsx:56-76 | when every invoice has one of the four offered statuses, the four filtered views together list each invoice exactly once |
| InvoicesPage.DisplayId | src/pages/Invoices.tsx:102 | '#' followed by the id padded to at least four digits, five characters for ids below 10000 |
| InvoicesPage.PadLength | src/pages/Invoices.tsx:102 | an id below 10000 has at most four digits, so padding fills it to four |
| InvoicesPage.DigitCount | src/pages/Invoices.tsx:102 | a number below 10^k has at most k digits |
| InvoicesPage.DisplayIdDistinct | src/pages/Invoices.tsx:102 | different invoices never show the same number |
| InvoicesPage.DisplayIdValue | src/pages/Invoices.tsx:102 | the padded digits still denote the id |
| InvoicesPage.PdfName | src/pages/Invoices.tsx:38 | the file name is 'invoice-', digits denoting the id, then '.pdf' |
| InvoicesPage.SendRequest | src/pages/Invoices.tsx:45-48 | nothing unless confirmed; then a POST with an empty body to the invoice's send path |
| InvoicesPage.SendNotice | src/pages/Invoices.tsx:48-53 | the success notice exactly when the call returns, the failure text when it throws |
| InvoicesPage.FailedSendReportsSuccess | src/pages/Invoices.tsx:45-53 | as written, an invoice the server fails to send is still reported as sent |
| InvoicesPage.FailedSendReported | src/pages/Invoices.tsx:45-53 | with the checked post, the notice says sent exactly when the server sent it or could not be reached |
| ClientsPage.BlankForm | src/pages/Clients.tsx:98-109 | the blank form has empty text, 30-day terms and status 'active' |
| ClientsPage.EditForm | src/pages/Clients.tsx:117-128 | the edit form holds the client's name and email, '' for each missing text field, 30 for missing or zero terms and 'active' for no status |
| ClientsPage.EditFormKeepsClient | src/pages/Clients.tsx:117-128 | a client with every field, non-zero terms and a status opens with exactly its own values |
| ClientsPage.ZeroTermsOpenAsDefault | src/pages/Clients.tsx:125 | net-0 terms open as 30 days, since a falsy-or-default cannot tell zero from missing |
| ClientsPage.SaveRequest | src/pages/Clients.tsx:66-75 | the form is PUT to the client being edited and POSTed to the collection otherwise |
| ClientsPage.FormJson | src/pages/Clients.tsx:23-32 | the body holds exactly the form's eight fields |
| ClientsPage.Location | src/pages/Clients.tsx:197 | a missing or empty address shows 'Remote' |
| ClientsPage.LocationIsFirstPart | src/pages/Clients.tsx:197 | an address shows the part before its first comma, and one without a comma shows whole |
| ClientsPage.TermsText | src/pages/Clients.tsx:217 | the terms cell is the terms, or 30 when missing or zero, followed by ' Days' |
| ClientsPage.BadgeMatchesText | src/pages/Clients.tsx:221-222 | badge and text agree for a client with a status; one without reads 'active' in the inactive style |
| ClientsPage.ShownAsWritten | src/pages/Clients.tsx:132-135 | the filter as written throws exactly when a client whose name misses the search has no email; otherwise it shows exactly the matching clients |
| ClientsPage.Shown | src/pages/Clients.tsx:132-135 | with a missing email matching nothing, exactly the clients whose name or email contains the search |
| ClientsPage.DemoAddIsInvisible | src/pages/Clients.tsx:42-54 | as written, with a demo token the list fetched after adding a client equals the list fetched before, and holds no row with the new id |
| ClientsPage.Fetched | src/pages/Clients.tsx:42-54 | with a demo token the fixed eight clients whatever the store holds; otherwise the server's answer, or the list shown before when the request fails |
| ClientsPage.DemoAddShowsThroughStore | src/pages/Clients.tsx:42-59 | read through the demo store, as the other pages do, the list holds the client just added |
| ProductsPage.PriceText | src/pages/Products.tsx:158 | a text price edits as itself, and a null price throws |
| ProductsPage.EditForm | src/pages/Products.tsx:158 | the edit form opens exactly when the price can be turned into text, with the product's name, price text and description, and carries the product's id and every other column it was read with |
| ProductsPage.Payload | src/pages/Products.tsx:53 | the body holds every field the form carried plus the three edited ones, the edited fields taking the form's values and the rest keeping theirs |
| ProductsPage.Edited | src/pages/Products.tsx:53 | the three edited fields: the name, the description (null when missing) and the parsed price, null when the price is no number |
| ProductsPage.NewServiceSendsFormFields | src/pages/Products.tsx:50-58 | a new service sends exactly name, unit_price and description |
| ProductsPage.EditSendsWholeRow | src/pages/Products.tsx:53-158 | saving an edited service sends its id and every other column of the row unchanged beside the edited fields |
| ProductsPage.SpreadRow | src/pages/Products.tsx:53 | spreading a row with its id under the edited fields keeps the id and every other column and adds the edited keys |
| ProductsPage.SaveRequest | src/pages/Products.tsx:50-60 | the payload is PUT to the product being edited and POSTed to the collection otherwise |
| ProductsPage.EditThenSaveKeepsDecimalPrice | src/pages/Products.tsx:53-158 | a price held as database decimal text opens as text that reads back as the same value, which `SavedTextPrice` then sends as a number |
| ProductsPage.SavedTextPrice | src/pages/Products.tsx:53-158 | a text price that parses to v is saved as v |
| ProductsPage.EditThenSaveKeepsWholePrice | src/pages/Products.tsx:53-158 | a whole-number price is saved unchanged |
| ProductsPage.DescriptionText | src/pages/Products.tsx:148 | the description, or 'No description provided' when it is missing or empty |
| ProductsPage.ShownAsWritten | src/pages/Products.tsx:83-86 | the filter as written throws exactly when a product whose name misses the search has no description; otherwise it shows exactly the matching products |
| ProductsPage.Shown | src/pages/Products.tsx:83-86 | with a missing description matching nothing, exactly the products whose name or description contains the search |
| ProductsPage.DemoAddIsInvisible | src/pages/Products.tsx:28-38 | as written, with a demo token the catalogue fetched after adding a service equals the one fetched before, and holds no row with the new id |
| ProductsPage.Fetched | src/pages/Products.tsx:28-38 | with a demo token the fixed six services whatever the store holds; otherwise the server's answer, or the catalogue shown before when the request fails |
| ProductsPage.DemoAddShowsThroughStore | src/pages/Products.tsx:28-43 | read through the demo store the catalogue holds the service just added |
| Dashboard.MainTotal | src/pages/Dashboard.tsx:50 | `parseFloat(inv.total.toString())` throws only where the invoice has no numeric or text total |
| Dashboard.MicroTotal | micro/src/pages/Dashboard.tsx:20 | `parseFloat(inv.total)` throws exactly for a null invoice; a missing or null total is NaN, and any present total reads as `parseFloat` reads its text |
| Dashboard.Revenue | src/pages/Dashboard.tsx:50 | the sum throws exactly when some invoice's total throws, and is NaN exactly when none throws and some total is NaN |
| Dashboard.SumSnoc | src/pages/Dashboard.tsx:50 | adding one more total to the sum adds it |
| Dashboard.RevenueIsSum | src/pages/Dashboard.tsx:50 | when every invoice has a finite total the revenue card shows their sum |
| Dashboard.Recent | src/pages/Dashboard.tsx:56 | the first five invoices, or all of them when there are fewer |
| Dashboard.Computed | src/pages/Dashboard.tsx:47-58 | the counts of the loaded invoices and clients, their revenue and the first five invoices; when a total throws the cards keep their zeros |
| Dashboard.MainStats | src/pages/Dashboard.tsx:24-58 | a demo token shows the fixed 24 invoices, 8 clients and 18360.50 revenue with five listed invoices; otherwise the computed figures |
| Dashboard.MicroStats | micro/src/pages/Dashboard.tsx:15-28 | the micro dashboard shows the computed figures in every mode |
| Dashboard.DemoRevenueIsListedSum | src/pages/Dashboard.tsx:29-40 | the fixed demo revenue is the sum of the five listed invoices |
| Dashboard.NullTotalDiffers | src/pages/Dashboard.tsx:50 | an invoice without a total leaves the main dashboard at its zeros, while the micro one shows NaN revenue |
| JsNumber.Plus | src/pages/Dashboard.tsx:50 | JavaScript addition: NaN exactly when either side is, otherwise the sum |
| JsNumber.ParsedNum | src/pages/Dashboard.tsx:50 | `parseFloat` of text is NaN exactly when the text does not start with a number, otherwise that number |
| JsNumber.IntNum | src/pages/InvoiceEditor.tsx:116 | `parseInt` of text is NaN exactly when the text does not start with digits |
| JsNumber.ParseFloatOf | micro/src/pages/Dashboard.tsx:20 | `parseFloat` of a value reads null or a missing member as NaN, a number as itself and text as parsed |
| JsNumber.ParseFloatValue | micro/src/pages/Dashboard.tsx:20 | `parseFloat` of any present value agrees with the reading of a number, text or null, and is NaN for a boolean, an object and an empty array |
| JsNumber.DecimalJson | src/pages/Reports.tsx:8-11 | a NUMERIC column or sum arrives as null exactly when it is NULL, and otherwise as truthy two-place decimal text |
| JsNumber.DecimalReadsBack | server/routes/payments.js:63-64 | `parseFloat` of a NUMERIC value in whole cents, as the driver sends it, is that value; of NULL it is NaN |
| JsNumber.DecimalOrZero | src/pages/InvoiceView.tsx:89-90 | `parseFloat(x \|\| 0)` of a NUMERIC value in whole cents is that value; of NULL it is 0 |
| Text.ParseFloatOfCents | server/routes/payments.js:63-64 | the two-place text of a value in whole cents reads back through `parseFloat` as the value |
| Text.ParseFloatSigned | server/routes/payments.js:63-64 | a '-' before text that starts with a digit negates what `parseFloat` reads, and no sign keeps it |
| Text.ParseFloatOfCentCount | server/routes/payments.js:63-64 | a count of cents written as its whole part, '.' and two digits reads back as that many hundredths |
| Text.ParseFloatOfCentsDigits | server/routes/payments.js:63-64 | the digits of a non-negative value in whole cents read back as the value |
| Text.WholeCentsNegated | server/routes/payments.js:63-65 | the negation of a value in whole cents is in whole cents |
| Text.WholeCentsAdded | server/routes/payments.js:63-65 | the sum of two values in whole cents is in whole cents |
| InvoiceViewPage.Field | src/pages/InvoiceView.tsx:83-90 | a member is read exactly when the value is an object holding it |
| InvoiceViewPage.Or | src/pages/InvoiceView.tsx:83-90 | JavaScript's logical or: the first value when it is truthy, the second otherwise |
| InvoiceViewPage.DataOf | src/pages/InvoiceView.tsx:82-91 | the template's data: the invoice number or else the id, the issue date or else the creation date, the parsed total, the subtotal or else the total, and 0 for a missing tax or discount |
| InvoiceViewPage.TemplateOf | src/pages/InvoiceView.tsx:93-97 | the professional and creative templates exactly for their names; any other or missing name shows the minimalist one |
| InvoiceViewPage.LoadedClient | src/pages/InvoiceView.tsx:21-38 | a null answer throws; a truthy `client_id` shows the joined client columns, otherwise the client shown before stays |
| InvoiceViewPage.ShownClient | src/pages/InvoiceView.tsx:137 | the loaded client, or the 'Unknown Client' placeholder |
| InvoiceViewPage.Actions | src/pages/InvoiceView.tsx:110-130 | Edit and Print always; Send and Mark Paid exactly when the status is not 'paid' |
| InvoiceViewPage.PageOf | src/pages/InvoiceView.tsx:79-137 | 'Loading...' exactly while loading, 'Invoice not found' for a falsy invoice, otherwise the template with the invoice's data, client and actions |
| InvoiceViewPage.MarkPaidBodyAsWritten | src/pages/InvoiceView.tsx:54-63 | as written the body asks for the whole total, with today's date, method 'Manual' and the fixed note |
| InvoiceViewPage.Received | server/routes/payments.js:39-65 | the server reads the body's `amount` as `parseFloat` does: a number as itself, text as parsed, and nothing when it is missing |
| InvoiceViewPage.ServerInvoiceData | src/pages/InvoiceView.tsx:82-91 | for an invoice the server serves, with its money columns as decimal text, the heading is the non-empty invoice number or else the id, a NULL subtotal shows the total while a zero one ('0.00', which is truthy) shows 0, and a NULL tax or discount shows 0 |
| InvoiceViewPage.RowData | src/pages/InvoiceView.tsx:82-91 | the same for any object whose members are those of an invoice row |
| InvoiceViewPage.ServerInvoiceClient | src/pages/InvoiceView.tsx:25-34 | an invoice with a client shows the joined name, email and address; one without shows the 'Unknown Client' placeholder |
| InvoiceViewPage.MarkPaidOverpays | src/pages/InvoiceView.tsx:54-63 | on a partly paid invoice Mark Paid is offered yet asks for the whole total, which the server refuses as an overpayment |
| InvoiceViewPage.MarkPaidBody | src/pages/InvoiceView.tsx:54-63 | the corrected body keeps today's date, method 'Manual' and the fixed note, and asks for the balance whenever the total and the paid amount both read as numbers |
| InvoiceViewPage.BalancePaymentSettles | src/pages/InvoiceView.tsx:54-63 | paying the balance of an invoice not yet settled, whose total and paid amount read as numbers, posts exactly that balance, passes the server's checks and leaves it 'paid' |
| InvoiceViewPage.ServerReadings | src/pages/InvoiceView.tsx:59 | the server's invoice total and paid amount, sent as two-place decimal text, read back through `parseFloat` as themselves, so `BalancePaymentSettles` applies to the invoice the server sends |
| InvoiceViewPage.DecimalReading | src/pages/InvoiceView.tsx:59 | any member sent as two-place decimal text reads back as its value |
| InvoiceViewPage.BalanceSettles | server/routes/payments.js:41-91 | a payment of the balance is a positive amount, does not overpay and brings the status to 'paid' |
| InvoiceViewPage.DueOfReadings | src/pages/InvoiceView.tsx:59 | the balance is the difference of whatever the total and paid amount read as, when both are numbers |
| InvoiceViewPage.BalanceOfReadings | src/pages/InvoiceView.tsx:59-62 | the corrected body posts that balance as a number, which the record handler reads as itself |
| InvoiceViewPage.PaidOffersNoPayment | src/pages/InvoiceView.tsx:122 | once the server records 'paid', the reloaded page offers neither Send nor Mark Paid |
| ReportsPage.Reduce | src/pages/Reports.tsx:102 | the running sum from 0 is NaN exactly when some term is |
| ReportsPage.ReduceFinite | src/pages/Reports.tsx:102 | over finite terms the running sum is their plain sum |
| ReportsPage.SliceOf | src/pages/Reports.tsx:95-99 | a status group is charted only when it is an object with a non-null count, since `count.toString()` throws otherwise |
| ReportsPage.SlicesOf | src/pages/Reports.tsx:95-99 | the map throws exactly when one group does; otherwise one slice per group, in order |
| ReportsPage.OverdueOf | src/pages/Reports.tsx:103 | a null or missing `overdue_stats` throws; otherwise its amount, with a missing or falsy one read as 0 |
| ReportsPage.ShownOf | src/pages/Reports.tsx:95-161 | the page is drawn exactly when the groups, the overdue figure and the client figures all read; the invoice count and revenue cards are the sums of the groups' counts and amounts |
| ReportsPage.RenderedAsWritten | src/pages/Reports.tsx:90-103 | 'Loading...' exactly while the stats are falsy; any other answer that is not an object with an `invoice_stats` array throws |
| ReportsPage.MockStatsCrash | src/pages/Reports.tsx:44-103 | the list the mock data answers, in demo mode or with the server down, makes the page throw |
| ReportsPage.Rendered | src/pages/Reports.tsx:90-103 | the corrected render keeps 'Loading...' up for an answer without an `invoice_stats` array and otherwise draws as before |
| ReportsPage.MockStatsWait | src/pages/Reports.tsx:90-103 | with the corrected guard the mock answers leave the page waiting instead of broken |
| ReportsPage.RowsJson | server/routes/reports.js:186-191 | one JSON object per status group row, in order |
| ReportsPage.Decoded | src/pages/Reports.tsx:95-99 | a server group reads as its count, and as NaN amount exactly for a NULL sum |
| ReportsPage.SliceOfRow | src/pages/Reports.tsx:95-99 | each group row the server sends reads as its decoded slice |
| ReportsPage.OverdueRead | src/pages/Reports.tsx:103 | an overdue sum sent as decimal text reads as itself, a NULL one as 0 |
| ReportsPage.ShownFromMembers | src/pages/Reports.tsx:90-103 | a stats object whose members read without throwing is drawn |
| ReportsPage.ServerStatsShown | src/pages/Reports.tsx:90-161 | the server's answer, its sums sent as decimal text, is drawn: its groups as the slices, the cards as their sums, a NULL overdue sum as 0 |
| ReportsPage.DashboardInCents | server/routes/reports.js:139-191 | with every invoice's money in whole cents, the status sums and the overdue sum of the answer are in whole cents |
| ReportsPage.StatusRowsInCents | server/routes/reports.js:141-149 | the `SUM(total)` of every status group of totals in whole cents is in whole cents |
| ReportsPage.OverdueInCents | server/routes/reports.js:174-183 | the overdue `SUM(total - paid_amount)` of an answer over amounts in whole cents is in whole cents |
| ReportsPage.SqlSumCents | server/routes/reports.js:145 | a SQL `SUM` of values in whole cents is in whole cents, or NULL |
| ReportsPage.BalanceCents | server/routes/reports.js:177 | a balance `total - paid_amount` of amounts in whole cents is in whole cents |
| ReportsPage.InvoiceCountMatches | src/pages/Reports.tsx:137 | with every invoice's money in whole cents, the 'Total Invoices' card is the number of the user's invoices |
| ReportsPage.InvoiceCountOf | src/pages/Reports.tsx:137 | for the server's status groups the count card is the number of the user's invoices |
| ReportsPage.CountsAdd | src/pages/Reports.tsx:137 | adding up the groups' counts gives the sum of the rows' counts |
| ReportsPage.RevenueCoversEveryStatus | src/pages/Reports.tsx:102 | the 'Total Revenue' card sums every status, drafts and cancelled invoices included: with every total present and in whole cents it is the sum of all the user's totals |
| ReportsPage.TotalRevenueOf | src/pages/Reports.tsx:102 | for the server's status groups the revenue card is the sum of all the user's totals |
| ReportsPage.GroupSums | src/pages/Reports.tsx:102 | summing the groups' amounts gives the sum of the group sums |
| ReportsPage.AmountsSplit | src/pages/Reports.tsx:102 | the first group's amount is its sum and the others are the remaining groups' amounts |
| ReportsPage.GroupSum | server/routes/reports.js:141-149 | a non-empty group's SQL sum over non-NULL totals is the sum of its totals |
| ReportsPage.ToneOf | src/pages/Reports.tsx:157 | the overdue figure is red exactly when it is a positive number |
| ReportsPage.OverdueAlarm | src/pages/Reports.tsx:157 | with every invoice's money in whole cents, the overdue figure turns red exactly when the user has an invoice the server counts as overdue |
| ReportsPage.OverdueToneOf | src/pages/Reports.tsx:157 | for the server's overdue figures the tone is red exactly when some invoice is overdue |
| ReportsPage.MonthOf | src/pages/Reports.tsx:60 | `format(date, 'MMM yyyy')` is a month label |
| ReportsPage.PointOf | src/pages/Reports.tsx:59-63 | a point is drawn only for a readable period, labelled by its tick |
| ReportsPage.PointsOf | src/pages/Reports.tsx:59-63 | the map throws exactly when one point does; otherwise one point per row, in order |
| ReportsPage.ChartAsWritten | src/pages/Reports.tsx:56-67 | as written every point is labelled by its month; an answer that is not an array keeps the chart as it was |
| ReportsPage.PointOfRow | src/pages/Reports.tsx:59-63 | a server row is charted with its tick, its revenue (0 for NULL) and its collected sum |
| ReportsPage.RowReadings | src/pages/Reports.tsx:61-62 | a row's sums, sent as decimal text, read back through `parseFloat(x \|\| 0)`, a NULL revenue as 0 |
| ReportsPage.RevenueRowMembers | server/routes/reports.js:139-191 | a revenue row is sent as an object with its period as an ISO date and its sums as decimal text |
| ReportsPage.DecimalMemberOrZero | src/pages/Reports.tsx:61-62 | a member sent as decimal text reads back through `parseFloat(x \|\| 0)` as its value, or 0 for null |
| ReportsPage.PointOfReadings | src/pages/Reports.tsx:59-63 | an object whose period and sums read back is charted as the point of those readings |
| ReportsPage.ServerRowsCharted | src/pages/Reports.tsx:56-67 | the server's rows, their sums sent as decimal text, are charted one point each, in its order, a NULL revenue read as 0 |
| ReportsPage.PointTick | src/pages/Reports.tsx:59-63 | a row whose period reads back is charted under that period's tick, whatever its sums |
| ReportsPage.ServerRowsTicked | src/pages/Reports.tsx:56-67 | the server's rows are charted one point each, in its order, under their periods' ticks |
| ReportsPage.RevenueInCents | server/routes/reports.js:32-44 | with every invoice's money in whole cents, so are the revenue and collected sums of every row the revenue report answers |
| ReportsPage.BucketInCents | server/routes/reports.js:32-44 | the `SUM(total)` and `SUM(paid_amount)` of one period over amounts in whole cents are in whole cents |
| ReportsPage.SumKeyCents | server/routes/reports.js:37 | `SUM(paid_amount)` of a period over amounts in whole cents is in whole cents |
| ReportsPage.DailyPointsShareLabel | src/pages/Reports.tsx:60 | the 30-day chart groups by day yet labels by month, so two consecutive days share a label |
| ReportsPage.FirstDaysOf1970 | src/pages/Reports.tsx:60 | day 0 is 1970-01-01 and day 1 is 1970-01-02 |
| ReportsPage.LabelFor | src/pages/Reports.tsx:60 | the corrected label is a day for the daily and weekly charts and a month for the monthly ones |
| ReportsPage.Chart | src/pages/Reports.tsx:56-67 | the corrected chart labels every point for its period and keeps the chart for an answer that is not an array |
| ReportsPage.DailyLabelsDistinct | src/pages/Reports.tsx:56-67 | with the corrected labels the daily and weekly charts label every point of the server's answer differently |
| ReportsPage.DayTicksDistinct | src/pages/Reports.tsx:56-67 | rows with ascending periods, charted daily, get distinct labels |
| ReportsPage.SliceColor | src/pages/Reports.tsx:211 | a known status keeps its own colour, any other cycles through the palette by position |
| ReportsPage.StatusColorsDistinct | src/pages/Reports.tsx:22-28 | each known status has a colour of its own, wherever its slice falls |
| ReportsPage.ExportAgrees | src/pages/Reports.tsx:70-81 | the server reads the page's export type as the same export and names the file as the page does |

## Left out

- HTTP and process plumbing: the axum and Express routers, CORS, `main()`, configuration, listeners and connection pools. Handlers are methods and functions on in-memory tables.
- The JSON decoding of request bodies by axum's extractors. Its rejections happen before any handler code runs.
- Concurrency: `Promise.all` in the reports and concurrent transactions. Each handler is one sequential, atomic step.
- Floating-point money and its display. `f64`, NUMERIC, `toFixed` and `toLocaleString` are modelled as exact `real` arithmetic, with no rounding or formatting.
- `parseFloat` and `parseInt` read only an optional sign, decimal digits and a decimal point. Exponents, `Infinity` and hexadecimal text are not modelled.
- Cryptography: JWT encoding and HMAC, bcrypt and `crypto.randomBytes`. These are function values or parameters that the model does not interpret.
- The Rust auth service (backend/auth-service). It is a thin wrapper over argon2 and `create_jwt`, and it is not part of this model.
- PDF rendering with genpdf and @react-pdf/renderer. Only the plain-text fallback body of the Rust PDF handler is modelled.
- E-mail delivery. Sending only records the e-mail row the server writes.
- The OpenAI call and `JSON.parse`. Both are function parameters of `NodeInvoices.Describe`: the call gives none when the request fails, and the parse gives none on text that is not JSON. `NodeInvoices.DescribePrompt` builds only the prompt.
- Browser side effects other than the mock store:
  - the redirect to '/login' after a 401;
  - Blob and URL downloads;
  - `console` output;
  - the fetch wrapper of micro/src/lib/api.ts.
- Database error texts. Any failure is one abstract error; only its status code and where it happens are modelled.
- Failed reads. These reads always succeed in the model, though in the source a failed query answers 500 with the driver's message:
  - ClientService.ListClients and GetClient;
  - ProductService.ListProducts and GetProduct;
  - InvoiceService.ListInvoices, GetInvoice, ListEstimates, GetEstimate, ListRecurring and GetRecurring;
  - the first SELECT of CompanyService.GetCompany;
  - NodeInvoices.ListClients, ListProducts, ListInvoices and GetInvoice;
  - NodeEstimates.ListEstimates and GetEstimate;
  - NodeRecurring.ListProfiles and GetProfile;
  - NodePayments.ListPayments.
  Every other handler that reads, among them InvoiceReports.Dashboard, RevenueStats, ExportReports and GeneratePdf, takes a `fault` parameter and answers 500 when it is set.
- Numbering.Candidates: the prefix is compared literally. In the source it is a `LIKE` pattern, so a `_` or `%` in a user's prefix also matches other numbers.
- Text.ToLower: it folds only A to Z. JavaScript's `toLowerCase` folds every Unicode letter, which the searches of Search and EstimatesPage.Shown would see.
- LineItems: a line's quantity and price are `real`. The NaN that `parseFloat` gives on a cleared input cannot occur, and neither can the NaN total that the page would then show and send as null.
- Money columns: the schema is not part of this model, so every money column (`total`, `paid_amount`, `subtotal`, `tax_amount`, `discount`) is taken to be a two-place NUMERIC, which node-postgres sends as decimal text such as '1200.00'. The lemmas that read such text back require the values to be whole cents (JsNumber.Cents, InvoiceViewPage.InCents, ReportsPage.InCents, ReportsPage.StatsInCents, ReportsPage.RowInCents); a column of another scale is not modelled.
- InvoiceViewPage.Received: the source's guard `!amount || amount <= 0` coerces with `Number`, while the model reads the amount with `parseFloat` throughout. A text such as 'abc' or '-5abc' passes the source's guard (`Number` gives NaN) and is then recorded as NaN or as -5; in the model it reads as missing or -5 and is refused with 400.
- NodeCompany.NoSettings: the model assumes that a row inserted with only `logo_url` holds NULL in every other column, so that no column has a default in the schema. The schema is not part of this model.
- CompanyService.DefaultFields: the same assumption for the row `get_company` inserts with only `user_id` and `company_name`: every other settings column is taken to be NULL.
- NodeInvoices.CreateClient: the same assumption for `POST /api/clients`, which inserts only `user_id`, `name`, `email` and `address`: every other client column is taken to be NULL.
- Tables.TextAscending: names sort by code point, as the C collation does, with NULL last. A database with a locale collation orders letters of different case or with accents differently.
- InvoiceService.ListInvoices, NodeInvoices.ListInvoices, NodeEstimates.ListEstimates and NodeRecurring.ListProfiles: `created_at` is a timestamp in the source and a day in the model. Within one day the model puts the row with the higher serial id first, which is the later inserted one while the clock does not step back.
- NodePayments.LaterFirst: `created_at` is not a column of the model. Among payments of one date, the later recorded one is the one with the higher serial id, which holds while the clock does not step back.
- NodeReports.WindowStart: `NOW()` is taken to be after midnight, so the day the interval reaches back to is not in the window. A request at exactly midnight would also count that day.
- Calendar.MonthsBack and Calendar.DaysFromCivil: that they invert `CivilFromDays` is proved only on the example dates of MonthsBackClamps and MonthsBackKeepsDay, not for every date.
- NodeReports.RecentMonths: the dashboard's month query has no `ORDER BY`, so the database may return the months in any order. The model returns them ascending, the order of its grouping.
- InvoiceEditor.Loaded, MicroInvoiceEditor.Loaded and RecurringEditor.Loaded: a field of a JSON type that the model does not render (a number where text is expected, say) gives none, where the page would show some text for it.
- Presentation: the invoice templates, landing and marketing components, animations, layout and routing. The form-only pages (Login, Register, Forgot/Reset Password, Settings) are also left out.
- Time zones. Every date is a UTC day number, and `new Date(...)` of a date string is that day.
- ProductsPage.PriceText: a fractional price's text (`toString()` of a non-integer number) is not modelled. Such a price gives `None`.
- Dashboard.MainTotal: a total that is neither a number nor a text gives `None`. The source would go on to read `parseFloat` of that value's text.
- LineItems.LineOf: a loaded item keeps only its description, quantity and unit price. The source spreads the whole server row into the item, so it also keeps columns such as `id`, `invoice_id` and `amount`, which the page neither shows nor edits.
- InvoiceEditor.Payload: for a loaded document each sent item holds only the three edited members. In the source it also carries the other columns of the loaded row. The Node routes read only `description`, `quantity` and `unit_price`; the Rust invoice service reads `price` and `amount`, which such an item would send back unchanged from its row.
- MicroInvoiceEditor.Payload: for a loaded invoice each sent item holds only the three edited members; in the source it also carries the other columns of the loaded row.
- RecurringEditor.Payload: for a loaded profile each sent item holds only the three edited members; in the source it also carries the other columns of the loaded row.
- JsNumber.ParseFloatValue: an array reads as its first element because `parseFloat` stops at the ',' that joins the elements' texts. The model takes this reading as its definition; it does not build the joined text.
- Numbering.ParseDigits: the digits are read as an exact integer. `parseInt` is exact only up to 2^53, so a run of 16 or more digits can read as a nearby integer in the source.
- Numbering.NextNumber: the increment is written in decimal digits. `String(n)` writes 1e21 and above in exponent form, and integers past 2^53 are rounded, so very long numbers continue differently in the source.

## Findings

| source | as written | input that shows it | evidently intended | confidence | as-written member | corrected member |
|---|---|---|---|---|---|---|
| src/lib/api.ts:108-122 | `post` throws on an error answer but catches its own throw, so a refused request looks like an unreachable server. It is stored in the mock list and returned as a success. | Converting an estimate the server refuses with 400 'Estimate already converted', or sending an invoice the server fails with 500. | Only a network failure falls back to the mock store; an error answer reaches the caller's catch. | high, not executed | MockApi.RefusalLooksUnreachable, EstimatesPage.RefusedConversionReportsSuccess, InvoicesPage.FailedSendReportsSuccess | MockApi.CheckedPost, EstimatesPage.RefusedConversionReported, InvoicesPage.FailedSendReported |
| src/pages/Clients.tsx:132-135 | `client.email.toLowerCase()` is called on a client whose email is null. | The search 'x' over a client named 'Acme' with a null email throws and the page breaks. | A missing email does not match. | high, not executed | ClientsPage.ShownAsWritten, Search.SearchCrashesOnNull | ClientsPage.Shown |
| src/pages/Products.tsx:83-86 | `product.description.toLowerCase()` is called on a product whose description is null. | The search 'x' over a product named 'Design' with a null description throws. | A missing description does not match. | high, not executed | ProductsPage.ShownAsWritten | ProductsPage.Shown |
| src/pages/Clients.tsx:42-54 | In demo mode the lists are fixed literals, while adding goes to the demo store. | Add a client with a demo token: the list still shows the same eight clients. | The list reads the demo store, as the other pages do. | medium, not executed | ClientsPage.DemoAddIsInvisible, ProductsPage.DemoAddIsInvisible | ClientsPage.DemoAddShowsThroughStore, ProductsPage.DemoAddShowsThroughStore |
| src/pages/Reports.tsx:90-103 | The stats are drawn as soon as the answer is truthy, and `stats.invoice_stats.map` is read on it. | In demo mode, or with the server down, `api.get('/reports/dashboard-stats')` answers the mock list (an array), and the page throws. | An answer without an `invoice_stats` array keeps the page loading. | high, not executed | ReportsPage.RenderedAsWritten, ReportsPage.MockStatsCrash | ReportsPage.Rendered, ReportsPage.MockStatsWait |
| src/pages/Reports.tsx:60 | Every revenue point is labelled `format(period, 'MMM yyyy')`, whatever the grouping. | With the '30days' period the server groups by day, so 1970-01-01 and 1970-01-02 both read 'Jan 1970'. | Daily and weekly points carry a day label. | medium, not executed | ReportsPage.ChartAsWritten, ReportsPage.DailyPointsShareLabel | ReportsPage.Chart, ReportsPage.LabelFor, ReportsPage.DailyLabelsDistinct |
| src/pages/InvoiceView.tsx:54-63 | Mark Paid posts a payment of the whole total. | An invoice of 100 with 40 already paid: Mark Paid posts 100, and the server refuses it as more than the 60 owed. | The payment is the balance still owed. | high, not executed | InvoiceViewPage.MarkPaidBodyAsWritten, InvoiceViewPage.MarkPaidOverpays | InvoiceViewPage.MarkPaidBody, InvoiceViewPage.BalancePaymentSettles, InvoiceViewPage.ServerReadings |
| server/routes/recurring.js:124-133 | The list page's pause/resume toggle PUTs `{ status }` alone, and the handler writes every destructured column, so the missing ones are bound as NULL. | Pausing an active profile with a client, an interval and a total: afterwards all three are NULL. With NOT NULL columns in the schema, which is not part of this model, the PUT fails instead. | The toggle changes only the status. | medium, not executed | RecurringList.ToggleRequest, NodeRecurring.ToggleNullsProfile | NodeRecurring.KeptInput, NodeRecurring.ToggleKeepsProfile |
