# Checkout and pagination of the rakamin-evermos shop API, in Dafny

This project models two parts of the rakamin-evermos Go service (a small
marketplace API built on Gin and GORM).

**Checkout.** `CreateTransaksi` turns a buyer's cart into an order:

1. It checks that the shipping address (`alamat`) belongs to the buyer.
2. It opens one database transaction.
3. For each cart line, in cart order, it:
   - reads the product row under a lock;
   - rejects the line if the stock (`stok`) is too low;
   - saves a snapshot of the product (`LogProduk`);
   - prices the line from the consumer price text (`HargaKonsumen`) through `strconv.Atoi`;
   - stages an order line (`DetailTrx`);
   - writes back the lowered stock.
4. It saves the order header (`Trx`) with the grand total and an invoice code
   `INV/<user id>/<first 8 characters of a UUID>`.
5. It saves every staged line under the header's id and commits.

Every failure after BEGIN and before COMMIT rolls the transaction back.

**Pagination.** Three pieces of page arithmetic used by the product listings:

- how `page` and `limit` are read from the query string;
- the row offset of a page;
- the summary returned with a page (number of pages, next and previous page).

## Layout

- `wrappers.dfy`: `Option` and `Result`.
- `strconv.dfy`: Go's `strconv.Atoi` on a 64-bit platform, and the `%d` verb.
  - Atoi scans left to right, so an overflow is reported even when a bad character comes after it.
  - A range error hands back the clamped bound.
  - A syntax error hands back 0.
- `pagination.dfy`: `GetPaginationFromQuery`, the offset of `Paginate`, `GeneratePaginationResult`.
  - Go's truncating `/` and `%` are written out as `GoQuo` and `GoRem`.
- `model.dfy`: the four rows checkout touches (`Produk`, `LogProduk`, `Trx`, `DetailTrx`).
- `repository.dfy`: class `Store`, the database as checkout sees it.
  - It holds the product table as a map, the three append-only tables as sequences, and the address-ownership pairs.
  - It holds one open transaction: BEGIN copies the tables, ROLLBACK restores the copy.
  - Every repository call checkout makes is a method with its full effect on the tables in its `ensures`.
  - A database failure is an argument of the call.
- `transaksi_spec.dfy`: what a checkout does, as pure functions of the tables at the start.
  - `Outcome` is the result.
  - `Committed` is the tables after a success.
  - `CartError` is the first failing line.
  - `Decremented` is the stock after the cart.
  - The loop invariant of the cart loop (`StagedAfter`) and the lemmas that step it.
- `transaksi_usecase.dfy`: `CreateTransaksi` as an imperative method over a `Store`.
  - Its cart loop and its detail loop are proved to produce exactly `Outcome` and `Committed`, and to leave the tables untouched on every failure.
- `transaksi_props.dfy`: what follows for the buyer and the shop.
  - When a checkout succeeds and when it fails.
  - The header total is the sum of the line totals.
  - Each line has its own snapshot.
  - Stock stays non-negative.
  - Invoice codes name the buyer.
  - How price text is read.
  - Worked scenarios.

## Model

| member | source | states |
|---|---|---|
| GoStrconv.Atoi | utils/pagination.go:42-43 | Empty text is a syntax error. An accepted value lies in the int64 range. A range error carries MinInt64 for negative text and MaxInt64 otherwise. |
| GoStrconv.AtoiAccepts | utils/pagination.go:42-45 | Atoi returns a value exactly when the text is an optional sign followed by digits whose value fits in int64, and then it returns that value. Sign-and-digits text is never a syntax error. |
| GoStrconv.AtoiShortText | usecase/transaksi_usecase.go:116 | Text shorter than 19 characters is never a range error. It is a syntax error exactly when it is not sign-and-digits. |
| GoStrconv.AtoiFormatInt | utils/pagination.go:42 | For every int64 `n`, Atoi of the `%d` text of `n` returns `n`. |
| GoStrconv.FormatUint | usecase/transaksi_usecase.go:148 | `%d` of an unsigned id is non-empty, all digits, without a leading zero, and its decimal value is the id. |
| GoStrconv.FormatInt | usecase/transaksi_usecase.go:93 | `%d` of an int is non-empty and starts with '-' exactly when the number is negative. |
| GoStrconv.FormatUintInjective | usecase/transaksi_usecase.go:148 | Distinct ids print as distinct texts. |
| Pagination.GetPaginationFromQuery | utils/pagination.go:34-57 | Page and limit are both at least 1. Each one is the parsed query value when that value parses and is positive; otherwise it is the default (page 1, limit 10). Missing, malformed, zero and negative values all fall back. |
| Pagination.QueryRoundTrip | utils/pagination.go:34-57 | A positive page and limit written as decimal query values are read back unchanged. |
| Pagination.Offset | utils/pagination.go:25-31 | The offset `(page-1)*limit` is non-negative for page ≥ 1 and limit ≥ 0. |
| Pagination.RowOnOnePage | utils/pagination.go:27-29 | Row `i` lies in the window `[Offset, Offset+limit)` of exactly one page, namely page `i/limit + 1`, so pages neither overlap nor skip rows. |
| Pagination.GoQuo | utils/pagination.go:61 | Go's truncating division agrees with Dafny's for a non-negative dividend and a positive divisor. |
| Pagination.GoRem | utils/pagination.go:62 | Go's remainder agrees with Dafny's for a non-negative dividend and a positive divisor. |
| Pagination.GeneratePaginationResult | utils/pagination.go:60-84 | Data, total and current page pass through unchanged. The page count is the ceiling of total/limit: it covers every row, the last page is not empty, and it is 0 for no rows. A next page exists iff page < totalPage and is page+1. A previous page exists iff page > 1 and is page-1, whatever totalPage is. |
| Pagination.LastPageHoldsLastRow | utils/pagination.go:61-64 | With at least one row, the last page's window contains the last row. |
| Pagination.NextPageIffRowsRemain | utils/pagination.go:66-70 | A next page is offered exactly when rows remain after the current page's window. |
| Repository.Store.FindByIDAndUserID | repository/address_repository.go:45-52 | A failing query returns its error. Otherwise the lookup succeeds exactly when the address belongs to the user, and misses with record-not-found. |
| Repository.Store.Begin | usecase/transaksi_usecase.go:67-70 | A failing BEGIN leaves no transaction open. A successful one records the tables as they are. The tables are not changed either way. |
| Repository.Store.Rollback | usecase/transaksi_usecase.go:86 | Closes the transaction and restores the tables recorded at BEGIN. |
| Repository.Store.Commit | usecase/transaksi_usecase.go:170-172 | Closes the transaction. A successful COMMIT keeps the tables; a failing one keeps none of the transaction's writes and returns its error. |
| Repository.Store.FindByIDWithLock | repository/produk_repository.go:120-125 | Returns the product row with that id, record-not-found when there is none, or the query's error. |
| Repository.Store.UpdateWithTx | repository/produk_repository.go:128-132 | Overwrites the row with the product's id by the given product. No other table changes. |
| Repository.Store.SaveLog | repository/log_produk_repository.go:22-26 | Appends the snapshot with the next id and returns it. A failed insert appends nothing. |
| Repository.Store.SaveTrx | repository/transaksi_repository.go:26-29 | Appends the header with the next id and returns it. A failed insert appends nothing. |
| Repository.Store.SaveDetail | repository/detail_trx_repository.go:22-25 | Appends the order line with the next id and returns it. A failed insert appends nothing. |
| TransaksiUsecase.CreateTransaksi | usecase/transaksi_usecase.go:56-176 | The result is `Outcome` of the starting tables and the failures that occur. A failure leaves every table as it was. A success leaves exactly the `Committed` tables: each product's stock lowered by the cart's total demand for it; one snapshot per line; the header; one order line per cart line under the header's id. No transaction is left open. |
| TransaksiUsecase.StageCart | usecase/transaksi_usecase.go:78-141 | The cart loop either fails with the cart's first failing line, rolled back, or returns with stock lowered and snapshots saved for every line, the staged lines, and the grand total equal to the cart total. |
| TransaksiUsecase.StageNext | usecase/transaksi_usecase.go:82-141 | One iteration keeps the loop invariant from `i` lines to `i+1`, or rolls back with the cart's failure. |
| TransaksiUsecase.StageLine | usecase/transaksi_usecase.go:84-140 | For one line, the error is: "produk not found" when the locked read fails; the stock error with the row's name and stock when stock < quantity; the snapshot or stock-write error when that write fails. On any error the transaction is rolled back. Otherwise the row loses the quantity, the snapshot of the row is appended with the next id, the line total is price × quantity, and the staged line points at the snapshot. |
| TransaksiUsecase.SaveDetails | usecase/transaksi_usecase.go:159-167 | Either every staged line is appended in order with consecutive ids under header `trxID`, or the first failing insert's error is returned and the transaction is rolled back. |
| TransaksiSpec.CartErrorNone | usecase/transaksi_usecase.go:82-141 | The cart passes its first `n` lines exactly when each of those lines passes, given that the lines before it went through. |
| TransaksiSpec.CartErrorIsFirst | usecase/transaksi_usecase.go:82-141 | A failing cart reports the error of a line all of whose predecessors passed, i.e. the first failing line. |
| TransaksiSpec.CartErrorSticks | usecase/transaksi_usecase.go:82-141 | Lines after the first failing one do not change the reported error. |
| TransaksiSpec.DetailFaultNone | usecase/transaksi_usecase.go:160-167 | The detail loop passes its first `n` inserts exactly when none of them fails. |
| TransaksiSpec.DetailFaultSticks | usecase/transaksi_usecase.go:160-167 | Inserts after the first failing one do not change the reported error. |
| TransaksiSpec.NoCartErrorListed | usecase/transaksi_usecase.go:84-88 | A cart that goes through names only existing products. |
| TransaksiSpec.DecrementedStep | usecase/transaksi_usecase.go:134-136 | Taking line `i`'s quantity from the row it reads turns the stock after `i` lines into the stock after `i+1`. A repeated product re-reads the already-lowered row. |
| TransaksiSpec.StagedTablesStep | usecase/transaksi_usecase.go:97-136 | One line through extends the staged tables by one line. Its snapshot and staged line equal those of the product as it was before the checkout, since only the stock changed. |
| TransaksiSpec.StagedAfterStep | usecase/transaksi_usecase.go:82-141 | A line that passes takes the cart loop invariant (tables, running total, staged lines) from `i` lines to `i+1`. |
| TransaksiSpec.LineReadsCurrentRow | usecase/transaksi_usecase.go:84-94 | The line's error computed from the tables inside the loop equals the one computed from the starting tables, and it is the cart's error. |
| TransaksiProps.LineErrorWithoutFaults | usecase/transaksi_usecase.go:84-94 | Without database failures, a line passes iff its product exists and its quantity is at most the stock left after the earlier lines. Otherwise it fails with "produk not found" or with the stock error carrying that remaining stock. |
| TransaksiProps.SucceedsIff | usecase/transaksi_usecase.go:56-176 | Without database failures, a checkout succeeds iff the address is the buyer's and every line fits in the stock the earlier lines leave. |
| TransaksiProps.FirstShortLineFails | usecase/transaksi_usecase.go:84-94 | Without database failures and with the buyer's address, the checkout fails with the error of the first line that does not fit. That is the missing product, or the stock error naming the product and its stock at lock time. |
| TransaksiProps.FirstShortLineIsCartError | usecase/transaksi_usecase.go:82-94 | The first line that does not fit is the cart's error. |
| TransaksiProps.LineTotalsSum | usecase/transaksi_usecase.go:116-126 | The saved line totals add up to the cart total. |
| TransaksiProps.OrderTotalIsSumOfLines | usecase/transaksi_usecase.go:144-157 | A successful checkout adds one header with the next id, the buyer, the address, the payment method and the buyer's invoice code. Its total is the sum of the totals of the lines saved under it. |
| TransaksiProps.LinesPointAtTheirSnapshots | usecase/transaksi_usecase.go:97-131 | After success, cart line `k` has snapshot `k` and order line `k`, in cart order, and earlier rows are untouched. The snapshot copies the product's id, store, category, name, slug, both prices and description. The order line points at that snapshot and at the header, carries the product's store and the line's quantity, and its total is the snapshot's price × quantity. |
| TransaksiProps.CommittedLineRows | usecase/transaksi_usecase.go:97-131 | The committed tables hold, for line `k`, a snapshot copying the product's id, store, category, name, slug, both prices and description, and an order line pointing at that snapshot and the header with the product's store, the line's quantity and the snapshot's price × quantity. |
| TransaksiProps.DemandOfUnnamed | usecase/transaksi_usecase.go:134 | A product no line names has no demand. |
| TransaksiProps.NamedStockNonNegative | usecase/transaksi_usecase.go:91-94 | After the first `n` lines passed, every product they name has non-negative stock. |
| TransaksiProps.StockAfterCheckout | usecase/transaksi_usecase.go:91-136 | After success, the product table has the same keys, every product the cart names has non-negative stock, and every product it does not name is unchanged. |
| TransaksiProps.EmptyCart | usecase/transaksi_usecase.go:78-82 | An empty cart still makes an order, with total 0, no snapshots, no lines and no stock change. |
| TransaksiProps.LeadingDigitsOfNumber | usecase/transaksi_usecase.go:148 | Digits followed by a non-digit start with exactly that many digits. |
| TransaksiProps.SlashAfterDigits | usecase/transaksi_usecase.go:148 | `digits "/" rest` splits uniquely at the first '/'. |
| TransaksiProps.InvoiceCodeIdentifiesBuyer | usecase/transaksi_usecase.go:148 | Equal invoice codes mean the same buyer and the same 8-character UUID prefix. |
| TransaksiSpec.InvoiceCode | usecase/transaksi_usecase.go:148 | The invoice code is "INV/", then the digits of the buyer's id (whose decimal value is the id), then "/", then the first 8 characters of the UUID. |
| TransaksiProps.SameBuyerSamePrefixCollides | usecase/transaksi_usecase.go:148 | Two UUIDs that share their first 8 characters give the same buyer the same invoice code: the code alone does not make invoice codes unique. |
| TransaksiProps.InvoiceCodeNamesUser | usecase/transaksi_usecase.go:148 | The buyer's id reads back from the invoice code with Atoi, for every id in the int64 range. |
| TransaksiProps.StepErrorCases | usecase/transaksi_usecase.go:84-140 | A line goes through exactly when its product exists under the lock, its quantity is at most the row's stock, and neither the snapshot nor the stock write fails. "produk not found" is exactly a missing product or a failing locked read. A stock error carries the row's name and a stock below the quantity. A line fails only with one of four errors: not found, stock, snapshot write, stock write. |
| TransaksiProps.CartErrorKind | usecase/transaksi_usecase.go:82-141 | A failing cart loop fails with one of those four line errors. |
| TransaksiProps.ChecksInSourceOrder | usecase/transaksi_usecase.go:56-176 | A foreign address fails with "alamat not found or access denied" whatever else would fail. Every later failure, and a success, implies the address was found. A header, line-insert or COMMIT failure, and a success, imply BEGIN and every cart line went through. A COMMIT failure or a success implies the header and every line insert succeeded. A success implies COMMIT succeeded. |
| TransaksiProps.SnapshotKeepsAllButStock | usecase/transaksi_usecase.go:97-108 | A snapshot records the product's id and every other column but the stock: two products have the same snapshot exactly when they differ at most in stock. |
| TransaksiProps.StagedLineMatchesSnapshot | usecase/transaksi_usecase.go:121-129 | A staged line points at its snapshot, carries the snapshot's store and the line's quantity, and its total is the snapshot's consumer price, read by Atoi, times the quantity. |
| TransaksiProps.DemandSplits | usecase/transaksi_usecase.go:134 | The quantity the cart asks of a product is additive over consecutive parts of the cart, so it is the sum of the quantities of all lines naming it. |
| TransaksiProps.CommittedChangesOnlyStock | usecase/transaksi_usecase.go:56-176 | After a checkout the product table has the same keys. Each product keeps every column but its stock, which drops by exactly what the cart asks of it. The snapshot, header and line tables keep their old rows and grow by one row per line, one header, and one row per line. |
| TransaksiProps.PriceInInt64 | usecase/transaksi_usecase.go:116 | The unit price lies in the int64 range, and a price text Atoi rejects as malformed is priced at 0. |
| TransaksiProps.MessagesTellStepsApart | usecase/transaksi_usecase.go:62-171 | Two failures with the same text failed at the same step. The exceptions are the address-lookup and BEGIN errors, which are returned unchanged. |
| TransaksiProps.MessageSignature | usecase/transaksi_usecase.go:62-171 | Characters 0, 5 and 10 of an error text identify the step that failed. |
| TransaksiProps.StockMessageCarriesRemaining | usecase/transaksi_usecase.go:93 | The stock error's text is the fixed sentence around the product name, followed by the remaining stock and ")". That number reads back with Atoi as the remaining stock. |
| TransaksiProps.MalformedPriceIsZero | usecase/transaksi_usecase.go:116 | A consumer price text shorter than 19 characters that is not sign-and-digits prices the product at 0. |
| TransaksiProps.DecimalPointPrice | usecase/transaksi_usecase.go:116 | "15000.00" is not sign-and-digits, so it prices at 0. |
| TransaksiProps.CanonicalPrice | usecase/transaksi_usecase.go:116 | A price stored as the decimal text of an int64 is read as that number. |
| TransaksiProps.KopiPrice | usecase/transaksi_usecase.go:116 | The text "10000" prices at 10000. |
| TransaksiProps.BuyingTheLastUnits | usecase/transaksi_usecase.go:91-152 | Buying all 5 of 5 units succeeds. Header 1 for buyer 3 has total 50000 and invoice "INV/3/01234567", and the stock ends at 0. |
| TransaksiProps.OneTooMany | usecase/transaksi_usecase.go:91-94 | Asking for 6 of 5 fails with the stock error for "Kopi" with 5 remaining. |
| TransaksiProps.OneTooManyMessage | usecase/transaksi_usecase.go:93 | The buyer reads "stok for produk 'Kopi' is not enough (remaining: 5)". |
| TransaksiProps.SameProductTwice | usecase/transaksi_usecase.go:84-94 | Two lines of 3 for a product with 5: the second reads the lowered row and fails with 2 remaining. |
| TransaksiProps.NegativeQuantityRestocks | usecase/transaksi_usecase.go:91-136 | A line of -2 passes the stock check, makes a total of -20000 and raises the stock to 7. |
| TransaksiProps.ForeignAddress | usecase/transaksi_usecase.go:59-65 | Another buyer's address is refused with "alamat not found or access denied". |

## Left out

- Concurrency. The row lock of `FindByIDWithLock` only matters between concurrent checkouts, so reads under the lock are plain reads. Deadlocks, lock waits and lost updates are not modelled.
- The `defer`/`recover` block of `CreateTransaksi` (usecase/transaksi_usecase.go:72-76). A panic is not an outcome of the model. In the code, a recovered panic rolls back. Because the results of `CreateTransaksi` are unnamed, it then returns an empty `Trx` with a nil error, and the handler answers "Success create Transaksi" (handler/transaksi_handler.go:55-61). Every modelled failure before COMMIT takes an explicit rollback path; COMMIT's own failure is described below.
- The bodies of the GORM repository calls. `Store`'s methods give their effect on the tables, and a database error is an argument.
  - An auto-incremented id is the table length + 1. A real database leaves gaps after a rollback; the model does not.
  - Which errors a database can raise is not modelled.
  - A failing locked read is "produk not found" whatever the error was, as in the code.
- Timestamps (`CreatedAtDate`, `UpdatedAtDate`) and the GORM association fields of the four rows.
- The UUID behind the invoice code is a parameter. `uuid.New().String()` is 36 characters long, so it meets the `|uuid| >= 8` precondition of `CreateTransaksi`. Codes of different buyers never collide (`InvoiceCodeIdentifiesBuyer`). Two orders from the same buyer whose UUIDs share their first 8 characters get the same code (`SameBuyerSamePrefixCollides`). Only 32 random bits and no unique index on `KodeInvoice` (model/transaction.go:10) stand against that.
- Go's 64-bit `int` in the line total, the grand total, the stock decrement and `Paginate`'s offset. These are unbounded integers, so wrap-around on overflow is not modelled. `Atoi` itself models the 64-bit range exactly.
- Pagination.Offset: states only non-negativity and the page window (`RowOnOnePage`). Passing the offset and limit to GORM's `Offset`/`Limit` is not modelled.
- Pagination.GeneratePaginationResult: the ceiling properties are stated for limit > 0 and totalData ≥ 0. For negative inputs the function follows Go's truncating `/` and `%`, but nothing further is claimed.
- Nothing rejects a negative `Kuantitas` (usecase/transaksi_usecase.go:15-18 has no binding rule, and the stock check at line 91 passes it). A negative line therefore raises the stock and lowers the total, as `NegativeQuantityRestocks` shows; the model follows the code.
- When COMMIT fails, the code returns "fail commit transaksi" without calling ROLLBACK (usecase/transaksi_usecase.go:170-172). The model assumes a failed COMMIT discards the transaction's writes (`Store.Commit` restores the tables recorded at BEGIN), and `CreateTransaksi`'s "a failure leaves every table as it was" holds for `CommitFailed` only under that assumption. A COMMIT whose outcome the client cannot know, such as one interrupted by a lost connection, is not modelled.
- Any error of the locked read (usecase/transaksi_usecase.go:84-88), a database failure included, is reported as "produk not found", as in the code.
- The rest of the service is not part of this model:
  - HTTP handlers, router and responses;
  - JWT and bcrypt authentication;
  - the CRUD usecases for addresses, categories, stores, users and products, which are find-then-save wrappers;
  - `GetMyTransaksi` and `GetMyTransaksiByID`, which are plain reads;
  - the `LIKE` filter of the product listings, whose meaning lies in the database.
