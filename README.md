# Order webhooks into per-customer worksheets — a Dafny model

The system receives order events from a WooCommerce shop and writes each order
as a row into a worksheet of a shared Google spreadsheet, creating the
worksheet with a header row on first use. This project models its core:

- **`SheetOperations`** (`SheetOperationBuilder.dfy`): the fluent
  `SheetOperationBuilder` as a class with the Java fields (`requests`,
  `sheetName`, `values`, `needsNewSheet`, plus the service handle and the
  spreadsheet id). Its methods `forSheet`, `createSheetIfMissing`,
  `isSheetMissing`, `withHeaders`, `withValues` and `execute` update that state
  and issue calls to the remote service. `execute` is specified against
  `ExecutePlan` (the calls it means to issue) and `Run` (issuing them in order
  and stopping at the first failure). Lemmas about the plan and about runs give
  the properties that matter: structure before values, one value write, an
  overwrite from `name!A1` for a new worksheet and an append with row insertion
  for an existing one, and never a header on an existing worksheet.
  `UpdateSheet` drives the builder in the order the system intends it to be
  used (no call site in the code drives the builder) and states the final
  worksheet contents, the calls issued and what a failure leaves behind.
- **`SheetsClient`** (`SheetsClient.dfy`): the Google Sheets client as an
  abstract service. Each spreadsheet is an ordered worksheet list plus the rows
  of every worksheet. The service keeps a ghost trace of the calls issued. A
  call fails with an I/O error when its kind is in the service's `outage` set,
  when the spreadsheet id is unknown, when an added title is taken, or when a
  value write names a missing worksheet. `Apply` gives the effect of one call.
  A value write from the first cell overlays the existing cells (`Overlay`).
  An append puts the rows after the last row.
- **`SheetErrors`** (`GoogleSheetException.dfy`): the six-value `ErrorCode` enum
  and the immutable exception value (code, message) with its two constructors.
- **`ExceptionHandler`** (`Handler.dfy`): the total map from error code to HTTP
  status and the error response body. The status codes are those of sections
  15.5 and 15.6 of RFC 9110.
- **`Orders`** (`WebHookRequest.dfy`): the order record and `getSheetRow`.
  Prices and costs are exact decimals (`Cells.Decimal`: unscaled integer and
  scale, like `BigDecimal`), never floating point.

Errors are values. A Java `null` is `Option.None`. A thrown exception is
`Result.Failure` or `Outcome.Fail`.

The builder's two throw sites (`SheetOperationBuilder.java` lines 51 and 118)
call a `GoogleSheetException(String, Throwable)` constructor, but the exception
class declares only `(ErrorCode, String)` and `(ErrorCode, String, Throwable)`.
So the code does not fix which error code a builder failure carries. The model
gives every builder failure the code `OPERATION_FAILED`
(`SheetOperations.BuilderFailureCode`) and keeps the source's messages. The
source does not map a failed existence check to `SHEET_NOT_FOUND` or
`PERMISSION_DENIED`: every I/O failure of the builder becomes the same
exception, and the model follows that.

`execute` is not atomic (lines 90-120). If the batch that adds a missing
worksheet goes through and the overwrite that follows fails, the new worksheet
stays in the spreadsheet, listed and empty. A retry's existence check then
finds it, takes the existing-worksheet path, and appends the rows with no header
row. `StagedRun` states the partial state, and `RetryAfterPartialRun` proves
the outcome of the retry.

## Model

| member | source | states |
|---|---|---|
| `SheetErrors.ErrorCodeCount` | src/main/java/com/woo_commerce/google_sheets/exception/GoogleSheetException.java:6-13 | `ErrorCode` has exactly six distinct values, and every code is one of them |
| `SheetErrors.CodeNameRoundTrip` | src/main/java/com/woo_commerce/google_sheets/exception/GoogleSheetException.java:6-13 | reading a code's constant name back with the enum's `valueOf` gives the code |
| `SheetErrors.CodeNameInjective` | src/main/java/com/woo_commerce/google_sheets/exception/GoogleSheetException.java:6-13 | distinct codes have distinct names |
| `SheetErrors.NewException` | src/main/java/com/woo_commerce/google_sheets/exception/GoogleSheetException.java:15-21 | the two-argument constructor stores the given code and message unchanged; the value is immutable, so the code never changes |
| `SheetErrors.NewExceptionWithCause` | src/main/java/com/woo_commerce/google_sheets/exception/GoogleSheetException.java:23-25 | the three-argument constructor stores the given code and message unchanged, as the two-argument one does |
| `SheetErrors.CauseNotRecorded` | src/main/java/com/woo_commerce/google_sheets/exception/GoogleSheetException.java:23-25 | the cause is not recorded: exceptions built with different causes are equal and carry the given code and message |
| `ExceptionHandler.DetermineHttpStatus` | src/main/java/com/woo_commerce/google_sheets/exception/handler/Handler.java:32-41 | PERMISSION_DENIED gives 403, SHEET_NOT_FOUND 404, INVALID_REQUEST 400, SERVICE_UNAVAILABLE 503 and AUTHENTICATION_FAILED 401, each in both directions; every other code gives 500 |
| `ExceptionHandler.DetermineHttpStatusInjective` | src/main/java/com/woo_commerce/google_sheets/exception/handler/Handler.java:33-40 | the six codes go to six distinct statuses |
| `ExceptionHandler.DetermineHttpStatusOnto` | src/main/java/com/woo_commerce/google_sheets/exception/handler/Handler.java:33-40 | each of the six statuses is produced by some code |
| `ExceptionHandler.DetermineHttpStatusClasses` | src/main/java/com/woo_commerce/google_sheets/exception/handler/Handler.java:33-40 | a code gets a 5xx server error exactly when it is SERVICE_UNAVAILABLE or OPERATION_FAILED, and a 4xx client error otherwise |
| `ExceptionHandler.HandleResponseEntity` | src/main/java/com/woo_commerce/google_sheets/exception/handler/Handler.java:19-30 | the HTTP status is the status of the exception's code; the body's status is the code's name, which reads back as that code; the body's message is the exception's message |
| `ExceptionHandler.ResponseDeterminesException` | src/main/java/com/woo_commerce/google_sheets/exception/handler/Handler.java:22-29 | the response loses nothing: two exceptions with equal responses are equal |
| `Orders.GetSheetRow` | src/main/java/com/woo_commerce/google_sheets/dto/WebHookRequest.java:10-18 | succeeds exactly when id, productName, price and cost are non-null; the row then has five cells, as many as the header row, with the quantity third and the price and cost as the same decimals |
| `Orders.SheetRowRoundTrip` | src/main/java/com/woo_commerce/google_sheets/dto/WebHookRequest.java:16-18 | the row of a complete order parses back to exactly that order (id, name, quantity, price, cost in that order, decimals unrounded) |
| `Orders.ParseRowRoundTrip` | src/main/java/com/woo_commerce/google_sheets/dto/WebHookRequest.java:16-18 | every row of that shape is the row of the order it parses to |
| `Orders.SheetRowInjective` | src/main/java/com/woo_commerce/google_sheets/dto/WebHookRequest.java:16-18 | two complete orders with the same row are the same order |
| `SheetOperations.NoneMatch` | src/main/java/com/woo_commerce/google_sheets/services/impl/SheetOperationBuilder.java:73-75 | the stream test holds exactly when no worksheet in the list has the given title |
| `SheetOperations.NoneMatchTitles` | src/main/java/com/woo_commerce/google_sheets/services/impl/SheetOperationBuilder.java:68-76 | the test over the fetched list is "the name is not among the spreadsheet's titles" |
| `SheetOperations.CreateSheetRequest` | src/main/java/com/woo_commerce/google_sheets/services/impl/SheetOperationBuilder.java:21-22 | the staged add-sheet request has the target title, 500 rows, 5 columns and 1 frozen row (lines 78-88 build it) |
| `SheetOperations.PlanStructureFirst` | src/main/java/com/woo_commerce/google_sheets/services/impl/SheetOperationBuilder.java:90-99 | `execute` sends a batch update exactly when requests are staged, with all of them, and before any value write |
| `SheetOperations.PlanValueWrite` | src/main/java/com/woo_commerce/google_sheets/services/impl/SheetOperationBuilder.java:101-116 | no value write when no rows are staged; otherwise one write of all staged rows, last: an overwrite at `name!A1` for a new worksheet, an append with INSERT_ROWS for an existing one |
| `SheetOperations.NewSheetRun` | src/main/java/com/woo_commerce/google_sheets/services/impl/SheetOperationBuilder.java:90-116 | for a missing worksheet the run succeeds exactly when neither call hits an outage; the worksheet is then added with the 500x5 layout and holds the header at row 1 and the data below, with nothing else changed; a failed batch changes nothing; a failed overwrite after the batch leaves the worksheet added and empty |
| `SheetOperations.ExistingSheetRun` | src/main/java/com/woo_commerce/google_sheets/services/impl/SheetOperationBuilder.java:101-116 | for an existing worksheet no structural call goes out; on success the rows follow its existing rows in order, with nothing else changed; a failed append changes nothing |
| `SheetOperations.SheetOperationBuilder.constructor` | src/main/java/com/woo_commerce/google_sheets/services/impl/SheetOperationBuilder.java:24-37 | a fresh builder has no staged requests, no values, no target and `needsNewSheet` false |
| `SheetOperations.SheetOperationBuilder.ForSheet` | src/main/java/com/woo_commerce/google_sheets/services/impl/SheetOperationBuilder.java:39-42 | sets the target name and leaves requests, values and `needsNewSheet` unchanged |
| `SheetOperations.SheetOperationBuilder.IsSheetMissing` | src/main/java/com/woo_commerce/google_sheets/services/impl/SheetOperationBuilder.java:68-76 | one fetch call, no state change; on success, true exactly when no worksheet has the target title; a failed fetch returns its I/O error |
| `SheetOperations.SheetOperationBuilder.CreateSheetIfMissing` | src/main/java/com/woo_commerce/google_sheets/services/impl/SheetOperationBuilder.java:44-54 | one fetch call; on success `needsNewSheet` is "target absent" and exactly one add-sheet request for the target is appended when true, none when false; a failed fetch becomes the builder's exception and leaves the builder unchanged |
| `SheetOperations.SheetOperationBuilder.WithHeaders` | src/main/java/com/woo_commerce/google_sheets/services/impl/SheetOperationBuilder.java:56-61 | appends the header row to the values iff `needsNewSheet`; otherwise nothing changes |
| `SheetOperations.SheetOperationBuilder.WithValues` | src/main/java/com/woo_commerce/google_sheets/services/impl/SheetOperationBuilder.java:63-66 | appends all given rows in order after the staged values, unconditionally, leaving the rest unchanged |
| `SheetOperations.SheetOperationBuilder.Execute` | src/main/java/com/woo_commerce/google_sheets/services/impl/SheetOperationBuilder.java:90-120 | the trace grows by the plan's calls up to the first failure, the spreadsheets are the state after them, and it fails, with the builder's exception, exactly when a call fails |
| `SheetOperations.SheetOperationBuilder.PlanOfValidBuilder` | src/main/java/com/woo_commerce/google_sheets/services/impl/SheetOperationBuilder.java:44-54 | what the builder invariant (every staged request is an add-sheet request with the builder's layout, and a worksheet found missing has its request staged) gives `execute` once the target was found missing: the plan opens with the batch, every request in it has 500 rows, 5 columns and 1 frozen row, and the rows, if any, are then overwritten from `name!A1` in one call (`NewSheetPlan`) |
| `SheetOperations.SheetOperationBuilder.WriteValues` | src/main/java/com/woo_commerce/google_sheets/services/impl/SheetOperationBuilder.java:101-116 | the value-write half of `execute`: issues the plan's value write, if any, and reports its failure as the builder's exception |
| `SheetOperations.UpdateSheet` | src/main/java/com/woo_commerce/google_sheets/services/impl/SheetOperationBuilder.java:39-120 | the builder driven in the order the system intends (the order is the system's intended use; the code has no call site for it): only the target spreadsheet can change; a failed existence check (exactly when the fetch hits an outage or the spreadsheet is unknown) is the only call issued and changes nothing; every failure carries `OPERATION_FAILED` and one of the two messages; for a missing worksheet it succeeds exactly when no call hits an outage, and then the worksheet was added with the 500x5 layout holding the header at row 1 and the rows below, every other worksheet unchanged, and the calls were fetch, batch, overwrite at `name!A1`; for an existing worksheet it succeeds exactly when no append is needed or the append goes through, and then its old rows are followed by the new ones with no header, every other worksheet unchanged, and the calls were fetch and one append (none for no rows); the service's spreadsheets stay consistent (worksheet list and rows agree) on every path; a failed `execute` leaves the state and calls that the partial run gives: a failed batch changes nothing after fetch and batch, a failed overwrite leaves the new worksheet added and empty after fetch, batch and overwrite, and a failed append changes nothing after fetch and append |
| `SheetOperations.StagedRun` | src/main/java/com/woo_commerce/google_sheets/services/impl/SheetOperationBuilder.java:90-116 | the run of the plan the builder makes after a successful existence check: which outages make it fail; the resulting worksheet (`SheetAdded`, which includes the exact set of worksheets with rows, or `RowsAppended`) and the calls issued, on success and on each kind of failure, including the added but empty worksheet when the overwrite fails after the batch; the target spreadsheet stays consistent, and every other spreadsheet is unchanged |
| `SheetOperations.RetryAfterPartialRun` | src/main/java/com/woo_commerce/google_sheets/services/impl/SheetOperationBuilder.java:90-120 | after a batch that went through and an overwrite that failed, the worksheet exists and is consistent; a retried run takes the existing-worksheet path and, when the append goes through, leaves the worksheet holding exactly the rows, with no header |
| `SheetOperations.StageAndExecute` | src/main/java/com/woo_commerce/google_sheets/services/impl/SheetOperationBuilder.java:56-120 | staging the header and the rows and then executing, after a successful existence check: the outcomes of `StagedRun`, on success and failure, reached on the service's state and trace, and the service stays consistent |
| `SheetsClient.RunLeavesOthers` | src/main/java/com/woo_commerce/google_sheets/services/impl/SheetOperationBuilder.java:90-120 | calls that all name one spreadsheet leave every other spreadsheet as it was, whether or not one of them fails |

## Left out

- OAuth, the HTTP transport, the token store and the local receiver on port 8888 in `GoogleSheetServiceImpl.java` are I/O and foreign-library calls. They are not part of this model.
- The `CustomerSheet` path in `GoogleSheetServiceImpl.java` is a separate, I/O-bound variant of the builder and is not part of this model. It has three quirks: `orElse(createSheet(...))` tries creation even when the sheet exists; the header goes to the fixed range `Sheet1!A1:E1`; and `sheet.isEmpty()` tests the JSON object rather than the rows.
- A cache for the service handle, with a time-to-live and single-flight construction, does not exist in the code. `getSheetsService` builds a new handle on every call, so nothing of the kind is modelled.
- The HTTP controller, configuration binding, the service interface and logging are wiring and are not modelled. `HandlerResponse` appears as a two-field datatype.
- The fluent `return this` is not modelled. Builder methods return an `Outcome` or nothing.
- SheetOperations.SheetOperationBuilder.CreateSheetIfMissing: requires a target name set by `forSheet` first. With a null name the Java code would stage a request with a null title, and what the client library does with that is foreign code.
- SheetOperations.SheetOperationBuilder.Execute: also requires `forSheet` first, for the same reason; calling `execute` before that is a programming error.
- Builder failures carry `OPERATION_FAILED`, a choice of the model: the source's throw sites name no error code. The I/O cause is dropped, as the three-argument constructor drops it.
- `withValues(null)` throws in Java; Dafny sequences cannot be null, so that case is not modelled. Null cells inside rows are not modelled either.
- A null error code would make the Java switch throw; the model's codes are never null.
- The remote service is abstract. The 500-row grid is a provisioning hint and is not enforced: appends grow the worksheet. RAW and USER_ENTERED input, and INSERT_ROWS and OVERWRITE append modes, are recorded in the trace and treated alike.
- Concurrent builders racing on the same worksheet name are not modelled. Each builder runs sequentially against one service state.
- Only the six HTTP statuses the handler can return are modelled, not Spring's full `HttpStatus` enum.
