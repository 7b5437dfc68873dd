/**
 * The fluent builder that makes sure a named worksheet exists and writes rows
 * into it: it records the target worksheet, stages an "add sheet" request when
 * the worksheet is missing, stages a header row only for a new worksheet,
 * stages data rows, and on `execute` sends the structural batch first and then
 * one value write: an overwrite from the first cell for a new worksheet, an
 * append after the last row for an existing one.
 */
module SheetOperations {
  import opened Wrappers
  import opened Cells
  import opened SheetErrors
  import opened SheetsClient
  import Orders

  /** The layout of a worksheet the builder creates: 500 rows, 5 columns. */
  const RowCount := 500
  const ColumnCount := 5
  /** The header row of a new worksheet stays in view. */
  const FrozenRowCount := 1

  const CheckFailureMessage := "Failed to check sheet existence"
  const ExecuteFailureMessage := "Failed to execute sheet operations"

  /**
   * The error code carried by the builder's own failures. The builder's throw
   * sites name no code, so the model chooses the catch-all one.
   */
  const BuilderFailureCode := OperationFailed

  /** The stream test `noneMatch(title equals name)` over a worksheet list. */
  function NoneMatch(sheets: seq<SheetProperties>, name: string): (r: bool)
    ensures r <==> forall i :: 0 <= i < |sheets| ==> sheets[i].title != name
  {
    if sheets == [] then true
    else sheets[0].title != name && NoneMatch(sheets[1..], name)
  }

  /** `noneMatch` over the worksheet list says exactly "no worksheet has this title". */
  lemma NoneMatchTitles(book: Spreadsheet, name: string)
    ensures NoneMatch(book.sheets, name) <==> name !in book.Titles()
  {
    if !NoneMatch(book.sheets, name) {
      var i :| 0 <= i < |book.sheets| && book.sheets[i].title == name;
      assert name in book.Titles();
    }
  }

  /** The add-sheet request for a new worksheet with the builder's fixed layout. */
  function CreateSheetRequest(name: string): (r: Request)
    ensures r.properties.title == name
    ensures r.properties.gridProperties.rowCount == 500
    ensures r.properties.gridProperties.columnCount == 5
    ensures r.properties.gridProperties.frozenRowCount == 1
  {
    AddSheet(SheetProperties(name, GridProperties(RowCount, ColumnCount, FrozenRowCount)))
  }

  /** The value write of `execute`, if any: none for no rows, else overwrite or append. */
  function ValueWrite(spreadsheetId: string, name: string, values: seq<Row>, needsNewSheet: bool): seq<Call>
  {
    if values == [] then []
    else if needsNewSheet then [UpdateValues(spreadsheetId, SheetFromA1(name), values, Raw)]
    else [AppendValues(spreadsheetId, WholeSheet(name), values, Raw, InsertRows)]
  }

  /** The calls `execute` means to issue, in order: the structural batch, then the value write. */
  function ExecutePlan(spreadsheetId: string, requests: seq<Request>, name: string, values: seq<Row>,
                       needsNewSheet: bool): seq<Call>
  {
    (if requests == [] then [] else [BatchUpdate(spreadsheetId, requests)])
    + ValueWrite(spreadsheetId, name, values, needsNewSheet)
  }

  /**
   * The plan of `execute`: a structural batch goes out exactly when requests are
   * staged, carrying all of them, and comes before every value write.
   */
  lemma PlanStructureFirst(id: string, requests: seq<Request>, name: string, values: seq<Row>, needsNewSheet: bool)
    ensures var plan := ExecutePlan(id, requests, name, values, needsNewSheet);
      && (requests != [] <==> exists i :: 0 <= i < |plan| && plan[i].BatchUpdate?)
      && (forall i :: 0 <= i < |plan| && plan[i].BatchUpdate? ==> plan[i] == BatchUpdate(id, requests))
      && (forall i, j :: 0 <= i < |plan| && 0 <= j < |plan| && plan[i].BatchUpdate? && plan[j].IsValueWrite() ==> i < j)
  {
    var plan := ExecutePlan(id, requests, name, values, needsNewSheet);
    var w := ValueWrite(id, name, values, needsNewSheet);
    assert forall k :: 0 <= k < |w| ==> w[k].IsValueWrite();
    if requests == [] {
      assert plan == w;
    } else {
      assert plan == [BatchUpdate(id, requests)] + w;
      assert plan[0].BatchUpdate?;
      assert forall k :: 1 <= k < |plan| ==> plan[k] == w[k - 1];
    }
  }

  /**
   * The value write of the plan: nothing when no rows are staged; otherwise one
   * write of all staged rows, an overwrite from `name!A1` for a new worksheet and
   * an append with row insertion for an existing one.
   */
  lemma PlanValueWrite(id: string, requests: seq<Request>, name: string, values: seq<Row>, needsNewSheet: bool)
    ensures var plan := ExecutePlan(id, requests, name, values, needsNewSheet);
      && (values == [] ==> forall i :: 0 <= i < |plan| ==> !plan[i].IsValueWrite())
      && (values != [] ==> plan[|plan| - 1].IsValueWrite() && plan[|plan| - 1].rows == values
                           && plan[|plan| - 1].range.sheet == name)
      && (values != [] && needsNewSheet ==>
            plan[|plan| - 1].UpdateValues? && plan[|plan| - 1].range.Notation() == name + "!A1")
      && (values != [] && !needsNewSheet ==>
            plan[|plan| - 1].AppendValues? && plan[|plan| - 1].insertDataOption == InsertRows)
      && (forall i :: 0 <= i < |plan| && plan[i].IsValueWrite() ==> i == |plan| - 1)
  {
    var plan := ExecutePlan(id, requests, name, values, needsNewSheet);
    if requests != [] {
      assert plan[0].BatchUpdate?;
    }
  }

  /**
   * A run against a worksheet that does not exist yet, with the plan the builder
   * makes for it (one add-sheet request; the header row first, then the data):
   * it succeeds exactly when neither call hits an outage, and then the new
   * worksheet has the builder's layout, holds the header at row 1 and the data
   * below it, and nothing else changes. A failed batch changes nothing; a failed
   * overwrite after it leaves the new worksheet added and empty.
   */
  lemma {:induction false} NewSheetRun(books: Books, outage: set<CallKind>, id: string, name: string,
                                       header: Row, data: seq<Row>)
    requires id in books && books[id].Valid() && name !in books[id].Titles()
    ensures var run := Run(books, outage, ExecutePlan(id, [CreateSheetRequest(name)], name, [header] + data, true));
      && (run.failure.None? <==> BatchKind !in outage && UpdateKind !in outage)
      && (run.failure.None? ==>
            && run.books[id].Valid()
            && run.books[id].sheets == books[id].sheets + [SheetProperties(name, GridProperties(500, 5, 1))]
            && run.books[id].cells.Keys == books[id].cells.Keys + {name}
            && run.books[id].cells[name] == [header] + data
            && (forall t :: t in books[id].cells ==> run.books[id].cells[t] == books[id].cells[t])
            && (forall other :: other in books && other != id ==> run.books[other] == books[other]))
      && (BatchKind in outage ==> run.books == books && run.issued == 1)
      && (BatchKind !in outage && UpdateKind in outage ==>
            run.issued == 2 && run.books[id].Valid() && SheetAdded(books[id], run.books[id], name, []))
  {
    var req := CreateSheetRequest(name);
    var rows := [header] + data;
    var batch := BatchUpdate(id, [req]);
    var write := UpdateValues(id, SheetFromA1(name), rows, Raw);
    assert ExecutePlan(id, [req], name, rows, true) == [batch, write];
    var book := books[id];
    var added := Spreadsheet(book.sheets + [req.properties], book.cells[name := []]);
    AddSheetTitles(book, req.properties, added);
    assert AddSheets(book, [req]) == Success(added) by {
      assert [req][1..] == [];
    }
    var b1 := books[id := added];
    var b2 := b1[id := added.(cells := added.cells[name := Overlay(rows, [])])];
    OverlayEmpty(rows);
    RunStep(books, outage, [batch, write]);
    RunStep(b1, outage, [write]);
    assert [batch, write][1..] == [write];
    if BatchKind !in outage {
      assert Apply(books, outage, batch) == Success(b1);
      if UpdateKind !in outage {
        assert Apply(b1, outage, write) == Success(b2);
      }
    }
  }

  /**
   * A run against a worksheet that exists, with the plan the builder makes for it
   * (no structural request; the data only, no header): no structural call goes
   * out, and the run succeeds exactly when the append does; the rows then follow
   * the worksheet's existing rows in the order given, and nothing else changes.
   * A failed append changes nothing.
   */
  lemma {:induction false} ExistingSheetRun(books: Books, outage: set<CallKind>, id: string, name: string,
                                            data: seq<Row>)
    requires id in books && name in books[id].cells
    ensures var plan := ExecutePlan(id, [], name, data, false);
      var run := Run(books, outage, plan);
      && (forall i :: 0 <= i < |plan| ==> !plan[i].BatchUpdate?)
      && (run.failure.None? <==> data == [] || AppendKind !in outage)
      && (run.failure.None? ==>
            && run.books[id].sheets == books[id].sheets
            && run.books[id].cells.Keys == books[id].cells.Keys
            && run.books[id].cells[name] == books[id].cells[name] + data
            && (forall t :: t in books[id].cells && t != name ==> run.books[id].cells[t] == books[id].cells[t])
            && (forall other :: other in books && other != id ==> run.books[other] == books[other]))
      && (data != [] && AppendKind in outage ==> run.books == books && run.issued == 1)
  {
    var plan := ExecutePlan(id, [], name, data, false);
    if data == [] {
      assert plan == [];
      assert books[id].cells[name] + data == books[id].cells[name];
    } else {
      var write := AppendValues(id, WholeSheet(name), data, Raw, InsertRows);
      assert plan == [write];
      var step := Apply(books, outage, write);
      assert Run(books, outage, plan) == (if step.Success? then RunResult(step.value, 1, None) else RunResult(books, 1, Some(step.error)));
    }
  }

  /** One step of a run: the first call, then the rest from the state it leaves. */
  lemma RunStep(books: Books, outage: set<CallKind>, calls: seq<Call>)
    requires calls != []
    ensures Run(books, outage, calls) ==
      var s := Apply(books, outage, calls[0]);
      if s.Failure? then RunResult(books, 1, Some(s.error))
      else var rest := Run(s.value, outage, calls[1..]); RunResult(rest.books, rest.issued + 1, rest.failure)
  {
  }

  /**
   * The shape of the plan for a worksheet found missing: the structural batch
   * comes first and adds worksheets with the builder's layout only, and the
   * staged rows, if any, go to `name!A1` in one overwrite right after it.
   */
  ghost predicate NewSheetPlan(id: string, requests: seq<Request>, name: string, values: seq<Row>)
  {
    var plan := ExecutePlan(id, requests, name, values, true);
    && |plan| >= 1 && plan[0] == BatchUpdate(id, requests)
    && (forall i :: 0 <= i < |requests| ==> requests[i].properties.gridProperties == GridProperties(500, 5, 1))
    && (values != [] ==> |plan| == 2 && plan[1].UpdateValues? && plan[1].range.Notation() == name + "!A1")
  }

  /**
   * `SheetOperationBuilder`: the target worksheet, the structural requests and
   * the value rows staged so far, and whether the target was found missing.
   * The two lists only ever grow.
   */
  class SheetOperationBuilder {
    const service: SheetsService
    const spreadsheetId: string
    var requests: seq<Request>
    var sheetName: Option<string>
    var values: seq<Row>
    var needsNewSheet: bool

    /**
     * Every staged request adds a worksheet with the builder's layout, and a
     * worksheet found missing has its add-sheet request staged.
     */
    ghost predicate Valid()
      reads this
    {
      && (forall i :: 0 <= i < |requests| ==> requests[i] == CreateSheetRequest(requests[i].properties.title))
      && (needsNewSheet ==> requests != [])
    }

    /**
     * What the invariant buys `execute`: once the target was found missing, the
     * plan opens with a structural batch of add-sheet requests, each with the
     * 500x5 layout and one frozen row, and the rows are overwritten from `name!A1`.
     */
    lemma PlanOfValidBuilder()
      requires Valid() && sheetName.Some?
      ensures needsNewSheet ==> NewSheetPlan(spreadsheetId, requests, sheetName.value, values)
    {
      if needsNewSheet {
        var plan := ExecutePlan(spreadsheetId, requests, sheetName.value, values, true);
        assert plan[0] == BatchUpdate(spreadsheetId, requests);
        forall i | 0 <= i < |requests|
          ensures requests[i].properties.gridProperties == GridProperties(500, 5, 1)
        {
          assert requests[i] == CreateSheetRequest(requests[i].properties.title);
        }
      }
    }

    constructor (service: SheetsService, spreadsheetId: string)
      ensures Valid()
      ensures this.service == service && this.spreadsheetId == spreadsheetId
      ensures requests == [] && values == [] && !needsNewSheet && sheetName == None
    {
      this.service := service;
      this.spreadsheetId := spreadsheetId;
      requests := [];
      sheetName := None;
      values := [];
      needsNewSheet := false;
    }

    /** `forSheet`: records the target worksheet and changes nothing else. */
    method ForSheet(name: string)
      requires Valid()
      modifies this
      ensures Valid()
      ensures sheetName == Some(name)
      ensures requests == old(requests) && values == old(values) && needsNewSheet == old(needsNewSheet)
    {
      sheetName := Some(name);
    }

    /** `isSheetMissing`: fetches the worksheet list and tests that no title is the target. */
    method IsSheetMissing() returns (r: Result<bool, IoError>)
      requires sheetName.Some?
      modifies service
      ensures service.books == old(service.books)
      ensures service.trace == old(service.trace) + [GetSpreadsheet(spreadsheetId)]
      ensures r.Success? <==> Apply(service.books, service.outage, GetSpreadsheet(spreadsheetId)).Success?
      ensures r.Success? ==> r.value == (sheetName.value !in service.books[spreadsheetId].Titles())
      ensures r.Failure? ==> r.error == Apply(service.books, service.outage, GetSpreadsheet(spreadsheetId)).error
    {
      var sheets := service.SpreadsheetsGet(spreadsheetId);
      if sheets.Success? {
        NoneMatchTitles(service.books[spreadsheetId], sheetName.value);
        r := Success(NoneMatch(sheets.value, sheetName.value));
      } else {
        r := Failure(sheets.error);
      }
    }

    /**
     * `createSheetIfMissing`: one fetch of the worksheet list; on success
     * `needsNewSheet` says whether the target is missing, and exactly one
     * add-sheet request for it is staged when it is. A failed fetch surfaces as
     * the builder's exception and leaves the builder as it was.
     */
    method CreateSheetIfMissing() returns (r: Outcome<SheetException>)
      requires Valid() && sheetName.Some?
      modifies this, service
      ensures Valid()
      ensures sheetName == old(sheetName) && values == old(values)
      ensures service.books == old(service.books)
      ensures service.trace == old(service.trace) + [GetSpreadsheet(spreadsheetId)]
      ensures r.Pass? <==> Apply(service.books, service.outage, GetSpreadsheet(spreadsheetId)).Success?
      ensures r.Pass? ==> needsNewSheet == (sheetName.value !in service.books[spreadsheetId].Titles())
      ensures r.Pass? ==> requests == old(requests) + (if needsNewSheet then [CreateSheetRequest(sheetName.value)] else [])
      ensures r.Fail? ==> r.error == SheetException(BuilderFailureCode, CheckFailureMessage)
      ensures r.Fail? ==> needsNewSheet == old(needsNewSheet) && requests == old(requests)
    {
      var missing := IsSheetMissing();
      if missing.Failure? {
        r := Fail(NewExceptionWithCause(BuilderFailureCode, CheckFailureMessage, missing.error));
        return;
      }
      needsNewSheet := missing.value;
      if needsNewSheet {
        requests := requests + [CreateSheetRequest(sheetName.value)];
      }
      r := Pass;
    }

    /** `withHeaders`: stages the header row after the staged rows only for a new worksheet. */
    method WithHeaders(headers: Row)
      requires Valid()
      modifies this
      ensures Valid()
      ensures values == if needsNewSheet then old(values) + [headers] else old(values)
      ensures requests == old(requests) && sheetName == old(sheetName) && needsNewSheet == old(needsNewSheet)
    {
      if needsNewSheet {
        values := values + [headers];
      }
    }

    /** `withValues`: stages all of `rows`, in order, after the staged rows. */
    method WithValues(rows: seq<Row>)
      requires Valid()
      modifies this
      ensures Valid()
      ensures values == old(values) + rows
      ensures requests == old(requests) && sheetName == old(sheetName) && needsNewSheet == old(needsNewSheet)
    {
      values := values + rows;
    }

    /**
     * `execute`: issues the plan (structural batch if any requests, then the
     * value write if any rows) and stops at the first failure, which surfaces
     * as the builder's exception. The builder itself is left as it was.
     */
    method Execute() returns (r: Outcome<SheetException>)
      requires sheetName.Some?
      modifies service
      ensures var plan := ExecutePlan(spreadsheetId, requests, sheetName.value, values, needsNewSheet);
        var run := Run(old(service.books), service.outage, plan);
        && service.trace == old(service.trace) + plan[..run.issued]
        && service.books == run.books
        && (r.Pass? <==> run.failure.None?)
        && (r.Fail? ==> r.error == SheetException(BuilderFailureCode, ExecuteFailureMessage))
    {
      ghost var write := ValueWrite(spreadsheetId, sheetName.value, values, needsNewSheet);
      if requests != [] {
        ghost var batch := BatchUpdate(spreadsheetId, requests);
        ghost var before := service.books;
        var o := service.Send(BatchUpdate(spreadsheetId, requests));
        RunStep(before, service.outage, [batch] + write);
        assert ([batch] + write)[1..] == write;
        if o.Fail? {
          r := Fail(NewExceptionWithCause(BuilderFailureCode, ExecuteFailureMessage, o.error));
          return;
        }
      }
      r := WriteValues();
    }

    /** The value write of `execute`, issued once the structural batch (if any) went through. */
    method WriteValues() returns (r: Outcome<SheetException>)
      requires sheetName.Some?
      modifies service
      ensures var write := ValueWrite(spreadsheetId, sheetName.value, values, needsNewSheet);
        var run := Run(old(service.books), service.outage, write);
        && service.trace == old(service.trace) + write[..run.issued]
        && service.books == run.books
        && (r.Pass? <==> run.failure.None?)
        && (r.Fail? ==> r.error == SheetException(BuilderFailureCode, ExecuteFailureMessage))
    {
      if values == [] {
        r := Pass;
        return;
      }
      var call;
      if needsNewSheet {
        call := UpdateValues(spreadsheetId, SheetFromA1(sheetName.value), values, Raw);
      } else {
        call := AppendValues(spreadsheetId, WholeSheet(sheetName.value), values, Raw, InsertRows);
      }
      ghost var before := service.books;
      var o := service.Send(call);
      RunStep(before, service.outage, [call]);
      if o.Fail? {
        r := Fail(NewExceptionWithCause(BuilderFailureCode, ExecuteFailureMessage, o.error));
      } else {
        r := Pass;
      }
    }
  }

  /** `after` is `before` with the worksheet `name` added in the builder's layout and holding `rows`. */
  ghost predicate SheetAdded(before: Spreadsheet, after: Spreadsheet, name: string, rows: seq<Row>)
  {
    && after.sheets == before.sheets + [SheetProperties(name, GridProperties(500, 5, 1))]
    && after.cells.Keys == before.cells.Keys + {name}
    && after.cells[name] == rows
    && forall t :: t in before.cells ==> t in after.cells && after.cells[t] == before.cells[t]
  }

  /** `after` is `before` with `rows` following the existing rows of worksheet `name`. */
  ghost predicate RowsAppended(before: Spreadsheet, after: Spreadsheet, name: string, rows: seq<Row>)
  {
    && after.sheets == before.sheets
    && name in before.cells && name in after.cells && after.cells[name] == before.cells[name] + rows
    && forall t :: t in before.cells && t != name ==> t in after.cells && after.cells[t] == before.cells[t]
  }

  /**
   * The builder driven in the order the system intends (forSheet,
   * createSheetIfMissing, withHeaders with the order header row, withValues,
   * execute) against one spreadsheet; the code itself has no such call site.
   * Only the target spreadsheet can change. A failed existence check is the
   * only call and changes nothing. On success a missing worksheet was added by
   * one batch and now holds the header at row 1 and the rows below it; an
   * existing worksheet got one append (none for no rows) and holds its old rows
   * followed by the new ones, with no header; no other worksheet changed.
   */
  method UpdateSheet(service: SheetsService, spreadsheetId: string, name: string, rows: seq<Row>)
    returns (r: Outcome<SheetException>)
    requires service.Valid()
    modifies service
    ensures service.Valid()
    ensures service.books.Keys == old(service.books).Keys
    ensures forall other :: other in old(service.books) && other != spreadsheetId ==>
      service.books[other] == old(service.books)[other]
    ensures r.Fail? ==>
      r.error == SheetException(BuilderFailureCode, CheckFailureMessage)
      || r.error == SheetException(BuilderFailureCode, ExecuteFailureMessage)
    ensures (r.Fail? && r.error.message == CheckFailureMessage)
      <==> GetKind in service.outage || spreadsheetId !in old(service.books)
    ensures r.Fail? && r.error.message == CheckFailureMessage ==>
      service.books == old(service.books) && service.trace == old(service.trace) + [GetSpreadsheet(spreadsheetId)]
    ensures spreadsheetId in old(service.books) && name !in old(service.books)[spreadsheetId].Titles() ==>
      (r.Pass? <==> GetKind !in service.outage && BatchKind !in service.outage && UpdateKind !in service.outage)
    ensures spreadsheetId in old(service.books) && name in old(service.books)[spreadsheetId].Titles() ==>
      (r.Pass? <==> GetKind !in service.outage && (rows == [] || AppendKind !in service.outage))
    ensures r.Pass? ==> spreadsheetId in old(service.books)
    ensures r.Pass? && name !in old(service.books)[spreadsheetId].Titles() ==>
      && SheetAdded(old(service.books)[spreadsheetId], service.books[spreadsheetId], name, [Orders.Headers] + rows)
      && service.trace == old(service.trace) + [GetSpreadsheet(spreadsheetId),
           BatchUpdate(spreadsheetId, [CreateSheetRequest(name)]),
           UpdateValues(spreadsheetId, SheetFromA1(name), [Orders.Headers] + rows, Raw)]
    ensures r.Pass? && name in old(service.books)[spreadsheetId].Titles() ==>
      && RowsAppended(old(service.books)[spreadsheetId], service.books[spreadsheetId], name, rows)
      && service.trace == old(service.trace) + [GetSpreadsheet(spreadsheetId)]
           + (if rows == [] then [] else [AppendValues(spreadsheetId, WholeSheet(name), rows, Raw, InsertRows)])
    ensures GetKind !in service.outage && spreadsheetId in old(service.books)
            && name !in old(service.books)[spreadsheetId].Titles() && BatchKind in service.outage ==>
      && service.books == old(service.books)
      && service.trace == old(service.trace) + [GetSpreadsheet(spreadsheetId),
           BatchUpdate(spreadsheetId, [CreateSheetRequest(name)])]
    ensures GetKind !in service.outage && spreadsheetId in old(service.books)
            && name !in old(service.books)[spreadsheetId].Titles()
            && BatchKind !in service.outage && UpdateKind in service.outage ==>
      && SheetAdded(old(service.books)[spreadsheetId], service.books[spreadsheetId], name, [])
      && service.trace == old(service.trace) + [GetSpreadsheet(spreadsheetId),
           BatchUpdate(spreadsheetId, [CreateSheetRequest(name)]),
           UpdateValues(spreadsheetId, SheetFromA1(name), [Orders.Headers] + rows, Raw)]
    ensures GetKind !in service.outage && spreadsheetId in old(service.books)
            && name in old(service.books)[spreadsheetId].Titles() && rows != [] && AppendKind in service.outage ==>
      && service.books == old(service.books)
      && service.trace == old(service.trace) + [GetSpreadsheet(spreadsheetId),
           AppendValues(spreadsheetId, WholeSheet(name), rows, Raw, InsertRows)]
  {
    var builder := new SheetOperationBuilder(service, spreadsheetId);
    builder.ForSheet(name);
    r := builder.CreateSheetIfMissing();
    if r.Fail? {
      return;
    }
    r := StageAndExecute(builder, name, rows);
    if r.Pass? && builder.needsNewSheet {
      assert service.trace == old(service.trace) + [GetSpreadsheet(spreadsheetId),
           BatchUpdate(spreadsheetId, [CreateSheetRequest(name)]),
           UpdateValues(spreadsheetId, SheetFromA1(name), [Orders.Headers] + rows, Raw)];
    }
  }

  /** The plan the builder makes once the existence check went through, header included only for a new worksheet. */
  function StagedPlan(id: string, name: string, rows: seq<Row>, isNew: bool): seq<Call>
  {
    ExecutePlan(id, if isNew then [CreateSheetRequest(name)] else [], name,
                if isNew then [Orders.Headers] + rows else rows, isNew)
  }

  /**
   * The run of the plan the builder makes once the existence check went through:
   * which outages make it fail, what it leaves in the spreadsheet, and which
   * calls it issues, on success and on failure. `execute` is not atomic: when
   * the overwrite fails after the batch went through, the new worksheet stays,
   * listed and empty.
   */
  lemma {:induction false} StagedRun(books: Books, outage: set<CallKind>, id: string, name: string, rows: seq<Row>,
                                     isNew: bool)
    requires id in books && books[id].Valid() && isNew == (name !in books[id].Titles())
    ensures var plan := StagedPlan(id, name, rows, isNew);
      var run := Run(books, outage, plan);
      var batch := BatchUpdate(id, [CreateSheetRequest(name)]);
      var update := UpdateValues(id, SheetFromA1(name), [Orders.Headers] + rows, Raw);
      var append := AppendValues(id, WholeSheet(name), rows, Raw, InsertRows);
      && run.books[id].Valid()
      && (forall other :: other in books && other != id ==> run.books[other] == books[other])
      && (isNew ==> (run.failure.None? <==> BatchKind !in outage && UpdateKind !in outage))
      && (!isNew ==> (run.failure.None? <==> rows == [] || AppendKind !in outage))
      && (run.failure.None? && isNew ==>
            SheetAdded(books[id], run.books[id], name, [Orders.Headers] + rows) && plan[..run.issued] == [batch, update])
      && (run.failure.None? && !isNew ==>
            RowsAppended(books[id], run.books[id], name, rows)
            && plan[..run.issued] == (if rows == [] then [] else [append]))
      && (isNew && BatchKind in outage ==> run.books == books && plan[..run.issued] == [batch])
      && (isNew && BatchKind !in outage && UpdateKind in outage ==>
            SheetAdded(books[id], run.books[id], name, []) && plan[..run.issued] == [batch, update])
      && (!isNew && rows != [] && AppendKind in outage ==> run.books == books && plan[..run.issued] == [append])
  {
    var plan := StagedPlan(id, name, rows, isNew);
    if isNew {
      NewSheetRun(books, outage, id, name, Orders.Headers, rows);
      assert plan == [BatchUpdate(id, [CreateSheetRequest(name)]),
                      UpdateValues(id, SheetFromA1(name), [Orders.Headers] + rows, Raw)];
    } else {
      assert name in books[id].cells;
      ExistingSheetRun(books, outage, id, name, rows);
    }
    assert forall i :: 0 <= i < |plan| ==> plan[i].spreadsheetId == id;
    RunLeavesOthers(books, outage, plan, id);
    assert plan[..|plan|] == plan;
  }

  /**
   * A retry after a partial failure: the overwrite failed after the batch went
   * through, so the retried existence check finds the worksheet, the retry takes
   * the existing-worksheet path, and the worksheet ends with the rows and no
   * header row.
   */
  lemma {:induction false} RetryAfterPartialRun(books: Books, outage: set<CallKind>, retryOutage: set<CallKind>,
                                                id: string, name: string, rows: seq<Row>)
    requires id in books && books[id].Valid() && name !in books[id].Titles()
    requires BatchKind !in outage && UpdateKind in outage
    requires AppendKind !in retryOutage
    ensures var first := Run(books, outage, StagedPlan(id, name, rows, true));
      && first.failure.Some?
      && id in first.books && first.books[id].Valid() && name in first.books[id].Titles()
      && var second := Run(first.books, retryOutage, StagedPlan(id, name, rows, false));
         && second.failure.None?
         && name in second.books[id].cells && second.books[id].cells[name] == rows
  {
    StagedRun(books, outage, id, name, rows, true);
    var first := Run(books, outage, StagedPlan(id, name, rows, true));
    var after := first.books[id];
    assert after.sheets[|books[id].sheets|].title == name;
    StagedRun(first.books, retryOutage, id, name, rows, false);
    assert [] + rows == rows;
  }

  /**
   * The second half of `UpdateSheet`, once the existence check went through:
   * stage the header (kept only for a new worksheet) and the rows, then execute.
   */
  method StageAndExecute(builder: SheetOperationBuilder, name: string, rows: seq<Row>)
    returns (r: Outcome<SheetException>)
    requires builder.Valid() && builder.sheetName == Some(name) && builder.values == []
    requires builder.service.Valid() && builder.spreadsheetId in builder.service.books
    requires builder.needsNewSheet == (name !in builder.service.books[builder.spreadsheetId].Titles())
    requires builder.requests == if builder.needsNewSheet then [CreateSheetRequest(name)] else []
    modifies builder, builder.service
    ensures builder.needsNewSheet == old(builder.needsNewSheet)
    ensures builder.service.Valid()
    ensures builder.service.books.Keys == old(builder.service.books).Keys
    ensures forall other :: other in old(builder.service.books) && other != builder.spreadsheetId ==>
      builder.service.books[other] == old(builder.service.books)[other]
    ensures r.Fail? ==> r.error == SheetException(BuilderFailureCode, ExecuteFailureMessage)
    ensures builder.needsNewSheet ==>
      (r.Pass? <==> BatchKind !in builder.service.outage && UpdateKind !in builder.service.outage)
    ensures !builder.needsNewSheet ==> (r.Pass? <==> rows == [] || AppendKind !in builder.service.outage)
    ensures r.Pass? && builder.needsNewSheet ==>
      && SheetAdded(old(builder.service.books)[builder.spreadsheetId], builder.service.books[builder.spreadsheetId],
                    name, [Orders.Headers] + rows)
      && builder.service.trace == old(builder.service.trace) + [BatchUpdate(builder.spreadsheetId, [CreateSheetRequest(name)]),
           UpdateValues(builder.spreadsheetId, SheetFromA1(name), [Orders.Headers] + rows, Raw)]
    ensures r.Pass? && !builder.needsNewSheet ==>
      && RowsAppended(old(builder.service.books)[builder.spreadsheetId], builder.service.books[builder.spreadsheetId],
                      name, rows)
      && builder.service.trace == old(builder.service.trace)
           + (if rows == [] then [] else [AppendValues(builder.spreadsheetId, WholeSheet(name), rows, Raw, InsertRows)])
    ensures builder.needsNewSheet && BatchKind in builder.service.outage ==>
      && builder.service.books == old(builder.service.books)
      && builder.service.trace == old(builder.service.trace) + [BatchUpdate(builder.spreadsheetId, [CreateSheetRequest(name)])]
    ensures builder.needsNewSheet && BatchKind !in builder.service.outage && UpdateKind in builder.service.outage ==>
      && SheetAdded(old(builder.service.books)[builder.spreadsheetId], builder.service.books[builder.spreadsheetId], name, [])
      && builder.service.trace == old(builder.service.trace) + [BatchUpdate(builder.spreadsheetId, [CreateSheetRequest(name)]),
           UpdateValues(builder.spreadsheetId, SheetFromA1(name), [Orders.Headers] + rows, Raw)]
    ensures !builder.needsNewSheet && rows != [] && AppendKind in builder.service.outage ==>
      && builder.service.books == old(builder.service.books)
      && builder.service.trace == old(builder.service.trace)
           + [AppendValues(builder.spreadsheetId, WholeSheet(name), rows, Raw, InsertRows)]
  {
    ghost var books := builder.service.books;
    ghost var trace := builder.service.trace;
    ghost var plan := StagedPlan(builder.spreadsheetId, name, rows, builder.needsNewSheet);
    ghost var run := Run(books, builder.service.outage, plan);
    assert books[builder.spreadsheetId].Valid();
    StagedRun(books, builder.service.outage, builder.spreadsheetId, name, rows, builder.needsNewSheet);
    builder.WithHeaders(Orders.Headers);
    builder.WithValues(rows);
    assert builder.values == if builder.needsNewSheet then [Orders.Headers] + rows else rows;
    r := builder.Execute();
    assert builder.service.books == run.books && builder.service.trace == trace + plan[..run.issued];
  }
}
