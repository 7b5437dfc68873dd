/**
 * An abstract model of the remote spreadsheet service the builder talks to.
 * Each spreadsheet is its ordered list of worksheet properties plus the rows of
 * every worksheet; the service keeps a trace of the calls issued to it, and any
 * call may fail with an I/O error. Only the four calls the builder issues are
 * modelled: fetch a spreadsheet, a structural batch update (add worksheets),
 * overwrite values from the first cell, and append rows after the last row.
 */
module SheetsClient {
  import opened Wrappers
  import opened Cells

  datatype GridProperties = GridProperties(rowCount: int, columnCount: int, frozenRowCount: int)

  datatype SheetProperties = SheetProperties(title: string, gridProperties: GridProperties)

  /** A structural request; the builder only ever stages "add sheet". */
  datatype Request = AddSheet(properties: SheetProperties)

  /** One spreadsheet: its worksheets in order, and the rows of each worksheet by title. */
  datatype Spreadsheet = Spreadsheet(sheets: seq<SheetProperties>, cells: map<string, seq<Row>>)
  {
    /** The titles of the worksheets. */
    function Titles(): set<string>
    {
      set i | 0 <= i < |sheets| :: sheets[i].title
    }

    /** Every listed worksheet has rows and every set of rows belongs to a listed worksheet. */
    ghost predicate Valid()
    {
      cells.Keys == Titles()
    }
  }

  /** All spreadsheets the service knows, by spreadsheet id. */
  type Books = map<string, Spreadsheet>

  /** A range in A1 notation: a worksheet's first cell, or the whole worksheet. */
  datatype Range = SheetFromA1(sheet: string) | WholeSheet(sheet: string)
  {
    function Notation(): (text: string)
      ensures SheetFromA1? ==> |text| == |sheet| + 3 && text[..|sheet|] == sheet && text[|sheet|..] == "!A1"
      ensures WholeSheet? ==> text == sheet
    {
      match this
      case SheetFromA1(s) => s + "!A1"
      case WholeSheet(s) => s
    }
  }

  datatype ValueInputOption = Raw | UserEntered

  datatype InsertDataOption = InsertRows | Overwrite

  /** A call as it appears in the service's trace. */
  datatype Call =
    | GetSpreadsheet(spreadsheetId: string)
    | BatchUpdate(spreadsheetId: string, requests: seq<Request>)
    | UpdateValues(spreadsheetId: string, range: Range, rows: seq<Row>, valueInputOption: ValueInputOption)
    | AppendValues(spreadsheetId: string, range: Range, rows: seq<Row>, valueInputOption: ValueInputOption,
                   insertDataOption: InsertDataOption)
  {
    /** A call that writes cell values. */
    predicate IsValueWrite()
    {
      UpdateValues? || AppendValues?
    }

    function Kind(): CallKind
    {
      match this
      case GetSpreadsheet(_) => GetKind
      case BatchUpdate(_, _) => BatchKind
      case UpdateValues(_, _, _, _) => UpdateKind
      case AppendValues(_, _, _, _, _) => AppendKind
    }
  }

  datatype CallKind = GetKind | BatchKind | UpdateKind | AppendKind

  /** The I/O failures a call can end in. */
  datatype IoError =
    | SpreadsheetNotFound   // the spreadsheet id does not resolve
    | SheetAlreadyExists    // an added worksheet's title is taken
    | UnknownRange          // a value write names a worksheet that does not exist
    | Unavailable           // transport or service failure

  /** No requested title is taken already, and no two requests share a title. */
  ghost predicate FreshTitles(book: Spreadsheet, requests: seq<Request>)
  {
    && (forall i :: 0 <= i < |requests| ==> requests[i].properties.title !in book.Titles())
    && (forall i, j :: 0 <= i < j < |requests| ==> requests[i].properties.title != requests[j].properties.title)
  }

  /** The titles a batch of add-sheet requests asks for. */
  function RequestedTitles(requests: seq<Request>): set<string>
  {
    set i | 0 <= i < |requests| :: requests[i].properties.title
  }

  /**
   * A structural batch, applied request by request: each added worksheet goes
   * to the end of the list with no rows. The batch is atomic: one taken title
   * rejects all of it.
   */
  function AddSheets(book: Spreadsheet, requests: seq<Request>): (r: Result<Spreadsheet, IoError>)
    ensures r.Success? <==> FreshTitles(book, requests)
    ensures r.Failure? ==> r.error == SheetAlreadyExists
    decreases |requests|
  {
    if requests == [] then Success(book)
    else
      var p := requests[0].properties;
      if p.title in book.Titles() then
        assert !FreshTitles(book, requests) by { assert requests[0].properties.title in book.Titles(); }
        Failure(SheetAlreadyExists)
      else
        var next := Spreadsheet(book.sheets + [p], book.cells[p.title := []]);
        AddSheetTitles(book, p, next);
        FreshTitlesCons(book, requests, next);
        AddSheets(next, requests[1..])
  }

  /**
   * What a successful batch does to the rows: every requested worksheet starts
   * empty, every other worksheet keeps its rows, and a spreadsheet whose list
   * and rows agreed still agrees.
   */
  lemma {:induction false} AddSheetsCells(book: Spreadsheet, requests: seq<Request>)
    requires AddSheets(book, requests).Success?
    ensures var b := AddSheets(book, requests).value;
      && b.cells.Keys == book.cells.Keys + RequestedTitles(requests)
      && (forall t :: t in RequestedTitles(requests) ==> b.cells[t] == [])
      && (forall t :: t in book.cells && t !in RequestedTitles(requests) ==> b.cells[t] == book.cells[t])
      && (book.Valid() ==> b.Valid())
    decreases |requests|
  {
    if requests != [] {
      var p := requests[0].properties;
      var next := Spreadsheet(book.sheets + [p], book.cells[p.title := []]);
      AddSheetsCells(next, requests[1..]);
      AddSheetTitles(book, p, next);
      RequestedTitlesCons(requests);
      assert p.title !in RequestedTitles(requests[1..]) by {
        forall i | 0 <= i < |requests[1..]| ensures requests[1..][i].properties.title != p.title {
          assert requests[1..][i] == requests[i + 1];
        }
      }
    }
  }

  /** Adding a worksheet to the end of the list adds its title and nothing else. */
  lemma AddSheetTitles(book: Spreadsheet, p: SheetProperties, next: Spreadsheet)
    requires next.sheets == book.sheets + [p]
    ensures next.Titles() == book.Titles() + {p.title}
  {
    assert next.sheets[|book.sheets|] == p;
    forall t | t in next.Titles() ensures t in book.Titles() + {p.title} {
      var i :| 0 <= i < |next.sheets| && next.sheets[i].title == t;
      if i < |book.sheets| { assert book.sheets[i] == next.sheets[i]; }
    }
    forall t | t in book.Titles() ensures t in next.Titles() {
      var i :| 0 <= i < |book.sheets| && book.sheets[i].title == t;
      assert next.sheets[i] == book.sheets[i];
    }
  }

  lemma RequestedTitlesCons(requests: seq<Request>)
    requires requests != []
    ensures RequestedTitles(requests) == {requests[0].properties.title} + RequestedTitles(requests[1..])
  {
    var rest := requests[1..];
    forall t | t in RequestedTitles(requests) ensures t in {requests[0].properties.title} + RequestedTitles(rest) {
      var i :| 0 <= i < |requests| && requests[i].properties.title == t;
      if i > 0 { assert rest[i - 1] == requests[i]; }
    }
    forall t | t in RequestedTitles(rest) ensures t in RequestedTitles(requests) {
      var i :| 0 <= i < |rest| && rest[i].properties.title == t;
      assert rest[i] == requests[i + 1];
    }
  }

  /**
   * A batch has fresh titles exactly when its first title is free and the rest
   * of the batch has fresh titles once the first worksheet is added.
   */
  lemma FreshTitlesCons(book: Spreadsheet, requests: seq<Request>, next: Spreadsheet)
    requires requests != []
    requires requests[0].properties.title !in book.Titles()
    requires next.Titles() == book.Titles() + {requests[0].properties.title}
    ensures FreshTitles(book, requests) <==> FreshTitles(next, requests[1..])
  {
    var rest := requests[1..];
    if FreshTitles(next, rest) {
      forall i, j | 0 <= i < j < |requests|
        ensures requests[i].properties.title != requests[j].properties.title
      {
        assert rest[j - 1] == requests[j];
        if i > 0 { assert rest[i - 1] == requests[i]; }
      }
      forall i | 0 <= i < |requests| ensures requests[i].properties.title !in book.Titles() {
        if i > 0 { assert rest[i - 1] == requests[i]; }
      }
    }
    if FreshTitles(book, requests) {
      forall i | 0 <= i < |rest| ensures rest[i].properties.title !in next.Titles() {
        assert rest[i] == requests[i + 1];
        assert requests[0].properties.title != requests[i + 1].properties.title;
      }
    }
  }

  /**
   * A write of `rows` starting at the first cell: row `i` of the result starts
   * with `rows[i]`, keeps whatever lay to the right of it, and rows below the
   * written block are untouched.
   */
  function Overlay(rows: seq<Row>, existing: seq<Row>): (r: seq<Row>)
    ensures |r| == if |rows| < |existing| then |existing| else |rows|
    ensures forall i :: 0 <= i < |rows| ==> |rows[i]| <= |r[i]| && r[i][..|rows[i]|] == rows[i]
    ensures forall i :: 0 <= i < |rows| && i < |existing| && |rows[i]| < |existing[i]| ==> r[i][|rows[i]|..] == existing[i][|rows[i]|..]
    ensures forall i :: |rows| <= i < |existing| ==> r[i] == existing[i]
  {
    var n := if |rows| < |existing| then |existing| else |rows|;
    seq(n, i requires 0 <= i < n =>
      if i >= |rows| then existing[i]
      else if i < |existing| && |rows[i]| < |existing[i]| then rows[i] + existing[i][|rows[i]|..]
      else rows[i])
  }

  /** On an empty worksheet a write from the first cell leaves exactly the rows written. */
  lemma OverlayEmpty(rows: seq<Row>)
    ensures Overlay(rows, []) == rows
  {
    var r := Overlay(rows, []);
    forall i | 0 <= i < |rows| ensures r[i] == rows[i] {
      assert r[i][..|rows[i]|] == rows[i];
    }
  }

  /**
   * What one call does to the service's spreadsheets: the new state, or the I/O
   * error the call ends in (the state is then unchanged). A fetch changes nothing.
   */
  function Apply(books: Books, outage: set<CallKind>, call: Call): (r: Result<Books, IoError>)
    ensures r.Success? ==> r.value.Keys == books.Keys
    ensures r.Success? ==> forall id :: id in books && id != call.spreadsheetId ==> r.value[id] == books[id]
    ensures call.GetSpreadsheet? && r.Success? ==> r.value == books
    ensures r.Success? <==> call.Kind() !in outage && call.spreadsheetId in books && match call
      case GetSpreadsheet(_) => true
      case BatchUpdate(id, requests) => FreshTitles(books[id], requests)
      case UpdateValues(id, range, _, _) => range.sheet in books[id].cells
      case AppendValues(id, range, _, _, _) => range.sheet in books[id].cells
  {
    if call.Kind() in outage then Failure(Unavailable)
    else if call.spreadsheetId !in books then Failure(SpreadsheetNotFound)
    else
      var book := books[call.spreadsheetId];
      match call
      case GetSpreadsheet(_) => Success(books)
      case BatchUpdate(id, requests) =>
        var added := AddSheets(book, requests);
        if added.Failure? then Failure(added.error) else Success(books[id := added.value])
      case UpdateValues(id, range, rows, _) =>
        if range.sheet !in book.cells then Failure(UnknownRange)
        else Success(books[id := book.(cells := book.cells[range.sheet := Overlay(rows, book.cells[range.sheet])])])
      case AppendValues(id, range, rows, _, _) =>
        if range.sheet !in book.cells then Failure(UnknownRange)
        else Success(books[id := book.(cells := book.cells[range.sheet := book.cells[range.sheet] + rows])])
  }

  /** Every spreadsheet of the service lists exactly the worksheets it has rows for. */
  ghost predicate ValidBooks(books: Books)
  {
    forall id :: id in books ==> books[id].Valid()
  }

  /** No call breaks the agreement between a spreadsheet's worksheet list and its rows. */
  lemma ApplyPreservesValid(books: Books, outage: set<CallKind>, call: Call)
    requires ValidBooks(books)
    ensures Apply(books, outage, call).Success? ==> ValidBooks(Apply(books, outage, call).value)
  {
    if Apply(books, outage, call).Success? && !call.GetSpreadsheet? {
      var b := Apply(books, outage, call).value;
      var id := call.spreadsheetId;
      if call.BatchUpdate? {
        AddSheetsCells(books[id], call.requests);
      }
      forall x | x in b ensures b[x].Valid() {
        if x == id && call.IsValueWrite() {
          assert b[x].sheets == books[x].sheets;
          assert b[x].cells.Keys == books[x].cells.Keys;
        }
      }
    }
  }

  /** The outcome of issuing calls one after another, stopping at the first failure. */
  datatype RunResult = RunResult(books: Books, issued: nat, failure: Option<IoError>)

  /**
   * Issues `calls` in order against `books`. `issued` counts the calls that went
   * out: all of them on success, up to and including the failing one otherwise;
   * `books` is the state after the calls that succeeded.
   */
  function Run(books: Books, outage: set<CallKind>, calls: seq<Call>): (r: RunResult)
    ensures r.issued <= |calls|
    ensures r.failure.None? ==> r.issued == |calls|
    ensures r.failure.Some? ==> 1 <= r.issued
    ensures r.books.Keys == books.Keys
    decreases |calls|
  {
    if calls == [] then RunResult(books, 0, None)
    else
      match Apply(books, outage, calls[0])
      case Failure(e) => RunResult(books, 1, Some(e))
      case Success(b) =>
        var rest := Run(b, outage, calls[1..]);
        RunResult(rest.books, rest.issued + 1, rest.failure)
  }

  /** Calls that all name one spreadsheet leave every other spreadsheet as it was, even when one fails. */
  lemma {:induction false} RunLeavesOthers(books: Books, outage: set<CallKind>, calls: seq<Call>, id: string)
    requires forall i :: 0 <= i < |calls| ==> calls[i].spreadsheetId == id
    ensures forall other :: other in books && other != id ==> Run(books, outage, calls).books[other] == books[other]
    decreases |calls|
  {
    if calls != [] {
      match Apply(books, outage, calls[0])
      case Failure(_) =>
      case Success(b) =>
        RunLeavesOthers(b, outage, calls[1..], id);
    }
  }

  /**
   * The remote service: its spreadsheets, the kinds of call that currently fail
   * with a transport error, and the trace of the calls issued so far.
   */
  class SheetsService {
    var books: Books
    const outage: set<CallKind>
    ghost var trace: seq<Call>

    ghost predicate Valid()
      reads this
    {
      ValidBooks(books)
    }

    constructor (books: Books, outage: set<CallKind>)
      ensures this.books == books && this.outage == outage && trace == []
    {
      this.books := books;
      this.outage := outage;
      trace := [];
    }

    /** Issues one call: it is appended to the trace, and the state moves as `Apply` says. */
    method Send(call: Call) returns (r: Outcome<IoError>)
      modifies this
      ensures trace == old(trace) + [call]
      ensures r.Pass? <==> Apply(old(books), outage, call).Success?
      ensures r.Pass? ==> books == Apply(old(books), outage, call).value
      ensures r.Fail? ==> books == old(books) && r.error == Apply(old(books), outage, call).error
      ensures old(Valid()) ==> Valid()
    {
      trace := trace + [call];
      if old(Valid()) { ApplyPreservesValid(books, outage, call); }
      match Apply(books, outage, call)
      case Success(b) =>
        books := b;
        r := Pass;
      case Failure(e) =>
        r := Fail(e);
    }

    /** `spreadsheets().get(id)`: the spreadsheet's worksheet list. */
    method SpreadsheetsGet(spreadsheetId: string) returns (r: Result<seq<SheetProperties>, IoError>)
      modifies this
      ensures trace == old(trace) + [GetSpreadsheet(spreadsheetId)]
      ensures books == old(books)
      ensures r.Success? <==> Apply(books, outage, GetSpreadsheet(spreadsheetId)).Success?
      ensures r.Success? ==> r.value == books[spreadsheetId].sheets
      ensures r.Failure? ==> r.error == Apply(books, outage, GetSpreadsheet(spreadsheetId)).error
    {
      var o := Send(GetSpreadsheet(spreadsheetId));
      if o.Pass? {
        r := Success(books[spreadsheetId].sheets);
      } else {
        r := Failure(o.error);
      }
    }
  }
}
