/**
 * The order record received from the shop's webhook and its conversion into a
 * worksheet row.
 */
module Orders {
  import opened Wrappers
  import opened Cells

  /**
   * The webhook payload. The reference-typed fields may be `null` after JSON
   * binding (`None`); `quantity` is a primitive `int` and is always present.
   */
  datatype WebHookRequest = WebHookRequest(
    id: Option<string>,
    productName: Option<string>,
    quantity: int32,
    price: Option<Decimal>,
    cost: Option<Decimal>)

  /** The exception `List.of` throws when handed a `null` element. */
  datatype NullPointerException = NullPointerException

  /** The number of cells in an order row. */
  const RowWidth := 5

  /**
   * The header row of the order worksheet (`HEADERS` of the Google Sheets
   * service). The builder is handed it through `withHeaders` in the call order
   * `UpdateSheet` follows; that order is the system's intended use of the
   * builder, not a call site in the code, which writes these headers only on
   * the separate customer-sheet path.
   */
  const Headers: Row := [Text("ID"), Text("ITEM"), Text("AMOUNT"), Text("PRICE"), Text("COST")]

  /** All reference-typed fields are non-null. */
  predicate Complete(req: WebHookRequest)
  {
    req.id.Some? && req.productName.Some? && req.price.Some? && req.cost.Some?
  }

  /**
   * `getSheetRow`: the five cells id, product name, quantity, price and cost, in
   * that order, with the decimals copied unchanged; fails when any of the
   * reference-typed fields is null.
   */
  function GetSheetRow(req: WebHookRequest): (r: Result<Row, NullPointerException>)
    ensures r.Success? <==> Complete(req)
    ensures r.Success? ==> |r.value| == RowWidth == |Headers|
    ensures r.Success? ==> r.value[2] == Int(req.quantity)
    ensures r.Success? ==> r.value[3].Dec? && r.value[3].decimal == req.price.value
    ensures r.Success? ==> r.value[4].Dec? && r.value[4].decimal == req.cost.value
  {
    if Complete(req) then
      Success([Text(req.id.value), Text(req.productName.value), Int(req.quantity), Dec(req.price.value), Dec(req.cost.value)])
    else
      Failure(NullPointerException)
  }

  /** Reads an order back from a row of the shape `getSheetRow` produces. */
  function ParseRow(row: Row): (r: Option<WebHookRequest>)
    ensures r.Some? ==> Complete(r.value)
  {
    if |row| == RowWidth && row[0].Text? && row[1].Text? && row[2].Int? && row[3].Dec? && row[4].Dec? then
      Some(WebHookRequest(Some(row[0].text), Some(row[1].text), row[2].number, Some(row[3].decimal), Some(row[4].decimal)))
    else
      None
  }

  /**
   * The conversion loses nothing: a complete order is recovered exactly from its
   * row, decimals included, and the row identifies the order.
   */
  lemma SheetRowRoundTrip(req: WebHookRequest)
    ensures GetSheetRow(req).Success? ==> ParseRow(GetSheetRow(req).value) == Some(req)
  {
  }

  /** Conversely, every row that parses is the row of the order it parses to. */
  lemma ParseRowRoundTrip(row: Row)
    ensures ParseRow(row).Some? ==> GetSheetRow(ParseRow(row).value) == Success(row)
  {
    if ParseRow(row).Some? {
      var req := ParseRow(row).value;
      assert row == [row[0], row[1], row[2], row[3], row[4]];
      assert GetSheetRow(req).value == [row[0], row[1], row[2], row[3], row[4]];
    }
  }

  /** Two complete orders with the same row are the same order. */
  lemma SheetRowInjective(a: WebHookRequest, b: WebHookRequest)
    requires Complete(a) && Complete(b)
    ensures GetSheetRow(a) == GetSheetRow(b) ==> a == b
  {
    SheetRowRoundTrip(a);
    SheetRowRoundTrip(b);
  }
}
