/** Turning parsed CSV rows into orders (`CSVParser.parseOrders`, after the text has been split
    into header-keyed rows): rows missing any of the three Portuguese columns are dropped, the
    rest are trimmed field by field. */
module CsvParser {
  import opened Common
  import opened Seqs
  import opened OrderValidator

  /** A CSV row keyed by header name; an absent key is a cell the row does not have. */
  type Row = map<string, string>

  const OrderNumberColumn: string := "Número do Pedido"
  const ShippingStatusColumn: string := "Status do Envio"
  const TrackingCodeColumn: string := "Código de rastreio do envio"

  /** A cell is truthy when the row has it and it is not the empty string. */
  predicate HasCell(row: Row, column: string) {
    column in row && row[column] != ""
  }

  /** The filter: all three order columns present and non-empty. */
  predicate KeepRow(row: Row) {
    HasCell(row, OrderNumberColumn) && HasCell(row, ShippingStatusColumn) && HasCell(row, TrackingCodeColumn)
  }

  /** `String(row[column])`: an absent cell renders as "undefined". */
  function CellText(row: Row, column: string): string {
    if column in row then row[column] else "undefined"
  }

  /** The map step: each kept field trimmed; a missing tracking cell would become `null`. */
  function NormaliseRow(row: Row): (o: ParsedOrder)
    ensures OrderNumberColumn in row ==> o.orderNumber == Trim(row[OrderNumberColumn])
    ensures ShippingStatusColumn in row ==> o.shippingStatus == Trim(row[ShippingStatusColumn])
    ensures o.trackingCode.Some? <==> HasCell(row, TrackingCodeColumn)
    ensures o.trackingCode.Some? ==> o.trackingCode.value == Trim(row[TrackingCodeColumn])
  {
    ParsedOrder(
      Trim(CellText(row, OrderNumberColumn)),
      Trim(CellText(row, ShippingStatusColumn)),
      if HasCell(row, TrackingCodeColumn) then Some(Trim(row[TrackingCodeColumn])) else None)
  }

  /** `parseOrders` on already split rows. */
  function ParseRows(rows: seq<Row>): (orders: seq<ParsedOrder>)
    ensures |orders| <= |rows|
  {
    Map(NormaliseRow, Filter(KeepRow, rows))
  }

  /** Every order that comes out has a tracking code, and every field is trimmed. */
  lemma ParsedOrdersAreTrimmed(rows: seq<Row>)
    ensures forall i :: 0 <= i < |ParseRows(rows)| ==>
      && ParseRows(rows)[i].trackingCode.Some?
      && Trim(ParseRows(rows)[i].trackingCode.value) == ParseRows(rows)[i].trackingCode.value
      && Trim(ParseRows(rows)[i].orderNumber) == ParseRows(rows)[i].orderNumber
      && Trim(ParseRows(rows)[i].shippingStatus) == ParseRows(rows)[i].shippingStatus
  {
    var kept := Filter(KeepRow, rows);
    forall i | 0 <= i < |kept|
      ensures ParseRows(rows)[i].trackingCode.Some?
      ensures Trim(ParseRows(rows)[i].trackingCode.value) == ParseRows(rows)[i].trackingCode.value
      ensures Trim(ParseRows(rows)[i].orderNumber) == ParseRows(rows)[i].orderNumber
      ensures Trim(ParseRows(rows)[i].shippingStatus) == ParseRows(rows)[i].shippingStatus
    {
      var row := kept[i];
      TrimIdempotent(row[TrackingCodeColumn]);
      TrimIdempotent(row[OrderNumberColumn]);
      TrimIdempotent(row[ShippingStatusColumn]);
    }
  }

  /** One order per kept row, in row order; rows lacking a column contribute nothing. */
  lemma {:induction false} ParseRowsOneByOne(rows: seq<Row>, row: Row)
    ensures ParseRows([row] + rows) == (if KeepRow(row) then [NormaliseRow(row)] else []) + ParseRows(rows)
  {
    assert ([row] + rows)[0] == row && ([row] + rows)[1..] == rows;
  }

  /** Parsing a file in two pieces gives the orders of each piece, one after the other. */
  lemma ParseRowsConcat(a: seq<Row>, b: seq<Row>)
    ensures ParseRows(a + b) == ParseRows(a) + ParseRows(b)
  {
    FilterConcat(KeepRow, a, b);
  }

  /** The number of orders is the number of rows that have all three cells. */
  lemma ParseRowsCount(rows: seq<Row>)
    ensures |ParseRows(rows)| + |Reject(KeepRow, rows)| == |rows|
  {
    FilterRejectPartition(KeepRow, rows);
  }

  /** A cell of whitespace only passes the filter but becomes an empty field, so such a row
      yields an order whose tracking code is the empty string and is therefore invalid. */
  lemma BlankTrackingCellGivesInvalidOrder(row: Row)
    requires KeepRow(row)
    requires forall i :: 0 <= i < |row[TrackingCodeColumn]| ==> IsJsWhitespace(row[TrackingCodeColumn][i])
    ensures NormaliseRow(row).trackingCode == Some("")
    ensures !IsValidTrackingCode(NormaliseRow(row).trackingCode)
  {
    TrimEmptyIffBlank(row[TrackingCodeColumn]);
  }

  /** Columns other than the three order columns have no effect on the order a row yields. */
  lemma OtherColumnsIgnored(row: Row, column: string, cell: string)
    requires column != OrderNumberColumn && column != ShippingStatusColumn && column != TrackingCodeColumn
    ensures KeepRow(row[column := cell]) == KeepRow(row)
    ensures NormaliseRow(row[column := cell]) == NormaliseRow(row)
  {
  }
}
