/**
 * The cell values that travel in a worksheet row. In the Java code a row is a
 * `List<Object>`; the objects that actually occur are strings, boxed `int`s and
 * `BigDecimal`s, and those are the three kinds of cell modelled here.
 */
module Cells {

  /** Java's 32-bit `int`. */
  newtype int32 = x: int | -0x8000_0000 <= x < 0x8000_0000

  /**
   * A `java.math.BigDecimal`: the exact number `unscaled * 10^(-scale)`.
   * Both parts are kept, as BigDecimal keeps them (2.50 and 2.5 differ in scale),
   * so a value copied through the model is never rounded.
   */
  datatype Decimal = Decimal(unscaled: int, scale: int32)

  /** One cell of a row. */
  datatype Cell = Text(text: string) | Int(number: int32) | Dec(decimal: Decimal)

  type Row = seq<Cell>
}
