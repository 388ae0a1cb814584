/** The Holding record of ui/src/components/PortfolioManager.tsx. */
module Holdings {

  /**
   * The amount field's number, kept opaque: the form fills it with
   * parseFloat, which yields NaN for text that is not a number.
   */
  datatype Amount = Number(x: real) | NaN

  datatype Holding = Holding(coinId: string, amount: Amount)

  /** The entry a new row starts with: { coinId: "", amount: 0 }. */
  const Blank: Holding := Holding("", Number(0.0))
}
