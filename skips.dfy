/** The data model shared by the screen and its components. */
module Skips {

  /** A nullable value: `None` stands for JavaScript's `null` or `undefined`. */
  datatype Option<T> = None | Some(value: T)

  /**
   * One skip record as the by-location endpoint returns it. The numeric
   * fields are JavaScript numbers, modelled as exact rationals. The id is
   * `None` for a record that has no `id` property.
   */
  datatype SkipOption = SkipOption(
    id: Option<int>,
    size: real,
    hirePeriodDays: real,
    priceBeforeVat: real,
    vat: real,
    allowedOnRoad: bool,
    allowsHeavyWaste: bool,
    postcode: string)
}
