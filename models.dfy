/** The records the indicator library works on: dated quotes and dated single
    values, each carrying a nullable position index that history preparation
    fills in, and the result record of the Chaikin Oscillator. */
module Models {

  /** A nullable value, as C#'s `int?` and `decimal?`. */
  datatype Option<+T> = None | Some(value: T)

  /** The price and volume fields of one traded period. Decimal values are
      modelled as reals: the validator and the projection only copy them. */
  datatype Ohlcv = Ohlcv(open: real, high: real, low: real, close: real, volume: real)

  /** One dated record of a series. The date and the payload never change once
      the record exists; `index` is the one field that preparation writes in
      place, so callers see it on the very objects they passed in.
      Dates are calendar days modelled as totally ordered integers. */
  class Entry<T> {
    const date: int
    const data: T
    var index: Option<int>

    constructor (date: int, data: T, index: Option<int>)
      ensures this.date == date && this.data == data && this.index == index
    {
      this.date := date;
      this.data := data;
      this.index := index;
    }
  }

  /** A quote: date, open, high, low, close, volume and index. */
  type Quote = Entry<Ohlcv>

  /** A single-value observation: date, value and index. */
  type BasicData = Entry<real>

  /** Per-period output of the Chaikin Oscillator. Its computation is not part
      of this model; the oscillator is absent until the slow window fills. */
  datatype ChaikinOscResult = ChaikinOscResult(
    date: int,
    index: Option<int>,
    moneyFlowMultiplier: real,
    moneyFlowVolume: real,
    adl: real,
    oscillator: Option<real>)
}
