/** The bulb client's interface as the integration sees it. The UDP client itself is not
    part of this model: its answers are oracles. */
module Bulb {
  import opened Wrappers

  /** Bulb classes of the client library; the integration only tells RGB apart. */
  datatype BulbClass = RGB | TW | DW | Socket | FanDim

  datatype BulbType = BulbType(bulbClass: BulbClass, whiteChannels: int)

  /** The exceptions a bulb query can raise. `OsError` covers `OSError` and its subclasses
      (`ConnectionRefusedError`, the built-in `TimeoutError`). */
  datatype BulbError =
    | ConnectionError    // WizLightConnectionError
    | TimeOutError       // WizLightTimeOutError
    | OsError
    | NotKnownBulb       // WizLightNotKnownBulb
    | OtherError

  datatype Query<T> = Answer(value: T) | Fail(error: BulbError)

  /** What contacting a bulb at a host would answer: `get_bulbtype()` and `getMac()`.
      `getMac()` may answer `None`. */
  datatype BulbOracle = BulbOracle(
    queryType: string -> Query<BulbType>,
    queryMac: string -> Query<Option<string>>)
}
