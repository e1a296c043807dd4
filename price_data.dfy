/** The stored OHLCV bar shared by the training and analytics services. */
module PriceData {
  import opened Wrappers

  /** One price bar; a missing (NULL) column is None. */
  datatype Bar = Bar(
    timestamp: string,
    open: Option<real>,
    high: Option<real>,
    low: Option<real>,
    close: Option<real>,
    volume: Option<real>)

  /** The non-missing closes, in order. */
  function Closes(bars: seq<Bar>): (cs: seq<real>)
    ensures |cs| <= |bars|
  {
    if |bars| == 0 then []
    else Closes(bars[..|bars| - 1]) + (if bars[|bars| - 1].close.Some? then [bars[|bars| - 1].close.value] else [])
  }
}
