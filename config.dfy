/** The screener's configuration constants and the fixed thresholds of its filters. */
module Config {

  /** The screening mode: `GOLDEN` looks for bullish crossings and growth, `DEATH` for bearish ones and decline. */
  datatype Direction = Bullish | Bearish

  /** Tickers downloaded and analysed together. */
  const BatchSize: nat := 50

  /** Trading days looked back for a crossover; the scan covers this many days plus one. */
  const LookbackDays: nat := 5

  /** Seconds slept between two consecutive batches. */
  const SleepTime: nat := 2

  /** Attempts made to download one batch. */
  const MaxRetries: nat := 3

  /** Rows (before all-NaN rows are dropped) a ticker needs to be screened. */
  const MinRows: nat := 200

  /** A last close at or below this is a penny stock. */
  const MinPrice: real := 10.0

  /** Smallest accepted SMA50 of close times SMA50 of volume. */
  const MinLiquidity: real := 20000000.0

  /** Windows of the three moving averages. */
  const ShortWindow: nat := 50
  const LongWindow: nat := 200

  /** Seconds waited after the rate-limited attempt with 0-based number k is 60 * (k + 1). */
  const BackoffUnit: nat := 60
}
