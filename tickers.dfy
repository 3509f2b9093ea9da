/** The symbol rewrite the index scrapers apply (stock_screener.py:205, 218, 230). */
module Tickers {

  /** `str(t).replace('.', '-')`: class-share dots become the provider's dash. */
  function Normalize(symbol: string): (r: string)
    ensures |r| == |symbol|
    ensures '.' !in r
    ensures forall i :: 0 <= i < |symbol| && symbol[i] == '.' ==> r[i] == '-'
    ensures forall i :: 0 <= i < |symbol| && symbol[i] != '.' ==> r[i] == symbol[i]
  {
    seq(|symbol|, i requires 0 <= i < |symbol| => if symbol[i] == '.' then '-' else symbol[i])
  }

  /** Normalizing twice is normalizing once. */
  lemma NormalizeIdempotent(symbol: string)
    ensures Normalize(Normalize(symbol)) == Normalize(symbol)
  {
  }
}
