/** `getFData`: the router from an asset category to the adapter that quotes it. */
module Fapi {
  import opened Wrappers

  /** What an adapter resolves to: a quote, a falsy value (no data), or a throw. */
  datatype FData = FQuote(value: int, currency: string) | FNothing | FThrow(error: Thrown)

  /** The crypto and stock adapters; they do network I/O, so the model takes their
      answers, per ticker and date, as functions. */
  datatype Feeds = Feeds(crypto: (string, string) -> FData, stock: (string, string) -> FData)

  const InvalidType: Thrown := CodeError("Invalid Type")

  /** The categories `getFData` routes. */
  predicate Routed(category: string) {
    category == "crypto" || category == "stock"
  }

  /** `getFData(type, ticker, date)`. */
  function GetFData(feeds: Feeds, category: string, ticker: string, date: string): (r: FData)
    ensures category == "crypto" ==> r == feeds.crypto(ticker, date)
    ensures category == "stock" ==> r == feeds.stock(ticker, date)
    ensures !Routed(category) ==> r == FThrow(InvalidType)
  {
    if category == "crypto" then feeds.crypto(ticker, date)
    else if category == "stock" then feeds.stock(ticker, date)
    else FThrow(InvalidType)
  }

  /** The category alone decides whether any adapter is consulted: an unrouted
      category throws whatever the adapters would answer. */
  lemma UnroutedIgnoresFeeds(f1: Feeds, f2: Feeds, category: string, ticker: string, date: string)
    requires !Routed(category)
    ensures GetFData(f1, category, ticker, date) == GetFData(f2, category, ticker, date)
  {
  }
}
