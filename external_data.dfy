/** `services/external-data/index.ts`: the category switch in front of the market
    data adapters of the service layer. */
module ExternalData {
  import opened Wrappers

  /** `EFResponseBase`: what every adapter resolves to. */
  datatype EFResponse = EFResponse(category: string, ticker: string, date: string,
                                   value: int, unit: string, timestamp: string)

  /** An adapter's answer for a ticker and a day: a response or a throw. */
  type Adapter = (string, string) -> Result<EFResponse, Thrown>

  /** The adapters the switch calls; they do network I/O, so the model takes their answers. */
  datatype Adapters = Adapters(currency: Adapter, upbit: Adapter, kospi: Adapter, nyse: Adapter)

  /** The categories the switch routes: exact, case-sensitive matches. */
  predicate Known(category: string) {
    category == "currency" || category == "upbit" || category == "KOSPI" || category == "NYSE"
  }

  function InvalidCategory(category: string): Thrown {
    ApiError(400, "Invalid category: " + category)
  }

  /** `fetchExternalData(category, ticker, date)`. */
  function FetchExternalData(ad: Adapters, category: string, ticker: string, date: string): (r: Result<EFResponse, Thrown>)
    ensures category == "currency" ==> r == ad.currency(ticker, date)
    ensures category == "upbit" ==> r == ad.upbit(ticker, date)
    ensures category == "KOSPI" ==> r == ad.kospi(ticker, date)
    ensures category == "NYSE" ==> r == ad.nyse(ticker, date)
    ensures !Known(category) ==> r == Failure(InvalidCategory(category))
  {
    match category
    case "currency" => ad.currency(ticker, date)
    case "upbit" => ad.upbit(ticker, date)
    case "KOSPI" => ad.kospi(ticker, date)
    case "NYSE" => ad.nyse(ticker, date)
    case _ => Failure(InvalidCategory(category))
  }

  /** An unknown category is refused whatever the adapters would answer. */
  lemma UnknownIgnoresAdapters(a1: Adapters, a2: Adapters, category: string, ticker: string, date: string)
    requires !Known(category)
    ensures FetchExternalData(a1, category, ticker, date) == FetchExternalData(a2, category, ticker, date)
  {
  }

  /** Matching is exact: the price layer's `crypto` and a lower-case `kospi` are both refused. */
  lemma CaseSensitiveCategories(ad: Adapters, ticker: string, date: string)
    ensures FetchExternalData(ad, "crypto", ticker, date) == Failure(ApiError(400, "Invalid category: crypto"))
    ensures FetchExternalData(ad, "kospi", ticker, date) == Failure(ApiError(400, "Invalid category: kospi"))
    ensures FetchExternalData(ad, "invalid", ticker, date).error.message == "Invalid category: invalid"
  {
    assert "Invalid category: " + "crypto" == "Invalid category: crypto";
    assert "Invalid category: " + "kospi" == "Invalid category: kospi";
    assert "Invalid category: " + "invalid" == "Invalid category: invalid";
  }
}
