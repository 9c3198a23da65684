/** `yf.ts`: the Yahoo Finance spark adapter. It derives a quote currency from the
    ticker suffix, sizes a look-back window from the target day, and picks the close
    of the first sample at or after the target. */
module YahooFinance {
  import opened Wrappers
  import opened Text

  /** Suffix to currency, in the order the adapter tries them. */
  const SuffixCurrency: seq<(string, string)> := [
    ("KRW=X", "KRW"), ("-KRW", "KRW"), (".KS", "KRW"), (".KQ", "KRW"),
    ("-USD", "USD"), ("JPY", "JPY"), (".T", "JPY"), ("-HKD", "HKD"),
    (".HK", "HKD"), ("-EUR", "EUR"), ("-CNY", "CNY"), ("-GBP", "GBP")]

  /** The first table position at or after `from` whose suffix ends `symbol`. */
  function FirstSuffix(table: seq<(string, string)>, symbol: string, from: nat): (r: Option<nat>)
    requires from <= |table|
    ensures r.Some? ==> from <= r.value < |table| && EndsWith(symbol, table[r.value].0)
    ensures r.Some? ==> forall j :: from <= j < r.value ==> !EndsWith(symbol, table[j].0)
    ensures r.None? <==> forall j :: from <= j < |table| ==> !EndsWith(symbol, table[j].0)
    decreases |table| - from
  {
    if from == |table| then None
    else if EndsWith(symbol, table[from].0) then Some(from)
    else FirstSuffix(table, symbol, from + 1)
  }

  /** Position j is the first table entry whose suffix ends `symbol`. */
  predicate FirstMatch(table: seq<(string, string)>, symbol: string, j: int) {
    0 <= j < |table| && EndsWith(symbol, table[j].0) &&
    forall i :: 0 <= i < j ==> !EndsWith(symbol, table[i].0)
  }

  lemma FirstMatchIsFound(table: seq<(string, string)>, symbol: string, j: int)
    requires FirstMatch(table, symbol, j)
    ensures FirstSuffix(table, symbol, 0) == Some(j)
  {
    var r := FirstSuffix(table, symbol, 0);
    assert r.Some?;
  }

  /** The currency `getTickerCurrency` settles on. */
  function TickerCurrency(symbol: string): (c: string)
    ensures (forall j :: 0 <= j < |SuffixCurrency| ==> !EndsWith(symbol, SuffixCurrency[j].0)) ==> c == "USD"
    // the first suffix in table order that the symbol ends with decides the currency
    ensures forall j :: FirstMatch(SuffixCurrency, symbol, j) ==> c == SuffixCurrency[j].1
  {
    forall j | FirstMatch(SuffixCurrency, symbol, j) ensures FirstSuffix(SuffixCurrency, symbol, 0) == Some(j) {
      FirstMatchIsFound(SuffixCurrency, symbol, j);
    }
    match FirstSuffix(SuffixCurrency, symbol, 0)
    case None => "USD"
    case Some(j) => SuffixCurrency[j].1
  }

  /** `getTickerCurrency(symbol)`. */
  method GetTickerCurrency(symbol: string) returns (currency: string)
    ensures currency == TickerCurrency(symbol)
  {
    currency := "USD";
    var i := 0;
    while i < |SuffixCurrency|
      invariant 0 <= i <= |SuffixCurrency|
      invariant FirstSuffix(SuffixCurrency, symbol, 0) == FirstSuffix(SuffixCurrency, symbol, i)
      invariant currency == "USD"
    {
      var (suffix, cur) := SuffixCurrency[i];
      if EndsWith(symbol, suffix) {
        currency := cur;
        break;
      }
      i := i + 1;
    }
  }

  /** A string does not end with a suffix whose last character differs from its own. */
  lemma LastCharRulesOut(symbol: string, suffix: string)
    requires |symbol| > 0 && |suffix| > 0 && symbol[|symbol| - 1] != suffix[|suffix| - 1]
    ensures !EndsWith(symbol, suffix)
  {
    if |suffix| <= |symbol| {
      assert symbol[|symbol| - |suffix|..][|suffix| - 1] == symbol[|symbol| - 1];
    }
  }

  /** A symbol that no suffix's last character ends is quoted in USD. */
  lemma NoSuffixMeansUsd(symbol: string)
    requires |symbol| > 0
    requires forall j :: 0 <= j < |SuffixCurrency| ==> symbol[|symbol| - 1] != SuffixCurrency[j].0[|SuffixCurrency[j].0| - 1]
    ensures TickerCurrency(symbol) == "USD"
  {
    NoLastCharMatch(SuffixCurrency, symbol);
  }

  /** Over any table of non-empty suffixes: no suffix whose last character differs matches. */
  lemma NoLastCharMatch(table: seq<(string, string)>, symbol: string)
    requires |symbol| > 0 && forall j :: 0 <= j < |table| ==> |table[j].0| > 0
    requires forall j :: 0 <= j < |table| ==> symbol[|symbol| - 1] != table[j].0[|table[j].0| - 1]
    ensures FirstSuffix(table, symbol, 0).None?
  {
    forall j | 0 <= j < |table| ensures !EndsWith(symbol, table[j].0) {
      LastCharRulesOut(symbol, table[j].0);
    }
  }

  lemma KospiTickerIsKrw()
    ensures TickerCurrency("005930.KS") == "KRW"
  {
    var symbol := "005930.KS";
    LastCharRulesOut(symbol, SuffixCurrency[0].0);
    LastCharRulesOut(symbol, SuffixCurrency[1].0);
    assert symbol[6..] == SuffixCurrency[2].0;
    FirstMatchIsFound(SuffixCurrency, symbol, 2);
  }

  lemma PlainTickerIsUsd()
    ensures TickerCurrency("AAPL") == "USD"
  {
    NoSuffixMeansUsd("AAPL");
  }

  /** `Math.ceil(a / b)` for a positive divisor (Dafny's `/` rounds down here). */
  function CeilDiv(a: int, b: int): (q: int)
    requires b > 0
    ensures (q - 1) * b < a <= q * b
  {
    -((-a) / b)
  }

  const SecondsPerDay: int := 60 * 60 * 24

  /** The request window: how many days to fetch and the target timestamp (0 for none). */
  datatype Window = Window(nDays: int, targetTs: int)

  /** The window `requestYFApi` requests. `targetTs` is the target day's timestamp in
      seconds and `now` the current time, both supplied by the caller. */
  function LookBack(hasDate: bool, now: int, targetTs: int): (r: Result<Window, Thrown>)
    ensures !hasDate ==> r == Success(Window(7, 0))
    ensures hasDate ==> (r.Failure? <==> CeilDiv(now - targetTs, SecondsPerDay) > 365)
    ensures hasDate && r.Failure? ==>
              r.error == CodeError("nDays[" + IntToString(CeilDiv(now - targetTs, SecondsPerDay)) + "] cannot exceed 365 days from today")
    ensures hasDate && r.Success? ==>
              r.value.targetTs == targetTs && 7 <= r.value.nDays <= 365 &&
              r.value.nDays >= CeilDiv(now - targetTs, SecondsPerDay) &&
              (r.value.nDays > 7 ==> r.value.nDays == CeilDiv(now - targetTs, SecondsPerDay))
  {
    if !hasDate then Success(Window(7, 0))
    else
      var n := CeilDiv(now - targetTs, SecondsPerDay);
      if n > 365 then Failure(CodeError("nDays[" + IntToString(n) + "] cannot exceed 365 days from today"))
      else Success(Window(if n < 7 then 7 else n, targetTs))
  }

  /** A window never reaches back further than a year and never covers less than a week. */
  lemma LookBackCoversTarget(now: int, targetTs: int)
    requires LookBack(true, now, targetTs).Success?
    ensures var w := LookBack(true, now, targetTs).value;
            now - w.nDays * SecondsPerDay <= targetTs && w.nDays <= 365
  {
  }

  /** One symbol's series in the spark response. */
  datatype Series = Series(timestamp: seq<int>, close: seq<int>)

  /** The first position whose timestamp is at or after the target. */
  function FirstAtOrAfter(ts: seq<int>, target: int, from: nat): (r: Option<nat>)
    requires from <= |ts|
    ensures r.Some? ==> from <= r.value < |ts| && ts[r.value] >= target
    ensures r.Some? ==> forall j :: from <= j < r.value ==> ts[j] < target
    ensures r.None? <==> forall j :: from <= j < |ts| ==> ts[j] < target
    decreases |ts| - from
  {
    if from == |ts| then None
    else if ts[from] >= target then Some(from)
    else FirstAtOrAfter(ts, target, from + 1)
  }

  /** `close[i]`, with JavaScript's missing element read as `undefined` (`None`). */
  function At(xs: seq<int>, i: int): (r: Option<int>)
    ensures 0 <= i < |xs| <==> r.Some?
    ensures 0 <= i < |xs| ==> r.value == xs[i]
  {
    if 0 <= i < |xs| then Some(xs[i]) else None
  }

  /** The close the adapter reports for one series, `None` standing for `undefined`.
      `len` is the number of closes; a comparison with a missing timestamp is false. */
  function SampleValue(s: Series, targetTs: int): (v: Option<int>)
    // a series of equally many timestamps and closes
    ensures |s.timestamp| == |s.close| ==> (|s.close| == 0 <==> v.None?)
    ensures |s.timestamp| == |s.close| && |s.close| > 0 && (targetTs <= 0 || s.timestamp[|s.close| - 1] < targetTs) ==>
              v == Some(s.close[|s.close| - 1])
    ensures |s.timestamp| == |s.close| && |s.close| > 0 && targetTs > 0 && s.timestamp[|s.close| - 1] >= targetTs ==>
              exists i :: 0 <= i < |s.close| && s.timestamp[i] >= targetTs &&
                          (forall j :: 0 <= j < i ==> s.timestamp[j] < targetTs) && v == Some(s.close[i])
  {
    var len := |s.close|;
    if targetTs > 0 && len > 0 then
      var last := At(s.timestamp, len - 1);
      if last.Some? && last.value < targetTs then Some(s.close[len - 1])
      else match FirstAtOrAfter(s.timestamp, targetTs, 0)
        case Some(i) => At(s.close, i)
        case None => None
    else At(s.close, len - 1)
  }

  /** The sample-selection loop of `requestYFApi` for the requested symbol. */
  method SelectSample(s: Series, targetTs: int) returns (v: Option<int>)
    ensures v == SampleValue(s, targetTs)
  {
    var len := |s.close|;
    if targetTs > 0 && len > 0 {
      var timestamps := s.timestamp;
      if len - 1 < |timestamps| && timestamps[len - 1] < targetTs {
        return Some(s.close[len - 1]);
      }
      v := None;
      var i := 0;
      while i < |timestamps|
        invariant 0 <= i <= |timestamps|
        invariant FirstAtOrAfter(timestamps, targetTs, 0) == FirstAtOrAfter(timestamps, targetTs, i)
      {
        if timestamps[i] >= targetTs {
          v := At(s.close, i);
          break;
        }
        i := i + 1;
      }
    } else {
      v := At(s.close, len - 1);
    }
  }

  /** What `requestYFApi` returns: `{ catergory, symbol, date, ts, value, currency }`. */
  datatype YfQuote = YfQuote(symbol: string, date: string, ts: int, value: Option<int>, currency: string)

  /** The spark request for a symbol and a number of days: a throw (the network), no data
      for the symbol, or its series. */
  type SparkFeed = (string, int) -> Result<Option<Series>, Thrown>

  /** `requestYFApi(symbol, date, tz)`; `date` is `""` when absent, and the day's timestamp
      in the requested time zone and the current time are parameters. */
  function YfSpec(fetch: SparkFeed, symbol: string, date: string, now: int, dateTs: int): (r: Result<YfQuote, Thrown>)
    ensures r.Success? ==> r.value.currency == TickerCurrency(symbol) && r.value.symbol == symbol && r.value.date == date
    ensures |date| > 0 && CeilDiv(now - dateTs, SecondsPerDay) > 365 ==> r.Failure?
    ensures r.Success? ==> r.value.ts == (if |date| > 0 then dateTs else 0)
    // a window refused for reaching back too far is thrown before any request
    ensures LookBack(|date| > 0, now, dateTs).Failure? ==> r == Failure(LookBack(|date| > 0, now, dateTs).error)
    // otherwise the spark request is for the window's days, and its outcome decides the answer
    ensures LookBack(|date| > 0, now, dateTs).Success? ==>
              var w := LookBack(|date| > 0, now, dateTs).value;
              (fetch(symbol, w.nDays).Failure? ==> r == Failure(fetch(symbol, w.nDays).error)) &&
              (fetch(symbol, w.nDays) == Success(None) ==> r == Failure(CodeError("No data for symbol[" + symbol + "]"))) &&
              (fetch(symbol, w.nDays).Success? && fetch(symbol, w.nDays).value.Some? ==>
                 r == Success(YfQuote(symbol, date, w.targetTs, SampleValue(fetch(symbol, w.nDays).value.value, w.targetTs),
                                      TickerCurrency(symbol))))
    ensures r.Success? <==> LookBack(|date| > 0, now, dateTs).Success? &&
                            fetch(symbol, LookBack(|date| > 0, now, dateTs).value.nDays).Success? &&
                            fetch(symbol, LookBack(|date| > 0, now, dateTs).value.nDays).value.Some?
  {
    match LookBack(|date| > 0, now, dateTs)
    case Failure(e) => Failure(e)
    case Success(w) =>
      match fetch(symbol, w.nDays)
      case Failure(e) => Failure(e)
      case Success(None) => Failure(CodeError("No data for symbol[" + symbol + "]"))
      case Success(Some(s)) =>
        Success(YfQuote(symbol, date, w.targetTs, SampleValue(s, w.targetTs), TickerCurrency(symbol)))
  }

  method RequestYFApi(fetch: SparkFeed, symbol: string, date: string, now: int, dateTs: int)
    returns (r: Result<YfQuote, Thrown>)
    ensures r == YfSpec(fetch, symbol, date, now, dateTs)
  {
    var currency := GetTickerCurrency(symbol);
    var window := LookBack(|date| > 0, now, dateTs);
    if window.Failure? {
      return Failure(window.error);
    }
    var data := fetch(symbol, window.value.nDays);
    if data.Failure? {
      return Failure(data.error);
    }
    if data.value.None? {
      return Failure(CodeError("No data for symbol[" + symbol + "]"));
    }
    var s := data.value.value;
    var value := SelectSample(s, window.value.targetTs);
    return Success(YfQuote(symbol, date, window.value.targetTs, value, currency));
  }
}
