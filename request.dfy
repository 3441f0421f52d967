/**
 * The web application's handling of one submitted form: refuse identical
 * countries, look up the two currency codes, build the market-data symbol of
 * the pair, run the pipeline on what the download returns for it, and show
 * either the best days or the failure reason.
 */
module Request {
  import opened Basics
  import opened Series
  import opened Clock
  import opened Ranking
  import opened Forecasting

  /** The countries offered by the form and the currency each one uses. */
  const COUNTRY_TO_CURRENCY: map<string, string> := map[
    "United States" := "USD", "India" := "INR", "United Kingdom" := "GBP",
    "Euro Area" := "EUR", "Japan" := "JPY", "Australia" := "AUD", "Canada" := "CAD"]

  /** A country the form's drop-downs can return: one of the table's keys. */
  type Country = c: string | c in COUNTRY_TO_CURRENCY witness "India"

  /** A submitted form: From and To countries and the travel date. */
  datatype Form = Form(fromCountry: Country, toCountry: Country, travel: Day)

  /** What the page shows below a valid request. */
  datatype Display =
    | Results(best: seq<Point>, forecast: seq<Point>, plotTitle: string)
    | PredictionFailed(message: string)

  /** The page after submitting: the form refused, or the forecast attempt for a pair. */
  datatype Screen =
    | Refused(message: string)
    | Forecasted(base: string, quote: string, pair: string, display: Display)

  const SAME_COUNTRY := "'From' and 'To' countries cannot be the same."
  const FAILED_PREFIX := "Prediction failed. Reason: "
  const TITLE_PREFIX := "Forecast for "

  /** The market-data symbol of a pair: base code, quote code, then `=X`. */
  function PairSymbol(base: string, quote: string): (s: string)
    ensures |s| == |base| + |quote| + 2
    ensures s[..|base|] == base && s[|base|..|base| + |quote|] == quote && s[|base| + |quote|..] == "=X"
  {
    base + quote + "=X"
  }

  /** Reads the two three-letter codes back out of a pair symbol. */
  function ParsePair(s: string): Option<(string, string)> {
    if |s| == 8 && s[6..] == "=X" then Some((s[..3], s[3..6])) else None
  }

  /** The branch on the first component of the pipeline's triple. */
  function Show(p: Prediction, pair: string): Display {
    var t := AsTriple(p);
    if t.0.Some? then Results(t.0.value, t.1.rows, TITLE_PREFIX + pair)
    else PredictionFailed(FAILED_PREFIX + t.1.text)
  }

  /** Handling of a submitted form, given the download for any symbol and the forecaster. */
  function Submit(form: Form, now: Instant, download: string -> Frame, prophet: Forecaster): Screen {
    if form.fromCountry == form.toCountry then Refused(SAME_COUNTRY)
    else
      var base := COUNTRY_TO_CURRENCY[form.fromCountry];
      var quote := COUNTRY_TO_CURRENCY[form.toCountry];
      var pair := PairSymbol(base, quote);
      Forecasted(base, quote, pair, Show(GetPrediction(AppCopy, download(pair), form.travel, now, prophet), pair))
  }

  // ---------------------------------------------------------------------------
  // The currency table and the pair symbol
  // ---------------------------------------------------------------------------

  /** Every currency code of the table has three letters. */
  lemma CodeLength(c: Country)
    ensures |COUNTRY_TO_CURRENCY[c]| == 3
  {
  }

  /** Different countries use different currencies. */
  lemma CurrencyInjective(a: Country, b: Country)
    ensures a != b ==> COUNTRY_TO_CURRENCY[a] != COUNTRY_TO_CURRENCY[b]
  {
  }

  /** Parsing a symbol built from two three-letter codes gives the codes back. */
  lemma PairRoundTrip(base: string, quote: string)
    requires |base| == 3 && |quote| == 3
    ensures ParsePair(PairSymbol(base, quote)) == Some((base, quote))
  {
  }

  /** A symbol that parses is the symbol of the codes it parses to. */
  lemma ParsePairSound(s: string)
    requires ParsePair(s).Some?
    ensures PairSymbol(ParsePair(s).value.0, ParsePair(s).value.1) == s
  {
  }

  // ---------------------------------------------------------------------------
  // Handling a form
  // ---------------------------------------------------------------------------

  /** Results are shown exactly when the first component is present; otherwise the reason's text is. */
  lemma ShowExactly(p: Prediction, pair: string)
    ensures Show(p, pair).Results? <==> AsTriple(p).0 != None
    ensures p.Success? ==> Show(p, pair) == Results(p.best, p.forecast, TITLE_PREFIX + pair)
    ensures p.Failure? ==> Show(p, pair) == PredictionFailed(FAILED_PREFIX + Text(p.reason))
  {
  }

  /**
   * Identical countries are refused before anything is downloaded or
   * forecast: the answer depends on neither the download nor the forecaster.
   */
  lemma SameCountryRefused(form: Form, now: Instant, d1: string -> Frame, p1: Forecaster, d2: string -> Frame, p2: Forecaster)
    requires form.fromCountry == form.toCountry
    ensures Submit(form, now, d1, p1) == Submit(form, now, d2, p2) == Refused(SAME_COUNTRY)
  {
  }

  /**
   * A request for two different countries asks the pipeline (app copy) about
   * the symbol of their two currencies, which are different, and shows its answer.
   */
  lemma AcceptedRequest(form: Form, now: Instant, download: string -> Frame, prophet: Forecaster)
    requires form.fromCountry != form.toCountry
    ensures var r := Submit(form, now, download, prophet);
            && r.Forecasted?
            && r.base == COUNTRY_TO_CURRENCY[form.fromCountry]
            && r.quote == COUNTRY_TO_CURRENCY[form.toCountry]
            && r.base != r.quote
            && r.pair == r.base + r.quote + "=X"
            && ParsePair(r.pair) == Some((r.base, r.quote))
            && r.display == Show(GetPrediction(AppCopy, download(r.pair), form.travel, now, prophet), r.pair)
  {
    var base := COUNTRY_TO_CURRENCY[form.fromCountry];
    var quote := COUNTRY_TO_CURRENCY[form.toCountry];
    CurrencyInjective(form.fromCountry, form.toCountry);
    CodeLength(form.fromCountry);
    CodeLength(form.toCountry);
    PairRoundTrip(base, quote);
  }
}
