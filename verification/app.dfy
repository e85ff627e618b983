/** The request handlers of the gateway: for each resource kind, when to
    serve from the store, when to call a crawler, and what is written back. */
module App {
  import opened Outcomes
  import opened Text
  import opened Records
  import Collection
  import Routes

  const CredentialsNotSet: string := "Credentials not set"
  const SheetNotAuthenticated: string := "Could not authenticate to Sheet Spider"
  const ChooseValidSymbol: string := "Please, choose a valid symbol"
  const CheckCodeOrRetry: string := "Please check the code or try again later."

  /** What the handlers do besides reading the store, in order: calls into a
      crawler and deletions of an analysis. */
  datatype Event =
    | ParseStocks                       // stock spider: full list, saved
    | FetchSheet(save: bool)            // sheet crawler: pull, saved when `save`
    | DeleteAnalysis(analysis: Analysis)
    | ExtractAnalysis(code: string)     // stock spider: one analysis, saved
    | CrawlSearch(symbol: string)       // search crawler: results saved

  /** A configuration value is usable when it is set and not empty. */
  predicate Truthy(o: Option<string>)
  {
    o.Some? && o.value != ""
  }

  /** The application state: the store's collections, the crawler
      credentials read at start-up, and whether the sheet crawler's start-up
      authentication succeeded. */
  class Gateway {
    var stocks: seq<Stock>
    var hits: seq<Hit>
    var analyses: seq<Analysis>
    var sheet: seq<SheetQuote>
    var searchHits: seq<SearchHit>
    var sheetAuthenticated: bool
    const email: Option<string>
    const password: Option<string>
    ghost var events: seq<Event>

    /** Start-up: the configured credentials, the outcome of the sheet
        crawler's one authentication attempt (a failure is only logged), and
        the collections as the store holds them. */
    constructor (email: Option<string>, password: Option<string>, authenticated: bool,
                 stocks: seq<Stock>, hits: seq<Hit>, analyses: seq<Analysis>,
                 sheet: seq<SheetQuote>, searchHits: seq<SearchHit>)
      ensures this.email == email && this.password == password
      ensures sheetAuthenticated == authenticated
      ensures this.stocks == stocks && this.hits == hits && this.analyses == analyses
      ensures this.sheet == sheet && this.searchHits == searchHits
      ensures events == []
    {
      this.email, this.password := email, password;
      sheetAuthenticated := authenticated;
      this.stocks, this.hits, this.analyses := stocks, hits, analyses;
      this.sheet, this.searchHits := sheet, searchHits;
      events := [];
    }

    predicate CredentialsSet()
    {
      Truthy(email) && Truthy(password)
    }

    /** GET: every stored stock. POST: without both credentials, a flagged
        reply and nothing else; with them, a full crawl whose stocks are
        upserted by code and returned. The route registers GET only, so the
        crawl is never reached through routing. */
    method StocksList(verb: Verb, parsed: Step<seq<Stock>>) returns (r: Reply<seq<Stock>>)
      modifies this`stocks, this`events
      ensures verb != Post ==> r == Body(old(stocks)) && stocks == old(stocks) && events == old(events)
      ensures verb == Post && !CredentialsSet() ==>
        r == Flagged(CredentialsNotSet, 200) && stocks == old(stocks) && events == old(events)
      ensures verb == Post && CredentialsSet() ==> events == old(events) + [ParseStocks]
      ensures verb == Post && CredentialsSet() && parsed.Returned? ==>
        r == Body(parsed.value) && stocks == Collection.UpsertAll(old(stocks), parsed.value, StockCode)
      ensures verb == Post && CredentialsSet() && parsed.Raised? ==>
        r == Aborted(InternalServerError) && stocks == old(stocks)
      ensures verb in Routes.AllowedVerbs(Routes.StocksList) ==> stocks == old(stocks) && events == old(events)
    {
      if verb != Post {
        r := Body(stocks);
      } else {
        if !CredentialsSet() {
          return Flagged(CredentialsNotSet, 200);
        }
        events := events + [ParseStocks];
        match parsed
        case Raised(_) =>
          r := Aborted(InternalServerError);
        case Returned(items) =>
          stocks := Collection.UpsertAll(stocks, items, StockCode);
          r := Body(items);
      }
    }

    /** The v2 hit whose ticker prefix is the upper-cased code, or 404. */
    method StocksV2Detail(stockCode: string) returns (r: Reply<Hit>)
      ensures r.Body? || r == Aborted(NotFound)
      ensures r.Body? ==> r.value in hits && r.value.tickerSymbolPrefix == Upper(stockCode)
      ensures r.Body? ==>
        exists i :: 0 <= i < |hits| && hits[i] == r.value &&
          forall j :: 0 <= j < i ==> hits[j].tickerSymbolPrefix != Upper(stockCode)
      ensures r == Aborted(NotFound) <==> forall h :: h in hits ==> h.tickerSymbolPrefix != Upper(stockCode)
    {
      var code := Upper(stockCode);
      match HitIndex(hits, code)
      case None =>
        r := Aborted(NotFound);
      case Some(i) =>
        r := Body(hits[i]);
    }

    /** The stored stock whose code is the upper-cased code, or 404. */
    method StocksDetail(stockCode: string) returns (r: Reply<Stock>)
      ensures r.Body? || r == Aborted(NotFound)
      ensures r.Body? ==> r.value in stocks && r.value.code == Upper(stockCode)
      ensures r.Body? ==>
        exists i :: 0 <= i < |stocks| && stocks[i] == r.value &&
          forall j :: 0 <= j < i ==> stocks[j].code != Upper(stockCode)
      ensures r == Aborted(NotFound) <==> forall s :: s in stocks ==> s.code != Upper(stockCode)
    {
      var code := Upper(stockCode);
      match StockIndex(stocks, code)
      case None =>
        r := Aborted(NotFound);
      case Some(i) =>
        r := Body(stocks[i]);
    }

    /** Sheet quotes, gated by the start-up authentication: when it failed, a
        flagged reply and no crawler call. Otherwise the crawler's quotes;
        a POST also appends them to the store. */
    method SheetList(verb: Verb, fetched: Step<seq<SheetQuote>>) returns (r: Reply<seq<SheetQuote>>)
      modifies this`sheet, this`events
      ensures !sheetAuthenticated ==>
        r == Flagged(SheetNotAuthenticated, 200) && sheet == old(sheet) && events == old(events)
      ensures sheetAuthenticated ==> events == old(events) + [FetchSheet(verb == Post)]
      ensures sheetAuthenticated && fetched.Raised? ==> r == Aborted(InternalServerError) && sheet == old(sheet)
      ensures sheetAuthenticated && fetched.Returned? ==> r == Body(fetched.value)
      ensures sheetAuthenticated && fetched.Returned? ==>
        sheet == if verb == Post then old(sheet) + fetched.value else old(sheet)
    {
      if !sheetAuthenticated {
        return Flagged(SheetNotAuthenticated, 200);
      }
      events := events + [FetchSheet(verb == Post)];
      match fetched
      case Raised(_) =>
        r := Aborted(InternalServerError);
      case Returned(quotes) =>
        if verb == Post {
          sheet := sheet + quotes;
        }
        r := Body(quotes);
    }

    /** The latest quote for the upper-cased code, or 404; a POST first runs a
        saved sheet pull. Unlike the list, this handler does not consult
        `sheetAuthenticated`. */
    method SheetDetail(stockCode: string, verb: Verb, fetched: Step<seq<SheetQuote>>) returns (r: Reply<SheetQuote>)
      modifies this`sheet, this`events
      ensures verb != Post ==> sheet == old(sheet) && events == old(events)
      ensures verb == Post ==> events == old(events) + [FetchSheet(true)]
      ensures verb == Post && fetched.Raised? ==> r == Aborted(InternalServerError) && sheet == old(sheet)
      ensures verb == Post && fetched.Returned? ==> sheet == old(sheet) + fetched.value
      ensures r.Body? ==> r.value in sheet && r.value.codigo == Upper(stockCode)
      ensures r.Body? ==> forall q :: q in sheet && q.codigo == Upper(stockCode) ==> q.data <= r.value.data
      ensures verb != Post || fetched.Returned? ==>
        (r.Body? || r == Aborted(NotFound)) &&
        (r == Aborted(NotFound) <==> forall q :: q in sheet ==> q.codigo != Upper(stockCode))
    {
      var code := Upper(stockCode);
      if verb == Post {
        events := events + [FetchSheet(true)];
        match fetched
        case Raised(_) =>
          return Aborted(InternalServerError);
        case Returned(quotes) =>
          sheet := sheet + quotes;
      }
      match LatestQuote(sheet, code)
      case None =>
        r := Aborted(NotFound);
      case Some(q) =>
        r := Body(q);
    }

    /** The analysis for the upper-cased code. A miss falls back to the stock:
        no stock, 404 and nothing else. On a miss, or on a POST, the analysis
        found (if any) is deleted first and then the extractor runs; its
        saved result is the reply. A GET that finds an analysis serves it. */
    method AnalysisDetail(stockCode: string, verb: Verb, extracted: Step<Analysis>) returns (r: Reply<Analysis>)
      modifies this`analyses, this`events
      ensures var code := Upper(stockCode);
        AnalysisIndex(old(analyses), code).None? && StockIndex(stocks, code).None? ==>
          r == Aborted(NotFound) && analyses == old(analyses) && events == old(events)
      ensures var found := AnalysisIndex(old(analyses), Upper(stockCode));
        found.Some? && verb != Post ==>
          r == Body(old(analyses)[found.value]) && analyses == old(analyses) && events == old(events)
      ensures var code := Upper(stockCode);
        var found := AnalysisIndex(old(analyses), code);
        var kept := if found.Some? then old(analyses)[..found.value] + old(analyses)[found.value + 1..] else old(analyses);
        (found.Some? && verb == Post) || (found.None? && StockIndex(stocks, code).Some?) ==>
          && events == old(events) + (if found.Some? then [DeleteAnalysis(old(analyses)[found.value])] else [])
                                   + [ExtractAnalysis(code)]
          && (extracted.Returned? ==> r == Body(extracted.value) && analyses == kept + [extracted.value])
          && (extracted.Raised? ==> r == Aborted(InternalServerError) && analyses == kept)
      ensures verb in Routes.AllowedVerbs(Routes.AnalysisDetail) ==> old(analyses) <= analyses
      ensures (Collection.UniqueKeys(old(analyses), AnalysisCode) &&
               (extracted.Returned? ==> extracted.value.code == Upper(stockCode))) ==>
                 Collection.UniqueKeys(analyses, AnalysisCode)
    {
      var code := Upper(stockCode);
      var found := AnalysisIndex(analyses, code);
      ghost var unique := Collection.UniqueKeys(analyses, AnalysisCode);
      if found.None? {
        if StockIndex(stocks, code).None? {
          return Aborted(NotFound);
        }
      }
      if verb == Post || found.None? {
        if found.None? {
          forall y | y in analyses ensures y.code != code {
            var k :| 0 <= k < |analyses| && analyses[k] == y;
          }
        } else {
          var i := found.value;
          var analysis := analyses[i];
          Collection.DeleteOneAt(analyses, i);
          if unique {
            Collection.UniqueWithout(analyses, i, AnalysisCode);
            assert AnalysisCode(analysis) == code;
          }
          analyses := Collection.DeleteOne(analyses, analysis);
          events := events + [DeleteAnalysis(analysis)];
        }
        events := events + [ExtractAnalysis(code)];
        match extracted
        case Raised(_) =>
          r := Aborted(InternalServerError);
        case Returned(a) =>
          if unique && a.code == code {
            Collection.UniqueAppend(analyses, a, AnalysisCode);
          }
          analyses := analyses + [a];
          r := Body(a);
      } else {
        r := Body(analyses[found.value]);
      }
    }

    /** The fund's live detail for the upper-cased symbol; an unknown symbol
        (the crawler raises `AttributeError`) is a flagged 400, any other
        failure a 500. No store is involved. */
    method FundsDetail(symbol: string, parse: string -> Step<Fund>) returns (r: Reply<Fund>)
      ensures parse(Upper(symbol)).Returned? ==> r == Body(parse(Upper(symbol)).value)
      ensures parse(Upper(symbol)) == Raised(AttributeError) ==> r == Flagged(ChooseValidSymbol, BadRequest)
      ensures parse(Upper(symbol)) == Raised(OtherException) ==> r == Aborted(InternalServerError)
    {
      var code := Upper(symbol);
      match parse(code)
      case Returned(fund) =>
        r := Body(fund);
      case Raised(AttributeError) =>
        r := Flagged(ChooseValidSymbol, BadRequest);
      case Raised(OtherException) =>
        r := Aborted(InternalServerError);
    }

    /** Always crawls, with the code as given; the crawler saves what it finds.
        A failure is a flagged 400. Otherwise every stored result whose symbol
        is the upper-cased code, in store order, old results first. */
    method GoogleSearchDetail(stockCode: string, crawled: Step<seq<SearchHit>>) returns (r: Reply<seq<SearchHit>>)
      modifies this`searchHits, this`events
      ensures events == old(events) + [CrawlSearch(stockCode)]
      ensures crawled.Raised? ==> r == Flagged(CheckCodeOrRetry, BadRequest) && searchHits == old(searchHits)
      ensures crawled.Returned? ==> searchHits == old(searchHits) + crawled.value
      ensures crawled.Returned? ==>
        r == Body(SearchHitsFor(old(searchHits), Upper(stockCode)) + SearchHitsFor(crawled.value, Upper(stockCode)))
    {
      events := events + [CrawlSearch(stockCode)];
      match crawled
      case Raised(_) =>
        r := Flagged(CheckCodeOrRetry, BadRequest);
      case Returned(found) =>
        SearchHitsForAppend(searchHits, found, Upper(stockCode));
        searchHits := searchHits + found;
        r := Body(SearchHitsFor(searchHits, Upper(stockCode)));
    }
  }

  /** Cache-aside: a GET that misses stores the extracted analysis, and the
      next GET serves that stored analysis without calling the extractor
      (it would fail if it were called). */
  method ReadAfterMiss(g: Gateway, stockCode: string, a: Analysis)
      returns (first: Reply<Analysis>, second: Reply<Analysis>)
    requires AnalysisIndex(g.analyses, Upper(stockCode)).None?
    requires StockIndex(g.stocks, Upper(stockCode)).Some?
    requires a.code == Upper(stockCode)
    modifies g
    ensures first == Body(a) && second == Body(a)
    ensures g.analyses == old(g.analyses) + [a]
    ensures g.events == old(g.events) + [ExtractAnalysis(Upper(stockCode))]
  {
    first := g.AnalysisDetail(stockCode, Get, Returned(a));
    AnalysisIndexAppend(old(g.analyses), Upper(stockCode), a);
    second := g.AnalysisDetail(stockCode, Get, Raised(OtherException));
  }

  /** Two forced refreshes of one code leave exactly one analysis for it, the
      one extracted last. An existing analysis is refreshed even when no stock
      has the code. */
  method ReplaceTwice(g: Gateway, stockCode: string, a1: Analysis, a2: Analysis)
      returns (first: Reply<Analysis>, second: Reply<Analysis>)
    requires Collection.UniqueKeys(g.analyses, AnalysisCode)
    requires StockIndex(g.stocks, Upper(stockCode)).Some? || AnalysisIndex(g.analyses, Upper(stockCode)).Some?
    requires a1.code == Upper(stockCode) && a2.code == Upper(stockCode)
    modifies g
    ensures first == Body(a1) && second == Body(a2)
    ensures Collection.UniqueKeys(g.analyses, AnalysisCode)
    ensures a2 in g.analyses && forall x :: x in g.analyses && x.code == Upper(stockCode) ==> x == a2
  {
    first := g.AnalysisDetail(stockCode, Post, Returned(a1));
    second := g.AnalysisDetail(stockCode, Post, Returned(a2));
    var n := |g.analyses| - 1;
    assert g.analyses[n] == a2;
    forall x | x in g.analyses && x.code == Upper(stockCode) ensures x == a2 {
      var k :| 0 <= k < |g.analyses| && g.analyses[k] == x;
      assert AnalysisCode(g.analyses[k]) == AnalysisCode(g.analyses[n]);
    }
  }

  /** Search results accumulate: two crawls for one symbol, each saving one
      result, and the second reply holds both after the earlier ones. */
  method SearchTwice(g: Gateway, stockCode: string, h1: SearchHit, h2: SearchHit)
      returns (first: Reply<seq<SearchHit>>, second: Reply<seq<SearchHit>>)
    requires h1.symbol == Upper(stockCode) && h2.symbol == Upper(stockCode)
    modifies g
    ensures second == Body(SearchHitsFor(old(g.searchHits), Upper(stockCode)) + [h1, h2])
    ensures g.events == old(g.events) + [CrawlSearch(stockCode), CrawlSearch(stockCode)]
  {
    ghost var before := g.searchHits;
    var code := Upper(stockCode);
    SearchHitsForOne(h1, code);
    SearchHitsForOne(h2, code);
    SearchHitsForAppend(before, [h1], code);
    first := g.GoogleSearchDetail(stockCode, Returned([h1]));
    assert g.searchHits == before + [h1];
    second := g.GoogleSearchDetail(stockCode, Returned([h2]));
    assert second == Body(SearchHitsFor(before + [h1], code) + [h2]);
    assert SearchHitsFor(before, code) + [h1] + [h2] == SearchHitsFor(before, code) + [h1, h2];
  }
}
