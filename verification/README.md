# stocks-crawler gateway: the refresh-or-serve decisions

A Dafny model of the decision layer inside the Flask handlers of
stocks-crawler (`app.py`). The application serves stock data that is
scraped from slow upstream sources and cached in MongoDB. For each resource
kind the handlers decide:

- whether to serve the stored documents or call a crawler;
- what the crawler's result does to the store: append, upsert, or delete and re-insert;
- which failures become a flagged `{error: true, message}` reply, a 400, a 404 or a 500.

The model is made of these parts:

- `outcomes.dfy` (`Outcomes`) holds the value types shared by every handler.
  `Step` is the outcome of one opaque crawler call: it returned a value, or it
  raised `AttributeError` or another exception. `Reply` is a handler's answer:
  a body with status 200, a flagged body with its status, or an abort with a
  bare status.
- `text.dfy` (`Text`) holds `str.upper()` on ASCII, used on every ticker before a lookup.
- `mongo_uri.dfy` (`MongoUri`) holds the start-up split of the connection URI
  into a server URL and a database name.
- `collection.dfy` (`Collection`) holds the store primitives over a
  collection kept as a sequence in natural order: `find_one`, `find`,
  `delete_one`, and the upsert by key that a full crawl performs.
- `records.dfy` (`Records`) holds one datatype per collection's documents and
  the keyed lookups. One of them is the latest-dated sheet quote for a ticker.
- `routes.dfy` (`Routes`) lists the verbs each route registers.
- `app.dfy` (`App`) holds the class `Gateway`. Its fields are the five
  collections the handlers touch, the crawler credentials, and the sheet
  crawler's authentication flag. A ghost `events` log records, in order, the
  crawler calls that touch the store and the analysis deletions. Through the
  log, contracts state that a crawler was not called and that a delete
  happened before an extraction. Each handler is a
  method. Three client methods check scenarios that span two requests.

Crawler calls are parameters. A handler receives the `Step` the crawler
would produce. `FundsDetail` receives a function from symbol to `Step`, so
that its contract can say which symbol the crawler was given.

The model follows the code, including these quirks:

- The sheet detail handler (app.py:128-139) does not consult the sheet
  authentication flag. Only the sheet list handler does (app.py:115).
  `SheetDetail`'s contract does not mention the flag.
- `/stocks/` and `/stocks/<code>/analysis/` register GET only (app.py:79,
  app.py:147). Their POST branches cannot be reached through routing, so the
  full stock crawl and the forced analysis replace never run. The handlers
  take the verb as a parameter and model both branches. Each contract also
  states what holds for the routed verbs: no stock write, and no analysis
  deletion (the old collection is a prefix of the new one).
- The search handler passes the code to the crawler as given (app.py:240).
  It filters the stored results by the upper-cased code (app.py:247).
- `mongo_url` (app.py:29) is computed but not used: the crawlers receive
  the whole URI (app.py:33, app.py:38). Only `db_name` is used.

## Model

| member | source | states |
|---|---|---|
| MongoUri.LastIndexOf | app.py:27 | the position found holds the separator and no later position does; no position is found exactly when the separator is absent |
| MongoUri.RSplitOnce | app.py:27 | `rsplit(sep, 1)` gives two pieces exactly when the separator occurs; the last piece has no separator; the two pieces rejoined around it are the input; one piece is the whole input |
| MongoUri.SplitUri | app.py:27-29 | the database name has no '/'; with a '/', url + "/" + name is the URI; without one, the name is the URI and the url is empty |
| MongoUri.SplitUriAt | app.py:27-29 | converse: any decomposition url + "/" + name with no '/' in name is exactly what the split returns |
| MongoUri.DefaultTarget | app.py:20-29 | the default URI gives database `stocksCrawler` on `mongodb://localhost:27017` |
| Text.Upper | app.py:104 | same length; no lower-case ASCII letter remains; other characters are kept; each lower-case letter becomes its capital |
| Collection.FirstIndex | app.py:150-152 | `find_one`: the position found matches and no earlier one does; nothing is found exactly when nothing matches |
| Collection.Filter | app.py:247 | `find(filter)`: every result matches, and each matching document occurs as often as in the store, each other document not at all |
| Collection.FilterAppend | app.py:240-247 | filtering a collection grown by appending lists the old matches, then the new ones |
| Collection.DeleteOne | app.py:159 | `delete_one(doc)` removes one document when `doc` is stored and changes nothing otherwise |
| Collection.DeleteOneAt | app.py:150-159 | deleting the document `find_one` returned removes exactly its position and keeps the rest in order |
| Collection.Upsert | app.py:89 | the new document is stored; documents with other keys stay; nothing else appears; the key set gains the new key; the length grows only for a new key; unique keys stay unique |
| Collection.UpsertAll | app.py:89 | after saving a full crawl, the key set is the old keys plus the crawled ones; unique keys stay unique; every stored document whose key was not crawled stays; nothing but stored or crawled documents appears |
| Collection.UpsertAllLastWins | app.py:89 | the last crawled document for each key is stored |
| Records.LatestQuote | app.py:133-136 | the quote found has the code and the greatest date among that code's quotes; nothing is found exactly when no quote has the code |
| Records.LatestQuoteExample | app.py:133-136 | of PETR4 quotes dated 2023-01-01 and 2023-02-01, the February one is served |
| Records.SearchHitsForAppend | app.py:240-247 | search results saved by a later crawl are listed after the earlier ones |
| Records.AnalysisIndexAppend | app.py:150-160 | after a miss, the analysis the extractor appended is the one `find_one` returns |
| Routes.AllowedVerbs | app.py:79-237 | every route takes GET; only the two sheet routes take POST |
| App.Gateway.constructor | app.py:20-58 | start-up state: the configured credentials, the outcome of the one sheet authentication attempt, the stored collections, an empty event log |
| App.Gateway.StocksList | app.py:79-90 | GET returns every stored stock and writes nothing. POST without both credentials returns the flagged "Credentials not set" with no crawl and no write. POST with both crawls once, upserts the result by code and returns it; a crawl failure is a 500 with no write. Through routing (GET only) the store never changes |
| App.Gateway.StocksV2Detail | app.py:102-110 | the first hit whose ticker prefix equals the upper-cased code; 404 exactly when there is none |
| App.Gateway.StocksDetail | app.py:164-170 | the first stock whose code equals the upper-cased code; 404 exactly when there is none |
| App.Gateway.SheetList | app.py:113-125 | unauthenticated: the flagged "Could not authenticate to Sheet Spider", no crawl, no write. Otherwise one pull, saved only on POST: its quotes are returned, and on POST appended; a pull failure is a 500 with no write |
| App.Gateway.SheetDetail | app.py:128-139 | a POST first pulls and appends (a failure is a 500); the reply is a quote with the upper-cased code and the greatest date among such quotes; 404 exactly when none has that code; the authentication flag plays no part |
| App.Gateway.AnalysisDetail | app.py:147-161 | no analysis and no stock for the upper-cased code: 404, no extractor call, store unchanged. GET with an analysis: that analysis, nothing deleted, no call. Miss with a stock, or POST: the found analysis (if any) is deleted, then the extractor is called; its result is appended and returned, or a 500 with the deletion kept. For routed verbs nothing is deleted. Unique codes stay unique |
| App.Gateway.FundsDetail | app.py:220-229 | the crawler gets the upper-cased symbol; its result is returned; `AttributeError` gives the flagged "Please, choose a valid symbol" with 400 and no record; any other failure a 500 |
| App.Gateway.GoogleSearchDetail | app.py:237-248 | the crawler runs once, given the code as typed. A failure gives the flagged "Please check the code or try again later." with 400 and no write. Otherwise its results are appended, and the reply is the stored results whose symbol is the upper-cased code: old ones first, then new ones |
| App.ReadAfterMiss | app.py:147-161 | cache-aside: a GET miss stores and returns the extracted analysis; the next GET returns it without calling the extractor again |
| App.ReplaceTwice | app.py:147-161 | starting from unique codes and an existing stock or analysis, two forced refreshes of one code leave the codes unique and the analysis with that code is the last one extracted: exactly one record |
| App.SearchTwice | app.py:237-248 | two crawls for one symbol, each saving one result: the second reply holds the earlier matches, then both new results |

## Left out

- HTTP plumbing is not modelled: Flask routing itself, the `request` object, `jsonify`, and the `index` URL listing (app.py:61-76). Replies are `Reply` values. Flask answers a verb a route does not register with 405; that path is only described by `Routes.AllowedVerbs`.
- The response normalizers `convert_id`, `add_url` and `convert_decimal_for_response` are not modelled. They are in `utils/helpers`, which is not part of this model. Replies carry the stored documents as they are.
- Crawler internals are not modelled: `StockSpider`, `SheetCrawler`, `Fundamentei`, `FundsCrawler`, `GoogleSearchCrawler` and `TwitterCrawler` do network scraping. Each call is a `Step` parameter. How a crawler saves is not shown, so the model assumes the following:
  - a full stock crawl upserts each stock by code;
  - the analysis extractor appends its result;
  - a saved sheet pull appends its quotes;
  - a search crawl appends its results;
  - a crawl that raises has written nothing. Partial writes before an exception are not modelled.
- These handlers are not modelled: `stocks_v2_list`, `analysis_list`, `funds_list`, `funds_ranking_list` and `tweet_list`. They lie outside the refresh-or-serve core modelled here. `stocks_v2_list` does branch on the verb (app.py:95-98): a GET reads the `hits` collection and a POST runs a saved crawl.
- The `StockTimeSeries` routes are not modelled (app.py:173-207). They pass a third-party API's answer through.
- Environment and configuration reading, logging, and the pymongo connection are not modelled. Only the resulting values are kept: the two credentials, the authentication flag set by the start-up attempt (app.py:55-58), and the collections.
- Concurrency is not modelled. Two refreshes of the same analysis racing on delete-then-insert cannot happen here: the model handles one request at a time.
- Text.Upper: models ASCII letters only. Python's `str.upper()` also maps other Unicode letters, some to several characters (it can change the length).
- Records.LatestQuote: MongoDB does not fix an order among quotes with the same latest date. The model returns the first in store order, and its contract promises only a latest-dated quote.
- Collection.FirstIndex: `find_one` without a sort is taken to return the first document in natural (insertion) order.
- Request verbs other than GET and POST are not modelled. Every branch in the handlers compares against POST, so HEAD behaves as GET.
- App.Gateway.GoogleSearchDetail: its contract gives the reply as a concatenation of `SearchHitsFor` results. That the reply holds exactly the matching stored documents follows from `Collection.Filter`'s contract. It is not repeated in the handler's contract.
