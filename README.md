# Trader: a Dafny model of the price-logging daemon, the CoinSpot client and the CSV price parser

The repository is a small trading bot in two parts. The Rust part has three pieces:

- a daemon (`src/daemon.rs`) that picks an exchange client by name;
- the loop it runs: ask the client for the BTC quote, store the quote's `"last"` price in an
  sqlite table, sleep five minutes, and start again;
- the CoinSpot client (`src/api/coinspot.rs`), which fetches the latest prices and builds a
  signed quote-buy request.

The Java part (`Trader.java`) reads one column of a CSV price file into a list.

The model has one module per concern:

| module | file | models |
|---|---|---|
| `Wrappers` | `wrappers.dfy` | `Option`, `Result`, and `F64` / `F32` kept as bit patterns |
| `Json` | `json.dfy` | the `serde_json::Value` operations used: `v[key]` (missing gives `Null`) and `as_str` |
| `CoinSpot` | `coinspot.dfy` | `init`, the two requests, reply handling, `get_price_coin`, the nonce, the quote-buy body and its signature |
| `Daemon` | `daemon.dfy` | `Daemon::new`'s dispatch, one iteration's decision tree, the store, the loop as a class with an event log |
| `JavaSplit` | `java_split.dfy` | Java's `String.split(",")` |
| `Trader` | `trader.dfy` | `dataFileParsePrice`: header lookup, the row loop, the `dataFilePrice` field |

Things outside the program are inputs to the model:

- the network: each request's outcome is an `Exchange` value;
- serde_json's parser, `f64` parsing, `f64` `Display` and `Float.parseFloat`: partial
  functions passed as parameters;
- HMAC-SHA-512 with hex encoding: a function `(secret, body) -> string` passed as a parameter;
- the clock: a number of milliseconds;
- the CSV file: its sequence of lines, or `Missing`;
- how the database answers each insert: `Refused` (`prepare` or `bind` fails), `Inserted`, or
  `StepFailed` (the insert's step fails, which the code does not check);
- the rows the table already holds when the daemon starts.

The unbounded `loop` runs over a finite sequence of iteration environments. Every element of
that sequence is processed. This is how the model states that no outcome leaves the loop.

Facts of the code that the model keeps:

- The daemon sleeps a fixed 300 seconds after every iteration, whatever its outcome
  (`src/daemon.rs:56`).
- Only the `"last"` field of the quote is read, and the stored row is that price alone.
- The store only inserts. Nothing in the code reads the table back.
- `get_prices` sends the API secret itself as its `sign` header (`src/api/coinspot.rs:56`).
- The trait in `src/api/mod.rs:12` declares `get_quote_coin_buy` with two parameters, but
  the implementation (`src/api/coinspot.rs:97`) takes three. The model follows the
  implementation.
- `log_price_btc` does not look at the result of the insert's step (`src/database.rs:33`),
  so an insert can fail and still be reported as logged (see "## Findings").

One iteration is summed up as a `Step`: the decision tree's result (a price to store, or
the reason there is none) and the database's answer. `StepOf` computes it from the
exchange's reply, and the facts about whole runs are proved for every sequence of steps.

## Model

| member | source | states |
|---|---|---|
| `Json.Get` | src/api/coinspot.rs:86 | indexing a JSON value by key gives the object's entry when the key is there; a missing key or a non-object gives `Null`; a non-null result is always an entry of the object |
| `Json.AsStr` | src/daemon.rs:36 | `as_str` gives the text exactly when the value is a JSON string |
| `CoinSpot.GetConfig` | src/config.rs:16-18 | a configuration value is readable exactly when the key is present and holds a string, and then it is that string |
| `CoinSpot.Init` | src/api/coinspot.rs:28-42 | init succeeds exactly when both `coinspot_api_key` and `coinspot_api_secret` are present, and keeps them; without the key it fails with MissingApiKey (checked first); with the key but no secret it fails with MissingApiSecret |
| `CoinSpot.HeaderValue` | src/api/coinspot.rs:55-56 | a header value is accepted exactly when every character is a tab or a visible character (not a control character, not DEL); an accepted value is kept unchanged |
| `CoinSpot.ReadJson` | src/api/coinspot.rs:58-81 | a reply gives a JSON value exactly when the send worked, the status is 2xx, the body reads and it parses, and the value is the parse of that body; otherwise it gives RequestError, RequestFailed (non-2xx), ResponseError or JsonError |
| `CoinSpot.PricesRequest` | src/api/coinspot.rs:54-60 | the prices request is a GET to the public latest-prices URL with no body; its `key` header is the API key and its `sign` header is the API secret; it can be built exactly when both are valid header text |
| `CoinSpot.GetPrices` | src/api/coinspot.rs:53-82 | get_prices succeeds exactly when its headers build and the reply gives JSON; a header that does not build fails before any reply is used |
| `CoinSpot.PriceCoin` | src/api/coinspot.rs:84-88 | a failure of get_prices is passed on as the same error, never as `None`; on success the result is `Some(v)` exactly when `json["prices"]` is an object holding a non-null entry `v` for the coin |
| `CoinSpot.GetPriceCoin` | src/api/coinspot.rs:84-85 | get_price_coin fails exactly when get_prices fails, and then with the same error |
| `CoinSpot.PriceCoinNoneCases` | src/api/coinspot.rs:86-87 | a missing `"prices"`, a missing coin key and an explicit `null` each give `Ok(None)` |
| `CoinSpot.DecimalString` | src/api/coinspot.rs:98-102 | the nonce text is non-empty, all digits, and has no leading zero unless it is "0" |
| `CoinSpot.DecimalRoundTrip` | src/api/coinspot.rs:98-102 | the nonce's digits denote exactly the clock reading in milliseconds |
| `CoinSpot.DecimalStringInjective` | src/api/coinspot.rs:98-102 | different clock readings give different nonces |
| `CoinSpot.QuoteBuyBodyRoundTrip` | src/api/coinspot.rs:104-107 | the body `{"nonce":"N","cointype":"C","amount":A,"amounttype":"T"}` can be decoded back into its four values (keys in that order, amount bare) whenever N, C and T hold no `"` and A holds no `,` |
| `CoinSpot.DecodedIsQuoteBuyBody` | src/api/coinspot.rs:104-107 | every string the decoder accepts is exactly a body of that format |
| `CoinSpot.QuoteBuyBodyNonce` | src/api/coinspot.rs:98-107 | the nonce read back from a quote-buy body is the clock reading |
| `CoinSpot.QuoteBuyRequest` | src/api/coinspot.rs:104-119 | the quote-buy request is a POST to the quote URL; its body is the formatted quote; its `sign` header is the HMAC, under the API secret, of exactly that body; its `key` header is the API key and `Content-Type` is JSON; it fails only when the key or the signature is not valid header text |
| `CoinSpot.QuoteBuyRequestHexSign` | src/api/coinspot.rs:109-113 | when the signer writes lower-case hex, the request fails exactly when the API key is not valid header text |
| `CoinSpot.GetQuoteCoinBuy` | src/api/coinspot.rs:97-143 | get_quote_coin_buy never gives `Ok(None)`; it succeeds exactly when the request builds and the reply gives JSON, and then it carries that JSON |
| `Daemon.New` | src/daemon.rs:12-19 | a failed database open comes first; every client name other than "coinspot" is rejected as unsupported; "coinspot" succeeds exactly when CoinSpot's init does, and otherwise passes on its error |
| `Daemon.PriceToStore` | src/daemon.rs:34-53 | a price is sent to the store exactly when the fetch gave `Ok(Some(info))`, `info["last"]` is a JSON string and it parses, and the price is that parse; a fetch error, `Ok(None)`, a missing or non-string `"last"` and a parse failure each give their own outcome |
| `Daemon.CycleOutcome` | src/daemon.rs:38-43 | an iteration ends in Logged exactly when a price was decided and `log_price_btc` returned `Ok`, and in StoreError exactly when it returned an error; both carry that price; an iteration without a price ends with the decision tree's reason |
| `Daemon.NumericLastRejected` | src/daemon.rs:36-48 | a JSON number under `"last"` is rejected as "missing or not a string", never stored |
| `Daemon.StepEventsShape` | src/daemon.rs:33-57 | one iteration queries "btc" first and sleeps 300 s last; it makes one store call when a price was decided and none otherwise; it reports as logged exactly that price when the statement could be prepared and bound |
| `Daemon.TraceSleeps` | src/daemon.rs:32-57 | over any number of iterations there is one sleep per iteration, whatever its outcome, and every sleep is 300 s |
| `Daemon.TraceStoreCalls` | src/daemon.rs:34-44 | the store is called at most once per iteration, and the prices reported as logged are a subsequence of the prices sent to the store |
| `Daemon.TraceAppendedLogged` | src/database.rs:27-36 | the rows the database gains are a subsequence of the prices reported as logged, so never more of them |
| `Daemon.TraceAppendedNoLoss` | src/database.rs:27-36 | when no insert step fails after a price was sent, the database gains exactly the prices reported as logged, in order |
| `Daemon.TraceAppendedLoss` | src/database.rs:33-35 | when some iteration's insert step fails after a price was sent, the database gains fewer rows than prices reported as logged |
| `Daemon.TraceAppendedExact` | src/database.rs:33-35 | the rows gained equal the prices reported as logged if and only if no iteration loses its row to a failed step |
| `Daemon.TraceStartsWithQuery` | src/daemon.rs:32-34 | a run's first event is the "btc" query, before any sleep |
| `Daemon.StepFailedLoggedNotStored` | src/database.rs:33-35 | an iteration whose insert step fails reports its price as logged, yet adds no row |
| `Daemon.CheckedOutcome` | src/daemon.rs:38-43 | with a failed step treated as an error, an iteration reports Logged exactly when its row was inserted, and StoreError whenever a price was sent but not inserted |
| `Daemon.CheckedLoggedIsAppended` | src/daemon.rs:38-43 | with a failed step treated as an error, the prices reported as logged are exactly the rows the database gains, over every run |
| `Daemon.Database.constructor` | src/database.rs:7-24 | the opened table holds the rows it already had (`CREATE TABLE IF NOT EXISTS` keeps a table from earlier runs), and no calls have been made yet |
| `Daemon.Database.LogPriceBtc` | src/database.rs:27-36 | the call is recorded; it returns an error only when the statement cannot be prepared or bound; a row with exactly the price is added only when the step runs; a failed step still returns `Ok` with no row |
| `Daemon.Daemon.constructor` | src/daemon.rs:21-25 | the daemon keeps its client and database and has done nothing yet |
| `Daemon.Daemon.Iterate` | src/daemon.rs:34-56 | one loop body appends exactly its iteration's events; the store receives exactly the store call those events record; the table gains exactly the iteration's row |
| `Daemon.Daemon.LogBtcPricePeriodically` | src/daemon.rs:32-58 | the loop runs every iteration it is given, in order: its events are the concatenation of the iterations' events, the store receives exactly the store calls of those events, and the table gains exactly the rows of the iterations whose insert ran |
| `JavaSplit.Pieces` | Trader.java:76 | cutting at commas gives at least one piece, no piece holds a comma, and a line without a comma is a single piece |
| `JavaSplit.JoinPieces` | Trader.java:76 | joining the pieces with commas gives back the line |
| `JavaSplit.PiecesJoin` | Trader.java:76 | comma-free pieces are recovered from their join |
| `JavaSplit.DropTrailingEmpty` | Trader.java:76 | the result is a prefix of the input, everything dropped is empty, and what is left does not end in an empty string |
| `JavaSplit.Split` | Trader.java:76 | `split(",")` of a line without a comma is the line itself; otherwise it is the comma-separated pieces with the trailing empty ones dropped |
| `Trader.ColumnIndex` | Trader.java:58-73 | the column is the first header field equal to the requested name, so later matches are ignored; with no match it is 0 |
| `Trader.FindColumn` | Trader.java:67-73 | the header loop with its `break` returns exactly that column |
| `Trader.Cell` | Trader.java:76-77 | a data line gives a value exactly when its split has a field at the column and `parseFloat` accepts it; otherwise it throws index-out-of-bounds or number-format for that row |
| `Trader.ExtractMeaning` | Trader.java:75-79 | the list holds one value per data line read, in file order, each from that line's field at the column; it is complete exactly when no line throws, and otherwise the exception is the first failing line's |
| `Trader.ExtractStops` | Trader.java:75-80 | after a line throws, the lines after it add nothing |
| `Trader.ExtractAllValid` | Trader.java:75-79 | when every data line converts, the list is exactly those values, one per line |
| `Trader.Trader.constructor` | Trader.java:26-33 | the constructor keeps the path and threshold, and `dataFilePrice` is still null |
| `Trader.Trader.DataFileParsePrice` | Trader.java:55-83 | the list is always replaced by a fresh one, so earlier results are gone; a missing file leaves it empty and completes; an empty file throws on the header; otherwise the header line is consumed and the list holds the chosen column of the data lines, up to the first one that throws |

## Left out

- HTTP and async plumbing: sending requests, awaiting replies, `reqwest` client reuse, tokio's sleep. A reply is an `Exchange` input and a sleep is a recorded `Sleep(300)` event.
- HMAC-SHA-512 and hex encoding (`src/api/coinspot.rs:90-95`): a foreign library, passed in as a function of the secret and the body.
- Float parsing and formatting: `str::parse::<f64>`, `Float.parseFloat`, and `f64`'s `Display` of the amount. These are opaque partial conversions passed in; prices are bit patterns that are never computed with.
- `serde_json::from_str`: an opaque parser passed in. JSON numbers are reals, because nothing in the core inspects them.
- The clock behind the nonce: passed in. The panic on a clock before 1970 is not modelled.
- `Config::init` (`src/config.rs:10-14`): a file read and TOML parse that panic on failure. Configuration values are given directly.
- `Database::init` and the sqlite engine (`src/database.rs:7-36`): opening is one boolean, the rows already stored are the constructor's argument, and each insert's answer is the iteration's `StoreReply`. Why sqlite refuses a statement or fails a step is not modelled.
- `Daemon.Database.LogPriceBtc`: does not model the row id or the default timestamp sqlite adds, because the code never reads them.
- The text of the printed messages and of the error values they include: each message is one `Outcome` constructor.
- The reply body read and logged after a failed quote-buy (`src/api/coinspot.rs:138-140`): it only feeds a log line.
- `print_api_key` (`src/api/coinspot.rs:47-51`): a debug string.
- `src/main.rs` (logging set-up, process exit) and the trait declarations in `src/api/mod.rs` and `src/algorithm/mod.rs`. The algorithm module's `v1_0` is not part of this model.
- `Trader.dataFilePrint`, `dataFileRecognizeBottoms` (returns null), `main`, and the unused fields `currency` and `exchange`.
- The `dataFile` field (`Trader.java:29`). `DataFileParsePrice` takes the file's contents as its `DataFile` parameter, and the model does not tie that parameter to `dataFilePath`.
- Scanner details: the lines are given as a clean sequence. `hasNext` skipping trailing blank lines is not modelled, and neither is a final line without a newline.
- The unbounded loop runs over a finite sequence of iterations. Termination by an external signal is outside the program.

## Findings

| source | as written | input that shows it | evidently intended | confidence | as-written member | corrected member |
|---|---|---|---|---|---|---|
| src/database.rs:33-35 | the result of `statement.next()` is dropped and `Ok(())` is returned, so the daemon prints "Logged BTC price" (`src/daemon.rs:42`) even when the insert's step failed and no row was stored | a quote whose `"last"` is `"NaN"`: it parses as an `f64` NaN, SQLite stores a NaN as NULL, and the `NOT NULL` price column then makes the step fail | a failed step is returned as an error, so the daemon prints "Failed to log BTC price" and reports as logged only prices that were stored | not executed; medium | `Daemon.StepFailedLoggedNotStored` | `Daemon.CheckedOutcome` |

The loop model (`Daemon.Daemon.Iterate`, `Daemon.StepEvents`) keeps the code's `Ok(())` after a
failed step, because that is what the program does. `Daemon.CheckedOutcome` is the corrected
decision, and `Daemon.CheckedLoggedIsAppended` proves that with it, the prices logged are the
rows stored. `Daemon.TraceAppendedLoss` shows the gap over whole runs of the code as written.
