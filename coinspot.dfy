/** The CoinSpot exchange client: reading its credentials from the configuration,
    building the two requests it sends, turning an HTTP reply into a JSON value,
    looking one coin up in the latest prices, and the signed quote-buy body.

    What stays outside: the network (a request's outcome is an `Exchange` value the
    caller supplies), serde_json's parser (`parse`), HMAC-SHA-512 with hex encoding
    (`hmac`), `f64`'s `Display` (`display`) and the clock (`nowMillis`). */
module CoinSpot {
  import opened Wrappers
  import Json

  datatype Error =
    | MissingApiKey        // "Missing coinspot_api_key in config"
    | MissingApiSecret     // "Missing coinspot_api_secret in config"
    | InvalidHeaderValue   // `HeaderValue::from_str` refused the text
    | RequestError         // sending the request failed
    | ResponseError        // reading the reply's body failed
    | JsonError            // the reply's body is not JSON
    | RequestFailed        // the reply's status is not a success

  // ---------------------------------------------------------------------------
  // Configuration and credentials

  /** One value of the TOML configuration table; only strings are readable. */
  datatype ConfigEntry = Text(s: string) | NonText

  type Config = map<string, ConfigEntry>

  /** `Config::get_config`: the string stored under `key`, if there is one. */
  function GetConfig(config: Config, key: string): (r: Option<string>)
    ensures r.Some? <==> key in config && config[key].Text?
    ensures r.Some? ==> config[key] == Text(r.value)
  {
    if key in config && config[key].Text? then Some(config[key].s) else None
  }

  const ApiKeyName := "coinspot_api_key"
  const ApiSecretName := "coinspot_api_secret"

  /** The client's state that matters here (the HTTP client and the copied
      configuration are left out). */
  datatype Client = Client(apiKey: string, apiSecret: string)

  /** `CoinSpot::init`: both credentials must be in the configuration, the key is
      looked up first. */
  function Init(config: Config): (r: Result<Client, Error>)
    ensures r.Ok? <==> GetConfig(config, ApiKeyName).Some? && GetConfig(config, ApiSecretName).Some?
    ensures r.Ok? ==> r.value.apiKey == GetConfig(config, ApiKeyName).value
                      && r.value.apiSecret == GetConfig(config, ApiSecretName).value
    ensures GetConfig(config, ApiKeyName).None? ==> r == Err(MissingApiKey)
    ensures GetConfig(config, ApiKeyName).Some? && GetConfig(config, ApiSecretName).None? ==>
              r == Err(MissingApiSecret)
  {
    var apiKey :- OkOr(GetConfig(config, ApiKeyName), MissingApiKey);
    var apiSecret :- OkOr(GetConfig(config, ApiSecretName), MissingApiSecret);
    Ok(Client(apiKey, apiSecret))
  }

  /** `Option::ok_or_else`. */
  function OkOr<T>(o: Option<T>, e: Error): (r: Result<T, Error>)
    ensures r.Ok? <==> o.Some?
    ensures r.Ok? ==> r.value == o.value
    ensures r.Err? ==> r.error == e
  {
    if o.Some? then Ok(o.value) else Err(e)
  }

  // ---------------------------------------------------------------------------
  // Requests and replies

  /** A byte that `HeaderValue::from_str` accepts: a tab or anything from space up,
      except DEL. The bytes of a non-ASCII character's UTF-8 encoding are all at or
      above 0x80, so the test carries over to characters unchanged. */
  predicate HeaderChar(c: char)
  {
    c == '\t' || (32 <= c as int && c as int != 127)
  }

  predicate IsHeaderText(s: string)
  {
    forall i :: 0 <= i < |s| ==> HeaderChar(s[i])
  }

  /** `HeaderValue::from_str(s)?`. */
  function HeaderValue(s: string): (r: Result<string, Error>)
    ensures r.Ok? <==> IsHeaderText(s)
    ensures r.Ok? ==> r.value == s
    ensures r.Err? ==> r.error == InvalidHeaderValue
  {
    if IsHeaderText(s) then Ok(s) else Err(InvalidHeaderValue)
  }

  datatype Verb = Get | Post

  /** A request as handed to the HTTP client. `HeaderMap::insert` replaces an
      earlier value of the same name, so the headers are a map. */
  datatype Request = Request(verb: Verb, url: string, headers: map<string, string>, body: Option<string>)

  /** What happened to a request on the wire: it could not be sent, or a reply came
      back with a status and a body (`None` when reading the body failed). */
  datatype Exchange = SendFailed | Replied(status: int, body: Option<string>)

  /** `StatusCode::is_success`: the 2xx range. */
  predicate IsSuccess(status: int)
  {
    200 <= status <= 299
  }

  /** The reply handling both requests share: a successful status whose body reads
      and parses gives that JSON value, every other reply fails. */
  function ReadJson(exchange: Exchange, parse: string -> Option<Json.Value>): (r: Result<Json.Value, Error>)
    ensures r.Ok? <==> exchange.Replied? && IsSuccess(exchange.status) && exchange.body.Some? &&
                       parse(exchange.body.value).Some?
    ensures r.Ok? ==> r.value == parse(exchange.body.value).value
    ensures exchange.SendFailed? ==> r == Err(RequestError)
    ensures exchange.Replied? && !IsSuccess(exchange.status) ==> r == Err(RequestFailed)
    ensures exchange.Replied? && IsSuccess(exchange.status) && exchange.body.None? ==> r == Err(ResponseError)
    ensures (exchange.Replied? && IsSuccess(exchange.status) && exchange.body.Some? &&
             parse(exchange.body.value).None?) ==> r == Err(JsonError)
  {
    match exchange
    case SendFailed => Err(RequestError)
    case Replied(status, body) =>
      if IsSuccess(status) then
        var text :- OkOr(body, ResponseError);
        OkOr(parse(text), JsonError)
      else
        Err(RequestFailed)
  }

  const LatestPricesUrl := "https://www.coinspot.com.au/pubapi/v2/latest"
  const QuoteBuyUrl := "https://www.coinspot.com.au/api/v2/quote/buy/now"

  /** The request `get_prices` sends: a GET whose `key` header is the API key and
      whose `sign` header is the API secret itself. */
  function PricesRequest(c: Client): (r: Result<Request, Error>)
    ensures r.Ok? <==> IsHeaderText(c.apiKey) && IsHeaderText(c.apiSecret)
    ensures r.Ok? ==> r.value.verb == Get && r.value.url == LatestPricesUrl && r.value.body.None?
                      && r.value.headers == map["key" := c.apiKey, "sign" := c.apiSecret]
  {
    var key :- HeaderValue(c.apiKey);
    var sign :- HeaderValue(c.apiSecret);
    Ok(Request(Get, LatestPricesUrl, map["key" := key, "sign" := sign], None))
  }

  /** `get_prices`: fails on a header it cannot build, on a failed send, on any
      non-success status, and on a body that does not read or parse. */
  function GetPrices(c: Client, exchange: Exchange, parse: string -> Option<Json.Value>): (r: Result<Json.Value, Error>)
    ensures r.Ok? <==> PricesRequest(c).Ok? && ReadJson(exchange, parse).Ok?
    ensures PricesRequest(c).Err? ==> r == Err(InvalidHeaderValue)
    ensures PricesRequest(c).Ok? ==> r == ReadJson(exchange, parse)
  {
    var _ :- PricesRequest(c);
    ReadJson(exchange, parse)
  }

  /** The lookup of `get_price_coin`: `json["prices"][coin]`, with `Null` read as
      "no such coin". A failure of the prices call is passed on unchanged. */
  function PriceCoin(prices: Result<Json.Value, Error>, coin: string): (r: Result<Option<Json.Value>, Error>)
    ensures prices.Err? ==> r == Err(prices.error)
    ensures prices.Ok? ==> r.Ok?
    ensures prices.Ok? ==>
              (r.value.Some? <==>
                 prices.value.Object? && "prices" in prices.value.fields
                 && prices.value.fields["prices"].Object? && coin in prices.value.fields["prices"].fields
                 && prices.value.fields["prices"].fields[coin] != Json.Null)
    ensures r.Ok? && r.value.Some? ==> r.value.value == prices.value.fields["prices"].fields[coin]
  {
    var json :- prices;
    var info := Json.Get(Json.Get(json, "prices"), coin);
    Ok(if info == Json.Null then None else Some(info))
  }

  /** `get_price_coin` against the client: the prices call, then the lookup. */
  function GetPriceCoin(c: Client, exchange: Exchange, parse: string -> Option<Json.Value>, coin: string): (r: Result<Option<Json.Value>, Error>)
    ensures r.Err? <==> GetPrices(c, exchange, parse).Err?
    ensures r.Err? ==> r.error == GetPrices(c, exchange, parse).error
  {
    PriceCoin(GetPrices(c, exchange, parse), coin)
  }

  /** The three ways to get "no price": no `"prices"` object, no entry for the coin,
      or an entry that is JSON `null`. Each gives `Ok(None)`, never an error. */
  lemma {:induction false} PriceCoinNoneCases(json: Json.Value, coin: string)
    ensures !(json.Object? && "prices" in json.fields) ==> PriceCoin(Ok(json), coin) == Ok(None)
    ensures json.Object? && "prices" in json.fields && !(json.fields["prices"].Object? && coin in json.fields["prices"].fields)
            ==> PriceCoin(Ok(json), coin) == Ok(None)
    ensures json.Object? && "prices" in json.fields && json.fields["prices"].Object?
            && coin in json.fields["prices"].fields && json.fields["prices"].fields[coin] == Json.Null
            ==> PriceCoin(Ok(json), coin) == Ok(None)
  {
  }

  // ---------------------------------------------------------------------------
  // The nonce: `as_millis().to_string()`

  predicate IsDigit(c: char)
  {
    '0' <= c <= '9'
  }

  function DigitChar(d: nat): (c: char)
    requires d < 10
    ensures IsDigit(c) && (c as int) - ('0' as int) == d
  {
    (('0' as int) + d) as char
  }

  /** The decimal text of `n`, as `to_string` on an unsigned integer writes it. */
  function DecimalString(n: nat): (s: string)
    ensures |s| >= 1
    ensures forall i :: 0 <= i < |s| ==> IsDigit(s[i])
    ensures s[0] == '0' ==> n == 0 && s == "0"
  {
    if n < 10 then [DigitChar(n)] else DecimalString(n / 10) + [DigitChar(n % 10)]
  }

  /** The number a string of digits denotes. */
  function DecimalValue(s: string): nat
    requires forall i :: 0 <= i < |s| ==> IsDigit(s[i])
  {
    if s == [] then 0
    else 10 * DecimalValue(s[..|s| - 1]) + DigitValue(s[|s| - 1])
  }

  function DigitValue(c: char): (d: nat)
    requires IsDigit(c)
    ensures d < 10 && DigitChar(d) == c
  {
    (c as int) - ('0' as int)
  }

  /** The nonce text names the clock reading exactly. */
  lemma {:induction false} DecimalRoundTrip(n: nat)
    ensures DecimalValue(DecimalString(n)) == n
  {
    var s := DecimalString(n);
    if n >= 10 {
      DecimalRoundTrip(n / 10);
      assert s[..|s| - 1] == DecimalString(n / 10);
    }
  }

  /** Distinct clock readings give distinct nonces. */
  lemma DecimalStringInjective(m: nat, n: nat)
    requires DecimalString(m) == DecimalString(n)
    ensures m == n
  {
    DecimalRoundTrip(m);
    DecimalRoundTrip(n);
  }

  // ---------------------------------------------------------------------------
  // The quote-buy body

  const BodyOpen := "{\"nonce\":\""
  const CoinKey := "\",\"cointype\":\""
  const AmountKey := "\",\"amount\":"
  const TypeKey := ",\"amounttype\":\""
  const BodyClose := "\"}"

  /** The body `get_quote_coin_buy` formats: four keys in a fixed order, the amount
      written bare and the other three inside double quotes, nothing escaped. */
  function QuoteBuyBody(nonce: string, coin: string, amount: string, amountType: string): string
  {
    BodyOpen + nonce + CoinKey + coin + AmountKey + amount + TypeKey + amountType + BodyClose
  }

  datatype QuoteFields = QuoteFields(nonce: string, coin: string, amount: string, amountType: string)

  /** `s` without the prefix `p`, if it starts with `p`. */
  function StripPrefix(p: string, s: string): (r: Option<string>)
    ensures r.Some? <==> p <= s
    ensures r.Some? ==> s == p + r.value
  {
    if p <= s then Some(s[|p|..]) else None
  }

  /** `s` cut before the first `c`: the part without `c`, and the rest (starting
      with `c`, or empty when `c` does not occur). */
  function CutAt(s: string, c: char): (r: (string, string))
    ensures s == r.0 + r.1
    ensures c !in r.0
    ensures r.1 == [] || r.1[0] == c
  {
    if s == [] then ([], [])
    else if s[0] == c then ([], s)
    else var rest := CutAt(s[1..], c); ([s[0]] + rest.0, rest.1)
  }

  /** One field of the body: the text before the first `stop`, which must be
      followed by the literal `next`; gives the field and what follows `next`. */
  function Field(s: string, stop: char, next: string): (r: Option<(string, string)>)
    ensures r.Some? ==> s == r.value.0 + next + r.value.1 && stop !in r.value.0
  {
    var cut := CutAt(s, stop);
    var after :- StripPrefix(next, cut.1);
    Some((cut.0, after))
  }

  /** Reads the four fields back out of a body, taking each quoted field up to the
      next `"` and the amount up to the next `,`. */
  function DecodeQuoteBuyBody(s: string): Option<QuoteFields>
  {
    var r0 :- StripPrefix(BodyOpen, s);
    var nonce :- Field(r0, '"', CoinKey);
    var coin :- Field(nonce.1, '"', AmountKey);
    var amount :- Field(coin.1, ',', TypeKey);
    var amountType :- Field(amount.1, '"', BodyClose);
    if amountType.1 == [] then Some(QuoteFields(nonce.0, coin.0, amount.0, amountType.0)) else None
  }

  lemma CutAtPrefix(a: string, b: string, c: char)
    requires c !in a && |b| > 0 && b[0] == c
    ensures CutAt(a + b, c) == (a, b)
  {
    if a != [] {
      assert (a + b)[1..] == a[1..] + b;
      CutAtPrefix(a[1..], b, c);
      assert [a[0]] + a[1..] == a;
    } else {
      assert a + b == b;
    }
  }

  lemma StripPrefixOf(p: string, t: string)
    ensures StripPrefix(p, p + t) == Some(t)
  {
    assert p <= p + t;
    assert (p + t)[|p|..] == t;
  }

  lemma FieldOf(a: string, stop: char, next: string, t: string)
    requires stop !in a && |next| > 0 && next[0] == stop
    ensures Field(a + (next + t), stop, next) == Some((a, t))
  {
    CutAtPrefix(a, next + t, stop);
    StripPrefixOf(next, t);
  }

  /** The four values can be read back from the body whenever the quoted ones hold
      no `"` and the amount holds no `,`: the format keeps them apart. */
  lemma QuoteBuyBodyRoundTrip(f: QuoteFields)
    requires '"' !in f.nonce && '"' !in f.coin && ',' !in f.amount && '"' !in f.amountType
    ensures DecodeQuoteBuyBody(QuoteBuyBody(f.nonce, f.coin, f.amount, f.amountType)) == Some(f)
  {
    Nest(BodyOpen, f.nonce, CoinKey, f.coin, AmountKey, f.amount, TypeKey, f.amountType, BodyClose);
    assert BodyClose + [] == BodyClose;
    var t6 := f.amountType + BodyClose;
    var t4 := f.amount + (TypeKey + t6);
    var t2 := f.coin + (AmountKey + t4);
    var t0 := f.nonce + (CoinKey + t2);
    StripPrefixOf(BodyOpen, t0);
    FieldOf(f.nonce, '"', CoinKey, t2);
    FieldOf(f.coin, '"', AmountKey, t4);
    FieldOf(f.amount, ',', TypeKey, t6);
    FieldOf(f.amountType, '"', BodyClose, []);
  }

  /** Conversely, whatever the decoder accepts is exactly a body of that format. */
  lemma DecodedIsQuoteBuyBody(s: string)
    requires DecodeQuoteBuyBody(s).Some?
    ensures var f := DecodeQuoteBuyBody(s).value;
            s == QuoteBuyBody(f.nonce, f.coin, f.amount, f.amountType)
  {
    var r0 := StripPrefix(BodyOpen, s).value;
    var nonce := Field(r0, '"', CoinKey).value;
    var coin := Field(nonce.1, '"', AmountKey).value;
    var amount := Field(coin.1, ',', TypeKey).value;
    var amountType := Field(amount.1, '"', BodyClose).value;
    assert amountType.1 == [];
    assert amount.1 == amountType.0 + BodyClose;
    Nest(BodyOpen, nonce.0, CoinKey, coin.0, AmountKey, amount.0, TypeKey, amountType.0, BodyClose);
  }

  /** Regrouping the nine pieces of a body; kept apart so that the pieces stay
      abstract. */
  lemma Nest(p0: string, a: string, p1: string, b: string, p2: string, c: string, p3: string, d: string, p4: string)
    ensures p0 + a + p1 + b + p2 + c + p3 + d + p4 == p0 + (a + p1 + (b + p2 + (c + p3 + (d + p4))))
  {
  }

  /** The nonce the body carries is the clock reading, for any coin, amount text and
      amount type without the separators. */
  lemma QuoteBuyBodyNonce(nowMillis: nat, coin: string, amount: string, amountType: string)
    requires '"' !in coin && ',' !in amount && '"' !in amountType
    ensures var f := DecodeQuoteBuyBody(QuoteBuyBody(DecimalString(nowMillis), coin, amount, amountType));
            f.Some? && f.value.nonce == DecimalString(nowMillis) && DecimalValue(f.value.nonce) == nowMillis
  {
    var nonce := DecimalString(nowMillis);
    assert '"' !in nonce;
    QuoteBuyBodyRoundTrip(QuoteFields(nonce, coin, amount, amountType));
    DecimalRoundTrip(nowMillis);
  }

  // ---------------------------------------------------------------------------
  // The quote-buy request

  /** The body of the quote-buy request sent at `nowMillis`. */
  function QuoteBuyRequestBody(nowMillis: nat, coin: string, amount: F64, amountType: string,
                               display: F64 -> string): string
  {
    QuoteBuyBody(DecimalString(nowMillis), coin, display(amount), amountType)
  }

  /** The request `get_quote_coin_buy` sends: a POST whose body is the formatted
      quote and whose `sign` header is the HMAC of that very body under the secret. */
  function QuoteBuyRequest(c: Client, nowMillis: nat, coin: string, amount: F64, amountType: string,
                           display: F64 -> string, hmac: (string, string) -> string): (r: Result<Request, Error>)
    ensures var body := QuoteBuyRequestBody(nowMillis, coin, amount, amountType, display);
            r.Ok? <==> IsHeaderText(c.apiKey) && IsHeaderText(hmac(c.apiSecret, body))
    ensures r.Err? ==> r.error == InvalidHeaderValue
    ensures r.Ok? ==>
              && r.value.verb == Post && r.value.url == QuoteBuyUrl
              && r.value.body == Some(QuoteBuyRequestBody(nowMillis, coin, amount, amountType, display))
              && r.value.headers.Keys == {"key", "sign", "Content-Type"}
              && r.value.headers["key"] == c.apiKey
              && r.value.headers["sign"] == hmac(c.apiSecret, r.value.body.value)
              && r.value.headers["Content-Type"] == "application/json"
  {
    var body := QuoteBuyRequestBody(nowMillis, coin, amount, amountType, display);
    var sign := hmac(c.apiSecret, body);
    var key :- HeaderValue(c.apiKey);
    var signValue :- HeaderValue(sign);
    var headers := map["key" := key, "sign" := signValue, "Content-Type" := "application/json"];
    Ok(Request(Post, QuoteBuyUrl, headers, Some(body)))
  }

  predicate IsLowerHex(s: string)
  {
    forall i :: 0 <= i < |s| ==> IsDigit(s[i]) || 'a' <= s[i] <= 'f'
  }

  /** With a signer that writes lower-case hex, as `hex::encode` does, the `sign`
      header never fails: only an API key the header type refuses can. */
  lemma QuoteBuyRequestHexSign(c: Client, nowMillis: nat, coin: string, amount: F64, amountType: string,
                               display: F64 -> string, hmac: (string, string) -> string)
    requires IsLowerHex(hmac(c.apiSecret, QuoteBuyRequestBody(nowMillis, coin, amount, amountType, display)))
    ensures QuoteBuyRequest(c, nowMillis, coin, amount, amountType, display, hmac).Ok? <==> IsHeaderText(c.apiKey)
  {
    var sign := hmac(c.apiSecret, QuoteBuyRequestBody(nowMillis, coin, amount, amountType, display));
    assert IsHeaderText(sign) by {
      forall i | 0 <= i < |sign| ensures HeaderChar(sign[i]) {
        assert IsDigit(sign[i]) || 'a' <= sign[i] <= 'f';
      }
    }
  }

  /** `get_quote_coin_buy`: the request, then the shared reply handling; a success is
      always `Some`, and every failure is an error. */
  function GetQuoteCoinBuy(c: Client, nowMillis: nat, coin: string, amount: F64, amountType: string,
                           display: F64 -> string, hmac: (string, string) -> string,
                           exchange: Exchange, parse: string -> Option<Json.Value>): (r: Result<Option<Json.Value>, Error>)
    ensures r.Ok? ==> r.value.Some?
    ensures r.Ok? <==> QuoteBuyRequest(c, nowMillis, coin, amount, amountType, display, hmac).Ok?
                       && ReadJson(exchange, parse).Ok?
    ensures r.Ok? ==> r.value.value == ReadJson(exchange, parse).value
  {
    var _ :- QuoteBuyRequest(c, nowMillis, coin, amount, amountType, display, hmac);
    var json :- ReadJson(exchange, parse);
    Ok(Some(json))
  }
}
