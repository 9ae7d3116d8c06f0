/** The daemon: choosing the exchange client by name, and the polling loop that
    asks that client for the BTC quote, stores its `"last"` price, and sleeps a
    fixed 300 seconds, forever.

    The loop is modelled over a finite sequence of iterations; each iteration's
    environment (the exchange's reply, how the database answers the insert) is
    an input. The loop itself records what it does as a sequence of events. */
module Daemon {
  import opened Wrappers
  import Json
  import CoinSpot

  datatype Error =
    | DatabaseInit                   // `Database::init()?`
    | UnsupportedClient(name: string) // "Unsupported CEx client: {}"
    | ClientInit(e: CoinSpot.Error)  // `init_cex_client(&config)?`

  const CoinSpotName := "coinspot"

  /** The exchange client of `Daemon::new`. The database is opened first; then only
      the name "coinspot" selects a client, whose own start-up may still fail. */
  function New(clientName: string, config: CoinSpot.Config, databaseOpens: bool): (r: Result<CoinSpot.Client, Error>)
    ensures r.Ok? ==> databaseOpens && clientName == CoinSpotName
    ensures !databaseOpens ==> r == Err(DatabaseInit)
    ensures databaseOpens && clientName != CoinSpotName ==> r == Err(UnsupportedClient(clientName))
    ensures databaseOpens && clientName == CoinSpotName ==>
              (r.Ok? <==> CoinSpot.Init(config).Ok?)
              && (r.Ok? ==> r.value == CoinSpot.Init(config).value)
              && (r.Err? ==> r.error == ClientInit(CoinSpot.Init(config).error))
  {
    if !databaseOpens then Err(DatabaseInit)
    else if clientName == CoinSpotName then
      match CoinSpot.Init(config)
      case Ok(client) => Ok(client)
      case Err(e) => Err(ClientInit(e))
    else Err(UnsupportedClient(clientName))
  }

  // ---------------------------------------------------------------------------
  // One iteration's decision

  const Btc := "btc"
  const LastKey := "last"
  const PollSeconds := 300

  /** Why an iteration ends without a price to store, one constructor per message. */
  datatype NoPrice =
    | FetchError            // "Error fetching BTC price: {}"
    | PriceInfoNotFound     // "Price info not found for BTC."
    | LastNotString         // "BTC price field missing or not a string."
    | ParseError            // "Failed to parse BTC price string: {}"

  /** What an iteration reports. */
  datatype Outcome =
    | Stopped(reason: NoPrice)
    | StoreError(price: F64) // "Failed to log BTC price: {}"
    | Logged(price: F64)    // "Logged BTC price: {}"

  /** The nested `match` before the store call: the price to store, or the outcome
      that ends the iteration without one. */
  function PriceToStore(fetch: Result<Option<Json.Value>, CoinSpot.Error>, parse: string -> Option<F64>): (r: Result<F64, NoPrice>)
    ensures r.Ok? <==> fetch.Ok? && fetch.value.Some? && Json.Get(fetch.value.value, LastKey).Str?
                       && parse(Json.Get(fetch.value.value, LastKey).s).Some?
    ensures r.Ok? ==> r.value == parse(Json.Get(fetch.value.value, LastKey).s).value
    ensures fetch.Err? ==> r == Err(FetchError)
    ensures fetch == Ok(None) ==> r == Err(PriceInfoNotFound)
    ensures fetch.Ok? && fetch.value.Some? && !Json.Get(fetch.value.value, LastKey).Str? ==> r == Err(LastNotString)
    ensures (fetch.Ok? && fetch.value.Some? && Json.Get(fetch.value.value, LastKey).Str? &&
             parse(Json.Get(fetch.value.value, LastKey).s).None?) ==> r == Err(ParseError)
  {
    match fetch
    case Ok(Some(priceInfo)) =>
      (match Json.AsStr(Json.Get(priceInfo, LastKey))
       case Some(priceStr) =>
         (match parse(priceStr)
          case Some(price) => Ok(price)
          case None => Err(ParseError))
       case None => Err(LastNotString))
    case Ok(None) => Err(PriceInfoNotFound)
    case Err(_) => Err(FetchError)
  }

  /** The outcome of an iteration once the decision tree has given `plan` and, when
      it gave a price, `log_price_btc` has returned; `storeOk` is whether that
      call returned `Ok`. */
  function CycleOutcome(plan: Result<F64, NoPrice>, storeOk: bool): (o: Outcome)
    ensures o.Logged? <==> plan.Ok? && storeOk
    ensures o.StoreError? <==> plan.Ok? && !storeOk
    ensures (o.Logged? || o.StoreError?) ==> o.price == plan.value
    ensures plan.Err? ==> o == Stopped(plan.error)
  {
    match plan
    case Ok(price) => if storeOk then Logged(price) else StoreError(price)
    case Err(reason) => Stopped(reason)
  }

  /** A JSON number under `"last"` is not stored, because only a string is read. */
  lemma NumericLastRejected(info: Json.Value, n: real, parse: string -> Option<F64>, storeOk: bool)
    requires Json.Get(info, LastKey) == Json.Number(n)
    ensures PriceToStore(Ok(Some(info)), parse) == Err(LastNotString)
    ensures CycleOutcome(PriceToStore(Ok(Some(info)), parse), storeOk) == Stopped(LastNotString)
  {
  }

  // ---------------------------------------------------------------------------
  // Events of the loop

  /** `Query(c)`: the client is asked for coin `c`; `StoreCall(p)`: the database is
      asked to insert `p`; `Report(o)`: the message of outcome `o` is printed;
      `Sleep(s)`: the loop sleeps `s` seconds. */
  datatype Event = Query(coin: string) | StoreCall(price: F64) | Report(outcome: Outcome) | Sleep(seconds: nat)

  /** How sqlite answers one `log_price_btc` call: `prepare` or `bind` fails and
      the `?` returns the error (`Refused`); the insert runs (`Inserted`); or the
      statement's step fails, which the code does not look at (`StepFailed`). */
  datatype StoreReply = Refused | Inserted | StepFailed

  /** What one iteration's environment supplies: the exchange's reply to the prices
      request, and the database's answer to an insert. */
  datatype CycleEnv = CycleEnv(exchange: CoinSpot.Exchange, store: StoreReply)

  /** The answer of `client_cex.get_price_coin("btc")` in environment `env`. */
  function Fetch(client: CoinSpot.Client, env: CycleEnv, parseJson: string -> Option<Json.Value>): Result<Option<Json.Value>, CoinSpot.Error>
  {
    CoinSpot.GetPriceCoin(client, env.exchange, parseJson, Btc)
  }

  /** What decides the course of one iteration: the price to store, or the outcome
      that ends it without one; and how the database answers an insert. */
  datatype Step = Step(plan: Result<F64, NoPrice>, store: StoreReply)

  /** The step of the iteration run in environment `env`. */
  function StepOf(client: CoinSpot.Client, env: CycleEnv, parseJson: string -> Option<Json.Value>,
                  parse: string -> Option<F64>): Step
  {
    Step(PriceToStore(Fetch(client, env, parseJson), parse), env.store)
  }

  /** The steps of the iterations run in the environments `envs`. */
  function Steps(client: CoinSpot.Client, envs: seq<CycleEnv>, parseJson: string -> Option<Json.Value>,
                 parse: string -> Option<F64>): seq<Step>
  {
    if envs == [] then []
    else Steps(client, envs[..|envs| - 1], parseJson, parse) + [StepOf(client, envs[|envs| - 1], parseJson, parse)]
  }

  /** The events of one iteration, in order. */
  function StepEvents(s: Step): seq<Event>
  {
    [Query(Btc)]
    + (if s.plan.Ok? then [StoreCall(s.plan.value)] else [])
    + [Report(CycleOutcome(s.plan, !s.store.Refused?)), Sleep(PollSeconds)]
  }

  /** The events of the iterations `steps`, one after the other. */
  function Trace(steps: seq<Step>): seq<Event>
  {
    if steps == [] then []
    else Trace(steps[..|steps| - 1]) + StepEvents(steps[|steps| - 1])
  }

  /** The row one iteration adds: its price, when it sent one and the insert ran. */
  function Added(s: Step): seq<F64>
  {
    if s.plan.Ok? && s.store.Inserted? then [s.plan.value] else []
  }

  /** The rows the database gains over the iterations `steps`. */
  function Appended(steps: seq<Step>): seq<F64>
  {
    if steps == [] then []
    else Appended(steps[..|steps| - 1]) + Added(steps[|steps| - 1])
  }

  /** The iteration sends a price to the store and the insert's step then fails. */
  predicate LosesRow(s: Step)
  {
    s.store.StepFailed? && s.plan.Ok?
  }

  /** The sleeps of a trace, in seconds. */
  function Sleeps(events: seq<Event>): seq<nat>
  {
    if events == [] then []
    else (if events[0].Sleep? then [events[0].seconds] else []) + Sleeps(events[1..])
  }

  /** The prices the database was asked to insert. */
  function StoreCalls(events: seq<Event>): seq<F64>
  {
    if events == [] then []
    else (if events[0].StoreCall? then [events[0].price] else []) + StoreCalls(events[1..])
  }

  /** The prices reported as logged. */
  function LoggedPrices(events: seq<Event>): seq<F64>
  {
    if events == [] then []
    else (if events[0].Report? && events[0].outcome.Logged? then [events[0].outcome.price] else [])
         + LoggedPrices(events[1..])
  }

  /** `a` is `b` with some of its elements left out, the rest in order. */
  predicate IsSubsequence(a: seq<F64>, b: seq<F64>)
    decreases |b|
  {
    if b == [] then a == []
    else (a != [] && a[|a| - 1] == b[|b| - 1] && IsSubsequence(a[..|a| - 1], b[..|b| - 1]))
         || IsSubsequence(a, b[..|b| - 1])
  }

  /** A subsequence stays one when an element is added to the longer sequence,
      whether or not it is added to the shorter one too; and it is never longer. */
  lemma {:induction false} SubsequenceExtend(a: seq<F64>, b: seq<F64>, x: F64)
    requires IsSubsequence(a, b)
    ensures IsSubsequence(a, b + [x])
    ensures IsSubsequence(a + [x], b + [x])
  {
    assert (b + [x])[..|b|] == b;
    assert (a + [x])[..|a|] == a;
  }

  lemma {:induction false} SubsequenceLength(a: seq<F64>, b: seq<F64>)
    requires IsSubsequence(a, b)
    ensures |a| <= |b|
    decreases |b|
  {
    if b != [] {
      if a != [] && a[|a| - 1] == b[|b| - 1] && IsSubsequence(a[..|a| - 1], b[..|b| - 1]) {
        SubsequenceLength(a[..|a| - 1], b[..|b| - 1]);
      } else {
        SubsequenceLength(a, b[..|b| - 1]);
      }
    }
  }

  lemma {:induction false} SleepsConcat(a: seq<Event>, b: seq<Event>)
    ensures Sleeps(a + b) == Sleeps(a) + Sleeps(b)
  {
    if a == [] {
      assert a + b == b;
    } else {
      var head := if a[0].Sleep? then [a[0].seconds] else [];
      assert (a + b)[0] == a[0] && (a + b)[1..] == a[1..] + b;
      assert Sleeps(a + b) == head + Sleeps(a[1..] + b);
      SleepsConcat(a[1..], b);
      assert Sleeps(a) == head + Sleeps(a[1..]);
    }
  }

  lemma {:induction false} StoreCallsConcat(a: seq<Event>, b: seq<Event>)
    ensures StoreCalls(a + b) == StoreCalls(a) + StoreCalls(b)
  {
    if a == [] {
      assert a + b == b;
    } else {
      var head := if a[0].StoreCall? then [a[0].price] else [];
      assert (a + b)[0] == a[0] && (a + b)[1..] == a[1..] + b;
      assert StoreCalls(a + b) == head + StoreCalls(a[1..] + b);
      StoreCallsConcat(a[1..], b);
      assert StoreCalls(a) == head + StoreCalls(a[1..]);
    }
  }

  lemma {:induction false} LoggedPricesConcat(a: seq<Event>, b: seq<Event>)
    ensures LoggedPrices(a + b) == LoggedPrices(a) + LoggedPrices(b)
  {
    if a == [] {
      assert a + b == b;
    } else {
      assert (a + b)[1..] == a[1..] + b;
      LoggedPricesConcat(a[1..], b);
    }
  }

  lemma ProjectionsConcat(a: seq<Event>, b: seq<Event>)
    ensures Sleeps(a + b) == Sleeps(a) + Sleeps(b)
    ensures StoreCalls(a + b) == StoreCalls(a) + StoreCalls(b)
    ensures LoggedPrices(a + b) == LoggedPrices(a) + LoggedPrices(b)
  {
    SleepsConcat(a, b);
    StoreCallsConcat(a, b);
    LoggedPricesConcat(a, b);
  }

  /** One iteration: it asks for "btc" first and sleeps 300 seconds last, calls the
      store at most once and exactly when the decision tree gives a price, and
      reports as logged only that price, whenever `log_price_btc` returned `Ok`. */
  lemma StepEventsShape(s: Step)
    ensures var ev := StepEvents(s);
            && ev[0] == Query(Btc)
            && ev[|ev| - 1] == Sleep(PollSeconds)
            && Sleeps(ev) == [PollSeconds]
            && StoreCalls(ev) == (if s.plan.Ok? then [s.plan.value] else [])
            && LoggedPrices(ev) == (if s.plan.Ok? && !s.store.Refused? then [s.plan.value] else [])
  {
    var o := CycleOutcome(s.plan, !s.store.Refused?);
    var mid := if s.plan.Ok? then [StoreCall(s.plan.value)] else [];
    var tail := [Report(o), Sleep(PollSeconds)];
    ProjectionsConcat([Query(Btc)], mid);
    ProjectionsConcat([Query(Btc)] + mid, tail);
    assert Sleeps(tail) == [PollSeconds] by {
      assert tail[1..] == [Sleep(PollSeconds)];
      assert tail[1..][1..] == [];
    }
    assert StoreCalls(tail) == [] by {
      assert tail[1..] == [Sleep(PollSeconds)];
      assert tail[1..][1..] == [];
    }
    assert LoggedPrices(tail) == (if o.Logged? then [o.price] else []) by {
      assert tail[1..] == [Sleep(PollSeconds)];
      assert tail[1..][1..] == [];
    }
    if s.plan.Ok? {
      assert mid[1..] == [];
    }
  }

  /** Every iteration ends in a 300-second sleep whatever its outcome, so a run has
      exactly as many sleeps as iterations. */
  lemma {:induction false} TraceSleeps(steps: seq<Step>)
    ensures |Sleeps(Trace(steps))| == |steps|
    ensures forall j :: 0 <= j < |Sleeps(Trace(steps))| ==> Sleeps(Trace(steps))[j] == PollSeconds
  {
    if steps != [] {
      var init := steps[..|steps| - 1];
      var last := steps[|steps| - 1];
      TraceSleeps(init);
      StepEventsShape(last);
      assert Trace(steps) == Trace(init) + StepEvents(last);
      SleepsConcat(Trace(init), StepEvents(last));
      assert Sleeps(Trace(steps)) == Sleeps(Trace(init)) + [PollSeconds];
    }
  }

  /** Running one more iteration `s` after `steps` extends the events, the store
      calls and the rows, each kept after a base of what came before, by that
      iteration's share. */
  lemma TraceStep(events: seq<Event>, calls: seq<F64>, rows: seq<F64>, steps: seq<Step>, s: Step)
    ensures events + Trace(steps) + StepEvents(s) == events + Trace(steps + [s])
    ensures calls + StoreCalls(Trace(steps)) + StoreCalls(StepEvents(s)) == calls + StoreCalls(Trace(steps + [s]))
    ensures rows + Appended(steps) + Added(s) == rows + Appended(steps + [s])
  {
    assert (steps + [s])[..|steps|] == steps;
    StoreCallsConcat(Trace(steps), StepEvents(s));
  }

  /** The store is called at most once per iteration, and every price reported as
      logged is one the store was asked to insert, in the same order. */
  lemma {:induction false} TraceStoreCalls(steps: seq<Step>)
    ensures |StoreCalls(Trace(steps))| <= |steps|
    ensures IsSubsequence(LoggedPrices(Trace(steps)), StoreCalls(Trace(steps)))
  {
    if steps != [] {
      var init := steps[..|steps| - 1];
      var last := steps[|steps| - 1];
      TraceStoreCalls(init);
      StepEventsShape(last);
      var t0 := Trace(init);
      var ev := StepEvents(last);
      StoreCallsConcat(t0, ev);
      LoggedPricesConcat(t0, ev);
      if last.plan.Ok? {
        if last.store.Refused? {
          SubsequenceExtend(LoggedPrices(t0), StoreCalls(t0), last.plan.value);
          assert LoggedPrices(t0) + LoggedPrices(ev) == LoggedPrices(t0);
        } else {
          SubsequenceExtend(LoggedPrices(t0), StoreCalls(t0), last.plan.value);
        }
      } else {
        assert LoggedPrices(t0) + LoggedPrices(ev) == LoggedPrices(t0);
        assert StoreCalls(t0) + StoreCalls(ev) == StoreCalls(t0);
      }
    }
  }

  /** The rows the database gains are prices reported as logged, in order, and
      never more of them. They can be fewer: a price whose insert step fails is
      still reported as logged. */
  lemma {:induction false} TraceAppendedLogged(steps: seq<Step>)
    ensures IsSubsequence(Appended(steps), LoggedPrices(Trace(steps)))
    ensures |Appended(steps)| <= |LoggedPrices(Trace(steps))|
  {
    if steps != [] {
      var init := steps[..|steps| - 1];
      var last := steps[|steps| - 1];
      TraceAppendedLogged(init);
      StepEventsShape(last);
      var t0 := Trace(init);
      var ev := StepEvents(last);
      LoggedPricesConcat(t0, ev);
      var a0 := Appended(init);
      assert Appended(steps) == a0 + Added(last);
      assert LoggedPrices(Trace(steps)) == LoggedPrices(t0) + LoggedPrices(ev);
      if last.plan.Ok? && last.store.Inserted? {
        SubsequenceExtend(a0, LoggedPrices(t0), last.plan.value);
      } else if last.plan.Ok? && last.store.StepFailed? {
        SubsequenceExtend(a0, LoggedPrices(t0), last.plan.value);
        assert a0 + Added(last) == a0;
      } else {
        assert LoggedPrices(t0) + LoggedPrices(ev) == LoggedPrices(t0);
        assert a0 + Added(last) == a0;
      }
    }
    SubsequenceLength(Appended(steps), LoggedPrices(Trace(steps)));
  }

  /** When no iteration loses its row, the database gains exactly the prices
      reported as logged. */
  lemma {:induction false} TraceAppendedNoLoss(steps: seq<Step>)
    requires forall i :: 0 <= i < |steps| ==> !LosesRow(steps[i])
    ensures Appended(steps) == LoggedPrices(Trace(steps))
  {
    if steps != [] {
      var init := steps[..|steps| - 1];
      var last := steps[|steps| - 1];
      assert forall i :: 0 <= i < |init| ==> init[i] == steps[i];
      TraceAppendedNoLoss(init);
      StepEventsShape(last);
      LoggedPricesConcat(Trace(init), StepEvents(last));
      assert Added(last) == LoggedPrices(StepEvents(last));
    }
  }

  /** When some iteration loses its row, the database gains fewer rows than prices
      reported as logged. */
  lemma {:induction false} TraceAppendedLoss(steps: seq<Step>, k: nat)
    requires k < |steps| && LosesRow(steps[k])
    ensures |Appended(steps)| < |LoggedPrices(Trace(steps))|
  {
    var init := steps[..|steps| - 1];
    var last := steps[|steps| - 1];
    StepEventsShape(last);
    LoggedPricesConcat(Trace(init), StepEvents(last));
    if k == |steps| - 1 {
      TraceAppendedLogged(init);
      assert |Added(last)| == 0 && |LoggedPrices(StepEvents(last))| == 1;
    } else {
      assert init[k] == steps[k];
      TraceAppendedLoss(init, k);
      assert |Added(last)| <= |LoggedPrices(StepEvents(last))|;
    }
  }

  /** The database gains exactly the prices reported as logged if and only if no
      iteration loses its row to a failed step. */
  lemma TraceAppendedExact(steps: seq<Step>)
    ensures Appended(steps) == LoggedPrices(Trace(steps)) <==> forall i :: 0 <= i < |steps| ==> !LosesRow(steps[i])
  {
    if forall i :: 0 <= i < |steps| ==> !LosesRow(steps[i]) {
      TraceAppendedNoLoss(steps);
    } else {
      var k :| 0 <= k < |steps| && LosesRow(steps[k]);
      TraceAppendedLoss(steps, k);
    }
  }

  /** The first thing a run does is ask for the "btc" quote, before any sleep. */
  lemma {:induction false} TraceStartsWithQuery(steps: seq<Step>)
    requires steps != []
    ensures Trace(steps)[0] == Query(Btc)
  {
    var init := steps[..|steps| - 1];
    if init == [] {
      StepEventsShape(steps[0]);
      assert Trace(steps) == Trace(init) + StepEvents(steps[0]);
    } else {
      TraceStartsWithQuery(init);
    }
  }

  /** An iteration whose insert step fails reports its price as logged, yet the
      database gains no row. */
  lemma StepFailedLoggedNotStored(s: Step)
    requires LosesRow(s)
    ensures CycleOutcome(s.plan, !s.store.Refused?) == Logged(s.plan.value)
    ensures LoggedPrices(StepEvents(s)) == [s.plan.value]
    ensures Added(s) == []
  {
    StepEventsShape(s);
  }

  // ---------------------------------------------------------------------------
  // The outcome with the insert's step checked

  /** The outcome an iteration would report if `log_price_btc` passed on a failed
      step as an error: Logged exactly when the row was inserted. */
  function CheckedOutcome(s: Step): (o: Outcome)
    ensures o.Logged? <==> s.plan.Ok? && s.store.Inserted?
    ensures o.StoreError? <==> s.plan.Ok? && !s.store.Inserted?
    ensures (o.Logged? || o.StoreError?) ==> o.price == s.plan.value
    ensures s.plan.Err? ==> o == Stopped(s.plan.error)
  {
    CycleOutcome(s.plan, s.store.Inserted?)
  }

  /** The prices reported as logged over `steps` under `CheckedOutcome`. */
  function CheckedLogged(steps: seq<Step>): seq<F64>
  {
    if steps == [] then []
    else
      var o := CheckedOutcome(steps[|steps| - 1]);
      CheckedLogged(steps[..|steps| - 1]) + (if o.Logged? then [o.price] else [])
  }

  /** With the step checked, the database gains exactly the prices reported as
      logged, over every run. */
  lemma {:induction false} CheckedLoggedIsAppended(steps: seq<Step>)
    ensures CheckedLogged(steps) == Appended(steps)
  {
    if steps != [] {
      CheckedLoggedIsAppended(steps[..|steps| - 1]);
    }
  }

  // ---------------------------------------------------------------------------
  // The store and the loop

  /** The `price_btc` table, as the sequence of prices it holds; `calls` records
      every price `log_price_btc` was given. */
  class Database {
    var prices: seq<F64>
    ghost var calls: seq<F64>

    /** `Database::init` on a table that already holds `existing`: `CREATE TABLE IF
        NOT EXISTS` keeps the rows of earlier runs. */
    constructor (existing: seq<F64>)
      ensures prices == existing && calls == []
    {
      prices := existing;
      calls := [];
    }

    /** `log_price_btc`: the result is an error only when the statement cannot be
        prepared or bound; a step that fails still returns `Ok`, without a row. */
    method LogPriceBtc(price: F64, reply: StoreReply) returns (ok: bool)
      modifies this
      ensures ok == !reply.Refused?
      ensures prices == if reply.Inserted? then old(prices) + [price] else old(prices)
      ensures calls == old(calls) + [price]
    {
      calls := calls + [price];
      ok := !reply.Refused?;
      if reply.Inserted? {
        prices := prices + [price];
      }
    }
  }

  class Daemon {
    const client: CoinSpot.Client
    const database: Database
    /** What the daemon has done so far. */
    var events: seq<Event>

    constructor (client: CoinSpot.Client, database: Database)
      ensures this.client == client && this.database == database && events == []
    {
      this.client := client;
      this.database := database;
      events := [];
    }

    /** One pass through the body of the loop in `log_btc_price_periodically`. */
    method Iterate(env: CycleEnv, parseJson: string -> Option<Json.Value>, parse: string -> Option<F64>)
      returns (outcome: Outcome)
      modifies this, database
      ensures var s := StepOf(client, env, parseJson, parse);
              && outcome == CycleOutcome(s.plan, !env.store.Refused?)
              && events == old(events) + StepEvents(s)
              && database.calls == old(database.calls) + StoreCalls(StepEvents(s))
              && database.prices == old(database.prices) + Added(s)
    {
      ghost var s := StepOf(client, env, parseJson, parse);
      StepEventsShape(s);
      events := events + [Query(Btc)];
      var fetch := Fetch(client, env, parseJson);
      var plan := PriceToStore(fetch, parse);
      match plan {
        case Ok(price) =>
          events := events + [StoreCall(price)];
          var ok := database.LogPriceBtc(price, env.store);
          outcome := if ok then Logged(price) else StoreError(price);
        case Err(reason) =>
          outcome := Stopped(reason);
      }
      events := events + [Report(outcome)];
      events := events + [Sleep(PollSeconds)];
    }

    /** `log_btc_price_periodically`, run for the iterations `envs`: no outcome
        leaves the loop, so every iteration runs, in order, and the store sees
        exactly the calls the log records. */
    method LogBtcPricePeriodically(envs: seq<CycleEnv>, parseJson: string -> Option<Json.Value>,
                                   parse: string -> Option<F64>)
      modifies this, database
      ensures var steps := Steps(client, envs, parseJson, parse);
              && events == old(events) + Trace(steps)
              && database.calls == old(database.calls) + StoreCalls(Trace(steps))
              && database.prices == old(database.prices) + Appended(steps)
    {
      var i := 0;
      while i < |envs|
        invariant 0 <= i <= |envs|
        invariant events == old(events) + Trace(Steps(client, envs[..i], parseJson, parse))
        invariant database.calls == old(database.calls) + StoreCalls(Trace(Steps(client, envs[..i], parseJson, parse)))
        invariant database.prices == old(database.prices) + Appended(Steps(client, envs[..i], parseJson, parse))
      {
        ghost var done := Steps(client, envs[..i], parseJson, parse);
        var _ := Iterate(envs[i], parseJson, parse);
        assert envs[..i + 1][..i] == envs[..i];
        TraceStep(old(events), old(database.calls), old(database.prices), done, StepOf(client, envs[i], parseJson, parse));
        i := i + 1;
      }
      assert envs[..i] == envs;
    }
  }
}
