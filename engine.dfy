/** The price-simulation engine (public/worker.js): parameter resolution, the
    GBM step with its price floor, running extrema, progress and ETA, and the
    start/stop lifecycle that posts events to the host. */
module Engine {
  import opened JsValues

  /** Steps of one simulation: 100 trading days. */
  const TotalSteps: nat := 100
  /** One step is one trading day out of 252 in a year. */
  const Dt: real := 1.0 / 252.0
  /** The price never stays below this after a step. */
  const PriceFloor: real := 1.0
  /** The symbol used when START carries none. */
  const DefaultSymbol: string := "AAPL"

  /** Fallback initial prices by symbol; any other symbol gets 100. */
  const InitialPrices: map<string, real> :=
    map["AAPL" := 150.0, "GOOGL" := 2800.0, "MSFT" := 300.0, "AMZN" := 3500.0, "TSLA" := 700.0]

  /** Fallback volatilities (in percent) by symbol; any other symbol gets 5. */
  const Volatilities: map<string, real> :=
    map["AAPL" := 2.0, "GOOGL" := 15.0, "MSFT" := 3.0, "AMZN" := 20.0, "TSLA" := 10.0]

  /** A resolved parameter set; expectedReturn and volatility are percentages. */
  datatype Params = Params(initialPrice: real, expectedReturn: real, volatility: real)

  /** The START_SIMULATION payload: the symbol (None for undefined or null) and
      the three raw values after `parseFloat` (None for NaN). */
  datatype StartPayload = StartPayload(
    stockSymbol: Option<string>,
    initialPrice: Option<real>,
    expectedReturn: Option<real>,
    volatility: Option<real>)

  /** Inbound commands; any other `type` is Unrecognized and ignored. */
  datatype Command = StartSimulation(payload: StartPayload) | StopSimulation | Unrecognized(kind: string)

  /** Outbound events, in the shape the engine posts them. */
  datatype Event =
    | Status(message: string)
    | StockUpdate(stockSymbol: string, time: string, price: real)
    | HighLowUpdate(stockSymbol: string, highPrice: real, lowPrice: real, currentPrice: real)
    | ProgressUpdate(progress: real, estimatedTimeRemaining: string)
    | SimulationEnded(stockSymbol: string)

  // ---------------------------------------------------------------------------
  // Parameter resolution

  /** `symbol || 'AAPL'`: a missing or empty symbol falls back to AAPL. */
  function ResolveSymbol(symbol: Option<string>): (r: string)
    ensures r != ""
    ensures symbol.Some? && symbol.value != "" ==> r == symbol.value
    ensures symbol.None? || symbol.value == "" ==> r == DefaultSymbol
  {
    if symbol.Some? && symbol.value != "" then symbol.value else DefaultSymbol
  }

  /** `getInitialPrice`: the table entry, or 100 for a symbol not in the table. */
  function InitialPriceFor(symbol: string): (r: real)
    ensures r > 0.0
    ensures symbol in InitialPrices ==> r == InitialPrices[symbol]
    ensures r == 100.0 <==> symbol !in InitialPrices
  {
    if symbol in InitialPrices then InitialPrices[symbol] else 100.0
  }

  /** `getStockVolatility`: the table entry, or 5 for a symbol not in the table. */
  function VolatilityFor(symbol: string): (r: real)
    ensures r > 0.0
    ensures symbol in Volatilities ==> r == Volatilities[symbol]
    ensures r == 5.0 <==> symbol !in Volatilities
  {
    if symbol in Volatilities then Volatilities[symbol] else 5.0
  }

  /** Resolution always succeeds: a parseable value is used unchanged, an
      unparseable one falls back to the symbol's default (0 for the return). */
  function ResolveParams(symbol: string, initialPrice: Option<real>, expectedReturn: Option<real>,
                         volatility: Option<real>): (p: Params)
    ensures initialPrice.Some? ==> p.initialPrice == initialPrice.value
    ensures initialPrice.None? ==> p.initialPrice == InitialPriceFor(symbol)
    ensures expectedReturn.Some? ==> p.expectedReturn == expectedReturn.value
    ensures expectedReturn.None? ==> p.expectedReturn == 0.0
    ensures volatility.Some? ==> p.volatility == volatility.value
    ensures volatility.None? ==> p.volatility == VolatilityFor(symbol)
  {
    Params(initialPrice.GetOr(InitialPriceFor(symbol)), expectedReturn.GetOr(0.0),
           volatility.GetOr(VolatilityFor(symbol)))
  }

  /** The fallbacks for a payload with nothing parseable, symbol by symbol. */
  lemma DefaultsBySymbol()
    ensures ResolveParams("AAPL", None, None, None) == Params(150.0, 0.0, 2.0)
    ensures ResolveParams("GOOGL", None, None, None) == Params(2800.0, 0.0, 15.0)
    ensures ResolveParams("MSFT", None, None, None) == Params(300.0, 0.0, 3.0)
    ensures ResolveParams("AMZN", None, None, None) == Params(3500.0, 0.0, 20.0)
    ensures ResolveParams("TSLA", None, None, None) == Params(700.0, 0.0, 10.0)
    ensures ResolveParams("ZZZZ", None, None, None) == Params(100.0, 0.0, 5.0)
    ensures ResolveSymbol(None) == "AAPL" && ResolveSymbol(Some("")) == "AAPL"
  {
  }

  // ---------------------------------------------------------------------------
  // The stochastic step

  /** `dPrice = price * (mu*dt + sigma*sqrt(dt)*Z)`, with mu and sigma converted
      from percent; `shock` stands for the product `sqrt(dt)*Z`. */
  function Increment(price: real, p: Params, shock: real): (d: real)
    ensures d == price * p.expectedReturn / 25200.0 + price * p.volatility * shock / 100.0
    ensures p.volatility == 0.0 || shock == 0.0 ==> d == price * p.expectedReturn / 25200.0
  {
    price * (p.expectedReturn / 100.0 * Dt + p.volatility / 100.0 * shock)
  }

  /** One GBM step followed by the floor: whatever the shock and whatever the
      old price, the new price is at least 1, and the floor changes the
      stepped price only when that is below 1. */
  function Step(price: real, p: Params, shock: real): (r: real)
    ensures r >= PriceFloor
    ensures price + Increment(price, p, shock) >= PriceFloor ==> r == price + Increment(price, p, shock)
    ensures price + Increment(price, p, shock) < PriceFloor ==> r == PriceFloor
  {
    var next := price + Increment(price, p, shock);
    if next < PriceFloor then PriceFloor else next
  }

  // ---------------------------------------------------------------------------
  // Running extrema

  function Max(a: real, b: real): real { if b > a then b else a }
  function Min(a: real, b: real): real { if b < a then b else a }

  /** The largest price of a non-empty sequence. */
  function SeqMax(s: seq<real>): (m: real)
    requires |s| > 0
    ensures forall i :: 0 <= i < |s| ==> s[i] <= m
  {
    if |s| == 1 then s[0] else Max(s[0], SeqMax(s[1..]))
  }

  /** The smallest price of a non-empty sequence. */
  function SeqMin(s: seq<real>): (m: real)
    requires |s| > 0
    ensures forall i :: 0 <= i < |s| ==> m <= s[i]
  {
    if |s| == 1 then s[0] else Min(s[0], SeqMin(s[1..]))
  }

  /** The maximum is one of the prices. */
  lemma {:induction false} SeqMaxAttained(s: seq<real>) returns (k: nat)
    requires |s| > 0
    ensures k < |s| && s[k] == SeqMax(s)
  {
    if |s| == 1 {
      k := 0;
    } else {
      var j := SeqMaxAttained(s[1..]);
      k := if SeqMax(s[1..]) > s[0] then j + 1 else 0;
    }
  }

  /** The minimum is one of the prices. */
  lemma {:induction false} SeqMinAttained(s: seq<real>) returns (k: nat)
    requires |s| > 0
    ensures k < |s| && s[k] == SeqMin(s)
  {
    if |s| == 1 {
      k := 0;
    } else {
      var j := SeqMinAttained(s[1..]);
      k := if SeqMin(s[1..]) < s[0] then j + 1 else 0;
    }
  }

  /** Updating the running maximum with one more price gives the maximum of the longer sequence. */
  lemma {:induction false} SeqMaxSnoc(s: seq<real>, x: real)
    requires |s| > 0
    ensures SeqMax(s + [x]) == Max(SeqMax(s), x)
  {
    if |s| > 1 {
      assert (s + [x])[1..] == s[1..] + [x];
      SeqMaxSnoc(s[1..], x);
    }
  }

  /** Updating the running minimum with one more price gives the minimum of the longer sequence. */
  lemma {:induction false} SeqMinSnoc(s: seq<real>, x: real)
    requires |s| > 0
    ensures SeqMin(s + [x]) == Min(SeqMin(s), x)
  {
    if |s| > 1 {
      assert (s + [x])[1..] == s[1..] + [x];
      SeqMinSnoc(s[1..], x);
    }
  }

  // ---------------------------------------------------------------------------
  // Progress and ETA

  /** `(progress / totalSteps) * 100`, before `toFixed(2)`. */
  function ProgressPercent(progress: nat): (r: real)
    ensures r == progress as real
    ensures progress <= TotalSteps ==> 0.0 <= r <= 100.0
    ensures r == 100.0 <==> progress == TotalSteps
    ensures progress > 0 ==> r > 0.0
  {
    (progress as real / TotalSteps as real) * 100.0
  }

  /** The linear ETA `(totalSteps / progress) * elapsed - elapsed`: the average
      time per step so far times the steps still to come. */
  function Remaining(progress: nat, elapsed: real): (r: real)
    requires progress >= 1
    ensures r == elapsed * (TotalSteps - progress) as real / progress as real
    ensures elapsed >= 0.0 && progress <= TotalSteps ==> r >= 0.0
    ensures progress == TotalSteps ==> r == 0.0
  {
    var estimatedTotal := (TotalSteps as real / progress as real) * elapsed;
    assert estimatedTotal == elapsed * TotalSteps as real / progress as real;
    estimatedTotal - elapsed
  }

  /** Whole minutes and the seconds left over. */
  datatype MinSec = MinSec(minutes: int, seconds: int)

  /** `formatTime`'s arithmetic: floor to whole seconds, floor-divide by 60,
      and JavaScript's `%` for the seconds. For a non-negative duration the
      seconds lie in [0, 59] and minutes and seconds add back up to the whole seconds. */
  function SplitTime(ms: real): (t: MinSec)
    ensures ms >= 0.0 ==> 0 <= t.seconds < 60
    ensures ms >= 0.0 ==> t.minutes >= 0 && t.minutes * 60 + t.seconds == (ms / 1000.0).Floor
  {
    var totalSeconds := (ms / 1000.0).Floor;
    MinSec(totalSeconds / 60, JsRem(totalSeconds, 60))
  }

  /** For a negative duration the floored minutes and the truncated seconds no
      longer add up: -1500 ms prints as "-1m -2s". */
  lemma NegativeDurationSplit()
    ensures SplitTime(-1500.0) == MinSec(-1, -2)
  {
    assert (-1500.0 / 1000.0).Floor == -2;
  }

  /** `formatTime`: "Xm Ys". */
  function FormatTime(ms: real): (s: string)
    ensures ms >= 0.0 ==> s == Digits(SplitTime(ms).minutes) + "m " + Digits(SplitTime(ms).seconds) + "s"
  {
    var t := SplitTime(ms);
    Decimal(t.minutes) + "m " + Decimal(t.seconds) + "s"
  }

  /** For a non-negative duration the text reads back: it is a number of
      minutes, "m ", one or two digits of seconds below 60, and "s", and the
      two numbers give the whole seconds of the duration. */
  lemma FormatTimeReadBack(ms: real) returns (minutes: string, seconds: string)
    requires ms >= 0.0
    ensures FormatTime(ms) == minutes + "m " + seconds + "s"
    ensures DigitsValue(minutes) * 60 + DigitsValue(seconds) == (ms / 1000.0).Floor
    ensures 0 <= DigitsValue(seconds) < 60 && 1 <= |seconds| <= 2
    ensures |minutes| >= 1 && (|minutes| > 1 ==> minutes[0] != '0')
    ensures forall i :: 0 <= i < |minutes| ==> '0' <= minutes[i] <= '9'
    ensures forall i :: 0 <= i < |seconds| ==> '0' <= seconds[i] <= '9'
  {
    var t := SplitTime(ms);
    minutes, seconds := Digits(t.minutes), Digits(t.seconds);
    DigitsRoundTrip(t.minutes);
    DigitsRoundTrip(t.seconds);
    if t.seconds >= 10 {
      assert seconds == Digits(t.seconds / 10) + [DigitChar(t.seconds % 10)];
    }
  }

  // ---------------------------------------------------------------------------
  // Events

  /** The STATUS text posted when a run starts; the symbol can be read back from it. */
  function RunningMessage(symbol: string): (m: string)
    ensures |m| == |symbol| + 14 && m[..11] == "Simulating " && m[|m| - 3..] == "..."
    ensures m[11..|m| - 3] == symbol
  {
    "Simulating " + symbol + "..."
  }

  /** The STATUS text posted when a run stops; the symbol can be read back from it. */
  function StoppedMessage(symbol: string): (m: string)
    ensures |m| == |symbol| + 23 && m[..14] == "Simulation of " && m[|m| - 9..] == " stopped."
    ensures m[14..|m| - 9] == symbol
  {
    "Simulation of " + symbol + " stopped."
  }

  /** What stopSimulation posts: STATUS, then SIMULATION_ENDED. */
  function StopEvents(symbol: string): (r: seq<Event>)
    ensures |r| == 2 && r[0] == Status(StoppedMessage(symbol)) && r[1] == SimulationEnded(symbol)
  {
    [Status(StoppedMessage(symbol)), SimulationEnded(symbol)]
  }

  /** What one executed step posts, in order: STOCK_UPDATE, HIGH_LOW_UPDATE, PROGRESS_UPDATE. */
  function TickEvents(symbol: string, time: string, price: real, high: real, low: real,
                      progress: nat, elapsed: int): (r: seq<Event>)
    requires progress >= 1
    ensures |r| == 3
    ensures r[0] == StockUpdate(symbol, time, price)
    ensures r[1] == HighLowUpdate(symbol, high, low, price)
    ensures r[2].ProgressUpdate? && r[2].progress == ProgressPercent(progress)
    ensures r[2].estimatedTimeRemaining == FormatTime(Remaining(progress, elapsed as real))
  {
    [StockUpdate(symbol, time, price),
     HighLowUpdate(symbol, high, low, price),
     ProgressUpdate(ProgressPercent(progress), FormatTime(Remaining(progress, elapsed as real)))]
  }

  /** The number of STOCK_UPDATE events in a stream. */
  function UpdateCount(events: seq<Event>): (n: nat)
    ensures n <= |events|
  {
    if events == [] then 0
    else (if events[0].StockUpdate? then 1 else 0) + UpdateCount(events[1..])
  }

  /** Counting STOCK_UPDATEs distributes over concatenation. */
  lemma {:induction false} UpdateCountConcat(a: seq<Event>, b: seq<Event>)
    ensures UpdateCount(a + b) == UpdateCount(a) + UpdateCount(b)
  {
    if a == [] {
      assert a + b == b;
    } else {
      assert (a + b)[1..] == a[1..] + b;
      UpdateCountConcat(a[1..], b);
    }
  }

  /** One executed step posts exactly one STOCK_UPDATE. */
  lemma TickEventCount(symbol: string, time: string, price: real, high: real, low: real,
                       progress: nat, elapsed: int)
    requires progress >= 1
    ensures UpdateCount(TickEvents(symbol, time, price, high, low, progress, elapsed)) == 1
  {
    var t := TickEvents(symbol, time, price, high, low, progress, elapsed);
    assert UpdateCount(t[2..]) == 0 by {
      assert t[2..][1..] == [];
    }
    assert t[1..][1..] == t[2..];
  }

  /** Stopping posts no STOCK_UPDATE. */
  lemma StopEventCount(symbol: string)
    ensures UpdateCount(StopEvents(symbol)) == 0
  {
    var s := StopEvents(symbol);
    assert s[1..][1..] == [];
  }

  /** Posting more events adds their STOCK_UPDATEs to the count of the current run. */
  lemma CountAfterPosting(events: seq<Event>, runStart: nat, posted: seq<Event>)
    requires runStart <= |events|
    ensures UpdateCount((events + posted)[runStart..]) == UpdateCount(events[runStart..]) + UpdateCount(posted)
  {
    assert (events + posted)[runStart..] == events[runStart..] + posted;
    UpdateCountConcat(events[runStart..], posted);
  }

  /** The prices of a run: at most 100 steps; the initial price followed by
      one stepped price per step, each at least 1; the current price is the
      last of them; high and low are their maximum and minimum. */
  ghost predicate PriceHistory(params: Params, price: real, high: real, low: real, progress: nat,
                               prices: seq<real>)
  {
    && progress <= TotalSteps
    && |prices| == progress + 1
    && prices[0] == params.initialPrice
    && price == prices[progress]
    && high == SeqMax(prices)
    && low == SeqMin(prices)
    && (forall i :: 1 <= i < |prices| ==> prices[i] >= PriceFloor)
  }

  /** What holds of a run at every point: its price history, and one
      STOCK_UPDATE posted per step since the run's first event. */
  ghost predicate RunInvariant(params: Params, price: real, high: real, low: real, progress: nat,
                               prices: seq<real>, events: seq<Event>, runStart: nat)
  {
    && PriceHistory(params, price, high, low, progress, prices)
    && runStart <= |events|
    && UpdateCount(events[runStart..]) == progress
  }

  /** A step that yields a price of at least 1 keeps the price history: the
      counter goes up by one, the new extrema are the old ones updated with
      the new price, and the new price joins the run's prices. */
  lemma StepKeepsHistory(params: Params, price: real, high: real, low: real, progress: nat,
                         prices: seq<real>, price': real, high': real, low': real, progress': nat,
                         prices': seq<real>)
    requires PriceHistory(params, price, high, low, progress, prices)
    requires progress < TotalSteps && price' >= PriceFloor && progress' == progress + 1
    requires high' == Max(high, price') && low' == Min(low, price') && prices' == prices + [price']
    ensures PriceHistory(params, price', high', low', progress', prices')
  {
    SeqMaxSnoc(prices, price');
    SeqMinSnoc(prices, price');
  }

  /** Posting the one STOCK_UPDATE that a step still owes restores the run invariant. */
  lemma StepPostingRestoresInvariant(params: Params, price: real, high: real, low: real, progress: nat,
                                     prices: seq<real>, events: seq<Event>, runStart: nat,
                                     posted: seq<Event>, events': seq<Event>)
    requires PriceHistory(params, price, high, low, progress, prices)
    requires runStart <= |events| && UpdateCount(events[runStart..]) + 1 == progress
    requires UpdateCount(posted) == 1 && events' == events + posted
    ensures RunInvariant(params, price, high, low, progress, prices, events', runStart)
  {
    CountAfterPosting(events, runStart, posted);
  }

  /** A fresh run starts with the invariant: one price, the initial one, which
      is both extremes, and no STOCK_UPDATE since the run's first event. */
  lemma StartEstablishesInvariant(params: Params, events: seq<Event>, posted: seq<Event>,
                                  price: real, high: real, low: real, progress: nat,
                                  prices: seq<real>, events': seq<Event>, runStart: nat)
    requires price == params.initialPrice && high == price && low == price && progress == 0
    requires prices == [price] && UpdateCount(posted) == 0
    requires events' == events + posted && runStart == |events|
    ensures RunInvariant(params, price, high, low, progress, prices, events', runStart)
  {
    assert events'[runStart..] == posted;
  }

  /** Posting events that hold no STOCK_UPDATE keeps the run invariant and the run's count. */
  lemma QuietPostingKeepsInvariant(params: Params, price: real, high: real, low: real, progress: nat,
                                   prices: seq<real>, events: seq<Event>, runStart: nat,
                                   posted: seq<Event>, events': seq<Event>)
    requires RunInvariant(params, price, high, low, progress, prices, events, runStart)
    requires UpdateCount(posted) == 0 && events' == events + posted
    ensures RunInvariant(params, price, high, low, progress, prices, events', runStart)
    ensures UpdateCount(events'[runStart..]) == UpdateCount(events[runStart..])
  {
    CountAfterPosting(events, runStart, posted);
  }

  /** What the invariant promises at every point of a run: at most 100
      STOCK_UPDATEs, the price between the extremes, the extremes prices that
      actually occurred and bracketing the initial price, and a price of at
      least 1 once a step has run. */
  lemma RunBounds(params: Params, price: real, high: real, low: real, progress: nat,
                  prices: seq<real>, events: seq<Event>, runStart: nat)
    requires RunInvariant(params, price, high, low, progress, prices, events, runStart)
    ensures UpdateCount(events[runStart..]) <= TotalSteps
    ensures low <= price <= high && low <= params.initialPrice <= high
    ensures progress >= 1 ==> price >= PriceFloor
    ensures exists i :: 0 <= i < |prices| && prices[i] == high
    ensures exists j :: 0 <= j < |prices| && prices[j] == low
  {
    var i := SeqMaxAttained(prices);
    var j := SeqMinAttained(prices);
  }

  // ---------------------------------------------------------------------------
  // The lifecycle

  /** One engine instance. `stopped` is the stop flag together with the closed
      hosting context (stopSimulation ends with `self.close()`), so nothing is
      processed after it; `scheduled` says the tick interval is active. */
  class Simulation {
    var stockSymbol: string
    var params: Params
    var price: real
    var highPrice: real
    var lowPrice: real
    var progress: nat
    var stopped: bool
    var scheduled: bool
    /** Every event posted so far, in order. */
    var events: seq<Event>
    /** The initial price of the current run followed by every stepped price. */
    ghost var prices: seq<real>
    /** Where the current run's events begin in `events`. */
    ghost var runStart: nat

    /** The state invariant, except for the link between the interval and the step limit. */
    ghost predicate Consistent()
      reads this
    {
      RunInvariant(params, price, highPrice, lowPrice, progress, prices, events, runStart)
    }

    /** The state invariant: an active interval means the run is neither stopped nor complete. */
    ghost predicate Valid()
      reads this
    {
      Consistent() && (scheduled ==> !stopped && progress < TotalSteps)
    }

    /** The STOCK_UPDATE events of the current run. */
    ghost function RunUpdates(): nat
      reads this
      requires Consistent()
    {
      UpdateCount(events[runStart..])
    }

    /** The module-scope state before any message: symbol AAPL, no parameters, no interval. */
    constructor ()
      ensures Valid()
      ensures stockSymbol == DefaultSymbol && progress == 0
      ensures !stopped && !scheduled && events == []
    {
      stockSymbol := DefaultSymbol;
      params := Params(0.0, 0.0, 0.0);
      price, highPrice, lowPrice := 0.0, 0.0, 0.0;
      progress := 0;
      stopped, scheduled := false, false;
      events := [];
      prices := [0.0];
      runStart := 0;
    }

    /** The message listener: START and STOP go to their handlers, anything else is ignored. */
    method Receive(command: Command)
      requires Valid()
      modifies this
      ensures Valid()
      ensures command.Unrecognized? || old(stopped) ==> unchanged(this)
      ensures command.StopSimulation? && !old(stopped) ==>
        && stopped && !scheduled
        && events == old(events) + StopEvents(stockSymbol)
        && stockSymbol == old(stockSymbol) && params == old(params) && progress == old(progress)
        && price == old(price) && highPrice == old(highPrice) && lowPrice == old(lowPrice)
        && RunUpdates() == old(RunUpdates())
      ensures command.StartSimulation? && !old(stopped) ==>
        && stockSymbol == ResolveSymbol(command.payload.stockSymbol)
        && params == ResolveParams(stockSymbol, command.payload.initialPrice,
                                   command.payload.expectedReturn, command.payload.volatility)
        && price == params.initialPrice && highPrice == price && lowPrice == price
        && progress == 0 && !stopped && scheduled
        && prices == [price]
        && events == old(events) + [Status(RunningMessage(stockSymbol))]
        && RunUpdates() == 0
    {
      match command
      case StartSimulation(payload) => Start(payload);
      case StopSimulation => Stop();
      case Unrecognized(_) =>
    }

    /** START_SIMULATION: resolve the parameters, reset the run and schedule the ticks. */
    method Start(payload: StartPayload)
      requires Valid()
      modifies this
      ensures Valid()
      ensures old(stopped) ==> unchanged(this)
      ensures !old(stopped) ==>
        && stockSymbol == ResolveSymbol(payload.stockSymbol)
        && params == ResolveParams(stockSymbol, payload.initialPrice, payload.expectedReturn, payload.volatility)
        && price == params.initialPrice && highPrice == price && lowPrice == price
        && progress == 0 && !stopped && scheduled
        && prices == [price]
        && events == old(events) + [Status(RunningMessage(stockSymbol))]
        && RunUpdates() == 0
    {
      if stopped {
        return;
      }
      var symbol := ResolveSymbol(payload.stockSymbol);
      Begin(symbol, ResolveParams(symbol, payload.initialPrice, payload.expectedReturn, payload.volatility));
    }

    /** The reset part of START: a run with the given symbol and parameters,
        the price at the initial price and both extremes at it, and STATUS posted. */
    method Begin(symbol: string, p: Params)
      requires Valid()
      modifies this
      ensures Valid()
      ensures stockSymbol == symbol && params == p
      ensures price == p.initialPrice && highPrice == price && lowPrice == price
      ensures progress == 0 && !stopped && scheduled && prices == [price]
      ensures events == old(events) + [Status(RunningMessage(symbol))]
      ensures RunUpdates() == 0
    {
      ghost var events0 := events;
      stockSymbol := symbol;
      params := p;
      stopped := false;
      price := p.initialPrice;
      progress := 0;
      highPrice, lowPrice := price, price;
      scheduled := true;
      prices := [price];
      runStart := |events|;
      var posted := [Status(RunningMessage(symbol))];
      assert UpdateCount(posted) == 0;
      events := events + posted;
      StartEstablishesInvariant(params, events0, posted, price, highPrice, lowPrice, progress,
                                prices, events, runStart);
    }

    /** One firing of the interval: nothing once the interval is cleared;
        otherwise one step, and stopSimulation when the step limit is reached.
        `shock` is sqrt(dt)*Z, `time` the timestamp and `elapsed` the
        milliseconds since START. */
    method Tick(shock: real, time: string, elapsed: int)
      requires Valid()
      modifies this
      ensures Valid()
      ensures !old(scheduled) ==> unchanged(this)
      ensures old(scheduled) ==>
        && progress == old(progress) + 1
        && stockSymbol == old(stockSymbol) && params == old(params)
        && price == Step(old(price), params, shock)
        && prices == old(prices) + [price]
        && highPrice == Max(old(highPrice), price) && lowPrice == Min(old(lowPrice), price)
        && events == old(events) + TickEvents(stockSymbol, time, price, highPrice, lowPrice, progress, elapsed)
                     + (if progress == TotalSteps then StopEvents(stockSymbol) else [])
        && stopped == (progress == TotalSteps) && scheduled == !stopped
        && RunUpdates() == old(RunUpdates()) + 1
      ensures old(scheduled) ==> PriceFloor <= price && lowPrice <= price <= highPrice
    {
      if !scheduled {
        return;
      }
      Advance(shock, time, elapsed);
      if progress >= TotalSteps {
        Terminate();
      }
    }

    /** One executed step: the state change, then its messages. */
    method Advance(shock: real, time: string, elapsed: int)
      requires Valid() && scheduled
      modifies this
      ensures Consistent() && scheduled && !stopped
      ensures progress == old(progress) + 1
      ensures stockSymbol == old(stockSymbol) && params == old(params)
      ensures price == Step(old(price), params, shock)
      ensures prices == old(prices) + [price]
      ensures highPrice == Max(old(highPrice), price) && lowPrice == Min(old(lowPrice), price)
      ensures events == old(events) + TickEvents(stockSymbol, time, price, highPrice, lowPrice, progress, elapsed)
      ensures runStart == old(runStart)
    {
      Move(shock);
      Publish(time, elapsed);
    }

    /** The state change of one executed step: bump the counter, step the
        price and floor it, and update the extrema. */
    method Move(shock: real)
      requires Valid() && scheduled
      modifies this
      ensures stockSymbol == old(stockSymbol) && params == old(params)
      ensures stopped == old(stopped) && scheduled == old(scheduled)
      ensures events == old(events) && runStart == old(runStart)
      ensures PriceHistory(params, price, highPrice, lowPrice, progress, prices)
      ensures runStart <= |events| && UpdateCount(events[runStart..]) + 1 == progress
      ensures progress == old(progress) + 1
      ensures price == Step(old(price), params, shock)
      ensures prices == old(prices) + [price]
      ensures highPrice == Max(old(highPrice), price) && lowPrice == Min(old(lowPrice), price)
    {
      ghost var progress0, price0, high0, low0, prices0 := progress, price, highPrice, lowPrice, prices;
      assert PriceHistory(params, price0, high0, low0, progress0, prices0);
      progress := progress + 1;
      var next := price + Increment(price, params, shock);
      if next < PriceFloor {
        next := PriceFloor;
      }
      var high, low := highPrice, lowPrice;
      if next > high {
        high := next;
      }
      if next < low {
        low := next;
      }
      price, highPrice, lowPrice := next, high, low;
      prices := prices + [next];
      StepKeepsHistory(params, price0, high0, low0, progress0, prices0,
                       price, highPrice, lowPrice, progress, prices);
    }

    /** The messages of one executed step: STOCK_UPDATE, HIGH_LOW_UPDATE, PROGRESS_UPDATE. */
    method Publish(time: string, elapsed: int)
      requires PriceHistory(params, price, highPrice, lowPrice, progress, prices) && progress >= 1
      requires runStart <= |events| && UpdateCount(events[runStart..]) + 1 == progress
      modifies this
      ensures stockSymbol == old(stockSymbol) && params == old(params) && progress == old(progress)
      ensures price == old(price) && highPrice == old(highPrice) && lowPrice == old(lowPrice)
      ensures stopped == old(stopped) && scheduled == old(scheduled)
      ensures prices == old(prices) && runStart == old(runStart)
      ensures Consistent()
      ensures events == old(events) + TickEvents(stockSymbol, time, price, highPrice, lowPrice, progress, elapsed)
    {
      ghost var events0 := events;
      var posted := TickEvents(stockSymbol, time, price, highPrice, lowPrice, progress, elapsed);
      TickEventCount(stockSymbol, time, price, highPrice, lowPrice, progress, elapsed);
      events := events + posted;
      StepPostingRestoresInvariant(params, price, highPrice, lowPrice, progress, prices, events0, runStart,
                                   posted, events);
    }

    /** STOP_SIMULATION: stop unless the context is already closed. */
    method Stop()
      requires Valid()
      modifies this
      ensures Valid()
      ensures old(stopped) ==> unchanged(this)
      ensures !old(stopped) ==>
        && stopped && !scheduled
        && events == old(events) + StopEvents(stockSymbol)
        && stockSymbol == old(stockSymbol) && params == old(params) && progress == old(progress)
        && price == old(price) && highPrice == old(highPrice) && lowPrice == old(lowPrice)
        && RunUpdates() == old(RunUpdates())
    {
      if stopped {
        return;
      }
      Terminate();
    }

    /** stopSimulation: clear the interval, set the flag, post STATUS then
        SIMULATION_ENDED, and close the context. */
    method Terminate()
      requires Consistent()
      modifies this
      ensures Valid()
      ensures stopped && !scheduled
      ensures events == old(events) + StopEvents(stockSymbol)
      ensures stockSymbol == old(stockSymbol) && params == old(params) && progress == old(progress)
      ensures price == old(price) && highPrice == old(highPrice) && lowPrice == old(lowPrice)
      ensures prices == old(prices) && runStart == old(runStart)
      ensures RunUpdates() == old(RunUpdates())
    {
      ghost var events0 := events;
      scheduled := false;
      stopped := true;
      var posted := StopEvents(stockSymbol);
      StopEventCount(stockSymbol);
      events := events + posted;
      QuietPostingKeepsInvariant(params, price, highPrice, lowPrice, progress, prices, events0, runStart,
                                 posted, events);
    }
  }
}
