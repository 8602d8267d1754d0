/** The host page's bookkeeping (src/App.jsx): launching a simulation popup,
    the message reducer, the sweep of closed popups, stopping a simulation
    and adding a custom stock. */
module Host {
  import opened JsValues
  import opened Points
  import Engine

  /** A popup window as the host sees it: its name and whether it is closed. */
  datatype Popup = Popup(name: string, closed: bool)

  /** Custom parameters stored for a symbol: three `parseFloat` results (None for NaN). */
  datatype Custom = Custom(initialPrice: Option<real>, expectedReturn: Option<real>, volatility: Option<real>)

  /** A query parameter value: the empty string, or a number (None for NaN). */
  datatype QueryValue = Blank | Number(parsed: Option<real>)

  /** The query string the popup is opened with. */
  datatype Query = Query(id: string, stock: string, initialPrice: QueryValue,
                         expectedReturn: QueryValue, volatility: QueryValue)

  /** The popup's screen position. */
  datatype Placement = Placement(left: int, top: int)

  // ---------------------------------------------------------------------------
  // createWorkerWindow

  const PopupWidth: int := 550
  const PopupHeight: int := 650

  /** `value != null ? value : ''` for one field of `customStocks[symbol] || {}`. */
  function FieldValue(custom: Option<Custom>, field: Custom -> Option<real>): (v: QueryValue)
    ensures v.Blank? <==> custom.None?
    ensures custom.Some? ==> v.parsed == field(custom.value)
  {
    if custom.Some? then Number(field(custom.value)) else Blank
  }

  /** The query for a symbol: blanks without custom parameters, the stored
      values (a NaN included) otherwise. */
  function QueryFor(id: string, symbol: string, customStocks: map<string, Custom>): (q: Query)
    ensures q.id == id && q.stock == symbol
    ensures symbol !in customStocks ==>
      q.initialPrice == Blank && q.expectedReturn == Blank && q.volatility == Blank
    ensures symbol in customStocks ==>
      && q.initialPrice == Number(customStocks[symbol].initialPrice)
      && q.expectedReturn == Number(customStocks[symbol].expectedReturn)
      && q.volatility == Number(customStocks[symbol].volatility)
  {
    var custom := if symbol in customStocks then Some(customStocks[symbol]) else None;
    Query(id, symbol, FieldValue(custom, (c: Custom) => c.initialPrice), FieldValue(custom, (c: Custom) => c.expectedReturn),
          FieldValue(custom, (c: Custom) => c.volatility))
  }

  /** The position of the popup opened while `running` popups are open: three
      per row, each column 560 to the right, each row 680 lower. */
  function PopupPosition(running: nat, screenLeft: int, screenTop: int): (at: Placement)
    ensures at.left - screenLeft == (running % 3) * (PopupWidth + 10)
    ensures at.top - screenTop == (running / 3) * (PopupHeight + 30)
    ensures screenLeft <= at.left <= screenLeft + 2 * (PopupWidth + 10)
    ensures at.top >= screenTop
  {
    Placement(screenLeft + (running % 3) * (PopupWidth + 10), screenTop + (running / 3) * (PopupHeight + 30))
  }

  /** Different counts of running popups give different positions. */
  lemma PopupPositionInjective(m: nat, n: nat, screenLeft: int, screenTop: int)
    requires PopupPosition(m, screenLeft, screenTop) == PopupPosition(n, screenLeft, screenTop)
    ensures m == n
  {
    var a := PopupPosition(m, screenLeft, screenTop);
    var b := PopupPosition(n, screenLeft, screenTop);
    assert (m % 3) * 560 == (n % 3) * 560 by {
      assert a.left == b.left;
    }
    assert (m / 3) * 680 == (n / 3) * 680 by {
      assert a.top == b.top;
    }
    assert m == (m / 3) * 3 + m % 3;
    assert n == (n / 3) * 3 + n % 3;
  }

  /** What a launch did. */
  datatype Launch =
    | AlreadyRunning
    | PopupBlocked(query: Query, at: Placement)
    | Opened(query: Query, at: Placement, running: map<string, Popup>)

  /** `createWorkerWindow`: refuse a symbol already running; otherwise build
      the query and the position and open the popup. `popup` is what
      `window.open` returned (None when pop-ups are blocked); the opened
      popup is renamed to the worker id and recorded under the symbol. */
  function CreateWorkerWindow(selected: string, customStocks: map<string, Custom>,
                              running: map<string, Popup>, workerId: string,
                              screenLeft: int, screenTop: int, popup: Option<Popup>): (r: Launch)
    ensures selected in running <==> r.AlreadyRunning?
    ensures !r.AlreadyRunning? ==>
      && r.query == QueryFor(workerId, selected, customStocks)
      && r.at == PopupPosition(|running.Keys|, screenLeft, screenTop)
    ensures r.PopupBlocked? <==> selected !in running && popup.None?
    ensures r.Opened? ==>
      && r.running.Keys == running.Keys + {selected}
      && r.running[selected] == Popup(workerId, popup.value.closed)
      && forall s :: s in running ==> r.running[s] == running[s]
  {
    if selected in running then AlreadyRunning
    else
      var query := QueryFor(workerId, selected, customStocks);
      var at := PopupPosition(|running.Keys|, screenLeft, screenTop);
      if popup.None? then PopupBlocked(query, at)
      else Opened(query, at, running[selected := popup.value.(name := workerId)])
  }

  /** A launch never changes what is running unless it opened a popup,
      and the popups already running keep their entries. */
  lemma LaunchKeepsRunning(selected: string, customStocks: map<string, Custom>,
                           running: map<string, Popup>, workerId: string,
                           screenLeft: int, screenTop: int, popup: Option<Popup>)
    ensures var r := CreateWorkerWindow(selected, customStocks, running, workerId, screenLeft, screenTop, popup);
      r.Opened? ==> |r.running.Keys| == |running.Keys| + 1
  {
    var r := CreateWorkerWindow(selected, customStocks, running, workerId, screenLeft, screenTop, popup);
    if r.Opened? {
      assert selected !in running.Keys;
      assert r.running.Keys == running.Keys + {selected};
    }
  }

  // ---------------------------------------------------------------------------
  // handleMessage

  /** A message from a popup, as the reducer destructures it: `stockUpdate`
      is the payload's `stockUpdate` field (None when it is undefined). */
  datatype Message =
    | SimulationEnded(stockSymbol: string)
    | StockUpdate(stockSymbol: string, stockUpdate: Option<Point>)
    | OtherMessage(kind: string)

  /** The host's state: the running popups and the recorded series by symbol. */
  datatype Books = Books(running: map<string, Popup>, stockData: map<string, seq<Point>>)

  /** `handleMessage`: SIMULATION_ENDED forgets the popup; a valid STOCK_UPDATE
      appends `{time, price}` to its symbol's series. An invalid update is
      dropped with a warning, and one without `stockUpdate` throws while
      destructuring, so neither changes anything. */
  function HandleMessage(books: Books, msg: Message, parses: string -> bool): (r: Books)
    ensures msg.SimulationEnded? ==>
      r == books.(running := books.running - {msg.stockSymbol})
    ensures msg.StockUpdate? && msg.stockUpdate.Some? && ValidPoint(msg.stockUpdate.value, parses) ==>
      && r.running == books.running
      && r.stockData.Keys == books.stockData.Keys + {msg.stockSymbol}
      && r.stockData[msg.stockSymbol] == SeriesOf(books.stockData, msg.stockSymbol) + [msg.stockUpdate.value]
      && forall s :: s in books.stockData && s != msg.stockSymbol ==> r.stockData[s] == books.stockData[s]
    ensures msg.StockUpdate? && (msg.stockUpdate.None? || !ValidPoint(msg.stockUpdate.value, parses)) ==>
      r == books
    ensures msg.OtherMessage? ==> r == books
  {
    match msg
    case SimulationEnded(symbol) => books.(running := books.running - {symbol})
    case StockUpdate(symbol, update) =>
      if update.None? then books
      else
        var p := update.value;
        if !TimeValid(p.time, parses) || p.price.None? then books
        else books.(stockData := books.stockData[symbol := SeriesOf(books.stockData, symbol) + [Point(p.time, p.price)]])
    case OtherMessage(_) => books
  }

  /** SIMULATION_ENDED removes exactly its symbol's popup. */
  lemma EndedRemovesOnlyItsEntry(books: Books, symbol: string, parses: string -> bool)
    ensures var r := HandleMessage(books, SimulationEnded(symbol), parses);
      && symbol !in r.running
      && (forall s :: s in books.running && s != symbol ==> s in r.running && r.running[s] == books.running[s])
      && r.running.Keys <= books.running.Keys
      && r.stockData == books.stockData
  {
  }

  /** Every recorded point can be drawn: if every series held only valid
      points before a message, it does after. */
  lemma {:induction false} HandleMessageKeepsSeriesValid(books: Books, msg: Message, parses: string -> bool)
    requires forall s :: s in books.stockData ==> AllValid(books.stockData[s], parses)
    ensures var r := HandleMessage(books, msg, parses);
      forall s :: s in r.stockData ==> AllValid(r.stockData[s], parses)
  {
    var r := HandleMessage(books, msg, parses);
    if msg.StockUpdate? && msg.stockUpdate.Some? && ValidPoint(msg.stockUpdate.value, parses) {
      var symbol := msg.stockSymbol;
      var series := SeriesOf(books.stockData, symbol);
      assert AllValid(series, parses);
      assert r.stockData[symbol] == series + [msg.stockUpdate.value];
      assert AllValid(series + [msg.stockUpdate.value], parses);
    }
  }

  // ---------------------------------------------------------------------------
  // The closed-popup sweep

  /** The popups that are still open. */
  function OpenOnly(running: map<string, Popup>): (r: map<string, Popup>)
    ensures forall s :: s in r <==> s in running && !running[s].closed
    ensures forall s :: s in r ==> r[s] == running[s]
  {
    map s | s in running && !running[s].closed :: running[s]
  }

  /** The sweep's state update: copy the map, delete every closed popup from
      the copy while noting that something changed, and return the copy only
      when something did (otherwise the identical previous map). */
  method SweepClosed(prev: map<string, Popup>) returns (next: map<string, Popup>, hasChanges: bool)
    ensures next == OpenOnly(prev)
    ensures hasChanges <==> exists s :: s in prev && prev[s].closed
    ensures !hasChanges ==> next == prev
  {
    var copy := prev;
    hasChanges := false;
    var pending := prev.Keys;
    while pending != {}
      invariant pending <= prev.Keys
      invariant forall s :: s in copy <==> s in prev && (s in pending || !prev[s].closed)
      invariant forall s :: s in copy ==> copy[s] == prev[s]
      invariant hasChanges <==> exists s :: s in prev && s !in pending && prev[s].closed
      decreases pending
    {
      var symbol :| symbol in pending;
      if prev[symbol].closed {
        copy := copy - {symbol};
        hasChanges := true;
      }
      pending := pending - {symbol};
    }
    next := if hasChanges then copy else prev;
    if !hasChanges {
      assert prev == OpenOnly(prev);
    }
  }

  /** A popup window closing from outside the host: the user closed it, or the
      engine closed its own context after stopping. Every map entry is a
      reference to the live window, so its `closed` becomes true. */
  function WindowClosed(running: map<string, Popup>, symbol: string): (r: map<string, Popup>)
    ensures r.Keys == running.Keys
    ensures symbol in running ==> r[symbol] == running[symbol].(closed := true)
    ensures forall s :: s in running && s != symbol ==> r[s] == running[s]
  {
    if symbol in running then running[symbol := running[symbol].(closed := true)] else running
  }

  /** The next sweep after a popup closed from outside forgets exactly that
      popup, and stopping it no longer posts STOP. */
  lemma ClosedWindowForgotten(running: map<string, Popup>, symbol: string)
    requires symbol in running
    ensures OpenOnly(WindowClosed(running, symbol)) == OpenOnly(running) - {symbol}
    ensures !StopSimulation(WindowClosed(running, symbol), symbol).stopSent
  {
    var closed := WindowClosed(running, symbol);
    assert OpenOnly(closed).Keys == (OpenOnly(running) - {symbol}).Keys;
  }

  /** Sweeping twice is sweeping once. */
  lemma OpenOnlyIdempotent(running: map<string, Popup>)
    ensures OpenOnly(OpenOnly(running)) == OpenOnly(running)
  {
  }

  // ---------------------------------------------------------------------------
  // stopSimulation

  /** What stopSimulation did: whether STOP_SIMULATION was posted, and the
      running popups once the deferred close has removed the entry. */
  datatype StopResult = StopResult(stopSent: bool, running: map<string, Popup>)

  /** `stopSimulation`: only a recorded popup that is still open is told to
      stop; it is then closed and its entry deleted. */
  function StopSimulation(running: map<string, Popup>, symbol: string): (r: StopResult)
    ensures r.stopSent <==> symbol in running && !running[symbol].closed
    ensures r.stopSent ==> r.running == running - {symbol}
    ensures !r.stopSent ==> r.running == running
  {
    if symbol in running && !running[symbol].closed then StopResult(true, running - {symbol})
    else StopResult(false, running)
  }

  /** Stopping removes at most the stopped symbol's entry. */
  lemma StopKeepsOthers(running: map<string, Popup>, symbol: string, other: string)
    requires other in running && other != symbol
    ensures other in StopSimulation(running, symbol).running
    ensures StopSimulation(running, symbol).running[other] == running[other]
  {
  }

  // ---------------------------------------------------------------------------
  // handleAddStock

  /** The add-stock form's four text fields. */
  datatype NewStock = NewStock(symbol: string, initialPrice: string, expectedReturn: string, volatility: string)

  const EmptyForm := NewStock("", "", "", "")

  /** The host state the form touches. */
  datatype Catalog = Catalog(availableStocks: seq<string>, customStocks: map<string, Custom>,
                             form: NewStock, addOpen: bool)

  /** `handleAddStock`: upper-case the symbol, append it to the list (no
      duplicate check), store the parsed values under it, clear the form and
      close the sheet. `parseFloat` is the parameter `parse`. */
  function AddStock(catalog: Catalog, parse: string -> Option<real>): (r: Catalog)
    ensures r.availableStocks == catalog.availableStocks + [UpperCase(catalog.form.symbol)]
    ensures r.customStocks.Keys == catalog.customStocks.Keys + {UpperCase(catalog.form.symbol)}
    ensures r.customStocks[UpperCase(catalog.form.symbol)]
      == Custom(parse(catalog.form.initialPrice), parse(catalog.form.expectedReturn), parse(catalog.form.volatility))
    ensures forall s :: s in catalog.customStocks && s != UpperCase(catalog.form.symbol) ==>
      r.customStocks[s] == catalog.customStocks[s]
    ensures r.form == EmptyForm && !r.addOpen
  {
    var form := catalog.form;
    var key := UpperCase(form.symbol);
    Catalog(catalog.availableStocks + [key],
            catalog.customStocks[key := Custom(parse(form.initialPrice), parse(form.expectedReturn), parse(form.volatility))],
            EmptyForm, false)
  }

  /** Adding a symbol that is already listed lists it twice. */
  lemma AddStockAllowsDuplicates(catalog: Catalog, parse: string -> Option<real>)
    requires UpperCase(catalog.form.symbol) in catalog.availableStocks
    ensures var r := AddStock(catalog, parse);
      multiset(r.availableStocks)[UpperCase(catalog.form.symbol)]
        == multiset(catalog.availableStocks)[UpperCase(catalog.form.symbol)] + 1 >= 2
  {
    var key := UpperCase(catalog.form.symbol);
    assert multiset(catalog.availableStocks + [key]) == multiset(catalog.availableStocks) + multiset{key};
  }

  /** A stock added through the form starts its next simulation with the
      stored values in the query, whatever the case the symbol was typed in. */
  lemma AddedStockQuery(catalog: Catalog, parse: string -> Option<real>, id: string)
    ensures var r := AddStock(catalog, parse);
      var q := QueryFor(id, UpperCase(catalog.form.symbol), r.customStocks);
      && q.initialPrice == Number(parse(catalog.form.initialPrice))
      && q.expectedReturn == Number(parse(catalog.form.expectedReturn))
      && q.volatility == Number(parse(catalog.form.volatility))
  {
  }

  // ---------------------------------------------------------------------------
  // The payload mismatch between the engine and the reducer

  /** An engine event as the reducer destructures it. The engine's
      STOCK_UPDATE payload is `{stockSymbol, time, price}` with no
      `stockUpdate` field, so the reducer finds that field undefined. */
  function AsReceived(e: Engine.Event): (m: Message)
    ensures e.StockUpdate? ==> m == StockUpdate(e.stockSymbol, None)
    ensures e.SimulationEnded? ==> m == SimulationEnded(e.stockSymbol)
  {
    match e
    case StockUpdate(symbol, _, _) => StockUpdate(symbol, None)
    case SimulationEnded(symbol) => SimulationEnded(symbol)
    case Status(_) => OtherMessage("STATUS")
    case HighLowUpdate(_, _, _, _) => OtherMessage("HIGH_LOW_UPDATE")
    case ProgressUpdate(_, _) => OtherMessage("PROGRESS_UPDATE")
  }

  /** As written, no engine STOCK_UPDATE ever reaches the recorded series. */
  lemma WorkerUpdatesNeverRecorded(books: Books, e: Engine.Event, parses: string -> bool)
    requires e.StockUpdate?
    ensures HandleMessage(books, AsReceived(e), parses) == books
  {
  }

  /** The payload the reducer expects: the engine's time and price nested under `stockUpdate`. */
  function AsIntended(e: Engine.Event): (m: Message)
    ensures e.StockUpdate? ==> m == StockUpdate(e.stockSymbol, Some(Point(Some(e.time), Some(e.price))))
    ensures !e.StockUpdate? ==> m == AsReceived(e)
  {
    match e
    case StockUpdate(symbol, time, price) => StockUpdate(symbol, Some(Point(Some(time), Some(price))))
    case _ => AsReceived(e)
  }

  /** With the intended payload every engine STOCK_UPDATE with a parseable
      time is appended to its symbol's series. */
  lemma IntendedUpdatesRecorded(books: Books, e: Engine.Event, parses: string -> bool)
    requires e.StockUpdate? && e.time != "" && parses(e.time)
    ensures var r := HandleMessage(books, AsIntended(e), parses);
      r.stockData[e.stockSymbol] == SeriesOf(books.stockData, e.stockSymbol) + [Point(Some(e.time), Some(e.price))]
  {
  }
}
