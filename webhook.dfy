/**
 * The `/webhook` endpoint (app/main.py): a TradingView alert carries a signal, a symbol and
 * a spot price; the engine keeps at most one open option leg in its persisted state and
 * answers "smart buy" with a call one strike in the money, "smart sell" with a put, and
 * "book profit" by selling the open leg. Successful alerts are remembered by id so that a
 * replayed alert is ignored.
 *
 * `Handle` is the whole endpoint as a function of the persisted state, the request, the
 * instrument table, the strike step, today's date and the broker's answers (consumed in the
 * order the orders are placed). `Bridge.Webhook` is the imperative engine, proved to do
 * exactly what `Handle` says.
 */
module Webhook {
  import opened Wrappers
  import opened Text
  import opened Symbols
  import opened Strikes
  import opened Instruments
  import opened Orders
  import opened AlertHistory

  /** An open position: the `open_leg` record of the state file. */
  datatype Leg = Leg(optionType: string, strike: int, expiry: Date, securityId: string, quantity: int, order: string)

  /** The persisted state: the open leg, if any, and the ids of the alerts already handled. */
  datatype State = State(openLeg: Option<Leg>, processedAlertIds: seq<string>)

  /** The `spot` field: absent (or null), present but not convertible by `float`, or its value
      truncated to an integer. */
  datatype Spot = SpotMissing | SpotNotNumeric | SpotValue(value: int)

  /** The fields of the alert body the engine reads (the shared secret is checked before). */
  datatype Request = Request(signal: Option<string>, symbol: Option<string>, spot: Spot,
                             alertId: Option<string>, id: Option<string>)

  /** Why handling failed. */
  datatype Fault =
    | SignalMissing                  // `None.strip()` raises
    | CatalogRowUnreadable           // a row without UNDERLYING_SYMBOL
    | StrikeStepZero                 // `int(spot) // 0` raises
    | InstrumentNotFound(symbol: string, optionType: string, strike: int, expiry: Date)
    | BrokerFailed(reason: string)   // `place_order` raised

  /** The endpoint's answers. `InternalError` is the handler's `except` branch; `Crashed` is
      an exception that escapes the handler altogether. */
  datatype Response =
    | MissingSignalOrSpot
    | DuplicateAlertIgnored
    | InvalidSpot
    | NoExpiryFound(symbol: string)
    | UnknownSignal
    | Bought(leg: Leg)
    | NoOpenLeg
    | ClosedLeg(order: string)
    | InternalError(cause: Fault)
    | Crashed(cause: Fault)
  {
    /** The three answers after which the alert id is recorded. */
    predicate Succeeded() {
      Bought? || NoOpenLeg? || ClosedLeg?
    }
  }

  /** The recognised signals, after `strip().lower()`. */
  datatype Kind = SmartBuy | SmartSell | BookProfit | Unrecognised

  /** The answer, the persisted state afterwards and the orders placed, oldest first. */
  datatype Outcome = Outcome(response: Response, state: State, orders: seq<OrderRequest>)

  // ---------------------------------------------------------------------------------------
  // Reading the request

  /** The symbol looked up: the request's, or "NIFTY" when it is missing or empty,
      normalised. */
  function SymbolOf(req: Request): string {
    Normalize(if req.symbol.None? || req.symbol.value == [] then "NIFTY" else req.symbol.value)
  }

  /** `alert_id or id or None`: the first non-empty one of the two ids. */
  function AlertIdOf(req: Request): (r: Option<string>)
    ensures r.Some? ==> r.value != [] && (r == req.alertId || r == req.id)
    ensures r.None? <==> (req.alertId.None? || req.alertId.value == []) && (req.id.None? || req.id.value == [])
    ensures req.alertId.Some? && req.alertId.value != [] ==> r == req.alertId
  {
    if req.alertId.Some? && req.alertId.value != [] then req.alertId
    else if req.id.Some? && req.id.value != [] then req.id
    else None
  }

  /** The signal is compared after `strip().lower()`, so case and surrounding blanks do not
      matter. */
  function KindOf(signal: string): Kind {
    var sig := Lower(Strip(signal));
    if sig == "smart buy" then SmartBuy
    else if sig == "smart sell" then SmartSell
    else if sig == "book profit" then BookProfit
    else Unrecognised
  }

  /** A request without a symbol (or with an empty one) trades NIFTY. */
  lemma MissingSymbolMeansNifty(req: Request)
    requires req.symbol.None? || req.symbol.value == []
    ensures SymbolOf(req) == "NIFTY"
  {
    var n := "NIFTY";
    assert n[0] == 'N' && n[|n| - 1] == 'Y' && NoLowercase(n) && ':' !in n && !HasContractSuffix(n);
    assert n !in McxSymbolMap;
    NormalizeKeepsPlainSymbol(n);
  }

  /** The case of the signal's letters does not matter. */
  lemma SignalKindIgnoresCase(a: string, b: string)
    requires SameUpToCase(a, b)
    ensures KindOf(a) == KindOf(b)
  {
    LowerStripOfSameCase(a, b);
  }

  /** Blanks around the signal do not matter, so the handler's second `strip()` changes
      nothing. */
  lemma SignalKindIgnoresBlanks(signal: string)
    ensures KindOf(Strip(signal)) == KindOf(signal)
  {
    StripIsIdempotent(signal);
  }

  // ---------------------------------------------------------------------------------------
  // Orders

  /** The market sell that closes `leg` (its recorded quantity is not used: the order is
      always for `OrderQuantity`). */
  function SellOrder(leg: Leg): OrderRequest {
    OrderRequest(Sell, leg.securityId, OrderQuantity)
  }

  function BuyOrder(securityId: string): OrderRequest {
    OrderRequest(Buy, securityId, OrderQuantity)
  }

  /** The broker's answer to the `i`-th order of this request. */
  function ReplyAt(replies: seq<BrokerReply>, i: nat): BrokerReply {
    if i < |replies| then replies[i] else Failed("")
  }

  function Drop(replies: seq<BrokerReply>, k: nat): seq<BrokerReply> {
    if k <= |replies| then replies[k..] else []
  }

  // ---------------------------------------------------------------------------------------
  // The handler

  /** `open_leg_buy(t)`: choose the strike, find the instrument, buy it and persist it as the
      open leg. On any failure the persisted state stays `s`. */
  function OpenLeg(s: State, t: string, rows: seq<Row>, symbol: string, spot: int, step: int,
                   expiry: Date, replies: seq<BrokerReply>): Outcome
  {
    if step == 0 then Outcome(InternalError(StrikeStepZero), s, [])
    else
      var strike := ItmStrike(spot, step, t);
      match FirstOptionRow(rows, symbol, Some(expiry), Some(strike), t)
      case Failure(_) => Outcome(InternalError(CatalogRowUnreadable), s, [])
      case Success(None) => Outcome(InternalError(InstrumentNotFound(symbol, t, strike, expiry)), s, [])
      case Success(Some(row)) =>
        var buy := BuyOrder(row.securityId);
        match ReplyAt(replies, 0)
        case Failed(reason) => Outcome(InternalError(BrokerFailed(reason)), s, [buy])
        case Placed(order) =>
          var leg := Leg(t, strike, expiry, row.securityId, QuantityFor(row, 1), order);
          Outcome(Bought(leg), s.(openLeg := Some(leg)), [buy])
  }

  /** "smart buy" (t = "CE", opposite = "PE") and "smart sell" (t = "PE", opposite = "CE"):
      an open leg of the opposite type is sold first, then a leg of type `t` is opened.
      Clearing the open leg after the sale is not persisted until the new leg is. */
  function SwitchTo(s: State, t: string, opposite: string, rows: seq<Row>, symbol: string, spot: int,
                    step: int, expiry: Date, replies: seq<BrokerReply>): Outcome
  {
    if s.openLeg.Some? && s.openLeg.value.optionType == opposite then
      var sell := SellOrder(s.openLeg.value);
      match ReplyAt(replies, 0)
      case Failed(reason) => Outcome(InternalError(BrokerFailed(reason)), s, [sell])
      case Placed(_) =>
        var o := OpenLeg(s, t, rows, symbol, spot, step, expiry, Drop(replies, 1));
        o.(orders := [sell] + o.orders)
    else
      OpenLeg(s, t, rows, symbol, spot, step, expiry, replies)
  }

  /** "book profit": sell the open leg, if there is one, and clear it. */
  function BookOpenLeg(s: State, replies: seq<BrokerReply>): Outcome {
    if s.openLeg.None? then Outcome(NoOpenLeg, s, [])
    else
      var sell := SellOrder(s.openLeg.value);
      match ReplyAt(replies, 0)
      case Failed(reason) => Outcome(InternalError(BrokerFailed(reason)), s, [sell])
      case Placed(order) => Outcome(ClosedLeg(order), s.(openLeg := None), [sell])
  }

  /** The `try` block of the handler, up to the recording of the alert id. */
  function Dispatch(s: State, kind: Kind, rows: seq<Row>, symbol: string, spot: int, step: int,
                    expiry: Date, replies: seq<BrokerReply>): Outcome
  {
    match kind
    case SmartBuy => SwitchTo(s, "CE", "PE", rows, symbol, spot, step, expiry, replies)
    case SmartSell => SwitchTo(s, "PE", "CE", rows, symbol, spot, step, expiry, replies)
    case BookProfit => BookOpenLeg(s, replies)
    case Unrecognised => Outcome(UnknownSignal, s, [])
  }

  /** The history once `alertId`, if there is one, is recorded. */
  function Recorded(ids: seq<string>, alertId: Option<string>): seq<string> {
    if alertId.Some? then RecordAlert(ids, alertId.value) else ids
  }

  /** After a successful signal the alert id, if any, joins the bounded history. */
  function Remember(o: Outcome, alertId: Option<string>): Outcome {
    if o.response.Succeeded() then
      o.(state := o.state.(processedAlertIds := Recorded(o.state.processedAlertIds, alertId)))
    else o
  }

  /** What the handler reads from the alert body before acting: the signal after `strip()`
      (`None` when the field is missing), its kind, the normalised symbol, the spot and the
      alert id. */
  datatype Alert = Alert(signal: Option<string>, kind: Kind, symbol: string, spot: Spot, alertId: Option<string>)

  function Parse(req: Request): Alert {
    var signal := if req.signal.None? then None else Some(Strip(req.signal.value));
    Alert(signal, if signal.None? then Unrecognised else KindOf(signal.value), SymbolOf(req), req.spot, AlertIdOf(req))
  }

  /** The checks made before the instrument table is consulted, in the order the handler
      makes them: the rejection they produce, or `None` when the alert passes. */
  function Precheck(s: State, a: Alert): Option<Response> {
    if a.signal.None? then Some(Crashed(SignalMissing))
    else if a.signal.value == [] || a.spot.SpotMissing? then Some(MissingSignalOrSpot)
    else if a.alertId.Some? && a.alertId.value in s.processedAlertIds then Some(DuplicateAlertIgnored)
    else if a.spot.SpotNotNumeric? then Some(InvalidSpot)
    else None
  }

  /** The handler on a parsed alert. A failure in the expiry lookup escapes the handler (the
      lookup happens outside its `try`). */
  function Process(s: State, a: Alert, rows: seq<Row>, step: int, today: Date, replies: seq<BrokerReply>): Outcome {
    match Precheck(s, a)
    case Some(rejection) => Outcome(rejection, s, [])
    case None =>
      match NearestExpiry(rows, a.symbol, today)
      case Failure(_) => Outcome(Crashed(CatalogRowUnreadable), s, [])
      case Success(None) => Outcome(NoExpiryFound(a.symbol), s, [])
      case Success(Some(expiry)) =>
        Remember(Dispatch(s, a.kind, rows, a.symbol, a.spot.value, step, expiry, replies), a.alertId)
  }

  /** The whole endpoint. */
  function Handle(s: State, req: Request, rows: seq<Row>, step: int, today: Date,
                  replies: seq<BrokerReply>): Outcome
  {
    Process(s, Parse(req), rows, step, today, replies)
  }

  // ---------------------------------------------------------------------------------------
  // What the handler promises, for every alert (and so for every request, through `Parse`)

  /** The alert passes the early checks and an expiry is found for its symbol: the signal is
      then acted on. */
  predicate Accepted(s: State, a: Alert, rows: seq<Row>, today: Date) {
    Precheck(s, a).None? && NearestExpiry(rows, a.symbol, today).Success?
    && NearestExpiry(rows, a.symbol, today).value.Some?
  }

  /** The expiry the lookup found for an accepted alert. */
  function Expiry(a: Alert, rows: seq<Row>, today: Date): Date
    requires NearestExpiry(rows, a.symbol, today).Success? && NearestExpiry(rows, a.symbol, today).value.Some?
  {
    NearestExpiry(rows, a.symbol, today).value.value
  }

  /** An accepted alert is answered by acting on its signal and then recording its id. */
  lemma AcceptedAlertIsDispatched(s: State, a: Alert, rows: seq<Row>, step: int, today: Date,
                                  replies: seq<BrokerReply>)
    requires Accepted(s, a, rows, today)
    ensures Process(s, a, rows, step, today, replies)
         == Remember(Dispatch(s, a.kind, rows, a.symbol, a.spot.value, step, Expiry(a, rows, today), replies), a.alertId)
  {
  }

  predicate KeepsStateUnlessSucceeded(s: State, o: Outcome, recorded: seq<string>) {
    && (!o.response.Succeeded() ==> o.state == s)
    && (o.response.Succeeded() ==> o.state.processedAlertIds == recorded)
    && (o.response.Bought? ==> o.state.openLeg == Some(o.response.leg))
    && (o.response.ClosedLeg? ==> o.state.openLeg == None)
    && (o.response.NoOpenLeg? ==> o.state.openLeg == None == s.openLeg)
  }

  /** Only a successful signal changes the persisted state; it then leaves the history with
      the alert id recorded and the open leg as the signal says. A failure, even one after
      orders were placed, leaves the state as it was. */
  lemma ProcessChangesStateOnlyOnSuccess(s: State, a: Alert, rows: seq<Row>, step: int, today: Date,
                                         replies: seq<BrokerReply>)
    ensures KeepsStateUnlessSucceeded(s, Process(s, a, rows, step, today, replies), Recorded(s.processedAlertIds, a.alertId))
  {
    if Accepted(s, a, rows, today) {
      var d := Dispatch(s, a.kind, rows, a.symbol, a.spot.value, step, Expiry(a, rows, today), replies);
      assert Process(s, a, rows, step, today, replies) == Remember(d, a.alertId);
      DispatchChangesOnlyTheLeg(s, a.kind, rows, a.symbol, a.spot.value, step, Expiry(a, rows, today), replies);
      RememberRecords(s, d, a.alertId);
    } else {
      var o := Process(s, a, rows, step, today, replies);
      assert o.state == s && !o.response.Succeeded();
    }
  }

  lemma RememberRecords(s: State, o: Outcome, alertId: Option<string>)
    requires KeepsStateUnlessSucceeded(s, o, s.processedAlertIds)
    ensures KeepsStateUnlessSucceeded(s, Remember(o, alertId), Recorded(s.processedAlertIds, alertId))
  {
  }

  lemma DispatchChangesOnlyTheLeg(s: State, kind: Kind, rows: seq<Row>, symbol: string, spot: int, step: int,
                                  expiry: Date, replies: seq<BrokerReply>)
    ensures KeepsStateUnlessSucceeded(s, Dispatch(s, kind, rows, symbol, spot, step, expiry, replies), s.processedAlertIds)
  {
  }

  /** Recording the alert id touches only the history. */
  lemma RememberKeepsResponseAndOrders(o: Outcome, alertId: Option<string>)
    ensures Remember(o, alertId).response == o.response && Remember(o, alertId).orders == o.orders
    ensures !o.response.Succeeded() ==> Remember(o, alertId) == o
  {
  }

  /** An alert rejected before it is acted on, and an unrecognised signal, place no order
      and change nothing. */
  predicate PlacesNothing(s: State, o: Outcome) {
    (o.response.MissingSignalOrSpot? || o.response.DuplicateAlertIgnored? || o.response.InvalidSpot?
     || o.response.NoExpiryFound? || o.response.UnknownSignal? || o.response.Crashed?)
    ==> o.orders == [] && o.state == s
  }

  lemma RejectionsPlaceNoOrders(s: State, a: Alert, rows: seq<Row>, step: int, today: Date,
                                replies: seq<BrokerReply>)
    ensures PlacesNothing(s, Process(s, a, rows, step, today, replies))
    ensures Accepted(s, a, rows, today) ==>
      !Process(s, a, rows, step, today, replies).response.DuplicateAlertIgnored?
  {
    if Accepted(s, a, rows, today) {
      var d := Dispatch(s, a.kind, rows, a.symbol, a.spot.value, step, Expiry(a, rows, today), replies);
      DispatchRejectsOnlyUnknownSignals(s, a.kind, rows, a.symbol, a.spot.value, step, Expiry(a, rows, today), replies);
      RememberKeepsResponseAndOrders(d, a.alertId);
    }
  }

  lemma DispatchRejectsOnlyUnknownSignals(s: State, kind: Kind, rows: seq<Row>, symbol: string, spot: int, step: int,
                                          expiry: Date, replies: seq<BrokerReply>)
    ensures var o := Dispatch(s, kind, rows, symbol, spot, step, expiry, replies);
      && PlacesNothing(s, o)
      && !(o.response.MissingSignalOrSpot? || o.response.DuplicateAlertIgnored? || o.response.InvalidSpot?
           || o.response.NoExpiryFound? || o.response.Crashed?)
  {
  }

  /** Every order is a market order for the fixed quantity; at most two are placed (a sale
      and a purchase); a sale is always of the leg that was open; a purchase that succeeds
      is the last order and is of the instrument of the new leg. */
  predicate OrdersOfOneAlert(s: State, o: Outcome) {
    && |o.orders| <= 2
    && (forall i :: 0 <= i < |o.orders| ==> o.orders[i].quantity == OrderQuantity)
    && (forall i :: 0 <= i < |o.orders| && o.orders[i].side == Sell ==>
          s.openLeg.Some? && o.orders[i] == SellOrder(s.openLeg.value))
    && (o.response.Bought? ==> o.orders != [] && o.orders[|o.orders| - 1] == BuyOrder(o.response.leg.securityId))
  }

  lemma ProcessPlacesBoundedOrders(s: State, a: Alert, rows: seq<Row>, step: int, today: Date,
                                   replies: seq<BrokerReply>)
    ensures OrdersOfOneAlert(s, Process(s, a, rows, step, today, replies))
  {
    if Accepted(s, a, rows, today) {
      var d := Dispatch(s, a.kind, rows, a.symbol, a.spot.value, step, Expiry(a, rows, today), replies);
      DispatchPlacesBoundedOrders(s, a.kind, rows, a.symbol, a.spot.value, step, Expiry(a, rows, today), replies);
      RememberKeepsResponseAndOrders(d, a.alertId);
    }
  }

  lemma DispatchPlacesBoundedOrders(s: State, kind: Kind, rows: seq<Row>, symbol: string, spot: int, step: int,
                                    expiry: Date, replies: seq<BrokerReply>)
    ensures OrdersOfOneAlert(s, Dispatch(s, kind, rows, symbol, spot, step, expiry, replies))
  {
    if kind.SmartBuy? || kind.SmartSell? {
      var t, opposite := if kind.SmartBuy? then "CE" else "PE", if kind.SmartBuy? then "PE" else "CE";
      if s.openLeg.Some? && s.openLeg.value.optionType == opposite && ReplyAt(replies, 0).Placed? {
        OpenLegPlacesAtMostOneBuy(s, t, rows, symbol, spot, step, expiry, Drop(replies, 1));
      } else {
        OpenLegPlacesAtMostOneBuy(s, t, rows, symbol, spot, step, expiry, replies);
      }
    }
  }

  /** `open_leg_buy` places at most one order, a buy for 75, which is the bought leg's
      instrument when the purchase goes through. */
  lemma OpenLegPlacesAtMostOneBuy(s: State, t: string, rows: seq<Row>, symbol: string, spot: int, step: int,
                                  expiry: Date, replies: seq<BrokerReply>)
    ensures var o := OpenLeg(s, t, rows, symbol, spot, step, expiry, replies);
      && |o.orders| <= 1
      && (forall i :: 0 <= i < |o.orders| ==> o.orders[i].side == Buy && o.orders[i].quantity == OrderQuantity)
      && (o.response.Bought? ==> o.orders == [BuyOrder(o.response.leg.securityId)])
  {
  }

  /** An alert is ignored as a duplicate exactly when it carries a signal and a spot and its
      alert id is already in the history. */
  lemma DuplicateExactlyWhenSeen(s: State, a: Alert, rows: seq<Row>, step: int, today: Date,
                                 replies: seq<BrokerReply>)
    ensures Process(s, a, rows, step, today, replies).response == DuplicateAlertIgnored
      <==> a.signal.Some? && a.signal.value != [] && !a.spot.SpotMissing?
           && a.alertId.Some? && a.alertId.value in s.processedAlertIds
  {
    RejectionsPlaceNoOrders(s, a, rows, step, today, replies);
  }

  /** Delivering a successfully handled alert again, whatever the table, the date and the
      broker then say, is ignored as a duplicate and changes nothing. */
  lemma ReplayIsIgnored(s: State, a: Alert, rows: seq<Row>, step: int, today: Date, replies: seq<BrokerReply>,
                        rows': seq<Row>, today': Date, replies': seq<BrokerReply>)
    requires Process(s, a, rows, step, today, replies).response.Succeeded()
    requires a.alertId.Some?
    ensures var after := Process(s, a, rows, step, today, replies).state;
      Process(after, a, rows', step, today', replies') == Outcome(DuplicateAlertIgnored, after, [])
  {
    var after := Process(s, a, rows, step, today, replies).state;
    ProcessChangesStateOnlyOnSuccess(s, a, rows, step, today, replies);
    assert Precheck(s, a).None?;
    SeenAlertIsIgnored(after, a, rows', step, today', replies');
  }

  lemma SeenAlertIsIgnored(s: State, a: Alert, rows: seq<Row>, step: int, today: Date, replies: seq<BrokerReply>)
    requires a.signal.Some? && a.signal.value != [] && !a.spot.SpotMissing?
    requires a.alertId.Some? && a.alertId.value in s.processedAlertIds
    ensures Process(s, a, rows, step, today, replies) == Outcome(DuplicateAlertIgnored, s, [])
  {
  }

  /** The history never grows beyond its limit. */
  lemma HistoryStaysBounded(s: State, a: Alert, rows: seq<Row>, step: int, today: Date,
                            replies: seq<BrokerReply>)
    requires |s.processedAlertIds| <= AlertHistoryLimit
    ensures |Process(s, a, rows, step, today, replies).state.processedAlertIds| <= AlertHistoryLimit
  {
    ProcessChangesStateOnlyOnSuccess(s, a, rows, step, today, replies);
  }

  // ---------------------------------------------------------------------------------------
  // The signals

  /** A bought leg comes from "smart buy" (a call) or "smart sell" (a put); its strike is
      the one `ItmStrike` picks for the spot, its expiry the one looked up, and it is the
      instrument of the FIRST table row that passes every filter, with that row's lot
      quantity. */
  predicate BoughtAsSignalled(kind: Kind, rows: seq<Row>, symbol: string, spot: int, step: int, expiry: Date,
                              o: Outcome)
    requires o.response.Bought?
  {
    var leg := o.response.leg;
    var found := FirstOptionRow(rows, symbol, Some(expiry), Some(leg.strike), leg.optionType);
    && ((kind == SmartBuy && leg.optionType == "CE") || (kind == SmartSell && leg.optionType == "PE"))
    && step != 0 && leg.strike == ItmStrike(spot, step, leg.optionType)
    && leg.expiry == expiry
    && found.Success? && found.value.Some?
    && found.value.value in rows && found.value.value.underlyingSymbol.Some?
    && PassesFilters(found.value.value, symbol, Some(expiry), Some(leg.strike), leg.optionType)
    && found.value.value.securityId == leg.securityId && leg.quantity == QuantityFor(found.value.value, 1)
  }

  lemma DispatchBuysAsSignalled(s: State, kind: Kind, rows: seq<Row>, symbol: string, spot: int, step: int,
                                expiry: Date, replies: seq<BrokerReply>)
    requires Dispatch(s, kind, rows, symbol, spot, step, expiry, replies).response.Bought?
    ensures BoughtAsSignalled(kind, rows, symbol, spot, step, expiry, Dispatch(s, kind, rows, symbol, spot, step, expiry, replies))
  {
    var t, opposite := if kind.SmartBuy? then "CE" else "PE", if kind.SmartBuy? then "PE" else "CE";
    var rest := if s.openLeg.Some? && s.openLeg.value.optionType == opposite then Drop(replies, 1) else replies;
    var o := OpenLeg(s, t, rows, symbol, spot, step, expiry, rest);
    assert o.response == Dispatch(s, kind, rows, symbol, spot, step, expiry, replies).response;
    FirstOptionRowIsSound(rows, symbol, Some(expiry), Some(ItmStrike(spot, step, t)), t);
  }

  /** The converse: with a non-zero step, a row found for the chosen strike and a broker that
      accepts the order, `open_leg_buy` buys that row's instrument and saves it as the open
      leg. */
  lemma OpenLegBuysTheFirstRow(s: State, t: string, rows: seq<Row>, symbol: string, spot: int, step: int,
                               expiry: Date, replies: seq<BrokerReply>, row: Row)
    requires step != 0
    requires FirstOptionRow(rows, symbol, Some(expiry), Some(ItmStrike(spot, step, t)), t) == Success(Some(row))
    requires ReplyAt(replies, 0).Placed?
    ensures var leg := Leg(t, ItmStrike(spot, step, t), expiry, row.securityId, QuantityFor(row, 1), ReplyAt(replies, 0).order);
      OpenLeg(s, t, rows, symbol, spot, step, expiry, replies)
        == Outcome(Bought(leg), s.(openLeg := Some(leg)), [BuyOrder(row.securityId)])
  {
  }

  /** What a purchase buys: the leg's type follows the signal, its strike is one step in the
      money (a multiple of a positive step, strictly below the spot by at most one step for
      a call, strictly above by at most one step for a put), and its expiry is the earliest
      expiry from today on among the rows of the symbol. */
  lemma BoughtLegIsOneStepInTheMoney(s: State, a: Alert, rows: seq<Row>, step: int, today: Date,
                                     replies: seq<BrokerReply>)
    requires Process(s, a, rows, step, today, replies).response.Bought?
    ensures Accepted(s, a, rows, today)
    ensures var o := Process(s, a, rows, step, today, replies);
      var leg := o.response.leg;
      && BoughtAsSignalled(a.kind, rows, a.symbol, a.spot.value, step, leg.expiry, o)
      && Some(leg.expiry) == EarliestExpiry(rows, a.symbol, today) && leg.expiry >= today
      && (step > 0 ==> leg.strike % step == 0)
      && (step > 0 && leg.optionType == "CE" ==> a.spot.value - step <= leg.strike < a.spot.value)
      && (step > 0 && leg.optionType == "PE" ==> a.spot.value < leg.strike <= a.spot.value + step)
  {
    var o := Process(s, a, rows, step, today, replies);
    assert Accepted(s, a, rows, today);
    var d := Dispatch(s, a.kind, rows, a.symbol, a.spot.value, step, Expiry(a, rows, today), replies);
    RememberKeepsResponseAndOrders(d, a.alertId);
    DispatchBuysAsSignalled(s, a.kind, rows, a.symbol, a.spot.value, step, Expiry(a, rows, today), replies);
    EarliestExpiryIsLeast(rows, a.symbol, today);
    if step > 0 {
      ItmStrikeBounds(a.spot.value, step, o.response.leg.optionType);
    }
  }

  /** "smart buy" and "smart sell" do buy: for an accepted alert with a non-zero step, when
      the sale of an opposite leg (if there is one) and the purchase are both accepted by the
      broker and a row is found for the chosen strike, the answer is the purchase of the
      first such row; it becomes the open leg, the id is recorded, and the orders are the
      sale, if any, then that one buy. */
  lemma AcceptedSignalBuys(s: State, a: Alert, rows: seq<Row>, step: int, today: Date,
                           replies: seq<BrokerReply>, row: Row)
    requires Accepted(s, a, rows, today)
    requires a.kind == SmartBuy || a.kind == SmartSell
    requires step != 0
    requires var t := if a.kind == SmartBuy then "CE" else "PE";
      FirstOptionRow(rows, a.symbol, Some(Expiry(a, rows, today)), Some(ItmStrike(a.spot.value, step, t)), t)
        == Success(Some(row))
    requires var opposite := if a.kind == SmartBuy then "PE" else "CE";
      var sells := s.openLeg.Some? && s.openLeg.value.optionType == opposite;
      ReplyAt(replies, 0).Placed? && (sells ==> ReplyAt(replies, 1).Placed?)
    ensures var t, opposite := if a.kind == SmartBuy then "CE" else "PE", if a.kind == SmartBuy then "PE" else "CE";
      var sells := s.openLeg.Some? && s.openLeg.value.optionType == opposite;
      var leg := Leg(t, ItmStrike(a.spot.value, step, t), Expiry(a, rows, today), row.securityId,
                     QuantityFor(row, 1), ReplyAt(replies, if sells then 1 else 0).order);
      var o := Process(s, a, rows, step, today, replies);
      && o.response == Bought(leg)
      && o.state == State(Some(leg), Recorded(s.processedAlertIds, a.alertId))
      && o.orders == (if sells then [SellOrder(s.openLeg.value)] else []) + [BuyOrder(row.securityId)]
  {
    var t, opposite := if a.kind == SmartBuy then "CE" else "PE", if a.kind == SmartBuy then "PE" else "CE";
    var sells := s.openLeg.Some? && s.openLeg.value.optionType == opposite;
    var expiry := Expiry(a, rows, today);
    var rest := if sells then Drop(replies, 1) else replies;
    assert ReplyAt(rest, 0) == ReplyAt(replies, if sells then 1 else 0);
    OpenLegBuysTheFirstRow(s, t, rows, a.symbol, a.spot.value, step, expiry, rest, row);
    var d := Dispatch(s, a.kind, rows, a.symbol, a.spot.value, step, expiry, replies);
    assert d.response.Bought?;
    AcceptedAlertIsDispatched(s, a, rows, step, today, replies);
  }

  /** "smart buy" and "smart sell" sell the open leg exactly when it is of the opposite type;
      an open leg of the same type is not sold, and a purchase then replaces it in the
      state. */
  lemma SwitchSellsOnlyTheOppositeLeg(s: State, a: Alert, rows: seq<Row>, step: int, today: Date,
                                      replies: seq<BrokerReply>)
    requires Accepted(s, a, rows, today)
    requires a.kind == SmartBuy || a.kind == SmartSell
    ensures var o := Process(s, a, rows, step, today, replies);
      var opposite := if a.kind == SmartBuy then "PE" else "CE";
      (o.orders != [] && o.orders[0].side == Sell) <==> (s.openLeg.Some? && s.openLeg.value.optionType == opposite)
  {
    var d := Dispatch(s, a.kind, rows, a.symbol, a.spot.value, step, Expiry(a, rows, today), replies);
    RememberKeepsResponseAndOrders(d, a.alertId);
    SwitchSellsFirstExactlyTheOppositeLeg(s, a.kind, rows, a.symbol, a.spot.value, step, Expiry(a, rows, today), replies);
  }

  lemma SwitchSellsFirstExactlyTheOppositeLeg(s: State, kind: Kind, rows: seq<Row>, symbol: string, spot: int,
                                              step: int, expiry: Date, replies: seq<BrokerReply>)
    requires kind == SmartBuy || kind == SmartSell
    ensures var o := Dispatch(s, kind, rows, symbol, spot, step, expiry, replies);
      var opposite := if kind == SmartBuy then "PE" else "CE";
      (o.orders != [] && o.orders[0].side == Sell) <==> (s.openLeg.Some? && s.openLeg.value.optionType == opposite)
  {
    var t := if kind == SmartBuy then "CE" else "PE";
    var o1 := OpenLeg(s, t, rows, symbol, spot, step, expiry, Drop(replies, 1));
    assert forall i :: 0 <= i < |o1.orders| ==> o1.orders[i].side == Buy;
    var o2 := OpenLeg(s, t, rows, symbol, spot, step, expiry, replies);
    assert forall i :: 0 <= i < |o2.orders| ==> o2.orders[i].side == Buy;
  }

  /** When the sale of the opposite leg goes through but the purchase that follows fails,
      the answer is an internal error and the persisted state still lists the leg that was
      sold: clearing it was never saved. */
  lemma SoldLegStaysRecordedWhenPurchaseFails(s: State, a: Alert, rows: seq<Row>, step: int, today: Date,
                                              replies: seq<BrokerReply>)
    requires Accepted(s, a, rows, today)
    requires a.kind == SmartBuy || a.kind == SmartSell
    requires s.openLeg.Some? && s.openLeg.value.optionType == (if a.kind == SmartBuy then "PE" else "CE")
    requires ReplyAt(replies, 0).Placed?
    requires var t := if a.kind == SmartBuy then "CE" else "PE";
      step == 0
      || var found := FirstOptionRow(rows, a.symbol, Some(Expiry(a, rows, today)), Some(ItmStrike(a.spot.value, step, t)), t);
         found.Failure? || found.value.None? || ReplyAt(replies, 1).Failed?
    ensures var o := Process(s, a, rows, step, today, replies);
      o.response.InternalError? && o.state == s && o.orders[0] == SellOrder(s.openLeg.value)
  {
    AcceptedSignalFails(s, a, rows, step, today, replies);
  }

  /** The failures of "smart buy" and "smart sell": a refused sale of the opposite leg, a zero
      strike step, an unreadable table, no instrument for the chosen strike, or a refused
      purchase each end in the handler's internal error. The state file is left as it was,
      the id is not recorded, and the orders are those placed up to the failure. */
  lemma AcceptedSignalFails(s: State, a: Alert, rows: seq<Row>, step: int, today: Date,
                            replies: seq<BrokerReply>)
    requires Accepted(s, a, rows, today)
    requires a.kind == SmartBuy || a.kind == SmartSell
    ensures var t, opposite := if a.kind == SmartBuy then "CE" else "PE", if a.kind == SmartBuy then "PE" else "CE";
      var sells := s.openLeg.Some? && s.openLeg.value.optionType == opposite;
      var sale := if sells then [SellOrder(s.openLeg.value)] else [];
      var o := Process(s, a, rows, step, today, replies);
      && (sells && ReplyAt(replies, 0).Failed? ==>
            o == Outcome(InternalError(BrokerFailed(ReplyAt(replies, 0).reason)), s, sale))
      && ((!sells || ReplyAt(replies, 0).Placed?) && step == 0 ==>
            o == Outcome(InternalError(StrikeStepZero), s, sale))
      && ((!sells || ReplyAt(replies, 0).Placed?) && step != 0 ==>
            var strike := ItmStrike(a.spot.value, step, t);
            var found := FirstOptionRow(rows, a.symbol, Some(Expiry(a, rows, today)), Some(strike), t);
            && (found.Failure? ==> o == Outcome(InternalError(CatalogRowUnreadable), s, sale))
            && (found == Success(None) ==>
                  o == Outcome(InternalError(InstrumentNotFound(a.symbol, t, strike, Expiry(a, rows, today))), s, sale))
            && (found.Success? && found.value.Some? && ReplyAt(replies, if sells then 1 else 0).Failed? ==>
                  o == Outcome(InternalError(BrokerFailed(ReplyAt(replies, if sells then 1 else 0).reason)), s,
                               sale + [BuyOrder(found.value.value.securityId)])))
  {
    var opposite := if a.kind == SmartBuy then "PE" else "CE";
    var sells := s.openLeg.Some? && s.openLeg.value.optionType == opposite;
    var rest := if sells then Drop(replies, 1) else replies;
    assert ReplyAt(rest, 0) == ReplyAt(replies, if sells then 1 else 0);
    AcceptedAlertIsDispatched(s, a, rows, step, today, replies);
  }

  /** "book profit" with no open leg answers so and places nothing; with an open leg it
      sells that leg, and clears it when the sale goes through. */
  lemma BookProfitSellsTheOpenLeg(s: State, a: Alert, rows: seq<Row>, step: int, today: Date,
                                  replies: seq<BrokerReply>)
    requires Accepted(s, a, rows, today)
    requires a.kind == BookProfit
    ensures var o := Process(s, a, rows, step, today, replies);
      && (s.openLeg.None? ==> o == Outcome(NoOpenLeg, s.(processedAlertIds := Recorded(s.processedAlertIds, a.alertId)), []))
      && (s.openLeg.Some? ==> o.orders == [SellOrder(s.openLeg.value)])
      && (s.openLeg.Some? && ReplyAt(replies, 0).Placed? ==>
            o.response == ClosedLeg(ReplyAt(replies, 0).order)
            && o.state == State(None, Recorded(s.processedAlertIds, a.alertId)))
      && (s.openLeg.Some? && ReplyAt(replies, 0).Failed? ==>
            o.response == InternalError(BrokerFailed(ReplyAt(replies, 0).reason)) && o.state == s)
  {
  }

  /** An unrecognised signal is answered as such, places nothing and is not recorded. */
  lemma UnknownSignalIsRejected(s: State, a: Alert, rows: seq<Row>, step: int, today: Date,
                                replies: seq<BrokerReply>)
    requires Accepted(s, a, rows, today)
    requires a.kind == Unrecognised
    ensures Process(s, a, rows, step, today, replies) == Outcome(UnknownSignal, s, [])
  {
  }
}
