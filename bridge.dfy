/**
 * The running engine: the state file, the instrument table, the strike step and the broker
 * connection, with the `/webhook` handler as a method that loads and saves the state and
 * places orders one at a time (app/main.py:176-286). Each method is proved to do what the
 * functions of module `Webhook` say, reading the broker's answers from the broker's own
 * log of replies.
 */
module Service {
  import opened Wrappers
  import opened Text
  import opened Instruments
  import opened Strikes
  import opened Orders
  import opened AlertHistory
  import opened Webhook

  class Bridge {
    /** The contents of the state file. */
    var openLeg: Option<Leg>
    var processedAlertIds: seq<string>

    /** The instrument table, the strike step and the broker client, fixed at start-up. */
    const rows: seq<Row>
    const strikeStep: int
    const broker: Broker

    ghost predicate Valid()
      reads this, broker
    {
      broker.Valid()
    }

    /** What `load_state` reads back. */
    function Persisted(): State
      reads this
    {
      State(openLeg, processedAlertIds)
    }

    constructor (rows: seq<Row>, strikeStep: int, saved: State)
      ensures Valid() && fresh(broker)
      ensures this.rows == rows && this.strikeStep == strikeStep && Persisted() == saved
      ensures broker.orders == [] && broker.replies == []
    {
      this.rows := rows;
      this.strikeStep := strikeStep;
      broker := new Broker();
      openLeg := saved.openLeg;
      processedAlertIds := saved.processedAlertIds;
    }

    /** `save_state`: the file now holds `st`. */
    method Save(st: State)
      modifies this
      ensures Persisted() == st
    {
      openLeg := st.openLeg;
      processedAlertIds := st.processedAlertIds;
    }

    /** `close_leg`: a market sell of the leg's instrument. */
    method CloseLeg(leg: Leg) returns (reply: BrokerReply)
      requires Valid()
      modifies broker
      ensures Valid()
      ensures broker.orders == old(broker.orders) + [SellOrder(leg)]
      ensures broker.replies == old(broker.replies) + [reply]
    {
      reply := broker.PlaceOrder(OrderRequest(Sell, leg.securityId, OrderQuantity));
    }

    /** `open_leg_buy`: pick the strike, find the instrument, buy it, and save `state` with
        the new leg as the open one. */
    method OpenLegBuy(state: State, t: string, symbol: string, spot: int, expiry: Date)
      returns (result: Result<Leg, Fault>)
      requires Valid()
      modifies this, broker
      ensures Valid()
      ensures old(broker.replies) <= broker.replies && old(broker.orders) <= broker.orders
      ensures var o := OpenLeg(state, t, rows, symbol, spot, strikeStep, expiry, broker.replies[|old(broker.replies)|..]);
        && o.response == (if result.Success? then Bought(result.value) else InternalError(result.error))
        && o.orders == broker.orders[|old(broker.orders)|..]
        && Persisted() == (if result.Success? then o.state else old(Persisted()))
    {
      if strikeStep == 0 {
        return Failure(StrikeStepZero);
      }
      var strike := ItmStrike(spot, strikeStep, t);
      var found := FindOptionRow(rows, symbol, Some(expiry), Some(strike), t);
      if found.Failure? {
        return Failure(CatalogRowUnreadable);
      }
      if found.value.None? {
        return Failure(InstrumentNotFound(symbol, t, strike, expiry));
      }
      var row := found.value.value;
      var quantity := QuantityForRow(row, 1);
      var reply := broker.PlaceOrder(OrderRequest(Buy, row.securityId, OrderQuantity));
      ghost var replies := broker.replies[|old(broker.replies)|..];
      assert replies == [reply];
      if reply.Failed? {
        return Failure(BrokerFailed(reply.reason));
      }
      var leg := Leg(t, strike, expiry, row.securityId, quantity, reply.order);
      Save(state.(openLeg := Some(leg)));
      return Success(leg);
    }

    /** One branch of "smart buy" / "smart sell": sell an open leg of the `opposite` type,
        then open a leg of type `t`. */
    method Switch(t: string, opposite: string, symbol: string, spot: int, expiry: Date)
      returns (result: Result<Leg, Fault>)
      requires Valid()
      modifies this, broker
      ensures Valid()
      ensures old(broker.replies) <= broker.replies && old(broker.orders) <= broker.orders
      ensures SwitchTo(old(Persisted()), t, opposite, rows, symbol, spot, strikeStep, expiry,
                       broker.replies[|old(broker.replies)|..])
           == Outcome(if result.Success? then Bought(result.value) else InternalError(result.error),
                      Persisted(), broker.orders[|old(broker.orders)|..])
    {
      var state := Persisted();
      if state.openLeg.Some? && state.openLeg.value.optionType == opposite {
        var reply := CloseLeg(state.openLeg.value);
        if reply.Failed? {
          assert broker.replies[|old(broker.replies)|..] == [reply];
          return Failure(BrokerFailed(reply.reason));
        }
        ghost var before := broker.replies;
        state := state.(openLeg := None);
        result := OpenLegBuy(state, t, symbol, spot, expiry);
        assert broker.replies[|old(broker.replies)|..] == [reply] + broker.replies[|before|..];
        OpenLegIgnoresTheOpenLeg(old(Persisted()), state, t, rows, symbol, spot, strikeStep, expiry,
                                 broker.replies[|before|..]);
      } else {
        result := OpenLegBuy(state, t, symbol, spot, expiry);
      }
    }

    /** The signal branches of the handler's `try` block. The state that `Dispatch` leaves
        is the one saved. */
    method Signal(signal: string, symbol: string, spot: int, expiry: Date) returns (response: Response)
      requires Valid()
      modifies this, broker
      ensures Valid()
      ensures old(broker.replies) <= broker.replies && old(broker.orders) <= broker.orders
      ensures Dispatch(old(Persisted()), KindOf(signal), rows, symbol, spot, strikeStep, expiry,
                       broker.replies[|old(broker.replies)|..])
           == Outcome(response, Persisted(), broker.orders[|old(broker.orders)|..])
    {
      var kind := KindOf(signal);
      if kind == SmartBuy || kind == SmartSell {
        var result;
        if kind == SmartBuy {
          result := Switch("CE", "PE", symbol, spot, expiry);
        } else {
          result := Switch("PE", "CE", symbol, spot, expiry);
        }
        response := if result.Success? then Bought(result.value) else InternalError(result.error);
      } else if kind == BookProfit {
        response := Book();
      } else {
        response := UnknownSignal;
      }
    }

    /** "book profit": sell the open leg, if any, and save the state without it. */
    method Book() returns (response: Response)
      requires Valid()
      modifies this, broker
      ensures Valid()
      ensures old(broker.replies) <= broker.replies && old(broker.orders) <= broker.orders
      ensures BookOpenLeg(old(Persisted()), broker.replies[|old(broker.replies)|..])
           == Outcome(response, Persisted(), broker.orders[|old(broker.orders)|..])
    {
      var state := Persisted();
      if state.openLeg.None? {
        return NoOpenLeg;
      }
      var reply := CloseLeg(state.openLeg.value);
      assert broker.replies[|old(broker.replies)|..] == [reply];
      if reply.Failed? {
        return InternalError(BrokerFailed(reply.reason));
      }
      Save(state.(openLeg := None));
      response := ClosedLeg(reply.order);
    }

    /** The `try` block of the handler: act on the signal, then, if that went through,
        record the alert id. */
    method Trade(signal: string, alertId: Option<string>, symbol: string, spot: int, expiry: Date)
      returns (response: Response)
      requires Valid()
      modifies this, broker
      ensures Valid()
      ensures old(broker.replies) <= broker.replies && old(broker.orders) <= broker.orders
      ensures Remember(Dispatch(old(Persisted()), KindOf(signal), rows, symbol, spot, strikeStep, expiry,
                                broker.replies[|old(broker.replies)|..]), alertId)
           == Outcome(response, Persisted(), broker.orders[|old(broker.orders)|..])
    {
      response := Signal(signal, symbol, spot, expiry);
      if response.Succeeded() && alertId.Some? {
        var state := Persisted();
        Save(state.(processedAlertIds := RecordAlert(state.processedAlertIds, alertId.value)));
      }
    }

    /** The `/webhook` handler, from the request body to the answer. */
    method Webhook(req: Request, today: Date) returns (response: Response)
      requires Valid()
      modifies this, broker
      ensures Valid()
      ensures old(broker.replies) <= broker.replies && old(broker.orders) <= broker.orders
      ensures Handle(old(Persisted()), req, rows, strikeStep, today, broker.replies[|old(broker.replies)|..])
           == Outcome(response, Persisted(), broker.orders[|old(broker.orders)|..])
    {
      ghost var s, a := Persisted(), Parse(req);
      if req.signal.None? {
        return Crashed(SignalMissing);
      }
      var signal := Strip(req.signal.value);
      var symbol := SymbolOf(req);
      var alertId := AlertIdOf(req);
      assert a == Alert(Some(signal), KindOf(signal), symbol, req.spot, alertId);
      if signal == [] || req.spot.SpotMissing? {
        return MissingSignalOrSpot;
      }
      if alertId.Some? && alertId.value in processedAlertIds {
        return DuplicateAlertIgnored;
      }
      if req.spot.SpotNotNumeric? {
        return InvalidSpot;
      }
      assert Precheck(s, a).None?;
      var spot := req.spot.value;
      var nearest := FindNearestExpiry(rows, symbol, today);
      if nearest.Failure? {
        return Crashed(CatalogRowUnreadable);
      }
      if nearest.value.None? {
        return NoExpiryFound(symbol);
      }
      response := Trade(signal, alertId, symbol, spot, nearest.value.value);
      AcceptedAlertIsDispatched(s, a, rows, strikeStep, today, broker.replies[|old(broker.replies)|..]);
    }
  }

  /** Opening a leg does not look at the leg that was open before: the answer and the orders
      are the same, and a new leg is saved over it. */
  lemma OpenLegIgnoresTheOpenLeg(s: State, s': State, t: string, rows: seq<Row>, symbol: string, spot: int,
                                 step: int, expiry: Date, replies: seq<BrokerReply>)
    requires s.processedAlertIds == s'.processedAlertIds
    ensures var o, o' := OpenLeg(s, t, rows, symbol, spot, step, expiry, replies),
                         OpenLeg(s', t, rows, symbol, spot, step, expiry, replies);
      && o.response == o'.response && o.orders == o'.orders
      && (o.response.Bought? ==> o.state == o'.state)
  {
  }
}
