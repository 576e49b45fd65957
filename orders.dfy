/**
 * The broker as the engine sees it: `dhan.place_order`, a call that either returns an order
 * reference or raises. Whether it succeeds is not specified, so every caller is verified for
 * both outcomes.
 */
module Orders {

  datatype Side = Buy | Sell

  /** The part of a `place_order` call that varies (exchange segment NSE_FNO, market order,
      intraday product and price 0 are the same on every call). */
  datatype OrderRequest = OrderRequest(side: Side, securityId: string, quantity: int)

  /** `Placed` is a call that returned (whatever the returned value says); `Failed` is a call
      that raised. */
  datatype BrokerReply = Placed(order: string) | Failed(reason: string)

  /** The quantity written into every order, for buys and sells alike. */
  const OrderQuantity: int := 75

  class Broker {
    /** Every order submitted so far, oldest first, and the broker's answer to each. */
    var orders: seq<OrderRequest>
    var replies: seq<BrokerReply>

    ghost predicate Valid()
      reads this
    {
      |orders| == |replies|
    }

    constructor ()
      ensures Valid() && orders == [] && replies == []
    {
      orders, replies := [], [];
    }

    /** Submits one order. The reply may be either kind; nothing about it is promised. */
    method PlaceOrder(request: OrderRequest) returns (reply: BrokerReply)
      requires Valid()
      modifies this
      ensures Valid()
      ensures orders == old(orders) + [request] && replies == old(replies) + [reply]
    {
      var accepted: bool :| true;
      reply := if accepted then Placed("order") else Failed("broker error");
      orders := orders + [request];
      replies := replies + [reply];
    }
  }
}
