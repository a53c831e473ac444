/** Requesting a payment code: `getPayCodeYungou`. Authenticates, asks the
    gateway for a QR code, then inserts one NOTPAY Pay record priced in the
    internal scaled unit and answers with its `_id` and the code URL. */
module PayCode {
  import opened PayModel
  import opened PayStore
  import opened CheckPayResult
  import Notify

  /** The arguments of `WxPay.nativePayAsync` that the model keeps: the
      out_trade_no, the total fee and the description. The merchant id and key
      are constants of the deployment. */
  datatype GatewayRequest = GatewayRequest(outTradeNo: Option<string>, totalFee: int, body: string)

  /** The request as the handler builds it: out_trade_no `null`, the amount in
      hundredths, description '充值'. */
  function RequestFor(amount: int): (req: GatewayRequest) {
    GatewayRequest(None, amount * 100, "充值")
  }

  datatype PayCodeError = Unauthorized | GatewayFailed

  /** `{ data: { payId, codeUrl } }`, or code 500 with the error. */
  datatype PayCodeResponse = CodeIssued(payId: PayId, codeUrl: string) | Failed(error: PayCodeError)

  /** The record `Pay.create` stores: the caller's id, the scaled price and the
      generated orderId, with the schema defaults NOTPAY and the creation time. */
  function NewOrder(userId: UserId, amount: int, orderId: string, now: int, scale: Scale): (o: Order) {
    Order(orderId, userId, amount * scale, NotPay, now)
  }

  /** `auth` is what `authToken` resolves (None when it rejects), `amount` the
      parsed query parameter (absent means 0), `newOrderId` the generator's
      output, `newPayId` the `_id` Mongo assigns, `now` the creation time and
      `gateway` the answer of the payment gateway (None when the call throws). */
  method CreateOrder(store: Store, auth: Option<UserId>, amount: Option<int>, newPayId: PayId, newOrderId: string,
                     now: int, gateway: GatewayRequest -> Option<string>)
    returns (resp: PayCodeResponse)
    requires store.Valid()
    requires IsNanoId(newOrderId)
    requires newPayId !in store.orders
    requires forall k :: k in store.orders ==> store.orders[k].orderId != newOrderId
    modifies store
    ensures store.Valid()
    ensures store.users == old(store.users) && store.promotions == old(store.promotions)
    ensures var a := if amount.Some? then amount.value else 0;
      var reply := gateway(GatewayRequest(None, a * 100, "充值"));
      if auth.Some? && reply.Some? then
        && resp == CodeIssued(newPayId, reply.value)
        && store.orders == old(store.orders)[newPayId := Order(newOrderId, auth.value, a * store.priceScale, NotPay, now)]
      else
        && resp == Failed(if auth.None? then Unauthorized else GatewayFailed)
        && store.orders == old(store.orders)
  {
    var a := if amount.Some? then amount.value else 0;
    if auth.None? {
      return Failed(Unauthorized);
    }
    var userId := auth.value;
    var id := newOrderId;
    var codeUrl := gateway(RequestFor(a));
    if codeUrl.None? {
      return Failed(GatewayFailed);
    }
    store.Create(newPayId, NewOrder(userId, a, id, now, store.priceScale));
    resp := CodeIssued(newPayId, codeUrl.value);
  }

  /** A freshly created record polls as not yet paid, for any caller. */
  lemma CreatedOrderPollsUnpaid(orders: map<PayId, Order>, payId: PayId, userId: UserId, amount: int,
                                orderId: string, now: int, scale: Scale, caller: UserId)
    ensures CheckResult(orders[payId := NewOrder(userId, amount, orderId, now, scale)], Some(caller), payId) == NotYetPaid
  {
  }

  /** The gateway is never told the orderId, so a notification that echoes the
      request's out_trade_no finds no record and changes nothing. */
  lemma EchoOfRequestFindsNoOrder(db: Db, amount: int, n: Notify.Notification, signValid: bool, now: int,
                                  creditFails: bool, scale: Scale)
    requires n.outTradeNo == RequestFor(amount).outTradeNo
    ensures var (r, db') := Notify.Reconcile(db, n, signValid, now, creditFails, scale);
      (r == Notify.BadSignature || r == Notify.Failure(Notify.OrderNotFound)) && db' == db
  {
  }

  /** Had the gateway echoed the generated orderId, a valid success
      notification would credit the owner with amount * PRICE_SCALE and
      a second delivery of it would change nothing. */
  lemma CreatedOrderCreditedOnce(db: Db, payId: PayId, userId: UserId, amount: int, orderId: string,
                                 created: int, scale: Scale, n: Notify.Notification, now: int, d2: Notify.Delivery)
    requires OrderIdsUnique(db.orders)
    requires payId !in db.orders && forall k :: k in db.orders ==> db.orders[k].orderId != orderId
    requires userId in db.users
    requires n.outTradeNo == Some(orderId) && n.code == "1" && d2.n.outTradeNo == Some(orderId)
    ensures var db1 := db.(orders := db.orders[payId := NewOrder(userId, amount, orderId, created, scale)]);
      var (r, db2) := Notify.Reconcile(db1, n, true, now, false, scale);
      && r == Notify.Acknowledged
      && db2.orders[payId].status == Success
      && db2.users[userId].balance == db.users[userId].balance + amount * scale
      && Notify.Reconcile(db2, d2.n, d2.signValid, d2.now, d2.creditFails, scale).1 == db2
  {
  }
}
