/** The client's poll of a payment: `checkYungouPayResult`. It authenticates,
    looks the Pay record up by `_id` and answers from its status alone. */
module CheckPayResult {
  import opened PayModel

  /** The four answers: data '支付成功'; code 500 with '尚未支付'; code 500
      with the thrown '订单不存在'; code 500 with the authentication error. */
  datatype CheckResponse = PaySuccess | NotYetPaid | OrderMissing | Unauthenticated {
    function Code(): (c: int)
      ensures c == 200 <==> this == PaySuccess
      ensures c == 500 <==> this != PaySuccess
    {
      if PaySuccess? then 200 else 500
    }
  }

  /** `auth` is what `authUser` resolves (None when it throws); the lookup is
      `Pay.findById(payId)`. Being a function, it cannot change the store. */
  function CheckResult(orders: map<PayId, Order>, auth: Option<UserId>, payId: PayId): (r: CheckResponse)
    ensures r == Unauthenticated <==> auth.None?
    ensures r == OrderMissing <==> auth.Some? && payId !in orders
    ensures r == PaySuccess <==> auth.Some? && payId in orders && orders[payId].status == Success
    ensures r == NotYetPaid <==> auth.Some? && payId in orders && orders[payId].status != Success
  {
    match auth
    case None => Unauthenticated
    case Some(_) =>
      if payId !in orders then OrderMissing
      else if orders[payId].status == Success then PaySuccess
      else NotYetPaid
  }

  /** Ownership is not checked: any authenticated caller gets the same answer,
      and the answer depends only on whether the record exists and its status. */
  lemma CheckIgnoresCallerAndOtherFields(o1: map<PayId, Order>, o2: map<PayId, Order>, u1: UserId, u2: UserId, payId: PayId)
    requires (payId in o1) == (payId in o2)
    requires payId in o1 ==> o1[payId].status == o2[payId].status
    ensures CheckResult(o1, Some(u1), payId) == CheckResult(o2, Some(u2), payId)
  {
  }
}
