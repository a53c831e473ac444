/** The Mongo collections touched by the payment handlers, as one object whose
    fields the database calls update in place. Each method is one database
    call as the handlers issue it. */
module PayStore {
  import opened PayModel

  class Store {
    /** The Pay collection, keyed by `_id`. */
    var orders: map<PayId, Order>
    /** The User collection, keyed by `_id`. */
    var users: map<UserId, User>
    /** Every record handed to `pushPromotionRecord`, in order. */
    var promotions: seq<PromotionRecord>
    /** PRICE_SCALE. */
    const priceScale: Scale

    /** Every orderId was produced by the 20-character generator and no two
        records share one, so a lookup by orderId is unambiguous. */
    ghost predicate Valid()
      reads this
    {
      && OrderIdsUnique(orders)
      && forall k :: k in orders ==> IsNanoId(orders[k].orderId)
    }

    function State(): Db
      reads this
    {
      Db(orders, users, promotions)
    }

    /** An empty Pay collection beside the users registered elsewhere. */
    constructor (scale: Scale, registered: map<UserId, User>)
      ensures Valid()
      ensures priceScale == scale && State() == Db(map[], registered, [])
    {
      priceScale := scale;
      orders := map[];
      users := registered;
      promotions := [];
    }

    /** `Pay.create`: inserts one record under a fresh `_id`. */
    method Create(id: PayId, order: Order)
      requires id !in orders
      modifies this
      ensures orders == old(orders)[id := order]
      ensures users == old(users) && promotions == old(promotions)
    {
      orders := orders[id := order];
    }

    /** `Pay.updateOne` filtered on both the id and the expected status: the
        compare-and-set. The result is `modifiedCount`: 1 exactly when a record
        matched the filter and its status actually changed. */
    method UpdateStatusIf(id: PayId, expected: PayStatus, next: PayStatus) returns (modifiedCount: nat)
      modifies this
      ensures modifiedCount == 1 <==> id in old(orders) && old(orders)[id].status == expected && expected != next
      ensures modifiedCount <= 1
      ensures orders == if modifiedCount == 1 then old(orders)[id := old(orders)[id].(status := next)] else old(orders)
      ensures users == old(users) && promotions == old(promotions)
    {
      if id in orders && orders[id].status == expected && expected != next {
        orders := orders[id := orders[id].(status := next)];
        modifiedCount := 1;
      } else {
        modifiedCount := 0;
      }
    }

    /** `Pay.findByIdAndUpdate` of the status: an unconditional overwrite;
        an unknown id changes nothing. */
    method SetStatus(id: PayId, status: PayStatus)
      modifies this
      ensures orders == if id in old(orders) then old(orders)[id := old(orders)[id].(status := status)] else old(orders)
      ensures users == old(users) && promotions == old(promotions)
    {
      if id in orders {
        orders := orders[id := orders[id].(status := status)];
      }
    }

    /** `User.findByIdAndUpdate` with an atomic increment of the balance. When the
        call throws (`fails`) nothing is written and `ok` is false; an unknown
        id changes nothing. */
    method IncBalance(uid: UserId, amount: int, fails: bool) returns (ok: bool)
      modifies this
      ensures ok == !fails
      ensures users == if ok && uid in old(users)
                       then old(users)[uid := old(users)[uid].(balance := old(users)[uid].balance + amount)]
                       else old(users)
      ensures orders == old(orders) && promotions == old(promotions)
    {
      ok := !fails;
      if ok && uid in users {
        users := users[uid := users[uid].(balance := users[uid].balance + amount)];
      }
    }

    /** `pushPromotionRecord`: appends to the promotion log. */
    method PushPromotion(rec: PromotionRecord)
      modifies this
      ensures promotions == old(promotions) + [rec]
      ensures orders == old(orders) && users == old(users)
    {
      promotions := promotions + [rec];
    }
  }
}
