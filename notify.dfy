/** The gateway's payment notification: `notify` handler. Signature gate,
    lookup by the echoed orderId, status guard, compare-and-set to SUCCESS
    with a balance credit and an optional commission record, a compensating
    revert when the credit throws, and the close of stale unpaid orders. */
module Notify {
  import opened PayModel
  import opened PayStore
  import opened CheckPayResult

  /** The body fields of the notification. `outTradeNo` None stands for `null`. */
  datatype Notification = Notification(
    orderNo: string, outTradeNo: Option<string>, payNo: string,
    money: string, mchId: string, code: string, sign: string)

  /** The errors thrown inside the handler, each answered with code 500:
      '订单不存在', '订单已结算', '找不到用户', '订单无效'. */
  datatype NotifyError = OrderNotFound | OrderSettled | UserNotFound | OrderInvalid

  /** BadSignature: HTTP 400 'Invalid signature'. Failure: code 500.
      Acknowledged: code 200 'SUCCESS'. NoReply: the handler returns without
      writing a response. */
  datatype NotifyResponse = BadSignature | Failure(error: NotifyError) | Acknowledged | NoReply {
    function HttpCode(): (c: Option<int>)
      ensures c.None? <==> this == NoReply
      ensures c == Some(400) <==> this == BadSignature
      ensures c == Some(500) <==> this.Failure?
    {
      match this
      case BadSignature => Some(400)
      case Failure(_) => Some(500)
      case Acknowledged => Some(200)
      case NoReply => None
    }
  }

  /** The store after the success branch: status SUCCESS, the owner's balance
      increased by the price, and a commission record when the owner's inviter
      exists. */
  ghost function Settle(db: Db, payId: PayId, scale: Scale): (db': Db)
    requires payId in db.orders && db.orders[payId].userId in db.users
  {
    var o := db.orders[payId];
    var u := db.users[o.userId];
    var push :=
      if u.inviterId.Some? && u.inviterId.value in db.users
      then [PromotionRecord(u.inviterId.value, o.userId, "invite",
                            Commission(o.price, scale, db.users[u.inviterId.value].promotionRate))]
      else [];
    Db(db.orders[payId := o.(status := Success)],
       db.users[o.userId := u.(balance := u.balance + o.price)],
       db.promotions + push)
  }

  /** The handler from the status guard on, once the record `payId` is found. */
  ghost function Process(db: Db, payId: PayId, code: string, now: int, creditFails: bool, scale: Scale): (r: (NotifyResponse, Db))
    requires payId in db.orders
  {
    var o := db.orders[payId];
    if o.status != NotPay then (Failure(OrderSettled), db)
    else if o.userId !in db.users then (Failure(UserNotFound), db)
    else if code == "1" then
      if creditFails then (NoReply, db.(orders := db.orders[payId := o.(status := NotPay)]))
      else (Acknowledged, Settle(db, payId, scale))
    else if Stale(now, o.createTime) then (NoReply, db.(orders := db.orders[payId := o.(status := Closed)]))
    else (Failure(OrderInvalid), db)
  }

  /** The handler as a function of the store: the reply and the new store.
      `signValid` is the verdict of `PaySignUtil.checkNotifySign`, `now` the
      clock in milliseconds, `creditFails` whether the `$inc` call throws. */
  ghost function Reconcile(db: Db, n: Notification, signValid: bool, now: int, creditFails: bool, scale: Scale): (r: (NotifyResponse, Db))
  {
    if !signValid then (BadSignature, db)
    else match Lookup(db.orders, n.outTradeNo)
    case None => (Failure(OrderNotFound), db)
    case Some(payId) => Process(db, payId, n.code, now, creditFails, scale)
  }

  /** The handler: signature gate and lookup, then the database calls of
      `ProcessOrder`. */
  method HandleNotify(store: Store, n: Notification, signValid: bool, now: int, creditFails: bool)
    returns (resp: NotifyResponse)
    requires store.Valid()
    modifies store
    ensures store.Valid()
    ensures (resp, store.State()) == Reconcile(old(store.State()), n, signValid, now, creditFails, store.priceScale)
  {
    if !signValid {
      return BadSignature;
    }
    if !exists k :: k in store.orders && Matches(store.orders[k], n.outTradeNo) {
      assert Lookup(store.orders, n.outTradeNo).None?;
      return Failure(OrderNotFound);
    }
    var payId :| payId in store.orders && Matches(store.orders[payId], n.outTradeNo);
    LookupFindsTheMatch(store.orders, n.outTradeNo, payId);
    ghost var db := store.State();
    resp := ProcessOrder(store, payId, n.code, now, creditFails);
    ProcessKeepsOrderIds(db, payId, n.code, now, creditFails, store.priceScale);
  }

  /** The statements of the handler after the lookup, one database call at a time. */
  method ProcessOrder(store: Store, payId: PayId, code: string, now: int, creditFails: bool)
    returns (resp: NotifyResponse)
    requires payId in store.orders
    modifies store
    ensures (resp, store.State()) == Process(old(store.State()), payId, code, now, creditFails, store.priceScale)
  {
    var payOrder := store.orders[payId];
    if payOrder.status != NotPay {
      return Failure(OrderSettled);
    }
    var userId := payOrder.userId;
    if userId !in store.users {
      return Failure(UserNotFound);
    }
    var user := store.users[userId];
    var inviter: Option<User> := None;
    if user.inviterId.Some? && user.inviterId.value in store.users {
      inviter := Some(store.users[user.inviterId.value]);
    }
    var diffInHours := DiffInHours(now, payOrder.createTime);
    ghost var db := store.State();

    if code == "1" {
      var modifiedCount := store.UpdateStatusIf(payId, NotPay, Success);
      if modifiedCount == 1 {
        var ok := store.IncBalance(userId, payOrder.price, creditFails);
        if ok {
          if inviter.Some? {
            store.PushPromotion(PromotionRecord(user.inviterId.value, userId, "invite",
              Commission(payOrder.price, store.priceScale, inviter.value.promotionRate)));
          }
          resp := Acknowledged;
          assert store.State() == Settle(db, payId, store.priceScale);
        } else {
          store.SetStatus(payId, NotPay);
          resp := NoReply;
          assert store.State() == db.(orders := db.orders[payId := payOrder.(status := NotPay)]);
        }
      } else {
        resp := NoReply;
      }
    } else if diffInHours > 24 {
      store.SetStatus(payId, Closed);
      resp := NoReply;
      assert store.State() == db.(orders := db.orders[payId := payOrder.(status := Closed)]);
    } else {
      resp := Failure(OrderInvalid);
    }
  }

  /** Only statuses change: the records, their orderIds, and so unique and
      well-formed orderIds and every lookup, are as before. */
  lemma ProcessKeepsOrderIds(db: Db, payId: PayId, code: string, now: int, creditFails: bool, scale: Scale)
    requires payId in db.orders
    ensures var db' := Process(db, payId, code, now, creditFails, scale).1;
      && db'.orders.Keys == db.orders.Keys
      && (forall k :: k in db.orders ==> db'.orders[k].orderId == db.orders[k].orderId)
      && (OrderIdsUnique(db.orders) ==> OrderIdsUnique(db'.orders))
      && (forall ref :: OrderIdsUnique(db.orders) ==> Lookup(db'.orders, ref) == Lookup(db.orders, ref))
  {
  }

  // ---------------------------------------------------------------------
  // Properties of one notification

  /** Only a failed signature check answers 400, and it changes nothing. */
  lemma SignatureGate(db: Db, n: Notification, signValid: bool, now: int, creditFails: bool, scale: Scale)
    ensures var (r, db') := Reconcile(db, n, signValid, now, creditFails, scale);
      && (r == BadSignature <==> !signValid)
      && (r == BadSignature ==> db' == db)
  {
  }

  /** An unknown orderId, a record that is no longer NOTPAY and a missing owner
      are each answered with their error, and every error changes nothing. */
  lemma RejectionsChangeNothing(db: Db, n: Notification, signValid: bool, now: int, creditFails: bool, scale: Scale)
    ensures var (r, db') := Reconcile(db, n, signValid, now, creditFails, scale);
      var k := Lookup(db.orders, n.outTradeNo);
      && (signValid && k.None? ==> r == Failure(OrderNotFound))
      && (signValid && k.Some? && db.orders[k.value].status != NotPay ==> r == Failure(OrderSettled))
      && (signValid && k.Some? && db.orders[k.value].status == NotPay && db.orders[k.value].userId !in db.users
          ==> r == Failure(UserNotFound))
      && (r.Failure? ==> db' == db)
  {
  }

  /** The balance is credited exactly when the guarded update applies: a valid
      success notification for a NOTPAY record with an existing owner whose
      `$inc` does not throw. The credit is exactly the record's price; on every
      other path no user and no promotion record changes. */
  lemma CreditOnlyThroughGuardedUpdate(db: Db, n: Notification, signValid: bool, now: int, creditFails: bool, scale: Scale)
    ensures var (r, db') := Reconcile(db, n, signValid, now, creditFails, scale);
      var k := Lookup(db.orders, n.outTradeNo);
      && (r == Acknowledged <==>
            signValid && k.Some? && db.orders[k.value].status == NotPay
            && db.orders[k.value].userId in db.users && n.code == "1" && !creditFails)
      && (r == Acknowledged ==>
            var o := db.orders[k.value];
            && db'.orders[k.value].status == Success
            && o.userId in db'.users
            && db'.users[o.userId].balance == db.users[o.userId].balance + o.price)
      && (r != Acknowledged ==> db'.users == db.users && db'.promotions == db.promotions)
  {
  }

  /** A promotion record is pushed only on the credited path, and then exactly
      when the owner's inviter exists: it names the inviter as `userId`, the
      payer as `objUId`, type 'invite' and the commission on the price. */
  lemma CommissionOnlyForInviter(db: Db, n: Notification, signValid: bool, now: int, creditFails: bool, scale: Scale)
    ensures var (r, db') := Reconcile(db, n, signValid, now, creditFails, scale);
      var k := Lookup(db.orders, n.outTradeNo);
      && (db'.promotions != db.promotions ==> r == Acknowledged)
      && (r == Acknowledged ==>
            var o := db.orders[k.value];
            var u := db.users[o.userId];
            if u.inviterId.Some? && u.inviterId.value in db.users then
              db'.promotions == db.promotions +
                [PromotionRecord(u.inviterId.value, o.userId, "invite",
                                 Commission(o.price, scale, db.users[u.inviterId.value].promotionRate))]
            else
              db'.promotions == db.promotions)
  {
  }

  /** When the credit throws after the transition, the status is written back
      to NOTPAY: the store ends exactly as it began, unpaid and uncredited. */
  lemma CreditFailureReverts(db: Db, n: Notification, now: int, scale: Scale, k: PayId)
    requires Lookup(db.orders, n.outTradeNo) == Some(k)
    requires db.orders[k].status == NotPay && db.orders[k].userId in db.users && n.code == "1"
    ensures Reconcile(db, n, true, now, true, scale) == (NoReply, db)
  {
    assert db.orders[k := db.orders[k].(status := NotPay)] == db.orders;
  }

  /** A failure code closes a NOTPAY record only when more than 24 whole hours
      (25 hours or more) have passed since its creation; otherwise it answers
      '订单无效' and changes nothing. Nothing else is touched by the close. */
  lemma CloseOnlyWhenStale(db: Db, n: Notification, now: int, creditFails: bool, scale: Scale, k: PayId)
    requires Lookup(db.orders, n.outTradeNo) == Some(k)
    requires db.orders[k].status == NotPay && db.orders[k].userId in db.users && n.code != "1"
    ensures var (r, db') := Reconcile(db, n, true, now, creditFails, scale);
      && (now - db.orders[k].createTime >= 25 * MsPerHour ==>
            r == NoReply && db' == db.(orders := db.orders[k := db.orders[k].(status := Closed)]))
      && (now - db.orders[k].createTime < 25 * MsPerHour ==>
            r == Failure(OrderInvalid) && db' == db)
  {
  }

  /** A notification is the only way a record becomes CLOSED, and it needs a
      failure code and a stale record. */
  lemma ClosedOnlyWhenStale(db: Db, n: Notification, signValid: bool, now: int, creditFails: bool, scale: Scale, k: PayId)
    requires k in db.orders && db.orders[k].status != Closed
    ensures var db' := Reconcile(db, n, signValid, now, creditFails, scale).1;
      k in db'.orders && db'.orders[k].status == Closed ==>
        n.code != "1" && now - db.orders[k].createTime >= 25 * MsPerHour
  {
  }

  /** `after` differs from `before` at most in the status of record `k`, the balance
      of that record's owner, and one appended promotion record. */
  ghost predicate ChangesAtMost(before: Db, after: Db, k: PayId)
    requires k in before.orders
  {
    && after.orders.Keys == before.orders.Keys
    && (forall j :: j in before.orders && j != k ==> after.orders[j] == before.orders[j])
    && after.orders[k].(status := before.orders[k].status) == before.orders[k]
    && after.users.Keys == before.users.Keys
    && (forall u :: u in before.users && u != before.orders[k].userId ==> after.users[u] == before.users[u])
    && (forall u :: u in before.users ==> after.users[u].(balance := before.users[u].balance) == before.users[u])
    && before.promotions <= after.promotions && |after.promotions| <= |before.promotions| + 1
  }

  /** Only the matched record's status, its owner's balance and the promotion
      log can change; no other record or user is touched. */
  lemma OnlyMatchedOrderAndOwnerChange(db: Db, n: Notification, signValid: bool, now: int, creditFails: bool, scale: Scale)
    ensures var db' := Reconcile(db, n, signValid, now, creditFails, scale).1;
      var k := Lookup(db.orders, n.outTradeNo);
      db' == db || (k.Some? && ChangesAtMost(db, db', k.value))
  {
  }

  /** SUCCESS and CLOSED are terminal: a notification for such a record changes
      nothing, whatever its code, signature or timing. */
  lemma SettledIsFinal(db: Db, n: Notification, signValid: bool, now: int, creditFails: bool, scale: Scale, k: PayId)
    requires Lookup(db.orders, n.outTradeNo) == Some(k)
    requires db.orders[k].status != NotPay
    ensures Reconcile(db, n, signValid, now, creditFails, scale).1 == db
    ensures db.orders[k].status == Success ==> CheckResult(db.orders, Some(db.orders[k].userId), k) == PaySuccess
  {
  }

  /** A credited notification leaves the record polling as paid, for any caller. */
  lemma CreditedOrderChecksAsPaid(db: Db, n: Notification, signValid: bool, now: int, creditFails: bool, scale: Scale, caller: UserId)
    requires Reconcile(db, n, signValid, now, creditFails, scale).0 == Acknowledged
    ensures var db' := Reconcile(db, n, signValid, now, creditFails, scale).1;
      CheckResult(db'.orders, Some(caller), Lookup(db.orders, n.outTradeNo).value) == PaySuccess
  {
  }

  /** A notification whose `outTradeNo` is `null`, as the gateway was given
      when the code was requested, finds no record and changes nothing. */
  lemma NullReferenceFindsNoOrder(db: Db, n: Notification, signValid: bool, now: int, creditFails: bool, scale: Scale)
    requires n.outTradeNo.None?
    ensures var (r, db') := Reconcile(db, n, signValid, now, creditFails, scale);
      (r == BadSignature || r == Failure(OrderNotFound)) && db' == db
  {
  }

  // ---------------------------------------------------------------------
  // Repeated notifications, handled one after another

  /** One delivery of a notification with the environment it meets. */
  datatype Delivery = Delivery(n: Notification, signValid: bool, now: int, creditFails: bool)

  /** Handles the deliveries in order; returns how many were credited
      (answered 'SUCCESS') and the final store. */
  ghost function Replay(db: Db, ds: seq<Delivery>, scale: Scale): (nat, Db)
    decreases |ds|
  {
    if ds == [] then (0, db)
    else
      var (r, db1) := Reconcile(db, ds[0].n, ds[0].signValid, ds[0].now, ds[0].creditFails, scale);
      var (credits, db2) := Replay(db1, ds[1..], scale);
      ((if r == Acknowledged then 1 else 0) + credits, db2)
  }

  ghost predicate AllFor(ds: seq<Delivery>, ref: Option<string>) {
    forall i :: 0 <= i < |ds| ==> ds[i].n.outTradeNo == ref
  }

  /** Once the record has left NOTPAY, further deliveries for it change nothing. */
  lemma {:induction false} ReplaySettled(db: Db, ds: seq<Delivery>, scale: Scale, k: PayId)
    requires OrderIdsUnique(db.orders)
    requires k in db.orders && db.orders[k].status != NotPay
    requires AllFor(ds, Some(db.orders[k].orderId))
    ensures Replay(db, ds, scale) == (0, db)
    decreases |ds|
  {
    if ds != [] {
      LookupFindsTheMatch(db.orders, ds[0].n.outTradeNo, k);
      assert AllFor(ds[1..], Some(db.orders[k].orderId)) by {
        forall i | 0 <= i < |ds[1..]| ensures ds[1..][i].n.outTradeNo == Some(db.orders[k].orderId) {
          assert ds[1..][i] == ds[i + 1];
        }
      }
      ReplaySettled(db, ds[1..], scale, k);
    }
  }

  /** Any sequence of deliveries for one record, with any signatures, codes,
      clocks and credit failures, credits its owner at most once, and by
      exactly the price when it does; the record then ends SUCCESS. */
  lemma {:induction false} RepeatedNotificationsCreditOnce(db: Db, ds: seq<Delivery>, scale: Scale, k: PayId)
    requires OrderIdsUnique(db.orders)
    requires k in db.orders
    requires AllFor(ds, Some(db.orders[k].orderId))
    ensures var (credits, db') := Replay(db, ds, scale);
      var o := db.orders[k];
      && credits <= 1
      && k in db'.orders
      && (credits == 1 ==> o.status == NotPay && db'.orders[k].status == Success)
      && (o.userId in db.users ==>
            o.userId in db'.users
            && db'.users[o.userId].balance == db.users[o.userId].balance + (if credits == 1 then o.price else 0))
    decreases |ds|
  {
    if ds != [] {
      var d := ds[0];
      var ref := Some(db.orders[k].orderId);
      LookupFindsTheMatch(db.orders, ref, k);
      var (r, db1) := Reconcile(db, d.n, d.signValid, d.now, d.creditFails, scale);
      ProcessKeepsOrderIds(db, k, d.n.code, d.now, d.creditFails, scale);
      assert AllFor(ds[1..], ref) by {
        forall i | 0 <= i < |ds[1..]| ensures ds[1..][i].n.outTradeNo == ref {
          assert ds[1..][i] == ds[i + 1];
        }
      }
      if db.orders[k].status == NotPay {
        // the compensating revert writes back the status the record had
        assert db.orders[k := db.orders[k].(status := NotPay)] == db.orders;
      }
      if db1 == db {
        RepeatedNotificationsCreditOnce(db, ds[1..], scale, k);
      } else {
        ReplaySettled(db1, ds[1..], scale, k);
      }
    }
  }
}
