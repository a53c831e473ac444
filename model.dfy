/** The records kept by the payment endpoints: Pay orders, users with their
    balance and inviter, and promotion (commission) records, plus the pure
    helpers the handlers share (order lookup by orderId, the hour difference
    of dayjs, the commission formula). */
module PayModel {

  datatype Option<+T> = None | Some(value: T)

  /** The Mongo `_id` of a Pay record, handed to the client as `payId`. */
  type PayId = string
  type UserId = string

  /** PRICE_SCALE: the factor between nominal currency units and the stored price.
      It is a positive constant defined outside the modelled files. */
  type Scale = s: int | s > 0 witness 1

  datatype PayStatus = NotPay | Success | Closed

  /** A Pay record. `status` and `createTime` are filled in by schema defaults. */
  datatype Order = Order(orderId: string, userId: UserId, price: int, status: PayStatus, createTime: int)

  /** The fields of a user record that the payment core reads or writes. */
  datatype User = User(balance: int, inviterId: Option<UserId>, promotionRate: real)

  /** What `pushPromotionRecord` is given; `kind` is the record's `type`. */
  datatype PromotionRecord = PromotionRecord(userId: UserId, objUId: UserId, kind: string, amount: real)

  /** The whole store: the Pay and User collections and the log of pushed promotion records. */
  datatype Db = Db(orders: map<PayId, Order>, users: map<UserId, User>, promotions: seq<PromotionRecord>)

  /** The generator behind `orderId`: 20 characters over this alphabet. */
  const NanoIdAlphabet: string := "abcdefghijklmnopqrstuvwxyz1234567890"
  const NanoIdLength: nat := 20

  predicate IsNanoId(s: string) {
    |s| == NanoIdLength && forall i :: 0 <= i < |s| ==> s[i] in NanoIdAlphabet
  }

  /** No two Pay records share an `orderId`. */
  ghost predicate OrderIdsUnique(orders: map<PayId, Order>) {
    forall a, b :: a in orders && b in orders && orders[a].orderId == orders[b].orderId ==> a == b
  }

  /** The `findOne` filter on orderId; a `null` reference (None)
      matches no record, since every record carries a string orderId. */
  predicate Matches(o: Order, ref: Option<string>) {
    ref == Some(o.orderId)
  }

  /** `Pay.findOne` by orderId. */
  ghost function Lookup(orders: map<PayId, Order>, ref: Option<string>): (r: Option<PayId>)
    ensures r.Some? ==> r.value in orders && Matches(orders[r.value], ref)
    ensures r.None? <==> forall k :: k in orders ==> !Matches(orders[k], ref)
  {
    if exists k :: k in orders && Matches(orders[k], ref) then
      var k :| k in orders && Matches(orders[k], ref); Some(k)
    else
      None
  }

  /** With unique orderIds, the lookup finds exactly the one record that matches. */
  lemma LookupFindsTheMatch(orders: map<PayId, Order>, ref: Option<string>, k: PayId)
    requires OrderIdsUnique(orders)
    requires k in orders && Matches(orders[k], ref)
    ensures Lookup(orders, ref) == Some(k)
  {
  }

  /** Changing only the statuses of existing records preserves unique orderIds
      and what each lookup finds. */
  lemma StatusUpdateKeepsLookup(orders: map<PayId, Order>, k: PayId, s: PayStatus, ref: Option<string>)
    requires OrderIdsUnique(orders) && k in orders
    ensures OrderIdsUnique(orders[k := orders[k].(status := s)])
    ensures Lookup(orders[k := orders[k].(status := s)], ref) == Lookup(orders, ref)
  {
    var orders' := orders[k := orders[k].(status := s)];
    assert forall j :: j in orders' ==> orders'[j].orderId == orders[j].orderId;
    if r :| r in orders && Matches(orders[r], ref) {
      LookupFindsTheMatch(orders, ref, r);
      LookupFindsTheMatch(orders', ref, r);
    }
  }

  const MsPerHour: int := 3_600_000

  /** The `dayjs` difference in hours: the difference in milliseconds,
      divided by an hour and truncated toward zero. */
  function DiffInHours(now: int, created: int): (hours: int) {
    var d := now - created;
    if d >= 0 then d / MsPerHour else -((-d) / MsPerHour)
  }

  /** The guard of the closing branch: more than 24 whole hours. */
  predicate Stale(now: int, created: int) {
    DiffInHours(now, created) > 24
  }

  /** More than 24 whole hours means at least 25 hours have elapsed: an order
      that is 24.9 hours old is not yet closed. */
  lemma StaleMeansTwentyFiveHours(now: int, created: int)
    ensures Stale(now, created) <==> now - created >= 25 * MsPerHour
  {
  }

  /** The commission amount: the price converted back to nominal units, times
      the inviter's rate in percent. Exact arithmetic, not JS floating point. */
  function Commission(price: int, scale: Scale, rate: real): (amount: real)
    ensures amount * (100 as real) * (scale as real) == (price as real) * rate
  {
    (price as real / scale as real) * rate * 0.01
  }

  /** A price of 10000 at scale 100 and a rate of 5 pays 5 (100 * 5 * 0.01). */
  lemma CommissionExample()
    ensures Commission(10000, 100, 5.0) == 5.0
  {
  }
}
