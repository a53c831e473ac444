# Payment reconciliation: a Dafny model

This project models the payment core of a Next.js service that sells account
credit through the YunGouOS payment gateway. Three API handlers make up the core:

- `getPayCodeYungou` creates a payment. It authenticates the caller, asks the
  gateway for a QR-code URL and inserts a Pay record. The record holds a
  generated 20-character `orderId`, the caller's `userId`, and
  `price = amount * PRICE_SCALE`.
- `notify` receives the gateway's callback. It checks the signature and finds
  the Pay record whose `orderId` is the callback's `outTradeNo`. It rejects
  records that are no longer `NOTPAY`. On code `'1'` it moves the record to
  `SUCCESS` with an update guarded on the status being `NOTPAY`. Only when that update
  modified the record does it credit the owner's balance with `$inc` and push
  a commission record for the owner's inviter. If the credit throws, it writes
  `NOTPAY` back. On any other code it closes the record once more than 24 whole
  hours have passed since creation.
- `checkYungouPayResult` is the client's poll. It is a read-only lookup by
  `_id` that answers from the status.

Files and modules:

- `model.dfy`, module `PayModel`: the records (Pay orders, users, promotion
  records, the whole store as a value). It also holds the lookup by `orderId`,
  the hour difference that `dayjs` computes and the commission formula.
- `store.dfy`, module `PayStore`: class `Store`, whose fields are the Pay and
  User collections and the promotion log. Each method is one database call as
  the handlers issue it: `Pay.create`, the guarded `Pay.updateOne`,
  `Pay.findByIdAndUpdate`, the `$inc` and `pushPromotionRecord`.
- `notify.dfy`, module `Notify`: the ghost function `Reconcile` gives the
  handler's reply and new store. `HandleNotify` and `ProcessOrder` carry out
  the handler step by step on a `Store` and are proved equal to `Reconcile`.
  The lemmas state its promises, among them that any sequence of deliveries
  for one record credits at most once.
- `paycode.dfy`, module `PayCode`: `CreateOrder` and lemmas linking creation
  to polling and to notification.
- `checkresult.dfy`, module `CheckPayResult`: `CheckResult` as a function of
  the order map.
- `interleaving.dfy`, module `Interleaving`: duplicate `notify` handlers for
  one record running concurrently. Each database call is one atomic step, and
  a schedule picks which handler moves next. Under every schedule at most one
  `$inc` is applied.

Behaviour of the handlers worth knowing:

- `notify` answers a notification for a record that is already `SUCCESS` or
  `CLOSED` with code 500 and '订单已结算' (src/pages/api/user/notify.ts:41-43).
- `notify` writes no response on three paths: a guarded update that modified
  nothing, a credit that threw, and a close (src/pages/api/user/notify.ts:77-107).
- `notify` closes a record with an unconditional `findByIdAndUpdate`, and
  writes `NOTPAY` back after a failed credit with another one. Only the update
  to `SUCCESS` is guarded. When handlers for the same record run concurrently,
  either write can overwrite a status another handler has just set; see
  "## Findings".
- `notify` computes staleness as the whole-hour difference truncated toward
  zero and compares it with `> 24`, so a record closes only once 25 hours have
  passed (`StaleMeansTwentyFiveHours`).
- `checkYungouPayResult` checks only that the caller is authenticated, not
  that the caller owns the record.
- `getPayCodeYungou` does not set `status` or `createTime`. They come from
  schema defaults, which the model writes out as `NOTPAY` and the creation
  time.
- `getPayCodeYungou` gives the gateway `null` as `out_trade_no`, while
  `notify` looks records up by `orderId: outTradeNo`. A notification that
  echoes the request's reference finds no record (`EchoOfRequestFindsNoOrder`).
- `notify` passes the notification's fields straight to the signature check;
  it validates no field on its own.

## Model

| member | source | states |
|---|---|---|
| PayModel.Lookup | src/pages/api/user/notify.ts:35 | the lookup returns a record whose orderId equals the reference, and returns nothing exactly when no record matches |
| PayModel.LookupFindsTheMatch | src/pages/api/user/notify.ts:35 | with unique orderIds the lookup returns the one matching record |
| PayModel.StatusUpdateKeepsLookup | src/pages/api/user/notify.ts:68-76 | a status write keeps orderIds unique and leaves every lookup's result unchanged |
| PayModel.StaleMeansTwentyFiveHours | src/pages/api/user/notify.ts:61-62 | the guard "more than 24 whole hours" holds exactly when at least 25 hours have elapsed |
| PayModel.Commission | src/pages/api/user/notify.ts:89 | commission * 100 * PRICE_SCALE equals price * rate: the nominal price times the rate in percent |
| PayModel.CommissionExample | src/pages/api/user/notify.ts:89 | price 10000 at scale 100 and rate 5 gives a commission of 5 |
| PayStore.Store.Create | src/pages/api/user/getPayCodeYungou.ts:37-41 | inserts exactly one record under a fresh id; nothing else changes |
| PayStore.Store.UpdateStatusIf | src/pages/api/user/notify.ts:68-77 | modifiedCount is 1 exactly when the record has the expected status and the new one differs; only then is the status written |
| PayStore.Store.SetStatus | src/pages/api/user/notify.ts:98-100 | unconditional status overwrite of one record; an unknown id changes nothing |
| PayStore.Store.IncBalance | src/pages/api/user/notify.ts:79-81 | adds the amount to one user's balance; a throwing call changes nothing |
| PayStore.Store.PushPromotion | src/pages/api/user/notify.ts:84-90 | appends exactly the given record to the promotion log |
| Notify.NotifyResponse.HttpCode | src/pages/api/user/notify.ts:29-31 | a bad signature answers 400, every thrown error answers 500, and only the silent paths write no response |
| Notify.HandleNotify | src/pages/api/user/notify.ts:12-117 | the reply and the new store equal Reconcile of the old store; orderIds stay unique and well-formed |
| Notify.ProcessOrder | src/pages/api/user/notify.ts:41-110 | the status guard, owner lookup, guarded update, credit, commission push, revert and close give the store that Process describes |
| Notify.ProcessKeepsOrderIds | src/pages/api/user/notify.ts:64-110 | handling never adds, removes or renames a record, so unique orderIds and lookups are preserved |
| Notify.SignatureGate | src/pages/api/user/notify.ts:27-31 | the 400 answer happens exactly when the signature fails, and it changes no record and no balance |
| Notify.RejectionsChangeNothing | src/pages/api/user/notify.ts:35-52 | unknown orderId, a non-NOTPAY record and a missing owner each get their 500 error, and every error leaves the store unchanged |
| Notify.CreditOnlyThroughGuardedUpdate | src/pages/api/user/notify.ts:64-81 | 'SUCCESS' is answered exactly when the guarded update applies and the credit succeeds; the record is then SUCCESS and the owner's balance grew by exactly the price; otherwise no user and no promotion record changes |
| Notify.CommissionOnlyForInviter | src/pages/api/user/notify.ts:77-91 | a promotion record is pushed only on the credited path, and then exactly when the inviter exists, with userId = inviter, objUId = payer, type 'invite' and the commission amount |
| Notify.CreditFailureReverts | src/pages/api/user/notify.ts:97-101 | when the credit throws, the status is written back and the store ends exactly as it began |
| Notify.CloseOnlyWhenStale | src/pages/api/user/notify.ts:103-110 | with a failure code a NOTPAY record becomes CLOSED, and nothing else changes, when 25 hours or more have passed; otherwise the answer is '订单无效' and nothing changes |
| Notify.ClosedOnlyWhenStale | src/pages/api/user/notify.ts:103-107 | a notification makes a record CLOSED only with a failure code and only once 25 hours have passed |
| Notify.OnlyMatchedOrderAndOwnerChange | src/pages/api/user/notify.ts:68-107 | other records and other users are untouched; the matched record changes only its status and its owner changes only the balance; at most one promotion record is appended |
| Notify.SettledIsFinal | src/pages/api/user/notify.ts:41-43 | a SUCCESS or CLOSED record is never reprocessed, whatever the code, signature or time; a SUCCESS record polls as paid |
| Notify.CreditedOrderChecksAsPaid | src/pages/api/user/notify.ts:68-81 | after a credited notification, the poll for that record answers '支付成功' for any caller |
| Notify.NullReferenceFindsNoOrder | src/pages/api/user/notify.ts:35-39 | a null outTradeNo finds no record; the answer is a bad signature or '订单不存在', and nothing changes |
| Notify.ReplaySettled | src/pages/api/user/notify.ts:41-43 | once a record has left NOTPAY, any further deliveries for it change nothing and credit nothing |
| Notify.RepeatedNotificationsCreditOnce | src/pages/api/user/notify.ts:41-101 | any sequence of deliveries for one record, with any signatures, codes, times and credit failures, credits at most once; the owner's balance grows by the price exactly when it does, and the record then ends SUCCESS |
| PayCode.CreateOrder | src/pages/api/user/getPayCodeYungou.ts:11-56 | failed authentication or a failed gateway call answers 500 and creates nothing; otherwise exactly one NOTPAY record is added for the caller, at price amount * PRICE_SCALE, with the generated 20-character orderId; the gateway is asked for amount * 100 with a null out_trade_no; the answer carries the new _id and the gateway's code URL |
| PayCode.CreatedOrderPollsUnpaid | src/pages/api/user/getPayCodeYungou.ts:37-41 | a freshly created record polls as '尚未支付' |
| PayCode.EchoOfRequestFindsNoOrder | src/pages/api/user/getPayCodeYungou.ts:20-34 | a notification that echoes the request's out_trade_no finds no record and changes nothing |
| PayCode.CreatedOrderCreditedOnce | src/pages/api/user/getPayCodeYungou.ts:37-41 | if the orderId were echoed, a valid success notification would credit the creator with amount * PRICE_SCALE, and a second delivery would change nothing |
| CheckPayResult.CheckResponse.Code | src/pages/api/user/checkYungouPayResult.ts:22-36 | only the paid answer is a success; every other answer has code 500 |
| CheckPayResult.CheckResult | src/pages/api/user/checkYungouPayResult.ts:8-38 | unauthenticated callers get the auth error; an unknown payId gets '订单不存在'; SUCCESS gets '支付成功'; NOTPAY or CLOSED gets '尚未支付'; the store is not changed |
| CheckPayResult.CheckIgnoresCallerAndOtherFields | src/pages/api/user/checkYungouPayResult.ts:12-31 | the answer depends only on whether the record exists and on its status, not on which authenticated user asks |
| Interleaving.Step | src/pages/api/user/notify.ts:41-107 | one database call by one handler: only that handler moves, and what each delivery brings stays fixed; the revert and the close are issued as written (unconditional) or guarded |
| Interleaving.HoldingCountUpdate | src/pages/api/user/notify.ts:68-101 | moving one handler into or out of the window between the update and the credit changes the count by one |
| Interleaving.StepInv | src/pages/api/user/notify.ts:68-107 | every step keeps the invariant: credits applied plus handlers in the window is at most one; it is zero while NOTPAY and one while SUCCESS; the balance reflects the credits |
| Interleaving.RunInv | src/pages/api/user/notify.ts:68-107 | the invariant holds after any schedule |
| Interleaving.AtMostOneCredit | src/pages/api/user/notify.ts:68-81 | under any interleaving of duplicate handlers at most one $inc is applied; the balance ends at its start or one price above |
| Interleaving.FinishedOutcome | src/pages/api/user/notify.ts:68-101 | once all handlers finish, SUCCESS means credited exactly once and NOTPAY means not credited |
| Interleaving.RunDuplicatesInv | src/pages/api/user/notify.ts:68-81 | with only success codes and no credit failure, no handler closes or reverts, and every handler past its update has seen SUCCESS |
| Interleaving.DuplicateSuccessCreditsExactlyOnce | src/pages/api/user/notify.ts:68-81 | concurrent duplicate success notifications whose credits succeed end with the record SUCCESS and exactly one credit of the price |
| Interleaving.CloseCanOverwriteCreditedPayment | src/pages/api/user/notify.ts:103-107 | a schedule exists in which the unguarded close overwrites a credited SUCCESS, leaving a CLOSED record whose owner was credited |
| Interleaving.RevertCanReopenClosedPayment | src/pages/api/user/notify.ts:97-107 | a schedule exists in which a failed credit's unguarded write-back of NOTPAY overwrites a concurrent CLOSED, reopening the closed record |
| Interleaving.GuardedStepInv | src/pages/api/user/notify.ts:68-107 | with the revert guarded on SUCCESS and the close on NOTPAY, every step keeps the invariant and also keeps a CLOSED record uncredited; a CLOSED or credited record keeps its status |
| Interleaving.GuardedRunKeepsTerminal | src/pages/api/user/notify.ts:68-107 | with the guarded writes, CLOSED stays CLOSED and a credited SUCCESS stays SUCCESS for the rest of any schedule |
| Interleaving.GuardedTerminalStatusesFinal | src/pages/api/user/notify.ts:68-107 | with the guarded writes, from any reachable state a CLOSED record ends CLOSED and uncredited, and a credited record ends SUCCESS credited once |

## Findings

| source | as written | input that shows it | evidently intended | confidence | as-written member | corrected member |
|---|---|---|---|---|---|---|
| src/pages/api/user/notify.ts:103-107 | the close overwrites the status unconditionally | a failure notification for a stale record reads NOTPAY, a success notification then settles and credits it, and the close then writes CLOSED over SUCCESS | a credited payment stays SUCCESS; the close applies only to a record still NOTPAY, as the update to SUCCESS is guarded | medium, not executed | Interleaving.CloseCanOverwriteCreditedPayment | Interleaving.GuardedTerminalStatusesFinal |
| src/pages/api/user/notify.ts:97-100 | the write-back after a failed credit overwrites the status unconditionally | a success notification moves the record to SUCCESS, a concurrent failure notification closes it, and the first handler's credit throws and writes NOTPAY over CLOSED | a closed record stays CLOSED; the write-back undoes only the handler's own SUCCESS | medium, not executed | Interleaving.RevertCanReopenClosedPayment | Interleaving.GuardedTerminalStatusesFinal |

The at-most-one-credit results (`AtMostOneCredit`, `FinishedOutcome`,
`DuplicateSuccessCreditsExactlyOnce`) are proved for both forms of the writes.

## Left out

- The signature algorithm of `PaySignUtil.checkNotifySign` is not modelled. Its verdict is a boolean parameter.
- The clock (`dayjs()`) is the parameter `now` in milliseconds. `createTime` is a millisecond timestamp.
- `nanoid` is not modelled. Its output is a parameter that must be a 20-character string over `a-z0-9`, distinct from every stored `orderId`. A collision of generated ids is not modelled.
- Mongo's fresh `_id` is a parameter that must not be in use.
- `authToken` and `authUser` are an optional user id; None stands for a failed authentication.
- `WxPay.nativePayAsync` is a function parameter from the request to an optional code URL; None stands for a throw. The hard-coded merchant id and key are left out.
- `connectToDatabase`, `jsonRes` and `console.log` are not modelled. Responses are datatypes.
- Only one database failure is modelled: the credit step throwing. Failures of `findOne`, `updateOne`, `findById`, `Pay.create` or of the revert write are not modelled. Neither is the `CastError` a malformed `payId` raises; the poll answers it as an unknown record.
- The body of `pushPromotionRecord` is not modelled; a record is appended to a log. The call is not awaited, so its failure is outside the model.
- Amounts, prices and balances are integers, and the commission is exact real arithmetic. JS floating point is not modelled. Neither is `+amount` producing `NaN` or a fraction.
- A missing `outTradeNo` (undefined rather than `null`) is taken to match nothing, like `null`.
- Real concurrency and MongoDB atomicity are not modelled. The sequential handlers run one at a time. The `Interleaving` module models duplicate handlers for one record only, each database call as one atomic step. The signature check, the record and user lookups and the error replies are folded into the status-read step, because they change nothing.
- An inviter lookup that throws is not modelled. A missing inviter is modelled, and no commission is pushed for it.
- admin/src/Dashboard.tsx is not part of this model: it is the React dashboard.
- src/service/utils/yungoupay.ts is not part of this model: it is a wrapper around the gateway SDK that the handlers do not call.
- Notify.CreditFailureReverts, Notify.RepeatedNotificationsCreditOnce, PayStore.Store.IncBalance: a throw inside the success branch is modelled only as the `$inc` throwing before it writes anything. A `$inc` that commits and still reports failure is not modelled. Neither is a throw after it: reading `inviter.promotion.rate`, calling `pushPromotionRecord` or `jsonRes`. In each of those cases the `catch` writes NOTPAY back over a credited record, and a later delivery credits the owner again. At most one credit then no longer holds, so these lemmas are stated under the stronger assumption.
- Interleaving.AtMostOneCredit, Interleaving.FinishedOutcome: these rest on the same assumption; each handler's `creditFails` means the `$inc` wrote nothing.
