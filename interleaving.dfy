/** Several `notify` handlers for the same Pay record running at once. Each
    database call the handler makes about that record or its owner is one
    atomic step: the status read of the guard, the guarded update to SUCCESS,
    the `$inc` of the balance, the write-back to NOTPAY after a failed credit,
    and the write of CLOSED. A schedule says which handler takes the next step.
    The signature check, the lookups and the error replies change nothing and
    are folded into the read step. */
module Interleaving {
  import opened PayModel

  /** What one delivery brings: a success code, a record older than 24 whole
      hours when its failure code is handled, and whether its `$inc` throws. */
  datatype Handler = Handler(paid: bool, stale: bool, creditFails: bool)

  /** Where a handler is: before the status read, waiting to issue the guarded
      update, between the update and the credit, about to write NOTPAY back,
      about to write CLOSED, or finished. */
  datatype Pc = Start | AwaitUpdate | Crediting | Reverting | AwaitClose | Done

  datatype Proc = Proc(h: Handler, pc: Pc)

  /** How the two status writes after the guarded update are issued: as the
      handler issues them (unconditional overwrites), or guarded like the update
      to SUCCESS (the write-back of NOTPAY only over SUCCESS, the write of CLOSED
      only over NOTPAY). */
  datatype Writes = AsWritten | Guarded

  /** The record's status, its owner's balance, how many `$inc` calls have
      been applied for it, and the handlers. */
  datatype Sys = Sys(status: PayStatus, balance: int, credits: nat, procs: seq<Proc>)

  function Init(hs: seq<Handler>, balance: int): (s: Sys)
    ensures |s.procs| == |hs|
    ensures forall i :: 0 <= i < |hs| ==> s.procs[i] == Proc(hs[i], Start)
  {
    Sys(NotPay, balance, 0, seq(|hs|, i requires 0 <= i < |hs| => Proc(hs[i], Start)))
  }

  /** Handler `i` takes one step on a record priced `price`. Only that
      handler moves; what each delivery brings never changes. */
  function Step(s: Sys, i: nat, price: int, w: Writes): (s': Sys)
    ensures |s'.procs| == |s.procs|
    ensures forall j :: 0 <= j < |s.procs| ==> s'.procs[j].h == s.procs[j].h
    ensures forall j :: 0 <= j < |s.procs| && j != i ==> s'.procs[j] == s.procs[j]
  {
    if i >= |s.procs| then s
    else
      var p := s.procs[i];
      var moveTo := (pc: Pc) => s.procs[i := p.(pc := pc)];
      match p.pc
      case Start =>
        // the status guard, then the choice between the success and the close branch
        var next := if s.status != NotPay then Done
                    else if p.h.paid then AwaitUpdate
                    else if p.h.stale then AwaitClose
                    else Done;
        s.(procs := moveTo(next))
      case AwaitUpdate =>
        // the update to SUCCESS, guarded on NOTPAY
        if s.status == NotPay then s.(status := Success, procs := moveTo(Crediting))
        else s.(procs := moveTo(Done))
      case Crediting =>
        // the increment of the owner's balance by the price
        if p.h.creditFails then s.(procs := moveTo(Reverting))
        else s.(balance := s.balance + price, credits := s.credits + 1, procs := moveTo(Done))
      case Reverting =>
        // the write-back of NOTPAY
        if w == AsWritten || s.status == Success then s.(status := NotPay, procs := moveTo(Done))
        else s.(procs := moveTo(Done))
      case AwaitClose =>
        // the write of CLOSED
        if w == AsWritten || s.status == NotPay then s.(status := Closed, procs := moveTo(Done))
        else s.(procs := moveTo(Done))
      case Done => s
  }

  function Run(s: Sys, schedule: seq<nat>, price: int, w: Writes): (s': Sys)
    ensures |s'.procs| == |s.procs|
    decreases |schedule|
  {
    if schedule == [] then s else Run(Step(s, schedule[0], price, w), schedule[1..], price, w)
  }

  /** A handler whose guarded update applied and that has not yet credited or
      written NOTPAY back. */
  predicate Holding(p: Proc) {
    p.pc == Crediting || p.pc == Reverting
  }

  function HoldingCount(ps: seq<Proc>): (c: nat)
    ensures c <= |ps|
  {
    if ps == [] then 0 else (if Holding(ps[0]) then 1 else 0) + HoldingCount(ps[1..])
  }

  /** Moving one handler changes the count by what that handler was and is. */
  lemma {:induction false} HoldingCountUpdate(ps: seq<Proc>, i: nat, q: Proc)
    requires i < |ps|
    ensures HoldingCount(ps[i := q]) + (if Holding(ps[i]) then 1 else 0)
         == HoldingCount(ps) + (if Holding(q) then 1 else 0)
    decreases |ps|
  {
    if i > 0 {
      assert ps[i := q][1..] == ps[1..][i - 1 := q];
      HoldingCountUpdate(ps[1..], i - 1, q);
    } else {
      assert ps[i := q][1..] == ps[1..];
    }
  }

  /** A handler that holds makes the count positive. */
  lemma {:induction false} HoldingCountPositive(ps: seq<Proc>, i: nat)
    requires i < |ps| && Holding(ps[i])
    ensures HoldingCount(ps) >= 1
    decreases |ps|
  {
    if i > 0 {
      HoldingCountPositive(ps[1..], i - 1);
    }
  }

  /** The invariant that makes the guarded update work: the applied credits and
      the holding handlers together number at most one; none exist while the
      record is NOTPAY, and exactly one while it is SUCCESS; the balance is the
      starting balance plus the applied credits. */
  ghost predicate Inv(s: Sys, base: int, price: int) {
    var held := s.credits + HoldingCount(s.procs);
    && held <= 1
    && (s.status == NotPay ==> held == 0)
    && (s.status == Success ==> held == 1)
    && s.balance == base + (if s.credits == 1 then price else 0)
  }

  /** No holding handler, a zero count. */
  lemma {:induction false} HoldingCountZero(ps: seq<Proc>)
    requires forall i :: 0 <= i < |ps| ==> !Holding(ps[i])
    ensures HoldingCount(ps) == 0
    decreases |ps|
  {
    if ps != [] {
      assert forall i :: 0 <= i < |ps[1..]| ==> ps[1..][i] == ps[i + 1];
      HoldingCountZero(ps[1..]);
    }
  }

  lemma InitInv(hs: seq<Handler>, base: int, price: int)
    ensures Inv(Init(hs, base), base, price)
  {
    HoldingCountZero(Init(hs, base).procs);
  }

  lemma StepInv(s: Sys, i: nat, base: int, price: int, w: Writes)
    requires Inv(s, base, price)
    ensures Inv(Step(s, i, price, w), base, price)
  {
    if i < |s.procs| {
      var p := s.procs[i];
      var s' := Step(s, i, price, w);
      HoldingCountUpdate(s.procs, i, s'.procs[i]);
      if Holding(p) {
        HoldingCountPositive(s.procs, i);
      }
    }
  }

  lemma {:induction false} RunInv(s: Sys, schedule: seq<nat>, base: int, price: int, w: Writes)
    requires Inv(s, base, price)
    ensures Inv(Run(s, schedule, price, w), base, price)
    decreases |schedule|
  {
    if schedule != [] {
      StepInv(s, schedule[0], base, price, w);
      RunInv(Step(s, schedule[0], price, w), schedule[1..], base, price, w);
    }
  }

  /** However the handlers' database calls interleave, and whatever their codes,
      clocks and credit failures, at most one `$inc` is applied: the owner's
      balance ends at its start or exactly one price above it. This holds
      however the two later status writes are issued. */
  lemma AtMostOneCredit(hs: seq<Handler>, schedule: seq<nat>, base: int, price: int, w: Writes)
    ensures var s := Run(Init(hs, base), schedule, price, w);
      && s.credits <= 1
      && (s.balance == base || s.balance == base + price)
  {
    InitInv(hs, base, price);
    RunInv(Init(hs, base), schedule, base, price, w);
  }

  predicate Finished(s: Sys) {
    forall i :: 0 <= i < |s.procs| ==> s.procs[i].pc == Done
  }

  /** Once every handler has finished, SUCCESS means credited exactly once and
      NOTPAY means not credited. */
  lemma FinishedOutcome(hs: seq<Handler>, schedule: seq<nat>, base: int, price: int, w: Writes)
    requires Finished(Run(Init(hs, base), schedule, price, w))
    ensures var s := Run(Init(hs, base), schedule, price, w);
      && (s.status == Success ==> s.credits == 1 && s.balance == base + price)
      && (s.status == NotPay ==> s.credits == 0 && s.balance == base)
  {
    InitInv(hs, base, price);
    RunInv(Init(hs, base), schedule, base, price, w);
    HoldingCountZero(Run(Init(hs, base), schedule, price, w).procs);
  }

  /** Every handler brings a success code and no credit throws. */
  predicate AllPaidNoFailure(hs: seq<Handler>) {
    forall i :: 0 <= i < |hs| ==> hs[i].paid && !hs[i].creditFails
  }

  /** For duplicate success notifications whose credits succeed: SUCCESS is the
      only status left NOTPAY for, no handler ever closes or reverts, and a
      handler past its update has seen SUCCESS. */
  ghost predicate DuplicatesInv(s: Sys) {
    && s.status != Closed
    && forall i :: 0 <= i < |s.procs| ==>
         && s.procs[i].h.paid && !s.procs[i].h.creditFails
         && s.procs[i].pc != Reverting && s.procs[i].pc != AwaitClose
         && (s.procs[i].pc == Crediting || s.procs[i].pc == Done ==> s.status == Success)
  }

  lemma {:induction false} RunDuplicatesInv(s: Sys, schedule: seq<nat>, price: int, w: Writes)
    requires DuplicatesInv(s)
    ensures DuplicatesInv(Run(s, schedule, price, w))
    decreases |schedule|
  {
    if schedule != [] {
      var s' := Step(s, schedule[0], price, w);
      assert DuplicatesInv(s');
      RunDuplicatesInv(s', schedule[1..], price, w);
    }
  }

  /** Two or more concurrent deliveries of a success notification, all of whose
      credits succeed: once they have all finished, the record is SUCCESS and
      the owner was credited exactly once. */
  lemma DuplicateSuccessCreditsExactlyOnce(hs: seq<Handler>, schedule: seq<nat>, base: int, price: int, w: Writes)
    requires |hs| >= 1 && AllPaidNoFailure(hs)
    requires Finished(Run(Init(hs, base), schedule, price, w))
    ensures var s := Run(Init(hs, base), schedule, price, w);
      s.status == Success && s.credits == 1 && s.balance == base + price
  {
    RunDuplicatesInv(Init(hs, base), schedule, price, w);
    var s := Run(Init(hs, base), schedule, price, w);
    assert s.procs[0].pc == Done;
    FinishedOutcome(hs, schedule, base, price, w);
  }

  /** The handler's write of CLOSED is not guarded on NOTPAY. A failure
      notification for a stale record that reads NOTPAY before a concurrent
      success notification settles it overwrites SUCCESS afterwards: the record
      ends CLOSED although the owner was credited. */
  lemma CloseCanOverwriteCreditedPayment(base: int, price: int)
    ensures var hs := [Handler(true, false, false), Handler(false, true, false)];
      var s := Run(Init(hs, base), [1, 0, 0, 0, 1], price, AsWritten);
      Finished(s) && s.status == Closed && s.credits == 1 && s.balance == base + price
  {
  }

  /** The handler's write-back of NOTPAY is not guarded on SUCCESS either. A
      success notification whose credit throws, racing a failure notification
      for the same stale record, writes NOTPAY over CLOSED: the closed record
      is open for payment again. */
  lemma RevertCanReopenClosedPayment(base: int, price: int)
    ensures var hs := [Handler(true, false, true), Handler(false, true, false)];
      var mid := Run(Init(hs, base), [0, 1, 0, 1], price, AsWritten);
      var s := Run(mid, [0, 0], price, AsWritten);
      && mid.status == Closed
      && Finished(s) && s.status == NotPay && s.credits == 0 && s.balance == base
  {
  }

  /** With the guarded writes, on top of `Inv`: a CLOSED record has no credit
      applied for it and no handler inside the credit section. */
  ghost predicate GuardedInv(s: Sys, base: int, price: int) {
    && Inv(s, base, price)
    && (s.status == Closed ==> s.credits + HoldingCount(s.procs) == 0)
  }

  lemma GuardedStepInv(s: Sys, i: nat, base: int, price: int)
    requires GuardedInv(s, base, price)
    ensures GuardedInv(Step(s, i, price, Guarded), base, price)
    ensures s.status == Closed ==> Step(s, i, price, Guarded).status == Closed
    ensures s.credits == 1 ==> Step(s, i, price, Guarded).status == Success && Step(s, i, price, Guarded).credits == 1
  {
    StepInv(s, i, base, price, Guarded);
    if i < |s.procs| {
      var s' := Step(s, i, price, Guarded);
      HoldingCountUpdate(s.procs, i, s'.procs[i]);
      if Holding(s.procs[i]) {
        HoldingCountPositive(s.procs, i);
      }
    }
  }

  /** With the guarded writes, CLOSED and a credited SUCCESS are final: from a
      reachable state in which the record is CLOSED it stays CLOSED, and once
      the owner is credited the record stays SUCCESS, whatever the rest of the
      schedule. */
  lemma {:induction false} GuardedRunKeepsTerminal(s: Sys, schedule: seq<nat>, base: int, price: int)
    requires GuardedInv(s, base, price)
    ensures var s' := Run(s, schedule, price, Guarded);
      && GuardedInv(s', base, price)
      && (s.status == Closed ==> s'.status == Closed)
      && (s.credits == 1 ==> s'.status == Success && s'.credits == 1)
    decreases |schedule|
  {
    if schedule != [] {
      GuardedStepInv(s, schedule[0], base, price);
      GuardedRunKeepsTerminal(Step(s, schedule[0], price, Guarded), schedule[1..], base, price);
    }
  }

  /** The guarded writes repair both races: after any prefix of any schedule,
      a CLOSED record stays CLOSED and a credited record stays SUCCESS for the
      rest of it, and a record that is CLOSED was never credited. */
  lemma GuardedTerminalStatusesFinal(hs: seq<Handler>, prefix: seq<nat>, rest: seq<nat>, base: int, price: int)
    ensures var mid := Run(Init(hs, base), prefix, price, Guarded);
      var s := Run(mid, rest, price, Guarded);
      && (mid.status == Closed ==> s.status == Closed && s.credits == 0 && s.balance == base)
      && (mid.credits == 1 ==> s.status == Success && s.credits == 1 && s.balance == base + price)
  {
    InitInv(hs, base, price);
    HoldingCountZero(Init(hs, base).procs);
    var mid := Run(Init(hs, base), prefix, price, Guarded);
    GuardedRunKeepsTerminal(Init(hs, base), prefix, base, price);
    GuardedRunKeepsTerminal(mid, rest, base, price);
  }
}
