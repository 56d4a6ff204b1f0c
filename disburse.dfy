/** The disbursement queue (disburse.rs): a LIFO stack of pending transfers
    guarded by a single-flight boolean lock, a LIFO stack of failed transfers,
    and the deposit sub-account counter.

    The ledger transfer itself is an inter-canister call; each operation that
    makes one takes its outcome as a parameter, so every property below holds
    whatever the ledger answers. */
module Disburse {
  import opened Common
  import opened Decimal
  import opened Subaccounts

  /** Token amounts, tagged by currency. */
  datatype Amount = NDP(e8s: U64) | ICP(e8s: U64)

  /** `Display for Amount`: `NDP:<n>` or `ICP:<n>`. */
  function AmountText(a: Amount): (s: string)
    ensures |s| > 4 && s[..4] == (if a.NDP? then "NDP:" else "ICP:")
    ensures forall i :: 4 <= i < |s| ==> IsDigit(s[i])
    ensures DecimalValue(s[4..]) == a.e8s
    ensures |s| > 5 ==> s[4] != '0'
  {
    var tag := match a
      case NDP(_) => "NDP"
      case ICP(_) => "ICP";
    DecimalRoundTrip(a.e8s);
    assert (tag + ":" + NatToDecimal(a.e8s))[4..] == NatToDecimal(a.e8s);
    tag + ":" + NatToDecimal(a.e8s)
  }

  /** Two amounts display alike only if they are the same amount of the same currency. */
  lemma AmountTextInjective(a: Amount, b: Amount)
    requires AmountText(a) == AmountText(b)
    ensures a == b
  {
    var s, t := AmountText(a), AmountText(b);
    assert s[..4] == t[..4] && s[4..] == t[4..];
  }

  datatype Disbursement = Disbursement(
    canister: string,
    tokenIdf: string,
    fromSubaccount: Option<Subaccount>,
    to: Principal,
    toSubaccount: Option<Subaccount>,
    amount: Amount,
    tryNum: Byte)

  /** What the ledger answered to one transfer: a block index or an error text. */
  type TransferOutcome = Result<U64>

  /** `handle_disbursement`: reports `Ok("ok")` for a completed transfer and
      passes the ledger's error text through unchanged. */
  function HandleDisbursement(d: Disbursement, outcome: TransferOutcome): (r: Result<string>)
    ensures r.Ok? <==> outcome.Ok?
    ensures r.Ok? ==> r.value == "ok"
    ensures r.Err? ==> r.error == outcome.error
  {
    match outcome
    case Ok(_) => Ok("ok")
    case Err(e) => Err(e)
  }

  /** The queue part of the service state. */
  datatype Queues = Queues(pending: seq<Disbursement>, failed: seq<Disbursement>, lock: bool)

  /** The state after a drain step, the item it took (if any) and what it returned. */
  datatype Drained = Drained(after: Queues, item: Option<Disbursement>, result: Result<string>)

  /** `add_disbursement`. */
  function Add(q: Queues, d: Disbursement): (r: Queues)
    ensures r.pending == q.pending + [d] && r.failed == q.failed && r.lock == q.lock
  {
    q.(pending := q.pending + [d])
  }

  /** `handle_pendding_disbursements`, on values. */
  function DrainPending(q: Queues, outcome: TransferOutcome): (r: Drained)
    ensures q.pending == [] || q.lock ==> r == Drained(q, None, Ok(""))
    ensures q.pending != [] && !q.lock ==>
      && r.item == Some(q.pending[|q.pending| - 1])
      && r.after.pending == q.pending[..|q.pending| - 1]
      && r.result == HandleDisbursement(r.item.value, outcome)
      && r.after.failed == (if outcome.Err? then q.failed + [r.item.value] else q.failed)
      && !r.after.lock
  {
    if q.pending == [] || q.lock then
      Drained(q, None, Ok(""))
    else
      var d := q.pending[|q.pending| - 1];
      var res := HandleDisbursement(d, outcome);
      var failed := if res.Err? then q.failed + [d] else q.failed;
      Drained(Queues(q.pending[..|q.pending| - 1], failed, false), Some(d), res)
  }

  /** `handle_faild_disbursements`, on values. */
  function DrainFailed(q: Queues, outcome: TransferOutcome): (r: Drained)
    ensures q.failed == [] ==> r == Drained(q, None, Ok(""))
    ensures q.failed != [] ==>
      && r.item == Some(q.failed[|q.failed| - 1])
      && r.after == q.(failed := q.failed[..|q.failed| - 1])
      && r.result == HandleDisbursement(r.item.value, outcome)
  {
    if q.failed == [] then
      Drained(q, None, Ok(""))
    else
      var d := q.failed[|q.failed| - 1];
      Drained(q.(failed := q.failed[..|q.failed| - 1]), Some(d), HandleDisbursement(d, outcome))
  }

  /** A pending drain loses nothing and duplicates nothing: every item is still
      pending, in the failed stack, or was just delivered. */
  lemma DrainPendingConserves(q: Queues, outcome: TransferOutcome)
    ensures var r := DrainPending(q, outcome);
            var delivered := if r.item.Some? && r.result.Ok? then multiset{r.item.value} else multiset{};
            multiset(r.after.pending) + multiset(r.after.failed) + delivered
              == multiset(q.pending) + multiset(q.failed)
  {
    if q.pending != [] && !q.lock {
      var n := |q.pending|;
      assert q.pending == q.pending[..n - 1] + [q.pending[n - 1]];
    }
  }

  /** A failed-stack retry removes its item for good, whatever the outcome: a
      retry that fails again is not pushed back. */
  lemma DrainFailedDropsItem(q: Queues, outcome: TransferOutcome)
    requires q.failed != []
    ensures var r := DrainFailed(q, outcome);
            multiset(r.after.failed) + multiset{r.item.value} == multiset(q.failed)
            && r.after.pending == q.pending && r.after.lock == q.lock
            && r.item.value.tryNum == q.failed[|q.failed| - 1].tryNum
  {
    var n := |q.failed|;
    assert q.failed == q.failed[..n - 1] + [q.failed[n - 1]];
  }

  /** The final queues of a run of drains and the items taken, in the order taken. */
  datatype Run = Run(after: Queues, served: seq<Disbursement>)

  /** `k` pending drains in a row, with the ledger giving `outcomes[i]` to the i-th. */
  function DrainPendingTimes(q: Queues, outcomes: seq<TransferOutcome>): Run
    decreases |outcomes|
  {
    if outcomes == [] then Run(q, [])
    else
      var r := DrainPending(q, outcomes[0]);
      var rest := DrainPendingTimes(r.after, outcomes[1..]);
      Run(rest.after, (if r.item.Some? then [r.item.value] else []) + rest.served)
  }

  /** The items of `served` whose transfer (`outcomes`, pairwise) failed, in order. */
  function FailedAmong(served: seq<Disbursement>, outcomes: seq<TransferOutcome>): seq<Disbursement>
    requires |served| == |outcomes|
  {
    if served == [] then []
    else (if outcomes[0].Err? then [served[0]] else []) + FailedAmong(served[1..], outcomes[1..])
  }

  /** One pending drain followed by the rest of the run. */
  lemma DrainPendingTimesStep(q: Queues, outcomes: seq<TransferOutcome>)
    requires !q.lock && q.pending != [] && outcomes != []
    ensures var rest := DrainPendingTimes(DrainPending(q, outcomes[0]).after, outcomes[1..]);
            DrainPendingTimes(q, outcomes) == Run(rest.after, [q.pending[|q.pending| - 1]] + rest.served)
  {
  }

  /** The pending stack is served last-in first-out: `k` drains from an
      unlocked service leave the older items pending, in order, and the lock free. */
  lemma {:induction false} DrainPendingKeepsOlder(q: Queues, outcomes: seq<TransferOutcome>)
    requires !q.lock && |outcomes| <= |q.pending|
    ensures var run := DrainPendingTimes(q, outcomes);
            run.after.pending == q.pending[..|q.pending| - |outcomes|] && !run.after.lock
    decreases |outcomes|
  {
    if outcomes != [] {
      var n := |q.pending|;
      var q1 := DrainPending(q, outcomes[0]).after;
      DrainPendingKeepsOlder(q1, outcomes[1..]);
      DrainPendingTimesStep(q, outcomes);
      assert q1.pending[..n - |outcomes|] == q.pending[..n - |outcomes|];
    }
  }

  /** ... and take the `k` most recently added items, newest first. */
  lemma {:induction false} DrainPendingServesNewest(q: Queues, outcomes: seq<TransferOutcome>)
    requires !q.lock && |outcomes| <= |q.pending|
    ensures DrainPendingTimes(q, outcomes).served == Reverse(q.pending[|q.pending| - |outcomes|..])
    decreases |outcomes|
  {
    if outcomes != [] {
      var n := |q.pending|;
      var keep := n - |outcomes|;
      var d := q.pending[n - 1];
      var q1 := DrainPending(q, outcomes[0]).after;
      var older, newer := q.pending[keep..n - 1], q.pending[keep..];
      DrainPendingServesNewest(q1, outcomes[1..]);
      DrainPendingTimesStep(q, outcomes);
      assert q1.pending[keep..] == older;
      assert newer == older + [d];
      ReverseSnoc(older, d);
    }
  }

  /** ... and push onto the failed stack exactly the taken items whose transfer
      failed, in the order they were taken. */
  lemma {:induction false} DrainPendingFailsInOrder(q: Queues, outcomes: seq<TransferOutcome>)
    requires !q.lock && |outcomes| <= |q.pending|
    ensures |DrainPendingTimes(q, outcomes).served| == |outcomes|
    ensures DrainPendingTimes(q, outcomes).after.failed
              == q.failed + FailedAmong(DrainPendingTimes(q, outcomes).served, outcomes)
    decreases |outcomes|
  {
    if outcomes != [] {
      var d := q.pending[|q.pending| - 1];
      var q1 := DrainPending(q, outcomes[0]).after;
      var rest := DrainPendingTimes(q1, outcomes[1..]);
      DrainPendingFailsInOrder(q1, outcomes[1..]);
      DrainPendingTimesStep(q, outcomes);
      assert ([d] + rest.served)[1..] == rest.served;
      assert q1.failed == q.failed + (if outcomes[0].Err? then [d] else []);
    }
  }

  /** Three additions followed by two successful drains deliver the last two
      additions, newest first, and leave only the first one pending. */
  lemma ThreeAddsTwoDrains(q: Queues, a: Disbursement, b: Disbursement, c: Disbursement, i: U64, j: U64)
    requires q.pending == [] && !q.lock
    ensures var run := DrainPendingTimes(Add(Add(Add(q, a), b), c), [Ok(i), Ok(j)]);
            run.after.pending == [a] && run.served == [c, b] && run.after.failed == q.failed && !run.after.lock
  {
    var q3 := Add(Add(Add(q, a), b), c);
    assert q3.pending == [a, b, c];
    DrainPendingKeepsOlder(q3, [Ok(i), Ok(j)]);
    DrainPendingServesNewest(q3, [Ok(i), Ok(j)]);
    DrainPendingFailsInOrder(q3, [Ok(i), Ok(j)]);
    assert q3.pending[1..] == [b, c];
    assert [c, b][1..] == [b];
    assert FailedAmong([b], [Ok(j)]) == [];
    assert FailedAmong([c, b], [Ok(i), Ok(j)]) == [];
  }

  /** The service state (`DisburseService`). */
  class DisburseService {
    var subaccountNum: U128
    var disbursementsQueue: seq<Disbursement>
    var failedDisbursements: seq<Disbursement>
    var disbursementsProcessLock: bool

    /** `Default`: counter 0, both stacks empty, lock free. */
    constructor ()
      ensures subaccountNum == 0 && disbursementsQueue == [] && failedDisbursements == []
      ensures !disbursementsProcessLock
    {
      subaccountNum := 0;
      disbursementsQueue := [];
      failedDisbursements := [];
      disbursementsProcessLock := false;
    }

    function State(): Queues
      reads this
    {
      Queues(disbursementsQueue, failedDisbursements, disbursementsProcessLock)
    }

    /** `get_new_subaccount_num`: the stored counter always equals the returned value. */
    method GetNewSubaccountNum() returns (n: U128)
      modifies this`subaccountNum
      ensures n == subaccountNum == NextSubaccountNum(old(subaccountNum))
      ensures n != 0
    {
      if subaccountNum == U128_MAX {
        subaccountNum := 1;
        return 1;
      }
      subaccountNum := subaccountNum + 1;
      n := subaccountNum;
    }

    /** `get_transaction_subaccount`: advances the counter and returns it
        encoded big-endian in the low 16 bytes of a zeroed sub-account. */
    method GetTransactionSubaccount() returns (sub: Subaccount)
      modifies this`subaccountNum
      ensures subaccountNum == NextSubaccountNum(old(subaccountNum))
      ensures sub == SubaccountBytes(subaccountNum)
    {
      var num := GetNewSubaccountNum();
      var buf := new Byte[32](_ => 0);
      var le := ToLeBytes(num, 16);
      for index := 0 to 16
        invariant forall j :: 0 <= j < 32 - index ==> buf[j] == 0
        invariant forall j :: 0 <= j < index ==> buf[31 - j] == le[j]
        invariant subaccountNum == num
      {
        buf[32 - index - 1] := le[index];
      }
      sub := buf[..];
      SubaccountFromLayout(sub, num);
    }

    /** `add_disbursement`: pushes onto the pending stack; nothing else changes. */
    method AddDisbursement(d: Disbursement)
      modifies this`disbursementsQueue
      ensures State() == Add(old(State()), d)
      ensures disbursementsQueue == old(disbursementsQueue) + [d]
    {
      disbursementsQueue := disbursementsQueue + [d];
    }

    /** `handle_faild_disbursements`: retries the most recent failed item. It
        neither re-pushes that item nor touches the pending stack or the lock. */
    method HandleFailedDisbursements(outcome: TransferOutcome) returns (item: Option<Disbursement>, r: Result<string>)
      modifies this`failedDisbursements
      ensures var drained := DrainFailed(old(State()), outcome);
              State() == drained.after && item == drained.item && r == drained.result
    {
      if failedDisbursements == [] {
        return None, Ok("");
      }
      var n := |failedDisbursements|;
      var d := failedDisbursements[n - 1];
      failedDisbursements := failedDisbursements[..n - 1];
      r := HandleDisbursement(d, outcome);
      item := Some(d);
    }

    /** `handle_pendding_disbursements`: a no-op when the pending stack is
        empty or the lock is held; otherwise takes the newest pending item
        under the lock, moves it to the failed stack if the transfer failed,
        and releases the lock. */
    method HandlePendingDisbursements(outcome: TransferOutcome) returns (item: Option<Disbursement>, r: Result<string>)
      modifies this`disbursementsQueue, this`failedDisbursements, this`disbursementsProcessLock
      ensures var drained := DrainPending(old(State()), outcome);
              State() == drained.after && item == drained.item && r == drained.result
    {
      if disbursementsQueue == [] {
        return None, Ok("");
      }
      if disbursementsProcessLock {
        return None, Ok("");
      }
      disbursementsProcessLock := true;
      var n := |disbursementsQueue|;
      var d := disbursementsQueue[n - 1];
      disbursementsQueue := disbursementsQueue[..n - 1];
      r := HandleDisbursement(d, outcome);
      if r.Err? {
        failedDisbursements := failedDisbursements + [d];
      }
      disbursementsProcessLock := false;
      item := Some(d);
    }
  }
}
