/** One order sent over the control channel and the read loop that waits for
    its terminal answer. The channel is a finite script of reads; each order
    consumes a prefix of it and leaves the rest for the next order. */
module Orders {
  import opened Messages

  /** How one order (or a chain of orders) ends.
      Success and Failure are `order_command`'s `true` and `false`; Abort is the
      panic on an answer with a foreign id; Stalled means the script ran out
      while the loop was still waiting, from where the real process never returns
      (it blocks, or loops forever logging that the proxy did not answer). */
  datatype Outcome = Success | Failure | Abort | Stalled

  datatype OrderRun = OrderRun(outcome: Outcome, rest: seq<Read>)

  /** A read that leaves the loop waiting: nothing was read, or a progress
      notice for the request in flight. */
  predicate Pending(id: string, read: Read)
  {
    read.None? || (read.value.id == id && read.value.status == Processing)
  }

  /** What a non-pending answer decides. */
  function Verdict(id: string, a: Answer): (o: Outcome)
    requires !Pending(id, Some(a))
    ensures o == Abort <==> a.id != id
    ensures o == Success <==> a.id == id && a.status == Ok
    ensures o == Failure <==> a.id == id && a.status == Error
    ensures o != Stalled
  {
    if a.id != id then Abort
    else if a.status == Ok then Success
    else Failure
  }

  /** The read loop of `order_command`, one read per step. The order itself
      only selects the log line written on Ok, which is not modelled. */
  function OrderCommand(id: string, order: Order, script: seq<Read>): (r: OrderRun)
    ensures |r.rest| <= |script| && r.rest == script[|script| - |r.rest|..]
    ensures r.outcome != Stalled ==> |r.rest| < |script|
    ensures r.outcome == Stalled ==> r.rest == []
    decreases |script|
  {
    if |script| == 0 then OrderRun(Stalled, [])
    else match script[0]
      case None => OrderCommand(id, order, script[1..])
      case Some(a) =>
        if a.id != id then OrderRun(Abort, script[1..])
        else match a.status
          case Processing => OrderCommand(id, order, script[1..])
          case Error => OrderRun(Failure, script[1..])
          case Ok => OrderRun(Success, script[1..])
  }

  /** `i` is the position of the first read that ends the loop. */
  predicate IsFirstDecisive(id: string, script: seq<Read>, i: int)
  {
    && 0 <= i < |script|
    && !Pending(id, script[i])
    && forall k :: 0 <= k < i ==> Pending(id, script[k])
  }

  /** The read at `i` is the terminal Ok answer of request `id`. */
  predicate ConfirmedAt(id: string, script: seq<Read>, i: int)
  {
    IsFirstDecisive(id, script, i) && script[i].value.id == id && script[i].value.status == Ok
  }

  /** Position of the first non-pending read, or |script| when every read is pending. */
  function DecisiveIndex(id: string, script: seq<Read>): (i: nat)
    ensures i <= |script|
    ensures forall k :: 0 <= k < i ==> Pending(id, script[k])
    ensures i < |script| ==> !Pending(id, script[i])
    decreases |script|
  {
    if |script| == 0 then 0
    else if !Pending(id, script[0]) then 0
    else 1 + DecisiveIndex(id, script[1..])
  }

  /** The loop's result is decided by the first non-pending read alone: the
      verdict of that answer, with the reads after it left over; and when
      every read is pending, the loop stalls having consumed everything. */
  lemma {:induction false} OrderCommandByFirstDecisive(id: string, order: Order, script: seq<Read>)
    ensures var i := DecisiveIndex(id, script);
      OrderCommand(id, order, script) ==
        if i == |script| then OrderRun(Stalled, [])
        else OrderRun(Verdict(id, script[i].value), script[i + 1..])
    decreases |script|
  {
    if |script| == 0 {
    } else if !Pending(id, script[0]) {
      DecisiveStep(id, order, script);
    } else {
      PendingStep(id, order, script);
      OrderCommandByFirstDecisive(id, order, script[1..]);
      var i' := DecisiveIndex(id, script[1..]);
      if i' < |script| - 1 {
        assert script[1..][i'] == script[i' + 1];
        assert script[1..][i' + 1..] == script[i' + 2..];
      }
    }
  }

  /** A pending first read is skipped by both the loop and the index. */
  lemma PendingStep(id: string, order: Order, script: seq<Read>)
    requires |script| > 0 && Pending(id, script[0])
    ensures OrderCommand(id, order, script) == OrderCommand(id, order, script[1..])
    ensures DecisiveIndex(id, script) == DecisiveIndex(id, script[1..]) + 1
  {
  }

  /** A decisive first read ends the loop with its verdict. */
  lemma DecisiveStep(id: string, order: Order, script: seq<Read>)
    requires |script| > 0 && !Pending(id, script[0])
    ensures DecisiveIndex(id, script) == 0
    ensures OrderCommand(id, order, script) == OrderRun(Verdict(id, script[0].value), script[1..])
  {
  }

  lemma FirstDecisiveUnique(id: string, script: seq<Read>, i: int)
    requires IsFirstDecisive(id, script, i)
    ensures i == DecisiveIndex(id, script)
  {
  }

  /** The order returns true exactly when the first non-pending read is an
      Ok answer carrying the request's id. */
  lemma OrderSucceedsIff(id: string, order: Order, script: seq<Read>)
    ensures OrderCommand(id, order, script).outcome == Success <==>
      exists i :: ConfirmedAt(id, script, i)
  {
    OrderCommandByFirstDecisive(id, order, script);
    var i := DecisiveIndex(id, script);
    if OrderCommand(id, order, script).outcome == Success {
      assert ConfirmedAt(id, script, i);
    }
    forall i0 | ConfirmedAt(id, script, i0)
      ensures OrderCommand(id, order, script).outcome == Success
    {
      FirstDecisiveUnique(id, script, i0);
    }
  }

  /** A confirmed request returns true and leaves the reads after its answer. */
  lemma ConfirmedLeavesRest(id: string, order: Order, script: seq<Read>, i: int)
    requires ConfirmedAt(id, script, i)
    ensures OrderCommand(id, order, script) == OrderRun(Success, script[i + 1..])
  {
    OrderCommandByFirstDecisive(id, order, script);
    FirstDecisiveUnique(id, script, i);
  }

  /** The order returns false exactly when the first non-pending read is an
      Error answer carrying the request's id. */
  lemma OrderFailsIff(id: string, order: Order, script: seq<Read>)
    ensures OrderCommand(id, order, script).outcome == Failure <==>
      exists i :: IsFirstDecisive(id, script, i) && script[i].value.id == id && script[i].value.status == Error
  {
    OrderCommandByFirstDecisive(id, order, script);
    var i := DecisiveIndex(id, script);
    if OrderCommand(id, order, script).outcome == Failure {
      assert IsFirstDecisive(id, script, i);
    }
    forall i0 | IsFirstDecisive(id, script, i0) && script[i0].value.id == id && script[i0].value.status == Error
      ensures OrderCommand(id, order, script).outcome == Failure
    {
      FirstDecisiveUnique(id, script, i0);
    }
  }

  /** An answer with a foreign id, reached before any terminal answer,
      aborts the run whatever its status. */
  lemma WrongIdAborts(id: string, order: Order, script: seq<Read>, i: int)
    requires 0 <= i < |script| && script[i].Some? && script[i].value.id != id
    requires forall k :: 0 <= k < i ==> Pending(id, script[k])
    ensures OrderCommand(id, order, script).outcome == Abort
  {
    OrderCommandByFirstDecisive(id, order, script);
    FirstDecisiveUnique(id, script, i);
  }

  /** A script of only empty reads and progress notices stalls the loop:
      it never returns false, and it stalls in no other case. */
  lemma StallsIffAllPending(id: string, order: Order, script: seq<Read>)
    ensures OrderCommand(id, order, script).outcome == Stalled <==>
      forall k :: 0 <= k < |script| ==> Pending(id, script[k])
  {
    OrderCommandByFirstDecisive(id, order, script);
  }

  /** Neither an empty read nor a progress notice ends the loop: the result
      is that of the reads after it. */
  lemma PendingReadIsSkipped(id: string, order: Order, read: Read, script: seq<Read>)
    requires Pending(id, read)
    ensures OrderCommand(id, order, [read] + script) == OrderCommand(id, order, script)
  {
    assert ([read] + script)[1..] == script;
  }

  /** The read loop of `order_command` written as a loop: read, dispatch, repeat.
      As in `OrderCommand`, the order only selects the log line written on Ok. */
  method RunOrderCommand(id: string, order: Order, script: seq<Read>) returns (outcome: Outcome, consumed: nat)
    ensures consumed <= |script|
    ensures OrderRun(outcome, script[consumed..]) == OrderCommand(id, order, script)
  {
    var k := 0;
    while k < |script|
      invariant 0 <= k <= |script|
      invariant OrderCommand(id, order, script[k..]) == OrderCommand(id, order, script)
      decreases |script| - k
    {
      assert script[k..][1..] == script[k + 1..];
      match script[k] {
        case None =>
        case Some(a) =>
          if a.id != id {
            return Abort, k + 1;
          }
          match a.status {
            case Processing =>
            case Error => return Failure, k + 1;
            case Ok => return Success, k + 1;
          }
      }
      k := k + 1;
    }
    return Stalled, |script|;
  }
}
