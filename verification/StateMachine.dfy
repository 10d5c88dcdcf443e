/** Execution statuses and their transition table, as in internal/engine/statemachine.go. */
module StateMachine {

  datatype Status = Pending | Queued | Running | WaitingApproval | Paused | Succeeded | Failed | Cancelled | Retrying

  const TRANSITIONS: seq<(Status, Status)> := [
    (Pending, Queued), (Queued, Running), (Running, Succeeded), (Running, Failed), (Running, WaitingApproval),
    (Running, Cancelled), (Running, Paused), (WaitingApproval, Running), (WaitingApproval, Cancelled),
    (Paused, Running), (Paused, Cancelled), (Failed, Retrying), (Retrying, Running), (Retrying, Failed),
    (Pending, Cancelled), (Queued, Cancelled)]

  predicate IsTerminalStatus(s: Status) {
    s == Succeeded || s == Failed || s == Cancelled
  }

  /** The statuses that may follow each status. */
  predicate ValidTransition(from: Status, to: Status) {
    match from
    case Pending => to == Queued || to == Cancelled
    case Queued => to == Running || to == Cancelled
    case Running => to == Succeeded || to == Failed || to == WaitingApproval || to == Cancelled || to == Paused
    case WaitingApproval => to == Running || to == Cancelled
    case Paused => to == Running || to == Cancelled
    case Failed => to == Retrying
    case Retrying => to == Running || to == Failed
    case _ => false
  }

  /** Where the table lists a transition. */
  function TableRow(from: Status, to: Status): (i: nat)
    requires ValidTransition(from, to)
    ensures i < |TRANSITIONS| && TRANSITIONS[i] == (from, to)
  {
    match from
    case Pending => if to == Queued then 0 else 14
    case Queued => if to == Running then 1 else 15
    case Running =>
      if to == Succeeded then 2 else if to == Failed then 3 else if to == WaitingApproval then 4
      else if to == Cancelled then 5 else 6
    case WaitingApproval => if to == Running then 7 else 8
    case Paused => if to == Running then 9 else 10
    case Failed => 11
    case Retrying => if to == Running then 12 else 13
  }

  /** The table and the statuses that may follow agree, row by row. */
  lemma {:induction false} TableMatches(from: Status, to: Status)
    ensures (from, to) in TRANSITIONS <==> ValidTransition(from, to)
  {
    if ValidTransition(from, to) {
      var i := TableRow(from, to);
      assert TRANSITIONS[i] in TRANSITIONS;
    }
  }

  method ValidateExecutionTransition(from: Status, to: Status) returns (ok: bool)
    ensures ok <==> ValidTransition(from, to)
  {
    for i := 0 to |TRANSITIONS|
      invariant (from, to) !in TRANSITIONS[..i]
    {
      if TRANSITIONS[i].0 == from && TRANSITIONS[i].1 == to {
        TableMatches(from, to);
        return true;
      }
    }
    TableMatches(from, to);
    return false;
  }

  class Execution {
    var status: Status

    constructor (status: Status)
      ensures this.status == status
    {
      this.status := status;
    }
  }

  class StateMachine {
    const execution: Execution

    constructor (execution: Execution)
      ensures this.execution == execution
    {
      this.execution := execution;
    }

    method TransitionTo(to: Status) returns (ok: bool)
      modifies execution
      ensures ok <==> ValidTransition(old(execution.status), to)
      ensures execution.status == if ok then to else old(execution.status)
    {
      ok := ValidateExecutionTransition(execution.status, to);
      if ok {
        execution.status := to;
      }
    }
  }

  /** A path of accepted transitions. */
  ghost predicate IsPath(path: seq<Status>) {
    forall i, j :: 0 <= i < j < |path| && j == i + 1 ==> ValidTransition(path[i], path[j])
  }

  /** Succeeded and Cancelled are left by no transition, and Failed only by the one to Retrying. */
  lemma WaysOutOfTerminal(from: Status, to: Status)
    requires IsTerminalStatus(from) && ValidTransition(from, to)
    ensures from == Failed && to == Retrying
  {
  }

  /** On a path of accepted transitions, succeeded and cancelled can only come last, and failed only before retrying. */
  lemma {:induction false} PathsStopAtTerminal(path: seq<Status>)
    requires IsPath(path)
    ensures forall i :: 0 <= i < |path| && (path[i] == Succeeded || path[i] == Cancelled) ==> i == |path| - 1
    ensures forall i, j :: 0 <= i < j < |path| && j == i + 1 && path[i] == Failed ==> path[j] == Retrying
  {
    forall i, j | 0 <= i < j < |path| && j == i + 1 && IsTerminalStatus(path[i])
      ensures path[i] == Failed && path[j] == Retrying
    {
      assert ValidTransition(path[i], path[j]);
      WaysOutOfTerminal(path[i], path[j]);
    }
    forall i | 0 <= i < |path|
      ensures path[i] == Succeeded || path[i] == Cancelled ==> i == |path| - 1
    {
      assert i + 1 < |path| ==> ValidTransition(path[i], path[i + 1]);
    }
  }

  /**
   * The statuses one Execute call can write: running, then waiting and running in turns,
   * and at most one terminal status, which is the last. Every step is in the table.
   */
  ghost predicate InLanguage(written: seq<Status>) {
    && (forall i :: 0 <= i < |written| ==>
          || written[i] == (if i % 2 == 0 then Running else WaitingApproval)
          || (0 < i == |written| - 1 && IsTerminalStatus(written[i])))
    && IsPath(written)
  }

  lemma {:induction false} WriteFirst()
    ensures InLanguage([Running])
  {
  }

  /** What the table lets an executor write next keeps it in the language. */
  lemma {:induction false} WriteNext(written: seq<Status>, to: Status)
    requires written != [] && InLanguage(written) && ValidTransition(written[|written| - 1], to)
    requires to == Running || to == WaitingApproval || IsTerminalStatus(to)
    ensures InLanguage(written + [to])
  {
    var more := written + [to];
    var last := written[|written| - 1];
    if IsTerminalStatus(last) {
      WaysOutOfTerminal(last, to);
    }
    forall i, j | 0 <= i < j < |more| && j == i + 1
      ensures ValidTransition(more[i], more[j])
    {
      assert more[i] == written[i];
      assert j < |written| ==> more[j] == written[j];
    }
  }
}
