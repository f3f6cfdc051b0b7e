/** The corridor state machine: the transition table of packages/engine/src/state.ts. */
module States {

  datatype State =
    | Created | Quoted | Compliant | Opened | Funding | Funded | Verifying | Settling | Retrying
    | Settled | Reconciled | Completed | Recovering | RefundPending | Refunded | Held | Failed

  function Successors(s: State): set<State> {
    match s
    case Created => {Quoted, Failed}
    case Quoted => {Compliant, Recovering, Failed}
    case Compliant => {Opened, Recovering, Failed}
    case Opened => {Funding, Verifying, Recovering, Failed}
    case Funding => {Funded, Recovering, Failed}
    case Funded => {Verifying, Recovering, Failed}
    case Verifying => {Settling, Recovering, Failed}
    case Settling => {Settled, Retrying, Recovering, Failed}
    case Retrying => {Verifying, Recovering, Failed}
    case Settled => {Reconciled, Recovering, Failed}
    case Reconciled => {Completed, Failed}
    case Completed => {}
    case Recovering => {RefundPending, Refunded, Held, Failed}
    case RefundPending => {Refunded, Held, Failed}
    case Refunded => {}
    case Held => {}
    case Failed => {}
  }

  predicate CanTransition(from: State, to: State) {
    to in Successors(from)
  }

  predicate IsTerminal(s: State) {
    s in {Completed, Refunded, Held, Failed}
  }

  /** States from which settlement can still be entered (again). */
  predicate MayYetSettle(s: State) {
    s in {Created, Quoted, Compliant, Opened, Funding, Funded, Verifying, Retrying}
  }

  /** States before the receiving anchor has a transaction for the payment. */
  predicate Unopened(s: State) {
    s in {Created, Quoted, Compliant}
  }

  /** A sequence of states the table allows one after the other. */
  ghost predicate Walk(path: seq<State>) {
    forall i | 0 <= i < |path| - 1 :: CanTransition(path[i], path[i + 1])
  }

  /**
   * Once a walk has left the states that may yet settle by any door but `Settling`,
   * it never settles (again): the double-spend guard of the table.
   */
  lemma {:induction false} NoReturnToSettling(path: seq<State>, i: nat, j: nat)
    requires Walk(path) && i < j < |path|
    requires !MayYetSettle(path[i]) && path[i] != Settling
    ensures path[j] != Settling && path[j] != Settled && !MayYetSettle(path[j])
  {
    if i + 1 < j {
      NoReturnToSettling(path, i, j - 1);
    }
    assert CanTransition(path[j - 1], path[j]);
  }

  /** Between two visits to `Settling` a walk passes `Retrying` and then `Verifying`. */
  lemma {:induction false} SettlingAgainIsARetry(path: seq<State>, i: nat, j: nat)
    requires Walk(path) && i < j < |path| && path[i] == path[j] == Settling
    ensures i + 3 <= j && path[i + 1] == Retrying && path[j - 1] == Verifying
  {
    assert CanTransition(path[i], path[i + 1]) && CanTransition(path[j - 1], path[j]);
    if path[i + 1] != Retrying {
      if i + 1 < j { NoReturnToSettling(path, i + 1, j); }
    }
  }

  /** A walk goes on from every state but the terminal ones. */
  lemma TerminalIsTheEnd(path: seq<State>, i: nat)
    requires Walk(path) && i < |path| - 1
    ensures !IsTerminal(path[i])
  {
    assert CanTransition(path[i], path[i + 1]);
  }
}
