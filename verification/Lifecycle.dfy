/** Optional values, shared by the other modules. */
module Options {
  datatype Option<+T> = None | Some(value: T)
}

/** Small notions shared by the other modules. */
module Shared {
  function Min(a: int, b: int): int { if a < b then a else b }

  function Bit(b: bool): nat { if b then 1 else 0 }

  function Members<T>(xs: seq<T>): set<T> { set x | x in xs }

  predicate Distinct<T(==)>(xs: seq<T>) {
    forall i, j | 0 <= i < j < |xs| :: xs[i] != xs[j]
  }

  lemma SubsetSize<T>(a: set<T>, b: set<T>)
    requires a <= b
    ensures |a| <= |b|
  {
    assert b == a + (b - a);
  }
}

/** The thirteen ticket statuses and the transition table between them. */
module TxLifecycle {

  datatype TxStatus =
    | Created
    | Submitting
    | Submitted
    | InBlockSuccess
    | InBlockFailed
    | Finalized
    | Invalid
    | Dropped
    | NotIncluded
    | Usurped
    | Retracted
    | ReconciliationRequired
    | ClientClosed

  function LegalTargets(s: TxStatus): set<TxStatus> {
    match s
    case Created => {Submitting, Submitted, Invalid, ReconciliationRequired, ClientClosed}
    case Submitting => {Submitted, Invalid, ReconciliationRequired, ClientClosed}
    case Submitted =>
      {InBlockSuccess, InBlockFailed, Invalid, Dropped, NotIncluded, Usurped, ClientClosed, ReconciliationRequired}
    case InBlockSuccess => {Finalized, Retracted, ClientClosed, ReconciliationRequired}
    case Retracted =>
      {Submitted, InBlockSuccess, InBlockFailed, Invalid, Dropped, NotIncluded, Usurped, ClientClosed,
       ReconciliationRequired}
    case _ => {}
  }

  predicate Legal(from: TxStatus, to: TxStatus) {
    to in LegalTargets(from)
  }

  const TERMINAL: set<TxStatus> :=
    {InBlockFailed, Finalized, Invalid, Dropped, NotIncluded, Usurped, ReconciliationRequired, ClientClosed}

  predicate Terminal(s: TxStatus) {
    s in TERMINAL
  }

  /** The statuses that end a ticket with an error. */
  predicate Failure(s: TxStatus) {
    Terminal(s) && s != Finalized
  }

  /** Statuses from which a ticket can be handed over to its caller for reconciliation. */
  predicate Reconcilable(s: TxStatus) {
    s in {Submitting, Submitted, Retracted, InBlockSuccess}
  }

  /** Statuses in which a transaction occupies admission and pool capacity. */
  predicate HoldsPool(s: TxStatus) {
    s in {Created, Submitting, Submitted, Retracted}
  }

  /** The table and the terminal set are maintained separately; they agree. */
  lemma TerminalExactlyWithoutTargets(s: TxStatus)
    ensures Terminal(s) <==> LegalTargets(s) == {}
  {
    if !Terminal(s) {
      assert ClientClosed in LegalTargets(s);
    }
  }

  /** From where each status can be entered. */
  function Sources(to: TxStatus): set<TxStatus> {
    match to
    case Created => {}
    case Submitting => {Created}
    case Submitted => {Created, Submitting, Retracted}
    case Finalized => {InBlockSuccess}
    case Retracted => {InBlockSuccess}
    case Invalid => {Created, Submitting, Submitted, Retracted}
    case ReconciliationRequired => {Created, Submitting, Submitted, InBlockSuccess, Retracted}
    case ClientClosed => {Created, Submitting, Submitted, InBlockSuccess, Retracted}
    case _ => {Submitted, Retracted}
  }

  /** The table read the other way. */
  lemma LegalExactlyFromSources(from: TxStatus, to: TxStatus)
    ensures Legal(from, to) <==> from in Sources(to)
  {}
}
