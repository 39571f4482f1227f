/** The optional value used where the program has a possibly nil reference, the parts of a
    sequence that runs and histories are taken apart into, the order of a map iteration,
    and the positions that a filter picks. */
module Wrappers {
  datatype Option<+T> = None | Some(value: T)

  function Front<T>(s: seq<T>): seq<T>
    requires s != []
  {
    s[..|s| - 1]
  }

  function Last<T>(s: seq<T>): T
    requires s != []
  {
    s[|s| - 1]
  }

  /** Every key of a map once, in the order in which Go iterates it. */
  predicate Visits(order: seq<string>, keys: set<string>) {
    && (forall k | k in order :: k in keys) && (forall k | k in keys :: k in order)
    && forall i, j | 0 <= i < j < |order| :: order[i] != order[j]
  }

  /** Positions of a sequence of length `n`, in order. */
  predicate Increasing(at: seq<nat>, n: nat) {
    (forall j | 0 <= j < |at| :: at[j] < n) && forall i, j | 0 <= i < j < |at| :: at[i] < at[j]
  }

  /** One more element comes, and is picked or not. */
  function PickNext(at: seq<nat>, n: nat, picked: bool): (at': seq<nat>)
    requires Increasing(at, n)
    ensures Increasing(at', n + 1) && (n in at' <==> picked) && forall i: nat | i < n :: i in at' <==> i in at
    ensures |at'| == |at| + (if picked then 1 else 0) && at <= at' && (picked ==> Last(at') == n)
  {
    if picked then at + [n] else at
  }
}
