/**
 * The record classifier: whether a row of the log takes part in the stock
 * replay (calculations.js:24-30). It looks at one row only.
 */
module Classifier {
  import opened Utils
  import opened Records

  predicate IsApproved(t: Tx) { IsTrue(t.isApproved) }

  predicate IsDeleted(t: Tx) { IsTrue(t.isDeleted) }

  /** A row is replayed unless it is a receive not yet approved, soft-deleted,
      or Rejected / Cancelled. */
  function Included(t: Tx): (r: bool)
    ensures r <==> && (t.kind == Receive ==> Affirmed(t.isApproved))
                   && !Affirmed(t.isDeleted)
                   && t.status != "Rejected" && t.status != "Cancelled"
  {
    IsTrueExactly(t.isApproved);
    IsTrueExactly(t.isDeleted);
    !(t.kind == Receive && !IsApproved(t)) && !IsDeleted(t)
    && !(t.status == "Rejected" || t.status == "Cancelled")
  }
}
