/** Families of duplicate-free, pairwise disjoint lists of numbered objects: the
    rings of the buffer cache, the free lists of the page allocator. */
module Rows {

  ghost predicate Distinct(row: seq<nat>) {
    forall i, j | 0 <= i < j < |row| :: row[i] != row[j]
  }

  ghost predicate Disjoint(row: seq<nat>, row': seq<nat>) {
    forall b | b in row :: b !in row'
  }

  // Nothing occurs twice, in one row or in two.
  ghost predicate NoDup(rows: seq<seq<nat>>) {
    && (forall k | 0 <= k < |rows| :: Distinct(rows[k]))
    && (forall k, k' | 0 <= k < k' < |rows| :: Disjoint(rows[k], rows[k']))
  }

  ghost function PosOf(row: seq<nat>, b: nat): (i: nat)
    requires b in row
    ensures i < |row| && row[i] == b
  {
    var i: nat :| i < |row| && row[i] == b;
    i
  }

  function Without(row: seq<nat>, i: nat): seq<nat>
    requires i < |row|
  {
    row[..i] + row[i + 1..]
  }

  lemma WithoutMembers(row: seq<nat>, i: nat)
    requires Distinct(row) && i < |row|
    ensures Distinct(Without(row, i))
    ensures forall b :: b in Without(row, i) <==> b in row && b != row[i]
  {
  }
}
