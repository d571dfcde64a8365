// Ids are drawn fresh: some number is always unused.
module FreshIDs {

  lemma {:induction false} UnusedExists(used: set<nat>) returns (n: nat)
    ensures n !in used && forall m | m in used :: m < n
  {
    if used == {} {
      n := 0;
    } else {
      var top :| top in used;
      var k := UnusedExists(used - {top});
      n := if top < k then k else top + 1;
      assert forall m | m in used :: m == top || m in used - {top};
    }
  }
}
