/** Majorities of a finite voter set. */
module Quorums {
  import opened Base

  /** `votes` holds more than half of `voters`. */
  predicate Majority(votes: set<NodeId>, voters: set<NodeId>) {
    2 * |votes * voters| > |voters|
  }

  /** The smallest number of voters that is a majority (n / 2 + 1). */
  function QuorumSize(voters: set<NodeId>): nat {
    |voters| / 2 + 1
  }

  lemma SubsetSize<T>(a: set<T>, b: set<T>)
    requires a <= b
    ensures |a| <= |b|
  {
    if a != {} {
      var x :| x in a;
      SubsetSize(a - {x}, b - {x});
    }
  }

  lemma MajorityGrows(a: set<NodeId>, b: set<NodeId>, voters: set<NodeId>)
    requires Majority(a, voters) && a * voters <= b
    ensures Majority(b, voters)
  {
    SubsetSize(a * voters, b * voters);
  }

  /** Two majorities of one voter set share a voter. */
  lemma MajoritiesMeet(a: set<NodeId>, b: set<NodeId>, voters: set<NodeId>) returns (n: NodeId)
    requires Majority(a, voters) && Majority(b, voters)
    ensures n in a && n in b && n in voters
  {
    var x, y := a * voters, b * voters;
    if x * y == {} {
      assert |x + y| == |x| + |y|;
      SubsetSize(x + y, voters);
      assert false;
    }
    n :| n in x * y;
  }
}
