/** findNewFactors from 06-functions.js: the strict-bound finder as the
    functions chapter writes it. A null or omitted exclusion is Absent. */
module NewFactors {
  import opened Candidates

  /** Collects 2 when num is even and the odd divisors 3 <= i < num, each
      through addFactor, which skips excluded numbers, 2 included. */
  method FindNewFactors(num: int, exclude: Exclusion, asArray: bool) returns (nums: Collection)
    ensures IsResultFor(nums, StrictCandidates(num, ExcludeSet(exclude)), asArray)
  {
    var list := new FactorList(asArray);
    var excludeSet := ExcludeSet(exclude);
    ghost var two: set<int> := if num % 2 == 0 && 2 !in excludeSet then {2} else {};
    if num % 2 == 0 {
      list.AddFactor(2, excludeSet);
    }
    var i := 3;
    while i < num
      invariant 3 <= i && i % 2 == 1 && (i == 3 || i <= num + 1)
      invariant list.Contents().Elements() == two + OddCandidatesBelow(num, excludeSet, i)
      invariant asArray ==> StrictlyAscending(list.items) && forall k :: 0 <= k < |list.items| ==> list.items[k] < i
    {
      OddCandidatesStep(num, excludeSet, i);
      if num % i == 0 {
        list.AddFactor(i, excludeSet);
      }
      i := i + 2;
    }
    OddCandidatesAtExit(num, excludeSet, i, num);
    nums := list.Contents();
  }
}
