/** The successive refactorings of the factor-candidate finder in
    50-footguns.js. Object-path arguments (`data.myData[0].targ`, `data2.why`)
    are passed as the values they lead to; `options.asArray` is a bool, with an
    absent options object read as false. */
module Footguns {
  import opened Candidates

  /** helper1: nested truthiness checks on both data arguments, otherwise
      helper3's scan on the target number and the `why` exclusion. A falsy
      argument is None. */
  method Helper1(data: Option<int>, data2: Option<Exclusion>, asArray: bool) returns (r: Result<Collection>)
    ensures r.Failure? <==> data.None? || data2.None?
    ensures r.Failure? ==> r.error == BadArgs
    ensures r.Success? ==> IsResultFor(r.value, StrictCandidates(data.value, ExcludeSet(data2.value)), asArray)
  {
    if data.Some? {
      if data2.Some? {
        var res := Helper3(data.value, data2.value, asArray);
        return Success(res);
      }
    }
    return Failure(BadArgs);
  }

  /** helper2: the same checks written as a guard clause. */
  method Helper2(data: Option<int>, data2: Option<Exclusion>, asArray: bool) returns (r: Result<Collection>)
    ensures r.Failure? <==> data.None? || data2.None?
    ensures r.Failure? ==> r.error == BadArgs
    ensures r.Success? ==> IsResultFor(r.value, StrictCandidates(data.value, ExcludeSet(data2.value)), asArray)
  {
    if data.None? || data2.None? {
      return Failure(BadArgs);
    }
    var res := Helper3(data.value, data2.value, asArray);
    return Success(res);
  }

  /** helper3: the accumulator starts as a Set and is swapped for an array,
      together with the closure that fills it, when asArray holds; both
      closures skip excluded numbers, 2 included. The loop bound is strict. */
  method Helper3(n: int, ex: Exclusion, asArray: bool) returns (res: Collection)
    ensures IsResultFor(res, StrictCandidates(n, ExcludeSet(ex)), asArray)
  {
    var excl := ExcludeSet(ex);
    var arr: seq<int> := [];
    var st: set<int> := {};
    ghost var two: set<int> := if n % 2 == 0 && 2 !in excl then {2} else {};
    if n % 2 == 0 && 2 !in excl {
      if asArray {
        arr := arr + [2];
      } else {
        st := st + {2};
      }
    }
    var i := 3;
    while i < n
      invariant 3 <= i && i % 2 == 1 && (i == 3 || i <= n + 1)
      invariant asArray ==> SetOf(arr) == two + OddCandidatesBelow(n, excl, i)
      invariant asArray ==> StrictlyAscending(arr) && forall k :: 0 <= k < |arr| ==> arr[k] < i
      invariant !asArray ==> st == two + OddCandidatesBelow(n, excl, i)
    {
      OddCandidatesStep(n, excl, i);
      if n % i == 0 && i !in excl {
        if asArray {
          arr := arr + [i];
        } else {
          st := st + {i};
        }
      }
      i := i + 2;
    }
    OddCandidatesAtExit(n, excl, i, n);
    res := if asArray then ArrayResult(arr) else SetResult(st);
  }

  /** findFactors1: one accumulator of the requested shape, filled through
      addFactor, which skips excluded numbers, 2 included. Strict bound. */
  method FindFactors1(baseNum: int, exclude: Exclusion, asArray: bool) returns (factors: Collection)
    ensures IsResultFor(factors, StrictCandidates(baseNum, ExcludeSet(exclude)), asArray)
  {
    var list := new FactorList(asArray);
    var excludeSet := ExcludeSet(exclude);
    ghost var two: set<int> := if baseNum % 2 == 0 && 2 !in excludeSet then {2} else {};
    if baseNum % 2 == 0 {
      list.AddFactor(2, excludeSet);
    }
    var i := 3;
    while i < baseNum
      invariant 3 <= i && i % 2 == 1 && (i == 3 || i <= baseNum + 1)
      invariant list.Contents().Elements() == two + OddCandidatesBelow(baseNum, excludeSet, i)
      invariant asArray ==> StrictlyAscending(list.items) && forall k :: 0 <= k < |list.items| ==> list.items[k] < i
    {
      OddCandidatesStep(baseNum, excludeSet, i);
      if baseNum % i == 0 {
        list.AddFactor(i, excludeSet);
      }
      i := i + 2;
    }
    OddCandidatesAtExit(baseNum, excludeSet, i, baseNum);
    factors := list.Contents();
  }

  /** findFactors2: findFactors1 with JSDoc added; the code is the same. */
  method FindFactors2(baseNum: int, exclude: Exclusion, asArray: bool) returns (factors: Collection)
    ensures IsResultFor(factors, StrictCandidates(baseNum, ExcludeSet(exclude)), asArray)
  {
    factors := FindFactors1(baseNum, exclude, asArray);
  }

  /** findPrimeFactorCandidates1: findFactors1 with the exclusion renamed
      knownComposites; the code is the same, strict bound and filtered 2 included. */
  method FindPrimeFactorCandidates1(baseNum: int, knownComposites: Exclusion, asArray: bool)
    returns (factors: Collection)
    ensures IsResultFor(factors, StrictCandidates(baseNum, ExcludeSet(knownComposites)), asArray)
  {
    factors := FindFactors1(baseNum, knownComposites, asArray);
  }

  /** findPrimeFactorCandidates2: the final version. It collects into one array,
      adds 2 for every even number without consulting knownComposites, scans the
      odd numbers up to and including baseNum, and converts to a Set at the end
      unless asArray holds. */
  method FindPrimeFactorCandidates2(baseNum: int, knownComposites: Exclusion, asArray: bool)
    returns (formattedFactors: Collection)
    ensures IsResultFor(formattedFactors, FinalCandidates(baseNum, ExcludeSet(knownComposites)), asArray)
  {
    var compSet := ExcludeSet(knownComposites);
    var candidateFactors: seq<int> := [];
    ghost var two: set<int> := if baseNum % 2 == 0 then {2} else {};
    if baseNum % 2 == 0 {
      candidateFactors := candidateFactors + [2];
    }
    var i := 3;
    while i <= baseNum
      invariant 3 <= i && i % 2 == 1 && (i == 3 || i <= baseNum + 2)
      invariant SetOf(candidateFactors) == two + OddCandidatesBelow(baseNum, compSet, i)
      invariant StrictlyAscending(candidateFactors)
      invariant forall k :: 0 <= k < |candidateFactors| ==> candidateFactors[k] < i
    {
      OddCandidatesStep(baseNum, compSet, i);
      if baseNum % i == 0 && i !in compSet {
        candidateFactors := candidateFactors + [i];
      }
      i := i + 2;
    }
    OddCandidatesAtExit(baseNum, compSet, i, baseNum + 1);
    formattedFactors := if asArray then ArrayResult(candidateFactors) else SetResult(SetOf(candidateFactors));
  }
}
