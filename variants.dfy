/** How the versions of the finder relate: the strict-bound versions agree
    with one another, the two result shapes carry the same numbers, and the
    final version's inclusive bound adds the number itself and nothing else. */
module Variants {
  import opened Candidates
  import Footguns
  import NewFactors

  /** helper3, findFactors1, findFactors2, findPrimeFactorCandidates1 and
      findNewFactors return equal results on equal inputs, in either shape. */
  method StrictVariantsAgree(n: int, exclude: Exclusion, asArray: bool)
    returns (h3: Collection, f1: Collection, f2: Collection, p1: Collection, nf: Collection)
    ensures h3 == f1 && f1 == f2 && f2 == p1 && p1 == nf
  {
    h3 := Footguns.Helper3(n, exclude, asArray);
    f1 := Footguns.FindFactors1(n, exclude, asArray);
    f2 := Footguns.FindFactors2(n, exclude, asArray);
    p1 := Footguns.FindPrimeFactorCandidates1(n, exclude, asArray);
    nf := NewFactors.FindNewFactors(n, exclude, asArray);
    var excl := ExcludeSet(exclude);
    ResultUnique(h3, f1, StrictCandidates(n, excl), asArray);
    ResultUnique(f1, f2, StrictCandidates(n, excl), asArray);
    ResultUnique(f2, p1, StrictCandidates(n, excl), asArray);
    ResultUnique(p1, nf, StrictCandidates(n, excl), asArray);
  }

  /** With both arguments present, helper1 and helper2 succeed with exactly
      what helper3 returns for the extracted values. */
  method GuardedHelpersAgree(n: int, exclude: Exclusion, asArray: bool)
    returns (r1: Result<Collection>, r2: Result<Collection>, r3: Collection)
    ensures r1 == r2 && r2 == Success(r3)
  {
    r1 := Footguns.Helper1(Some(n), Some(exclude), asArray);
    r2 := Footguns.Helper2(Some(n), Some(exclude), asArray);
    r3 := Footguns.Helper3(n, exclude, asArray);
    ResultUnique(r1.value, r3, StrictCandidates(n, ExcludeSet(exclude)), asArray);
    ResultUnique(r2.value, r3, StrictCandidates(n, ExcludeSet(exclude)), asArray);
  }

  /** findPrimeFactorCandidates2's Set form is `new Set` of its Array form. */
  method FinalShapesAgree(n: int, knownComposites: Exclusion) returns (asList: Collection, asSet: Collection)
    ensures asList.ArrayResult? && asSet == SetResult(SetOf(asList.items))
  {
    asList := Footguns.FindPrimeFactorCandidates2(n, knownComposites, true);
    asSet := Footguns.FindPrimeFactorCandidates2(n, knownComposites, false);
  }

  /** findNewFactors' Set form holds exactly the numbers of its Array form. */
  method NewFactorsShapesAgree(num: int, exclude: Exclusion) returns (asList: Collection, asSet: Collection)
    ensures asList.ArrayResult? && asSet == SetResult(SetOf(asList.items))
  {
    asList := NewFactors.FindNewFactors(num, exclude, true);
    asSet := NewFactors.FindNewFactors(num, exclude, false);
  }

  /** Fixing the loop bound (`i < baseNum` to `i <= baseNum`) appends baseNum to
      the array exactly when it is odd, at least 3 and not a known composite,
      provided 2 is not a known composite either. */
  method BoundFixAppendsSelf(baseNum: int, knownComposites: Exclusion) returns (before: Collection, after: Collection)
    requires 2 !in ExcludeSet(knownComposites)
    ensures before.ArrayResult? && after.ArrayResult?
    ensures after.items == if baseNum % 2 == 1 && baseNum >= 3 && baseNum !in ExcludeSet(knownComposites)
                           then before.items + [baseNum] else before.items
  {
    before := Footguns.FindPrimeFactorCandidates1(baseNum, knownComposites, true);
    after := Footguns.FindPrimeFactorCandidates2(baseNum, knownComposites, true);
    FinalArrayExtendsStrict(baseNum, ExcludeSet(knownComposites), before.items, after.items);
  }

  /** 7 is a prime factor of 7: the strict version returns [] and the fixed one [7]. */
  method PrimeSevenExample() returns (before: Collection, after: Collection)
    ensures before == ArrayResult([]) && after == ArrayResult([7])
  {
    before := Footguns.FindPrimeFactorCandidates1(7, FromArray([]), true);
    after := Footguns.FindPrimeFactorCandidates2(7, FromArray([]), true);
    assert ExcludeSet(FromArray([])) == {};
    StrictMissesPrimeSeven();
    FinalFindsPrimeSeven();
    assert SetOf(before.items) == SetOf([]);
    SameElements(before.items, []);
    AscendingUnique(before.items, []);
    assert SetOf(after.items) == SetOf([7]);
    SameElements(after.items, [7]);
    AscendingUnique(after.items, [7]);
  }

  /** The three calls the functions chapter shows: findNewFactors(100, null),
      (100, new Set([25])) and (100, [5]), each with asArray. */
  method HundredExamples() returns (noExclusion: Collection, setExclusion: Collection, arrayExclusion: Collection)
    ensures noExclusion == ArrayResult([2, 5, 25])
    ensures setExclusion == ArrayResult([2, 5])
    ensures arrayExclusion == ArrayResult([2, 25])
  {
    noExclusion := NewFactors.FindNewFactors(100, Absent, true);
    setExclusion := NewFactors.FindNewFactors(100, FromSet({25}), true);
    arrayExclusion := NewFactors.FindNewFactors(100, FromArray([5]), true);
    HundredCandidates();
    assert ExcludeSet(FromArray([5])) == {5};
    assert SetOf([2, 5, 25]) == {2, 5, 25};
    assert SetOf([2, 5]) == {2, 5};
    assert SetOf([2, 25]) == {2, 25};
    SameElements(noExclusion.items, [2, 5, 25]);
    AscendingUnique(noExclusion.items, [2, 5, 25]);
    SameElements(setExclusion.items, [2, 5]);
    AscendingUnique(setExclusion.items, [2, 5]);
    SameElements(arrayExclusion.items, [2, 25]);
    AscendingUnique(arrayExclusion.items, [2, 25]);
  }

  /** The calls 50-footguns.js shows, without asArray, so each returns a Set:
      helper1(myObj1, myObj2) (target 234, `why` [13]),
      findPrimeFactorCandidates1(234, []) and findPrimeFactorCandidates2(234, [9, 15]). */
  method Examples234() returns (helper: Result<Collection>, strict: Collection, final: Collection)
    ensures helper == Success(SetResult({2, 3, 9, 39, 117}))
    ensures strict == SetResult({2, 3, 9, 13, 39, 117})
    ensures final == SetResult({2, 3, 13, 39, 117})
  {
    helper := Footguns.Helper1(Some(234), Some(FromArray([13])), false);
    strict := Footguns.FindPrimeFactorCandidates1(234, FromArray([]), false);
    final := Footguns.FindPrimeFactorCandidates2(234, FromArray([9, 15]), false);
    Candidates234();
    assert ExcludeSet(FromArray([13])) == {13};
    assert ExcludeSet(FromArray([])) == {};
    assert ExcludeSet(FromArray([9, 15])) == {9, 15};
  }

  /** findPrimeFactorCandidates2 keeps no state between calls: the same
      arguments give the same result. */
  method FinalIdempotent(baseNum: int, knownComposites: Exclusion, asArray: bool)
    returns (first: Collection, second: Collection)
    ensures first == second
  {
    first := Footguns.FindPrimeFactorCandidates2(baseNum, knownComposites, asArray);
    second := Footguns.FindPrimeFactorCandidates2(baseNum, knownComposites, asArray);
    ResultUnique(first, second, FinalCandidates(baseNum, ExcludeSet(knownComposites)), asArray);
  }

  /** findNewFactors treats a null exclusion as an empty Set, and an array of
      exclusions as the Set of its elements: `new Set(exclude)` is all it reads. */
  method ExclusionFormsAgree(num: int, excluded: seq<int>, asArray: bool)
    returns (absent: Collection, empty: Collection, fromArray: Collection, fromSet: Collection)
    ensures absent == empty
    ensures fromArray == fromSet
  {
    absent := NewFactors.FindNewFactors(num, Absent, asArray);
    empty := NewFactors.FindNewFactors(num, FromSet({}), asArray);
    fromArray := NewFactors.FindNewFactors(num, FromArray(excluded), asArray);
    fromSet := NewFactors.FindNewFactors(num, FromSet(SetOf(excluded)), asArray);
    ResultUnique(absent, empty, StrictCandidates(num, {}), asArray);
    ResultUnique(fromArray, fromSet, StrictCandidates(num, SetOf(excluded)), asArray);
  }
}
