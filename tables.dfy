/** The two parameter tables and the cross product every test family is instantiated over. */
module ParamTables {
  import opened SygvjTypes
  import opened Combinatorics
  import opened ArgumentSetup

  /** Each entry is {itype, jobz, uplo}. */
  const TypeRange: seq<TypeEntry> := [
    ['1', 'N', 'U'],
    ['2', 'N', 'L'],
    ['3', 'N', 'U'],
    ['1', 'V', 'L'],
    ['2', 'V', 'U'],
    ['3', 'V', 'L']]

  /** Each entry is {n, lda, ldb}: two invalid entries, then three valid ones. */
  const MatrixSizeRange: seq<SizeEntry> := [
    [-1, 1, 1],
    [20, 5, 5],
    [20, 30, 20],
    [35, 35, 35],
    [50, 50, 60]]

  /** The parameters of every checkin instantiation: `Combine(ValuesIn(sizes), ValuesIn(types))`. */
  const CheckinParams: seq<SygvjTuple> := Combine(MatrixSizeRange, TypeRange)

  /** The single parameter that also triggers the bad-argument test. */
  const SentinelTuple: SygvjTuple := ([-1, 1, 1], ['1', 'N', 'U'])

  /** A size entry the solver accepts: a non-negative order and leading dimensions no smaller. */
  predicate ValidSize(s: SizeEntry)
    requires |s| >= 3
  {
    s[0] >= 0 && s[1] >= s[0] && s[2] >= s[0]
  }

  /** A type entry whose three selectors are ones the solver defines. */
  predicate ValidType(e: TypeEntry)
  {
    |e| == 3 && e[0] in "123" && e[1] in "NV" && e[2] in "UL"
  }

  /** The type table uses only valid selectors, and pairs each itype with both jobz and both uplo. */
  lemma TypeRangeCoverage()
    ensures forall e :: e in TypeRange ==> ValidType(e)
    ensures forall it, jz :: it in "123" && jz in "NV" ==>
      exists e :: e in TypeRange && e[0] == it && e[1] == jz
    ensures forall it, ul :: it in "123" && ul in "UL" ==>
      exists e :: e in TypeRange && e[0] == it && e[2] == ul
  {
    forall it, jz | it in "123" && jz in "NV"
      ensures exists e :: e in TypeRange && e[0] == it && e[1] == jz
    {
      var k := (if it == '1' then 0 else if it == '2' then 1 else 2) + (if jz == 'N' then 0 else 3);
      assert TypeRange[k][0] == it && TypeRange[k][1] == jz;
    }
    forall it, ul | it in "123" && ul in "UL"
      ensures exists e :: e in TypeRange && e[0] == it && e[2] == ul
    {
      var k := if it == '1' then (if ul == 'U' then 0 else 3)
               else if it == '2' then (if ul == 'L' then 1 else 4)
               else (if ul == 'U' then 2 else 5);
      assert TypeRange[k][0] == it && TypeRange[k][2] == ul;
    }
  }

  /** The first two size entries are invalid, the last three valid, and lda and ldb vary independently. */
  lemma MatrixSizeRangeValidity()
    ensures |MatrixSizeRange| == 5
    ensures forall s :: s in MatrixSizeRange ==> |s| == 3
    ensures forall i :: 0 <= i < 2 ==> MatrixSizeRange[i][0] < 0 || MatrixSizeRange[i][1] < MatrixSizeRange[i][0]
    ensures forall i :: 2 <= i < 5 ==> ValidSize(MatrixSizeRange[i])
    ensures exists i :: 2 <= i < 5 && MatrixSizeRange[i][1] != MatrixSizeRange[i][2]
  {
    assert MatrixSizeRange[2][1] != MatrixSizeRange[2][2];
  }

  /** Both tables hold three-value entries: five size entries and six type entries. */
  lemma TableShapes()
    ensures |MatrixSizeRange| == 5 && |TypeRange| == 6
    ensures forall s :: s in MatrixSizeRange ==> |s| == 3
    ensures forall e :: e in TypeRange ==> |e| == 3
  {
  }

  /** Every parameter of a product has the shape of the table entries it pairs. */
  lemma CombineShapes(sizes: seq<SizeEntry>, types: seq<TypeEntry>)
    requires forall s :: s in sizes ==> |s| == 3
    requires forall e :: e in types ==> |e| == 3
    ensures forall p :: p in Combine(sizes, types) ==> |p.0| == 3 && |p.1| == 3
  {
    forall p | p in Combine(sizes, types) ensures |p.0| == 3 && |p.1| == 3 {
      CombineMembers(sizes, types, p);
    }
  }

  /** Every parameter of the cross product can be built: both vectors have three entries. */
  lemma CheckinParamsWellFormed()
    ensures |CheckinParams| == 30
    ensures forall p :: p in CheckinParams ==> |p.0| == 3 && |p.1| == 3
  {
    TableShapes();
    CombineLength(MatrixSizeRange, TypeRange);
    CombineShapes(MatrixSizeRange, TypeRange);
  }

  /** Only the first size entry has n = -1. */
  lemma SizeSentinelCount()
    ensures CountIf(MatrixSizeRange, SizeSentinel) == 1
    ensures forall s :: s in MatrixSizeRange && SizeSentinel(s) <==> s == SentinelTuple.0
  {
  }

  /** Only the first type entry is {'1', 'N', 'U'}. */
  lemma TypeSentinelCount()
    ensures CountIf(TypeRange, TypeSentinel) == 1
    ensures forall e :: e in TypeRange && TypeSentinel(e) <==> e == SentinelTuple.1
  {
  }

  /** The sentinel splits into a size condition and a type condition, so its count over a product multiplies. */
  lemma SentinelCount(sizes: seq<SizeEntry>, types: seq<TypeEntry>)
    ensures CountIf(Combine(sizes, types), SentinelParam)
         == CountIf(sizes, SizeSentinel) * CountIf(types, TypeSentinel)
  {
    CountIfCongruent(Combine(sizes, types), SentinelParam, Both(SizeSentinel, TypeSentinel));
    CountIfCombine(sizes, types, SizeSentinel, TypeSentinel);
  }

  /**
   * When one size entry s0 and one type entry e0 are the only ones matching their halves of the
   * sentinel, (s0, e0) is the only parameter of the product matching the sentinel.
   */
  lemma SentinelMembers(sizes: seq<SizeEntry>, types: seq<TypeEntry>, s0: SizeEntry, e0: TypeEntry)
    requires forall s :: s in sizes && SizeSentinel(s) <==> s == s0
    requires forall e :: e in types && TypeSentinel(e) <==> e == e0
    ensures forall p :: p in Combine(sizes, types) && SentinelParam(p) <==> p == (s0, e0)
  {
    forall p ensures p in Combine(sizes, types) && SentinelParam(p) <==> p == (s0, e0) {
      CombineMembers(sizes, types, p);
    }
  }

  /**
   * Of the 30 parameters exactly one satisfies the sentinel: the first one, ({-1,1,1}, {'1','N','U'}).
   */
  lemma SentinelUnique()
    ensures CountIf(CheckinParams, SentinelParam) == 1
    ensures forall p :: p in CheckinParams && SentinelParam(p) <==> p == SentinelTuple
    ensures CheckinParams[0] == SentinelTuple
  {
    SentinelCount(MatrixSizeRange, TypeRange);
    SizeSentinelCount();
    TypeSentinelCount();
    SentinelMembers(MatrixSizeRange, TypeRange, SentinelTuple.0, SentinelTuple.1);
    CombineAt(MatrixSizeRange, TypeRange, 0, 0);
  }
}
