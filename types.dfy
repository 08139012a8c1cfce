/** Value types shared by the sygvj/hegvj test harness model. */
module SygvjTypes {

  /** `int` of the size table and `rocblas_int` of the argument record: both 32-bit signed. */
  newtype int32 = x: int | -0x8000_0000 <= x < 0x8000_0000

  /** The scalar type a test case is instantiated with (a template argument in the harness). */
  datatype ScalarType = Float | Double | FloatComplex | DoubleComplex
  {
    /** Complex types select the Hermitian solver (HEGVJ), real ones the symmetric one (SYGVJ). */
    predicate IsComplex() { this == FloatComplex || this == DoubleComplex }
  }

  /** The calling-convention front-end under test (`testAPI_t`). */
  datatype TestApi = ApiNormal | ApiFortran

  /** One size-table entry `{n, lda, ldb}`, kept as the variable-length vector it is. */
  type SizeEntry = seq<int32>

  /** One type-table entry `{itype, jobz, uplo}`. */
  type TypeEntry = seq<char>

  /** The gtest parameter of one instance: a size entry and a type entry. */
  type SygvjTuple = (SizeEntry, TypeEntry)

  /** The builder reads indices 0..2 of both vectors; shorter vectors are out of bounds. */
  predicate WellFormed(tup: SygvjTuple)
  {
    |tup.0| >= 3 && |tup.1| >= 3
  }

  /**
   * The fields of the harness' argument bag that this file writes or reads, as a fixed record
   * instead of a map from names to dynamically typed values.
   */
  datatype Arguments = Arguments(
    n: int32, lda: int32, ldb: int32,
    itype: char, jobz: char, uplo: char,
    tolerance: real,
    maxSweeps: int32, sortEig: int32,
    timing: int32,
    batchCount: int32)

  /** Machine epsilon per scalar type, left uninterpreted apart from being positive. */
  type EpsilonTable = ScalarType -> real

  predicate PositiveEpsilons(eps: EpsilonTable)
  {
    forall t: ScalarType :: eps(t) > 0.0
  }
}
