/**
 * `sygvj_setup_arguments<T>`: the argument bag of one test instance, built from its gtest
 * parameter, and the bad-argument sentinel that `run_tests` evaluates on that bag.
 */
module ArgumentSetup {
  import opened SygvjTypes

  /** The sweep limit, sort flag and timing flag every configuration carries. */
  const MaxSweeps: int32 := 100
  const SortEig: int32 := 1
  const TimingOff: int32 := 0

  /**
   * The configuration for scalar type t and parameter tup. `defaults` stands for a freshly
   * default-constructed argument bag: every field the builder does not set keeps its value.
   * Sizes and selectors are copied as they are, invalid ones included; nothing is rejected.
   */
  function SetupArguments(t: ScalarType, tup: SygvjTuple, eps: EpsilonTable, defaults: Arguments): (arg: Arguments)
    requires WellFormed(tup)
    ensures arg.n == tup.0[0] && arg.lda == tup.0[1] && arg.ldb == tup.0[2]
    ensures arg.itype == tup.1[0] && arg.jobz == tup.1[1] && arg.uplo == tup.1[2]
    ensures arg.tolerance == 2.0 * eps(t)
    ensures arg.maxSweeps == 100 && arg.sortEig == 1 && arg.timing == 0
    ensures arg.batchCount == defaults.batchCount
  {
    defaults.(
      n := tup.0[0], lda := tup.0[1], ldb := tup.0[2],
      itype := tup.1[0], jobz := tup.1[1], uplo := tup.1[2],
      tolerance := 2.0 * eps(t),
      maxSweeps := MaxSweeps, sortEig := SortEig,
      timing := TimingOff)
  }

  /** The size and type entries a configuration was built from. */
  function ParamOf(arg: Arguments): (tup: SygvjTuple)
    ensures |tup.0| == 3 && |tup.1| == 3
  {
    ([arg.n, arg.lda, arg.ldb], [arg.itype, arg.jobz, arg.uplo])
  }

  /** The part of a parameter the builder reads: the first three entries of each vector. */
  function UsedPart(tup: SygvjTuple): (u: SygvjTuple)
    requires WellFormed(tup)
    ensures |u.0| == 3 && |u.1| == 3
    ensures |tup.0| == 3 && |tup.1| == 3 ==> u == tup
  {
    assert tup.0[..|tup.0|] == tup.0 && tup.1[..|tup.1|] == tup.1;
    (tup.0[..3], tup.1[..3])
  }

  /**
   * Building loses nothing of what it reads: the entries it read come back from the bag, so a
   * three-entry parameter is recovered whole.
   */
  lemma SetupRoundTrip(t: ScalarType, tup: SygvjTuple, eps: EpsilonTable, defaults: Arguments)
    requires WellFormed(tup)
    ensures ParamOf(SetupArguments(t, tup, eps, defaults)) == UsedPart(tup)
    ensures |tup.0| == 3 && |tup.1| == 3 ==> ParamOf(SetupArguments(t, tup, eps, defaults)) == tup
  {
    var u := UsedPart(tup);
    var arg := SetupArguments(t, tup, eps, defaults);
    assert u.0 == [arg.n, arg.lda, arg.ldb];
    assert u.1 == [arg.itype, arg.jobz, arg.uplo];
  }

  /**
   * The bag depends on the default-constructed record only through batch_count, the one
   * field among those modelled that the builder leaves alone.
   */
  lemma SetupIgnoresDefaults(t: ScalarType, tup: SygvjTuple, eps: EpsilonTable, d1: Arguments, d2: Arguments)
    requires WellFormed(tup)
    ensures SetupArguments(t, tup, eps, d1).(batchCount := 0) == SetupArguments(t, tup, eps, d2).(batchCount := 0)
  {
  }

  /** With a positive machine epsilon the tolerance is positive. */
  lemma SetupTolerancePositive(t: ScalarType, tup: SygvjTuple, eps: EpsilonTable, defaults: Arguments)
    requires WellFormed(tup) && PositiveEpsilons(eps)
    ensures SetupArguments(t, tup, eps, defaults).tolerance > 0.0
  {
  }

  /** The condition under which `run_tests` also runs the bad-argument test. */
  predicate IsBadArgCase(arg: Arguments): (b: bool)
    ensures b ==> arg.n < 0
  {
    arg.itype == '1' && arg.jobz == 'N' && arg.uplo == 'U' && arg.n == -1
  }

  /** The sentinel, read off the size entry alone. */
  predicate SizeSentinel(s: SizeEntry)
  {
    |s| >= 1 && s[0] == -1
  }

  /** The sentinel, read off the type entry alone. */
  predicate TypeSentinel(e: TypeEntry)
  {
    |e| >= 3 && e[0] == '1' && e[1] == 'N' && e[2] == 'U'
  }

  /** The sentinel on a gtest parameter. */
  predicate SentinelParam(tup: SygvjTuple)
  {
    SizeSentinel(tup.0) && TypeSentinel(tup.1)
  }

  /** The sentinel on the built bag holds exactly when it holds on the parameter. */
  lemma SetupSentinel(t: ScalarType, tup: SygvjTuple, eps: EpsilonTable, defaults: Arguments)
    requires WellFormed(tup)
    ensures IsBadArgCase(SetupArguments(t, tup, eps, defaults)) <==> SentinelParam(tup)
  {
  }
}
