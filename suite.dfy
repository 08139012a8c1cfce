/**
 * The test cases of the file (four fixtures, each with two scalar types, all non-batched and
 * non-strided) and their instantiation over the checkin parameter product. The suite trace is
 * the calls of every instance, test case by test case and parameter by parameter.
 */
module Suite {
  import opened SygvjTypes
  import opened Combinatorics
  import opened ArgumentSetup
  import opened ParamTables
  import opened Dispatch

  /** The four test fixtures; the solver itself is chosen by the scalar type. */
  datatype Fixture = Sygvj | Hegvj | SygvjFortran | HegvjFortran
  {
    predicate IsSymmetricFamily() { this == Sygvj || this == SygvjFortran }
  }

  /** The API each fixture's base class is instantiated with. */
  function ApiOf(f: Fixture): (api: TestApi)
    ensures api == ApiNormal <==> f == Sygvj || f == Hegvj
  {
    match f
    case Sygvj => ApiNormal
    case Hegvj => ApiNormal
    case SygvjFortran => ApiFortran
    case HegvjFortran => ApiFortran
  }

  /** One `TEST_P`: the fixture and the template arguments of its `run_tests` call. */
  datatype TestCase = TestCase(fixture: Fixture, batched: bool, strided: bool, t: ScalarType)

  const TestCases: seq<TestCase> := [
    TestCase(Sygvj, false, false, Float),
    TestCase(Sygvj, false, false, Double),
    TestCase(Hegvj, false, false, FloatComplex),
    TestCase(Hegvj, false, false, DoubleComplex),
    TestCase(SygvjFortran, false, false, Float),
    TestCase(SygvjFortran, false, false, Double),
    TestCase(HegvjFortran, false, false, FloatComplex),
    TestCase(HegvjFortran, false, false, DoubleComplex)]

  /** One `INSTANTIATE_TEST_SUITE_P`: a name prefix, a fixture and the parameters it is bound to. */
  datatype Instantiation = Instantiation(prefix: string, fixture: Fixture, params: seq<SygvjTuple>)

  /** The four checkin instantiations, each binding one fixture to the parameters ps. */
  function InstantiateAll(ps: seq<SygvjTuple>): (insts: seq<Instantiation>)
    ensures |insts| == 4
    ensures forall i :: i in insts ==> i.prefix == "checkin_lapack" && i.params == ps
    ensures forall k, j :: 0 <= k < j < |insts| ==> insts[k].fixture != insts[j].fixture
  {
    [Instantiation("checkin_lapack", Sygvj, ps),
     Instantiation("checkin_lapack", Hegvj, ps),
     Instantiation("checkin_lapack", SygvjFortran, ps),
     Instantiation("checkin_lapack", HegvjFortran, ps)]
  }

  const Instantiations: seq<Instantiation> := InstantiateAll(CheckinParams)

  predicate AllWellFormed(ps: seq<SygvjTuple>)
  {
    forall p :: p in ps ==> WellFormed(p)
  }

  predicate InstantiationsWellFormed(insts: seq<Instantiation>)
  {
    forall i :: i in insts ==> AllWellFormed(i.params)
  }

  /** The parameters a test case of fixture f runs with: those of every instantiation of f, in order. */
  function ParamsOf(f: Fixture, insts: seq<Instantiation>): (ps: seq<SygvjTuple>)
    ensures InstantiationsWellFormed(insts) ==> AllWellFormed(ps)
  {
    if insts == [] then []
    else (if insts[0].fixture == f then insts[0].params else []) + ParamsOf(f, insts[1..])
  }

  /** The calls of the instances of test case tc over the parameters ps. */
  function InstanceTrace(tc: TestCase, ps: seq<SygvjTuple>, eps: EpsilonTable, defaults: Arguments): (tr: seq<Event>)
    requires AllWellFormed(ps)
    ensures |tr| == |ps| + CountIf(ps, SentinelParam)
  {
    if ps == [] then []
    else
      DispatchTrace(ApiOf(tc.fixture), tc.batched, tc.strided, tc.t, ps[0], eps, defaults)
      + InstanceTrace(tc, ps[1..], eps, defaults)
  }

  /** The calls of every instance of every test case. */
  function SuiteTrace(tcs: seq<TestCase>, insts: seq<Instantiation>, eps: EpsilonTable, defaults: Arguments): (tr: seq<Event>)
    requires InstantiationsWellFormed(insts)
    ensures forall tc, e :: tc in tcs && e in InstanceTrace(tc, ParamsOf(tc.fixture, insts), eps, defaults) ==> e in tr
  {
    if tcs == [] then []
    else
      assert forall tc :: tc in tcs ==> tc == tcs[0] || tc in tcs[1..];
      InstanceTrace(tcs[0], ParamsOf(tcs[0].fixture, insts), eps, defaults)
      + SuiteTrace(tcs[1..], insts, eps, defaults)
  }

  /** Eight non-batched, non-strided cases: the symmetric fixtures on real types, the Hermitian ones on complex types. */
  lemma TestCasesShape()
    ensures |TestCases| == 8
    ensures forall tc :: tc in TestCases ==> !tc.batched && !tc.strided
    ensures forall tc :: tc in TestCases ==> (tc.fixture.IsSymmetricFamily() <==> !tc.t.IsComplex())
    ensures forall f: Fixture, t: ScalarType :: f.IsSymmetricFamily() == !t.IsComplex() ==>
      TestCase(f, false, false, t) in TestCases
  {
  }

  /** Every fixture is instantiated once, so each test case runs over exactly the bound parameters. */
  lemma ParamsOfInstantiateAll(f: Fixture, ps: seq<SygvjTuple>)
    ensures AllWellFormed(ps) ==> InstantiationsWellFormed(InstantiateAll(ps))
    ensures ParamsOf(f, InstantiateAll(ps)) == ps
  {
    var k := match f case Sygvj => 0 case Hegvj => 1 case SygvjFortran => 2 case HegvjFortran => 3;
    ParamsOfSingle(f, InstantiateAll(ps), k);
  }

  lemma {:induction false} ParamsOfNone(f: Fixture, insts: seq<Instantiation>)
    requires forall i :: i in insts ==> i.fixture != f
    ensures ParamsOf(f, insts) == []
  {
    if insts != [] {
      assert forall i :: i in insts[1..] ==> i in insts;
      ParamsOfNone(f, insts[1..]);
    }
  }

  /** A fixture instantiated exactly once runs with exactly the parameters of that instantiation. */
  lemma {:induction false} ParamsOfSingle(f: Fixture, insts: seq<Instantiation>, k: nat)
    requires k < |insts| && insts[k].fixture == f
    requires forall j :: 0 <= j < |insts| && j != k ==> insts[j].fixture != f
    ensures ParamsOf(f, insts) == insts[k].params
  {
    if k == 0 {
      ParamsOfNone(f, insts[1..]);
      assert insts[0].params + [] == insts[0].params;
    } else {
      ParamsOfSingle(f, insts[1..], k - 1);
      assert [] + insts[k].params == insts[k].params;
    }
  }

  /** The instances of one test case make one bad-argument call per sentinel parameter and one correctness call per parameter. */
  lemma {:induction false} InstanceTraceCounts(tc: TestCase, ps: seq<SygvjTuple>, eps: EpsilonTable, defaults: Arguments)
    requires AllWellFormed(ps)
    ensures CountIf(InstanceTrace(tc, ps, eps, defaults), IsBadArgCall) == CountIf(ps, SentinelParam)
    ensures CountIf(InstanceTrace(tc, ps, eps, defaults), IsCorrectnessCall) == |ps|
  {
    if ps != [] {
      var head := DispatchTrace(ApiOf(tc.fixture), tc.batched, tc.strided, tc.t, ps[0], eps, defaults);
      var rest := InstanceTrace(tc, ps[1..], eps, defaults);
      DispatchCalls(ApiOf(tc.fixture), tc.batched, tc.strided, tc.t, ps[0], eps, defaults);
      InstanceTraceCounts(tc, ps[1..], eps, defaults);
      CountIfAppend(head, rest, IsBadArgCall);
      CountIfAppend(head, rest, IsCorrectnessCall);
    }
  }

  /**
   * Every call of a test case's instances carries its fixture's API and its template arguments;
   * every correctness call gets batch_count 1, 100 sweeps, sorting on and tolerance 2 * eps(T).
   */
  lemma {:induction false} InstanceTraceEvents(tc: TestCase, ps: seq<SygvjTuple>, eps: EpsilonTable, defaults: Arguments)
    requires AllWellFormed(ps)
    ensures forall e :: e in InstanceTrace(tc, ps, eps, defaults) ==>
      && e.api == ApiOf(tc.fixture) && e.batched == tc.batched && e.strided == tc.strided && e.t == tc.t
      && (e.CorrectnessCall? ==>
            e.arg.batchCount == 1 && e.arg.maxSweeps == 100 && e.arg.sortEig == 1
            && e.arg.tolerance == 2.0 * eps(tc.t)
            && exists p :: p in ps && WellFormed(p) && ParamOf(e.arg) == UsedPart(p))
  {
    if ps != [] {
      var head := DispatchTrace(ApiOf(tc.fixture), tc.batched, tc.strided, tc.t, ps[0], eps, defaults);
      var rest := InstanceTrace(tc, ps[1..], eps, defaults);
      DispatchCalls(ApiOf(tc.fixture), tc.batched, tc.strided, tc.t, ps[0], eps, defaults);
      InstanceTraceEvents(tc, ps[1..], eps, defaults);
      assert forall p :: p in ps[1..] ==> p in ps;
      SetupRoundTrip(tc.t, ps[0], eps, defaults);
      assert ps[0] in ps;
    }
  }

  /** Every fixture runs over exactly the 30-parameter checkin product. */
  lemma ParamsOfCheckin()
    ensures InstantiationsWellFormed(Instantiations)
    ensures forall f: Fixture :: ParamsOf(f, Instantiations) == CheckinParams
  {
    CheckinParamsWellFormed();
    forall f: Fixture ensures ParamsOf(f, Instantiations) == CheckinParams {
      ParamsOfInstantiateAll(f, CheckinParams);
    }
  }

  /** Every parameter of ps gets a correctness call with its own configuration and batch_count 1. */
  lemma {:induction false} InstanceTraceCovers(tc: TestCase, ps: seq<SygvjTuple>, eps: EpsilonTable, defaults: Arguments,
                                               p: SygvjTuple)
    requires AllWellFormed(ps) && p in ps
    ensures CorrectnessCall(ApiOf(tc.fixture), tc.batched, tc.strided, tc.t,
                            SetupArguments(tc.t, p, eps, defaults).(batchCount := 1))
            in InstanceTrace(tc, ps, eps, defaults)
  {
    var head := DispatchTrace(ApiOf(tc.fixture), tc.batched, tc.strided, tc.t, ps[0], eps, defaults);
    var rest := InstanceTrace(tc, ps[1..], eps, defaults);
    if p == ps[0] {
      assert head[|head| - 1] in head + rest;
    } else {
      assert p in ps[1..];
      InstanceTraceCovers(tc, ps[1..], eps, defaults, p);
      assert forall e :: e in rest ==> e in head + rest;
    }
  }

  /**
   * When every test case runs over the same parameters ps, each makes one bad-argument call per
   * sentinel parameter of ps and one correctness call per parameter.
   */
  lemma {:induction false} SuiteTraceCounts(tcs: seq<TestCase>, insts: seq<Instantiation>, ps: seq<SygvjTuple>,
                                            eps: EpsilonTable, defaults: Arguments)
    requires InstantiationsWellFormed(insts) && AllWellFormed(ps)
    requires forall tc :: tc in tcs ==> ParamsOf(tc.fixture, insts) == ps
    ensures CountIf(SuiteTrace(tcs, insts, eps, defaults), IsBadArgCall) == |tcs| * CountIf(ps, SentinelParam)
    ensures CountIf(SuiteTrace(tcs, insts, eps, defaults), IsCorrectnessCall) == |tcs| * |ps|
  {
    if tcs != [] {
      var head := InstanceTrace(tcs[0], ParamsOf(tcs[0].fixture, insts), eps, defaults);
      var rest := SuiteTrace(tcs[1..], insts, eps, defaults);
      assert tcs[0] in tcs;
      assert forall tc :: tc in tcs[1..] ==> tc in tcs;
      InstanceTraceCounts(tcs[0], ps, eps, defaults);
      SuiteTraceCounts(tcs[1..], insts, ps, eps, defaults);
      CountIfAppend(head, rest, IsBadArgCall);
      CountIfAppend(head, rest, IsCorrectnessCall);
      MulSucc(|tcs| - 1, CountIf(ps, SentinelParam));
      MulSucc(|tcs| - 1, |ps|);
    }
  }

  /**
   * Every call in the suite comes from one of its test cases, with that case's API and template
   * arguments, and every correctness call carries the fixed solver settings.
   */
  lemma {:induction false} SuiteTraceEvents(tcs: seq<TestCase>, insts: seq<Instantiation>, eps: EpsilonTable, defaults: Arguments)
    requires InstantiationsWellFormed(insts)
    ensures forall e :: e in SuiteTrace(tcs, insts, eps, defaults) ==>
      && (exists tc :: tc in tcs && e.api == ApiOf(tc.fixture) && e.batched == tc.batched
                                && e.strided == tc.strided && e.t == tc.t)
      && (e.CorrectnessCall? ==>
            e.arg.batchCount == 1 && e.arg.maxSweeps == 100 && e.arg.sortEig == 1
            && e.arg.tolerance == 2.0 * eps(e.t))
  {
    if tcs != [] {
      InstanceTraceEvents(tcs[0], ParamsOf(tcs[0].fixture, insts), eps, defaults);
      SuiteTraceEvents(tcs[1..], insts, eps, defaults);
      assert tcs[0] in tcs;
      assert forall tc :: tc in tcs[1..] ==> tc in tcs;
    }
  }

  /**
   * The suite as registered: each test case makes one bad-argument call and 30 correctness calls,
   * one for each parameter with that parameter's configuration; 8 and 240 calls in all, none of
   * them batched or strided.
   */
  lemma CheckinSuite(eps: EpsilonTable, defaults: Arguments)
    ensures InstantiationsWellFormed(Instantiations) && AllWellFormed(CheckinParams)
    ensures forall tc :: tc in TestCases ==>
      && CountIf(InstanceTrace(tc, CheckinParams, eps, defaults), IsBadArgCall) == 1
      && CountIf(InstanceTrace(tc, CheckinParams, eps, defaults), IsCorrectnessCall) == 30
    ensures forall tc, p :: tc in TestCases && p in CheckinParams ==>
      CorrectnessCall(ApiOf(tc.fixture), false, false, tc.t, SetupArguments(tc.t, p, eps, defaults).(batchCount := 1))
        in SuiteTrace(TestCases, Instantiations, eps, defaults)
    ensures CountIf(SuiteTrace(TestCases, Instantiations, eps, defaults), IsBadArgCall) == 8
    ensures CountIf(SuiteTrace(TestCases, Instantiations, eps, defaults), IsCorrectnessCall) == 240
    ensures forall e :: e in SuiteTrace(TestCases, Instantiations, eps, defaults) ==> !e.batched && !e.strided
  {
    CheckinParamsWellFormed();
    SentinelUnique();
    ParamsOfInstantiateAll(Sygvj, CheckinParams);
    forall tc | tc in TestCases ensures ParamsOf(tc.fixture, Instantiations) == CheckinParams {
      ParamsOfInstantiateAll(tc.fixture, CheckinParams);
    }
    SuiteTraceCounts(TestCases, Instantiations, CheckinParams, eps, defaults);
    SuiteTraceEvents(TestCases, Instantiations, eps, defaults);
    TestCasesShape();
    forall tc | tc in TestCases
      ensures CountIf(InstanceTrace(tc, CheckinParams, eps, defaults), IsBadArgCall) == 1
      ensures CountIf(InstanceTrace(tc, CheckinParams, eps, defaults), IsCorrectnessCall) == 30
    {
      InstanceTraceCounts(tc, CheckinParams, eps, defaults);
    }
    forall tc, p | tc in TestCases && p in CheckinParams
      ensures CorrectnessCall(ApiOf(tc.fixture), false, false, tc.t, SetupArguments(tc.t, p, eps, defaults).(batchCount := 1))
                in SuiteTrace(TestCases, Instantiations, eps, defaults)
    {
      InstanceTraceCovers(tc, CheckinParams, eps, defaults, p);
    }
  }
}
