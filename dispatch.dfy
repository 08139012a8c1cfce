/**
 * `SYGVJ_HEGVJ::run_tests`: build the configuration, run the bad-argument test for the
 * sentinel parameter, force batch_count to 1 and run the correctness test. The two test
 * entry points are external; each call is recorded as an event of a trace.
 */
module Dispatch {
  import opened SygvjTypes
  import opened Combinatorics
  import opened ArgumentSetup

  /** One call of an external test entry point, with its template arguments. */
  datatype Event =
    | BadArgCall(api: TestApi, batched: bool, strided: bool, t: ScalarType)
    | CorrectnessCall(api: TestApi, batched: bool, strided: bool, t: ScalarType, arg: Arguments)

  predicate IsBadArgCall(e: Event) { e.BadArgCall? }

  predicate IsCorrectnessCall(e: Event) { e.CorrectnessCall? }

  /** The calls one `run_tests<BATCHED, STRIDED, T>()` makes for the parameter tup, in order. */
  function DispatchTrace(api: TestApi, batched: bool, strided: bool, t: ScalarType,
                         tup: SygvjTuple, eps: EpsilonTable, defaults: Arguments): (tr: seq<Event>)
    requires WellFormed(tup)
    ensures |tr| == (if SentinelParam(tup) then 2 else 1)
    ensures tr[|tr| - 1].CorrectnessCall? && tr[|tr| - 1].arg.batchCount == 1
  {
    SetupSentinel(t, tup, eps, defaults);
    var arg := SetupArguments(t, tup, eps, defaults);
    (if IsBadArgCase(arg) then [BadArgCall(api, batched, strided, t)] else [])
      + [CorrectnessCall(api, batched, strided, t, arg.(batchCount := 1))]
  }

  /**
   * The bad-argument test runs once for the sentinel parameter and never otherwise, and
   * before the correctness test; the correctness test runs exactly once, last, on the built
   * configuration with batch_count forced to 1. Every call carries the caller's template arguments.
   */
  lemma DispatchCalls(api: TestApi, batched: bool, strided: bool, t: ScalarType,
                      tup: SygvjTuple, eps: EpsilonTable, defaults: Arguments)
    requires WellFormed(tup)
    ensures var tr := DispatchTrace(api, batched, strided, t, tup, eps, defaults);
      && CountIf(tr, IsBadArgCall) == (if SentinelParam(tup) then 1 else 0)
      && CountIf(tr, IsCorrectnessCall) == 1
      && tr[|tr| - 1].CorrectnessCall?
      && (forall i, j :: 0 <= i < |tr| && 0 <= j < |tr| && tr[i].BadArgCall? && tr[j].CorrectnessCall? ==> i < j)
      && (forall e :: e in tr ==> e.api == api && e.batched == batched && e.strided == strided && e.t == t)
      && (forall e :: e in tr && e.CorrectnessCall? ==>
            e.arg == SetupArguments(t, tup, eps, defaults).(batchCount := 1))
  {
    SetupSentinel(t, tup, eps, defaults);
  }

  /** A GPU test fixture of one instance: its API variant, its gtest parameter and the calls made so far. */
  class SygvjHegvjTest {
    const api: TestApi
    /** `GetParam()` */
    const param: SygvjTuple
    /** `get_epsilon<T>()` */
    const eps: EpsilonTable
    /** A default-constructed argument bag. */
    const defaults: Arguments
    var trace: seq<Event>

    constructor (api: TestApi, param: SygvjTuple, eps: EpsilonTable, defaults: Arguments)
      ensures this.api == api && this.param == param && this.eps == eps && this.defaults == defaults
      ensures trace == []
    {
      this.api := api;
      this.param := param;
      this.eps := eps;
      this.defaults := defaults;
      trace := [];
    }

    method RunTests(batched: bool, strided: bool, t: ScalarType)
      requires WellFormed(param)
      modifies this
      ensures trace == old(trace) + DispatchTrace(api, batched, strided, t, param, eps, defaults)
    {
      var arg := SetupArguments(t, param, eps, defaults);
      if IsBadArgCase(arg) {
        trace := trace + [BadArgCall(api, batched, strided, t)];
      }
      arg := arg.(batchCount := 1);
      trace := trace + [CorrectnessCall(api, batched, strided, t, arg)];
    }
  }
}
