# SYGVJ/HEGVJ test-parameter generation and dispatch

This project models the parameterised gtest harness for the generalized symmetric (SYGVJ) and
Hermitian (HEGVJ) Jacobi eigensolvers of hipSOLVER, `clients/gtest/sygvj_hegvj_gtest.cpp`:

- the two constant tables, `matrix_size_range` ({n, lda, ldb}) and `type_range`
  ({itype, jobz, uplo});
- gtest's `Combine` cross product of the two tables, where the last table varies fastest;
- the configuration builder `sygvj_setup_arguments<T>`. The dynamically typed argument bag
  becomes the fixed record `SygvjTypes.Arguments`;
- the sentinel test and the dispatch in `SYGVJ_HEGVJ::run_tests`. This is a class
  `Dispatch.SygvjHegvjTest` whose method `RunTests` appends the calls it makes to the two
  external test entry points to a `trace`. The method is proved against the specification
  function `Dispatch.DispatchTrace`;
- the eight `TEST_P` cases and four `INSTANTIATE_TEST_SUITE_P` bindings. The calls of the whole
  suite form the trace `Suite.SuiteTrace`.

Modules:

- `SygvjTypes` (types.dfy): the value types. `int` and `rocblas_int` are both 32-bit, so
  `int32` is a newtype.
- `Combinatorics` (combine.dfy): `Combine`, and counting with `CountIf`. The lemma
  `CountIfCombine` says a condition on the first component and a condition on the second hold
  together for the product of their counts.
- `ArgumentSetup` (setup.dfy): the builder, its round trip and the sentinel.
- `ParamTables` (tables.dfy): the tables and the proof that exactly one of the 30 parameters is
  the sentinel.
- `Dispatch` (dispatch.dfy): `run_tests`.
- `Suite` (suite.dfy): the test cases, the instantiations and the counts over the suite.

Two parts of the environment are parameters because their definitions are not part of this
model:

- `get_epsilon<T>()` is an `EpsilonTable`, a function from scalar type to a real. It is assumed
  positive only where positivity is used.
- The default-constructed `Arguments` is the parameter `defaults`. Every field the builder
  does not set keeps its value from `defaults`.

`sygvj_setup_arguments` leaves `batch_count` at its default (lines 65-90), and `run_tests` sets it
to 1 just before the correctness call (line 110). `SetupArguments` therefore keeps
`defaults.batchCount`, and `DispatchTrace` sets it to 1. The lemma `SetupIgnoresDefaults` shows
that batch_count is the only modelled field the default-constructed record can influence.

## Model

| member | source | states |
|---|---|---|
| `ArgumentSetup.SetupArguments` | clients/gtest/sygvj_hegvj_gtest.cpp:65-90 | n, lda, ldb are the size entry's first three values and itype, jobz, uplo the type entry's, invalid values included (no rejection); tolerance is 2 * eps(T), max_sweeps 100, sort_eig 1, timing 0; batch_count is left at the default-constructed value |
| `ArgumentSetup.UsedPart` | clients/gtest/sygvj_hegvj_gtest.cpp:68-79 | the builder reads the first three entries of each vector; for three-entry vectors that is the whole parameter |
| `ArgumentSetup.SetupRoundTrip` | clients/gtest/sygvj_hegvj_gtest.cpp:68-79 | the six copied values can be read back from the bag, so a three-entry parameter is recovered exactly: the builder is injective and copies verbatim |
| `ArgumentSetup.SetupIgnoresDefaults` | clients/gtest/sygvj_hegvj_gtest.cpp:71-87 | two builds of the same parameter with different default-constructed bags agree on every modelled field except batch_count |
| `ArgumentSetup.SetupTolerancePositive` | clients/gtest/sygvj_hegvj_gtest.cpp:81 | with a positive epsilon the tolerance is positive |
| `ArgumentSetup.IsBadArgCase` | clients/gtest/sygvj_hegvj_gtest.cpp:106-107 | the bad-argument condition (itype '1', jobz 'N', uplo 'U', n = -1) only holds for a configuration with a negative order, one the solver must reject |
| `ArgumentSetup.SetupSentinel` | clients/gtest/sygvj_hegvj_gtest.cpp:106-107 | the sentinel tested on the built bag (itype '1', jobz 'N', uplo 'U', n -1) holds exactly when it holds on the parameter |
| `Combinatorics.CombineLength` | clients/gtest/sygvj_hegvj_gtest.cpp:177-179 | the cross product has one element per pair of indices: \|sizes\| * \|types\| elements |
| `Combinatorics.CombineMembers` | clients/gtest/sygvj_hegvj_gtest.cpp:177-179 | a pair occurs in the product if and only if its first part is in the first table and its second part in the second |
| `Combinatorics.Combine` | clients/gtest/sygvj_hegvj_gtest.cpp:177-179 | every element of the cross product pairs an entry of the first table with an entry of the second |
| `Combinatorics.CombineAt` | clients/gtest/sygvj_hegvj_gtest.cpp:177-179 | element i * \|types\| + j of the product is (sizes[i], types[j]): the last generator varies fastest |
| `ParamTables.TypeRangeCoverage` | clients/gtest/sygvj_hegvj_gtest.cpp:41-46 | every type entry has three valid selectors (itype in 1,2,3; jobz in N,V; uplo in U,L), and every itype appears with both jobz values and with both uplo values |
| `ParamTables.MatrixSizeRangeValidity` | clients/gtest/sygvj_hegvj_gtest.cpp:49-56 | five three-value entries; the first two are invalid (n < 0 or lda < n), the last three valid (n >= 0, lda >= n, ldb >= n), and one valid entry has ldb different from lda |
| `ParamTables.CheckinParamsWellFormed` | clients/gtest/sygvj_hegvj_gtest.cpp:177-179 | the product has 30 parameters, each with three size values and three selectors, so the builder can read every one |
| `ParamTables.SizeSentinelCount` | clients/gtest/sygvj_hegvj_gtest.cpp:49-56 | exactly one size entry has n = -1 |
| `ParamTables.TypeSentinelCount` | clients/gtest/sygvj_hegvj_gtest.cpp:41-46 | exactly one type entry is {'1','N','U'} |
| `ParamTables.SentinelCount` | clients/gtest/sygvj_hegvj_gtest.cpp:106-107 | over any product of a size table and a type table, the sentinel holds for (size entries with n = -1) * (type entries {'1','N','U'}) parameters |
| `ParamTables.SentinelMembers` | clients/gtest/sygvj_hegvj_gtest.cpp:38-39 | over any product in which one size entry s0 and one type entry e0 are the only entries matching their halves of the sentinel, a parameter matches the sentinel if and only if it is (s0, e0) |
| `ParamTables.SentinelUnique` | clients/gtest/sygvj_hegvj_gtest.cpp:38-56 | exactly one of the 30 parameters satisfies the sentinel; it is ({-1,1,1}, {'1','N','U'}), the first parameter of the product |
| `Dispatch.DispatchCalls` | clients/gtest/sygvj_hegvj_gtest.cpp:102-112 | one run makes one bad-argument call if the sentinel holds and none otherwise, always exactly one correctness call, and that call comes last, after any bad-argument call; the correctness call gets the built bag unchanged except batch_count = 1; every call carries the run's API, BATCHED, STRIDED and T |
| `Dispatch.DispatchTrace` | clients/gtest/sygvj_hegvj_gtest.cpp:104-111 | one run makes two calls for the sentinel parameter and one otherwise; the last is the correctness call, with batch_count 1 |
| `Dispatch.SygvjHegvjTest.constructor` | clients/gtest/sygvj_hegvj_gtest.cpp:92-95 | a fixture with its API, its gtest parameter and no calls made yet |
| `Dispatch.SygvjHegvjTest.RunTests` | clients/gtest/sygvj_hegvj_gtest.cpp:101-112 | the trace grows by exactly the calls of `DispatchTrace` for the fixture's parameter, in order |
| `Suite.ApiOf` | clients/gtest/sygvj_hegvj_gtest.cpp:115-129 | SYGVJ and HEGVJ use the normal API, the two FORTRAN fixtures use the Fortran API |
| `Suite.TestCasesShape` | clients/gtest/sygvj_hegvj_gtest.cpp:133-171 | eight test cases, all with BATCHED = STRIDED = false; the SYGVJ fixtures have exactly the real types and the HEGVJ fixtures exactly the complex types, and every such fixture/type pair is present |
| `Suite.ParamsOf` | clients/gtest/sygvj_hegvj_gtest.cpp:177-203 | a test case runs over the parameters of its fixture's instantiations, which are well formed when every instantiation's are |
| `Suite.ParamsOfSingle` | clients/gtest/sygvj_hegvj_gtest.cpp:177-203 | a fixture instantiated once runs with exactly that instantiation's parameters |
| `Suite.InstantiateAll` | clients/gtest/sygvj_hegvj_gtest.cpp:177-203 | four `checkin_lapack` instantiations, each binding a different fixture to the same parameters |
| `Suite.ParamsOfInstantiateAll` | clients/gtest/sygvj_hegvj_gtest.cpp:177-203 | generic in the bound parameters ps: when the four instantiations bind every fixture to ps, each fixture runs over exactly ps, and those are well formed when ps is |
| `Suite.ParamsOfCheckin` | clients/gtest/sygvj_hegvj_gtest.cpp:177-203 | each of the four fixtures runs over exactly the 30-parameter checkin product |
| `Suite.InstanceTraceCounts` | clients/gtest/sygvj_hegvj_gtest.cpp:104-111 | over a list of parameters a test case makes one bad-argument call per sentinel parameter and one correctness call per parameter |
| `Suite.InstanceTraceEvents` | clients/gtest/sygvj_hegvj_gtest.cpp:104-111 | every call of a test case carries its fixture's API and its template arguments; each correctness call has batch_count 1, max_sweeps 100, sort_eig 1, tolerance 2 * eps(T), and the sizes and selectors of one of the parameters |
| `Suite.InstanceTraceCovers` | clients/gtest/sygvj_hegvj_gtest.cpp:104-111 | every parameter of a test case gets a correctness call with its own built configuration and batch_count 1 |
| `Suite.InstanceTrace` | clients/gtest/sygvj_hegvj_gtest.cpp:104-111 | the instances of a test case over ps make \|ps\| + (sentinel parameters of ps) calls |
| `Suite.SuiteTrace` | clients/gtest/sygvj_hegvj_gtest.cpp:133-203 | the suite trace contains every call of every test case's instances |
| `Suite.SuiteTraceCounts` | clients/gtest/sygvj_hegvj_gtest.cpp:133-203 | in total: if every test case runs over the same parameters ps, the suite makes \|tcs\| * (sentinel parameters of ps) bad-argument calls and \|tcs\| * \|ps\| correctness calls |
| `Suite.SuiteTraceEvents` | clients/gtest/sygvj_hegvj_gtest.cpp:133-203 | every call in the suite comes from one of its test cases with that case's API and template arguments, and every correctness call has the fixed solver settings |
| `Suite.CheckinSuite` | clients/gtest/sygvj_hegvj_gtest.cpp:133-203 | each registered test case makes exactly one bad-argument call and 30 correctness calls, and every (test case, checkin parameter) pair gets a correctness call with that parameter's configuration and batch_count 1; 8 and 240 calls in total, none batched or strided |

## Left out

- `testing_sygvj_hegvj` and `testing_sygvj_hegvj_bad_arg` are external; their device work and numerical checks are not part of this model. Each call is one trace event.
- The `TearDown` check that `hipGetLastError()` reports success (line 98) queries GPU runtime state and is not modelled.
- The value of `get_epsilon<T>()` is not modelled. It is a parameter, and no IEEE arithmetic is done; the tolerance is the exact real 2 * eps(T).
- The fields of `Arguments` that this file neither writes nor reads are not modelled. The values a default-constructed bag holds are a parameter.
- The string-keyed, dynamically typed `set`/`peek` access is replaced by record fields.
- gtest registration, test naming and filtering are not modelled. Neither is the runner's freedom to reorder or distribute instances: `SuiteTrace` fixes one order, test case by test case and parameter by parameter. Only the counts and per-call properties proved about it are claimed for any order.
- The empty fixture subclasses (lines 115-129) are modelled only through the API each binds (`ApiOf`).
- The commented-out `large_matrix_size_range` table and its daily instantiations (lines 58-63, 173-199) are dead code and are not modelled.
