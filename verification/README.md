# appcore in Dafny

A model of the parts of the Go service scaffold `appcore` that hold logic of
its own rather than delegating to an SDK. There are four of them:

- **Service lifecycle** (`appcore.go`, module `Appcore`, file `lifecycle.dfy`):
  - the start-up defaulting of the listen settings Port, GrpcPort and IP;
  - `Service.Run`, which always starts the REST server and starts the gRPC
    server only when the module has one;
  - the best-effort `Service.Stop`. It shuts down the API, stops gRPC, then
    closes the database, the message broker and the cache. Each step runs
    only for a resource that is present, and an error is only logged, never
    an early exit.
- **Health check** (`appcore_handler/api.go`, module `AppcoreHandler`, file
  `health.dfy`): `HealthCheck` probes the database, then the cache, then the
  message broker, then the gRPC server, skipping absent ones.
  - The first failure ends the check with 500 and
    `{service, version, error}`.
  - Otherwise the answer is 200 with `{service, message: "pong", version}`.
  - The method is written as the source is: a block of guarded probes that
    breaks at the first failure, with the response built afterwards, as the
    deferred function does.
  - Each probe block appends its dependency to a record of the probes
    made, so the method returns which SDK probes it ran as well as the
    response.
  - Both are proved equal to a list-based reference: `Verdict` is the first
    failing present probe, and `ProbesRun` is the fail-fast prefix of the
    present probes.
- **Circuit-breaker registry** (`appcore_utils/circuit-breaker.go`, module
  `AppcoreUtils`, file `breaker.dfy`):
  - a name-keyed map that creates a breaker on first use, with interval 5 s,
    timeout 15 s and the `ReadyToTrip` test;
  - that test is stated on integers, and a lemma proves it is the 0.6
    failure-ratio test over exact reals.
- **Pagination defaults** (`appcore_internal/appcore_model/pagination.go`,
  module `AppcoreModel`, file `pagination.dfy`):
  - getters that write their defaults back into the struct: Limit 10, Page 1
    and Sort "id desc";
  - the row offset `(page - 1) * limit`, computed with Go's 64-bit
    wrap-around.

Every SDK call is an oracle. `ProbeOracle` and `StopOracle` record whether
each call (gorm `DB()`, `Ping`, redis `Ping`/`Close`, memphis `IsConnected`,
gRPC `Dial`/`Check`, `http.Server.Shutdown`) returns an error or which
status it reports. A pointer field that may be nil becomes a `bool` saying
whether the resource is present.

## Model

| member | source | states |
|---|---|---|
| Appcore.ResolvePort | appcore.go:52-54 | The resolved port is never empty: an empty flag becomes "8000" and any other value is kept |
| Appcore.ResolveGrpcPort | appcore.go:56-58 | The resolved gRPC port is never empty: an empty flag becomes "1" followed by the already-resolved port, and any other value is kept |
| Appcore.ResolveIP | appcore.go:60-62 | The resolved IP is never empty: an empty flag becomes "0.0.0.0" and any other value is kept |
| Appcore.ListenAddress.Init | appcore.go:41-63 | After start-up, Port, GrpcPort and IP hold the resolved values. GrpcPort is derived from the resolved Port, not from the raw flag |
| Appcore.DefaultListenAddress | appcore.go:52-62 | With no flags, the service listens on port "8000" and gRPC port "18000" at "0.0.0.0" |
| Appcore.ResolveIdempotent | appcore.go:52-62 | Resolving already-resolved settings changes nothing |
| Appcore.Service.NewService | appcore.go:65-90 | The service's DB, Cache, MessageBroker and Storage are those of its handler, and no server is running yet |
| Appcore.Service.Run | appcore.go:92-99 | restAPIServer is set. The REST server starts on IP:Port, and a gRPC server is added on IP:GrpcPort exactly when the module has one |
| Appcore.Service.Stop | appcore.go:101-147 | The calls made are StopSteps of the present resources, and the errors logged are exactly the made calls whose call returned an error. No error cuts the sequence short |
| Appcore.Attempt | appcore.go:105-109 | One step of Stop: the call is recorded after the earlier ones, and its error is logged only if it returns one |
| Appcore.StopStepsOrder | appcore.go:101-147 | The calls follow the fixed shutdown order, each at most once, and the first is always the API shutdown |
| Appcore.StopStepsMembers | appcore.go:111-144 | gRPC stop, SQL handle, broker Close and cache Close are made exactly when their resource is present. The database Close is made exactly when the database is present and its SQL handle was obtained. Storage is never closed |
| Appcore.StopStepsBuild | appcore.go:101-147 | The calls are ranked, begin with the API shutdown, and have exactly the listed members |
| Appcore.FailedStepsMembers | appcore.go:107-108 | A call is logged exactly when it was made and returned an error |
| Appcore.RankedDeterminedByMembers | appcore.go:101-147 | Two call sequences in shutdown order with the same members are equal, so order plus membership pin down Stop's calls completely |
| Appcore.SameLast | appcore.go:101-147 | Two non-empty call sequences in shutdown order with the same members end with the same call |
| Appcore.ThenStep | appcore.go:111-144 | Adding a guarded step of higher rank keeps the sequence ordered and adds just that member |
| Appcore.RankInjective | appcore.go:101-147 | Distinct shutdown steps have distinct positions in the order |
| Appcore.RankedLastIsMax | appcore.go:101-147 | In a sequence in shutdown order, no member ranks above the last one |
| Appcore.RankedStrict | appcore.go:101-147 | In a sequence in shutdown order, every member before the last ranks strictly below it |
| Appcore.SameInitMembers | appcore.go:101-147 | Dropping the common last call from two ordered call sequences with the same members keeps them ordered with the same members |
| AppcoreHandler.ProbeRank | appcore_handler/api.go:65-125 | Each probe has a position below 4 in the fixed order, and that position gives back the probe |
| AppcoreHandler.HealthCheck | appcore_handler/api.go:43-126 | The check stops at the first failing present stage, or after the last stage. The response is the reference Verdict: 500 naming the first failing present probe, else 200 "pong". The returned record of probes made is exactly ProbesRun of the present probes: absent dependencies are never probed, and no probe runs after the first failure |
| AppcoreHandler.ProbeDependencies | appcore_handler/api.go:65-125 | The probing part stops at stage k, every earlier stage having passed. An error is set exactly when a stage failed, and its message names that stage's dependency. The probes made are exactly the present probes of stages 0 to k |
| AppcoreHandler.RunProbe | appcore_handler/api.go:65-125 | One guarded block: it appends its probe to the record of probes made. It fails exactly when one of its SDK calls fails (gRPC also on a status other than SERVING), and then its message is that dependency's |
| AppcoreHandler.FailingProbesMembers | appcore_handler/api.go:65-125 | The failing probes are exactly the members that fail |
| AppcoreHandler.ProbesRunIsFailFast | appcore_handler/api.go:65-125 | The probes made are a prefix in which every probe but the last passes. They end at the first failure, or cover all probes when none fails |
| AppcoreHandler.FailFastRunUnique | appcore_handler/api.go:65-125 | There is only one fail-fast prefix, so any run with that shape is ProbesRun |
| AppcoreHandler.PresentUpToFacts | appcore_handler/api.go:65-125 | The first k stages hold exactly the present probes of rank below k, form a prefix of all present probes, and grow one stage at a time |
| AppcoreHandler.StopsAtVerdict | appcore_handler/api.go:49-125 | Stopping at stage k yields the reference verdict and makes exactly the fail-fast probes |
| AppcoreHandler.PassedBefore | appcore_handler/api.go:65-125 | When the check stops at stage k, every present probe before stage k passed |
| AppcoreHandler.StoppedEarly | appcore_handler/api.go:49-55 | Stopping at a failing stage gives the 500 response naming that probe, and the probes made end with it |
| AppcoreHandler.FailFastSplit | appcore_handler/api.go:65-125 | After passing probes, the first failing probe is both the one reported and the last one made |
| AppcoreHandler.StoppedAtEnd | appcore_handler/api.go:56-62 | Passing every stage gives 200 "pong", with every present probe made |
| AppcoreHandler.AllPassRun | appcore_handler/api.go:56-62 | When every probe passes, none is reported and all of them are made |
| AppcoreHandler.PresentInOrder | appcore_handler/api.go:65-125 | The present probes are in the order DB, cache, broker, gRPC, each at most once, and are exactly those whose dependency is present |
| AppcoreHandler.ProbesRunInOrder | appcore_handler/api.go:65-125 | The probes made follow the fixed order, each at most once, and only present dependencies are probed |
| AppcoreHandler.PrefixInOrder | appcore_handler/api.go:65-125 | A prefix of an ordered probe sequence is ordered and holds only its members |
| AppcoreHandler.VerdictStatus | appcore_handler/api.go:49-63 | The status is 500 exactly when some present dependency fails. It is 200 exactly when the body is the "pong" body |
| AppcoreHandler.FirstFailingAt | appcore_handler/api.go:70-123 | If probe i is the first failing one, it is the one reported and exactly the probes up to i are made |
| AppcoreHandler.FirstFailureReported | appcore_handler/api.go:49-55 | The first failing present dependency decides the 500 message, and no later probe is made |
| AppcoreHandler.NoDependenciesPong | appcore_handler/api.go:56-62 | With no DB, cache, broker or gRPC server the answer is 200 "pong" and nothing is probed |
| AppcoreHandler.StorageNeverProbed | appcore_handler/api.go:20-29 | Whether Storage is set changes neither the response nor the probes made |
| AppcoreHandler.DatabaseFailureMessage | appcore_handler/api.go:65-78 | A DB() handle error and a Ping error both give "cannot ping to database service", and nothing after the database is probed |
| AppcoreHandler.CacheFailureStopsBeforeBroker | appcore_handler/api.go:80-87 | A reachable database and a failing cache give "cannot ping to cache service", and the broker is never probed |
| AppcoreHandler.GrpcFailureMessage | appcore_handler/api.go:97-125 | When everything else passes, a dial error, a Check error or a status other than SERVING gives "cannot ping to GRPC service" after all present probes |
| AppcoreHandler.InOrderRanks | appcore_handler/api.go:65-125 | In an ordered probe sequence, an earlier position has a lower rank |
| AppcoreHandler.GrpcStepAsWritten | appcore_handler/api.go:97-124 | As written, the gRPC block panics exactly when dial and Check succeed but the status is not SERVING. It fails cleanly exactly on a dial or Check error |
| AppcoreHandler.AsWrittenResponse | appcore_handler/api.go:49-124 | The response as written differs from Verdict only where Verdict reports the gRPC failure for a status other than SERVING: there it is 200 "pong". Every 500 it writes is the Verdict |
| AppcoreHandler.NotServingReportedHealthyAsWritten | appcore_handler/api.go:119-120 | A handler whose only dependency is a gRPC server answering NOT_SERVING gets 200 "pong" from the code as written and 500 from the reference verdict |
| AppcoreUtils.ReadyToTrip | appcore_utils/circuit-breaker.go:32-35 | Tripping needs at least 3 requests and at least 2 failures, and 3 or more requests that all failed always trip. ReadyToTripIsRatio states its full meaning |
| AppcoreUtils.ReadyToTripIsRatio | appcore_utils/circuit-breaker.go:32-35 | The integer test holds exactly when there are at least 3 requests and the failures make up at least 0.6 of them |
| AppcoreUtils.ReadyToTripExamples | appcore_utils/circuit-breaker.go:32-35 | 2 failures in 3 requests trip. 2 in 2 do not. 3 in 5 (exactly 0.6) trip. 2 in 5 do not |
| AppcoreUtils.DivAtLeast | appcore_utils/circuit-breaker.go:33-34 | Real-arithmetic helper of ReadyToTripIsRatio, not a model of these lines: for a positive divisor, a quotient reaches a bound exactly when the dividend reaches that bound times the divisor |
| AppcoreUtils.ScaleMonotone | appcore_utils/circuit-breaker.go:33-34 | Real-arithmetic helper of ReadyToTripIsRatio, not a model of these lines: multiplying by a positive factor keeps the order, strict order included |
| AppcoreUtils.CircuitBreaker.constructor | appcore_utils/circuit-breaker.go:37 | A breaker keeps the name, interval, timeout and trip test it was created with |
| AppcoreUtils.Breaker.NewGoBreaker | appcore_utils/circuit-breaker.go:18-22 | The registry starts empty |
| AppcoreUtils.Breaker.Use | appcore_utils/circuit-breaker.go:24-40 | Afterwards name is registered and the returned breaker is the one registered under it, with that name, interval 5 s, timeout 15 s and the trip test. A known name changes nothing and returns the same instance. A new name adds exactly that key with a freshly created breaker |
| AppcoreUtils.DistinctBreakers | appcore_utils/circuit-breaker.go:25-37 | Different names are never registered with the same breaker |
| AppcoreModel.Wrap64 | appcore_internal/appcore_model/pagination.go:20 | The result is the 64-bit int congruent to x modulo 2^64, and x itself when x fits |
| AppcoreModel.Offset | appcore_internal/appcore_model/pagination.go:20 | The offset is congruent modulo 2^64 to the exact (page - 1) * limit on the defaulted values. Being an Int64, it is therefore the unique 64-bit int in that class (Int64Congruent) |
| AppcoreModel.WrapTwiceCongruent | appcore_internal/appcore_model/pagination.go:20 | Wrapping the subtraction and then the product gives the same class modulo 2^64 as the exact product |
| AppcoreModel.MulCongruent | appcore_internal/appcore_model/pagination.go:20 | Arithmetic helper: multiplying congruent numbers by the same factor keeps them congruent modulo 2^64 |
| AppcoreModel.SameClass | appcore_internal/appcore_model/pagination.go:20 | Arithmetic helper: congruence modulo 2^64 is transitive |
| AppcoreModel.Int64Congruent | appcore_internal/appcore_model/pagination.go:20 | Two 64-bit ints congruent modulo 2^64 are equal, so a wrapped result is determined by its class |
| AppcoreModel.LimitOrDefault | appcore_internal/appcore_model/pagination.go:24-27 | The defaulted limit is never 0: 0 becomes 10 and every other value, negatives included, is kept |
| AppcoreModel.PageOrDefault | appcore_internal/appcore_model/pagination.go:31-34 | The defaulted page is never 0: 0 becomes 1 and every other value, negatives included, is kept |
| AppcoreModel.SortOrDefault | appcore_internal/appcore_model/pagination.go:38-41 | The defaulted sort is never empty: "" becomes "id desc" and every other value is kept |
| AppcoreModel.Pagination.GetLimit | appcore_internal/appcore_model/pagination.go:23-28 | Limit becomes its defaulted value and is returned. Only Limit may change, so TotalRows, TotalPages and Rows are untouched |
| AppcoreModel.Pagination.GetPage | appcore_internal/appcore_model/pagination.go:30-35 | Page becomes its defaulted value and is returned. Only Page may change |
| AppcoreModel.Pagination.GetSort | appcore_internal/appcore_model/pagination.go:37-42 | Sort becomes its defaulted value and is returned. Only Sort may change |
| AppcoreModel.Pagination.GetOffset | appcore_internal/appcore_model/pagination.go:19-21 | Page and Limit are defaulted, and the offset is (page - 1) * limit on the defaulted values, with 64-bit wrap-around. Only Page and Limit may change |
| AppcoreModel.Pagination.ScopeArguments | appcore_internal/appcore_model/pagination.go:57-59 | The scope's offset, limit and order are the defaulted values, and the limit passed on is the one the offset used |
| AppcoreModel.DefaultsIdempotent | appcore_internal/appcore_model/pagination.go:23-42 | A second call of any getter returns the same value and changes nothing |
| AppcoreModel.ZeroPaginationOffset | appcore_internal/appcore_model/pagination.go:19-35 | With all fields zero, the offset is 0, Limit becomes 10, Page becomes 1 and Sort becomes "id desc" |
| AppcoreModel.OffsetWithoutOverflow | appcore_internal/appcore_model/pagination.go:19-21 | Without overflow, the offset of a positive page is exactly the rows of the earlier pages and is not negative |
| AppcoreModel.ConsecutivePages | appcore_internal/appcore_model/pagination.go:19-21 | Without overflow, consecutive pages start exactly limit rows apart, so pages neither overlap nor leave gaps |
| AppcoreModel.NegativePageOffset | appcore_internal/appcore_model/pagination.go:24-34 | Negative values are kept: Page -1 with Limit 10 gives offset -20 |
| AppcoreModel.OffsetWrapsAround | appcore_internal/appcore_model/pagination.go:20 | Page 2^62 + 1 with limit 4 overflows, and the offset wraps to 0 |

## Left out

- SDK calls are not modelled: gorm, redis, memphis, minio, grpc and `http.Server`. Only whether each call errs (or which health status it returns) is modelled, as the oracles `ProbeOracle` and `StopOracle`.
- Concurrency is not modelled. This covers the goroutines that serve HTTP and gRPC (appcore_router/gin.go, appcore.go:189-195), the 5-second shutdown context of `Stop` (appcore.go:102) and the unsynchronized map in `Use`. Every operation is sequential.
- `Service.Run` records which servers start and on which "ip:port". The router it builds is not modelled (`initGinAPI`, appcore.go:149-174): middleware, CORS, the `/api/ping` route, `ModuleAPI` and the NoRoute 404 body. Neither is the gRPC health-service registration.
- `initGRPC`'s listen failure (`logger.Fatalf`, appcore.go:179-181) ends the process and is not modelled.
- Start-up defaulting is modelled from the flag values. Reading them (`flag.Parse`, appcore.go:42-51) and viper configuration are I/O.
- `NewService`: the tracer set-up and its `os.Exit(1)` (appcore.go:69-77) are left out, and so are the `Config` and `Logger` fields.
- `NewHandler` (appcore_handler/api.go:31-41) is plain field copying; `ApiHandler` values are built directly.
- The health check's gRPC dial address is not modelled, nor its `log.Println` calls. Only the dial's outcome is modelled.
- Log text in `Stop` is not modelled. Only which calls are logged as errors, in order, is modelled.
- The registry's `log.Println("set goBreaker command", name)` in `Use` (appcore_utils/circuit-breaker.go:26) is not modelled. It only writes a log line when a breaker is created.
- `Service.Stop` requires `restAPIServer` to be set: `Shutdown` on a nil server would panic in Go, so `Stop` is only meaningful after `Run`.
- `ReadyToTripIsRatio`: the source compares a float64 quotient with 0.6, and the model compares the exact real quotient. For uint32 counts the two agree. When the exact ratio is below 0.6 it is below by at least 1/(5·requests), which is at least 4.6e-11. That gap is far wider than the rounding error of one float64 division, and 0.6 itself rounds the same way in both.
- gobreaker's Closed/Open/Half-open state machine is library code; a `CircuitBreaker` holds only its settings.
- `Paginate`'s count query and `TotalPages` (appcore_internal/appcore_model/pagination.go:49-55) are left out. They run a gorm query and a float `math.Ceil` over the raw `Limit`. Only the argument order of the scope it returns is modelled, as `ScopeArguments`.
- Go's `int` is modelled as 64 bits wide (`Int64`, `Wrap64`), as on the usual 64-bit platforms. On a 32-bit platform `Limit`, `Page` and the offset wrap at 2^32 instead, which the model does not cover.
- The `omitempty`/query struct tags and the JSON encoding of responses are not modelled. A response is a status and a string map.

## Findings

| source | as written | input that shows it | evidently intended | confidence | as-written member | corrected member |
|---|---|---|---|---|---|---|
| appcore_handler/api.go:119-120 | When the gRPC status is not SERVING, `log.Println(3, err.Error())` runs before `isError` is set. `err` is nil there (the Check call succeeded), so the call panics. The deferred writer then runs with `isError` still false and sends 200 "pong" before gin's recovery middleware runs | A handler whose only dependency is a gRPC server that dials and answers Check with status NOT_SERVING (lemma NotServingReportedHealthyAsWritten) | 500 with "cannot ping to GRPC service" (lines 121-123) | not executed | AppcoreHandler.AsWrittenResponse | AppcoreHandler.HealthCheck |
