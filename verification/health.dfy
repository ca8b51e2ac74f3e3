/**
 The aggregated health check served on GET /api/ping (package appcore_handler).

 Every SDK call the check makes (gorm's DB() and Ping, redis Ping, memphis
 IsConnected, grpc Dial and the health Check) is an oracle: its answer is a
 field of ProbeOracle. The check probes the present dependencies in the fixed
 order database, cache, message broker, gRPC, and stops at the first failure.
 */
module AppcoreHandler {

  /** The service module's capability seen by the core: whether GrpcServer() is non-nil. */
  datatype Module = Module(hasGrpcServer: bool)

  /** ApiHandler: the service identity, its module, and which optional handles are non-nil. */
  datatype ApiHandler = ApiHandler(
    serviceName: string,
    version: string,
    serviceModule: Module,
    db: bool,
    cache: bool,
    messageBroker: bool,
    storage: bool)

  /** The status values of grpc_health_v1.HealthCheckResponse. */
  datatype ServingStatus = Unknown | Serving | NotServing | ServiceUnknown

  /** What each SDK call answers during one health check. */
  datatype ProbeOracle = ProbeOracle(
    dbHandleErr: bool,      // h.DB.DB() returned an error
    dbPingErr: bool,        // sql.Ping() returned an error
    cachePingErr: bool,     // h.Cache.Ping(ctx).Err() != nil
    brokerConnected: bool,  // h.MessageBroker.IsConnected()
    grpcDialErr: bool,      // grpc.Dial returned an error
    grpcCheckErr: bool,     // healthClient.Check returned an error
    grpcStatus: ServingStatus)

  /** One dependency probe. */
  datatype Probe = DatabaseProbe | CacheProbe | BrokerProbe | GrpcProbe

  /** An HTTP response: status code and JSON object of string fields. */
  datatype Response = Response(status: int, body: map<string, string>)

  const StatusOK: int := 200
  const StatusInternalServerError: int := 500

  const DatabaseErrorMessage: string := "cannot ping to database service"
  const CacheErrorMessage: string := "cannot ping to cache service"
  const BrokerErrorMessage: string := "cannot ping to Message Broker service"
  const GrpcErrorMessage: string := "cannot ping to GRPC service"

  /** The position of a probe in the fixed order database, cache, broker, gRPC. */
  function ProbeRank(p: Probe): (k: nat)
    ensures k < 4 && ProbeAt(k) == p
  {
    match p
    case DatabaseProbe => 0
    case CacheProbe => 1
    case BrokerProbe => 2
    case GrpcProbe => 3
  }

  /** Probes appear in strictly increasing rank: the fixed order, each at most once. */
  predicate InProbeOrder(ps: seq<Probe>)
  {
    forall i :: 0 < i < |ps| ==> ProbeRank(ps[i - 1]) < ProbeRank(ps[i])
  }

  /** Whether the handle or server a probe needs is non-nil. Storage has no probe. */
  predicate IsPresent(h: ApiHandler, p: Probe)
  {
    match p
    case DatabaseProbe => h.db
    case CacheProbe => h.cache
    case BrokerProbe => h.messageBroker
    case GrpcProbe => h.serviceModule.hasGrpcServer
  }

  /** The probe p if its dependency is present, else nothing. */
  function Stage(h: ApiHandler, p: Probe): seq<Probe>
  {
    if IsPresent(h, p) then [p] else []
  }

  /** The probes of the present dependencies, in the fixed order. */
  function Present(h: ApiHandler): seq<Probe>
  {
    Stage(h, DatabaseProbe) + Stage(h, CacheProbe) + Stage(h, BrokerProbe) + Stage(h, GrpcProbe)
  }

  /** Whether a probe fails under the oracle's answers (the intended gRPC test of api.go:119-123). */
  predicate Fails(p: Probe, o: ProbeOracle)
  {
    match p
    case DatabaseProbe => o.dbHandleErr || o.dbPingErr
    case CacheProbe => o.cachePingErr
    case BrokerProbe => !o.brokerConnected
    case GrpcProbe => o.grpcDialErr || o.grpcCheckErr || o.grpcStatus != Serving
  }

  function ErrorMessage(p: Probe): string
  {
    match p
    case DatabaseProbe => DatabaseErrorMessage
    case CacheProbe => CacheErrorMessage
    case BrokerProbe => BrokerErrorMessage
    case GrpcProbe => GrpcErrorMessage
  }

  function PongResponse(h: ApiHandler): Response
  {
    Response(StatusOK, map["service" := h.serviceName, "message" := "pong", "version" := h.version])
  }

  function ErrorResponse(h: ApiHandler, message: string): Response
  {
    Response(StatusInternalServerError, map["service" := h.serviceName, "version" := h.version, "error" := message])
  }

  /** Every probe of ps passes. */
  predicate AllPass(ps: seq<Probe>, o: ProbeOracle)
  {
    forall i :: 0 <= i < |ps| ==> !Fails(ps[i], o)
  }

  /** The probe in position k of the fixed order. */
  function ProbeAt(k: nat): Probe
    requires k < 4
  {
    if k == 0 then DatabaseProbe
    else if k == 1 then CacheProbe
    else if k == 2 then BrokerProbe
    else GrpcProbe
  }

  /** Stage k of the check fails: its dependency is present and its probe fails. */
  predicate FailsAt(h: ApiHandler, o: ProbeOracle, k: nat)
    requires k < 4
  {
    IsPresent(h, ProbeAt(k)) && Fails(ProbeAt(k), o)
  }

  /** The check stops at stage k: every earlier stage passed and stage k failed; k == 4 means every stage passed. */
  predicate StopsAt(h: ApiHandler, o: ProbeOracle, k: nat)
  {
    && k <= 4
    && (forall j :: 0 <= j < k ==> !FailsAt(h, o, j))
    && (k < 4 ==> FailsAt(h, o, k))
  }

  /** The response written when the check stops at stage k: 500 naming probe k, or 200 "pong" after the last stage. */
  function ResponseAt(h: ApiHandler, k: nat): Response
    requires k <= 4
  {
    if k < 4 then ErrorResponse(h, ErrorMessage(ProbeAt(k))) else PongResponse(h)
  }

  /** The present probes among the first k of the fixed order. */
  function PresentUpTo(h: ApiHandler, k: nat): seq<Probe>
    requires k <= 4
  {
    if k == 0 then []
    else if k == 1 then Stage(h, DatabaseProbe)
    else if k == 2 then Stage(h, DatabaseProbe) + Stage(h, CacheProbe)
    else if k == 3 then Stage(h, DatabaseProbe) + Stage(h, CacheProbe) + Stage(h, BrokerProbe)
    else Present(h)
  }

  /** The probes whose SDK calls are made when the check stops at stage k, in order. */
  function ProbesMade(h: ApiHandler, k: nat): seq<Probe>
    requires k <= 4
  {
    PresentUpTo(h, if k < 4 then k + 1 else 4)
  }

  /**
   HealthCheck: the probing block sets isError and errorMessage, and the
   response is then written from them, as the deferred writer does. `made`
   lists the probes whose SDK calls were made, in order; the ghost `stop` is
   the stage at which probing ended.
   */
  method HealthCheck(h: ApiHandler, o: ProbeOracle) returns (resp: Response, made: seq<Probe>, ghost stop: nat)
    ensures StopsAt(h, o, stop) && resp == ResponseAt(h, stop)
    ensures resp == Verdict(h, o)
    ensures made == ProbesRun(Present(h), o)
  {
    var isError, errorMessage;
    isError, errorMessage, made, stop := ProbeDependencies(h, o);
    if isError {
      resp := ErrorResponse(h, errorMessage);
    } else {
      resp := PongResponse(h);
    }
    StopsAtVerdict(h, o, stop);
  }

  /**
   The probing part of HealthCheck, up to the deferred writer: one block per
   present dependency in the fixed order, each returning early on its first
   error. Every probe made is recorded in `made` by RunProbe itself.
   */
  method ProbeDependencies(h: ApiHandler, o: ProbeOracle)
    returns (isError: bool, errorMessage: string, made: seq<Probe>, ghost stop: nat)
    ensures StopsAt(h, o, stop)
    ensures isError <==> stop < 4
    ensures isError ==> errorMessage == ErrorMessage(ProbeAt(stop))
    ensures made == ProbesMade(h, stop)
  {
    isError, errorMessage, made := false, "", [];
    stop := 4;
    label probing: {
      if h.db {
        isError, errorMessage, made := RunProbe(DatabaseProbe, o, made);
        if isError {
          stop := 0;
          break probing;
        }
      }
      assert made == PresentUpTo(h, 1);
      if h.cache {
        isError, errorMessage, made := RunProbe(CacheProbe, o, made);
        if isError {
          stop := 1;
          break probing;
        }
      }
      assert made == PresentUpTo(h, 2);
      if h.messageBroker {
        isError, errorMessage, made := RunProbe(BrokerProbe, o, made);
        if isError {
          stop := 2;
          break probing;
        }
      }
      assert made == PresentUpTo(h, 3);
      if h.serviceModule.hasGrpcServer {
        isError, errorMessage, made := RunProbe(GrpcProbe, o, made);
        if isError {
          stop := 3;
          break probing;
        }
      }
      assert made == PresentUpTo(h, 4);
    }
  }

  /**
   One `if h.X != nil` block of HealthCheck: its SDK calls in order, failing
   at the first error. The probe is appended to the record of probes made.
   */
  method RunProbe(p: Probe, o: ProbeOracle, made: seq<Probe>) returns (isError: bool, errorMessage: string, made': seq<Probe>)
    ensures made' == made + [p]
    ensures isError == Fails(p, o)
    ensures isError ==> errorMessage == ErrorMessage(p)
  {
    isError, errorMessage, made' := false, "", made + [p];
    match p {
      case DatabaseProbe =>
        if o.dbHandleErr {
          return true, DatabaseErrorMessage, made';
        }
        if o.dbPingErr {
          return true, DatabaseErrorMessage, made';
        }
      case CacheProbe =>
        if o.cachePingErr {
          return true, CacheErrorMessage, made';
        }
      case BrokerProbe =>
        if !o.brokerConnected {
          return true, BrokerErrorMessage, made';
        }
      case GrpcProbe =>
        if o.grpcDialErr {
          return true, GrpcErrorMessage, made';
        }
        if o.grpcCheckErr {
          return true, GrpcErrorMessage, made';
        }
        if o.grpcStatus != Serving {
          return true, GrpcErrorMessage, made';
        }
    }
  }

  // ---------------------------------------------------------------------
  // A reference definition of the verdict, over the list of present probes.

  /** The probes of ps that fail, in order. */
  function FailingProbes(ps: seq<Probe>, o: ProbeOracle): seq<Probe>
  {
    if ps == [] then []
    else (if Fails(ps[0], o) then [ps[0]] else []) + FailingProbes(ps[1..], o)
  }

  /** The probes a fail-fast check over ps makes: everything up to and including the first failure. */
  function ProbesRun(ps: seq<Probe>, o: ProbeOracle): seq<Probe>
  {
    if ps == [] then []
    else if Fails(ps[0], o) then [ps[0]]
    else [ps[0]] + ProbesRun(ps[1..], o)
  }

  /** Reference verdict: 200 "pong" when no present dependency fails, else 500 naming the first failing one. */
  function Verdict(h: ApiHandler, o: ProbeOracle): Response
  {
    var failing := FailingProbes(Present(h), o);
    if failing == [] then PongResponse(h) else ErrorResponse(h, ErrorMessage(failing[0]))
  }

  /**
   A fail-fast run over ps: a prefix of ps in which every probe but the last
   passed, and which ends before ps is exhausted only at a failing probe.
   */
  predicate FailFastRun(ps: seq<Probe>, o: ProbeOracle, run: seq<Probe>)
  {
    && run <= ps
    && AllPass(if run == [] then [] else run[..|run| - 1], o)
    && (run == ps || (run != [] && Fails(run[|run| - 1], o)))
  }

  /** FailingProbes keeps exactly the failing members of ps. */
  lemma {:induction false} FailingProbesMembers(ps: seq<Probe>, o: ProbeOracle)
    ensures forall p :: p in FailingProbes(ps, o) <==> p in ps && Fails(p, o)
  {
    if ps != [] {
      FailingProbesMembers(ps[1..], o);
      assert ps == [ps[0]] + ps[1..];
    }
  }

  /** ProbesRun is a fail-fast run over ps, and it ends at the first failing probe if there is one. */
  lemma {:induction false} ProbesRunIsFailFast(ps: seq<Probe>, o: ProbeOracle)
    ensures FailFastRun(ps, o, ProbesRun(ps, o))
    ensures FailingProbes(ps, o) == [] ==> ProbesRun(ps, o) == ps
    ensures FailingProbes(ps, o) != [] ==>
              var run := ProbesRun(ps, o);
              run != [] && run[|run| - 1] == FailingProbes(ps, o)[0] && Fails(run[|run| - 1], o)
  {
    if ps != [] && !Fails(ps[0], o) {
      var run := ProbesRun(ps[1..], o);
      ProbesRunIsFailFast(ps[1..], o);
      assert ps == [ps[0]] + ps[1..];
      if run != [] {
        assert ([ps[0]] + run)[..|run|] == [ps[0]] + run[..|run| - 1];
      }
    }
  }

  /** A fail-fast run over ps is unique: any run meeting FailFastRun is ProbesRun. */
  lemma {:induction false} FailFastRunUnique(ps: seq<Probe>, o: ProbeOracle, run: seq<Probe>)
    requires FailFastRun(ps, o, run)
    ensures run == ProbesRun(ps, o)
  {
    if ps != [] {
      if run != [] && Fails(ps[0], o) {
        assert run[0] == ps[0];
        assert run == [ps[0]];
      } else if run != [] {
        assert run[0] == ps[0];
        var tail := run[1..];
        assert tail <= ps[1..];
        assert AllPass(if tail == [] then [] else tail[..|tail| - 1], o) by {
          if tail != [] {
            assert tail[..|tail| - 1] == run[..|run| - 1][1..];
          }
        }
        assert tail == ps[1..] || (tail != [] && Fails(tail[|tail| - 1], o)) by {
          if run == ps {
            assert tail == ps[1..];
          }
        }
        FailFastRunUnique(ps[1..], o, tail);
        assert run == [ps[0]] + tail;
      }
    }
  }

  /** The first k stages hold the present probes of rank below k, and begin Present(h). */
  lemma PresentUpToFacts(h: ApiHandler, k: nat)
    requires k <= 4
    ensures PresentUpTo(h, k) <= Present(h)
    ensures forall p :: p in PresentUpTo(h, k) <==> IsPresent(h, p) && ProbeRank(p) < k
    ensures k < 4 ==> PresentUpTo(h, k + 1) == PresentUpTo(h, k) + Stage(h, ProbeAt(k))
  {
  }

  /** Stopping at stage k is the reference verdict: the response is Verdict and the probes made are ProbesRun. */
  lemma StopsAtVerdict(h: ApiHandler, o: ProbeOracle, k: nat)
    requires StopsAt(h, o, k)
    ensures ResponseAt(h, k) == Verdict(h, o)
    ensures ProbesMade(h, k) == ProbesRun(Present(h), o)
  {
    PresentUpToFacts(h, k);
    if k < 4 {
      StoppedEarly(h, o, k);
    } else {
      StoppedAtEnd(h, o);
    }
  }

  /** Every probe among the first k stages passes when the check stops at stage k. */
  lemma PassedBefore(h: ApiHandler, o: ProbeOracle, k: nat)
    requires StopsAt(h, o, k)
    ensures AllPass(PresentUpTo(h, k), o)
  {
    PresentUpToFacts(h, k);
    var done := PresentUpTo(h, k);
    forall j | 0 <= j < |done|
      ensures !Fails(done[j], o)
    {
      assert done[j] in done;
      assert !FailsAt(h, o, ProbeRank(done[j]));
    }
  }

  /** Stopping at a failing stage k < 4: the verdict names probe k, and the probes made end with it. */
  lemma StoppedEarly(h: ApiHandler, o: ProbeOracle, k: nat)
    requires k < 4 && StopsAt(h, o, k)
    ensures ResponseAt(h, k) == Verdict(h, o)
    ensures ProbesMade(h, k) == ProbesRun(Present(h), o)
  {
    var done, p := PresentUpTo(h, k), ProbeAt(k);
    PassedBefore(h, o, k);
    PresentUpToFacts(h, k + 1);
    var rest := Present(h)[|done| + 1..];
    assert Present(h) == done + [p] + rest;
    FailFastSplit(done, p, rest, o);
  }

  /** After passing probes, the first failing probe p is the one reported and the last one made. */
  lemma {:induction false} FailFastSplit(done: seq<Probe>, p: Probe, rest: seq<Probe>, o: ProbeOracle)
    requires AllPass(done, o) && Fails(p, o)
    ensures ProbesRun(done + [p] + rest, o) == done + [p]
    ensures FailingProbes(done + [p] + rest, o) != [] && FailingProbes(done + [p] + rest, o)[0] == p
  {
    if done == [] {
      assert done + [p] + rest == [p] + rest;
      assert ([p] + rest)[1..] == rest;
    } else {
      FailFastSplit(done[1..], p, rest, o);
      assert (done + [p] + rest)[1..] == done[1..] + [p] + rest;
      assert done + [p] == [done[0]] + (done[1..] + [p]);
    }
  }

  /** Running through every stage: no present probe fails, the verdict is "pong" and every present probe was made. */
  lemma StoppedAtEnd(h: ApiHandler, o: ProbeOracle)
    requires StopsAt(h, o, 4)
    ensures ResponseAt(h, 4) == Verdict(h, o)
    ensures ProbesMade(h, 4) == ProbesRun(Present(h), o)
  {
    PassedBefore(h, o, 4);
    AllPassRun(Present(h), o);
  }

  /** When every probe passes, none is reported and all are made. */
  lemma {:induction false} AllPassRun(ps: seq<Probe>, o: ProbeOracle)
    requires AllPass(ps, o)
    ensures FailingProbes(ps, o) == [] && ProbesRun(ps, o) == ps
  {
    if ps != [] {
      AllPassRun(ps[1..], o);
      assert ps == [ps[0]] + ps[1..];
    }
  }

  // ---------------------------------------------------------------------
  // Properties of the verdict.

  /** Present(h) lists, in the fixed order, a probe for each present dependency other than Storage. */
  lemma PresentInOrder(h: ApiHandler)
    ensures InProbeOrder(Present(h))
    ensures forall p :: p in Present(h) <==> IsPresent(h, p)
  {
  }

  /** The probes made follow the fixed order, each at most once, and are all present. */
  lemma ProbesRunInOrder(h: ApiHandler, o: ProbeOracle)
    ensures InProbeOrder(ProbesRun(Present(h), o))
    ensures forall p :: p in ProbesRun(Present(h), o) ==> IsPresent(h, p)
  {
    PresentInOrder(h);
    ProbesRunIsFailFast(Present(h), o);
    PrefixInOrder(Present(h), ProbesRun(Present(h), o));
  }

  /** A prefix of a sequence in probe order is in probe order, and holds only members of it. */
  lemma PrefixInOrder(ps: seq<Probe>, run: seq<Probe>)
    requires InProbeOrder(ps) && run <= ps
    ensures InProbeOrder(run)
    ensures forall p :: p in run ==> p in ps
  {
    assert run == ps[..|run|];
  }

  /** The response is 500 exactly when some present dependency fails, and 200 "pong" otherwise. */
  lemma VerdictStatus(h: ApiHandler, o: ProbeOracle)
    ensures Verdict(h, o).status == StatusInternalServerError <==> exists p :: IsPresent(h, p) && Fails(p, o)
    ensures Verdict(h, o).status == StatusOK <==> Verdict(h, o) == PongResponse(h)
  {
    PresentInOrder(h);
    FailingProbesMembers(Present(h), o);
    var failing := FailingProbes(Present(h), o);
    if failing != [] {
      assert failing[0] in failing;
    }
  }

  /** If ps[i] is the first failing probe of ps, it is reported and exactly ps[..i+1] is probed. */
  lemma {:induction false} FirstFailingAt(ps: seq<Probe>, o: ProbeOracle, i: nat)
    requires i < |ps| && Fails(ps[i], o)
    requires forall j :: 0 <= j < i ==> !Fails(ps[j], o)
    ensures FailingProbes(ps, o) != [] && FailingProbes(ps, o)[0] == ps[i]
    ensures ProbesRun(ps, o) == ps[..i + 1]
  {
    if i > 0 {
      FirstFailingAt(ps[1..], o, i - 1);
      assert ps[1..][..i] == ps[1..i + 1];
      assert ps[..i + 1] == [ps[0]] + ps[1..i + 1];
    }
  }

  /** The first failing present dependency decides the response, and no later probe is made. */
  lemma FirstFailureReported(h: ApiHandler, o: ProbeOracle, i: nat)
    requires i < |Present(h)| && Fails(Present(h)[i], o)
    requires forall j :: 0 <= j < i ==> !Fails(Present(h)[j], o)
    ensures Verdict(h, o) == ErrorResponse(h, ErrorMessage(Present(h)[i]))
    ensures ProbesRun(Present(h), o) == Present(h)[..i + 1]
  {
    FirstFailingAt(Present(h), o, i);
  }

  /** With no database, cache, broker or gRPC server the check answers 200 "pong" and probes nothing. */
  lemma NoDependenciesPong(h: ApiHandler, o: ProbeOracle)
    requires !h.db && !h.cache && !h.messageBroker && !h.serviceModule.hasGrpcServer
    ensures Verdict(h, o) == PongResponse(h)
    ensures ProbesRun(Present(h), o) == []
  {
    PresentInOrder(h);
    assert Present(h) == [];
  }

  /** Storage is never probed: it changes neither the response nor the probes made. */
  lemma StorageNeverProbed(h: ApiHandler, o: ProbeOracle, storage: bool)
    ensures Verdict(h.(storage := storage), o) == Verdict(h, o)
    ensures ProbesRun(Present(h.(storage := storage)), o) == ProbesRun(Present(h), o)
  {
    PresentInOrder(h);
    PresentInOrder(h.(storage := storage));
    assert Present(h.(storage := storage)) == Present(h);
  }

  /** Both a DB() handle error and a Ping error give the database message, before any other probe. */
  lemma DatabaseFailureMessage(h: ApiHandler, o: ProbeOracle)
    requires h.db && (o.dbHandleErr || o.dbPingErr)
    ensures Verdict(h, o) == ErrorResponse(h, DatabaseErrorMessage)
    ensures ProbesRun(Present(h), o) == [DatabaseProbe]
  {
    PresentInOrder(h);
    assert Present(h)[0] == DatabaseProbe;
    FirstFailingAt(Present(h), o, 0);
  }

  /** A reachable database and a failing cache give 500 naming the cache; the broker is never probed. */
  lemma CacheFailureStopsBeforeBroker(h: ApiHandler, o: ProbeOracle)
    requires h.db && h.cache && h.messageBroker
    requires !o.dbHandleErr && !o.dbPingErr && o.cachePingErr
    ensures Verdict(h, o) == ErrorResponse(h, CacheErrorMessage)
    ensures ProbesRun(Present(h), o) == [DatabaseProbe, CacheProbe]
  {
    PresentInOrder(h);
    assert Present(h)[..2] == [DatabaseProbe, CacheProbe];
    FirstFailingAt(Present(h), o, 1);
  }

  /** The gRPC probe, last in order, fails on a dial error, a Check error or any status other than SERVING. */
  lemma GrpcFailureMessage(h: ApiHandler, o: ProbeOracle)
    requires h.serviceModule.hasGrpcServer
    requires forall p :: IsPresent(h, p) && p != GrpcProbe ==> !Fails(p, o)
    requires o.grpcDialErr || o.grpcCheckErr || o.grpcStatus != Serving
    ensures Verdict(h, o) == ErrorResponse(h, GrpcErrorMessage)
    ensures ProbesRun(Present(h), o) == Present(h)
  {
    PresentInOrder(h);
    var ps := Present(h);
    assert ps[|ps| - 1] == GrpcProbe;
    forall j | 0 <= j < |ps| - 1
      ensures !Fails(ps[j], o)
    {
      InOrderRanks(ps, j, |ps| - 1);
      assert ps[j] in ps;
    }
    FirstFailingAt(ps, o, |ps| - 1);
    assert ps[..|ps|] == ps;
  }

  /** In a sequence in probe order, an earlier position has a smaller rank. */
  lemma {:induction false} InOrderRanks(ps: seq<Probe>, i: nat, j: nat)
    requires InProbeOrder(ps) && i < j < |ps|
    ensures ProbeRank(ps[i]) < ProbeRank(ps[j])
    decreases j - i
  {
    if i + 1 < j {
      InOrderRanks(ps, i + 1, j);
    }
  }

  // ---------------------------------------------------------------------
  // The code as written at api.go:119-120: the non-SERVING branch logs
  // err.Error() while err is nil, which panics before isError is set. The
  // deferred writer still runs during the panic, with isError false.

  /** Outcome of the gRPC block as written. */
  datatype GrpcStep = GrpcPassed | GrpcFailed | NilErrorPanic

  function GrpcStepAsWritten(o: ProbeOracle): (r: GrpcStep)
    ensures r == NilErrorPanic <==> !o.grpcDialErr && !o.grpcCheckErr && o.grpcStatus != Serving
    ensures r == GrpcFailed <==> o.grpcDialErr || o.grpcCheckErr
  {
    if o.grpcDialErr || o.grpcCheckErr then GrpcFailed
    else if o.grpcStatus != Serving then NilErrorPanic
    else GrpcPassed
  }

  /**
   The response written as the code stands: a panic in the gRPC block leaves
   isError false, so "pong" is written. It departs from Verdict only there:
   where Verdict reports the gRPC failure, the code as written answers "pong".
   */
  function AsWrittenResponse(h: ApiHandler, o: ProbeOracle): (r: Response)
    ensures r != Verdict(h, o) ==>
              && r == PongResponse(h)
              && Verdict(h, o) == ErrorResponse(h, GrpcErrorMessage)
              && o.grpcStatus != Serving
    ensures r.status == StatusInternalServerError ==> r == Verdict(h, o)
  {
    var failing := FailingProbes(Present(h), o);
    if failing != [] && failing[0] == GrpcProbe && GrpcStepAsWritten(o) == NilErrorPanic then
      PongResponse(h)
    else
      Verdict(h, o)
  }

  /** A gRPC server answering NOT_SERVING is reported healthy by the code as written, and unhealthy by HealthCheck. */
  lemma NotServingReportedHealthyAsWritten()
    ensures var h := ApiHandler("svc", "v1", Module(true), false, false, false, false);
            var o := ProbeOracle(false, false, false, true, false, false, NotServing);
            AsWrittenResponse(h, o).status == StatusOK
            && Verdict(h, o).status == StatusInternalServerError
  {
    var h := ApiHandler("svc", "v1", Module(true), false, false, false, false);
    var o := ProbeOracle(false, false, false, true, false, false, NotServing);
    assert Present(h) == [GrpcProbe];
    assert FailingProbes(Present(h), o) == [GrpcProbe];
  }
}
