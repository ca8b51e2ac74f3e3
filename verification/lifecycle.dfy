/**
 The service lifecycle of package appcore: the listen-address defaults set at
 start-up, starting the servers (Run) and the best-effort shutdown (Stop).

 SDK calls (http.Server.Shutdown, gorm's DB(), sql.DB.Close, redis Close) are
 oracles: whether each one returns an error is a field of StopOracle.
 */
module Appcore {
  import AppcoreHandler

  const DefaultPort: string := "8000"
  const DefaultIP: string := "0.0.0.0"

  /** The port after defaulting: an empty flag becomes "8000", any other value is kept. */
  function ResolvePort(flag: string): (r: string)
    ensures r != ""
    ensures flag != "" ==> r == flag
    ensures flag == "" ==> r == DefaultPort
  {
    if flag == "" then DefaultPort else flag
  }

  /** The gRPC port after defaulting: an empty flag becomes "1" followed by the resolved port. */
  function ResolveGrpcPort(flag: string, port: string): (r: string)
    ensures r != ""
    ensures flag != "" ==> r == flag
    ensures flag == "" ==> |r| == |port| + 1 && r[0] == '1' && r[1..] == port
  {
    if flag == "" then "1" + port else flag
  }

  /** The IP after defaulting: an empty flag becomes "0.0.0.0", any other value is kept. */
  function ResolveIP(flag: string): (r: string)
    ensures r != ""
    ensures flag != "" ==> r == flag
    ensures flag == "" ==> r == DefaultIP
  {
    if flag == "" then DefaultIP else flag
  }

  /** The package-level listen settings Port, GrpcPort and IP. */
  class ListenAddress {
    var Port: string
    var GrpcPort: string
    var IP: string

    constructor ()
      ensures Port == "" && GrpcPort == "" && IP == ""
    {
      Port, GrpcPort, IP := "", "", "";
    }

    /**
     init, after flag.Parse has stored the three flag values: each empty
     setting is replaced by its default, GrpcPort from the resolved Port.
     */
    method Init(portFlag: string, grpcPortFlag: string, ipFlag: string)
      modifies this
      ensures Port == ResolvePort(portFlag)
      ensures GrpcPort == ResolveGrpcPort(grpcPortFlag, Port)
      ensures IP == ResolveIP(ipFlag)
    {
      Port, GrpcPort, IP := portFlag, grpcPortFlag, ipFlag;
      if Port == "" {
        Port := DefaultPort;
      }
      if GrpcPort == "" {
        GrpcPort := "1" + Port;
      }
      if IP == "" {
        IP := DefaultIP;
      }
    }
  }

  /** With no flags given, the service listens on 0.0.0.0, port 8000, and serves gRPC on 18000. */
  lemma DefaultListenAddress()
    ensures ResolvePort("") == "8000"
    ensures ResolveGrpcPort("", ResolvePort("")) == "18000"
    ensures ResolveIP("") == "0.0.0.0"
  {
  }

  /** Defaulting is idempotent: resolving already-resolved settings changes nothing. */
  lemma ResolveIdempotent(portFlag: string, grpcPortFlag: string, ipFlag: string)
    ensures var port := ResolvePort(portFlag);
            ResolvePort(port) == port
            && ResolveGrpcPort(ResolveGrpcPort(grpcPortFlag, port), port) == ResolveGrpcPort(grpcPortFlag, port)
            && ResolveIP(ResolveIP(ipFlag)) == ResolveIP(ipFlag)
  {
  }

  /** A server started by Run. */
  datatype Listener = RestApi | GrpcServer

  /** A server and the address "ip:port" it listens on. */
  datatype Listening = Listening(server: Listener, address: string)

  /** A resource the service may hold. */
  datatype Dependency = Database | Cache | MessageBroker | Storage

  /** A step of Stop that calls into an SDK. */
  datatype StopStep =
    | ShutdownApi        // restAPIServer.Shutdown
    | StopGrpc           // GrpcServer().GracefulStop
    | OpenSqlDb          // DB.DB(), obtaining the SQL handle
    | Close(dependency: Dependency)

  /** Which SDK calls of Stop return an error. GracefulStop and the broker's Close return none. */
  datatype StopOracle = StopOracle(
    apiShutdownErr: bool,
    sqlDbErr: bool,
    dbCloseErr: bool,
    cacheCloseErr: bool)

  /** Whether a step's call returns an error (and so is logged). */
  predicate StepFails(s: StopStep, o: StopOracle)
  {
    match s
    case ShutdownApi => o.apiShutdownErr
    case OpenSqlDb => o.sqlDbErr
    case Close(Database) => o.dbCloseErr
    case Close(Cache) => o.cacheCloseErr
    case _ => false
  }

  /** The position of each step in the shutdown order. */
  function Rank(s: StopStep): nat
  {
    match s
    case ShutdownApi => 0
    case StopGrpc => 1
    case OpenSqlDb => 2
    case Close(Database) => 3
    case Close(MessageBroker) => 4
    case Close(Cache) => 5
    case Close(Storage) => 6
  }

  /** Steps in strictly increasing rank: the shutdown order, each step at most once. */
  predicate Ranked(steps: seq<StopStep>)
  {
    forall i :: 0 < i < |steps| ==> Rank(steps[i - 1]) < Rank(steps[i])
  }

  /** The steps of `steps` whose call returned an error, in order. */
  function FailedSteps(steps: seq<StopStep>, o: StopOracle): seq<StopStep>
  {
    if steps == [] then []
    else FailedSteps(steps[..|steps| - 1], o)
         + (if StepFails(steps[|steps| - 1], o) then [steps[|steps| - 1]] else [])
  }

  /** A service: its identity, its handler and the resources copied from the handler. */
  class Service {
    const ServiceName: string
    const Version: string
    const ApiHandler: AppcoreHandler.ApiHandler
    const DB: bool
    const Cache: bool
    const MessageBroker: bool
    const Storage: bool

    /** Whether restAPIServer is non-nil. */
    var restAPIServer: bool
    /** The servers started so far, with their addresses. */
    ghost var started: seq<Listening>

    /** NewService: the resources are those of the handler; no server is running yet. */
    constructor NewService(serviceName: string, version: string, apiHandler: AppcoreHandler.ApiHandler)
      ensures ServiceName == serviceName && Version == version && ApiHandler == apiHandler
      ensures DB == apiHandler.db && Cache == apiHandler.cache
      ensures MessageBroker == apiHandler.messageBroker && Storage == apiHandler.storage
      ensures !restAPIServer && started == []
    {
      ServiceName, Version, ApiHandler := serviceName, version, apiHandler;
      DB, Cache := apiHandler.db, apiHandler.cache;
      MessageBroker, Storage := apiHandler.messageBroker, apiHandler.storage;
      restAPIServer := false;
      started := [];
    }

    /**
     Run: the REST server always starts on IP:Port and restAPIServer is set;
     the gRPC server starts on IP:GrpcPort only when the module has one.
     */
    method Run(addr: ListenAddress)
      modifies this
      ensures restAPIServer
      ensures started == old(started) + [Listening(RestApi, addr.IP + ":" + addr.Port)]
                         + (if ApiHandler.serviceModule.hasGrpcServer
                            then [Listening(GrpcServer, addr.IP + ":" + addr.GrpcPort)] else [])
    {
      restAPIServer := true;
      started := started + [Listening(RestApi, addr.IP + ":" + addr.Port)];
      if ApiHandler.serviceModule.hasGrpcServer {
        started := started + [Listening(GrpcServer, addr.IP + ":" + addr.GrpcPort)];
      }
    }

    /**
     Stop: every step runs whatever the earlier ones returned; an error is
     only logged. `attempted` lists the SDK calls made, in order, and
     `logged` the ones whose error was logged.
     */
    method Stop(o: StopOracle) returns (attempted: seq<StopStep>, logged: seq<StopStep>)
      requires restAPIServer
      ensures attempted == StopSteps(ApiHandler.serviceModule.hasGrpcServer, DB, o.sqlDbErr, MessageBroker, Cache)
      ensures logged == FailedSteps(attempted, o)
    {
      attempted, logged := [], [];
      attempted, logged := Attempt(attempted, logged, ShutdownApi, o);
      if ApiHandler.serviceModule.hasGrpcServer {
        attempted, logged := Attempt(attempted, logged, StopGrpc, o);
      }
      if DB {
        attempted, logged := Attempt(attempted, logged, OpenSqlDb, o);
        if !o.sqlDbErr {
          attempted, logged := Attempt(attempted, logged, Close(Dependency.Database), o);
        }
      }
      if MessageBroker {
        attempted, logged := Attempt(attempted, logged, Close(Dependency.MessageBroker), o);
      }
      if Cache {
        attempted, logged := Attempt(attempted, logged, Close(Dependency.Cache), o);
      }
    }
  }

  /** steps followed by s when the condition holds, else steps. */
  function Then(steps: seq<StopStep>, present: bool, s: StopStep): seq<StopStep>
  {
    if present then steps + [s] else steps
  }

  /**
   The calls Stop makes: API shutdown, then the gRPC stop, the SQL handle and
   its Close, the broker's Close and the cache's Close, each only for a
   present resource; the database Close also needs the SQL handle.
   */
  function StopSteps(grpc: bool, db: bool, sqlDbErr: bool, broker: bool, cache: bool): seq<StopStep>
  {
    var api := [ShutdownApi];
    var withGrpc := Then(api, grpc, StopGrpc);
    var withDb := Then(Then(withGrpc, db, OpenSqlDb), db && !sqlDbErr, Close(Database));
    Then(Then(withDb, broker, Close(MessageBroker)), cache, Close(Cache))
  }

  /** One step of Stop: make the call and log its error if it returns one. */
  method Attempt(attempted: seq<StopStep>, logged: seq<StopStep>, s: StopStep, o: StopOracle)
    returns (attempted': seq<StopStep>, logged': seq<StopStep>)
    requires logged == FailedSteps(attempted, o)
    ensures attempted' == attempted + [s]
    ensures logged' == FailedSteps(attempted', o)
  {
    attempted' := attempted + [s];
    logged' := logged;
    if StepFails(s, o) {
      logged' := logged' + [s];
    }
    assert attempted'[..|attempted'| - 1] == attempted;
  }

  /** Stop's calls are in the shutdown order, each at most once, starting with the API shutdown. */
  lemma StopStepsOrder(grpc: bool, db: bool, sqlDbErr: bool, broker: bool, cache: bool)
    ensures Ranked(StopSteps(grpc, db, sqlDbErr, broker, cache))
    ensures StopSteps(grpc, db, sqlDbErr, broker, cache)[0] == ShutdownApi
  {
    StopStepsBuild(grpc, db, sqlDbErr, broker, cache);
  }

  /**
   Each present resource has its close attempted and absent ones are
   skipped; only a failed SQL handle skips the database Close, and Storage
   is never closed. The errors of the other calls change nothing.
   */
  lemma StopStepsMembers(grpc: bool, db: bool, sqlDbErr: bool, broker: bool, cache: bool)
    ensures var steps := StopSteps(grpc, db, sqlDbErr, broker, cache);
            && (StopGrpc in steps <==> grpc)
            && (OpenSqlDb in steps <==> db)
            && (Close(Database) in steps <==> db && !sqlDbErr)
            && (Close(MessageBroker) in steps <==> broker)
            && (Close(Cache) in steps <==> cache)
            && Close(Storage) !in steps
  {
    StopStepsBuild(grpc, db, sqlDbErr, broker, cache);
  }

  /** StopSteps, stage by stage: ranked, starting with the API shutdown, with exactly the listed members. */
  lemma StopStepsBuild(grpc: bool, db: bool, sqlDbErr: bool, broker: bool, cache: bool)
    ensures var steps := StopSteps(grpc, db, sqlDbErr, broker, cache);
            && Ranked(steps) && steps[0] == ShutdownApi
            && forall t :: t in steps <==>
                 || t == ShutdownApi
                 || (grpc && t == StopGrpc)
                 || (db && t == OpenSqlDb)
                 || (db && !sqlDbErr && t == Close(Database))
                 || (broker && t == Close(MessageBroker))
                 || (cache && t == Close(Cache))
  {
    var api := [ShutdownApi];
    var s1 := Then(api, grpc, StopGrpc);
    ThenStep(api, grpc, StopGrpc, 2);
    var s2 := Then(s1, db, OpenSqlDb);
    ThenStep(s1, db, OpenSqlDb, 3);
    var s3 := Then(s2, db && !sqlDbErr, Close(Database));
    ThenStep(s2, db && !sqlDbErr, Close(Database), 4);
    var s4 := Then(s3, broker, Close(MessageBroker));
    ThenStep(s3, broker, Close(MessageBroker), 5);
    ThenStep(s4, cache, Close(Cache), 6);
  }

  /** Every step of steps ranks below r. */
  predicate Below(steps: seq<StopStep>, r: nat)
  {
    forall i :: 0 <= i < |steps| ==> Rank(steps[i]) < r
  }

  /** Appending a step that ranks above every earlier one keeps the sequence ranked, and adds just that member. */
  lemma ThenStep(steps: seq<StopStep>, present: bool, s: StopStep, next: nat)
    requires Ranked(steps) && Below(steps, Rank(s)) && Rank(s) < next
    ensures Ranked(Then(steps, present, s)) && Below(Then(steps, present, s), next)
    ensures forall t :: t in Then(steps, present, s) <==> t in steps || (present && t == s)
    ensures |steps| > 0 ==> Then(steps, present, s)[0] == steps[0]
  {
  }

  /** FailedSteps keeps exactly the attempted steps whose call returned an error. */
  lemma {:induction false} FailedStepsMembers(steps: seq<StopStep>, o: StopOracle)
    ensures forall s :: s in FailedSteps(steps, o) <==> s in steps && StepFails(s, o)
  {
    if steps != [] {
      FailedStepsMembers(steps[..|steps| - 1], o);
      assert steps == steps[..|steps| - 1] + [steps[|steps| - 1]];
    }
  }

  /** Rank tells steps apart. */
  lemma RankInjective(s: StopStep, t: StopStep)
    requires Rank(s) == Rank(t)
    ensures s == t
  {
  }

  /** In a ranked sequence every member ranks no higher than the last one. */
  lemma {:induction false} RankedLastIsMax(steps: seq<StopStep>, i: nat)
    requires Ranked(steps) && i < |steps|
    ensures Rank(steps[i]) <= Rank(steps[|steps| - 1])
    decreases |steps| - i
  {
    if i + 1 < |steps| {
      RankedLastIsMax(steps, i + 1);
    }
  }

  /**
   Two ranked step sequences with the same members are equal: the order of
   Stop's calls is fixed by which of them are made.
   */
  lemma {:induction false} RankedDeterminedByMembers(a: seq<StopStep>, b: seq<StopStep>)
    requires Ranked(a) && Ranked(b)
    requires forall s :: s in a <==> s in b
    ensures a == b
    decreases |a|
  {
    if a == [] {
      if b != [] {
        HeadIsMember(b);
        assert false;
      }
    } else if b == [] {
      HeadIsMember(a);
      assert false;
    } else {
      SameLast(a, b);
      var a', b' := a[..|a| - 1], b[..|b| - 1];
      SameInitMembers(a, b, a', b');
      RankedDeterminedByMembers(a', b');
      assert a == a' + [a[|a| - 1]] && b == b' + [b[|b| - 1]];
    }
  }

  /** Two non-empty ranked sequences with the same members end with the same step: the highest-ranked member. */
  lemma SameLast(a: seq<StopStep>, b: seq<StopStep>)
    requires Ranked(a) && Ranked(b) && a != [] && b != []
    requires forall s :: s in a <==> s in b
    ensures a[|a| - 1] == b[|b| - 1]
  {
    var x, y := a[|a| - 1], b[|b| - 1];
    assert x in a && y in b;
    var i :| 0 <= i < |a| && a[i] == y;
    var j :| 0 <= j < |b| && b[j] == x;
    RankedLastIsMax(a, i);
    RankedLastIsMax(b, j);
    RankInjective(x, y);
  }

  /** A non-empty sequence holds its first element. */
  lemma HeadIsMember(steps: seq<StopStep>)
    requires steps != []
    ensures steps[0] in steps
  {
  }

  /** Dropping the common last element of two ranked sequences with the same members keeps them ranked with the same members. */
  lemma SameInitMembers(a: seq<StopStep>, b: seq<StopStep>, a': seq<StopStep>, b': seq<StopStep>)
    requires Ranked(a) && Ranked(b) && a != [] && b != []
    requires a[|a| - 1] == b[|b| - 1]
    requires forall s :: s in a <==> s in b
    requires a' == a[..|a| - 1] && b' == b[..|b| - 1]
    ensures Ranked(a') && Ranked(b')
    ensures forall s :: s in a' <==> s in b'
  {
    forall s
      ensures s in a' <==> s in b'
    {
      if s in a' {
        var k :| 0 <= k < |a'| && a'[k] == s;
        RankedStrict(a, k);
        assert s in b;
        var m :| 0 <= m < |b| && b[m] == s;
        assert m != |b| - 1;
        assert b'[m] == s;
      }
      if s in b' {
        var k :| 0 <= k < |b'| && b'[k] == s;
        RankedStrict(b, k);
        assert s in a;
        var m :| 0 <= m < |a| && a[m] == s;
        assert m != |a| - 1;
        assert a'[m] == s;
      }
    }
  }

  /** In a ranked sequence every member before the last ranks strictly lower than it. */
  lemma {:induction false} RankedStrict(steps: seq<StopStep>, i: nat)
    requires Ranked(steps) && i < |steps| - 1
    ensures Rank(steps[i]) < Rank(steps[|steps| - 1])
    decreases |steps| - i
  {
    if i + 2 < |steps| {
      RankedStrict(steps, i + 1);
    }
  }
}
