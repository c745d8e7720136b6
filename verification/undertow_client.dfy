/**
 The client entry point: a registry from URI scheme to the connection provider
 that handles it, built once from the providers in load order, and the connect
 operations that look the provider up and hand the request to it.
 */
module UndertowClient {
  import opened Wrappers

  /** A connection provider and the URI schemes it declares it handles. */
  datatype Provider = Provider(name: string, schemes: set<string>)

  /** A target URI; a relative URI has no scheme. */
  datatype Uri = Uri(scheme: Option<string>, text: string)

  /**
   A client instance. `identity` stands for Java object identity, so that a
   shared instance can be told apart from a freshly constructed one.
   */
  datatype Client = Client(identity: nat, clientProviders: map<string, Provider>)

  datatype ClientError = UnknownScheme(uri: Uri)

  /** Some provider in `providers` declares `scheme`. */
  ghost predicate Declares(providers: seq<Provider>, scheme: string) {
    exists j :: 0 <= j < |providers| && scheme in providers[j].schemes
  }

  /** `providers[j]` declares `scheme` and no later provider does. */
  ghost predicate LastDeclarer(providers: seq<Provider>, scheme: string, j: int) {
    && 0 <= j < |providers|
    && scheme in providers[j].schemes
    && forall k :: j < k < |providers| ==> scheme !in providers[k].schemes
  }

  /** Registers one provider under each of its schemes, replacing earlier entries. */
  function Register(registry: map<string, Provider>, p: Provider): map<string, Provider> {
    registry + map s | s in p.schemes :: p
  }

  /** The registry built by registering every provider in load order. */
  function BuildRegistry(providers: seq<Provider>): (registry: map<string, Provider>)
    ensures forall s :: s in registry <==> Declares(providers, s)
    decreases |providers|
  {
    if providers == [] then map[]
    else
      var init := providers[..|providers| - 1];
      var r := Register(BuildRegistry(init), providers[|providers| - 1]);
      assert forall s :: Declares(init, s) ==> Declares(providers, s) by {
        forall s | Declares(init, s) ensures Declares(providers, s) {
          var j :| 0 <= j < |init| && s in init[j].schemes;
          assert s in providers[j].schemes;
        }
      }
      r
  }

  /** When several providers declare a scheme, the last one in load order is registered. */
  lemma {:induction false} RegistryLastDeclarerWins(providers: seq<Provider>, scheme: string, j: int)
    requires LastDeclarer(providers, scheme, j)
    ensures scheme in BuildRegistry(providers)
    ensures BuildRegistry(providers)[scheme] == providers[j]
    decreases |providers|
  {
    var last := |providers| - 1;
    if j < last {
      var init := providers[..last];
      assert LastDeclarer(init, scheme, j);
      RegistryLastDeclarerWins(init, scheme, j);
      assert scheme !in providers[last].schemes;
    }
  }

  /** A client whose registry is built from the providers a class loader discovers. */
  function NewClient(identity: nat, discovered: seq<Provider>): (c: Client)
    ensures c.identity == identity
    ensures forall s :: s in c.clientProviders <==> Declares(discovered, s)
    ensures forall s, j :: LastDeclarer(discovered, s, j) ==> s in c.clientProviders && c.clientProviders[s] == discovered[j]
  {
    forall s, j | LastDeclarer(discovered, s, j) ensures BuildRegistry(discovered)[s] == discovered[j] {
      RegistryLastDeclarerWins(discovered, s, j);
    }
    Client(identity, BuildRegistry(discovered))
  }

  /** Resolves the provider for the URI's scheme; a scheme with no provider is an error. */
  function GetClientProvider(c: Client, uri: Uri): (r: Result<Provider, ClientError>)
    ensures r.Success? <==> uri.scheme.Some? && uri.scheme.value in c.clientProviders
    ensures r.Success? ==> r.value == c.clientProviders[uri.scheme.value]
    ensures r.Failure? ==> r.error == UnknownScheme(uri)
  {
    if uri.scheme.Some? && uri.scheme.value in c.clientProviders then
      Success(c.clientProviders[uri.scheme.value])
    else
      Failure(UnknownScheme(uri))
  }

  /** Lookup on a freshly built client: the last declarer of the scheme, or unknown scheme. */
  lemma LookupAfterDiscovery(identity: nat, discovered: seq<Provider>, uri: Uri)
    ensures uri.scheme.None? ==>
              GetClientProvider(NewClient(identity, discovered), uri) == Failure(UnknownScheme(uri))
    ensures uri.scheme.Some? && !Declares(discovered, uri.scheme.value) ==>
              GetClientProvider(NewClient(identity, discovered), uri) == Failure(UnknownScheme(uri))
    ensures forall j :: uri.scheme.Some? && LastDeclarer(discovered, uri.scheme.value, j) ==>
              GetClientProvider(NewClient(identity, discovered), uri) == Success(discovered[j])
  {
  }

  /** Where the connection's I/O runs: any worker thread of a pool, or one given I/O thread. */
  datatype Target = Worker(worker: nat) | IoThread(ioThread: nat)

  /** Who the provider reports to: the caller's own listener, or the adapter feeding a future. */
  datatype Callback = Listener(listener: nat) | FutureAdapter

  /** The call handed to a provider: everything the caller passed, plus the callback. */
  datatype ConnectCall = ConnectCall(
    provider: Provider,
    callback: Callback,
    uri: Uri,
    target: Target,
    ssl: Option<nat>,
    bufferPool: nat,
    options: nat)

  /** What a provider reports through its callback. */
  datatype ConnectionEvent = Completed(connection: nat) | Failed(exception: string)

  /** A single-shot future: waiting, or holding a connection, or holding an exception. */
  datatype IoFuture = Waiting | HasResult(connection: nat) | HasException(exception: string)

  /**
   `call` goes to the provider registered for the URI's scheme and carries the
   callback and every caller argument unchanged.
   */
  ghost predicate HandsOver(call: ConnectCall, c: Client, callback: Callback, uri: Uri, target: Target,
                            ssl: Option<nat>, bufferPool: nat, options: nat) {
    && uri.scheme.Some?
    && uri.scheme.value in c.clientProviders
    && call.provider == c.clientProviders[uri.scheme.value]
    && call.callback == callback
    && call.uri == uri && call.target == target && call.ssl == ssl
    && call.bufferPool == bufferPool && call.options == options
  }

  /** The report a future holds once `e` is the first report it receives. */
  ghost predicate HoldsReport(f: IoFuture, e: ConnectionEvent) {
    && (e.Completed? ==> f == HasResult(e.connection))
    && (e.Failed? ==> f == HasException(e.exception))
  }

  /** Looks the provider up, then hands the request to it unchanged. */
  function Delegate(c: Client, callback: Callback, uri: Uri, target: Target, ssl: Option<nat>,
                    bufferPool: nat, options: nat): (r: Result<ConnectCall, ClientError>)
    ensures r.Failure? <==> GetClientProvider(c, uri).Failure?
    ensures r.Failure? ==> r.error == UnknownScheme(uri)
    ensures r.Success? ==> HandsOver(r.value, c, callback, uri, target, ssl, bufferPool, options)
  {
    match GetClientProvider(c, uri)
    case Failure(e) => Failure(e)
    case Success(p) => Success(ConnectCall(p, callback, uri, target, ssl, bufferPool, options))
  }

  /** Connect reporting to the caller's listener, with an explicit SSL context. */
  function ConnectWithListener(c: Client, listener: nat, uri: Uri, target: Target, ssl: Option<nat>,
                               bufferPool: nat, options: nat): (r: Result<ConnectCall, ClientError>)
    ensures r.Failure? <==> GetClientProvider(c, uri).Failure?
    ensures r.Failure? ==> r.error == UnknownScheme(uri)
    ensures r.Success? ==> HandsOver(r.value, c, Listener(listener), uri, target, ssl, bufferPool, options)
  {
    Delegate(c, Listener(listener), uri, target, ssl, bufferPool, options)
  }

  /** Connect reporting to the caller's listener, without an SSL context. */
  function ConnectWithListenerNoSsl(c: Client, listener: nat, uri: Uri, target: Target,
                                    bufferPool: nat, options: nat): (r: Result<ConnectCall, ClientError>)
    ensures r == ConnectWithListener(c, listener, uri, target, None, bufferPool, options)
    ensures r.Success? ==> r.value.ssl.None?
  {
    ConnectWithListener(c, listener, uri, target, None, bufferPool, options)
  }

  /**
   Connect returning a future, with an explicit SSL context. The provider may
   report through the adapter before its connect call returns (`inlineReport`);
   the returned future then already holds that report, and is waiting otherwise.
   */
  function ConnectForFuture(c: Client, uri: Uri, target: Target, ssl: Option<nat>,
                            bufferPool: nat, options: nat, inlineReport: Option<ConnectionEvent>)
    : (r: Result<(ConnectCall, IoFuture), ClientError>)
    ensures r.Failure? <==> GetClientProvider(c, uri).Failure?
    ensures r.Failure? ==> r.error == UnknownScheme(uri)
    ensures r.Success? ==> HandsOver(r.value.0, c, FutureAdapter, uri, target, ssl, bufferPool, options)
    ensures r.Success? && inlineReport.None? ==> r.value.1 == Waiting
    ensures r.Success? && inlineReport.Some? ==> HoldsReport(r.value.1, inlineReport.value)
  {
    match Delegate(c, FutureAdapter, uri, target, ssl, bufferPool, options)
    case Failure(e) => Failure(e)
    case Success(call) =>
      var future := match inlineReport
        case None => Waiting
        case Some(e) => Deliver(Waiting, e);
      Success((call, future))
  }

  /** Connect returning a future, without an SSL context. */
  function ConnectForFutureNoSsl(c: Client, uri: Uri, target: Target, bufferPool: nat, options: nat,
                                 inlineReport: Option<ConnectionEvent>)
    : (r: Result<(ConnectCall, IoFuture), ClientError>)
    ensures r == ConnectForFuture(c, uri, target, None, bufferPool, options, inlineReport)
    ensures r.Success? ==> r.value.0.ssl.None?
  {
    ConnectForFuture(c, uri, target, None, bufferPool, options, inlineReport)
  }

  /**
   The future adapter receiving the provider's report: completion stores the
   connection, failure stores the exception; a future already holding a value
   keeps it.
   */
  function Deliver(f: IoFuture, e: ConnectionEvent): (f': IoFuture)
    ensures f.Waiting? && e.Completed? ==> f' == HasResult(e.connection)
    ensures f.Waiting? && e.Failed? ==> f' == HasException(e.exception)
    ensures !f.Waiting? ==> f' == f
  {
    if !f.Waiting? then f
    else match e
      case Completed(conn) => HasResult(conn)
      case Failed(ex) => HasException(ex)
  }

  /** A future completed once ignores every later report. */
  lemma DeliverSingleShot(f: IoFuture, e1: ConnectionEvent, e2: ConnectionEvent)
    ensures Deliver(Deliver(f, e1), e2) == Deliver(f, e1)
    ensures f.Waiting? ==> !Deliver(f, e1).Waiting?
  {
  }

  /**
   The future of a successful connect holds the provider's first report,
   whether it came before the connect call returned or afterwards.
   */
  lemma FutureHoldsProviderReport(c: Client, uri: Uri, target: Target, ssl: Option<nat>,
                                  bufferPool: nat, options: nat, inlineReport: Option<ConnectionEvent>,
                                  later: ConnectionEvent)
    requires ConnectForFuture(c, uri, target, ssl, bufferPool, options, inlineReport).Success?
    ensures var f := Deliver(ConnectForFuture(c, uri, target, ssl, bufferPool, options, inlineReport).value.1, later);
            HoldsReport(f, if inlineReport.Some? then inlineReport.value else later)
  {
  }

  /** The process-wide state behind the two instance accessors. */
  datatype Runtime = Runtime(defaultProviders: seq<Provider>, constructed: nat)

  /** The identity of the shared instance; constructed instances get 1, 2, 3, ... */
  const SharedIdentity: nat := 0

  /** The shared instance, built from the providers of the client's own class loader. */
  function GetInstance(rt: Runtime): (c: Client)
    ensures c.identity == SharedIdentity
    ensures forall s :: s in c.clientProviders <==> Declares(rt.defaultProviders, s)
    ensures forall s, j :: LastDeclarer(rt.defaultProviders, s, j) ==> s in c.clientProviders && c.clientProviders[s] == rt.defaultProviders[j]
  {
    NewClient(SharedIdentity, rt.defaultProviders)
  }

  /** A new instance whose registry comes from the providers the given class loader discovers. */
  function GetInstanceFor(rt: Runtime, discovered: seq<Provider>): (r: (Client, Runtime))
    ensures r.0.identity != SharedIdentity && r.0.identity > rt.constructed
    ensures r.1.constructed == r.0.identity
    ensures r.1.defaultProviders == rt.defaultProviders
    ensures forall s :: s in r.0.clientProviders <==> Declares(discovered, s)
    ensures forall s, j :: LastDeclarer(discovered, s, j) ==> s in r.0.clientProviders && r.0.clientProviders[s] == discovered[j]
  {
    (NewClient(rt.constructed + 1, discovered), Runtime(rt.defaultProviders, rt.constructed + 1))
  }

  /** Lookup on the shared instance yields the last default provider declaring the scheme. */
  lemma SharedInstanceLookup(rt: Runtime, uri: Uri)
    ensures (uri.scheme.None? || !Declares(rt.defaultProviders, uri.scheme.value)) ==>
              GetClientProvider(GetInstance(rt), uri) == Failure(UnknownScheme(uri))
    ensures forall j :: uri.scheme.Some? && LastDeclarer(rt.defaultProviders, uri.scheme.value, j) ==>
              GetClientProvider(GetInstance(rt), uri) == Success(rt.defaultProviders[j])
  {
  }

  /**
   The shared instance is the same before and after any construction, while two
   constructions in a row never yield the same instance, nor the shared one.
   */
  lemma InstanceIdentities(rt: Runtime, d1: seq<Provider>, d2: seq<Provider>)
    ensures var (c1, rt1) := GetInstanceFor(rt, d1);
            var (c2, rt2) := GetInstanceFor(rt1, d2);
            && GetInstance(rt2) == GetInstance(rt1) == GetInstance(rt)
            && c1.identity != c2.identity
            && c1 != GetInstance(rt2) && c2 != GetInstance(rt2)
  {
  }
}
