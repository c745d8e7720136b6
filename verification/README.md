# Undertow core pieces, modelled in Dafny

This project models four small, sequential parts of the Undertow web server and
proves properties of them:

- **Request-header exchange attribute** (`RequestHeaderAttribute`): the builder
  that recognises a `%{i,NAME}` token and the attribute that reads the first
  value of request header `NAME` and writes it by replacing all its values.
  Request headers are a `map<string, seq<string>>`. The builder's name is the
  constant `BuilderName` ("Request header").
- **Bound websocket handler method** (`BoundMethod`): the constructor checks
  that the bound parameters together claim every argument position `0..n-1`.
  When they do not, it fails and reports exactly the unclaimed positions. The
  failure is the "wrong annotation" variant when some parameter carries a
  `javax.ws.rs.PathParam` annotation. The module also models
  `hasParameterType` and the argument array that `invoke` starts from. The
  getters `getMessageType`, `isDecoderRequired` and `getMaxMessageSize` are the
  datatype's fields, and the `Construct` contract pins them to the constructor
  arguments.
- **Client scheme registry** (`UndertowClient`): the map from URI scheme to
  connection provider is built by registering the discovered providers in load
  order, so a later provider replaces an earlier one for a shared scheme.
  Provider lookup fails with `UnknownScheme` for an absent scheme, and for a URI
  with no scheme. Every connect overload looks the provider up first and then
  hands the call over unchanged. The overloads without SSL pass `None` (Java
  `null`). The future-returning overloads hand the provider an adapter that
  completes a single-shot future. The shared instance and freshly constructed
  instances are told apart by an explicit identity. The client is an immutable
  value, so its registry cannot change after construction.
- **SPDY go-away channel** (`SpdyGoAway`): inbound stream-source channels form
  one tagged datatype. The go-away variant is the GOAWAY control frame of the
  SPDY Protocol draft 3, section 2.6.6. It carries a 32-bit status and the last
  good stream id, and it is marked as the last frame when it is built. The
  class's doc comment calls it a "Ping frame"
  (core/src/main/java/io/undertow/spdy/SpdyGoAwayStreamSourceChannel.java:27).
  The code builds a go-away frame, and the model follows the code.

Java `int` and `long` are the newtypes `JavaInts.Int32` and `JavaInts.Int64`.
Java `null` results become `Wrappers.Option`, and thrown exceptions become
`Wrappers.Result`.

These pieces sit beside Undertow's framing engine rather than inside it. The
framing engine itself (the framed-channel multiplexer and the resumable AJP
request parser) is not part of this model.

## Model

| member | source | states |
|---|---|---|
| RequestHeaderAttribute.AcceptedTokenLength | core/src/main/java/io/undertow/attribute/RequestHeaderAttribute.java:57-58 | a token that starts with `%{i,` and ends with `}` has at least five characters, so the header-name substring is always in range |
| RequestHeaderAttribute.Build | core/src/main/java/io/undertow/attribute/RequestHeaderAttribute.java:55-62 | an attribute is built exactly when the token has the `%{i,` prefix and the `}` suffix, and then the token is the rendered token of the header it names; otherwise nothing is built |
| RequestHeaderAttribute.BuildToken | core/src/main/java/io/undertow/attribute/RequestHeaderAttribute.java:57-59 | round trip: building the token `%{i,h}` yields the attribute for header h, for every h |
| RequestHeaderAttribute.BuildAcceptsExactlyTokens | core/src/main/java/io/undertow/attribute/RequestHeaderAttribute.java:57-61 | the builder accepts a token iff it is `%{i,h}` for some header name h |
| RequestHeaderAttribute.BuildEmptyName | core/src/main/java/io/undertow/attribute/RequestHeaderAttribute.java:57-58 | `%{i,}` is accepted and names the empty header |
| RequestHeaderAttribute.ReadAttribute | core/src/main/java/io/undertow/attribute/RequestHeaderAttribute.java:38-41 | reading returns the first value stored under the header, and nothing iff the header is absent or has no values |
| RequestHeaderAttribute.WriteAttribute | core/src/main/java/io/undertow/attribute/RequestHeaderAttribute.java:43-46 | writing leaves the header with exactly the one new value and every other header as it was |
| RequestHeaderAttribute.ReadAfterWrite | core/src/main/java/io/undertow/attribute/RequestHeaderAttribute.java:39-45 | a read after a write returns the written value |
| RequestHeaderAttribute.WriteLeavesOtherHeaders | core/src/main/java/io/undertow/attribute/RequestHeaderAttribute.java:44-45 | a write through one header does not change what any other header reads |
| RequestHeaderAttribute.SecondWriteWins | core/src/main/java/io/undertow/attribute/RequestHeaderAttribute.java:44-45 | two writes to one header leave the same headers as the second write alone |
| BoundMethod.Positions | websockets-jsr/src/main/java/io/undertow/websockets/jsr/annotated/BoundMethod.java:52-54 | the starting position set holds exactly the integers 0..n-1 |
| BoundMethod.UnclaimedIsUnboundPositions | websockets-jsr/src/main/java/io/undertow/websockets/jsr/annotated/BoundMethod.java:52-60 | after every binding removes its positions, a position is left iff it is in 0..n-1 and no binding claims it |
| BoundMethod.OutOfRangeClaimsIrrelevant | websockets-jsr/src/main/java/io/undertow/websockets/jsr/annotated/BoundMethod.java:53-59 | claimed positions outside 0..n-1 do not change which positions are left unclaimed |
| BoundMethod.Construct | websockets-jsr/src/main/java/io/undertow/websockets/jsr/annotated/BoundMethod.java:47-80 | construction succeeds iff every position 0..n-1 is claimed; on success the bindings are kept in order, the declared types are recorded, and the message type, decoder flag and size limit are the arguments; on failure the error reports exactly the unclaimed positions and is the wrong-annotation variant iff some parameter carries `javax.ws.rs.PathParam` |
| BoundMethod.HasParameterType | websockets-jsr/src/main/java/io/undertow/websockets/jsr/annotated/BoundMethod.java:96-98 | true iff some parameter position is declared with the given type |
| BoundMethod.InvokeArguments | websockets-jsr/src/main/java/io/undertow/websockets/jsr/annotated/BoundMethod.java:82-83 | invocation starts from an argument array with one empty slot per declared parameter |
| UndertowClient.BuildRegistry | core/src/main/java/io/undertow/client/UndertowClient.java:53-62 | the registry's keys are exactly the schemes some loaded provider declares |
| UndertowClient.RegistryLastDeclarerWins | core/src/main/java/io/undertow/client/UndertowClient.java:55-60 | a scheme declared by several providers is registered to the last of them in load order |
| UndertowClient.NewClient | core/src/main/java/io/undertow/client/UndertowClient.java:53-61 | a new client has the given identity and a registry keyed by exactly the declared schemes, each mapped to the last provider in load order that declares it |
| UndertowClient.GetClientProvider | core/src/main/java/io/undertow/client/UndertowClient.java:122-128 | lookup returns the provider registered for the URI's scheme, and fails with unknown scheme iff the URI has no scheme or the scheme is not registered |
| UndertowClient.LookupAfterDiscovery | core/src/main/java/io/undertow/client/UndertowClient.java:122-128 | on a freshly built client, lookup yields the last provider declaring the scheme, and unknown scheme when no provider declares it |
| UndertowClient.Delegate | core/src/main/java/io/undertow/client/UndertowClient.java:109-112 | a connect fails iff the lookup fails, before any provider call; otherwise the provider registered for the URI's scheme receives the callback, URI, target, SSL context, pool and options unchanged |
| UndertowClient.ConnectWithListener | core/src/main/java/io/undertow/client/UndertowClient.java:109-120 | the listener overloads fail with unknown scheme iff the lookup fails, and otherwise call the provider registered for the URI's scheme with the caller's own listener and the URI, target, SSL context, pool and options unchanged |
| UndertowClient.ConnectWithListenerNoSsl | core/src/main/java/io/undertow/client/UndertowClient.java:105-116 | the listener overloads without SSL behave as the SSL overload called with no SSL context |
| UndertowClient.ConnectForFuture | core/src/main/java/io/undertow/client/UndertowClient.java:67-103 | the future overloads fail with unknown scheme iff the lookup fails, and otherwise call the provider registered for the URI's scheme with the future adapter and every argument unchanged; the returned future already holds the provider's report when the provider reported before returning, and is waiting otherwise |
| UndertowClient.ConnectForFutureNoSsl | core/src/main/java/io/undertow/client/UndertowClient.java:63-86 | the future overloads without SSL behave as the SSL overload called with no SSL context |
| UndertowClient.Deliver | core/src/main/java/io/undertow/client/UndertowClient.java:69-81 | the adapter stores the connection on completion and the exception on failure, and a completed future keeps its value |
| UndertowClient.DeliverSingleShot | core/src/main/java/io/undertow/client/UndertowClient.java:69-81 | a future is completed by its first report and unaffected by any later one |
| UndertowClient.FutureHoldsProviderReport | core/src/main/java/io/undertow/client/UndertowClient.java:67-82 | the future of a successful connect holds the provider's first report, made before or after the connect call returned: the connection on completion, the exception on failure |
| UndertowClient.GetInstance | core/src/main/java/io/undertow/client/UndertowClient.java:130-132 | the shared instance has the shared identity, and its registry maps exactly the schemes the default providers declare, each to the last default provider declaring it |
| UndertowClient.GetInstanceFor | core/src/main/java/io/undertow/client/UndertowClient.java:134-136 | each call yields a new identity, distinct from the shared one and from every earlier one, whose registry maps exactly the schemes the given loader's providers declare, each to the last of them declaring it |
| UndertowClient.SharedInstanceLookup | core/src/main/java/io/undertow/client/UndertowClient.java:122-132 | a lookup on the shared instance yields the last default provider declaring the URI's scheme, and unknown scheme when the URI has no scheme or no default provider declares it |
| UndertowClient.InstanceIdentities | core/src/main/java/io/undertow/client/UndertowClient.java:130-136 | the shared instance stays the same across constructions, while two constructed instances are never the same instance or the shared one |
| SpdyGoAway.LastFrame | core/src/main/java/io/undertow/spdy/SpdyGoAwayStreamSourceChannel.java:40 | marking the last frame sets the flag and changes nothing else |
| SpdyGoAway.LastFrameIdempotent | core/src/main/java/io/undertow/spdy/SpdyGoAwayStreamSourceChannel.java:40 | marking the last frame twice equals marking it once |
| SpdyGoAway.NewGoAway | core/src/main/java/io/undertow/spdy/SpdyGoAwayStreamSourceChannel.java:36-49 | a built go-away channel reports the given status and last good stream id, is marked as the last frame, and keeps the framed channel, payload and remaining frame length unchanged |
| SpdyGoAway.GoAwayFieldsFinal | core/src/main/java/io/undertow/spdy/SpdyGoAwayStreamSourceChannel.java:33-49 | status and last good stream id stay as constructed after any number of last-frame marks |

## Left out

- RequestHeaderAttribute.ReadAttribute: header names are compared as plain strings. `HttpString` compares names case-insensitively, and `HttpString.tryFromString` is not part of this model.
- RequestHeaderAttribute.WriteLeavesOtherHeaders: holds for header names that differ as strings. With `HttpString`'s case-insensitive names, a write to `Host` also changes what `host` reads, and this model does not capture that.
- RequestHeaderAttribute.Build: the header name is taken as a plain string. The validation and caching that `HttpString.tryFromString` does are not part of this model.
- RequestHeaderAttribute.WriteAttribute: the new value is never null. What `HeaderMap.put` does with a null value is not part of this model.
- The `ReadOnlyAttributeException` that `writeAttribute` may declare is never thrown by this attribute, so it is not modelled.
- BoundMethod.InvokeArguments: only the argument array is modelled. `BoundParameter.populate`, `Method.invoke` and `setAccessible` are reflection or code that is not part of this model.
- BoundMethod.Construct: reflected classes and annotation types are their type names as strings, and the error message text is not modelled.
- `ServiceLoader` discovery: a class loader is represented by the sequence of providers it would discover.
- XNIO workers, I/O threads, SSL contexts, buffer pools and option maps are opaque identifiers. The provider's connection attempt is external. A report it makes before its connect call returns is an input to `UndertowClient.ConnectForFuture`, and a later report is an input to `UndertowClient.Deliver`.
- UndertowClient.Deliver: `FutureResult` cancellation and waiting are not modelled; the future is a single-shot value.
- The text of the unknown-scheme exception is not modelled.
- SpdyGoAway.NewGoAway: the `SpdyStreamSourceChannel` and `AbstractFramedChannel` superclasses are not part of this model. `lastFrame()` is only a flag, with no read or buffer semantics.
- `AjpOpenListener`, `ServletUpgradeListener`, `DefaultClassIntrospector` and the `EncodableObject` test fixture are wiring, thread-context management, reflection or test code.
- Logging is not modelled.
