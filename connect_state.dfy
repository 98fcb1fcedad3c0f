/**
 * The connect orchestrator (`ConnectState`) and the attested-connection
 * layer above it, as a sequential model.
 *
 * The read/write lock around the state, the timeout race and the
 * multi-route connect loop are outside this model: one call to the
 * parameter `connect` stands for racing the loop against the configured
 * timeout, and yields either `Elapsed` or the loop's result together with
 * the outcome updates it collected. What the model keeps is what the
 * orchestrator itself decides: which snapshot the attempt runs against,
 * that a timed-out attempt leaves the ledger alone, that a finished one
 * writes exactly one batch, and what is returned.
 */
module ConnectState {
  import opened Infra

  /** `Config`: the ledger parameters and the per-attempt timeout. */
  datatype Config = Config(connectParams: ConnectionOutcomeParams, connectTimeout: Duration)

  /** `RouteInfo`: the log-safe description of the route that won. */
  datatype RouteInfo<D> = RouteInfo(unresolved: D)

  /** The stateless route resolver, as built by `RouteResolver::default()`. */
  datatype RouteResolver = DefaultRouteResolver

  /** The stateless transport connector, as built by `StatelessTransportConnector::default()`. */
  datatype TransportConnector = StatelessTransportConnector

  /** The route provider context; its randomness source carries no state. */
  datatype RouteProviderContext = OsRngContext

  /**
   * The multi-route connect raced against the timeout: given the snapshot of
   * the resolver, the transport connector and the ledger, the materialised
   * routes and the per-failure callback, it yields the timed attempt.
   */
  type Connect<!U, !W, C, D, !E, !R> =
    (RouteResolver, TransportConnector, ConnectionOutcomes<R>, seq<U>, W -> ControlFlow<E>)
      -> TimedAttempt<C, D, E, R>

  /** The errors of the attested layer (`crate::enclave::Error`), as far as this layer produces them. */
  datatype EnclaveError<W> =
    | WebSocketConnect(error: W)
    | ConnectionTimedOut
    | AttestationError(reason: string)

  /**
   * The ledger updates of an attempt with the log-safe descriptions dropped:
   * one update per recorded outcome, in order, keeping the route and the
   * outcome and nothing of the description.
   */
  function StripDescriptions<R, D>(outcomes: seq<(WithLoggableDescription<R, D>, RouteOutcome)>): (r: seq<(R, RouteOutcome)>)
    ensures |r| == |outcomes|
    ensures forall i :: 0 <= i < |outcomes| ==> r[i] == (outcomes[i].0.route, outcomes[i].1)
  {
    if outcomes == [] then []
    else [(outcomes[0].0.route, outcomes[0].1)] + StripDescriptions(outcomes[1..])
  }

  /** Two attempts that tried the same routes with the same outcomes update the ledger alike, whatever their descriptions. */
  lemma DescriptionsDoNotReachLedger<R, D>(a: seq<(WithLoggableDescription<R, D>, RouteOutcome)>, b: seq<(WithLoggableDescription<R, D>, RouteOutcome)>)
    requires |a| == |b|
    requires forall i :: 0 <= i < |a| ==> a[i].0.route == b[i].0.route && a[i].1 == b[i].1
    ensures StripDescriptions(a) == StripDescriptions(b)
  {
  }

  /**
   * The batch a finished attempt writes: the ledger gains exactly one batch,
   * the attempt's routes and outcomes in order, stamped with its finishing
   * time, and has then recorded exactly those entries on top of what it had.
   */
  lemma LedgerReceivesOneEntryPerOutcome<R, D>(ledger: ConnectionOutcomes<R>, updates: OutcomeUpdates<R, D>)
    ensures var outs := updates.outcomes;
      var after := ledger.ApplyOutcomeUpdates(StripDescriptions(outs), updates.finishedAt);
      && after.params == ledger.params
      && after.batches == ledger.batches + [OutcomeBatch(
           seq(|outs|, i requires 0 <= i < |outs| => (outs[i].0.route, outs[i].1)), updates.finishedAt)]
      && after.Recorded() == ledger.Recorded() + multiset(
           seq(|outs|, i requires 0 <= i < |outs| => Entry(outs[i].0.route, outs[i].1, updates.finishedAt)))
  {
    var outs := updates.outcomes;
    var t := updates.finishedAt;
    var stripped := StripDescriptions(outs);
    assert stripped == seq(|outs|, i requires 0 <= i < |outs| => (outs[i].0.route, outs[i].1));
    StampAllStampsEach(stripped, t);
    assert seq(|stripped|, i requires 0 <= i < |stripped| => Entry(stripped[i].0, stripped[i].1, t))
        == seq(|outs|, i requires 0 <= i < |outs| => Entry(outs[i].0.route, outs[i].1, t));
  }

  /** The per-route rewrite of the attested layer: the auth header joins the route's headers. */
  function AddAuthHeader<Cfg, Inner>(route: WebSocketRoute<Cfg, Inner>, auth: Header): (r: WebSocketRoute<Cfg, Inner>)
    ensures r.inner == route.inner
    ensures r.fragment.wsConfig == route.fragment.wsConfig && r.fragment.endpoint == route.fragment.endpoint
    ensures r.fragment.headers == route.fragment.headers + [auth]
  {
    route.(fragment := route.fragment.(headers := route.fragment.headers + [auth]))
  }

  /**
   * `map_routes` with the auth-header rewrite, over the routes a provider
   * produced: the number and order of routes and every route field are kept,
   * except that each route's headers gain the auth header at the end.
   */
  function WithAuthHeader<Cfg, Inner>(routes: seq<WebSocketRoute<Cfg, Inner>>, auth: Header): (r: seq<WebSocketRoute<Cfg, Inner>>)
    ensures |r| == |routes|
    ensures forall i :: 0 <= i < |routes| ==>
      && r[i].inner == routes[i].inner
      && r[i].fragment.wsConfig == routes[i].fragment.wsConfig
      && r[i].fragment.endpoint == routes[i].fragment.endpoint
      && r[i].fragment.headers == routes[i].fragment.headers + [auth]
  {
    if routes == [] then []
    else [AddAuthHeader(routes[0], auth)] + WithAuthHeader(routes[1..], auth)
  }

  /**
   * The route provider of the attested layer: for every context, the routes
   * of the given provider, each carrying the auth header as well.
   */
  function AuthedProvider<Cfg, Inner>(provider: RouteProviderContext -> seq<WebSocketRoute<Cfg, Inner>>, auth: Header)
    : (r: RouteProviderContext -> seq<WebSocketRoute<Cfg, Inner>>)
    ensures forall ctx :: |r(ctx)| == |provider(ctx)|
    ensures forall ctx, i :: 0 <= i < |provider(ctx)| ==>
      && r(ctx)[i].inner == provider(ctx)[i].inner
      && r(ctx)[i].fragment.wsConfig == provider(ctx)[i].fragment.wsConfig
      && r(ctx)[i].fragment.endpoint == provider(ctx)[i].fragment.endpoint
      && r(ctx)[i].fragment.headers == provider(ctx)[i].fragment.headers + [auth]
  {
    ctx => WithAuthHeader(provider(ctx), auth)
  }

  /**
   * The per-failure decision of the attested layer: keep trying on an
   * intermittent error, otherwise stop with the same error wrapped.
   */
  function OnAttestedError<W>(classify: W -> ErrorClass, error: W): (r: ControlFlow<EnclaveError<W>>)
    ensures r.Continue? <==> classify(error) == Intermittent
    ensures r.Break? ==> r.value == WebSocketConnect(error)
  {
    match classify(error)
    case Intermittent => Continue
    case RetryAt(_) => Break(WebSocketConnect(error))
    case Fatal => Break(WebSocketConnect(error))
  }

  /** `OnAttestedError` as the callback handed to the orchestrator. */
  function AttestedCallback<W(!new)>(classify: W -> ErrorClass): (r: W -> ControlFlow<EnclaveError<W>>)
    ensures forall error :: r(error).Continue? <==> classify(error) == Intermittent
    ensures forall error :: r(error).Break? ==> r(error).value == WebSocketConnect(error)
  {
    error => OnAttestedError(classify, error)
  }

  /**
   * The attested layer's error remap: running out of routes and timing out
   * both read as a timed-out connection; a terminal error passes through.
   */
  function MapAttestedError<W>(e: TimeoutOr<ConnectError<EnclaveError<W>>>): (r: EnclaveError<W>)
    ensures e.Other? && e.error.FatalConnect? ==> r == e.error.error
    ensures !(e.Other? && e.error.FatalConnect?) ==> r == ConnectionTimedOut
  {
    match e
    case Other(NoResolvedRoutes) => ConnectionTimedOut
    case Other(AllAttemptsFailed) => ConnectionTimedOut
    case Timeout(_) => ConnectionTimedOut
    case Other(FatalConnect(inner)) => inner
  }

  /**
   * A failure the attested callback stopped on reaches the caller as that
   * same failure, and only failures the classifier does not call
   * intermittent can get there.
   */
  lemma TerminalErrorSurfaces<W>(classify: W -> ErrorClass, error: W)
    requires OnAttestedError(classify, error).Break?
    ensures MapAttestedError(Other(FatalConnect(OnAttestedError(classify, error).value))) == WebSocketConnect(error)
    ensures classify(error) != Intermittent
  {
  }

  /** The remap forgets which of the three exhaustion kinds happened, and how long the timeout was. */
  lemma ExhaustionKindsCollapse<W>(d: Duration)
    ensures MapAttestedError<W>(Timeout(d)) == ConnectionTimedOut
    ensures MapAttestedError<W>(Other(NoResolvedRoutes)) == ConnectionTimedOut
    ensures MapAttestedError<W>(Other(AllAttemptsFailed)) == ConnectionTimedOut
  {
  }

  /**
   * Endpoint-agnostic connection state. Only the ledger is ever written
   * after construction; the other fields are read as a snapshot.
   */
  class ConnectState<R> {
    var routeResolver: RouteResolver
    /** The time allowed for each connection attempt. */
    var connectTimeout: Duration
    var transportConnector: TransportConnector
    /** Record of connection outcomes. */
    var attemptsRecord: ConnectionOutcomes<R>
    var routeProviderContext: RouteProviderContext

    /** `ConnectState::new`: the configured timeout and a ledger with no history. */
    constructor (config: Config)
      ensures connectTimeout == config.connectTimeout
      ensures attemptsRecord.params == config.connectParams
      ensures attemptsRecord.batches == [] && attemptsRecord.Recorded() == multiset{}
      ensures routeResolver == DefaultRouteResolver
      ensures transportConnector == StatelessTransportConnector
      ensures routeProviderContext == OsRngContext
    {
      routeResolver := DefaultRouteResolver;
      connectTimeout := config.connectTimeout;
      transportConnector := StatelessTransportConnector;
      attemptsRecord := NewOutcomes(config.connectParams);
      routeProviderContext := OsRngContext;
    }

    /**
     * `connect_ws`. The attempt runs against a snapshot of the state and the
     * routes the provider gives for the snapshot's context. If the timeout
     * fires first, the result is a timeout carrying the configured duration
     * and the ledger is left as it was. Otherwise exactly one batch — the
     * attempt's outcomes without descriptions, stamped with its finishing
     * time — is applied, before the attempt's result is returned: the
     * connection and the winning route's description, or the error.
     */
    method ConnectWs<U, W, C, D, E>(
      provider: RouteProviderContext -> seq<U>,
      connect: Connect<U, W, C, D, E, R>,
      onError: W -> ControlFlow<E>)
      returns (r: Result<(C, RouteInfo<D>), TimeoutOr<ConnectError<E>>>)
      modifies this`attemptsRecord
      ensures var attempt := connect(routeResolver, transportConnector, old(attemptsRecord),
                                     provider(routeProviderContext), onError);
        && (attempt.Elapsed? ==>
              && r == Err(Timeout(connectTimeout))
              && attemptsRecord == old(attemptsRecord))
        && (attempt.Finished? ==>
              && attemptsRecord == old(attemptsRecord).ApplyOutcomeUpdates(
                   StripDescriptions(attempt.updates.outcomes), attempt.updates.finishedAt)
              && (r.Ok? <==> attempt.result.Ok?)
              && (r.Ok? ==> r.value.0 == attempt.result.value.0
                            && r.value.1.unresolved == attempt.result.value.1)
              && (r.Err? ==> r.error == Other(attempt.result.error)))
      ensures routeResolver == old(routeResolver) && connectTimeout == old(connectTimeout)
      ensures transportConnector == old(transportConnector)
      ensures routeProviderContext == old(routeProviderContext)
    {
      // Snapshot under the read lock.
      var timeout := connectTimeout;
      var routes := provider(routeProviderContext);
      var attempt := connect(routeResolver, transportConnector, attemptsRecord, routes, onError);
      if attempt.Elapsed? {
        return Err(Timeout(timeout));
      }
      // The read lock is gone; the batch goes in under the write lock.
      attemptsRecord := attemptsRecord.ApplyOutcomeUpdates(
        StripDescriptions(attempt.updates.outcomes), attempt.updates.finishedAt);
      match attempt.result
      case Err(e) =>
        r := Err(Other(e));
      case Ok((connection, description)) =>
        r := Ok((connection, RouteInfo(description)));
    }

    /**
     * `connect_attested_ws`, up to the handshake. Every route carries the
     * auth header; failures are classified by `OnAttestedError`; errors of
     * the orchestrator are remapped by `MapAttestedError`. On a connected
     * WebSocket the handshake decides: its connection is returned with the
     * route info, or its error is propagated. The ledger is written exactly
     * as `ConnectWs` writes it.
     */
    method ConnectAttestedWs<Cfg, Inner, W(!new), C, D, A>(
      provider: RouteProviderContext -> seq<WebSocketRoute<Cfg, Inner>>,
      auth: Header,
      connect: Connect<WebSocketRoute<Cfg, Inner>, W, C, D, EnclaveError<W>, R>,
      classify: W -> ErrorClass,
      handshake: C -> Result<A, EnclaveError<W>>)
      returns (r: Result<(A, RouteInfo<D>), EnclaveError<W>>)
      modifies this`attemptsRecord
      ensures var attempt := connect(routeResolver, transportConnector, old(attemptsRecord),
                                     WithAuthHeader(provider(routeProviderContext), auth),
                                     AttestedCallback(classify));
        && (attempt.Elapsed? ==>
              && r == Err(ConnectionTimedOut)
              && attemptsRecord == old(attemptsRecord))
        && (attempt.Finished? ==>
              && attemptsRecord == old(attemptsRecord).ApplyOutcomeUpdates(
                   StripDescriptions(attempt.updates.outcomes), attempt.updates.finishedAt)
              && (attempt.result.Err? ==> r == Err(MapAttestedError(Other(attempt.result.error))))
              && (attempt.result.Ok? ==>
                    var established := handshake(attempt.result.value.0);
                    && (r.Ok? <==> established.Ok?)
                    && (r.Ok? ==> r.value == (established.value, RouteInfo(attempt.result.value.1)))
                    && (r.Err? ==> r.error == established.error)))
      ensures routeResolver == old(routeResolver) && connectTimeout == old(connectTimeout)
      ensures transportConnector == old(transportConnector)
      ensures routeProviderContext == old(routeProviderContext)
    {
      var wsRoutes := AuthedProvider(provider, auth);
      var ws := ConnectWs(wsRoutes, connect, AttestedCallback(classify));
      match ws
      case Err(e) =>
        r := Err(MapAttestedError(e));
      case Ok((connection, routeInfo)) =>
        match handshake(connection)
        case Err(e) =>
          r := Err(e);
        case Ok(attested) =>
          r := Ok((attested, routeInfo));
    }
  }
}
