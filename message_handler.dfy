/** The server's message dispatcher: it routes each decoded request to the
    one service that owns its kind, and answers every other kind with
    BadServiceUnsupported.

    The services' bodies and the contents of the server and session state are
    not part of this model: each service operation is a function from the two
    states and its request to its result and the two states it leaves. */
module MessageDispatch {
  import opened MachineInts
  import opened Wrappers

  /** Server-wide state handed to every service. */
  type ServerState
  /** The state of the session the message arrived on. */
  type SessionState
  type GetEndpointsRequest
  type CreateSessionRequest
  type CloseSessionRequest
  type ActivateSessionRequest
  type BrowseRequest
  /** The content of any message kind the dispatcher does not route:
      responses, subscription and monitored-item requests, and the rest. */
  type OtherMessageBody

  /** A decoded protocol message. */
  datatype SupportedMessage =
    | GetEndpointsRequest(getEndpoints: GetEndpointsRequest)
    | CreateSessionRequest(createSession: CreateSessionRequest)
    | CloseSessionRequest(closeSession: CloseSessionRequest)
    | ActivateSessionRequest(activateSession: ActivateSessionRequest)
    | BrowseRequest(browse: BrowseRequest)
    | OtherMessage(body: OtherMessageBody)

  /** A protocol status code. */
  datatype StatusCode = StatusCode(code: u32)

  /** BadServiceUnsupported of the OPC UA status codes. */
  const BAD_SERVICE_UNSUPPORTED := StatusCode(0x800B_0000)

  /** What a service call leaves: its result and the two states as it left them. */
  datatype ServiceOutcome = ServiceOutcome(
    result: Result<SupportedMessage, StatusCode>,
    serverState: ServerState,
    sessionState: SessionState)

  /** The discovery service. */
  datatype DiscoveryService = DiscoveryService(
    getEndpoints: (ServerState, SessionState, GetEndpointsRequest) -> ServiceOutcome)

  /** The session service. */
  datatype SessionService = SessionService(
    createSession: (ServerState, SessionState, CreateSessionRequest) -> ServiceOutcome,
    closeSession: (ServerState, SessionState, CloseSessionRequest) -> ServiceOutcome,
    activateSession: (ServerState, SessionState, ActivateSessionRequest) -> ServiceOutcome)

  /** The view service. */
  datatype ViewService = ViewService(
    browse: (ServerState, SessionState, BrowseRequest) -> ServiceOutcome)

  /** The services a handler owns. */
  datatype Services = Services(discovery: DiscoveryService, session: SessionService, view: ViewService)

  /** The service operations requests can be routed to. */
  datatype Operation = GetEndpoints | CreateSession | CloseSession | ActivateSession | Browse

  /** The services that own them. */
  datatype ServiceName = Discovery | Session | View

  /** The routing table: the operation a message kind is handled by, or None
      for a kind no service handles. */
  function Route(message: SupportedMessage): (r: Option<Operation>)
    ensures r.None? <==> message.OtherMessage?
    ensures r.Some? ==> (Owner(r.value) == Discovery <==> message.GetEndpointsRequest?)
    ensures r.Some? ==> (Owner(r.value) == View <==> message.BrowseRequest?)
  {
    match message
    case GetEndpointsRequest(_) => Some(GetEndpoints)
    case CreateSessionRequest(_) => Some(CreateSession)
    case CloseSessionRequest(_) => Some(CloseSession)
    case ActivateSessionRequest(_) => Some(ActivateSession)
    case BrowseRequest(_) => Some(Browse)
    case OtherMessage(_) => None
  }

  /** The service an operation belongs to. */
  function Owner(op: Operation): ServiceName
  {
    match op
    case GetEndpoints => Discovery
    case CreateSession | CloseSession | ActivateSession => Session
    case Browse => View
  }

  /** The outcome of calling, with the given states, the operation that the
      routing table names for a routed message, on that message's request. */
  function Invoke(services: Services, server: ServerState, session: SessionState, message: SupportedMessage): (o: ServiceOutcome)
    requires Route(message).Some?
  {
    match Route(message).value
    case GetEndpoints => services.discovery.getEndpoints(server, session, message.getEndpoints)
    case CreateSession => services.session.createSession(server, session, message.createSession)
    case CloseSession => services.session.closeSession(server, session, message.closeSession)
    case ActivateSession => services.session.activateSession(server, session, message.activateSession)
    case Browse => services.view.browse(server, session, message.browse)
  }

  /** Rust's `?` on a service's result: an error is returned as it is, and a
      response is taken as the handler's response. */
  function Propagate(called: ServiceOutcome): (o: ServiceOutcome)
  {
    match called.result
    case Err(e) => ServiceOutcome(Err(e), called.serverState, called.sessionState)
    case Ok(response) => ServiceOutcome(Ok(response), called.serverState, called.sessionState)
  }

  /** What handling a message yields: a routed message gets exactly the
      outcome of its one service, whose error comes back untranslated and
      whose response comes back unchanged; any other message fails with
      BadServiceUnsupported, and no service runs, so neither state changes. */
  function Dispatch(services: Services, server: ServerState, session: SessionState, message: SupportedMessage): (o: ServiceOutcome)
    ensures Route(message).None? ==>
      o == ServiceOutcome(Err(BAD_SERVICE_UNSUPPORTED), server, session)
    ensures Route(message).Some? ==>
      o == Invoke(services, server, session, message)
  {
    match message
    case GetEndpointsRequest(request) => Propagate(services.discovery.getEndpoints(server, session, request))
    case CreateSessionRequest(request) => Propagate(services.session.createSession(server, session, request))
    case CloseSessionRequest(request) => Propagate(services.session.closeSession(server, session, request))
    case ActivateSessionRequest(request) => Propagate(services.session.activateSession(server, session, request))
    case BrowseRequest(request) => Propagate(services.view.browse(server, session, request))
    case _ => ServiceOutcome(Err(BAD_SERVICE_UNSUPPORTED), server, session)
  }

  /** Every message kind has exactly one route, and the five routed kinds go
      to the three services as follows: discovery answers GetEndpoints, the
      session service the three session requests, the view service Browse. */
  lemma RoutingIsTotalAndExclusive(message: SupportedMessage)
    ensures Route(message).None? <==> message.OtherMessage?
    ensures message.GetEndpointsRequest? <==> Route(message) == Some(GetEndpoints)
    ensures message.CreateSessionRequest? <==> Route(message) == Some(CreateSession)
    ensures message.CloseSessionRequest? <==> Route(message) == Some(CloseSession)
    ensures message.ActivateSessionRequest? <==> Route(message) == Some(ActivateSession)
    ensures message.BrowseRequest? <==> Route(message) == Some(Browse)
    ensures Route(message).Some? ==>
      (Owner(Route(message).value) == Discovery <==> message.GetEndpointsRequest?)
    ensures Route(message).Some? ==>
      (Owner(Route(message).value) == Session <==>
         message.CreateSessionRequest? || message.CloseSessionRequest? || message.ActivateSessionRequest?)
    ensures Route(message).Some? ==>
      (Owner(Route(message).value) == View <==> message.BrowseRequest?)
  {
  }

  /** Processes and dispatches messages: it owns the server state, the
      session state (locked during a call in the source) and the three services. */
  class MessageHandler {
    var serverState: ServerState
    var sessionState: SessionState
    const services: Services

    constructor (serverState: ServerState, sessionState: SessionState, services: Services)
      ensures this.serverState == serverState && this.sessionState == sessionState
      ensures this.services == services
    {
      this.serverState := serverState;
      this.sessionState := sessionState;
      this.services := services;
    }

    /** Handles one message, keeping the states the invoked service leaves. */
    method HandleMessage(message: SupportedMessage) returns (r: Result<SupportedMessage, StatusCode>)
      modifies this
      ensures ServiceOutcome(r, serverState, sessionState) ==
        Dispatch(services, old(serverState), old(sessionState), message)
      ensures Route(message).None? ==>
        r == Err(BAD_SERVICE_UNSUPPORTED) && serverState == old(serverState) && sessionState == old(sessionState)
      ensures Route(message).Some? ==>
        ServiceOutcome(r, serverState, sessionState) == Invoke(services, old(serverState), old(sessionState), message)
    {
      var outcome := Dispatch(services, serverState, sessionState, message);
      serverState := outcome.serverState;
      sessionState := outcome.sessionState;
      r := outcome.result;
    }
  }
}
