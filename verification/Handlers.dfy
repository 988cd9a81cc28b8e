/** What the eleven messages of the proxy module do, as functions: the claims a message has written
    about one upstream when it returns, and whether it returned without an error. A handler that
    fails halfway has written the claims before the failure. */
module Handlers {
  import opened Options
  import opened Wire
  import opened Messages
  import opened Paths
  import opened Clients

  datatype Packet = Packet(
    sequence: uint64, sourcePort: string, sourceChannel: string, destPort: string, destChannel: string,
    data: bytes, timeoutHeight: Height, timeoutTimestamp: uint64)

  /** The parts of the chain around the module. validSelf and selfCons are the client keeper's
      answers about this chain itself, at a time. */
  datatype Config = Config(
    oracle: Oracle,
    proxyName: string,
    ibcName: string,
    validSelf: (nat, ClientState) -> bool,
    selfCons: (nat, Height) -> Option<ConsensusState>,
    commitPacket: Packet -> bytes)

  /** The keeper's state: the proxy store, and the light clients it reads. */
  datatype State = State(now: nat, store: Store, clients: map<string, ClientState>, clientStores: map<string, Store>)

  function ClientStore(k: State, id: string): Store {
    if id in k.clientStores then k.clientStores[id] else map[]
  }

  /** verify* of proxy.go: the upstream client, at its present state, accepts the claim. */
  predicate Accepts(c: Config, k: State, u: string, p: string, height: Height, claim: Claim, proof: bytes) {
    && u in k.clients
    && Verify(c.oracle, k.clients[u], ClientStore(k, u), height, Merkle(p), claim, proof)
  }

  datatype Outcome = Outcome(written: seq<Claim>, ok: bool)

  const FAILED := Outcome([], false)

  /** VerifyAndProxy*: write only after verification. */
  function VerifyAndProxy(c: Config, k: State, u: string, p: string, height: Height, claim: Claim, proof: bytes): Outcome {
    if Accepts(c, k, u, p, height, claim, proof) then Outcome([claim], true) else FAILED
  }

  /** Two calls one after the other: the second is made only if the first succeeds. */
  function Then(first: Outcome, second: Outcome): Outcome {
    if first.ok then Outcome(first.written + second.written, second.ok) else first
  }

  /** The proxy store after claims about (u, p) are written in order. */
  function Write(o: Oracle, store: Store, u: string, p: string, claims: seq<Claim>): Store
    decreases |claims|
  {
    if claims == [] then store
    else
      var n := |claims| - 1;
      Write(o, store, u, p, claims[..n])[KeeperKey(p, u, PathOf(claims[n])) := ValueOf(o, claims[n])]
  }

  // ---- reading the proxy store; a value of the wrong type makes the decoder panic ----

  datatype Lookup<T> = Missing | Found(value: T) | Panics

  function GetConnection(store: Store, u: string, p: string, id: string): Lookup<ConnectionEnd> {
    var key := KeeperKey(p, u, ConnectionPath(id));
    if key !in store then Missing
    else if store[key].ConnectionV? then Found(store[key].connection) else Panics
  }

  function GetChannel(store: Store, u: string, p: string, port: string, channel: string): Lookup<Channel> {
    var key := KeeperKey(p, u, ChannelPath(port, channel));
    if key !in store then Missing
    else if store[key].ChannelV? then Found(store[key].channel) else Panics
  }

  // ---- client.go ----

  datatype Msg =
    | ProxyClientState(
        u: string, p: string, counterparty: string, client: ClientState, cons: ConsensusState,
        proofClient: bytes, proofConsensus: bytes, proofHeight: Height, consensusHeight: Height)
    | ConnOpenTry(h: Handshake)
    | ConnOpenAck(h: Handshake)
    | ConnOpenConfirm(u: string, p: string, connection: string, counterpartyConnection: string, proof: bytes, proofHeight: Height)
    | ConnOpenFinalize(u: string, p: string, connection: string, proof: bytes, proofHeight: Height)
    | ChanOpenTry(
        u: string, p: string, order: Order, hops: seq<string>, port: string, channel: string, downstreamPort: string,
        version: string, proof: bytes, proofHeight: Height)
    | ChanOpenAck(
        u: string, p: string, order: Order, hops: seq<string>, port: string, channel: string, downstreamPort: string,
        downstreamChannel: string, version: string, proof: bytes, proofHeight: Height)
    | ChanOpenConfirm(u: string, p: string, port: string, channel: string, downstreamChannel: string, proof: bytes, proofHeight: Height)
    | ChanOpenFinalize(u: string, p: string, port: string, channel: string, proof: bytes, proofHeight: Height)
    | RecvPacket(u: string, p: string, packet: Packet, proof: bytes, proofHeight: Height)
    | AcknowledgePacket(u: string, p: string, packet: Packet, ack: bytes, proof: bytes, proofHeight: Height)

  /** The arguments ConnOpenTry and ConnOpenAck share. */
  datatype Handshake = Handshake(
    connection: string, p: string, connectionEnd: ConnectionEnd,
    downstreamClient: ClientState, downstreamCons: ConsensusState, proxyClient: ClientState,
    proofConnection: bytes, proofClient: bytes, proofConsensus: bytes, proofHeight: Height, consensusHeight: Height,
    proofProxyClient: bytes, proofProxyConsensus: bytes, proofProxyHeight: Height, proxyConsensusHeight: Height)

  /** The upstream a message is about. The handshake takes it from the proxy client state. */
  function Upstream(m: Msg): string {
    match m
    case ConnOpenTry(h) => if h.proxyClient.Proxy? then h.proxyClient.upstream else ""
    case ConnOpenAck(h) => if h.proxyClient.Proxy? then h.proxyClient.upstream else ""
    case _ => m.u
  }

  function UpstreamPrefix(m: Msg): string {
    match m
    case ConnOpenTry(h) => h.p
    case ConnOpenAck(h) => h.p
    case _ => m.p
  }

  function ClientAndConsensus(c: Config, k: State, u: string, p: string, id: string, client: ClientState, cons: ConsensusState,
                              proofClient: bytes, proofConsensus: bytes, proofHeight: Height, consensusHeight: Height): Outcome
  {
    Then(VerifyAndProxy(c, k, u, p, proofHeight, ClientClaim(id, client), proofClient),
         VerifyAndProxy(c, k, u, p, proofHeight, ConsensusClaim(id, consensusHeight, cons), proofConsensus))
  }

  // ---- connection.go ----

  /** ValidateSelfClient with the override of client_keeper.go. */
  predicate SelfClient(c: Config, now: nat, cs: ClientState) {
    c.validSelf(now, if cs.MultiV? then cs.underlying else cs)
  }

  predicate ValidateSelfClient(c: Config, now: nat, proxyClient: ClientState)
    requires proxyClient.Proxy?
  {
    && c.ibcName == proxyClient.ibcPrefix
    && c.proxyName == proxyClient.proxyPrefix
    && SelfClient(c, now, proxyClient.inner)
  }

  /** produceVerificationArgs: this chain's own consensus state as a Proxy client has to hold it. */
  function SelfConsensus(c: Config, now: nat, h: Height): Option<ConsensusState> {
    var s :- c.selfCons(now, h);
    Some(ProxyCons(s))
  }

  function StripMultiV(cs: ClientState): ClientState {
    if cs.MultiV? then cs.underlying else cs
  }

  /** The downstream, seen through the client the upstream has for it, tracks this proxy. */
  predicate DownstreamTracksProxy(c: Config, h: Handshake, proxyCons: ConsensusState) {
    var dcs, store := StripMultiV(h.downstreamClient), MemStore(h.downstreamCons, h.proofProxyHeight);
    var prefix, id := Merkle(h.connectionEnd.counterparty.prefix), h.connectionEnd.counterparty.client;
    && Verify(c.oracle, dcs, store, h.proofProxyHeight, prefix, ClientClaim(id, h.proxyClient), h.proofProxyClient)
    && Verify(c.oracle, dcs, store, h.proofProxyHeight, prefix, ConsensusClaim(id, h.proxyConsensusHeight, proxyCons),
              h.proofProxyConsensus)
  }

  /** ConnOpenTry (stage INIT) and ConnOpenAck (stage TRYOPEN). */
  function OpenConnection(c: Config, k: State, h: Handshake, stage: Stage): Outcome {
    if !h.proxyClient.Proxy? || !ValidateSelfClient(c, k.now, h.proxyClient) then FAILED else
    match SelfConsensus(c, k.now, h.proxyConsensusHeight)
    case None => FAILED
    case Some(proxyCons) =>
      var u, p, end := h.proxyClient.upstream, h.p, h.connectionEnd;
      if !GetConnection(k.store, u, p, h.connection).Missing? || end.stage != stage then FAILED else
      Then(ClientAndConsensus(c, k, u, p, end.client, h.downstreamClient, h.downstreamCons,
                              h.proofClient, h.proofConsensus, h.proofHeight, h.consensusHeight),
           if !DownstreamTracksProxy(c, h, proxyCons) then FAILED
           else VerifyAndProxy(c, k, u, p, h.proofHeight, ConnectionClaim(h.connection, end), h.proofConnection))
  }

  function ConfirmConnection(c: Config, k: State, m: Msg): Outcome
    requires m.ConnOpenConfirm?
  {
    match GetConnection(k.store, m.u, m.p, m.connection)
    case Found(end) =>
      if end.stage != INIT then FAILED else
      var full := end.(stage := OPEN, counterparty := end.counterparty.(connection := m.counterpartyConnection));
      VerifyAndProxy(c, k, m.u, m.p, m.proofHeight, ConnectionClaim(m.connection, full), m.proof)
    case _ => FAILED
  }

  function FinalizeConnection(c: Config, k: State, m: Msg): Outcome
    requires m.ConnOpenFinalize?
  {
    match GetConnection(k.store, m.u, m.p, m.connection)
    case Found(end) =>
      if end.stage != TRYOPEN then FAILED else
      VerifyAndProxy(c, k, m.u, m.p, m.proofHeight, ConnectionClaim(m.connection, end.(stage := OPEN)), m.proof)
    case _ => FAILED
  }

  // ---- channel.go ----

  function OrderName(o: Order): string {
    match o
    case NONE => "ORDER_NONE_UNSPECIFIED"
    case UNORDERED => "ORDER_UNORDERED"
    case ORDERED => "ORDER_ORDERED"
  }

  /** validateChannelOrder: one negotiated version, and it has the order among its features. */
  predicate OrderSupported(order: Order, end: ConnectionEnd) {
    |end.versions| == 1 && OrderName(order) in end.versions[0].features
  }

  function TryChannel(c: Config, k: State, m: Msg): Outcome
    requires m.ChanOpenTry?
  {
    if |m.hops| != 1 then FAILED else
    match GetConnection(k.store, m.u, m.p, m.hops[0])
    case Found(end) =>
      if !OrderSupported(m.order, end) then FAILED else
      var expected := Channel(INIT, m.order, ChannelCounterparty(m.downstreamPort, ""), m.hops, m.version);
      VerifyAndProxy(c, k, m.u, m.p, m.proofHeight, ChannelClaim(m.port, m.channel, expected), m.proof)
    case _ => FAILED
  }

  function AckChannel(c: Config, k: State, m: Msg): Outcome
    requires m.ChanOpenAck?
  {
    if |m.hops| != 1 then FAILED else
    match GetConnection(k.store, m.u, m.p, m.hops[0])
    case Found(end) =>
      if end.stage != OPEN || !OrderSupported(m.order, end) then FAILED else
      var expected := Channel(TRYOPEN, m.order, ChannelCounterparty(m.downstreamPort, m.downstreamChannel), m.hops, m.version);
      VerifyAndProxy(c, k, m.u, m.p, m.proofHeight, ChannelClaim(m.port, m.channel, expected), m.proof)
    case _ => FAILED
  }

  /** The connection of a channel's first hop; reading it from a channel without hops panics. */
  function HopConnection(store: Store, u: string, p: string, ch: Channel): Lookup<ConnectionEnd> {
    if ch.hops == [] then Panics else GetConnection(store, u, p, ch.hops[0])
  }

  function ConfirmChannel(c: Config, k: State, m: Msg): Outcome
    requires m.ChanOpenConfirm?
  {
    match GetChannel(k.store, m.u, m.p, m.port, m.channel)
    case Found(ch) =>
      if ch.counterparty.channel != "" || ch.stage != INIT then FAILED else
      var hop := HopConnection(k.store, m.u, m.p, ch);
      if !hop.Found? || hop.value.stage != OPEN then FAILED else
      var full := ch.(stage := OPEN, counterparty := ch.counterparty.(channel := m.downstreamChannel));
      VerifyAndProxy(c, k, m.u, m.p, m.proofHeight, ChannelClaim(m.port, m.channel, full), m.proof)
    case _ => FAILED
  }

  function FinalizeChannel(c: Config, k: State, m: Msg): Outcome
    requires m.ChanOpenFinalize?
  {
    match GetChannel(k.store, m.u, m.p, m.port, m.channel)
    case Found(ch) =>
      if ch.stage != TRYOPEN then FAILED else
      var hop := HopConnection(k.store, m.u, m.p, ch);
      if !hop.Found? || hop.value.stage != OPEN then FAILED else
      VerifyAndProxy(c, k, m.u, m.p, m.proofHeight, ChannelClaim(m.port, m.channel, ch.(stage := OPEN)), m.proof)
    case _ => FAILED
  }

  // ---- packet.go ----

  function Receive(c: Config, k: State, m: Msg): Outcome
    requires m.RecvPacket?
  {
    var pk := m.packet;
    match GetChannel(k.store, m.u, m.p, pk.sourcePort, pk.sourceChannel)
    case Found(ch) =>
      if pk.destPort != ch.counterparty.port || pk.destChannel != ch.counterparty.channel then FAILED else
      if !HopConnection(k.store, m.u, m.p, ch).Found? then FAILED else
      VerifyAndProxy(c, k, m.u, m.p, m.proofHeight,
                     CommitmentClaim(pk.sourcePort, pk.sourceChannel, pk.sequence, c.commitPacket(pk)), m.proof)
    case _ => FAILED
  }

  function Acknowledge(c: Config, k: State, m: Msg): Outcome
    requires m.AcknowledgePacket?
  {
    var pk := m.packet;
    match GetChannel(k.store, m.u, m.p, pk.destPort, pk.destChannel)
    case Found(ch) =>
      if !HopConnection(k.store, m.u, m.p, ch).Found? then FAILED else
      VerifyAndProxy(c, k, m.u, m.p, m.proofHeight, AckClaim(pk.destPort, pk.destChannel, pk.sequence, m.ack), m.proof)
    case _ => FAILED
  }

  // ---- msg_server.go ----

  function Handle(c: Config, k: State, m: Msg): Outcome {
    match m
    case ProxyClientState(u, p, id, client, cons, proofClient, proofConsensus, proofHeight, consensusHeight) =>
      ClientAndConsensus(c, k, u, p, id, client, cons, proofClient, proofConsensus, proofHeight, consensusHeight)
    case ConnOpenTry(h) => OpenConnection(c, k, h, INIT)
    case ConnOpenAck(h) => OpenConnection(c, k, h, TRYOPEN)
    case ConnOpenConfirm(_, _, _, _, _, _) => ConfirmConnection(c, k, m)
    case ConnOpenFinalize(_, _, _, _, _) => FinalizeConnection(c, k, m)
    case ChanOpenTry(_, _, _, _, _, _, _, _, _, _) => TryChannel(c, k, m)
    case ChanOpenAck(_, _, _, _, _, _, _, _, _, _, _) => AckChannel(c, k, m)
    case ChanOpenConfirm(_, _, _, _, _, _, _) => ConfirmChannel(c, k, m)
    case ChanOpenFinalize(_, _, _, _, _, _) => FinalizeChannel(c, k, m)
    case RecvPacket(_, _, _, _, _) => Receive(c, k, m)
    case AcknowledgePacket(_, _, _, _, _, _) => Acknowledge(c, k, m)
  }

  /** The store after a message, with every write it made. */
  function StoreAfter(c: Config, k: State, m: Msg): Store {
    Write(c.oracle, k.store, Upstream(m), UpstreamPrefix(m), Handle(c, k, m).written)
  }
}
