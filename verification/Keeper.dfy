/** The proxy module's keeper: the store it updates in place, and its handlers step by step. Each
    handler is proved to do to the store what the function of the same message says. */
module Keepers {
  import opened Wire
  import opened Messages
  import opened Paths
  import opened Clients
  import opened Handlers

  /** Writes one after the other are one longer list of writes. */
  lemma {:induction false} WriteInTurn(o: Oracle, store: Store, u: string, p: string, first: seq<Claim>, second: seq<Claim>)
    ensures Write(o, Write(o, store, u, p, first), u, p, second) == Write(o, store, u, p, first + second)
    decreases |second|
  {
    hide KeeperKey, PathOf, ValueOf;
    if second == [] {
      assert first + second == first;
    } else {
      var n := |second| - 1;
      assert (first + second)[..|first| + n] == first + second[..n];
      WriteInTurn(o, store, u, p, first, second[..n]);
    }
  }

  lemma WriteOne(o: Oracle, store: Store, u: string, p: string, claim: Claim)
    ensures Write(o, store, u, p, [claim]) == store[KeeperKey(p, u, PathOf(claim)) := ValueOf(o, claim)]
  {
    hide KeeperKey, PathOf, ValueOf;
    assert [claim][..0] == [];
  }

  class Keeper {
    const cfg: Config
    var now: nat
    var store: Store
    var clients: map<string, ClientState>
    var clientStores: map<string, Store>

    constructor (cfg: Config, now: nat, clients: map<string, ClientState>, clientStores: map<string, Store>)
      ensures this.cfg == cfg && Snapshot() == State(now, map[], clients, clientStores)
    {
      this.cfg, this.now, this.store, this.clients, this.clientStores := cfg, now, map[], clients, clientStores;
    }

    function Snapshot(): State
      reads this
    {
      State(now, store, clients, clientStores)
    }

    /** The store is as after `out` about (u, p), from `before`. */
    ghost predicate Did(before: State, u: string, p: string, out: Outcome, ok: bool)
      reads this
    {
      && Snapshot() == before.(store := Write(cfg.oracle, before.store, u, p, out.written))
      && ok == out.ok
    }

    ghost predicate Handled(before: State, m: Msg, ok: bool)
      reads this
    {
      Did(before, Upstream(m), UpstreamPrefix(m), Handle(cfg, before, m), ok)
    }

    // ---- commitment.go ----

    method SetProxyClientState(p: string, id: string, u: string, client: ClientState)
      modifies this`store
      ensures store == Write(cfg.oracle, old(store), u, p, [ClientClaim(id, client)])
      ensures store == old(store)[KeeperKey(p, u, ClientPath(id)) := ClientV(client)]
    {
      WriteOne(cfg.oracle, store, u, p, ClientClaim(id, client));
      store := store[ProxyClientStorePrefix(p, u, id) + CLIENT_STATE_KEY := ClientV(client)];
    }

    method SetProxyClientConsensusState(p: string, id: string, u: string, h: Height, cons: ConsensusState)
      modifies this`store
      ensures store == Write(cfg.oracle, old(store), u, p, [ConsensusClaim(id, h, cons)])
      ensures store == old(store)[KeeperKey(p, u, ConsensusPath(id, h)) := ConsensusV(cons)]
    {
      WriteOne(cfg.oracle, store, u, p, ConsensusClaim(id, h, cons));
      store := store[ProxyClientStorePrefix(p, u, id) + ConsensusStateKey(h) := ConsensusV(cons)];
    }

    method SetProxyConnection(p: string, u: string, id: string, end: ConnectionEnd)
      modifies this`store
      ensures store == Write(cfg.oracle, old(store), u, p, [ConnectionClaim(id, end)])
      ensures store == old(store)[KeeperKey(p, u, ConnectionPath(id)) := ConnectionV(end)]
    {
      WriteOne(cfg.oracle, store, u, p, ConnectionClaim(id, end));
      store := store[ProxyStorePrefix(p, u) + Render(ConnectionPath(id)) := ConnectionV(end)];
    }

    method SetProxyChannel(p: string, u: string, port: string, channel: string, end: Channel)
      modifies this`store
      ensures store == Write(cfg.oracle, old(store), u, p, [ChannelClaim(port, channel, end)])
      ensures store == old(store)[KeeperKey(p, u, ChannelPath(port, channel)) := ChannelV(end)]
    {
      WriteOne(cfg.oracle, store, u, p, ChannelClaim(port, channel, end));
      store := store[ProxyStorePrefix(p, u) + Render(ChannelPath(port, channel)) := ChannelV(end)];
    }

    method SetProxyPacketCommitment(p: string, u: string, port: string, channel: string, n: uint64, commitment: bytes)
      modifies this`store
      ensures store == Write(cfg.oracle, old(store), u, p, [CommitmentClaim(port, channel, n, commitment)])
      ensures store == old(store)[KeeperKey(p, u, CommitmentPath(port, channel, n)) := BytesV(commitment)]
    {
      WriteOne(cfg.oracle, store, u, p, CommitmentClaim(port, channel, n, commitment));
      store := store[ProxyStorePrefix(p, u) + Render(CommitmentPath(port, channel, n)) := BytesV(commitment)];
    }

    /** Not the acknowledgement is stored but its commitment. */
    method SetProxyPacketAcknowledgement(p: string, u: string, port: string, channel: string, n: uint64, ack: bytes)
      modifies this`store
      ensures store == Write(cfg.oracle, old(store), u, p, [AckClaim(port, channel, n, ack)])
      ensures store == old(store)[KeeperKey(p, u, AckPath(port, channel, n)) := BytesV(cfg.oracle.commitAck(ack))]
    {
      WriteOne(cfg.oracle, store, u, p, AckClaim(port, channel, n, ack));
      store := store[ProxyStorePrefix(p, u) + Render(AckPath(port, channel, n)) := BytesV(cfg.oracle.commitAck(ack))];
    }

    // ---- proxy.go ----

    /** The VerifyAndProxy* methods: ask the upstream client, return on failure, then write. */
    method VerifyAndProxy(u: string, p: string, height: Height, claim: Claim, proof: bytes) returns (ok: bool)
      modifies this`store
      ensures Did(old(Snapshot()), u, p, Handlers.VerifyAndProxy(cfg, old(Snapshot()), u, p, height, claim, proof), ok)
      ensures !ok ==> store == old(store)
    {
      hide Verify, Write, KeeperKey;
      assert Write(cfg.oracle, store, u, p, []) == store by { WriteNone(cfg.oracle, store, u, p); }
      if u !in clients { return false; }
      var clientStore := if u in clientStores then clientStores[u] else map[];
      ok := Verify(cfg.oracle, clients[u], clientStore, height, Merkle(p), claim, proof);
      if !ok { return; }
      match claim {
        case ClientClaim(id, client) => SetProxyClientState(p, id, u, client);
        case ConsensusClaim(id, h, cons) => SetProxyClientConsensusState(p, id, u, h, cons);
        case ConnectionClaim(id, end) => SetProxyConnection(p, u, id, end);
        case ChannelClaim(port, channel, end) => SetProxyChannel(p, u, port, channel, end);
        case CommitmentClaim(port, channel, n, commitment) => SetProxyPacketCommitment(p, u, port, channel, n, commitment);
        case AckClaim(port, channel, n, ack) => SetProxyPacketAcknowledgement(p, u, port, channel, n, ack);
      }
    }

    /** A second write after a first is the two in turn. */
    lemma Continue(before: State, between: State, u: string, p: string, first: Outcome, second: Outcome, ok: bool)
      requires between == before.(store := Write(cfg.oracle, before.store, u, p, first.written)) && first.ok
      requires Did(between, u, p, second, ok)
      ensures Did(before, u, p, Then(first, second), ok)
    {
      hide Write;
      WriteInTurn(cfg.oracle, before.store, u, p, first.written, second.written);
    }

    // ---- client.go ----

    method ClientAndConsensus(u: string, p: string, id: string, client: ClientState, cons: ConsensusState,
                              proofClient: bytes, proofConsensus: bytes, proofHeight: Height, consensusHeight: Height)
      returns (ok: bool)
      modifies this`store
      ensures Did(old(Snapshot()), u, p,
                  Handlers.ClientAndConsensus(cfg, old(Snapshot()), u, p, id, client, cons, proofClient, proofConsensus,
                                              proofHeight, consensusHeight), ok)
    {
      hide Verify, Write;
      ghost var before := Snapshot();
      ok := VerifyAndProxy(u, p, proofHeight, ClientClaim(id, client), proofClient);
      if !ok { return; }
      ghost var between := Snapshot();
      ok := VerifyAndProxy(u, p, proofHeight, ConsensusClaim(id, consensusHeight, cons), proofConsensus);
      Continue(before, between, u, p,
               Handlers.VerifyAndProxy(cfg, before, u, p, proofHeight, ClientClaim(id, client), proofClient),
               Handlers.VerifyAndProxy(cfg, before, u, p, proofHeight, ConsensusClaim(id, consensusHeight, cons), proofConsensus), ok);
    }

    method ClientState(u: string, p: string, id: string, client: ClientState, cons: ConsensusState,
                       proofClient: bytes, proofConsensus: bytes, proofHeight: Height, consensusHeight: Height)
      returns (ok: bool)
      modifies this`store
      ensures Handled(old(Snapshot()),
                      ProxyClientState(u, p, id, client, cons, proofClient, proofConsensus, proofHeight, consensusHeight), ok)
    {
      hide Handlers.ClientAndConsensus, Write;
      ok := ClientAndConsensus(u, p, id, client, cons, proofClient, proofConsensus, proofHeight, consensusHeight);
    }

    // ---- connection.go ----

    /** The steps that ConnOpenTry and ConnOpenAck have in common: everything but the stage. */
    method OpenConnection(h: Handshake, stage: Stage) returns (ok: bool)
      modifies this`store
      ensures h.proxyClient.Proxy? ==>
                Did(old(Snapshot()), h.proxyClient.upstream, h.p, Handlers.OpenConnection(cfg, old(Snapshot()), h, stage), ok)
      ensures !h.proxyClient.Proxy? ==> !ok && Snapshot() == old(Snapshot())
    {
      hide Verify, Write, KeeperKey, Handlers.ClientAndConsensus, Handlers.VerifyAndProxy;
      ghost var before := Snapshot();
      if !h.proxyClient.Proxy? { return false; }
      var u, p, end := h.proxyClient.upstream, h.p, h.connectionEnd;
      WriteNone(cfg.oracle, store, u, p);
      if !ValidateSelfClient(cfg, now, h.proxyClient) { return false; }
      var self := SelfConsensus(cfg, now, h.proxyConsensusHeight);
      if self.None? { return false; }
      if !GetConnection(store, u, p, h.connection).Missing? { return false; }
      if end.stage != stage { return false; }

      ok := ClientAndConsensus(u, p, end.client, h.downstreamClient, h.downstreamCons,
                               h.proofClient, h.proofConsensus, h.proofHeight, h.consensusHeight);
      if !ok { return; }
      ghost var between := Snapshot();
      WriteNone(cfg.oracle, store, u, p);
      ghost var first := Handlers.ClientAndConsensus(cfg, before, u, p, end.client, h.downstreamClient, h.downstreamCons,
                                                     h.proofClient, h.proofConsensus, h.proofHeight, h.consensusHeight);

      var downstream := h.downstreamClient;
      if downstream.MultiV? { downstream := downstream.underlying; }
      var mem := MemStore(h.downstreamCons, h.proofProxyHeight);
      var prefix, id := Merkle(end.counterparty.prefix), end.counterparty.client;
      ok := Verify(cfg.oracle, downstream, mem, h.proofProxyHeight, prefix, ClientClaim(id, h.proxyClient), h.proofProxyClient);
      if ok {
        ok := Verify(cfg.oracle, downstream, mem, h.proofProxyHeight, prefix,
                     ConsensusClaim(id, h.proxyConsensusHeight, self.value), h.proofProxyConsensus);
      }
      if !ok {
        Continue(before, between, u, p, first, FAILED, false);
        return;
      }
      ok := VerifyAndProxy(u, p, h.proofHeight, ConnectionClaim(h.connection, end), h.proofConnection);
      SameClients(before, between, u, p, h.proofHeight, ConnectionClaim(h.connection, end), h.proofConnection);
      Continue(before, between, u, p, first,
               Handlers.VerifyAndProxy(cfg, between, u, p, h.proofHeight, ConnectionClaim(h.connection, end), h.proofConnection), ok);
    }

    /** Writing the proxy store changes no answer of a client. */
    lemma SameClients(before: State, between: State, u: string, p: string, height: Height, claim: Claim, proof: bytes)
      requires between == before.(store := between.store)
      ensures Handlers.VerifyAndProxy(cfg, before, u, p, height, claim, proof)
              == Handlers.VerifyAndProxy(cfg, between, u, p, height, claim, proof)
    {
      hide Verify;
    }

    method ConnOpenTry(h: Handshake) returns (ok: bool)
      modifies this`store
      ensures Handled(old(Snapshot()), Msg.ConnOpenTry(h), ok)
    {
      hide Write, GetConnection, ValidateSelfClient, DownstreamTracksProxy, Handlers.ClientAndConsensus, Handlers.VerifyAndProxy;
      WriteNone(cfg.oracle, store, "", h.p);
      ok := OpenConnection(h, INIT);
    }

    method ConnOpenAck(h: Handshake) returns (ok: bool)
      modifies this`store
      ensures Handled(old(Snapshot()), Msg.ConnOpenAck(h), ok)
    {
      hide Write, GetConnection, ValidateSelfClient, DownstreamTracksProxy, Handlers.ClientAndConsensus, Handlers.VerifyAndProxy;
      WriteNone(cfg.oracle, store, "", h.p);
      ok := OpenConnection(h, TRYOPEN);
    }

    method ConnOpenConfirm(u: string, p: string, id: string, counterpartyConnection: string, proof: bytes, proofHeight: Height)
      returns (ok: bool)
      modifies this`store
      ensures Handled(old(Snapshot()), Msg.ConnOpenConfirm(u, p, id, counterpartyConnection, proof, proofHeight), ok)
      ensures !ok ==> store == old(store)
    {
      hide Write, GetConnection, Handlers.VerifyAndProxy;
      WriteNone(cfg.oracle, store, u, p);
      var found := GetConnection(store, u, p, id);
      if !found.Found? { return false; }
      var end := found.value;
      if end.stage != INIT { return false; }
      end := end.(stage := OPEN);
      end := end.(counterparty := end.counterparty.(connection := counterpartyConnection));
      ok := VerifyAndProxy(u, p, proofHeight, ConnectionClaim(id, end), proof);
    }

    method ConnOpenFinalize(u: string, p: string, id: string, proof: bytes, proofHeight: Height) returns (ok: bool)
      modifies this`store
      ensures Handled(old(Snapshot()), Msg.ConnOpenFinalize(u, p, id, proof, proofHeight), ok)
      ensures !ok ==> store == old(store)
    {
      hide Write, GetConnection, Handlers.VerifyAndProxy;
      WriteNone(cfg.oracle, store, u, p);
      var found := GetConnection(store, u, p, id);
      if !found.Found? { return false; }
      var end := found.value;
      if end.stage != TRYOPEN { return false; }
      end := end.(stage := OPEN);
      ok := VerifyAndProxy(u, p, proofHeight, ConnectionClaim(id, end), proof);
    }

    // ---- channel.go ----

    method ChanOpenTry(u: string, p: string, order: Order, hops: seq<string>, port: string, channel: string,
                       downstreamPort: string, version: string, proof: bytes, proofHeight: Height) returns (ok: bool)
      modifies this`store
      ensures Handled(old(Snapshot()),
                      Msg.ChanOpenTry(u, p, order, hops, port, channel, downstreamPort, version, proof, proofHeight), ok)
      ensures !ok ==> store == old(store)
    {
      hide Write, GetConnection, OrderSupported, Handlers.VerifyAndProxy;
      WriteNone(cfg.oracle, store, u, p);
      if |hops| != 1 { return false; }
      var found := GetConnection(store, u, p, hops[0]);
      if !found.Found? { return false; }
      if !OrderSupported(order, found.value) { return false; }
      var expected := Channel(INIT, order, ChannelCounterparty(downstreamPort, ""), hops, version);
      ok := VerifyAndProxy(u, p, proofHeight, ChannelClaim(port, channel, expected), proof);
    }

    method ChanOpenAck(u: string, p: string, order: Order, hops: seq<string>, port: string, channel: string,
                       downstreamPort: string, downstreamChannel: string, version: string, proof: bytes, proofHeight: Height)
      returns (ok: bool)
      modifies this`store
      ensures Handled(old(Snapshot()),
                      Msg.ChanOpenAck(u, p, order, hops, port, channel, downstreamPort, downstreamChannel, version, proof, proofHeight), ok)
      ensures !ok ==> store == old(store)
    {
      hide Write, GetConnection, OrderSupported, Handlers.VerifyAndProxy;
      WriteNone(cfg.oracle, store, u, p);
      if |hops| != 1 { return false; }
      var found := GetConnection(store, u, p, hops[0]);
      if !found.Found? { return false; }
      if found.value.stage != OPEN { return false; }
      if !OrderSupported(order, found.value) { return false; }
      var expected := Channel(TRYOPEN, order, ChannelCounterparty(downstreamPort, downstreamChannel), hops, version);
      ok := VerifyAndProxy(u, p, proofHeight, ChannelClaim(port, channel, expected), proof);
    }

    method ChanOpenConfirm(u: string, p: string, port: string, channel: string, downstreamChannel: string,
                           proof: bytes, proofHeight: Height) returns (ok: bool)
      modifies this`store
      ensures Handled(old(Snapshot()), Msg.ChanOpenConfirm(u, p, port, channel, downstreamChannel, proof, proofHeight), ok)
      ensures !ok ==> store == old(store)
    {
      hide Write, GetConnection, GetChannel, Handlers.VerifyAndProxy;
      WriteNone(cfg.oracle, store, u, p);
      var found := GetChannel(store, u, p, port, channel);
      if !found.Found? { return false; }
      var end := found.value;
      if end.counterparty.channel != "" { return false; }
      if end.stage != INIT { return false; }
      var hop := HopConnection(store, u, p, end);
      if !hop.Found? || hop.value.stage != OPEN { return false; }
      end := end.(counterparty := end.counterparty.(channel := downstreamChannel));
      end := end.(stage := OPEN);
      ok := VerifyAndProxy(u, p, proofHeight, ChannelClaim(port, channel, end), proof);
    }

    method ChanOpenFinalize(u: string, p: string, port: string, channel: string, proof: bytes, proofHeight: Height)
      returns (ok: bool)
      modifies this`store
      ensures Handled(old(Snapshot()), Msg.ChanOpenFinalize(u, p, port, channel, proof, proofHeight), ok)
      ensures !ok ==> store == old(store)
    {
      hide Write, GetConnection, GetChannel, Handlers.VerifyAndProxy;
      WriteNone(cfg.oracle, store, u, p);
      var found := GetChannel(store, u, p, port, channel);
      if !found.Found? { return false; }
      var end := found.value;
      if end.stage != TRYOPEN { return false; }
      var hop := HopConnection(store, u, p, end);
      if !hop.Found? || hop.value.stage != OPEN { return false; }
      end := end.(stage := OPEN);
      ok := VerifyAndProxy(u, p, proofHeight, ChannelClaim(port, channel, end), proof);
    }

    // ---- packet.go ----

    method RecvPacket(u: string, p: string, packet: Packet, proof: bytes, proofHeight: Height) returns (ok: bool)
      modifies this`store
      ensures Handled(old(Snapshot()), Msg.RecvPacket(u, p, packet, proof, proofHeight), ok)
      ensures !ok ==> store == old(store)
    {
      hide Write, GetConnection, GetChannel, Handlers.VerifyAndProxy;
      WriteNone(cfg.oracle, store, u, p);
      var found := GetChannel(store, u, p, packet.sourcePort, packet.sourceChannel);
      if !found.Found? { return false; }
      if packet.destPort != found.value.counterparty.port { return false; }
      if packet.destChannel != found.value.counterparty.channel { return false; }
      var hop := HopConnection(store, u, p, found.value);
      if !hop.Found? { return false; }
      var commitment := cfg.commitPacket(packet);
      ok := VerifyAndProxy(u, p, proofHeight,
                           CommitmentClaim(packet.sourcePort, packet.sourceChannel, packet.sequence, commitment), proof);
    }

    method AcknowledgePacket(u: string, p: string, packet: Packet, ack: bytes, proof: bytes, proofHeight: Height) returns (ok: bool)
      modifies this`store
      ensures Handled(old(Snapshot()), Msg.AcknowledgePacket(u, p, packet, ack, proof, proofHeight), ok)
      ensures !ok ==> store == old(store)
    {
      hide Write, GetConnection, GetChannel, Handlers.VerifyAndProxy;
      WriteNone(cfg.oracle, store, u, p);
      var found := GetChannel(store, u, p, packet.destPort, packet.destChannel);
      if !found.Found? { return false; }
      var hop := HopConnection(store, u, p, found.value);
      if !hop.Found? { return false; }
      ok := VerifyAndProxy(u, p, proofHeight,
                           AckClaim(packet.destPort, packet.destChannel, packet.sequence, ack), proof);
    }
  }

  lemma WriteNone(o: Oracle, store: Store, u: string, p: string)
    ensures Write(o, store, u, p, []) == store
  {
  }
}
