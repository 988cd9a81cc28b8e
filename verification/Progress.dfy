/** Progress: what upstream chain, proxy and downstream chain really hold can be carried through. */
module Progress {
  import opened Options
  import opened Wire
  import opened Messages
  import opened Paths
  import opened Clients
  import opened Soundness
  import opened Completeness
  import opened Handlers
  import opened Keepers
  import opened Writes
  import opened EndToEnd
  import opened Worlds

  /** A client can be shown the claim at a height: the consensus state it has for that height vouches
      for it, and the proof is not longer than a Go slice can be. */
  ghost predicate CanProve(o: Oracle, cs: ClientState, store: Store, height: Height, prefix: Prefix, claim: Claim, ev: Evidence) {
    && ReadCons(store, height).Some? && HeightAtMost(height, Latest(cs))
    && Vouches(o, cs, ReadCons(store, height).value, prefix, claim, ev)
    && |Prove(o, cs, ReadCons(store, height).value, prefix, claim, height, ev)| <= MAX_INT
  }

  ghost predicate Provable(o: Oracle, cs: ClientState, store: Store, height: Height, prefix: Prefix, claim: Claim) {
    exists ev :: CanProve(o, cs, store, height, prefix, claim, ev)
  }

  lemma ProofFor(o: Oracle, cs: ClientState, store: Store, height: Height, prefix: Prefix, claim: Claim) returns (proof: bytes)
    requires Complete(o) && Provable(o, cs, store, height, prefix, claim)
    ensures Verify(o, cs, store, height, prefix, claim, proof)
  {
    hide Vouches, Verify, Prove, ReadCons, Latest;
    var ev :| CanProve(o, cs, store, height, prefix, claim, ev);
    var cons := ReadCons(store, height).value;
    proof := Prove(o, cs, cons, prefix, claim, height, ev);
    ProveAccepted(o, cs, cons, store, prefix, claim, height, ev);
  }

  ghost predicate ProvableTo(o: Oracle, k: State, u: string, p: string, height: Height, claim: Claim) {
    u in k.clients && Provable(o, k.clients[u], ClientStore(k, u), height, Merkle(p), claim)
  }

  lemma ProofAt(c: Config, k: State, u: string, p: string, height: Height, claim: Claim) returns (proof: bytes)
    requires Complete(c.oracle) && ProvableTo(c.oracle, k, u, p, height, claim)
    ensures Accepts(c, k, u, p, height, claim, proof)
  {
    hide Provable, Verify;
    proof := ProofFor(c.oracle, k.clients[u], ClientStore(k, u), height, Merkle(p), claim);
  }

  // ---- the handshake ----

  /** The upstream holds, at heights the proxy's client knows, a connection end and a client for the
      downstream; the downstream holds a Proxy client for this chain that names the upstream's id. */
  ghost predicate HandshakeHeld(c: Config, k: State, id: string, p: string, end: ConnectionEnd, height: Height, dh: Height, x: Witness) {
    && x.pcs.Proxy? && x.pcs.ibcPrefix == c.ibcName && x.pcs.proxyPrefix == c.proxyName
    && TakenForSelf(c, k.now, x.pcs.inner) && c.selfCons(k.now, x.selfHeight) == Some(x.self)
    && var u := x.pcs.upstream;
    && ProvableTo(c.oracle, k, u, p, height, ClientClaim(end.client, x.dcs))
    && ProvableTo(c.oracle, k, u, p, height, ConsensusClaim(end.client, x.consHeight, x.dcons))
    && ProvableTo(c.oracle, k, u, p, height, ConnectionClaim(id, end))
    && var at, cid, mem := Merkle(end.counterparty.prefix), end.counterparty.client, MemStore(x.dcons, dh);
    && Behind(x.dcs, x.tracker)
    && Provable(c.oracle, x.tracker, mem, dh, at, ClientClaim(cid, x.pcs))
    && Provable(c.oracle, x.tracker, mem, dh, at, ConsensusClaim(cid, x.selfHeight, ProxyCons(x.self)))
  }

  /** From a store without the connection, its first step is enabled and stores the upstream's end. */
  lemma OpeningEnabled(c: Config, k: State, id: string, p: string, end: ConnectionEnd, height: Height, dh: Height, x: Witness)
    returns (h: Handshake)
    requires Complete(c.oracle) && HandshakeHeld(c, k, id, p, end, height, dh, x)
    requires GetConnection(k.store, x.pcs.upstream, p, id).Missing?
    ensures h.proxyClient == x.pcs && h.p == p && h.downstreamClient == x.dcs
    ensures var out := OpenConnection(c, k, h, end.stage);
            out.ok && GetConnection(Write(c.oracle, k.store, x.pcs.upstream, p, out.written), x.pcs.upstream, p, id) == Found(end)
  {
    hide Provable, Verify, GetConnection, ClientStore, MemStore, Write;
    var u := x.pcs.upstream;
    var at, cid, mem := Merkle(end.counterparty.prefix), end.counterparty.client, MemStore(x.dcons, dh);
    var proofClient := ProofAt(c, k, u, p, height, ClientClaim(end.client, x.dcs));
    var proofConsensus := ProofAt(c, k, u, p, height, ConsensusClaim(end.client, x.consHeight, x.dcons));
    var proofConnection := ProofAt(c, k, u, p, height, ConnectionClaim(id, end));
    var proofProxyClient := ProofFor(c.oracle, x.tracker, mem, dh, at, ClientClaim(cid, x.pcs));
    var proofProxyConsensus := ProofFor(c.oracle, x.tracker, mem, dh, at, ConsensusClaim(cid, x.selfHeight, ProxyCons(x.self)));
    h := Handshake(id, p, end, x.dcs, x.dcons, x.pcs, proofConnection, proofClient, proofConsensus, height, x.consHeight,
                   proofProxyClient, proofProxyConsensus, dh, x.selfHeight);
    LastWriteFound(c.oracle, k.store, u, p, OpenConnection(c, k, h, end.stage).written, id, end);
  }

  /** In particular a downstream that the upstream tracks through a MultiV client around d: what the
      downstream holds about this proxy is shown to d itself. Both the Try and the Ack are accepted. */
  lemma MultiVDownstreamOpens(c: Config, k: State, id: string, p: string, end: ConnectionEnd, height: Height, dh: Height,
                              d: ClientState, depth: uint32, dcons: ConsensusState, consHeight: Height,
                              pcs: ClientState, selfHeight: Height, self: ConsensusState) returns (m: Msg)
    requires Complete(c.oracle) && (end.stage == INIT || end.stage == TRYOPEN)
    requires pcs.Proxy? && pcs.ibcPrefix == c.ibcName && pcs.proxyPrefix == c.proxyName
    requires TakenForSelf(c, k.now, pcs.inner) && c.selfCons(k.now, selfHeight) == Some(self)
    requires ProvableTo(c.oracle, k, pcs.upstream, p, height, ClientClaim(end.client, MultiV(d, depth)))
    requires ProvableTo(c.oracle, k, pcs.upstream, p, height, ConsensusClaim(end.client, consHeight, dcons))
    requires ProvableTo(c.oracle, k, pcs.upstream, p, height, ConnectionClaim(id, end))
    requires var at := Merkle(end.counterparty.prefix);
             && Provable(c.oracle, d, MemStore(dcons, dh), dh, at, ClientClaim(end.counterparty.client, pcs))
             && Provable(c.oracle, d, MemStore(dcons, dh), dh, at, ConsensusClaim(end.counterparty.client, selfHeight, ProxyCons(self)))
    requires GetConnection(k.store, pcs.upstream, p, id).Missing?
    ensures (end.stage == INIT ==> m.ConnOpenTry?) && (end.stage == TRYOPEN ==> m.ConnOpenAck?)
    ensures m.h.downstreamClient == MultiV(d, depth) && Handle(c, k, m).ok
    ensures GetConnection(StoreAfter(c, k, m), pcs.upstream, p, id) == Found(end)
  {
    hide Provable, ProvableTo, GetConnection, OpenConnection, MemStore, Write;
    var x := Witness(MultiV(d, depth), d, dcons, consHeight, pcs, k.now, selfHeight, self);
    var h := OpeningEnabled(c, k, id, p, end, height, dh, x);
    m := if end.stage == INIT then ConnOpenTry(h) else ConnOpenAck(h);
  }

  lemma LastWriteFound(o: Oracle, store: Store, u: string, p: string, claims: seq<Claim>, id: string, end: ConnectionEnd)
    requires claims != [] && claims[|claims| - 1] == ConnectionClaim(id, end)
    ensures GetConnection(Write(o, store, u, p, claims), u, p, id) == Found(end)
  {
    hide KeeperKey;
  }

  /** Handshake progress, upstream first: INIT on the upstream and later OPEN, the two ends apart only
      in stage and counterparty connection id. Try and then Confirm are enabled, whatever else has
      changed in the clients between them, and leave the upstream's OPEN end. */
  lemma TryThenConfirm(c: Config, k: State, k': State, id: string, p: string, end: ConnectionEnd, full: ConnectionEnd,
                       height: Height, height': Height, dh: Height, x: Witness) returns (first: Msg, second: Msg)
    requires Complete(c.oracle) && end.stage == INIT && Opened(end, full)
    requires HandshakeHeld(c, k, id, p, end, height, dh, x)
    requires ProvableTo(c.oracle, k', x.pcs.upstream, p, height', ConnectionClaim(id, full))
    requires GetConnection(k.store, x.pcs.upstream, p, id).Missing?
    ensures first.ConnOpenTry? && second.ConnOpenConfirm?
    ensures Handle(c, k, first).ok
    ensures var between := k'.(store := StoreAfter(c, k, first));
            && Handle(c, between, second).ok
            && GetConnection(StoreAfter(c, between, second), x.pcs.upstream, p, id) == Found(full)
  {
    hide HandshakeHeld, ProvableTo, OpenConnection, GetConnection, Accepts, Write;
    IsProxy(c, k, id, p, end, height, dh, x);
    var u := x.pcs.upstream;
    var h := OpeningEnabled(c, k, id, p, end, height, dh, x);
    first := ConnOpenTry(h);
    var proof := ProofAt(c, k', u, p, height', ConnectionClaim(id, full));
    second := ConnOpenConfirm(u, p, id, full.counterparty.connection, proof, height');
    var between := k'.(store := StoreAfter(c, k, first));
    AcceptsOverAnyStore(c, k', between, u, p, height', ConnectionClaim(id, full), proof);
    assert Handle(c, between, second) == Outcome([ConnectionClaim(id, full)], true);
    LastWriteFound(c.oracle, between.store, u, p, [ConnectionClaim(id, full)], id, full);
  }

  lemma AcceptsOverAnyStore(c: Config, k: State, k': State, u: string, p: string, height: Height, claim: Claim, proof: bytes)
    requires k' == k.(store := k'.store) && Accepts(c, k, u, p, height, claim, proof)
    ensures Accepts(c, k', u, p, height, claim, proof)
  {
    hide Verify;
  }

  lemma IsProxy(c: Config, k: State, id: string, p: string, end: ConnectionEnd, height: Height, dh: Height, x: Witness)
    requires HandshakeHeld(c, k, id, p, end, height, dh, x)
    ensures x.pcs.Proxy?
  {
    hide ProvableTo, Provable;
  }

  /** And downstream first: TRYOPEN and later OPEN, apart only in the stage. */
  lemma AckThenFinalize(c: Config, k: State, k': State, id: string, p: string, end: ConnectionEnd,
                        height: Height, height': Height, dh: Height, x: Witness) returns (first: Msg, second: Msg)
    requires Complete(c.oracle) && end.stage == TRYOPEN
    requires HandshakeHeld(c, k, id, p, end, height, dh, x)
    requires ProvableTo(c.oracle, k', x.pcs.upstream, p, height', ConnectionClaim(id, end.(stage := OPEN)))
    requires GetConnection(k.store, x.pcs.upstream, p, id).Missing?
    ensures first.ConnOpenAck? && second.ConnOpenFinalize?
    ensures Handle(c, k, first).ok
    ensures var between := k'.(store := StoreAfter(c, k, first));
            && Handle(c, between, second).ok
            && GetConnection(StoreAfter(c, between, second), x.pcs.upstream, p, id) == Found(end.(stage := OPEN))
  {
    hide HandshakeHeld, ProvableTo, OpenConnection, GetConnection, Accepts, Write;
    IsProxy(c, k, id, p, end, height, dh, x);
    var u, full := x.pcs.upstream, end.(stage := OPEN);
    var h := OpeningEnabled(c, k, id, p, end, height, dh, x);
    first := ConnOpenAck(h);
    var proof := ProofAt(c, k', u, p, height', ConnectionClaim(id, full));
    second := ConnOpenFinalize(u, p, id, proof, height');
    var between := k'.(store := StoreAfter(c, k, first));
    AcceptsOverAnyStore(c, k', between, u, p, height', ConnectionClaim(id, full), proof);
    assert Handle(c, between, second) == Outcome([ConnectionClaim(id, full)], true);
    LastWriteFound(c.oracle, between.store, u, p, [ConnectionClaim(id, full)], id, full);
  }

  // ---- clients, channels and packets ----

  /** A client and a consensus state that the upstream holds can be proxied together. */
  lemma ClientStateEnabled(c: Config, k: State, u: string, p: string, id: string, client: ClientState, cons: ConsensusState,
                           height: Height, consHeight: Height) returns (m: Msg)
    requires Complete(c.oracle)
    requires ProvableTo(c.oracle, k, u, p, height, ClientClaim(id, client))
    requires ProvableTo(c.oracle, k, u, p, height, ConsensusClaim(id, consHeight, cons))
    ensures m.ProxyClientState? && Handle(c, k, m).ok
    ensures var store, x, y := StoreAfter(c, k, m), KeeperKey(p, u, ClientPath(id)), KeeperKey(p, u, ConsensusPath(id, consHeight));
            x in store && store[x] == ClientV(client) && y in store && store[y] == ConsensusV(cons)
  {
    hide ProvableTo, Accepts, KeeperKey, Render;
    var proofClient := ProofAt(c, k, u, p, height, ClientClaim(id, client));
    var proofConsensus := ProofAt(c, k, u, p, height, ConsensusClaim(id, consHeight, cons));
    m := ProxyClientState(u, p, id, client, cons, proofClient, proofConsensus, height, consHeight);
    var x, y := ClientClaim(id, client), ConsensusClaim(id, consHeight, cons);
    assert Handle(c, k, m) == Outcome([x, y], true);
    assert [x] + [y] == [x, y];
    WriteInTurn(c.oracle, k.store, u, p, [x], [y]);
    WriteOne(c.oracle, k.store, u, p, x);
    WriteOne(c.oracle, Write(c.oracle, k.store, u, p, [x]), u, p, y);
    if KeeperKey(p, u, PathOf(x)) == KeeperKey(p, u, PathOf(y)) {
      SameRender(p, u, PathOf(x), PathOf(y));
      RenderKeeps(PathOf(x), PathOf(y));
      assert false;
    }
  }

  lemma StoredChannel(c: Config, k: State, m: Msg, port: string, channel: string, end: Channel)
    requires Handle(c, k, m) == Outcome([ChannelClaim(port, channel, end)], true)
    ensures GetChannel(StoreAfter(c, k, m), Upstream(m), UpstreamPrefix(m), port, channel) == Found(end)
  {
    hide Handle, KeeperKey, Upstream, UpstreamPrefix;
    WriteOne(c.oracle, k.store, Upstream(m), UpstreamPrefix(m), ChannelClaim(port, channel, end));
  }

  /** A channel that the upstream has in INIT can be proxied, over a connection that has its order; ... */
  lemma ChannelTryEnabled(c: Config, k: State, u: string, p: string, port: string, channel: string, end: Channel, height: Height)
    returns (m: Msg)
    requires Complete(c.oracle) && end.stage == INIT && end.counterparty.channel == "" && |end.hops| == 1
    requires var hop := GetConnection(k.store, u, p, end.hops[0]); hop.Found? && OrderNegotiated(end.order, hop.value)
    requires ProvableTo(c.oracle, k, u, p, height, ChannelClaim(port, channel, end))
    ensures m.ChanOpenTry? && Handle(c, k, m).ok && GetChannel(StoreAfter(c, k, m), u, p, port, channel) == Found(end)
  {
    hide ProvableTo, GetConnection, GetChannel, Accepts, Write;
    var proof := ProofAt(c, k, u, p, height, ChannelClaim(port, channel, end));
    m := ChanOpenTry(u, p, end.order, end.hops, port, channel, end.counterparty.port, end.version, proof, height);
    StoredChannel(c, k, m, port, channel, end);
  }

  /** ... in TRYOPEN, if the connection is OPEN; ... */
  lemma ChannelAckEnabled(c: Config, k: State, u: string, p: string, port: string, channel: string, end: Channel, height: Height)
    returns (m: Msg)
    requires Complete(c.oracle) && end.stage == TRYOPEN && |end.hops| == 1
    requires var hop := GetConnection(k.store, u, p, end.hops[0]);
             hop.Found? && OrderNegotiated(end.order, hop.value) && hop.value.stage == OPEN
    requires ProvableTo(c.oracle, k, u, p, height, ChannelClaim(port, channel, end))
    ensures m.ChanOpenAck? && Handle(c, k, m).ok && GetChannel(StoreAfter(c, k, m), u, p, port, channel) == Found(end)
  {
    hide ProvableTo, GetConnection, GetChannel, Accepts, Write;
    var proof := ProofAt(c, k, u, p, height, ChannelClaim(port, channel, end));
    m := ChanOpenAck(u, p, end.order, end.hops, port, channel, end.counterparty.port, end.counterparty.channel, end.version, proof, height);
    StoredChannel(c, k, m, port, channel, end);
  }

  /** ... and once the upstream has opened it, whichever way it came, it can be opened here. */
  lemma ChannelConfirmEnabled(c: Config, k: State, u: string, p: string, port: string, channel: string, before: Channel,
                              peer: string, height: Height) returns (m: Msg)
    requires Complete(c.oracle) && before.stage == INIT && before.counterparty.channel == "" && before.hops != []
    requires GetChannel(k.store, u, p, port, channel) == Found(before)
    requires var hop := GetConnection(k.store, u, p, before.hops[0]); hop.Found? && hop.value.stage == OPEN
    requires ProvableTo(c.oracle, k, u, p, height,
                        ChannelClaim(port, channel, before.(stage := OPEN, counterparty := before.counterparty.(channel := peer))))
    ensures m.ChanOpenConfirm? && Handle(c, k, m).ok
    ensures GetChannel(StoreAfter(c, k, m), u, p, port, channel)
            == Found(before.(stage := OPEN, counterparty := before.counterparty.(channel := peer)))
  {
    hide ProvableTo, GetConnection, GetChannel, Accepts, Write;
    var end := before.(stage := OPEN, counterparty := before.counterparty.(channel := peer));
    var proof := ProofAt(c, k, u, p, height, ChannelClaim(port, channel, end));
    m := ChanOpenConfirm(u, p, port, channel, peer, proof, height);
    StoredChannel(c, k, m, port, channel, end);
  }

  lemma ChannelFinalizeEnabled(c: Config, k: State, u: string, p: string, port: string, channel: string, before: Channel,
                               height: Height) returns (m: Msg)
    requires Complete(c.oracle) && before.stage == TRYOPEN && before.hops != []
    requires GetChannel(k.store, u, p, port, channel) == Found(before)
    requires var hop := GetConnection(k.store, u, p, before.hops[0]); hop.Found? && hop.value.stage == OPEN
    requires ProvableTo(c.oracle, k, u, p, height, ChannelClaim(port, channel, before.(stage := OPEN)))
    ensures m.ChanOpenFinalize? && Handle(c, k, m).ok
    ensures GetChannel(StoreAfter(c, k, m), u, p, port, channel) == Found(before.(stage := OPEN))
  {
    hide ProvableTo, GetConnection, GetChannel, Accepts, Write;
    var end := before.(stage := OPEN);
    var proof := ProofAt(c, k, u, p, height, ChannelClaim(port, channel, end));
    m := ChanOpenFinalize(u, p, port, channel, proof, height);
    StoredChannel(c, k, m, port, channel, end);
  }

  /** A packet whose commitment the upstream holds, for the channel's counterparty, can be proxied. */
  lemma ReceiveEnabled(c: Config, k: State, u: string, p: string, packet: Packet, height: Height) returns (m: Msg)
    requires Complete(c.oracle) && HasHop(k.store, u, p, packet.sourcePort, packet.sourceChannel)
    requires GetChannel(k.store, u, p, packet.sourcePort, packet.sourceChannel).value.counterparty
             == ChannelCounterparty(packet.destPort, packet.destChannel)
    requires ProvableTo(c.oracle, k, u, p, height,
                        CommitmentClaim(packet.sourcePort, packet.sourceChannel, packet.sequence, c.commitPacket(packet)))
    ensures m.RecvPacket? && m.packet == packet && Handle(c, k, m).ok
    ensures var key := KeeperKey(p, u, CommitmentPath(packet.sourcePort, packet.sourceChannel, packet.sequence));
            key in StoreAfter(c, k, m) && StoreAfter(c, k, m)[key] == BytesV(c.commitPacket(packet))
  {
    hide ProvableTo, GetChannel, GetConnection, Accepts, KeeperKey;
    var claim := CommitmentClaim(packet.sourcePort, packet.sourceChannel, packet.sequence, c.commitPacket(packet));
    var proof := ProofAt(c, k, u, p, height, claim);
    m := RecvPacket(u, p, packet, proof, height);
    assert Handle(c, k, m) == Outcome([claim], true);
    WriteOne(c.oracle, k.store, u, p, claim);
  }

  // ---- what the handlers let through ----

  /** The comment in the packet handlers is not what they do: over a connection and a channel that are
      both still in INIT, any acknowledgement the upstream holds is taken. */
  lemma UnopenedAcknowledged(c: Config, k: State, u: string, p: string, packet: Packet, ack: bytes, height: Height)
    returns (m: Msg)
    requires Complete(c.oracle)
    requires HasHop(k.store, u, p, packet.destPort, packet.destChannel)
    requires var ch := GetChannel(k.store, u, p, packet.destPort, packet.destChannel).value;
             ch.stage == INIT && HopConnection(k.store, u, p, ch).value.stage == INIT
    requires ProvableTo(c.oracle, k, u, p, height, AckClaim(packet.destPort, packet.destChannel, packet.sequence, ack))
    ensures m.AcknowledgePacket? && m.packet == packet && m.ack == ack && Handle(c, k, m).ok
  {
    hide ProvableTo, GetChannel, GetConnection, Accepts;
    var proof := ProofAt(c, k, u, p, height, AckClaim(packet.destPort, packet.destChannel, packet.sequence, ack));
    m := AcknowledgePacket(u, p, packet, ack, proof, height);
  }

  /** A channel that is OPEN falls back to INIT, if a client still knows a root under which it was. */
  lemma OpenChannelFallsBack(c: Config, k: State, u: string, p: string, port: string, channel: string, before: Channel,
                             height: Height) returns (m: Msg)
    requires Complete(c.oracle)
    requires GetChannel(k.store, u, p, port, channel) == Found(before) && before.stage == OPEN && |before.hops| == 1
    requires var hop := GetConnection(k.store, u, p, before.hops[0]); hop.Found? && OrderSupported(before.order, hop.value)
    requires ProvableTo(c.oracle, k, u, p, height,
                        ChannelClaim(port, channel, before.(stage := INIT, counterparty := before.counterparty.(channel := ""))))
    ensures m.ChanOpenTry? && Handle(c, k, m).ok
    ensures GetChannel(StoreAfter(c, k, m), u, p, port, channel)
            == Found(before.(stage := INIT, counterparty := before.counterparty.(channel := "")))
  {
    hide ProvableTo, GetConnection, Accepts, OrderSupported, KeeperKey;
    var end := before.(stage := INIT, counterparty := before.counterparty.(channel := ""));
    var proof := ProofAt(c, k, u, p, height, ChannelClaim(port, channel, end));
    m := ChanOpenTry(u, p, before.order, before.hops, port, channel, before.counterparty.port, before.version, proof, height);
    assert Handle(c, k, m) == Outcome([ChannelClaim(port, channel, end)], true);
    WriteOne(c.oracle, k.store, u, p, ChannelClaim(port, channel, end));
  }

  // ---- two hops ----

  lemma {:induction false} TransparentEvidence(o: Oracle, cs: ClientState, cons: ConsensusState, prefix: Prefix, claim: Claim)
    returns (ev: Evidence)
    requires Transparent(cs, claim) && cons.PlainCons?
    requires var at := Locate(prefix, Render(PathOf(claim)));
             at in o.tree(cons.root) && o.tree(cons.root)[at] == ValueOf(o, claim)
    ensures Vouches(o, cs, cons, prefix, claim, ev)
    decreases cs
  {
    hide Render, Locate;
    if cs.Plain? {
      ev := InTree;
    } else {
      var e := TransparentEvidence(o, cs.underlying, cons, prefix, claim);
      ev := Inside(e);
    }
  }

  /** The converse of TwoHopSound: what the proxy store holds, a downstream Proxy client that knows a
      root of it can be shown, under the upstream's own prefix and path. */
  lemma TwoHopComplete(c: Config, store: Store, root: Root, dcs: ClientState, dstore: Store, height: Height,
                       u: string, p: string, claim: Claim) returns (ev: Evidence, cons: ConsensusState)
    requires Complete(c.oracle) && CommitsTo(c, store, root)
    requires KeeperKey(p, u, PathOf(claim)) in store && store[KeeperKey(p, u, PathOf(claim))] == ValueOf(c.oracle, claim)
    requires dcs.Proxy? && dcs.upstream == u && dcs.proxyPrefix == c.proxyName && Transparent(dcs.inner, claim)
    requires exists time :: ReadCons(dstore, height) == Some(ProxyCons(PlainCons(root, time)))
    requires HeightAtMost(height, Latest(dcs))
    ensures ReadCons(dstore, height) == Some(cons) && Vouches(c.oracle, dcs, cons, Merkle(p), claim, ev)
    ensures var proof := Prove(c.oracle, dcs, cons, Merkle(p), claim, height, ev);
            |proof| <= MAX_INT ==> Verify(c.oracle, dcs, dstore, height, Merkle(p), claim, proof)
  {
    hide KeeperKey, Render, ValueOf, Locate, NewPrefix, ReadCons, Latest, Verify, Prove, Transparent, Complete;
    cons := ReadCons(dstore, height).value;
    DownstreamLooksThere(c, u, p, PathOf(claim));
    var e := TransparentEvidence(c.oracle, dcs.inner, cons.inner, NewPrefix(c.proxyName, Merkle(p), u), claim);
    ev := Inside(e);
    assert Vouches(c.oracle, dcs, cons, Merkle(p), claim, ev);
    if |Prove(c.oracle, dcs, cons, Merkle(p), claim, height, ev)| <= MAX_INT {
      ProveAccepted(c.oracle, dcs, cons, dstore, Merkle(p), claim, height, ev);
    }
  }
}
