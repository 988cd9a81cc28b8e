/** The writes of a message, one at a time: what the code has checked when it makes each of them, and
    what each of them changes for a reader. */
module Writes {
  import opened Wire
  import opened Messages
  import opened Paths
  import opened Clients
  import opened Handlers

  /** The state once a message has made the writes `claims`. */
  function After(c: Config, k: State, m: Msg, claims: seq<Claim>): State {
    k.(store := Write(c.oracle, k.store, Upstream(m), UpstreamPrefix(m), claims))
  }

  // ---- what holds when a claim is written ----

  ghost predicate Verified(c: Config, k: State, u: string, p: string, claim: Claim) {
    exists height, proof :: Accepts(c, k, u, p, height, claim, proof)
  }

  /** What a Try or Ack of a connection establishes besides the connection itself. */
  ghost predicate LoopChecked(c: Config, k: State, h: Handshake) {
    && h.proxyClient.Proxy?
    && var u, id := h.proxyClient.upstream, h.connectionEnd.client;
    && ValidateSelfClient(c, k.now, h.proxyClient)
    && SelfConsensus(c, k.now, h.proxyConsensusHeight).Some?
    && Accepts(c, k, u, h.p, h.proofHeight, ClientClaim(id, h.downstreamClient), h.proofClient)
    && Accepts(c, k, u, h.p, h.proofHeight, ConsensusClaim(id, h.consensusHeight, h.downstreamCons), h.proofConsensus)
    && DownstreamTracksProxy(c, h, SelfConsensus(c, k.now, h.proxyConsensusHeight).value)
  }

  /** The message is about the connection with this id. */
  predicate NamesConnection(m: Msg, id: string) {
    match m
    case ConnOpenTry(h) => h.connection == id
    case ConnOpenAck(h) => h.connection == id
    case ConnOpenConfirm(_, _, connection, _, _, _) => connection == id
    case ConnOpenFinalize(_, _, connection, _, _) => connection == id
    case _ => false
  }

  /** The moves of a proxied connection, each by its own message about it. */
  predicate Moves(m: Msg, id: string, before: Lookup<ConnectionEnd>, after: Lookup<ConnectionEnd>) {
    && NamesConnection(m, id)
    && after.Found?
    && match m
       case ConnOpenTry(_) => before.Missing? && after.value.stage == INIT
       case ConnOpenAck(_) => before.Missing? && after.value.stage == TRYOPEN
       case ConnOpenConfirm(_, _, _, _, _, _) =>
         before.Found? && before.value.stage == INIT && Opened(before.value, after.value)
       case ConnOpenFinalize(_, _, _, _, _) =>
         before.Found? && before.value.stage == TRYOPEN && after.value == before.value.(stage := OPEN)
       case _ => false
  }

  /** The stage becomes OPEN; besides, only the counterparty's connection id may change. */
  predicate Opened(before: ConnectionEnd, after: ConnectionEnd) {
    after == before.(stage := OPEN, counterparty := before.counterparty.(connection := after.counterparty.connection))
  }

  ghost predicate MayConnect(c: Config, k: State, m: Msg, id: string, end: ConnectionEnd) {
    var before := GetConnection(k.store, Upstream(m), UpstreamPrefix(m), id);
    && Moves(m, id, before, Found(end))
    && (before.Missing? ==> m.h.connectionEnd == end && LoopChecked(c, k, m.h))
  }

  /** INIT becomes OPEN, and the counterparty's channel id becomes known. */
  predicate ConfirmsChannel(before: Channel, after: Channel) {
    && before.stage == INIT && before.counterparty.channel == ""
    && after == before.(stage := OPEN, counterparty := before.counterparty.(channel := after.counterparty.channel))
  }

  /** TRYOPEN becomes OPEN, and nothing else changes. */
  predicate FinalizesChannel(before: Channel, after: Channel) {
    before.stage == TRYOPEN && after == before.(stage := OPEN)
  }

  /** The message is about the channel at this port and with this id, as paths render them. */
  predicate NamesChannel(m: Msg, port: string, channel: string) {
    && (m.ChanOpenTry? || m.ChanOpenAck? || m.ChanOpenConfirm? || m.ChanOpenFinalize?)
    && ChannelEnd(m.port, m.channel) == ChannelEnd(port, channel)
  }

  /** The moves of a proxied channel, each by its own message about it. Try and Ack do not look at what
      is there. */
  predicate ChannelMoves(m: Msg, port: string, channel: string, before: Lookup<Channel>, after: Lookup<Channel>) {
    && NamesChannel(m, port, channel)
    && after.Found?
    && match m
       case ChanOpenTry(_, _, _, _, _, _, _, _, _, _) =>
         after.value.stage == INIT && after.value.counterparty.channel == ""
       case ChanOpenAck(_, _, _, _, _, _, _, _, _, _, _) => after.value.stage == TRYOPEN
       case ChanOpenConfirm(_, _, _, _, _, _, _) => before.Found? && ConfirmsChannel(before.value, after.value)
       case ChanOpenFinalize(_, _, _, _, _, _) => before.Found? && FinalizesChannel(before.value, after.value)
       case _ => false
  }

  predicate MayOpenChannel(k: State, m: Msg, port: string, channel: string, end: Channel) {
    var u, p := Upstream(m), UpstreamPrefix(m);
    && end.hops != []
    && GetConnection(k.store, u, p, end.hops[0]).Found?
    && ChannelMoves(m, port, channel, GetChannel(k.store, u, p, port, channel), Found(end))
    && var hop := GetConnection(k.store, u, p, end.hops[0]).value;
       if m.ChanOpenTry? then |end.hops| == 1 && OrderSupported(end.order, hop)
       else if m.ChanOpenAck? then |end.hops| == 1 && OrderSupported(end.order, hop) && hop.stage == OPEN
       else hop.stage == OPEN
  }

  predicate HasHop(store: Store, u: string, p: string, port: string, channel: string) {
    var ch := GetChannel(store, u, p, port, channel);
    ch.Found? && HopConnection(store, u, p, ch.value).Found?
  }

  ghost predicate Permits(c: Config, k: State, m: Msg, claim: Claim) {
    match claim
    case ClientClaim(_, _) => true
    case ConsensusClaim(_, _, _) => true
    case ConnectionClaim(id, end) => MayConnect(c, k, m, id, end)
    case ChannelClaim(port, channel, end) => MayOpenChannel(k, m, port, channel, end)
    case CommitmentClaim(port, channel, _, _) => HasHop(k.store, Upstream(m), UpstreamPrefix(m), port, channel)
    case AckClaim(port, channel, _, _) => HasHop(k.store, Upstream(m), UpstreamPrefix(m), port, channel)
  }

  ghost predicate Ready(c: Config, k: State, m: Msg, claim: Claim) {
    Verified(c, k, Upstream(m), UpstreamPrefix(m), claim) && Permits(c, k, m, claim)
  }

  ghost predicate StepByStep(c: Config, k: State, m: Msg, claims: seq<Claim>)
    decreases |claims|
  {
    claims == []
    || var n := |claims| - 1;
       StepByStep(c, k, m, claims[..n]) && Ready(c, After(c, k, m, claims[..n]), m, claims[n])
  }

  // ---- what a write changes for a reader ----

  lemma SameRender(p: string, u: string, x: Path, y: Path)
    requires KeeperKey(p, u, x) == KeeperKey(p, u, y)
    ensures Render(x) == Render(y)
  {
    hide KeeperKey, Render, DownstreamKey, ProxyKey;
    KeyAgreement(p, u, x);
    KeyAgreement(p, u, y);
    ProxyKeySuffix(p, u, Render(x));
    ProxyKeySuffix(p, u, Render(y));
  }

  lemma ProxyKeySuffix(p: string, u: string, key: string)
    ensures ProxyKey(p, u, key)[|u| + |p| + 2..] == key
  {
  }

  /** Keys of separate upstreams are the same only for one upstream and one path. */
  lemma KeysMeet(p: string, u: string, x: Path, p': string, u': string, y: Path)
    requires Separate(u, p, u', p') && KeeperKey(p, u, x) == KeeperKey(p', u', y)
    ensures u == u' && p == p' && Render(x) == Render(y)
  {
    hide KeeperKey, Render;
    SameRender(p, u, x, y);
  }

  /** Full keys are injective in upstream, prefix, kind, identifiers, sequence and height. */
  lemma KeeperKeyInjective(p: string, u: string, x: Path, p': string, u': string, y: Path)
    requires SlashFree(u) && SlashFree(p) && SlashFree(u') && SlashFree(p') && PortSlashFree(x) && PortSlashFree(y)
    ensures KeeperKey(p, u, x) == KeeperKey(p', u', y) <==> u == u' && p == p' && x == y
  {
    hide KeeperKey, Render, SlashFree;
    if KeeperKey(p, u, x) == KeeperKey(p', u', y) {
      SlashFreeSeparate(u, p, u', p');
      KeysMeet(p, u, x, p', u', y);
      RenderInjective(x, y);
    }
  }

  function Put(o: Oracle, store: Store, u: string, p: string, claim: Claim): Store {
    store[KeeperKey(p, u, PathOf(claim)) := ValueOf(o, claim)]
  }

  /** Isolation: a write about one upstream changes connections of no other, nor other connections. */
  lemma ConnectionAfter(o: Oracle, store: Store, u: string, p: string, claim: Claim, u': string, p': string, id: string)
    requires Separate(u, p, u', p')
    ensures GetConnection(Put(o, store, u, p, claim), u', p', id) ==
            if u == u' && p == p' && claim.ConnectionClaim? && claim.connection == id
            then Found(claim.connectionEnd) else GetConnection(store, u', p', id)
  {
    hide KeeperKey, Render, Apart;
    if KeeperKey(p, u, PathOf(claim)) == KeeperKey(p', u', ConnectionPath(id)) {
      KeysMeet(p, u, PathOf(claim), p', u', ConnectionPath(id));
      RenderKeeps(PathOf(claim), ConnectionPath(id));
    }
  }

  lemma ChannelAfter(o: Oracle, store: Store, u: string, p: string, claim: Claim, u': string, p': string, port: string, channel: string)
    requires Separate(u, p, u', p')
    ensures GetChannel(Put(o, store, u, p, claim), u', p', port, channel) ==
            if && u == u' && p == p' && claim.ChannelClaim?
               && ChannelEnd(claim.port, claim.channel) == ChannelEnd(port, channel)
            then Found(claim.channelEnd) else GetChannel(store, u', p', port, channel)
  {
    hide KeeperKey, Render, Apart, ChannelEnd;
    if KeeperKey(p, u, PathOf(claim)) == KeeperKey(p', u', ChannelPath(port, channel)) {
      KeysMeet(p, u, PathOf(claim), p', u', ChannelPath(port, channel));
      RenderKeeps(PathOf(claim), ChannelPath(port, channel));
    } else if claim.ChannelClaim? && ChannelEnd(claim.port, claim.channel) == ChannelEnd(port, channel) && u == u' && p == p' {
      SameChannelKey(p, u, claim.port, claim.channel, port, channel);
    }
  }

  lemma SameChannelKey(p: string, u: string, port: string, channel: string, port': string, channel': string)
    requires ChannelEnd(port, channel) == ChannelEnd(port', channel')
    ensures KeeperKey(p, u, ChannelPath(port, channel)) == KeeperKey(p, u, ChannelPath(port', channel'))
  {
    hide ChannelEnd;
  }

  /** Client and consensus entries are never where connections are, whatever the ids. */
  lemma ConnectionAfterClient(o: Oracle, store: Store, u: string, p: string, claim: Claim, id: string)
    requires AboutClient(claim)
    ensures GetConnection(Put(o, store, u, p, claim), u, p, id) == GetConnection(store, u, p, id)
  {
    hide KeeperKey, Render;
    if KeeperKey(p, u, PathOf(claim)) == KeeperKey(p, u, ConnectionPath(id)) {
      SameRender(p, u, PathOf(claim), ConnectionPath(id));
      RenderKeeps(PathOf(claim), ConnectionPath(id));
    }
  }

  // ---- every message writes step by step ----

  lemma OneStep(c: Config, k: State, m: Msg, claim: Claim)
    requires Ready(c, k, m, claim)
    ensures StepByStep(c, k, m, [claim])
  {
    hide Ready;
    assert [claim][..0] == [];
    assert After(c, k, m, []) == k;
  }

  lemma VerifiedAnywhere(c: Config, k: State, m: Msg, claims: seq<Claim>, height: Height, claim: Claim, proof: bytes)
    requires Accepts(c, k, Upstream(m), UpstreamPrefix(m), height, claim, proof)
    ensures Verified(c, After(c, k, m, claims), Upstream(m), UpstreamPrefix(m), claim)
  {
    hide Verify, Write, Upstream, UpstreamPrefix;
    assert Accepts(c, After(c, k, m, claims), Upstream(m), UpstreamPrefix(m), height, claim, proof);
  }

  lemma ClientStepByStep(c: Config, k: State, m: Msg, id: string, client: ClientState, cons: ConsensusState,
                         proofClient: bytes, proofConsensus: bytes, proofHeight: Height, consensusHeight: Height)
    ensures StepByStep(c, k, m, ClientAndConsensus(c, k, Upstream(m), UpstreamPrefix(m), id, client, cons,
                                                   proofClient, proofConsensus, proofHeight, consensusHeight).written)
  {
    hide Accepts, Write, Upstream, UpstreamPrefix, Verified;
    var u, p := Upstream(m), UpstreamPrefix(m);
    var x, y := ClientClaim(id, client), ConsensusClaim(id, consensusHeight, cons);
    if Accepts(c, k, u, p, proofHeight, x, proofClient) {
      VerifiedAnywhere(c, k, m, [], proofHeight, x, proofClient);
      assert StepByStep(c, k, m, []);
      assert [x][..0] == [];
      assert StepByStep(c, k, m, [x]);
      if Accepts(c, k, u, p, proofHeight, y, proofConsensus) {
        VerifiedAnywhere(c, k, m, [x], proofHeight, y, proofConsensus);
        assert [x, y][..1] == [x];
        assert StepByStep(c, k, m, [x, y]);
      }
    }
  }

  /** The connection itself comes last, after everything else was checked. */
  lemma OpenStepByStep(c: Config, k: State, m: Msg, h: Handshake, stage: Stage)
    requires (m == ConnOpenTry(h) && stage == INIT) || (m == ConnOpenAck(h) && stage == TRYOPEN)
    ensures StepByStep(c, k, m, OpenConnection(c, k, h, stage).written)
  {
    hide Accepts, Write, Verified, DownstreamTracksProxy, ValidateSelfClient, GetConnection, Ready;
    var out := OpenConnection(c, k, h, stage);
    if out.written != [] {
      var u, p, end := Upstream(m), UpstreamPrefix(m), h.connectionEnd;
      ClientStepByStep(c, k, m, end.client, h.downstreamClient, h.downstreamCons,
                       h.proofClient, h.proofConsensus, h.proofHeight, h.consensusHeight);
      var first := ClientAndConsensus(c, k, u, p, end.client, h.downstreamClient, h.downstreamCons,
                                      h.proofClient, h.proofConsensus, h.proofHeight, h.consensusHeight);
      assert first.written + [] == first.written;
      if |out.written| == 3 {
        var x, y, z := out.written[0], out.written[1], out.written[2];
        assert out.written == [x, y] + [z];
        assert out.written[..2] == [x, y];
        var between := After(c, k, m, [x, y]);
        assert Ready(c, between, m, z) by {
          VerifiedAnywhere(c, k, m, [x, y], h.proofHeight, z, h.proofConnection);
          ConnectionAfterTwo(c, k, m, x, y, h.connection);
          SameLoopCheck(c, k, between, h);
          ReadyToConnect(c, between, m, h.connection, end);
        }
      }
    }
  }

  lemma ConnectionAfterTwo(c: Config, k: State, m: Msg, x: Claim, y: Claim, id: string)
    requires AboutClient(x) && AboutClient(y)
    ensures GetConnection(After(c, k, m, [x, y]).store, Upstream(m), UpstreamPrefix(m), id)
            == GetConnection(k.store, Upstream(m), UpstreamPrefix(m), id)
  {
    hide GetConnection, KeeperKey, PathOf, ValueOf, Upstream, UpstreamPrefix;
    var u, p := Upstream(m), UpstreamPrefix(m);
    assert [x, y][..1] == [x] && [x][..0] == [];
    assert Write(c.oracle, k.store, u, p, [x]) == Put(c.oracle, k.store, u, p, x);
    ConnectionAfterClient(c.oracle, k.store, u, p, x, id);
    ConnectionAfterClient(c.oracle, Put(c.oracle, k.store, u, p, x), u, p, y, id);
  }

  lemma SameLoopCheck(c: Config, k: State, between: State, h: Handshake)
    requires between == k.(store := between.store) && LoopChecked(c, k, h)
    ensures LoopChecked(c, between, h)
  {
    hide Verify, DownstreamTracksProxy, ValidateSelfClient;
  }

  lemma ReadyToConnect(c: Config, k: State, m: Msg, id: string, end: ConnectionEnd)
    requires Verified(c, k, Upstream(m), UpstreamPrefix(m), ConnectionClaim(id, end))
    requires m.ConnOpenTry? || m.ConnOpenAck?
    requires end.stage == (if m.ConnOpenTry? then INIT else TRYOPEN)
    requires m.h.connection == id && m.h.connectionEnd == end && LoopChecked(c, k, m.h)
    requires GetConnection(k.store, Upstream(m), UpstreamPrefix(m), id).Missing?
    ensures Ready(c, k, m, ConnectionClaim(id, end))
  {
    hide GetConnection, LoopChecked, Verified, Upstream, UpstreamPrefix;
  }

  /** The other messages make one write at most. */
  lemma SingleStep(c: Config, k: State, m: Msg, height: Height, claim: Claim, proof: bytes)
    requires Accepts(c, k, Upstream(m), UpstreamPrefix(m), height, claim, proof) ==> Permits(c, k, m, claim)
    ensures StepByStep(c, k, m, VerifyAndProxy(c, k, Upstream(m), UpstreamPrefix(m), height, claim, proof).written)
  {
    hide Accepts, Permits, Verified, StepByStep, Write, Upstream, UpstreamPrefix;
    if Accepts(c, k, Upstream(m), UpstreamPrefix(m), height, claim, proof) {
      VerifiedAnywhere(c, k, m, [], height, claim, proof);
      assert After(c, k, m, []) == k by { NoWrites(c, k, m); }
      OneStep(c, k, m, claim);
    } else {
      NoSteps(c, k, m);
    }
  }

  lemma NoWrites(c: Config, k: State, m: Msg)
    ensures After(c, k, m, []) == k
  {
  }

  lemma NoSteps(c: Config, k: State, m: Msg)
    ensures StepByStep(c, k, m, [])
  {
  }

  lemma ChannelStepByStep(c: Config, k: State, m: Msg)
    requires m.ChanOpenTry? || m.ChanOpenAck? || m.ChanOpenConfirm? || m.ChanOpenFinalize?
    ensures StepByStep(c, k, m, Handle(c, k, m).written)
  {
    hide StepByStep, Accepts, GetConnection, GetChannel, OrderSupported, VerifyAndProxy;
    NoSteps(c, k, m);
    match m {
      case ChanOpenTry(u, p, order, hops, port, channel, downstreamPort, version, proof, height) =>
        var end := Channel(INIT, order, ChannelCounterparty(downstreamPort, ""), hops, version);
        if TryChannel(c, k, m) != FAILED { SingleStep(c, k, m, height, ChannelClaim(port, channel, end), proof); }
      case ChanOpenAck(u, p, order, hops, port, channel, downstreamPort, downstreamChannel, version, proof, height) =>
        var end := Channel(TRYOPEN, order, ChannelCounterparty(downstreamPort, downstreamChannel), hops, version);
        if AckChannel(c, k, m) != FAILED { SingleStep(c, k, m, height, ChannelClaim(port, channel, end), proof); }
      case ChanOpenConfirm(u, p, port, channel, downstreamChannel, proof, height) =>
        if ConfirmChannel(c, k, m) != FAILED {
          var ch := GetChannel(k.store, u, p, port, channel).value;
          var end := ch.(stage := OPEN, counterparty := ch.counterparty.(channel := downstreamChannel));
          SingleStep(c, k, m, height, ChannelClaim(port, channel, end), proof);
        }
      case ChanOpenFinalize(u, p, port, channel, proof, height) =>
        if FinalizeChannel(c, k, m) != FAILED {
          var ch := GetChannel(k.store, u, p, port, channel).value;
          SingleStep(c, k, m, height, ChannelClaim(port, channel, ch.(stage := OPEN)), proof);
        }
    }
  }

  lemma PacketStepByStep(c: Config, k: State, m: Msg)
    requires m.RecvPacket? || m.AcknowledgePacket?
    ensures StepByStep(c, k, m, Handle(c, k, m).written)
  {
    hide StepByStep, Accepts, GetConnection, GetChannel, VerifyAndProxy;
    NoSteps(c, k, m);
    match m {
      case RecvPacket(u, p, pk, proof, height) =>
        if Receive(c, k, m) != FAILED {
          SingleStep(c, k, m, height, CommitmentClaim(pk.sourcePort, pk.sourceChannel, pk.sequence, c.commitPacket(pk)), proof);
        }
      case AcknowledgePacket(u, p, pk, ack, proof, height) =>
        if Acknowledge(c, k, m) != FAILED {
          SingleStep(c, k, m, height, AckClaim(pk.destPort, pk.destChannel, pk.sequence, ack), proof);
        }
    }
  }

  /** Every message, whether it succeeds or fails halfway, makes verified writes only, each of them
      permitted by the store it finds. */
  lemma HandleStepByStep(c: Config, k: State, m: Msg)
    ensures StepByStep(c, k, m, Handle(c, k, m).written)
  {
    hide StepByStep, Accepts, GetConnection, GetChannel, OrderSupported, OpenConnection, ClientAndConsensus, VerifyAndProxy;
    NoSteps(c, k, m);
    match m {
      case ProxyClientState(_, _, id, client, cons, proofClient, proofConsensus, proofHeight, consensusHeight) =>
        ClientStepByStep(c, k, m, id, client, cons, proofClient, proofConsensus, proofHeight, consensusHeight);
      case ConnOpenTry(h) => OpenStepByStep(c, k, m, h, INIT);
      case ConnOpenAck(h) => OpenStepByStep(c, k, m, h, TRYOPEN);
      case ConnOpenConfirm(u, p, id, counterparty, proof, height) =>
        if GetConnection(k.store, u, p, id).Found? && GetConnection(k.store, u, p, id).value.stage == INIT {
          var end := GetConnection(k.store, u, p, id).value;
          var full := end.(stage := OPEN, counterparty := end.counterparty.(connection := counterparty));
          SingleStep(c, k, m, height, ConnectionClaim(id, full), proof);
        }
      case ConnOpenFinalize(u, p, id, proof, height) =>
        if GetConnection(k.store, u, p, id).Found? && GetConnection(k.store, u, p, id).value.stage == TRYOPEN {
          var end := GetConnection(k.store, u, p, id).value;
          SingleStep(c, k, m, height, ConnectionClaim(id, end.(stage := OPEN)), proof);
        }
      case RecvPacket(_, _, _, _, _) => PacketStepByStep(c, k, m);
      case AcknowledgePacket(_, _, _, _, _, _) => PacketStepByStep(c, k, m);
      case _ => ChannelStepByStep(c, k, m);
    }
  }
}
