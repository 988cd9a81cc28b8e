/** A run in full: an upstream, a downstream and a proxy with sound light clients, the messages that
    open a connection and a channel between them, and what the handlers let through on the way. */
module Scenario {
  import opened Options
  import opened Wire
  import opened Messages
  import opened Paths
  import opened Clients
  import opened Handlers
  import opened Keepers
  import opened Writes
  import opened Worlds

  // ---- the chains ----

  const UP := "up"
  const IBC := "ibc"
  const PROXY := "proxy"
  const DOWN := "down"
  const ON_DOWN := "on"
  const CONNECTION := "c"
  const PORT := "port"
  const CHANNEL := "a"
  const PEER := "b"

  const DOWNSTREAM := Plain("downstream", HeightOf(0))
  const SELF := Plain("self", HeightOf(0))
  const SELF_CONS := PlainCons(4, 0)
  const ABOUT_SELF := Proxy(SELF, UP, PROXY, IBC)

  function HeightOf(n: uint64): Height {
    Height(0, n)
  }

  function End(stage: Stage): ConnectionEnd {
    ConnectionEnd(DOWN, [Version("1", [OrderName(UNORDERED)])], stage, ConnectionCounterparty(ON_DOWN, "", IBC), 0)
  }

  function Chan(stage: Stage): Channel {
    Channel(stage, UNORDERED, ChannelCounterparty(PORT, if stage == INIT then "" else PEER), [CONNECTION], "")
  }

  /** What the tree behind a root holds: 0, 1 and 2 are the upstream's, 3 is the downstream's. */
  function Held(r: Root): seq<Claim> {
    if r == 0 then [ConnectionClaim(CONNECTION, End(INIT)), ChannelClaim(PORT, CHANNEL, Chan(INIT)),
                    CommitmentClaim(PORT, CHANNEL, 1, [7]), AckClaim(PORT, CHANNEL, 1, [8]),
                    ClientClaim(DOWN, DOWNSTREAM), ConsensusClaim(DOWN, HeightOf(0), PlainCons(3, 0))]
    else if r == 1 then [ConnectionClaim(CONNECTION, End(OPEN)), ChannelClaim(PORT, CHANNEL, Chan(TRYOPEN)),
                         CommitmentClaim(PORT, CHANNEL, 1, [7]), AckClaim(PORT, CHANNEL, 1, [8])]
    else if r == 2 then [ConnectionClaim(CONNECTION, End(OPEN)), ChannelClaim(PORT, CHANNEL, Chan(OPEN))]
    else if r == 3 then [ClientClaim(ON_DOWN, ABOUT_SELF), ConsensusClaim(ON_DOWN, HeightOf(0), ProxyCons(SELF_CONS))]
    else []
  }

  function CommitmentOf(ack: bytes): bytes {
    [1] + ack
  }

  function Stored(claim: Claim): Value {
    match claim
    case ClientClaim(_, state) => ClientV(state)
    case ConsensusClaim(_, _, cons) => ConsensusV(cons)
    case ConnectionClaim(_, end) => ConnectionV(end)
    case ChannelClaim(_, _, end) => ChannelV(end)
    case CommitmentClaim(_, _, _, commitment) => BytesV(commitment)
    case AckClaim(_, _, _, ack) => BytesV(CommitmentOf(ack))
  }

  function Tree(claims: seq<Claim>): map<Location, Value> {
    if claims == [] then map[] else
    Tree(claims[1..])[Location(IBC, Render(PathOf(claims[0]))) := Stored(claims[0])]
  }

  /** A proof is accepted exactly if the value is there. */
  function TheOracle(): Oracle {
    Oracle((r: Root, at: Location, pf: bytes, v: Value) => at in Tree(Held(r)) && Tree(Held(r))[at] == v,
           (r: Root) => Tree(Held(r)), (r: Root, at: Location) => [], CommitmentOf,
           (c: ClientState) => ZERO_ANY, (a: Any) => None, (k: ConsensusState) => ZERO_ANY, (a: Any) => None)
  }

  function TheConfig(): Config {
    Config(TheOracle(), PROXY, IBC, (now: nat, cs: ClientState) => cs == SELF, (now: nat, h: Height) => Some(SELF_CONS),
           (pk: Packet) => [7])
  }

  function Roots(): Store {
    map[ConsensusStateKey(HeightOf(0)) := ConsensusV(PlainCons(0, 0)),
        ConsensusStateKey(HeightOf(1)) := ConsensusV(PlainCons(1, 0)),
        ConsensusStateKey(HeightOf(2)) := ConsensusV(PlainCons(2, 0))]
  }

  function Beginning(): World {
    var k := State(0, map[], map[UP := Plain("upstream", HeightOf(2))], map[UP := Roots()]);
    World(k, map[UP := [0, 1, 2]], Now(k))
  }

  // ---- its light clients ----

  lemma OracleIsSound()
    ensures Sound(TheOracle())
  {
    hide Tree, Held;
  }

  lemma BeginningStarts()
    ensures Start(Beginning())
  {
    hide ConsensusStateKey;
  }

  lemma RootAt(n: uint64)
    requires n <= 2
    ensures ReadCons(Roots(), HeightOf(n)) == Some(PlainCons(n, 0))
  {
    hide HeightString;
    DifferentKeys(0, 1);
    DifferentKeys(0, 2);
    DifferentKeys(1, 2);
  }

  lemma DifferentKeys(m: uint64, n: uint64)
    requires m != n
    ensures ConsensusStateKey(HeightOf(m)) != ConsensusStateKey(HeightOf(n))
  {
    hide HeightString;
    var x, y := HeightString(HeightOf(m)), HeightString(HeightOf(n));
    if ConsensusStateKey(HeightOf(m)) == ConsensusStateKey(HeightOf(n)) {
      assert ("consensusStates/" + x)[16..] == x && ("consensusStates/" + y)[16..] == y;
      HeightStringInjective(HeightOf(m), HeightOf(n));
      assert false;
    }
  }

  function Sort(claim: Claim): nat {
    match claim
    case ClientClaim(_, _) => 0
    case ConsensusClaim(_, _, _) => 1
    case ConnectionClaim(_, _) => 2
    case ChannelClaim(_, _, _) => 3
    case CommitmentClaim(_, _, _, _) => 4
    case AckClaim(_, _, _, _) => 5
  }

  lemma {:induction false} TreeHolds(claims: seq<Claim>, i: nat)
    requires i < |claims| && forall x, y :: 0 <= x < y < |claims| ==> Sort(claims[x]) != Sort(claims[y])
    ensures var at := Location(IBC, Render(PathOf(claims[i])));
            at in Tree(claims) && Tree(claims)[at] == Stored(claims[i])
    decreases |claims|
  {
    hide Render, Stored;
    if i > 0 {
      TreeHolds(claims[1..], i - 1);
      assert Sort(claims[0]) != Sort(claims[i]);
      if Render(PathOf(claims[0])) == Render(PathOf(claims[i])) { RenderKeeps(PathOf(claims[0]), PathOf(claims[i])); }
    }
  }

  /** What the upstream holds at a height the client accepts there, with any proof. */
  lemma HeldAccepted(k: State, n: uint64, i: nat)
    requires n <= 2 && i < |Held(n)| && k == Beginning().k.(store := k.store)
    ensures Accepts(TheConfig(), k, UP, IBC, HeightOf(n), Held(n)[i], [])
  {
    hide Tree, Render, ConsensusStateKey, Roots, ReadCons;
    RootAt(n);
    TreeHolds(Held(n), i);
  }

  lemma DownstreamTracks(i: nat)
    requires i < 2
    ensures Verify(TheOracle(), DOWNSTREAM, MemStore(PlainCons(3, 0), HeightOf(0)), HeightOf(0), Merkle(IBC), Held(3)[i], [])
  {
    hide Tree, Render, ConsensusStateKey, MemStore, ReadCons;
    MemStoreRead(PlainCons(3, 0), HeightOf(0));
    TreeHolds(Held(3), i);
  }

  // ---- the messages ----

  const TRY := ConnOpenTry(Handshake(
    CONNECTION, IBC, End(INIT), DOWNSTREAM, PlainCons(3, 0), ABOUT_SELF,
    [], [], [], HeightOf(0), HeightOf(0), [], [], HeightOf(0), HeightOf(0)))
  const CONFIRM := ConnOpenConfirm(UP, IBC, CONNECTION, "", [], HeightOf(1))
  const CHANNEL_TRY := ChanOpenTry(UP, IBC, UNORDERED, [CONNECTION], PORT, CHANNEL, PORT, "", [], HeightOf(0))
  const CHANNEL_ACK := ChanOpenAck(UP, IBC, UNORDERED, [CONNECTION], PORT, CHANNEL, PORT, PEER, "", [], HeightOf(1))
  const CHANNEL_FINALIZE := ChanOpenFinalize(UP, IBC, PORT, CHANNEL, [], HeightOf(2))

  function PacketMsg(peer: string, n: uint64): Msg {
    RecvPacket(UP, IBC, Packet(1, PORT, CHANNEL, PORT, peer, [], ZERO_HEIGHT, 0), [], HeightOf(n))
  }

  function AckMsg(n: uint64): Msg {
    AcknowledgePacket(UP, IBC, Packet(1, PORT, PEER, PORT, CHANNEL, [], ZERO_HEIGHT, 0), [8], [], HeightOf(n))
  }

  /** The clients are as in the beginning; the connection and the channel have got this far. */
  predicate Reached(k: State, connection: Stage, channel: Option<Stage>) {
    && k == Beginning().k.(store := k.store)
    && GetConnection(k.store, UP, IBC, CONNECTION) == Found(End(connection))
    && GetChannel(k.store, UP, IBC, PORT, CHANNEL) ==
       match channel case None => Missing case Some(stage) => Found(Chan(stage))
  }

  // ---- the steps ----

  lemma OneWritten(k: State, m: Msg, claim: Claim)
    requires Upstream(m) == UP && UpstreamPrefix(m) == IBC && Handle(TheConfig(), k, m).written == [claim]
    ensures After(TheConfig(), k, m, Handle(TheConfig(), k, m).written)
            == k.(store := Put(TheOracle(), k.store, UP, IBC, claim))
  {
    hide Handle, KeeperKey, ValueOf, PathOf, Upstream, UpstreamPrefix, Write;
    assert TheConfig().oracle == TheOracle();
    WriteOne(TheOracle(), k.store, UP, IBC, claim);
  }

  lemma PutReached(k: State, connection: Stage, channel: Option<Stage>, claim: Claim)
    requires Reached(k, connection, channel)
    ensures var k' := k.(store := Put(TheOracle(), k.store, UP, IBC, claim));
            match claim
            case ConnectionClaim(id, end) => id == CONNECTION && end == End(end.stage) ==> Reached(k', end.stage, channel)
            case ChannelClaim(port, id, end) =>
              port == PORT && id == CHANNEL && end == Chan(end.stage) ==> Reached(k', connection, Some(end.stage))
            case _ => Reached(k', connection, channel)
  {
    hide GetConnection, GetChannel, Put, End, Chan, TheOracle, Beginning, ChannelEnd;
    ConnectionAfter(TheOracle(), k.store, UP, IBC, claim, UP, IBC, CONNECTION);
    ChannelAfter(TheOracle(), k.store, UP, IBC, claim, UP, IBC, PORT, CHANNEL);
  }

  function Following(k: State, m: Msg): State {
    After(TheConfig(), k, m, Handle(TheConfig(), k, m).written)
  }

  lemma FirstTry()
    ensures Handle(TheConfig(), Beginning().k, TRY).ok && Reached(Following(Beginning().k, TRY), INIT, None)
  {
    hide Verify, KeeperKey, TheOracle, Write, Roots;
    var k, o := Beginning().k, TheOracle();
    assert TheConfig().oracle == o;
    HeldAccepted(k, 0, 4);
    HeldAccepted(k, 0, 5);
    HeldAccepted(k, 0, 0);
    DownstreamTracks(0);
    DownstreamTracks(1);
    var x, y, z := Held(0)[4], Held(0)[5], Held(0)[0];
    assert Handle(TheConfig(), k, TRY) == Outcome([x, y, z], true);
    ThreeWritten(o, k.store, UP, IBC, x, y, z);
    ConnectionAfter(o, Put(o, Put(o, k.store, UP, IBC, x), UP, IBC, y), UP, IBC, z, UP, IBC, CONNECTION);
    ChannelAfter(o, k.store, UP, IBC, x, UP, IBC, PORT, CHANNEL);
    ChannelAfter(o, Put(o, k.store, UP, IBC, x), UP, IBC, y, UP, IBC, PORT, CHANNEL);
    ChannelAfter(o, Put(o, Put(o, k.store, UP, IBC, x), UP, IBC, y), UP, IBC, z, UP, IBC, PORT, CHANNEL);
  }

  lemma ThreeWritten(o: Oracle, store: Store, u: string, p: string, x: Claim, y: Claim, z: Claim)
    ensures Write(o, store, u, p, [x, y, z]) == Put(o, Put(o, Put(o, store, u, p, x), u, p, y), u, p, z)
  {
    hide Write, Put;
    var one := Put(o, store, u, p, x);
    var two := Put(o, one, u, p, y);
    OnePut(o, store, u, p, x);
    OnePut(o, one, u, p, y);
    OnePut(o, two, u, p, z);
    assert [x] + [y] == [x, y] && [x, y] + [z] == [x, y, z];
    WriteInTurn(o, store, u, p, [x], [y]);
    WriteInTurn(o, store, u, p, [x, y], [z]);
  }

  lemma OnePut(o: Oracle, store: Store, u: string, p: string, claim: Claim)
    ensures Write(o, store, u, p, [claim]) == Put(o, store, u, p, claim)
  {
    hide KeeperKey, ValueOf, PathOf;
    WriteOne(o, store, u, p, claim);
  }

  lemma ChannelTried(k: State, connection: Stage, channel: Option<Stage>)
    requires Reached(k, connection, channel)
    ensures Handle(TheConfig(), k, CHANNEL_TRY).ok && Reached(Following(k, CHANNEL_TRY), connection, Some(INIT))
  {
    hide Verify, GetConnection, GetChannel, TheOracle, Roots, Write, Put;
    HeldAccepted(k, 0, 1);
    OneWritten(k, CHANNEL_TRY, ChannelClaim(PORT, CHANNEL, Chan(INIT)));
    PutReached(k, connection, channel, ChannelClaim(PORT, CHANNEL, Chan(INIT)));
  }

  lemma Confirmed(k: State, channel: Option<Stage>)
    requires Reached(k, INIT, channel)
    ensures Handle(TheConfig(), k, CONFIRM).ok && Reached(Following(k, CONFIRM), OPEN, channel)
  {
    hide Verify, GetConnection, GetChannel, TheOracle, Roots, Write, Put;
    HeldAccepted(k, 1, 0);
    OneWritten(k, CONFIRM, ConnectionClaim(CONNECTION, End(OPEN)));
    PutReached(k, INIT, channel, ConnectionClaim(CONNECTION, End(OPEN)));
  }

  lemma ChannelAcked(k: State, channel: Option<Stage>)
    requires Reached(k, OPEN, channel)
    ensures Handle(TheConfig(), k, CHANNEL_ACK).ok && Reached(Following(k, CHANNEL_ACK), OPEN, Some(TRYOPEN))
  {
    hide Verify, GetConnection, GetChannel, TheOracle, Roots, Write, Put;
    HeldAccepted(k, 1, 1);
    OneWritten(k, CHANNEL_ACK, ChannelClaim(PORT, CHANNEL, Chan(TRYOPEN)));
    PutReached(k, OPEN, channel, ChannelClaim(PORT, CHANNEL, Chan(TRYOPEN)));
  }

  lemma Finalized(k: State)
    requires Reached(k, OPEN, Some(TRYOPEN))
    ensures Handle(TheConfig(), k, CHANNEL_FINALIZE).ok && Reached(Following(k, CHANNEL_FINALIZE), OPEN, Some(OPEN))
  {
    hide Verify, GetConnection, GetChannel, TheOracle, Roots, Write, Put;
    HeldAccepted(k, 2, 1);
    OneWritten(k, CHANNEL_FINALIZE, ChannelClaim(PORT, CHANNEL, Chan(OPEN)));
    PutReached(k, OPEN, Some(TRYOPEN), ChannelClaim(PORT, CHANNEL, Chan(OPEN)));
  }

  /** Packets are taken at whatever stages. */
  lemma PacketsTaken(k: State, connection: Stage, channel: Stage, n: uint64)
    requires Reached(k, connection, Some(channel)) && n <= 1
    ensures Handle(TheConfig(), k, PacketMsg(Chan(channel).counterparty.channel, n)).ok
    ensures Handle(TheConfig(), k, AckMsg(n)).ok
  {
    hide Verify, GetConnection, GetChannel, TheOracle, Roots;
    HeldAccepted(k, n, 2);
    HeldAccepted(k, n, 3);
  }

  // ---- the run ----

  function Next(w: World, m: Msg): World {
    w.(k := Following(w.k, m))
  }

  const MESSAGES := [TRY, CHANNEL_TRY, CONFIRM, CHANNEL_ACK, CHANNEL_FINALIZE]

  function Deliveries(ms: seq<Msg>): seq<Action> {
    seq(|ms|, i requires 0 <= i < |ms| => Deliver(ms[i], true))
  }

  function Visited(w: World, ms: seq<Msg>): (ws: seq<World>)
    ensures |ws| == |ms| + 1 && ws[0] == w
    decreases |ms|
  {
    if ms == [] then [w] else [w] + Visited(Next(w, ms[0]), ms[1..])
  }

  lemma {:induction false} DeliveriesRun(w: World, ms: seq<Msg>, i: nat)
    requires i < |ms|
    ensures Visited(w, ms)[i + 1] == Next(Visited(w, ms)[i], ms[i])
    decreases |ms|
  {
    hide Next;
    if i > 0 { DeliveriesRun(Next(w, ms[0]), ms[1..], i - 1); }
  }

  function TheRun(): seq<World> {
    Visited(Beginning(), MESSAGES)
  }

  lemma TheRunRuns()
    ensures Run(TheConfig(), TheRun(), Deliveries(MESSAGES))
    ensures Alone(TheConfig(), TheRun(), Deliveries(MESSAGES), UP, IBC)
  {
    hide Handle, Following, Beginning, Start, TheConfig, Visited;
    BeginningStarts();
    forall i | 0 <= i < |MESSAGES|
      ensures Step(TheConfig(), TheRun()[i], Deliveries(MESSAGES)[i], TheRun()[i + 1])
      ensures StepAlone(TheConfig(), TheRun()[i], Deliveries(MESSAGES)[i], UP, IBC)
    {
      DeliveriesRun(Beginning(), MESSAGES, i);
      StepOfNext(TheRun()[i], MESSAGES[i]);
    }
  }

  lemma StepOfNext(w: World, m: Msg)
    requires Upstream(m) == UP && UpstreamPrefix(m) == IBC
    ensures Step(TheConfig(), w, Deliver(m, true), Next(w, m)) && StepAlone(TheConfig(), w, Deliver(m, true), UP, IBC)
  {
    hide Handle, TheConfig, Write, Apart;
  }

  lemma Stages()
    ensures Reached(TheRun()[2].k, INIT, Some(INIT))
    ensures Reached(TheRun()[4].k, OPEN, Some(TRYOPEN))
    ensures Reached(TheRun()[5].k, OPEN, Some(OPEN))
  {
    hide Handle, Following, Beginning, Reached, TheConfig, Visited;
    var ws := TheRun();
    forall i | 0 <= i < 5
      ensures ws[i + 1] == Next(ws[i], MESSAGES[i])
    {
      DeliveriesRun(Beginning(), MESSAGES, i);
    }
    FirstTry();
    ChannelTried(ws[1].k, INIT, None);
    Confirmed(ws[2].k, Some(INIT));
    ChannelAcked(ws[3].k, Some(INIT));
    Finalized(ws[4].k);
  }

  // ---- what it shows ----

  predicate TakenNotOpen(c: Config, k: State, m: Msg, connection: Stage, channel: Stage) {
    && Handle(c, k, m).ok
    && GetConnection(k.store, UP, IBC, CONNECTION) == Found(End(connection))
    && GetChannel(k.store, UP, IBC, PORT, CHANNEL) == Found(Chan(channel))
  }

  /** In a run with sound light clients, both packet handlers succeed while connection and channel are in
      INIT, and again while the connection is OPEN and the channel in TRYOPEN. */
  lemma PacketsOverUnopened() returns (c: Config, ws: seq<World>, acts: seq<Action>, packet: Msg, ack: Msg, packet': Msg, ack': Msg)
    ensures Sound(c.oracle) && Run(c, ws, acts) && Alone(c, ws, acts, UP, IBC) && |ws| == 6
    ensures packet.RecvPacket? && packet'.RecvPacket? && ack.AcknowledgePacket? && ack'.AcknowledgePacket?
    ensures TakenNotOpen(c, ws[2].k, packet, INIT, INIT) && TakenNotOpen(c, ws[2].k, ack, INIT, INIT)
    ensures TakenNotOpen(c, ws[4].k, packet', OPEN, TRYOPEN) && TakenNotOpen(c, ws[4].k, ack', OPEN, TRYOPEN)
  {
    hide Handle, Beginning, TheConfig, Visited, GetConnection, GetChannel;
    c, ws, acts := TheConfig(), TheRun(), Deliveries(MESSAGES);
    packet, ack, packet', ack' := PacketMsg("", 0), AckMsg(0), PacketMsg(PEER, 1), AckMsg(1);
    OracleIsSound();
    assert c.oracle == TheOracle() by { ItsOracle(); }
    TheRunRuns();
    Stages();
    PacketsTaken(ws[2].k, INIT, INIT, 0);
    PacketsTaken(ws[4].k, OPEN, TRYOPEN, 1);
  }

  lemma ItsOracle()
    ensures TheConfig().oracle == TheOracle()
  {
  }

  /** In a run with sound light clients, an OPEN channel goes back to INIT by Try and to TRYOPEN by Ack. */
  lemma OpenChannelGoesBack() returns (c: Config, ws: seq<World>, acts: seq<Action>, again: Msg, ack: Msg)
    ensures Sound(c.oracle) && Run(c, ws, acts) && Alone(c, ws, acts, UP, IBC) && |ws| == 6
    ensures GetChannel(ws[5].k.store, UP, IBC, PORT, CHANNEL) == Found(Chan(OPEN))
    ensures again.ChanOpenTry? && Handle(c, ws[5].k, again).ok
    ensures GetChannel(StoreAfter(c, ws[5].k, again), UP, IBC, PORT, CHANNEL) == Found(Chan(INIT))
    ensures ack.ChanOpenAck? && Handle(c, ws[5].k, ack).ok
    ensures GetChannel(StoreAfter(c, ws[5].k, ack), UP, IBC, PORT, CHANNEL) == Found(Chan(TRYOPEN))
  {
    hide Handle, Beginning, TheConfig, Visited, GetConnection, GetChannel, Write;
    c, ws, acts, again, ack := TheConfig(), TheRun(), Deliveries(MESSAGES), CHANNEL_TRY, CHANNEL_ACK;
    OracleIsSound();
    assert c.oracle == TheOracle() by { ItsOracle(); }
    TheRunRuns();
    Stages();
    ChannelTried(ws[5].k, OPEN, Some(OPEN));
    ChannelAcked(ws[5].k, Some(OPEN));
  }
}
