/** The invariants over every run, and the life of a connection across a run. */
module Invariants {
  import opened Wire
  import opened Paths
  import opened Clients
  import opened Soundness
  import opened Handlers
  import opened Writes
  import opened Worlds

  ghost predicate Good(c: Config, store: Store, past: Past, s: Scope) {
    && Faithful(c.oracle, store, past, s)
    && (s.Only? ==> UpstreamOk(c, store, past, s.u, s.p))
  }

  // ---- messages ----

  lemma {:induction false} WritesKeepGood(c: Config, k: State, past: Past, s: Scope, m: Msg, claims: seq<Claim>)
    requires Sound(c.oracle) && Within(Now(k), past) && Good(c, k.store, past, s)
    requires claims != [] ==> Fits(s, Upstream(m), UpstreamPrefix(m))
    requires StepByStep(c, k, m, claims)
    ensures Good(c, After(c, k, m, claims).store, past, s)
    decreases |claims|
  {
    hide UpstreamOk, Faithful, Permits, Separate, TrackedNow, Upstream, UpstreamPrefix, Verify, KeeperKey, PathOf, ValueOf;
    if claims != [] {
      var n := |claims| - 1;
      var between, claim := After(c, k, m, claims[..n]), claims[n];
      WritesKeepGood(c, k, past, s, m, claims[..n]);
      SameTracked(k, between);
      FaithfulAfter(c, between, past, s, Upstream(m), UpstreamPrefix(m), claim);
      if s.Only? { UpstreamOkAfter(c, between, past, m, claim, s.u, s.p); }
    }
  }

  lemma SameTracked(k: State, between: State)
    requires between == k.(store := between.store)
    ensures Now(k) == Now(between)
  {
  }

  lemma {:induction false} WritesMoveConnection(c: Config, k: State, m: Msg, claims: seq<Claim>, u: string, p: string, id: string)
    requires claims != [] ==> Separate(Upstream(m), UpstreamPrefix(m), u, p)
    requires StepByStep(c, k, m, claims)
    ensures var x, y := GetConnection(k.store, u, p, id), GetConnection(After(c, k, m, claims).store, u, p, id);
            x == y || (Upstream(m) == u && UpstreamPrefix(m) == p && Moves(m, id, x, y))
    decreases |claims|
  {
    hide Permits, GetConnection, Separate, Upstream, UpstreamPrefix, Verify, KeeperKey, PathOf, ValueOf, NamesConnection;
    if claims != [] {
      var n := |claims| - 1;
      var between, claim := After(c, k, m, claims[..n]), claims[n];
      WritesMoveConnection(c, k, m, claims[..n], u, p, id);
      assert After(c, k, m, claims).store == Put(c.oracle, between.store, Upstream(m), UpstreamPrefix(m), claim);
      ConnectionAfter(c.oracle, between.store, Upstream(m), UpstreamPrefix(m), claim, u, p, id);
      OneMove(c, between, m, claim, id);
    }
  }

  lemma OneMove(c: Config, k: State, m: Msg, claim: Claim, id: string)
    requires Permits(c, k, m, claim)
    ensures claim.ConnectionClaim? && claim.connection == id ==>
              Moves(m, id, GetConnection(k.store, Upstream(m), UpstreamPrefix(m), id), Found(claim.connectionEnd))
  {
    hide GetConnection, LoopChecked, Upstream, UpstreamPrefix, Moves;
  }

  lemma {:induction false} WritesMoveChannel(c: Config, k: State, m: Msg, claims: seq<Claim>, u: string, p: string,
                                             port: string, channel: string)
    requires claims != [] ==> Separate(Upstream(m), UpstreamPrefix(m), u, p)
    requires StepByStep(c, k, m, claims)
    ensures var x, y := GetChannel(k.store, u, p, port, channel),
                        GetChannel(After(c, k, m, claims).store, u, p, port, channel);
            x == y || (Upstream(m) == u && UpstreamPrefix(m) == p && ChannelMoves(m, port, channel, x, y))
    decreases |claims|
  {
    hide Permits, GetChannel, Separate, Upstream, UpstreamPrefix, Verify, KeeperKey, PathOf, ValueOf, ChannelEnd, NamesChannel;
    if claims != [] {
      var n := |claims| - 1;
      var between, claim := After(c, k, m, claims[..n]), claims[n];
      WritesMoveChannel(c, k, m, claims[..n], u, p, port, channel);
      assert After(c, k, m, claims).store == Put(c.oracle, between.store, Upstream(m), UpstreamPrefix(m), claim);
      ChannelAfter(c.oracle, between.store, Upstream(m), UpstreamPrefix(m), claim, u, p, port, channel);
      OneChannelMove(c, between, m, claim, port, channel);
    }
  }

  lemma OneChannelMove(c: Config, k: State, m: Msg, claim: Claim, port: string, channel: string)
    requires Permits(c, k, m, claim)
    ensures claim.ChannelClaim? && ChannelEnd(claim.port, claim.channel) == ChannelEnd(port, channel) ==>
              ChannelMoves(m, port, channel, GetChannel(k.store, Upstream(m), UpstreamPrefix(m), port, channel), Found(claim.channelEnd))
  {
    hide GetChannel, GetConnection, LoopChecked, Upstream, UpstreamPrefix, ChannelEnd, OrderSupported;
    if claim.ChannelClaim? && ChannelEnd(claim.port, claim.channel) == ChannelEnd(port, channel) {
      SameChannel(k.store, Upstream(m), UpstreamPrefix(m), claim.port, claim.channel, port, channel);
    }
  }

  lemma {:induction false} WritesKeepKeys(o: Oracle, store: Store, u: string, p: string, claims: seq<Claim>)
    ensures store.Keys <= Write(o, store, u, p, claims).Keys
    decreases |claims|
  {
    hide KeeperKey, PathOf, ValueOf;
    if claims != [] { WritesKeepKeys(o, store, u, p, claims[..|claims| - 1]); }
  }

  // ---- steps ----

  ghost predicate GoodWorld(c: Config, w: World, s: Scope) {
    InHistory(w) && Within(Now(w.k), w.past) && Good(c, w.k.store, w.past, s)
  }

  lemma GoodLater(c: Config, store: Store, past: Past, later: Past, s: Scope)
    requires Good(c, store, past, s) && Within(past, later)
    ensures Good(c, store, later, s)
  {
    hide Upheld, KeeperKey, ValueOf, PathOf, SlashFree, GetConnection, GetChannel, ChannelOk, PacketOk;
    forall key | key in store
      ensures FaithfulKey(c.oracle, store, later, s, key)
    {
      assert FaithfulKey(c.oracle, store, past, s, key);
      var e :| EntryOf(c.oracle, store, past, s, key, e);
      UpheldLater(c.oracle, past, later, e.u, e.p, e.claim);
      assert EntryOf(c.oracle, store, later, s, key, e);
    }
    if s.Only? {
      forall id { ConnectionOkLater(c, store, past, later, s.u, s.p, id); }
    }
  }

  lemma ConnectionOkLater(c: Config, store: Store, past: Past, later: Past, u: string, p: string, id: string)
    requires ConnectionOk(c, store, past, u, p, id) && Within(past, later)
    ensures ConnectionOk(c, store, later, u, p, id)
  {
    hide Upheld, GetConnection, Vouched, SelfClient;
    if GetConnection(store, u, p, id).Found? {
      var end := GetConnection(store, u, p, id).value;
      var x :| Closes(c, past, u, p, end, x);
      UpheldLater(c.oracle, past, later, u, p, ClientClaim(end.client, x.dcs));
      UpheldLater(c.oracle, past, later, u, p, ConsensusClaim(end.client, x.consHeight, x.dcons));
      assert Closes(c, later, u, p, end, x);
    }
  }

  lemma StepKeepsGood(c: Config, w: World, a: Action, w': World, s: Scope)
    requires Sound(c.oracle) && GoodWorld(c, w, s) && Step(c, w, a, w')
    requires s.Only? ==> StepAlone(c, w, a, s.u, s.p)
    ensures GoodWorld(c, w', s)
  {
    hide Good, TrackedNow, Handle, StepByStep, Write, Grows, PlainRoot, Separate;
    match a {
      case Deliver(m, kept) =>
        if kept {
          HandleStepByStep(c, w.k, m);
          WritesKeepGood(c, w.k, w.past, s, m, Handle(c, w.k, m).written);
          SameTracked(w.k, w'.k);
        }
      case Environment =>
        GoodLater(c, w.k.store, w.past, w'.past, s);
    }
  }

  lemma StartIsGood(c: Config, w: World, s: Scope)
    requires Start(w)
    ensures GoodWorld(c, w, s)
  {
    hide KeeperKey, TrackedNow, InHistory, Closes;
  }

  /** Faithfulness, for every run of any messages, handlers that fail halfway included; and for an
      upstream among whose entries nobody else writes, the coupling of connections, channels and packets. */
  lemma {:induction false} RunIsGood(c: Config, ws: seq<World>, acts: seq<Action>, n: nat, s: Scope)
    requires Sound(c.oracle) && Run(c, ws, acts) && n < |ws|
    requires s.Only? ==> Alone(c, ws, acts, s.u, s.p)
    ensures GoodWorld(c, ws[n], s)
  {
    hide GoodWorld, Step, Start, StepAlone;
    if n == 0 {
      StartIsGood(c, ws[0], s);
    } else {
      RunIsGood(c, ws, acts, n - 1, s);
      StepKeepsGood(c, ws[n - 1], acts[n - 1], ws[n], s);
    }
  }

  // ---- the life of a connection ----

  /** Across any number of steps: created in INIT or TRYOPEN, never removed, opened at most once and
      frozen from then on; identity, versions, delay, counterparty client and prefix never change. */
  predicate LaterConnection(before: Lookup<ConnectionEnd>, after: Lookup<ConnectionEnd>) {
    match before
    case Missing => true
    case Panics => after.Panics?
    case Found(x) =>
      && after.Found?
      && var y := after.value;
         || x == y
         || (x.stage == INIT && Opened(x, y))
         || (x.stage == TRYOPEN && y == x.(stage := OPEN))
  }

  lemma MovesAreLater(m: Msg, id: string, x: Lookup<ConnectionEnd>, y: Lookup<ConnectionEnd>, z: Lookup<ConnectionEnd>)
    requires LaterConnection(x, y) && Moves(m, id, y, z)
    ensures LaterConnection(x, z)
  {
  }

  /** A connection changes only by its four messages about this upstream and this id, each from the
      stage it asks for. */
  lemma StepMovesConnection(c: Config, w: World, a: Action, w': World, u: string, p: string, id: string)
    requires Step(c, w, a, w') && StepAlone(c, w, a, u, p)
    ensures var x, y := GetConnection(w.k.store, u, p, id), GetConnection(w'.k.store, u, p, id);
            x == y || (a.Deliver? && Upstream(a.m) == u && UpstreamPrefix(a.m) == p && Moves(a.m, id, x, y))
  {
    hide GetConnection, Handle, StepByStep, Write, Separate, InHistory, Grows, TrackedNow, Moves, Upstream, UpstreamPrefix;
    if a.Deliver? && a.kept {
      HandleStepByStep(c, w.k, a.m);
      WritesMoveConnection(c, w.k, a.m, Handle(c, w.k, a.m).written, u, p, id);
    }
  }

  /** A channel changes only by its four messages about this upstream and this channel, each from the
      state it asks for. */
  lemma StepMovesChannel(c: Config, w: World, a: Action, w': World, u: string, p: string, port: string, channel: string)
    requires Step(c, w, a, w') && StepAlone(c, w, a, u, p)
    ensures var x, y := GetChannel(w.k.store, u, p, port, channel), GetChannel(w'.k.store, u, p, port, channel);
            x == y || (a.Deliver? && Upstream(a.m) == u && UpstreamPrefix(a.m) == p && ChannelMoves(a.m, port, channel, x, y))
  {
    hide GetChannel, Handle, StepByStep, Write, Separate, InHistory, Grows, TrackedNow, ChannelMoves, Upstream, UpstreamPrefix;
    if a.Deliver? && a.kept {
      HandleStepByStep(c, w.k, a.m);
      WritesMoveChannel(c, w.k, a.m, Handle(c, w.k, a.m).written, u, p, port, channel);
    }
  }

  lemma {:induction false} ConnectionLife(c: Config, ws: seq<World>, acts: seq<Action>, i: nat, j: nat, u: string, p: string, id: string)
    requires Run(c, ws, acts) && Alone(c, ws, acts, u, p) && i <= j < |ws|
    ensures LaterConnection(GetConnection(ws[i].k.store, u, p, id), GetConnection(ws[j].k.store, u, p, id))
    decreases j
  {
    hide GetConnection, Step, Start, Moves, StepAlone, Upstream, UpstreamPrefix;
    if i < j {
      ConnectionLife(c, ws, acts, i, j - 1, u, p, id);
      StepMovesConnection(c, ws[j - 1], acts[j - 1], ws[j], u, p, id);
      if GetConnection(ws[j - 1].k.store, u, p, id) != GetConnection(ws[j].k.store, u, p, id) {
        MovesAreLater(acts[j - 1].m, id, GetConnection(ws[i].k.store, u, p, id), GetConnection(ws[j - 1].k.store, u, p, id),
                      GetConnection(ws[j].k.store, u, p, id));
      }
    }
  }

  lemma {:induction false} KeysStay(c: Config, ws: seq<World>, acts: seq<Action>, i: nat, j: nat)
    requires Run(c, ws, acts) && i <= j < |ws|
    ensures ws[i].k.store.Keys <= ws[j].k.store.Keys
    decreases j
  {
    hide Handle, Write, Start, TrackedNow, InHistory, Grows;
    if i < j {
      KeysStay(c, ws, acts, i, j - 1);
      var w, a := ws[j - 1], acts[j - 1];
      assert Step(c, w, a, ws[j]);
      if a.Deliver? {
        WritesKeepKeys(c.oracle, w.k.store, Upstream(a.m), UpstreamPrefix(a.m), Handle(c, w.k, a.m).written);
      }
    }
  }

  lemma {:induction false} HistoryGrows(c: Config, ws: seq<World>, acts: seq<Action>, i: nat, j: nat)
    requires Run(c, ws, acts) && i <= j < |ws|
    ensures Grows(ws[i].upstream, ws[j].upstream) && Within(ws[i].past, ws[j].past)
    decreases j
  {
    hide Handle, Write, Start, TrackedNow, InHistory;
    if i < j {
      HistoryGrows(c, ws, acts, i, j - 1);
      assert Step(c, ws[j - 1], acts[j - 1], ws[j]);
    }
  }

  // ---- the invariants, read off ----

  /** Faithfulness: in every state of every run, an entry of the proxy store is the value of a claim,
      under that claim's own key, that its upstream client vouched for with a root of the upstream's
      history. */
  lemma EntryIsUpheld(c: Config, ws: seq<World>, acts: seq<Action>, n: nat, s: Scope, key: string) returns (e: Entry, t: Tracked)
    requires Sound(c.oracle) && Run(c, ws, acts) && n < |ws| && key in ws[n].k.store
    requires s.Only? ==> Alone(c, ws, acts, s.u, s.p)
    ensures key == KeeperKey(e.p, e.u, PathOf(e.claim)) && ws[n].k.store[key] == ValueOf(c.oracle, e.claim)
    ensures t in ws[n].past.clients && t.client == e.u && Vouched(c.oracle, t.state, t.cons, Merkle(e.p), e.claim)
    ensures e.u in ws[n].upstream && PlainRoot(t.cons) in ws[n].upstream[e.u]
    ensures Fits(s, e.u, e.p)
  {
    hide Run, KeeperKey, ValueOf, PathOf, Separate, UpstreamOk, Vouched, TrackedNow;
    RunIsGood(c, ws, acts, n, s);
    assert FaithfulKey(c.oracle, ws[n].k.store, ws[n].past, s, key);
    e :| EntryOf(c.oracle, ws[n].k.store, ws[n].past, s, key, e);
    t :| t in ws[n].past.clients && t.client == e.u && Vouched(c.oracle, t.state, t.cons, Merkle(e.p), e.claim);
  }

  /** Connections close the loop, channels and packets hang together, and no read of a connection or a
      channel ever panics. */
  lemma UpstreamIsOk(c: Config, ws: seq<World>, acts: seq<Action>, n: nat, u: string, p: string)
    requires Sound(c.oracle) && Run(c, ws, acts) && Alone(c, ws, acts, u, p) && n < |ws|
    ensures UpstreamOk(c, ws[n].k.store, ws[n].past, u, p)
  {
    hide Run, UpstreamOk, Alone, Faithful, InHistory, TrackedNow;
    RunIsGood(c, ws, acts, n, Only(u, p));
  }

  /** The order of a proxied channel is among the features of the one version of its connection, by name. */
  lemma ChannelOrderNegotiated(c: Config, ws: seq<World>, acts: seq<Action>, n: nat, u: string, p: string, port: string, channel: string)
    requires Sound(c.oracle) && Run(c, ws, acts) && Alone(c, ws, acts, u, p) && n < |ws|
    requires KeeperKey(p, u, ChannelPath(port, channel)) in ws[n].k.store
    ensures GetChannel(ws[n].k.store, u, p, port, channel).Found?
    ensures var ch := GetChannel(ws[n].k.store, u, p, port, channel).value;
            && |ch.hops| == 1
            && GetConnection(ws[n].k.store, u, p, ch.hops[0]).Found?
            && OrderNegotiated(ch.order, GetConnection(ws[n].k.store, u, p, ch.hops[0]).value)
  {
    hide Run, Alone, KeeperKey, GetConnection, TrackedNow, ConnectionOk, PacketOk;
    UpstreamIsOk(c, ws, acts, n, u, p);
    assert ChannelOk(ws[n].k.store, u, p, port, channel);
  }

  /** Packet coupling: behind a packet commitment or acknowledgement there is a proxied channel with
      exactly one hop, and that connection is proxied. */
  lemma PacketHasHop(c: Config, ws: seq<World>, acts: seq<Action>, n: nat, u: string, p: string, port: string,
                     channel: string, sequence: uint64)
    requires Sound(c.oracle) && Run(c, ws, acts) && Alone(c, ws, acts, u, p) && n < |ws|
    requires KeeperKey(p, u, CommitmentPath(port, channel, sequence)) in ws[n].k.store
             || KeeperKey(p, u, AckPath(port, channel, sequence)) in ws[n].k.store
    ensures HasHop(ws[n].k.store, u, p, port, channel)
    ensures |GetChannel(ws[n].k.store, u, p, port, channel).value.hops| == 1
  {
    hide Run, Alone, KeeperKey, GetChannel, GetConnection, OrderSupported, TrackedNow, ConnectionOk;
    UpstreamIsOk(c, ws, acts, n, u, p);
    assert PacketOk(ws[n].k.store, u, p, port, channel, sequence);
    assert ChannelOk(ws[n].k.store, u, p, port, channel);
  }

  // ---- packets over what is OPEN ----

  predicate OverOpen(store: Store, u: string, p: string, port: string, channel: string)
    requires HasHop(store, u, p, port, channel)
  {
    var ch := GetChannel(store, u, p, port, channel).value;
    ch.stage == OPEN && HopConnection(store, u, p, ch).value.stage == OPEN
  }

  /** A packet is for the channel's counterparty, port and channel. */
  lemma ReceivedForPeer(c: Config, k: State, m: Msg)
    requires m.RecvPacket? && Handle(c, k, m).ok
    ensures GetChannel(k.store, m.u, m.p, m.packet.sourcePort, m.packet.sourceChannel).Found?
    ensures var peer := GetChannel(k.store, m.u, m.p, m.packet.sourcePort, m.packet.sourceChannel).value.counterparty;
            m.packet.destPort == peer.port && m.packet.destChannel == peer.channel
  {
    hide Accepts, GetChannel, GetConnection;
  }

  /** A Try or an Ack over a connection without exactly one version, or whose version does not have the
      order by name, is refused and writes nothing. */
  lemma UnnegotiatedRefused(c: Config, k: State, m: Msg)
    requires (m.ChanOpenTry? || m.ChanOpenAck?) && |m.hops| == 1
    requires GetConnection(k.store, m.u, m.p, m.hops[0]).Found?
    requires !OrderNegotiated(m.order, GetConnection(k.store, m.u, m.p, m.hops[0]).value)
    ensures Handle(c, k, m) == Outcome([], false)
  {
    hide Accepts, GetConnection;
  }

  /** The packet handlers do not test what their comment asks for: that connection and channel are OPEN.
      For a received packet it holds if and only if the channel is OPEN. The connection alone is not
      OPEN only if the channel is in INIT and the packet names no destination channel. */
  lemma ReceivedOverOpen(c: Config, ws: seq<World>, acts: seq<Action>, n: nat, m: Msg)
    requires Sound(c.oracle) && Run(c, ws, acts) && m.RecvPacket? && Alone(c, ws, acts, m.u, m.p) && n < |ws|
    requires Handle(c, ws[n].k, m).ok
    ensures HasHop(ws[n].k.store, m.u, m.p, m.packet.sourcePort, m.packet.sourceChannel)
    ensures var ch := GetChannel(ws[n].k.store, m.u, m.p, m.packet.sourcePort, m.packet.sourceChannel).value;
            && (OverOpen(ws[n].k.store, m.u, m.p, m.packet.sourcePort, m.packet.sourceChannel) <==> ch.stage == OPEN)
            && (|| HopConnection(ws[n].k.store, m.u, m.p, ch).value.stage == OPEN
                || (ch.stage == INIT && m.packet.destChannel == ""))
  {
    hide Run, Alone, GetChannel, GetConnection, OrderSupported, TrackedNow, ConnectionOk, Accepts;
    UpstreamIsOk(c, ws, acts, n, m.u, m.p);
    assert ChannelOk(ws[n].k.store, m.u, m.p, m.packet.sourcePort, m.packet.sourceChannel);
  }

  /** The same for an acknowledgement. */
  lemma AcknowledgedOverOpen(c: Config, ws: seq<World>, acts: seq<Action>, n: nat, m: Msg)
    requires Sound(c.oracle) && Run(c, ws, acts) && m.AcknowledgePacket? && Alone(c, ws, acts, m.u, m.p) && n < |ws|
    requires Handle(c, ws[n].k, m).ok
    ensures HasHop(ws[n].k.store, m.u, m.p, m.packet.destPort, m.packet.destChannel)
    ensures var ch := GetChannel(ws[n].k.store, m.u, m.p, m.packet.destPort, m.packet.destChannel).value;
            && (OverOpen(ws[n].k.store, m.u, m.p, m.packet.destPort, m.packet.destChannel) <==> ch.stage == OPEN)
            && (HopConnection(ws[n].k.store, m.u, m.p, ch).value.stage == OPEN || ch.stage == INIT)
  {
    hide Run, Alone, GetChannel, GetConnection, OrderSupported, TrackedNow, ConnectionOk, Accepts;
    UpstreamIsOk(c, ws, acts, n, m.u, m.p);
    assert ChannelOk(ws[n].k.store, m.u, m.p, m.packet.destPort, m.packet.destChannel);
  }
}
