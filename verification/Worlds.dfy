/** Runs: messages interleaved with everything else that changes the light clients and the upstream
    chains; and what every state of every run satisfies. */
module Worlds {
  import opened Options
  import opened Wire
  import opened Messages
  import opened Paths
  import opened Clients
  import opened Soundness
  import opened Handlers
  import opened Writes

  /** What client `client` was at some moment: its state with one consensus state it held. */
  datatype Tracked = Tracked(client: string, state: ClientState, cons: ConsensusState)

  /** What has been: the clients, and the times of this chain. */
  datatype Past = Past(clients: set<Tracked>, times: set<nat>)

  /** The keeper's state, the roots each upstream chain has committed to so far, and (for the
      statements only) what has been. */
  datatype World = World(k: State, upstream: map<string, seq<Root>>, past: Past)

  function TrackedNow(k: State): set<Tracked> {
    set u, key | && u in k.clients && u in k.clientStores && key in k.clientStores[u]
                 && k.clientStores[u][key].ConsensusV?
      :: Tracked(u, k.clients[u], k.clientStores[u][key].cons)
  }

  function Now(k: State): Past {
    Past(TrackedNow(k), {k.now})
  }

  function Join(x: Past, y: Past): Past {
    Past(x.clients + y.clients, x.times + y.times)
  }

  predicate Within(x: Past, y: Past) {
    x.clients <= y.clients && x.times <= y.times
  }

  /** The root at the heart of a consensus state. */
  function PlainRoot(cons: ConsensusState): Root {
    match cons
    case PlainCons(root, _) => root
    case ProxyCons(inner) => PlainRoot(inner)
  }

  /** The light clients are secure: what they take for a root is a root of the chain they track. */
  ghost predicate InHistory(w: World) {
    forall t <- w.past.clients :: t.client in w.upstream && PlainRoot(t.cons) in w.upstream[t.client]
  }

  ghost predicate Grows(before: map<string, seq<Root>>, after: map<string, seq<Root>>) {
    forall u <- before :: u in after && before[u] <= after[u]
  }

  /** A message, whose writes the chain keeps or, if it failed, may have rolled back; or a change of
      the clients, their stores, the time and the upstream chains. */
  datatype Action = Deliver(m: Msg, kept: bool) | Environment

  ghost predicate Start(w: World) {
    w.k.store == map[] && w.past == Now(w.k) && InHistory(w)
  }

  ghost predicate Step(c: Config, w: World, a: Action, w': World) {
    match a
    case Deliver(m, kept) =>
      && (Handle(c, w.k, m).ok ==> kept)
      && w' == if kept then w.(k := After(c, w.k, m, Handle(c, w.k, m).written)) else w
    case Environment =>
      && w'.k.store == w.k.store
      && w'.past == Join(w.past, Now(w'.k))
      && Grows(w.upstream, w'.upstream)
      && InHistory(w')
  }

  ghost predicate Run(c: Config, ws: seq<World>, acts: seq<Action>) {
    && |ws| == |acts| + 1
    && Start(ws[0])
    && forall i :: 0 <= i < |acts| ==> Step(c, ws[i], acts[i], ws[i + 1])
  }

  /** The action stores something in the proxy store. */
  ghost predicate Writing(c: Config, w: World, a: Action) {
    a.Deliver? && a.kept && Handle(c, w.k, a.m).written != []
  }

  /** What the action stores, if anything, is about (u, p) or apart from all entries of (u, p). */
  ghost predicate StepAlone(c: Config, w: World, a: Action, u: string, p: string) {
    Writing(c, w, a) ==> Separate(Upstream(a.m), UpstreamPrefix(a.m), u, p)
  }

  /** Nothing that is stored about other upstreams lies among the entries of (u, p). */
  ghost predicate Alone(c: Config, ws: seq<World>, acts: seq<Action>, u: string, p: string)
    requires |acts| <= |ws|
  {
    forall i :: 0 <= i < |acts| ==> StepAlone(c, ws[i], acts[i], u, p)
  }

  // ---- the invariant ----

  /** A client with id u, as it was at some moment, vouches for the claim. */
  ghost predicate Upheld(o: Oracle, past: Past, u: string, p: string, claim: Claim) {
    exists t <- past.clients :: t.client == u && Vouched(o, t.state, t.cons, Merkle(p), claim)
  }

  datatype Entry = Entry(u: string, p: string, claim: Claim)

  /** Whom a statement is about: everyone, or one upstream under one prefix. */
  datatype Scope = Everyone | Only(u: string, p: string)

  /** Entries of (u, p) are not taken for those of the scope. */
  ghost predicate Fits(s: Scope, u: string, p: string) {
    s.Only? ==> Separate(u, p, s.u, s.p)
  }

  ghost predicate EntryOf(o: Oracle, store: Store, past: Past, s: Scope, key: string, e: Entry) {
    && key in store && key == KeeperKey(e.p, e.u, PathOf(e.claim)) && store[key] == ValueOf(o, e.claim)
    && Fits(s, e.u, e.p)
    && Upheld(o, past, e.u, e.p, e.claim)
  }

  ghost predicate FaithfulKey(o: Oracle, store: Store, past: Past, s: Scope, key: string) {
    exists e :: EntryOf(o, store, past, s, key, e)
  }

  /** Faithfulness: whatever the proxy store holds is a claim its upstream client vouched for, at that
      claim's own key. */
  ghost predicate Faithful(o: Oracle, store: Store, past: Past, s: Scope) {
    forall key <- store :: FaithfulKey(o, store, past, s, key)
  }

  /** What closes the loop behind a connection: the upstream holds a client dcs with a consensus state
      dcons for the downstream; the downstream tree behind dcons holds a Proxy client pcs, whose inner
      client was valid for this chain at some time of the run, and this chain's own consensus state
      `self`. */
  datatype Witness = Witness(dcs: ClientState, tracker: ClientState, dcons: ConsensusState, consHeight: Height,
                             pcs: ClientState, now: nat, selfHeight: Height, self: ConsensusState)

  /** The client that does the tracking: behind a MultiV client the one it is made of, else itself. */
  predicate Behind(cs: ClientState, tracker: ClientState) {
    (cs.MultiV? ==> tracker == cs.underlying) && (!cs.MultiV? ==> tracker == cs)
  }

  /** The host takes the client for one of this chain; of a MultiV client, the one it is made of. */
  predicate TakenForSelf(c: Config, now: nat, cs: ClientState) {
    (cs.MultiV? ==> c.validSelf(now, cs.underlying)) && (!cs.MultiV? ==> c.validSelf(now, cs))
  }

  ghost predicate Closes(c: Config, past: Past, u: string, p: string, end: ConnectionEnd, x: Witness) {
    && Upheld(c.oracle, past, u, p, ClientClaim(end.client, x.dcs))
    && Upheld(c.oracle, past, u, p, ConsensusClaim(end.client, x.consHeight, x.dcons))
    && x.pcs.Proxy? && x.pcs.upstream == u && x.pcs.ibcPrefix == c.ibcName && x.pcs.proxyPrefix == c.proxyName
    && x.now in past.times && TakenForSelf(c, x.now, x.pcs.inner)
    && c.selfCons(x.now, x.selfHeight) == Some(x.self)
    && Behind(x.dcs, x.tracker)
    && var at, id := Merkle(end.counterparty.prefix), end.counterparty.client;
    && Vouched(c.oracle, x.tracker, x.dcons, at, ClientClaim(id, x.pcs))
    && Vouched(c.oracle, x.tracker, x.dcons, at, ConsensusClaim(id, x.selfHeight, ProxyCons(x.self)))
  }

  ghost predicate LoopClosed(c: Config, past: Past, u: string, p: string, end: ConnectionEnd) {
    exists x :: Closes(c, past, u, p, end, x)
  }

  ghost predicate ConnectionOk(c: Config, store: Store, past: Past, u: string, p: string, id: string) {
    match GetConnection(store, u, p, id)
    case Missing => true
    case Found(end) =>
      && (end.stage == INIT || end.stage == TRYOPEN || end.stage == OPEN)
      && LoopClosed(c, past, u, p, end)
    case Panics => false
  }

  /** A proxied channel has one hop, a proxied connection with one version that supports its order; in
      TRYOPEN or OPEN the connection is OPEN; in INIT no counterparty channel is known. */
  predicate ChannelOk(store: Store, u: string, p: string, port: string, channel: string) {
    match GetChannel(store, u, p, port, channel)
    case Missing => true
    case Found(ch) =>
      && |ch.hops| == 1
      && var hop := GetConnection(store, u, p, ch.hops[0]);
      && hop.Found? && OrderSupported(ch.order, hop.value)
      && (ch.stage == INIT || ch.stage == TRYOPEN || ch.stage == OPEN)
      && (ch.stage == INIT ==> ch.counterparty.channel == "")
      && (ch.stage != INIT ==> hop.value.stage == OPEN)
    case Panics => false
  }

  /** One version was negotiated, and the order's name is among its features. */
  predicate OrderNegotiated(order: Order, end: ConnectionEnd) {
    && |end.versions| == 1
    && var features := end.versions[0].features;
    && (order == ORDERED ==> "ORDER_ORDERED" in features)
    && (order == UNORDERED ==> "ORDER_UNORDERED" in features)
    && (order == NONE ==> "ORDER_NONE_UNSPECIFIED" in features)
  }

  /** A packet entry belongs to a proxied channel. */
  predicate PacketOk(store: Store, u: string, p: string, port: string, channel: string, n: uint64) {
    KeeperKey(p, u, CommitmentPath(port, channel, n)) in store || KeeperKey(p, u, AckPath(port, channel, n)) in store
    ==> GetChannel(store, u, p, port, channel).Found?
  }

  ghost predicate UpstreamOk(c: Config, store: Store, past: Past, u: string, p: string) {
    && (forall id :: ConnectionOk(c, store, past, u, p, id))
    && (forall port, channel :: ChannelOk(store, u, p, port, channel))
    && (forall port, channel, n :: PacketOk(store, u, p, port, channel, n))
  }

  // ---- what clients accept is upheld ----

  lemma VerifiedUpheld(c: Config, k: State, past: Past, u: string, p: string, height: Height, claim: Claim, proof: bytes)
    requires Sound(c.oracle) && Within(Now(k), past)
    requires Accepts(c, k, u, p, height, claim, proof)
    ensures Upheld(c.oracle, past, u, p, claim)
  {
    hide Vouches, Verify;
    var store := ClientStore(k, u);
    var ev := VerifySound(c.oracle, k.clients[u], store, height, Merkle(p), claim, proof);
    var key := ConsensusStateKey(height);
    assert key in store && store[key].ConsensusV?;
    assert Tracked(u, k.clients[u], store[key].cons) in TrackedNow(k);
  }

  lemma UpheldLater(o: Oracle, past: Past, later: Past, u: string, p: string, claim: Claim)
    requires Upheld(o, past, u, p, claim) && Within(past, later)
    ensures Upheld(o, later, u, p, claim)
  {
    hide Vouched;
  }

  lemma MemStoreRead(cons: ConsensusState, h: Height)
    ensures ReadCons(MemStore(cons, h), h) == Some(cons)
  {
  }

  /** The checks of a handshake close the loop. */
  lemma CheckedCloses(c: Config, k: State, past: Past, h: Handshake)
    requires Sound(c.oracle) && Within(Now(k), past) && LoopChecked(c, k, h)
    ensures LoopClosed(c, past, h.proxyClient.upstream, h.p, h.connectionEnd)
  {
    hide Verify, Upheld, Vouches, TrackedNow, MemStore, ReadCons, Accepts;
    var u, end := h.proxyClient.upstream, h.connectionEnd;
    var self := SelfConsensus(c, k.now, h.proxyConsensusHeight).value;
    VerifiedUpheld(c, k, past, u, h.p, h.proofHeight, ClientClaim(end.client, h.downstreamClient), h.proofClient);
    VerifiedUpheld(c, k, past, u, h.p, h.proofHeight, ConsensusClaim(end.client, h.consensusHeight, h.downstreamCons), h.proofConsensus);
    var dcs, mem, at, id := StripMultiV(h.downstreamClient), MemStore(h.downstreamCons, h.proofProxyHeight),
                            Merkle(end.counterparty.prefix), end.counterparty.client;
    MemStoreRead(h.downstreamCons, h.proofProxyHeight);
    var e := VerifySound(c.oracle, dcs, mem, h.proofProxyHeight, at, ClientClaim(id, h.proxyClient), h.proofProxyClient);
    var e' := VerifySound(c.oracle, dcs, mem, h.proofProxyHeight, at,
                          ConsensusClaim(id, h.proxyConsensusHeight, self), h.proofProxyConsensus);
    assert Closes(c, past, u, h.p, end,
                  Witness(h.downstreamClient, dcs, h.downstreamCons, h.consensusHeight, h.proxyClient, k.now,
                          h.proxyConsensusHeight, self.inner));
  }

  // ---- one write keeps the invariant ----

  lemma FaithfulAfter(c: Config, k: State, past: Past, s: Scope, u: string, p: string, claim: Claim)
    requires Sound(c.oracle) && Within(Now(k), past)
    requires Faithful(c.oracle, k.store, past, s) && Verified(c, k, u, p, claim)
    requires Fits(s, u, p)
    ensures Faithful(c.oracle, Put(c.oracle, k.store, u, p, claim), past, s)
  {
    hide KeeperKey, ValueOf, PathOf, Upheld, TrackedNow, Accepts, Apart;
    var height, proof :| Accepts(c, k, u, p, height, claim, proof);
    VerifiedUpheld(c, k, past, u, p, height, claim, proof);
    var store, store' := k.store, Put(c.oracle, k.store, u, p, claim);
    var written := KeeperKey(p, u, PathOf(claim));
    forall key | key in store'
      ensures FaithfulKey(c.oracle, store', past, s, key)
    {
      if key == written {
        assert EntryOf(c.oracle, store', past, s, key, Entry(u, p, claim));
      } else {
        assert FaithfulKey(c.oracle, store, past, s, key);
        var e :| EntryOf(c.oracle, store, past, s, key, e);
        assert EntryOf(c.oracle, store', past, s, key, e);
      }
    }
  }

  lemma ConnectionOkAfter(c: Config, k: State, past: Past, m: Msg, claim: Claim, u: string, p: string, id: string)
    requires Sound(c.oracle) && Within(Now(k), past)
    requires Separate(Upstream(m), UpstreamPrefix(m), u, p)
    requires ConnectionOk(c, k.store, past, u, p, id) && Permits(c, k, m, claim)
    ensures ConnectionOk(c, Put(c.oracle, k.store, Upstream(m), UpstreamPrefix(m), claim), past, u, p, id)
  {
    hide GetConnection, Put, LoopChecked, TrackedNow, Upheld, Vouched, Apart, SelfClient, GetChannel, HasHop, MayOpenChannel;
    ConnectionAfter(c.oracle, k.store, Upstream(m), UpstreamPrefix(m), claim, u, p, id);
    if u == Upstream(m) && p == UpstreamPrefix(m) && claim.ConnectionClaim? && claim.connection == id {
      var before, end := GetConnection(k.store, u, p, id), claim.connectionEnd;
      if before.Missing? {
        assert LoopChecked(c, k, m.h);
        CheckedCloses(c, k, past, m.h);
        CheckedUpstream(c, k, m);
      } else {
        var x :| Closes(c, past, u, p, before.value, x);
        assert Closes(c, past, u, p, end, x);
      }
    }
  }

  lemma CheckedUpstream(c: Config, k: State, m: Msg)
    requires (m.ConnOpenTry? || m.ConnOpenAck?) && LoopChecked(c, k, m.h)
    ensures Upstream(m) == m.h.proxyClient.upstream && UpstreamPrefix(m) == m.h.p
  {
    hide Accepts, DownstreamTracksProxy, ValidateSelfClient;
  }

  lemma ChannelOkAfter(c: Config, k: State, m: Msg, claim: Claim, u: string, p: string, port: string, channel: string)
    requires Separate(Upstream(m), UpstreamPrefix(m), u, p)
    requires ChannelOk(k.store, u, p, port, channel) && Permits(c, k, m, claim)
    ensures ChannelOk(Put(c.oracle, k.store, Upstream(m), UpstreamPrefix(m), claim), u, p, port, channel)
  {
    hide GetConnection, GetChannel, Put, LoopChecked, Apart, Upstream, UpstreamPrefix, OrderSupported, ChannelEnd, HasHop;
    var mu, mp := Upstream(m), UpstreamPrefix(m);
    ChannelAfter(c.oracle, k.store, mu, mp, claim, u, p, port, channel);
    if u == mu && p == mp && claim.ChannelClaim? && ChannelEnd(claim.port, claim.channel) == ChannelEnd(port, channel) {
      SameChannel(k.store, u, p, claim.port, claim.channel, port, channel);
      ConnectionAfter(c.oracle, k.store, mu, mp, claim, u, p, claim.channelEnd.hops[0]);
    } else if GetChannel(k.store, u, p, port, channel).Found? {
      var ch := GetChannel(k.store, u, p, port, channel).value;
      ConnectionAfter(c.oracle, k.store, mu, mp, claim, u, p, ch.hops[0]);
      if claim.ConnectionClaim? && u == mu && p == mp && claim.connection == ch.hops[0] {
        SameVersions(ch.order, GetConnection(k.store, u, p, ch.hops[0]).value, claim.connectionEnd);
      }
    }
  }

  lemma SameVersions(order: Order, before: ConnectionEnd, after: ConnectionEnd)
    requires before.versions == after.versions && OrderSupported(order, before)
    ensures OrderSupported(order, after)
  {
  }

  lemma SameChannel(store: Store, u: string, p: string, port: string, channel: string, port': string, channel': string)
    requires ChannelEnd(port, channel) == ChannelEnd(port', channel')
    ensures GetChannel(store, u, p, port, channel) == GetChannel(store, u, p, port', channel')
  {
    hide KeeperKey, ChannelEnd;
    SameChannelKey(p, u, port, channel, port', channel');
  }

  lemma PacketOkAfter(c: Config, k: State, m: Msg, claim: Claim, u: string, p: string, port: string, channel: string, n: uint64)
    requires Separate(Upstream(m), UpstreamPrefix(m), u, p)
    requires PacketOk(k.store, u, p, port, channel, n) && Permits(c, k, m, claim)
    ensures PacketOk(Put(c.oracle, k.store, Upstream(m), UpstreamPrefix(m), claim), u, p, port, channel, n)
  {
    hide GetConnection, GetChannel, LoopChecked, Apart, Upstream, UpstreamPrefix, ChannelEnd, KeeperKey, Render,
         MayConnect, MayOpenChannel, HopConnection, ValueOf;
    var mu, mp := Upstream(m), UpstreamPrefix(m);
    ChannelAfter(c.oracle, k.store, mu, mp, claim, u, p, port, channel);
    var written := KeeperKey(mp, mu, PathOf(claim));
    if written == KeeperKey(p, u, CommitmentPath(port, channel, n)) {
      KeysMeet(mp, mu, PathOf(claim), p, u, CommitmentPath(port, channel, n));
      RenderKeeps(PathOf(claim), CommitmentPath(port, channel, n));
      SameChannel(k.store, u, p, claim.port, claim.channel, port, channel);
    } else if written == KeeperKey(p, u, AckPath(port, channel, n)) {
      KeysMeet(mp, mu, PathOf(claim), p, u, AckPath(port, channel, n));
      RenderKeeps(PathOf(claim), AckPath(port, channel, n));
      SameChannel(k.store, u, p, claim.port, claim.channel, port, channel);
    }
  }

  lemma UpstreamOkAfter(c: Config, k: State, past: Past, m: Msg, claim: Claim, u: string, p: string)
    requires Sound(c.oracle) && Within(Now(k), past)
    requires Separate(Upstream(m), UpstreamPrefix(m), u, p)
    requires UpstreamOk(c, k.store, past, u, p) && Permits(c, k, m, claim)
    ensures UpstreamOk(c, Put(c.oracle, k.store, Upstream(m), UpstreamPrefix(m), claim), past, u, p)
  {
    hide Put, ConnectionOk, ChannelOk, PacketOk, Permits, Separate, TrackedNow, Upstream, UpstreamPrefix;
    forall id { ConnectionOkAfter(c, k, past, m, claim, u, p, id); }
    forall port, channel { ChannelOkAfter(c, k, m, claim, u, p, port, channel); }
    forall port, channel, n: uint64 { PacketOkAfter(c, k, m, claim, u, p, port, channel, n); }
  }
}
