/** What a downstream chain learns through the proxy about the upstream chain. */
module EndToEnd {
  import opened Wire
  import opened Messages
  import opened Paths
  import opened Clients
  import opened Soundness
  import opened Handlers
  import opened Writes
  import opened Worlds
  import opened Invariants
  import opened Isolation

  /** The client speaks about its chain's own tree: any plain client, and for what is not about
      clients also MultiV clients around one. */
  predicate Transparent(cs: ClientState, claim: Claim) {
    Direct(cs) && (AboutClient(claim) ==> cs.Plain?)
  }

  lemma TransparentVouched(o: Oracle, cs: ClientState, cons: ConsensusState, prefix: Prefix, claim: Claim)
    requires Transparent(cs, claim) && Vouched(o, cs, cons, prefix, claim)
    ensures cons.PlainCons?
    ensures var at := Locate(prefix, Render(PathOf(claim)));
            at in o.tree(cons.root) && o.tree(cons.root)[at] == ValueOf(o, claim)
  {
    hide Render, Locate, Vouches;
    if cs.Plain? {
      PlainVouched(o, cs.chain, cs.latest, cons, prefix, claim);
    } else {
      var ev :| Vouches(o, cs, cons, prefix, claim, ev);
      DirectVouches(o, cs, cons, prefix, claim, ev);
    }
  }

  /** The proxy chain's tree holds the proxy store, under the module's store name. */
  ghost predicate CommitsTo(c: Config, store: Store, root: Root) {
    forall key ::
      && (Location(c.proxyName, key) in c.oracle.tree(root) <==> key in store)
      && (key in store ==> c.oracle.tree(root)[Location(c.proxyName, key)] == store[key])
  }

  /** The downstream's light client is secure: each consensus state it holds is of a moment in the
      proxy's run. */
  ghost predicate FollowsProxy(c: Config, ws: seq<World>, dstore: Store) {
    forall h :: ReadCons(dstore, h).Some? ==>
      exists i :: 0 <= i < |ws| && CommitsTo(c, ws[i].k.store, PlainRoot(ReadCons(dstore, h).value))
  }

  /** An entry of the proxy store about a transparent upstream is in a tree of the upstream's history. */
  lemma EntryInHistory(c: Config, ws: seq<World>, acts: seq<Action>, n: nat, u: string, p: string, path: Path) returns (root: Root)
    requires Sound(c.oracle) && Run(c, ws, acts) && Alone(c, ws, acts, u, p) && n < |ws|
    requires forall t <- ws[n].past.clients :: t.client == u ==>
               Direct(t.state) && (path.ClientPath? || path.ConsensusPath? ==> t.state.Plain?)
    requires KeeperKey(p, u, path) in ws[n].k.store
    ensures u in ws[n].upstream && root in ws[n].upstream[u]
    ensures var at := Location(p, Render(path));
            at in c.oracle.tree(root) && c.oracle.tree(root)[at] == ws[n].k.store[KeeperKey(p, u, path)]
  {
    hide Run, Alone, KeeperKey, Render, Apart, Vouched, ValueOf, ChannelEnd, Direct;
    var e, t := EntryIsUpheld(c, ws, acts, n, Only(u, p), KeeperKey(p, u, path));
    KeysMeet(e.p, e.u, PathOf(e.claim), p, u, path);
    RenderKeeps(PathOf(e.claim), path);
    TransparentVouched(c.oracle, t.state, t.cons, Merkle(p), e.claim);
    root := t.cons.root;
  }

  /** The place where a downstream Proxy client looks is the key the keeper writes. */
  lemma DownstreamLooksThere(c: Config, u: string, p: string, path: Path)
    ensures Locate(NewPrefix(c.proxyName, Merkle(p), u), Render(path)) == Location(c.proxyName, KeeperKey(p, u, path))
  {
    hide Render, KeeperKey;
    KeyAgreement(p, u, path);
  }

  /** Two hops: whatever the downstream's Proxy client accepts about the upstream (u, p), the upstream
      chain held at (p, path), in a state no later than the proxy state behind the proof. */
  lemma TwoHopSound(c: Config, ws: seq<World>, acts: seq<Action>, dcs: ClientState, dstore: Store, height: Height,
                    u: string, p: string, claim: Claim, proof: bytes) returns (i: nat, root: Root)
    requires Sound(c.oracle) && Run(c, ws, acts) && Alone(c, ws, acts, u, p)
    requires forall w <- ws, t <- w.past.clients :: t.client == u ==> Transparent(t.state, claim)
    requires dcs.Proxy? && dcs.upstream == u && dcs.proxyPrefix == c.proxyName && Transparent(dcs.inner, claim)
    requires FollowsProxy(c, ws, dstore)
    requires Verify(c.oracle, dcs, dstore, height, Merkle(p), claim, proof)
    ensures i < |ws| && u in ws[i].upstream && root in ws[i].upstream[u]
    ensures ReadCons(dstore, height).Some? && CommitsTo(c, ws[i].k.store, PlainRoot(ReadCons(dstore, height).value))
    ensures var at := Location(p, Render(PathOf(claim)));
            at in c.oracle.tree(root) && c.oracle.tree(root)[at] == ValueOf(c.oracle, claim)
  {
    hide Run, Alone, KeeperKey, Render, Apart, ValueOf, Verify, ReadCons, Locate, NewPrefix, Direct;
    var ev := VerifySound(c.oracle, dcs, dstore, height, Merkle(p), claim, proof);
    var cons := ReadCons(dstore, height).value;
    var prefix := NewPrefix(c.proxyName, Merkle(p), u);
    assert Vouched(c.oracle, dcs.inner, cons.inner, prefix, claim) by {
      assert Vouches(c.oracle, dcs.inner, cons.inner, prefix, claim, ev.e);
    }
    TransparentVouched(c.oracle, dcs.inner, cons.inner, prefix, claim);
    DownstreamLooksThere(c, u, p, PathOf(claim));
    i :| 0 <= i < |ws| && CommitsTo(c, ws[i].k.store, PlainRoot(cons));
    assert Location(c.proxyName, KeeperKey(p, u, PathOf(claim))) in c.oracle.tree(PlainRoot(cons));
    root := EntryInHistory(c, ws, acts, i, u, p, PathOf(claim));
  }

  /** What success of AcknowledgePacket leaves: under the packet's path the commitment of the
      acknowledgement, and, of an upstream tracked directly, the same commitment in a tree of its history. */
  lemma AcknowledgementStored(c: Config, ws: seq<World>, acts: seq<Action>, i: nat, m: Msg) returns (root: Root)
    requires Sound(c.oracle) && Run(c, ws, acts) && m.AcknowledgePacket? && Alone(c, ws, acts, m.u, m.p)
    requires i < |acts| && acts[i].Deliver? && acts[i].m == m && Handle(c, ws[i].k, m).ok
    requires forall t <- ws[i + 1].past.clients :: t.client == m.u ==> Direct(t.state)
    ensures var path := AckPath(m.packet.destPort, m.packet.destChannel, m.packet.sequence);
            && KeeperKey(m.p, m.u, path) in ws[i + 1].k.store
            && ws[i + 1].k.store[KeeperKey(m.p, m.u, path)] == BytesV(c.oracle.commitAck(m.ack))
            && m.u in ws[i + 1].upstream && root in ws[i + 1].upstream[m.u]
            && Location(m.p, Render(path)) in c.oracle.tree(root)
            && c.oracle.tree(root)[Location(m.p, Render(path))] == BytesV(c.oracle.commitAck(m.ack))
  {
    hide Start, Alone, Handle, KeeperKey, Render, Direct, Write, InHistory, Now;
    assert Step(c, ws[i], acts[i], ws[i + 1]);
    var claim := SuccessIsStored(c, ws[i].k, m);
    root := EntryInHistory(c, ws, acts, i + 1, m.u, m.p, AckPath(m.packet.destPort, m.packet.destChannel, m.packet.sequence));
  }

  /** A path that never changes its value once it has one. */
  ghost predicate NeverRebinds(o: Oracle, history: seq<Root>, at: Location) {
    forall r <- history, s <- history :: at in o.tree(r) && at in o.tree(s) ==> o.tree(r)[at] == o.tree(s)[at]
  }

  /** Packet stability: where the upstream never rebinds a path (packet commitments and
      acknowledgements), the proxied entry never changes after its first write. */
  lemma EntryStable(c: Config, ws: seq<World>, acts: seq<Action>, i: nat, j: nat, u: string, p: string, path: Path)
    requires Sound(c.oracle) && Run(c, ws, acts) && Alone(c, ws, acts, u, p) && i <= j < |ws|
    requires forall t <- ws[j].past.clients :: t.client == u ==>
               Direct(t.state) && (path.ClientPath? || path.ConsensusPath? ==> t.state.Plain?)
    requires u in ws[j].upstream ==> NeverRebinds(c.oracle, ws[j].upstream[u], Location(p, Render(path)))
    requires KeeperKey(p, u, path) in ws[i].k.store
    ensures KeeperKey(p, u, path) in ws[j].k.store
    ensures ws[j].k.store[KeeperKey(p, u, path)] == ws[i].k.store[KeeperKey(p, u, path)]
  {
    hide Run, Alone, KeeperKey, Render, Apart, Direct;
    KeysStay(c, ws, acts, i, j);
    HistoryGrows(c, ws, acts, i, j);
    var r := EntryInHistory(c, ws, acts, i, u, p, path);
    var s := EntryInHistory(c, ws, acts, j, u, p, path);
  }

  /** Loop closure: for every proxied connection in every reachable state, the upstream vouched for a
      downstream client and consensus state; and, where that client is a plain one (or a MultiV
      client around it), the downstream tree behind that consensus state holds a Proxy client for
      this chain that names the upstream the entry is keyed by, and this chain's own state. */
  lemma LoopInTrees(c: Config, ws: seq<World>, acts: seq<Action>, n: nat, u: string, p: string, id: string)
    returns (end: ConnectionEnd, x: Witness)
    requires Sound(c.oracle) && Run(c, ws, acts) && Alone(c, ws, acts, u, p) && n < |ws|
    requires KeeperKey(p, u, ConnectionPath(id)) in ws[n].k.store
    ensures GetConnection(ws[n].k.store, u, p, id) == Found(end) && Closes(c, ws[n].past, u, p, end, x)
    ensures x.dcs.Plain? || (x.dcs.MultiV? && x.dcs.underlying.Plain?) ==>
              && x.dcons.PlainCons?
              && var tree, at, cid := c.oracle.tree(x.dcons.root), end.counterparty.prefix, end.counterparty.client;
              && Location(at, Render(ClientPath(cid))) in tree
              && tree[Location(at, Render(ClientPath(cid)))] == ClientV(x.pcs)
              && Location(at, Render(ConsensusPath(cid, x.selfHeight))) in tree
              && tree[Location(at, Render(ConsensusPath(cid, x.selfHeight)))] == ConsensusV(ProxyCons(x.self))
  {
    hide Run, Alone, KeeperKey, Render, Apart, Upheld, Vouched, SelfClient, ChannelOk, PacketOk;
    UpstreamIsOk(c, ws, acts, n, u, p);
    assert ConnectionOk(c, ws[n].k.store, ws[n].past, u, p, id);
    end := GetConnection(ws[n].k.store, u, p, id).value;
    x :| Closes(c, ws[n].past, u, p, end, x);
    var d, at, cid := x.tracker, Merkle(end.counterparty.prefix), end.counterparty.client;
    if d.Plain? {
      PlainVouched(c.oracle, d.chain, d.latest, x.dcons, at, ClientClaim(cid, x.pcs));
      PlainVouched(c.oracle, d.chain, d.latest, x.dcons, at, ConsensusClaim(cid, x.selfHeight, ProxyCons(x.self)));
    }
  }
}
