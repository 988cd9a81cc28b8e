/** Which message changes which entry, and when the entries of an upstream are left alone. */
module Isolation {
  import opened Wire
  import opened Messages
  import opened Paths
  import opened Clients
  import opened Soundness
  import opened Handlers
  import opened Writes
  import opened Worlds
  import opened Invariants

  // ---- what a message writes ----

  /** The claim is the one that a message of this kind and content is about. */
  predicate Carries(c: Config, m: Msg, claim: Claim) {
    match claim
    case ClientClaim(id, state) =>
      || (m.ProxyClientState? && id == m.counterparty && state == m.client)
      || ((m.ConnOpenTry? || m.ConnOpenAck?) && id == m.h.connectionEnd.client && state == m.h.downstreamClient)
    case ConsensusClaim(id, h, cons) =>
      || (m.ProxyClientState? && id == m.counterparty && h == m.consensusHeight && cons == m.cons)
      || ((m.ConnOpenTry? || m.ConnOpenAck?) && id == m.h.connectionEnd.client && h == m.h.consensusHeight
          && cons == m.h.downstreamCons)
    case ConnectionClaim(id, _) => NamesConnection(m, id)
    case ChannelClaim(port, channel, _) => NamesChannel(m, port, channel)
    case CommitmentClaim(port, channel, n, commitment) =>
      && m.RecvPacket? && port == m.packet.sourcePort && channel == m.packet.sourceChannel
      && n == m.packet.sequence && commitment == c.commitPacket(m.packet)
    case AckClaim(port, channel, n, ack) =>
      && m.AcknowledgePacket? && port == m.packet.destPort && channel == m.packet.destChannel
      && n == m.packet.sequence && ack == m.ack
  }

  lemma ConnectionsCarry(c: Config, k: State, m: Msg)
    requires m.ProxyClientState? || m.ConnOpenTry? || m.ConnOpenAck? || m.ConnOpenConfirm? || m.ConnOpenFinalize?
    ensures forall claim <- Handle(c, k, m).written :: Carries(c, m, claim)
  {
    hide Accepts, GetConnection, ValidateSelfClient, DownstreamTracksProxy, Upstream;
  }

  lemma ChannelsCarry(c: Config, k: State, m: Msg)
    requires m.ChanOpenTry? || m.ChanOpenAck? || m.ChanOpenConfirm? || m.ChanOpenFinalize? || m.RecvPacket? || m.AcknowledgePacket?
    ensures forall claim <- Handle(c, k, m).written :: Carries(c, m, claim)
  {
    hide Accepts, GetConnection, GetChannel, OrderSupported, ChannelEnd, Upstream;
  }

  lemma HandleCarries(c: Config, k: State, m: Msg)
    ensures forall claim <- Handle(c, k, m).written :: Carries(c, m, claim)
  {
    hide Handle, Carries;
    if m.ProxyClientState? || m.ConnOpenTry? || m.ConnOpenAck? || m.ConnOpenConfirm? || m.ConnOpenFinalize? {
      ConnectionsCarry(c, k, m);
    } else {
      ChannelsCarry(c, k, m);
    }
  }

  lemma {:induction false} WritesChange(o: Oracle, store: Store, u: string, p: string, claims: seq<Claim>, key: string)
    ensures (forall claim <- claims :: KeeperKey(p, u, PathOf(claim)) != key) ==>
              var after := Write(o, store, u, p, claims);
              (key in after <==> key in store) && (key in store ==> after[key] == store[key])
    ensures (exists claim <- claims :: KeeperKey(p, u, PathOf(claim)) == key) ==>
              var after := Write(o, store, u, p, claims);
              key in after && exists claim <- claims :: KeeperKey(p, u, PathOf(claim)) == key && after[key] == ValueOf(o, claim)
    decreases |claims|
  {
    hide KeeperKey, PathOf, ValueOf;
    if claims != [] {
      var n := |claims| - 1;
      WritesChange(o, store, u, p, claims[..n], key);
      assert claims == claims[..n] + [claims[n]];
    }
  }

  /** What the message is for, as opposed to what it stores on the way. */
  predicate Serves(c: Config, m: Msg, claim: Claim) {
    && Carries(c, m, claim)
    && match m
       case ProxyClientState(_, _, _, _, _, _, _, _, _) => claim.ConsensusClaim?
       case ConnOpenTry(h) => claim == ConnectionClaim(h.connection, h.connectionEnd)
       case ConnOpenAck(h) => claim == ConnectionClaim(h.connection, h.connectionEnd)
       case _ => true
  }

  lemma HandleServes(c: Config, k: State, m: Msg)
    requires Handle(c, k, m).ok
    ensures Handle(c, k, m).written != [] && Serves(c, m, Handle(c, k, m).written[|Handle(c, k, m).written| - 1])
  {
    hide Accepts, GetConnection, GetChannel, OrderSupported, ValidateSelfClient, DownstreamTracksProxy, ChannelEnd, Upstream;
  }

  /** What a caller learns from success: the claim the message is for is accepted by the upstream's
      client and stored under its key. */
  lemma SuccessIsStored(c: Config, k: State, m: Msg) returns (claim: Claim)
    requires Handle(c, k, m).ok
    ensures Serves(c, m, claim) && Verified(c, k, Upstream(m), UpstreamPrefix(m), claim)
    ensures var key := KeeperKey(UpstreamPrefix(m), Upstream(m), PathOf(claim));
            key in StoreAfter(c, k, m) && StoreAfter(c, k, m)[key] == ValueOf(c.oracle, claim)
  {
    hide Handle, Accepts, Permits, KeeperKey, PathOf, ValueOf, Upstream, UpstreamPrefix, Serves;
    HandleServes(c, k, m);
    HandleStepByStep(c, k, m);
    var claims := Handle(c, k, m).written;
    claim := claims[|claims| - 1];
    var between := After(c, k, m, claims[..|claims| - 1]);
    var height, proof :| Accepts(c, between, Upstream(m), UpstreamPrefix(m), height, claim, proof);
    AcceptedBefore(c, k, between, Upstream(m), UpstreamPrefix(m), height, claim, proof);
  }

  lemma AcceptedBefore(c: Config, k: State, between: State, u: string, p: string, height: Height, claim: Claim, proof: bytes)
    requires between == k.(store := between.store) && Accepts(c, between, u, p, height, claim, proof)
    ensures Accepts(c, k, u, p, height, claim, proof)
  {
    hide Verify;
  }

  predicate SameEntry(store: Store, store': Store, key: string) {
    (key in store <==> key in store') && (key in store ==> store[key] == store'[key])
  }

  /** Isolation: a message about one upstream leaves every entry of an upstream apart from it as it is,
      present or absent. */
  lemma OthersUntouched(c: Config, w: World, a: Action, w': World, u: string, p: string, path: Path)
    requires Step(c, w, a, w') && a.Deliver? && Apart(Upstream(a.m), UpstreamPrefix(a.m), u, p)
    ensures SameEntry(w.k.store, w'.k.store, KeeperKey(p, u, path))
  {
    hide Handle, KeeperKey, PathOf, ValueOf, Upstream, UpstreamPrefix, Write;
    WritesChange(c.oracle, w.k.store, Upstream(a.m), UpstreamPrefix(a.m), Handle(c, w.k, a.m).written, KeeperKey(p, u, path));
  }

  /** And an entry of any kind changes only by a message about its upstream, to the value of a claim that
      the message carries under the same path. */
  lemma EntryMoves(c: Config, w: World, a: Action, w': World, u: string, p: string, path: Path) returns (claim: Claim)
    requires Step(c, w, a, w') && StepAlone(c, w, a, u, p)
    requires !SameEntry(w.k.store, w'.k.store, KeeperKey(p, u, path))
    ensures a.Deliver? && Upstream(a.m) == u && UpstreamPrefix(a.m) == p
    ensures Carries(c, a.m, claim) && Render(PathOf(claim)) == Render(path)
    ensures KeeperKey(p, u, path) in w'.k.store && w'.k.store[KeeperKey(p, u, path)] == ValueOf(c.oracle, claim)
  {
    hide Handle, KeeperKey, PathOf, ValueOf, Upstream, UpstreamPrefix, Write, Render, Apart, Carries, InHistory, Grows, Now;
    var key, claims, mu, mp := KeeperKey(p, u, path), Handle(c, w.k, a.m).written, Upstream(a.m), UpstreamPrefix(a.m);
    WritesChange(c.oracle, w.k.store, mu, mp, claims, key);
    claim :| claim in claims && KeeperKey(mp, mu, PathOf(claim)) == key && w'.k.store[key] == ValueOf(c.oracle, claim);
    HandleCarries(c, w.k, a.m);
    KeysMeet(mp, mu, PathOf(claim), p, u, path);
  }

  // ---- OPEN channels ----

  lemma TryOrAckStores(c: Config, k: State, m: Msg)
    requires (m.ChanOpenTry? || m.ChanOpenAck?) && Handle(c, k, m).ok
    ensures exists end: Channel :: end.stage != OPEN && Handle(c, k, m).written == [ChannelClaim(m.port, m.channel, end)]
  {
    hide Accepts, GetConnection, OrderSupported;
    var claim := Handle(c, k, m).written[0];
    assert claim.channelEnd.stage != OPEN && Handle(c, k, m).written == [ChannelClaim(m.port, m.channel, claim.channelEnd)];
  }

  /** Exactly when an OPEN channel does not stay as it is: when a Try or an Ack for it succeeds. */
  lemma OpenChannelChangesIff(c: Config, w: World, a: Action, w': World, u: string, p: string, port: string, channel: string)
    requires Step(c, w, a, w') && StepAlone(c, w, a, u, p)
    requires GetChannel(w.k.store, u, p, port, channel).Found? && GetChannel(w.k.store, u, p, port, channel).value.stage == OPEN
    ensures GetChannel(w'.k.store, u, p, port, channel) != GetChannel(w.k.store, u, p, port, channel)
            <==> && a.Deliver? && (a.m.ChanOpenTry? || a.m.ChanOpenAck?)
                 && Upstream(a.m) == u && UpstreamPrefix(a.m) == p && NamesChannel(a.m, port, channel)
                 && Handle(c, w.k, a.m).ok
  {
    hide GetChannel, Handle, Separate, InHistory, Grows, Now, Upstream, UpstreamPrefix, ChannelEnd, KeeperKey;
    StepMovesChannel(c, w, a, w', u, p, port, channel);
    if && a.Deliver? && (a.m.ChanOpenTry? || a.m.ChanOpenAck?) && Upstream(a.m) == u && UpstreamPrefix(a.m) == p
       && NamesChannel(a.m, port, channel)
    {
      if Handle(c, w.k, a.m).ok {
        TryOrAckStores(c, w.k, a.m);
        var end: Channel :| end.stage != OPEN && Handle(c, w.k, a.m).written == [ChannelClaim(a.m.port, a.m.channel, end)];
        var claim := ChannelClaim(a.m.port, a.m.channel, end);
        assert Write(c.oracle, w.k.store, u, p, [claim]) == Put(c.oracle, w.k.store, u, p, claim) by {
          assert [claim][..0] == [];
        }
        assert w'.k.store == Put(c.oracle, w.k.store, u, p, claim);
        ChannelAfter(c.oracle, w.k.store, u, p, ChannelClaim(a.m.port, a.m.channel, end), u, p, port, channel);
      } else {
        FailedChannel(c, w.k, a.m);
      }
    }
  }

  lemma FailedChannel(c: Config, k: State, m: Msg)
    requires (m.ChanOpenTry? || m.ChanOpenAck?) && !Handle(c, k, m).ok
    ensures After(c, k, m, Handle(c, k, m).written) == k
  {
    hide Accepts, GetConnection, OrderSupported;
  }

  // ---- when an upstream is alone among its entries ----

  lemma {:induction false} FirstVerified(c: Config, k: State, m: Msg, claims: seq<Claim>)
    requires claims != [] && StepByStep(c, k, m, claims)
    ensures Verified(c, k, Upstream(m), UpstreamPrefix(m), claims[0])
    decreases |claims|
  {
    hide Accepts, Permits, Upstream, UpstreamPrefix;
    var n := |claims| - 1;
    if n == 0 {
      assert claims[..0] == [];
      NoWrites(c, k, m);
    } else {
      FirstVerified(c, k, m, claims[..n]);
    }
  }

  /** Whoever writes has a client on this chain, which accepted something. */
  lemma WriterVerified(c: Config, w: World, a: Action) returns (height: Height, claim: Claim, proof: bytes)
    requires Writing(c, w, a)
    ensures Accepts(c, w.k, Upstream(a.m), UpstreamPrefix(a.m), height, claim, proof)
  {
    hide Handle, Accepts, StepByStep, Upstream, UpstreamPrefix;
    HandleStepByStep(c, w.k, a.m);
    var claims := Handle(c, w.k, a.m).written;
    FirstVerified(c, w.k, a.m, claims);
    claim := claims[0];
    height, proof :| Accepts(c, w.k, Upstream(a.m), UpstreamPrefix(a.m), height, claim, proof);
  }

  /** Client ids have no '/', as the host sees to; and what is stored about u is stored under prefixes
      without '/'. Messages about other upstreams, and messages that store nothing, may hold anything. */
  lemma SlashFreeAlone(c: Config, ws: seq<World>, acts: seq<Action>, u: string, p: string)
    requires |acts| <= |ws| && SlashFree(u) && SlashFree(p)
    requires forall i :: 0 <= i < |acts| ==> TidyClients(ws[i].k)
    requires forall i :: 0 <= i < |acts| ==>
               Writing(c, ws[i], acts[i]) && Upstream(acts[i].m) == u ==> SlashFree(UpstreamPrefix(acts[i].m))
    ensures Alone(c, ws, acts, u, p)
  {
    hide Handle, SlashFree, Verify, Upstream, UpstreamPrefix, Separate;
    forall i | 0 <= i < |acts| && Writing(c, ws[i], acts[i])
      ensures Separate(Upstream(acts[i].m), UpstreamPrefix(acts[i].m), u, p)
    {
      var height, claim, proof := WriterVerified(c, ws[i], acts[i]);
      SlashFreeSeparate(Upstream(acts[i].m), UpstreamPrefix(acts[i].m), u, p);
    }
  }

  ghost predicate TidyClients(k: State) {
    forall u <- k.clients :: SlashFree(u)
  }

  /** The prefix of whatever a plain client, or a MultiV client around one, vouches for is the name of a
      store of the tracked chain. */
  lemma {:induction false} DirectStoreName(o: Oracle, cs: ClientState, cons: ConsensusState, p: string, claim: Claim, ev: Evidence)
    returns (at: Location)
    requires Direct(cs) && Vouches(o, cs, cons, Merkle(p), claim, ev)
    ensures cons.PlainCons? && at in o.tree(cons.root) && at.store == p
    decreases cs
  {
    hide Render;
    match ev {
      case InTree => at := Location(p, Render(PathOf(claim)));
      case Inside(e) => at := DirectStoreName(o, cs.underlying, cons, p, claim, e);
      case Chain(head, _, _) =>
        at := DirectStoreName(o, cs.underlying, cons, p, ClientClaim(claim.client, head.link.client), head.client);
    }
  }

  /** So it is enough that the upstream is tracked directly and has no store with a '/' in its name. */
  lemma PlainStoresAlone(c: Config, ws: seq<World>, acts: seq<Action>, u: string, p: string)
    requires Sound(c.oracle) && Run(c, ws, acts) && SlashFree(u) && SlashFree(p)
    requires forall i :: 0 <= i < |acts| ==> TidyClients(ws[i].k)
    requires forall w <- ws, t <- w.past.clients :: t.client == u ==> Direct(t.state)
    requires forall w <- ws :: u in w.upstream ==> PlainStores(c.oracle, w.upstream[u])
    ensures Alone(c, ws, acts, u, p)
  {
    hide Handle, SlashFree, Accepts, Upstream, UpstreamPrefix, Step, Start, Direct, PlainStores, Vouches;
    forall i | 0 <= i < |acts| && Writing(c, ws[i], acts[i]) && Upstream(acts[i].m) == u
      ensures SlashFree(UpstreamPrefix(acts[i].m))
    {
      WriterIsPlain(c, ws, acts, i, u);
    }
    SlashFreeAlone(c, ws, acts, u, p);
  }

  ghost predicate PlainStores(o: Oracle, history: seq<Root>) {
    forall r <- history, at <- o.tree(r) :: SlashFree(at.store)
  }

  lemma WriterIsPlain(c: Config, ws: seq<World>, acts: seq<Action>, i: nat, u: string)
    requires Sound(c.oracle) && Run(c, ws, acts) && i < |acts| && Writing(c, ws[i], acts[i]) && Upstream(acts[i].m) == u
    requires forall t <- ws[i].past.clients :: t.client == u ==> Direct(t.state)
    requires u in ws[i].upstream ==> PlainStores(c.oracle, ws[i].upstream[u])
    ensures SlashFree(UpstreamPrefix(acts[i].m))
  {
    hide Handle, SlashFree, Accepts, Upstream, UpstreamPrefix, Step, Start, Direct, Vouches, TrackedNow, Good;
    var p := UpstreamPrefix(acts[i].m);
    var height, claim, proof := WriterVerified(c, ws[i], acts[i]);
    RunIsGood(c, ws, acts, i, Everyone);
    VerifiedUpheld(c, ws[i].k, ws[i].past, u, p, height, claim, proof);
    var t :| t in ws[i].past.clients && t.client == u && Vouched(c.oracle, t.state, t.cons, Merkle(p), claim);
    var ev :| Vouches(c.oracle, t.state, t.cons, Merkle(p), claim, ev);
    var at := DirectStoreName(c.oracle, t.state, t.cons, p, claim, ev);
  }
}
