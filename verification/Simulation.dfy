/** Header updates: the Proxy client over wrapped consensus states behaves, header by header, as the
    client it wraps would over the unwrapped ones. */
module Simulation {
  import opened Options
  import opened Messages
  import opened Paths
  import opened Wire
  import opened Clients
  import opened Completeness

  /** A header, and the block time at which it arrives. */
  datatype Header = Header(height: Height, content: bytes, now: nat)

  /** What accepting a header yields: new states, the keys the client itself removed (expired consensus
      states among them), and the metadata it wrote. */
  datatype Update = Update(client: ClientState, cons: ConsensusState, removed: set<string>, metadata: Store)

  /** A plain client's own rules lie outside this repository: whether it is active (not frozen, not
      expired) at a time, and what it does with a header. */
  datatype Rules = Rules(active: (ClientState, Store, nat) -> bool, check: (ClientState, Store, Header) -> Option<Update>)

  /** It writes metadata through the store, never a consensus state: those the caller stores. */
  ghost predicate WritesMetadataOnly(rules: Rules) {
    forall cs, store, hdr, k :: rules.check(cs, store, hdr).Some? && k in rules.check(cs, store, hdr).value.metadata ==>
                                  !IsConsensusKey(k)
  }

  /** Status == Active. */
  predicate Active(rules: Rules, cs: ClientState, store: Store, now: nat) {
    match cs
    case Plain(_, _) => rules.active(cs, store, now)
    case Proxy(inner, _, _, _) => Active(rules, inner, Extract(store), now)
    case MultiV(underlying, _) => Active(rules, underlying, store, now)
  }

  /** CheckHeaderAndUpdateState. */
  function CheckHeader(rules: Rules, cs: ClientState, store: Store, hdr: Header): Option<Update> {
    match cs
    case Plain(_, _) => rules.check(cs, store, hdr)
    case Proxy(inner, _, _, _) =>
      var u :- CheckHeader(rules, inner, Extract(store), hdr);
      Some(u.(client := cs.(inner := u.client), cons := ProxyCons(u.cons)))
    case MultiV(underlying, _) =>
      var u :- CheckHeader(rules, underlying, store, hdr);
      Some(u.(client := cs.(underlying := u.client)))
  }

  /** A client in use: its state, and its store without the entry for that state. */
  datatype Tracker = Tracker(client: ClientState, store: Store)

  /** UpdateClient of the IBC host: only an active client is asked; on success the consensus state goes
      in at the header's height. */
  function Advance(rules: Rules, t: Tracker, hdr: Header): Option<Tracker> {
    if !Active(rules, t.client, t.store, hdr.now) then None else
    var u :- CheckHeader(rules, t.client, t.store, hdr);
    Some(Tracker(u.client, (t.store - u.removed + u.metadata)[ConsensusStateKey(hdr.height) := ConsensusV(u.cons)]))
  }

  /** The headers in order; a refused one changes nothing. */
  function RunHeaders(rules: Rules, t: Tracker, hdrs: seq<Header>): Tracker
    decreases |hdrs|
  {
    if hdrs == [] then t else
    var next := Advance(rules, t, hdrs[0]);
    RunHeaders(rules, if next.None? then t else next.value, hdrs[1..])
  }

  /** Which headers were accepted. */
  function Accepted(rules: Rules, t: Tracker, hdrs: seq<Header>): seq<bool>
    decreases |hdrs|
  {
    if hdrs == [] then [] else
    var next := Advance(rules, t, hdrs[0]);
    [next.Some?] + Accepted(rules, if next.None? then t else next.value, hdrs[1..])
  }

  datatype Wrapping = Wrapping(upstream: string, proxyPrefix: string, ibcPrefix: string)

  /** The wrapped client sees what the inner one sees, through the extractor. */
  predicate Simulates(w: Wrapping, outer: Tracker, inner: Tracker) {
    && outer.client == Proxy(inner.client, w.upstream, w.proxyPrefix, w.ibcPrefix)
    && Extract(outer.store) == inner.store
  }

  lemma {:induction false} MetadataOnly(rules: Rules, cs: ClientState, store: Store, hdr: Header)
    requires WritesMetadataOnly(rules) && CheckHeader(rules, cs, store, hdr).Some?
    ensures forall k <- CheckHeader(rules, cs, store, hdr).value.metadata :: !IsConsensusKey(k)
    decreases cs
  {
    hide IsConsensusKey, Extract;
    match cs {
      case Plain(_, _) =>
      case Proxy(inner, _, _, _) => MetadataOnly(rules, inner, Extract(store), hdr);
      case MultiV(underlying, _) => MetadataOnly(rules, underlying, store, hdr);
    }
  }

  /** Unwrapping commutes with removing and storing: keys of any kind go, metadata passes as it is, and
      a wrapped consensus state is stored as its content. */
  lemma ExtractAfterUpdate(store: Store, removed: set<string>, metadata: Store, h: Height, c: ConsensusState)
    requires forall k <- metadata :: !IsConsensusKey(k)
    ensures Extract((store - removed + metadata)[ConsensusStateKey(h) := ConsensusV(ProxyCons(c))])
            == (Extract(store) - removed + metadata)[ConsensusStateKey(h) := ConsensusV(c)]
  {
    hide IsConsensusKey, ConsensusStateKey;
    ConsensusKeyMatches(h);
  }

  lemma AdvanceSimulates(rules: Rules, w: Wrapping, outer: Tracker, inner: Tracker, hdr: Header)
    requires WritesMetadataOnly(rules) && Simulates(w, outer, inner)
    ensures Advance(rules, outer, hdr).Some? <==> Advance(rules, inner, hdr).Some?
    ensures Advance(rules, outer, hdr).Some? ==>
              Simulates(w, Advance(rules, outer, hdr).value, Advance(rules, inner, hdr).value)
  {
    hide Extract, IsConsensusKey, ConsensusStateKey;
    var u := CheckHeader(rules, inner.client, inner.store, hdr);
    if u.Some? {
      MetadataOnly(rules, inner.client, inner.store, hdr);
      ExtractAfterUpdate(outer.store, u.value.removed, u.value.metadata, hdr.height, u.value.cons);
    }
  }

  /** For every sequence of headers: the same are accepted, and the two clients stay related, ... */
  lemma {:induction false} WrapperSimulation(rules: Rules, w: Wrapping, outer: Tracker, inner: Tracker, hdrs: seq<Header>)
    requires WritesMetadataOnly(rules) && Simulates(w, outer, inner)
    ensures Accepted(rules, outer, hdrs) == Accepted(rules, inner, hdrs)
    ensures Simulates(w, RunHeaders(rules, outer, hdrs), RunHeaders(rules, inner, hdrs))
    decreases |hdrs|
  {
    hide Advance, Simulates;
    if hdrs != [] {
      AdvanceSimulates(rules, w, outer, inner, hdrs[0]);
      var outer', inner' := Advance(rules, outer, hdrs[0]), Advance(rules, inner, hdrs[0]);
      WrapperSimulation(rules, w, if outer'.None? then outer else outer'.value,
                        if inner'.None? then inner else inner'.value, hdrs[1..]);
    }
  }

  /** ... metadata beside the consensus states, and all other keys outside them, read the same, ... */
  lemma MetadataReadsSame(rules: Rules, w: Wrapping, outer: Tracker, inner: Tracker, hdrs: seq<Header>, key: string)
    requires WritesMetadataOnly(rules) && Simulates(w, outer, inner)
    requires !("consensusStates/" <= key) || exists h, s :: key == ConsensusStateKey(h) + "/" + s
    ensures var x, y := RunHeaders(rules, outer, hdrs).store, RunHeaders(rules, inner, hdrs).store;
            (key in x <==> key in y) && (key in x ==> x[key] == y[key])
  {
    hide ConsensusStateKey, IsConsensusKey, RunHeaders;
    WrapperSimulation(rules, w, outer, inner, hdrs);
    var x := RunHeaders(rules, outer, hdrs).store;
    if key in x { MetadataPasses(x, key); }
  }

  /** ... so that after any of them the Proxy client has the inner client's latest height and status, and
      verifies a claim exactly when the inner client verifies it under the prefixed path. */
  lemma WrapperAnswers(rules: Rules, w: Wrapping, outer: Tracker, inner: Tracker, hdrs: seq<Header>, o: Oracle,
                       now: nat, height: Height, prefix: Prefix, claim: Claim, proof: bytes)
    requires WritesMetadataOnly(rules) && Simulates(w, outer, inner)
    ensures var x, y := RunHeaders(rules, outer, hdrs), RunHeaders(rules, inner, hdrs);
            && Latest(x.client) == Latest(y.client)
            && (Active(rules, x.client, x.store, now) <==> Active(rules, y.client, y.store, now))
            && (Verify(o, x.client, x.store, height, prefix, claim, proof)
                <==> Verify(o, y.client, y.store, height, NewPrefix(w.proxyPrefix, prefix, w.upstream), claim, proof))
  {
    hide Extract, RunHeaders;
    WrapperSimulation(rules, w, outer, inner, hdrs);
  }

  /** A MultiV client around a client, over the same store. */
  predicate SameUnder(depth: uint32, outer: Tracker, inner: Tracker) {
    outer.client == MultiV(inner.client, depth) && outer.store == inner.store
  }

  /** Wrapped in a MultiV client, a client accepts the same headers, keeps the same store, and has the same
      height and status: the wrapper only goes along. */
  lemma {:induction false} MultiVTransparent(rules: Rules, depth: uint32, outer: Tracker, inner: Tracker, hdrs: seq<Header>, now: nat)
    requires SameUnder(depth, outer, inner)
    ensures Accepted(rules, outer, hdrs) == Accepted(rules, inner, hdrs)
    ensures var x, y := RunHeaders(rules, outer, hdrs), RunHeaders(rules, inner, hdrs);
            && SameUnder(depth, x, y) && Latest(x.client) == Latest(y.client)
            && (Active(rules, x.client, x.store, now) <==> Active(rules, y.client, y.store, now))
    decreases |hdrs|
  {
    hide ConsensusStateKey;
    if hdrs != [] {
      var outer', inner' := Advance(rules, outer, hdrs[0]), Advance(rules, inner, hdrs[0]);
      assert outer'.Some? <==> inner'.Some?;
      MultiVTransparent(rules, depth, if outer'.None? then outer else outer'.value,
                        if inner'.None? then inner else inner'.value, hdrs[1..], now);
    }
  }
}
