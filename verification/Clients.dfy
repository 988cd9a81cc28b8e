/** Light clients as a recursive datatype, and what each of them accepts.

    - Plain: a client that checks membership proofs against the root of a stored consensus state.
      Its code (Tendermint, ICS-23) lies outside this repository and enters as an Oracle.
    - Proxy (xx-proxy): runs its inner client over a store that unwraps consensus states, on a path
      prefixed with the upstream client id and the upstream prefix.
    - MultiV (xx-multiv): for clients and consensus states, walks a proof of several hops. */
module Clients {
  import opened Options
  import opened Wire
  import opened Messages
  import opened Paths
  import opened Shrinking

  // ---- what is stored ----

  datatype Version = Version(identifier: string, features: seq<string>)
  datatype Stage = UNINITIALIZED | INIT | TRYOPEN | OPEN | CLOSED
  datatype ConnectionCounterparty = ConnectionCounterparty(client: string, connection: string, prefix: string)
  datatype ConnectionEnd = ConnectionEnd(
    client: string, versions: seq<Version>, stage: Stage, counterparty: ConnectionCounterparty, delay: uint64)
  datatype Order = NONE | UNORDERED | ORDERED
  datatype ChannelCounterparty = ChannelCounterparty(port: string, channel: string)
  datatype Channel = Channel(
    stage: Stage, order: Order, counterparty: ChannelCounterparty, hops: seq<string>, version: string)

  type Root = nat

  datatype ClientState =
    | Plain(chain: string, latest: Height)
    | Proxy(inner: ClientState, upstream: string, proxyPrefix: string, ibcPrefix: string)
    | MultiV(underlying: ClientState, depth: uint32)

  datatype ConsensusState =
    | PlainCons(root: Root, timestamp: nat)
    | ProxyCons(inner: ConsensusState)

  /** Corrupt stands for a read that panics. */
  datatype Value =
    | ClientV(client: ClientState)
    | ConsensusV(cons: ConsensusState)
    | ConnectionV(connection: ConnectionEnd)
    | ChannelV(channel: Channel)
    | BytesV(bytes: bytes)
    | Corrupt

  type Store = map<string, Value>

  // ---- where it is stored ----

  /** exported.Prefix: a MerklePrefix, or the MultiPrefix that newPrefix builds. */
  datatype Prefix = Merkle(key: string) | Multi(base: Prefix, path: string)

  function PrefixBytes(p: Prefix): string {
    match p
    case Merkle(key) => key
    case Multi(base, path) => PrefixBytes(base) + "/" + path
  }

  datatype Location = Location(store: string, key: string)

  /** The path under a prefix, as README.md:73 lays it out. */
  function Locate(p: Prefix, key: string): Location {
    match p
    case Merkle(store) => Location(store, key)
    case Multi(base, path) => Locate(base, path + "/" + key)
  }

  function NewPrefix(proxyPrefix: string, upstreamPrefix: Prefix, upstream: string): Prefix {
    Multi(Merkle(proxyPrefix), upstream + "/" + PrefixBytes(upstreamPrefix))
  }

  /** A Proxy client behind a Proxy client: the paths of the two are nested, each store's inside the one
      of the proxy that is asked first. */
  lemma NestedLocation(outer: string, u: string, inner: string, u': string, p: string, key: string)
    ensures Locate(NewPrefix(outer, NewPrefix(inner, Merkle(p), u'), u), key)
            == Location(outer, u + "/" + (inner + "/" + (u' + "/" + p)) + "/" + key)
  {
    assert PrefixBytes(Merkle(inner)) == inner && PrefixBytes(Merkle(p)) == p;
    assert PrefixBytes(NewPrefix(inner, Merkle(p), u')) == inner + "/" + (u' + "/" + p);
  }

  // ---- what is claimed ----

  datatype Claim =
    | ClientClaim(client: string, state: ClientState)
    | ConsensusClaim(client: string, height: Height, cons: ConsensusState)
    | ConnectionClaim(connection: string, connectionEnd: ConnectionEnd)
    | ChannelClaim(port: string, channel: string, channelEnd: Channel)
    | CommitmentClaim(port: string, channel: string, sequence: uint64, commitment: bytes)
    | AckClaim(port: string, channel: string, sequence: uint64, ack: bytes)

  predicate AboutClient(c: Claim) {
    c.ClientClaim? || c.ConsensusClaim?
  }

  function PathOf(c: Claim): Path {
    match c
    case ClientClaim(id, _) => ClientPath(id)
    case ConsensusClaim(id, h, _) => ConsensusPath(id, h)
    case ConnectionClaim(id, _) => ConnectionPath(id)
    case ChannelClaim(port, channel, _) => ChannelPath(port, channel)
    case CommitmentClaim(port, channel, n, _) => CommitmentPath(port, channel, n)
    case AckClaim(port, channel, n, _) => AckPath(port, channel, n)
  }

  /** The parts that live outside this repository.
      member: a membership proof for a value at a place under a root is accepted;
      tree: what a root commits to; prove: the proof an honest full node gives;
      commitAck: channeltypes.CommitAcknowledgement;
      pack and unpack: client and consensus states as Any. */
  datatype Oracle = Oracle(
    member: (Root, Location, bytes, Value) -> bool,
    tree: Root -> map<Location, Value>,
    prove: (Root, Location) -> bytes,
    commitAck: bytes -> bytes,
    packClient: ClientState -> Any,
    unpackClient: Any -> Option<ClientState>,
    packCons: ConsensusState -> Any,
    unpackCons: Any -> Option<ConsensusState>)

  /** An accepted proof is about something that is there. */
  ghost predicate Sound(o: Oracle) {
    forall r, at, pf, v :: o.member(r, at, pf, v) ==> at in o.tree(r) && o.tree(r)[at] == v
  }

  /** What is there can be proved, and packed states come back. */
  ghost predicate Complete(o: Oracle) {
    && (forall r, at :: at in o.tree(r) ==> o.member(r, at, o.prove(r, at), o.tree(r)[at]))
    && (forall c :: o.unpackClient(o.packClient(c)) == Some(c))
    && (forall k :: o.unpackCons(o.packCons(k)) == Some(k))
  }

  function ValueOf(o: Oracle, c: Claim): Value {
    match c
    case ClientClaim(_, state) => ClientV(state)
    case ConsensusClaim(_, _, cons) => ConsensusV(cons)
    case ConnectionClaim(_, end) => ConnectionV(end)
    case ChannelClaim(_, _, end) => ChannelV(end)
    case CommitmentClaim(_, _, _, commitment) => BytesV(commitment)
    case AckClaim(_, _, _, ack) => BytesV(o.commitAck(ack))
  }

  // ---- stores ----

  const CONSENSUS_PREFIX := "consensusStates/"

  /** The regular expression ^consensusStates/\d+-\d+$. */
  predicate IsConsensusKey(key: string) {
    && CONSENSUS_PREFIX <= key
    && exists i :: |CONSENSUS_PREFIX| <= i < |key| && key[i] == '-'
                   && IsDigits(key[|CONSENSUS_PREFIX|..i]) && IsDigits(key[i + 1..])
  }

  lemma ConsensusKeyMatches(h: Height)
    ensures IsConsensusKey(ConsensusStateKey(h))
  {
    var key, i := ConsensusStateKey(h), |CONSENSUS_PREFIX| + |Decimal(h.revisionNumber)|;
    assert key[i] == '-';
    assert key[|CONSENSUS_PREFIX|..i] == Decimal(h.revisionNumber);
    assert key[i + 1..] == Decimal(h.revisionHeight);
  }

  predicate NamesHeight(key: string, number: string, height: string) {
    IsDigits(number) && IsDigits(height) && key == "consensusStates/" + number + "-" + height
  }

  lemma DashJoin(key: string, prefix: string, i: nat)
    requires prefix <= key && |prefix| <= i < |key| && key[i] == '-'
    ensures key == prefix + key[|prefix|..i] + "-" + key[i + 1..]
    ensures key[|prefix|..] == key[|prefix|..i] + "-" + key[i + 1..]
  {
  }

  lemma DashSplit(prefix: string, a: string, b: string)
    ensures var key, i := prefix + a + "-" + b, |prefix| + |a|;
            prefix <= key && key[i] == '-' && key[|prefix|..i] == a && key[i + 1..] == b
  {
  }

  /** The expression matches nothing else: two numbers with a dash between them, and then the end. */
  lemma ConsensusKeyIff(key: string)
    ensures IsConsensusKey(key) <==> exists a, b :: NamesHeight(key, a, b)
    ensures IsConsensusKey(key) ==> "consensusStates/" <= key && SlashFree(key[16..])
  {
    if IsConsensusKey(key) { MatchedForm(key); }
    if a, b :| NamesHeight(key, a, b) { FormMatched(key, a, b); }
  }

  lemma MatchedForm(key: string)
    requires IsConsensusKey(key)
    ensures exists a, b :: NamesHeight(key, a, b)
    ensures "consensusStates/" <= key && SlashFree(key[16..])
  {
    var i :| 16 <= i < |key| && key[i] == '-' && IsDigits(key[16..i]) && IsDigits(key[i + 1..]);
    var a, b := key[16..i], key[i + 1..];
    DashJoin(key, CONSENSUS_PREFIX, i);
    assert NamesHeight(key, a, b);
    DigitsSlashFree(a);
    DigitsSlashFree(b);
  }

  lemma FormMatched(key: string, a: string, b: string)
    requires NamesHeight(key, a, b)
    ensures IsConsensusKey(key)
  {
    DashSplit(CONSENSUS_PREFIX, a, b);
  }

  function Unwrap(v: Value): Value {
    if v.ConsensusV? && v.cons.ProxyCons? then ConsensusV(v.cons.inner) else Corrupt
  }

  /** What reads through proxyExtractorStore see: consensus states lose one wrapper, other keys
      (client state, metadata) pass unchanged. */
  function Extract(store: Store): Store {
    map k | k in store :: if IsConsensusKey(k) then Unwrap(store[k]) else store[k]
  }

  function ReadCons(store: Store, h: Height): Option<ConsensusState> {
    var k := ConsensusStateKey(h);
    if k in store && store[k].ConsensusV? then Some(store[k].cons) else None
  }

  /** makeMemStore: a store with one consensus state in it. */
  function MemStore(cons: ConsensusState, h: Height): Store {
    map[ConsensusStateKey(h) := ConsensusV(cons)]
  }

  lemma ExtractRead(store: Store, h: Height)
    ensures ReadCons(Extract(store), h) ==
            match ReadCons(store, h)
            case Some(ProxyCons(c)) => Some(c)
            case _ => None
  {
    ConsensusKeyMatches(h);
  }

  /** Metadata that a client keeps beside a consensus state, and whatever lies outside of them, reads
      through the extractor as it is. */
  lemma MetadataPasses(store: Store, key: string)
    requires key in store
    requires !("consensusStates/" <= key) || exists h, s :: key == ConsensusStateKey(h) + "/" + s
    ensures key in Extract(store) && Extract(store)[key] == store[key]
  {
    hide ConsensusStateKey, IsConsensusKey;
    ConsensusKeyIff(key);
    if h, s :| key == ConsensusStateKey(h) + "/" + s {
      KeyLength(h);
      assert key[|ConsensusStateKey(h)|] == '/';
      assert key[16..][|ConsensusStateKey(h)| - 16] == '/';
    }
  }

  lemma KeyLength(h: Height)
    ensures |ConsensusStateKey(h)| >= 16
  {
  }

  // ---- verification ----

  predicate HeightAtMost(g: Height, h: Height) {
    g.revisionNumber < h.revisionNumber
    || (g.revisionNumber == h.revisionNumber && g.revisionHeight <= h.revisionHeight)
  }

  /** How deep clients are wrapped. */
  function Nesting(cs: ClientState): nat {
    match cs
    case Plain(_, _) => 0
    case Proxy(inner, _, _, _) => 1 + Nesting(inner)
    case MultiV(underlying, _) => 1 + Nesting(underlying)
  }

  const MULTI_PROOF_URL := "/ibc.lightclients.multiv.v1.MultiProof"

  function Ascii(s: string): (r: bytes)
    ensures |r| == |s| && forall i :: 0 <= i < |s| ==> r[i] == s[i] as int % 256
  {
    seq(|s|, i requires 0 <= i < |s| => s[i] as int % 256)
  }

  predicate HoldsMultiProof(a: Any) {
    a.typeUrl == Ascii(MULTI_PROOF_URL)
  }

  function UnmarshalAny(bz: bytes): (r: Option<Any>)
    ensures r.Some? ==> Decode(AnyM(ZERO_ANY), bz) == Some(AnyM(r.value))
  {
    hide Apply, ReadField, Decode;
    var a :- Decode(AnyM(ZERO_ANY), bz);
    Some(a.any)
  }

  function UnmarshalMultiProof(bz: bytes): (r: Option<MultiProof>)
    ensures r.Some? ==> Decode(MultiProofM(ZERO_MULTI_PROOF), bz) == Some(MultiProofM(r.value))
  {
    hide Apply, ReadField, Decode;
    var m :- Decode(MultiProofM(ZERO_MULTI_PROOF), bz);
    Some(m.multi)
  }

  /** unmarshalProof: an Any that must hold a MultiProof. */
  function UnmarshalProof(bz: bytes): (r: Option<MultiProof>)
    ensures r.Some? ==> MultiProofBelow(r.value, |bz|)
  {
    hide UnmarshalAny, UnmarshalMultiProof, Decode, HoldsMultiProof, MultiProofBelow;
    var a :- UnmarshalAny(bz);
    if !HoldsMultiProof(a) then None else
    var m :- UnmarshalMultiProof(a.value);
    UnpackedBelow(bz, a, m);
    Some(m)
  }

  /** Exactly what is taken for a MultiProof: the decoded value of an Any with this type URL. */
  lemma UnmarshalProofIff(bz: bytes, mp: MultiProof)
    ensures UnmarshalProof(bz) == Some(mp)
            <==> exists a :: && Decode(AnyM(ZERO_ANY), bz) == Some(AnyM(a))
                             && a.typeUrl == Ascii("/ibc.lightclients.multiv.v1.MultiProof")
                             && Decode(MultiProofM(ZERO_MULTI_PROOF), a.value) == Some(MultiProofM(mp))
  {
    hide Decode, Ascii, Apply, ReadField;
  }

  /** The MultiProof is shorter than the Any it came in: an empty Any has the wrong type URL. */
  lemma UnpackedBelow(bz: bytes, a: Any, m: MultiProof)
    requires Decode(AnyM(ZERO_ANY), bz) == Some(AnyM(a)) && HoldsMultiProof(a)
    requires Decode(MultiProofM(ZERO_MULTI_PROOF), a.value) == Some(MultiProofM(m))
    ensures MultiProofBelow(m, |bz|)
  {
    hide Apply, ReadField, Decode, HoldsMultiProof;
    UrlNotEmpty(a);
    DecodeNothing(AnyM(ZERO_ANY));
    DecodeBelow(AnyM(ZERO_ANY), bz, |bz|);
    DecodeBelow(MultiProofM(ZERO_MULTI_PROOF), a.value, |bz|);
  }

  lemma UrlNotEmpty(a: Any)
    requires HoldsMultiProof(a)
    ensures a.typeUrl != []
  {
    assert |Ascii(MULTI_PROOF_URL)| > 0;
  }

  /** A proxy's client state and consensus state, both verified. */
  datatype TrustedState = TrustedState(client: ClientState, cons: ConsensusState)

  type Link = l: TrustedState | l.client.Proxy? && l.cons.ProxyCons?
    witness TrustedState(Proxy(Plain("", ZERO_HEIGHT), "", "", ""), ProxyCons(PlainCons(0, 0)))

  function UnpackProxyClient(o: Oracle, a: Option<Any>): (r: Option<ClientState>)
    ensures r.Some? ==> r.value.Proxy?
  {
    var any :- a;
    var c :- o.unpackClient(any);
    if c.Proxy? then Some(c) else None
  }

  function UnpackProxyCons(o: Oracle, a: Option<Any>): (r: Option<ConsensusState>)
    ensures r.Some? ==> r.value.ProxyCons?
  {
    var any :- a;
    var k :- o.unpackCons(any);
    if k.ProxyCons? then Some(k) else None
  }

  /** The Verify* functions of a client state: does `proof` show, against the consensus state stored
      for `height`, that the tracked chain holds the claim under `prefix`? */
  predicate Verify(o: Oracle, cs: ClientState, store: Store, height: Height, prefix: Prefix, claim: Claim, proof: bytes)
    decreases |proof|, 2 + Nesting(cs), 0
  {
    match cs
    case Plain(_, latest) =>
      && HeightAtMost(height, latest)
      && ReadCons(store, height).Some?
      && ReadCons(store, height).value.PlainCons?
      && o.member(ReadCons(store, height).value.root, Locate(prefix, Render(PathOf(claim))), proof, ValueOf(o, claim))
    case Proxy(inner, upstream, proxyPrefix, _) =>
      Verify(o, inner, Extract(store), height, NewPrefix(proxyPrefix, prefix, upstream), claim, proof)
    case MultiV(underlying, depth) =>
      if AboutClient(claim) then
        match UnmarshalProof(proof)
        case None => false
        case Some(mp) =>
          match VerifyProxyState(o, underlying, depth, store, height, prefix, claim.client, mp, |proof|)
          case None => false
          case Some(last) =>
            IBCVerify(o, last, mp.leaf.proofHeight, Retarget(claim, last.client.upstream), mp.leaf.proof)
      else Verify(o, underlying, store, height, prefix, claim, proof)
  }

  /** The same claim, about another client id. */
  function Retarget(c: Claim, client: string): (r: Claim)
    requires AboutClient(c)
    ensures AboutClient(r) && r.client == client
  {
    match c
    case ClientClaim(_, state) => ClientClaim(client, state)
    case ConsensusClaim(_, h, cons) => ConsensusClaim(client, h, cons)
  }

  /** IBCVerifyClientState and IBCVerifyClientConsensusState of a verified proxy: its inner client
      over a fresh store that holds the verified consensus state, at whatever height the proof
      names, under the proxy's own IBC prefix. */
  predicate IBCVerify(o: Oracle, via: Link, height: Height, claim: Claim, proof: bytes)
    decreases |proof|, 3 + Nesting(via.client), 0
  {
    Verify(o, via.client.inner, Extract(MemStore(via.cons, height)), height, Merkle(via.client.ibcPrefix), claim, proof)
  }

  /** Step 1 of verifyProxyState: the proxy's client and consensus states on the counterparty. */
  function VerifyHead(o: Oracle, underlying: ClientState, store: Store, height: Height, prefix: Prefix, client: string,
                      p: Proof, ghost n: nat): Option<Link>
    requires ProofBelow(p, n)
    decreases n, 0, 0
  {
    var c :- UnpackProxyClient(o, p.clientState);
    var k :- UnpackProxyCons(o, p.consensusState);
    if && Verify(o, underlying, store, height, prefix, ClientClaim(client, c), p.clientProof)
       && Verify(o, underlying, store, height, prefix, ConsensusClaim(client, p.consensusHeight, k), p.consensusProof)
    then Some(TrustedState(c, k)) else None
  }

  /** One turn of the loop: the next proxy's states, on the proxy verified last. */
  function VerifyBranch(o: Oracle, via: Link, p: Proof, ghost n: nat): Option<Link>
    requires ProofBelow(p, n)
    decreases n, 0, 0
  {
    var c :- UnpackProxyClient(o, p.clientState);
    var k :- UnpackProxyCons(o, p.consensusState);
    if && IBCVerify(o, via, p.proofHeight, ClientClaim(via.client.upstream, c), p.clientProof)
       && IBCVerify(o, via, p.proofHeight, ConsensusClaim(via.client.upstream, p.consensusHeight, k), p.consensusProof)
    then Some(TrustedState(c, k)) else None
  }

  /** The loop as a recursion: the link at the end of the branches. */
  function VerifyBranches(o: Oracle, via: Link, bs: seq<Proof>, ghost n: nat): Option<Link>
    requires forall b <- bs :: ProofBelow(b, n)
    decreases n, 1, |bs|
  {
    if bs == [] then Some(via) else
    var next :- VerifyBranch(o, via, bs[0], n);
    VerifyBranches(o, next, bs[1..], n)
  }

  function VerifyProxyState(o: Oracle, underlying: ClientState, depth: uint32, store: Store, height: Height, prefix: Prefix,
                            client: string, mp: MultiProof, ghost n: nat): Option<Link>
    requires MultiProofBelow(mp, n)
    decreases n, 1, |mp.branches| + 1
  {
    if |mp.branches| != depth || mp.head.proofHeight != height then None else
    var first :- VerifyHead(o, underlying, store, height, prefix, client, mp.head, n);
    VerifyBranches(o, first, mp.branches, n)
  }

  /** verifyProxyState as the source has it: a loop that replaces the trusted proxy state at every
      branch. It computes the recursion above. */
  method VerifyProxyStateLoop(o: Oracle, underlying: ClientState, depth: uint32, store: Store, height: Height,
                              prefix: Prefix, client: string, mp: MultiProof, ghost n: nat)
    returns (r: Option<Link>)
    requires MultiProofBelow(mp, n)
    ensures r == VerifyProxyState(o, underlying, depth, store, height, prefix, client, mp, n)
  {
    hide Verify, IBCVerify;
    if |mp.branches| != depth { return None; }
    var head, branches := mp.head, mp.branches;
    if head.proofHeight != height { return None; }

    var proxyClientState := UnpackProxyClient(o, head.clientState);
    if proxyClientState.None? { return None; }
    var byUnderlying := Verify(o, underlying, store, height, prefix, ClientClaim(client, proxyClientState.value), head.clientProof);
    if !byUnderlying { return None; }
    var proxyConsensusState := UnpackProxyCons(o, head.consensusState);
    if proxyConsensusState.None? { return None; }
    byUnderlying := Verify(o, underlying, store, height, prefix,
                           ConsensusClaim(client, head.consensusHeight, proxyConsensusState.value), head.consensusProof);
    if !byUnderlying { return None; }

    var trusted: Link := TrustedState(proxyClientState.value, proxyConsensusState.value);
    var i := 0;
    while i < |branches|
      invariant i <= |branches|
      invariant VerifyProxyState(o, underlying, depth, store, height, prefix, client, mp, n)
                == VerifyBranches(o, trusted, branches[i..], n)
    {
      var branch := branches[i];
      assert branches[i..][1..] == branches[i + 1..];
      var targetClientState := UnpackProxyClient(o, branch.clientState);
      if targetClientState.None? { return None; }
      var targetConsensusState := UnpackProxyCons(o, branch.consensusState);
      if targetConsensusState.None? { return None; }
      var id := trusted.client.upstream;
      var held := IBCVerify(o, trusted, branch.proofHeight, ClientClaim(id, targetClientState.value), branch.clientProof);
      if !held { return None; }
      held := IBCVerify(o, trusted, branch.proofHeight,
                        ConsensusClaim(id, branch.consensusHeight, targetConsensusState.value), branch.consensusProof);
      if !held { return None; }
      trusted := TrustedState(targetClientState.value, targetConsensusState.value);
      i := i + 1;
    }
    return Some(trusted);
  }
}
