/** The prover's side: from evidence to the bytes of a proof, and the proof that those bytes, encoded
    and decoded again, are accepted. */
module Completeness {
  import opened Options
  import opened Wire
  import opened Messages
  import opened Paths
  import opened Shrinking
  import opened RoundTrip
  import opened Clients
  import opened Soundness
  import Marshal

  /** GetLatestHeight: every wrapper asks the client it wraps. */
  function Latest(cs: ClientState): Height {
    match cs
    case Plain(_, latest) => latest
    case Proxy(inner, _, _, _) => Latest(inner)
    case MultiV(underlying, _) => Latest(underlying)
  }

  /** The bytes of a MultiProof inside an Any. */
  function Assemble(mp: MultiProof): bytes {
    EncodeAny(Any(Ascii(MULTI_PROOF_URL), EncodeMultiProof(mp)))
  }

  lemma AssembleRoundTrip(mp: MultiProof)
    requires |Assemble(mp)| <= MAX_INT
    ensures UnmarshalProof(Assemble(mp)) == Some(mp)
  {
    hide Decode, EncodeMultiProof, OptBytes, Ascii;
    var any := Any(Ascii(MULTI_PROOF_URL), EncodeMultiProof(mp));
    AnyRoundTrip(any);
    FieldSizes(2, any.value);
    MultiProofRoundTrip(mp);
  }

  /** makeMultiProof of testing/multiv.go: the branches are appended one by one, then the whole is
      marshaled. */
  method MakeMultiProof(head: Proof, branches: seq<Proof>, leaf: LeafProof) returns (bz: bytes)
    requires |EncodeMultiProof(MultiProof(head, branches, leaf))| <= MAX_INT
    ensures bz == Assemble(MultiProof(head, branches, leaf))
  {
    hide EncodeMultiProof, EncodeAny;
    var mp := ZERO_MULTI_PROOF.(head := head);
    var i := 0;
    while i < |branches|
      invariant i <= |branches|
      invariant mp == MultiProof(head, branches[..i], ZERO_LEAF)
    {
      mp := mp.(branches := mp.branches + [branches[i]]);
      i := i + 1;
    }
    mp := mp.(leaf := leaf);
    assert branches[..i] == branches;
    var value, n := Marshal.MarshalFresh(mp);
    bz := EncodeAny(Any(Ascii(MULTI_PROOF_URL), value[..]));
  }

  // ---- from evidence to bytes ----

  function Prove(o: Oracle, cs: ClientState, cons: ConsensusState, prefix: Prefix, claim: Claim, height: Height, ev: Evidence): bytes
    requires Vouches(o, cs, cons, prefix, claim, ev)
    decreases ev, 1
  {
    match ev
    case InTree => o.prove(cons.root, Locate(prefix, Render(PathOf(claim))))
    case Inside(e) =>
      if cs.Proxy?
      then Prove(o, cs.inner, cons.inner, NewPrefix(cs.proxyPrefix, prefix, cs.upstream), claim, height, e)
      else Prove(o, cs.underlying, cons, prefix, claim, height, e)
    case Chain(head, branches, leaf) =>
      var last := LastLink(head.link, branches);
      var h := Latest(last.client.inner);
      Assemble(MultiProof(
        ProveLink(o, cs.underlying, cons, prefix, claim.client, height, head),
        ProveLinks(o, head.link, branches),
        LeafProof(Prove(o, last.client.inner, last.cons.inner, Merkle(last.client.ibcPrefix),
                        Retarget(claim, last.client.upstream), h, leaf), h)))
  }

  /** QueryMultiVBranchProof: both states of a proxy with their proofs. */
  function ProveLink(o: Oracle, cs: ClientState, cons: ConsensusState, prefix: Prefix, client: string, height: Height,
                     l: LinkEvidence): Proof
    requires HoldsLink(o, cs, cons, prefix, client, l)
    decreases l, 0
  {
    Proof(Prove(o, cs, cons, prefix, ClientClaim(client, l.link.client), height, l.client),
          Some(o.packClient(l.link.client)),
          Prove(o, cs, cons, prefix, ConsensusClaim(client, l.consHeight, l.link.cons), height, l.cons),
          Some(o.packCons(l.link.cons)),
          height, l.consHeight)
  }

  function ProveNext(o: Oracle, from: Link, l: LinkEvidence): Proof
    requires HoldsNext(o, from, l)
    decreases l, 1
  {
    ProveLink(o, from.client.inner, from.cons.inner, Merkle(from.client.ibcPrefix), from.client.upstream,
              Latest(from.client.inner), l)
  }

  function ProveLinks(o: Oracle, from: Link, ls: seq<LinkEvidence>): seq<Proof>
    requires HoldsLinks(o, from, ls)
    decreases ls, 0
  {
    if ls == [] then [] else [ProveNext(o, from, ls[0])] + ProveLinks(o, ls[0].link, ls[1..])
  }

  lemma {:induction false} ProveLinksLength(o: Oracle, from: Link, ls: seq<LinkEvidence>)
    requires HoldsLinks(o, from, ls)
    ensures |ProveLinks(o, from, ls)| == |ls|
    decreases |ls|
  {
    hide ProveNext, HoldsNext;
    if ls != [] { ProveLinksLength(o, ls[0].link, ls[1..]); }
  }

  // ---- the bytes are accepted ----

  /** Completeness for clients of every nesting: if the consensus state stored for a height vouches
      for a claim, the assembled proof is accepted at that height. */
  lemma {:induction false} ProveAccepted(o: Oracle, cs: ClientState, cons: ConsensusState, store: Store, prefix: Prefix,
                                         claim: Claim, height: Height, ev: Evidence)
    requires Complete(o) && Vouches(o, cs, cons, prefix, claim, ev)
    requires ReadCons(store, height) == Some(cons) && HeightAtMost(height, Latest(cs))
    requires |Prove(o, cs, cons, prefix, claim, height, ev)| <= MAX_INT
    ensures Verify(o, cs, store, height, prefix, claim, Prove(o, cs, cons, prefix, claim, height, ev))
    decreases ev, 1
  {
    hide UnmarshalProof, Extract, ReadCons, Render, Assemble, Locate, Latest;
    match ev {
      case InTree =>
        LatestIs(cs);
      case Inside(e) =>
        LatestIs(cs);
        if cs.Proxy? {
          ExtractRead(store, height);
          ProveAccepted(o, cs.inner, cons.inner, Extract(store), NewPrefix(cs.proxyPrefix, prefix, cs.upstream), claim, height, e);
        } else {
          ProveAccepted(o, cs.underlying, cons, store, prefix, claim, height, e);
        }
      case Chain(_, _, _) =>
        ChainAccepted(o, cs, cons, store, prefix, claim, height, ev);
    }
  }

  lemma LatestIs(cs: ClientState)
    ensures Latest(cs) == match cs
                          case Plain(_, latest) => latest
                          case Proxy(inner, _, _, _) => Latest(inner)
                          case MultiV(underlying, _) => Latest(underlying)
  {
  }

  lemma {:induction false} ChainAccepted(o: Oracle, cs: ClientState, cons: ConsensusState, store: Store, prefix: Prefix,
                                         claim: Claim, height: Height, ev: Evidence)
    requires Complete(o) && ev.Chain? && Vouches(o, cs, cons, prefix, claim, ev)
    requires ReadCons(store, height) == Some(cons) && HeightAtMost(height, Latest(cs))
    requires |Prove(o, cs, cons, prefix, claim, height, ev)| <= MAX_INT
    ensures Verify(o, cs, store, height, prefix, claim, Prove(o, cs, cons, prefix, claim, height, ev))
    decreases ev, 0
  {
    hide UnmarshalProof, ReadCons, Assemble, Latest, IBCVerify, VerifyHead, VerifyBranches,
         ProveLink, ProveLinks, HoldsLink, HoldsLinks;
    var Chain(head, branches, leaf) := ev;
    var last := LastLink(head.link, branches);
    var h := Latest(last.client.inner);
    var leafClaim := Retarget(claim, last.client.upstream);
    var leafProof := Prove(o, last.client.inner, last.cons.inner, Merkle(last.client.ibcPrefix), leafClaim, h, leaf);
    var mp := MultiProof(ProveLink(o, cs.underlying, cons, prefix, claim.client, height, head),
                         ProveLinks(o, head.link, branches), LeafProof(leafProof, h));
    var proof := Prove(o, cs, cons, prefix, claim, height, ev);
    assert proof == Assemble(mp);
    AssembleRoundTrip(mp);
    ProveLinksLength(o, head.link, branches);
    LatestIs(cs);
    HeadAccepted(o, cs.underlying, cons, store, prefix, claim.client, height, head, |proof|);
    BranchesAccepted(o, head.link, branches, |proof|);
    LeafAccepted(o, last, leafClaim, leaf);
  }

  lemma {:induction false} HeadAccepted(o: Oracle, cs: ClientState, cons: ConsensusState, store: Store, prefix: Prefix,
                                        client: string, height: Height, l: LinkEvidence, n: nat)
    requires Complete(o) && HoldsLink(o, cs, cons, prefix, client, l)
    requires ReadCons(store, height) == Some(cons) && HeightAtMost(height, Latest(cs))
    requires ProofBelow(ProveLink(o, cs, cons, prefix, client, height, l), n) && n <= MAX_INT
    ensures ProveLink(o, cs, cons, prefix, client, height, l).proofHeight == height
    ensures VerifyHead(o, cs, store, height, prefix, client, ProveLink(o, cs, cons, prefix, client, height, l), n) == Some(l.link)
    decreases l, 0
  {
    hide Verify, ReadCons, Latest, Prove, Vouches;
    ProveAccepted(o, cs, cons, store, prefix, ClientClaim(client, l.link.client), height, l.client);
    ProveAccepted(o, cs, cons, store, prefix, ConsensusClaim(client, l.consHeight, l.link.cons), height, l.cons);
  }

  lemma HeightReflexive(h: Height)
    ensures HeightAtMost(h, h)
  {
  }

  /** A proxy's verified state proves what its own chain holds, at its client's latest height. */
  lemma {:induction false} LeafAccepted(o: Oracle, via: Link, claim: Claim, ev: Evidence)
    requires Complete(o)
    requires Vouches(o, via.client.inner, via.cons.inner, Merkle(via.client.ibcPrefix), claim, ev)
    requires |Prove(o, via.client.inner, via.cons.inner, Merkle(via.client.ibcPrefix), claim, Latest(via.client.inner), ev)| <= MAX_INT
    ensures IBCVerify(o, via, Latest(via.client.inner), claim,
                      Prove(o, via.client.inner, via.cons.inner, Merkle(via.client.ibcPrefix), claim, Latest(via.client.inner), ev))
    decreases ev, 2
  {
    hide Verify, Extract, Latest, Prove, Vouches;
    var h := Latest(via.client.inner);
    HeightReflexive(h);
    ExtractRead(MemStore(via.cons, h), h);
    ProveAccepted(o, via.client.inner, via.cons.inner, Extract(MemStore(via.cons, h)), Merkle(via.client.ibcPrefix), claim, h, ev);
  }

  lemma {:induction false} BranchAccepted(o: Oracle, via: Link, l: LinkEvidence, n: nat)
    requires Complete(o) && HoldsNext(o, via, l)
    requires ProofBelow(ProveNext(o, via, l), n) && n <= MAX_INT
    ensures VerifyBranch(o, via, ProveNext(o, via, l), n) == Some(l.link)
    decreases l, 3
  {
    hide IBCVerify, Latest, Prove, Vouches;
    LeafAccepted(o, via, ClientClaim(via.client.upstream, l.link.client), l.client);
    LeafAccepted(o, via, ConsensusClaim(via.client.upstream, l.consHeight, l.link.cons), l.cons);
  }

  lemma {:induction false} BranchesAccepted(o: Oracle, via: Link, ls: seq<LinkEvidence>, n: nat)
    requires Complete(o) && HoldsLinks(o, via, ls) && n <= MAX_INT
    requires forall b <- ProveLinks(o, via, ls) :: ProofBelow(b, n)
    ensures VerifyBranches(o, via, ProveLinks(o, via, ls), n) == Some(LastLink(via, ls))
    decreases ls, 0
  {
    hide VerifyBranch, ProveNext, HoldsNext;
    if ls != [] {
      var bs := ProveLinks(o, via, ls);
      assert bs[0] == ProveNext(o, via, ls[0]) && bs[1..] == ProveLinks(o, ls[0].link, ls[1..]);
      BranchAccepted(o, via, ls[0], n);
      BranchesAccepted(o, ls[0].link, ls[1..], n);
    }
  }

  // ---- an honest chain of proxies ----

  /** One proxy, as the chain before it stores it: its states, and the height of the consensus state. */
  datatype Hop = Hop(link: Link, consHeight: Height)

  predicate HoldsHop(o: Oracle, cons: ConsensusState, prefix: string, client: string, hop: Hop) {
    && Holds(o, cons, prefix, ClientClaim(client, hop.link.client))
    && Holds(o, cons, prefix, ConsensusClaim(client, hop.consHeight, hop.link.cons))
    && hop.link.client.inner.Plain?
  }

  /** Each hop is in the IBC store of the chain before it, under that chain's proxy's upstream id. */
  predicate HonestChain(o: Oracle, hops: seq<Hop>) {
    forall i :: 0 < i < |hops| ==>
      var via := hops[i - 1].link;
      HoldsHop(o, via.cons.inner, via.client.ibcPrefix, via.client.upstream, hops[i])
  }

  function HopEvidence(h: Hop): LinkEvidence {
    LinkEvidence(h.link, h.consHeight, InTree, InTree)
  }

  function HopsEvidence(hops: seq<Hop>): seq<LinkEvidence> {
    seq(|hops|, i requires 0 <= i < |hops| => HopEvidence(hops[i]))
  }

  lemma HopHolds(o: Oracle, cs: ClientState, cons: ConsensusState, prefix: string, client: string, hop: Hop)
    requires cs.Plain? && HoldsHop(o, cons, prefix, client, hop)
    ensures HoldsLink(o, cs, cons, Merkle(prefix), client, HopEvidence(hop))
  {
    hide Render, ValueOf;
  }

  lemma {:induction false} HopsHold(o: Oracle, hops: seq<Hop>)
    requires hops != [] && HonestChain(o, hops) && hops[0].link.client.inner.Plain?
    ensures HoldsLinks(o, hops[0].link, HopsEvidence(hops[1..]))
    decreases |hops|
  {
    hide HoldsHop, HoldsLink, HopEvidence;
    if |hops| > 1 {
      var ls := HopsEvidence(hops[1..]);
      var via := hops[0].link;
      assert HoldsHop(o, via.cons.inner, via.client.ibcPrefix, via.client.upstream, hops[1]);
      HopHolds(o, via.client.inner, via.cons.inner, via.client.ibcPrefix, via.client.upstream, hops[1]);
      HopIsPlain(o, via.cons.inner, via.client.ibcPrefix, via.client.upstream, hops[1]);
      HopsHold(o, hops[1..]);
      assert ls[1..] == HopsEvidence(hops[1..][1..]);
      assert ls[0] == HopEvidence(hops[1]);
      HopLink(hops[1]);
    }
  }

  lemma HopIsPlain(o: Oracle, cons: ConsensusState, prefix: string, client: string, hop: Hop)
    requires HoldsHop(o, cons, prefix, client, hop)
    ensures hop.link.client.inner.Plain?
  {
    hide Holds;
  }

  lemma HopLink(hop: Hop)
    ensures HopEvidence(hop).link == hop.link
  {
  }

  /** For an honest chain of proxies of any length, all of it stored on the chains it runs over, and a
      client or consensus state stored at its end: the proof made of head, branches and leaf is
      accepted by a MultiV client whose depth is the number of branches. */
  lemma HonestChainAccepted(o: Oracle, underlying: ClientState, depth: uint32, cons: ConsensusState, store: Store,
                            height: Height, prefix: string, hops: seq<Hop>, claim: Claim) returns (ev: Evidence)
    requires Complete(o) && underlying.Plain? && AboutClient(claim)
    requires |hops| == depth + 1 && HonestChain(o, hops)
    requires HoldsHop(o, cons, prefix, claim.client, hops[0])
    requires var last := hops[depth].link;
             && (claim.ClientClaim? ==>
                   Holds(o, last.cons.inner, last.client.ibcPrefix, ClientClaim(last.client.upstream, claim.state)))
             && (claim.ConsensusClaim? ==>
                   Holds(o, last.cons.inner, last.client.ibcPrefix, ConsensusClaim(last.client.upstream, claim.height, claim.cons)))
    requires ReadCons(store, height) == Some(cons) && HeightAtMost(height, underlying.latest)
    ensures Vouches(o, MultiV(underlying, depth), cons, Merkle(prefix), claim, ev) && ev.Chain?
    ensures var proof := Prove(o, MultiV(underlying, depth), cons, Merkle(prefix), claim, height, ev);
            |proof| <= MAX_INT ==> Verify(o, MultiV(underlying, depth), store, height, Merkle(prefix), claim, proof)
  {
    hide HoldsHop, HonestChain, HoldsLink, HoldsLinks, HopEvidence, Prove, Verify, ReadCons, Render, ValueOf, Complete;
    var cs, ls := MultiV(underlying, depth), HopsEvidence(hops[1..]);
    HopHolds(o, underlying, cons, prefix, claim.client, hops[0]);
    HopIsPlain(o, cons, prefix, claim.client, hops[0]);
    HopsHold(o, hops);
    HopLink(hops[0]);
    HopLink(hops[depth]);
    var last := hops[depth].link;
    assert LastLink(hops[0].link, ls) == last;
    LastIsPlain(o, cons, prefix, claim.client, hops);
    ev := Chain(HopEvidence(hops[0]), ls, InTree);
    assert Vouches(o, cs, cons, Merkle(prefix), claim, ev);
    if |Prove(o, cs, cons, Merkle(prefix), claim, height, ev)| <= MAX_INT {
      ProveAccepted(o, cs, cons, store, Merkle(prefix), claim, height, ev);
    }
  }

  lemma LastIsPlain(o: Oracle, cons: ConsensusState, prefix: string, client: string, hops: seq<Hop>)
    requires hops != [] && HonestChain(o, hops) && HoldsHop(o, cons, prefix, client, hops[0])
    ensures hops[|hops| - 1].link.client.inner.Plain?
  {
    hide Holds;
    var i := |hops| - 1;
    if i > 0 {
      var via := hops[i - 1].link;
      assert HoldsHop(o, via.cons.inner, via.client.ibcPrefix, via.client.upstream, hops[i]);
    }
  }
}
