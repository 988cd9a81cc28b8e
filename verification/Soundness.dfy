/** What an accepted proof means. Evidence says, without any proof bytes, why the chain a client
    tracks holds a claim: facts of the trees behind verified roots, chained through proxies. */
module Soundness {
  import opened Wire
  import opened Messages
  import opened Paths
  import opened Shrinking
  import opened Clients

  /** InTree: the value is in the tree. Inside: the wrapped client has it. Chain: a walk over proxies,
      as long as the MultiV client asks for, and evidence at its end. */
  datatype Evidence =
    | InTree
    | Inside(e: Evidence)
    | Chain(head: LinkEvidence, branches: seq<LinkEvidence>, leaf: Evidence)

  datatype LinkEvidence = LinkEvidence(link: Link, consHeight: Height, client: Evidence, cons: Evidence)

  ghost predicate Vouches(o: Oracle, cs: ClientState, cons: ConsensusState, prefix: Prefix, claim: Claim, ev: Evidence)
    decreases ev, 1
  {
    match (cs, ev)
    case (Plain(_, _), InTree) =>
      && cons.PlainCons?
      && Locate(prefix, Render(PathOf(claim))) in o.tree(cons.root)
      && o.tree(cons.root)[Locate(prefix, Render(PathOf(claim)))] == ValueOf(o, claim)
    case (Proxy(inner, upstream, proxyPrefix, _), Inside(e)) =>
      && cons.ProxyCons?
      && Vouches(o, inner, cons.inner, NewPrefix(proxyPrefix, prefix, upstream), claim, e)
    case (MultiV(underlying, _), Inside(e)) =>
      && !AboutClient(claim)
      && Vouches(o, underlying, cons, prefix, claim, e)
    case (MultiV(underlying, depth), Chain(head, branches, leaf)) =>
      && AboutClient(claim)
      && |branches| == depth
      && HoldsLink(o, underlying, cons, prefix, claim.client, head)
      && HoldsLinks(o, head.link, branches)
      && var last := LastLink(head.link, branches);
         Vouches(o, last.client.inner, last.cons.inner, Merkle(last.client.ibcPrefix),
                 Retarget(claim, last.client.upstream), leaf)
    case _ => false
  }

  /** A chain holds a proxy's client and consensus states under a client id. */
  ghost predicate HoldsLink(o: Oracle, cs: ClientState, cons: ConsensusState, prefix: Prefix, client: string, l: LinkEvidence)
    decreases l, 0
  {
    && Vouches(o, cs, cons, prefix, ClientClaim(client, l.link.client), l.client)
    && Vouches(o, cs, cons, prefix, ConsensusClaim(client, l.consHeight, l.link.cons), l.cons)
  }

  /** The next proxy's states, on the chain of the proxy before. */
  ghost predicate HoldsNext(o: Oracle, from: Link, l: LinkEvidence)
    decreases l, 1
  {
    && HoldsLink(o, from.client.inner, from.cons.inner, Merkle(from.client.ibcPrefix), from.client.upstream, l)
  }

  ghost predicate HoldsLinks(o: Oracle, from: Link, ls: seq<LinkEvidence>)
    decreases ls, 0
  {
    ls == [] || (HoldsNext(o, from, ls[0]) && HoldsLinks(o, ls[0].link, ls[1..]))
  }

  function LastLink(from: Link, ls: seq<LinkEvidence>): Link {
    if ls == [] then from else ls[|ls| - 1].link
  }

  /** Some evidence exists. */
  ghost predicate Vouched(o: Oracle, cs: ClientState, cons: ConsensusState, prefix: Prefix, claim: Claim) {
    exists ev :: Vouches(o, cs, cons, prefix, claim, ev)
  }

  // ---- every accepted proof has evidence ----

  /** Soundness for clients of every nesting: what is accepted at a height is vouched for by the
      consensus state stored for that height. */
  lemma {:induction false} VerifySound(o: Oracle, cs: ClientState, store: Store, height: Height, prefix: Prefix,
                                       claim: Claim, proof: bytes) returns (ev: Evidence)
    requires Sound(o) && Verify(o, cs, store, height, prefix, claim, proof)
    ensures ReadCons(store, height).Some?
    ensures Vouches(o, cs, ReadCons(store, height).value, prefix, claim, ev)
    decreases |proof|, 2 + Nesting(cs), 0
  {
    hide UnmarshalProof, Extract, ReadCons, Render;
    match cs {
      case Plain(_, _) =>
        ev := InTree;
      case Proxy(inner, upstream, proxyPrefix, _) =>
        ExtractRead(store, height);
        var e := VerifySound(o, inner, Extract(store), height, NewPrefix(proxyPrefix, prefix, upstream), claim, proof);
        ev := Inside(e);
      case MultiV(underlying, depth) =>
        if AboutClient(claim) {
          ev := ChainSound(o, underlying, depth, store, height, prefix, claim, proof);
        } else {
          var e := VerifySound(o, underlying, store, height, prefix, claim, proof);
          ev := Inside(e);
        }
    }
  }

  lemma {:induction false} ChainSound(o: Oracle, underlying: ClientState, depth: uint32, store: Store, height: Height,
                                      prefix: Prefix, claim: Claim, proof: bytes) returns (ev: Evidence)
    requires Sound(o) && AboutClient(claim)
    requires Verify(o, MultiV(underlying, depth), store, height, prefix, claim, proof)
    ensures ReadCons(store, height).Some?
    ensures Vouches(o, MultiV(underlying, depth), ReadCons(store, height).value, prefix, claim, ev)
    decreases |proof|, 2, 0
  {
    hide UnmarshalProof, VerifyHead, VerifyBranches, IBCVerify, ReadCons;
    var mp := UnmarshalProof(proof).value;
    var first := VerifyHead(o, underlying, store, height, prefix, claim.client, mp.head, |proof|).value;
    var last := VerifyBranches(o, first, mp.branches, |proof|).value;
    var head := HeadSound(o, underlying, store, height, prefix, claim.client, mp.head, |proof|);
    var branches := BranchesSound(o, first, mp.branches, |proof|);
    var leaf := IBCSound(o, last, mp.leaf.proofHeight, Retarget(claim, last.client.upstream), mp.leaf.proof);
    ev := Chain(head, branches, leaf);
  }

  lemma {:induction false} HeadSound(o: Oracle, underlying: ClientState, store: Store, height: Height, prefix: Prefix,
                                     client: string, p: Proof, n: nat) returns (l: LinkEvidence)
    requires Sound(o) && ProofBelow(p, n)
    requires VerifyHead(o, underlying, store, height, prefix, client, p, n).Some?
    ensures ReadCons(store, height).Some?
    ensures l.link == VerifyHead(o, underlying, store, height, prefix, client, p, n).value
    ensures HoldsLink(o, underlying, ReadCons(store, height).value, prefix, client, l)
    decreases n, 0, 0
  {
    hide Verify, ReadCons, Vouches;
    var link := VerifyHead(o, underlying, store, height, prefix, client, p, n).value;
    var e := VerifySound(o, underlying, store, height, prefix, ClientClaim(client, link.client), p.clientProof);
    var e' := VerifySound(o, underlying, store, height, prefix,
                          ConsensusClaim(client, p.consensusHeight, link.cons), p.consensusProof);
    l := LinkEvidence(link, p.consensusHeight, e, e');
  }

  /** The state behind a verified proxy is the one inside its verified consensus state, whatever
      height the proof names. */
  lemma {:induction false} IBCSound(o: Oracle, via: Link, height: Height, claim: Claim, proof: bytes) returns (ev: Evidence)
    requires Sound(o) && IBCVerify(o, via, height, claim, proof)
    ensures Vouches(o, via.client.inner, via.cons.inner, Merkle(via.client.ibcPrefix), claim, ev)
    decreases |proof|, 3 + Nesting(via.client), 0
  {
    hide Verify, Extract, Vouches;
    ExtractRead(MemStore(via.cons, height), height);
    ev := VerifySound(o, via.client.inner, Extract(MemStore(via.cons, height)), height,
                      Merkle(via.client.ibcPrefix), claim, proof);
  }

  lemma {:induction false} BranchSound(o: Oracle, via: Link, p: Proof, n: nat) returns (l: LinkEvidence)
    requires Sound(o) && ProofBelow(p, n)
    requires VerifyBranch(o, via, p, n).Some?
    ensures l.link == VerifyBranch(o, via, p, n).value && HoldsNext(o, via, l)
    decreases n, 0, 0
  {
    hide IBCVerify, Vouches;
    var link := VerifyBranch(o, via, p, n).value;
    var e := IBCSound(o, via, p.proofHeight, ClientClaim(via.client.upstream, link.client), p.clientProof);
    var e' := IBCSound(o, via, p.proofHeight,
                       ConsensusClaim(via.client.upstream, p.consensusHeight, link.cons), p.consensusProof);
    l := LinkEvidence(link, p.consensusHeight, e, e');
  }

  lemma {:induction false} BranchesSound(o: Oracle, via: Link, bs: seq<Proof>, n: nat) returns (ls: seq<LinkEvidence>)
    requires Sound(o) && forall b <- bs :: ProofBelow(b, n)
    requires VerifyBranches(o, via, bs, n).Some?
    ensures |ls| == |bs| && HoldsLinks(o, via, ls)
    ensures LastLink(via, ls) == VerifyBranches(o, via, bs, n).value
    decreases n, 1, |bs|
  {
    hide VerifyBranch, HoldsNext;
    if bs == [] {
      ls := [];
    } else {
      var l := BranchSound(o, via, bs[0], n);
      var rest := BranchesSound(o, l.link, bs[1..], n);
      ls := [l] + rest;
      assert ls[1..] == rest;
    }
  }

  // ---- reading the evidence ----

  /** A proxy's states are held by the chain that cs and cons speak for. */
  ghost predicate LinkVouched(o: Oracle, cs: ClientState, cons: ConsensusState, prefix: Prefix, client: string, l: Link) {
    && Vouched(o, cs, cons, prefix, ClientClaim(client, l.client))
    && exists h :: Vouched(o, cs, cons, prefix, ConsensusClaim(client, h, l.cons))
  }

  ghost predicate NextVouched(o: Oracle, from: Link, l: Link) {
    LinkVouched(o, from.client.inner, from.cons.inner, Merkle(from.client.ibcPrefix), from.client.upstream, l)
  }

  /** Each proxy is held by the one before it, under that one's upstream client id and IBC prefix, by
      the chain behind that one's verified consensus state. */
  ghost predicate ProxyChain(o: Oracle, links: seq<Link>) {
    forall i :: 0 < i < |links| ==>
         NextVouched(o, links[i - 1], links[i])
  }

  /** The chain behind the last proxy's verified consensus state holds the claim, under that proxy's IBC
      prefix. */
  ghost predicate LastVouches(o: Oracle, last: Link, claim: Claim) {
    Vouched(o, last.client.inner, last.cons.inner, Merkle(last.client.ibcPrefix), claim)
  }

  function Links(ls: seq<LinkEvidence>): seq<Link> {
    seq(|ls|, i requires 0 <= i < |ls| => ls[i].link)
  }

  lemma HoldsVouches(o: Oracle, cs: ClientState, cons: ConsensusState, prefix: Prefix, client: string, l: LinkEvidence)
    requires HoldsLink(o, cs, cons, prefix, client, l)
    ensures LinkVouched(o, cs, cons, prefix, client, l.link)
  {
    hide Vouches;
  }

  lemma NextHolds(o: Oracle, from: Link, l: LinkEvidence)
    requires HoldsNext(o, from, l)
    ensures NextVouched(o, from, l.link)
  {
    hide HoldsLink, LinkVouched;
    HoldsVouches(o, from.client.inner, from.cons.inner, Merkle(from.client.ibcPrefix), from.client.upstream, l);
  }

  lemma {:induction false} LinksForm(o: Oracle, from: Link, ls: seq<LinkEvidence>)
    requires HoldsLinks(o, from, ls)
    ensures ProxyChain(o, [from] + Links(ls))
    decreases |ls|
  {
    hide HoldsLink, NextVouched;
    var links := [from] + Links(ls);
    if ls != [] {
      LinksForm(o, ls[0].link, ls[1..]);
      var rest := [ls[0].link] + Links(ls[1..]);
      assert links[1..] == rest;
      NextHolds(o, from, ls[0]);
      forall i | 0 < i < |links|
        ensures NextVouched(o, links[i - 1], links[i])
      {
        if i > 1 { assert links[i - 1] == rest[i - 2] && links[i] == rest[i - 1]; }
      }
    }
  }

  /** What a MultiV client looks at is a MultiProof of the right length, whose first height is the one it
      is asked about. */
  lemma AcceptedShape(o: Oracle, underlying: ClientState, depth: uint32, store: Store, height: Height, prefix: Prefix,
                      claim: Claim, proof: bytes)
    requires AboutClient(claim) && Verify(o, MultiV(underlying, depth), store, height, prefix, claim, proof)
    ensures UnmarshalProof(proof).Some?
    ensures UnmarshalProof(proof).value.head.proofHeight == height && |UnmarshalProof(proof).value.branches| == depth
  {
    hide UnmarshalProof, VerifyHead, VerifyBranches, IBCVerify;
  }

  /** Multi-stage verification, for every depth: when a MultiV client accepts a client or consensus
      state, there are exactly depth + 1 proxies; the first is held by the tracked chain under the
      counterparty's client id, each next one by the chain of the one before, and the last one's
      chain holds that very client state, or that very consensus state at that height, under its own
      upstream client id. The proof's first height is the one it is verified at. */
  lemma MultiStageSound(o: Oracle, underlying: ClientState, depth: uint32, store: Store, height: Height, prefix: Prefix,
                        claim: Claim, proof: bytes) returns (links: seq<Link>)
    requires Sound(o) && AboutClient(claim)
    requires Verify(o, MultiV(underlying, depth), store, height, prefix, claim, proof)
    ensures |links| == depth + 1 && ProxyChain(o, links)
    ensures ReadCons(store, height).Some?
    ensures LinkVouched(o, underlying, ReadCons(store, height).value, prefix, claim.client, links[0])
    ensures claim.ClientClaim? ==>
              LastVouches(o, links[depth], ClientClaim(links[depth].client.upstream, claim.state))
    ensures claim.ConsensusClaim? ==>
              LastVouches(o, links[depth], ConsensusClaim(links[depth].client.upstream, claim.height, claim.cons))
    ensures UnmarshalProof(proof).Some?
    ensures UnmarshalProof(proof).value.head.proofHeight == height && |UnmarshalProof(proof).value.branches| == depth
  {
    hide Verify, ReadCons, LinkVouched, HoldsLink, UnmarshalProof;
    AcceptedShape(o, underlying, depth, store, height, prefix, claim, proof);
    var ev := ChainSound(o, underlying, depth, store, height, prefix, claim, proof);
    HoldsVouches(o, underlying, ReadCons(store, height).value, prefix, claim.client, ev.head);
    var first := ev.head.link;
    LinksForm(o, first, ev.branches);
    links := [first] + Links(ev.branches);
    assert links[depth] == LastLink(first, ev.branches);
  }

  /** For a plain client, to be vouched for is to be in the tree behind the root. */
  lemma PlainVouched(o: Oracle, chain: string, latest: Height, cons: ConsensusState, prefix: Prefix, claim: Claim)
    ensures Vouched(o, Plain(chain, latest), cons, prefix, claim)
            <==> && cons.PlainCons?
                 && var at := Locate(prefix, Render(PathOf(claim)));
                    at in o.tree(cons.root) && o.tree(cons.root)[at] == ValueOf(o, claim)
  {
    hide Render, Locate;
    var cs := Plain(chain, latest);
    if cons.PlainCons? && Locate(prefix, Render(PathOf(claim))) in o.tree(cons.root)
       && o.tree(cons.root)[Locate(prefix, Render(PathOf(claim)))] == ValueOf(o, claim)
    {
      assert Vouches(o, cs, cons, prefix, claim, InTree);
    }
  }

  /** A tree holds the claim's value at its path. */
  predicate Holds(o: Oracle, cons: ConsensusState, prefix: string, claim: Claim) {
    && cons.PlainCons?
    && var at := Location(prefix, Render(PathOf(claim)));
       at in o.tree(cons.root) && o.tree(cons.root)[at] == ValueOf(o, claim)
  }

  ghost predicate LinkInTree(o: Oracle, cons: ConsensusState, prefix: string, client: string, l: Link) {
    && Holds(o, cons, prefix, ClientClaim(client, l.client))
    && exists h :: Holds(o, cons, prefix, ConsensusClaim(client, h, l.cons))
  }

  lemma LinkIsInTree(o: Oracle, cs: ClientState, cons: ConsensusState, prefix: string, client: string, l: Link)
    requires cs.Plain? && LinkVouched(o, cs, cons, Merkle(prefix), client, l)
    ensures LinkInTree(o, cons, prefix, client, l)
  {
    hide Render, Vouched;
    PlainVouched(o, cs.chain, cs.latest, cons, Merkle(prefix), ClientClaim(client, l.client));
    var h :| Vouched(o, cs, cons, Merkle(prefix), ConsensusClaim(client, h, l.cons));
    PlainVouched(o, cs.chain, cs.latest, cons, Merkle(prefix), ConsensusClaim(client, h, l.cons));
    assert Holds(o, cons, prefix, ConsensusClaim(client, h, l.cons));
  }

  /** The same in terms of trees, over plain clients: the tracked tree holds the first proxy, the tree
      behind each proxy holds the next one, and the tree behind the last one holds the client state, or
      the consensus state at exactly the height asked for. */
  lemma MultiStageInTrees(o: Oracle, underlying: ClientState, depth: uint32, store: Store, height: Height, prefix: string,
                          claim: Claim, proof: bytes) returns (links: seq<Link>)
    requires Sound(o) && AboutClient(claim) && underlying.Plain?
    requires Verify(o, MultiV(underlying, depth), store, height, Merkle(prefix), claim, proof)
    ensures |links| == depth + 1 && ReadCons(store, height).Some?
    ensures LinkInTree(o, ReadCons(store, height).value, prefix, claim.client, links[0])
    ensures forall i :: 0 < i < |links| && links[i - 1].client.inner.Plain? ==>
              LinkInTree(o, links[i - 1].cons.inner, links[i - 1].client.ibcPrefix, links[i - 1].client.upstream, links[i])
    ensures links[depth].client.inner.Plain? ==>
              && links[depth].cons.inner.PlainCons?
              && var tree, ibc, id := o.tree(links[depth].cons.inner.root), links[depth].client.ibcPrefix, links[depth].client.upstream;
              && (claim.ClientClaim? ==>
                    && Location(ibc, Render(ClientPath(id))) in tree
                    && tree[Location(ibc, Render(ClientPath(id)))] == ClientV(claim.state))
              && (claim.ConsensusClaim? ==>
                    && Location(ibc, Render(ConsensusPath(id, claim.height))) in tree
                    && tree[Location(ibc, Render(ConsensusPath(id, claim.height)))] == ConsensusV(claim.cons))
  {
    hide Verify, ReadCons, LinkVouched, LinkInTree, Vouched, Render;
    links := MultiStageSound(o, underlying, depth, store, height, Merkle(prefix), claim, proof);
    LinkIsInTree(o, underlying, ReadCons(store, height).value, prefix, claim.client, links[0]);
    forall i | 0 < i < |links| && links[i - 1].client.inner.Plain?
      ensures LinkInTree(o, links[i - 1].cons.inner, links[i - 1].client.ibcPrefix, links[i - 1].client.upstream, links[i])
    {
      var via := links[i - 1];
      assert NextVouched(o, via, links[i]);
      LinkIsInTree(o, via.client.inner, via.cons.inner, via.client.ibcPrefix, via.client.upstream, links[i]);
    }
    var last := links[depth];
    if last.client.inner.Plain? {
      var target := if claim.ClientClaim? then ClientClaim(last.client.upstream, claim.state)
                    else ConsensusClaim(last.client.upstream, claim.height, claim.cons);
      PlainVouched(o, last.client.inner.chain, last.client.inner.latest, last.cons.inner, Merkle(last.client.ibcPrefix), target);
    }
  }

  /** Plain clients, and MultiV clients around them. */
  predicate Direct(cs: ClientState) {
    match cs
    case Plain(_, _) => true
    case Proxy(_, _, _, _) => false
    case MultiV(underlying, _) => Direct(underlying)
  }

  /** Through them, whatever is not about a client is a fact of the tracked chain's own tree. */
  lemma {:induction false} DirectVouches(o: Oracle, cs: ClientState, cons: ConsensusState, prefix: Prefix, claim: Claim, ev: Evidence)
    requires Direct(cs) && !AboutClient(claim) && Vouches(o, cs, cons, prefix, claim, ev)
    ensures cons.PlainCons?
    ensures var at := Locate(prefix, Render(PathOf(claim)));
            at in o.tree(cons.root) && o.tree(cons.root)[at] == ValueOf(o, claim)
    decreases cs
  {
    hide Render, Locate;
    if cs.MultiV? { DirectVouches(o, cs.underlying, cons, prefix, claim, ev.e); }
  }
}
