# Verification of ibc-proxy

IBC Proxy puts a chain (the proxy) between two chains that do not track each other. The proxy's light
client verifies what the upstream chain has stored; the proxy module stores the verified values again,
under a key that names the upstream; and the downstream chain's Proxy client verifies them there. A
connection handshake through a proxy needs proofs about chains several hops away, which the MultiV
client checks.

This project models the three layers and proves what they promise. `dafny verify dfyconfig.toml` checks
all of it.

| layer | modules |
|---|---|
| the wire format of a multi-hop proof | `Bits`, `Wire`, `Messages`, `Layout`, `RoundTrip`, `UnknownFields`, `Marshal`, `Unmarshal`, `Codec`, `Shrinking` |
| the Proxy and MultiV light clients | `Paths`, `Clients`, `Soundness`, `Completeness`, `Simulation` |
| the proxy module | `Handlers`, `Keepers`, `Writes`, `Worlds`, `Invariants`, `Isolation` |
| all three together | `EndToEnd`, `Progress`, `Scenario` |

**Wire.** `Marshal` fills byte arrays backwards and `Unmarshal` walks them with Go's 64-bit indices, as the
generated code does. Both are proved against functions on byte sequences (`Encode*`, `Decode`). The key
fact is `Messages.DecodeConcat`: decoding a concatenation is decoding the second part into the result of
the first. Round trips and the transparency of unknown fields follow from it.

**Clients.** A client state is a tree: a plain client, a Proxy around a client, a MultiV around a client. What
a plain client accepts is an `Oracle` (membership proofs, hashing and header rules are other libraries').
`Soundness` gives every accepted proof a meaning without proof bytes: *evidence*, facts of the trees behind
verified roots, chained through proxies. `Completeness` turns evidence back into bytes that are accepted.
Nothing ties the height in a proof to the height of the consensus state it is checked against, so all of
this is stated relative to the root that was verified, not to a height.

**Keeper.** `Handlers` says as functions what the eleven messages write, including what a handler has
written when it fails halfway; `Keepers.Keeper` is the keeper with its store updated in place, each handler
proved to do what its function says. `Writes` shows that every message is a sequence of verified writes,
each permitted by the store it finds; `Worlds` and `Invariants` take that to all runs: messages in any
order, kept or (if they failed) rolled back, between arbitrary changes of the light clients, their stores,
the time and the upstream chains. The one thing assumed of those changes is that the light clients are
secure: the roots they hold are roots of the chain they track.

**Where the code does less than one would think.** `Scenario` is one concrete run, with sound light clients and
from an empty store, that shows the first two.

- `modules/proxy/keeper/packet.go:40-42` and `:81-83` say that connection and channel must be OPEN; the code does
  not test it. Both handlers take packets while both are in INIT, and while the connection is OPEN and the
  channel in TRYOPEN (`Scenario.PacketsOverUnopened`). In every state of every run, what the comment asks for
  holds of an accepted packet or acknowledgement if and only if the channel is OPEN
  (`Invariants.ReceivedOverOpen`, `Invariants.AcknowledgedOverOpen`).
- `ChanOpenTry` and `ChanOpenAck` overwrite a channel that is already there
  (`modules/proxy/keeper/channel.go:53-61, 110-118`): an OPEN one goes back to INIT or TRYOPEN
  (`Scenario.OpenChannelGoesBack`). It changes if and only if one of the two succeeds for it
  (`Isolation.OpenChannelChangesIff`).
- The upstream prefix in a message is not checked for '/' (`modules/proxy/types/msgs.go:54-56`). With a '/' two
  upstreams can share keys: `Paths.SlashInPrefixCollides` gives such a pair, and `Paths.EntriesCollideIff` says
  exactly which ids and prefixes have an entry key in common.

Faithfulness holds regardless of all this. What is said about one upstream under one prefix takes only that
nothing which is *stored* about anyone else lies among its entries (`Worlds.Alone`). `Isolation.SlashFreeAlone` and
`Isolation.PlainStoresAlone` say when that is so, whatever messages about other upstreams, and messages that
store nothing, may hold.

## Model

| member | source | states |
|---|---|---|
| Wire.VarintRoundTrip | modules/light-clients/xx-multiv/types/multiv.pb.go:452-462 | every uint64 comes back from its varint, whatever bytes follow, and exactly its own bytes are used |
| Wire.SovIsVarintSize | modules/light-clients/xx-multiv/types/multiv.pb.go:542-544 | the bit-length formula of sovMultiv is the number of bytes the varint really takes, 1 to 10, for every uint64 |
| Bits.OrAbove | modules/light-clients/xx-multiv/types/multiv.pb.go:668-668 | bitwise or is addition where the bits of one side lie below those of the other, for every shift |
| Wire.TagRoundTrip | modules/light-clients/xx-multiv/types/multiv.pb.go:557-580 | a field number and wire type come back from the tag written for them; the signed and range tests on tags let every number below 2^29 pass |
| Wire.TwosComplement | modules/light-clients/xx-multiv/types/multiv.pb.go:673-674 | the conversions to int and int32 give the number of that width that is the same modulo 2^64, or 2^32 |
| Wire.BlobRoundTrip | modules/light-clients/xx-multiv/types/multiv.pb.go:836-861 | a length-prefixed run of bytes comes back, whatever follows it |
| Wire.SkipLocal | modules/light-clients/xx-multiv/types/multiv.pb.go:1176-1253 | what skipMultiv skips does not depend on the bytes behind it, at any group depth |
| Messages.DecodeConcat | modules/light-clients/xx-multiv/types/multiv.pb.go:653-802 | decoding a concatenation is decoding the second part into the message the first part gave |
| RoundTrip.AnyRoundTrip | modules/light-clients/xx-multiv/types/multiv.pb.go:895-901 | a nested Any comes back |
| RoundTrip.ProofRoundTrip | modules/light-clients/xx-multiv/types/multiv.pb.go:346-410 | Unmarshal of Marshal is the identity on Proof, nil and present nested messages included |
| RoundTrip.LeafRoundTrip | modules/light-clients/xx-multiv/types/multiv.pb.go:427-450 | the same for LeafProof |
| RoundTrip.BranchesRoundTrip | modules/light-clients/xx-multiv/types/multiv.pb.go:715-748 | any number of branches, read behind any decoded prefix, is appended in the order it was given |
| RoundTrip.MultiProofRoundTrip | modules/light-clients/xx-multiv/types/multiv.pb.go:289-329 | Unmarshal of Marshal is the identity on MultiProof, with any number of branches |
| RoundTrip.MultiVStateRoundTrip | modules/light-clients/xx-multiv/types/multiv.pb.go:249-272 | the same for the MultiV client state |
| Layout.ProofLayout | modules/light-clients/xx-multiv/types/multiv.pb.go:346-410 | the encoding byte by byte: tag bytes 0x0a to 0x32 in ascending order, empty bytes and nil messages left out, heights always there |
| Layout.LeafLayout | modules/light-clients/xx-multiv/types/multiv.pb.go:427-450 | the same for LeafProof |
| Layout.MultiProofLayout | modules/light-clients/xx-multiv/types/multiv.pb.go:289-329 | the same for MultiProof: head, every branch, leaf |
| Layout.ClientStateLayout | modules/light-clients/xx-multiv/types/multiv.pb.go:249-272 | the same for the MultiV client state, depth 0 left out |
| Layout.Refused | modules/light-clients/xx-multiv/types/multiv.pb.go:675-718 | for every message and whatever follows: a known field with another wire type, an end of group, a wire type 6 or 7 and field number 0 are refused |
| Layout.RefusedNumber | modules/light-clients/xx-multiv/types/multiv.pb.go:673-680 | so is every tag whose field number, cut to 32 bits, is zero or negative |
| Layout.RepeatedAny | modules/light-clients/xx-multiv/types/multiv.pb.go:606-611 | a nested message that comes twice is merged, as if its payloads were one after the other |
| Layout.RepeatedHead | modules/light-clients/xx-multiv/types/multiv.pb.go:682-714 | the same for the head, which is a message value |
| Layout.RepeatedBranch | modules/light-clients/xx-multiv/types/multiv.pb.go:715-748 | branches that come one after the other are each decoded from nothing and appended |
| Layout.RepeatedBytes | modules/light-clients/xx-multiv/types/multiv.pb.go:1088-1121 | of bytes that come twice the last ones stay |
| UnknownFields.SkipPassesOneField | modules/light-clients/xx-multiv/types/multiv.pb.go:1176-1253 | for every well-formed field, groups nested to any depth included, skipMultiv returns exactly its length |
| UnknownFields.UnknownFieldIgnored | modules/light-clients/xx-multiv/types/multiv.pb.go:785-795 | a well-formed field with a number the message does not have, put between any two fields, changes neither the decoded message nor whether decoding fails |
| Marshal.SizeClientState | modules/light-clients/xx-multiv/types/multiv.pb.go:463-477 | Size is the length of the encoding |
| Marshal.SizeLeaf | modules/light-clients/xx-multiv/types/multiv.pb.go:527-540 | Size is the length of the encoding |
| Marshal.SizeProof | modules/light-clients/xx-multiv/types/multiv.pb.go:498-525 | Size is the length of the encoding, nested messages included |
| Marshal.SizeMultiProof | modules/light-clients/xx-multiv/types/multiv.pb.go:479-496 | the loop over the branches adds up to the length of the encoding |
| Marshal.EncodeVarint | modules/light-clients/xx-multiv/types/multiv.pb.go:452-462 | the varint ends exactly where the cursor stood, starts at the returned offset, and no other byte changes |
| Marshal.MarshalClientState | modules/light-clients/xx-multiv/types/multiv.pb.go:249-272 | writing backwards from any position puts the encoding in front of what was there and touches nothing before it |
| Marshal.MarshalLeaf | modules/light-clients/xx-multiv/types/multiv.pb.go:427-450 | the same for LeafProof |
| Marshal.MarshalProof | modules/light-clients/xx-multiv/types/multiv.pb.go:346-410 | the same for Proof |
| Marshal.PutBranches | modules/light-clients/xx-multiv/types/multiv.pb.go:304-317 | the loop over the branches from the last to the first leaves them in their order |
| Marshal.MarshalMultiProof | modules/light-clients/xx-multiv/types/multiv.pb.go:289-329 | the same for MultiProof, branches in order |
| Marshal.MarshalFresh | modules/light-clients/xx-multiv/types/multiv.pb.go:274-282 | a buffer of Size bytes is filled to the last byte: the cursor ends at 0 |
| Unmarshal.OrShiftedIs | modules/light-clients/xx-multiv/types/multiv.pb.go:659-672 | for each of the ten bytes, or-ing the low seven bits in at its shift on 64 bits gives the number of the digits read so far, modulo 2^64 |
| Unmarshal.ReadUvarint | modules/light-clients/xx-multiv/types/multiv.pb.go:557-572 | the shift-and-or loop reads the varint's value modulo 2^64, and fails exactly at the end of the input or past ten bytes |
| Unmarshal.ReadSpan | modules/light-clients/xx-multiv/types/multiv.pb.go:686-710 | with lengths and indices that wrap as Go ints do, a payload is accepted exactly when it lies inside the slice |
| Unmarshal.SkipMultiv | modules/light-clients/xx-multiv/types/multiv.pb.go:1176-1253 | on every input the loop with its depth counter ends, never indexes outside, and agrees with the recursive definition of a balanced field; an answer past the end means there is none |
| Unmarshal.NextField | modules/light-clients/xx-multiv/types/multiv.pb.go:656-688 | each turn of a decode loop moves on, and reads the field the specification reads, or fails with it |
| Unmarshal.UnmarshalLeaf | modules/light-clients/xx-multiv/types/multiv.pb.go:1059-1175 | total on every byte slice; equals the specification |
| Unmarshal.UnmarshalProof | modules/light-clients/xx-multiv/types/multiv.pb.go:803-1058 | total on every byte slice; equals the specification |
| Unmarshal.UnmarshalMultiProof | modules/light-clients/xx-multiv/types/multiv.pb.go:653-802 | total on every byte slice; equals the specification; nested messages are decoded in place |
| Unmarshal.UnmarshalClientState | modules/light-clients/xx-multiv/types/multiv.pb.go:548-652 | total on every byte slice; equals the specification; the depth loses its high 32 bits |
| Codec.MarshalThenUnmarshal | modules/light-clients/xx-multiv/types/multiv.pb.go:274-329 | array to array: what Marshal wrote backwards, Unmarshal reads as the same MultiProof |
| Codec.MarshalThenUnmarshalClientState | modules/light-clients/xx-multiv/types/multiv.pb.go:234-272 | the same for the MultiV client state |
| Codec.UnmarshalAround | modules/light-clients/xx-multiv/types/multiv.pb.go:785-795 | array to message: an unknown field between two fields of a marshaled MultiProof is not noticed |
| Clients.UnmarshalProof | modules/light-clients/xx-multiv/types/commitment.go:29-39 | only an Any of the MultiProof type is accepted, and every proof inside is shorter than the bytes given: nested verification terminates by (proof length, client nesting) |
| Clients.UnmarshalProofIff | modules/light-clients/xx-multiv/types/commitment.go:29-39 | a MultiProof comes out if and only if the bytes are an Any whose type URL is /ibc.lightclients.multiv.v1.MultiProof and whose value decodes to it |
| Shrinking.DecodeBelow | modules/light-clients/xx-multiv/types/multiv.pb.go:653-802 | no bytes field of a decoded message is as long as the input |
| Paths.Rendered | modules/proxy/keeper/commitment.go:19-154 | the six kinds of path, letter by letter |
| Paths.DecimalIs | modules/proxy/keeper/commitment.go:98-154 | heights and sequences are printed as decimal numerals of their value, without leading zeros |
| Paths.RenderKeeps | modules/proxy/keeper/commitment.go:13-156 | two paths with one rendering are of one kind and name the same thing, with no assumption on identifiers; ports and channels up to their joint rendering |
| Paths.RenderInjective | modules/proxy/keeper/commitment.go:13-156 | with '/'-free ports, paths of all six kinds have different renderings |
| Paths.KeyAgreement | modules/proxy/types/keys.go:24-61 | for every kind of entry the key the keeper writes, the key a relayer queries and the path the downstream client verifies are one string |
| Paths.ProxyKeyInjective | modules/proxy/keeper/keeper.go:43-50 | with '/'-free ids and prefixes a key determines upstream, prefix and rest |
| Paths.SlashFreeSeparate | modules/proxy/keeper/keeper.go:43-50 | entries of different '/'-free client ids are apart whatever the prefixes; of one client, those of different '/'-free prefixes are |
| Paths.EntriesCollideIff | modules/proxy/keeper/keeper.go:43-50 | for ids and prefixes of any form: two upstreams have an entry key in common if and only if the store prefix of one is that of the other, or goes on from it into clients/, connections/, channelEnds/ports/, commitments/ports/ or acks/ports/ |
| Paths.SlashInPrefixCollides | modules/proxy/types/keys.go:24-27 | a prefix with a '/' for which a client entry and a connection entry share one key |
| Clients.NestedLocation | modules/light-clients/xx-proxy/types/client_state.go:158-163 | for a Proxy client behind a Proxy client, the inner path prefix lies inside the outer one, store name, client id and prefix in the order of README.md:73 |
| Clients.ConsensusKeyMatches | modules/light-clients/xx-proxy/types/update.go:68-68 | every consensus state key matches the regular expression of the extractor store |
| Clients.ConsensusKeyIff | modules/light-clients/xx-proxy/types/update.go:68-68 | nothing else matches: a key matches if and only if it is consensusStates/, digits, a dash and digits; so it has no further '/' |
| Clients.MetadataPasses | modules/light-clients/xx-proxy/types/update.go:70-76 | every key beside a consensus state (such as its processedTime) and every key outside of them reads through the extractor unchanged |
| Clients.ExtractRead | modules/light-clients/xx-proxy/types/update.go:70-86 | reading a consensus state through the extractor store is reading the wrapped one and taking its content |
| Clients.VerifyProxyStateLoop | modules/light-clients/xx-multiv/types/client_state.go:150-220 | the loop that replaces the trusted proxy states computes the recursive walk over head and branches |
| Soundness.VerifySound | modules/light-clients/xx-proxy/types/client_state.go:116-163 | for every nesting of Proxy, MultiV and plain clients, all six kinds of claim and all proofs: what is accepted has evidence at the consensus state stored for that height |
| Soundness.IBCSound | modules/light-clients/xx-proxy/types/client_state.go:116-123 | what a verified proxy's inner client accepts is vouched for by the consensus state inside the verified one, whatever height the proof names |
| Soundness.MultiStageSound | modules/light-clients/xx-multiv/types/client_state.go:116-251 | an accepted client or consensus state comes with exactly depth + 1 proxies, each held by the chain of the one before under its upstream client id and IBC prefix; the last one's chain holds that client state, or that consensus state at that very height; the proof's first height is the one asked about |
| Soundness.MultiStageInTrees | modules/light-clients/xx-multiv/types/client_state.go:116-220 | the same over plain clients in terms of trees: each tree holds the next proxy, and the last tree holds the client state at its path, or the consensus state at the path of exactly that height |
| Soundness.PlainVouched | modules/light-clients/xx-proxy/types/client_state.go:116-163 | for a plain client, evidence exists if and only if the tree behind the root holds the value at the path |
| Soundness.DirectVouches | modules/light-clients/xx-multiv/types/client_state.go:222-236 | through a MultiV client, connections, channels and packets are facts of the tracked chain's own tree |
| Completeness.AssembleRoundTrip | modules/light-clients/xx-multiv/types/commitment.go:29-39 | a MultiProof packed in an Any and marshaled is what unmarshalProof finds |
| Completeness.MakeMultiProof | testing/multiv.go:191-211 | the loop that appends the branches packs head, all branches in order, and leaf |
| Completeness.ProveAccepted | testing/multiv.go:143-211 | the converse of soundness: from any evidence the assembled bytes, encoded and decoded again, are accepted, for every nesting of clients |
| Completeness.HonestChainAccepted | testing/multiv.go:143-211 | for an honest chain of proxies of any length stored on its chains, and that client state, or that consensus state at that height, in the last tree, the proof is accepted by a MultiV client whose depth is the number of branches |
| Simulation.MetadataOnly | modules/light-clients/xx-proxy/types/update.go:15-31 | through any wrapping, updating a client writes no consensus state key by itself |
| Simulation.ExtractAfterUpdate | modules/light-clients/xx-proxy/types/update.go:70-86 | unwrapping a store commutes with removing keys of any kind from it and with writing metadata and a wrapped consensus state to it |
| Simulation.AdvanceSimulates | modules/light-clients/xx-proxy/types/update.go:15-31 | a header is accepted by the Proxy client if and only if the inner client is active and accepts it, and the two stay related, also when the inner client prunes consensus states |
| Simulation.WrapperSimulation | modules/light-clients/xx-proxy/types/update.go:15-31 | over every sequence of headers the same ones are accepted, and the unwrapped store is the inner client's store |
| Simulation.MetadataReadsSame | modules/light-clients/xx-proxy/types/update.go:70-86 | after any sequence of headers, keys beside the consensus states and outside of them hold the same in both stores |
| Simulation.WrapperAnswers | modules/light-clients/xx-proxy/types/client_state.go:47-163 | after any sequence of headers both have one latest height and one status, and give the same verification answers, up to the path prefix |
| Simulation.MultiVTransparent | modules/light-clients/xx-multiv/types/update.go:11-22 | a MultiV client accepts the headers its underlying client accepts, over the same store, and keeps its height and status |
| Keepers.Keeper.SetProxyClientState | modules/proxy/keeper/commitment.go:75-86 | the store is the old one with the client state at clients/{id}/clientState under the upstream's root, and nothing else changed |
| Keepers.Keeper.SetProxyClientConsensusState | modules/proxy/keeper/commitment.go:88-100 | the same for a consensus state at the path of its height |
| Keepers.Keeper.SetProxyConnection | modules/proxy/keeper/commitment.go:102-113 | the same for a connection |
| Keepers.Keeper.SetProxyChannel | modules/proxy/keeper/commitment.go:115-128 | the same for a channel |
| Keepers.Keeper.SetProxyPacketCommitment | modules/proxy/keeper/commitment.go:130-142 | the same for a packet commitment |
| Keepers.Keeper.SetProxyPacketAcknowledgement | modules/proxy/keeper/commitment.go:144-156 | the same for an acknowledgement: the value stored is the commitment of the acknowledgement |
| Keepers.Keeper.VerifyAndProxy | modules/proxy/keeper/proxy.go:32-51 | writes the claim if and only if the upstream client accepts it; otherwise the store is unchanged |
| Keepers.Keeper.ClientState | modules/proxy/keeper/client.go:10-36 | the store and the answer are those of the message's function; if the second step fails the first one's write stays |
| Keepers.Keeper.ConnOpenTry | modules/proxy/keeper/connection.go:23-98 | the store and the answer are those of the message's function, on every early return too |
| Keepers.Keeper.ConnOpenAck | modules/proxy/keeper/connection.go:101-179 | the same |
| Keepers.Keeper.ConnOpenConfirm | modules/proxy/keeper/connection.go:182-220 | the same; on failure the store is unchanged |
| Keepers.Keeper.ConnOpenFinalize | modules/proxy/keeper/connection.go:223-259 | the same |
| Keepers.Keeper.ChanOpenTry | modules/proxy/keeper/channel.go:12-62 | the same |
| Keepers.Keeper.ChanOpenAck | modules/proxy/keeper/channel.go:65-119 | the same |
| Keepers.Keeper.ChanOpenConfirm | modules/proxy/keeper/channel.go:122-171 | the same |
| Keepers.Keeper.ChanOpenFinalize | modules/proxy/keeper/channel.go:174-219 | the same |
| Keepers.Keeper.RecvPacket | modules/proxy/keeper/packet.go:12-61 | the same |
| Keepers.Keeper.AcknowledgePacket | modules/proxy/keeper/packet.go:64-102 | the same |
| Writes.KeeperKeyInjective | modules/proxy/types/keys.go:24-61 | keys are equal if and only if upstream, prefix, kind, ids, sequence and height all are ('/'-free ids, prefixes and ports) |
| Writes.ConnectionAfter | modules/proxy/keeper/commitment.go:42-56 | after a write of any kind about any upstream, a connection reads as written if it was that very one, and as before otherwise |
| Writes.ChannelAfter | modules/proxy/keeper/commitment.go:58-73 | the same for channels |
| Writes.HandleStepByStep | modules/proxy/keeper/msg_server.go:14-168 | every message, successful or failing halfway, is a sequence of writes each of which was verified by the upstream client and permitted by the store it found |
| Isolation.SuccessIsStored | modules/proxy/keeper/msg_server.go:14-168 | what success of any of the eleven messages means: the claim the message is for is accepted by the upstream client and stored under its key |
| Isolation.OthersUntouched | modules/proxy/keeper/commitment.go:75-156 | a message about one upstream leaves every entry of an upstream apart from it present or absent, and with its value |
| Isolation.EntryMoves | modules/proxy/keeper/commitment.go:75-156 | an entry of any of the six kinds changes only by a message about its upstream and prefix that carries a claim under the same path, and to that claim's value |
| Isolation.SlashFreeAlone | modules/proxy/types/msgs.go:54-56 | nobody else writes among the entries of (u, p) if client ids have no '/' and what is stored about u, only that, is stored under '/'-free prefixes |
| Isolation.PlainStoresAlone | modules/proxy/keeper/keeper.go:43-50 | it is enough that u is tracked directly and that no store of its chain has a '/' in its name, whatever the messages hold |
| Worlds.CheckedCloses | modules/proxy/keeper/connection.go:46-95 | the checks of a Try or Ack establish the closed loop |
| Worlds.ConnectionOkAfter | modules/proxy/keeper/connection.go:194-259 | every permitted write, Confirm and Finalize included, keeps the loop of every connection closed |
| Worlds.ChannelOkAfter | modules/proxy/keeper/channel.go:30-216 | every permitted write keeps every channel coupled to its connection |
| Worlds.PacketOkAfter | modules/proxy/keeper/packet.go:20-98 | every permitted write keeps every packet entry with its channel |
| Invariants.EntryIsUpheld | modules/proxy/keeper/proxy.go:32-306 | faithfulness: in every state of every run, whatever interleaving and however handlers failed, an entry is a claim its upstream client vouched for, at that claim's own key, by a root of the upstream's history |
| Invariants.UpstreamIsOk | modules/proxy/keeper/channel.go:30-238 | in every state of every run: a channel has one hop, its connection is proxied with one version that supports the order, is OPEN unless the channel is in INIT, and an INIT channel has no counterparty channel; no read panics |
| Invariants.ChannelOrderNegotiated | modules/proxy/keeper/channel.go:221-238 | in every state of every run, the connection of a proxied channel has exactly one version, with ORDER_ORDERED, ORDER_UNORDERED or ORDER_NONE_UNSPECIFIED among its features as the channel's order is |
| Invariants.UnnegotiatedRefused | modules/proxy/keeper/channel.go:41-43 | a Try or Ack over a connection for which this does not hold fails and writes nothing |
| Invariants.ReceivedForPeer | modules/proxy/keeper/packet.go:25-38 | a packet is accepted only for the port and the channel of the channel's counterparty |
| Invariants.PacketHasHop | modules/proxy/keeper/packet.go:20-98 | in every state of every run a packet commitment or acknowledgement has a proxied channel with one hop whose connection is proxied |
| Invariants.ReceivedOverOpen | modules/proxy/keeper/packet.go:20-48 | in every state of every run: of an accepted packet, connection and channel are both OPEN if and only if the channel is; the connection alone is not only for a channel in INIT and a packet without destination channel |
| Invariants.AcknowledgedOverOpen | modules/proxy/keeper/packet.go:73-87 | the same for an accepted acknowledgement: both are OPEN if and only if the channel is |
| Scenario.PacketsOverUnopened | modules/proxy/keeper/packet.go:20-98 | a run with sound light clients in which both handlers succeed over a connection and a channel in INIT, and again over an OPEN connection and a channel in TRYOPEN, against the comment in the source |
| Progress.UnopenedAcknowledged | modules/proxy/keeper/packet.go:73-98 | in any state with connection and channel in INIT, any acknowledgement the upstream holds is taken |
| Invariants.StepMovesChannel | modules/proxy/keeper/channel.go:30-216 | a channel changes only by a message about this upstream, prefix and channel: Try (to INIT without counterparty channel), Ack (to TRYOPEN), Confirm (INIT to OPEN, setting only the counterparty channel) or Finalize (TRYOPEN to OPEN, setting nothing else) |
| Isolation.OpenChannelChangesIff | modules/proxy/keeper/channel.go:30-119 | in one step an OPEN channel changes if and only if a Try or an Ack for it succeeds |
| Scenario.OpenChannelGoesBack | modules/proxy/keeper/channel.go:30-119 | a run with sound light clients in which an OPEN channel goes back to INIT by Try, and to TRYOPEN by Ack |
| Progress.OpenChannelFallsBack | modules/proxy/keeper/channel.go:30-61 | in any state, an OPEN channel that was in INIT under a root still known to the client goes back to it by Try |
| Invariants.StepMovesConnection | modules/proxy/keeper/connection.go:51-256 | a connection changes only by a message about this upstream, prefix and id: Try to INIT, Ack to TRYOPEN, Confirm from INIT to OPEN, Finalize from TRYOPEN to OPEN |
| Invariants.ConnectionLife | modules/proxy/keeper/connection.go:51-256 | between any two states of a run: never removed, opened at most once, frozen once OPEN; client, versions, delay, counterparty client and prefix never change |
| Invariants.KeysStay | modules/proxy/keeper/commitment.go:75-156 | no entry is ever removed |
| EndToEnd.LoopInTrees | modules/proxy/keeper/connection.go:46-95 | loop closure in every state of every run: for each proxied connection the upstream vouched for a downstream client and state, and these (of a MultiV client, its underlying client) for a Proxy client under the counterparty's client id, with this proxy's prefixes and exactly the upstream id the entry is keyed by, and for this chain's own consensus state; where the downstream client is plain, or MultiV around a plain one, both are in the downstream tree |
| EndToEnd.EntryInHistory | modules/proxy/keeper/proxy.go:32-306 | an entry about an upstream tracked directly is the value at that prefix and path in a tree of the upstream's history |
| EndToEnd.AcknowledgementStored | modules/proxy/keeper/commitment.go:144-156 | after a successful AcknowledgePacket the entry at the packet's path is the commitment of that acknowledgement, and a tree of the upstream's history holds the same commitment there |
| EndToEnd.TwoHopSound | modules/light-clients/xx-proxy/types/client_state.go:126-163 | in every run: what a downstream Proxy client accepts about (upstream, prefix), the upstream chain held at prefix and path, in a state no later than the proxy state the proof was checked against |
| EndToEnd.EntryStable | modules/proxy/keeper/packet.go:48-98 | where the upstream never rebinds a path, as for packets, the proxied entry never changes after its first write |
| Progress.OpeningEnabled | modules/proxy/keeper/connection.go:23-98 | if upstream and downstream hold what the handshake asks for, a message exists that opens the connection in a store without it |
| Progress.MultiVDownstreamOpens | modules/proxy/keeper/connection.go:72-88 | the same for a downstream tracked through a MultiV client around d: the proxy's client and consensus state are shown to d itself, and Try and Ack are accepted |
| Progress.TryThenConfirm | modules/proxy/keeper/connection.go:182-220 | INIT and later OPEN upstream: Try and then Confirm are enabled, whatever changed in the clients between, and end with the upstream's OPEN end |
| Progress.AckThenFinalize | modules/proxy/keeper/connection.go:223-259 | the same from TRYOPEN by Ack and Finalize |
| Progress.ClientStateEnabled | modules/proxy/keeper/client.go:10-36 | a client and a consensus state that the upstream holds can be proxied by one message, which stores both |
| Progress.ChannelTryEnabled | modules/proxy/keeper/channel.go:30-61 | a channel the upstream has in INIT can be stored as it is, over a connection with its order |
| Progress.ChannelAckEnabled | modules/proxy/keeper/channel.go:83-118 | a channel the upstream has in TRYOPEN can be stored as it is, over an OPEN connection with its order |
| Progress.ChannelConfirmEnabled | modules/proxy/keeper/channel.go:136-170 | a channel in INIT is opened with the counterparty channel the upstream has |
| Progress.ChannelFinalizeEnabled | modules/proxy/keeper/channel.go:187-218 | a channel in TRYOPEN is opened |
| Progress.ReceiveEnabled | modules/proxy/keeper/packet.go:20-60 | a packet for the channel's counterparty whose commitment the upstream holds is accepted, and its commitment stored |
| Progress.TwoHopComplete | modules/light-clients/xx-proxy/types/client_state.go:126-163 | the converse of TwoHopSound: what the proxy store holds, the downstream Proxy client accepts with an honest proof |

## Left out

- Which error is returned: the model has failure only. A panic (a stored value of the wrong type, a channel without hops) counts as a failed call; `Invariants.UpstreamIsOk` shows the reads of connections and channels never meet one.
- Values in stores are typed, not bytes: the encodings of client states, connections and channels belong to ibc-go. Only the MultiProof and MultiV messages, and the Any and Height inside them, are modelled as bytes.
- nil and empty byte slices are one value, as proto3 has it on the wire.
- The codecs of Any and of Height are not part of this repository; they are written from their published message definitions. That Any keeps unrecognized bytes is not modelled.
- `MultiPrefix` belongs to a fork of ibc-go that is not part of this model; `Clients.Locate` lays a path out as README.md:73 says, and the bytes of a `MultiPrefix` under another one join with a '/'.
- Merkle proofs, Tendermint headers, signatures and hashing: an `Oracle`, assumed sound for soundness results, and able to prove what is there (and to unpack what it packed) for completeness results.
- Simulation.WrapperSimulation: a client's store is modelled without the entry for the client state itself, which the IBC host writes, and the stores start out related; initialization of metadata is not modelled.
- Delay periods and gas: the block delay is the constant 0 (`modules/proxy/keeper/proxy.go:419-422`) and the time delay is checked inside the plain client.
- Upgrade, misbehaviour and substitution of clients: they hand the raw store to the inner client.
- `VerifyAndProxyPacketReceiptAbsence` and `VerifyAndProxyNextSequenceRecv`: no message reaches them.
- `modules/proxy/types/tx.pb.go` and the two `proxy.pb.go`: the same generated shape as `multiv.pb.go`.
- Message constructors, genesis, command line, module wiring, the test application and its coordinator.
- Repetition: `ConnOpenTry` and `ConnOpenAck` share their steps in one method with the expected stage as a parameter; the six `VerifyAndProxy*` functions are one method that calls six setters; the generated decoders share the handling of tags, lengths and unknown fields.
- The array loops of the Any and Height decoders, which lie in other packages: their payloads are decoded by the functions that specify them.
- EndToEnd.TwoHopSound: takes upstream clients that are plain, or for claims other than clients also MultiV around a plain one. For a MultiV upstream, client and consensus entries are facts at the end of its chain of proxies, which `Invariants.EntryIsUpheld` and `Soundness.MultiStageSound` describe.
- Invariants.UpstreamIsOk: takes that nobody else stores among the entries of the upstream and prefix it speaks of (`Worlds.Alone`), because the code does not keep all ids and prefixes apart (`Paths.EntriesCollideIff`).
