/** Commitment paths: the ICS-24 paths of an IBC host, the keys under which the proxy stores what it
    verified, and when two of them can be the same. */
module Paths {
  import opened Wire
  import opened Messages

  // ---- decimal numbers and heights, as fmt.Sprintf("%d-%d") prints them ----

  predicate IsDigit(c: char) {
    '0' <= c <= '9'
  }

  predicate IsDigits(s: string) {
    |s| > 0 && forall i :: 0 <= i < |s| ==> IsDigit(s[i])
  }

  function Digit(n: nat): char
    requires n < 10
  {
    ['0', '1', '2', '3', '4', '5', '6', '7', '8', '9'][n]
  }

  function Decimal(n: nat): (s: string)
    ensures IsDigits(s)
  {
    if n < 10 then [Digit(n)] else Decimal(n / 10) + [Digit(n % 10)]
  }

  lemma {:induction false} DecimalInjective(m: nat, n: nat)
    requires Decimal(m) == Decimal(n)
    ensures m == n
  {
    var s, t := Decimal(m), Decimal(n);
    assert s[|s| - 1] == Digit(m % 10) && t[|t| - 1] == Digit(n % 10);
    assert m % 10 == n % 10;
    if m >= 10 && n >= 10 {
      assert s[..|s| - 1] == Decimal(m / 10) && t[..|t| - 1] == Decimal(n / 10);
      DecimalInjective(m / 10, n / 10);
    }
  }

  function Numeral(s: string): int {
    if s == [] then 0 else 10 * Numeral(s[..|s| - 1]) + (s[|s| - 1] as int - '0' as int)
  }

  /** The decimal numeral of n, without leading zeros. */
  lemma {:induction false} DecimalIs(n: nat)
    ensures Numeral(Decimal(n)) == n
    ensures if n == 0 then Decimal(n) == "0" else Decimal(n)[0] != '0'
  {
    var s := Decimal(n);
    assert s[|s| - 1] as int - '0' as int == n % 10;
    if n < 10 {
      assert s[..|s| - 1] == [];
    } else {
      DecimalIs(n / 10);
      assert s[..|s| - 1] == Decimal(n / 10);
    }
  }

  function HeightString(h: Height): string {
    Decimal(h.revisionNumber) + "-" + Decimal(h.revisionHeight)
  }

  lemma HeightStringInjective(g: Height, h: Height)
    requires HeightString(g) == HeightString(h)
    ensures g == h
  {
    var x, y := Decimal(g.revisionNumber), Decimal(h.revisionNumber);
    FirstMark('-', x, Decimal(g.revisionHeight), y, Decimal(h.revisionHeight));
    DecimalInjective(g.revisionNumber, h.revisionNumber);
    DecimalInjective(g.revisionHeight, h.revisionHeight);
  }

  // ---- splitting at a mark ----

  predicate Free(mark: char, s: string) {
    forall i :: 0 <= i < |s| ==> s[i] != mark
  }

  predicate SlashFree(s: string) {
    Free('/', s)
  }

  lemma FirstMark(mark: char, a: string, b: string, c: string, d: string)
    requires a + [mark] + b == c + [mark] + d
    requires Free(mark, a) && Free(mark, c)
    ensures a == c && b == d
  {
    var s := a + [mark] + b;
    assert s[|a|] == mark && s[|c|] == mark;
    assert s[..|a|] == a && s[..|c|] == c;
    assert s[|a| + 1..] == b && s[|c| + 1..] == d;
    assert forall i :: 0 <= i < |a| ==> s[i] == a[i] != mark;
    assert forall i :: 0 <= i < |c| ==> s[i] == c[i] != mark;
  }

  lemma LastMark(mark: char, a: string, b: string, c: string, d: string)
    requires a + [mark] + b == c + [mark] + d
    requires Free(mark, b) && Free(mark, d)
    ensures a == c && b == d
  {
    var s := a + [mark] + b;
    assert s[|a|] == mark && s[|c|] == mark;
    assert s[..|a|] == a && s[..|c|] == c;
    assert s[|a| + 1..] == b && s[|c| + 1..] == d;
    assert forall i :: |a| < i < |s| ==> s[i] == b[i - |a| - 1] != mark;
    assert forall i :: |c| < i < |s| ==> s[i] == d[i - |c| - 1] != mark;
  }

  // ---- ICS-24 paths ----

  datatype Path =
    | ClientPath(client: string)
    | ConsensusPath(client: string, height: Height)
    | ConnectionPath(connection: string)
    | ChannelPath(port: string, channel: string)
    | CommitmentPath(port: string, channel: string, sequence: uint64)
    | AckPath(port: string, channel: string, sequence: uint64)

  const CLIENT_STATE_KEY := "clientState"

  function ConsensusStateKey(h: Height): string {
    "consensusStates/" + HeightString(h)
  }

  function Kind(p: Path): string {
    match p
    case ClientPath(_) => "clients"
    case ConsensusPath(_, _) => "clients"
    case ConnectionPath(_) => "connections"
    case ChannelPath(_, _) => "channelEnds"
    case CommitmentPath(_, _, _) => "commitments"
    case AckPath(_, _, _) => "acks"
  }

  function ChannelEnd(port: string, channel: string): string {
    "ports/" + port + "/" + ("channels/" + channel)
  }

  function Rest(p: Path): string {
    match p
    case ClientPath(id) => id + "/" + CLIENT_STATE_KEY
    case ConsensusPath(id, h) => id + "/" + ConsensusStateKey(h)
    case ConnectionPath(id) => id
    case ChannelPath(port, channel) => ChannelEnd(port, channel)
    case CommitmentPath(port, channel, n) => ChannelEnd(port, channel) + "/sequences" + "/" + Decimal(n)
    case AckPath(port, channel, n) => ChannelEnd(port, channel) + "/sequences" + "/" + Decimal(n)
  }

  function Render(p: Path): string {
    Kind(p) + "/" + Rest(p)
  }

  // (k + m) + (id + m + rest), with the slashes joined to what is around them
  lemma SlashesJoin(k: string, id: string, m: string, rest: string)
    ensures (k + m) + (id + m + rest) == (k + m) + id + (m + rest)
  {
  }

  lemma ChannelEndIs(port: string, channel: string)
    ensures ChannelEnd(port, channel) == PortAndChannel(port, channel)
  {
    assert "/" + "channels/" == "/channels/";
    Regroup("ports/" + port, "/", "channels/" + channel);
    Regroup("/", "channels/", channel);
    Regroup("ports/" + port, "/channels/", channel);
  }

  lemma SequenceRendered(k: string, end: string, n: string)
    ensures (k + "/") + (end + "/sequences" + "/" + n) == (k + "/") + end + "/sequences/" + n
  {
    assert "/sequences" + "/" == "/sequences/";
    Regroup(end, "/sequences", "/");
    Regroup(k + "/", end + "/sequences/", n);
    Regroup(k + "/", end, "/sequences/");
  }

  /** The paths of ICS-24, letter by letter. */
  lemma Rendered(p: Path)
    ensures match p
            case ClientPath(id) => Render(p) == "clients/" + id + "/clientState"
            case ConsensusPath(id, h) =>
              Render(p) == "clients/" + id
                           + ("/consensusStates/" + (Decimal(h.revisionNumber) + "-" + Decimal(h.revisionHeight)))
            case ConnectionPath(id) => Render(p) == "connections/" + id
            case ChannelPath(port, channel) => Render(p) == "channelEnds/" + PortAndChannel(port, channel)
            case CommitmentPath(port, channel, n) =>
              Render(p) == "commitments/" + PortAndChannel(port, channel) + "/sequences/" + Decimal(n)
            case AckPath(port, channel, n) =>
              Render(p) == "acks/" + PortAndChannel(port, channel) + "/sequences/" + Decimal(n)
  {
    hide Decimal, ChannelEnd, PortAndChannel;
    match p {
      case ClientPath(id) => ClientRendered(id);
      case ConsensusPath(id, h) => ConsensusRendered(id, h);
      case ConnectionPath(_) => assert "connections" + "/" == "connections/";
      case ChannelPath(port, channel) =>
        assert "channelEnds" + "/" == "channelEnds/";
        ChannelEndIs(port, channel);
      case CommitmentPath(port, channel, n) =>
        assert "commitments" + "/" == "commitments/";
        ChannelEndIs(port, channel);
        SequenceRendered("commitments", ChannelEnd(port, channel), Decimal(n));
      case AckPath(port, channel, n) =>
        assert "acks" + "/" == "acks/";
        ChannelEndIs(port, channel);
        SequenceRendered("acks", ChannelEnd(port, channel), Decimal(n));
    }
  }

  lemma ClientRendered(id: string)
    ensures Render(ClientPath(id)) == "clients/" + id + "/clientState"
  {
    assert "clients" + "/" == "clients/" && "/" + "clientState" == "/clientState";
    SlashesJoin("clients", id, "/", "clientState");
  }

  lemma ConsensusRendered(id: string, h: Height)
    ensures Render(ConsensusPath(id, h)) ==
            "clients/" + id + ("/consensusStates/" + (Decimal(h.revisionNumber) + "-" + Decimal(h.revisionHeight)))
  {
    hide Decimal;
    assert "clients" + "/" == "clients/" && "/" + "consensusStates/" == "/consensusStates/";
    SlashesJoin("clients", id, "/", ConsensusStateKey(h));
    Regroup("/", "consensusStates/", HeightString(h));
  }

  function PortAndChannel(port: string, channel: string): string {
    "ports/" + port + "/channels/" + channel
  }

  lemma KindSlashFree(p: Path)
    ensures SlashFree(Kind(p))
  {
  }

  lemma DigitsSlashFree(s: string)
    requires IsDigits(s)
    ensures SlashFree(s) && Free('-', s)
  {
  }

  lemma HeightSlashFree(h: Height)
    ensures SlashFree(HeightString(h)) && IsDigit(HeightString(h)[0])
  {
    DigitsSlashFree(Decimal(h.revisionNumber));
    DigitsSlashFree(Decimal(h.revisionHeight));
  }

  lemma ConsensusRestSplit(id: string, h: Height)
    ensures Rest(ConsensusPath(id, h)) == (id + "/consensusStates") + "/" + HeightString(h)
  {
    assert ConsensusStateKey(h) == "consensusStates" + "/" + HeightString(h);
  }

  /** A client path never renders as a consensus path. */
  lemma ClientIsNotConsensus(id: string, id': string, h: Height)
    ensures Rest(ClientPath(id)) != Rest(ConsensusPath(id', h))
  {
    assert CLIENT_STATE_KEY[0] == 'c';
    if Rest(ClientPath(id)) == Rest(ConsensusPath(id', h)) {
      ConsensusRestSplit(id', h);
      HeightSlashFree(h);
      LastMark('/', id, CLIENT_STATE_KEY, id' + "/consensusStates", HeightString(h));
      assert false;
    }
  }

  /** What equal renderings have in common, with no assumption about the identifiers in them. */
  lemma RenderKeeps(x: Path, y: Path)
    requires Render(x) == Render(y)
    ensures match (x, y)
            case (ClientPath(_), ClientPath(_)) => x == y
            case (ConsensusPath(_, _), ConsensusPath(_, _)) => x == y
            case (ConnectionPath(_), ConnectionPath(_)) => x == y
            case (ChannelPath(p, c), ChannelPath(q, d)) => ChannelEnd(p, c) == ChannelEnd(q, d)
            case (CommitmentPath(p, c, m), CommitmentPath(q, d, n)) =>
              m == n && ChannelEnd(p, c) == ChannelEnd(q, d)
            case (AckPath(p, c, m), AckPath(q, d, n)) =>
              m == n && ChannelEnd(p, c) == ChannelEnd(q, d)
            case _ => false
  {
    hide ChannelEnd, HeightString, Decimal;
    KindSlashFree(x);
    KindSlashFree(y);
    FirstMark('/', Kind(x), Rest(x), Kind(y), Rest(y));
    match (x, y) {
      case (ClientPath(a), ClientPath(b)) =>
        LastMark('/', a, CLIENT_STATE_KEY, b, CLIENT_STATE_KEY);
      case (ConsensusPath(a, g), ConsensusPath(b, h)) =>
        ConsensusKeeps(a, g, b, h);
      case (ClientPath(a), ConsensusPath(b, h)) =>
        ClientIsNotConsensus(a, b, h);
      case (ConsensusPath(b, h), ClientPath(a)) =>
        ClientIsNotConsensus(a, b, h);
      case (CommitmentPath(p, c, m), CommitmentPath(q, d, n)) =>
        SequenceKeeps(ChannelEnd(p, c), m, ChannelEnd(q, d), n);
      case (AckPath(p, c, m), AckPath(q, d, n)) =>
        SequenceKeeps(ChannelEnd(p, c), m, ChannelEnd(q, d), n);
      case _ =>
    }
  }

  lemma ConsensusKeeps(a: string, g: Height, b: string, h: Height)
    requires Rest(ConsensusPath(a, g)) == Rest(ConsensusPath(b, h))
    ensures a == b && g == h
  {
    hide Rest, HeightString;
    ConsensusRestSplit(a, g);
    ConsensusRestSplit(b, h);
    HeightSlashFree(g);
    HeightSlashFree(h);
    LastMark('/', a + "/consensusStates", HeightString(g), b + "/consensusStates", HeightString(h));
    HeightStringInjective(g, h);
    assert (a + "/consensusStates")[..|a|] == a && (b + "/consensusStates")[..|b|] == b;
  }

  lemma SequenceKeeps(a: string, m: nat, b: string, n: nat)
    requires a + "/sequences" + "/" + Decimal(m) == b + "/sequences" + "/" + Decimal(n)
    ensures a == b && m == n
  {
    DigitsSlashFree(Decimal(m));
    DigitsSlashFree(Decimal(n));
    LastMark('/', a + "/sequences", Decimal(m), b + "/sequences", Decimal(n));
    DecimalInjective(m, n);
    assert (a + "/sequences")[..|a|] == a && (b + "/sequences")[..|b|] == b;
  }

  predicate PortSlashFree(p: Path) {
    (p.ChannelPath? || p.CommitmentPath? || p.AckPath?) ==> SlashFree(p.port)
  }

  lemma ChannelEndInjective(p: string, c: string, q: string, d: string)
    requires SlashFree(p) && SlashFree(q)
    requires ChannelEnd(p, c) == ChannelEnd(q, d)
    ensures p == q && c == d
  {
    var x, y := ChannelEnd(p, c), ChannelEnd(q, d);
    assert x[6..] == p + "/" + ("channels/" + c);
    assert y[6..] == q + "/" + ("channels/" + d);
    FirstMark('/', p, "channels/" + c, q, "channels/" + d);
    assert ("channels/" + c)[9..] == c && ("channels/" + d)[9..] == d;
  }

  /** Paths whose port has no slash are told apart by their renderings. */
  lemma RenderInjective(x: Path, y: Path)
    requires Render(x) == Render(y) && PortSlashFree(x) && PortSlashFree(y)
    ensures x == y
  {
    hide Render, ChannelEnd;
    RenderKeeps(x, y);
    if x.ChannelPath? || x.CommitmentPath? || x.AckPath? {
      ChannelEndInjective(x.port, x.channel, y.port, y.channel);
    }
  }

  // ---- keys of the proxy store ----

  /** ProxyKey of keys.go: what a relayer queries. */
  function ProxyKey(upstreamPrefix: string, upstreamClient: string, key: string): string {
    (upstreamClient + "/") + (upstreamPrefix + "/") + key
  }

  /** The prefix of ProxyStore in keeper.go, ... */
  function ProxyStorePrefix(upstreamPrefix: string, upstreamClient: string): string {
    upstreamClient + "/" + (upstreamPrefix + "/")
  }

  /** ... which ProxyClientStore extends. */
  function ProxyClientStorePrefix(upstreamPrefix: string, upstreamClient: string, counterparty: string): string {
    ProxyStorePrefix(upstreamPrefix, upstreamClient) + ("clients/" + counterparty + "/")
  }

  /** The key the keeper writes for a path: through ProxyClientStore for clients and consensus
      states, through ProxyStore for the rest. */
  function KeeperKey(upstreamPrefix: string, upstreamClient: string, path: Path): string {
    match path
    case ClientPath(id) => ProxyClientStorePrefix(upstreamPrefix, upstreamClient, id) + CLIENT_STATE_KEY
    case ConsensusPath(id, h) => ProxyClientStorePrefix(upstreamPrefix, upstreamClient, id) + ConsensusStateKey(h)
    case _ => ProxyStorePrefix(upstreamPrefix, upstreamClient) + Render(path)
  }

  /** The path prefix the downstream Proxy client puts in front (newPrefix of client_state.go), and a
      slash between prefix and path. */
  function DownstreamKey(upstreamPrefix: string, upstreamClient: string, path: Path): string {
    (upstreamClient + "/" + upstreamPrefix) + "/" + Render(path)
  }

  lemma Regroup(a: string, b: string, c: string)
    ensures (a + b) + c == a + (b + c)
  {
  }

  lemma ClientRest(id: string, key: string)
    ensures "clients" + "/" + (id + "/" + key) == ("clients/" + id + "/") + key
  {
    assert "clients" + "/" == "clients/";
    Regroup("clients/", id + "/", key);
    Regroup("clients/", id, "/");
  }

  lemma DownstreamAgrees(p: string, u: string, key: string)
    ensures ProxyKey(p, u, key) == ProxyStorePrefix(p, u) + key == (u + "/" + p) + "/" + key
  {
    Regroup(u + "/", p, "/");
  }

  /** The key that is written, the key that is queried and the key that is verified are one. */
  lemma KeyAgreement(p: string, u: string, path: Path)
    ensures KeeperKey(p, u, path) == ProxyKey(p, u, Render(path)) == DownstreamKey(p, u, path)
  {
    hide ConsensusStateKey, ChannelEnd, ProxyStorePrefix, ProxyKey;
    DownstreamAgrees(p, u, Render(path));
    match path {
      case ClientPath(id) =>
        ClientRest(id, CLIENT_STATE_KEY);
        Regroup(ProxyStorePrefix(p, u), "clients/" + id + "/", CLIENT_STATE_KEY);
      case ConsensusPath(id, h) =>
        ClientRest(id, ConsensusStateKey(h));
        Regroup(ProxyStorePrefix(p, u), "clients/" + id + "/", ConsensusStateKey(h));
      case _ =>
    }
  }

  /** With '/'-free client ids and prefixes, a key says whose entry it is. */
  lemma ProxyKeyInjective(p: string, u: string, k: string, p': string, u': string, k': string)
    requires SlashFree(u) && SlashFree(p) && SlashFree(u') && SlashFree(p')
    requires ProxyKey(p, u, k) == ProxyKey(p', u', k')
    ensures u == u' && p == p' && k == k'
  {
    assert ProxyKey(p, u, k) == u + "/" + (p + "/" + k);
    assert ProxyKey(p', u', k') == u' + "/" + (p' + "/" + k');
    FirstMark('/', u, p + "/" + k, u', p' + "/" + k');
    FirstMark('/', p, k, p', k');
  }

  // ---- whose entries a key can belong to ----

  /** No entry of (u, p) is an entry of (u', p'). */
  ghost predicate Apart(u: string, p: string, u': string, p': string) {
    forall x, y :: KeeperKey(p, u, x) != KeeperKey(p', u', y)
  }

  ghost predicate Separate(u: string, p: string, u': string, p': string) {
    (u == u' && p == p') || Apart(u, p, u', p')
  }

  /** '/'-free client ids are told apart whatever the prefixes; of one client, '/'-free prefixes are. */
  lemma SlashFreeSeparate(u: string, p: string, u': string, p': string)
    requires SlashFree(u) && SlashFree(u') && (u == u' ==> SlashFree(p) && SlashFree(p'))
    ensures Separate(u, p, u', p')
  {
    hide KeeperKey, Render, SlashFree;
    forall x, y | KeeperKey(p, u, x) == KeeperKey(p', u', y)
      ensures u == u' && p == p'
    {
      KeyAgreement(p, u, x);
      KeyAgreement(p', u', y);
      ClientOfKey(p, u, Render(x), p', u', Render(y));
      if u == u' { ProxyKeyInjective(p, u, Render(x), p', u', Render(y)); }
    }
  }

  lemma ClientOfKey(p: string, u: string, k: string, p': string, u': string, k': string)
    requires SlashFree(u) && SlashFree(u') && ProxyKey(p, u, k) == ProxyKey(p', u', k')
    ensures u == u'
  {
    assert ProxyKey(p, u, k) == u + "/" + (p + "/" + k);
    assert ProxyKey(p', u', k') == u' + "/" + (p' + "/" + k');
    FirstMark('/', u, p + "/" + k, u', p' + "/" + k');
  }

  /** A rest of a root that leads from the entries of one upstream to those of another: nothing, or the
      beginning of a rendered path up to where an identifier may stand. */
  predicate LeadsToEntries(s: string) {
    s == "" || "clients/" <= s || "connections/" <= s || "channelEnds/ports/" <= s
    || "commitments/ports/" <= s || "acks/ports/" <= s
  }

  /** One root goes on from the other in such a way. */
  predicate RootsMeet(r: string, r': string) {
    r <= r' && LeadsToEntries(r'[|r|..])
  }

  lemma KeyIsRooted(p: string, u: string, path: Path)
    ensures KeeperKey(p, u, path) == ProxyStorePrefix(p, u) + Render(path)
  {
    hide KeeperKey, Render, ProxyStorePrefix, DownstreamKey;
    KeyAgreement(p, u, path);
    DownstreamAgrees(p, u, Render(path));
  }

  lemma RootEnds(p: string, u: string)
    ensures |ProxyStorePrefix(p, u)| > 0 && ProxyStorePrefix(p, u)[|ProxyStorePrefix(p, u)| - 1] == '/'
  {
  }

  /** A string that goes on to a rest, and ends in '/', passes the first segment of the whole. */
  lemma FirstSegment(s: string, t: string, a: string, b: string)
    requires s + t == a + "/" + b && SlashFree(a)
    requires s != "" && s[|s| - 1] == '/'
    ensures a + "/" <= s && s[|a| + 1..] + t == b
  {
    var w := s + t;
    assert w[|s| - 1] == '/';
    assert forall i :: 0 <= i < |a| ==> w[i] == a[i];
    assert w[..|a| + 1] == a + "/" && w[|a| + 1..] == b;
  }

  lemma KindIsNotPorts(y: Path, b: string)
    ensures Render(y) != "ports" + "/" + b
  {
    if Render(y) == "ports" + "/" + b {
      KindSlashFree(y);
      FirstMark('/', Kind(y), Rest(y), "ports", b);
      assert false;
    }
  }

  lemma PortsEnd(port: string, channel: string) returns (tail: string)
    ensures ChannelEnd(port, channel) == "ports" + "/" + tail
  {
    tail := port + "/" + ("channels/" + channel);
    assert "ports" + "/" == "ports/";
    Regroup("ports/", port, "/");
    Regroup("ports/", port + "/", "channels/" + channel);
  }

  lemma PortsRest(x: Path)
    requires !x.ClientPath? && !x.ConsensusPath? && !x.ConnectionPath?
    ensures exists b :: Rest(x) == "ports" + "/" + b
  {
    hide ChannelEnd, Decimal;
    var tail := PortsEnd(x.port, x.channel);
    if x.ChannelPath? {
      assert Rest(x) == "ports" + "/" + tail;
    } else {
      var n := "/sequences" + "/" + Decimal(x.sequence);
      TailRegroups(ChannelEnd(x.port, x.channel), Decimal(x.sequence));
      Regroup("ports" + "/", tail, n);
      assert Rest(x) == "ports" + "/" + (tail + n);
    }
  }

  /** Past the kind of a channel or packet path, what leads on goes past "ports/" too. */
  lemma PortsLead(s: string, k: string, rest: string, y: Path)
    requires s + Render(y) == k + "/" + rest && SlashFree(k) && s != "" && s[|s| - 1] == '/'
    requires exists b :: rest == "ports" + "/" + b
    ensures k + "/" + ("ports" + "/") <= s
  {
    hide Render;
    var b :| rest == "ports" + "/" + b;
    FirstSegment(s, Render(y), k, rest);
    var s' := s[|k| + 1..];
    KindIsNotPorts(y, b);
    assert "" + Render(y) == Render(y);
    assert s' != "";
    FirstSegment(s', Render(y), "ports", b);
  }

  /** What leads from one rendered path to another is of the listed form. */
  lemma MeetingLeads(s: string, x: Path, y: Path)
    requires Render(x) == s + Render(y) && (s != "" ==> s[|s| - 1] == '/')
    ensures LeadsToEntries(s)
  {
    if s != "" {
      hide Rest, LeadsToEntries, Kind;
      KindSlashFree(x);
      FirstSegment(s, Render(y), Kind(x), Rest(x));
      if !x.ClientPath? && !x.ConsensusPath? && !x.ConnectionPath? {
        PortsRest(x);
        PortsLead(s, Kind(x), Rest(x), y);
      }
      KindPrefix(s, x);
    }
  }

  lemma KindPrefix(s: string, x: Path)
    requires Kind(x) + "/" <= s
    requires x.ClientPath? || x.ConsensusPath? || x.ConnectionPath? || Kind(x) + "/" + ("ports" + "/") <= s
    ensures LeadsToEntries(s)
  {
    match x {
      case ClientPath(_) => assert "clients" + "/" == "clients/";
      case ConsensusPath(_, _) => assert "clients" + "/" == "clients/";
      case ConnectionPath(_) => assert "connections" + "/" == "connections/";
      case ChannelPath(_, _) => assert "channelEnds" + "/" + ("ports" + "/") == "channelEnds/ports/";
      case CommitmentPath(_, _, _) => assert "commitments" + "/" + ("ports" + "/") == "commitments/ports/";
      case AckPath(_, _, _) => assert "acks" + "/" + ("ports" + "/") == "acks/ports/";
    }
  }

  /** And everything of that form leads from a path to a path: identifiers may be any strings. */
  lemma LeadingMeets(s: string) returns (x: Path, y: Path)
    requires LeadsToEntries(s)
    ensures Render(x) == s + Render(y)
  {
    hide Render;
    if s == "" {
      x, y := ClientPath(""), ClientPath("");
      assert s + Render(y) == Render(x);
    } else if "clients/" <= s {
      x, y := ClientMeets(s);
    } else if "connections/" <= s {
      x, y := ConnectionMeets(s);
    } else {
      x, y := PortsMeet(s);
    }
  }

  lemma ClientMeets(s: string) returns (x: Path, y: Path)
    requires "clients/" <= s
    ensures Render(x) == s + Render(y)
  {
    hide CLIENT_STATE_KEY;
    var t := s[8..];
    x, y := ClientPath(t + "clients/"), ClientPath("");
    ClientRest(x.client, CLIENT_STATE_KEY);
    ClientRest("", CLIENT_STATE_KEY);
    ClientReassociates("clients/", t, "/", CLIENT_STATE_KEY);
    assert s == "clients/" + t;
  }

  lemma ClientReassociates(c: string, t: string, m: string, k: string)
    ensures (c + (t + c) + m) + k == (c + t) + ((c + "" + m) + k)
  {
  }

  lemma ConnectionMeets(s: string) returns (x: Path, y: Path)
    requires "connections/" <= s
    ensures Render(x) == s + Render(y)
  {
    var t, c := s[12..], "connections/";
    y := ConnectionPath("");
    x := ConnectionPath(t + Render(y));
    assert "connections" + "/" == c && s == c + t;
    Regroup(c, t, Render(y));
  }

  /** A connection whose id looks like the end of a channel, inside a port. */
  lemma EndMeets(t: string, tail: string)
    ensures ChannelEnd(t + "connections/", "") + tail == "ports/" + (t + Render(ConnectionPath("/channels/" + tail)))
  {
    var c, e := "connections/", "/channels/";
    assert "connections" + "/" == c && "/" + ("channels/" + "") == e;
    Regroup("ports/" + (t + c), "/", "channels/" + "");
    assert ChannelEnd(t + c, "") == "ports/" + (t + c) + e;
    Reassociate("ports/", t, c, e, tail);
  }

  lemma Reassociate(a: string, b: string, c: string, d: string, e: string)
    ensures (a + (b + c) + d) + e == a + (b + (c + (d + e)))
  {
  }

  /** The same for channels and packets, whose rest is a port and more. */
  lemma PortsMeet(s: string) returns (x: Path, y: Path)
    requires "channelEnds/ports/" <= s || "commitments/ports/" <= s || "acks/ports/" <= s
    ensures Render(x) == s + Render(y)
  {
    hide Render, ChannelEnd;
    if "channelEnds/ports/" <= s {
      x, y := ChannelMeets(s);
    } else {
      x, y := PacketMeets(s);
    }
  }

  lemma ChannelMeets(s: string) returns (x: Path, y: Path)
    requires "channelEnds/ports/" <= s
    ensures Render(x) == s + Render(y)
  {
    hide ChannelEnd;
    var t := s[18..];
    y := ConnectionPath("/channels/" + "");
    x := ChannelPath(t + "connections/", "");
    EndMeets(t, "");
    var r := ChannelEnd(x.port, "");
    assert r + "" == r;
    Under(s, "channelEnds/ports/", "channelEnds", t, Render(y));
  }

  lemma PacketMeets(s: string) returns (x: Path, y: Path)
    requires "commitments/ports/" <= s || "acks/ports/" <= s
    ensures Render(x) == s + Render(y)
  {
    hide ChannelEnd;
    var tail := "/sequences" + "/" + Decimal(0);
    y := ConnectionPath("/channels/" + tail);
    if "commitments/ports/" <= s {
      var t := s[18..];
      x := CommitmentPath(t + "connections/", "", 0);
      EndMeets(t, tail);
      TailRegroups(ChannelEnd(x.port, ""), Decimal(0));
      Under(s, "commitments/ports/", "commitments", t, Render(y));
    } else {
      var t := s[11..];
      x := AckPath(t + "connections/", "", 0);
      EndMeets(t, tail);
      TailRegroups(ChannelEnd(x.port, ""), Decimal(0));
      Under(s, "acks/ports/", "acks", t, Render(y));
    }
  }

  lemma TailRegroups(end: string, n: string)
    ensures end + "/sequences" + "/" + n == end + ("/sequences" + "/" + n)
  {
  }

  lemma Under(s: string, lead: string, kind: string, t: string, r: string)
    requires lead == kind + "/ports/" && lead <= s && t == s[|lead|..]
    ensures kind + "/" + ("ports/" + (t + r)) == s + r
  {
    assert "/" + "ports/" == "/ports/";
    Regroup(kind, "/", "ports/");
    Regroup(kind + "/", "ports/", t + r);
    assert s == lead + t;
    Regroup(lead, t, r);
  }

  /** Exactly when two upstreams, with ids and prefixes of any form, have an entry key in common: when
      the root of one goes on from the root of the other into a path. */
  lemma EntriesCollideIff(p: string, u: string, p': string, u': string)
    ensures Apart(u, p, u', p')
            <==> && !RootsMeet(ProxyStorePrefix(p, u), ProxyStorePrefix(p', u'))
                 && !RootsMeet(ProxyStorePrefix(p', u'), ProxyStorePrefix(p, u))
  {
    hide KeeperKey, Render, ProxyStorePrefix, LeadsToEntries;
    var r, r' := ProxyStorePrefix(p, u), ProxyStorePrefix(p', u');
    forall x, y | KeeperKey(p, u, x) == KeeperKey(p', u', y)
      ensures RootsMeet(r, r') || RootsMeet(r', r)
    {
      KeyIsRooted(p, u, x);
      KeyIsRooted(p', u', y);
      if |r| <= |r'| {
        RootsMeeting(p, u, x, p', u', y);
      } else {
        RootsMeeting(p', u', y, p, u, x);
      }
    }
    if RootsMeet(r, r') {
      MeetingRoots(p, u, p', u');
    } else if RootsMeet(r', r) {
      MeetingRoots(p', u', p, u);
    }
  }

  lemma RootsMeeting(p: string, u: string, x: Path, p': string, u': string, y: Path)
    requires ProxyStorePrefix(p, u) + Render(x) == ProxyStorePrefix(p', u') + Render(y)
    requires |ProxyStorePrefix(p, u)| <= |ProxyStorePrefix(p', u')|
    ensures RootsMeet(ProxyStorePrefix(p, u), ProxyStorePrefix(p', u'))
  {
    hide ProxyStorePrefix, Render, LeadsToEntries;
    var r, r' := ProxyStorePrefix(p, u), ProxyStorePrefix(p', u');
    var s := r'[|r|..];
    var w := r + Render(x);
    assert r == w[..|r|] && r' == w[..|r'|] && r <= r';
    assert w[|r|..] == Render(x) == s + Render(y);
    RootEnds(p', u');
    MeetingLeads(s, x, y);
  }

  lemma MeetingRoots(p: string, u: string, p': string, u': string)
    requires RootsMeet(ProxyStorePrefix(p, u), ProxyStorePrefix(p', u'))
    ensures !Apart(u, p, u', p') && !Apart(u', p', u, p)
  {
    hide ProxyStorePrefix, Render, LeadsToEntries, KeeperKey;
    var r, r' := ProxyStorePrefix(p, u), ProxyStorePrefix(p', u');
    var x, y := LeadingMeets(r'[|r|..]);
    KeyIsRooted(p, u, x);
    KeyIsRooted(p', u', y);
    assert r' == r + r'[|r|..];
    Regroup(r, r'[|r|..], Render(y));
    assert KeeperKey(p, u, x) == KeeperKey(p', u', y);
  }

  /** The '/' matters: with it in a prefix, a client entry and a connection entry are one key. */
  lemma SlashInPrefixCollides(p: string, u: string)
    ensures ProxyKey(p, u, Render(ClientPath("connections")))
            == ProxyKey(p + "/clients", u, Render(ConnectionPath("clientState")))
  {
    hide ProxyKey, Render;
    RenderedAlike();
    assert "/" + "clients" == "/clients";
    Regroup(p, "/", "clients");
    PrefixTakesOver(p, u, "clients", Render(ConnectionPath("clientState")));
  }

  lemma RenderedAlike()
    ensures Render(ClientPath("connections")) == "clients" + "/" + Render(ConnectionPath("clientState"))
  {
  }

  lemma PrefixTakesOver(p: string, u: string, q: string, key: string)
    ensures ProxyKey(p, u, q + "/" + key) == ProxyKey(p + "/" + q, u, key)
  {
    assert (u + "/") + (p + "/") + (q + "/" + key) == (u + "/") + (p + "/" + q + "/") + key;
  }
}
