/** The peer-topology loader: a fold over the lines of the network file.
    The first non-empty line names the network; every later line that splits
    into an address and a port becomes a peer, in file order; any other later
    line is skipped without error. */
module PeerList {
  import opened Common

  /** A peer as pushed by the loader: the IPv4 address as a 32-bit integer
      and the port exactly as parsed. */
  datatype Peer = Peer(ip: uint32, port: int64)

  /** The three string helpers the loader calls. Their bodies are not part of
      this model, so they are parameters.
      - split(line, separator, capacity): the tokens, or None when splitting fails
      - atoi64(token): the integer the token spells, or None
      - ipFromSv(token): the IPv4 address the token spells, or None */
  datatype LineParsers = LineParsers(
    split: (string, string, nat) -> Option<seq<string>>,
    atoi64: string -> Option<int64>,
    ipFromSv: string -> Option<uint32>)

  /** Tokens are separated by a single space. */
  const Separator: string := " "
  /** The token buffer holds at most three tokens. */
  const TokenCapacity: nat := 3

  /** The peer a line after the name line stands for, if any: the split must
      succeed with at least two tokens, token 1 must be an integer and token 0
      an IPv4 address. */
  function ParsePeerLine(p: LineParsers, line: string): Option<Peer> {
    match p.split(line, Separator, TokenCapacity)
    case None => None
    case Some(tokens) =>
      if |tokens| < 2 then None
      else
        match p.atoi64(tokens[1])
        case None => None
        case Some(port) =>
          match p.ipFromSv(tokens[0])
          case None => None
          case Some(ip) => Some(Peer(ip, port))
  }

  /** The zero or one peers a line contributes. */
  function Contribution(p: LineParsers, line: string): seq<Peer> {
    match ParsePeerLine(p, line)
    case None => []
    case Some(peer) => [peer]
  }

  // ---------------------------------------------------------------------
  // The loader as a fold: the state after each line, exactly as the
  // per-line callback updates it.
  // ---------------------------------------------------------------------

  /** One callback invocation: while the name is empty the line becomes the
      name and is not parsed further; afterwards it may add one peer. */
  function Step(state: (string, seq<Peer>), line: string, p: LineParsers): (string, seq<Peer>) {
    var (network, nodes) := state;
    if network == "" then (line, nodes)
    else (network, nodes + Contribution(p, line))
  }

  /** The (name, peers) pair after the callback has seen every line of `lines`. */
  function Scan(p: LineParsers, lines: seq<string>): (string, seq<Peer>)
    decreases |lines|
  {
    if lines == [] then ("", [])
    else Step(Scan(p, lines[..|lines| - 1]), lines[|lines| - 1], p)
  }

  /** load_network_nodes: reads the lines in order, updating the name and the
      peer list as the callback does. */
  method LoadNetworkNodes(p: LineParsers, lines: seq<string>) returns (network: string, nodes: seq<Peer>)
    ensures (network, nodes) == Scan(p, lines)
  {
    network, nodes := "", [];
    for i := 0 to |lines|
      invariant (network, nodes) == Scan(p, lines[..i])
    {
      assert lines[..i + 1][..i] == lines[..i];
      var line := lines[i];
      assert Scan(p, lines[..i + 1]) == Step(Scan(p, lines[..i]), line, p);
      if network == "" {
        network := line;
      } else {
        ghost var before := nodes;
        var tokens := p.split(line, Separator, TokenCapacity);
        if tokens.Some? && |tokens.value| >= 2 {
          var port := p.atoi64(tokens.value[1]);
          if port.Some? {
            var ip := p.ipFromSv(tokens.value[0]);
            if ip.Some? {
              nodes := nodes + [Peer(ip.value, port.value)];
            }
          }
        }
        assert nodes == before + Contribution(p, line);
      }
    }
    assert lines[..|lines|] == lines;
  }

  // ---------------------------------------------------------------------
  // A closed-form description of the same result, independent of the fold.
  // ---------------------------------------------------------------------

  /** The index of the first non-empty line, or |lines| when there is none. */
  function NameIndex(lines: seq<string>): (k: nat)
    ensures k <= |lines|
    ensures forall j :: 0 <= j < k ==> lines[j] == ""
    ensures k < |lines| ==> lines[k] != ""
  {
    if lines == [] then 0
    else if lines[0] != "" then 0
    else 1 + NameIndex(lines[1..])
  }

  /** The network name: the first non-empty line, or empty when there is none. */
  function NetworkName(lines: seq<string>): string {
    var k := NameIndex(lines);
    if k < |lines| then lines[k] else ""
  }

  /** The lines that follow the name line; these are the peer candidates. */
  function PeerLines(lines: seq<string>): seq<string> {
    var k := NameIndex(lines);
    if k < |lines| then lines[k + 1..] else []
  }

  /** The peers a run of candidate lines yields, line by line. */
  function PeersOf(p: LineParsers, lines: seq<string>): (peers: seq<Peer>)
    ensures |peers| <= |lines|
  {
    if lines == [] then [] else Contribution(p, lines[0]) + PeersOf(p, lines[1..])
  }

  // ---------------------------------------------------------------------
  // Properties
  // ---------------------------------------------------------------------

  /** Peers of consecutive runs of lines are concatenated in order: no
      sorting, no deduplication. */
  lemma {:induction false} PeersOfAppend(p: LineParsers, a: seq<string>, b: seq<string>)
    ensures PeersOf(p, a + b) == PeersOf(p, a) + PeersOf(p, b)
  {
    if a == [] {
      assert a + b == b;
    } else {
      assert (a + b)[1..] == a[1..] + b;
      PeersOfAppend(p, a[1..], b);
    }
  }

  /** A line that does not parse as a peer leaves the peer list exactly as if
      it were not in the file. */
  lemma MalformedLineSkipped(p: LineParsers, a: seq<string>, line: string, b: seq<string>)
    requires ParsePeerLine(p, line).None?
    ensures PeersOf(p, a + [line] + b) == PeersOf(p, a + b)
  {
    PeersOfAppend(p, a + [line], b);
    PeersOfAppend(p, a, [line]);
    PeersOfAppend(p, a, b);
    assert PeersOf(p, [line]) == [] by {
      assert [line][1..] == [];
    }
    assert PeersOf(p, a) + [] == PeersOf(p, a);
  }

  /** When every candidate line parses, the peers are the parsed lines one for
      one: same order, same multiplicity. */
  lemma {:induction false} PeersOfAllAccepted(p: LineParsers, lines: seq<string>)
    requires forall i :: 0 <= i < |lines| ==> ParsePeerLine(p, lines[i]).Some?
    ensures |PeersOf(p, lines)| == |lines|
    ensures forall i :: 0 <= i < |lines| ==> PeersOf(p, lines)[i] == ParsePeerLine(p, lines[i]).value
  {
    if lines != [] {
      PeersOfAllAccepted(p, lines[1..]);
      assert forall i :: 1 <= i < |lines| ==> lines[1..][i - 1] == lines[i];
    }
  }

  /** A peer is in the list if and only if some candidate line parses to it. */
  lemma {:induction false} PeerFromLine(p: LineParsers, lines: seq<string>, q: Peer)
    ensures q in PeersOf(p, lines) <==> exists i :: 0 <= i < |lines| && ParsePeerLine(p, lines[i]) == Some(q)
  {
    if lines != [] {
      PeerFromLine(p, lines[1..], q);
      if q in PeersOf(p, lines[1..]) {
        var i :| 0 <= i < |lines[1..]| && ParsePeerLine(p, lines[1..][i]) == Some(q);
        assert ParsePeerLine(p, lines[i + 1]) == Some(q);
      }
      if exists i :: 0 <= i < |lines| && ParsePeerLine(p, lines[i]) == Some(q) {
        var i :| 0 <= i < |lines| && ParsePeerLine(p, lines[i]) == Some(q);
        if i > 0 {
          assert lines[1..][i - 1] == lines[i];
        }
      }
    }
  }

  /** Appending one line moves the first non-empty index only while no
      non-empty line has been seen. */
  lemma {:induction false} NameIndexSnoc(init: seq<string>, x: string)
    ensures NameIndex(init + [x]) ==
      if NameIndex(init) < |init| then NameIndex(init)
      else if x != "" then |init| else |init| + 1
  {
    if init != [] && init[0] == "" {
      assert (init + [x])[1..] == init[1..] + [x];
      NameIndexSnoc(init[1..], x);
    }
  }

  /** The fold computes the closed form: the name is the first non-empty line,
      that line is never parsed as a peer, and the peers are those of the
      lines after it, in order. */
  lemma {:induction false} ScanCharacterised(p: LineParsers, lines: seq<string>)
    ensures Scan(p, lines) == (NetworkName(lines), PeersOf(p, PeerLines(lines)))
    decreases |lines|
  {
    if lines != [] {
      var init, last := lines[..|lines| - 1], lines[|lines| - 1];
      assert lines == init + [last];
      ScanCharacterised(p, init);
      NameIndexSnoc(init, last);
      var k := NameIndex(init);
      if k < |init| {
        assert lines[k + 1..] == init[k + 1..] + [last];
        PeersOfAppend(p, init[k + 1..], [last]);
        assert PeersOf(p, [last]) == Contribution(p, last);
      }
    }
  }

  /** Once the name is set it never changes: later lines only append their
      peers. */
  lemma {:induction false} NameStable(p: LineParsers, a: seq<string>, b: seq<string>)
    requires Scan(p, a).0 != ""
    ensures Scan(p, a + b) == (Scan(p, a).0, Scan(p, a).1 + PeersOf(p, b))
    decreases |b|
  {
    if b == [] {
      assert a + b == a;
      assert Scan(p, a).1 + PeersOf(p, b) == Scan(p, a).1;
    } else {
      var b', y := b[..|b| - 1], b[|b| - 1];
      assert b == b' + [y];
      assert (a + b)[..|a + b| - 1] == a + b';
      assert (a + b)[|a + b| - 1] == y;
      assert Scan(p, a + b) == Step(Scan(p, a + b'), y, p);
      NameStable(p, a, b');
      PeersOfAppend(p, b', [y]);
      assert PeersOf(p, [y]) == Contribution(p, y);
      assert Scan(p, a + b).0 == Scan(p, a).0;
      assert Scan(p, a + b).1 == Scan(p, a).1 + PeersOf(p, b') + Contribution(p, y);
      assert PeersOf(p, b) == PeersOf(p, b') + Contribution(p, y);
      assert Scan(p, a).1 + PeersOf(p, b') + Contribution(p, y) == Scan(p, a).1 + (PeersOf(p, b') + Contribution(p, y));
    }
  }
}
