/** The client address behind trusted proxies.  Address parsing and the proxy networks are given. */
module ClientAddress {
  import opened Options
  import opened Texts

  datatype Network<!Ip> = Network(parse: string -> Option<Ip>, show: Ip -> string, trusted: Ip -> bool)

  const COMMA: set<char> := {','}

  function Candidates(header: string): seq<string> {
    Split(header, COMMA)
  }

  /** A candidate names an address that is not a trusted proxy. */
  predicate IsClient<Ip>(net: Network<Ip>, candidate: string) {
    match net.parse(Strip(candidate))
    case None => false
    case Some(ip) => !net.trusted(ip)
  }

  /** The scan from the right; entries that do not parse and trusted proxies are passed over. */
  function Scan<Ip>(net: Network<Ip>, candidates: seq<string>, peer: Ip): string {
    if candidates == [] then net.show(peer)
    else
      var last := |candidates| - 1;
      match net.parse(Strip(candidates[last]))
      case None => Scan(net, candidates[..last], peer)
      case Some(ip) => if net.trusted(ip) then Scan(net, candidates[..last], peer) else net.show(ip)
  }

  function ClientIp<Ip>(net: Network<Ip>, remoteAddr: Option<string>, forwardedFor: Option<string>): Option<string> {
    if remoteAddr.None? || remoteAddr.value == "" then None
    else match net.parse(remoteAddr.value)
      case None => remoteAddr
      case Some(peer) =>
        if !net.trusted(peer) || forwardedFor.None? || forwardedFor.value == "" then Some(net.show(peer))
        else Some(Scan(net, Candidates(forwardedFor.value), peer))
  }

  ghost predicate Rightmost<Ip>(net: Network<Ip>, candidates: seq<string>, k: int) {
    && 0 <= k < |candidates|
    && IsClient(net, candidates[k])
    && forall m :: k < m < |candidates| ==> !IsClient(net, candidates[m])
  }

  lemma {:induction false} RightmostExists<Ip>(net: Network<Ip>, candidates: seq<string>, k: int) returns (r: int)
    requires 0 <= k < |candidates| && IsClient(net, candidates[k])
    ensures Rightmost(net, candidates, r)
    decreases |candidates| - k
  {
    if m :| k < m < |candidates| && IsClient(net, candidates[m]) {
      r := RightmostExists(net, candidates, m);
    } else {
      r := k;
    }
  }

  lemma {:induction false} ScanFindsRightmost<Ip>(net: Network<Ip>, candidates: seq<string>, peer: Ip, k: int)
    requires Rightmost(net, candidates, k)
    ensures Scan(net, candidates, peer) == net.show(net.parse(Strip(candidates[k])).value)
  {
    var last := |candidates| - 1;
    if k < last {
      assert !IsClient(net, candidates[last]);
      var front := candidates[..last];
      assert front[k] == candidates[k];
      ScanFindsRightmost(net, front, peer, k);
    }
  }

  /** With no client entry at all the scan falls back to the peer. */
  lemma {:induction false} ScanFallsBack<Ip>(net: Network<Ip>, candidates: seq<string>, peer: Ip)
    requires forall k :: 0 <= k < |candidates| ==> !IsClient(net, candidates[k])
    ensures Scan(net, candidates, peer) == net.show(peer)
  {
    if candidates != [] {
      var last := |candidates| - 1;
      assert !IsClient(net, candidates[last]);
      ScanFallsBack(net, candidates[..last], peer);
    }
  }

  /** Behind a trusted peer the answer is the rightmost client entry of the header. */
  lemma ForwardedClient<Ip>(net: Network<Ip>, remoteAddr: string, header: string, k: int)
    requires remoteAddr != "" && header != ""
    requires net.parse(remoteAddr).Some? && net.trusted(net.parse(remoteAddr).value)
    requires Rightmost(net, Candidates(header), k)
    ensures ClientIp(net, Some(remoteAddr), Some(header)) ==
              Some(net.show(net.parse(Strip(Candidates(header)[k])).value))
  {
    ScanFindsRightmost(net, Candidates(header), net.parse(remoteAddr).value, k);
  }

  /**
   * When the header does not count: without a peer there is no address, a peer that does not parse is
   * answered as it is, and an untrusted peer, an absent header and one without a client entry leave the peer.
   */
  lemma PeerAnswers<Ip>(net: Network<Ip>, remoteAddr: Option<string>, forwardedFor: Option<string>)
    ensures
      var answer := ClientIp(net, remoteAddr, forwardedFor);
      if remoteAddr.None? || remoteAddr.value == "" then answer == None
      else match net.parse(remoteAddr.value)
        case None => answer == remoteAddr
        case Some(peer) =>
          && (!net.trusted(peer) ==> answer == Some(net.show(peer)))
          && (forwardedFor.None? || forwardedFor.value == "" ==> answer == Some(net.show(peer)))
          && (forwardedFor.Some? && (forall k :: 0 <= k < |Candidates(forwardedFor.value)| ==>
                                       !IsClient(net, Candidates(forwardedFor.value)[k])) ==>
                answer == Some(net.show(peer)))
  {
    if remoteAddr.Some? && net.parse(remoteAddr.value).Some? && forwardedFor.Some? {
      var peer, candidates := net.parse(remoteAddr.value).value, Candidates(forwardedFor.value);
      if forall k :: 0 <= k < |candidates| ==> !IsClient(net, candidates[k]) { ScanFallsBack(net, candidates, peer); }
    }
  }

  /** The entries are what stands between the commas, in order, without the blanks around it. */
  lemma EntriesBetweenCommas(header: string, k: nat) returns (i: int, j: int)
    requires k < |Candidates(header)|
    ensures IsSegment(header, {','}, i, j) && Candidates(header)[k] == header[i..j]
  {
    i, j := SplitSound(header, COMMA, k);
  }

  /** The rightmost client entry of a suffix is the rightmost one of the whole list. */
  lemma RightmostOfSuffix<Ip>(net: Network<Ip>, front: seq<string>, back: seq<string>, k: int)
    requires Rightmost(net, back, k)
    ensures Rightmost(net, front + back, |front| + k)
    ensures (front + back)[|front| + k] == back[k]
  {
    forall m | |front| + k < m < |front + back| ensures !IsClient(net, (front + back)[m]) {
      assert (front + back)[m] == back[m - |front|];
    }
  }

  /** A sender cannot change the answer by putting text in front of a header with a client entry. */
  lemma PrefixIgnored<Ip>(net: Network<Ip>, remoteAddr: Option<string>, front: string, header: string)
    requires header != ""
    requires exists k :: 0 <= k < |Candidates(header)| && IsClient(net, Candidates(header)[k])
    ensures ClientIp(net, remoteAddr, Some(front + "," + header)) == ClientIp(net, remoteAddr, Some(header))
  {
    var back := Candidates(header);
    var some :| 0 <= some < |back| && IsClient(net, back[some]);
    var k := RightmostExists(net, back, some);
    SplitPrefix(front, ',', header, COMMA);
    assert front + "," + header == front + ([','] + header);
    RightmostOfSuffix(net, Candidates(front), back, k);
    if remoteAddr.Some? && net.parse(remoteAddr.value).Some? {
      var peer := net.parse(remoteAddr.value).value;
      ScanFindsRightmost(net, back, peer, k);
      ScanFindsRightmost(net, Candidates(front) + back, peer, |Candidates(front)| + k);
    }
  }
}
