/** The development server's QR-code address (`ChatSystem/lynx.config.ts`): which local network
    address `getLocalNetworkIP` picks from the machine's interfaces, and how the bundle URL is
    rewritten to use it. */
module DevServer {
  import opened Base
  import opened Text

  /** One address of an interface, as `os.networkInterfaces()` lists it. */
  datatype Net = Net(family: string, internal: bool, address: string)

  /** An interface name with its addresses; `None` is an entry whose list is `undefined`. */
  type Interfaces = seq<(string, Option<seq<Net>>)>

  datatype Candidate = Candidate(name: string, address: string)

  const Fallback: string := "localhost"
  const FullscreenQuery: string := "?fullscreen=true"

  predicate Qualifies(n: Net) {
    n.family == "IPv4" && !n.internal
  }

  /** The candidates one interface contributes, in the order of its addresses. */
  function NetCandidates(name: string, nets: seq<Net>): (r: seq<Candidate>)
    ensures |r| <= |nets|
    ensures forall k | 0 <= k < |r| :: r[k].name == name
    ensures forall j | 0 <= j < |nets| :: Qualifies(nets[j]) ==> Candidate(name, nets[j].address) in r
    ensures forall c | c in r :: exists j | 0 <= j < |nets| :: Qualifies(nets[j]) && c.address == nets[j].address
    decreases |nets|
  {
    if nets == [] then []
    else
      var init := nets[..|nets| - 1];
      var last := nets[|nets| - 1];
      assert forall j | 0 <= j < |init| :: init[j] == nets[j];
      NetCandidates(name, init) + (if Qualifies(last) then [Candidate(name, last.address)] else [])
  }

  /** The candidates of consecutive address lists follow each other, in order. */
  lemma {:induction false} NetCandidatesAppend(name: string, a: seq<Net>, b: seq<Net>)
    ensures NetCandidates(name, a + b) == NetCandidates(name, a) + NetCandidates(name, b)
    decreases |b|
  {
    if b != [] {
      var b' := b[..|b| - 1];
      assert (a + b)[..|a + b| - 1] == a + b';
      assert (a + b)[|a + b| - 1] == b[|b| - 1];
      NetCandidatesAppend(name, a, b');
    } else {
      assert a + b == a;
    }
  }

  /** An address list with no external IPv4 address contributes no candidate. */
  lemma NoQualifyingNoCandidates(name: string, nets: seq<Net>)
    requires forall m | 0 <= m < |nets| :: !Qualifies(nets[m])
    ensures NetCandidates(name, nets) == []
  {
  }

  /** The first qualifying address of an interface is its first candidate, followed by those
      of the addresses after it. */
  lemma FirstNetCandidate(name: string, nets: seq<Net>, j: nat)
    requires j < |nets| && Qualifies(nets[j]) && forall m | 0 <= m < j :: !Qualifies(nets[m])
    ensures NetCandidates(name, nets) == [Candidate(name, nets[j].address)] + NetCandidates(name, nets[j + 1..])
  {
    var before, at, after := nets[..j], [nets[j]], nets[j + 1..];
    assert nets == before + (at + after);
    NetCandidatesAppend(name, before, at + after);
    NetCandidatesAppend(name, at, after);
    NoQualifyingNoCandidates(name, before);
    assert at[..0] == [];
    var ca, cr := NetCandidates(name, at), NetCandidates(name, after);
    assert ca == [Candidate(name, nets[j].address)];
    assert NetCandidates(name, nets) == [] + (ca + cr);
  }

  function InterfaceCandidates(entry: (string, Option<seq<Net>>)): seq<Candidate> {
    match entry.1
    case None => []
    case Some(nets) => NetCandidates(entry.0, nets)
  }

  /** The candidates of all interfaces, in enumeration order. */
  function Candidates(ifs: Interfaces): (r: seq<Candidate>)
    decreases |ifs|
  {
    if ifs == [] then [] else Candidates(ifs[..|ifs| - 1]) + InterfaceCandidates(ifs[|ifs| - 1])
  }

  /** Every qualifying address of every listed interface is a candidate, under its interface's
      name, and every candidate is such an address. */
  lemma {:induction false} CandidatesExactly(ifs: Interfaces)
    ensures forall i, j | 0 <= i < |ifs| && ifs[i].1.Some? && 0 <= j < |ifs[i].1.value| ::
      Qualifies(ifs[i].1.value[j]) ==> Candidate(ifs[i].0, ifs[i].1.value[j].address) in Candidates(ifs)
    ensures forall c | c in Candidates(ifs) :: exists i | 0 <= i < |ifs| :: c in InterfaceCandidates(ifs[i])
    decreases |ifs|
  {
    if ifs != [] {
      var init := ifs[..|ifs| - 1];
      CandidatesExactly(init);
      assert forall i | 0 <= i < |init| :: init[i] == ifs[i];
    }
  }

  /** The candidates of consecutive interface lists follow each other: `candidates` keeps the
      enumeration order of the interfaces. */
  lemma {:induction false} CandidatesAppend(a: Interfaces, b: Interfaces)
    ensures Candidates(a + b) == Candidates(a) + Candidates(b)
    decreases |b|
  {
    if b != [] {
      var b' := b[..|b| - 1];
      assert (a + b)[..|a + b| - 1] == a + b';
      assert (a + b)[|a + b| - 1] == b[|b| - 1];
      CandidatesAppend(a, b');
    } else {
      assert a + b == a;
    }
  }

  /** The interface has an external IPv4 address. */
  predicate HasQualifying(entry: (string, Option<seq<Net>>)) {
    entry.1.Some? && exists j | 0 <= j < |entry.1.value| :: Qualifies(entry.1.value[j])
  }

  /** Every candidate carries the name of an interface with an external IPv4 address. */
  lemma CandidateSource(ifs: Interfaces, c: Candidate) returns (m: nat)
    requires c in Candidates(ifs)
    ensures m < |ifs| && HasQualifying(ifs[m]) && c.name == ifs[m].0
  {
    CandidatesExactly(ifs);
    var i :| 0 <= i < |ifs| && c in InterfaceCandidates(ifs[i]);
    m := i;
  }

  /** The candidates of a list that starts with `e` start with those of `e`. */
  lemma CandidatesCons(e: (string, Option<seq<Net>>), rest: Interfaces)
    ensures Candidates([e] + rest) == InterfaceCandidates(e) + Candidates(rest)
  {
    CandidatesAppend([e], rest);
    CandidatesOfOne(e);
  }

  lemma CandidatesOfOne(e: (string, Option<seq<Net>>))
    ensures Candidates([e]) == InterfaceCandidates(e)
  {
    assert [e][..0] == [];
  }

  /** The candidates of interface `i` sit between those of the interfaces before and after it. */
  lemma CandidatesAround(ifs: Interfaces, i: nat)
    requires i < |ifs|
    ensures Candidates(ifs) == Candidates(ifs[..i]) + (InterfaceCandidates(ifs[i]) + Candidates(ifs[i + 1..]))
  {
    SplitAt(ifs, i);
    CandidatesSplit(ifs[..i], ifs[i], ifs[i + 1..]);
  }

  /** A sequence is its prefix, the element at `i` and its suffix, in order. */
  lemma SplitAt<T>(s: seq<T>, i: nat)
    requires i < |s|
    ensures s == s[..i] + ([s[i]] + s[i + 1..])
  {
    assert s[i..] == [s[i]] + s[i + 1..];
    assert s == s[..i] + s[i..];
  }

  lemma CandidatesSplit(before: Interfaces, e: (string, Option<seq<Net>>), after: Interfaces)
    ensures Candidates(before + ([e] + after)) == Candidates(before) + (InterfaceCandidates(e) + Candidates(after))
  {
    CandidatesAppend(before, [e] + after);
    CandidatesCons(e, after);
  }

  /** Every candidate of the interfaces before `i` carries the name of one of them that has an
      external IPv4 address. */
  lemma EarlierCandidate(ifs: Interfaces, i: nat, k: nat) returns (m: nat)
    requires i <= |ifs| && k < |Candidates(ifs[..i])|
    ensures m < i && HasQualifying(ifs[m]) && Candidates(ifs[..i])[k].name == ifs[m].0
  {
    var before := ifs[..i];
    m := CandidateSource(before, Candidates(before)[k]);
    assert before[m] == ifs[m];
  }

  /** Where the first qualifying address of interface `i` lands among the candidates: after
      the candidates of the interfaces before it. */
  lemma CandidatePosition(ifs: Interfaces, i: nat, j: nat)
    requires i < |ifs| && ifs[i].1.Some? && j < |ifs[i].1.value|
    requires Qualifies(ifs[i].1.value[j]) && forall m | 0 <= m < j :: !Qualifies(ifs[i].1.value[m])
    ensures |Candidates(ifs[..i])| < |Candidates(ifs)|
    ensures Candidates(ifs)[|Candidates(ifs[..i])|] == Candidate(ifs[i].0, ifs[i].1.value[j].address)
    ensures Candidates(ifs)[..|Candidates(ifs[..i])|] == Candidates(ifs[..i])
  {
    CandidatesAround(ifs, i);
    FirstNetCandidate(ifs[i].0, ifs[i].1.value, j);
  }

  /** The nested loops of `getLocalNetworkIP` that fill `candidates`. */
  method CollectCandidates(ifs: Interfaces) returns (cs: seq<Candidate>)
    ensures cs == Candidates(ifs)
  {
    cs := [];
    var i := 0;
    while i < |ifs|
      invariant 0 <= i <= |ifs|
      invariant cs == Candidates(ifs[..i])
    {
      assert ifs[..i + 1][..i] == ifs[..i];
      cs := PushInterface(cs, ifs[i]);
      i := i + 1;
    }
    assert ifs[..i] == ifs;
  }

  /** The inner loop over one interface's addresses. */
  method PushInterface(cs: seq<Candidate>, entry: (string, Option<seq<Net>>)) returns (r: seq<Candidate>)
    ensures r == cs + InterfaceCandidates(entry)
  {
    r := cs;
    if entry.1.Some? {
      var name := entry.0;
      var nets := entry.1.value;
      var j := 0;
      while j < |nets|
        invariant 0 <= j <= |nets|
        invariant r == cs + NetCandidates(name, nets[..j])
      {
        assert nets[..j + 1][..j] == nets[..j];
        if nets[j].family == "IPv4" && !nets[j].internal {
          r := r + [Candidate(name, nets[j].address)];
        }
        j := j + 1;
      }
      assert nets[..j] == nets;
    }
  }

  /** The name marks a virtual adapter (compared in lower case). */
  predicate Virtual(name: string) {
    var n := ToLower(name);
    Contains(n, "vmware") || Contains(n, "virtual") || Contains(n, "vethernet") || Contains(n, "wsl")
  }

  /** The name looks like a Wi-Fi or Ethernet interface (compared in lower case). */
  predicate PhysicalMarker(name: string) {
    var n := ToLower(name);
    Contains(n, "wi-fi") || Contains(n, "wlan") || Contains(n, "eth") || Contains(n, "en")
  }

  predicate PreferredName(name: string) {
    PhysicalMarker(name) && !Virtual(name)
  }

  predicate IsPreferred(c: Candidate) {
    PreferredName(c.name)
  }

  predicate IsBackup(c: Candidate) {
    !Virtual(c.name)
  }

  /** `candidates.find(p)`, as the index of the first match. */
  function FindIndex(cs: seq<Candidate>, p: Candidate -> bool): (r: Option<nat>)
    ensures r.Some? ==> r.value < |cs| && p(cs[r.value]) && forall k | 0 <= k < r.value :: !p(cs[k])
    ensures r.None? ==> forall k | 0 <= k < |cs| :: !p(cs[k])
    decreases |cs|
  {
    if cs == [] then None
    else if p(cs[0]) then Some(0)
    else
      match FindIndex(cs[1..], p)
      case None => None
      case Some(k) => Some(k + 1)
  }

  /** The choice of `getLocalNetworkIP` among the candidates. */
  function SelectIP(cs: seq<Candidate>): (ip: string)
    ensures ip == Fallback || exists i | 0 <= i < |cs| :: ip == cs[i].address
  {
    match FindIndex(cs, IsPreferred)
    case Some(i) => cs[i].address
    case None =>
      match FindIndex(cs, IsBackup)
      case Some(i) => cs[i].address
      case None => if |cs| > 0 && cs[0].address != [] then cs[0].address else Fallback
  }

  /** The first Wi-Fi / Ethernet candidate that is not virtual wins. */
  lemma PreferredChosen(cs: seq<Candidate>, i: nat)
    requires i < |cs| && IsPreferred(cs[i]) && forall k | 0 <= k < i :: !IsPreferred(cs[k])
    ensures SelectIP(cs) == cs[i].address
  {
    var r := FindIndex(cs, IsPreferred);
    assert r.Some? && r.value == i;
  }

  /** Without one, the first candidate that is not virtual wins. */
  lemma BackupChosen(cs: seq<Candidate>, i: nat)
    requires forall k | 0 <= k < |cs| :: !IsPreferred(cs[k])
    requires i < |cs| && IsBackup(cs[i]) && forall k | 0 <= k < i :: !IsBackup(cs[k])
    ensures SelectIP(cs) == cs[i].address
  {
    var r := FindIndex(cs, IsBackup);
    assert r.Some? && r.value == i;
  }

  /** When every candidate is virtual, the first one is taken (or `localhost` when there is
      none, or its address is empty). */
  lemma LastResort(cs: seq<Candidate>)
    requires forall k | 0 <= k < |cs| :: Virtual(cs[k].name)
    ensures cs == [] ==> SelectIP(cs) == Fallback
    ensures cs != [] ==> SelectIP(cs) == if cs[0].address != [] then cs[0].address else Fallback
  {
    assert forall k | 0 <= k < |cs| :: !IsBackup(cs[k]);
  }

  /** In interface terms: the first external IPv4 address of the first Wi-Fi / Ethernet
      interface that is not virtual and has one wins. */
  lemma PreferredInterfaceChosen(ifs: Interfaces, i: nat, j: nat)
    requires i < |ifs| && ifs[i].1.Some? && j < |ifs[i].1.value| && PreferredName(ifs[i].0)
    requires Qualifies(ifs[i].1.value[j]) && forall m | 0 <= m < j :: !Qualifies(ifs[i].1.value[m])
    requires forall k | 0 <= k < i :: !(PreferredName(ifs[k].0) && HasQualifying(ifs[k]))
    ensures SelectIP(Candidates(ifs)) == ifs[i].1.value[j].address
  {
    CandidatePosition(ifs, i, j);
    var cs := Candidates(ifs);
    var n := |Candidates(ifs[..i])|;
    forall k | 0 <= k < n ensures !IsPreferred(cs[k]) {
      var m := EarlierCandidate(ifs, i, k);
      assert cs[k] == Candidates(ifs[..i])[k];
    }
    PreferredChosen(cs, n);
  }

  /** Without such an interface, the first external IPv4 address of the first interface that
      is not virtual and has one wins. */
  lemma BackupInterfaceChosen(ifs: Interfaces, i: nat, j: nat)
    requires forall k | 0 <= k < |ifs| :: !(PreferredName(ifs[k].0) && HasQualifying(ifs[k]))
    requires i < |ifs| && ifs[i].1.Some? && j < |ifs[i].1.value| && !Virtual(ifs[i].0)
    requires Qualifies(ifs[i].1.value[j]) && forall m | 0 <= m < j :: !Qualifies(ifs[i].1.value[m])
    requires forall k | 0 <= k < i :: !(!Virtual(ifs[k].0) && HasQualifying(ifs[k]))
    ensures SelectIP(Candidates(ifs)) == ifs[i].1.value[j].address
  {
    CandidatePosition(ifs, i, j);
    var cs := Candidates(ifs);
    var n := |Candidates(ifs[..i])|;
    forall k | 0 <= k < |cs| ensures !IsPreferred(cs[k]) {
      var m := CandidateSource(ifs, cs[k]);
    }
    forall k | 0 <= k < n ensures !IsBackup(cs[k]) {
      var m := EarlierCandidate(ifs, i, k);
      assert cs[k] == Candidates(ifs[..i])[k];
    }
    BackupChosen(cs, n);
  }

  /** `getLocalNetworkIP` as a whole: collect, then choose. */
  method GetLocalNetworkIP(ifs: Interfaces) returns (ip: string)
    ensures ip == SelectIP(Candidates(ifs))
    ensures ip == Fallback || exists c | c in Candidates(ifs) :: ip == c.address
  {
    var cs := CollectCandidates(ifs);
    ip := SelectIP(cs);
  }

  /** `schema(url)`: every `0.0.0.0`, then every `localhost`, becomes the chosen address, and
      the full-screen query is appended. */
  function Schema(url: string, ip: string): (r: string)
    ensures EndsWith(r, FullscreenQuery)
  {
    ReplaceAll(ReplaceAll(url, "0.0.0.0", ip), "localhost", ip) + FullscreenQuery
  }

  /** A URL naming neither host only gains the query. */
  lemma SchemaWithoutHost(url: string, ip: string)
    requires !Contains(url, "0.0.0.0") && !Contains(url, "localhost")
    ensures Schema(url, ip) == url + FullscreenQuery
  {
    ReplaceAllWithoutMatch(url, "0.0.0.0", ip);
    ReplaceAllWithoutMatch(url, "localhost", ip);
  }

  /** With the `localhost` fallback the second rewrite changes nothing. */
  lemma SchemaWithFallback(url: string)
    ensures Schema(url, Fallback) == ReplaceAll(url, "0.0.0.0", Fallback) + FullscreenQuery
  {
    ReplaceAllBySelf(ReplaceAll(url, "0.0.0.0", Fallback), "localhost");
  }

  /** A prefix none of whose characters starts the pattern is copied unchanged. */
  lemma {:induction false} ReplaceAllSkipsPrefix(a: string, t: string, p: string, r: string)
    requires p != [] && forall k | 0 <= k < |a| :: a[k] != p[0]
    ensures ReplaceAll(a + t, p, r) == a + ReplaceAll(t, p, r)
    decreases |a|
  {
    if a == [] {
      assert a + t == t;
    } else {
      assert a + t == [a[0]] + (a[1..] + t);
      ReplaceAllKeepsHead(a[0], a[1..] + t, p, r);
      ReplaceAllSkipsPrefix(a[1..], t, p, r);
      assert [a[0]] + (a[1..] + ReplaceAll(t, p, r)) == a + ReplaceAll(t, p, r);
    }
  }

  /** The usual bundle address `<scheme>0.0.0.0<rest>` is rewritten to `<scheme><ip><rest>`. */
  lemma SchemaRewritesAnyHost(prefix: string, rest: string, ip: string)
    requires forall k | 0 <= k < |prefix| :: prefix[k] != '0' && prefix[k] != 'l'
    requires !Contains(rest, "0.0.0.0") && !Contains(ip + rest, "localhost")
    ensures Schema(prefix + "0.0.0.0" + rest, ip) == prefix + ip + rest + FullscreenQuery
  {
    assert prefix + "0.0.0.0" + rest == prefix + ("0.0.0.0" + rest);
    ReplaceAllSkipsPrefix(prefix, "0.0.0.0" + rest, "0.0.0.0", ip);
    ReplaceAllLeading("0.0.0.0", rest, ip);
    ReplaceAllWithoutMatch(rest, "0.0.0.0", ip);
    assert prefix + (ip + rest) == prefix + ip + rest;
    ReplaceAllSkipsPrefix(prefix, ip + rest, "localhost", ip);
    ReplaceAllWithoutMatch(ip + rest, "localhost", ip);
  }

  /** `<scheme>localhost<rest>` is rewritten to `<scheme><ip><rest>` as well. */
  lemma SchemaRewritesLocalhost(prefix: string, rest: string, ip: string)
    requires forall k | 0 <= k < |prefix| :: prefix[k] != '0' && prefix[k] != 'l'
    requires !Contains(rest, "0.0.0.0") && !Contains(rest, "localhost")
    ensures Schema(prefix + "localhost" + rest, ip) == prefix + ip + rest + FullscreenQuery
  {
    var head := prefix + "localhost";
    assert forall k | 0 <= k < |head| :: head[k] != '0';
    assert prefix + "localhost" + rest == head + rest;
    ReplaceAllSkipsPrefix(head, rest, "0.0.0.0", ip);
    ReplaceAllWithoutMatch(rest, "0.0.0.0", ip);
    assert head + rest == prefix + ("localhost" + rest);
    ReplaceAllSkipsPrefix(prefix, "localhost" + rest, "localhost", ip);
    ReplaceAllLeading("localhost", rest, ip);
    ReplaceAllWithoutMatch(rest, "localhost", ip);
  }
}
