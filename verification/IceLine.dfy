/** ICE candidate lines: the gateway's parser and filter, the browser client's filter of remote candidates,
    and the candidate-attribute grammar of section 5.1 of RFC 8839. */
module IceLine {
  import opened Options
  import opened Text

  /** A candidate object. An absent `candidate` stands for a missing or non-string one; a port or priority
      that parseInt could not read is absent too. */
  datatype Candidate = Candidate(
    candidate: Option<string>, address: Option<string>, port: Option<int>, protocol: Option<string>,
    kind: Option<string>, priority: Option<int>, foundation: Option<string>)

  /** An object that carries nothing but its line. */
  function Bare(line: string): Candidate {
    Candidate(Some(line), None, None, None, None, None, None)
  }

  /** JavaScript truth of a string field: present and not empty. */
  predicate Truthy(s: Option<string>) {
    s.Some? && s.value != ""
  }

  // ---------------------------------------------------------------- the gateway

  function Foundation(part: string): string {
    var fields := Split(part, ':');
    if |fields| > 1 && fields[1] != "" then fields[1] else part
  }

  /** enhanceIceCandidateObject. */
  function Enhance(c: Candidate): Candidate {
    if !Truthy(c.candidate) then c
    else
      var parts := Split(c.candidate.value, ' ');
      if |parts| < 6 then c
      else
        c.(address := Some(parts[4]),
        port := ParseInt(parts[5]),
        protocol := Some(parts[2]),
        kind := Some(if |parts| > 7 then parts[7] else "unknown"),
        priority := ParseInt(parts[3]),
        foundation := Some(Foundation(parts[0])))
  }

  /** The WSL/Docker test on a dotted address whose second octet is read with parseInt. */
  predicate SecondOctetVirtual(fields: seq<string>)
    requires |fields| > 1
  {
    ParseInt(fields[1]).Some? && 16 <= ParseInt(fields[1]).value <= 31
  }

  predicate Localhost(address: string) {
    address == "127.0.0.1" || address == "::1"
  }

  /** The address rules of shouldFilterIceCandidate. */
  predicate AddressFiltered(address: string) {
    || address == "" || address == "undefined" || address == "null" || SkipSpace(address) == ""
    || ("172." <= address && |Split(address, '.')| == 4 && SecondOctetVirtual(Split(address, '.')))
    || "169.254." <= address
    || Localhost(address)
  }

  /** shouldFilterIceCandidate; None is a null object. Port, protocol and type only reach the debug log. */
  predicate ShouldFilter(o: Option<Candidate>) {
    match o
    case None => true
    case Some(c) =>
      if !Truthy(c.candidate) then true
      else if Truthy(c.address) then AddressFiltered(c.address.value)
      else
        var parts := Split(c.candidate.value, ' ');
        |parts| < 6 || AddressFiltered(parts[4])
  }

  /** For a candidate without a preset address, parsing first or letting the filter parse gives one verdict. */
  lemma FilterSameOnEnhanced(c: Candidate)
    requires !Truthy(c.address)
    ensures ShouldFilter(Some(Enhance(c))) == ShouldFilter(Some(c))
  {}

  // ---------------------------------------------------------------- the grammar

  datatype Line = Line(
    foundation: string, component: nat, transport: string, priority: nat, address: string, port: nat, kind: string,
    extensions: seq<string>)

  predicate IceChar(c: char) {
    'a' <= c <= 'z' || 'A' <= c <= 'Z' || '0' <= c <= '9' || c == '+' || c == '/'
  }

  predicate Token(s: string) {
    s != [] && forall c :: c in s ==> c != ' '
  }

  predicate WellFormed(l: Line) {
    && 1 <= |l.foundation| <= 32 && (forall c :: c in l.foundation ==> IceChar(c))
    && Token(l.transport) && Token(l.address) && Token(l.kind)
    && forall e :: e in l.extensions ==> Token(e)
  }

  function Fields(l: Line): seq<string> {
    ["candidate:" + l.foundation, Decimal(l.component), l.transport, Decimal(l.priority), l.address, Decimal(l.port),
     "typ", l.kind] + l.extensions
  }

  function Print(l: Line): string {
    Join(Fields(l), ' ')
  }

  lemma DecimalNoSeparator(n: nat, sep: char)
    requires !('0' <= sep <= '9')
    ensures sep !in Decimal(n)
  {}

  lemma PrintedFields(l: Line)
    requires WellFormed(l)
    ensures Split(Print(l), ' ') == Fields(l)
  {
    DecimalNoSeparator(l.component, ' ');
    DecimalNoSeparator(l.priority, ' ');
    DecimalNoSeparator(l.port, ' ');
    forall p | p in Fields(l) ensures ' ' !in p {
      if p == "candidate:" + l.foundation {
        assert ' ' !in "candidate:";
        assert forall c :: c in l.foundation ==> IceChar(c);
      }
    }
    SplitJoin(Fields(l), ' ');
  }

  lemma FoundationRead(f: string)
    requires f != [] && forall c :: c in f ==> IceChar(c)
    ensures Foundation("candidate:" + f) == f
  {
    assert ':' !in "candidate" && ':' !in f;
    SplitPart(f, ':');
    SplitAt("candidate", f, ':');
    assert "candidate" + [':'] + f == "candidate:" + f;
  }

  /** Main result: every line of the grammar is read back: foundation, transport, priority, address, port, type,
      whatever the object that carries it said before. */
  lemma RoundTrip(l: Line, c: Candidate)
    requires WellFormed(l) && c.candidate == Some(Print(l))
    ensures Enhance(c)
            == Candidate(Some(Print(l)), Some(l.address), Some(l.port), Some(l.transport), Some(l.kind), Some(l.priority),
                         Some(l.foundation))
  {
    PrintedFields(l);
    FoundationRead(l.foundation);
    ParsePrinted(l.port);
    ParsePrinted(l.priority);
    assert |Split("", ' ')| == 1;
  }

  /** On a printed line the filter decides by the address alone. */
  lemma FilterReadsAddress(l: Line)
    requires WellFormed(l)
    ensures ShouldFilter(Some(Bare(Print(l)))) <==> AddressFiltered(l.address)
  {
    RoundTrip(l, Bare(Print(l)));
    FilterSameOnEnhanced(Bare(Print(l)));
  }

  // ---------------------------------------------------------------- dotted-quad addresses

  function Octets(a: nat, b: nat, c: nat, d: nat): seq<string> {
    [Decimal(a), Decimal(b), Decimal(c), Decimal(d)]
  }

  function Quad(a: nat, b: nat, c: nat, d: nat): string {
    Join(Octets(a, b, c, d), '.')
  }

  lemma QuadFields(a: nat, b: nat, c: nat, d: nat)
    ensures Split(Quad(a, b, c, d), '.') == Octets(a, b, c, d)
    ensures Quad(a, b, c, d) != "" && '0' <= Quad(a, b, c, d)[0] <= '9'
  {
    forall p | p in Octets(a, b, c, d) ensures '.' !in p {
      DecimalNoSeparator(a, '.');
      DecimalNoSeparator(b, '.');
      DecimalNoSeparator(c, '.');
      DecimalNoSeparator(d, '.');
    }
    SplitJoin(Octets(a, b, c, d), '.');
    DecimalDigits(a);
  }

  lemma DecimalIs(n: nat, k: nat, text: string)
    requires Decimal(k) == text
    ensures Decimal(n) == text <==> n == k
  {
    if Decimal(n) == text { DecimalInjective(n, k); }
  }

  lemma QuadPrefix172(a: nat, b: nat, c: nat, d: nat)
    ensures "172." <= Quad(a, b, c, d) <==> a == 172
  {
    QuadFields(a, b, c, d);
    PrefixIsFirstPart("172", Quad(a, b, c, d), '.');
    assert "172" + ['.'] == "172.";
    assert Decimal(172) == "172" by { assert Decimal(17) == "17"; }
    DecimalIs(a, 172, "172");
  }

  lemma QuadPrefix169254(a: nat, b: nat, c: nat, d: nat)
    ensures "169.254." <= Quad(a, b, c, d) <==> a == 169 && b == 254
  {
    var q, rest := Quad(a, b, c, d), Join([Decimal(b), Decimal(c), Decimal(d)], '.');
    QuadFields(a, b, c, d);
    assert Octets(a, b, c, d)[1..] == [Decimal(b), Decimal(c), Decimal(d)];
    assert q == Decimal(a) + ['.'] + rest;
    assert Decimal(169) == "169" by { assert Decimal(16) == "16"; }
    assert Decimal(254) == "254" by { assert Decimal(25) == "25"; }
    DecimalIs(a, 169, "169");
    DecimalIs(b, 254, "254");
    PrefixIsFirstPart("169", q, '.');
    assert "169" + ['.'] == "169." && "169." + "254." == "169.254.";
    if a == 169 {
      assert q == "169." + rest;
      assert "169.254." <= q <==> "254." <= rest by { SharedPrefix("169.", "254.", rest); }
      forall p | p in [Decimal(b), Decimal(c), Decimal(d)] ensures '.' !in p {
        DecimalNoSeparator(b, '.');
        DecimalNoSeparator(c, '.');
        DecimalNoSeparator(d, '.');
      }
      SplitJoin([Decimal(b), Decimal(c), Decimal(d)], '.');
      PrefixIsFirstPart("254", rest, '.');
      assert "254" + ['.'] == "254.";
    } else {
      PrefixShorter("169.", "254.", q);
    }
  }

  lemma SharedPrefix(p: string, x: string, s: string)
    ensures p + x <= p + s <==> x <= s
  {
    if p + x <= p + s { assert x == (p + x)[|p|..] == (p + s)[|p|..][..|x|]; }
  }

  lemma PrefixShorter(p: string, x: string, s: string)
    ensures p + x <= s ==> p <= s
  {}

  lemma LocalhostText()
    ensures Octets(127, 0, 0, 1) == ["127", "0", "0", "1"] && Quad(127, 0, 0, 1) == "127.0.0.1"
  {
    assert Decimal(127) == "127" by { assert Decimal(12) == "12"; }
    var o := Octets(127, 0, 0, 1);
    assert o == ["127", "0", "0", "1"];
    assert o[1..] == ["0", "0", "1"] && ["0", "0", "1"][1..] == ["0", "1"] && ["0", "1"][1..] == ["1"];
    assert Join(["0", "1"], '.') == "0.1";
    assert Join(["0", "0", "1"], '.') == "0.0.1";
  }

  lemma QuadLocalhost(a: nat, b: nat, c: nat, d: nat)
    ensures Localhost(Quad(a, b, c, d)) <==> a == 127 && b == 0 && c == 0 && d == 1
  {
    var q := Quad(a, b, c, d);
    LocalhostText();
    QuadFields(a, b, c, d);
    QuadFields(127, 0, 0, 1);
    if q == "127.0.0.1" {
      assert Octets(a, b, c, d) == Octets(127, 0, 0, 1);
      assert Octets(a, b, c, d)[0] == Decimal(a) && Octets(a, b, c, d)[1] == Decimal(b)
          && Octets(a, b, c, d)[2] == Decimal(c) && Octets(a, b, c, d)[3] == Decimal(d);
      DecimalInjective(a, 127);
      DecimalInjective(b, 0);
      DecimalInjective(c, 0);
      DecimalInjective(d, 1);
    }
  }

  predicate BlockedQuad(a: nat, b: nat, c: nat, d: nat) {
    (a == 172 && 16 <= b <= 31) || (a == 169 && b == 254) || (a == 127 && b == 0 && c == 0 && d == 1)
  }

  /** Main result: on IPv4 addresses the filter's text tests mean exactly 172.16/12, 169.254/16 and 127.0.0.1. */
  lemma QuadFiltered(a: nat, b: nat, c: nat, d: nat)
    ensures AddressFiltered(Quad(a, b, c, d)) <==> BlockedQuad(a, b, c, d)
  {
    var q := Quad(a, b, c, d);
    QuadFields(a, b, c, d);
    QuadPrefix172(a, b, c, d);
    QuadPrefix169254(a, b, c, d);
    QuadLocalhost(a, b, c, d);
    ParsePrinted(b);
    assert SkipSpace(q) == q && "undefined"[0] == 'u' && "null"[0] == 'n';
  }

  // ---------------------------------------------------------------- addresses that are not IPv4

  predicate Blank(address: string) {
    forall i :: 0 <= i < |address| ==> IsSpace(address[i])
  }

  lemma DiffersAt(p: string, s: string, i: nat)
    requires i < |p| && (i < |s| ==> s[i] != p[i])
    ensures !(p <= s)
  {}

  /** Without a dot an address is its only field, so it meets none of the prefix rules. */
  lemma NoDotNoPrefix(address: string)
    requires '.' !in address
    ensures !("172." <= address) && !("169.254." <= address) && address != "127.0.0.1"
  {
    assert |address| > 3 ==> address[3] in address;
    DiffersAt("172.", address, 3);
    DiffersAt("169.254.", address, 3);
    DiffersAt("127.0.0.1", address, 3);
  }

  /** The gateway's verdict on every address without a dot, IPv6 in particular: held back only if it is blank, one of
      the two spelled-out words, or ::1. */
  lemma NoDotFiltered(l: Line)
    requires WellFormed(l) && '.' !in l.address
    ensures ShouldFilter(Some(Bare(Print(l))))
            <==> Blank(l.address) || l.address == "undefined" || l.address == "null" || l.address == "::1"
  {
    FilterReadsAddress(l);
    NoDotNoPrefix(l.address);
    SkipSpaceEmptyIff(l.address);
  }

  /** An mDNS name: one label and ".local". */
  lemma LocalNameFields(host: string)
    requires '.' !in host
    ensures Split(host + ".local", '.') == [host, "local"]
  {
    SplitAt(host, "local", '.');
    SplitPart("local", '.');
    assert host + ['.'] + "local" == host + ".local";
  }

  lemma LocalNameNoRoute(host: string)
    requires '.' !in host
    ensures !("169.254." <= host + ".local") && !Localhost(host + ".local")
    ensures !SecondOctetVirtual([host, "local"])
  {
    var name := host + ".local";
    LocalNameFields(host);
    PrefixIsFirstPart("169", name, '.');
    PrefixShorter("169.", "254.", name);
    assert "169" + ['.'] == "169." && "169." + "254." == "169.254.";
    assert "169.254." <= name ==> host == "169";
    if host == "169" { DiffersAt("169.254.", name, 4); }
    assert name[|name|-1] == 'l';
    assert ParseInt("local") == None;
  }

  /** The gateway never holds back such a name, with which browsers hide local addresses. */
  lemma LocalNameForwarded(l: Line, host: string)
    requires WellFormed(l) && '.' !in host && l.address == host + ".local"
    ensures !ShouldFilter(Some(Bare(Print(l))))
  {
    FilterReadsAddress(l);
    LocalNameFields(host);
    LocalNameNoRoute(host);
    SkipSpaceEmptyIff(l.address);
    assert l.address[|l.address|-1] == 'l' && !IsSpace('l');
    assert "undefined"[8] == 'd' && "null"[0] == 'n';
    assert l.address != "undefined";
    assert l.address != "null" by { assert l.address[|l.address|-6] == '.'; }
  }

  // ---------------------------------------------------------------- the client

  /** The port and address rules that both filters of the browser client share. They do not count the address
      fields. */
  predicate BadRoute(address: string, port: Option<int>) {
    || port == Some(9)
    || (port.Some? && port.value != 0 && port.value <= 1024 && port.value != 80 && port.value != 443)
    || ("172." <= address && |Split(address, '.')| > 1 && SecondOctetVirtual(Split(address, '.')))
    || "169.254." <= address
    || Localhost(address)
  }

  /** shouldFilterRemoteIceCandidate of the browser client. */
  predicate ClientFilters(c: Candidate) {
    || !Truthy(c.candidate)
    || c.address.None? || SkipSpace(c.address.value) == ""
    || BadRoute(c.address.value, c.port)
  }

  /** shouldFilterIceCandidate of the browser client: a candidate without an address always passes. */
  predicate LocalFilters(c: Candidate) {
    Truthy(c.address) && BadRoute(c.address.value, c.port)
  }

  /** What the gateway holds back the client would filter as well, except the two spelled-out addresses. */
  lemma ClientCoversGateway(c: Candidate)
    requires ShouldFilter(Some(c))
    ensures ClientFilters(c) || c.address == Some("undefined") || c.address == Some("null")
  {
    if c.address == Some("") { assert SkipSpace("") == ""; }
  }

  predicate ReservedPort(port: nat) {
    1 <= port <= 1024 && port != 80 && port != 443
  }

  /** On IPv4 addresses the shared rules are the blocked ranges and the port rule. */
  lemma QuadRoute(a: nat, b: nat, c: nat, d: nat, port: nat)
    ensures BadRoute(Quad(a, b, c, d), Some(port)) <==> BlockedQuad(a, b, c, d) || ReservedPort(port)
  {
    QuadFields(a, b, c, d);
    QuadPrefix172(a, b, c, d);
    QuadPrefix169254(a, b, c, d);
    QuadLocalhost(a, b, c, d);
    ParsePrinted(b);
  }

  /** A printed line and an IPv4 address are neither empty nor blank. */
  lemma LineAndQuadShown(l: Line, a: nat, b: nat, c: nat, d: nat)
    requires WellFormed(l)
    ensures Print(l) != "" && Quad(a, b, c, d) != "" && SkipSpace(Quad(a, b, c, d)) == Quad(a, b, c, d)
  {
    PrintedFields(l);
    assert |Split("", ' ')| == 1;
    QuadFields(a, b, c, d);
  }

  /** On a well-formed line with an IPv4 address the client's verdict is the gateway's plus the port rule. */
  lemma ClientOnQuads(l: Line, a: nat, b: nat, c: nat, d: nat)
    requires WellFormed(l) && l.address == Quad(a, b, c, d)
    ensures ClientFilters(Enhance(Bare(Print(l)))) <==> ShouldFilter(Some(Bare(Print(l)))) || ReservedPort(l.port)
  {
    FilterReadsAddress(l);
    QuadFiltered(a, b, c, d);
    ClientOnEnhancedQuad(l, a, b, c, d);
  }

  lemma ClientOnEnhancedQuad(l: Line, a: nat, b: nat, c: nat, d: nat)
    requires WellFormed(l) && l.address == Quad(a, b, c, d)
    ensures ClientFilters(Enhance(Bare(Print(l)))) <==> BlockedQuad(a, b, c, d) || ReservedPort(l.port)
  {
    RoundTrip(l, Bare(Print(l)));
    LineAndQuadShown(l, a, b, c, d);
    QuadRoute(a, b, c, d, l.port);
  }

  lemma LineStartsWithC(l: Line)
    requires WellFormed(l)
    ensures Print(l) != "" && Print(l)[0] == 'c'
  {
    var f := Fields(l);
    assert Print(l) == f[0] + [' '] + Join(f[1..], ' ');
    assert f[0][0] == "candidate:"[0];
  }

  /** The client's verdict on every address without a dot: thrown away only if blank, ::1, or for a reserved port. */
  lemma ClientOnNoDot(l: Line)
    requires WellFormed(l) && '.' !in l.address
    ensures ClientFilters(Enhance(Bare(Print(l)))) <==> Blank(l.address) || l.address == "::1" || ReservedPort(l.port)
  {
    RoundTrip(l, Bare(Print(l)));
    LineStartsWithC(l);
    NoDotNoPrefix(l.address);
    SkipSpaceEmptyIff(l.address);
  }

  /** And on an mDNS name: only for a reserved port. */
  lemma ClientOnLocalName(l: Line, host: string)
    requires WellFormed(l) && '.' !in host && l.address == host + ".local"
    ensures ClientFilters(Enhance(Bare(Print(l)))) <==> ReservedPort(l.port)
  {
    RoundTrip(l, Bare(Print(l)));
    LineStartsWithC(l);
    LocalNameFields(host);
    LocalNameNoRoute(host);
    SkipSpaceEmptyIff(l.address);
    assert l.address[|l.address|-1] == 'l' && !IsSpace('l');
  }

  // ---------------------------------------------------------------- from one client through the gateway to the other

  /** The sending client keeps the candidate, the gateway parses and forwards it, and the receiving client throws
      the parsed one away. */
  predicate ThrownAway(c: Candidate) {
    !LocalFilters(c) && !ShouldFilter(Some(Enhance(c))) && ClientFilters(Enhance(c))
  }

  /** The gateway's 172.16/12 rule wants four fields, the client's does not. */
  predicate VirtualButNotFourFields(address: string) {
    "172." <= address && |Split(address, '.')| != 4 && |Split(address, '.')| > 1 && SecondOctetVirtual(Split(address, '.'))
  }

  predicate PortBlocked(port: Option<int>) {
    port.Some? && port.value != 0 && port.value <= 1024 && port.value != 80 && port.value != 443
  }

  /** A forwarded candidate is thrown away exactly for its parsed port, or for a 172. address without four fields. */
  lemma ThrownAwayIff(c: Candidate)
    ensures ThrownAway(c) <==>
            && !LocalFilters(c) && !ShouldFilter(Some(Enhance(c)))
            && (PortBlocked(Enhance(c).port)
                || (Enhance(c).address.Some? && VirtualButNotFourFields(Enhance(c).address.value)))
  {
    var e := Enhance(c);
    if !ShouldFilter(Some(e)) {
      ForwardedHasAddress(c);
      ForwardedVerdict(e);
    }
  }

  lemma ForwardedHasAddress(c: Candidate)
    requires !ShouldFilter(Some(Enhance(c)))
    ensures Truthy(Enhance(c).candidate) && Truthy(Enhance(c).address) && !AddressFiltered(Enhance(c).address.value)
  {
    var parts := Split(Enhance(c).candidate.value, ' ');
    if |parts| >= 6 { assert Enhance(c).address == Some(parts[4]); }
  }

  lemma ForwardedVerdict(e: Candidate)
    requires Truthy(e.candidate) && Truthy(e.address) && !AddressFiltered(e.address.value)
    ensures ClientFilters(e) <==> PortBlocked(e.port) || VirtualButNotFourFields(e.address.value)
  {
  }

  /** On a well-formed line with an IPv4 address: exactly when the sender's object does not show a bad route, the
      address is not blocked, and the line's port is reserved. */
  lemma ThrownAwayOnQuads(l: Line, a: nat, b: nat, c: nat, d: nat, sent: Candidate)
    requires WellFormed(l) && l.address == Quad(a, b, c, d) && sent.candidate == Some(Print(l))
    ensures ThrownAway(sent) <==> !LocalFilters(sent) && !BlockedQuad(a, b, c, d) && ReservedPort(l.port)
  {
    var e := Enhance(sent);
    RoundTrip(l, sent);
    QuadFields(a, b, c, d);
    QuadFiltered(a, b, c, d);
    assert Truthy(e.candidate) && Truthy(e.address);
    assert ShouldFilter(Some(e)) <==> BlockedQuad(a, b, c, d);
    if !BlockedQuad(a, b, c, d) { ForwardedVerdict(e); }
  }

  /** So a browser object that shows its line's own address and port is never thrown away after sending, and one
      that hides its address is thrown away exactly for an unblocked address with a reserved port. */
  lemma ShownOrHiddenAddress(l: Line, a: nat, b: nat, c: nat, d: nat, sent: Candidate)
    requires WellFormed(l) && l.address == Quad(a, b, c, d) && sent.candidate == Some(Print(l))
    ensures sent.address == Some(l.address) && sent.port == Some(l.port) ==> !ThrownAway(sent)
    ensures sent.address == None ==> (ThrownAway(sent) <==> !BlockedQuad(a, b, c, d) && ReservedPort(l.port))
  {
    ThrownAwayOnQuads(l, a, b, c, d, sent);
    QuadRoute(a, b, c, d, l.port);
    QuadFields(a, b, c, d);
  }
}
