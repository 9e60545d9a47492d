/** Collector addresses: parsing and printing, expansion of host names, and the target text that lists
    several addresses. Host name lookup and the recognition of literal addresses are parameters. */
module Backends {
  import opened Text

  datatype Kind = IPv4 | IPv6 | Hostname

  datatype Address = Address(host: string, port: nat, kind: Kind)

  function Endpoint(a: Address): string {
    if a.kind.IPv6? then "[" + a.host + "]:" + Decimal(a.port) else a.host + ":" + Decimal(a.port)
  }

  // --------------------------------------------------------------------------------------------
  // Parsing

  function IndexOf(s: string, c: char): (i: Option<nat>)
    ensures i.Some? ==> i.value < |s| && s[i.value] == c && c !in s[..i.value]
    ensures i.None? <==> c !in s
  {
    if s == [] then None
    else if s[0] == c then Some(0)
    else match IndexOf(s[1..], c) case None => None case Some(i) => Some(i + 1)
  }

  /** Decimal digits, single underscores allowed between them. */
  function ParseDigits(s: string): Option<nat> {
    if s == [] || !('0' <= s[|s| - 1] <= '9') then None
    else
      var n := |s| - 1;
      var digit := s[n] as int - 48;
      if n == 0 then Some(digit)
      else
        match ParseDigits(if s[n - 1] == '_' then s[..n - 1] else s[..n])
        case None => None
        case Some(high) => Some(10 * high + digit)
  }

  /** `int(text)` on stripped ASCII text. */
  function ParseInt(text: string): Option<int> {
    if text != [] && (text[0] == '+' || text[0] == '-') then
      match ParseDigits(text[1..])
      case None => None
      case Some(n) => Some(if text[0] == '-' then -(n as int) else n)
    else
      match ParseDigits(text) case None => None case Some(n) => Some(n)
  }

  predicate Usable(host: string) {
    && host != [] && '/' !in host && '%' !in host
    && forall i :: 0 <= i < |host| ==> !IsSpace(host[i]) && host[i] as int >= 32
  }

  /** `literal` is what `ipaddress.ip_address` makes of a text: the kind of a literal address, or nothing. */
  function Classify(host: string, literal: string -> Option<Kind>): Option<Kind> {
    if !Usable(host) then None else match literal(host) case None => Some(Hostname) case Some(k) => Some(k)
  }

  /** The host and the port of a stripped text. */
  function Cut(text: string): Option<(string, string)> {
    if text == [] then None
    else if text[0] == '[' then
      var closing := IndexOf(text, ']');
      if closing.None? || closing.value <= 1 || closing.value + 1 >= |text| || text[closing.value + 1] != ':' then None
      else Some((text[1..closing.value], text[closing.value + 2..]))
    else
      var pieces := Split(text, ":");
      if |pieces| != 2 then None else Some((pieces[0], pieces[1]))
  }

  function Parse(raw: string, literal: string -> Option<Kind>): Option<Address> {
    var cut := Cut(Strip(raw));
    if cut.None? then None
    else
      var host, text := Strip(cut.value.0), Strip(cut.value.1);
      var port := ParseInt(text);
      if host == [] || text == [] || port.None? || port.value < 1 || port.value > 65535 then None
      else match Classify(host, literal) case None => None case Some(kind) => Some(Address(host, port.value, kind))
  }

  lemma {:induction false} ParsePlainDigits(s: string)
    requires s != [] && forall i :: 0 <= i < |s| ==> '0' <= s[i] <= '9'
    ensures ParseDigits(s) == Some(ParseDecimal(s))
  {
    var n := |s| - 1;
    if n > 0 {
      ParsePlainDigits(s[..n]);
    }
  }

  lemma ParseIntOfDecimal(n: nat)
    ensures ParseInt(Decimal(n)) == Some(n)
    ensures Strip(Decimal(n)) == Decimal(n)
  {
    var s := Decimal(n);
    assert '0' <= s[0] <= '9' && '0' <= s[|s| - 1] <= '9';
    ParsePlainDigits(s);
    ParseOfDecimal(n);
    StripTight(s);
  }

  lemma StripTight(s: string)
    requires s != [] && !IsSpace(s[0]) && !IsSpace(s[|s| - 1])
    ensures Strip(s) == s
  {
  }

  lemma StripUsable(host: string)
    requires Usable(host)
    ensures Strip(host) == host
  {
  }

  predicate WellFormed(a: Address, literal: string -> Option<Kind>) {
    1 <= a.port <= 65535 && Classify(a.host, literal) == Some(a.kind)
  }

  /** A host that its own print-out delimits. */
  predicate Printable(a: Address) {
    if a.kind.IPv6? then ']' !in a.host else ':' !in a.host && (a.host != [] ==> a.host[0] != '[')
  }

  lemma EndpointIsStripped(a: Address, literal: string -> Option<Kind>)
    requires WellFormed(a, literal)
    ensures Strip(Endpoint(a)) == Endpoint(a)
  {
    var d := Decimal(a.port);
    assert Endpoint(a)[|Endpoint(a)| - 1] == d[|d| - 1];
    assert Endpoint(a)[0] == if a.kind.IPv6? then '[' else a.host[0];
  }

  /** A bracketed host that holds no bracket is cut out whole; otherwise something shorter is. */
  lemma CutBracketed(host: string, d: string)
    ensures ']' !in host && host != [] ==> Cut("[" + host + "]:" + d) == Some((host, d))
    ensures ']' in host && Cut("[" + host + "]:" + d).Some? ==> ']' !in Cut("[" + host + "]:" + d).value.0
  {
    var text := "[" + host + "]:" + d;
    var closing := IndexOf(text, ']');
    assert text[1 + |host|] == ']';
    if ']' !in host {
      assert forall i :: 0 <= i < 1 + |host| ==> text[i] != ']';
      assert closing == Some(1 + |host|);
      assert text[1..1 + |host|] == host && text[3 + |host|..] == d;
    }
  }

  lemma CutPlain(host: string, d: string)
    requires host != [] && host[0] != '[' && ':' !in d
    ensures ':' !in host ==> Cut(host + ":" + d) == Some((host, d))
    ensures ':' in host ==> Cut(host + ":" + d) == None
  {
    var text := host + ":" + d;
    assert text[0] == host[0];
    if ':' !in host {
      SplitPrefix(host, ':', d);
      SplitPrefix(d, ':', []);
      assert [host] + [d] == [host, d];
    } else {
      SplitCount(text, ':');
      assert multiset(text) == multiset(host) + multiset(":") + multiset(d);
      assert ':' in multiset(host);
    }
  }

  /** What is cut from brackets holds no closing bracket. */
  lemma CutOpened(text: string)
    requires text != [] && text[0] == '[' && Cut(text).Some?
    ensures ']' in text && ']' !in Cut(text).value.0
  {
  }

  lemma {:induction false} StripHoldsNoMore(s: string, c: char)
    requires c !in s
    ensures c !in Strip(s)
    decreases |s|
  {
    if s != [] && IsSpace(s[0]) {
      StripHoldsNoMore(s[1..], c);
    } else if s != [] && IsSpace(s[|s| - 1]) {
      StripHoldsNoMore(s[..|s| - 1], c);
    }
  }

  lemma ParseCut(a: Address, literal: string -> Option<Kind>)
    requires WellFormed(a, literal) && Cut(Endpoint(a)) == Some((a.host, Decimal(a.port)))
    ensures Parse(Endpoint(a), literal) == Some(a)
  {
    EndpointIsStripped(a, literal);
    StripUsable(a.host);
    ParseIntOfDecimal(a.port);
  }

  lemma ParseElsewhere(a: Address, literal: string -> Option<Kind>)
    requires WellFormed(a, literal) && ']' in a.host
    requires Cut(Endpoint(a)).Some? ==> ']' !in Cut(Endpoint(a)).value.0
    ensures Parse(Endpoint(a), literal) != Some(a)
  {
    EndpointIsStripped(a, literal);
    var cut := Cut(Endpoint(a));
    if cut.Some? {
      StripHoldsNoMore(cut.value.0, ']');
    }
  }

  /** Printing an address and parsing it again gives the address exactly when its host is delimited by
      the print-out: any literal address, any host name without a colon or a leading bracket. */
  lemma EndpointRoundTrip(a: Address, literal: string -> Option<Kind>)
    requires WellFormed(a, literal)
    ensures Parse(Endpoint(a), literal) == Some(a) <==> Printable(a)
  {
    var d := Decimal(a.port);
    if a.kind.IPv6? {
      CutBracketed(a.host, d);
      if ']' in a.host { ParseElsewhere(a, literal); } else { ParseCut(a, literal); }
    } else if a.host[0] != '[' {
      assert ':' !in d;
      CutPlain(a.host, d);
      EndpointIsStripped(a, literal);
      if ':' !in a.host { ParseCut(a, literal); }
    } else {
      EndpointIsStripped(a, literal);
      if Cut(Endpoint(a)).Some? {
        CutOpened(Endpoint(a));
        assert ']' in a.host by {
          assert ']' !in ":" && ']' !in d;
        }
        ParseElsewhere(a, literal);
      }
    }
  }

  /** A host is refused exactly when it is empty or holds a slash, a percent sign, white space or a control
      character; otherwise it is the literal it is recognised as, or a name. */
  lemma ClassifiesUsableHosts(host: string, literal: string -> Option<Kind>)
    ensures Classify(host, literal).None? <==>
              host == [] || exists i :: 0 <= i < |host| && (host[i] in "/%" || IsSpace(host[i]) || host[i] as int < 32)
    ensures Classify(host, literal).Some? ==>
              Classify(host, literal).value == match literal(host) case Some(kind) => kind case None => Hostname
  {
    if '/' in host {
      var i :| 0 <= i < |host| && host[i] == '/';
    }
    if '%' in host {
      var i :| 0 <= i < |host| && host[i] == '%';
    }
  }

  /** Every parsed address is well formed; a host name taken out of brackets may not print back. */
  lemma ParsedAddresses(raw: string, literal: string -> Option<Kind>)
    requires Parse(raw, literal).Some?
    ensures WellFormed(Parse(raw, literal).value, literal)
    ensures Parse(Endpoint(Parse(raw, literal).value), literal) == Parse(raw, literal)
            <==> Printable(Parse(raw, literal).value)
  {
    EndpointRoundTrip(Parse(raw, literal).value, literal);
  }

  lemma TrimmedBetween(host: string, b: string, c: string, port: string)
    requires host != [] && port != [] && Trimmed(host) && Trimmed(port)
    ensures Trimmed(host + b + ":" + (c + port))
  {
    var x := host + b + ":" + (c + port);
    assert x[0] == host[0] && x[|x| - 1] == port[|port| - 1];
  }

  lemma ParseAlike(raw: string, text: string, a: (string, string), plain: string, b: (string, string),
                   literal: string -> Option<Kind>)
    requires Strip(raw) == text && Cut(text) == Some(a) && Strip(plain) == plain && Cut(plain) == Some(b)
    requires Strip(a.0) == Strip(b.0) && Strip(a.1) == Strip(b.1)
    ensures Parse(raw, literal) == Parse(plain, literal)
  {
  }

  /** White space around host, port and colon does not matter. */
  lemma BlanksAroundParts(a: string, host: string, b: string, c: string, port: string, d: string,
                          literal: string -> Option<Kind>)
    requires AllSpace(a) && AllSpace(b) && AllSpace(c) && AllSpace(d)
    requires host != [] && port != [] && Trimmed(host) && Trimmed(port)
    requires ':' !in host && ':' !in port && host[0] != '['
    ensures Parse(a + (host + b + ":" + (c + port)) + d, literal) == Parse(host + ":" + port, literal)
  {
    var inner, plain := host + b + ":" + (c + port), host + ":" + port;
    TrimmedBetween(host, b, c, port);
    StripOf(a, inner, d);
    SpaceFree(b, ':');
    SpaceFree(c, ':');
    CutPlain(host + b, c + port);
    StripBehind(host, b);
    StripFront(c, port);
    TrimmedBetween(host, [], [], port);
    assert host + [] + ":" + ([] + port) == plain;
    StripKeeps(plain);
    CutPlain(host, port);
    ParseAlike(a + inner + d, inner, (host + b, c + port), plain, (host, port), literal);
  }

  // --------------------------------------------------------------------------------------------
  // Expansion

  /** What each address stands for: itself, or what the lookup of the host name found. `found` has an
      entry for every address, which may be empty. */
  function Candidates(a: Address, found: seq<Address>): seq<Address> {
    if a.kind.Hostname? then found else [a]
  }

  /** The candidates of all addresses, one group for each. */
  function Groups(addresses: seq<Address>, found: seq<seq<Address>>): (groups: seq<seq<Address>>)
    requires |found| == |addresses|
    ensures |groups| == |addresses|
    ensures forall k :: 0 <= k < |addresses| ==> groups[k] == Candidates(addresses[k], found[k])
  {
    seq(|addresses|, k requires 0 <= k < |addresses| => Candidates(addresses[k], found[k]))
  }

  /** The members of the first `n` groups, in order. */
  function Flatten<T>(groups: seq<seq<T>>, n: nat): seq<T>
    requires n <= |groups|
  {
    if n == 0 then [] else Flatten(groups, n - 1) + groups[n - 1]
  }

  lemma {:induction false} NothingBefore<T>(groups: seq<seq<T>>, n: nat)
    requires n <= |groups|
    ensures Flatten(groups, n) == [] <==> AllEmpty(groups, n)
  {
    if n > 0 {
      NothingBefore(groups, n - 1);
      assert |Flatten(groups, n)| == |Flatten(groups, n - 1)| + |groups[n - 1]|;
    }
  }

  /** The elements in the order in which they are first seen. */
  function FirstSeen<T(==,!new)>(s: seq<T>): (r: seq<T>)
    ensures forall x :: x in r <==> x in s
  {
    if s == [] then []
    else
      var r := FirstSeen(s[..|s| - 1]);
      if s[|s| - 1] in r then r else r + [s[|s| - 1]]
  }

  /** Position i holds the first occurrence of its element. */
  predicate FirstAt<T(==)>(s: seq<T>, i: int) {
    0 <= i < |s| && s[i] !in s[..i]
  }

  function FirstPlaces<T(==)>(s: seq<T>, n: nat): (places: seq<int>)
    requires n <= |s|
    ensures forall k :: 0 <= k < |places| ==> 0 <= places[k] < n
    ensures forall j, k :: 0 <= j < k < |places| ==> places[j] < places[k]
  {
    if n == 0 then [] else FirstPlaces(s, n - 1) + if FirstAt(s, n - 1) then [n - 1] else []
  }

  /** `FirstSeen` has no repeats and reads the sequence at the places of first occurrence, in order. */
  lemma {:induction false} FirstSeenIs<T(!new)>(s: seq<T>)
    ensures forall i, j :: 0 <= i < j < |FirstSeen(s)| ==> FirstSeen(s)[i] != FirstSeen(s)[j]
    ensures |FirstSeen(s)| == |FirstPlaces(s, |s|)|
    ensures forall k :: 0 <= k < |FirstSeen(s)| ==> FirstSeen(s)[k] == s[FirstPlaces(s, |s|)[k]]
  {
    if s != [] {
      var n := |s| - 1;
      FirstSeenIs(s[..n]);
      PlacesOfPrefix(s, n, n);
    }
  }

  lemma {:induction false} PlacesOfPrefix<T>(s: seq<T>, m: nat, n: nat)
    requires n <= m <= |s|
    ensures FirstPlaces(s[..m], n) == FirstPlaces(s, n)
  {
    if n > 0 {
      PlacesOfPrefix(s, m, n - 1);
      assert s[..m][..n - 1] == s[..n - 1];
    }
  }

  lemma {:induction false} FirstSeenAppend<T(!new)>(s: seq<T>, x: T)
    ensures FirstSeen(s + [x]) == if x in s then FirstSeen(s) else FirstSeen(s) + [x]
  {
    assert (s + [x])[..|s + [x]| - 1] == s;
  }

  /** One round of either expansion: the candidates not seen before are appended. */
  method Gather<T(==,!new)>(candidates: seq<T>, sofar: seq<T>, ghost before: seq<T>) returns (expanded: seq<T>)
    requires sofar == FirstSeen(before)
    ensures expanded == FirstSeen(before + candidates)
  {
    expanded := sofar;
    assert before + candidates[..0] == before;
    for i := 0 to |candidates|
      invariant expanded == FirstSeen(before + candidates[..i])
    {
      FirstSeenAppend(before + candidates[..i], candidates[i]);
      assert before + candidates[..i] + [candidates[i]] == before + candidates[..i + 1];
      if candidates[i] !in expanded {
        expanded := expanded + [candidates[i]];
      }
    }
    assert candidates[..|candidates|] == candidates;
  }

  method Expand(addresses: seq<Address>, found: seq<seq<Address>>) returns (expanded: seq<Address>)
    requires |found| == |addresses|
    ensures expanded == FirstSeen(Flatten(Groups(addresses, found), |addresses|))
  {
    expanded := [];
    ghost var groups := Groups(addresses, found);
    for k := 0 to |addresses|
      invariant expanded == FirstSeen(Flatten(groups, k))
    {
      expanded := Gather(Candidates(addresses[k], found[k]), expanded, Flatten(groups, k));
    }
  }

  predicate AllEmpty<T(==)>(groups: seq<seq<T>>, n: int) {
    forall j :: 0 <= j < n && j < |groups| ==> groups[j] == []
  }

  /** Group `k` is the first that is not empty. */
  predicate FirstUsable<T(==)>(groups: seq<seq<T>>, k: int) {
    0 <= k < |groups| && groups[k] != [] && AllEmpty(groups, k)
  }

  /** The loop of `Prepare`: what the target will list, and the print-out of the first usable address. */
  method Collect(addresses: seq<Address>, found: seq<seq<Address>>)
    returns (expanded: seq<Address>, authority: Option<string>)
    requires |found| == |addresses|
    ensures expanded == FirstSeen(Flatten(Groups(addresses, found), |addresses|))
    ensures authority.None? <==> AllEmpty(Groups(addresses, found), |addresses|)
    ensures authority.Some? ==>
              exists k :: FirstUsable(Groups(addresses, found), k) && authority.value == Endpoint(addresses[k])
  {
    expanded, authority := [], None;
    ghost var first, groups := -1, Groups(addresses, found);
    for k := 0 to |addresses|
      invariant expanded == FirstSeen(Flatten(groups, k))
      invariant authority.None? ==> AllEmpty(groups, k)
      invariant authority.Some? ==> first < k && FirstUsable(groups, first) && authority.value == Endpoint(addresses[first])
    {
      ghost var before := Flatten(groups, k);
      var candidates := Candidates(addresses[k], found[k]);
      assert Flatten(groups, k + 1) == before + candidates;
      if candidates == [] {
        assert before + candidates == before;
        continue;
      }
      if authority.None? {
        authority := Some(Endpoint(addresses[k]));
        first := k;
      }
      expanded := Gather(candidates, expanded, before);
    }
  }

  lemma FirstSeenEmpty<T(!new)>(s: seq<T>)
    ensures FirstSeen(s) == [] <==> s == []
  {
    if s != [] {
      assert s[0] in FirstSeen(s);
    }
  }

  /** The target and the authority of a channel: a single address stands for itself; several are expanded
      as `Expand` does, and the authority is the first of them that has a usable address. */
  method Prepare(addresses: seq<Address>, found: seq<seq<Address>>) returns (r: Result<(string, string)>)
    requires |found| == |addresses|
    ensures |addresses| == 1 ==> r == Ok((Endpoint(addresses[0]), Endpoint(addresses[0])))
    ensures |addresses| != 1 ==> (r.Raised? <==> Target(FirstSeen(Flatten(Groups(addresses, found), |addresses|))).Raised?)
    ensures |addresses| != 1 && r.Ok? ==>
              && r.value.0 == Target(FirstSeen(Flatten(Groups(addresses, found), |addresses|))).value
              && exists k :: FirstUsable(Groups(addresses, found), k) && r.value.1 == Endpoint(addresses[k])
  {
    if addresses == [] {
      return Raised;
    }
    if |addresses| == 1 {
      return Ok((Endpoint(addresses[0]), Endpoint(addresses[0])));
    }
    var expanded, authority := Collect(addresses, found);
    NothingBefore(Groups(addresses, found), |addresses|);
    FirstSeenEmpty(Flatten(Groups(addresses, found), |addresses|));
    if expanded == [] {
      return Raised;
    }
    var target := EncodeTarget(expanded);
    return match target case Raised => Raised case Ok(t) => Ok((t, authority.value));
  }

  // --------------------------------------------------------------------------------------------
  // The target text

  /** An IPv4 address in the mapped form of section 2.5.5.2 of RFC 4291. */
  function Mapped(a: Address): Address {
    if a.kind.IPv4? then Address("::ffff:" + a.host, a.port, IPv6) else a
  }

  function MapAll(addresses: seq<Address>): (r: seq<Address>)
    ensures |r| == |addresses| && forall i :: 0 <= i < |r| ==> r[i] == Mapped(addresses[i])
  {
    seq(|addresses|, i requires 0 <= i < |addresses| => Mapped(addresses[i]))
  }

  function Endpoints(addresses: seq<Address>): (r: seq<string>)
    ensures |r| == |addresses| && forall i :: 0 <= i < |r| ==> r[i] == Endpoint(addresses[i])
  {
    seq(|addresses|, i requires 0 <= i < |addresses| => Endpoint(addresses[i]))
  }

  predicate Any(addresses: seq<Address>, kind: Kind) {
    exists i :: 0 <= i < |addresses| && addresses[i].kind == kind
  }

  function Target(addresses: seq<Address>): Result<string> {
    if addresses == [] || Any(addresses, Hostname) then Raised
    else if !Any(addresses, IPv6) then Ok("ipv4:" + Join(Endpoints(addresses), ","))
    else Ok("ipv6:" + Join(Endpoints(MapAll(addresses)), ","))
  }

  /** The kinds that occur. */
  method Kinds(addresses: seq<Address>) returns (kinds: set<Kind>)
    ensures forall k :: k in kinds <==> Any(addresses, k)
  {
    kinds := {};
    for i := 0 to |addresses|
      invariant forall k :: k in kinds <==> Any(addresses[..i], k)
    {
      AnyAppend(addresses, i);
      kinds := kinds + {addresses[i].kind};
    }
    assert addresses[..|addresses|] == addresses;
  }

  method MixedParts(addresses: seq<Address>) returns (parts: seq<string>)
    requires !Any(addresses, Hostname)
    ensures parts == Endpoints(MapAll(addresses))
  {
    parts := [];
    for i := 0 to |addresses|
      invariant |parts| == i && forall j :: 0 <= j < i ==> parts[j] == Endpoint(Mapped(addresses[j]))
    {
      var a := addresses[i];
      assert a.kind != Hostname;
      if a.kind.IPv4? {
        parts := parts + ["[" + ("::ffff:" + a.host) + "]:" + Decimal(a.port)];
      } else {
        parts := parts + ["[" + a.host + "]:" + Decimal(a.port)];
      }
    }
  }

  method EncodeTarget(addresses: seq<Address>) returns (r: Result<string>)
    ensures r == Target(addresses)
  {
    if addresses == [] {
      return Raised;
    }
    var kinds := Kinds(addresses);
    if Hostname in kinds {
      return Raised;
    }
    assert addresses[0].kind in kinds;
    if kinds == {IPv4} {
      return Ok("ipv4:" + Join(Endpoints(addresses), ","));
    }
    if kinds == {IPv6} {
      assert forall i :: 0 <= i < |addresses| ==> addresses[i].kind in kinds;
      assert MapAll(addresses) == addresses;
      return Ok("ipv6:" + Join(Endpoints(addresses), ","));
    }
    assert IPv6 in kinds;
    var parts := MixedParts(addresses);
    return Ok("ipv6:" + Join(parts, ","));
  }

  lemma AnyAppend(addresses: seq<Address>, i: nat)
    requires i < |addresses|
    ensures forall k :: Any(addresses[..i + 1], k) <==> Any(addresses[..i], k) || addresses[i].kind == k
  {
    forall k ensures Any(addresses[..i + 1], k) <==> Any(addresses[..i], k) || addresses[i].kind == k {
      if Any(addresses[..i], k) {
        var j :| 0 <= j < i && addresses[..i][j].kind == k;
        assert addresses[..i + 1][j].kind == k;
      }
      if addresses[i].kind == k {
        assert addresses[..i + 1][i].kind == k;
      }
      if Any(addresses[..i + 1], k) && addresses[i].kind != k {
        var j :| 0 <= j < i + 1 && addresses[..i + 1][j].kind == k;
        assert addresses[..i][j].kind == k;
      }
    }
  }

  /** How the resolver reads one entry of a target. */
  function ReadEntry(text: string, kind: Kind): Option<Address> {
    if kind.IPv6? != (text != [] && text[0] == '[') then None
    else
      var cut := Cut(text);
      if cut.None? then None
      else
        var port := ParseInt(cut.value.1);
        if port.None? || port.value < 0 then None else Some(Address(cut.value.0, port.value, kind))
  }

  function ReadEntries(texts: seq<string>, kind: Kind): Option<seq<Address>> {
    if texts == [] then Some([])
    else
      var first := ReadEntry(texts[0], kind);
      var rest := ReadEntries(texts[1..], kind);
      if first.None? || rest.None? then None else Some([first.value] + rest.value)
  }

  function ReadTarget(target: string): Option<seq<Address>> {
    if "ipv4:" <= target then ReadEntries(Split(target[5..], ","), IPv4)
    else if "ipv6:" <= target then ReadEntries(Split(target[5..], ","), IPv6)
    else None
  }

  /** The text of a literal address: digits and dots, or also letters and colons. */
  predicate LiteralText(a: Address) {
    && a.host != [] && !a.kind.Hostname?
    && forall i :: 0 <= i < |a.host| ==>
         || '0' <= a.host[i] <= '9' || a.host[i] == '.'
         || (a.kind.IPv6? && (a.host[i] == ':' || 'a' <= a.host[i] <= 'f' || 'A' <= a.host[i] <= 'F'))
  }

  lemma LiteralHasNo(a: Address, c: char)
    requires LiteralText(a) && (c == '[' || c == ']' || c == ',' || (c == ':' && a.kind.IPv4?))
    ensures c !in a.host
  {
  }

  lemma ReadsCut(text: string, host: string, port: nat, kind: Kind)
    requires text != [] && kind.IPv6? == (text[0] == '[') && Cut(text) == Some((host, Decimal(port)))
    ensures ReadEntry(text, kind) == Some(Address(host, port, kind))
  {
    ParseIntOfDecimal(port);
  }

  lemma EndpointHasNoComma(a: Address)
    requires ',' !in a.host
    ensures ',' !in Endpoint(a)
  {
    assert ',' !in Decimal(a.port) && ',' !in "[" && ',' !in "]:" && ',' !in ":";
  }

  lemma ReadsEndpoint(a: Address)
    requires LiteralText(a)
    ensures ReadEntry(Endpoint(a), a.kind) == Some(a) && ',' !in Endpoint(a)
  {
    LiteralHasNo(a, ',');
    EndpointHasNoComma(a);
    if a.kind.IPv6? {
      LiteralHasNo(a, ']');
      CutBracketed(a.host, Decimal(a.port));
      assert Endpoint(a)[0] == '[';
    } else {
      LiteralHasNo(a, '[');
      LiteralHasNo(a, ':');
      CutPlain(a.host, Decimal(a.port));
      assert Endpoint(a)[0] == a.host[0];
    }
    ReadsCut(Endpoint(a), a.host, a.port, a.kind);
  }

  lemma {:induction false} ReadsEndpoints(addresses: seq<Address>, kind: Kind)
    requires forall i :: 0 <= i < |addresses| ==> LiteralText(addresses[i]) && addresses[i].kind == kind
    ensures ReadEntries(Endpoints(addresses), kind) == Some(addresses)
    ensures forall i :: 0 <= i < |addresses| ==> ',' !in Endpoints(addresses)[i]
  {
    if addresses != [] {
      ReadsEndpoint(addresses[0]);
      ReadsEndpoints(addresses[1..], kind);
      assert Endpoints(addresses)[1..] == Endpoints(addresses[1..]);
      assert addresses == [addresses[0]] + addresses[1..];
    }
  }

  /** The target reads back as the addresses themselves, or with IPv4 in mapped form where IPv6 is among them. */
  lemma TargetRoundTrip(addresses: seq<Address>)
    requires addresses != [] && forall i :: 0 <= i < |addresses| ==> LiteralText(addresses[i])
    ensures Target(addresses).Ok?
    ensures ReadTarget(Target(addresses).value)
            == Some(if Any(addresses, IPv6) then MapAll(addresses) else addresses)
  {
    var mapped := Any(addresses, IPv6);
    var list := if mapped then MapAll(addresses) else addresses;
    var kind := if mapped then IPv6 else IPv4;
    ReadsEndpoints(list, kind);
    SplitOfJoin(Endpoints(list), ',');
    var prefix := if mapped then "ipv6:" else "ipv4:";
    var body := Join(Endpoints(list), ",");
    assert Target(addresses) == Ok(prefix + body);
    assert (prefix + body)[5..] == body && prefix <= prefix + body;
    assert prefix[3] == (prefix + body)[3];
  }
}
