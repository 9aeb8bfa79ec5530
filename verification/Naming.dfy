/** Name-server addresses: printed by NamingScheme::buildAddress, read back by ClientImpl::setAccessPoint. */
module Naming {
  import opened Base
  import opened Text

  // ---- Host forms ----

  /** One number of the IPv4 pattern, alternative by alternative. */
  predicate Octet(s: string) {
    || (|s| == 1 && Digit(s[0]))
    || (|s| == 2 && '1' <= s[0] <= '9' && Digit(s[1]))
    || (|s| == 3 && s[0] == '1' && Digit(s[1]) && Digit(s[2]))
    || (|s| == 3 && s[0] == '2' && '0' <= s[1] <= '4' && Digit(s[2]))
    || (|s| == 3 && s[0] == '2' && s[1] == '5' && '0' <= s[2] <= '5')
  }

  predicate IsIPv4(host: string) {
    var parts := Split(host, '.');
    |parts| == 4 && Octet(parts[0]) && Octet(parts[1]) && Octet(parts[2]) && Octet(parts[3])
  }

  predicate HexGroup(s: string) {
    1 <= |s| <= 4 && forall i :: 0 <= i < |s| ==> Digit(s[i]) || 'a' <= s[i] <= 'f' || 'A' <= s[i] <= 'F'
  }

  predicate IsIPv6(host: string) {
    var parts := Split(host, ':');
    |parts| == 8 && forall i :: 0 <= i < 8 ==> HexGroup(parts[i])
  }

  /** The pattern accepts exactly the numbers up to 255 written without leading zeros. */
  lemma OctetIff(s: string)
    ensures Octet(s) <==> exists n: nat :: n < 256 && s == Print(n)
  {
    if Octet(s) {
      OctetPrints(s);
    }
    if n: nat :| n < 256 && s == Print(n) {
      PrintOctet(n);
    }
  }

  lemma OctetPrints(s: string)
    requires Octet(s)
    ensures Value(s) < 256 && s == Print(Value(s))
  {
    OctetSmall(s);
    assert Canonical(s);
    PrintValue(s);
  }

  lemma OctetSmall(s: string)
    requires Octet(s)
    ensures Value(s) < 256
  {
    if |s| == 3 {
      ThreeDigits(s);
    } else if |s| == 2 {
      assert s[..1] == [s[0]] && Value([s[0]]) == DigitValue(s[0]);
    }
  }

  lemma ThreeDigits(s: string)
    requires AllDigits(s) && |s| == 3
    ensures Value(s) == 100 * DigitValue(s[0]) + 10 * DigitValue(s[1]) + DigitValue(s[2])
  {
    var t := s[..2];
    assert t[..1] == [s[0]] && t[1] == s[1];
    assert Value([s[0]]) == DigitValue(s[0]);
  }

  lemma PrintOctet(n: nat)
    requires n < 256
    ensures Octet(Print(n))
  {
    if n < 10 {
      assert Print(n) == [n as char + '0'];
    } else if n < 100 {
      assert Print(n / 10) == [(n / 10) as char + '0'];
    } else {
      assert Print(n / 100) == [(n / 100) as char + '0'];
      assert n / 10 / 10 == n / 100;
    }
  }

  /** Four numbers with dots between them. */
  function Dotted(a: nat, b: nat, c: nat, d: nat): string {
    Print(a) + "." + (Print(b) + "." + (Print(c) + "." + Print(d)))
  }

  lemma JoinFour(a: string, b: string, c: string, d: string)
    ensures Join([a, b, c, d], '.') == a + "." + (b + "." + (c + "." + d))
  {
    assert [c, d][1..] == [d];
    assert Join([c, d], '.') == c + "." + d;
    assert [b, c, d][1..] == [c, d];
    assert Join([b, c, d], '.') == b + "." + (c + "." + d);
    assert [a, b, c, d][1..] == [b, c, d];
  }

  /** IPv4 hosts are exactly four numbers up to 255, written without leading zeros, with dots between them. */
  lemma IPv4Iff(host: string)
    ensures IsIPv4(host) <==>
            exists a: nat, b: nat, c: nat, d: nat ::
              a < 256 && b < 256 && c < 256 && d < 256 && host == Dotted(a, b, c, d)
  {
    if IsIPv4(host) {
      var parts := Split(host, '.');
      JoinSplit(host, '.');
      assert parts == [parts[0], parts[1], parts[2], parts[3]];
      JoinFour(parts[0], parts[1], parts[2], parts[3]);
      forall i | 0 <= i < 4 ensures Value(parts[i]) < 256 && parts[i] == Print(Value(parts[i])) {
        OctetPrints(parts[i]);
      }
      assert host == Dotted(Value(parts[0]), Value(parts[1]), Value(parts[2]), Value(parts[3]));
    }
    forall a: nat, b: nat, c: nat, d: nat | a < 256 && b < 256 && c < 256 && d < 256 && host == Dotted(a, b, c, d)
      ensures IsIPv4(host)
    {
      DottedIsIPv4(a, b, c, d);
    }
  }

  lemma DottedIsIPv4(a: nat, b: nat, c: nat, d: nat)
    requires a < 256 && b < 256 && c < 256 && d < 256
    ensures IsIPv4(Dotted(a, b, c, d))
  {
    var parts := [Print(a), Print(b), Print(c), Print(d)];
    PrintOctet(a);
    PrintOctet(b);
    PrintOctet(c);
    PrintOctet(d);
    JoinFour(Print(a), Print(b), Print(c), Print(d));
    SplitJoin(parts, '.');
  }

  lemma {:induction false} JoinChars(parts: seq<string>, sep: char, c: char)
    requires c != sep && forall i :: 0 <= i < |parts| ==> c !in parts[i]
    ensures c !in Join(parts, sep)
  {
    if |parts| > 1 {
      JoinChars(parts[1..], sep, c);
    }
  }

  /** An IPv4 host holds neither a colon nor a comma, so it survives both splits. */
  lemma IPv4Plain(host: string)
    requires IsIPv4(host)
    ensures ':' !in host && ',' !in host
  {
    var parts := Split(host, '.');
    JoinSplit(host, '.');
    JoinChars(parts, '.', ':');
    JoinChars(parts, '.', ',');
  }

  // ---- buildAddress ----

  datatype Collected =
    | Domain(host: string, port: string)
    | Addresses(ipv4: map<string, nat>, ipv6: map<string, nat>)

  /** The effect of one segment on the two maps, or the domain name that ends the loop. */
  function Classified(ipv4: map<string, nat>, ipv6: map<string, nat>, segment: string): Collected {
    var parts := Split(segment, ':');
    if |parts| != 2 then Addresses(ipv4, ipv6)
    else if IsIPv4(parts[0]) then
      match SimpleAtoi(parts[1])
      case Some(port) => Addresses(ipv4[parts[0] := port], ipv6)
      case None => Addresses(ipv4, ipv6)
    else if IsIPv6(parts[0]) then
      match SimpleAtoi(parts[1])
      case Some(port) => Addresses(ipv4, ipv6[parts[0] := port])
      case None => Addresses(ipv4, ipv6)
    else Domain(parts[0], parts[1])
  }

  function Collect(list: seq<string>): Collected {
    if list == [] then Addresses(map[], map[])
    else
      match Collect(list[..|list| - 1])
      case Domain(host, port) => Domain(host, port)
      case Addresses(ipv4, ipv6) => Classified(ipv4, ipv6, list[|list| - 1])
  }

  /** Some order in which a hash map may enumerate its keys. */
  ghost predicate IsOrder(order: seq<string>, keys: set<string>) {
    && (forall k :: k in keys <==> k in order)
    && (forall i, j :: 0 <= i < j < |order| ==> order[i] != order[j])
  }

  function Entry(m: map<string, nat>, host: string): string
    requires host in m
  {
    host + ":" + Print(m[host])
  }

  function Entries(m: map<string, nat>, order: seq<string>): (r: seq<string>)
    requires forall k :: k in order ==> k in m
    ensures |r| == |order| && forall i :: 0 <= i < |r| ==> r[i] == Entry(m, order[i])
  {
    seq(|order|, i requires 0 <= i < |order| => Entry(m, order[i]))
  }

  /** The address built when the IPv4 map prints in the given order. */
  ghost function Built(c: Collected, order: seq<string>): string
    requires c.Addresses? ==> IsOrder(order, c.ipv4.Keys)
  {
    match c
    case Domain(host, port) => Join(["dns", host, port], ':')
    case Addresses(ipv4, ipv6) =>
      if ipv4 != map[] then "ipv4:" + Join(Entries(ipv4, order), ',')
      else if ipv6 != map[] then "ipv6:" + Join(Entries(ipv4, order), ',')
      else ""
  }

  lemma {:induction false} DomainEnds(list: seq<string>, i: nat)
    requires i <= |list| && Collect(list[..i]).Domain?
    ensures Collect(list) == Collect(list[..i])
    decreases |list| - i
  {
    if i == |list| {
      assert list[..i] == list;
    } else {
      assert list[..i + 1][..i] == list[..i];
      DomainEnds(list, i + 1);
    }
  }

  /** An address that buildAddress may return: the hash map decides the order. */
  ghost predicate MayBuild(c: Collected, r: string) {
    if c.Domain? then r == Built(c, []) else exists order :: IsOrder(order, c.ipv4.Keys) && r == Built(c, order)
  }

  method BuildAddress(list: seq<string>) returns (r: string)
    ensures MayBuild(Collect(list), r)
  {
    var ipv4: map<string, nat> := map[];
    var ipv6: map<string, nat> := map[];
    for i := 0 to |list|
      invariant Collect(list[..i]) == Addresses(ipv4, ipv6)
    {
      assert list[..i + 1][..i] == list[..i];
      var parts := Split(list[i], ':');
      if |parts| != 2 {
        continue;
      }
      if IsIPv4(parts[0]) {
        var port := SimpleAtoi(parts[1]);
        if port.Some? {
          ipv4 := ipv4[parts[0] := port.value];
        }
        continue;
      }
      if IsIPv6(parts[0]) {
        var port := SimpleAtoi(parts[1]);
        if port.Some? {
          ipv6 := ipv6[parts[0] := port.value];
        }
        continue;
      }
      DomainEnds(list, i + 1);
      assert ["dns"] + parts == ["dns", parts[0], parts[1]];
      return Join(["dns"] + parts, ':');
    }
    assert list[..|list|] == list;
    var entries, order := PrintEntries(ipv4);
    if ipv4 != map[] {
      r := "ipv4:" + Join(entries, ',');
    } else if ipv6 != map[] {
      r := "ipv6:" + Join(entries, ',');
    } else {
      r := "";
    }
    assert r == Built(Collect(list), order);
  }

  /** The key-value texts, in whatever order the hash map yields its keys. */
  method PrintEntries(m: map<string, nat>) returns (entries: seq<string>, order: seq<string>)
    ensures IsOrder(order, m.Keys) && entries == Entries(m, order)
  {
    entries, order := [], [];
    var left := m.Keys;
    while left != {}
      invariant left <= m.Keys && IsOrder(order, m.Keys - left) && entries == Entries(m, order)
      decreases left
    {
      var k :| k in left;
      left := left - {k};
      entries, order := entries + [Entry(m, k)], order + [k];
    }
  }

  /** What is kept is well-formed, and the IPv6 map stays empty: a two-part split leaves no colon in the host. */
  lemma {:induction false} CollectSound(list: seq<string>)
    requires Collect(list).Addresses?
    ensures Collect(list).ipv6 == map[]
    ensures forall h :: h in Collect(list).ipv4 ==> IsIPv4(h) && Collect(list).ipv4[h] < UINT32_MODULUS
  {
    if list != [] {
      CollectSound(list[..|list| - 1]);
      var segment := list[|list| - 1];
      SplitFree(segment, ':');
      SplitWhole(Split(segment, ':')[0], ':');
    }
  }

  // ---- setAccessPoint ----

  datatype Scheme = Unspecified | IPv4 | IPv6 | DomainName

  datatype Address = Address(host: string, port: nat)

  datatype Endpoints = Endpoints(scheme: Scheme, addresses: seq<Address>)

  function SchemeOf(address: string): (Scheme, string) {
    if "dns:" <= address then (DomainName, address[4..])
    else if "ipv4:" <= address then (IPv4, address[5..])
    else if "ipv6:" <= address then (IPv6, address[5..])
    else (Unspecified, "")
  }

  /** One item: skipped without a colon; otherwise its port must read as an int, kept in 16 bits. */
  function ReadItem(item: string): Option<seq<Address>> {
    var pos := LastIndex(item, ':');
    if pos < 0 then Some([])
    else
      match Stoi(item[pos + 1..])
      case Some(port) => Some([Address(item[..pos], port % UINT16_MODULUS)])
      case None => None
  }

  function Appended(front: Option<seq<Address>>, last: Option<seq<Address>>): Option<seq<Address>> {
    if front.Some? && last.Some? then Some(front.value + last.value) else None
  }

  /** The first `n` results in a row, if none of them failed. */
  function Gathered(results: seq<Option<seq<Address>>>, n: nat): Option<seq<Address>>
    requires n <= |results|
  {
    if n == 0 then Some([]) else Appended(Gathered(results, n - 1), results[n - 1])
  }

  function ReadAll(items: seq<string>): (r: seq<Option<seq<Address>>>)
    ensures |r| == |items| && forall i :: 0 <= i < |r| ==> r[i] == ReadItem(items[i])
  {
    seq(|items|, i requires 0 <= i < |items| => ReadItem(items[i]))
  }

  /** None stands for the exception of std::stoi leaving setAccessPoint. */
  function Parsed(address: string): Option<Endpoints> {
    var (scheme, csv) := SchemeOf(address);
    var items := Split(csv, ',');
    match Gathered(ReadAll(items), |items|)
    case Some(addresses) => Some(Endpoints(scheme, addresses))
    case None => None
  }

  lemma {:induction false} FailureStays(results: seq<Option<seq<Address>>>, i: nat)
    requires i <= |results| && Gathered(results, i).None?
    ensures Gathered(results, |results|).None?
    decreases |results| - i
  {
    if i < |results| {
      FailureStays(results, i + 1);
    }
  }

  /** The body of the item loop: nothing without a colon, None for the exception. */
  method ReadPair(item: string) returns (pair: Option<seq<Address>>)
    ensures pair == ReadItem(item)
  {
    var pos := LastIndex(item, ':');
    if pos < 0 {
      return Some([]);
    }
    var port := Stoi(item[pos + 1..]);
    if port.None? {
      return None;
    }
    pair := Some([Address(item[..pos], port.value % UINT16_MODULUS)]);
  }

  method ReadPairs(items: seq<string>) returns (pairs: Option<seq<Address>>)
    ensures pairs == Gathered(ReadAll(items), |items|)
  {
    ghost var results := ReadAll(items);
    var read: seq<Address> := [];
    for i := 0 to |items|
      invariant Gathered(results, i) == Some(read)
    {
      var pair := ReadPair(items[i]);
      if pair.None? {
        FailureStays(results, i + 1);
        return None;
      }
      read := read + pair.value;
    }
    pairs := Some(read);
  }

  method SetAccessPoint(address: string) returns (r: Option<Endpoints>)
    ensures r == Parsed(address)
  {
    var (scheme, csv) := SchemeOf(address);
    var pairs := ReadPairs(Split(csv, ','));
    if pairs.None? {
      return None;
    }
    var addresses: seq<Address> := [];
    for i := 0 to |pairs.value|
      invariant addresses == pairs.value[..i]
    {
      addresses := addresses + [pairs.value[i]];
    }
    assert addresses == pairs.value;
    r := Some(Endpoints(scheme, addresses));
  }

  // ---- Round trips ----

  lemma {:induction false} LastIndexAt(a: string, b: string, c: char)
    requires c !in b
    ensures LastIndex(a + [c] + b, c) == |a|
  {
    var s := a + [c] + b;
    if b != "" {
      LastIndexAt(a, b[..|b| - 1], c);
      assert s[..|s| - 1] == a + [c] + b[..|b| - 1];
    }
  }

  lemma ReadHostPort(host: string, port: string)
    requires ':' !in port
    ensures ReadItem(host + ":" + port) ==
            match Stoi(port) case Some(v) => Some([Address(host, v % UINT16_MODULUS)]) case None => None
  {
    var item := host + ":" + port;
    LastIndexAt(host, port, ':');
    assert item[..|host|] == host && item[|host| + 1..] == port;
  }

  function Pairs(m: map<string, nat>, order: seq<string>): (r: seq<Address>)
    requires forall k :: k in order ==> k in m
    ensures |r| == |order|
    ensures forall i :: 0 <= i < |r| ==> r[i] == Address(order[i], m[order[i]] % UINT16_MODULUS)
  {
    seq(|order|, i requires 0 <= i < |order| => Address(order[i], m[order[i]] % UINT16_MODULUS))
  }

  lemma ReadEntry(host: string, port: nat)
    ensures ReadItem(host + ":" + Print(port)) ==
            if port < INT32_LIMIT then Some([Address(host, port % UINT16_MODULUS)]) else None
  {
    ReadHostPort(host, Print(port));
    StoiPrint(port);
  }

  lemma EntryResult(m: map<string, nat>, order: seq<string>, i: nat)
    requires i < |order| && forall k :: k in order ==> k in m
    ensures ReadAll(Entries(m, order))[i] == if m[order[i]] < INT32_LIMIT then Some([Pairs(m, order)[i]]) else None
  {
    ReadEntry(order[i], m[order[i]]);
  }

  /** Each result is the pair of its entry, or a failure if the port leaves the range of int. */
  ghost predicate EntryResults(ports: seq<nat>, pairs: seq<Address>, results: seq<Option<seq<Address>>>) {
    && |results| == |pairs| == |ports|
    && forall i :: 0 <= i < |ports| ==> results[i] == if ports[i] < INT32_LIMIT then Some([pairs[i]]) else None
  }

  lemma {:induction false} GatherPairs(ports: seq<nat>, pairs: seq<Address>,
                                       results: seq<Option<seq<Address>>>, n: nat)
    requires EntryResults(ports, pairs, results) && n <= |ports|
    ensures Gathered(results, n) ==
            if forall i :: 0 <= i < n ==> ports[i] < INT32_LIMIT then Some(pairs[..n]) else None
  {
    if n > 0 {
      GatherPairs(ports, pairs, results, n - 1);
      assert pairs[..n] == pairs[..n - 1] + [pairs[n - 1]];
    }
  }

  function Ports(m: map<string, nat>, order: seq<string>): (r: seq<nat>)
    requires forall k :: k in order ==> k in m
    ensures |r| == |order| && forall i :: 0 <= i < |r| ==> r[i] == m[order[i]]
  {
    seq(|order|, i requires 0 <= i < |order| => m[order[i]])
  }

  lemma GatherAll(m: map<string, nat>, order: seq<string>, results: seq<Option<seq<Address>>>)
    requires (forall k :: k in order ==> k in m) && EntryResults(Ports(m, order), Pairs(m, order), results)
    ensures Gathered(results, |order|) ==
            if forall k :: k in order ==> m[k] < INT32_LIMIT then Some(Pairs(m, order)) else None
  {
    var ports, pairs := Ports(m, order), Pairs(m, order);
    GatherPairs(ports, pairs, results, |order|);
    assert pairs[..|order|] == pairs;
    assert (forall k :: k in order ==> m[k] < INT32_LIMIT) <==> forall i :: 0 <= i < |order| ==> ports[i] < INT32_LIMIT;
  }

  lemma AllEntryResults(m: map<string, nat>, order: seq<string>)
    requires forall k :: k in order ==> k in m
    ensures EntryResults(Ports(m, order), Pairs(m, order), ReadAll(Entries(m, order)))
  {
    forall i | 0 <= i < |order|
      ensures ReadAll(Entries(m, order))[i] ==
              if m[order[i]] < INT32_LIMIT then Some([Pairs(m, order)[i]]) else None
    {
      EntryResult(m, order, i);
    }
  }

  /** Printed entries read back in order, ports in 16 bits, unless a port leaves the range of int. */
  lemma ReadEntries(m: map<string, nat>, order: seq<string>)
    requires forall k :: k in order ==> k in m
    ensures Gathered(ReadAll(Entries(m, order)), |order|) ==
            if forall k :: k in order ==> m[k] < INT32_LIMIT then Some(Pairs(m, order)) else None
  {
    AllEntryResults(m, order);
    GatherAll(m, order, ReadAll(Entries(m, order)));
  }

  lemma SplitEntries(m: map<string, nat>, order: seq<string>)
    requires order != [] && forall k :: k in order ==> k in m && IsIPv4(k)
    ensures Split(Join(Entries(m, order), ','), ',') == Entries(m, order)
  {
    forall i | 0 <= i < |order| ensures ',' !in Entries(m, order)[i] {
      IPv4Plain(order[i]);
    }
    SplitJoin(Entries(m, order), ',');
  }

  /** What setAccessPoint makes of a printed IPv4 map, in any print order. */
  lemma ParsedPrinted(m: map<string, nat>, order: seq<string>)
    requires order != [] && forall k :: k in order ==> k in m && IsIPv4(k)
    ensures Parsed("ipv4:" + Join(Entries(m, order), ',')) ==
            if forall k :: k in order ==> m[k] < INT32_LIMIT then Some(Endpoints(IPv4, Pairs(m, order))) else None
  {
    SplitEntries(m, order);
    ReadEntries(m, order);
    SchemeIPv4(Join(Entries(m, order), ','));
  }

  lemma SchemeIPv4(csv: string)
    ensures SchemeOf("ipv4:" + csv) == (IPv4, csv)
  {
    var s := "ipv4:" + csv;
    assert s[0] == 'i' && s[..5] == "ipv4:" && s[5..] == csv;
  }

  lemma SchemeDomain(csv: string)
    ensures SchemeOf("dns:" + csv) == (DomainName, csv)
  {
    var s := "dns:" + csv;
    assert s[..4] == "dns:" && s[4..] == csv;
  }

  /** The endpoints are IPv4 and hold each host of the map once, with its port. */
  ghost predicate Holds(e: Endpoints, m: map<string, nat>) {
    && e.scheme == IPv4
    && (forall i, j :: 0 <= i < j < |e.addresses| ==> e.addresses[i].host != e.addresses[j].host)
    && (forall h, p :: Address(h, p) in e.addresses <==> h in m && m[h] == p)
  }

  ghost predicate ParsesAs(text: string, m: map<string, nat>) {
    Parsed(text).Some? && Holds(Parsed(text).value, m)
  }

  lemma PairsHoldIff(m: map<string, nat>, order: seq<string>)
    requires IsOrder(order, m.Keys)
    ensures Holds(Endpoints(IPv4, Pairs(m, order)), m) <==> forall h :: h in m ==> m[h] < UINT16_MODULUS
  {
    if forall h :: h in m ==> m[h] < UINT16_MODULUS {
      forall h, p ensures Address(h, p) in Pairs(m, order) <==> h in m && m[h] == p {
        if h in m && m[h] == p {
          var i :| 0 <= i < |order| && order[i] == h;
          assert Pairs(m, order)[i] == Address(h, p);
        }
      }
    } else {
      var h :| h in m && m[h] >= UINT16_MODULUS;
      assert Address(h, m[h]) !in Pairs(m, order);
    }
  }

  lemma PrintedIff(m: map<string, nat>, order: seq<string>)
    requires m != map[] && IsOrder(order, m.Keys) && forall h :: h in m ==> IsIPv4(h)
    ensures ParsesAs("ipv4:" + Join(Entries(m, order), ','), m) <==> forall h :: h in m ==> m[h] < UINT16_MODULUS
  {
    var k :| k in m.Keys;
    assert k in order;
    PairsHoldIff(m, order);
    ParsedPrinted(m, order);
  }

  /** The round trip is exact, for every print order, precisely when every port fits 16 bits. */
  lemma RoundTripIff(list: seq<string>, order: seq<string>)
    requires Collect(list).Addresses? && Collect(list).ipv4 != map[] && IsOrder(order, Collect(list).ipv4.Keys)
    ensures ParsesAs(Built(Collect(list), order), Collect(list).ipv4) <==>
            forall h :: h in Collect(list).ipv4 ==> Collect(list).ipv4[h] < UINT16_MODULUS
  {
    CollectSound(list);
    PrintedIff(Collect(list).ipv4, order);
  }

  lemma {:induction false} GatherLast(results: seq<Option<seq<Address>>>, n: nat)
    requires n < |results| && forall i :: 0 <= i < n ==> results[i] == Some([])
    ensures Gathered(results, n) == Some([])
    ensures Gathered(results, n + 1) == results[n]
  {
    if n > 0 {
      GatherLast(results, n - 1);
    }
    assert results[n].Some? ==> [] + results[n].value == results[n].value;
  }

  lemma NoColon(item: string)
    requires ':' !in item
    ensures ReadItem(item) == Some([])
  {
    LastIndexIs(item, ':');
  }

  lemma {:induction false} SplitKeepsOut(s: string, sep: char, c: char)
    requires c !in s
    ensures forall i :: 0 <= i < |Split(s, sep)| ==> c !in Split(s, sep)[i]
  {
    if s != "" {
      SplitKeepsOut(s[1..], sep, c);
    }
  }

  /** The part of a host that a domain address is read with: what follows its last comma. */
  function HostRead(host: string): (r: string)
    ensures r == host <==> ',' !in host
  {
    var parts := Split(host, ',');
    HostReadIff(host);
    parts[|parts| - 1]
  }

  lemma HostReadIff(host: string)
    ensures var parts := Split(host, ',');
            parts[|parts| - 1] == host <==> ',' !in host
  {
    SplitFree(host, ',');
    if ',' !in host {
      SplitWhole(host, ',');
    }
  }

  lemma ReadDomain(host: string, port: string)
    requires ':' !in host && AllDigits(port) && port != ""
    ensures Parsed("dns:" + (host + ":" + port)) ==
            if Value(port) < INT32_LIMIT
            then Some(Endpoints(DomainName, [Address(HostRead(host), Value(port) % UINT16_MODULUS)]))
            else None
  {
    var csv := host + ":" + port;
    SchemeDomain(csv);
    ReadDomainItems(host, port);
  }

  lemma ReadDomainItems(host: string, port: string)
    requires ':' !in host && AllDigits(port) && port != ""
    ensures var items := Split(host + ":" + port, ',');
            Gathered(ReadAll(items), |items|) ==
            if Value(port) < INT32_LIMIT
            then Some([Address(HostRead(host), Value(port) % UINT16_MODULUS)])
            else None
  {
    var parts := Split(host, ',');
    var items := Split(host + ":" + port, ',');
    var n := |parts| - 1;
    SplitBefore(host, ":" + port, ',');
    assert host + (":" + port) == host + ":" + port;
    SplitKeepsOut(host, ',', ':');
    forall i | 0 <= i < n ensures ReadAll(items)[i] == Some([]) {
      NoColon(parts[i]);
    }
    assert items[n] == parts[n] + ":" + port;
    ReadHostPort(parts[n], port);
    StoiDigits(port);
    GatherLast(ReadAll(items), n);
  }

  lemma {:induction false} DomainParts(list: seq<string>)
    requires Collect(list).Domain?
    ensures ':' !in Collect(list).host && ':' !in Collect(list).port
  {
    var n := |list| - 1;
    if Collect(list[..n]).Domain? {
      DomainParts(list[..n]);
    } else {
      SplitFree(list[n], ':');
    }
  }

  /** A domain with a numeric port comes back as that single domain exactly if it holds no comma and the port fits. */
  lemma DomainRoundTripIff(list: seq<string>)
    requires Collect(list).Domain? && AllDigits(Collect(list).port) && Collect(list).port != ""
    ensures var Domain(host, port) := Collect(list);
            Parsed(Built(Collect(list), [])) == Some(Endpoints(DomainName, [Address(host, Value(port))])) <==>
            ',' !in host && Value(port) < UINT16_MODULUS
  {
    var Domain(host, port) := Collect(list);
    DomainParts(list);
    DomainText(host, port);
    ReadDomain(host, port);
  }

  lemma DomainText(host: string, port: string)
    ensures Join(["dns", host, port], ':') == "dns:" + (host + ":" + port)
  {
    assert ["dns", host, port][1..] == [host, port];
    assert [host, port][1..] == [port];
    assert Join([host, port], ':') == host + ":" + port;
    assert "dns" + [':'] == "dns:";
  }

  /** The text of a domain: dns, host and port with colons between them. */
  lemma DomainIsPrinted(host: string, port: string)
    ensures Built(Domain(host, port), []) == "dns:" + (host + ":" + port)
  {
    DomainText(host, port);
  }

  /** The text of addresses: ipv4 and a colon, then host, colon and port of each, with commas between them. */
  lemma AddressesArePrinted(ipv4: map<string, nat>, ipv6: map<string, nat>, first: string, rest: seq<string>)
    requires IsOrder([first] + rest, ipv4.Keys)
    ensures first in ipv4
    ensures var entry := first + ":" + Print(ipv4[first]);
            Built(Addresses(ipv4, ipv6), [first] + rest) ==
            "ipv4:" + if rest == [] then entry else entry + "," + Join(Entries(ipv4, rest), ',')
  {
    var order := [first] + rest;
    assert order[0] in ipv4.Keys;
    JoinFirst(Entries(ipv4, order), Entries(ipv4, rest), Entry(ipv4, first));
  }

  lemma JoinFirst(parts: seq<string>, rest: seq<string>, first: string)
    requires parts == [first] + rest
    ensures Join(parts, ',') == if rest == [] then first else first + "," + Join(rest, ',')
  {
    assert parts[1..] == rest;
  }

  // ---- What setAccessPoint reads from any text ----

  /** The scheme is the prefix before the first colon; without one of the three, nothing is read at all. */
  lemma SchemeIs(address: string)
    ensures "dns:" <= address ==> SchemeOf(address) == (DomainName, address[4..])
    ensures "ipv4:" <= address ==> SchemeOf(address) == (IPv4, address[5..])
    ensures "ipv6:" <= address ==> SchemeOf(address) == (IPv6, address[5..])
    ensures !("dns:" <= address) && !("ipv4:" <= address) && !("ipv6:" <= address) ==>
              Parsed(address) == Some(Endpoints(Unspecified, []))
  {
    assert "dns:" <= address ==> address[0] == 'd';
    assert "ipv4:" <= address ==> address[0] == 'i' && address[3] == '4';
    assert "ipv6:" <= address ==> address[0] == 'i' && address[3] == '6';
    NoColon("");
    GatherLast(ReadAll([""]), 0);
  }

  lemma {:induction false} GatherPrefix(a: seq<Option<seq<Address>>>, b: seq<Option<seq<Address>>>, n: nat)
    requires a <= b && n <= |a|
    ensures Gathered(a, n) == Gathered(b, n)
  {
    if n > 0 {
      GatherPrefix(a, b, n - 1);
    }
  }

  /** A further item adds its address at the end, and fails the whole text if its port does not read. */
  lemma ReadsInOrder(items: seq<string>, item: string)
    ensures Gathered(ReadAll(items + [item]), |items| + 1) ==
            match Gathered(ReadAll(items), |items|)
            case None => None
            case Some(read) => if ReadItem(item).None? then None else Some(read + ReadItem(item).value)
    ensures Gathered(ReadAll([]), 0) == Some([])
  {
    var all := ReadAll(items + [item]);
    GatherPrefix(ReadAll(items), all, |items|);
    assert all[|items|] == ReadItem(item);
  }

  /** With nothing to print, nothing is read back and no scheme is set. */
  lemma NothingBuilt(list: seq<string>, order: seq<string>)
    requires Collect(list).Addresses? && Collect(list).ipv4 == map[] && IsOrder(order, {})
    ensures Built(Collect(list), order) == "" && Parsed("") == Some(Endpoints(Unspecified, []))
  {
    CollectSound(list);
    NoColon("");
    GatherLast(ReadAll([""]), 0);
  }

  // ---- Which map is collected ----

  /** The IPv4 host and port a segment names. */
  function HostPort(segment: string): Option<(string, nat)> {
    var parts := Split(segment, ':');
    if |parts| == 2 && IsIPv4(parts[0]) && SimpleAtoi(parts[1]).Some?
    then Some((parts[0], SimpleAtoi(parts[1]).value))
    else None
  }

  /** A two-part segment whose host is no IPv4 address. */
  predicate NamesDomain(segment: string) {
    var parts := Split(segment, ':');
    |parts| == 2 && !IsIPv4(parts[0])
  }

  /** What each segment names. */
  function Named(list: seq<string>): (r: seq<Option<(string, nat)>>)
    ensures |r| == |list| && forall i :: 0 <= i < |r| ==> r[i] == HostPort(list[i])
  {
    seq(|list|, i requires 0 <= i < |list| => HostPort(list[i]))
  }

  predicate Names(named: Option<(string, nat)>, host: string) {
    named.Some? && named.value.0 == host
  }

  /** Entry `i` names the host and port, and no later one names that host. */
  predicate LastSays(named: seq<Option<(string, nat)>>, i: nat, host: string, port: nat) {
    && i < |named| && named[i] == Some((host, port))
    && forall j :: i < j < |named| ==> !Names(named[j], host)
  }

  lemma ClassifiedIs(ipv4: map<string, nat>, ipv6: map<string, nat>, segment: string)
    ensures Classified(ipv4, ipv6, segment) ==
            if NamesDomain(segment) then Domain(Split(segment, ':')[0], Split(segment, ':')[1])
            else if HostPort(segment).Some? then
              Addresses(ipv4[HostPort(segment).value.0 := HostPort(segment).value.1], ipv6)
            else Addresses(ipv4, ipv6)
  {
    SplitFree(segment, ':');
    SplitWhole(Split(segment, ':')[0], ':');
  }

  lemma LastSaysGrows(named: seq<Option<(string, nat)>>, last: Option<(string, nat)>, i: nat, host: string, port: nat)
    requires i < |named|
    ensures LastSays(named + [last], i, host, port) <==> LastSays(named, i, host, port) && !Names(last, host)
  {
    var all := named + [last];
    assert all[|named|] == last && forall j :: 0 <= j < |named| ==> all[j] == named[j];
  }

  /** Some entry is the last to name the host, with that port. */
  ghost predicate Says(named: seq<Option<(string, nat)>>, host: string, port: nat) {
    exists i :: LastSays(named, i, host, port)
  }

  lemma SaysNext(named: seq<Option<(string, nat)>>, last: Option<(string, nat)>, host: string, port: nat)
    ensures Says(named + [last], host, port) <==>
            if Names(last, host) then last.value.1 == port else Says(named, host, port)
  {
    var all, n := named + [last], |named|;
    assert LastSays(all, n, host, port) <==> last == Some((host, port));
    if Says(all, host, port) {
      var i: nat :| LastSays(all, i, host, port);
      if i < n {
        LastSaysGrows(named, last, i, host, port);
      }
    }
    if !Names(last, host) && Says(named, host, port) {
      var i: nat :| LastSays(named, i, host, port);
      LastSaysGrows(named, last, i, host, port);
    }
  }

  /** Without a domain segment, the map holds for each host the port of the last segment naming it. */
  lemma {:induction false} CollectedIff(list: seq<string>, host: string, port: nat)
    requires Collect(list).Addresses?
    ensures host in Collect(list).ipv4 && Collect(list).ipv4[host] == port <==> Says(Named(list), host, port)
  {
    if list != [] {
      var n := |list| - 1;
      CollectedIff(list[..n], host, port);
      SaysNext(Named(list[..n]), HostPort(list[n]), host, port);
      assert Named(list) == Named(list[..n]) + [HostPort(list[n])];
      ClassifiedIs(Collect(list[..n]).ipv4, Collect(list[..n]).ipv6, list[n]);
    }
  }

  /** A domain is collected exactly if some segment names one, and then it is the first that does. */
  lemma {:induction false} DomainIff(list: seq<string>)
    ensures Collect(list).Domain? <==> exists i :: 0 <= i < |list| && NamesDomain(list[i])
    ensures forall i ::
              0 <= i < |list| && NamesDomain(list[i]) && (forall j :: 0 <= j < i ==> !NamesDomain(list[j])) ==>
                Collect(list) == Domain(Split(list[i], ':')[0], Split(list[i], ':')[1])
  {
    if list != [] {
      var n := |list| - 1;
      DomainIff(list[..n]);
      if Collect(list[..n]).Addresses? {
        ClassifiedIs(Collect(list[..n]).ipv4, Collect(list[..n]).ipv6, list[n]);
      }
    }
  }
}
