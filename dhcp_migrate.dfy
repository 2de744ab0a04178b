/** The pure helpers of the Maintain-to-Cyder DHCP migration,
    cyder/management/commands/dhcp_migrate.py: netmask popcount, zone name
    cleaning, the range decisions of `create_range`, MAC normalisation,
    the level mapping, reverse zone names and the query cache. */
module DhcpMigrate {
  import opened Wrappers
  import opened Strings
  import Numbers
  import BaseUtils
  import Validation

  // ---------------------------------------------------------- calc_prefixlen

  /** The number of 1 bits of `n`. */
  function PopCount(n: nat): nat
  {
    if n == 0 then 0 else n % 2 + PopCount(n / 2)
  }

  /** `calc_prefixlen(netmask)`: `bits += netmask & 1; netmask >>= 1` until
      the mask is zero. */
  method CalcPrefixlen(netmask: nat) returns (bits: nat)
    ensures bits == PopCount(netmask)
  {
    bits := 0;
    var m := netmask;
    while m != 0
      invariant bits + PopCount(m) == PopCount(netmask)
      decreases m
    {
      bits := bits + m % 2;
      m := m / 2;
    }
  }

  /** The netmask of a /p network in a w-bit address. */
  function ContiguousMask(w: nat, p: nat): nat
    requires p <= w
  {
    Numbers.Pow2Monotone(w - p, w);
    Numbers.Pow2(w) - Numbers.Pow2(w - p)
  }

  lemma PopCountShift(n: nat, b: nat)
    requires b < 2
    ensures PopCount(2 * n + b) == PopCount(n) + b
  {
    assert (2 * n + b) % 2 == b && (2 * n + b) / 2 == n;
  }

  /** The popcount of a contiguous mask is its prefix length. */
  lemma {:induction false} PopCountOfMask(w: nat, p: nat)
    requires p <= w
    ensures PopCount(ContiguousMask(w, p)) == p
  {
    if p == 0 {
      assert ContiguousMask(w, p) == 0;
    } else if p < w {
      PopCountOfMask(w - 1, p);
      assert Numbers.Pow2(w) == 2 * Numbers.Pow2(w - 1);
      assert Numbers.Pow2(w - p) == 2 * Numbers.Pow2(w - 1 - p);
      assert ContiguousMask(w, p) == 2 * ContiguousMask(w - 1, p) + 0;
      PopCountShift(ContiguousMask(w - 1, p), 0);
    } else {
      PopCountOfMask(w - 1, p - 1);
      assert Numbers.Pow2(w) == 2 * Numbers.Pow2(w - 1);
      assert ContiguousMask(w, p) == 2 * ContiguousMask(w - 1, p - 1) + 1;
      PopCountShift(ContiguousMask(w - 1, p - 1), 1);
    }
  }

  /** For an IPv4 netmask 2^32 - 2^(32-p) `calc_prefixlen` returns p. */
  lemma CalcPrefixlenOfNetmask(p: nat)
    requires p <= 32
    ensures ContiguousMask(32, p) == 4294967296 - Numbers.Pow2(32 - p)
    ensures PopCount(ContiguousMask(32, p)) == p
  {
    assert Numbers.Pow2(32) == 4294967296 by { Numbers.Pow2Values(); }
    PopCountOfMask(32, p);
  }

  // --------------------------------------------------------- clean_zone_name

  /** `clean_zone_name(name)`: `name.replace(' ', '')`. */
  function CleanZoneName(name: string): string
  {
    ReplaceAll(name, " ", "")
  }

  /** The name with its spaces left out. */
  function WithoutSpaces(name: string): (r: string)
    ensures ' ' !in r
  {
    if |name| == 0 then ""
    else if name[0] == ' ' then WithoutSpaces(name[1..])
    else [name[0]] + WithoutSpaces(name[1..])
  }

  /** Cleaning removes every space and nothing else, and cleaning twice is
      cleaning once. */
  lemma {:induction false} CleanZoneNameRemovesSpaces(name: string)
    ensures CleanZoneName(name) == WithoutSpaces(name)
    ensures CleanZoneName(CleanZoneName(name)) == CleanZoneName(name)
  {
    if |name| > 0 {
      CleanZoneNameRemovesSpaces(name[1..]);
      if name[0] == ' ' {
        assert name[..1] == " ";
      } else {
        assert name[..1] != " ";
      }
    }
    var w := WithoutSpaces(name);
    forall j | 0 <= j <= |w| ensures !IsSubstringAt(w, " ", j) {
      if j + 1 <= |w| {
        assert w[j..j + 1][0] == w[j];
      }
    }
    ReplaceAllAbsent(w, " ", "");
  }

  // ------------------------------------------------------------ IPv4 text

  predicate IsIpv4(n: int)
  {
    0 <= n < 4294967296
  }

  /** `str(ipaddr.IPv4Address(n))` and `long2ip(n)`: the dotted quad. */
  function Octets(n: int): seq<nat>
    requires IsIpv4(n)
  {
    [n / 16777216, n / 65536 % 256, n / 256 % 256, n % 256]
  }

  function IpToString(n: int): string
    requires IsIpv4(n)
  {
    var o := Octets(n);
    Join([NatToString(o[0]), NatToString(o[1]), NatToString(o[2]), NatToString(o[3])], ".")
  }

  // ------------------------------------------------------------ create_range

  const AllowAllSubnets: seq<string> := [
    "10.192.76.2", "10.192.103.150", "10.192.15.2",
    "10.197.32.0", "10.192.148.32", "10.192.144.32", "10.192.140.32",
    "10.196.0.32", "10.196.4.32", "10.192.136.63", "10.196.8.8",
    "10.196.16.8", "10.196.24.8", "10.196.32.8", "10.196.40.8",
    "10.162.128.32", "10.162.136.32", "10.162.144.32", "10.198.0.80",
    "10.198.0.140", "10.192.131.9", "10.255.255.255", "10.214.64.32"]

  const IpPhonesStart: string := "128.193.177.71"
  const AvayaStart: string := "128.193.166.81"

  datatype Allow = AllowAny | AllowKnown | AllowLegacyAndVrf | AllowLegacy
  datatype RangeKind = Static | Dynamic

  /** The network and broadcast addresses of the range's network. */
  datatype NetworkBlock = NetworkBlock(network: int, broadcast: int)

  /** A row of the Maintain range table. */
  datatype RangeRow = RangeRow(start: int, end: int, rangeType: string, enabled: bool, known: bool)

  /** What `create_range` does with a row. */
  datatype RangeOutcome =
    | Ignored            // dynamic range without a default domain
    | AddressValueError  // start or end is not an IPv4 address
    | Created(kind: RangeKind, allow: Allow, network: Option<NetworkBlock>,
              vrf: Option<string>, dhcpEnabled: bool, isReserved: bool)

  /** The allow statement and the VRF attached to the network. */
  function ChooseAllow(startText: string, known: bool): (Allow, Option<string>)
  {
    if startText in AllowAllSubnets then (AllowAny, None)
    else if known then (AllowKnown, None)
    else if startText == IpPhonesStart then (AllowLegacyAndVrf, Some("ip-phones-hack"))
    else if startText == AvayaStart then (AllowLegacyAndVrf, Some("avaya-hack"))
    else (AllowLegacy, None)
  }

  /** `valid_start`, `valid_order` and `valid_end` together. */
  predicate RangeIsValid(block: NetworkBlock, start: int, end: int)
  {
    var validStart := block.network < start < block.broadcast;
    var validOrder := start <= end;
    var validEnd := block.network < end < block.broadcast;
    validStart && validOrder && validEnd
  }

  /** The decisions of `create_range` for a row, whether the range has a
      default domain, and the network of its subnet (if the subnet row
      exists). */
  function CreateRange(hasDomain: bool, row: RangeRow, subnet: Option<NetworkBlock>): RangeOutcome
  {
    if !hasDomain && row.rangeType == "dynamic" then Ignored
    else if !IsIpv4(row.start) || !IsIpv4(row.end) then AddressValueError
    else
      var kind := if row.rangeType == "static" then Static else Dynamic;
      match subnet
      case None => Created(kind, AllowLegacy, None, None, false, true)
      case Some(block) =>
        var choice := ChooseAllow(IpToString(row.start), row.known);
        var dhcpEnabled := row.enabled && RangeIsValid(block, row.start, row.end);
        Created(kind, choice.0, Some(block), choice.1, dhcpEnabled, !dhcpEnabled)
  }

  /** A range is valid iff network < start <= end < broadcast. */
  lemma RangeValidity(block: NetworkBlock, start: int, end: int)
    ensures RangeIsValid(block, start, end) <==> block.network < start <= end < block.broadcast
  {
  }

  /** DHCP is enabled only for an enabled, valid range with a network, and
      a range is reserved exactly when DHCP is not enabled. */
  lemma CreateRangeFlags(hasDomain: bool, row: RangeRow, subnet: Option<NetworkBlock>)
    ensures var r := CreateRange(hasDomain, row, subnet);
            r.Created? ==>
              r.isReserved == !r.dhcpEnabled &&
              r.network == subnet &&
              (subnet.None? ==> !r.dhcpEnabled && r.allow == AllowLegacy) &&
              (subnet.Some? ==>
                 (r.dhcpEnabled <==> row.enabled && subnet.value.network < row.start <= row.end < subnet.value.broadcast))
    ensures CreateRange(hasDomain, row, subnet).Ignored? <==> !hasDomain && row.rangeType == "dynamic"
  {
  }

  /** The allow statement in priority order: listed start, known, one of the
      two special starts, legacy. */
  lemma AllowPriority(startText: string, known: bool)
    ensures startText in AllowAllSubnets ==> ChooseAllow(startText, known).0 == AllowAny
    ensures startText !in AllowAllSubnets && known ==> ChooseAllow(startText, known).0 == AllowKnown
    ensures startText !in AllowAllSubnets && !known && (startText == IpPhonesStart || startText == AvayaStart) ==>
            ChooseAllow(startText, known).0 == AllowLegacyAndVrf
    ensures startText !in AllowAllSubnets && !known && startText != IpPhonesStart && startText != AvayaStart ==>
            ChooseAllow(startText, known) == (AllowLegacy, None)
  {
  }

  /** The allow statement of a range created with a network: ANY for a
      listed start, else KNOWN for a known range, else LEGACY_AND_VRF for
      the two special starts, else LEGACY. A VRF is attached exactly with
      LEGACY_AND_VRF, and neither depends on whether the range is enabled. */
  lemma AllowOfRange(hasDomain: bool, row: RangeRow, block: NetworkBlock, enabled: bool)
    requires CreateRange(hasDomain, row, Some(block)).Created?
    ensures var r := CreateRange(hasDomain, row, Some(block));
            var start := IpToString(row.start);
            (r.allow == AllowAny <==> start in AllowAllSubnets) &&
            (r.allow == AllowKnown <==> start !in AllowAllSubnets && row.known) &&
            (r.allow == AllowLegacyAndVrf <==>
               start !in AllowAllSubnets && !row.known && (start == IpPhonesStart || start == AvayaStart)) &&
            (r.vrf.Some? <==> r.allow == AllowLegacyAndVrf)
    ensures var r := CreateRange(hasDomain, row, Some(block));
            var r' := CreateRange(hasDomain, row.(enabled := enabled), Some(block));
            r'.Created? && r'.allow == r.allow && r'.vrf == r.vrf
  {
    AllowPriority(IpToString(row.start), row.known);
  }

  // ------------------------------------------------- migrate_dynamic_hosts

  /** A MAC that is not 12 characters or is all zeros becomes "". */
  function NormalizeMac(mac: string): (r: string)
    ensures r == "" || (|r| == 12 && r == mac && r != "000000000000")
    ensures |mac| == 12 && mac != "000000000000" ==> r == mac
  {
    if |mac| != 12 || mac == "000000000000" then "" else mac
  }

  /** A host without a usable MAC is disabled. */
  function HostEnabled(enabled: bool, mac: string): (r: bool)
    ensures r <==> enabled && NormalizeMac(mac) != ""
  {
    if NormalizeMac(mac) == "" then false else enabled
  }

  /** Normalising twice is normalising once, an enabled host has a usable
      MAC, and a migrated host stays as it is when migrated again. */
  lemma HostRules(enabled: bool, mac: string)
    ensures NormalizeMac(NormalizeMac(mac)) == NormalizeMac(mac)
    ensures HostEnabled(enabled, mac) ==> |mac| == 12 && mac != "000000000000" && NormalizeMac(mac) == mac
    ensures HostEnabled(HostEnabled(enabled, mac), NormalizeMac(mac)) == HostEnabled(enabled, mac)
  {
  }

  // ---------------------------------------------------- migrate_zone_user

  /** `NEW_LEVEL[level]`; `None` is the KeyError of any other level. */
  function NewLevel(level: int): (r: Option<nat>)
    ensures r.Some? <==> level in {5, 25, 50, 100}
    ensures r.Some? ==> r.value <= 2
    ensures level == 5 ==> r == Some(0)
    ensures level == 25 ==> r == Some(1)
    ensures level == 50 || level == 100 ==> r == Some(2)
  {
    if level == 5 then Some(0)
    else if level == 25 then Some(1)
    else if level == 50 || level == 100 then Some(2)
    else None
  }

  /** A higher Maintain level never gives a lower cyder level. */
  lemma NewLevelMonotone(a: int, b: int)
    requires a <= b && NewLevel(a).Some? && NewLevel(b).Some?
    ensures NewLevel(a).value <= NewLevel(b).value
  {
  }

  // -------------------------------------------------- migrate_zone_reverse

  /** The reverse name of the first `k` octets. */
  function ReverseName(octets: seq<string>, k: nat): string
    requires k <= |octets|
  {
    Join(Reverse(octets[..k]), ".") + ".in-addr.arpa"
  }

  /** The loop of `migrate_zone_reverse` for one address: the reverse
      domains it creates in order, and the one it adds to the container
      (the last). */
  method MigrateZoneReverse(ip: int) returns (created: seq<string>, added: string)
    requires IsIpv4(ip)
    ensures |created| == 4
    ensures forall k :: 0 <= k < 4 ==> created[k] == ReverseName(OctetTexts(ip), k + 1)
    ensures added == created[3]
  {
    var octets := OctetTexts(ip);
    var doctets: seq<string> := [];
    created := [];
    var domain := "";
    for i := 0 to |octets|
      invariant doctets == Reverse(octets[..i])
      invariant |created| == i
      invariant forall k :: 0 <= k < i ==> created[k] == ReverseName(octets, k + 1)
      invariant i > 0 ==> domain == created[i - 1]
    {
      assert octets[..i + 1] == octets[..i] + [octets[i]];
      ReverseSnoc(octets[..i], octets[i]);
      doctets := [octets[i]] + doctets;
      var dname := Join(doctets, ".") + ".in-addr.arpa";
      created := created + [dname];
      domain := dname;
    }
    added := domain;
  }

  lemma {:induction false} ReverseSnoc<T>(s: seq<T>, x: T)
    ensures Reverse(s + [x]) == [x] + Reverse(s)
  {
    if |s| == 0 {
      assert s + [x] == [x];
    } else {
      assert (s + [x])[0] == s[0];
      assert (s + [x])[1..] == s[1..] + [x];
      ReverseSnoc(s[1..], x);
      assert Reverse(s + [x]) == Reverse(s[1..] + [x]) + [s[0]];
    }
  }

  /** `long2ip(ip).split(".")`. */
  function OctetTexts(ip: int): (r: seq<string>)
    requires IsIpv4(ip)
    ensures |r| == 4
    ensures forall i :: 0 <= i < 4 ==> r[i] == NatToString(Octets(ip)[i])
  {
    SplitOfIp(ip);
    Split(IpToString(ip), '.')
  }

  /** `long2ip(ip).split(".")` is the four octets as decimal text. */
  lemma SplitOfIp(ip: int)
    requires IsIpv4(ip)
    ensures Split(IpToString(ip), '.') ==
            [NatToString(Octets(ip)[0]), NatToString(Octets(ip)[1]), NatToString(Octets(ip)[2]), NatToString(Octets(ip)[3])]
  {
    var o := Octets(ip);
    var parts := [NatToString(o[0]), NatToString(o[1]), NatToString(o[2]), NatToString(o[3])];
    forall i | 0 <= i < 4 ensures '.' !in parts[i] {
      NoDotInDigits(parts[i]);
    }
    SplitJoin(parts, '.');
  }

  lemma NoDotInDigits(s: string)
    requires IsDigits(s)
    ensures '.' !in s
  {
    forall k | 0 <= k < |s| ensures s[k] != '.' {
      assert IsDigitChar(s[k]);
    }
  }

  /** Every name `migrate_zone_reverse` creates is a valid IPv4 reverse
      name under `validate_reverse_name`. */
  lemma MigratedReverseNamesValid(ip: int, k: nat)
    requires IsIpv4(ip)
    requires 1 <= k <= 4
    ensures Validation.ReverseNameCheck(ReverseName(OctetTexts(ip), k), "4") == Validation.Valid
  {
    var o := Octets(ip);
    var octets := OctetTexts(ip);
    var rev := Reverse(octets[..k]);
    var body := Join(rev, ".");
    var name := body + ".in-addr.arpa";
    forall i | 0 <= i < |rev| ensures IsDigits(rev[i]) && '.' !in rev[i] && IsOctetText(rev[i]) {
      ReverseAt(octets[..k], i);
      var j := k - 1 - i;
      assert rev[i] == NatToString(o[j]);
      NoDotInDigits(rev[i]);
      OctetTextValid(o[j]);
    }
    JoinOfDigitsEndsInDigit(rev);
    StripReverseSuffixOfBody(body);
    SplitJoin(rev, '.');
    Validation.ReverseIpv4Valid(name, body);
    forall i | 0 <= i < |Split(body, '.')| ensures Validation.IsOctetText(Split(body, '.')[i]) {
      assert Split(body, '.')[i] == rev[i];
    }
  }

  predicate IsOctetText(s: string)
  {
    Validation.IsOctetText(s)
  }

  lemma OctetTextValid(n: nat)
    requires n < 256
    ensures Validation.IsOctetText(NatToString(n))
  {
    PyIntOfDigits(NatToString(n));
    NatToStringValue(n);
  }

  /** The pieces are non-empty digit strings, so the joined text ends in a
      digit. */
  lemma JoinOfDigitsEndsInDigit(parts: seq<string>)
    requires |parts| > 0
    requires forall i :: 0 <= i < |parts| ==> IsDigits(parts[i])
    ensures var j := Join(parts, "."); |j| > 0 && IsDigitChar(j[|j| - 1])
    decreases |parts|
  {
    if |parts| > 1 {
      JoinOfDigitsEndsInDigit(parts[1..]);
      var rest := Join(parts[1..], ".");
      assert Join(parts, ".") == parts[0] + "." + rest;
      var j := Join(parts, ".");
      assert j[|j| - 1] == rest[|rest| - 1];
    }
  }

  /** Text ending in a digit does not end with a suffix ending in 'a'. */
  lemma NotEndsWithArpa(body: string, suffix: string)
    requires |body| > 0 && IsDigitChar(body[|body| - 1])
    requires |suffix| > 0 && suffix[|suffix| - 1] == 'a'
    ensures body != suffix && !EndsWith(body, suffix)
  {
    if |suffix| <= |body| {
      assert body[|body| - |suffix|..][|suffix| - 1] == body[|body| - 1];
    }
  }

  /** Stripping the reverse suffixes from "<body>.in-addr.arpa" leaves
      `body` when it ends in a digit. */
  lemma StripReverseSuffixOfBody(body: string)
    requires |body| > 0 && IsDigitChar(body[|body| - 1])
    ensures Validation.StripSuffixes(body + ".in-addr.arpa", Validation.ReverseSuffixes) == Some(body)
  {
    InAddrTail(body);
    RStripOneDot(body);
    NotEndsWithArpa(body, "ip6.arpa");
    NotEndsWithArpa(body, "arpa");
    StripTail(body + ".in-addr.arpa", body);
  }

  lemma InAddrTail(body: string)
    ensures var name := body + ".in-addr.arpa";
            |name| > 12 && EndsWith(name, "in-addr.arpa") && name[..|name| - 12] == body + "."
  {
    var name := body + ".in-addr.arpa";
    assert name == (body + ".") + "in-addr.arpa";
    assert name[|name| - 12..] == "in-addr.arpa";
  }

  lemma RStripOneDot(body: string)
    requires |body| > 0 && body[|body| - 1] != '.'
    ensures RStrip(body + ".", {'.'}) == body
  {
    assert (body + ".")[..|body|] == body;
  }

  lemma StripTail(name: string, body: string)
    requires |name| > 12 && EndsWith(name, "in-addr.arpa")
    requires RStrip(name[..|name| - 12], {'.'}) == body
    requires body != "ip6.arpa" && !EndsWith(body, "ip6.arpa")
    requires body != "arpa" && !EndsWith(body, "arpa")
    ensures Validation.StripSuffixes(name, Validation.ReverseSuffixes) == Some(body)
  {
    var suffixes := Validation.ReverseSuffixes;
    assert suffixes == ["in-addr.arpa", "ip6.arpa", "arpa"];
    assert suffixes[1..] == ["ip6.arpa", "arpa"];
    assert suffixes[1..][1..] == ["arpa"];
    assert suffixes[1..][1..][1..] == [];
    assert |suffixes[0]| == 12;
    assert name != suffixes[0] by { assert |name| > 12; }
  }

  // ------------------------------------------------- maintain_get_cached

  /** A row of `SELECT id, <columns> FROM <table>`. */
  datatype Row<V> = Row(id: int, values: seq<V>)

  /** `dict(results)` for the rows: a later row with the same id wins. */
  function RowIndex<V>(rows: seq<Row<V>>): map<int, seq<V>>
  {
    BaseUtils.DictMerge(RowMaps(rows))
  }

  function RowMaps<V>(rows: seq<Row<V>>): (r: seq<map<int, seq<V>>>)
    ensures |r| == |rows|
    ensures forall i :: 0 <= i < |rows| ==> r[i] == map[rows[i].id := rows[i].values]
  {
    seq(|rows|, i requires 0 <= i < |rows| => map[rows[i].id := rows[i].values])
  }

  /** An id is indexed iff some row has it. */
  lemma RowIndexHas<V>(rows: seq<Row<V>>, id: int)
    ensures id in RowIndex(rows) <==> exists i :: 0 <= i < |rows| && rows[i].id == id
  {
    var dicts := RowMaps(rows);
    assert RowIndex(rows) == BaseUtils.DictMerge(dicts);
    BaseUtils.DictMergeHas(dicts, id);
    if id in RowIndex(rows) {
      var i :| 0 <= i < |dicts| && id in dicts[i];
      assert rows[i].id == id;
    } else {
      forall i | 0 <= i < |rows| ensures rows[i].id != id {
        assert id !in dicts[i];
      }
    }
  }

  /** An id maps to the values of the last row that has it. */
  lemma RowIndexLastWins<V>(rows: seq<Row<V>>, id: int, i: nat)
    requires i < |rows| && rows[i].id == id
    requires forall j :: i < j < |rows| ==> rows[j].id != id
    ensures id in RowIndex(rows) && RowIndex(rows)[id] == rows[i].values
  {
    var dicts := RowMaps(rows);
    assert RowIndex(rows) == BaseUtils.DictMerge(dicts);
    forall j | i < j < |dicts| ensures id !in dicts[j] {
      assert rows[j].id != id;
    }
    BaseUtils.DictMergeLastWins(dicts, id, i);
  }

  function CacheQuery(table: string, columns: seq<string>): string
  {
    "SELECT id, " + Join(columns, ", ") + " FROM " + table
  }

  function AllSome<V>(values: seq<V>): (r: seq<Option<V>>)
    ensures |r| == |values| && forall i :: 0 <= i < |values| ==> r[i] == Some(values[i])
  {
    seq(|values|, i requires 0 <= i < |values| => Some(values[i]))
  }

  /** The module-level `cached` table of `maintain_get_cached` and the
      queries it has run. */
  class MaintainCache<V> {
    var cached: map<(string, seq<string>), map<int, seq<V>>>
    var queries: seq<string>

    constructor ()
      ensures cached == map[] && queries == []
    {
      cached := map[];
      queries := [];
    }

    /** `maintain_get_cached(table, columns, object_id)`: the table is read
        only the first time a (table, columns) pair is asked for; an unknown
        id gives one `None` per column. `fetchAll` stands for running a
        query on the Maintain database. */
    method GetCached(table: string, columns: seq<string>, objectId: int, fetchAll: string -> seq<Row<V>>)
      returns (r: seq<Option<V>>)
      modifies this
      ensures (table, columns) in old(cached) ==> cached == old(cached) && queries == old(queries)
      ensures (table, columns) !in old(cached) ==>
              cached == old(cached)[(table, columns) := RowIndex(fetchAll(CacheQuery(table, columns)))] &&
              queries == old(queries) + [CacheQuery(table, columns)]
      ensures (table, columns) in cached
      ensures objectId in cached[(table, columns)] ==> r == AllSome(cached[(table, columns)][objectId])
      ensures objectId !in cached[(table, columns)] ==> r == seq(|columns|, _ => None)
    {
      var key := (table, columns);
      if key !in cached {
        var sql := CacheQuery(table, columns);
        var results := fetchAll(sql);
        queries := queries + [sql];
        cached := cached[key := RowIndex(results)];
      }
      var index := cached[key];
      if objectId in index {
        r := AllSome(index[objectId]);
      } else {
        r := seq(|columns|, _ => None);
      }
    }
  }
}
