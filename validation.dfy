/** The DNS name and field validators of cyder/cydns/validation.py. Every
    Python validator returns None or raises; here it returns a `Verdict`.
    `ValidationError`s and the other exceptions the code can raise on odd
    input (an `IndexError` on an empty name, a `ValueError` from `int()`)
    are distinct `Error` values. */
module Validation {
  import opened Wrappers
  import opened Strings
  import Numbers

  datatype Error =
    | SpansDomains(lab: string)
    | InvalidChar(lab: string, c: char)
    | LabelTooLong(lab: string)
    | DomainNameTooLong
    | EmptyLabel
    | TldIsNumber
    | EmptyName                       // IndexError: `fqdn[0]` of an empty string
    | TooManyOctets
    | TooManyNibbles
    | InvalidIpv6Nibble(name: string, nibble: string)
    | InvalidIpv4Octet(name: string, octet: string)
    | OctetNotAnInteger(octet: string) // ValueError raised by `int()`
    | MinimumOutOfRange
    | TtlOutOfRange
    | SrvPortOutOfRange
    | SrvPriorityOutOfRange
    | SrvWeightOutOfRange
    | MxPriorityOutOfRange
    | SrvMissingUnderscore
    | SrvNameMissing
    | InvalidIpType
    | DelegatedMaster(masterName: string)

  datatype Verdict = Valid | Invalid(error: Error)

  /** The first failing check over a sequence, in order (a Python `for`
      loop whose body raises). */
  function FirstFailure<T>(xs: seq<T>, check: T -> Verdict): Verdict
  {
    if |xs| == 0 then Valid
    else if check(xs[0]).Invalid? then check(xs[0])
    else FirstFailure(xs[1..], check)
  }

  /** One step of the scan from index `i` on. */
  lemma FirstFailureAt<T>(xs: seq<T>, check: T -> Verdict, i: nat)
    requires i < |xs|
    ensures FirstFailure(xs[i..], check) ==
            if check(xs[i]).Invalid? then check(xs[i]) else FirstFailure(xs[i + 1..], check)
  {
    assert xs[i..][0] == xs[i] && xs[i..][1..] == xs[i + 1..];
  }

  lemma {:induction false} FirstFailureValid<T>(xs: seq<T>, check: T -> Verdict)
    ensures FirstFailure(xs, check).Valid? <==> forall i :: 0 <= i < |xs| ==> check(xs[i]).Valid?
  {
    if |xs| > 0 {
      FirstFailureValid(xs[1..], check);
      assert forall i :: 1 <= i < |xs| ==> xs[i] == xs[1..][i - 1];
    }
  }

  // ---------------------------------------------------------------- labels

  /** A character of `string.ascii_letters + string.digits`. */
  predicate IsAsciiAlnum(c: char)
  {
    'a' <= c <= 'z' || 'A' <= c <= 'Z' || '0' <= c <= '9'
  }

  /** The characters `valid_chars` lists are modelled as a set: the code only
      asks `valid_chars.find(char) < 0` of each one. */
  type CharSet = set<char>

  /** Letters, digits, '-' and '_': the default of `validate_label`. */
  const DefaultLabelChars: CharSet := set c: char | IsAsciiAlnum(c) || c == '-' || c == '_'
  /** The set `validate_hostname_label` passes: no '_'. */
  const HostnameLabelChars: CharSet := set c: char | IsAsciiAlnum(c) || c == '-'
  /** The set `validate_domain_name` passes for each label (the default set). */
  const DomainLabelChars: CharSet := DefaultLabelChars
  /** Section 2.3.4 of RFC 1035: labels are 63 octets or less. */
  const MaxLabelLength := 63
  /** Names are at most 253 characters in text form. */
  const MaxDomainNameLength := 253

  /** The character loop of `validate_label` from position `i` on. */
  function ScanLabel(lab: string, chars: CharSet, i: nat): Verdict
    requires i <= |lab|
    decreases |lab| - i
  {
    if i == |lab| then Valid
    else if lab[i] == '.' then Invalid(SpansDomains(lab))
    else if lab[i] !in chars then Invalid(InvalidChar(lab, lab[i]))
    else ScanLabel(lab, chars, i + 1)
  }

  /** `if not valid_chars:` falls back to the default set. */
  function LabelChars(validChars: Option<CharSet>): CharSet
  {
    if validChars.None? || validChars.value == {} then DefaultLabelChars else validChars.value
  }

  /** `validate_label(label, valid_chars)`. */
  function LabelCheck(lab: string, validChars: Option<CharSet>): Verdict
  {
    var v := ScanLabel(lab, LabelChars(validChars), 0);
    if v.Invalid? then v
    else if |lab| > MaxLabelLength then Invalid(LabelTooLong(lab))
    else Valid
  }

  /** Every character of `lab` is in `chars` and none is a '.'. */
  predicate LabelCharsOk(lab: string, chars: CharSet)
  {
    forall i :: 0 <= i < |lab| ==> lab[i] != '.' && lab[i] in chars
  }

  lemma {:induction false} ScanLabelValid(lab: string, chars: CharSet, i: nat)
    requires i <= |lab|
    ensures ScanLabel(lab, chars, i).Valid? <==>
            forall j :: i <= j < |lab| ==> lab[j] != '.' && lab[j] in chars
    decreases |lab| - i
  {
    if i < |lab| {
      ScanLabelValid(lab, chars, i + 1);
    }
  }

  /** A label passes exactly when it has no '.', only allowed characters
      and at most 63 characters. */
  lemma LabelCheckValid(lab: string, validChars: Option<CharSet>)
    ensures LabelCheck(lab, validChars).Valid? <==>
            LabelCharsOk(lab, LabelChars(validChars)) && |lab| <= MaxLabelLength
  {
    ScanLabelValid(lab, LabelChars(validChars), 0);
  }

  /** The loop of `validate_label`, character by character. */
  method ValidateLabel(lab: string, validChars: Option<CharSet>) returns (v: Verdict)
    ensures v == LabelCheck(lab, validChars)
  {
    var chars := if validChars.None? || validChars.value == {} then DefaultLabelChars else validChars.value;
    var i := 0;
    while i < |lab|
      invariant 0 <= i <= |lab|
      invariant ScanLabel(lab, chars, i) == ScanLabel(lab, chars, 0)
    {
      if lab[i] == '.' {
        return Invalid(SpansDomains(lab));
      }
      if lab[i] !in chars {
        return Invalid(InvalidChar(lab, lab[i]));
      }
      i := i + 1;
    }
    if |lab| > MaxLabelLength {
      return Invalid(LabelTooLong(lab));
    }
    return Valid;
  }

  /** `validate_first_label(label, valid_chars)` as written: a leading '*'
      is allowed, and `valid_chars` is never passed on. */
  function FirstLabelCheck(lab: string, validChars: Option<CharSet>): Verdict
  {
    if lab != "" && lab[0] == '*' then
      if |lab| == 1 then Valid else LabelCheck(lab[1..], None)
    else LabelCheck(lab, None)
  }

  /** "*" alone passes, "*x" is judged as "x", and the character set the
      caller passes plays no part. */
  lemma FirstLabelWildcard(x: string, validChars: Option<CharSet>)
    ensures FirstLabelCheck("*", validChars) == Valid
    ensures x != "" ==> FirstLabelCheck("*" + x, validChars) == LabelCheck(x, None)
    ensures x == "" || x[0] != '*' ==> FirstLabelCheck(x, validChars) == LabelCheck(x, None)
  {
    if x != "" {
      assert ("*" + x)[1..] == x;
    }
  }

  /** The character set the caller asked for is ignored: "a_b" passes even
      when only 'a' and 'b' are allowed. */
  lemma FirstLabelIgnoresValidChars()
    ensures LabelCheck("a_b", Some({'a', 'b'})).Invalid?
    ensures FirstLabelCheck("a_b", Some({'a', 'b'})) == Valid
  {
    assert ScanLabel("a_b", {'a', 'b'}, 1) == Invalid(InvalidChar("a_b", '_'));
    assert ScanLabel("a_b", DefaultLabelChars, 3) == Valid;
  }

  /** `validate_first_label` with `valid_chars` passed on, as its docstring
      ("just validate_label except ... the first label") intends. */
  function FirstLabelCheckForwarding(lab: string, validChars: Option<CharSet>): Verdict
  {
    if lab != "" && lab[0] == '*' then
      if |lab| == 1 then Valid else LabelCheck(lab[1..], validChars)
    else LabelCheck(lab, validChars)
  }

  /** The corrected check is `validate_label` under the caller's characters,
      after one leading '*'. */
  lemma FirstLabelForwardingValid(lab: string, validChars: Option<CharSet>)
    ensures FirstLabelCheckForwarding(lab, validChars).Valid? <==>
            lab == "*" ||
            (var rest := if lab != "" && lab[0] == '*' then lab[1..] else lab;
             LabelCharsOk(rest, LabelChars(validChars)) && |rest| <= MaxLabelLength)
  {
    if lab != "" && lab[0] == '*' && |lab| > 1 {
      LabelCheckValid(lab[1..], validChars);
    } else if lab != "*" {
      LabelCheckValid(lab, validChars);
    }
  }

  /** `validate_hostname_label`: letters, digits and '-' only. */
  function HostnameLabelCheck(lab: string): Verdict
  {
    LabelCheck(lab, Some(HostnameLabelChars))
  }

  lemma HostnameLabelRejectsUnderscore(lab: string)
    requires '_' in lab
    ensures HostnameLabelCheck(lab).Invalid?
  {
    LabelCheckValid(lab, Some(HostnameLabelChars));
    assert 'a' in HostnameLabelChars;
    var k :| 0 <= k < |lab| && lab[k] == '_';
    assert lab[k] !in HostnameLabelChars;
  }

  // ---------------------------------------------------------- domain names

  /** A domain label may start with one '_', which is dropped before the
      label is checked. */
  function StripUnderscore(lab: string): string
  {
    if |lab| > 0 && lab[0] == '_' then lab[1..] else lab
  }

  function DomainLabelCheck(lab: string): Verdict
  {
    var l := StripUnderscore(lab);
    if l == "" then Invalid(EmptyLabel) else LabelCheck(l, Some(DomainLabelChars))
  }

  /** Every label satisfies `ok`. */
  predicate AllLabels(labels: seq<string>, ok: string -> bool)
  {
    forall i :: 0 <= i < |labels| ==> ok(labels[i])
  }

  /** After one leading '_' is dropped, the label is non-empty and valid. */
  predicate DomainLabelOk(lab: string)
  {
    StripUnderscore(lab) != "" && LabelCheck(StripUnderscore(lab), Some(DomainLabelChars)).Valid?
  }

  /** `validate_domain_name(name)`. */
  function DomainNameCheck(name: string): Verdict
  {
    if |name| > MaxDomainNameLength then Invalid(DomainNameTooLong)
    else FirstFailure(Split(name, '.'), DomainLabelCheck)
  }

  /** A domain name passes exactly when it has at most 253 characters and
      every label, after one leading '_' is dropped, is non-empty and a valid
      label. */
  lemma DomainNameValid(name: string)
    ensures DomainNameCheck(name).Valid? <==>
            |name| <= MaxDomainNameLength && AllLabels(Split(name, '.'), DomainLabelOk)
  {
    var labels := Split(name, '.');
    FirstFailureValid(labels, DomainLabelCheck);
    assert (forall i :: 0 <= i < |labels| ==> DomainLabelCheck(labels[i]).Valid?) <==>
           (forall i :: 0 <= i < |labels| ==> DomainLabelOk(labels[i]));
  }

  // ------------------------------------------------------------------ FQDNs

  function Last<T>(xs: seq<T>): T
    requires |xs| > 0
  {
    xs[|xs| - 1]
  }

  /** `fqdn.rsplit('.', 1)[1]` when the name has a dot, else the name. */
  function Tld(fqdn: string): string
  {
    if '.' in fqdn then Last(Split(fqdn, '.')) else fqdn
  }

  /** The star stripping of `validate_fqdn`: one '*', then one '.'; `None`
      is the IndexError raised when nothing is left to index. */
  function StripWildcard(fqdn: string): Option<string>
    requires |fqdn| > 0
  {
    if fqdn[0] != '*' then Some(fqdn)
    else if |fqdn| == 1 then None
    else if fqdn[1] == '.' then Some(fqdn[2..])
    else Some(fqdn[1..])
  }

  function FqdnLabelCheck(lab: string): Verdict
  {
    if lab == "" then Invalid(EmptyLabel) else LabelCheck(lab, None)
  }

  predicate FqdnLabelOk(lab: string)
  {
    lab != "" && LabelCheck(lab, None).Valid?
  }

  /** `validate_fqdn(fqdn)`. */
  function FqdnCheck(fqdn: string): Verdict
  {
    if IsDigits(Tld(fqdn)) then Invalid(TldIsNumber)
    else if |fqdn| == 0 then Invalid(EmptyName)
    else match StripWildcard(fqdn)
      case None => Invalid(EmptyName)
      case Some(f) => FirstFailure(Split(f, '.'), FqdnLabelCheck)
  }

  /** `validate_fqdn`, with its reassignments of `fqdn` and its label loop. */
  method ValidateFqdn(fqdn: string) returns (v: Verdict)
    ensures v == FqdnCheck(fqdn)
  {
    var tld := if '.' in fqdn then Last(Split(fqdn, '.')) else fqdn;
    if IsDigits(tld) {
      return Invalid(TldIsNumber);
    }
    if |fqdn| == 0 {
      return Invalid(EmptyName);
    }
    var f := fqdn;
    if f[0] == '*' {
      f := f[1..];
      if |f| == 0 {
        return Invalid(EmptyName);
      }
      if f[0] == '.' {
        f := f[1..];
      }
    }
    assert StripWildcard(fqdn) == Some(f);
    v := CheckFqdnLabels(Split(f, '.'));
  }

  /** The label loop of `validate_fqdn`. */
  method CheckFqdnLabels(labels: seq<string>) returns (v: Verdict)
    ensures v == FirstFailure(labels, FqdnLabelCheck)
  {
    for i := 0 to |labels|
      invariant FirstFailure(labels[i..], FqdnLabelCheck) == FirstFailure(labels, FqdnLabelCheck)
    {
      FirstFailureAt(labels, FqdnLabelCheck, i);
      if labels[i] == "" {
        return Invalid(EmptyLabel);
      }
      var lv := ValidateLabel(labels[i], None);
      if lv.Invalid? {
        return lv;
      }
    }
    assert labels[|labels|..] == [];
    return Valid;
  }

  /** A name passes `validate_fqdn` exactly when its last label is not all
      digits, it is non-empty, and, after one leading "*" and then one '.'
      are dropped, something is left whose labels are all non-empty valid
      labels. */
  lemma FqdnValid(fqdn: string)
    ensures FqdnCheck(fqdn).Valid? <==>
            !IsDigits(Tld(fqdn)) && |fqdn| > 0 && StripWildcard(fqdn).Some? &&
            AllLabels(Split(StripWildcard(fqdn).value, '.'), FqdnLabelOk)
  {
    if !IsDigits(Tld(fqdn)) && |fqdn| > 0 && StripWildcard(fqdn).Some? {
      var labels := Split(StripWildcard(fqdn).value, '.');
      FirstFailureValid(labels, FqdnLabelCheck);
      assert (forall i :: 0 <= i < |labels| ==> FqdnLabelCheck(labels[i]).Valid?) <==>
             (forall i :: 0 <= i < |labels| ==> FqdnLabelOk(labels[i]));
    }
  }

  /** The bare wildcards "*" and "*." are rejected. */
  lemma FqdnBareWildcards()
    ensures FqdnCheck("*") == Invalid(EmptyName)
    ensures FqdnCheck("*.") == Invalid(EmptyLabel)
  {
    assert !IsDigitChar('*');
    assert "*." == "*" + ['.'] + "";
    SplitAfterPiece("*", '.', "");
    assert Tld("*.") == "";
    assert ("*.")[2..] == "";
  }

  /** "*.x" is judged as "x". */
  lemma FqdnWildcardDot(x: string)
    requires !IsDigits(Tld("*." + x))
    ensures FqdnCheck("*." + x) == FirstFailure(Split(x, '.'), FqdnLabelCheck)
  {
    assert ("*." + x)[2..] == x;
  }

  /** "*x", without a dot after the star, is judged as "x" too. */
  lemma FqdnWildcardNoDot(x: string)
    requires x != "" && x[0] != '.'
    requires !IsDigits(Tld("*" + x))
    ensures FqdnCheck("*" + x) == FirstFailure(Split(x, '.'), FqdnLabelCheck)
  {
    assert ("*" + x)[1..] == x;
  }

  // ---------------------------------------------------------- reverse names

  const ReverseSuffixes: seq<string> := ["in-addr.arpa", "ip6.arpa", "arpa"]
  /** The nibble alphabet; `find` tests substrings of it. */
  const Ipv6NibbleChars: string := "0123456789AaBbCcDdEeFf"

  /** The suffix loop of `validate_reverse_name`: `None` when the name is
      one of the suffixes at that point (the function returns early);
      otherwise what is left once each suffix present at the end has been
      removed together with the dots before it. */
  function StripSuffixes(name: string, suffixes: seq<string>): Option<string>
    decreases |suffixes|
  {
    if |suffixes| == 0 then Some(name)
    else if name == suffixes[0] then None
    else
      var next := if EndsWith(name, suffixes[0]) then RStrip(name[..|name| - |suffixes[0]|], {'.'}) else name;
      StripSuffixes(next, suffixes[1..])
  }

  /** The check applied to each dot-separated piece. Any `ip_type` other
      than "6" takes the IPv4 branch. */
  function NibbleCheck(rest: string, piece: string, ipType: string): Verdict
  {
    if ipType == "6" then
      if Find(Ipv6NibbleChars, piece) < 0 then Invalid(InvalidIpv6Nibble(rest, piece)) else Valid
    else
      match PyInt(piece)
      case None => Invalid(OctetNotAnInteger(piece))
      case Some(n) => if n <= 255 && n >= 0 then Valid else Invalid(InvalidIpv4Octet(rest, piece))
  }

  /** A piece `int()` reads as a number in 0..255. */
  predicate IsOctetText(piece: string)
  {
    PyInt(piece).Some? && 0 <= PyInt(piece).value <= 255
  }

  lemma NibbleCheckMeaning(rest: string, piece: string)
    ensures NibbleCheck(rest, piece, "4").Valid? <==> IsOctetText(piece)
    ensures NibbleCheck(rest, piece, "6").Valid? <==> Find(Ipv6NibbleChars, piece) >= 0
  {
  }

  /** `validate_reverse_name(reverse_name, ip_type)`. */
  function ReverseNameCheck(name: string, ipType: string): Verdict
  {
    match StripSuffixes(name, ReverseSuffixes)
    case None => Valid
    case Some(rest) =>
      var pieces := Split(rest, '.');
      if ipType == "4" && |pieces| > 4 then Invalid(TooManyOctets)
      else if ipType == "6" && |pieces| > 32 then Invalid(TooManyNibbles)
      else FirstFailure(pieces, p => NibbleCheck(rest, p, ipType))
  }

  /** The suffix loop of `validate_reverse_name`, reassigning the name. */
  method StripReverseSuffixes(name: string) returns (r: Option<string>)
    ensures r == StripSuffixes(name, ReverseSuffixes)
  {
    var rest := name;
    for k := 0 to |ReverseSuffixes|
      invariant StripSuffixes(rest, ReverseSuffixes[k..]) == StripSuffixes(name, ReverseSuffixes)
    {
      var suffix := ReverseSuffixes[k];
      assert ReverseSuffixes[k..][1..] == ReverseSuffixes[k + 1..];
      if rest == suffix {
        return None;
      } else if EndsWith(rest, suffix) {
        rest := RStrip(rest[..|rest| - |suffix|], {'.'});
      }
    }
    assert ReverseSuffixes[|ReverseSuffixes|..] == [];
    return Some(rest);
  }

  /** The piece loop of `validate_reverse_name`. */
  method CheckReversePieces(rest: string, pieces: seq<string>, ipType: string) returns (v: Verdict)
    ensures v == FirstFailure(pieces, p => NibbleCheck(rest, p, ipType))
  {
    ghost var check := p => NibbleCheck(rest, p, ipType);
    for i := 0 to |pieces|
      invariant FirstFailure(pieces[i..], check) == FirstFailure(pieces, check)
    {
      FirstFailureAt(pieces, check, i);
      var piece := pieces[i];
      if ipType == "6" {
        if Find(Ipv6NibbleChars, piece) < 0 {
          return Invalid(InvalidIpv6Nibble(rest, piece));
        }
      } else {
        var n := PyInt(piece);
        if n.None? {
          return Invalid(OctetNotAnInteger(piece));
        }
        if !(n.value <= 255 && n.value >= 0) {
          return Invalid(InvalidIpv4Octet(rest, piece));
        }
      }
    }
    assert pieces[|pieces|..] == [];
    return Valid;
  }

  /** `validate_reverse_name(reverse_name, ip_type)`. */
  method ValidateReverseName(name: string, ipType: string) returns (v: Verdict)
    ensures v == ReverseNameCheck(name, ipType)
  {
    var stripped := StripReverseSuffixes(name);
    if stripped.None? {
      return Valid;
    }
    var rest := stripped.value;
    var pieces := Split(rest, '.');
    if ipType == "4" && |pieces| > 4 {
      return Invalid(TooManyOctets);
    }
    if ipType == "6" && |pieces| > 32 {
      return Invalid(TooManyNibbles);
    }
    v := CheckReversePieces(rest, pieces, ipType);
  }

  /** What an accepted IPv4 reverse name looks like once its suffixes are
      gone: at most four pieces, each an integer in 0..255; and conversely. */
  lemma ReverseIpv4Valid(name: string, rest: string)
    requires StripSuffixes(name, ReverseSuffixes) == Some(rest)
    ensures ReverseNameCheck(name, "4").Valid? <==>
            |Split(rest, '.')| <= 4 &&
            forall i :: 0 <= i < |Split(rest, '.')| ==> IsOctetText(Split(rest, '.')[i])
  {
    var pieces := Split(rest, '.');
    FirstFailureValid(pieces, p => NibbleCheck(rest, p, "4"));
    forall i | 0 <= i < |pieces| {
      NibbleCheckMeaning(rest, pieces[i]);
    }
  }

  /** What an accepted IPv6 reverse name looks like once its suffixes are
      gone: at most 32 pieces, each found inside "0123456789AaBbCcDdEeFf";
      and conversely. */
  lemma ReverseIpv6Valid(name: string, rest: string)
    requires StripSuffixes(name, ReverseSuffixes) == Some(rest)
    ensures ReverseNameCheck(name, "6").Valid? <==>
            |Split(rest, '.')| <= 32 &&
            forall i :: 0 <= i < |Split(rest, '.')| ==> Find(Ipv6NibbleChars, Split(rest, '.')[i]) >= 0
  {
    var pieces := Split(rest, '.');
    FirstFailureValid(pieces, p => NibbleCheck(rest, p, "6"));
    forall i | 0 <= i < |pieces| {
      NibbleCheckMeaning(rest, pieces[i]);
    }
  }

  /** `find` is a substring test: "Aa" passes as a nibble, "ab" does not. */
  lemma NibbleIsSubstringTest()
    ensures NibbleCheck("", "Aa", "6") == Valid
    ensures NibbleCheck("", "ab", "6").Invalid?
  {
    assert IsSubstringAt(Ipv6NibbleChars, "Aa", 10);
    assert forall j :: 0 <= j <= |Ipv6NibbleChars| ==> !IsSubstringAt(Ipv6NibbleChars, "ab", j) by {
      forall j | 0 <= j <= |Ipv6NibbleChars| ensures !IsSubstringAt(Ipv6NibbleChars, "ab", j) {
        if j + 2 <= |Ipv6NibbleChars| {
          assert Ipv6NibbleChars[j..j + 2][0] == Ipv6NibbleChars[j];
          assert Ipv6NibbleChars[j..j + 2][1] == Ipv6NibbleChars[j + 1];
        }
      }
    }
  }

  // ---------------------------------------------------------- number ranges

  /** `validate_minimum`: only values of 2^32 or more are refused (negative
      values pass). */
  function MinimumCheck(minimum: int): Verdict
  {
    if minimum >= 4294967296 then Invalid(MinimumOutOfRange) else Valid
  }

  /** `validate_ttl`: section 8 of RFC 2181, 0..2147483647. */
  function TtlCheck(ttl: int): Verdict
  {
    if ttl < 0 || ttl > 2147483647 then Invalid(TtlOutOfRange) else Valid
  }

  function SrvPortCheck(port: int): Verdict
  {
    if port > 65535 || port < 0 then Invalid(SrvPortOutOfRange) else Valid
  }

  function SrvPriorityCheck(priority: int): Verdict
  {
    if priority > 65535 || priority < 0 then Invalid(SrvPriorityOutOfRange) else Valid
  }

  function SrvWeightCheck(weight: int): Verdict
  {
    if weight > 65535 || weight < 0 then Invalid(SrvWeightOutOfRange) else Valid
  }

  function MxPriorityCheck(priority: int): Verdict
  {
    if priority > 65535 || priority < 0 then Invalid(MxPriorityOutOfRange) else Valid
  }

  /** The numeric bounds are the wire widths: a TTL is an unsigned 31-bit
      value, SRV port, priority and weight and MX preference are 16-bit
      values, and the SOA minimum must stay below 2^32. */
  lemma RangesAreFieldWidths(x: int)
    ensures TtlCheck(x).Valid? <==> 0 <= x < Numbers.Pow2(31)
    ensures SrvPortCheck(x).Valid? <==> 0 <= x < Numbers.Pow2(16)
    ensures SrvPriorityCheck(x).Valid? <==> 0 <= x < Numbers.Pow2(16)
    ensures SrvWeightCheck(x).Valid? <==> 0 <= x < Numbers.Pow2(16)
    ensures MxPriorityCheck(x).Valid? <==> 0 <= x < Numbers.Pow2(16)
    ensures MinimumCheck(x).Valid? <==> x < Numbers.Pow2(32)
  {
    Numbers.Pow2Values();
  }

  // --------------------------------------------------------- SRV and others

  /** `validate_srv_label`: empty, or '_' followed by a valid label. */
  function SrvLabelCheck(lab: string): Verdict
  {
    if lab == "" then Valid
    else if lab[0] != '_' then Invalid(SrvMissingUnderscore)
    else LabelCheck(lab[1..], None)
  }

  /** `validate_srv_name`: '_' followed by a valid fqdn; empty is refused. */
  function SrvNameCheck(name: string): Verdict
  {
    if name != "" && name[0] != '_' then Invalid(SrvMissingUnderscore)
    else if name == "" then Invalid(SrvNameMissing)
    else FqdnCheck(name[1..])
  }

  /** An SRV name needs its '_' and something after it: "" and a name
      without the '_' are refused before the fqdn check, "_" alone is
      refused by it, and "_x" is judged as the fqdn "x". */
  lemma SrvNameRules(x: string)
    ensures SrvNameCheck("") == Invalid(SrvNameMissing)
    ensures x != "" && x[0] != '_' ==> SrvNameCheck(x) == Invalid(SrvMissingUnderscore)
    ensures SrvNameCheck("_").Invalid?
    ensures SrvNameCheck("_" + x) == FqdnCheck(x)
  {
    FqdnValid("");
    assert ("_" + x)[1..] == x;
  }

  /** `validate_srv_target`: empty, or a valid fqdn. */
  function SrvTargetCheck(target: string): Verdict
  {
    if target == "" then Valid else FqdnCheck(target)
  }

  lemma SrvRules(lab: string, target: string)
    ensures SrvLabelCheck(lab).Valid? <==>
            lab == "" || (lab[0] == '_' && LabelCharsOk(lab[1..], DefaultLabelChars) &&
                            |lab| - 1 <= MaxLabelLength)
    ensures SrvTargetCheck(target).Valid? <==> target == "" || FqdnCheck(target).Valid?
  {
    if lab != "" {
      LabelCheckValid(lab[1..], None);
    }
  }

  /** `validate_ip_type`. */
  function IpTypeCheck(ipType: string): (v: Verdict)
    ensures v.Valid? <==> ipType == "4" || ipType == "6"
  {
    if ipType !in {"4", "6"} then Invalid(InvalidIpType) else Valid
  }

  /** The ip types `validate_ip_type` admits are the ones for which
      `validate_reverse_name` bounds the number of pieces: an accepted name
      has at most 4 octets for "4" and at most 32 nibbles for "6". */
  lemma IpTypeBoundsReverseName(name: string, rest: string, ipType: string)
    requires StripSuffixes(name, ReverseSuffixes) == Some(rest)
    requires ReverseNameCheck(name, ipType).Valid? && IpTypeCheck(ipType).Valid?
    ensures |Split(rest, '.')| <= (if ipType == "4" then 4 else 32)
  {
  }

  /** Without `validate_ip_type` the length bound is lost: any other ip
      type judges the pieces as IPv4 octets, however many there are. */
  lemma UncheckedIpTypeUnbounded(name: string, rest: string, ipType: string)
    requires StripSuffixes(name, ReverseSuffixes) == Some(rest)
    requires ipType != "4" && ipType != "6"
    ensures IpTypeCheck(ipType).Invalid?
    ensures ReverseNameCheck(name, ipType).Valid? <==>
            forall i :: 0 <= i < |Split(rest, '.')| ==> IsOctetText(Split(rest, '.')[i])
  {
    var pieces := Split(rest, '.');
    ReverseNameCheckUnbounded(name, rest, ipType);
    FirstFailureValid(pieces, p => NibbleCheck(rest, p, ipType));
    forall i | 0 <= i < |pieces|
    {
      NibbleCheckOther(rest, pieces[i], ipType);
    }
  }

  /** Any ip type other than "4" and "6" skips both length bounds. */
  lemma ReverseNameCheckUnbounded(name: string, rest: string, ipType: string)
    requires StripSuffixes(name, ReverseSuffixes) == Some(rest)
    requires ipType != "4" && ipType != "6"
    ensures ReverseNameCheck(name, ipType) == FirstFailure(Split(rest, '.'), p => NibbleCheck(rest, p, ipType))
  {
  }

  /** Any ip type other than "6" takes the IPv4 branch of the piece check. */
  lemma NibbleCheckOther(rest: string, piece: string, ipType: string)
    requires ipType != "6"
    ensures NibbleCheck(rest, piece, ipType).Valid? <==> IsOctetText(piece)
  {
    assert NibbleCheck(rest, piece, ipType) == NibbleCheck(rest, piece, "4");
    NibbleCheckMeaning(rest, piece);
  }

  /** The fields of a domain `check_for_master_delegation` reads. */
  datatype DomainInfo = DomainInfo(pk: Option<nat>, master: Option<MasterInfo>)
  datatype MasterInfo = MasterInfo(name: string, delegated: bool)

  /** `check_for_master_delegation`: a domain not yet saved cannot be created
      under a delegated master. */
  function MasterDelegationCheck(domain: DomainInfo): (v: Verdict)
    ensures v.Invalid? <==> domain.master.Some? && domain.master.value.delegated && domain.pk.None?
  {
    if domain.master.None? then Valid
    else if !domain.master.value.delegated then Valid
    else if domain.pk.None? then Invalid(DelegatedMaster(domain.master.value.name))
    else Valid
  }

  /** A row of the domain table: its master (an earlier row) and, once the
      domain is delegated, the size of the table at that moment. */
  datatype DomainRow = DomainRow(name: string, master: Option<nat>, delegatedAt: Option<nat>)

  /** No subdomain of a delegated domain was created after the delegation:
      every child row comes before its master's delegation point. */
  predicate NoChildAfterDelegation(t: seq<DomainRow>)
  {
    forall j, m :: 0 <= j < |t| && 0 <= m < |t| && t[j].master == Some(m) && t[m].delegatedAt.Some? ==>
      j < t[m].delegatedAt.value
  }

  /** Creating a domain: `check_for_master_delegation` on the unsaved
      domain, then the new row. */
  function AddDomain(t: seq<DomainRow>, name: string, master: Option<nat>): (r: Result<seq<DomainRow>, Error>)
    requires master.Some? ==> master.value < |t|
    ensures r.Err? <==> master.Some? && t[master.value].delegatedAt.Some?
  {
    var info := DomainInfo(None, if master.None? then None
                                 else Some(MasterInfo(t[master.value].name, t[master.value].delegatedAt.Some?)));
    match MasterDelegationCheck(info)
    case Invalid(e) => Err(e)
    case Valid => Ok(t + [DomainRow(name, master, None)])
  }

  /** Delegating a domain records when it happened. */
  function Delegate(t: seq<DomainRow>, i: nat): (r: seq<DomainRow>)
    requires i < |t|
    ensures |r| == |t| && r[i].delegatedAt.Some?
  {
    if t[i].delegatedAt.Some? then t else t[i := t[i].(delegatedAt := Some(|t|))]
  }

  /** The table invariant: no child after its master's delegation, and
      every delegation point lies within the table's history. */
  predicate DomainTable(t: seq<DomainRow>)
  {
    NoChildAfterDelegation(t) &&
    forall j :: 0 <= j < |t| && t[j].delegatedAt.Some? ==> t[j].delegatedAt.value <= |t|
  }

  /** Creation guarded by the check keeps the invariant. */
  lemma AddDomainKeeps(t: seq<DomainRow>, name: string, master: Option<nat>)
    requires master.Some? ==> master.value < |t|
    requires DomainTable(t)
    ensures AddDomain(t, name, master).Ok? ==> DomainTable(AddDomain(t, name, master).value)
  {
  }

  /** Delegation keeps the invariant: every existing child predates it. */
  lemma DelegateKeeps(t: seq<DomainRow>, i: nat)
    requires i < |t| && DomainTable(t)
    ensures DomainTable(Delegate(t, i))
  {
  }

  function LabelCount(name: string): nat
  {
    |Split(name, '.')|
  }

  /** The index of the first name with the fewest labels: the head of the
      stable sort by label count. */
  function FirstFewestLabels(names: seq<string>): (k: nat)
    requires |names| > 0
    ensures k < |names|
    ensures forall j :: 0 <= j < |names| ==> LabelCount(names[k]) <= LabelCount(names[j])
    ensures forall j :: 0 <= j < k ==> LabelCount(names[j]) > LabelCount(names[k])
  {
    if |names| == 1 then 0
    else
      var k := FirstFewestLabels(names[1..]) + 1;
      assert forall j :: 1 <= j < |names| ==> names[j] == names[1..][j - 1];
      if LabelCount(names[0]) <= LabelCount(names[k]) then 0 else k
  }

  /** `find_root_domain(soa)`: `None` without an SOA or without domains,
      otherwise the zone's domain with the fewest labels (the first such in
      queryset order, since Python's sort is stable). */
  function FindRootDomain(zoneDomains: Option<seq<string>>): (r: Option<string>)
    ensures r.None? <==> zoneDomains.None? || |zoneDomains.value| == 0
    ensures r.Some? ==> r.value in zoneDomains.value
    ensures r.Some? ==> forall d :: d in zoneDomains.value ==> LabelCount(r.value) <= LabelCount(d)
  {
    if zoneDomains.None? || |zoneDomains.value| == 0 then None
    else Some(zoneDomains.value[FirstFewestLabels(zoneDomains.value)])
  }
}
