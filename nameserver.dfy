/** The glue rules of a nameserver (NS) record, from
    cyder/cydns/nameserver/models.py: when an NS record needs a glue
    record, which label and fqdn that glue carries, and the
    two-field glue property of the `Nameserver` model. */
module Nameserver {
  import opened Wrappers
  import opened Strings
  import Validation

  /** The fields of a domain the glue rules read. */
  datatype Domain = Domain(name: string, delegated: bool)

  /** An address record or static interface that can serve as glue: the
      label and the domain it lives in. */
  datatype GlueRecord = GlueRecord(glueLabel: string, domain: Domain)

  /** What is assigned to the `glue` property. */
  datatype GlueValue =
    | AddressRecord(record: GlueRecord)
    | StaticInterface(record: GlueRecord)
    | NoGlue
    | OtherValue

  datatype Error =
    | NotAGlueType        // ValueError from set_glue
    | GlueRecordMissing   // ValidationError from clean
    | LastRootNameserver  // ValidationError from check_no_ns_soa_condition

  /** `server.strip('.').lower()`. */
  function NormalServer(server: string): string
  {
    Lower(Strip(server, {'.'}))
  }

  /** `Nameserver.needs_glue`: a server named like the domain needs glue
      iff the domain is delegated; otherwise the server needs glue iff
      removing ".<domain>" changes it and leaves a valid label. */
  function NeedsGlue(server: string, domain: Domain): bool
  {
    GlueNeededFor(NormalServer(server), domain)
  }

  /** The rule of `needs_glue` on the stripped, lower-cased server name. */
  function GlueNeededFor(s: string, domain: Domain): bool
  {
    if s == Lower(domain.name) then domain.delegated
    else
      var possible := ReplaceAll(s, "." + domain.name, "");
      possible != s && Validation.LabelCheck(possible, None).Valid?
  }

  /** Lower-case text without dots at either end, as names are stored. */
  predicate IsNormalName(name: string)
  {
    |name| > 0 && name[0] != '.' && name[|name| - 1] != '.' &&
    forall i :: 0 <= i < |name| ==> LowerChar(name[i]) == name[i]
  }

  lemma {:induction false} LowerIdentity(s: string)
    requires forall i :: 0 <= i < |s| ==> LowerChar(s[i]) == s[i]
    ensures Lower(s) == s
  {
  }

  /** A normal name has no dots to strip. */
  lemma StripNormal(s: string)
    requires IsNormalName(s)
    ensures Strip(s, {'.'}) == s
  {
    assert RStrip(s, {'.'}) == s;
    assert LStrip(s, {'.'}) == s;
  }

  lemma NormalServerIdentity(s: string)
    requires IsNormalName(s)
    ensures NormalServer(s) == s
  {
    StripNormal(s);
    LowerIdentity(s);
  }

  /** A label and a name joined by a dot form a name again. */
  lemma ChildIsNormal(lab: string, name: string)
    requires IsNormalName(lab) && IsNormalName(name)
    ensures IsNormalName(lab + "." + name)
  {
    var server := lab + "." + name;
    forall i | 0 <= i < |server| ensures LowerChar(server[i]) == server[i] {
      if i < |lab| {
        assert server[i] == lab[i];
      } else if i > |lab| {
        assert server[i] == name[i - |lab| - 1];
      }
    }
  }

  /** In "<lab>.<rest>" with a dot-free label, the first '.' ends the label. */
  lemma FindFirstDot(lab: string, rest: string)
    requires '.' !in lab
    ensures Find(lab + "." + rest, ".") == |lab|
  {
    var s := lab + "." + rest;
    assert s[|lab|..|lab| + 1] == ".";
    assert IsSubstringAt(s, ".", |lab|);
    forall j | 0 <= j < |lab| ensures !IsSubstringAt(s, ".", j) {
      assert s[j..j + 1][0] == lab[j];
    }
    var r := Find(s, ".");
    assert r != -1;
    assert !(0 <= r < |lab|);
  }

  /** A server named exactly like its domain needs glue iff the domain is
      delegated. */
  lemma NeedsGlueAtApex(domain: Domain)
    requires IsNormalName(domain.name)
    ensures NeedsGlue(domain.name, domain) == domain.delegated
  {
    NormalServerIdentity(domain.name);
  }

  /** A server that is one valid label directly under its domain needs
      glue ("ns1.foo.com" in "foo.com"). */
  lemma NeedsGlueForChild(lab: string, domain: Domain)
    requires IsNormalName(domain.name)
    requires IsNormalName(lab) && '.' !in lab
    requires Validation.LabelCheck(lab, None).Valid?
    ensures NeedsGlue(lab + "." + domain.name, domain)
  {
    var server := lab + "." + domain.name;
    ChildIsNormal(lab, domain.name);
    NormalServerIdentity(server);
    NormalServerIdentity(domain.name);
    var pat := "." + domain.name;
    assert server == lab + pat;
    ReplaceAllSkip(lab, pat, pat, "");
    ReplaceAllWhole(pat, "");
    assert lab + "" == lab;
  }

  /** A server in which ".<domain>" does not occur never needs glue unless
      it is the domain itself. */
  lemma NoGlueOutsideDomain(server: string, domain: Domain)
    requires NormalServer(server) != Lower(domain.name)
    requires forall j :: 0 <= j <= |NormalServer(server)| ==> !IsSubstringAt(NormalServer(server), "." + domain.name, j)
    ensures !NeedsGlue(server, domain)
  {
    ReplaceAllAbsent(NormalServer(server), "." + domain.name, "");
  }

  /** `needs_glue` removes ".<domain>" wherever it occurs, not only at
      the end: a server in which ".<domain>" is followed by more label
      characters also needs glue. */
  lemma NeedsGlueInsideLabel(lab: string, tail: string, domain: Domain)
    requires IsNormalName(domain.name)
    requires IsNormalName(lab + "." + domain.name + tail)
    requires '.' !in lab && '.' !in tail && tail != ""
    requires Validation.LabelCheck(lab + tail, None).Valid?
    ensures NeedsGlue(lab + "." + domain.name + tail, domain)
  {
    NormalServerIdentity(lab + "." + domain.name + tail);
    GlueInsideLabel(lab, tail, domain);
  }

  lemma GlueInsideLabel(lab: string, tail: string, domain: Domain)
    requires IsNormalName(domain.name)
    requires '.' !in lab && '.' !in tail && tail != ""
    requires Validation.LabelCheck(lab + tail, None).Valid?
    ensures GlueNeededFor(lab + "." + domain.name + tail, domain)
  {
    var s := lab + "." + domain.name + tail;
    LowerIdentity(domain.name);
    var pat := "." + domain.name;
    assert s == lab + (pat + tail);
    ReplaceAllSkip(lab, pat + tail, pat, "");
    assert (pat + tail)[..|pat|] == pat;
    assert (pat + tail)[|pat|..] == tail;
    ReplaceAllSkip(tail, "", pat, "");
    assert tail + "" == tail;
    assert ReplaceAll(s, pat, "") == lab + tail;
  }

  /** "ns1.foo.community" does not end in ".foo.com", yet it needs glue
      in "foo.com": removing ".foo.com" leaves the label "ns1munity". */
  lemma NeedsGlueOutsideDomainExample(server: string, domain: Domain)
    requires server == "ns1.foo.community" && domain == Domain("foo.com", false)
    ensures !EndsWith(server, "." + domain.name)
    ensures NeedsGlue(server, domain)
  {
    OutsideExampleNames(server, domain);
    OutsideExampleLabel("ns1" + "munity");
    NeedsGlueInsideLabel("ns1", "munity", domain);
  }

  /** The names of the example: both normal, and the server is "ns1",
      ".foo.com" and "munity" in a row. */
  lemma OutsideExampleNames(server: string, domain: Domain)
    requires server == "ns1.foo.community" && domain == Domain("foo.com", false)
    ensures IsNormalName(server) && IsNormalName(domain.name)
    ensures server == "ns1" + "." + domain.name + "munity"
    ensures !EndsWith(server, "." + domain.name)
  {
    assert server[9] == 'o';
  }

  lemma OutsideExampleLabel(lab: string)
    requires lab == "ns1munity"
    ensures Validation.LabelCheck(lab, None).Valid?
  {
    Validation.LabelCheckValid(lab, None);
  }

  /** The rule `needs_glue` evidently means: a server named like the
      domain needs glue iff the domain is delegated; any other server
      needs glue iff it ends in ".<domain>" and what comes before that is
      one valid label. */
  function NeedsGlueSuffix(server: string, domain: Domain): bool
  {
    SuffixGlueNeededFor(NormalServer(server), domain)
  }

  function SuffixGlueNeededFor(s: string, domain: Domain): bool
  {
    var pat := "." + Lower(domain.name);
    if s == Lower(domain.name) then domain.delegated
    else EndsWith(s, pat) && Validation.LabelCheck(s[..|s| - |pat|], None).Valid?
  }

  /** A valid label has no '.'. */
  lemma LabelHasNoDot(lab: string)
    requires Validation.LabelCheck(lab, None).Valid?
    ensures '.' !in lab
  {
    Validation.LabelCheckValid(lab, None);
    forall j | 0 <= j < |lab| ensures lab[j] != '.' {
      assert Validation.LabelCharsOk(lab, Validation.LabelChars(None));
    }
  }

  /** Removing ".<name>" from "<lab>.<name>" with a dot-free label leaves
      the label. */
  lemma ReplaceDomainSuffix(s: string, name: string, lab: string)
    requires s == lab + ("." + name) && '.' !in lab
    ensures ReplaceAll(s, "." + name, "") == lab
  {
    var pat := "." + name;
    ReplaceAllSkip(lab, pat, pat, "");
    ReplaceAllWhole(pat, "");
    assert lab + "" == lab;
  }

  /** A name ending in ".<name>" is what comes before it, a '.' and the
      name. */
  lemma SuffixSplit(s: string, name: string)
    requires EndsWith(s, "." + name)
    ensures var lab := s[..|s| - |name| - 1];
            s == lab + "." + name && s == lab + ("." + name)
  {
    var pat := "." + name;
    var lab := s[..|s| - |name| - 1];
    assert s[|s| - |pat|..] == pat;
    assert s == lab + pat;
    assert lab + "." + name == lab + pat;
  }

  /** A name that ends in ".<name>" after one valid label: the label is
      what comes before, and removing ".<name>" leaves just that label. */
  lemma SuffixLabel(s: string, name: string)
    requires EndsWith(s, "." + name)
    requires Validation.LabelCheck(s[..|s| - |name| - 1], None).Valid?
    ensures var lab := s[..|s| - |name| - 1];
            s == lab + "." + name && '.' !in lab && ReplaceAll(s, "." + name, "") == lab
  {
    var lab := s[..|s| - |name| - 1];
    SuffixSplit(s, name);
    LabelHasNoDot(lab);
    ReplaceDomainSuffix(s, name, lab);
  }

  /** The corrected rule asks for glue only for the delegated apex and for
      a name exactly one valid label under the domain; each of those gets
      glue under the rule as written too, so the correction only drops the
      servers outside the domain. */
  lemma NeedsGlueSuffixRule(server: string, domain: Domain)
    requires IsNormalName(domain.name)
    ensures NeedsGlueSuffix(server, domain) && NormalServer(server) != domain.name ==>
            var s := NormalServer(server);
            var lab := s[..|s| - |domain.name| - 1];
            s == lab + "." + domain.name && '.' !in lab && Validation.LabelCheck(lab, None).Valid?
    ensures NeedsGlueSuffix(server, domain) ==> NeedsGlue(server, domain)
  {
    SuffixGlueRule(NormalServer(server), domain);
  }

  lemma SuffixGlueRule(s: string, domain: Domain)
    requires IsNormalName(domain.name)
    ensures SuffixGlueNeededFor(s, domain) && s != domain.name ==>
            var lab := s[..|s| - |domain.name| - 1];
            s == lab + "." + domain.name && '.' !in lab && Validation.LabelCheck(lab, None).Valid?
    ensures SuffixGlueNeededFor(s, domain) ==> GlueNeededFor(s, domain)
  {
    LowerIdentity(domain.name);
    if SuffixGlueNeededFor(s, domain) && s != domain.name {
      SuffixLabel(s, domain.name);
    }
  }

  /** Under the corrected rule "ns1.foo.community" needs no glue in
      "foo.com". */
  lemma NeedsGlueSuffixOutsideExample(server: string, domain: Domain)
    requires server == "ns1.foo.community" && domain == Domain("foo.com", false)
    ensures !NeedsGlueSuffix(server, domain)
  {
    OutsideExampleNames(server, domain);
    NormalServerIdentity(server);
    LowerIdentity(domain.name);
  }

  /** The glue label derived in `clean`: "" at the apex, else the server
      up to its first '.' (`server[:server.find('.')]`). */
  function GlueLabel(server: string, domain: Domain): string
  {
    var s := NormalServer(server);
    if s == Lower(domain.name) then "" else SliceTo(s, Find(s, "."))
  }

  /** `".".join([glue_label, domain.name]).strip(".")`. */
  function GlueFqdn(server: string, domain: Domain): string
  {
    Strip(Join([GlueLabel(server, domain), domain.name], "."), {'.'})
  }

  /** At the apex the glue label is "" and the glue fqdn the domain's
      own name. */
  lemma GlueNamesAtApex(domain: Domain)
    requires IsNormalName(domain.name)
    ensures GlueLabel(domain.name, domain) == ""
    ensures GlueFqdn(domain.name, domain) == domain.name
  {
    NormalServerIdentity(domain.name);
    LowerIdentity(domain.name);
    var apex := Join(["", domain.name], ".");
    assert ["", domain.name][1..] == [domain.name];
    assert Join([domain.name], ".") == domain.name;
    assert apex == "." + domain.name;
    assert RStrip(apex, {'.'}) == apex;
    assert LStrip(apex[1..], {'.'}) == domain.name;
  }

  /** One label below the domain, the glue label is that label and the
      glue fqdn is the server itself. */
  lemma GlueNamesForChild(lab: string, domain: Domain)
    requires IsNormalName(domain.name)
    requires IsNormalName(lab) && '.' !in lab
    ensures GlueLabel(lab + "." + domain.name, domain) == lab
    ensures GlueFqdn(lab + "." + domain.name, domain) == lab + "." + domain.name
  {
    var server := lab + "." + domain.name;
    ChildIsNormal(lab, domain.name);
    NormalServerIdentity(server);
    assert server != Lower(domain.name) by {
      assert |Lower(domain.name)| == |domain.name| < |server|;
    }
    FindFirstDot(lab, domain.name);
    assert server[..|lab|] == lab;
    assert [lab, domain.name][1..] == [domain.name];
    assert Join([lab, domain.name], ".") == server;
    StripNormal(server);
  }

  /** Removing ".<name>" can only change text that contains a '.'. */
  lemma ReplaceChangedHasDot(s: string, name: string)
    requires ReplaceAll(s, "." + name, "") != s
    ensures Find(s, ".") >= 0
  {
    var pat := "." + name;
    assert exists j :: 0 <= j <= |s| && IsSubstringAt(s, pat, j) by {
      if forall j :: 0 <= j <= |s| ==> !IsSubstringAt(s, pat, j) {
        ReplaceAllAbsent(s, pat, "");
        assert false;
      }
    }
    var j :| 0 <= j <= |s| && IsSubstringAt(s, pat, j);
    assert s[j..j + |pat|] == pat;
    assert s[j] == s[j..j + |pat|][0] == '.';
    assert s[j..j + 1] == [s[j]];
    assert IsSubstringAt(s, ".", j);
  }

  /** When glue is needed below the apex, the server contains a '.', so the
      `find` in the label derivation never returns -1. */
  lemma GlueLabelHasDot(server: string, domain: Domain)
    requires NeedsGlue(server, domain)
    requires NormalServer(server) != Lower(domain.name)
    ensures Find(NormalServer(server), ".") >= 0
  {
    ReplaceChangedHasDot(NormalServer(server), domain.name);
  }

  /** The facts `check_no_ns_soa_condition` looks at. */
  datatype ZoneFacts = ZoneFacts(
    hasSoa: bool,
    isSoaRoot: bool,
    nameserverCount: nat,
    hasOtherRecords: bool)

  /** `check_no_ns_soa_condition`: the last nameserver at the root of a zone
      that still holds other records cannot go. */
  function CheckNoNsSoaCondition(facts: ZoneFacts): (r: Result<(), Error>)
    ensures r.Err? ==> r.error == LastRootNameserver
    ensures r.Err? <==> facts.hasSoa && facts.isSoaRoot && facts.nameserverCount == 1 && facts.hasOtherRecords
  {
    if facts.hasSoa && facts.isSoaRoot && facts.nameserverCount == 1 && facts.hasOtherRecords
    then Err(LastRootNameserver)
    else Ok(())
  }

  /** A zone root that still holds other records is served by some
      nameserver. */
  predicate Served(facts: ZoneFacts)
  {
    facts.hasSoa && facts.isSoaRoot && facts.hasOtherRecords ==> facts.nameserverCount >= 1
  }

  /** What a deletion leaves: the zone's facts and the glue record
      deleted with the nameserver, if any. */
  datatype Deletion = Deletion(facts: ZoneFacts, deletedGlue: Option<GlueRecord>)

  /** `Nameserver.delete`: the check, then the nameserver is gone, and so
      is its glue (`get_glue()`, passed as `glue`) when it has one.
      `othersBesideGlue` says whether the zone still holds records other
      than nameservers once that glue record is gone. */
  function DeleteNameserver(facts: ZoneFacts, glue: Option<GlueRecord>, othersBesideGlue: bool): (r: Result<Deletion, Error>)
    requires facts.nameserverCount >= 1
    ensures r.Err? <==> CheckNoNsSoaCondition(facts).Err?
    ensures r.Ok? ==> r.value.deletedGlue == glue
    ensures r.Ok? ==> var f := r.value.facts;
            f.hasSoa == facts.hasSoa && f.isSoaRoot == facts.isSoaRoot &&
            f.nameserverCount == facts.nameserverCount - 1 &&
            f.hasOtherRecords == (facts.hasOtherRecords && (glue.None? || othersBesideGlue))
  {
    match CheckNoNsSoaCondition(facts)
    case Err(e) => Err(e)
    case Ok(_) =>
      var others := if glue.Some? then facts.hasOtherRecords && othersBesideGlue else facts.hasOtherRecords;
      Ok(Deletion(facts.(nameserverCount := facts.nameserverCount - 1, hasOtherRecords := others), glue))
  }

  /** A deletion is refused exactly when it would leave the zone root with
      other records and no nameserver, so every deletion it allows leaves
      the zone served, whether or not a glue record goes with it. */
  lemma DeletionKeepsZoneServed(facts: ZoneFacts, glue: Option<GlueRecord>, othersBesideGlue: bool)
    requires facts.nameserverCount >= 1
    ensures DeleteNameserver(facts, glue, othersBesideGlue).Err? <==>
            !Served(facts.(nameserverCount := facts.nameserverCount - 1))
    ensures DeleteNameserver(facts, glue, othersBesideGlue).Ok? ==>
            Served(DeleteNameserver(facts, glue, othersBesideGlue).value.facts)
  {
  }

  /** A nameserver record with its two glue foreign keys. */
  class NameserverRecord {
    var server: string
    var domain: Domain
    var addrGlue: Option<GlueRecord>
    var intrGlue: Option<GlueRecord>

    /** At most one kind of glue is set. */
    predicate OneGlue()
      reads this
    {
      addrGlue.None? || intrGlue.None?
    }

    constructor (server: string, domain: Domain)
      ensures this.server == server && this.domain == domain
      ensures addrGlue.None? && intrGlue.None?
    {
      this.server := server;
      this.domain := domain;
      addrGlue := None;
      intrGlue := None;
    }

    /** `get_glue`: the address record first, then the interface. */
    function GetGlue(): (r: Option<GlueRecord>)
      reads this
      ensures r.None? <==> addrGlue.None? && intrGlue.None?
      ensures r.Some? ==> r == addrGlue || r == intrGlue
      ensures addrGlue.Some? ==> r == addrGlue
    {
      if addrGlue.Some? then addrGlue
      else if intrGlue.Some? then intrGlue
      else None
    }

    /** `set_glue`. */
    method SetGlue(glue: GlueValue) returns (r: Result<(), Error>)
      modifies this
      ensures server == old(server) && domain == old(domain)
      ensures r.Err? <==> glue.OtherValue?
      ensures glue.AddressRecord? ==> addrGlue == Some(glue.record) && intrGlue.None?
      ensures glue.StaticInterface? ==> addrGlue.None? && intrGlue == Some(glue.record)
      ensures glue.NoGlue? ==> addrGlue.None? && intrGlue.None?
      ensures glue.OtherValue? ==> addrGlue == old(addrGlue) && intrGlue == old(intrGlue)
      ensures r.Ok? ==> OneGlue()
      ensures r.Ok? ==> GetGlue() == GlueOf(glue)
    {
      match glue {
        case AddressRecord(record) =>
          addrGlue := Some(record);
          intrGlue := None;
        case StaticInterface(record) =>
          addrGlue := None;
          intrGlue := Some(record);
        case NoGlue =>
          addrGlue := None;
          intrGlue := None;
        case OtherValue =>
          return Err(NotAGlueType);
      }
      return Ok(());
    }

    /** The glue part of `clean`, with the address record and static
        interface tables as lookups by fqdn. The call to
        `check_for_cname` is not part of this model. */
    method CleanGlue(addressRecords: string -> seq<GlueRecord>, staticInterfaces: string -> seq<GlueRecord>)
      returns (r: Result<(), Error>)
      modifies this
      ensures server == old(server) && domain == old(domain)
      ensures !NeedsGlue(server, domain) ==> r.Ok? && addrGlue.None? && intrGlue.None?
      ensures NeedsGlue(server, domain) && KeepsGlue(old(GetGlue()), server, domain) ==>
              r.Ok? && addrGlue == old(addrGlue) && intrGlue == old(intrGlue)
      ensures NeedsGlue(server, domain) && !KeepsGlue(old(GetGlue()), server, domain) ==>
              var fqdn := GlueFqdn(server, domain);
              var addrs := addressRecords(fqdn);
              var intrs := staticInterfaces(fqdn);
              (|addrs| == 0 && |intrs| == 0 ==> r == Err(GlueRecordMissing) && addrGlue == old(addrGlue) && intrGlue == old(intrGlue)) &&
              (|addrs| > 0 ==> r.Ok? && addrGlue == Some(addrs[0]) && intrGlue.None?) &&
              (|addrs| == 0 && |intrs| > 0 ==> r.Ok? && addrGlue.None? && intrGlue == Some(intrs[0]))
      ensures old(OneGlue()) ==> OneGlue()
    {
      if !NeedsGlue(server, domain) {
        r := SetGlue(NoGlue);
        return;
      }
      var glueLabel := GlueLabel(server, domain);
      var fqdn := GlueFqdn(server, domain);
      var current := GetGlue();
      if current.Some? && current.value.glueLabel == glueLabel && current.value.domain == domain {
        return Ok(());
      }
      var addrs := addressRecords(fqdn);
      var intrs := staticInterfaces(fqdn);
      if |addrs| == 0 && |intrs| == 0 {
        return Err(GlueRecordMissing);
      }
      if |addrs| > 0 {
        r := SetGlue(AddressRecord(addrs[0]));
      } else {
        r := SetGlue(StaticInterface(intrs[0]));
      }
    }
  }

  /** The glue a successful `set_glue` leaves behind. */
  function GlueOf(glue: GlueValue): Option<GlueRecord>
  {
    match glue
    case AddressRecord(record) => Some(record)
    case StaticInterface(record) => Some(record)
    case _ => None
  }

  /** The current glue already matches the derived label and domain. */
  predicate KeepsGlue(current: Option<GlueRecord>, server: string, domain: Domain)
  {
    current.Some? && current.value.glueLabel == GlueLabel(server, domain) && current.value.domain == domain
  }
}
