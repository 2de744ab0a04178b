/** The DNS build of `DNSBuilder` (cyder/cydns/cybind/builder.py): where a
    zone's files go, whether a zone must be rebuilt, the serial it is
    rebuilt at, the zone statements of each view's BIND configuration, and
    the run-level rules of `build` (stop file, task queue, clean-up).

    The database, the staging directory, the shell commands and the
    notification e-mails are fields of a `DnsBuilder`; the zone renderer,
    `get_serial`, `shell_out`, the view table and the clock are inputs. */
module Builder {
  import opened Wrappers
  import opened Strings
  import BaseUtils

  // ------------------------------------------------------------ the data

  datatype RootDomain = RootDomain(name: string, isReverse: bool)

  /** A row of the SOA table: `root_domain` is None for an SOA that has no
      root domain (such zones are skipped). */
  datatype Soa = Soa(pk: nat, root: Option<RootDomain>, serial: nat, dirty: bool, isSigned: bool)

  /** A row of the DNS task queue: `task` holds the pk of the SOA to rebuild,
      as text. */
  datatype Task = Task(id: nat, task: string)

  datatype Config = Config(
    prodDir: string, stageDir: string, bindPrefix: string,
    namedCheckzone: string, namedCheckzoneOpts: string, namedCheckconf: string,
    stageOnly: bool, stopFile: string, stopFileEmailInterval: int,
    cwd: string)

  /** What the build reads but does not own: the view table, the zone
      renderer `build_zone_data(view, root_domain, soa)` (keyed here by view
      and zone name), `get_serial` of a published file, `shell_out` and the
      time of the run. */
  datatype Inputs = Inputs(
    views: seq<string>,
    zoneData: (string, string) -> string,
    getSerial: string -> string,
    shellOut: string -> BaseUtils.ShellResult,
    now: nat)

  datatype FileMeta = FileMeta(fname: string, relFname: string, prodFname: string, bindFname: string)

  // ---------------------------------------------------- file placement

  /** `calc_target`: the directory, relative to the repository, that holds
      a zone's files. Reverse zones ending in "ipv6" or "arpa" both go to
      "reverse/in-addr.arpa/"; any other reverse zone raises. */
  function CalcTarget(root: RootDomain): Result<string, string>
  {
    if root.isReverse then
      if EndsWith(root.name, "ipv6") || EndsWith(root.name, "arpa") then Ok("reverse/in-addr.arpa/")
      else Err("Invalid root domain \"" + root.name + "\"")
    else Ok(Join(Reverse(Split(root.name, '.')), "/") + "/")
  }

  /** Reading a forward zone's name back from its directory. */
  function ZoneOfDirectory(dir: string): string
    requires |dir| >= 1
  {
    Join(Reverse(Split(dir[..|dir| - 1], '/')), ".")
  }

  /** Reverse zones: one directory for both families, and an error for any
      other reverse name. */
  lemma CalcTargetReverse(root: RootDomain)
    requires root.isReverse
    ensures CalcTarget(root).Ok? <==> EndsWith(root.name, "ipv6") || EndsWith(root.name, "arpa")
    ensures CalcTarget(root).Ok? ==> CalcTarget(root).value == "reverse/in-addr.arpa/"
  {
  }

  /** A forward zone's directory names the zone: its labels reversed,
      joined by '/', with a trailing '/', so reading it back gives the zone
      name whenever the name holds no '/'. */
  lemma CalcTargetForward(root: RootDomain)
    requires !root.isReverse && '/' !in root.name
    ensures CalcTarget(root).Ok?
    ensures var dir := CalcTarget(root).value;
            |dir| >= 1 && dir[|dir| - 1] == '/' && ZoneOfDirectory(dir) == root.name
  {
    var labels := Split(root.name, '.');
    var dir := CalcTarget(root).value;
    var body := Join(Reverse(labels), "/");
    assert dir == body + "/";
    assert dir[..|dir| - 1] == body;
    SplitPiecesAvoid(root.name, '.', '/');
    forall k | 0 <= k < |Reverse(labels)|
      ensures '/' !in Reverse(labels)[k]
    {
      ReverseAt(labels, k);
    }
    SplitJoin(Reverse(labels), '/');
    ReverseReverse(labels);
    JoinSplit(root.name, '.');
  }

  /** "a.b.com" is filed under "com/b/a/". */
  lemma CalcTargetExample()
    ensures CalcTarget(RootDomain("a.b.com", false)) == Ok("com/b/a/")
  {
    SplitExample();
    JoinExample();
    assert Reverse(["a", "b", "com"]) == ["com", "b", "a"];
    assert "com/b/a" + "/" == "com/b/a/";
  }

  lemma SplitExample()
    ensures Split("a.b.com", '.') == ["a", "b", "com"]
  {
    var com, bcom := "com", "b" + ['.'] + "com";
    SplitNoSep(com, '.');
    SplitAfterPiece("b", '.', com);
    assert Split(bcom, '.') == ["b", "com"];
    SplitAfterPiece("a", '.', bcom);
    assert "a" + ['.'] + bcom == "a.b.com";
  }

  lemma JoinExample()
    ensures Join(["com", "b", "a"], "/") == "com/b/a"
  {
    assert Join(["a"], "/") == "a";
    assert Join(["b", "a"], "/") == "b/a" by { assert ["b", "a"][1..] == ["a"]; }
    assert ["com", "b", "a"][1..] == ["b", "a"];
  }

  /** `calc_fname`: "<zone>.<view>". */
  function CalcFname(view: string, root: RootDomain): string
  {
    root.name + "." + view
  }

  /** `os.path.join(a, b)`: an absolute `b` replaces `a`; otherwise a '/'
      goes between them unless `a` is empty or already ends in one. */
  function PathJoin(a: string, b: string): string
  {
    if StartsWith(b, "/") then b
    else if a == "" || EndsWith(a, "/") then a + b
    else a + "/" + b
  }

  /** `get_file_meta`. */
  function GetFileMeta(cfg: Config, view: string, root: RootDomain): Result<FileMeta, string>
  {
    match CalcTarget(root)
    case Err(e) => Err(e)
    case Ok(dir) =>
      var fname := CalcFname(view, root);
      var rel := PathJoin(dir, fname);
      Ok(FileMeta(fname, rel, PathJoin(cfg.prodDir, rel), PathJoin(cfg.bindPrefix, rel)))
  }

  /** A directory prefix that `os.path.join` extends with a '/'. */
  predicate PlainPrefix(p: string)
  {
    p != "" && !EndsWith(p, "/")
  }

  /** An ordinary zone name: not empty, no '/', and not ending in '.'. */
  predicate PlainZoneName(name: string)
  {
    |name| > 0 && '/' !in name && name[|name| - 1] != '.'
  }

  /** The file names of a zone's view: the relative name is the zone's
      directory followed by "<zone>.<view>", and the production and BIND
      names put the production directory and the BIND prefix in front of
      it. */
  lemma FileMetaPaths(cfg: Config, view: string, root: RootDomain)
    requires PlainZoneName(root.name)
    requires PlainPrefix(cfg.prodDir) && PlainPrefix(cfg.bindPrefix)
    requires root.isReverse ==> EndsWith(root.name, "ipv6") || EndsWith(root.name, "arpa")
    ensures GetFileMeta(cfg, view, root).Ok?
    ensures var m := GetFileMeta(cfg, view, root).value;
            m.fname == root.name + "." + view &&
            m.relFname == CalcTarget(root).value + m.fname &&
            m.prodFname == cfg.prodDir + "/" + m.relFname &&
            m.bindFname == cfg.bindPrefix + "/" + m.relFname
  {
    var dir := CalcTarget(root).value;
    var fname := CalcFname(view, root);
    assert fname[0] == root.name[0];
    assert !StartsWith(fname, "/");
    assert EndsWith(dir, "/") by {
      if !root.isReverse {
        CalcTargetForward(root);
      } else {
        var r := "reverse/in-addr.arpa/";
        assert r[|r| - 1..] == "/";
      }
    }
    var rel := dir + fname;
    assert PathJoin(dir, fname) == rel;
    assert rel[0] != '/' by {
      if root.isReverse {
        assert rel[0] == 'r';
      } else {
        ForwardTargetStart(root);
      }
    }
    assert !StartsWith(rel, "/");
  }

  /** A plain forward zone's directory does not begin with '/'. */
  lemma ForwardTargetStart(root: RootDomain)
    requires !root.isReverse && PlainZoneName(root.name)
    ensures CalcTarget(root).Ok? && |CalcTarget(root).value| > 0 && CalcTarget(root).value[0] != '/'
  {
    var labels := Split(root.name, '.');
    SplitLastNonEmpty(root.name, '.');
    var last := labels[|labels| - 1];
    var rev := Reverse(labels);
    ReverseAt(labels, 0);
    assert rev[0] == last;
    SplitPiecesAvoid(root.name, '.', '/');
    assert '/' !in last;
    assert last[0] != '/' by { assert last[0] in last; }
    JoinFirst(rev, "/");
    var j := Join(rev, "/");
    assert CalcTarget(root) == Ok(j + "/");
    assert (j + "/")[0] == j[0];
  }

  lemma JoinFirst(parts: seq<string>, sep: string)
    requires |parts| > 0 && |parts[0]| > 0
    ensures |Join(parts, sep)| > 0 && Join(parts, sep)[0] == parts[0][0]
  {
  }

  /** The last piece of a split is non-empty when the text does not end
      with the separator. */
  lemma {:induction false} SplitLastNonEmpty(s: string, sep: char)
    requires |s| > 0 && s[|s| - 1] != sep
    ensures |Split(s, sep)[|Split(s, sep)| - 1]| > 0
  {
    var rest := Split(s[1..], sep);
    if s[0] == sep {
      SplitLastNonEmpty(s[1..], sep);
      assert Split(s, sep) == [""] + rest;
    } else if |s| == 1 {
      assert s[1..] == "";
      assert Split(s, sep) == [[s[0]] + ""];
    } else {
      SplitLastNonEmpty(s[1..], sep);
      assert Split(s, sep) == [[s[0]] + rest[0]] + rest[1..];
    }
  }


  // ------------------------------------------- verify_previous_build

  /** What `verify_previous_build` returns: whether the published file
      demands a rebuild, and the serial to rebuild it at. */
  datatype PreviousBuild = PreviousBuild(bad: bool, newSerial: Option<nat>)

  /** A published file whose serial is missing or differs from the database. */
  predicate IsStale(published: string, dbSerial: nat)
  {
    !IsDigits(published) || DigitsValue(published) != dbSerial
  }

  /** `verify_previous_build`, given what `get_serial` read from the
      production file: a file without a numeric serial is a new zone and
      starts at the current time; a numeric serial that differs from the
      database restarts at the higher of the two. */
  function VerifyPreviousBuild(published: string, dbSerial: nat, now: nat): (r: PreviousBuild)
    ensures r.bad <==> IsStale(published, dbSerial)
    ensures r.bad <==> r.newSerial.Some?
  {
    if !IsDigits(published) then PreviousBuild(true, Some(now))
    else if DigitsValue(published) != dbSerial then
      var p := DigitsValue(published);
      PreviousBuild(true, Some(if p >= dbSerial then p else dbSerial))
    else PreviousBuild(false, None)
  }

  /** A rebuilt zone never goes back: when the published file has a serial,
      the new serial is above or equal to both it and the database's. */
  lemma NewSerialIsHighest(published: string, dbSerial: nat, now: nat)
    requires IsDigits(published)
    ensures var r := VerifyPreviousBuild(published, dbSerial, now);
            r.bad ==> r.newSerial.value >= DigitsValue(published) && r.newSerial.value >= dbSerial &&
                      (r.newSerial.value == DigitsValue(published) || r.newSerial.value == dbSerial)
  {
  }

  /** A new zone starts at the time of the run. */
  lemma NewZoneStartsNow(published: string, dbSerial: nat, now: nat)
    requires !IsDigits(published)
    ensures VerifyPreviousBuild(published, dbSerial, now) == PreviousBuild(true, Some(now))
  {
  }

  // --------------------------------------------------- zone statements

  /** `render_zone_stmt`: the statement with `{ztype}` still to be filled
      in, and its own braces doubled for that later `format`. */
  function RenderZoneStmt(isSigned: bool, zoneName: string, bindFname: string): string
  {
    "zone \"" + zoneName + "\" IN " + "{{" + "\n" +
    "\ttype " + "{ztype}" + ";\n" +
    "\tfile \"" + bindFname + (if isSigned then ".signed" else "") + "\";\n" +
    "}}" + ";\n"
  }

  /** The statement as it appears in the configuration file. */
  function ZoneStatement(isSigned: bool, zoneName: string, bindFname: string, ztype: string): string
  {
    "zone \"" + zoneName + "\" IN " + "{" + "\n" +
    "\ttype " + ztype + ";\n" +
    "\tfile \"" + bindFname + (if isSigned then ".signed" else "") + "\";\n" +
    "}" + ";\n"
  }

  lemma FormatZtype(ztype: string)
    ensures Format("{ztype}", "ztype", ztype) == Some(ztype)
  {
    var t := "{ztype}";
    assert t[1..][..6] == "ztype}";
    assert t[7..] == "";
    assert ztype + "" == ztype;
  }

  /** Filling in the zone type turns a rendered statement into the BIND
      statement: the doubled braces become single ones and the file name
      gains ".signed" for a signed zone. */
  lemma {:induction false} ZoneStmtFormats(isSigned: bool, zoneName: string, bindFname: string, ztype: string)
    requires NoBraces(zoneName) && NoBraces(bindFname) && NoBraces(ztype)
    ensures Format(RenderZoneStmt(isSigned, zoneName, bindFname), "ztype", ztype) ==
            Some(ZoneStatement(isSigned, zoneName, bindFname, ztype))
  {
    var k := "ztype";
    var p1 := "zone \"" + zoneName + "\" IN ";
    var p3 := "\n" + "\ttype ";
    var p5 := ";\n" + "\tfile \"" + bindFname + (if isSigned then ".signed" else "") + "\";\n";
    var p7 := ";\n";
    assert NoBraces(p1) && NoBraces(p3) && NoBraces(p5) && NoBraces(p7);
    StmtPieces(isSigned, zoneName, bindFname, p1, p3, p5, p7);
    StatementPieces(isSigned, zoneName, bindFname, ztype, p1, p3, p5, p7);
    FormatPlain(p1, k, ztype);
    FormatPlain(p3, k, ztype);
    FormatPlain(p5, k, ztype);
    FormatPlain(p7, k, ztype);
    FormatEscapes(k, ztype);
    FormatZtype(ztype);
    FormatSeven(p1, "{{", p3, "{ztype}", p5, "}}", p7, k, ztype);
  }

  /** The rendered statement, cut at its braces. */
  lemma StmtPieces(isSigned: bool, zoneName: string, bindFname: string,
                   p1: string, p3: string, p5: string, p7: string)
    requires p1 == "zone \"" + zoneName + "\" IN "
    requires p3 == "\n" + "\ttype "
    requires p5 == ";\n" + "\tfile \"" + bindFname + (if isSigned then ".signed" else "") + "\";\n"
    requires p7 == ";\n"
    ensures RenderZoneStmt(isSigned, zoneName, bindFname) == p1 + ("{{" + (p3 + ("{ztype}" + (p5 + ("}}" + p7)))))
  {
  }

  /** The final statement, cut at its braces. */
  lemma StatementPieces(isSigned: bool, zoneName: string, bindFname: string, ztype: string,
                        p1: string, p3: string, p5: string, p7: string)
    requires p1 == "zone \"" + zoneName + "\" IN "
    requires p3 == "\n" + "\ttype "
    requires p5 == ";\n" + "\tfile \"" + bindFname + (if isSigned then ".signed" else "") + "\";\n"
    requires p7 == ";\n"
    ensures ZoneStatement(isSigned, zoneName, bindFname, ztype) == p1 + ("{" + (p3 + (ztype + (p5 + ("}" + p7)))))
  {
  }

  /** Seven pieces that each format, formatted together. */
  lemma FormatSeven(a: string, b: string, c: string, d: string, e: string, f: string, g: string,
                    key: string, value: string)
    requires Format(a, key, value).Some? && Format(b, key, value).Some? && Format(c, key, value).Some?
    requires Format(d, key, value).Some? && Format(e, key, value).Some? && Format(f, key, value).Some?
    requires Format(g, key, value).Some?
    ensures Format(a + (b + (c + (d + (e + (f + g))))), key, value) ==
            Some(Format(a, key, value).value + (Format(b, key, value).value + (Format(c, key, value).value +
                 (Format(d, key, value).value + (Format(e, key, value).value + (Format(f, key, value).value +
                  Format(g, key, value).value))))))
  {
    FormatAppend(f, g, key, value);
    FormatAppend(e, f + g, key, value);
    FormatAppend(d, e + (f + g), key, value);
    FormatAppend(c, d + (e + (f + g)), key, value);
    FormatAppend(b, c + (d + (e + (f + g))), key, value);
    FormatAppend(a, b + (c + (d + (e + (f + g)))), key, value);
  }

  /** Each part formatted on its own, or None when one of them raises. */
  function FormatEach(parts: seq<string>, key: string, value: string): Option<seq<string>>
  {
    if |parts| == 0 then Some([])
    else
      var head := Format(parts[0], key, value);
      var tail := FormatEach(parts[1..], key, value);
      if head.None? || tail.None? then None else Some([head.value] + tail.value)
  }

  /** Formatting the statements joined by newlines is joining the
      formatted statements. */
  lemma {:induction false} FormatJoin(parts: seq<string>, key: string, value: string)
    requires FormatEach(parts, key, value).Some?
    ensures Format(Join(parts, "\n"), key, value) == Some(Join(FormatEach(parts, key, value).value, "\n"))
  {
    if |parts| == 1 {
      assert Join(parts, "\n") == parts[0];
    } else if |parts| > 1 {
      var f := FormatEach(parts, key, value).value;
      var rest := FormatEach(parts[1..], key, value).value;
      assert f[1..] == rest;
      FormatJoin(parts[1..], key, value);
      FormatPlain("\n", key, value);
      FormatAppend(parts[0], "\n", key, value);
      FormatAppend(parts[0] + "\n", Join(parts[1..], "\n"), key, value);
      assert Join(parts, "\n") == parts[0] + "\n" + Join(parts[1..], "\n");
      assert Join(f, "\n") == f[0] + "\n" + Join(rest, "\n");
    }
  }

  // ------------------------------------------------------ format_title

  /** `format_title`: the title between two runs of '=' as long as half
      of what the title lacks of 30 characters (none when it is longer). */
  function FormatTitle(title: string): string
  {
    var pad := Repeat('=', (30 - |title|) / 2);
    pad + " " + title + " " + pad
  }

  /** `c * n`, which is empty when `n` is not positive. */
  function Repeat(c: char, n: int): (r: string)
    ensures |r| == (if n > 0 then n else 0)
    ensures forall i :: 0 <= i < |r| ==> r[i] == c
    decreases n
  {
    if n <= 0 then "" else [c] + Repeat(c, n - 1)
  }

  predicate AllChar(s: string, c: char)
  {
    forall i :: 0 <= i < |s| ==> s[i] == c
  }

  /** Titles up to 30 characters are centred in a line of 31 or 32
      characters (32 when the title's length is even) between runs of '=';
      longer ones just get a space on each side. */
  lemma FormatTitleWidth(title: string)
    ensures |title| <= 30 ==> |FormatTitle(title)| == (if |title| % 2 == 0 then 32 else 31)
    ensures |title| > 30 ==> FormatTitle(title) == " " + title + " "
    ensures var p := if |title| < 30 then (30 - |title|) / 2 else 0;
            var t := FormatTitle(title);
            |t| == 2 * p + |title| + 2 && t[p + 1..p + 1 + |title|] == title &&
            AllChar(t[..p], '=') && AllChar(t[|t| - p..], '=')
  {
    var t := FormatTitle(title);
    var pad := Repeat('=', (30 - |title|) / 2);
    assert t == pad + " " + title + " " + pad;
    if |title| > 30 {
      assert pad == "";
    }
    var p := |pad|;
    assert t[p + 1..p + 1 + |title|] == title;
    assert t[..p] == pad;
    assert t[|t| - p..] == pad;
  }

  // ------------------------------------------------ checkzone / checkconf

  /** The error text `DNSBuilder.run_command` raises for a failing command,
      or None when the command succeeds. */
  function ShellError(cfg: Config, inp: Inputs, command: string, failureMsg: string): (r: Option<string>)
    ensures r.Some? <==> inp.shellOut(command).returncode != 0
  {
    var run := BaseUtils.RunCommand(command, cfg.cwd, inp.shellOut, true, true, Some(failureMsg), false);
    if run.result.Err? then Some(run.result.error) else None
  }

  /** `run_checkzone`'s command line. */
  function CheckzoneCommand(cfg: Config, zoneName: string, zoneFile: string): string
  {
    Join([cfg.namedCheckzone, cfg.namedCheckzoneOpts, zoneName, zoneFile], " ")
  }

  function CheckzoneError(cfg: Config, inp: Inputs, zoneName: string, zoneFile: string): Option<string>
  {
    ShellError(cfg, inp, CheckzoneCommand(cfg, zoneName, zoneFile), "named-checkzone failed on zone " + zoneName)
  }

  /** `run_checkconf`'s command line. */
  function CheckconfCommand(cfg: Config, confFile: string): string
  {
    Join([cfg.namedCheckconf, confFile], " ")
  }

  function CheckconfError(cfg: Config, inp: Inputs, confFile: string): Option<string>
  {
    ShellError(cfg, inp, CheckconfCommand(cfg, confFile), "named-checkconf rejected config " + confFile)
  }

  /** The text of the exception `str.format` raises on zone data or a
      configuration that has a brace it cannot fill in. */
  const FormatFailure := "unmatched brace or unknown field in format string"

  // ------------------------------------------------- build_zone_files

  /** The part of the world `build_zone_files` changes: the SOA table, the
      staging directory and the shell commands run so far. */
  datatype Env = Env(soas: seq<Soa>, stage: map<string, string>, commands: seq<string>)

  /** Where a zone's processing got to: the new world, the zone statements
      per view collected so far, and the error raised, if any. */
  datatype Progress = Progress(env: Env, stmts: map<string, seq<string>>, error: Option<string>)

  /** A view with data, as `views_to_build` holds it. */
  datatype Candidate = Candidate(view: string, meta: FileMeta, data: string)

  /** The state of the view survey: the candidates so far, the in-memory
      serial of the SOA and `force_rebuild`. */
  datatype Survey = Survey(cands: seq<Candidate>, serial: nat, force: bool)

  /** What `get_serial` reads from a candidate's production file. */
  function Published(inp: Inputs, c: Candidate): string
  {
    inp.getSerial(c.meta.prodFname)
  }

  /** One pass of the survey loop: a view without data is skipped; one with
      data becomes a candidate, and a bad previous build replaces the serial
      and forces the rebuild. */
  function SurveyView(cfg: Config, inp: Inputs, root: RootDomain, view: string, s: Survey): Result<Survey, string>
  {
    var data := inp.zoneData(view, root.name);
    if data == "" then Ok(s)
    else
      match GetFileMeta(cfg, view, root)
      case Err(e) => Err(e)
      case Ok(meta) =>
        var prev := VerifyPreviousBuild(inp.getSerial(meta.prodFname), s.serial, inp.now);
        Ok(Survey(s.cands + [Candidate(view, meta, data)],
                  if prev.bad then prev.newSerial.value else s.serial,
                  s.force || prev.bad))
  }

  function SurveyViews(cfg: Config, inp: Inputs, root: RootDomain, views: seq<string>, s: Survey): (r: Result<Survey, string>)
    ensures r.Ok? ==> forall c :: c in r.value.cands ==> c in s.cands || c.view in views
    decreases |views|
  {
    if |views| == 0 then Ok(s)
    else
      match SurveyView(cfg, inp, root, views[0], s)
      case Err(e) => Err(e)
      case Ok(s1) => SurveyViews(cfg, inp, root, views[1..], s1)
  }

  function Lookup(stmts: map<string, seq<string>>, view: string): seq<string>
  {
    if view in stmts then stmts[view] else []
  }

  /** Where a rebuilt candidate's file is staged. */
  function StagePath(cfg: Config, c: Candidate): string
  {
    PathJoin(cfg.stageDir, c.meta.relFname)
  }

  function Checked(cfg: Config, inp: Inputs, env: Env, stmts: map<string, seq<string>>,
                   zoneName: string, zoneFile: string): Progress
  {
    Progress(env.(commands := env.commands + [CheckzoneCommand(cfg, zoneName, zoneFile)]), stmts,
             CheckzoneError(cfg, inp, zoneName, zoneFile))
  }

  /** One pass of the emission loop: the view gets the zone's statement;
      then the zone file is rendered at `serial + 1`, staged and checked, or
      the production file is checked, or (stage only) nothing is run. */
  function EmitView(cfg: Config, inp: Inputs, root: RootDomain, isSigned: bool, serial: nat, force: bool,
                    c: Candidate, env: Env, stmts: map<string, seq<string>>): (p: Progress)
    ensures p.env.soas == env.soas
    ensures !force ==> p.env.stage == env.stage
    ensures p.stmts.Keys == stmts.Keys + {c.view}
  {
    var stmts1 := stmts[c.view := Lookup(stmts, c.view) + [RenderZoneStmt(isSigned, root.name, c.meta.bindFname)]];
    if force then
      match Format(c.data, "serial", NatToString(serial + 1))
      case None => Progress(env, stmts1, Some(FormatFailure))
      case Some(text) =>
        Checked(cfg, inp, env.(stage := env.stage[StagePath(cfg, c) := text]), stmts1, root.name, StagePath(cfg, c))
    else if cfg.stageOnly then Progress(env, stmts1, None)
    else Checked(cfg, inp, env, stmts1, root.name, c.meta.prodFname)
  }

  function EmitViews(cfg: Config, inp: Inputs, root: RootDomain, isSigned: bool, serial: nat, force: bool,
                     cands: seq<Candidate>, env: Env, stmts: map<string, seq<string>>): (p: Progress)
    ensures p.env.soas == env.soas
    ensures !force ==> p.env.stage == env.stage
    ensures p.stmts.Keys <= stmts.Keys + ViewSet(cands)
    decreases |cands|
  {
    if |cands| == 0 then Progress(env, stmts, None)
    else
      var p := EmitView(cfg, inp, root, isSigned, serial, force, cands[0], env, stmts);
      if p.error.Some? then p
      else EmitViews(cfg, inp, root, isSigned, serial, force, cands[1..], p.env, p.stmts)
  }

  function SetSoa(env: Env, i: nat, soa: Soa): Env
    requires i < |env.soas|
  {
    env.(soas := env.soas[i := soa])
  }

  /** The initial `force_rebuild` of a zone: a task names it or it is dirty. */
  predicate Requested(soa: Soa, pks: set<int>)
  {
    soa.pk in pks || soa.dirty
  }

  /** The survey of a zone's views, starting from the SOA's serial and
      from the rebuild its tasks and `dirty` flag request. */
  function ZoneSurvey(cfg: Config, inp: Inputs, pks: set<int>, soa: Soa): Result<Survey, string>
    requires soa.root.Some?
  {
    SurveyViews(cfg, inp, soa.root.value, inp.views, Survey([], soa.serial, Requested(soa, pks)))
  }

  /** The body of the zone loop for the SOA at index `i`, up to the point
      where it raises. */
  function ProcessZone(cfg: Config, inp: Inputs, pks: set<int>, env: Env, stmts: map<string, seq<string>>, i: nat): (p: Progress)
    requires i < |env.soas| && env.soas[i].root.Some?
    ensures |p.env.soas| == |env.soas|
  {
    var soa := env.soas[i];
    var cleared := Cleared(env.soas, i, Requested(soa, pks));
    match ZoneSurvey(cfg, inp, pks, soa)
    case Err(e) => Progress(env.(soas := cleared), stmts, Some(e))
    case Ok(sv) =>
      EmitViews(cfg, inp, soa.root.value, soa.isSigned, sv.serial, sv.force, sv.cands,
                env.(soas := Bumped(cleared, i, sv)), stmts)
  }

  /** The SOA table once a requested zone's `dirty` flag is cleared. */
  function Cleared(soas: seq<Soa>, i: nat, force: bool): (r: seq<Soa>)
    requires i < |soas|
    ensures |r| == |soas|
  {
    if force then soas[i := soas[i].(dirty := false)] else soas
  }

  /** The SOA table once a rebuilt zone's new serial is persisted. */
  function Bumped(soas: seq<Soa>, i: nat, sv: Survey): (r: seq<Soa>)
    requires i < |soas|
    ensures |r| == |soas|
  {
    if sv.force then soas[i := soas[i].(serial := sv.serial + 1)] else soas
  }

  /** `build_zone_files` from the SOA at index `i` on: SOAs without a root
      domain are skipped, and a zone that raises is rescheduled (marked
      dirty) and ends the loop. */
  function ZoneLoop(cfg: Config, inp: Inputs, pks: set<int>, env: Env, stmts: map<string, seq<string>>, i: nat): (p: Progress)
    requires i <= |env.soas|
    ensures |p.env.soas| == |env.soas|
    decreases |env.soas| - i
  {
    if i == |env.soas| then Progress(env, stmts, None)
    else if env.soas[i].root.None? then ZoneLoop(cfg, inp, pks, env, stmts, i + 1)
    else
      var p := ProcessZone(cfg, inp, pks, env, stmts, i);
      if p.error.Some? then p.(env := SetSoa(p.env, i, p.env.soas[i].(dirty := true)))
      else ZoneLoop(cfg, inp, pks, p.env, p.stmts, i + 1)
  }

  /** The loop leaves the SOAs before `i` alone. */
  lemma {:induction false} ZoneLoopKeeps(cfg: Config, inp: Inputs, pks: set<int>, env: Env,
                                         stmts: map<string, seq<string>>, i: nat, k: nat)
    requires i <= |env.soas| && k < i
    ensures ZoneLoop(cfg, inp, pks, env, stmts, i).env.soas[k] == env.soas[k]
    decreases |env.soas| - i
  {
    if i < |env.soas| && env.soas[i].root.None? {
      ZoneLoopKeeps(cfg, inp, pks, env, stmts, i + 1, k);
    } else if i < |env.soas| {
      var p := ProcessZone(cfg, inp, pks, env, stmts, i);
      ProcessZoneFrame(cfg, inp, pks, env, stmts, i);
      if p.error.None? {
        ZoneLoopKeeps(cfg, inp, pks, p.env, p.stmts, i + 1, k);
      }
    }
  }

  /** Only views of the view table receive zone statements. */
  lemma {:induction false} ZoneLoopViews(cfg: Config, inp: Inputs, pks: set<int>, env: Env,
                                         stmts: map<string, seq<string>>, i: nat)
    requires i <= |env.soas|
    ensures ZoneLoop(cfg, inp, pks, env, stmts, i).stmts.Keys <= stmts.Keys + (set v | v in inp.views)
    decreases |env.soas| - i
  {
    if i < |env.soas| && env.soas[i].root.None? {
      ZoneLoopViews(cfg, inp, pks, env, stmts, i + 1);
    } else if i < |env.soas| {
      var p := ProcessZone(cfg, inp, pks, env, stmts, i);
      ProcessZoneViews(cfg, inp, pks, env, stmts, i);
      if p.error.None? {
        ZoneLoopViews(cfg, inp, pks, p.env, p.stmts, i + 1);
      }
    }
  }

  /** Only the SOA at index `i` changes, and only in its `dirty` flag and
      serial; a zone that gets through is left clean. */
  lemma ProcessZoneFrame(cfg: Config, inp: Inputs, pks: set<int>, env: Env, stmts: map<string, seq<string>>, i: nat)
    requires i < |env.soas| && env.soas[i].root.Some?
    ensures var p := ProcessZone(cfg, inp, pks, env, stmts, i);
            |p.env.soas| == |env.soas| &&
            (forall j :: 0 <= j < |env.soas| && j != i ==> p.env.soas[j] == env.soas[j]) &&
            p.env.soas[i] == env.soas[i].(dirty := p.env.soas[i].dirty, serial := p.env.soas[i].serial) &&
            (p.error.None? ==> !p.env.soas[i].dirty)
  {
    var soa := env.soas[i];
    match ZoneSurvey(cfg, inp, pks, soa)
    case Err(_) =>
      ProcessZoneSurveyFails(cfg, inp, pks, env, stmts, i);
    case Ok(sv) =>
      ProcessZoneSurveyOk(cfg, inp, pks, env, stmts, i);
  }

  /** Only views of the view table receive the zone's statements. */
  lemma ProcessZoneViews(cfg: Config, inp: Inputs, pks: set<int>, env: Env, stmts: map<string, seq<string>>, i: nat)
    requires i < |env.soas| && env.soas[i].root.Some?
    ensures ProcessZone(cfg, inp, pks, env, stmts, i).stmts.Keys <= stmts.Keys + (set v | v in inp.views)
  {
    var soa := env.soas[i];
    match ZoneSurvey(cfg, inp, pks, soa)
    case Err(_) =>
      ProcessZoneSurveyFails(cfg, inp, pks, env, stmts, i);
    case Ok(sv) =>
      ProcessZoneSurveyOk(cfg, inp, pks, env, stmts, i);
      assert forall v :: v in ViewSet(sv.cands) ==> v in inp.views;
  }

  // ------------------------------------------------- the view survey

  /** The views that have data for the zone, in view-table order. */
  function DataViews(inp: Inputs, root: RootDomain, views: seq<string>): (r: seq<string>)
    ensures forall v :: v in r ==> v in views
    decreases |views|
  {
    if |views| == 0 then []
    else if inp.zoneData(views[0], root.name) == "" then DataViews(inp, root, views[1..])
    else [views[0]] + DataViews(inp, root, views[1..])
  }

  /** The views of the candidates, in order. */
  function ViewsOf(cands: seq<Candidate>): (r: seq<string>)
    ensures |r| == |cands| && forall j :: 0 <= j < |cands| ==> r[j] == cands[j].view
    decreases |cands|
  {
    if |cands| == 0 then [] else [cands[0].view] + ViewsOf(cands[1..])
  }

  /** A candidate as the survey builds it: the view's data, not empty, and
      the file names of the view. */
  predicate WellBuilt(cfg: Config, inp: Inputs, root: RootDomain, c: Candidate)
  {
    c.data == inp.zoneData(c.view, root.name) && c.data != "" && GetFileMeta(cfg, c.view, root) == Ok(c.meta)
  }

  /** The candidates the survey adds to `s`. */
  function Added(sv: Survey, s: Survey): seq<Candidate>
    requires |sv.cands| >= |s.cands|
  {
    sv.cands[|s.cands|..]
  }

  /** The survey fails iff some view has data and the zone has no
      directory; otherwise it keeps the candidates it had and adds one per
      view with data, in order. */
  lemma {:induction false} SurveyCandidates(cfg: Config, inp: Inputs, root: RootDomain, views: seq<string>, s: Survey)
    ensures SurveyViews(cfg, inp, root, views, s).Err? <==>
            |DataViews(inp, root, views)| > 0 && CalcTarget(root).Err?
    ensures SurveyViews(cfg, inp, root, views, s).Ok? ==>
            var sv := SurveyViews(cfg, inp, root, views, s).value;
            |sv.cands| >= |s.cands| && sv.cands[..|s.cands|] == s.cands &&
            ViewsOf(Added(sv, s)) == DataViews(inp, root, views) &&
            forall c :: c in Added(sv, s) ==> WellBuilt(cfg, inp, root, c)
    decreases |views|
  {
    if |views| > 0 {
      var r := SurveyView(cfg, inp, root, views[0], s);
      if r.Ok? {
        var s1 := r.value;
        SurveyCandidates(cfg, inp, root, views[1..], s1);
        var out := SurveyViews(cfg, inp, root, views, s);
        if out.Ok? && inp.zoneData(views[0], root.name) != "" {
          SurveyStep(cfg, inp, root, views, s, out.value);
          assert ([s1.cands[|s.cands|]] + Added(out.value, s1))[1..] == Added(out.value, s1);
        }
      }
    }
  }

  /** How the candidates added by the whole survey split at its first
      view with data. */
  lemma SurveyStep(cfg: Config, inp: Inputs, root: RootDomain, views: seq<string>, s: Survey, sv: Survey)
    requires |views| > 0 && inp.zoneData(views[0], root.name) != ""
    requires SurveyViews(cfg, inp, root, views, s) == Ok(sv)
    ensures SurveyView(cfg, inp, root, views[0], s).Ok?
    ensures var s1 := SurveyView(cfg, inp, root, views[0], s).value;
            SurveyViews(cfg, inp, root, views[1..], s1) == Ok(sv) &&
            |s1.cands| == |s.cands| + 1 && s1.cands[..|s.cands|] == s.cands &&
            var c0 := s1.cands[|s.cands|];
            c0.view == views[0] && WellBuilt(cfg, inp, root, c0) &&
            s1.serial == (if IsStale(Published(inp, c0), s.serial) then
                            VerifyPreviousBuild(Published(inp, c0), s.serial, inp.now).newSerial.value
                          else s.serial) &&
            s1.force == (s.force || IsStale(Published(inp, c0), s.serial)) &&
            (|sv.cands| >= |s1.cands| && sv.cands[..|s1.cands|] == s1.cands ==>
               Added(sv, s) == [c0] + Added(sv, s1))
  {
    var s1 := SurveyView(cfg, inp, root, views[0], s).value;
    var c0 := s1.cands[|s.cands|];
    assert s1.cands == s.cands + [c0];
    if |sv.cands| >= |s1.cands| && sv.cands[..|s1.cands|] == s1.cands {
      assert Added(sv, s) == [c0] + Added(sv, s1);
    }
  }


  /** A zone is forced iff it was forced before the survey or some view
      with data has a published file whose serial is missing or differs
      from the database serial the survey started from. */
  lemma {:induction false} SurveyForce(cfg: Config, inp: Inputs, root: RootDomain, views: seq<string>, s: Survey)
    requires SurveyViews(cfg, inp, root, views, s).Ok?
    ensures var sv := SurveyViews(cfg, inp, root, views, s).value;
            SurveyCandidatesKept(sv, s) &&
            (sv.force <==> s.force || exists c :: c in Added(sv, s) && IsStale(Published(inp, c), s.serial))
    decreases |views|
  {
    var sv := SurveyViews(cfg, inp, root, views, s).value;
    SurveyCandidates(cfg, inp, root, views, s);
    if |views| > 0 {
      var s1 := SurveyView(cfg, inp, root, views[0], s).value;
      SurveyForce(cfg, inp, root, views[1..], s1);
      if inp.zoneData(views[0], root.name) != "" {
        SurveyStep(cfg, inp, root, views, s, sv);
        var c0 := s1.cands[|s.cands|];
        if !IsStale(Published(inp, c0), s.serial) {
          assert s1.serial == s.serial && s1.force == s.force;
        } else {
          assert c0 in Added(sv, s);
        }
      }
    }
  }

  predicate SurveyCandidatesKept(sv: Survey, s: Survey)
  {
    |sv.cands| >= |s.cands| && sv.cands[..|s.cands|] == s.cands
  }

  /** When no view with data is stale, the serial stays the database's. */
  lemma {:induction false} SurveySerialKept(cfg: Config, inp: Inputs, root: RootDomain, views: seq<string>, s: Survey)
    requires SurveyViews(cfg, inp, root, views, s).Ok?
    requires var sv := SurveyViews(cfg, inp, root, views, s).value;
             SurveyCandidatesKept(sv, s) &&
             forall c :: c in Added(sv, s) ==> !IsStale(Published(inp, c), s.serial)
    ensures SurveyViews(cfg, inp, root, views, s).value.serial == s.serial
    decreases |views|
  {
    var sv := SurveyViews(cfg, inp, root, views, s).value;
    if |views| > 0 {
      var s1 := SurveyView(cfg, inp, root, views[0], s).value;
      SurveyCandidates(cfg, inp, root, views[1..], s1);
      if inp.zoneData(views[0], root.name) != "" {
        SurveyStep(cfg, inp, root, views, s, sv);
        var c0 := s1.cands[|s.cands|];
        assert c0 in Added(sv, s);
        assert forall c :: c in Added(sv, s1) ==> c in Added(sv, s);
      }
      SurveySerialKept(cfg, inp, root, views[1..], s1);
    }
  }

  /** When every view with data has a numeric published serial, the serial
      the survey ends with is at least the database's and at least every
      published one, so the rebuilt zone (at that serial + 1) is newer than
      every file the secondaries have seen. */
  lemma {:induction false} SurveySerialCovers(cfg: Config, inp: Inputs, root: RootDomain, views: seq<string>, s: Survey)
    requires SurveyViews(cfg, inp, root, views, s).Ok?
    requires var sv := SurveyViews(cfg, inp, root, views, s).value;
             SurveyCandidatesKept(sv, s) &&
             forall c :: c in Added(sv, s) ==> IsDigits(Published(inp, c))
    ensures var sv := SurveyViews(cfg, inp, root, views, s).value;
            sv.serial >= s.serial &&
            forall c :: c in Added(sv, s) ==> DigitsValue(Published(inp, c)) <= sv.serial
    decreases |views|
  {
    var sv := SurveyViews(cfg, inp, root, views, s).value;
    if |views| > 0 {
      var s1 := SurveyView(cfg, inp, root, views[0], s).value;
      SurveyCandidates(cfg, inp, root, views[1..], s1);
      if inp.zoneData(views[0], root.name) != "" {
        SurveyStep(cfg, inp, root, views, s, sv);
        var c0 := s1.cands[|s.cands|];
        assert c0 in Added(sv, s);
        assert forall c :: c in Added(sv, s1) ==> c in Added(sv, s);
        NewSerialIsHighest(Published(inp, c0), s.serial, inp.now);
        SurveySerialCovers(cfg, inp, root, views[1..], s1);
        assert Added(sv, s) == [c0] + Added(sv, s1);
      } else {
        SurveySerialCovers(cfg, inp, root, views[1..], s1);
      }
    }
  }

  // ----------------------------------------------------- the emission

  /** The statements the candidates of a zone add to view `v`. */
  function StmtsOf(cands: seq<Candidate>, v: string, isSigned: bool, zoneName: string): seq<string>
    decreases |cands|
  {
    if |cands| == 0 then []
    else (if cands[0].view == v then [RenderZoneStmt(isSigned, zoneName, cands[0].meta.bindFname)] else []) +
         StmtsOf(cands[1..], v, isSigned, zoneName)
  }

  function ViewSet(cands: seq<Candidate>): set<string>
  {
    set c | c in cands :: c.view
  }

  /** The views that hold statements after the emission are those that
      held some before and the views with data. */
  lemma {:induction false} EmitStatementKeys(cfg: Config, inp: Inputs, root: RootDomain, isSigned: bool, serial: nat,
                                             force: bool, cands: seq<Candidate>, env: Env, stmts: map<string, seq<string>>)
    requires EmitViews(cfg, inp, root, isSigned, serial, force, cands, env, stmts).error.None?
    ensures EmitViews(cfg, inp, root, isSigned, serial, force, cands, env, stmts).stmts.Keys ==
            stmts.Keys + ViewSet(cands)
    decreases |cands|
  {
    if |cands| > 0 {
      var c := cands[0];
      var p0 := EmitView(cfg, inp, root, isSigned, serial, force, c, env, stmts);
      EmitViewsStep(cfg, inp, root, isSigned, serial, force, cands, env, stmts);
      EmitStatementKeys(cfg, inp, root, isSigned, serial, force, cands[1..], p0.env, p0.stmts);
      assert ViewSet(cands) == {c.view} + ViewSet(cands[1..]) by {
        assert forall x :: x in cands <==> x == c || x in cands[1..];
      }
    }
  }

  /** Every view with data gets exactly one more statement, in candidate
      order, whether or not the zone is rebuilt; no other view changes. */
  lemma {:induction false} EmitStatements(cfg: Config, inp: Inputs, root: RootDomain, isSigned: bool, serial: nat,
                                          force: bool, cands: seq<Candidate>, env: Env, stmts: map<string, seq<string>>,
                                          v: string)
    requires EmitViews(cfg, inp, root, isSigned, serial, force, cands, env, stmts).error.None?
    ensures Lookup(EmitViews(cfg, inp, root, isSigned, serial, force, cands, env, stmts).stmts, v) ==
            Lookup(stmts, v) + StmtsOf(cands, v, isSigned, root.name)
    decreases |cands|
  {
    if |cands| > 0 {
      var c := cands[0];
      var p0 := EmitView(cfg, inp, root, isSigned, serial, force, c, env, stmts);
      EmitViewsStep(cfg, inp, root, isSigned, serial, force, cands, env, stmts);
      EmitStatements(cfg, inp, root, isSigned, serial, force, cands[1..], p0.env, p0.stmts, v);
      var head := if c.view == v then [RenderZoneStmt(isSigned, root.name, c.meta.bindFname)] else [];
      var before, rest := Lookup(stmts, v), StmtsOf(cands[1..], v, isSigned, root.name);
      assert Lookup(p0.stmts, v) == before + head;
      assert StmtsOf(cands, v, isSigned, root.name) == head + rest;
      SeqAssoc(before, head, rest);
    }
  }

  lemma SeqAssoc<T>(a: seq<T>, b: seq<T>, c: seq<T>)
    ensures (a + b) + c == a + (b + c)
  {
  }

  /** The emission of a successful first view continues with the rest. */
  lemma EmitViewsStep(cfg: Config, inp: Inputs, root: RootDomain, isSigned: bool, serial: nat,
                      force: bool, cands: seq<Candidate>, env: Env, stmts: map<string, seq<string>>)
    requires |cands| > 0
    requires EmitViews(cfg, inp, root, isSigned, serial, force, cands, env, stmts).error.None?
    ensures var p0 := EmitView(cfg, inp, root, isSigned, serial, force, cands[0], env, stmts);
            p0.error.None? &&
            p0.stmts == stmts[cands[0].view := Lookup(stmts, cands[0].view) +
                                               [RenderZoneStmt(isSigned, root.name, cands[0].meta.bindFname)]] &&
            EmitViews(cfg, inp, root, isSigned, serial, force, cands, env, stmts) ==
            EmitViews(cfg, inp, root, isSigned, serial, force, cands[1..], p0.env, p0.stmts)
  {
    EmitViewStatement(cfg, inp, root, isSigned, serial, force, cands[0], env, stmts);
  }

  lemma EmitViewStatement(cfg: Config, inp: Inputs, root: RootDomain, isSigned: bool, serial: nat,
                          force: bool, c: Candidate, env: Env, stmts: map<string, seq<string>>)
    ensures EmitView(cfg, inp, root, isSigned, serial, force, c, env, stmts).stmts ==
            stmts[c.view := Lookup(stmts, c.view) + [RenderZoneStmt(isSigned, root.name, c.meta.bindFname)]]
  {
  }

  lemma EmitViewStaged(cfg: Config, inp: Inputs, root: RootDomain, isSigned: bool, serial: nat,
                       c: Candidate, env: Env, stmts: map<string, seq<string>>)
    requires EmitView(cfg, inp, root, isSigned, serial, true, c, env, stmts).error.None?
    ensures Format(c.data, "serial", NatToString(serial + 1)).Some?
    ensures EmitView(cfg, inp, root, isSigned, serial, true, c, env, stmts).env.stage ==
            env.stage[StagePath(cfg, c) := Format(c.data, "serial", NatToString(serial + 1)).value]
  {
  }


  /** The staging directory holds `text` at `path`, and `text` was
      rendered. */
  predicate Staged(stage: map<string, string>, path: string, text: Option<string>)
  {
    text.Some? && path in stage && stage[path] == text.value
  }

  /** The file `named-checkzone` is run on for one view: the staged file
      of a rebuilt zone, else the production file. */
  function CheckedFile(cfg: Config, c: Candidate, force: bool): string
  {
    if force then StagePath(cfg, c) else c.meta.prodFname
  }

  /** The files `named-checkzone` is run on, view by view (none at all for
      a stable zone when staging only). */
  function CheckedFiles(cfg: Config, cands: seq<Candidate>, force: bool): seq<string>
    decreases |cands|
  {
    if |cands| == 0 || (!force && cfg.stageOnly) then []
    else [CheckedFile(cfg, cands[0], force)] + CheckedFiles(cfg, cands[1..], force)
  }

  function CheckzoneCommands(cfg: Config, zoneName: string, files: seq<string>): seq<string>
    decreases |files|
  {
    if |files| == 0 then [] else [CheckzoneCommand(cfg, zoneName, files[0])] + CheckzoneCommands(cfg, zoneName, files[1..])
  }

  /** A view that gets through ran its one check, which passed, or nothing
      when staging only a stable zone. */
  lemma EmitViewCommands(cfg: Config, inp: Inputs, root: RootDomain, isSigned: bool, serial: nat,
                         force: bool, c: Candidate, env: Env, stmts: map<string, seq<string>>)
    requires EmitView(cfg, inp, root, isSigned, serial, force, c, env, stmts).error.None?
    ensures var p := EmitView(cfg, inp, root, isSigned, serial, force, c, env, stmts);
            if !force && cfg.stageOnly then p.env.commands == env.commands
            else p.env.commands == env.commands + [CheckzoneCommand(cfg, root.name, CheckedFile(cfg, c, force))] &&
                 CheckzoneError(cfg, inp, root.name, CheckedFile(cfg, c, force)).None?
  {
  }

  /** A zone that gets through its views ran `named-checkzone` once per
      view with data, in order, on the staged file when rebuilt and on the
      production file otherwise, and not at all for a stable zone when
      staging only. */
  lemma {:induction false} EmitCommands(cfg: Config, inp: Inputs, root: RootDomain, isSigned: bool, serial: nat,
                                        force: bool, cands: seq<Candidate>, env: Env, stmts: map<string, seq<string>>)
    requires EmitViews(cfg, inp, root, isSigned, serial, force, cands, env, stmts).error.None?
    ensures EmitViews(cfg, inp, root, isSigned, serial, force, cands, env, stmts).env.commands ==
            env.commands + CheckzoneCommands(cfg, root.name, CheckedFiles(cfg, cands, force))
    decreases |cands|
  {
    if |cands| > 0 {
      var p0 := EmitView(cfg, inp, root, isSigned, serial, force, cands[0], env, stmts);
      EmitViewsStep(cfg, inp, root, isSigned, serial, force, cands, env, stmts);
      EmitViewCommands(cfg, inp, root, isSigned, serial, force, cands[0], env, stmts);
      EmitCommands(cfg, inp, root, isSigned, serial, force, cands[1..], p0.env, p0.stmts);
      var files, rest := CheckedFiles(cfg, cands, force), CheckedFiles(cfg, cands[1..], force);
      var done := EmitViews(cfg, inp, root, isSigned, serial, force, cands, env, stmts).env.commands;
      assert done == p0.env.commands + CheckzoneCommands(cfg, root.name, rest);
      if !force && cfg.stageOnly {
        assert files == [] && rest == [];
      } else {
        var cmd := CheckzoneCommand(cfg, root.name, CheckedFile(cfg, cands[0], force));
        assert files == [CheckedFile(cfg, cands[0], force)] + rest;
        assert CheckzoneCommands(cfg, root.name, files) == [cmd] + CheckzoneCommands(cfg, root.name, rest);
        assert p0.env.commands == env.commands + [cmd];
        assert (env.commands + [cmd]) + CheckzoneCommands(cfg, root.name, rest) ==
               env.commands + ([cmd] + CheckzoneCommands(cfg, root.name, rest));
      }
    }
  }

  /** Every one of those checks succeeded. */
  lemma {:induction false} EmitChecksPassed(cfg: Config, inp: Inputs, root: RootDomain, isSigned: bool, serial: nat,
                                            force: bool, cands: seq<Candidate>, env: Env,
                                            stmts: map<string, seq<string>>, f: string)
    requires EmitViews(cfg, inp, root, isSigned, serial, force, cands, env, stmts).error.None?
    requires f in CheckedFiles(cfg, cands, force)
    ensures CheckzoneError(cfg, inp, root.name, f).None?
    decreases |cands|
  {
    var p0 := EmitView(cfg, inp, root, isSigned, serial, force, cands[0], env, stmts);
    EmitViewsStep(cfg, inp, root, isSigned, serial, force, cands, env, stmts);
    EmitViewCommands(cfg, inp, root, isSigned, serial, force, cands[0], env, stmts);
    if f != CheckedFile(cfg, cands[0], force) {
      EmitChecksPassed(cfg, inp, root, isSigned, serial, force, cands[1..], p0.env, p0.stmts, f);
    }
  }

  /** No two candidates share a staging path. */
  predicate DistinctStagePaths(cfg: Config, cands: seq<Candidate>)
  {
    forall j, k :: 0 <= j < |cands| && 0 <= k < |cands| && StagePath(cfg, cands[j]) == StagePath(cfg, cands[k]) ==> j == k
  }

  function StagePaths(cfg: Config, cands: seq<Candidate>): set<string>
  {
    set c | c in cands :: StagePath(cfg, c)
  }

  /** A rebuilt zone that gets through its views has staged the view of
      every candidate, rendered with `serial + 1`. */
  lemma {:induction false} EmitStaged(cfg: Config, inp: Inputs, root: RootDomain, isSigned: bool, serial: nat,
                                      cands: seq<Candidate>, env: Env, stmts: map<string, seq<string>>, k: nat)
    requires EmitViews(cfg, inp, root, isSigned, serial, true, cands, env, stmts).error.None?
    requires DistinctStagePaths(cfg, cands)
    requires k < |cands|
    ensures Staged(EmitViews(cfg, inp, root, isSigned, serial, true, cands, env, stmts).env.stage,
                   StagePath(cfg, cands[k]), Format(cands[k].data, "serial", NatToString(serial + 1)))
    decreases |cands|
  {
    var p0 := EmitView(cfg, inp, root, isSigned, serial, true, cands[0], env, stmts);
    EmitViewsStep(cfg, inp, root, isSigned, serial, true, cands, env, stmts);
    EmitViewStaged(cfg, inp, root, isSigned, serial, cands[0], env, stmts);
    DistinctTail(cfg, cands);
    if k == 0 {
      var f0 := StagePath(cfg, cands[0]);
      EmitUnstaged(cfg, inp, root, isSigned, serial, cands[1..], p0.env, p0.stmts, f0);
      assert f0 !in StagePaths(cfg, cands[1..]) by {
        forall c | c in cands[1..] ensures StagePath(cfg, c) != f0 {
          var j :| 0 <= j < |cands[1..]| && cands[1..][j] == c;
          assert cands[j + 1] == c;
        }
      }
    } else {
      EmitStaged(cfg, inp, root, isSigned, serial, cands[1..], p0.env, p0.stmts, k - 1);
      assert cands[1..][k - 1] == cands[k];
    }
  }

  lemma DistinctTail(cfg: Config, cands: seq<Candidate>)
    requires |cands| > 0 && DistinctStagePaths(cfg, cands)
    ensures DistinctStagePaths(cfg, cands[1..])
  {
    forall j, k | 0 <= j < |cands| - 1 && 0 <= k < |cands| - 1 &&
                  StagePath(cfg, cands[1..][j]) == StagePath(cfg, cands[1..][k])
      ensures j == k
    {
      assert cands[1..][j] == cands[j + 1] && cands[1..][k] == cands[k + 1];
    }
  }

  /** A rebuilt zone's emission writes no file outside its candidates'
      staged paths. */
  lemma {:induction false} EmitUnstaged(cfg: Config, inp: Inputs, root: RootDomain, isSigned: bool, serial: nat,
                                        cands: seq<Candidate>, env: Env, stmts: map<string, seq<string>>, f: string)
    requires EmitViews(cfg, inp, root, isSigned, serial, true, cands, env, stmts).error.None?
    requires f !in StagePaths(cfg, cands)
    ensures var stage := EmitViews(cfg, inp, root, isSigned, serial, true, cands, env, stmts).env.stage;
            (f in stage <==> f in env.stage) && (f in env.stage ==> stage[f] == env.stage[f])
    decreases |cands|
  {
    if |cands| > 0 {
      var p0 := EmitView(cfg, inp, root, isSigned, serial, true, cands[0], env, stmts);
      EmitViewsStep(cfg, inp, root, isSigned, serial, true, cands, env, stmts);
      EmitViewStaged(cfg, inp, root, isSigned, serial, cands[0], env, stmts);
      assert cands[0] in cands;
      assert f != StagePath(cfg, cands[0]);
      assert StagePaths(cfg, cands[1..]) <= StagePaths(cfg, cands) by {
        assert forall c :: c in cands[1..] ==> c in cands;
      }
      EmitUnstaged(cfg, inp, root, isSigned, serial, cands[1..], p0.env, p0.stmts, f);
    }
  }

  // ------------------------------------------------------- one zone

  /** Why a zone is rebuilt: a task names it, it is dirty, or a view with
      data has a stale published file. */
  predicate ZoneRebuilt(inp: Inputs, pks: set<int>, soa: Soa, sv: Survey)
  {
    Requested(soa, pks) || exists c :: c in sv.cands && IsStale(Published(inp, c), soa.serial)
  }

  /** A zone that gets through is rebuilt iff a task names it, it is dirty
      or one of its views is stale. Either way it is left clean, and its
      persisted serial is the survey's serial + 1 when rebuilt and
      unchanged otherwise. */
  lemma ZoneRebuildRule(cfg: Config, inp: Inputs, pks: set<int>, env: Env, stmts: map<string, seq<string>>, i: nat)
    requires i < |env.soas| && env.soas[i].root.Some?
    requires ProcessZone(cfg, inp, pks, env, stmts, i).error.None?
    ensures ZoneSurvey(cfg, inp, pks, env.soas[i]).Ok?
    ensures var soa := env.soas[i];
            var sv := ZoneSurvey(cfg, inp, pks, soa).value;
            (sv.force <==> ZoneRebuilt(inp, pks, soa, sv)) &&
            ProcessZone(cfg, inp, pks, env, stmts, i).env.soas[i] ==
              soa.(dirty := false, serial := if sv.force then sv.serial + 1 else soa.serial)
  {
    var soa := env.soas[i];
    var s0 := Survey([], soa.serial, Requested(soa, pks));
    SurveyForce(cfg, inp, soa.root.value, inp.views, s0);
    var sv := ZoneSurvey(cfg, inp, pks, soa).value;
    assert Added(sv, s0) == sv.cands;
    ProcessZoneSurveyOk(cfg, inp, pks, env, stmts, i);
  }

  /** The new serial is persisted before any zone file is checked: a
      rebuilt zone keeps serial + 1 even when a check or the rendering of
      one of its views then fails. */
  lemma SerialBumpedFirst(cfg: Config, inp: Inputs, pks: set<int>, env: Env, stmts: map<string, seq<string>>, i: nat)
    requires i < |env.soas| && env.soas[i].root.Some?
    requires ZoneSurvey(cfg, inp, pks, env.soas[i]).Ok? && ZoneSurvey(cfg, inp, pks, env.soas[i]).value.force
    ensures ProcessZone(cfg, inp, pks, env, stmts, i).env.soas[i].serial ==
            ZoneSurvey(cfg, inp, pks, env.soas[i]).value.serial + 1
  {
    ProcessZoneSurveyOk(cfg, inp, pks, env, stmts, i);
  }

  /** A zone whose only view is new (its published file has no numeric
      serial) is rebuilt at the time of the run, whatever serial the
      database holds: when that serial is above `now + 1`, the serial
      persisted goes down. */
  lemma NewZoneSerialRegresses(cfg: Config, inp: Inputs, pks: set<int>, env: Env, stmts: map<string, seq<string>>, i: nat)
    requires i < |env.soas| && env.soas[i].root.Some?
    requires |inp.views| == 1
    requires var root := env.soas[i].root.value;
             inp.zoneData(inp.views[0], root.name) != "" && GetFileMeta(cfg, inp.views[0], root).Ok? &&
             !IsDigits(inp.getSerial(GetFileMeta(cfg, inp.views[0], root).value.prodFname))
    ensures ProcessZone(cfg, inp, pks, env, stmts, i).env.soas[i].serial == inp.now + 1
    ensures env.soas[i].serial > inp.now + 1 ==>
            ProcessZone(cfg, inp, pks, env, stmts, i).env.soas[i].serial < env.soas[i].serial
  {
    var soa := env.soas[i];
    var root := soa.root.value;
    var v := inp.views[0];
    var s0 := Survey([], soa.serial, Requested(soa, pks));
    var meta := GetFileMeta(cfg, v, root).value;
    NewZoneStartsNow(inp.getSerial(meta.prodFname), soa.serial, inp.now);
    var s1 := SurveyView(cfg, inp, root, v, s0);
    assert s1.Ok? && s1.value.serial == inp.now && s1.value.force;
    assert inp.views[1..] == [];
    assert SurveyViews(cfg, inp, root, [], s1.value) == s1;
    assert ZoneSurvey(cfg, inp, pks, soa) == s1;
    SerialBumpedFirst(cfg, inp, pks, env, stmts, i);
  }

  // ------------------------------------------------- staged zone files

  /** What `os.path.join(a, b)` puts in front of a relative `b`. */
  function JoinHead(a: string): string
  {
    if a == "" || EndsWith(a, "/") then a else a + "/"
  }

  lemma PathJoinRelative(a: string, b: string)
    requires !StartsWith(b, "/")
    ensures PathJoin(a, b) == JoinHead(a) + b
  {
  }

  /** Joined onto one directory, two names that are both relative or both
      absolute give the same path only if they are the same name. */
  lemma PathJoinInjective(a: string, b1: string, b2: string)
    requires StartsWith(b1, "/") == StartsWith(b2, "/")
    requires PathJoin(a, b1) == PathJoin(a, b2)
    ensures b1 == b2
  {
    if !StartsWith(b1, "/") {
      var h := JoinHead(a);
      assert b1 == (h + b1)[|h|..];
      assert b2 == (h + b2)[|h|..];
    }
  }

  /** A non-empty front decides whether a text starts with '/'. */
  lemma SlashStart(x: string, y: string)
    requires |x| > 0
    ensures StartsWith(x + y, "/") == StartsWith(x, "/")
  {
    assert (x + y)[..1] == x[..1];
  }

  /** Whether a view's relative file name is absolute does not depend on
      the view. */
  lemma RelativeNameSlash(dir: string, root: RootDomain, v1: string, v2: string)
    ensures StartsWith(PathJoin(dir, CalcFname(v1, root)), "/") == StartsWith(PathJoin(dir, CalcFname(v2, root)), "/")
  {
    var h := root.name + ".";
    SlashStart(h, v1);
    SlashStart(h, v2);
    if !StartsWith(h, "/") {
      var jh := JoinHead(dir) + h;
      PathJoinRelative(dir, h + v1);
      PathJoinRelative(dir, h + v2);
      assert JoinHead(dir) + (h + v1) == jh + v1;
      assert JoinHead(dir) + (h + v2) == jh + v2;
      SlashStart(jh, v1);
      SlashStart(jh, v2);
    }
  }

  /** Two views of one zone share a staging path only if they are the same
      view: the zone's directory and the "<zone>." in front are common, so
      the path ends in the view's name. */
  lemma StagePathInjective(cfg: Config, inp: Inputs, root: RootDomain, c1: Candidate, c2: Candidate)
    requires WellBuilt(cfg, inp, root, c1) && WellBuilt(cfg, inp, root, c2)
    requires StagePath(cfg, c1) == StagePath(cfg, c2)
    ensures c1.view == c2.view
  {
    var dir := CalcTarget(root).value;
    var f1, f2 := CalcFname(c1.view, root), CalcFname(c2.view, root);
    RelativeNameSlash(dir, root, c1.view, c2.view);
    PathJoinInjective(cfg.stageDir, c1.meta.relFname, c2.meta.relFname);
    var h := root.name + ".";
    SlashStart(h, c1.view);
    SlashStart(h, c2.view);
    PathJoinInjective(dir, f1, f2);
    assert c1.view == f1[|h|..];
    assert c2.view == f2[|h|..];
  }

  /** No name occurs twice. */
  predicate DistinctViews(views: seq<string>)
  {
    forall j, k :: 0 <= j < |views| && 0 <= k < |views| && views[j] == views[k] ==> j == k
  }

  lemma {:induction false} DataViewsDistinct(inp: Inputs, root: RootDomain, views: seq<string>)
    requires DistinctViews(views)
    ensures DistinctViews(DataViews(inp, root, views))
    decreases |views|
  {
    if |views| > 0 {
      var tail := views[1..];
      assert DistinctViews(tail) by {
        forall j, k | 0 <= j < |tail| && 0 <= k < |tail| && tail[j] == tail[k] ensures j == k {
          assert tail[j] == views[j + 1] && tail[k] == views[k + 1];
        }
      }
      DataViewsDistinct(inp, root, tail);
      var rest := DataViews(inp, root, tail);
      if inp.zoneData(views[0], root.name) != "" {
        assert views[0] !in tail by {
          forall j | 0 <= j < |tail| ensures tail[j] != views[0] {
            assert tail[j] == views[j + 1];
          }
        }
        var r := [views[0]] + rest;
        forall j, k | 0 <= j < |r| && 0 <= k < |r| && r[j] == r[k] ensures j == k {
          if j > 0 {
            assert r[j] == rest[j - 1] && rest[j - 1] in rest;
          }
          if k > 0 {
            assert r[k] == rest[k - 1] && rest[k - 1] in rest;
          }
          if j > 0 && k > 0 {
            assert rest[j - 1] == rest[k - 1];
          }
        }
      }
    }
  }

  /** Well-built candidates of distinct views have distinct staging
      paths. */
  lemma CandidatePathsDistinct(cfg: Config, inp: Inputs, root: RootDomain, cands: seq<Candidate>)
    requires forall c :: c in cands ==> WellBuilt(cfg, inp, root, c)
    requires DistinctViews(ViewsOf(cands))
    ensures DistinctStagePaths(cfg, cands)
  {
    forall j, l | 0 <= j < |cands| && 0 <= l < |cands| && StagePath(cfg, cands[j]) == StagePath(cfg, cands[l])
      ensures j == l
    {
      assert cands[j] in cands && cands[l] in cands;
      StagePathInjective(cfg, inp, root, cands[j], cands[l]);
      assert ViewsOf(cands)[j] == ViewsOf(cands)[l];
    }
  }

  /** The candidates of a zone's survey: one per view with data, in
      view-table order, each built from that view. */
  lemma ZoneSurveyCandidates(cfg: Config, inp: Inputs, pks: set<int>, soa: Soa)
    requires soa.root.Some? && ZoneSurvey(cfg, inp, pks, soa).Ok?
    ensures var cands := ZoneSurvey(cfg, inp, pks, soa).value.cands;
            ViewsOf(cands) == DataViews(inp, soa.root.value, inp.views) &&
            forall c :: c in cands ==> WellBuilt(cfg, inp, soa.root.value, c)
  {
    var s0 := Survey([], soa.serial, Requested(soa, pks));
    SurveyCandidates(cfg, inp, soa.root.value, inp.views, s0);
    var sv := ZoneSurvey(cfg, inp, pks, soa).value;
    assert Added(sv, s0) == sv.cands;
  }

  /** A rebuilt zone that gets through, with distinct staging paths,
      stages each candidate's data rendered with the persisted serial. */
  lemma RebuiltCandidateStaged(cfg: Config, inp: Inputs, pks: set<int>, env: Env,
                               stmts: map<string, seq<string>>, i: nat, k: nat)
    requires i < |env.soas| && env.soas[i].root.Some?
    requires ProcessZone(cfg, inp, pks, env, stmts, i).error.None?
    requires ZoneSurvey(cfg, inp, pks, env.soas[i]).Ok? && ZoneSurvey(cfg, inp, pks, env.soas[i]).value.force
    requires DistinctStagePaths(cfg, ZoneSurvey(cfg, inp, pks, env.soas[i]).value.cands)
    requires k < |ZoneSurvey(cfg, inp, pks, env.soas[i]).value.cands|
    ensures var c := ZoneSurvey(cfg, inp, pks, env.soas[i]).value.cands[k];
            var p := ProcessZone(cfg, inp, pks, env, stmts, i);
            Staged(p.env.stage, StagePath(cfg, c), Format(c.data, "serial", NatToString(p.env.soas[i].serial)))
  {
    var soa := env.soas[i];
    var sv := ZoneSurvey(cfg, inp, pks, soa).value;
    ProcessZoneSurveyOk(cfg, inp, pks, env, stmts, i);
    SerialBumpedFirst(cfg, inp, pks, env, stmts, i);
    EmitStaged(cfg, inp, soa.root.value, soa.isSigned, sv.serial, sv.cands,
               env.(soas := Bumped(Cleared(env.soas, i, Requested(soa, pks)), i, sv)), stmts, k);
  }

  /** A rebuilt zone that gets through stages every view with data, when
      the view table names no view twice: the file at the view's staging
      path is the view's data rendered with the serial the database now
      holds for the zone. A zone that is not rebuilt stages nothing. */
  lemma ZoneStagedAtPersistedSerial(cfg: Config, inp: Inputs, pks: set<int>, env: Env,
                                    stmts: map<string, seq<string>>, i: nat, v: string)
    requires i < |env.soas| && env.soas[i].root.Some?
    requires ProcessZone(cfg, inp, pks, env, stmts, i).error.None?
    requires DistinctViews(inp.views)
    requires v in DataViews(inp, env.soas[i].root.value, inp.views)
    ensures ZoneSurvey(cfg, inp, pks, env.soas[i]).Ok?
    ensures GetFileMeta(cfg, v, env.soas[i].root.value).Ok?
    ensures var root := env.soas[i].root.value;
            var p := ProcessZone(cfg, inp, pks, env, stmts, i);
            if ZoneSurvey(cfg, inp, pks, env.soas[i]).value.force then
              Staged(p.env.stage, PathJoin(cfg.stageDir, GetFileMeta(cfg, v, root).value.relFname),
                     Format(inp.zoneData(v, root.name), "serial", NatToString(p.env.soas[i].serial)))
            else p.env.stage == env.stage
  {
    var soa := env.soas[i];
    var root := soa.root.value;
    ZoneRebuildRule(cfg, inp, pks, env, stmts, i);
    var sv := ZoneSurvey(cfg, inp, pks, soa).value;
    ZoneSurveyCandidates(cfg, inp, pks, soa);
    var views := DataViews(inp, root, inp.views);
    var k :| 0 <= k < |views| && views[k] == v;
    var c := sv.cands[k];
    assert c.view == v && c in sv.cands;
    assert WellBuilt(cfg, inp, root, c);
    if sv.force {
      DataViewsDistinct(inp, root, inp.views);
      CandidatePathsDistinct(cfg, inp, root, sv.cands);
      RebuiltCandidateStaged(cfg, inp, pks, env, stmts, i, k);
    } else {
      ProcessZoneSurveyOk(cfg, inp, pks, env, stmts, i);
    }
  }

  /** A zone no task names, that is not dirty and whose views' published
      serials all match the database, changes nothing: no SOA field and no
      staged file; when it gets through, the only commands run are the
      checks of its production files. */
  lemma StableZone(cfg: Config, inp: Inputs, pks: set<int>, env: Env, stmts: map<string, seq<string>>, i: nat)
    requires i < |env.soas| && env.soas[i].root.Some?
    requires !Requested(env.soas[i], pks)
    requires ZoneSurvey(cfg, inp, pks, env.soas[i]).Ok?
    requires forall c :: c in ZoneSurvey(cfg, inp, pks, env.soas[i]).value.cands ==>
               !IsStale(Published(inp, c), env.soas[i].serial)
    ensures var p := ProcessZone(cfg, inp, pks, env, stmts, i);
            p.env.soas == env.soas && p.env.stage == env.stage &&
            (p.error.None? ==>
               p.env.commands == env.commands +
                 CheckzoneCommands(cfg, env.soas[i].root.value.name,
                                   CheckedFiles(cfg, ZoneSurvey(cfg, inp, pks, env.soas[i]).value.cands, false)))
  {
    var soa := env.soas[i];
    var s0 := Survey([], soa.serial, false);
    SurveyCandidates(cfg, inp, soa.root.value, inp.views, s0);
    SurveyForce(cfg, inp, soa.root.value, inp.views, s0);
    var sv := ZoneSurvey(cfg, inp, pks, soa).value;
    assert Added(sv, s0) == sv.cands;
    assert !sv.force;
    var p := ProcessZone(cfg, inp, pks, env, stmts, i);
    ProcessZoneSurveyOk(cfg, inp, pks, env, stmts, i);
    assert Bumped(Cleared(env.soas, i, false), i, sv) == env.soas;
    if p.error.None? {
      EmitCommands(cfg, inp, soa.root.value, soa.isSigned, sv.serial, false, sv.cands, env, stmts);
    }
    assert p.env.soas == env.soas;
  }

  // ------------------------------------------------------ all zones

  /** When a zone raises, the loop stops there: that zone is marked dirty
      for the next run and the zones after it are untouched. */
  lemma {:induction false} FaultReschedules(cfg: Config, inp: Inputs, pks: set<int>, env: Env,
                                            stmts: map<string, seq<string>>, i: nat)
    requires i <= |env.soas|
    requires ZoneLoop(cfg, inp, pks, env, stmts, i).error.Some?
    ensures var p := ZoneLoop(cfg, inp, pks, env, stmts, i);
            exists k :: i <= k < |env.soas| && env.soas[k].root.Some? && p.env.soas[k].dirty &&
                        p.env.soas[k].pk == env.soas[k].pk &&
                        forall j :: k < j < |env.soas| ==> p.env.soas[j] == env.soas[j]
    decreases |env.soas| - i
  {
    if env.soas[i].root.None? {
      FaultReschedules(cfg, inp, pks, env, stmts, i + 1);
    } else {
      var p0 := ProcessZone(cfg, inp, pks, env, stmts, i);
      ProcessZoneFrame(cfg, inp, pks, env, stmts, i);
      if p0.error.Some? {
        var p := ZoneLoop(cfg, inp, pks, env, stmts, i);
        assert p.env.soas[i].dirty && p.env.soas[i].pk == env.soas[i].pk;
        assert forall j :: i < j < |env.soas| ==> p.env.soas[j] == env.soas[j];
      } else {
        FaultReschedules(cfg, inp, pks, p0.env, p0.stmts, i + 1);
        var p := ZoneLoop(cfg, inp, pks, env, stmts, i);
        var k :| i + 1 <= k < |env.soas| && p0.env.soas[k].root.Some? && p.env.soas[k].dirty &&
                 p.env.soas[k].pk == p0.env.soas[k].pk &&
                 forall j :: k < j < |env.soas| ==> p.env.soas[j] == p0.env.soas[j];
        assert p0.env.soas[k] == env.soas[k];
      }
    }
  }

  /** A loop that gets through leaves the zone at `k` clean when it has a
      root domain, changes it in nothing but its `dirty` flag and serial,
      and leaves it as it was when it has no root domain. */
  lemma {:induction false} ZoneLoopCleans(cfg: Config, inp: Inputs, pks: set<int>, env: Env,
                                          stmts: map<string, seq<string>>, i: nat, k: nat)
    requires i <= k < |env.soas|
    requires ZoneLoop(cfg, inp, pks, env, stmts, i).error.None?
    ensures var q := ZoneLoop(cfg, inp, pks, env, stmts, i).env.soas[k];
            q == env.soas[k].(dirty := q.dirty, serial := q.serial) &&
            (env.soas[k].root.Some? ==> !q.dirty) &&
            (env.soas[k].root.None? ==> q == env.soas[k])
    decreases |env.soas| - i
  {
    if env.soas[i].root.None? {
      if k == i {
        ZoneLoopKeeps(cfg, inp, pks, env, stmts, i + 1, i);
      } else {
        ZoneLoopCleans(cfg, inp, pks, env, stmts, i + 1, k);
      }
    } else {
      var p0 := ProcessZone(cfg, inp, pks, env, stmts, i);
      ProcessZoneFrame(cfg, inp, pks, env, stmts, i);
      if k == i {
        ZoneLoopKeeps(cfg, inp, pks, p0.env, p0.stmts, i + 1, i);
      } else {
        assert p0.env.soas[k] == env.soas[k];
        ZoneLoopCleans(cfg, inp, pks, p0.env, p0.stmts, i + 1, k);
      }
    }
  }

  // ------------------------------------------ build_config_files

  /** Where `write_stage_config` puts a view's configuration file. */
  function ConfigPath(cfg: Config, ztype: string, view: string): string
  {
    PathJoin(PathJoin(cfg.stageDir, "config"), ztype + "." + view)
  }

  /** What a configuration step leaves behind: the world and the error
      raised, if any. */
  datatype Outcome = Outcome(env: Env, error: Option<string>)

  /** `build_view_config`: the view's statements joined by newlines, with
      the zone type filled in, are staged as "<ztype>.<view>" and checked
      with `named-checkconf`. */
  function ViewConfig(cfg: Config, inp: Inputs, view: string, ztype: string, stmts: seq<string>, env: Env): (o: Outcome)
    ensures o.env.soas == env.soas
  {
    match Format(Join(stmts, "\n"), "ztype", ztype)
    case None => Outcome(env, Some(FormatFailure))
    case Some(text) =>
      var conf := ConfigPath(cfg, ztype, view);
      Outcome(Env(env.soas, env.stage[conf := text], env.commands + [CheckconfCommand(cfg, conf)]),
              CheckconfError(cfg, inp, conf))
  }

  /** `build_config_files`: one "master" configuration per view that has
      statements, visited in view-table order (`done` holds the views
      already written). */
  function ConfigLoop(cfg: Config, inp: Inputs, views: seq<string>, zoneStmts: map<string, seq<string>>,
                      done: set<string>, env: Env): (o: Outcome)
    ensures o.env.soas == env.soas
    decreases |views|
  {
    if |views| == 0 then Outcome(env, None)
    else if views[0] !in zoneStmts || views[0] in done then ConfigLoop(cfg, inp, views[1..], zoneStmts, done, env)
    else
      var o := ViewConfig(cfg, inp, views[0], "master", zoneStmts[views[0]], env);
      if o.error.Some? then o else ConfigLoop(cfg, inp, views[1..], zoneStmts, done + {views[0]}, o.env)
  }

  /** Different views have different configuration files. */
  lemma ConfigPathInjective(cfg: Config, v: string, w: string)
    requires v != w
    ensures ConfigPath(cfg, "master", v) != ConfigPath(cfg, "master", w)
  {
    var dir := PathJoin(cfg.stageDir, "config");
    var a, b := "master." + v, "master." + w;
    assert a[0] == 'm' && b[0] == 'm';
    assert !StartsWith(a, "/") && !StartsWith(b, "/");
    var sep := if dir == "" || EndsWith(dir, "/") then "" else "/";
    assert ConfigPath(cfg, "master", v) == dir + sep + a;
    assert ConfigPath(cfg, "master", w) == dir + sep + b;
    assert (dir + sep + a)[|dir + sep|..] == a;
    assert (dir + sep + b)[|dir + sep|..] == b;
    assert a[7..] == v && b[7..] == w;
  }

  /** The configuration step writes no file other than the configurations
      of the views it visits. */
  lemma {:induction false} ConfigKeeps(cfg: Config, inp: Inputs, views: seq<string>, zoneStmts: map<string, seq<string>>,
                                       done: set<string>, env: Env, f: string)
    requires ConfigLoop(cfg, inp, views, zoneStmts, done, env).error.None?
    requires forall w :: w in views && w in zoneStmts && w !in done ==> ConfigPath(cfg, "master", w) != f
    ensures var stage := ConfigLoop(cfg, inp, views, zoneStmts, done, env).env.stage;
            (f in stage <==> f in env.stage) && (f in env.stage ==> stage[f] == env.stage[f])
    decreases |views|
  {
    if |views| > 0 {
      if views[0] !in zoneStmts || views[0] in done {
        ConfigKeeps(cfg, inp, views[1..], zoneStmts, done, env, f);
      } else {
        var o := ViewConfig(cfg, inp, views[0], "master", zoneStmts[views[0]], env);
        assert views[0] in views;
        ConfigKeeps(cfg, inp, views[1..], zoneStmts, done + {views[0]}, o.env, f);
      }
    }
  }

  /** A configuration step that gets through has staged, for every view
      with statements, the statements joined by newlines with "master"
      filled in. */
  lemma {:induction false} ConfigWritten(cfg: Config, inp: Inputs, views: seq<string>, zoneStmts: map<string, seq<string>>,
                                         done: set<string>, env: Env, v: string)
    requires ConfigLoop(cfg, inp, views, zoneStmts, done, env).error.None?
    requires v in views && v in zoneStmts && v !in done
    ensures Staged(ConfigLoop(cfg, inp, views, zoneStmts, done, env).env.stage,
                   ConfigPath(cfg, "master", v), Format(Join(zoneStmts[v], "\n"), "ztype", "master"))
    decreases |views|
  {
    if views[0] !in zoneStmts || views[0] in done {
      ConfigWritten(cfg, inp, views[1..], zoneStmts, done, env, v);
    } else {
      var o := ViewConfig(cfg, inp, views[0], "master", zoneStmts[views[0]], env);
      if views[0] == v {
        forall w | w in views[1..] && w in zoneStmts && w !in done + {v}
          ensures ConfigPath(cfg, "master", w) != ConfigPath(cfg, "master", v)
        {
          ConfigPathInjective(cfg, w, v);
        }
        ConfigKeeps(cfg, inp, views[1..], zoneStmts, done + {v}, o.env, ConfigPath(cfg, "master", v));
      } else {
        ConfigWritten(cfg, inp, views[1..], zoneStmts, done + {views[0]}, o.env, v);
      }
    }
  }

  /** A zone statement as the configuration needs it. */
  datatype ZoneRef = ZoneRef(isSigned: bool, zoneName: string, bindFname: string)

  function Rendered(zs: seq<ZoneRef>): seq<string>
    decreases |zs|
  {
    if |zs| == 0 then [] else [RenderZoneStmt(zs[0].isSigned, zs[0].zoneName, zs[0].bindFname)] + Rendered(zs[1..])
  }

  function Statements(zs: seq<ZoneRef>, ztype: string): seq<string>
    decreases |zs|
  {
    if |zs| == 0 then []
    else [ZoneStatement(zs[0].isSigned, zs[0].zoneName, zs[0].bindFname, ztype)] + Statements(zs[1..], ztype)
  }

  /** With brace-free zone and file names, a view's configuration is its
      BIND zone statements, one after the other, separated by newlines. */
  lemma {:induction false} ConfigText(zs: seq<ZoneRef>, ztype: string)
    requires NoBraces(ztype)
    requires forall z :: z in zs ==> NoBraces(z.zoneName) && NoBraces(z.bindFname)
    ensures Format(Join(Rendered(zs), "\n"), "ztype", ztype) == Some(Join(Statements(zs, ztype), "\n"))
  {
    FormatEachRendered(zs, ztype);
    FormatJoin(Rendered(zs), "ztype", ztype);
  }

  lemma {:induction false} FormatEachRendered(zs: seq<ZoneRef>, ztype: string)
    requires NoBraces(ztype)
    requires forall z :: z in zs ==> NoBraces(z.zoneName) && NoBraces(z.bindFname)
    ensures FormatEach(Rendered(zs), "ztype", ztype) == Some(Statements(zs, ztype))
    decreases |zs|
  {
    if |zs| > 0 {
      assert zs[0] in zs;
      assert forall z :: z in zs[1..] ==> z in zs;
      ZoneStmtFormats(zs[0].isSigned, zs[0].zoneName, zs[0].bindFname, ztype);
      FormatEachRendered(zs[1..], ztype);
      assert Rendered(zs)[1..] == Rendered(zs[1..]);
    }
  }

  // ----------------------------------------------------------- build

  datatype StopFile = StopFile(contents: string, mtime: int)

  /** Everything `build` changes: the SOA table, the task queue, the staging
      directory, the commands run, the stop file and the e-mails sent. */
  datatype World = World(
    soas: seq<Soa>, tasks: seq<Task>, stage: map<string, string>, commands: seq<string>,
    stopFile: Option<StopFile>, mails: seq<string>)

  datatype BuildResult = BuildResult(world: World, error: Option<string>)

  function StopMessage(cfg: Config, contents: string): string
  {
    "The stop file (" + cfg.stopFile + ") exists. Build canceled.\nReason for skipped build:\n" + contents
  }

  /** The exception text of `int()` on a task that is not a number. */
  const TaskPkFailure := "invalid literal for int()"

  /** `set(int(t.task) for t in dns_tasks)`, None when a task is not a
      number; the set is collected from the first task to the last. The
      conversion `toInt` is a parameter: the build passes `PyInt`, and what
      is proved here holds for any conversion. */
  function TaskPks(ts: seq<Task>, toInt: string -> Option<int>): Option<set<int>>
    decreases |ts|
  {
    if |ts| == 0 then Some({})
    else
      var init := TaskPks(ts[..|ts| - 1], toInt);
      var last := toInt(ts[|ts| - 1].task);
      if init.None? || last.None? then None else Some(init.value + {last.value})
  }

  /** There is a set of pks exactly when every task holds a number. */
  lemma {:induction false} TaskPksDefined(ts: seq<Task>, toInt: string -> Option<int>)
    ensures TaskPks(ts, toInt).Some? <==> forall t :: t in ts ==> toInt(t.task).Some?
    decreases |ts|
  {
    if |ts| > 0 {
      var init, last := ts[..|ts| - 1], ts[|ts| - 1];
      TaskPksDefined(init, toInt);
      assert ts == init + [last];
      if TaskPks(init, toInt).None? {
        var t :| t in init && toInt(t.task).None?;
        assert t in ts;
      } else if toInt(last.task).None? {
        assert last in ts;
      } else {
        assert forall t :: t in ts ==> t in init || t == last;
      }
    }
  }

  /** The pks to rebuild are exactly the numbers the tasks hold. */
  lemma {:induction false} TaskPksMeaning(ts: seq<Task>, toInt: string -> Option<int>, n: int)
    requires TaskPks(ts, toInt).Some?
    ensures n in TaskPks(ts, toInt).value <==> exists t :: t in ts && toInt(t.task) == Some(n)
    decreases |ts|
  {
    if |ts| > 0 {
      var init, last := ts[..|ts| - 1], ts[|ts| - 1];
      TaskPksMeaning(init, toInt, n);
      assert ts == init + [last];
      assert TaskPks(ts, toInt).value == TaskPks(init, toInt).value + {toInt(last.task).value};
      if n in TaskPks(init, toInt).value {
        var t :| t in init && toInt(t.task) == Some(n);
        assert t in ts;
      } else if n == toInt(last.task).value {
        assert last in ts;
      } else {
        assert forall t :: t in ts ==> t in init || t == last;
      }
    }
  }

  /** A task that is not a number fails the whole set. */
  lemma {:induction false} TaskPksFailurePersists(ts: seq<Task>, toInt: string -> Option<int>, n: nat)
    requires n <= |ts| && TaskPks(ts[..n], toInt).None?
    ensures TaskPks(ts, toInt).None?
    decreases |ts| - n
  {
    if n < |ts| {
      assert ts[..n + 1][..n] == ts[..n];
      TaskPksFailurePersists(ts, toInt, n + 1);
    } else {
      assert ts[..n] == ts;
    }
  }

  function TaskIds(ts: seq<Task>): set<nat>
  {
    set t | t in ts :: t.id
  }

  /** `t.delete()`: the queue without the row of that id. */
  function RemoveTask(ts: seq<Task>, id: nat): (r: seq<Task>)
    ensures forall t :: t in r <==> t in ts && t.id != id
    decreases |ts|
  {
    if |ts| == 0 then []
    else if ts[0].id == id then RemoveTask(ts[1..], id)
    else [ts[0]] + RemoveTask(ts[1..], id)
  }

  function RemoveTasks(ts: seq<Task>, drained: seq<Task>): seq<Task>
    decreases |drained|
  {
    if |drained| == 0 then ts else RemoveTasks(RemoveTask(ts, drained[0].id), drained[1..])
  }

  /** Deleting the drained tasks removes exactly the rows with their ids. */
  lemma {:induction false} RemoveTasksMeaning(ts: seq<Task>, drained: seq<Task>, t: Task)
    ensures t in RemoveTasks(ts, drained) <==> t in ts && t.id !in TaskIds(drained)
    decreases |drained|
  {
    if |drained| > 0 {
      RemoveTasksMeaning(RemoveTask(ts, drained[0].id), drained[1..], t);
      assert TaskIds(drained) == {drained[0].id} + TaskIds(drained[1..]) by {
        assert forall x :: x in drained <==> x == drained[0] || x in drained[1..];
      }
    }
  }

  /** `build`: the stop file cancels the run (notifying and touching the
      file once the notification interval has passed); otherwise the
      staging directory is emptied, the task queue is drained (tasks queued
      meanwhile are `arrivals`), and unless there is nothing to do and no
      `force`, the zone files and then the configuration files are built;
      on success with `cleanUp` the drained tasks are deleted. */
  function BuildSpec(cfg: Config, inp: Inputs, w: World, cleanUp: bool, force: bool, arrivals: seq<Task>): BuildResult
  {
    if w.stopFile.Some? then
      var sf := w.stopFile.value;
      var msg := StopMessage(cfg, sf.contents);
      if inp.now - sf.mtime > cfg.stopFileEmailInterval then
        BuildResult(w.(stopFile := Some(StopFile(sf.contents, inp.now)), mails := w.mails + [msg]), Some(msg))
      else BuildResult(w, Some(msg))
    else
      var drained := w.tasks;
      var w1 := w.(stage := map[], tasks := w.tasks + arrivals);
      if |drained| == 0 && !force then BuildResult(w1, None)
      else
        match TaskPks(drained, PyInt)
        case None => BuildResult(w1, Some(TaskPkFailure))
        case Some(pks) =>
          var r := BuildFiles(cfg, inp, pks, w1);
          if r.error.None? && cleanUp then BuildResult(r.world.(tasks := RemoveTasks(r.world.tasks, drained)), None)
          else r
  }

  /** The zone files and then the configuration files, stopping at the
      first error; only the SOAs, the staging directory and the commands
      change. */
  function BuildFiles(cfg: Config, inp: Inputs, pks: set<int>, w: World): (r: BuildResult)
    ensures r.world == w.(soas := r.world.soas, stage := r.world.stage, commands := r.world.commands)
  {
    var z := ZoneLoop(cfg, inp, pks, Env(w.soas, w.stage, w.commands), map[], 0);
    var w2 := w.(soas := z.env.soas, stage := z.env.stage, commands := z.env.commands);
    if z.error.Some? then BuildResult(w2, z.error)
    else
      var c := ConfigLoop(cfg, inp, inp.views, z.stmts, {}, z.env);
      BuildResult(w2.(stage := c.env.stage, commands := c.env.commands), c.error)
  }

  /** A stop file cancels the build before any work: the SOAs, the tasks,
      the staging directory and the commands are as they were. A
      notification goes out, and the file's time is reset to now, exactly
      when the interval has passed since it was last touched. */
  lemma StopFileCancels(cfg: Config, inp: Inputs, w: World, cleanUp: bool, force: bool, arrivals: seq<Task>)
    requires w.stopFile.Some?
    ensures var r := BuildSpec(cfg, inp, w, cleanUp, force, arrivals);
            var sf := w.stopFile.value;
            var overdue := inp.now - sf.mtime > cfg.stopFileEmailInterval;
            r.error == Some(StopMessage(cfg, sf.contents)) &&
            r.world.soas == w.soas && r.world.tasks == w.tasks && r.world.stage == w.stage &&
            r.world.commands == w.commands &&
            (r.world.mails != w.mails <==> overdue) &&
            (overdue ==> r.world.mails == w.mails + [StopMessage(cfg, sf.contents)]) &&
            r.world.stopFile == Some(StopFile(sf.contents, if overdue then inp.now else sf.mtime))
  {
    var r := BuildSpec(cfg, inp, w, cleanUp, force, arrivals);
    if inp.now - w.stopFile.value.mtime > cfg.stopFileEmailInterval {
      assert |r.world.mails| == |w.mails| + 1;
    }
  }

  /** With no task and no `force` the build only empties the staging
      directory. */
  lemma NothingToDo(cfg: Config, inp: Inputs, w: World, cleanUp: bool, arrivals: seq<Task>)
    requires w.stopFile.None? && |w.tasks| == 0
    ensures var r := BuildSpec(cfg, inp, w, cleanUp, false, arrivals);
            r.error.None? && r.world.soas == w.soas && r.world.commands == w.commands &&
            r.world.stage == map[] && r.world.tasks == arrivals && r.world.mails == w.mails
  {
  }

  /** Only the tasks seen at the start are deleted, and only by a build
      that gets through with `cleanUp`: tasks queued meanwhile survive
      (unless they reuse a drained id), and a failed build keeps every
      task. */
  lemma TasksAfterBuild(cfg: Config, inp: Inputs, w: World, cleanUp: bool, force: bool, arrivals: seq<Task>, t: Task)
    requires w.stopFile.None?
    ensures var r := BuildSpec(cfg, inp, w, cleanUp, force, arrivals);
            (r.error.None? && cleanUp ==>
               (t in r.world.tasks <==> t in w.tasks + arrivals && t.id !in TaskIds(w.tasks))) &&
            (r.error.Some? || !cleanUp ==> r.world.tasks == w.tasks + arrivals)
  {
    var r := BuildSpec(cfg, inp, w, cleanUp, force, arrivals);
    if r.error.None? && cleanUp {
      RemoveTasksMeaning(w.tasks + arrivals, w.tasks, t);
      if |w.tasks| == 0 {
        assert TaskIds(w.tasks) == {};
      }
    }
  }

  /** The zone statements a build collects. */
  function BuildStmts(cfg: Config, inp: Inputs, w: World): map<string, seq<string>>
    requires TaskPks(w.tasks, PyInt).Some?
  {
    ZoneLoop(cfg, inp, TaskPks(w.tasks, PyInt).value, Env(w.soas, map[], w.commands), map[], 0).stmts
  }

  /** A build that gets through with work to do leaves every zone that has
      a root domain clean. */
  lemma BuildCleansZones(cfg: Config, inp: Inputs, w: World, cleanUp: bool, force: bool, arrivals: seq<Task>, k: nat)
    requires w.stopFile.None? && (|w.tasks| > 0 || force)
    requires BuildSpec(cfg, inp, w, cleanUp, force, arrivals).error.None?
    requires k < |w.soas| && w.soas[k].root.Some?
    ensures !BuildSpec(cfg, inp, w, cleanUp, force, arrivals).world.soas[k].dirty
  {
    ZoneLoopCleans(cfg, inp, TaskPks(w.tasks, PyInt).value, Env(w.soas, map[], w.commands), map[], 0, k);
  }

  /** A build that gets through with work to do has staged, for every view
      that received zone statements, its configuration: the statements
      joined by newlines with "master" filled in. */
  lemma BuildWritesConfigs(cfg: Config, inp: Inputs, w: World, cleanUp: bool, force: bool, arrivals: seq<Task>, v: string)
    requires w.stopFile.None? && (|w.tasks| > 0 || force)
    requires BuildSpec(cfg, inp, w, cleanUp, force, arrivals).error.None?
    ensures TaskPks(w.tasks, PyInt).Some?
    ensures v in BuildStmts(cfg, inp, w) ==>
            Staged(BuildSpec(cfg, inp, w, cleanUp, force, arrivals).world.stage, ConfigPath(cfg, "master", v),
                   Format(Join(BuildStmts(cfg, inp, w)[v], "\n"), "ztype", "master"))
  {
    var env0 := Env(w.soas, map[], w.commands);
    var z := ZoneLoop(cfg, inp, TaskPks(w.tasks, PyInt).value, env0, map[], 0);
    if v in z.stmts {
      ZoneLoopViews(cfg, inp, TaskPks(w.tasks, PyInt).value, env0, map[], 0);
      assert v in inp.views;
      ConfigWritten(cfg, inp, inp.views, z.stmts, {}, z.env, v);
    }
  }

  // ------------------------------------------------------------ push

  datatype RepoStep = ResetAndPull | CopyTree | Clean | CommitAndPush(message: string, sanityCheck: bool)

  datatype PushOutcome = PushOutcome(steps: seq<RepoStep>, ok: bool)

  /** `push`, given whether each repository step succeeds. */
  function Push(resetOk: bool, copyOk: bool, commitOk: bool, sanityCheck: bool): PushOutcome
  {
    if !resetOk then PushOutcome([ResetAndPull], false)
    else if !copyOk then PushOutcome([ResetAndPull, CopyTree, Clean], false)
    else PushOutcome([ResetAndPull, CopyTree, CommitAndPush("Update config file", sanityCheck)], commitOk)
  }

  /** The repository is always reset and pulled first; a failed copy
      cleans the repository and nothing is committed; otherwise the copy is
      committed and pushed, with the caller's sanity check. */
  lemma PushOrder(resetOk: bool, copyOk: bool, commitOk: bool, sanityCheck: bool)
    ensures var r := Push(resetOk, copyOk, commitOk, sanityCheck);
            |r.steps| >= 1 && r.steps[0] == ResetAndPull &&
            (Clean in r.steps <==> resetOk && !copyOk) &&
            (CommitAndPush("Update config file", sanityCheck) in r.steps <==> resetOk && copyOk) &&
            (forall m, b :: CommitAndPush(m, b) in r.steps ==>
               m == "Update config file" && b == sanityCheck && r.steps[|r.steps| - 1] == CommitAndPush(m, b)) &&
            (r.ok <==> resetOk && copyOk && commitOk)
  {
  }

  /** One step of the emission loop. */
  lemma EmitViewsUnfold(cfg: Config, inp: Inputs, root: RootDomain, isSigned: bool, serial: nat, force: bool,
                        cands: seq<Candidate>, env: Env, stmts: map<string, seq<string>>)
    requires |cands| > 0
    ensures var p := EmitView(cfg, inp, root, isSigned, serial, force, cands[0], env, stmts);
            EmitViews(cfg, inp, root, isSigned, serial, force, cands, env, stmts) ==
            if p.error.Some? then p else EmitViews(cfg, inp, root, isSigned, serial, force, cands[1..], p.env, p.stmts)
  {
  }

  /** One step of the zone loop at a SOA with a root domain. */
  lemma ZoneLoopGoesOn(cfg: Config, inp: Inputs, pks: set<int>, env: Env, stmts: map<string, seq<string>>, i: nat,
                        p: Progress)
    requires i < |env.soas| && env.soas[i].root.Some?
    requires p == ProcessZone(cfg, inp, pks, env, stmts, i) && p.error.None?
    ensures ZoneLoop(cfg, inp, pks, env, stmts, i) == ZoneLoop(cfg, inp, pks, p.env, p.stmts, i + 1)
  {
  }

  lemma ZoneLoopEnd(cfg: Config, inp: Inputs, pks: set<int>, env: Env, stmts: map<string, seq<string>>)
    ensures ZoneLoop(cfg, inp, pks, env, stmts, |env.soas|) == Progress(env, stmts, None)
  {
  }

  lemma ZoneLoopStops(cfg: Config, inp: Inputs, pks: set<int>, env: Env, stmts: map<string, seq<string>>, i: nat,
                      p: Progress)
    requires i < |env.soas| && env.soas[i].root.Some?
    requires p == ProcessZone(cfg, inp, pks, env, stmts, i) && p.error.Some?
    ensures ZoneLoop(cfg, inp, pks, env, stmts, i) == p.(env := SetSoa(p.env, i, p.env.soas[i].(dirty := true)))
  {
  }

  lemma ProcessZoneSurveyFails(cfg: Config, inp: Inputs, pks: set<int>, env: Env, stmts: map<string, seq<string>>, i: nat)
    requires i < |env.soas| && env.soas[i].root.Some?
    requires ZoneSurvey(cfg, inp, pks, env.soas[i]).Err?
    ensures ProcessZone(cfg, inp, pks, env, stmts, i) ==
            Progress(env.(soas := Cleared(env.soas, i, Requested(env.soas[i], pks))), stmts,
                     Some(ZoneSurvey(cfg, inp, pks, env.soas[i]).error))
  {
  }

  lemma ProcessZoneSurveyOk(cfg: Config, inp: Inputs, pks: set<int>, env: Env, stmts: map<string, seq<string>>, i: nat)
    requires i < |env.soas| && env.soas[i].root.Some?
    requires ZoneSurvey(cfg, inp, pks, env.soas[i]).Ok?
    ensures var soa := env.soas[i];
            var sv := ZoneSurvey(cfg, inp, pks, soa).value;
            ProcessZone(cfg, inp, pks, env, stmts, i) ==
            EmitViews(cfg, inp, soa.root.value, soa.isSigned, sv.serial, sv.force, sv.cands,
                      env.(soas := Bumped(Cleared(env.soas, i, Requested(soa, pks)), i, sv)), stmts)
  {
  }

  // ------------------------------------------------------ DNSBuilder

  /** The builder object: its configuration, and the state a build reads
      and changes (the SOA rows, the task queue, the staging directory, the
      commands run, the stop file and the e-mails sent). */
  class DnsBuilder {
    const cfg: Config
    var soas: seq<Soa>
    var tasks: seq<Task>
    var stage: map<string, string>
    var commands: seq<string>
    var stopFile: Option<StopFile>
    var mails: seq<string>

    constructor (cfg: Config, w: World)
      ensures this.cfg == cfg && State() == w
    {
      this.cfg := cfg;
      soas, tasks, stage, commands := w.soas, w.tasks, w.stage, w.commands;
      stopFile, mails := w.stopFile, w.mails;
    }

    function Current(): Env
      reads this
    {
      Env(soas, stage, commands)
    }

    function State(): World
      reads this
    {
      World(soas, tasks, stage, commands, stopFile, mails)
    }

    /** `run_checkzone`: the command is run and the error raised exactly
        when it fails. */
    method RunCheckzone(inp: Inputs, zoneFile: string, zoneName: string) returns (err: Option<string>)
      modifies this`commands
      ensures State() == old(State()).(commands := old(commands) + [CheckzoneCommand(cfg, zoneName, zoneFile)])
      ensures err == CheckzoneError(cfg, inp, zoneName, zoneFile)
      ensures err.Some? <==> inp.shellOut(CheckzoneCommand(cfg, zoneName, zoneFile)).returncode != 0
    {
      var command := CheckzoneCommand(cfg, zoneName, zoneFile);
      commands := commands + [command];
      err := ShellError(cfg, inp, command, "named-checkzone failed on zone " + zoneName);
    }

    /** `run_checkconf`. */
    method RunCheckconf(inp: Inputs, confFile: string) returns (err: Option<string>)
      modifies this`commands
      ensures State() == old(State()).(commands := old(commands) + [CheckconfCommand(cfg, confFile)])
      ensures err == CheckconfError(cfg, inp, confFile)
      ensures err.Some? <==> inp.shellOut(CheckconfCommand(cfg, confFile)).returncode != 0
    {
      var command := CheckconfCommand(cfg, confFile);
      commands := commands + [command];
      err := ShellError(cfg, inp, command, "named-checkconf rejected config " + confFile);
    }

    /** `build_zone`: the rendered zone file is staged and checked there. */
    method BuildZone(inp: Inputs, c: Candidate, text: string, zoneName: string) returns (err: Option<string>)
      modifies this`stage, this`commands
      ensures State() == old(State()).(stage := old(stage)[StagePath(cfg, c) := text],
                                       commands := old(commands) + [CheckzoneCommand(cfg, zoneName, StagePath(cfg, c))])
      ensures err == CheckzoneError(cfg, inp, zoneName, StagePath(cfg, c))
    {
      var stageFname := PathJoin(cfg.stageDir, c.meta.relFname);
      stage := stage[stageFname := text];
      err := RunCheckzone(inp, stageFname, zoneName);
    }

    /** `write_stage_config`: the configuration goes to "config/<name>"
        under the staging directory. */
    method WriteStageConfig(configFname: string, text: string) returns (path: string)
      modifies this`stage
      ensures path == PathJoin(PathJoin(cfg.stageDir, "config"), configFname)
      ensures State() == old(State()).(stage := old(stage)[path := text])
    {
      path := PathJoin(PathJoin(cfg.stageDir, "config"), configFname);
      stage := stage[path := text];
    }

    /** `build_view_config`. */
    method BuildViewConfig(inp: Inputs, view: string, ztype: string, stmts: seq<string>) returns (err: Option<string>)
      modifies this`soas, this`stage, this`commands
      ensures Outcome(Current(), err) == ViewConfig(cfg, inp, view, ztype, stmts, old(Current()))
    {
      var text := Format(Join(stmts, "\n"), "ztype", ztype);
      if text.None? {
        return Some(FormatFailure);
      }
      var conf := WriteStageConfig(ztype + "." + view, text.value);
      err := RunCheckconf(inp, conf);
    }

    /** `build_config_files`: the views are visited in view-table order,
        each view with statements once. */
    method BuildConfigFiles(inp: Inputs, zoneStmts: map<string, seq<string>>) returns (err: Option<string>)
      modifies this`soas, this`stage, this`commands
      ensures Outcome(Current(), err) == ConfigLoop(cfg, inp, inp.views, zoneStmts, {}, old(Current()))
    {
      var views := inp.views;
      var done: set<string> := {};
      var i := 0;
      while i < |views|
        invariant 0 <= i <= |views|
        invariant ConfigLoop(cfg, inp, views[i..], zoneStmts, done, Env(soas, stage, commands)) ==
                  ConfigLoop(cfg, inp, views, zoneStmts, {}, old(Env(soas, stage, commands)))
      {
        var view := views[i];
        assert views[i..][0] == view && views[i..][1..] == views[i + 1..];
        if view in zoneStmts && view !in done {
          err := BuildViewConfig(inp, view, "master", zoneStmts[view]);
          if err.Some? {
            return;
          }
          done := done + {view};
        }
        i := i + 1;
      }
      err := None;
    }

    /** The view loop of `build_zone_files`: the candidates, the serial
        and `force_rebuild` after looking at every view of the zone. */
    method SurveyZone(inp: Inputs, root: RootDomain, serial0: nat, force0: bool) returns (r: Result<Survey, string>)
      ensures r == SurveyViews(cfg, inp, root, inp.views, Survey([], serial0, force0))
    {
      var views := inp.views;
      var viewsToBuild: seq<Candidate> := [];
      var serial := serial0;
      var force := force0;
      var i := 0;
      while i < |views|
        invariant 0 <= i <= |views|
        invariant SurveyViews(cfg, inp, root, views[i..], Survey(viewsToBuild, serial, force)) ==
                  SurveyViews(cfg, inp, root, views, Survey([], serial0, force0))
      {
        var view := views[i];
        assert views[i..][0] == view && views[i..][1..] == views[i + 1..];
        var data := inp.zoneData(view, root.name);
        if data != "" {
          var meta := GetFileMeta(cfg, view, root);
          if meta.Err? {
            return Err(meta.error);
          }
          var prev := VerifyPreviousBuild(inp.getSerial(meta.value.prodFname), serial, inp.now);
          if prev.bad {
            serial := prev.newSerial.value;
            force := true;
          }
          viewsToBuild := viewsToBuild + [Candidate(view, meta.value, data)];
        }
        i := i + 1;
      }
      r := Ok(Survey(viewsToBuild, serial, force));
    }

    /** One pass of the emission loop: the view's statement, then the
        rebuild, the production check or nothing. */
    method EmitOne(inp: Inputs, root: RootDomain, isSigned: bool, serial: nat, force: bool,
                   c: Candidate, stmts0: map<string, seq<string>>)
      returns (zoneStmts: map<string, seq<string>>, err: Option<string>)
      modifies this`soas, this`stage, this`commands
      ensures Progress(Current(), zoneStmts, err) ==
              EmitView(cfg, inp, root, isSigned, serial, force, c, old(Current()), stmts0)
    {
      zoneStmts := stmts0[c.view := Lookup(stmts0, c.view) + [RenderZoneStmt(isSigned, root.name, c.meta.bindFname)]];
      err := None;
      if force {
        var text := Format(c.data, "serial", NatToString(serial + 1));
        if text.None? {
          return zoneStmts, Some(FormatFailure);
        }
        err := BuildZone(inp, c, text.value, root.name);
      } else if !cfg.stageOnly {
        err := RunCheckzone(inp, c.meta.prodFname, root.name);
      }
    }

    /** The emission loop of `build_zone_files`. */
    method EmitZone(inp: Inputs, root: RootDomain, isSigned: bool, serial: nat, force: bool,
                    cands: seq<Candidate>, stmts0: map<string, seq<string>>)
      returns (zoneStmts: map<string, seq<string>>, err: Option<string>)
      modifies this`soas, this`stage, this`commands
      ensures Progress(Current(), zoneStmts, err) ==
              EmitViews(cfg, inp, root, isSigned, serial, force, cands, old(Current()), stmts0)
    {
      zoneStmts := stmts0;
      var k := 0;
      while k < |cands|
        invariant 0 <= k <= |cands|
        invariant EmitViews(cfg, inp, root, isSigned, serial, force, cands[k..], Env(soas, stage, commands), zoneStmts) ==
                  EmitViews(cfg, inp, root, isSigned, serial, force, cands, old(Env(soas, stage, commands)), stmts0)
      {
        ghost var before, stmtsBefore := Env(soas, stage, commands), zoneStmts;
        assert cands[k..][0] == cands[k] && cands[k..][1..] == cands[k + 1..];
        zoneStmts, err := EmitOne(inp, root, isSigned, serial, force, cands[k], zoneStmts);
        EmitViewsUnfold(cfg, inp, root, isSigned, serial, force, cands[k..], before, stmtsBefore);
        if err.Some? {
          return;
        }
        k := k + 1;
      }
      err := None;
    }

    /** The body of the zone loop for the SOA at index `i`, up to the
        `except` clause. */
    method ProcessOne(inp: Inputs, pks: set<int>, stmts0: map<string, seq<string>>, i: nat)
      returns (zoneStmts: map<string, seq<string>>, err: Option<string>)
      requires i < |soas| && soas[i].root.Some?
      modifies this`soas, this`stage, this`commands
      ensures Progress(Current(), zoneStmts, err) == ProcessZone(cfg, inp, pks, old(Current()), stmts0, i)
    {
      ghost var env0 := Env(soas, stage, commands);
      var soa := soas[i];
      var root := soa.root.value;
      var force := soa.pk in pks || soa.dirty;
      var cleared := Cleared(soas, i, force);
      var survey := SurveyZone(inp, root, soa.serial, force);
      if survey.Err? {
        ProcessZoneSurveyFails(cfg, inp, pks, env0, stmts0, i);
        soas := cleared;
        return stmts0, Some(survey.error);
      }
      var sv := survey.value;
      ProcessZoneSurveyOk(cfg, inp, pks, env0, stmts0, i);
      soas := Bumped(cleared, i, sv);
      zoneStmts, err := EmitZone(inp, root, soa.isSigned, sv.serial, sv.force, sv.cands, stmts0);
    }

    /** One turn of the zone loop at index `i`: a zone without a root is
        skipped, a zone that raises is marked dirty and ends the loop. */
    method ZoneStep(inp: Inputs, pks: set<int>, stmts0: map<string, seq<string>>, i: nat)
      returns (zoneStmts: map<string, seq<string>>, err: Option<string>)
      requires i < |soas|
      modifies this`soas, this`stage, this`commands
      ensures |soas| == old(|soas|)
      ensures err.Some? ==> Progress(Current(), zoneStmts, err) == ZoneLoop(cfg, inp, pks, old(Current()), stmts0, i)
      ensures err.None? ==> ZoneLoop(cfg, inp, pks, Current(), zoneStmts, i + 1) ==
                            ZoneLoop(cfg, inp, pks, old(Current()), stmts0, i)
    {
      if soas[i].root.None? {
        return stmts0, None;
      }
      ghost var before := Env(soas, stage, commands);
      zoneStmts, err := ProcessOne(inp, pks, stmts0, i);
      ghost var p := Progress(Env(soas, stage, commands), zoneStmts, err);
      if err.Some? {
        ZoneLoopStops(cfg, inp, pks, before, stmts0, i, p);
        soas := soas[i := soas[i].(dirty := true)];
        assert Env(soas, stage, commands) == SetSoa(p.env, i, p.env.soas[i].(dirty := true));
      } else {
        ZoneLoopGoesOn(cfg, inp, pks, before, stmts0, i, p);
      }
    }

    /** `build_zone_files`; a zone that raises is rescheduled. */
    method BuildZoneFiles(inp: Inputs, pks: set<int>) returns (zoneStmts: map<string, seq<string>>, err: Option<string>)
      modifies this`soas, this`stage, this`commands
      ensures Progress(Current(), zoneStmts, err) == ZoneLoop(cfg, inp, pks, old(Current()), map[], 0)
    {
      ghost var goal := ZoneLoop(cfg, inp, pks, Env(soas, stage, commands), map[], 0);
      zoneStmts := map[];
      var i := 0;
      while i < |soas|
        invariant 0 <= i <= |soas|
        invariant ZoneLoop(cfg, inp, pks, Env(soas, stage, commands), zoneStmts, i) == goal
        decreases |soas| - i
      {
        zoneStmts, err := ZoneStep(inp, pks, zoneStmts, i);
        if err.Some? {
          return;
        }
        i := i + 1;
      }
      ZoneLoopEnd(cfg, inp, pks, Env(soas, stage, commands), zoneStmts);
      err := None;
    }

    /** `set(int(t.task) for t in dns_tasks)`. */
    method ParseTaskPks(drained: seq<Task>) returns (pks: Option<set<int>>)
      ensures pks == TaskPks(drained, PyInt)
    {
      var acc: set<int> := {};
      var i := 0;
      while i < |drained|
        invariant 0 <= i <= |drained|
        invariant TaskPks(drained[..i], PyInt) == Some(acc)
      {
        var n := PyInt(drained[i].task);
        assert drained[..i + 1][..i] == drained[..i];
        if n.None? {
          TaskPksFailurePersists(drained, PyInt, i + 1);
          return None;
        }
        acc := acc + {n.value};
        i := i + 1;
      }
      assert drained[..i] == drained;
      pks := Some(acc);
    }

    /** Deleting the drained tasks, one after the other. */
    method DeleteTasks(drained: seq<Task>)
      modifies this`tasks
      ensures tasks == RemoveTasks(old(tasks), drained)
    {
      var i := 0;
      while i < |drained|
        invariant 0 <= i <= |drained|
        invariant RemoveTasks(tasks, drained[i..]) == RemoveTasks(old(tasks), drained)
      {
        assert drained[i..][0] == drained[i] && drained[i..][1..] == drained[i + 1..];
        tasks := RemoveTask(tasks, drained[i].id);
        i := i + 1;
      }
    }

    /** `build`: `now` and the e-mail are the stop file's, `arrivals` the
        tasks queued while the build runs. */
    method Build(inp: Inputs, cleanUp: bool, force: bool, arrivals: seq<Task>) returns (err: Option<string>)
      modifies this
      ensures BuildResult(State(), err) == BuildSpec(cfg, inp, old(State()), cleanUp, force, arrivals)
    {
      if stopFile.Some? {
        var contents := stopFile.value.contents;
        var last := stopFile.value.mtime;
        var msg := StopMessage(cfg, contents);
        if inp.now - last > cfg.stopFileEmailInterval {
          stopFile := Some(StopFile(contents, inp.now));
          mails := mails + [msg];
        }
        return Some(msg);
      }
      stage := map[];
      var dnsTasks := tasks;
      tasks := tasks + arrivals;
      if |dnsTasks| == 0 && !force {
        return None;
      }
      var pks := ParseTaskPks(dnsTasks);
      if pks.None? {
        return Some(TaskPkFailure);
      }
      var zoneStmts;
      zoneStmts, err := BuildZoneFiles(inp, pks.value);
      if err.Some? {
        return;
      }
      err := BuildConfigFiles(inp, zoneStmts);
      if err.Some? {
        return;
      }
      if cleanUp {
        DeleteTasks(dnsTasks);
      }
    }
  }
}
