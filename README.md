# A verified model of cyder's DNS build

This project is a Dafny model of the DNS build of cyder, Oregon State
University's DNS and DHCP management system. It also models the validators,
glue rules and helpers that feed the build, and proves properties of them.

The model is organised in nine modules:

- `Builder` (builder.dfy): `DNSBuilder` of cyder/cydns/cybind/builder.py.
  It covers where a zone's files go, when a zone is rebuilt and at which
  serial, which zone statements each view's BIND configuration gets, and
  the run-level rules of `build`: the stop file, the task queue, the no-op
  exit and the clean-up.
  - The builder is a class whose fields are the SOA table, the task queue,
    the staging directory, the commands run, the stop file and the e-mails
    sent.
  - Its methods are proved equal to specification functions (`ZoneLoop`,
    `ConfigLoop`, `BuildSpec`). The lemmas about those functions state what
    the code promises.
- `Validation` (validation.dfy): the label, host name, domain name, fqdn,
  reverse name and numeric range validators of cyder/cydns/validation.py.
  Each returns a `Verdict`, and every exception is a distinct `Error`.
- `Nameserver` (nameserver.dfy): `needs_glue`, the glue label and fqdn
  derived in `clean`, `check_no_ns_soa_condition`, and the two glue fields
  of a nameserver record as a class.
- `NetworkUtils` (network.dfy): `calc_networks` and `calc_parent` of
  core/network/utils.py.
- `BaseUtils` (base_utils.dfy): `dict_merge`, `qd_to_py_dict`,
  `model_to_post`, `set_attrs` and `run_command` of cyder/base/utils.py.
- `Eav` (eav.dfy): the text form of an entity-attribute-value row.
- `DhcpMigrate` (dhcp_migrate.dfy): the pure helpers of the Maintain
  migration, and its memo table as a class.
- `Strings` (strings.dfy) and `Numbers` (numbers.dfy): the Python string
  built-ins the code relies on, and powers of two.
- `Wrappers` (wrappers.dfy): `Option` and `Result`.

Some things the code reads are inputs of the model:

- the view table;
- the zone renderer `build_zone_data`;
- `get_serial` of a published file;
- `shell_out`, whose return code decides whether named-checkzone and
  named-checkconf pass;
- the clock and `is_hex_byte_sequence`;
- the Maintain tables the migration reads.

The code differs from its own documentation in three places, and the model
follows the code:

- `calc_target` files reverse zones ending in "ipv6" under
  "reverse/in-addr.arpa/", not under the "reverse/in-addr.ipv6/" its
  docstring names.
- The serial written to the database on the path of a new zone is the
  clock's time plus one, like every other rebuild.
- `validate_first_label` does not pass on the `valid_chars` it documents;
  see "## Findings".

## Model

| member | source | states |
|---|---|---|
| Builder.CalcTarget | cyder/cydns/cybind/builder.py:157-191 | `calc_target`. Its meaning is stated by `CalcTargetForward`, `CalcTargetReverse` and `ForwardTargetStart`. |
| Builder.CalcTargetForward | cyder/cydns/cybind/builder.py:188-191 | The directory of a forward zone ends in '/'. Splitting it on '/', reversing and joining with '.' gives the zone name back, so its labels are the zone's labels in reverse order. |
| Builder.CalcTargetExample | cyder/cydns/cybind/builder.py:188-191 | "a.b.com" is filed under "com/b/a/". |
| Builder.CalcTargetReverse | cyder/cydns/cybind/builder.py:180-187 | A reverse zone has a directory iff its name ends in "ipv6" or "arpa". That directory is "reverse/in-addr.arpa/" in both cases; any other reverse name raises. |
| Builder.GetFileMeta | cyder/cydns/cybind/builder.py:297-327 | `get_file_meta`. Its paths are stated by `FileMetaPaths`. |
| Builder.FileMetaPaths | cyder/cydns/cybind/builder.py:297-327 | For a plain zone name and plain prefixes, `fname` is "<zone>.<view>" and `rel_fname` is the zone's directory followed by `fname`. `prod_fname` and `bind_fname` are the production directory and the BIND prefix, a '/', then `rel_fname`. |
| Builder.ForwardTargetStart | cyder/cydns/cybind/builder.py:188-191 | The directory of a plain forward zone does not begin with '/', so `os.path.join` appends to it rather than replacing it. |
| Builder.VerifyPreviousBuild | cyder/cydns/cybind/builder.py:269-295 | The previous build is bad iff the published serial is not all digits or differs from the database serial. A new serial is returned exactly when it is bad. |
| Builder.NewZoneStartsNow | cyder/cydns/cybind/builder.py:272-274 | A file without a numeric serial gives (bad, the time of the run). |
| Builder.NewSerialIsHighest | cyder/cydns/cybind/builder.py:281-293 | For a numeric published serial, a bad build's new serial is one of the published and database serials, and at least both of them. |
| Builder.RenderZoneStmt | cyder/cydns/cybind/builder.py:255-267 | `render_zone_stmt`. The statement it renders is stated by `ZoneStmtFormats`. |
| Builder.ZoneStatement | cyder/cydns/cybind/builder.py:255-267 | The statement once `{ztype}` is filled in. Its content is stated by `ZoneStmtFormats`. |
| Builder.ZoneStmtFormats | cyder/cydns/cybind/builder.py:255-267 | With brace-free names, filling `{ztype}` into the rendered statement gives the BIND statement. It has single braces, the zone type, and the BIND file name with ".signed" exactly for signed zones. |
| Builder.FormatJoin | cyder/cydns/cybind/builder.py:462 | Formatting statements joined by newlines is joining the statements formatted one by one. |
| Builder.ConfigText | cyder/cydns/cybind/builder.py:460-464 | A view's configuration text is its zone statements, each with the zone type filled in, joined by newlines. |
| Builder.FormatTitle | cyder/cydns/cybind/builder.py:131-132 | `format_title`. Its shape is stated by `FormatTitleWidth`. |
| Builder.FormatTitleWidth | cyder/cydns/cybind/builder.py:131-132 | The title sits between two equal runs of '=' of length (30 - len)/2, one space on each side. Titles of 30 characters or fewer fill 31 or 32 columns; longer titles get no '='. |
| Builder.ShellError | cyder/cydns/cybind/builder.py:97-110 | A command run through the builder raises iff `shell_out` returns a nonzero code. |
| Builder.SurveyView | cyder/cydns/cybind/builder.py:371-402 | One pass of the view loop. The loop is described by `SurveyViews`, `SurveyCandidates`, `SurveyForce` and the `SurveySerial` lemmas. |
| Builder.SurveyViews | cyder/cydns/cybind/builder.py:371-402 | Every candidate the view loop holds was there before or belongs to a view of the table. |
| Builder.SurveyCandidates | cyder/cydns/cybind/builder.py:371-402 | The view loop raises iff some view has data and the zone has no directory. Otherwise it keeps its earlier candidates and adds one per view with data, in view-table order, holding that view's data and file names. |
| Builder.SurveyForce | cyder/cydns/cybind/builder.py:392-398 | After the view loop the zone is forced iff it was forced before or some view with data has a missing or differing published serial. |
| Builder.SurveySerialKept | cyder/cydns/cybind/builder.py:396-397 | When no view with data is stale, the in-memory serial stays the database's. |
| Builder.SurveySerialCovers | cyder/cydns/cybind/builder.py:396-397 | When every view with data has a numeric published serial, the in-memory serial ends at least at the database serial and at every published one. |
| Builder.EmitView | cyder/cydns/cybind/builder.py:420-453 | One view leaves the SOA table alone, stages nothing unless the zone is rebuilt, and gives its view a statement list. |
| Builder.EmitViews | cyder/cydns/cybind/builder.py:420-453 | The emission loop leaves the SOA table alone, stages nothing for a zone that is not rebuilt, and gives statements only to views with data. What it emits is stated by `EmitStatements`, `EmitStaged` and `EmitCommands`. |
| Builder.EmitStatementKeys | cyder/cydns/cybind/builder.py:420-426 | After a zone's emission, the views holding statements are those that held some before plus the views with data. |
| Builder.EmitStatements | cyder/cydns/cybind/builder.py:420-426 | Every view with data gets exactly one more statement, in candidate order, and no other view's list changes. This holds whether or not the zone is rebuilt. |
| Builder.EmitViewStaged | cyder/cydns/cybind/builder.py:429-439 | A rebuilt view that gets through has staged its data with the serial plus one filled in, at its staging path, and nothing else. |
| Builder.EmitViewCommands | cyder/cydns/cybind/builder.py:429-453 | A view that gets through ran exactly one named-checkzone, which passed, on the staged file when rebuilt and else on the production file. With `stage_only` and no rebuild it ran nothing. |
| Builder.EmitCommands | cyder/cydns/cybind/builder.py:420-453 | A zone that gets through its views appended exactly one named-checkzone per view with data, in order, on the checked files (none when not rebuilt and `stage_only`). |
| Builder.EmitChecksPassed | cyder/cydns/cybind/builder.py:420-453 | Every one of those checks passed. |
| Builder.EmitStaged | cyder/cydns/cybind/builder.py:429-439 | A rebuilt zone that gets through has staged, for every view with data, that view's data with `serial` set to the serial plus one, given candidates with distinct staging paths. |
| Builder.StagePathInjective | cyder/cydns/cybind/builder.py:238-252 | Two views of one zone share a staging path only if they are the same view: `os.path.join(stage_dir, rel_fname)` over "<dir>/<zone>.<view>" ends in the view's name. |
| Builder.CandidatePathsDistinct | cyder/cydns/cybind/builder.py:297-327 | Well-built candidates of distinct views have distinct staging paths, which discharges the premise of `EmitStaged`. |
| Builder.DataViewsDistinct | cyder/cydns/cybind/builder.py:372-403 | A view table without a repeated name yields views with data without a repeated name. |
| Builder.ZoneSurveyCandidates | cyder/cydns/cybind/builder.py:372-403 | A zone's survey has one candidate per view with data, in view-table order, each carrying that view's data and file names. |
| Builder.RebuiltCandidateStaged | cyder/cydns/cybind/builder.py:410-439 | For a rebuilt zone that gets through, each candidate's staged file is its data rendered with the serial persisted by the update at line 413. |
| Builder.ZoneStagedAtPersistedSerial | cyder/cydns/cybind/builder.py:410-439 | For a rebuilt zone that gets through, every view with data is staged at `os.path.join(stage_dir, rel_fname)` as its data formatted with the serial the SOA row now holds, when view names are distinct. A zone that is not rebuilt stages nothing. |
| Builder.NewZoneSerialRegresses | cyder/cydns/cybind/builder.py:269-274 | A zone whose only view has no numeric published serial persists `now + 1`, so a database serial above `now + 1` goes down. |
| Builder.EmitUnstaged | cyder/cydns/cybind/builder.py:238-250 | A rebuilt zone's emission changes no staged file other than its views' zone files. |
| Builder.Cleared | cyder/cydns/cybind/builder.py:355-358 | Clearing the `dirty` flag keeps the number of SOAs; the value it leaves is stated by `ProcessZoneFrame` and `ZoneLoopCleans`. |
| Builder.Bumped | cyder/cydns/cybind/builder.py:410-413 | Persisting the new serial keeps the number of SOAs; the serial it writes is stated by `ZoneRebuildRule` and `SerialBumpedFirst`. |
| Builder.ProcessZone | cyder/cydns/cybind/builder.py:336-453 | One zone's processing keeps the number of SOAs. What it computes is stated by `ProcessZoneFrame`, `ZoneRebuildRule`, `SerialBumpedFirst` and `StableZone`. |
| Builder.ProcessZoneFrame | cyder/cydns/cybind/builder.py:355-415 | One zone's processing changes only that zone's SOA, and only in its `dirty` flag and serial. A zone that gets through is left clean. |
| Builder.ProcessZoneViews | cyder/cydns/cybind/builder.py:420-426 | Only views of the view table receive the zone's statements. |
| Builder.ZoneRebuildRule | cyder/cydns/cybind/builder.py:355-415 | A zone that gets through is rebuilt iff a drained task names it, it is dirty, or a view with data is stale. Its SOA ends clean, with the in-memory serial plus one when rebuilt and the old serial otherwise. |
| Builder.SerialBumpedFirst | cyder/cydns/cybind/builder.py:410-415 | A rebuilt zone's SOA holds the in-memory serial plus one even when a later named-checkzone fails: the update comes before the checks. |
| Builder.StableZone | cyder/cydns/cybind/builder.py:440-453 | A zone no task names, that is not dirty and whose published serials match changes no SOA and stages nothing. If it gets through, it only ran named-checkzone on the production files. |
| Builder.ZoneLoop | cyder/cydns/cybind/builder.py:332-458 | The zone loop keeps the number of SOAs. What it computes is stated by `ZoneLoopKeeps`, `ZoneLoopCleans`, `ZoneLoopViews` and `FaultReschedules`. |
| Builder.ZoneLoopKeeps | cyder/cydns/cybind/builder.py:332-456 | The loop from index i on leaves the SOAs before i alone. |
| Builder.ZoneLoopViews | cyder/cydns/cybind/builder.py:332-458 | Only views of the view table receive zone statements. |
| Builder.FaultReschedules | cyder/cydns/cybind/builder.py:454-456 | When a zone raises, the loop stops at a zone with a root domain. That zone is marked dirty with its pk unchanged, and the SOAs after it are untouched. |
| Builder.ZoneLoopCleans | cyder/cydns/cybind/builder.py:355-358 | A loop that gets through leaves each zone with a root domain clean and changes it in nothing but `dirty` and the serial. It leaves each zone without a root domain as it was. |
| Builder.ViewConfig | cyder/cydns/cybind/builder.py:460-464 | A view's configuration step leaves the SOA table alone. What it stages is stated through `ConfigWritten` and `ConfigKeeps`. |
| Builder.ConfigLoop | cyder/cydns/cybind/builder.py:466-477 | The configuration step leaves the SOA table alone. What it stages is stated by `ConfigWritten` and `ConfigKeeps`. |
| Builder.ConfigPathInjective | cyder/cydns/cybind/builder.py:225-236 | Different views have different "master" configuration files. |
| Builder.ConfigKeeps | cyder/cydns/cybind/builder.py:466-477 | The configuration step leaves every staged file alone that is not the configuration of a view it writes. |
| Builder.ConfigWritten | cyder/cydns/cybind/builder.py:466-477 | A configuration step that gets through has staged, for every view with statements, those statements joined by newlines with "master" filled in. |
| Builder.TaskPks | cyder/cydns/cybind/builder.py:512 | `set(int(t.task) for t in tasks)`. Its meaning is stated by `TaskPksDefined`, `TaskPksMeaning` and `TaskPksFailurePersists`. |
| Builder.TaskPksDefined | cyder/cydns/cybind/builder.py:512 | The set of pks exists iff every task converts to an integer. |
| Builder.TaskPksMeaning | cyder/cydns/cybind/builder.py:512 | A number is in the set iff some task converts to it. |
| Builder.TaskPksFailurePersists | cyder/cydns/cybind/builder.py:512 | One task that is not a number fails the whole set, whatever follows. |
| Builder.RemoveTasks | cyder/cydns/cybind/builder.py:517-520 | Deleting the drained tasks. Its result is stated by `RemoveTasksMeaning`. |
| Builder.RemoveTask | cyder/cydns/cybind/builder.py:520 | Deleting a task keeps exactly the rows with other ids. |
| Builder.RemoveTasksMeaning | cyder/cydns/cybind/builder.py:517-520 | Deleting the drained tasks keeps exactly the rows whose id no drained task has. |
| Builder.BuildSpec | cyder/cydns/cybind/builder.py:479-525 | `build`. Its run-level promises are stated by `StopFileCancels`, `NothingToDo`, `TasksAfterBuild`, `BuildCleansZones` and `BuildWritesConfigs`. |
| Builder.BuildFiles | cyder/cydns/cybind/builder.py:513-515 | The zone and configuration files change only the SOA table, the staging directory and the commands run. What they leave there is stated by `BuildCleansZones` and `BuildWritesConfigs`. |
| Builder.StopFileCancels | cyder/cydns/cybind/builder.py:480-499 | A stop file cancels the build with its message before any work, changing no SOA, task, staged file or command. It mails and resets the mtime to now iff now - mtime exceeds the interval. |
| Builder.NothingToDo | cyder/cydns/cybind/builder.py:503-509 | With no task and no `force` the build succeeds having only emptied the staging directory. |
| Builder.TasksAfterBuild | cyder/cydns/cybind/builder.py:512-520 | After a successful build with `clean_up`, a task remains iff its id is not among the tasks drained at the start, so arrivals survive. Otherwise the queue is the old one plus the arrivals. |
| Builder.BuildCleansZones | cyder/cydns/cybind/builder.py:512-515 | A successful build with work to do leaves every zone that has a root domain clean. |
| Builder.BuildWritesConfigs | cyder/cydns/cybind/builder.py:512-515 | A successful build with work to do had numeric tasks. It has staged, for every view with statements, the configuration made from them. |
| Builder.Push | cyder/cydns/cybind/builder.py:527-537 | `push`. Its order of steps is stated by `PushOrder`. |
| Builder.PushOrder | cyder/cydns/cybind/builder.py:527-537 | The repository is reset and pulled first. It is cleaned iff the copy fails. The commit "Update config file", with the sanity-check flag, comes last and only after a successful copy. The push succeeds iff all three steps do. |
| Builder.DnsBuilder.constructor | cyder/cydns/cybind/builder.py:41-58 | The builder starts with the given configuration and world. |
| Builder.DnsBuilder.RunCheckzone | cyder/cydns/cybind/builder.py:206-217 | One named-checkzone command is appended, and it raises iff the command's return code is nonzero. |
| Builder.DnsBuilder.RunCheckconf | cyder/cydns/cybind/builder.py:219-223 | One named-checkconf command is appended, and it raises iff the command's return code is nonzero. |
| Builder.DnsBuilder.BuildZone | cyder/cydns/cybind/builder.py:238-250 | The zone text is staged at the staging path, then checked there. |
| Builder.DnsBuilder.WriteStageConfig | cyder/cydns/cybind/builder.py:225-236 | The text is staged at "<stage>/config/<name>" and that path is returned. |
| Builder.DnsBuilder.BuildViewConfig | cyder/cydns/cybind/builder.py:460-464 | Its new state and error are those of `ViewConfig`. |
| Builder.DnsBuilder.BuildConfigFiles | cyder/cydns/cybind/builder.py:466-477 | Its new state and error are those of `ConfigLoop` over the view table. |
| Builder.DnsBuilder.SurveyZone | cyder/cydns/cybind/builder.py:371-402 | The view loop's result is `SurveyViews` from the SOA's serial and force flag. |
| Builder.DnsBuilder.EmitOne | cyder/cydns/cybind/builder.py:420-453 | One pass of the emission loop has the new state of `EmitView`. |
| Builder.DnsBuilder.EmitZone | cyder/cydns/cybind/builder.py:420-453 | The emission loop has the new state of `EmitViews`. |
| Builder.DnsBuilder.ProcessOne | cyder/cydns/cybind/builder.py:336-453 | One zone's processing has the new state of `ProcessZone`. |
| Builder.DnsBuilder.ZoneStep | cyder/cydns/cybind/builder.py:332-456 | One turn of the zone loop: when it raises, its state is the loop's final one; otherwise the loop from the next index gives the same result. |
| Builder.DnsBuilder.BuildZoneFiles | cyder/cydns/cybind/builder.py:329-458 | Its statements, error and new state are those of `ZoneLoop` from the first SOA. |
| Builder.DnsBuilder.ParseTaskPks | cyder/cydns/cybind/builder.py:512 | The loop computes `TaskPks` of the drained tasks under `int()`. |
| Builder.DnsBuilder.DeleteTasks | cyder/cydns/cybind/builder.py:517-520 | The queue becomes the old queue without the drained tasks' rows. |
| Builder.DnsBuilder.Build | cyder/cydns/cybind/builder.py:479-525 | Its new state and error are those of `BuildSpec`, which the lemmas above describe. |
| Validation.LabelCheck | cyder/cydns/validation.py:164-209 | `validate_label`. Its meaning is stated by `LabelCheckValid`. |
| Validation.ScanLabelValid | cyder/cydns/validation.py:196-203 | The character loop from position i passes iff no later character is '.' and every later character is allowed. |
| Validation.LabelCheckValid | cyder/cydns/validation.py:187-207 | A label passes iff it has no '.', all its characters are allowed (by default letters, digits, '-' and '_'), and it has at most 63 characters. |
| Validation.ValidateLabel | cyder/cydns/validation.py:164-209 | The character loop computes `LabelCheck`, errors included. |
| Validation.FirstLabelCheck | cyder/cydns/validation.py:144-154 | `validate_first_label` as written. Its meaning is stated by `FirstLabelWildcard` and `FirstLabelIgnoresValidChars`. |
| Validation.FirstLabelWildcard | cyder/cydns/validation.py:144-154 | "*" alone passes, "*x" is judged as `validate_label(x)`, and any other label as itself. |
| Validation.FirstLabelIgnoresValidChars | cyder/cydns/validation.py:144-154 | As written, the caller's character set is ignored: "a_b" fails `validate_label` under { 'a', 'b' } yet passes `validate_first_label` with it. |
| Validation.FirstLabelForwardingValid | cyder/cydns/validation.py:144-154 | With `valid_chars` passed on, a first label passes iff it is "*", or it is valid under the caller's characters once one leading '*' is dropped. |
| Validation.HostnameLabelRejectsUnderscore | cyder/cydns/validation.py:157-161 | A host name label containing '_' is refused. |
| Validation.DomainNameCheck | cyder/cydns/validation.py:212-233 | `validate_domain_name`. Its meaning is stated by `DomainNameValid`. |
| Validation.DomainNameValid | cyder/cydns/validation.py:212-233 | A domain name passes iff it has at most 253 characters and every label, after one leading '_' is dropped, is non-empty and valid. |
| Validation.FqdnCheck | cyder/cydns/validation.py:236-291 | `validate_fqdn`. Its meaning is stated by `FqdnValid` and the wildcard lemmas. |
| Validation.ValidateFqdn | cyder/cydns/validation.py:236-291 | The method, with its reassignments of `fqdn`, computes `FqdnCheck`. |
| Validation.CheckFqdnLabels | cyder/cydns/validation.py:287-291 | The label loop returns the first failing label's error. |
| Validation.FqdnValid | cyder/cydns/validation.py:273-291 | An fqdn passes iff its last label is not all digits, it is non-empty, and something is left after one '*' and then one '.' are dropped. Everything left must split into non-empty valid labels. |
| Validation.FqdnBareWildcards | cyder/cydns/validation.py:281-291 | "*" and "*." are refused: the first raises on the empty rest, the second on an empty label. |
| Validation.FqdnWildcardDot | cyder/cydns/validation.py:281-291 | "*.x" is judged by the labels of "x". |
| Validation.FqdnWildcardNoDot | cyder/cydns/validation.py:281-291 | "*x", with no '.' after the star, is judged by the labels of "x" too. |
| Validation.NibbleCheckMeaning | cyder/cydns/validation.py:318-328 | An IPv4 piece passes iff `int()` reads it as 0..255. An IPv6 piece passes iff it occurs as a substring of "0123456789AaBbCcDdEeFf". |
| Validation.StripReverseSuffixes | cyder/cydns/validation.py:302-307 | The suffix loop, reassigning the name, computes `StripSuffixes` over in-addr.arpa, ip6.arpa and arpa. |
| Validation.CheckReversePieces | cyder/cydns/validation.py:318-328 | The piece loop returns the first failing piece's error. |
| Validation.ReverseNameCheck | cyder/cydns/validation.py:294-328 | `validate_reverse_name`. Its meaning is stated by `ReverseIpv4Valid`, `ReverseIpv6Valid` and `UncheckedIpTypeUnbounded`. |
| Validation.ValidateReverseName | cyder/cydns/validation.py:294-328 | The method computes `ReverseNameCheck`. |
| Validation.ReverseIpv4Valid | cyder/cydns/validation.py:311-328 | Once the suffixes are gone, an IPv4 reverse name passes iff it has at most 4 pieces, each an integer in 0..255. |
| Validation.ReverseIpv6Valid | cyder/cydns/validation.py:314-323 | Once the suffixes are gone, an IPv6 reverse name passes iff it has at most 32 pieces, each found in the nibble alphabet. |
| Validation.NibbleIsSubstringTest | cyder/cydns/validation.py:320 | `find` is a substring test: "Aa" passes as a nibble and "ab" does not. |
| Validation.TtlCheck | cyder/cydns/validation.py:337-351 | `validate_ttl`. Its bound, with those of the other numeric validators, is stated by `RangesAreFieldWidths`. |
| Validation.RangesAreFieldWidths | cyder/cydns/validation.py:331-428 | A TTL passes iff it is in 0..2^31-1. SRV port, priority and weight and MX priority pass iff in 0..2^16-1. The SOA minimum passes iff it is below 2^32, negatives included. |
| Validation.SrvRules | cyder/cydns/validation.py:386-413 | An SRV label passes iff it is empty or '_' followed by a valid label. An SRV target passes iff it is empty or a valid fqdn. |
| Validation.SrvNameCheck | cyder/cydns/validation.py:397-406 | `validate_srv_name`. Its meaning is stated by `SrvNameRules`. |
| Validation.SrvNameRules | cyder/cydns/validation.py:397-406 | An SRV name is refused when empty, when it does not start with '_', and when it is "_" alone. "_x" is judged as the fqdn "x". |
| Validation.IpTypeCheck | cyder/cydns/validation.py:435-440 | `validate_ip_type`. What its verdict guarantees to `validate_reverse_name` is stated by `IpTypeBoundsReverseName` and `UncheckedIpTypeUnbounded`. |
| Validation.IpTypeBoundsReverseName | cyder/cydns/validation.py:311-316 | For an ip type `validate_ip_type` accepts, an accepted reverse name has at most 4 pieces for "4" and at most 32 for "6". |
| Validation.UncheckedIpTypeUnbounded | cyder/cydns/validation.py:311-328 | Every ip type other than "4" and "6" is refused by `validate_ip_type`. `validate_reverse_name` judges such names as IPv4 octets with no bound on their number. |
| Validation.MasterDelegationCheck | cyder/cydns/validation.py:29-47 | `check_for_master_delegation`. The invariant it keeps is stated by `AddDomainKeeps` and `DelegateKeeps`. |
| Validation.AddDomain | cyder/cydns/validation.py:29-47 | Creating a domain is refused iff its master is delegated. Otherwise the new row is appended. |
| Validation.Delegate | cyder/cydns/validation.py:29-36 | Delegating a domain keeps the table size and marks the domain delegated. |
| Validation.AddDomainKeeps | cyder/cydns/validation.py:29-47 | Creation guarded by the check keeps the table invariant: no subdomain of a delegated domain was created after the delegation, and every delegation point lies within the table's history. |
| Validation.DelegateKeeps | cyder/cydns/validation.py:29-36 | Delegation keeps the same invariant: every existing subdomain predates the delegation. |
| Validation.FirstFewestLabels | cyder/cydns/validation.py:113-116 | The stable sort by label count puts first the first name with the fewest labels. |
| Validation.FindRootDomain | cyder/cydns/validation.py:90-118 | The result is None iff there is no SOA or no domain. Otherwise it is a zone domain with no more labels than any other. |
| Nameserver.NeedsGlue | cyder/cydns/nameserver/models.py:224-247 | `needs_glue`. Its meaning is stated by `NeedsGlueAtApex`, `NeedsGlueForChild`, `NoGlueOutsideDomain` and `NeedsGlueInsideLabel`. |
| Nameserver.NeedsGlueInsideLabel | cyder/cydns/nameserver/models.py:236-247 | `replace` removes ".<domain>" anywhere in the server: "<lab>.<domain><tail>" with a dot-free tail needs glue when "<lab><tail>" is a valid label. |
| Nameserver.NeedsGlueOutsideDomainExample | cyder/cydns/nameserver/models.py:236-247 | "ns1.foo.community" does not end in ".foo.com", yet it needs glue in "foo.com". |
| Nameserver.NeedsGlueSuffixRule | cyder/cydns/nameserver/models.py:224-247 | Under the corrected rule, a server other than the apex needs glue only if it is exactly one valid label followed by ".<domain>". Every server the corrected rule gives glue also gets glue as written. |
| Nameserver.NeedsGlueSuffixOutsideExample | cyder/cydns/nameserver/models.py:236-247 | Under the corrected rule, "ns1.foo.community" needs no glue in "foo.com". |
| Nameserver.NeedsGlueAtApex | cyder/cydns/nameserver/models.py:228-233 | A server named like its domain needs glue iff the domain is delegated. |
| Nameserver.NeedsGlueForChild | cyder/cydns/nameserver/models.py:236-247 | A server that is one valid label directly under its domain needs glue. |
| Nameserver.NoGlueOutsideDomain | cyder/cydns/nameserver/models.py:236-241 | A server in which ".<domain>" does not occur does not need glue unless it is the domain itself. |
| Nameserver.GlueLabel | cyder/cydns/nameserver/models.py:168-172 | The glue label derived in `clean`. Its value is stated by `GlueNamesAtApex`, `GlueNamesForChild` and `GlueLabelHasDot`. |
| Nameserver.GlueFqdn | cyder/cydns/nameserver/models.py:173 | The glue fqdn derived in `clean`. Its value is stated by `GlueNamesAtApex` and `GlueNamesForChild`. |
| Nameserver.GlueNamesAtApex | cyder/cydns/nameserver/models.py:168-173 | At the apex the glue label is "" and the glue fqdn is the domain's name. |
| Nameserver.GlueNamesForChild | cyder/cydns/nameserver/models.py:168-173 | One label below the domain, the glue label is that label and the glue fqdn is the server's name. |
| Nameserver.GlueLabelHasDot | cyder/cydns/nameserver/models.py:168-172 | When glue is needed below the apex the server contains a '.', so the label slice never takes its `find` of -1. |
| Nameserver.NormalServerIdentity | cyder/cydns/nameserver/models.py:228 | A server name already in lower case, without a '.' at either end, is unchanged by `strip('.').lower()`. |
| Nameserver.ReplaceChangedHasDot | cyder/cydns/nameserver/models.py:236-240 | When removing ".<domain>" changes the server name, that name contains a '.'. |
| Nameserver.CheckNoNsSoaCondition | cyder/cydns/nameserver/models.py:213-222 | `check_no_ns_soa_condition`. What it protects is stated by `DeletionKeepsZoneServed`. |
| Nameserver.DeleteNameserver | cyder/cydns/nameserver/models.py:139-144 | A deletion is refused iff `check_no_ns_soa_condition` raises. An allowed one leaves one nameserver fewer and deletes the glue `get_glue()` returns, if any. The zone keeps other records only if it had some and, when a glue record went, some remain besides it. |
| Nameserver.DeletionKeepsZoneServed | cyder/cydns/nameserver/models.py:139-222 | A deletion is refused exactly when it would leave a zone root that has other records with no nameserver. So every allowed deletion leaves the zone served, with or without glue going too. |
| Nameserver.NameserverRecord.GetGlue | cyder/cydns/nameserver/models.py:105-111 | The address record if set, else the interface, else None. |
| Nameserver.NameserverRecord.SetGlue | cyder/cydns/nameserver/models.py:113-126 | An address record sets `addr_glue` and clears `intr_glue`, an interface does the opposite, and None clears both: at most one glue is then set. Anything else raises and changes nothing. |
| Nameserver.NameserverRecord.CleanGlue | cyder/cydns/nameserver/models.py:160-193 | Without need the glue is cleared. With need a matching glue is kept; otherwise the first address record, else the first interface, of the glue fqdn is taken, and with neither it raises. At most one glue stays set. |
| NetworkUtils.OverlapsIsIntersection | core/network/utils.py:11 | `overlaps` as the ipaddr library tests it is exactly intersection of the address ranges. |
| NetworkUtils.Eldars | core/network/utils.py:3-16 | The eldar list of `calc_networks`. Its members and order are stated by `CalcNetworksMembers`, `FilterMembers` and `FilterKeepsOrder`. |
| NetworkUtils.SubNetworks | core/network/utils.py:3-16 | The sub-network list of `calc_networks`. Its members and order are stated by `CalcNetworksMembers`, `FilterMembers` and `FilterKeepsOrder`. |
| NetworkUtils.CalcNetworks | core/network/utils.py:3-16 | The loop builds the eldar and sub-network lists of `Eldars` and `SubNetworks`. |
| NetworkUtils.CalcNetworksMembers | core/network/utils.py:7-15 | A network is an eldar iff it is another overlapping network whose prefix is not longer. It is a sub-network iff its prefix is longer. The lists are disjoint and never hold the network itself. |
| NetworkUtils.FilterMembers | core/network/utils.py:7-15 | The lists keep exactly the networks that pass their test. |
| NetworkUtils.FilterKeepsOrder | core/network/utils.py:7-15 | The lists follow the iteration order of the network table. |
| NetworkUtils.LastMostSpecific | core/network/utils.py:22 | Taking the head of the reversed stable sort picks the last eldar with the largest prefix length. |
| NetworkUtils.NestedWhenOverlapping | core/network/utils.py:11-15 | Two aligned blocks that overlap are nested, the shorter prefix outside. |
| NetworkUtils.CalcParent | core/network/utils.py:18-23 | `calc_parent`. Its meaning is stated by `CalcParentIsMostSpecific` and `LastMostSpecific`. |
| NetworkUtils.CalcParentIsMostSpecific | core/network/utils.py:18-23 | `calc_parent` is None iff there is no eldar. Otherwise it is an eldar with the largest prefix length. In a well-formed table every eldar encloses the network and the parent lies inside every eldar. |
| BaseUtils.DictMerge | cyder/base/utils.py:75-77 | `dict_merge`. Its meaning is stated by `DictMergeHas` and `DictMergeLastWins`. |
| BaseUtils.DictMergeHas | cyder/base/utils.py:75-77 | A key is in the merge iff it is in some input. |
| BaseUtils.DictMergeLastWins | cyder/base/utils.py:75-77 | A key's value comes from the last input that holds it. |
| BaseUtils.QdToPyDict | cyder/base/utils.py:156-161 | Every key is copied with its value. |
| BaseUtils.ModelToPost | cyder/base/utils.py:164-173 | The keys are those of the POST and the object. POST values are kept, and object fields fill only the keys the POST lacks: the merge of the object then the POST. |
| BaseUtils.AttributeHolder.SetAttrs | cyder/base/utils.py:70-72 | Exactly the given attributes get the given values; the others keep theirs. |
| BaseUtils.RunCommand | cyder/base/utils.py:45-67 | It raises iff the return code is nonzero and failures are not ignored, and otherwise returns `shell_out`'s result unchanged. The command is logged iff there is a command logger; the failure iff it raises and there is a failure logger, with the exception's text. |
| BaseUtils.FailureMessage | cyder/base/utils.py:53-60 | The exception text of `run_command`. Its shape is stated by the four `FailureMessage` lemmas. |
| BaseUtils.FailureMessageEnd | cyder/base/utils.py:53-60 | The failure message ends in exactly one newline. |
| BaseUtils.FailureMessageStdout | cyder/base/utils.py:56-57 | With output, the message goes on from its header to the "=== stdout ===" line. |
| BaseUtils.FailureMessageStderr | cyder/base/utils.py:58-59 | Without output but with error output, the message goes on from its header to the "=== stderr ===" line. |
| BaseUtils.FailureMessageBare | cyder/base/utils.py:53-60 | Without either, the message is the header with its trailing blank lines stripped and one newline added. |
| Eav.AddQuotes | cyder/base/eav/models.py:55-60 | The quoting decision of `__unicode__`. Its effect on the text is stated by `RenderQuoting`. |
| Eav.RenderQuoting | cyder/base/eav/models.py:48-65 | A 'text' value is always shown between double quotes. A 'string' value is shown bare iff it is a hex byte sequence. A value of any other type is always shown bare. |
| Eav.QuotingIsWrapping | cyder/base/eav/models.py:62 | Quoting adds one '"' on each side and changes nothing else. |
| Eav.Render | cyder/base/eav/models.py:48-65 | `EAVBase.__unicode__`. Its text is stated by `RenderSplits`, `RenderQuoting` and `RenderExample`. |
| Eav.RenderSplits | cyder/base/eav/models.py:48-65 | The text is "<name> = ", "option <name> " or "<name> " by attribute type, followed by the value, quoted or not. |
| Eav.RenderExample | cyder/base/eav/models.py:48-65 | A 'text' option "domain-name" with value foo renders as `option domain-name "foo"`. |
| DhcpMigrate.PopCount | cyder/management/commands/dhcp_migrate.py:50-55 | The number of 1 bits the shift loop of `calc_prefixlen` counts. Its value on netmasks is stated by `PopCountOfMask`. |
| DhcpMigrate.CalcPrefixlen | cyder/management/commands/dhcp_migrate.py:50-55 | The shift loop counts the 1 bits of the netmask. |
| DhcpMigrate.PopCountOfMask | cyder/management/commands/dhcp_migrate.py:50-55 | The 1 bits of a contiguous w-bit mask of prefix p number p. |
| DhcpMigrate.CalcPrefixlenOfNetmask | cyder/management/commands/dhcp_migrate.py:50-55 | For the IPv4 netmask 2^32 - 2^(32-p), `calc_prefixlen` returns p. |
| DhcpMigrate.CleanZoneName | cyder/management/commands/dhcp_migrate.py:66-70 | `clean_zone_name`. Its meaning is stated by `CleanZoneNameRemovesSpaces`. |
| DhcpMigrate.CleanZoneNameRemovesSpaces | cyder/management/commands/dhcp_migrate.py:66-70 | Cleaning removes every space and nothing else, and cleaning twice is cleaning once. |
| DhcpMigrate.RangeValidity | cyder/management/commands/dhcp_migrate.py:151-155 | A range is valid iff network < start <= end < broadcast. |
| DhcpMigrate.CreateRange | cyder/management/commands/dhcp_migrate.py:110-180 | The decisions of `create_range`. They are stated by `CreateRangeFlags`, `RangeValidity` and `AllowOfRange`. |
| DhcpMigrate.CreateRangeFlags | cyder/management/commands/dhcp_migrate.py:119-180 | A dynamic range without a default domain is ignored, and only it. A created range is reserved iff DHCP is off. Without a network DHCP is off and the allow is LEGACY; with one DHCP is on iff the range is enabled and valid. |
| DhcpMigrate.ChooseAllow | cyder/management/commands/dhcp_migrate.py:125-146 | The allow chain of `create_range`. Its effect on created ranges is stated by `AllowOfRange`. |
| DhcpMigrate.AllowOfRange | cyder/management/commands/dhcp_migrate.py:125-146 | A range created with a network gets ANY iff its start is listed. It gets KNOWN iff unlisted and known, and LEGACY_AND_VRF iff unlisted, unknown and one of the two special starts. A VRF is attached exactly with LEGACY_AND_VRF. Neither the allow nor the VRF depends on whether the range is enabled. |
| DhcpMigrate.NormalizeMac | cyder/management/commands/dhcp_migrate.py:332-333 | The MAC clean-up of `migrate_dynamic_hosts`. Its properties are stated by `HostRules`. |
| DhcpMigrate.HostEnabled | cyder/management/commands/dhcp_migrate.py:332-336 | Host enabling in `migrate_dynamic_hosts`. Its properties are stated by `HostRules`. |
| DhcpMigrate.HostRules | cyder/management/commands/dhcp_migrate.py:332-336 | Normalising a MAC twice is normalising it once. An enabled host has a 12-character MAC that is not all zeros and is kept as it was. Migrating a migrated host again changes nothing. |
| DhcpMigrate.NewLevel | cyder/management/commands/dhcp_migrate.py:426-431 | Levels 5, 25, 50 and 100 map to 0, 1, 2 and 2, and every other level raises. |
| DhcpMigrate.NewLevelMonotone | cyder/management/commands/dhcp_migrate.py:426 | A higher Maintain level never gives a lower cyder level. |
| DhcpMigrate.ReverseName | cyder/management/commands/dhcp_migrate.py:483-489 | The reverse name built from the first k octets. Its validity is stated by `MigratedReverseNamesValid`. |
| DhcpMigrate.MigrateZoneReverse | cyder/management/commands/dhcp_migrate.py:483-491 | For a.b.c.d the loop creates "a.in-addr.arpa" up to "d.c.b.a.in-addr.arpa", in that order, and adds the last to the container. |
| DhcpMigrate.OctetTexts | cyder/management/commands/dhcp_migrate.py:484 | The dotted quad splits into its four octets in decimal. |
| DhcpMigrate.SplitOfIp | cyder/management/commands/dhcp_migrate.py:484 | `long2ip(ip).split(".")` is the four octets as decimal text. |
| DhcpMigrate.MigratedReverseNamesValid | cyder/management/commands/dhcp_migrate.py:483-489 | Every name the migration creates passes `validate_reverse_name` for ip type '4'. |
| DhcpMigrate.RowIndex | cyder/management/commands/dhcp_migrate.py:556-557 | The table `maintain_get_cached` builds. Its meaning is stated by `RowIndexHas` and `RowIndexLastWins`. |
| DhcpMigrate.RowIndexHas | cyder/management/commands/dhcp_migrate.py:556-557 | An id is in the cached table iff some row has it. |
| DhcpMigrate.RowIndexLastWins | cyder/management/commands/dhcp_migrate.py:556-557 | An id maps to the values of the last row having it. |
| DhcpMigrate.AllSome | cyder/management/commands/dhcp_migrate.py:559-560 | A cached row is returned value for value. |
| DhcpMigrate.MaintainCache.GetCached | cyder/management/commands/dhcp_migrate.py:548-562 | Each (table, columns) is queried at most once and then cached. A known id gives its row; an unknown id gives one None per column. |
| Strings.Split | cyder/cydns/validation.py:224 | A split has at least one piece and no piece holds the separator. |
| Strings.JoinSplit | cyder/cydns/cybind/builder.py:189 | Splitting and joining with the same separator gives the text back. |
| Strings.SplitJoin | cyder/cydns/cybind/builder.py:189 | Joining pieces that do not contain the separator, then splitting, gives the pieces back. |
| Strings.LStrip | cyder/cydns/nameserver/models.py:168 | `lstrip` keeps a suffix, drops only listed characters, and does not start with a listed character. |
| Strings.NatToStringValue | cyder/management/commands/dhcp_migrate.py:484 | Reading back the decimal text of a number gives the number. |
| Strings.RStrip | cyder/cydns/validation.py:307 | `rstrip` keeps a prefix, drops only listed characters, and keeps no listed character at the end. |
| Strings.Lower | cyder/cydns/nameserver/models.py:228 | `lower` keeps the length and lowers each ASCII character. |
| Strings.Find | cyder/cydns/validation.py:320 | `find` gives the first index where the text occurs, or -1 iff it occurs nowhere. |
| Strings.SliceTo | cyder/cydns/nameserver/models.py:172 | `s[:k]` counts a negative k from the end. |
| Strings.ReplaceAllAbsent | cyder/cydns/nameserver/models.py:236 | `replace` changes nothing when the pattern does not occur. |
| Strings.PyIntOfDigits | cyder/cydns/cybind/builder.py:512 | `int()` reads a digit string as its decimal value. |
| Strings.FormatAppend | cyder/cydns/cybind/builder.py:462 | `format` works piece by piece on a concatenation. |

## Left out

- I/O is not modelled. `shell_out` and named-checkzone/named-checkconf
  are the `shellOut` input, judged by its return code. Files written to
  staging are entries of the `stage` map. `remove_dir_contents` of the
  staging directory empties that map.
- `push` is modelled only as the order of its repository steps. Each step
  succeeds or fails as an input. `GitRepo` and `copy_tree` are not part of
  this model.
- `MutexMixin` locking, logging, syslog, `status` and `log_*` are left out.
  `fail_mail` is the list of mails sent.
- `time.time()` is the `now` input, fixed for one run.
- `build_zone_data`, `get_serial` and `is_hex_byte_sequence` are not part
  of this model. They are function inputs.
- Tasks that arrive during a build are an input appended after the drain.
  Database isolation and concurrent writers are not modelled further.
- `build_config_files` walks `zone_stmts.iteritems()`, whose order Python 2
  leaves unspecified. The model visits the views in view-table order. No
  property proved depends on that order, because every view writes its own
  file.
- `soa.save()`, `schedule_rebuild` and the `SOA.objects...update` call are
  assignments to the SOA table. `schedule_rebuild` is not part of this
  model and is taken to mark the SOA dirty.
- Serials are compared as plain integers (`max`, `!=`), as the code does,
  without the serial arithmetic of RFC 1982.
- `Builder.TaskPksDefined`, `Builder.TaskPksMeaning`: stated for any
  conversion function, not only for Python's `int()`, which the build
  passes.
- `int()` is modelled on ASCII text: optional surrounding whitespace, an
  optional sign and ASCII digits. Unicode digits are not modelled.
- `lower()` is modelled on ASCII letters only.
- `IsDigits` accepts ASCII digits only. Python 2's `unicode.isdigit()`
  also accepts other Unicode digits, so a published serial written in
  Arabic-Indic digits (U+0660 to U+0669) is a number to the code and not
  to the model.
- `Format` accepts only "{{", "}}" and "{serial}". It refuses the other
  replacement fields `str.format` would fill, such as "{serial!s}",
  "{serial:d}" and "{serial.real}". Such zone data fails to render in the
  model and renders in the code.
- The stop-file check re-raises an `IOError` other than "no such file"
  (cyder/cydns/cybind/builder.py:495-499), for example a permission error. The model reads
  the stop file as present or absent and has no third case.
- Builder.SurveySerialCovers: stated only when every view with data has a
  numeric published serial. On a new zone the serial is the time of the
  run, which can be below the database serial, as
  `Builder.NewZoneSerialRegresses` shows.
- Builder.ZoneStagedAtPersistedSerial: assumes the view table holds no two
  views of the same name. The `View` model is not part of this model.
- `_name_type_check` is left out: every name is a string in the model.
- `validate_zone_soa` and `do_zone_validation` are not part of this model.
  They query the zone's domains through the ORM.
- `validate_txt_data`, `is_rfc1918`, `is_rfc4193`, `validate_views` and
  `validate_view` are not part of this model. They are thin wrappers over
  the ipaddr library and the ORM.
- Nameserver `save`, `clean_views`, `check_for_cname` and the rest of the
  Django model are left out: they are ORM calls. The glue lookups of
  `clean` are function inputs. `delete` and its `del_glue` call are
  `Nameserver.DeleteNameserver`.
- Nameserver.DeleteNameserver: the table rows themselves are not modelled.
  Whether other records remain once the glue record is gone is the
  `othersBesideGlue` input.
- `calc_networks` calls `update_network` on every network. The model takes
  the networks after that call, as values.
- The migration's MySQL and ORM plumbing is left out: cursor calls,
  `get_or_create`, the `migrate_*` bodies other than the helpers modelled,
  and the VRF and attribute rows `create_range` creates. The cached tables
  come from a `fetchAll` input.
- The rest of cyder/base/utils.py (`make_paginator`, `tablefy`,
  `make_megafilter`, `filter_by_ctnr`, `_filter`, `remove_dir_contents`) is
  left out: it is Django request and query plumbing.

## Findings

| source | as written | input that shows it | evidently intended | confidence | as-written member | corrected member |
|---|---|---|---|---|---|---|
| cyder/cydns/validation.py:144-154 | `validate_first_label(label, valid_chars)` calls `validate_label(label[1:])` and `validate_label(label)` without `valid_chars`, so the caller's character set is ignored | `validate_first_label("a_b", "ab")` passes, though `validate_label("a_b", "ab")` refuses the '_' | the docstring calls it `validate_label` that also allows a leading '*', so `valid_chars` should be passed on | not executed | Validation.FirstLabelIgnoresValidChars | Validation.FirstLabelForwardingValid |
| cyder/cydns/nameserver/models.py:236-247 | `needs_glue` removes ".<domain>" with `str.replace`, wherever it occurs in the server name | "ns1.foo.community" in domain "foo.com" becomes "ns1munity", a valid label, so glue is asked for a server outside the domain | only a server that is one label directly under the domain (or the delegated apex) needs glue | not executed | Nameserver.NeedsGlueOutsideDomainExample | Nameserver.NeedsGlueSuffixRule |

`Nameserver.NameserverRecord.CleanGlue` keeps `needs_glue` as written,
so that the model of `clean` follows the code. The corrected rule
`Nameserver.NeedsGlueSuffix` is stated beside it, and
`Nameserver.NeedsGlueSuffixRule` shows that it gives glue to a subset of
the servers the written rule does.
