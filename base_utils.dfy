/** The generic helpers of cyder/base/utils.py: merging dictionaries,
    copying request data, setting attributes and the failure handling of
    `run_command`. */
module BaseUtils {
  import opened Wrappers
  import opened Strings

  // ------------------------------------------------------------ dict_merge

  /** `dict_merge(*dicts)`: the item lists of the dictionaries are
      concatenated in order and turned back into a dict, so for every key
      the last dictionary holding it wins. As the keys of one dictionary are
      distinct, this is the left-to-right override of the dictionaries. */
  function DictMerge<K, V>(dicts: seq<map<K, V>>): map<K, V>
  {
    if |dicts| == 0 then map[]
    else DictMerge(dicts[..|dicts| - 1]) + dicts[|dicts| - 1]
  }

  /** A key is in the merge iff it is in some input. */
  lemma {:induction false} DictMergeHas<K, V>(dicts: seq<map<K, V>>, k: K)
    ensures k in DictMerge(dicts) <==> exists i :: 0 <= i < |dicts| && k in dicts[i]
  {
    if |dicts| > 0 {
      var init, last := dicts[..|dicts| - 1], dicts[|dicts| - 1];
      DictMergeHas(init, k);
      if k in last {
        assert k in dicts[|dicts| - 1];
      } else if k in DictMerge(init) {
        var i :| 0 <= i < |init| && k in init[i];
        assert k in dicts[i];
      } else {
        forall i | 0 <= i < |dicts| ensures k !in dicts[i] {
          if i < |init| {
            assert dicts[i] == init[i];
          }
        }
      }
    }
  }

  /** The value of a key comes from the last input that has it. */
  lemma {:induction false} DictMergeLastWins<K, V>(dicts: seq<map<K, V>>, k: K, i: nat)
    requires i < |dicts| && k in dicts[i]
    requires forall j :: i < j < |dicts| ==> k !in dicts[j]
    ensures k in DictMerge(dicts) && DictMerge(dicts)[k] == dicts[i][k]
  {
    if i < |dicts| - 1 {
      var init := dicts[..|dicts| - 1];
      assert k !in dicts[|dicts| - 1];
      assert init[i] == dicts[i];
      forall j | i < j < |init| ensures k !in init[j] {
        assert init[j] == dicts[j];
      }
      DictMergeLastWins(init, k, i);
    }
  }

  // -------------------------------------------- qd_to_py_dict, model_to_post

  /** `qd_to_py_dict(qd)`: every key copied with its value. The QueryDict is
      modelled as the plain dictionary of what `qd[k]` returns. */
  method QdToPyDict<K, V>(qd: map<K, V>) returns (ret: map<K, V>)
    ensures ret == qd
  {
    ret := map[];
    var todo := qd.Keys;
    while todo != {}
      invariant todo <= qd.Keys
      invariant ret.Keys == qd.Keys - todo
      invariant forall k :: k in ret ==> ret[k] == qd[k]
      decreases todo
    {
      var k :| k in todo;
      ret := ret[k := qd[k]];
      todo := todo - {k};
    }
  }

  /** `model_to_post(post, obj)`: the POST values are kept, and the
      object's fields are added only for keys the POST lacks. */
  method ModelToPost<K, V>(post: map<K, V>, obj: map<K, V>) returns (ret: map<K, V>)
    ensures ret.Keys == post.Keys + obj.Keys
    ensures forall k :: k in post ==> ret[k] == post[k]
    ensures forall k :: k in obj && k !in post ==> ret[k] == obj[k]
    ensures ret == DictMerge([obj, post])
  {
    ret := QdToPyDict(post);
    var todo := obj.Keys;
    while todo != {}
      invariant todo <= obj.Keys
      invariant ret.Keys == post.Keys + (obj.Keys - todo)
      invariant forall k :: k in post ==> ret[k] == post[k]
      invariant forall k :: k in obj && k !in post && k !in todo ==> ret[k] == obj[k]
      decreases todo
    {
      var k :| k in todo;
      if k !in post {
        ret := ret[k := obj[k]];
      }
      todo := todo - {k};
    }
    assert [obj, post][..1] == [obj];
    assert [obj][..0] == [];
    assert DictMerge([obj]) == obj;
    assert DictMerge([obj, post]) == obj + post;
    assert ret == obj + post;
  }

  // --------------------------------------------------------------- set_attrs

  /** An object whose attributes `set_attrs` assigns. */
  class AttributeHolder<V> {
    var attributes: map<string, V>

    constructor (attributes: map<string, V>)
      ensures this.attributes == attributes
    {
      this.attributes := attributes;
    }

    /** `set_attrs(obj, attrs)`: exactly the given attributes get the given
        values; the others are untouched. */
    method SetAttrs(attrs: map<string, V>)
      modifies this
      ensures attributes.Keys == old(attributes).Keys + attrs.Keys
      ensures forall name :: name in attrs ==> attributes[name] == attrs[name]
      ensures forall name :: name in old(attributes) && name !in attrs ==> attributes[name] == old(attributes)[name]
    {
      var todo := attrs.Keys;
      while todo != {}
        invariant todo <= attrs.Keys
        invariant attributes.Keys == old(attributes).Keys + (attrs.Keys - todo)
        invariant forall name :: name in attrs && name !in todo ==> attributes[name] == attrs[name]
        invariant forall name :: name in old(attributes) && name !in attrs ==> attributes[name] == old(attributes)[name]
        invariant forall name :: name in old(attributes) && name in todo ==> attributes[name] == old(attributes)[name]
        decreases todo
      {
        var name :| name in todo;
        attributes := attributes[name := attrs[name]];
        todo := todo - {name};
      }
    }
  }

  // ------------------------------------------------------------- run_command

  /** What `shell_out` returns: stdout, stderr and the return code. */
  datatype ShellResult = ShellResult(out: string, err: string, returncode: int)

  /** What `run_command` leaves behind: its result or the text of the
      exception it raises, and the lines handed to the two loggers. */
  datatype RunOutcome = RunOutcome(
    result: Result<ShellResult, string>,
    commandLog: Option<string>,
    failureLog: Option<string>)

  /** `str(failure_msg)`. */
  function FailureText(failureMsg: Option<string>): string
  {
    if failureMsg.None? then "None" else failureMsg.value
  }

  /** The first two lines of the failure message, before `rstrip`. */
  function FailureHeader(command: string, cwd: string, failureMsg: Option<string>): string
  {
    "`" + command + "` failed in " + cwd + "\n\ncommand: " + FailureText(failureMsg) + "\n\n"
  }

  /** The title line of an output section, without its newline. */
  function Banner(title: string): (r: string)
    ensures |r| > 0 && r[|r| - 1] == '='
  {
    "=== " + title + " ==="
  }

  /** The section holding one output stream, empty when the stream is. */
  function Section(title: string, text: string): string
  {
    if text == "" then "" else Banner(title) + ("\n" + text + "\n")
  }

  /** The exception text of a failed command. */
  function FailureMessage(command: string, cwd: string, failureMsg: Option<string>, out: string, err: string): string
  {
    RStrip(FailureHeader(command, cwd, failureMsg) + Section("stdout", out) + Section("stderr", err), {'\n'}) + "\n"
  }

  /** `run_command`, with `shell_out` and the working directory as inputs
      and each logger present or not. */
  function RunCommand(command: string, cwd: string, shellOut: string -> ShellResult,
                      hasCommandLogger: bool, hasFailureLogger: bool,
                      failureMsg: Option<string>, ignoreFailure: bool): (r: RunOutcome)
    ensures r.result.Err? <==> shellOut(command).returncode != 0 && !ignoreFailure
    ensures r.result.Ok? ==> r.result.value == shellOut(command)
    ensures r.commandLog.Some? <==> hasCommandLogger
    ensures r.failureLog.Some? <==> r.result.Err? && hasFailureLogger
    ensures r.failureLog.Some? ==> r.failureLog.value == r.result.error
  {
    var commandLog := if hasCommandLogger then Some("Calling `" + command + "` in " + cwd) else None;
    var res := shellOut(command);
    if res.returncode != 0 && !ignoreFailure then
      var msg := FailureMessage(command, cwd, failureMsg, res.out, res.err);
      RunOutcome(Err(msg), commandLog, if hasFailureLogger then Some(msg) else None)
    else
      RunOutcome(Ok(res), commandLog, None)
  }

  /** The failure message ends in exactly one newline. */
  lemma FailureMessageEnd(command: string, cwd: string, failureMsg: Option<string>, out: string, err: string)
    ensures var m := FailureMessage(command, cwd, failureMsg, out, err);
            |m| >= 1 && m[|m| - 1] == '\n' && (|m| >= 2 ==> m[|m| - 2] != '\n')
  {
    var body := FailureHeader(command, cwd, failureMsg) + Section("stdout", out) + Section("stderr", err);
    var q := RStrip(body, {'\n'});
    assert FailureMessage(command, cwd, failureMsg, out, err) == q + "\n";
    assert |q| > 0 ==> q[|q| - 1] != '\n';
  }

  /** With output, the message goes on from the header to the stdout
      section. */
  lemma FailureMessageStdout(command: string, cwd: string, failureMsg: Option<string>, out: string, err: string)
    requires out != ""
    ensures StartsWith(FailureMessage(command, cwd, failureMsg, out, err),
                       FailureHeader(command, cwd, failureMsg) + Banner("stdout") + "\n")
  {
    StartsWithSection(FailureHeader(command, cwd, failureMsg), "stdout", out, Section("stderr", err));
  }

  /** Without output but with error output, the message goes on from the
      header to the stderr section. */
  lemma FailureMessageStderr(command: string, cwd: string, failureMsg: Option<string>, out: string, err: string)
    requires out == "" && err != ""
    ensures StartsWith(FailureMessage(command, cwd, failureMsg, out, err),
                       FailureHeader(command, cwd, failureMsg) + Banner("stderr") + "\n")
  {
    var header := FailureHeader(command, cwd, failureMsg);
    assert header + Section("stdout", out) + Section("stderr", err) == header + Section("stderr", err) + "";
    StartsWithSection(header, "stderr", err, "");
  }

  /** A message whose body goes on from `header` to a section keeps that
      section's title line. */
  lemma StartsWithSection(header: string, title: string, text: string, tail: string)
    requires text != ""
    ensures StartsWith(RStrip(header + Section(title, text) + tail, {'\n'}) + "\n", header + Banner(title) + "\n")
  {
    var lines := "\n" + text + "\n";
    AppendAssoc(header, Banner(title), lines, tail);
    assert (lines + tail)[0] == '\n';
    SectionStart(header + Banner(title), lines + tail, RStrip(header + Section(title, text) + tail, {'\n'}) + "\n");
  }

  lemma AppendAssoc(a: string, b: string, c: string, d: string)
    ensures a + (b + c) + d == (a + b) + (c + d)
  {
  }

  /** Without either, the message is the header with its blank line gone. */
  lemma FailureMessageBare(command: string, cwd: string, failureMsg: Option<string>)
    ensures FailureMessage(command, cwd, failureMsg, "", "") == RStrip(FailureHeader(command, cwd, failureMsg), {'\n'}) + "\n"
  {
    var header := FailureHeader(command, cwd, failureMsg);
    assert header + Section("stdout", "") + Section("stderr", "") == header;
  }

  /** Stripping after a section title keeps the title and its newline. */
  lemma SectionStart(p: string, rest: string, m: string)
    requires |p| > 0 && p[|p| - 1] == '='
    requires |rest| > 0 && rest[0] == '\n'
    requires m == RStrip(p + rest, {'\n'}) + "\n"
    ensures StartsWith(m, p + "\n")
  {
    RStripAfter(p, rest, {'\n'});
    var q := RStrip(rest, {'\n'});
    assert m == p + q + "\n";
    if |q| > 0 {
      assert q[0] == '\n';
      assert m[..|p| + 1] == p + "\n";
    } else {
      assert m == p + "\n";
    }
  }
}
