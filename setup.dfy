/** Construction of the `SPM` object: the installation checks and the
    shell command every job is run with. Whether a path exists is a
    property of the file system, given here as the set of existing paths. */
module Setup {

  datatype Option<T> = None | Some(value: T)

  /** Number of `%s` conversion slots in a format string. */
  function SlotCount(t: string): nat
    decreases |t|
  {
    if t == [] then 0
    else if |t| >= 2 && t[0] == '%' && t[1] == 's' then 1 + SlotCount(t[2..])
    else SlotCount(t[1..])
  }

  /** Python's `t % args` for a format string whose only conversions are
      `%s`: each slot takes the next argument in turn. Too few or too many
      arguments raise `TypeError` (here: no result). */
  function Format(t: string, args: seq<string>): (r: Option<string>)
    ensures r.Some? <==> |args| == SlotCount(t)
    decreases |t|
  {
    if t == [] then
      (if args == [] then Some("") else None)
    else if |t| >= 2 && t[0] == '%' && t[1] == 's' then
      if args == [] then None
      else match Format(t[2..], args[1..]) {
        case None => None
        case Some(rest) => Some(args[0] + rest)
      }
    else match Format(t[1..], args) {
      case None => None
      case Some(rest) => Some([t[0]] + rest)
    }
  }

  /** Text with no `%` in it: copied through by `%`-formatting. */
  predicate NoPercent(s: string) {
    forall i :: 0 <= i < |s| ==> s[i] != '%'
  }

  /** Text with no `%` in it holds no slot: counting goes on after it. */
  lemma {:induction false} SlotCountLiteral(plain: string, rest: string)
    requires NoPercent(plain)
    ensures SlotCount(plain + rest) == SlotCount(rest)
    decreases |plain|
  {
    if plain == [] {
      assert plain + rest == rest;
    } else {
      assert (plain + rest)[1..] == plain[1..] + rest;
      SlotCountLiteral(plain[1..], rest);
    }
  }

  lemma SlotCountSlot(rest: string)
    ensures SlotCount("%s" + rest) == 1 + SlotCount(rest)
  {
    assert ("%s" + rest)[2..] == rest;
  }

  /** A slot takes the first argument; the rest of the template takes the others. */
  lemma FormatSlot(arg: string, rest: string, args: seq<string>)
    requires Format(rest, args).Some?
    ensures Format("%s" + rest, [arg] + args) == Some(arg + Format(rest, args).value)
  {
    assert ("%s" + rest)[2..] == rest;
    assert ([arg] + args)[1..] == args;
  }

  /** Text with no `%` in it is copied through unchanged. */
  lemma {:induction false} FormatLiteral(plain: string, rest: string, args: seq<string>)
    requires NoPercent(plain)
    requires Format(rest, args).Some?
    ensures Format(plain + rest, args) == Some(plain + Format(rest, args).value)
    decreases |plain|
  {
    var v := Format(rest, args).value;
    if plain != [] {
      var t := plain + rest;
      assert t[0] == plain[0] != '%';
      assert t[1..] == plain[1..] + rest;
      FormatLiteral(plain[1..], rest, args);
      assert Format(t[1..], args) == Some(plain[1..] + v);
      assert [plain[0]] + (plain[1..] + v) == plain + v;
    } else {
      assert plain + rest == rest && plain + v == v;
      assert Format(rest, args) == Some(v);
    }
  }

  lemma AppendAssociative(a: string, b: string, c: string)
    ensures a + (b + c) == a + b + c
  {
  }

  /** A template `%s<middle>%s<tail>` has two slots and puts its two
      arguments in them, in order. */
  lemma TwoSlotTemplate(middle: string, tail: string, x: string, y: string)
    requires NoPercent(middle) && NoPercent(tail)
    ensures SlotCount("%s" + middle + "%s" + tail) == 2
    ensures Format("%s" + middle + "%s" + tail, [x, y]) == Some(x + middle + y + tail)
  {
    var t := "%s" + middle + "%s" + tail;
    var inner := middle + "%s" + tail;
    AppendAssociative("%s", middle + "%s", tail);
    AppendAssociative("%s", middle, "%s");
    assert t == "%s" + inner;
    SlotCountLiteral(tail, "");
    assert tail + "" == tail;
    assert SlotCount("") == 0;
    SlotCountSlot(tail);
    AppendAssociative(middle, "%s", tail);
    SlotCountLiteral(middle, "%s" + tail);
    SlotCountSlot(inner);
    FormatLiteral(tail, "", []);
    FormatSlot(y, tail, []);
    assert [y] + [] == [y];
    FormatLiteral(middle, "%s" + tail, [y]);
    FormatSlot(x, inner, [y]);
    assert [x] + [y] == [x, y];
    AppendAssociative(x, middle, y + tail);
    AppendAssociative(x + middle, y, tail);
  }

  /** The template of the command that runs a job: a slot for the SPM
      path, the script, a slot for the MATLAB runtime, then ` batch`. */
  const RunTemplate: string := "%s" + "/run_spm12.sh " + "%s" + " batch"

  lemma ScriptNoPercent()
    ensures NoPercent("/run_spm12.sh ")
  {
  }

  lemma BatchNoPercent()
    ensures NoPercent(" batch")
  {
  }

  lemma RunTemplateFormat(spmPath: string, mcrPath: string)
    ensures SlotCount(RunTemplate) == 2
    ensures Format(RunTemplate, [spmPath, mcrPath]) == Some(spmPath + "/run_spm12.sh " + mcrPath + " batch")
  {
    ScriptNoPercent();
    BatchNoPercent();
    TwoSlotTemplate("/run_spm12.sh ", " batch", spmPath, mcrPath);
  }

  /** The shell command as `__init__` evidently means it:
      `<spm_path>/run_spm12.sh <mcr_path> batch`. */
  function RunCommand(spmPath: string, mcrPath: string): (command: string)
    ensures command == spmPath + "/run_spm12.sh " + mcrPath + " batch"
  {
    RunTemplateFormat(spmPath, mcrPath);
    Format(RunTemplate, [spmPath, mcrPath]).value
  }

  /** Line 27 as written: `%` binds tighter than the comma, so the
      two-slot template is formatted with `spm_path` alone. */
  function RunCommandAsWritten(spmPath: string): (r: Option<string>)
    ensures r == None
  {
    RunTemplateFormat(spmPath, spmPath);
    Format(RunTemplate, [spmPath])
  }

  /** The outcome of `SPM(spm_path, mcr_path)`. */
  datatype InitOutcome =
    | Ready(spmRun: string)
    | NotFound(message: string)
    | FormatFailure

  /** `__init__` as written: both checks test `spm_path`, and the command
      string cannot be formatted. */
  function InitAsWritten(existing: set<string>, spmPath: string, mcrPath: string): InitOutcome {
    if spmPath !in existing then NotFound(spmPath + " is not found.")
    else if spmPath !in existing then NotFound(mcrPath + " is not found.")
    else match RunCommandAsWritten(spmPath) {
      case None => FormatFailure
      case Some(command) => Ready(command)
    }
  }

  /** As written, no `SPM` object is ever built, and a missing MATLAB
      runtime is never reported: once the SPM path exists, construction
      fails on the format string whatever `mcr_path` is. */
  lemma InitAsWrittenFails(existing: set<string>, spmPath: string, mcrPath: string)
    ensures !InitAsWritten(existing, spmPath, mcrPath).Ready?
    ensures spmPath in existing && mcrPath !in existing
        ==> InitAsWritten(existing, spmPath, mcrPath) == FormatFailure
  {
  }

  /** `__init__` as evidently intended: each path is checked in turn, and
      the command runs the SPM script with the MATLAB runtime. */
  function Init(existing: set<string>, spmPath: string, mcrPath: string): (r: InitOutcome)
    ensures r.Ready? <==> spmPath in existing && mcrPath in existing
    ensures r.Ready? ==> r.spmRun == spmPath + "/run_spm12.sh " + mcrPath + " batch"
    ensures spmPath !in existing ==> r == NotFound(spmPath + " is not found.")
    ensures spmPath in existing && mcrPath !in existing ==> r == NotFound(mcrPath + " is not found.")
  {
    if spmPath !in existing then NotFound(spmPath + " is not found.")
    else if mcrPath !in existing then NotFound(mcrPath + " is not found.")
    else Ready(RunCommand(spmPath, mcrPath))
  }

  /** `run_mfile`: the command line handed to the shell, `<spm_run> <mfile>`. */
  function RunMfileCommand(spmRun: string, mfile: string): (command: string)
    ensures command == spmRun + " " + mfile
  {
    MfileTemplateParts();
    TwoSlotTemplate(" ", "", spmRun, mfile);
    Format("%s %s", [spmRun, mfile]).value
  }

  lemma MfileTemplateParts()
    ensures "%s %s" == "%s" + " " + "%s" + ""
    ensures NoPercent(" ") && NoPercent("")
  {
  }
}
