/**
 * How a grading script's run ends, as the server sees it: its stdout and
 * its exit status. An uncaught exception prints a traceback to stderr and
 * exits with status 1 before anything reaches stdout.
 */
module ScriptRuns {
  import opened Outcomes
  import opened Text
  import opened Dicts
  import opened Protocol
  import Grading

  /** The results printed one `print(key, ' : ', value)` per line, an uncaught exception, or `sys.exit(code)` after a message on stderr. */
  datatype ScriptEnd = Printed(results: Dict<string>) | Raised | Exited(code: int, stderr: string)

  /** What the server receives from the run. */
  function RunOf(e: ScriptEnd): (r: Grading.ScriptRun)
    ensures e.Printed? ==> r.exitCode == 0
    ensures e.Raised? ==> r.exitCode == 1
    ensures !e.Printed? ==> r.stdout == ""
  {
    match e
    case Printed(results) => Grading.ScriptRun(0, Unlines(FormatLines(results)))
    case Raised => Grading.ScriptRun(1, "")
    case Exited(code, _) => Grading.ScriptRun(code, "")
  }

  /** A script result that uses only the given check labels and statuses. */
  predicate Verdicts(r: Dict<string>, labels: seq<string>, statuses: seq<string>) {
    Valid(r) && forall i :: 0 <= i < |r| ==> r[i].0 in labels && r[i].1 in statuses
  }

  /** `d.update(e)`: each pair of `e`, in order, assigned into `d`. */
  function Update(d: Dict<string>, e: Dict<string>): Dict<string>
    decreases |e|
  {
    if e == [] then d else Update(Put(d, e[0].0, e[0].1), e[1..])
  }

  lemma PutVerdicts(d: Dict<string>, k: string, v: string, labels: seq<string>, statuses: seq<string>)
    requires Verdicts(d, labels, statuses) && k in labels && v in statuses
    ensures Verdicts(Put(d, k, v), labels, statuses)
  {
    ValidPut(d, k, v);
    var r := Put(d, k, v);
    forall i | 0 <= i < |r|
      ensures r[i].0 in labels && r[i].1 in statuses
    {
      PairKey(r, r[i]);
      assert r[i] in r;
      GetUnique(r, r[i].0, r[i].1);
      GetPut(d, k, v, r[i].0);
      if r[i].0 != k {
        PairKey(d, (r[i].0, Get(d, r[i].0).value));
        var j :| 0 <= j < |d| && d[j] == (r[i].0, Get(d, r[i].0).value);
      }
    }
  }

  /** Merging results that keep to the labels and statuses keeps to them too. */
  lemma {:induction false} UpdateVerdicts(d: Dict<string>, e: Dict<string>, labels: seq<string>, statuses: seq<string>)
    requires Verdicts(d, labels, statuses)
    requires forall i :: 0 <= i < |e| ==> e[i].0 in labels && e[i].1 in statuses
    ensures Verdicts(Update(d, e), labels, statuses)
    decreases |e|
  {
    if e != [] {
      PutVerdicts(d, e[0].0, e[0].1, labels, statuses);
      UpdateVerdicts(Put(d, e[0].0, e[0].1), e[1..], labels, statuses);
    }
  }

  /**
   * A script that prints results drawn from printable labels and statuses
   * exits normally and is read back by the server as exactly those results.
   */
  lemma ReadBack(r: Dict<string>, labels: seq<string>, statuses: seq<string>)
    requires Verdicts(r, labels, statuses)
    requires forall k, v :: k in labels && v in statuses ==> Printable(k, v)
    ensures RunOf(Printed(r)).exitCode == 0
    ensures ParseOutput(RunOf(Printed(r)).stdout) == r
  {
    PrintParseRoundTrip(r);
  }
}

/**
 * The manual grading example: three phase functions of the submitted
 * answers, a dispatch on the last argument, and the argument check of the
 * SSH helper. A JSON argument is decoded by `decode`: `None` when it is not
 * valid JSON (and `json.loads` raises), `Some(None)` when it is valid but
 * not an object, and `Some(Some(d))` for an object.
 */
module ManualGradingScript {
  import opened Outcomes
  import opened Text
  import opened Dicts
  import opened Protocol
  import opened ScriptRuns

  const PHASES: seq<string> := ["phase1", "phase2", "phase3"]
  const CHECKS: seq<string> := ["GradingCheck1", "GradingCheck2", "GradingCheck3", "GradingCheck4"]
  const STATUSES: seq<string> := ["Success", "Failure"]

  // ---------------------------------------------------------------------------
  // runSSHCommand

  /** The `cmdList` argument: a list of commands, or a value of another type. */
  datatype CmdArg = CmdList(cmds: seq<string>) | NotAList

  /**
   * The checks before `runSSHCommand` connects: the error dictionary it
   * returns, or `None` when it goes on to open the SSH session.
   */
  function SshPrecheck(username: Option<string>, password: Option<string>, hostname: Option<string>, cmdList: Option<CmdArg>)
    : (r: Option<Dict<string>>)
    ensures r.None? <==> username.Some? && password.Some? && hostname.Some? && cmdList.Some? && cmdList.value.CmdList?
    ensures r.Some? ==> Keys(r.value) == ["error"]
    ensures (username.None? || password.None? || hostname.None? || cmdList.None?) ==>
      r == Some([("error", "Function call missing arguments.")])
  {
    if username.None? || password.None? || hostname.None? || cmdList.None? then
      Some([("error", "Function call missing arguments.")])
    else if cmdList.value.NotAList? then
      Some([("error", "Commands passed are not correct data type")])
    else None
  }

  // ---------------------------------------------------------------------------
  // The phases

  /** `phase1(sub)`: `sub['GradingCheck1']` raises unless `sub` is an object holding that key. */
  function Phase1(sub: Option<Dict<string>>): (r: Option<Dict<string>>)
    ensures r.Some? <==> sub.Some? && HasKey(sub.value, "GradingCheck1")
    ensures r.Some? ==> (
      Keys(r.value) == ["GradingCheck1", "GradingCheck2"] &&
      (Get(r.value, "GradingCheck1") == Some("Success") <==> Get(sub.value, "GradingCheck1") == Some("test")) &&
      Get(r.value, "GradingCheck2") == Some("Success"))
  {
    if sub.None? then None
    else match Get(sub.value, "GradingCheck1")
      case None => None
      case Some(v) => Some([("GradingCheck1", if v == "test" then "Success" else "Failure"), ("GradingCheck2", "Success")])
  }

  function Phase2(sub: Option<Dict<string>>): Dict<string> {
    [("GradingCheck3", "Failure")]
  }

  function Phase3(sub: Option<Dict<string>>): Dict<string> {
    [("GradingCheck4", "Failure")]
  }

  /** `globals()[name](sub)` for a name of `PHASES`; `None` is an exception. */
  function RunPhase(name: string, sub: Option<Dict<string>>): Option<Dict<string>> {
    if name == "phase1" then Phase1(sub)
    else if name == "phase2" then Some(Phase2(sub))
    else if name == "phase3" then Some(Phase3(sub))
    else None
  }

  /** Whatever they are given, the later phases fail their one check. */
  lemma LaterPhasesFail(sub: Option<Dict<string>>)
    ensures var r2 := RunPhase("phase2", sub).value;
      Keys(r2) == ["GradingCheck3"] && Get(r2, "GradingCheck3") == Some("Failure")
    ensures var r3 := RunPhase("phase3", sub).value;
      Keys(r3) == ["GradingCheck4"] && Get(r3, "GradingCheck4") == Some("Failure")
  {
  }

  /** `res.update(phase(sub))` over `phases` in order, stopping at an exception. */
  function Merged(phases: seq<string>, sub: Option<Dict<string>>): Option<Dict<string>>
    decreases |phases|
  {
    if phases == [] then Some([])
    else
      var prev := Merged(phases[..|phases| - 1], sub);
      var r := RunPhase(phases[|phases| - 1], sub);
      if prev.None? || r.None? then None else Some(Update(prev.value, r.value))
  }

  /** The `for phase in phases: res.update(...)` loop. */
  method MergeAll(sub: Option<Dict<string>>) returns (res: Option<Dict<string>>)
    ensures res == Merged(PHASES, sub)
  {
    var acc: Dict<string> := [];
    var i := 0;
    while i < |PHASES|
      invariant 0 <= i <= |PHASES|
      invariant Merged(PHASES[..i], sub) == Some(acc)
    {
      MergedStep(PHASES, i, sub);
      var r := RunPhase(PHASES[i], sub);
      if r.None? {
        NoneStaysNone(PHASES, i + 1, sub);
        return None;
      }
      acc := Update(acc, r.value);
      i := i + 1;
    }
    PrefixAll(PHASES);
    res := Some(acc);
  }

  /** `Merged` over one more phase: the merge so far updated with that phase's checks. */
  lemma MergedStep(phases: seq<string>, i: nat, sub: Option<Dict<string>>)
    requires i < |phases|
    ensures var prev, r := Merged(phases[..i], sub), RunPhase(phases[i], sub);
      Merged(phases[..i + 1], sub) == if prev.None? || r.None? then None else Some(Update(prev.value, r.value))
  {
    assert phases[..i + 1][..i] == phases[..i] && phases[..i + 1][i] == phases[i];
  }

  /** Once a phase raised, the merge over any longer prefix raised too. */
  lemma {:induction false} NoneStaysNone(phases: seq<string>, i: nat, sub: Option<Dict<string>>)
    requires i <= |phases| && Merged(phases[..i], sub).None?
    ensures Merged(phases, sub).None?
    decreases |phases| - i
  {
    if i < |phases| {
      assert phases[..i + 1][..i] == phases[..i];
      NoneStaysNone(phases, i + 1, sub);
    } else {
      assert phases[..i] == phases;
    }
  }

  function End(o: Option<Dict<string>>): ScriptEnd {
    if o.None? then Raised else Printed(o.value)
  }

  /** The stripped, lower-cased last argument when it names a phase. */
  function PassedPhase(args: seq<string>): Option<string> {
    if args == [] then None
    else
      var p := Lower(Strip(args[|args| - 1]));
      if p in PHASES then Some(p) else None
  }

  /** The `__main__` block on `sys.argv[1:]`. */
  function ManualMain(args: seq<string>, decode: string -> Option<Option<Dict<string>>>): ScriptEnd {
    if args == [] then End(Merged(PHASES, None))
    else if PassedPhase(args).Some? then
      var rest := args[..|args| - 1];
      if rest != [] then
        match decode(rest[0])
        case None => Raised
        case Some(sub) => End(RunPhase(PassedPhase(args).value, sub))
      else End(RunPhase(PassedPhase(args).value, None))
    else
      match decode(args[0])
      case None => Raised
      case Some(sub) => End(Merged(PHASES, sub))
  }

  /** With no argument, `phase1()` subscripts `None` and the script raises before printing. */
  lemma ManualNoArgsRaises(decode: string -> Option<Option<Dict<string>>>)
    ensures ManualMain([], decode) == Raised
  {
    assert PHASES[..1] == ["phase1"] && PHASES[..2][..1] == ["phase1"];
    assert PHASES[..2] == PHASES[..|PHASES| - 1];
    assert Merged(PHASES[..1], None).None?;
  }

  /**
   * A phase named last runs alone, on the decoded first argument when one
   * remains and on `None` otherwise; only that phase's checks are printed.
   */
  lemma ManualSinglePhase(args: seq<string>, decode: string -> Option<Option<Dict<string>>>)
    requires PassedPhase(args).Some?
    ensures var p := PassedPhase(args).value;
      var sub := if |args| == 1 then Some(None) else decode(args[0]);
      ManualMain(args, decode) == if sub.None? then Raised else End(RunPhase(p, sub.value))
    ensures PassedPhase(args) == Some("phase2") && (|args| == 1 || decode(args[0]).Some?) ==>
      ManualMain(args, decode) == Printed([("GradingCheck3", "Failure")])
  {
    var rest := args[..|args| - 1];
    if rest != [] {
      assert rest[0] == args[0];
    }
  }

  /**
   * Without a phase argument every phase runs on the decoded answers and the
   * checks merge in phase order: the first succeeds iff the answer to it is
   * "test", the second always succeeds, the last two always fail.
   */
  lemma ManualAllPhases(args: seq<string>, decode: string -> Option<Option<Dict<string>>>, d: Dict<string>)
    requires args != [] && PassedPhase(args).None?
    requires decode(args[0]) == Some(Some(d)) && HasKey(d, "GradingCheck1")
    ensures ManualMain(args, decode).Printed?
    ensures var r := ManualMain(args, decode).results;
      Keys(r) == CHECKS &&
      (Get(r, "GradingCheck1") == Some("Success") <==> Get(d, "GradingCheck1") == Some("test")) &&
      Get(r, "GradingCheck2") == Some("Success") && Get(r, "GradingCheck3") == Some("Failure") &&
      Get(r, "GradingCheck4") == Some("Failure")
  {
    var v := Phase1(Some(d)).value[0].1;
    MergedAll(d);
    assert ManualMain(args, decode) == Printed(AllChecks(v));
    AllChecksRead(v);
  }

  /** The four checks in phase order, the first with status `v`. */
  function AllChecks(v: string): Dict<string> {
    [("GradingCheck1", v), ("GradingCheck2", "Success"), ("GradingCheck3", "Failure"), ("GradingCheck4", "Failure")]
  }

  lemma AllChecksRead(v: string)
    ensures Keys(AllChecks(v)) == CHECKS
    ensures Get(AllChecks(v), "GradingCheck1") == Some(v)
    ensures Get(AllChecks(v), "GradingCheck2") == Some("Success")
    ensures Get(AllChecks(v), "GradingCheck3") == Some("Failure") && Get(AllChecks(v), "GradingCheck4") == Some("Failure")
  {
  }

  /** On answers holding the first check, the three phases merge into the four checks. */
  lemma MergedAll(d: Dict<string>)
    requires HasKey(d, "GradingCheck1")
    ensures Merged(PHASES, Some(d)) == Some(AllChecks(Phase1(Some(d)).value[0].1))
  {
    var v := Phase1(Some(d)).value[0].1;
    MergedPhases(Some(d));
    assert Phase1(Some(d)).value == [("GradingCheck1", v), ("GradingCheck2", "Success")];
    MergeFirst(v);
    MergeSecond(v);
    MergeThird(v);
  }

  lemma MergeFirst(v: string)
    ensures Update([], [("GradingCheck1", v), ("GradingCheck2", "Success")]) == [("GradingCheck1", v), ("GradingCheck2", "Success")]
  {
    var e := [("GradingCheck1", v), ("GradingCheck2", "Success")];
    assert e[1..] == [("GradingCheck2", "Success")];
    UpdateOne([("GradingCheck1", v)], "GradingCheck2", "Success");
  }

  lemma MergeSecond(v: string)
    ensures Update([("GradingCheck1", v), ("GradingCheck2", "Success")], [("GradingCheck3", "Failure")]) ==
      [("GradingCheck1", v), ("GradingCheck2", "Success"), ("GradingCheck3", "Failure")]
  {
    UpdateOne([("GradingCheck1", v), ("GradingCheck2", "Success")], "GradingCheck3", "Failure");
  }

  lemma MergeThird(v: string)
    ensures Update([("GradingCheck1", v), ("GradingCheck2", "Success"), ("GradingCheck3", "Failure")], [("GradingCheck4", "Failure")]) ==
      AllChecks(v)
  {
    UpdateOne([("GradingCheck1", v), ("GradingCheck2", "Success"), ("GradingCheck3", "Failure")], "GradingCheck4", "Failure");
  }

  /** Over the three phases, the merge is phase 1's checks updated by phase 2's and then by phase 3's. */
  lemma MergedPhases(sub: Option<Dict<string>>)
    ensures Merged(PHASES, sub) ==
      if Phase1(sub).None? then None else Some(Update(Update(Update([], Phase1(sub).value), Phase2(sub)), Phase3(sub)))
  {
    var one, two := ["phase1"], ["phase1", "phase2"];
    assert PHASES[..|PHASES| - 1] == two && two[..1] == one && one[..0] == [];
  }

  /** Updating with one pair whose key is new appends it. */
  lemma UpdateOne(d: Dict<string>, k: string, v: string)
    requires !HasKey(d, k)
    ensures Update(d, [(k, v)]) == d + [(k, v)]
  {
    PutAbsent(d, k, v);
    assert [(k, v)][1..] == [];
  }

  /** Every printed line of the script is read back by the server as the result it printed. */
  lemma ManualOutputReadBack(args: seq<string>, decode: string -> Option<Option<Dict<string>>>)
    requires ManualMain(args, decode).Printed?
    ensures var r := ManualMain(args, decode).results;
      RunOf(Printed(r)).exitCode == 0 && ParseOutput(RunOf(Printed(r)).stdout) == r
  {
    MainVerdicts(args, decode);
    PrintableChecks();
    ReadBack(ManualMain(args, decode).results, CHECKS, STATUSES);
  }

  /** What the script prints uses only the four check labels and the two statuses. */
  lemma MainVerdicts(args: seq<string>, decode: string -> Option<Option<Dict<string>>>)
    requires ManualMain(args, decode).Printed?
    ensures Verdicts(ManualMain(args, decode).results, CHECKS, STATUSES)
  {
    if args == [] {
      MergedVerdicts(PHASES, None);
    } else if PassedPhase(args).Some? {
      var p := PassedPhase(args).value;
      var rest := args[..|args| - 1];
      if rest != [] {
        PhaseVerdicts(p, decode(rest[0]).value);
      } else {
        PhaseVerdicts(p, None);
      }
    } else {
      MergedVerdicts(PHASES, decode(args[0]).value);
    }
  }

  lemma PhaseVerdicts(name: string, sub: Option<Dict<string>>)
    requires RunPhase(name, sub).Some?
    ensures Verdicts(RunPhase(name, sub).value, CHECKS, STATUSES)
  {
  }

  lemma {:induction false} MergedVerdicts(phases: seq<string>, sub: Option<Dict<string>>)
    requires Merged(phases, sub).Some?
    ensures Verdicts(Merged(phases, sub).value, CHECKS, STATUSES)
    decreases |phases|
  {
    if phases != [] {
      var init := phases[..|phases| - 1];
      MergedVerdicts(init, sub);
      var r := RunPhase(phases[|phases| - 1], sub).value;
      UpdateVerdicts(Merged(init, sub).value, r, CHECKS, STATUSES);
    }
  }

  lemma PrintableChecks()
    ensures forall k, v :: k in CHECKS && v in STATUSES ==> Printable(k, v)
  {
  }
}

/**
 * The phased grading example: one phase per run, named by the last
 * argument, on the decoded first argument; an unknown phase exits with
 * status 1.
 */
module PhasedGradingScript {
  import opened Outcomes
  import opened Text
  import opened Dicts
  import opened Protocol
  import opened ScriptRuns
  import Grading

  const PHASES: seq<string> := ["phase1", "phase2"]

  /** A phase that checks one answer against its expected value; it raises unless `submission` holds the answer. */
  function CheckAnswer(submission: Option<Dict<string>>, check: string, expected: string): (r: Option<Dict<string>>)
    ensures r.Some? <==> submission.Some? && HasKey(submission.value, check)
    ensures r.Some? ==> (
      Keys(r.value) == [check] &&
      (Get(r.value, check) == Some("Success") <==> Get(submission.value, check) == Some(expected)) &&
      (Get(r.value, check) == Some("Failure") <==> Get(submission.value, check) != Some(expected)))
  {
    if submission.None? then None
    else match Get(submission.value, check)
      case None => None
      case Some(v) => Some([(check, if v == expected then "Success" else "Failure")])
  }

  /** `phase1`: "GradingCheck1" against "test1". */
  function Phase1(submission: Option<Dict<string>>): Option<Dict<string>> {
    CheckAnswer(submission, "GradingCheck1", "test1")
  }

  /** `phase2`: "GradingCheck2" against "test2". */
  function Phase2(submission: Option<Dict<string>>): Option<Dict<string>> {
    CheckAnswer(submission, "GradingCheck2", "test2")
  }

  /** The `__main__` block on `sys.argv[1:]`. */
  function PhasedMain(args: seq<string>, decode: string -> Option<Option<Dict<string>>>): ScriptEnd {
    if args == [] then Raised
    else
      var p := Lower(Strip(args[|args| - 1]));
      if p in PHASES then
        var rest := args[..|args| - 1];
        var sub := if rest != [] then decode(rest[0]) else Some(None);
        if sub.None? then Raised
        else
          var r := if p == "phase1" then Phase1(sub.value) else Phase2(sub.value);
          if r.None? then Raised else Printed(r.value)
      else Exited(1, "Passed phase (" + p + ") does not exist")
  }

  /** With no argument, `args[-1]` raises `IndexError`. */
  lemma PhasedNoArgsRaises(decode: string -> Option<Option<Dict<string>>>)
    ensures PhasedMain([], decode) == Raised
  {
  }

  /** An unknown phase exits with status 1, which the server counts as a fatal error. */
  lemma PhasedUnknownIsFatal(args: seq<string>, decode: string -> Option<Option<Dict<string>>>)
    requires args != [] && Lower(Strip(args[|args| - 1])) !in PHASES
    ensures PhasedMain(args, decode).Exited? && PhasedMain(args, decode).code == 1
    ensures Grading.ScriptOutput(RunOf(PhasedMain(args, decode))).1
  {
  }

  /**
   * A phase named last runs alone and prints exactly one line, for its own
   * check: "Success" iff the answer matches that phase's expected value. A
   * phase given no answer subscripts `None` and raises.
   */
  lemma PhasedOneLine(args: seq<string>, decode: string -> Option<Option<Dict<string>>>)
    requires args != [] && Lower(Strip(args[|args| - 1])) in PHASES
    ensures |args| == 1 ==> PhasedMain(args, decode) == Raised
    ensures PhasedMain(args, decode).Printed? ==>
      var r := PhasedMain(args, decode).results;
      var p := Lower(Strip(args[|args| - 1]));
      var check := if p == "phase1" then "GradingCheck1" else "GradingCheck2";
      var expected := if p == "phase1" then "test1" else "test2";
      |FormatLines(r)| == 1 && Keys(r) == [check] &&
      decode(args[0]).Some? && decode(args[0]).value.Some? &&
      (Get(r, check) == Some("Success") <==> Get(decode(args[0]).value.value, check) == Some(expected))
  {
    var rest := args[..|args| - 1];
    if rest != [] {
      assert rest[0] == args[0];
    }
  }
}

/** The example script with arguments: two checks, each on one command-line argument. */
module ArgsGradingScript {
  import opened Outcomes
  import opened Text
  import opened Dicts
  import opened Protocol
  import opened ScriptRuns

  const PASS_TEXT: string := "Success -- this is the expected value"
  const FAIL_TEXT: string := "Failure -- this is not the exected value"

  function Status(pass: bool): string {
    if pass then PASS_TEXT else FAIL_TEXT
  }

  /** The script on `sys.argv[1:]`: `sys.argv[1]` and `sys.argv[2]` raise `IndexError` when missing. */
  function ArgsMain(args: seq<string>): ScriptEnd {
    if |args| < 2 then Raised
    else Printed([("GradingCheck1", if args[0] == "test" then PASS_TEXT else FAIL_TEXT),
                  ("GradingCheck2", if args[1] == "test2" then PASS_TEXT else FAIL_TEXT)])
  }

  /** No two neighbouring characters of `s` spell the first two of `sub`, so `sub` does not occur in it. */
  lemma NoPairNoContains(s: string, sub: string)
    requires |sub| >= 2
    requires forall j :: 0 <= j < |s| - 1 ==> s[j] != sub[0] || s[j + 1] != sub[1]
    ensures !Contains(s, sub)
  {
    forall j | 0 <= j <= |s|
      ensures !IsPrefix(sub, s[j..])
    {
      if j + |sub| <= |s| {
        assert s[j..][0] == s[j] && s[j..][1] == s[j + 1];
      }
    }
  }

  /** Lower-cased, the failure status has no "su": its only 'u' follows 'l'. */
  lemma FailureHasNoSu(s: string)
    requires s == FAIL_TEXT
    ensures forall j :: 0 <= j < |s| - 1 ==> LowerChar(s[j]) != 's' || LowerChar(s[j + 1]) != 'u'
  {
  }

  /** The server's "success" test fails on the failure status and holds on the pass status. */
  lemma FailureIsNoSuccess()
    ensures !ContainsLower(Status(false), "success")
    ensures ContainsLower(Status(true), "success")
  {
    FailureHasNoSu(FAIL_TEXT);
    NoPairNoContains(Lower(FAIL_TEXT), "success");
    PassStartsWithSuccess(PASS_TEXT);
    ContainsAt(Lower(PASS_TEXT), "success", 0);
  }

  lemma PassStartsWithSuccess(s: string)
    requires s == PASS_TEXT
    ensures Lower(s)[0..7] == "success"
  {
    var t := Lower(s);
    assert s[..7] == "Success";
    forall i | 0 <= i < 7
      ensures t[i] == LowerChar(s[..7][i])
    {
    }
  }

  /**
   * With two or more arguments the script prints two lines, check 1 then
   * check 2, and the server's "success" test on each status agrees exactly
   * with the comparison of its argument; the server reads back both.
   */
  lemma ArgsVerdicts(args: seq<string>)
    requires |args| >= 2
    ensures ArgsMain(args).Printed?
    ensures var r := ArgsMain(args).results;
      Keys(r) == ["GradingCheck1", "GradingCheck2"] &&
      (ContainsLower(r[0].1, "success") <==> args[0] == "test") &&
      (ContainsLower(r[1].1, "success") <==> args[1] == "test2") &&
      ParseOutput(RunOf(ArgsMain(args)).stdout) == r
  {
    FailureIsNoSuccess();
    var r := ArgsMain(args).results;
    assert r == [("GradingCheck1", Status(args[0] == "test")), ("GradingCheck2", Status(args[1] == "test2"))];
    TwoChecksReadBack(Status(args[0] == "test"), Status(args[1] == "test2"));
  }

  /** Two lines, one per check, each with either status, are read back as printed. */
  lemma TwoChecksReadBack(v1: string, v2: string)
    requires v1 in [PASS_TEXT, FAIL_TEXT] && v2 in [PASS_TEXT, FAIL_TEXT]
    ensures ParseOutput(RunOf(Printed([("GradingCheck1", v1), ("GradingCheck2", v2)])).stdout) ==
      [("GradingCheck1", v1), ("GradingCheck2", v2)]
  {
    var labels, statuses := ["GradingCheck1", "GradingCheck2"], [PASS_TEXT, FAIL_TEXT];
    var r := [("GradingCheck1", v1), ("GradingCheck2", v2)];
    assert Keys(r) == labels;
    assert Valid(r);
    PrintableTexts();
    ReadBack(r, labels, statuses);
  }

  lemma PrintableTexts()
    ensures forall k, v :: k in ["GradingCheck1", "GradingCheck2"] && v in [PASS_TEXT, FAIL_TEXT] ==> Printable(k, v)
  {
    PrintableText(PASS_TEXT);
    PrintableText(FAIL_TEXT);
    PrintableLabel("GradingCheck1");
    PrintableLabel("GradingCheck2");
  }

  lemma PrintableText(s: string)
    requires s == PASS_TEXT || s == FAIL_TEXT
    ensures '\n' !in s && Stripped(s)
  {
    assert s[0] != ' ' && s[|s| - 1] == 'e';
    assert forall i :: 0 <= i < |s| ==> s[i] != '\n';
  }

  lemma PrintableLabel(k: string)
    requires k == "GradingCheck1" || k == "GradingCheck2"
    ensures ':' !in k && '\n' !in k && Stripped(k)
  {
    assert k[0] == 'G' && k[|k| - 1] != ' ';
  }

  /** Fewer than two arguments raise before anything is printed. */
  lemma ArgsTooFew(args: seq<string>)
    requires |args| < 2
    ensures ArgsMain(args) == Raised && RunOf(ArgsMain(args)).stdout == ""
  {
  }
}
