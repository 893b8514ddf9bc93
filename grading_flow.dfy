/**
 * The manual grading run: `get_results`, `do_grade` and its callback
 * `done_grading`, built from the pieces in `Grading`.
 */
module GradingFlow {
  import opened Outcomes
  import opened Text
  import opened Dicts
  import opened Protocol
  import opened AppGlobals
  import opened Tracking
  import opened Submission
  import opened Grading

  /** The settings a grading run reads. */
  datatype RunConfig = RunConfig(parts: Dict<Part>, phasesEnabled: bool, cmi5: bool, graderPost: bool, order: seq<string>)

  /** What a grading run changes: the question, answer and phase rows, `current_phase` and `fatal_error`. */
  datatype RunState = RunState(questions: seq<QuestionRow>, answered: seq<Answered>, phases: seq<PhaseRow>,
                               current: Option<string>, fatal: bool)

  function ConfigOf(g: Globals): RunConfig
    reads g
  {
    RunConfig(g.gradingParts, g.phasesEnabled, g.cmi5Enabled, g.graderPost, g.phaseOrder)
  }

  function StateOf(reg: Registry, g: Globals): RunState
    reads reg, g
  {
    RunState(reg.questions, reg.answered, reg.phases, g.currentPhase, g.fatalError)
  }

  /** How a grading run ended: its results and tokens, or an exception. */
  datatype GradeOutcome = Graded(results: Dict<string>, tokens: Dict<string>) | Aborted

  /**
   * Whether `get_results` runs to its end: the token loop finds a question
   * row for every label it needs, and the phase update (when phases are on)
   * finds a row for every phase of the order it walks.
   */
  predicate ResultsComplete(qs: seq<QuestionRow>, parts: Dict<Part>, src: TokenSource, results: Dict<string>,
                            phasesEnabled: bool, ps: seq<PhaseRow>, order: seq<string>, now: string)
  {
    !Tokens(qs, parts, src, results).exited
    && (phasesEnabled ==> !ScanPhases(ps, qs, order, now).ScanExit?)
  }

  /**
   * `get_results(results)` from the state `st`. A token read that fails
   * while posting sets `fatal_error`, also when a later label then exits.
   * With phases on and every token read, the phase update commits its rows
   * and moves `current_phase` to the phase it stops at. The run is graded
   * exactly when nothing exits, with the results of configured parts and the
   * tokens read.
   */
  function ResultsOf(cfg: RunConfig, st: RunState, results: Dict<string>, src: TokenSource, now: string)
    : (RunState, GradeOutcome)
  {
    var t := Tokens(st.questions, cfg.parts, src, results);
    var read := st.(fatal := st.fatal || (cfg.graderPost && t.failed));
    var graded := Graded(Restrict(results, Keys(cfg.parts)), t.tokens);
    if t.exited then (read, Aborted)
    else if !cfg.phasesEnabled then (read, graded)
    else
      var s := ScanPhases(st.phases, st.questions, cfg.order, now);
      (read.(phases := s.ps, current := if s.ScanStop? then Some(s.current) else st.current),
       if s.ScanExit? then Aborted else graded)
  }

  /**
   * `get_results(results)`: the results restricted to configured parts, one
   * token per result, and the phase update when phases are enabled. `false`
   * is an exit (a result label without a question row, or a missing row in
   * the phase update). The "Success" rewrite of a result for an already
   * solved question is made on the dict the caller passed, after the copy
   * that is returned, so it never shows in the returned results.
   */
  method GetResults(reg: Registry, g: Globals, results: Dict<string>, src: TokenSource, now: string)
    returns (ok: bool, endResults: Dict<string>, tokens: Dict<string>)
    modifies g`fatalError, reg`phases, g`currentPhase
    ensures endResults == Restrict(results, Keys(g.gradingParts))
    ensures tokens == Tokens(reg.questions, g.gradingParts, src, results).tokens
    ensures ok <==> ResultsComplete(reg.questions, g.gradingParts, src, results, g.phasesEnabled, old(reg.phases), g.phaseOrder, now)
    ensures (StateOf(reg, g), if ok then Graded(endResults, tokens) else Aborted)
      == ResultsOf(ConfigOf(g), old(StateOf(reg, g)), results, src, now)
  {
    endResults := Restrict(results, Keys(g.gradingParts));
    var exited;
    exited, tokens := TokenLoop(reg, g, results, src);
    if exited {
      return false, endResults, tokens;
    }
    if g.phasesEnabled {
      ok := reg.UpdatePhases(g, now);
    } else {
      ok := true;
    }
  }

  /** The token loop of `get_results`; `exited` is the exit on a missing question row. */
  method TokenLoop(reg: Registry, g: Globals, results: Dict<string>, src: TokenSource)
    returns (exited: bool, tokens: Dict<string>)
    modifies g`fatalError
    ensures var t := Tokens(reg.questions, g.gradingParts, src, results);
      exited == t.exited && tokens == t.tokens && g.fatalError == (old(g.fatalError) || (g.graderPost && t.failed))
  {
    ghost var outs := TokenOutcomes(reg.questions, g.gradingParts, src, results);
    tokens := [];
    exited := false;
    var failed := false;
    var i := 0;
    while i < |results| && !exited
      invariant 0 <= i <= |results|
      invariant Collect(outs[..i]) == TokenRun(tokens, failed, exited)
      invariant g.fatalError == (old(g.fatalError) || (g.graderPost && failed))
    {
      assert outs[..i + 1][..i] == outs[..i];
      var (key, value) := results[i];
      var out := TokenStep(reg, g, src, key, value);
      if out.None? {
        exited := true;
      } else {
        var (token, bad) := out.value;
        if bad && g.graderPost {
          g.fatalError := true;
        }
        tokens := tokens + [(key, token)];
        failed := failed || bad;
      }
      i := i + 1;
    }
    if exited {
      CollectExitStays(outs, i);
    } else {
      assert outs[..i] == outs;
    }
  }

  /** One pass of the token loop of `get_results`; `None` is the exit on a missing question row. */
  method TokenStep(reg: Registry, g: Globals, src: TokenSource, key: string, value: string)
    returns (out: Option<(string, bool)>)
    ensures out == TokenFor(reg.questions, g.gradingParts, src, key, value)
  {
    if ContainsLower(value, "success") {
      return Some(ReadToken(g.gradingParts, src, key));
    }
    var solved := reg.Solved(key);
    if solved.None? {
      return None;
    }
    out := if solved.value then Some(ReadToken(g.gradingParts, src, key)) else Some((NO_TOKEN, false));
  }

  // ---------------------------------------------------------------------------
  // Results once every phase is solved

  /** `[f'{k} : Success' for k in grading_parts.keys()]`. */
  function SuccessLines(keys: seq<string>): (r: seq<string>)
    ensures |r| == |keys|
    ensures forall i :: 0 <= i < |keys| ==> r[i] == keys[i] + " : Success"
  {
    if keys == [] then [] else [keys[0] + " : Success"] + SuccessLines(keys[1..])
  }

  /**
   * `dict(items)` for a list of strings: every item must be a two-character
   * string (its characters become a key and a value), otherwise `ValueError`,
   * modelled as `None`.
   */
  function DictOfStrings(items: seq<string>): Option<Dict<string>> {
    if items == [] then Some([])
    else
      var last := items[|items| - 1];
      match DictOfStrings(items[..|items| - 1])
      case None => None
      case Some(d) => if |last| != 2 then None else Some(Put(d, [last[0]], [last[1]]))
  }

  /**
   * As written, the results for a completed challenge raise `ValueError` as
   * soon as one part is configured: every item is at least ten characters.
   */
  lemma CompletedAsWrittenRaises(parts: Dict<Part>)
    requires parts != []
    ensures DictOfStrings(SuccessLines(Keys(parts))).None?
  {
    var lines := SuccessLines(Keys(parts));
    assert |lines[|lines| - 1]| >= 10;
  }

  /** The intended results once every phase is solved: "Success" for every part. */
  function AllSuccess(parts: Dict<Part>): (r: Dict<string>)
    ensures Keys(r) == Keys(parts)
    ensures forall k :: Get(r, k) == if HasKey(parts, k) then Some("Success") else None
  {
    if parts == [] then [] else [(parts[0].0, "Success")] + AllSuccess(parts[1..])
  }

  lemma SuccessMentionsSuccess()
    ensures ContainsLower("Success", "success")
  {
    assert Lower("Success") == "success";
    ContainsAt("success", "success", 0);
  }

  /**
   * With every part at "Success", every configured part earns the token read
   * for it and no question lookup is needed, so the loop never exits.
   */
  lemma CompletedEarnsTokens(qs: seq<QuestionRow>, parts: Dict<Part>, src: TokenSource)
    ensures !Tokens(qs, parts, src, AllSuccess(parts)).exited
    ensures var t := Tokens(qs, parts, src, AllSuccess(parts));
      |t.tokens| == |parts|
      && forall i :: 0 <= i < |parts| ==> t.tokens[i] == (parts[i].0, ReadToken(parts, src, parts[i].0).0)
  {
    var results := AllSuccess(parts);
    SuccessMentionsSuccess();
    assert forall i :: 0 <= i < |results| ==> results[i] == (parts[i].0, "Success") by {
      forall i | 0 <= i < |results|
        ensures results[i] == (parts[i].0, "Success")
      {
        assert Keys(results)[i] == Keys(parts)[i];
        AllSuccessValues(parts, i);
      }
    }
    TokensExit(qs, parts, src, results);
    TokensExact(qs, parts, src, results);
  }

  lemma {:induction false} AllSuccessValues(parts: Dict<Part>, i: nat)
    requires i < |parts|
    ensures |AllSuccess(parts)| == |parts| && AllSuccess(parts)[i].1 == "Success"
  {
    assert |AllSuccess(parts)| == |Keys(AllSuccess(parts))|;
    if i > 0 {
      AllSuccessValues(parts[1..], i - 1);
    }
  }

  // ---------------------------------------------------------------------------
  // do_grade

  /** The results committed and returned: the parsed output, with "Failed" defaults when phases are off. */
  function ScriptResults(parts: Dict<Part>, phasesEnabled: bool, output: string): Dict<string> {
    if phasesEnabled then ParseOutput(output) else Defaulted(ParseOutput(output), parts, MANUAL_MODE)
  }

  /** The script's invocation for a run: the forwarded answers and the phase being graded. */
  function InvocationFor(list: seq<(string, string)>, phase: Option<string>): Invocation {
    Invocation(FromPairs(list), phase)
  }

  /**
   * The end of `do_grade` for the results it commits, from the state `st`:
   * `update_db` for every result, up to the first one that exits, then
   * `get_results` when none did.
   */
  function ResultsGrade(cfg: RunConfig, st: RunState, gradeArgs: Dict<string>, results: Dict<string>,
                        src: TokenSource, now: string): (RunState, GradeOutcome)
  {
    var c := Commits(st.questions, st.answered, results, gradeArgs, now, cfg.cmi5, cfg.parts);
    var committed := st.(questions := c.0, answered := c.1);
    if c.2 then ResultsOf(cfg, committed, results, src, now) else (committed, Aborted)
  }

  /**
   * The part of `do_grade` from the script call on: run the script, record
   * its parsed output as an event, set `fatal_error` on a failed run, default
   * missing manual parts to "Failed" when phases are off, commit every
   * result, and collect the tokens.
   */
  method RunScript(reg: Registry, g: Globals, gradeArgs: Dict<string>, phase: Option<string>,
                   run: Invocation -> ScriptRun, src: TokenSource, now: string)
    returns (r: GradeOutcome)
    modifies g`fatalError, g`currentPhase, reg`questions, reg`answered, reg`events, reg`phases
    ensures reg.events == old(reg.events) + CallLog(run, Some(Invocation(gradeArgs, phase)))
    ensures (StateOf(reg, g), r) == ScriptGradeOf(ConfigOf(g), old(StateOf(reg, g)), Invocation(gradeArgs, phase), run, src, now)
  {
    var out := ScriptOutput(run(Invocation(gradeArgs, phase)));
    if out.1 {
      g.fatalError := true;
    }
    var parsed, results := ReadScriptResults(g, out.0);
    reg.events := reg.events + [GradingResult(parsed)];
    r := CommitResults(reg, g, results, gradeArgs, src, now);
  }

  /** The script's parsed output, and the results with the "Failed" defaults when phases are off. */
  method ReadScriptResults(g: Globals, output: string) returns (parsed: Dict<string>, results: Dict<string>)
    ensures parsed == ParseOutput(output)
    ensures results == ScriptResults(g.gradingParts, g.phasesEnabled, output)
  {
    parsed := ReadResults(output);
    results := parsed;
    if !g.phasesEnabled {
      results := DefaultParts(parsed, g.gradingParts, MANUAL_MODE);
    }
  }

  /** The end of `do_grade`: `update_db` for every result, then `get_results`. */
  method CommitResults(reg: Registry, g: Globals, results: Dict<string>, gradeArgs: Dict<string>, src: TokenSource, now: string)
    returns (r: GradeOutcome)
    modifies g`fatalError, g`currentPhase, reg`questions, reg`answered, reg`phases
    ensures r.Graded? <==>
      Commits(old(reg.questions), old(reg.answered), results, gradeArgs, now, g.cmi5Enabled, g.gradingParts).2
      && ResultsComplete(reg.questions, g.gradingParts, src, results, g.phasesEnabled, old(reg.phases), g.phaseOrder, now)
    ensures (StateOf(reg, g), r) == ResultsGrade(ConfigOf(g), old(StateOf(reg, g)), gradeArgs, results, src, now)
  {
    var committed := Commit(reg, g, results, gradeArgs, now);
    if !committed {
      return Aborted;
    }
    var ok, res, toks := GetResults(reg, g, results, src, now);
    r := if ok then Graded(res, toks) else Aborted;
  }

  /**
   * The script's run from the state `st`: a failed run sets `fatal_error`,
   * and the parsed output, with the "Failed" defaults when phases are off,
   * is committed (`ResultsGrade`).
   */
  function ScriptGradeOf(cfg: RunConfig, st: RunState, c: Invocation, run: Invocation -> ScriptRun,
                         src: TokenSource, now: string): (RunState, GradeOutcome)
  {
    var out := ScriptOutput(run(c));
    ResultsGrade(cfg, st.(fatal := st.fatal || out.1), c.answers, ScriptResults(cfg.parts, cfg.phasesEnabled, out.0), src, now)
  }

  /**
   * The script's invocation for the forwarded answers: with the current
   * phase when phases are on, and `None` when there is no current phase or
   * it is "completed".
   */
  function PhaseCall(phasesEnabled: bool, order: seq<string>, gradeArgs: Dict<string>, ps: seq<PhaseRow>): Option<Invocation> {
    var phase := CurrentPhase(ps, order);
    if !phasesEnabled then Some(Invocation(gradeArgs, None))
    else if phase.None? || phase == Some("completed") then None
    else Some(Invocation(gradeArgs, phase))
  }

  /** The script's invocation when `do_grade(args)` reaches it; `None` also for a refused form. */
  function ScriptCall(parts: Dict<Part>, phasesEnabled: bool, order: seq<string>, args: Dict<string>, ps: seq<PhaseRow>)
    : Option<Invocation>
  {
    match ForwardList(args, parts)
    case None => None
    case Some(list) => PhaseCall(phasesEnabled, order, FromPairs(list), ps)
  }

  /**
   * The phase logic of `do_grade` and what follows it, from the state `st`
   * with the forwarded answers `gradeArgs`. No current phase stops there. A
   * current phase other than "completed" is stored and the script runs for
   * it. In the "completed" phase no script runs: any configured part raises
   * (`GradeCompleted`), and with none `get_results` runs on no results.
   */
  function PhaseGradeOf(cfg: RunConfig, st: RunState, gradeArgs: Dict<string>, run: Invocation -> ScriptRun,
                        src: TokenSource, now: string): (RunState, GradeOutcome)
  {
    match PhaseCall(cfg.phasesEnabled, cfg.order, gradeArgs, st.phases)
    case Some(c) => ScriptGradeOf(cfg, if cfg.phasesEnabled then st.(current := c.phase) else st, c, run, src, now)
    case None =>
      if CurrentPhase(st.phases, cfg.order).None? || cfg.parts != [] then (st, Aborted)
      else ResultsOf(cfg, st, [], src, now)
  }

  /**
   * `do_grade(args)` from the state `st`: `fatal_error` is cleared first; a
   * refused form stops there; otherwise the forwarded answers go through
   * the phase logic and the script (`PhaseGradeOf`).
   */
  function DoGradeOf(cfg: RunConfig, st: RunState, args: Dict<string>, run: Invocation -> ScriptRun,
                     src: TokenSource, now: string): (RunState, GradeOutcome)
  {
    var cleared := st.(fatal := false);
    match ForwardList(args, cfg.parts)
    case None => (cleared, Aborted)
    case Some(list) => PhaseGradeOf(cfg, cleared, FromPairs(list), run, src, now)
  }

  /** The event a script run logs: its parsed output; none when the script did not run. */
  function CallLog(run: Invocation -> ScriptRun, call: Option<Invocation>): seq<Event> {
    if call.None? then [] else [GradingResult(ParseOutput(ScriptOutput(run(call.value)).0))]
  }

  /** The events `do_grade(args)` logs: the script's parsed output when it ran. */
  function GradeLog(parts: Dict<Part>, phasesEnabled: bool, order: seq<string>, args: Dict<string>,
                    run: Invocation -> ScriptRun, ps: seq<PhaseRow>): seq<Event>
  {
    CallLog(run, ScriptCall(parts, phasesEnabled, order, args, ps))
  }

  /**
   * `fatal_error` after `do_grade(args)`: set exactly when the script ran
   * and either failed, or committed all its results and then a token read
   * failed while posting. It is never left over from an earlier run.
   */
  lemma DoGradeFatal(cfg: RunConfig, st: RunState, args: Dict<string>, run: Invocation -> ScriptRun,
                     src: TokenSource, now: string)
    ensures DoGradeOf(cfg, st, args, run, src, now).0.fatal <==>
      match ScriptCall(cfg.parts, cfg.phasesEnabled, cfg.order, args, st.phases)
      case None => false
      case Some(c) =>
        var out := ScriptOutput(run(c));
        var results := ScriptResults(cfg.parts, cfg.phasesEnabled, out.0);
        var commit := Commits(st.questions, st.answered, results, c.answers, now, cfg.cmi5, cfg.parts);
        out.1 || (commit.2 && cfg.graderPost && Tokens(commit.0, cfg.parts, src, results).failed)
  {
    var cleared := st.(fatal := false);
    match ScriptCall(cfg.parts, cfg.phasesEnabled, cfg.order, args, st.phases)
    case None =>
      assert TokenOutcomes(st.questions, cfg.parts, src, []) == [];
      ResultsOfFatal(cfg, cleared, [], src, now);
    case Some(c) =>
      var out := ScriptOutput(run(c));
      var stored := if cfg.phasesEnabled then cleared.(current := c.phase) else cleared;
      var results := ScriptResults(cfg.parts, cfg.phasesEnabled, out.0);
      assert DoGradeOf(cfg, st, args, run, src, now) == ScriptGradeOf(cfg, stored, c, run, src, now);
      ResultsGradeFatal(cfg, stored.(fatal := out.1), c.answers, results, src, now);
  }

  /** `get_results` sets `fatal_error` exactly for a failed read while posting. */
  lemma ResultsOfFatal(cfg: RunConfig, st: RunState, results: Dict<string>, src: TokenSource, now: string)
    ensures ResultsOf(cfg, st, results, src, now).0.fatal
      == (st.fatal || (cfg.graderPost && Tokens(st.questions, cfg.parts, src, results).failed))
  {
  }

  lemma ResultsGradeFatal(cfg: RunConfig, st: RunState, gradeArgs: Dict<string>, results: Dict<string>,
                          src: TokenSource, now: string)
    ensures var c := Commits(st.questions, st.answered, results, gradeArgs, now, cfg.cmi5, cfg.parts);
      ResultsGrade(cfg, st, gradeArgs, results, src, now).0.fatal
        == (st.fatal || (c.2 && cfg.graderPost && Tokens(c.0, cfg.parts, src, results).failed))
  {
    var c := Commits(st.questions, st.answered, results, gradeArgs, now, cfg.cmi5, cfg.parts);
    ResultsOfFatal(cfg, st.(questions := c.0, answered := c.1), results, src, now);
  }

  /**
   * After a graded run with phases on, `current_phase` is the phase
   * `get_current_phase` names on the new phase rows, unless every phase is
   * now solved.
   */
  lemma DoGradeCurrentPhase(cfg: RunConfig, st: RunState, args: Dict<string>, run: Invocation -> ScriptRun,
                            src: TokenSource, now: string)
    requires cfg.phasesEnabled && DoGradeOf(cfg, st, args, run, src, now).1.Graded?
    ensures var after := DoGradeOf(cfg, st, args, run, src, now).0;
      CurrentPhase(after.phases, cfg.order) in {Some("completed"), after.current}
  {
    var cleared := st.(fatal := false);
    var phase := CurrentPhase(st.phases, cfg.order);
    match ScriptCall(cfg.parts, cfg.phasesEnabled, cfg.order, args, st.phases)
    case None =>
      assert DoGradeOf(cfg, st, args, run, src, now) == ResultsOf(cfg, cleared, [], src, now);
      ResultsOfCurrentPhase(cfg, cleared, [], src, now);
    case Some(c) =>
      var out := ScriptOutput(run(c));
      var stored := cleared.(current := c.phase, fatal := out.1);
      var results := ScriptResults(cfg.parts, cfg.phasesEnabled, out.0);
      assert DoGradeOf(cfg, st, args, run, src, now) == ScriptGradeOf(cfg, cleared.(current := c.phase), c, run, src, now);
      var commit := Commits(st.questions, st.answered, results, c.answers, now, cfg.cmi5, cfg.parts);
      ResultsOfCurrentPhase(cfg, stored.(questions := commit.0, answered := commit.1), results, src, now);
  }

  /** The phase update of a graded `get_results` leaves `current_phase` at the phase it stopped at. */
  lemma ResultsOfCurrentPhase(cfg: RunConfig, st: RunState, results: Dict<string>, src: TokenSource, now: string)
    requires cfg.phasesEnabled && st.phases != [] && ResultsOf(cfg, st, results, src, now).1.Graded?
    ensures var after := ResultsOf(cfg, st, results, src, now).0;
      CurrentPhase(after.phases, cfg.order) in {Some("completed"), after.current}
  {
    ScanAgreesWithCurrentPhase(st.phases, st.questions, cfg.order, now);
    ScanMonotone(st.phases, st.questions, cfg.order, now);
  }

  /**
   * `do_grade(args)`. The script is called only when phases are off or the
   * current phase is not "completed". For a completed challenge the results
   * are built as `dict` of the lines `"<part> : Success"`, which raises as
   * soon as a part is configured (see `CompletedAsWrittenRaises`); with no
   * parts they are empty and only the phase update runs.
   */
  method DoGrade(reg: Registry, g: Globals, args: Dict<string>, run: Invocation -> ScriptRun, src: TokenSource, now: string)
    returns (r: GradeOutcome)
    modifies g`fatalError, g`currentPhase, reg`questions, reg`answered, reg`events, reg`phases
    ensures (StateOf(reg, g), r) == DoGradeOf(ConfigOf(g), old(StateOf(reg, g)), args, run, src, now)
    ensures reg.events == old(reg.events) + GradeLog(g.gradingParts, g.phasesEnabled, g.phaseOrder, args, run, old(reg.phases))
  {
    g.fatalError := false;
    var list := Forward(args, g.gradingParts);
    if list.None? {
      return Aborted;
    }
    r := GradePhase(reg, g, FromPairs(list.value), run, src, now);
  }

  /** The phase logic of `do_grade` and the script run or the completed branch that follows it. */
  method GradePhase(reg: Registry, g: Globals, gradeArgs: Dict<string>, run: Invocation -> ScriptRun, src: TokenSource, now: string)
    returns (r: GradeOutcome)
    modifies g`fatalError, g`currentPhase, reg`questions, reg`answered, reg`events, reg`phases
    ensures (StateOf(reg, g), r) == PhaseGradeOf(ConfigOf(g), old(StateOf(reg, g)), gradeArgs, run, src, now)
    ensures reg.events == old(reg.events) + CallLog(run, PhaseCall(g.phasesEnabled, g.phaseOrder, gradeArgs, old(reg.phases)))
  {
    ghost var cfg := ConfigOf(g);
    ghost var before := StateOf(reg, g);
    ghost var call := PhaseCall(g.phasesEnabled, g.phaseOrder, gradeArgs, reg.phases);
    var phase: Option<string> := None;
    if g.phasesEnabled {
      var current := reg.GetCurrentPhase(g);
      if current.None? {
        assert PhaseGradeOf(cfg, before, gradeArgs, run, src, now) == (before, Aborted);
        return Aborted;
      }
      if current.value == "completed" {
        assert call.None?;
        r := GradeCompleted(reg, g, src, now);
        return;
      }
      phase := current;
      assert StateOf(reg, g) == before.(current := phase);
    }
    assert call == Some(Invocation(gradeArgs, phase));
    r := RunScript(reg, g, gradeArgs, phase, run, src, now);
  }

  /**
   * The completed branch of `do_grade` as written: `dict` over the lines
   * `"<part> : Success"`, which is `ValueError` for any configured part,
   * then `get_results` on what it built.
   */
  method GradeCompleted(reg: Registry, g: Globals, src: TokenSource, now: string) returns (r: GradeOutcome)
    modifies g`fatalError, g`currentPhase, reg`phases
    ensures g.gradingParts != [] ==> r.Aborted? && unchanged(reg) && unchanged(g)
    ensures g.gradingParts == [] ==> (StateOf(reg, g), r) == ResultsOf(ConfigOf(g), old(StateOf(reg, g)), [], src, now)
    ensures r.Graded? ==> (r.results, r.tokens) == ([], [])
  {
    var done := DictOfStrings(SuccessLines(Keys(g.gradingParts)));
    if done.None? {
      return Aborted;
    }
    if g.gradingParts != [] {
      CompletedAsWrittenRaises(g.gradingParts);
      assert false;
    }
    assert done.value == [];
    assert Tokens(reg.questions, g.gradingParts, src, []).tokens == [];
    var ok, res, toks := GetResults(reg, g, [], src, now);
    r := if ok then Graded(res, toks) else Aborted;
  }

  /**
   * `done_grading(future)`: a failed run changes nothing; otherwise the
   * results and tokens are published, the solves recorded, and the tokens
   * posted when the gameboard is configured.
   */
  method DoneGrading(reg: Registry, g: Globals, outcome: GradeOutcome, replies: seq<Reply>)
    modifies g`manualResults, g`manualTokens, reg`events, g`gradingVerb, g`fatalError
    ensures outcome.Aborted? ==> unchanged(g) && unchanged(reg)
    ensures outcome.Graded? ==>
      g.manualResults == Some(outcome.results) && g.manualTokens == outcome.tokens
      && reg.events == old(reg.events) + QuestionEvents(reg.questions) + PhaseEvents(reg.phases)
    ensures outcome.Graded? && g.graderPost ==>
      var s := Submit(old(g.gradingVerb), replies, 4, VERB_AFTER_405);
      g.gradingVerb == s.1 && g.fatalError == !s.0
    ensures outcome.Aborted? || !g.graderPost ==>
      g.gradingVerb == old(g.gradingVerb) && g.fatalError == old(g.fatalError)
  {
    if outcome.Aborted? {
      return;
    }
    g.manualResults := Some(outcome.results);
    g.manualTokens := outcome.tokens;
    reg.RecordSolves();
    if g.graderPost {
      var payload, sent := PostSubmission(g, outcome.tokens, replies);
    }
  }
}
