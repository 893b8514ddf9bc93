/**
 * Cron-style grading: the settings read at start-up (`set_cron_vars`), one
 * unattended grading run (`do_cron_grade`) and the loop that repeats it
 * (`run_cron_thread`). Environment lookups, the script run, the wall clock
 * and the gameboard's replies are parameters; `sleep` is left out.
 */
module Cron {
  import opened Outcomes
  import opened Text
  import opened Dicts
  import opened Protocol
  import opened AppGlobals
  import opened Tracking
  import opened Submission
  import opened Grading

  // ---------------------------------------------------------------------------
  // set_cron_vars

  /** The lookups `set_cron_vars` makes: environment values, configuration values, the clock. */
  datatype CronInputs = CronInputs(
    scriptEnv: Option<string>, scriptConf: Option<string>, executable: bool,
    intervalEnv: Option<string>, intervalConf: Setting,
    limitEnv: Option<string>, limitConf: Setting,
    delayEnv: Option<string>, delayConf: Setting,
    atEnv: Option<string>, atConf: Setting,
    nowOfDay: int)

  /** The cron settings once read. */
  datatype CronVars = CronVars(script: string, interval: int, limit: int, delay: int, at: Option<string>, kind: string)

  /** `int(env or conf or default)`; `None` is the error `int()` raises. */
  function CronSetting(env: Option<string>, conf: Setting, default: int): Option<int> {
    var v := EnvOr(env, conf);
    if Truthy(v) then IntOf(v) else Some(default)
  }

  /**
   * Seconds from `nowOfDay` (seconds since midnight) until today at the
   * "HH:MM" time `at`; `None` is the error raised for a value without ':',
   * a non-number, or an hour or minute out of range.
   */
  function AtOffset(at: string, nowOfDay: int): Option<int> {
    var fields := Split(at, ':');
    if |fields| < 2 then None
    else
      var h, m := ParseInt(fields[0]), ParseInt(fields[1]);
      if h.None? || m.None? then None else ClockOffset(h.value, m.value, nowOfDay)
  }

  /** `datetime(..., hour=h, minute=m) - now` in seconds; `None` for an hour or minute out of range. */
  function ClockOffset(h: int, m: int, nowOfDay: int): Option<int> {
    if !(0 <= h < 24) || !(0 <= m < 60) then None else Some(h * 3600 + m * 60 - nowOfDay)
  }

  /**
   * The `cron_at` step: no time means "every" and no added delay; a time
   * means "at" and the seconds until it are added to the delay.
   */
  function CronStart(at: Setting, nowOfDay: int, delay: int): Option<(Option<string>, string, int)> {
    if !Truthy(at) then Some((None, "every", delay))
    else if !at.Str? then None
    else
      var offset := AtOffset(at.s, nowOfDay);
      if offset.None? then None else Some((Some(at.s), "at", delay + offset.value))
  }

  /** What `set_cron_vars` sets, or `None` when it exits or raises. */
  function CronVarsOf(inp: CronInputs): Option<CronVars> {
    var script := if inp.scriptEnv.Some? && inp.scriptEnv.value != "" then inp.scriptEnv
                  else inp.scriptConf;
    if script.None? || script.value == "" || !inp.executable then None
    else
      var interval := CronSetting(inp.intervalEnv, inp.intervalConf, 60);
      var limit := CronSetting(inp.limitEnv, inp.limitConf, -1);
      var delay := CronSetting(inp.delayEnv, inp.delayConf, 0);
      if interval.None? || limit.None? || delay.None? then None
      else
        var start := CronStart(EnvOr(inp.atEnv, inp.atConf), inp.nowOfDay, delay.value);
        if start.None? then None
        else Some(CronVars(script.value, interval.value, limit.value, start.value.2, start.value.0, start.value.1))
  }

  /**
   * `set_cron_vars(conf)`: "cron" is appended to the grading modes on every
   * call, before any check; `false` is an exit or a raised error.
   */
  method SetCronVars(g: Globals, inp: CronInputs) returns (ok: bool)
    modifies g`gradingMode, g`cronGradingScript, g`cronInterval, g`cronLimit, g`cronDelay, g`cronAt, g`cronType
    ensures g.gradingMode == old(g.gradingMode) + ["cron"]
    ensures ok <==> CronVarsOf(inp).Some?
    ensures ok ==> var c := CronVarsOf(inp).value;
      g.cronGradingScript == c.script && g.cronInterval == Some(c.interval) && g.cronLimit == Some(c.limit)
      && g.cronDelay == Some(c.delay) && g.cronAt == c.at && g.cronType == Some(c.kind)
  {
    g.gradingMode := g.gradingMode + ["cron"];
    var script := if inp.scriptEnv.Some? && inp.scriptEnv.value != "" then inp.scriptEnv else inp.scriptConf;
    if script.None? || script.value == "" {
      return false;
    }
    g.cronGradingScript := script.value;
    if !inp.executable {
      return false;
    }
    var interval := CronSetting(inp.intervalEnv, inp.intervalConf, 60);
    if interval.None? {
      return false;
    }
    g.cronInterval := interval;
    var limit := CronSetting(inp.limitEnv, inp.limitConf, -1);
    if limit.None? {
      return false;
    }
    g.cronLimit := limit;
    var delay := CronSetting(inp.delayEnv, inp.delayConf, 0);
    if delay.None? {
      return false;
    }
    g.cronDelay := delay;
    ok := SetCronStart(g, EnvOr(inp.atEnv, inp.atConf), inp.nowOfDay, delay.value);
  }

  /** The `cron_at` part of `set_cron_vars`. */
  method SetCronStart(g: Globals, at: Setting, nowOfDay: int, delay: int) returns (ok: bool)
    modifies g`cronAt, g`cronType, g`cronDelay
    ensures ok <==> CronStart(at, nowOfDay, delay).Some?
    ensures ok ==> var c := CronStart(at, nowOfDay, delay).value;
      (g.cronAt, g.cronType, g.cronDelay) == (c.0, Some(c.1), Some(c.2))
  {
    if Truthy(at) {
      if !at.Str? {
        return false;
      }
      ok := SetCronAt(g, at.s, nowOfDay, delay);
      CronStartAt(at, nowOfDay, delay);
    } else {
      g.cronAt := None;
      g.cronType := Some("every");
      g.cronDelay := Some(delay);
      ok := true;
    }
  }

  lemma CronStartAt(at: Setting, nowOfDay: int, delay: int)
    requires Truthy(at) && at.Str?
    ensures CronStart(at, nowOfDay, delay).Some? <==> AtOffset(at.s, nowOfDay).Some?
    ensures CronStart(at, nowOfDay, delay).Some? ==>
      CronStart(at, nowOfDay, delay).value == (Some(at.s), "at", delay + AtOffset(at.s, nowOfDay).value)
  {
  }

  /** A start time is set: the type is "at", and the seconds until that time are added to the delay. */
  method SetCronAt(g: Globals, at: string, nowOfDay: int, delay: int) returns (ok: bool)
    modifies g`cronAt, g`cronType, g`cronDelay
    ensures g.cronAt == Some(at) && g.cronType == Some("at")
    ensures ok <==> AtOffset(at, nowOfDay).Some?
    ensures ok ==> g.cronDelay == Some(delay + AtOffset(at, nowOfDay).value)
  {
    g.cronAt := Some(at);
    g.cronType := Some("at");
    var o := AtOffset(at, nowOfDay);
    if o.None? {
      return false;
    }
    g.cronDelay := Some(delay + o.value);
    ok := true;
  }

  /** Nothing configured: every 60 seconds, without limit, starting at once. */
  lemma CronDefaults(inp: CronInputs)
    requires inp.scriptEnv == Some("grade.sh") && inp.executable
    requires inp.intervalEnv.None? && inp.limitEnv.None? && inp.delayEnv.None? && inp.atEnv.None?
    requires inp.intervalConf.Unset? && inp.limitConf.Unset? && inp.delayConf.Unset? && inp.atConf.Unset?
    ensures CronVarsOf(inp) == Some(CronVars("grade.sh", 60, -1, 0, None, "every"))
  {
  }

  /**
   * A configured 0 is falsy and falls through to the default, while "0" from
   * the environment is a non-empty string and is kept.
   */
  lemma ZeroSettings(default: int)
    ensures CronSetting(None, Num(0), default) == Some(default)
    ensures CronSetting(Some("0"), Num(7), default) == Some(0)
  {
    var z := "0";
    assert Strip(z) == z by {
      assert Stripped(z);
      StripStripped(z);
    }
    assert AllDigits(z) && DigitsValue(z) == 0 by {
      assert z[..0] == [];
    }
  }

  lemma NoColonInNumber(n: nat)
    ensures ':' !in NatToString(n)
  {
    var s := NatToString(n);
    assert forall k :: 0 <= k < |s| ==> IsDigit(s[k]);
  }

  /** A time written as two fields around a ':' is read as those fields. */
  lemma AtOffsetOf(hs: string, ms: string, nowOfDay: int)
    requires ':' !in hs && ':' !in ms
    ensures AtOffset(hs + ":" + ms, nowOfDay) ==
      if ParseInt(hs).None? || ParseInt(ms).None? then None else ClockOffset(ParseInt(hs).value, ParseInt(ms).value, nowOfDay)
  {
    assert hs + ":" + ms == hs + [':'] + ms;
    SplitCons(hs, ':', ms);
    assert Split(ms, ':') == [ms];
  }

  /**
   * With `cron_at` set to "H:M" the start delay grows by the seconds until
   * that time today (negative once that time has passed).
   */
  lemma AtDelay(h: nat, m: nat, nowOfDay: int)
    requires h < 24 && m < 60
    ensures AtOffset(IntToString(h) + ":" + IntToString(m), nowOfDay) == Some(h * 3600 + m * 60 - nowOfDay)
  {
    var hs, ms := IntToString(h), IntToString(m);
    ParseIntToString(h);
    ParseIntToString(m);
    assert ClockOffset(h, m, nowOfDay) == Some(h * 3600 + m * 60 - nowOfDay);
    NoColonInNumber(h);
    NoColonInNumber(m);
    AtOffsetOf(hs, ms, nowOfDay);
  }

  /** The configured delay gets the "at" offset added and nothing else. */
  lemma CronDelayAdds(inp: CronInputs)
    requires CronVarsOf(inp).Some?
    ensures var c := CronVarsOf(inp).value;
      var base := CronSetting(inp.delayEnv, inp.delayConf, 0).value;
      (c.at.None? ==> c.delay == base && c.kind == "every")
      && (c.at.Some? ==> c.kind == "at" && c.delay == base + AtOffset(c.at.value, inp.nowOfDay).value)
  {
  }

  // ---------------------------------------------------------------------------
  // do_cron_grade

  /** The stdout used, and whether the run sets `fatal_error`: only a non-zero exit does. */
  function CronOutput(run: ScriptRun): (r: (string, bool))
    ensures r.1 <==> run.exitCode != 0
    ensures r.1 ==> r.0 == ""
    ensures !r.1 ==> r.0 == run.stdout
  {
    if run.exitCode != 0 then ("", true) else (run.stdout, false)
  }

  /** The parsed output with "Failed" for every cron part that has no result. */
  function CronResults(parts: Dict<Part>, run: ScriptRun): Dict<string> {
    Defaulted(ParseOutput(CronOutput(run).0), parts, ["cron"])
  }

  function CronToken(parts: Dict<Part>, src: TokenSource, key: string, value: string): (string, bool) {
    if ContainsLower(value, "success") then ReadToken(parts, src, key) else (NO_TOKEN, false)
  }

  /**
   * One token per result, in the results' order, and whether some read
   * failed; no question row is consulted.
   */
  function CronTokens(parts: Dict<Part>, src: TokenSource, results: Dict<string>): (Dict<string>, bool) {
    if results == [] then ([], false)
    else
      var prev := CronTokens(parts, src, results[..|results| - 1]);
      var (key, value) := results[|results| - 1];
      var t := CronToken(parts, src, key, value);
      (prev.0 + [(key, t.0)], prev.1 || t.1)
  }

  /**
   * The token read for every result mentioning "success", the refusal text
   * for the others, in the results' order.
   */
  lemma CronTokensExact(parts: Dict<Part>, src: TokenSource, results: Dict<string>)
    ensures var t := CronTokens(parts, src, results).0;
      |t| == |results|
      && forall i :: 0 <= i < |results| ==>
           t[i] == (results[i].0, if ContainsLower(results[i].1, "success") then ReadToken(parts, src, results[i].0).0 else NO_TOKEN)
  {
    CronTokensAt(parts, src, results);
  }

  /** `CronTokens` holds, at each index, that result's label and its `CronToken`. */
  lemma {:induction false} CronTokensAt(parts: Dict<Part>, src: TokenSource, results: Dict<string>)
    ensures var t := CronTokens(parts, src, results).0;
      |t| == |results|
      && forall i :: 0 <= i < |results| ==> t[i] == (results[i].0, CronToken(parts, src, results[i].0, results[i].1).0)
  {
    if results != [] {
      var init := results[..|results| - 1];
      var last := results[|results| - 1];
      CronTokensAt(parts, src, init);
      var p := CronTokens(parts, src, init).0;
      var t := CronTokens(parts, src, results).0;
      assert t == p + [(last.0, CronToken(parts, src, last.0, last.1).0)];
      forall i | 0 <= i < |results|
        ensures t[i] == (results[i].0, CronToken(parts, src, results[i].0, results[i].1).0)
      {
        if i < |init| {
          assert init[i] == results[i];
        }
      }
    }
  }

  /** A result that mentions "success" but whose token could not be read. */
  predicate FailedRead(parts: Dict<Part>, src: TokenSource, result: (string, string)) {
    ContainsLower(result.1, "success") && ReadToken(parts, src, result.0).1
  }

  /** A cron token read failed exactly when the read for some "success" result did. */
  lemma {:induction false} CronTokensFailed(parts: Dict<Part>, src: TokenSource, results: Dict<string>)
    ensures CronTokens(parts, src, results).1 <==> exists r :: r in results && FailedRead(parts, src, r)
  {
    if results != [] {
      var init := results[..|results| - 1];
      var last := results[|results| - 1];
      CronTokensFailed(parts, src, init);
      assert results == init + [last];
      assert CronTokens(parts, src, results).1 == (CronTokens(parts, src, init).1 || FailedRead(parts, src, last));
      if r :| r in results && FailedRead(parts, src, r) {
        assert r in init || r == last;
      }
    }
  }

  /** The cron run's results: missing cron parts fail, manual parts are not defaulted. */
  lemma CronResultsGet(parts: Dict<Part>, run: ScriptRun, k: string)
    requires Valid(parts)
    ensures var parsed := ParseOutput(CronOutput(run).0);
      Get(CronResults(parts, run), k) ==
        if HasKey(parsed, k) then Get(parsed, k)
        else if Get(parts, k).Some? && Get(parts, k).value.mode == "cron" then Some("Failed")
        else None
  {
    DefaultedGet(ParseOutput(CronOutput(run).0), parts, ["cron"], k);
  }

  /** The token loop of `do_cron_grade`. */
  method CronTokenLoop(g: Globals, results: Dict<string>, src: TokenSource) returns (tokens: Dict<string>)
    modifies g`fatalError
    ensures var t := CronTokens(g.gradingParts, src, results);
      tokens == t.0 && g.fatalError == (old(g.fatalError) || (g.graderPost && t.1))
  {
    tokens := [];
    var failed := false;
    var i := 0;
    while i < |results|
      invariant 0 <= i <= |results|
      invariant (tokens, failed) == CronTokens(g.gradingParts, src, results[..i])
      invariant g.fatalError == (old(g.fatalError) || (g.graderPost && failed))
    {
      var (key, value) := results[i];
      assert results[..i + 1][..i] == results[..i];
      var t := ("", false);
      if ContainsLower(value, "success") {
        t := ReadToken(g.gradingParts, src, key);
      } else {
        t := (NO_TOKEN, false);
      }
      if t.1 && g.graderPost {
        g.fatalError := true;
      }
      assert results[..i + 1][i] == (key, value);
      tokens := tokens + [(key, t.0)];
      failed := failed || t.1;
      i := i + 1;
    }
    assert results[..i] == results;
  }

  /** The results and tokens of one cron run, and whether it sets `fatal_error`. */
  datatype CronRun = CronRun(results: Dict<string>, tokens: Dict<string>, fatal: bool)

  function CronGrade(parts: Dict<Part>, graderPost: bool, src: TokenSource, run: ScriptRun): CronRun {
    var results := CronResults(parts, run);
    var t := CronTokens(parts, src, results);
    CronRun(Restrict(results, Keys(parts)), t.0, CronOutput(run).1 || (graderPost && t.1))
  }

  /**
   * `c` is the grading of the script run `run`. Like `RoundOf` below it is
   * stated for every run equal to `run`, so that callers holding it do not
   * unfold the grading; `RunOfGrade` gives it in plain terms.
   */
  ghost predicate RunOf(parts: Dict<Part>, post: bool, src: TokenSource, run: ScriptRun, c: CronRun) {
    forall r {:trigger CronGrade(parts, post, src, r)} :: r == run ==> c == CronGrade(parts, post, src, r)
  }

  lemma RunOfGrade(parts: Dict<Part>, post: bool, src: TokenSource, run: ScriptRun, c: CronRun)
    ensures RunOf(parts, post, src, run, c) <==> c == CronGrade(parts, post, src, run)
  {
  }

  /** A run's grading gives its round: the results and tokens it stores. */
  lemma RunOfRound(parts: Dict<Part>, post: bool, src: TokenSource, run: ScriptRun, c: CronRun)
    requires RunOf(parts, post, src, run, c)
    ensures RoundOf(parts, post, src, run, (c.results, c.tokens))
  {
    RunOfGrade(parts, post, src, run, c);
    RoundOfGrade(parts, post, src, run, (c.results, c.tokens));
  }

  /**
   * `round` is what a cron pass stores for the script run `run`: the results
   * and tokens `do_cron_grade` computes from it. It is stated for every run
   * equal to `run`, so that the grading is only unfolded where a proof asks
   * for it; `RoundOfGrade` gives it in plain terms.
   */
  ghost predicate RoundOf(parts: Dict<Part>, post: bool, src: TokenSource, run: ScriptRun, round: (Dict<string>, Dict<string>)) {
    forall r {:trigger CronGrade(parts, post, src, r)} ::
      r == run ==> round == (CronGrade(parts, post, src, r).results, CronGrade(parts, post, src, r).tokens)
  }

  lemma RoundOfGrade(parts: Dict<Part>, post: bool, src: TokenSource, run: ScriptRun, round: (Dict<string>, Dict<string>))
    ensures RoundOf(parts, post, src, run, round) <==>
      round == (CronGrade(parts, post, src, run).results, CronGrade(parts, post, src, run).tokens)
  {
  }

  /**
   * `do_cron_grade()`: parse, default the cron parts, keep only part labels in
   * the results and give every parsed label a token. It takes no registry:
   * cron grading never writes question rows.
   */
  method DoCronGrade(g: Globals, run: ScriptRun, src: TokenSource) returns (endResults: Dict<string>, tokens: Dict<string>)
    modifies g`fatalError
    ensures RunOf(g.gradingParts, g.graderPost, src, run, CronRun(endResults, tokens, g.fatalError))
  {
    g.fatalError := false;
    var out := CronOutput(run);
    if out.1 {
      g.fatalError := true;
    }
    var results := ReadResults(out.0);
    results := DefaultParts(results, g.gradingParts, ["cron"]);
    endResults := Restrict(results, Keys(g.gradingParts));
    tokens := CronTokenLoop(g, results, src);
    RunOfGrade(g.gradingParts, g.graderPost, src, run, CronRun(endResults, tokens, g.fatalError));
  }

  /**
   * What one pass over `tick` leaves in the results, tokens, `fatal_error`
   * and `grading_verb`, the verb having been `verb` before it: the round is
   * the cron grade of the tick's run; with `grader_post` set the flag and the
   * verb are those the submission loop leaves, and otherwise the flag is the
   * grade's own and the verb is unchanged. `PassOfGrade` gives it in plain
   * terms.
   */
  ghost predicate PassOf(parts: Dict<Part>, post: bool, src: TokenSource, tick: Tick, verb: string,
                         after: (Dict<string>, Dict<string>, bool, string))
  {
    if post then
      RoundOf(parts, post, src, tick.run, (after.0, after.1)) &&
      var s := Submit(verb, tick.replies, 4, VERB_AFTER_405); (after.2, after.3) == (!s.0, s.1)
    else
      RunOf(parts, post, src, tick.run, CronRun(after.0, after.1, after.2)) && after.3 == verb
  }

  lemma PassOfGrade(parts: Dict<Part>, post: bool, src: TokenSource, tick: Tick, verb: string,
                    after: (Dict<string>, Dict<string>, bool, string))
    ensures PassOf(parts, post, src, tick, verb, after) <==>
      var c := CronGrade(parts, post, src, tick.run);
      var s := Submit(verb, tick.replies, 4, VERB_AFTER_405);
      (after.0, after.1) == (c.results, c.tokens) &&
      (after.2, after.3) == (if post then (!s.0, s.1) else (c.fatal, verb))
  {
    RoundOfGrade(parts, post, src, tick.run, (after.0, after.1));
    RunOfGrade(parts, post, src, tick.run, CronRun(after.0, after.1, after.2));
  }

  lemma PassOfRound(parts: Dict<Part>, post: bool, src: TokenSource, tick: Tick, verb: string,
                    after: (Dict<string>, Dict<string>, bool, string))
    requires PassOf(parts, post, src, tick, verb, after)
    ensures RoundOf(parts, post, src, tick.run, (after.0, after.1))
  {
    if !post {
      RunOfRound(parts, post, src, tick.run, CronRun(after.0, after.1, after.2));
    }
  }

  // ---------------------------------------------------------------------------
  // run_cron_thread

  function Repeat<T>(s: seq<T>, n: nat): seq<T> {
    if n == 0 then [] else Repeat(s, n - 1) + s
  }

  lemma RepeatMore<T>(prefix: seq<T>, s: seq<T>, n: nat)
    ensures prefix + Repeat(s, n) + s == prefix + Repeat(s, n + 1)
  {
  }

  /**
   * The cron fields after `count` passes of the loop over `ticks`, starting
   * from the limit `n` and the fields `before`: the limit has dropped by
   * `count`, and the fields hold the last pass's clock reading and round.
   */
  predicate Progress(ticks: seq<Tick>, n: int, count: nat, before: (int, Option<Dict<string>>, Dict<string>),
                     limit: Option<int>, now: (int, Option<Dict<string>>, Dict<string>), round: (Dict<string>, Dict<string>))
  {
    limit == Some(n - count) && count <= |ticks| && (n >= 0 ==> count <= n) &&
    (count == 0 ==> now == before) &&
    (0 < count ==> now == (ticks[count - 1].now, Some(round.0), round.1))
  }

  lemma ProgressStep(ticks: seq<Tick>, n: int, count: nat, before: (int, Option<Dict<string>>, Dict<string>),
                     limit: Option<int>, now: (int, Option<Dict<string>>, Dict<string>), round: (Dict<string>, Dict<string>),
                     limit': Option<int>, now': (int, Option<Dict<string>>, Dict<string>), round': (Dict<string>, Dict<string>))
    requires Progress(ticks, n, count, before, limit, now, round)
    requires limit.value != 0 && count < |ticks|
    requires limit' == Some(limit.value - 1) && now' == (ticks[count].now, Some(round'.0), round'.1)
    ensures Progress(ticks, n, count + 1, before, limit', now', round')
  {
  }

  /** What the outside world supplies to one pass of the cron loop. */
  datatype Tick = Tick(run: ScriptRun, now: int, replies: seq<Reply>)

  /**
   * `run_cron_thread()`, cut off after `|ticks|` iterations: the model cannot
   * run forever, so a loop the source never leaves is one still running when
   * the ticks run out. Pass `k` uses the script run, the clock reading and the
   * grader replies of `ticks[k]`; the `record_solves` job runs at once.
   */
  method RunCronThread(g: Globals, reg: Registry, src: TokenSource, ticks: seq<Tick>)
    returns (count: nat, results: Dict<string>, tokens: Dict<string>)
    requires g.cronLimit.Some?
    modifies g`cronLimit, g`cronSubmitTime, g`cronResults, g`cronTokens, g`fatalError, g`gradingVerb, reg`events
    ensures g.cronLimit == Some(old(g.cronLimit).value - count)
    ensures 0 <= old(g.cronLimit).value <= |ticks| ==> count == old(g.cronLimit).value
    ensures old(g.cronLimit).value < 0 || old(g.cronLimit).value > |ticks| ==> count == |ticks|
    ensures count == 0 ==>
      g.cronSubmitTime == old(g.cronSubmitTime) && g.cronResults == old(g.cronResults) && g.cronTokens == old(g.cronTokens)
    ensures 0 < count ==>
      (g.cronSubmitTime, g.cronResults, g.cronTokens) == (ticks[count - 1].now, Some(results), tokens)
      && RoundOf(g.gradingParts, g.graderPost, src, ticks[count - 1].run, (results, tokens))
    ensures count == 0 ==> g.fatalError == old(g.fatalError)
    ensures 0 < count ==> PassOf(g.gradingParts, g.graderPost, src, ticks[count - 1], old(g.gradingVerb),
                                 (results, tokens, g.fatalError, g.gradingVerb))
    ensures g.gradingVerb == old(g.gradingVerb)
    ensures reg.events == old(reg.events) + Repeat(QuestionEvents(reg.questions) + PhaseEvents(reg.phases), count)
  {
    count, results, tokens := 0, [], [];
    ghost var n := g.cronLimit.value;
    ghost var before := (g.cronSubmitTime, g.cronResults, g.cronTokens);
    ghost var solves := QuestionEvents(reg.questions) + PhaseEvents(reg.phases);
    ghost var start := reg.events;
    ghost var parts, post, verb, fatal := g.gradingParts, g.graderPost, g.gradingVerb, g.fatalError;
    ghost var last: Tick := if 0 < |ticks| then ticks[0] else Tick(ScriptRun(0, ""), 0, []);
    while g.cronLimit.value != 0 && count < |ticks|
      invariant Progress(ticks, n, count, before, g.cronLimit, (g.cronSubmitTime, g.cronResults, g.cronTokens), (results, tokens))
      invariant (parts, post) == (g.gradingParts, g.graderPost)
      invariant 0 < count ==> last == ticks[count - 1] && RoundOf(parts, post, src, last.run, (results, tokens))
      invariant g.gradingVerb == verb && (count == 0 ==> g.fatalError == fatal)
      invariant 0 < count ==> PassOf(parts, post, src, last, verb, (results, tokens, g.fatalError, g.gradingVerb))
      invariant solves == QuestionEvents(reg.questions) + PhaseEvents(reg.phases)
      invariant reg.events == start + Repeat(solves, count)
      decreases |ticks| - count
    {
      ghost var limit, now, round := g.cronLimit, (g.cronSubmitTime, g.cronResults, g.cronTokens), (results, tokens);
      last := ticks[count];
      results, tokens := CronRound(g, reg, src, ticks[count]);
      ProgressStep(ticks, n, count, before, limit, now, round,
                   g.cronLimit, (g.cronSubmitTime, g.cronResults, g.cronTokens), (results, tokens));
      RepeatMore(start, solves, count);
      count := count + 1;
    }
  }

  /**
   * One pass of the loop: the limit drops by one, the clock reading is
   * stamped, and the round `DoCronGrade` computes is stored, posted when
   * `grader_post` is set, and its solves recorded.
   */
  method CronRound(g: Globals, reg: Registry, src: TokenSource, tick: Tick) returns (results: Dict<string>, tokens: Dict<string>)
    requires g.cronLimit.Some?
    modifies g`cronLimit, g`cronSubmitTime, g`cronResults, g`cronTokens, g`fatalError, g`gradingVerb, reg`events
    ensures (g.cronLimit, g.cronSubmitTime, g.cronResults, g.cronTokens)
         == (Some(old(g.cronLimit).value - 1), tick.now, Some(results), tokens)
    ensures RoundOf(old(g.gradingParts), old(g.graderPost), src, tick.run, (results, tokens))
    ensures PassOf(old(g.gradingParts), old(g.graderPost), src, tick, old(g.gradingVerb),
                   (results, tokens, g.fatalError, g.gradingVerb))
    ensures g.gradingVerb == old(g.gradingVerb)
    ensures reg.events == old(reg.events) + (QuestionEvents(reg.questions) + PhaseEvents(reg.phases))
  {
    ghost var parts, post, verb := g.gradingParts, g.graderPost, g.gradingVerb;
    g.cronLimit := Some(g.cronLimit.value - 1);
    g.cronSubmitTime := tick.now;
    results, tokens := DoCronGrade(g, tick.run, src);
    assert (g.gradingParts, g.graderPost, g.gradingVerb) == (parts, post, verb);
    ghost var graded := CronRun(results, tokens, g.fatalError);
    RunOfRound(parts, post, src, tick.run, graded);
    StoreCronRun(g, reg, results, tokens, tick.replies);
    assert (g.gradingParts, g.graderPost) == (parts, post);
    assert !post ==> g.fatalError == graded.fatal;
    SubmitKeepsVerb(verb, tick.replies, 4);
  }

  method StoreCronRun(g: Globals, reg: Registry, results: Dict<string>, tokens: Dict<string>, replies: seq<Reply>)
    modifies g`cronResults, g`cronTokens, g`fatalError, g`gradingVerb, reg`events
    ensures g.cronResults == Some(results) && g.cronTokens == tokens
    ensures !g.graderPost ==> (g.fatalError, g.gradingVerb) == (old(g.fatalError), old(g.gradingVerb))
    ensures g.graderPost ==> var s := Submit(old(g.gradingVerb), replies, 4, VERB_AFTER_405);
      (g.fatalError, g.gradingVerb) == (!s.0, s.1)
    ensures reg.events == old(reg.events) + (QuestionEvents(reg.questions) + PhaseEvents(reg.phases))
  {
    ghost var before := reg.events;
    g.cronResults := Some(results);
    g.cronTokens := tokens;
    PostIfEnabled(g, tokens, replies);
    reg.RecordSolves();
    ConcatAssoc(before, QuestionEvents(reg.questions), PhaseEvents(reg.phases));
  }

  /** The `grader_post` step of a cron round: submit the tokens when posting is on. */
  method PostIfEnabled(g: Globals, tokens: Dict<string>, replies: seq<Reply>)
    modifies g`gradingVerb, g`fatalError
    ensures !g.graderPost ==> g.gradingVerb == old(g.gradingVerb) && g.fatalError == old(g.fatalError)
    ensures g.graderPost ==> var s := Submit(old(g.gradingVerb), replies, 4, VERB_AFTER_405);
      g.gradingVerb == s.1 && g.fatalError == !s.0
  {
    if g.graderPost {
      var payload, sent := PostSubmission(g, tokens, replies);
    }
  }
}
