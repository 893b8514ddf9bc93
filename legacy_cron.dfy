/**
 * Cron grading in the legacy server: the settings `set_cron_vars` reads,
 * each from a test guestinfo variable when one is set and from the
 * configuration otherwise, and the loop `run_cron_thread` that grades until
 * the limit runs out. Lookups, script runs and the clock are parameters;
 * `sleep` is left out.
 */
module LegacyCron {
  import opened Outcomes
  import opened Text
  import opened Dicts
  import opened AppGlobals
  import opened Grading
  import opened Cron
  import opened LegacyConfig
  import opened LegacyGrading

  // ---------------------------------------------------------------------------
  // set_cron_vars

  /**
   * The (stdout, stderr) of each `test_cron_*` guestinfo lookup and the
   * configured value of each key, `None` when the key is missing; `nowOfDay`
   * is the clock in seconds since midnight.
   */
  datatype LegacyCronInputs = LegacyCronInputs(
    intervalLookup: (string, string), intervalConf: Option<Setting>,
    limitLookup: (string, string), limitConf: Option<Setting>,
    delayLookup: (string, string), delayConf: Option<Setting>,
    atLookup: (string, string), atConf: Option<Setting>,
    nowOfDay: int)

  datatype LegacyCronVars = LegacyCronVars(interval: int, limit: int, delay: int, at: Option<string>)

  /**
   * One numeric setting: `int(stdout)` when the lookup found a value,
   * otherwise the configured value when truthy and `default` when not; a
   * missing key raises `KeyError`. A truthy configured value is kept as it
   * is, so only a number (or `true`, which Python counts as 1) is usable.
   */
  function LegacyCronSetting(lookup: (string, string), conf: Option<Setting>, default: int): (r: Option<int>)
    ensures !NoValue(lookup) ==> r == ParseInt(lookup.0)
    ensures NoValue(lookup) && conf.None? ==> r.None?
    ensures NoValue(lookup) && conf.Some? && !Truthy(conf.value) ==> r == Some(default)
    ensures NoValue(lookup) && conf.Some? && conf.value.Num? && conf.value.n != 0 ==> r == Some(conf.value.n)
  {
    if !NoValue(lookup) then ParseInt(lookup.0)
    else if conf.None? then None
    else if !Truthy(conf.value) then Some(default)
    else if conf.value.Num? then Some(conf.value.n)
    else if conf.value.Flag? then Some(1)
    else None
  }

  /**
   * `cron_at`: the raw stdout of the lookup when it found a value, else the
   * configured value, where null means no start time and a non-string
   * raises when split.
   */
  function LegacyCronAt(lookup: (string, string), conf: Option<Setting>): (r: Option<Option<string>>)
    ensures !NoValue(lookup) ==> r == Some(Some(lookup.0))
    ensures NoValue(lookup) && conf == Some(Unset) ==> r == Some(None)
  {
    if !NoValue(lookup) then Some(Some(lookup.0))
    else if conf.None? then None
    else match conf.value
      case Unset => Some(None)
      case Str(s) => Some(Some(s))
      case _ => None
  }

  /**
   * What `set_cron_vars` sets, or `None` when it raises. A start time, even
   * an empty one, must be "H:M" and adds the seconds until then to the delay.
   */
  function LegacyCronVarsOf(inp: LegacyCronInputs): Option<LegacyCronVars> {
    var interval := LegacyCronSetting(inp.intervalLookup, inp.intervalConf, 60);
    var limit := LegacyCronSetting(inp.limitLookup, inp.limitConf, -1);
    var delay := LegacyCronSetting(inp.delayLookup, inp.delayConf, 0);
    if interval.None? || limit.None? || delay.None? then None
    else
      var start := LegacyCronStart(LegacyCronAt(inp.atLookup, inp.atConf), inp.nowOfDay, delay.value);
      if start.None? then None
      else Some(LegacyCronVars(interval.value, limit.value, start.value.1, start.value.0))
  }

  /** The `cron_at` step: the start time kept and the delay with the seconds until it added. */
  function LegacyCronStart(at: Option<Option<string>>, nowOfDay: int, delay: int): (r: Option<(Option<string>, int)>)
    ensures r.Some? ==> at == Some(r.value.0)
    ensures at == Some(None) ==> r == Some((None, delay))
  {
    if at.None? then None
    else if at.value.None? then Some((None, delay))
    else
      var offset := AtOffset(at.value.value, nowOfDay);
      if offset.None? then None else Some((at.value, delay + offset.value))
  }

  /** `set_cron_vars()`; `false` is an exception raised on the way. */
  method SetLegacyCronVars(g: LegacyGlobals, inp: LegacyCronInputs) returns (ok: bool)
    modifies g`cronInterval, g`cronLimit, g`cronDelay, g`cronAt
    ensures ok <==> LegacyCronVarsOf(inp).Some?
    ensures ok ==> var c := LegacyCronVarsOf(inp).value;
      g.cronInterval == Some(c.interval) && g.cronLimit == Some(c.limit) && g.cronDelay == Some(c.delay) && g.cronAt == c.at
  {
    var interval := LegacyCronSetting(inp.intervalLookup, inp.intervalConf, 60);
    if interval.None? {
      return false;
    }
    g.cronInterval := interval;
    var limit := LegacyCronSetting(inp.limitLookup, inp.limitConf, -1);
    if limit.None? {
      return false;
    }
    g.cronLimit := limit;
    var delay := LegacyCronSetting(inp.delayLookup, inp.delayConf, 0);
    if delay.None? {
      return false;
    }
    g.cronDelay := delay;
    ok := SetLegacyCronAt(g, inp, delay.value);
  }

  /** The `cron_at` step of `set_cron_vars()`, with the delay read so far. */
  method SetLegacyCronAt(g: LegacyGlobals, inp: LegacyCronInputs, delay: int) returns (ok: bool)
    modifies g`cronDelay, g`cronAt
    ensures var c := LegacyCronStart(LegacyCronAt(inp.atLookup, inp.atConf), inp.nowOfDay, delay);
      ok == c.Some? && (ok ==> g.cronAt == c.value.0 && g.cronDelay == Some(c.value.1))
  {
    var at := LegacyCronAt(inp.atLookup, inp.atConf);
    if at.None? {
      return false;
    }
    g.cronAt := at.value;
    var start := LegacyCronStart(at, inp.nowOfDay, delay);
    if start.None? {
      return false;
    }
    g.cronDelay := Some(start.value.1);
    ok := true;
  }

  /**
   * No test variables and falsy configured values: every 60 seconds,
   * without limit, at once. A configured 0 is falsy too.
   */
  lemma LegacyCronDefaults(inp: LegacyCronInputs)
    requires NoValue(inp.intervalLookup) && NoValue(inp.limitLookup) && NoValue(inp.delayLookup) && NoValue(inp.atLookup)
    requires inp.intervalConf == Some(Unset) && inp.limitConf == Some(Num(0)) && inp.delayConf == Some(Unset)
    requires inp.atConf == Some(Unset)
    ensures LegacyCronVarsOf(inp) == Some(LegacyCronVars(60, -1, 0, None))
  {
  }

  /** A missing configuration key raises even when the other values are fine. */
  lemma LegacyCronKeysRequired(inp: LegacyCronInputs)
    requires NoValue(inp.limitLookup) && inp.limitConf.None?
    ensures LegacyCronVarsOf(inp).None?
  {
  }

  /**
   * A start time "H:M" adds the seconds from now until then today (negative
   * once it has passed) to the delay.
   */
  lemma LegacyCronAtDelay(inp: LegacyCronInputs, h: nat, m: nat)
    requires h < 24 && m < 60
    requires LegacyCronAt(inp.atLookup, inp.atConf) == Some(Some(IntToString(h) + ":" + IntToString(m)))
    requires LegacyCronVarsOf(inp).Some?
    ensures LegacyCronVarsOf(inp).value.delay ==
      LegacyCronSetting(inp.delayLookup, inp.delayConf, 0).value + h * 3600 + m * 60 - inp.nowOfDay
  {
    AtDelay(h, m, inp.nowOfDay);
  }

  // ---------------------------------------------------------------------------
  // run_cron_thread

  /** What the outside world supplies to one pass: the script run and the clock reading. */
  datatype LegacyTick = LegacyTick(run: ScriptRun, now: int)

  /**
   * The state after `count` passes over `ticks` from the limit `n` and the
   * fields `before`: the limit has dropped by `count`, and the fields hold
   * the last pass's clock reading and round.
   */
  predicate LegacyProgress(ticks: seq<LegacyTick>, n: int, count: nat, before: (int, Option<Dict<string>>, Option<Dict<string>>),
                           limit: Option<int>, now: (int, Option<Dict<string>>, Option<Dict<string>>),
                           round: (Dict<string>, Dict<string>))
  {
    limit == Some(n - count) && count <= |ticks| && (n >= 0 ==> count <= n) &&
    (count == 0 ==> now == before) &&
    (0 < count ==> now == (ticks[count - 1].now, Some(round.0), Some(round.1)))
  }

  /**
   * `run_cron_thread()`, cut off after `|ticks|` passes: a positive limit
   * `n` gives exactly `n` passes ending at 0, and a negative one never stops
   * on its own. Each pass stamps the clock and stores the round's results
   * and tokens; `fatal_error` is left as the last pass's grading set it, and
   * nothing is posted to the gameboard.
   */
  method RunLegacyCronThread(g: LegacyGlobals, src: TokenSource, ticks: seq<LegacyTick>)
    returns (count: nat, results: Dict<string>, tokens: Dict<string>)
    requires g.cronLimit.Some?
    modifies g`cronLimit, g`submitTime, g`results, g`tokens, g`fatalError
    ensures g.cronLimit == Some(old(g.cronLimit).value - count)
    ensures 0 <= old(g.cronLimit).value <= |ticks| ==> count == old(g.cronLimit).value && g.cronLimit == Some(0)
    ensures old(g.cronLimit).value < 0 || old(g.cronLimit).value > |ticks| ==> count == |ticks|
    ensures count == 0 ==> g.submitTime == old(g.submitTime) && g.results == old(g.results) && g.tokens == old(g.tokens)
    ensures 0 < count ==> g.submitTime == ticks[count - 1].now && g.results == Some(results) && g.tokens == Some(tokens)
    ensures count == 0 ==> g.fatalError == old(g.fatalError)
    ensures 0 < count ==> LegacyRoundOf(g.gradingParts, g.GraderPost(), src, ticks[count - 1].run, CronRun(results, tokens, g.fatalError))
  {
    count, results, tokens := 0, [], [];
    ghost var n := g.cronLimit.value;
    ghost var before := (g.submitTime, g.results, g.tokens);
    ghost var fatal := g.fatalError;
    ghost var parts, post := g.gradingParts, g.GraderPost();
    ghost var last: LegacyTick := if 0 < |ticks| then ticks[0] else LegacyTick(ScriptRun(0, ""), 0);
    while g.cronLimit.value != 0 && count < |ticks|
      invariant LegacyProgress(ticks, n, count, before, g.cronLimit, (g.submitTime, g.results, g.tokens), (results, tokens))
      invariant (parts, post) == (g.gradingParts, g.GraderPost())
      invariant count == 0 ==> g.fatalError == fatal
      invariant 0 < count ==> last == ticks[count - 1] && LegacyRoundOf(parts, post, src, last.run, CronRun(results, tokens, g.fatalError))
      decreases |ticks| - count
    {
      last := ticks[count];
      results, tokens := LegacyCronRound(g, src, ticks[count]);
      count := count + 1;
    }
  }

  /**
   * One pass of the loop: the limit drops by one, the clock reading is
   * stamped, and the round `LegacyDoGrade` computes is stored, with the
   * `fatal_error` flag it set.
   */
  method LegacyCronRound(g: LegacyGlobals, src: TokenSource, tick: LegacyTick) returns (results: Dict<string>, tokens: Dict<string>)
    requires g.cronLimit.Some?
    modifies g`cronLimit, g`submitTime, g`results, g`tokens, g`fatalError
    ensures g.cronLimit == Some(old(g.cronLimit).value - 1)
    ensures g.submitTime == tick.now && g.results == Some(results) && g.tokens == Some(tokens)
    ensures LegacyRoundOf(old(g.gradingParts), old(g.GraderPost()), src, tick.run, CronRun(results, tokens, g.fatalError))
  {
    ghost var parts, post := g.gradingParts, g.GraderPost();
    results, tokens := LegacyDoGrade(g, tick.run, src);
    assert (g.gradingParts, g.GraderPost()) == (parts, post);
    ghost var graded := CronRun(results, tokens, g.fatalError);
    g.cronLimit := Some(g.cronLimit.value - 1);
    g.submitTime := tick.now;
    g.results, g.tokens := Some(results), Some(tokens);
    assert g.fatalError == graded.fatal;
  }
}
