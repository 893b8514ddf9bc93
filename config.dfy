/**
 * The validators and normalisations of `read_config`: the application port,
 * the upload size limit, the grading block (parts, manual script, rate limit,
 * token location, submission method and grader endpoint), the required
 * services and the services to log. Environment lookups are `Option<string>`
 * parameters, configuration values are `Setting`s, and `sys.exit` (or an
 * uncaught error, which also stops start-up) is `None` / `false`.
 */
module Config {
  import opened Outcomes
  import opened Text
  import opened Dicts
  import opened AppGlobals

  // ---------------------------------------------------------------------------
  // Application port

  const DEFAULT_PORT: int := 8888

  /** `int(env or conf or 8888)`, accepted only in 1..65535. */
  function AppPort(env: Option<string>, conf: Setting): (r: Option<int>)
    ensures r.Some? ==> 1 <= r.value <= 65535
    ensures !Truthy(EnvOr(env, conf)) ==> r == Some(DEFAULT_PORT)
  {
    var v := EnvOr(env, conf);
    var p := if Truthy(v) then IntOf(v) else Some(DEFAULT_PORT);
    if p.Some? && 1 <= p.value <= 65535 then p else None
  }

  /** A port written in the environment or in the configuration is kept exactly when it is in range. */
  lemma AppPortOf(p: int)
    ensures AppPort(Some(IntToString(p)), Unset) == (if 1 <= p <= 65535 then Some(p) else None)
    ensures p != 0 ==> AppPort(None, Num(p)) == (if 1 <= p <= 65535 then Some(p) else None)
  {
    AppPortFromEnv(p);
  }

  lemma AppPortFromEnv(p: int)
    ensures AppPort(Some(IntToString(p)), Unset) == (if 1 <= p <= 65535 then Some(p) else None)
  {
    var s := IntToString(p);
    ParseIntToString(p);
    assert s != [] by {
      if p < 0 {
        assert s == "-" + NatToString(-p);
      } else {
        assert |NatToString(p)| >= 1;
      }
    }
    assert EnvOr(Some(s), Unset) == Str(s);
    assert IntOf(Str(s)) == Some(p);
  }

  // ---------------------------------------------------------------------------
  // Upload size

  const DEFAULT_UPLOAD_SIZE: string := "1M"

  /** The factor the last character of `max_upload_size` selects. */
  function Multiplier(c: char): (r: nat)
    ensures r == (if c == 'G' then 1073741824 else if c == 'M' then 1048576 else if c == 'K' then 1024 else 1)
  {
    match c
    case 'G' => 1024 * 1024 * 1024
    case 'M' => 1024 * 1024
    case 'K' => 1024
    case _ => 1
  }

  /**
   * `MAX_CONTENT_LENGTH` from `max_upload_size` (default "1M"): the text
   * without its last character, as an integer, times the unit factor. The
   * last character is dropped whatever it is; `None` is the exit for a
   * non-numeric body and the `IndexError` of an empty value.
   */
  function UploadLimit(size: Option<string>): (r: Option<int>)
    ensures size.Some? && size.value == [] ==> r.None?
  {
    var s := size.GetOr(DEFAULT_UPLOAD_SIZE);
    if s == [] then None
    else
      var v := ParseInt(s[..|s| - 1]);
      if v.None? then None else Some(v.value * Multiplier(s[|s| - 1]))
  }

  lemma DigitsParse(d: string)
    requires d != [] && AllDigits(d)
    ensures ParseInt(d) == Some(DigitsValue(d) as int)
  {
    assert Stripped(d) by {
      assert !IsSpace(d[0]) && !IsSpace(d[|d| - 1]);
    }
    StripStripped(d);
  }

  /** Digits followed by a unit letter denote that many units; the default is one mebibyte. */
  lemma UploadLimitUnits(d: string, unit: char)
    requires d != [] && AllDigits(d)
    ensures UploadLimit(Some(d + [unit])) == Some(DigitsValue(d) * Multiplier(unit))
  {
    var s := d + [unit];
    assert s[..|s| - 1] == d;
    DigitsParse(d);
  }

  /** Without a configured size the limit is one mebibyte. */
  lemma UploadLimitDefault()
    ensures UploadLimit(None) == Some(1048576)
  {
    assert DEFAULT_UPLOAD_SIZE == "1" + ['M'];
    assert DigitsValue("1") == 1 by {
      assert "1"[..0] == [];
    }
    UploadLimitUnits("1", 'M');
  }

  /** A value without a unit loses its last digit: "500" allows 50 bytes. */
  lemma UploadLimitDropsLastDigit()
    ensures UploadLimit(Some("500")) == Some(50)
  {
    var s := "500";
    var d := s[..2];
    assert s == d + ['0'];
    FiftyValue(d);
    UploadLimitUnits(d, '0');
    NoUnit('0');
  }

  /** A last character that is not a unit letter multiplies by one. */
  lemma NoUnit(c: char)
    requires c != 'G' && c != 'M' && c != 'K'
    ensures Multiplier(c) == 1
  {
  }

  lemma FiftyValue(d: string)
    requires d == "50"
    ensures AllDigits(d) && DigitsValue(d) == 50
  {
    assert d[..1] == "5" && "5"[..0] == [];
  }

  // ---------------------------------------------------------------------------
  // Rate limit, token location, submission method

  /**
   * `int(env)` when the environment variable is set at all, else
   * `int(conf)` when configured, else 0: the tests are `is not None`, so an
   * explicit 0 is kept. `None` is the error `int()` raises.
   */
  function RateLimit(env: Option<string>, conf: Setting): (r: Option<int>)
    ensures env.None? && conf == Unset ==> r == Some(0)
  {
    if env.Some? then ParseInt(env.value)
    else if conf != Unset then IntOf(conf)
    else Some(0)
  }

  /** Unlike the cron settings, whose `or` turns a configured 0 into the default, a rate limit of 0 is kept. */
  lemma RateLimitKeepsZero(default: int)
    ensures RateLimit(None, Num(0)) == Some(0)
    ensures RateLimit(Some("0"), Num(default)) == Some(0)
  {
    DigitsParse("0");
  }

  /**
   * `env or conf or 'env'`, which must be one of the valid token
   * locations. The fall-back 'env' is not one, so leaving the location
   * unset stops start-up.
   */
  function TokenLocation(env: Option<string>, conf: Setting): (r: Option<string>)
    ensures r.Some? ==> r.value in VALID_TOKEN_LOCATIONS
    ensures r.Some? ==> EnvOr(env, conf) == Str(r.value)
  {
    var v := EnvOr(env, conf);
    var loc := if Truthy(v) then v else Str("env");
    if loc.Str? && loc.s in VALID_TOKEN_LOCATIONS then Some(loc.s) else None
  }

  lemma UnsetTokenLocationRejected(env: Option<string>)
    requires env.None? || env.value == ""
    ensures TokenLocation(env, Unset).None?
  {
    ManualModesAreValid();
  }

  /** The `grading.submission` mapping; absent keys are `Unset`. */
  datatype SubmissionConf = SubmissionConf(how: Setting, graderUrl: Setting, graderKey: Setting)

  /** The submission settings once read. */
  datatype SubmissionSettings = SubmissionSettings(how: string, graderUrl: Setting, graderKey: Setting)

  /** A value read as `env or <expression on the submission block>`; `None` is the error of a missing block. */
  function SubmissionValue(env: Option<string>, sub: Option<SubmissionConf>, field: SubmissionConf -> Setting): Option<Setting> {
    if env.Some? && env.value != "" then Some(Str(env.value))
    else if sub.None? then None
    else Some(field(sub.value))
  }

  /**
   * The method is `env or submission.method or 'display'` and must be
   * valid; `grader_url` and `grader_key` are `env or submission.<key>`, and both
   * must be truthy when the method is 'grader_post'. Each configuration
   * lookup raises when the submission block is missing.
   */
  function SubmissionOf(methodEnv: Option<string>, urlEnv: Option<string>, keyEnv: Option<string>,
                        sub: Option<SubmissionConf>): (r: Option<SubmissionSettings>)
    ensures r.Some? ==> r.value.how in VALID_SUBMISSION_METHODS
    ensures r.Some? && r.value.how == "grader_post" ==> Truthy(r.value.graderUrl) && Truthy(r.value.graderKey)
    ensures r.Some? && sub.None? ==>
      methodEnv.Some? && methodEnv.value != "" && urlEnv.Some? && urlEnv.value != "" && keyEnv.Some? && keyEnv.value != ""
  {
    var m := SubmissionValue(methodEnv, sub, (c: SubmissionConf) => if Truthy(c.how) then c.how else Str("display"));
    if m.None? || !m.value.Str? || m.value.s !in VALID_SUBMISSION_METHODS then None
    else
      var url := SubmissionValue(urlEnv, sub, (c: SubmissionConf) => c.graderUrl);
      if url.None? || (m.value.s == "grader_post" && !Truthy(url.value)) then None
      else
        var key := SubmissionValue(keyEnv, sub, (c: SubmissionConf) => c.graderKey);
        if key.None? || (m.value.s == "grader_post" && !Truthy(key.value)) then None
        else Some(SubmissionSettings(m.value.s, url.value, key.value))
  }

  /** An empty submission block and no environment values: results are displayed. */
  lemma SubmissionDefaultsToDisplay()
    ensures SubmissionOf(None, None, None, Some(SubmissionConf(Unset, Unset, Unset)))
         == Some(SubmissionSettings("display", Unset, Unset))
  {
  }

  /** Posting to the gameboard without a URL stops start-up. */
  lemma GraderPostNeedsUrl(urlEnv: Option<string>, keyEnv: Option<string>, sub: SubmissionConf)
    requires sub.how == Str("grader_post") && !Truthy(sub.graderUrl)
    requires urlEnv.None? || urlEnv.value == ""
    ensures SubmissionOf(None, urlEnv, keyEnv, Some(sub)).None?
  {
  }

  // ---------------------------------------------------------------------------
  // The grading block

  /** Python's `get_clean_env(name, '').lower() == 'true'`. */
  predicate EnvTrue(env: Option<string>) {
    env.Some? && Lower(env.value) == "true"
  }

  /** The lookups the grading block of `read_config` makes, besides those of phases and cron. */
  datatype GradingInputs = GradingInputs(
    parts: Dict<Part>,
    manualConf: Option<Setting>, cronConf: Setting,
    graderPostEnv: Option<string>, graderPostConf: Setting,
    uploadFiles: bool, uploadSize: Option<string>,
    manualEnv: Option<string>, manualScriptEnv: Option<string>, manualScriptConf: Setting, manualExecutable: bool,
    rateEnv: Option<string>, rateConf: Setting,
    locationEnv: Option<string>, locationConf: Setting,
    methodEnv: Option<string>, urlEnv: Option<string>, keyEnv: Option<string>, submission: Option<SubmissionConf>)

  /** The `manual_grading` flag: the environment, else `conf['grading']['manual_grading']`, which raises when absent. */
  function ManualFlag(inp: GradingInputs): Option<bool> {
    if EnvTrue(inp.manualEnv) then Some(true)
    else if inp.manualConf.None? then None
    else Some(Truthy(inp.manualConf.value))
  }

  /** The manual grading script, or `None` when it is missing or not executable. */
  function ManualScript(inp: GradingInputs): Option<string> {
    var v := EnvOr(inp.manualScriptEnv, inp.manualScriptConf);
    if !Truthy(v) || !v.Str? || !inp.manualExecutable then None else Some(v.s)
  }

  /** The settings read after the phase, manual and cron set-up: rate limit, token location, submission. */
  datatype GradingTail = GradingTail(rateLimit: int, location: string, submission: SubmissionSettings)

  function GradingTailOf(inp: GradingInputs): (r: Option<GradingTail>)
    ensures r.Some? <==> RateLimit(inp.rateEnv, inp.rateConf).Some? && TokenLocation(inp.locationEnv, inp.locationConf).Some? &&
                         SubmissionOf(inp.methodEnv, inp.urlEnv, inp.keyEnv, inp.submission).Some?
  {
    var rate := RateLimit(inp.rateEnv, inp.rateConf);
    var loc := TokenLocation(inp.locationEnv, inp.locationConf);
    var sub := SubmissionOf(inp.methodEnv, inp.urlEnv, inp.keyEnv, inp.submission);
    if rate.None? || loc.None? || sub.None? then None
    else Some(GradingTail(rate.value, loc.value, sub.value))
  }

  /** The grading settings once read. */
  datatype GradingConfig = GradingConfig(
    graderPost: bool, maxContent: Option<int>, manualScript: Option<string>, tail: GradingTail)

  /**
   * The grading block in order: parts must be configured and one grading
   * type enabled in the configuration (the environment does not count for
   * this test), then the upload limit when uploads list files, the manual
   * script when manual grading is on, the rate limit, the token location
   * and the submission settings. `None` is an exit or a raised error.
   */
  function GradingConfigOf(inp: GradingInputs): (r: Option<GradingConfig>)
    ensures r.Some? ==> inp.parts != [] && ((inp.manualConf.Some? && Truthy(inp.manualConf.value)) || Truthy(inp.cronConf))
    ensures r.Some? ==> r.value.tail.location in VALID_TOKEN_LOCATIONS && r.value.tail.submission.how in VALID_SUBMISSION_METHODS
    ensures r.Some? ==> Some(r.value.tail.rateLimit) == RateLimit(inp.rateEnv, inp.rateConf)
  {
    if inp.parts == [] then None
    else if !(inp.manualConf.Some? && Truthy(inp.manualConf.value)) && !Truthy(inp.cronConf) then None
    else
      var graderPost := EnvTrue(inp.graderPostEnv) || Truthy(inp.graderPostConf);
      var limit := if inp.uploadFiles then UploadLimit(inp.uploadSize) else Some(0);
      var manual := ManualFlag(inp);
      if limit.None? || manual.None? then None
      else
        var script := ManualScript(inp);
        if manual.value && script.None? then None
        else
          var tail := GradingTailOf(inp);
          if tail.None? then None
          else
            Some(GradingConfig(graderPost, if inp.uploadFiles then limit else None,
                               if manual.value then script else None, tail.value))
  }

  /**
   * The grading block of `read_config` with grading enabled. The phase
   * set-up and database seeding (`InitializeDb`) and `SetCronVars` run
   * between the manual script and the rate limit; they are separate
   * operations of this model.
   */
  method ReadGradingConfig(g: Globals, inp: GradingInputs) returns (ok: bool)
    modifies g`gradingParts, g`graderPost, g`maxContentLength, g`gradingMode, g`manualGradingScript,
             g`rateLimit, g`tokenLocation, g`submissionMethod, g`graderUrl, g`graderKey
    ensures ok <==> GradingConfigOf(inp).Some?
    ensures ok ==> var c := GradingConfigOf(inp).value;
      g.gradingParts == inp.parts && g.graderPost == c.graderPost &&
      g.maxContentLength == (if inp.uploadFiles then c.maxContent else old(g.maxContentLength)) &&
      Settled(g.rateLimit, g.tokenLocation, g.submissionMethod, g.graderUrl, g.graderKey, c.tail)
    ensures ok ==> var c := GradingConfigOf(inp).value;
      (c.manualScript.Some? ==> g.manualGradingScript == c.manualScript && g.gradingMode == old(g.gradingMode) + ["manual"]) &&
      (c.manualScript.None? ==> g.manualGradingScript == old(g.manualGradingScript) && g.gradingMode == old(g.gradingMode))
  {
    if inp.parts == [] || (!(inp.manualConf.Some? && Truthy(inp.manualConf.value)) && !Truthy(inp.cronConf)) {
      return false;
    }
    g.gradingParts := inp.parts;
    g.graderPost := EnvTrue(inp.graderPostEnv) || Truthy(inp.graderPostConf);
    ok := ReadUploadLimit(g, inp);
    if !ok {
      return;
    }
    ok := ReadManualScript(g, inp);
    if !ok {
      return;
    }
    ok := ReadGradingTail(g, inp);
  }

  /** The upload size limit, set only when file uploads are enabled. */
  method ReadUploadLimit(g: Globals, inp: GradingInputs) returns (ok: bool)
    modifies g`maxContentLength
    ensures ok <==> !inp.uploadFiles || UploadLimit(inp.uploadSize).Some?
    ensures ok ==> g.maxContentLength == if inp.uploadFiles then UploadLimit(inp.uploadSize) else old(g.maxContentLength)
  {
    if inp.uploadFiles {
      var limit := UploadLimit(inp.uploadSize);
      if limit.None? {
        return false;
      }
      g.maxContentLength := limit;
    }
    ok := true;
  }

  /** With manual grading on, "manual" joins the grading modes and the script is read. */
  method ReadManualScript(g: Globals, inp: GradingInputs) returns (ok: bool)
    modifies g`gradingMode, g`manualGradingScript
    ensures ok <==> ManualFlag(inp).Some? && (ManualFlag(inp).value ==> ManualScript(inp).Some?)
    ensures ok && ManualFlag(inp).value ==>
      g.manualGradingScript == ManualScript(inp) && g.gradingMode == old(g.gradingMode) + ["manual"]
    ensures ok && !ManualFlag(inp).value ==>
      g.manualGradingScript == old(g.manualGradingScript) && g.gradingMode == old(g.gradingMode)
  {
    var manual := ManualFlag(inp);
    if manual.None? {
      return false;
    }
    if manual.value {
      g.gradingMode := g.gradingMode + ["manual"];
      var script := ManualScript(inp);
      if script.None? {
        return false;
      }
      g.manualGradingScript := script;
    }
    ok := true;
  }

  /** The globals holding the settings `t`. */
  predicate Settled(rateLimit: int, location: string, how: string, url: Setting, key: Setting, t: GradingTail) {
    rateLimit == t.rateLimit && location == t.location && how == t.submission.how &&
    url == t.submission.graderUrl && key == t.submission.graderKey
  }

  /** The rate limit, token location and submission steps of the grading block. */
  method ReadGradingTail(g: Globals, inp: GradingInputs) returns (ok: bool)
    modifies g`rateLimit, g`tokenLocation, g`submissionMethod, g`graderUrl, g`graderKey
    ensures ok <==> GradingTailOf(inp).Some?
    ensures ok ==> Settled(g.rateLimit, g.tokenLocation, g.submissionMethod, g.graderUrl, g.graderKey, GradingTailOf(inp).value)
  {
    var rate := RateLimit(inp.rateEnv, inp.rateConf);
    if rate.None? {
      return false;
    }
    g.rateLimit := rate.value;
    var loc := TokenLocation(inp.locationEnv, inp.locationConf);
    if loc.None? {
      return false;
    }
    g.tokenLocation := loc.value;
    var sub := SubmissionOf(inp.methodEnv, inp.urlEnv, inp.keyEnv, inp.submission);
    if sub.None? {
      return false;
    }
    g.submissionMethod := sub.value.how;
    g.graderUrl := sub.value.graderUrl;
    g.graderKey := sub.value.graderKey;
    ok := true;
  }

  // ---------------------------------------------------------------------------
  // Required services

  predicate IsBlocking(s: Service) {
    s.block == Some(Flag(true))
  }

  /**
   * One required service after its checks: a host is required; a missing
   * type becomes "ping" and the type must be valid; a socket needs a port;
   * a web service gets port 80 and path "/" when they are missing; a
   * missing `block_startup_scripts` becomes false and it must be a bool.
   */
  function NormaliseService(s: Service): (r: Option<Service>)
    ensures r.Some? <==> s.host.Some? && (s.kind.None? || s.kind.value in [Str("ping"), Str("socket"), Str("web")]) &&
                         (s.kind == Some(Str("socket")) ==> s.port.Some?) && (s.block.None? || s.block.value.Flag?)
    ensures r.Some? ==> r.value.host == s.host && r.value.kind == Some(s.kind.GetOr(Str("ping")))
    ensures r.Some? ==> r.value.block == Some(s.block.GetOr(Flag(false)))
    ensures r.Some? && r.value.kind == Some(Str("web")) ==>
      r.value.port == Some(s.port.GetOr(Num(80))) && r.value.path == Some(s.path.GetOr(Str("/")))
    ensures r.Some? && r.value.kind != Some(Str("web")) ==> r.value.port == s.port && r.value.path == s.path
  {
    if s.host.None? then None
    else
      var kind := if s.kind.None? then Str("ping") else s.kind.value;
      if !(kind.Str? && kind.s in VALID_SERVICE_TYPES) then None
      else if kind.s == "socket" && s.port.None? then None
      else
        var port := if kind.s == "web" && s.port.None? then Some(Num(80)) else s.port;
        var path := if kind.s == "web" && s.path.None? then Some(Str("/")) else s.path;
        var block := if s.block.None? then Flag(false) else s.block.value;
        if !block.Flag? then None
        else Some(Service(s.host, Some(kind), port, path, Some(block)))
  }

  /** The whole list after the checks, or `None` when some entry exits. */
  function NormaliseServices(ss: seq<Service>): Option<seq<Service>> {
    if ss == [] then Some([])
    else
      var prev := NormaliseServices(ss[..|ss| - 1]);
      var last := NormaliseService(ss[|ss| - 1]);
      if prev.None? || last.None? then None else Some(prev.value + [last.value])
  }

  /** The services flagged to block the start-up scripts, in list order. */
  function Blocking(ss: seq<Service>): seq<Service> {
    if ss == [] then []
    else Blocking(ss[..|ss| - 1]) + if IsBlocking(ss[|ss| - 1]) then [ss[|ss| - 1]] else []
  }

  /** The list is accepted iff every entry is, and then each entry is normalised in place. */
  lemma {:induction false} NormaliseServicesEach(ss: seq<Service>)
    ensures NormaliseServices(ss).Some? <==> forall i :: 0 <= i < |ss| ==> NormaliseService(ss[i]).Some?
    ensures NormaliseServices(ss).Some? ==> var r := NormaliseServices(ss).value;
      |r| == |ss| && forall i :: 0 <= i < |ss| ==> r[i] == NormaliseService(ss[i]).value
  {
    if ss != [] {
      var init := ss[..|ss| - 1];
      NormaliseServicesEach(init);
      assert forall i :: 0 <= i < |init| ==> init[i] == ss[i];
    }
  }

  /** Blocking keeps list order: the blocking services of a concatenation are those of each part, in turn. */
  lemma {:induction false} BlockingAppend(a: seq<Service>, b: seq<Service>)
    ensures Blocking(a + b) == Blocking(a) + Blocking(b)
  {
    if b == [] {
      assert a + b == a;
    } else {
      var init := b[..|b| - 1];
      BlockingAppend(a, init);
      assert (a + b)[..|a + b| - 1] == a + init;
    }
  }

  /** A service is blocking-listed iff it is in the list and flagged. */
  lemma {:induction false} BlockingMembers(ss: seq<Service>, s: Service)
    ensures s in Blocking(ss) <==> s in ss && IsBlocking(s)
  {
    if ss != [] {
      var init := ss[..|ss| - 1];
      BlockingMembers(init, s);
      assert ss == init + [ss[|ss| - 1]];
    }
  }

  /** One pass of the `required_services` loop: entry `i` is replaced by its normal form `v`. */
  lemma ServiceStep(services: seq<Service>, cur: seq<Service>, i: nat, v: Service)
    requires i < |services| == |cur|
    requires NormaliseServices(services[..i]) == Some(cur[..i]) && cur[i..] == services[i..]
    requires NormaliseService(services[i]) == Some(v)
    ensures NormaliseServices(services[..i + 1]) == Some(cur[i := v][..i + 1])
    ensures cur[i := v][i + 1..] == services[i + 1..]
    ensures Blocking(cur[i := v][..i + 1]) == Blocking(cur[..i]) + if IsBlocking(v) then [v] else []
  {
    var next := cur[i := v];
    assert services[..i + 1][..i] == services[..i];
    assert next[..i + 1] == cur[..i] + [v];
    assert next[..i + 1][..i] == cur[..i];
    assert next[i + 1..] == cur[i + 1..];
    assert cur[i + 1..] == cur[i..][1..];
  }

  /** A bad entry rejects the whole list. */
  lemma ServiceFails(services: seq<Service>, i: nat)
    requires i < |services| && NormaliseService(services[i]).None?
    ensures NormaliseServices(services).None?
  {
    NormaliseServicesEach(services);
  }

  /**
   * The `required_services` loop: each entry is checked and defaulted in
   * place, and the blocking ones are appended to `blocking_services`;
   * `false` is the exit at the first bad entry.
   */
  method ConfigureRequiredServices(g: Globals, services: seq<Service>) returns (ok: bool)
    modifies g`requiredServices, g`blockingServices
    ensures ok <==> NormaliseServices(services).Some?
    ensures ok ==> g.requiredServices == NormaliseServices(services).value
    ensures ok ==> g.blockingServices == Blocking(g.requiredServices)
  {
    g.requiredServices := services;
    g.blockingServices := [];
    var i := 0;
    while i < |services|
      invariant 0 <= i <= |services| && |g.requiredServices| == |services|
      invariant NormaliseServices(services[..i]) == Some(g.requiredServices[..i])
      invariant g.requiredServices[i..] == services[i..]
      invariant g.blockingServices == Blocking(g.requiredServices[..i])
    {
      assert g.requiredServices[i] == g.requiredServices[i..][0];
      var r := NormaliseService(g.requiredServices[i]);
      if r.None? {
        ServiceFails(services, i);
        return false;
      }
      ServiceStep(services, g.requiredServices, i, r.value);
      g.requiredServices := g.requiredServices[i := r.value];
      if IsBlocking(r.value) {
        g.blockingServices := g.blockingServices + [r.value];
      }
      i := i + 1;
    }
    assert services[..i] == services && g.requiredServices[..i] == g.requiredServices;
    ok := true;
  }

  // ---------------------------------------------------------------------------
  // Services to log

  /** One `services_to_log` entry: host, password and service are required; a missing or null user becomes "user". */
  function NormaliseLogEntry(e: LogEntry): (r: Option<LogEntry>)
    ensures r.Some? <==> e.host.Some? && e.password.Some? && e.service.Some?
    ensures r.Some? ==> r.value.host == e.host && r.value.password == e.password && r.value.service == e.service
    ensures r.Some? ==> r.value.user == (if e.user.None? || e.user == Some(Unset) then Some(Str("user")) else e.user)
  {
    if e.host.None? || e.password.None? || e.service.None? then None
    else if e.user.None? || e.user.value == Unset then Some(e.(user := Some(Str("user"))))
    else Some(e)
  }

  function NormaliseLogEntries(es: seq<LogEntry>): Option<seq<LogEntry>> {
    if es == [] then Some([])
    else
      var prev := NormaliseLogEntries(es[..|es| - 1]);
      var last := NormaliseLogEntry(es[|es| - 1]);
      if prev.None? || last.None? then None else Some(prev.value + [last.value])
  }

  lemma {:induction false} NormaliseLogEntriesEach(es: seq<LogEntry>)
    ensures NormaliseLogEntries(es).Some? <==> forall i :: 0 <= i < |es| ==> NormaliseLogEntry(es[i]).Some?
    ensures NormaliseLogEntries(es).Some? ==> var r := NormaliseLogEntries(es).value;
      |r| == |es| && forall i :: 0 <= i < |es| ==> r[i] == NormaliseLogEntry(es[i]).value
  {
    if es != [] {
      var init := es[..|es| - 1];
      NormaliseLogEntriesEach(init);
      assert forall i :: 0 <= i < |init| ==> init[i] == es[i];
    }
  }

  /**
   * The `services_to_log` block: an absent or empty list is stored as it
   * is; otherwise each entry is checked and its user defaulted in place.
   */
  method ConfigureLogServices(g: Globals, services: Option<seq<LogEntry>>) returns (ok: bool)
    modifies g`servicesList
    ensures services.None? || services.value == [] ==> ok && g.servicesList == services
    ensures services.Some? && services.value != [] ==>
      (ok <==> NormaliseLogEntries(services.value).Some?) &&
      (ok ==> g.servicesList == NormaliseLogEntries(services.value))
  {
    if services.None? || services.value == [] {
      g.servicesList := services;
      return true;
    }
    var list := services.value;
    var i := 0;
    while i < |list|
      invariant 0 <= i <= |list| && |list| == |services.value|
      invariant NormaliseLogEntries(services.value[..i]) == Some(list[..i])
      invariant list[i..] == services.value[i..]
    {
      assert services.value[..i + 1][..i] == services.value[..i];
      var r := NormaliseLogEntry(list[i]);
      if r.None? {
        NormaliseLogEntriesEach(services.value);
        NormaliseLogEntriesEach(services.value[..i + 1]);
        assert services.value[..i + 1][i] == services.value[i];
        return false;
      }
      ghost var before := list;
      list := list[i := r.value];
      assert list[..i + 1] == before[..i] + [r.value];
      assert list[i + 1..] == services.value[i + 1..] by {
        assert forall k :: i + 1 <= k < |list| ==> list[k] == before[k];
      }
      i := i + 1;
    }
    assert services.value[..i] == services.value && list[..i] == list;
    g.servicesList := Some(list);
    ok := true;
  }
}
