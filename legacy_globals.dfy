/**
 * The first generation of the server, the flat scripts under `src/`: its
 * module-level state (`init()`) and its configuration reader
 * (`read_config()`). The YAML document and the `vmtoolsd` lookups are
 * inputs; `exit(1)` and an exception raised while reading are both a
 * `false` (or `None`) outcome, after which the process ends.
 */
module LegacyConfig {
  import opened Outcomes
  import opened Text
  import opened Dicts
  import opened AppGlobals
  import opened Config

  /** The state the legacy `globals` module and `challengeServer` keep. */
  class LegacyGlobals {
    // identity
    var challengeId: string
    var supportCode: string
    var variantIndex: string
    var challengeCode: string
    var inWorkspace: bool

    // configuration
    var requiredServices: seq<Service>
    var blockingServices: seq<Service>
    var hostedFilesEnabled: bool
    var gradingEnabled: bool
    var gradingMode: Option<string>
    var gradingScript: Option<Setting>
    var rateLimit: int
    var gradingParts: Dict<Part>
    var tokenLocation: Option<string>
    var submissionMethod: Option<string>
    var graderUrl: Setting
    var graderKey: Setting

    // cron settings
    var cronLimit: Option<int>
    var cronInterval: Option<int>
    var cronDelay: Option<int>
    var cronAt: Option<string>

    // runtime state
    var submitTime: int
    var results: Option<Dict<string>>
    var tokens: Option<Dict<string>>
    var gradingVerb: string
    var fatalError: bool

    // `challengeServer`'s own module-level `task` and `server_ready`
    var task: Option<TaskState>
    var serverReady: bool

    predicate GraderPost()
      reads this
    {
      submissionMethod == Some("grader_post")
    }

    /** The state `init()` leaves before the configuration is read and the server runs. */
    predicate Unconfigured()
      reads this
    {
      && (requiredServices, blockingServices, hostedFilesEnabled, gradingEnabled, gradingMode, gradingScript)
         == ([], [], false, false, None, None)
      && (rateLimit, gradingParts, tokenLocation, submissionMethod, graderUrl, graderKey)
         == (0, [], None, None, Str(""), Str(""))
      && (cronLimit, cronInterval, cronDelay, cronAt) == (None, None, None, None)
      && (submitTime, results, tokens, gradingVerb, fatalError, task, serverReady)
         == (INITIAL_SUBMIT_TIME, None, None, "POST", false, None, false)
    }

    /** `init()` once the guestinfo lookups are done and `variant_index` converted. */
    constructor (tag: string, variant: string, code: string)
      ensures challengeId == ChallengeId(tag) && supportCode == SupportCode(challengeId)
      ensures variantIndex == variant
      ensures challengeCode == ChallengeCode(code)
      ensures inWorkspace <==> Contains(challengeCode, "workspace")
      ensures Unconfigured()
    {
      challengeId := ChallengeId(tag);
      supportCode := SupportCode(ChallengeId(tag));
      variantIndex := variant;
      var c := ChallengeCode(code);
      challengeCode := c;
      inWorkspace := Contains(c, "workspace");
      requiredServices, blockingServices := [], [];
      hostedFilesEnabled, gradingEnabled := false, false;
      gradingMode, gradingScript := None, None;
      rateLimit, gradingParts := 0, [];
      tokenLocation, submissionMethod := None, None;
      graderUrl, graderKey := Str(""), Str("");
      cronLimit, cronInterval, cronDelay, cronAt := None, None, None, None;
      submitTime := INITIAL_SUBMIT_TIME;
      results, tokens := None, None;
      gradingVerb := "POST";
      fatalError := false;
      task := None;
      serverReady := false;
    }
  }

  /**
   * The whole of `init()`: the stripped `variant` lookup goes through `int()`,
   * which raises (`None`) on a short non-numeric value.
   */
  method NewLegacyGlobals(tag: string, variant: string, code: string) returns (r: Option<LegacyGlobals>)
    ensures r.None? <==> VariantIndex(Strip(variant)).None?
    ensures r.Some? ==> fresh(r.value) && r.value.variantIndex == VariantIndex(Strip(variant)).value
    ensures r.Some? ==> r.value.challengeCode == ChallengeCode(Strip(code)) && r.value.gradingVerb == "POST"
    ensures r.Some? ==> r.value.task.None? && !r.value.fatalError && r.value.submitTime == INITIAL_SUBMIT_TIME
  {
    match VariantIndex(Strip(variant))
    case None =>
      r := None;
    case Some(v) =>
      var g := new LegacyGlobals(tag, v, Strip(code));
      r := Some(g);
  }

  // ---------------------------------------------------------------------------
  // The configuration document

  /** `conf['grading']['submission']`: each key absent (`None`) or set. */
  datatype LegacySubmission = LegacySubmission(how: Option<Setting>, graderUrl: Option<Setting>, graderKey: Option<Setting>)

  /** `conf['grading']`. */
  datatype LegacyGradingBlock = LegacyGradingBlock(
    enabled: Option<Setting>, mode: Option<Setting>, script: Option<Setting>, rateLimit: Option<Setting>,
    parts: Option<Dict<Part>>, tokenLocation: Option<Setting>, submission: Option<LegacySubmission>)

  /** The parts of the document `read_config()` reads; `hostedFiles` is `conf['hosted_files']['enabled']`. */
  datatype LegacyConf = LegacyConf(requiredServices: Option<seq<Service>>, hostedFiles: Option<Setting>,
                                   grading: Option<LegacyGradingBlock>)

  /**
   * What `read_config()` finds outside the document: whether the grading
   * script is executable, and the (stdout, stderr) of the `grader_url` and
   * `grader_key` guestinfo lookups.
   */
  datatype LegacyLookups = LegacyLookups(scriptExecutable: bool, urlLookup: (string, string), keyLookup: (string, string))

  /** The grading settings `read_config()` assigns. */
  datatype LegacyGrading = LegacyGrading(mode: string, script: Setting, rateLimit: int, parts: Dict<Part>,
                                         location: string, how: string, graderUrl: Setting, graderKey: Setting)

  /** A guestinfo lookup that found nothing: its stderr mentions "no value". */
  predicate NoValue(lookup: (string, string)) {
    ContainsLower(lookup.1, "no value")
  }

  /** `v in choices` for a YAML value: only a string can equal one of the names. */
  predicate OneOf(v: Setting, choices: seq<string>) {
    v.Str? && v.s in choices
  }

  /** `timedelta(seconds=v)` in whole seconds; a missing key is 0, a string or null raises. */
  function LegacyRate(v: Option<Setting>): (r: Option<int>)
    ensures v.None? ==> r == Some(0)
    ensures v.Some? && v.value.Num? ==> r == Some(v.value.n)
    ensures v.Some? && (v.value.Str? || v.value.Unset?) ==> r.None?
  {
    match v
    case None => Some(0)
    case Some(Num(n)) => Some(n)
    case Some(Flag(b)) => Some(if b then 1 else 0)
    case Some(_) => None
  }

  /**
   * `grader_url`: the guestinfo value, stripped and with every "http:" made
   * "https:", when the lookup found one; otherwise the configured one; the
   * exit when neither exists.
   */
  function LegacyGraderUrl(lookup: (string, string), conf: Option<Setting>): (r: Option<Setting>)
    ensures r.None? <==> NoValue(lookup) && conf.None?
    ensures !NoValue(lookup) ==> r == Some(Str(ReplaceAll(Strip(lookup.0), "http:", "https:")))
    ensures NoValue(lookup) && conf.Some? ==> r == conf
  {
    if NoValue(lookup) && conf.None? then None
    else if !NoValue(lookup) then Some(Str(ReplaceAll(Strip(lookup.0), "http:", "https:")))
    else conf
  }

  /**
   * `grader_key` as written: the exit test reads the key lookup, but the
   * choice between the guestinfo value and the configured one reads the URL
   * lookup; the `KeyError` of a missing configured key is `None`.
   */
  function LegacyGraderKeyAsWritten(urlLookup: (string, string), keyLookup: (string, string), conf: Option<Setting>): Option<Setting> {
    if NoValue(keyLookup) && conf.None? then None
    else if !NoValue(urlLookup) then Some(Str(Strip(keyLookup.0)))
    else conf
  }

  /** `grader_key` as intended: the key lookup decides both the exit and the source. */
  function LegacyGraderKey(lookup: (string, string), conf: Option<Setting>): (r: Option<Setting>)
    ensures r.None? <==> NoValue(lookup) && conf.None?
    ensures !NoValue(lookup) ==> r == Some(Str(Strip(lookup.0)))
    ensures NoValue(lookup) && conf.Some? ==> r == conf
  {
    if NoValue(lookup) && conf.None? then None
    else if !NoValue(lookup) then Some(Str(Strip(lookup.0)))
    else conf
  }

  /**
   * With the URL in guestinfo but the key only in the configuration, the
   * key as written is the empty stdout of the failed key lookup instead of
   * the configured key; with the URL only in the configuration and the key
   * only in guestinfo, it raises instead of using the guestinfo key.
   */
  lemma GraderKeyAsWrittenReadsUrlLookup()
    ensures var url, missing := ("https://grader\n", ""), ("", "No value found");
      LegacyGraderKeyAsWritten(url, missing, Some(Str("k"))) == Some(Str("")) &&
      LegacyGraderKey(missing, Some(Str("k"))) == Some(Str("k"))
    ensures var missing, key := ("", "No value found"), ("k\n", "");
      LegacyGraderKeyAsWritten(missing, key, None).None? &&
      LegacyGraderKey(key, None) == Some(Str("k"))
  {
    var missing := ("", "No value found");
    assert Lower(missing.1)[..8] == "no value";
    assert NoValue(missing);
    assert !NoValue(("", "")) && !NoValue(("k\n", ""));
    assert Strip("") == "";
    assert Strip("k\n") == "k" by {
      assert TrimLeft("k\n") == "k\n";
      assert TrimRight("k\n") == TrimRight("k");
    }
  }

  /** The grading block of an enabled configuration, in `read_config()`'s order. */
  function LegacyGradingOf(b: LegacyGradingBlock, lk: LegacyLookups): (r: Option<LegacyGrading>)
    ensures r.Some? ==> b.mode == Some(Str(r.value.mode)) && r.value.mode in VALID_CONFIG_MODES
    ensures r.Some? ==> b.script == Some(r.value.script) && lk.scriptExecutable
    ensures r.Some? ==> Some(r.value.rateLimit) == LegacyRate(b.rateLimit) && b.parts == Some(r.value.parts)
    ensures r.Some? ==> r.value.location in VALID_TOKEN_LOCATIONS && r.value.how in VALID_SUBMISSION_METHODS
    ensures b.mode.None? || !OneOf(b.mode.value, VALID_CONFIG_MODES) || b.script.None? || !lk.scriptExecutable || b.parts.None? ==> r.None?
  {
    if b.mode.None? || !OneOf(b.mode.value, VALID_CONFIG_MODES) then None
    else if b.script.None? || !lk.scriptExecutable then None
    else if LegacyRate(b.rateLimit).None? || b.parts.None? then None
    else
      var location := b.tokenLocation.GetOr(Str("guestinfo"));
      var how := if b.submission.Some? && b.submission.value.how.Some? then b.submission.value.how.value else Str("display");
      if !OneOf(location, VALID_TOKEN_LOCATIONS) || !OneOf(how, VALID_SUBMISSION_METHODS) then None
      else if how.s != "grader_post" then
        Some(LegacyGrading(b.mode.value.s, b.script.value, LegacyRate(b.rateLimit).value, b.parts.value,
                           location.s, how.s, Str(""), Str("")))
      else
        var sub := b.submission.value;
        var url := LegacyGraderUrl(lk.urlLookup, sub.graderUrl);
        // As written, the URL lookup decides where the key comes from (see `GraderKeyAsWrittenReadsUrlLookup`).
        var key := LegacyGraderKeyAsWritten(lk.urlLookup, lk.keyLookup, sub.graderKey);
        if url.None? || key.None? then None
        else
          Some(LegacyGrading(b.mode.value.s, b.script.value, LegacyRate(b.rateLimit).value, b.parts.value,
                             location.s, how.s, url.value, key.value))
  }

  /**
   * Without `rate_limit`, `token_location` or a submission block, the rate
   * limit is 0, tokens come from guestinfo and results are only displayed.
   */
  lemma LegacyGradingDefaults(mode: string, script: Setting, parts: Dict<Part>, lk: LegacyLookups)
    requires mode in VALID_CONFIG_MODES && lk.scriptExecutable
    ensures LegacyGradingOf(LegacyGradingBlock(Some(Flag(true)), Some(Str(mode)), Some(script), None, Some(parts), None, None), lk)
      == Some(LegacyGrading(mode, script, 0, parts, "guestinfo", "display", Str(""), Str("")))
  {
  }

  /** Whether `read_config()` processes the grading block: `grading.enabled` is truthy. */
  predicate LegacyEnabled(conf: LegacyConf) {
    conf.grading.Some? && conf.grading.value.enabled.Some? && Truthy(conf.grading.value.enabled.value)
  }

  /** The whole configuration is accepted: every required service, then an enabled grading block. */
  predicate LegacyAccepted(conf: LegacyConf, lk: LegacyLookups) {
    NormaliseServices(conf.requiredServices.GetOr([])).Some? &&
    (LegacyEnabled(conf) ==> LegacyGradingOf(conf.grading.value, lk).Some?)
  }

  // ---------------------------------------------------------------------------
  // The https upgrade

  /** The upgrade keeps the first character: a replaced "http:" starts with 'h' too. */
  lemma ReplaceFront(u: string)
    requires u != []
    ensures ReplaceAll(u, "http:", "https:") != [] && ReplaceAll(u, "http:", "https:")[0] == u[0]
  {
    if IsPrefix("http:", u) {
      assert u[..5][0] == 'h';
    }
  }

  /** Replacing "http:" never leaves a character other than 'h' at the front of a prefix it did not have. */
  lemma {:induction false} UpgradeKeepsPrefix(u: string, w: string)
    requires 'h' !in w && IsPrefix(w, ReplaceAll(u, "http:", "https:"))
    ensures IsPrefix(w, u)
    decreases |u|
  {
    if w != [] {
      var t := ReplaceAll(u, "http:", "https:");
      assert u != [];
      ReplaceFront(u);
      // A replaced front would start with 'h', which `w` does not contain.
      assert u[0] == w[0] != 'h';
      assert !IsPrefix("http:", u) by {
        assert |u| < 5 || u[..5][0] != 'h';
      }
      var t' := ReplaceAll(u[1..], "http:", "https:");
      assert t == [u[0]] + t';
      assert w[1..] == t'[..|w| - 1];
      UpgradeKeepsPrefix(u[1..], w[1..]);
      assert w == [w[0]] + w[1..];
    }
  }

  /** No "http:" survives the upgrade of the guestinfo URL. */
  lemma {:induction false} UpgradeRemovesHttp(s: string)
    ensures forall j :: 0 <= j <= |ReplaceAll(s, "http:", "https:")| ==>
      !IsPrefix("http:", ReplaceAll(s, "http:", "https:")[j..])
    decreases |s|
  {
    var t := ReplaceAll(s, "http:", "https:");
    if s != [] {
      if IsPrefix("http:", s) {
        var t' := ReplaceAll(s[5..], "http:", "https:");
        UpgradeRemovesHttp(s[5..]);
        assert t == "https:" + t';
        forall j | 0 <= j <= |t|
          ensures !IsPrefix("http:", t[j..])
        {
          if j >= 6 {
            assert t[j..] == t'[j - 6..];
          } else if j == 0 {
            assert t[4] == 's';
          } else {
            assert t[j] != 'h';
          }
        }
      } else {
        var t' := ReplaceAll(s[1..], "http:", "https:");
        UpgradeRemovesHttp(s[1..]);
        assert t == [s[0]] + t';
        forall j | 0 <= j <= |t|
          ensures !IsPrefix("http:", t[j..])
        {
          if j >= 1 {
            assert t[j..] == t'[j - 1..];
          } else if IsPrefix("http:", t) {
            assert IsPrefix("ttp:", t') by {
              assert t'[..4] == t[1..5];
            }
            UpgradeKeepsPrefix(s[1..], "ttp:");
          }
        }
      }
    }
  }

  /** The URL read from guestinfo never keeps a plain "http:" scheme. */
  lemma GuestinfoUrlIsUpgraded(lookup: (string, string), conf: Option<Setting>)
    requires !NoValue(lookup)
    ensures LegacyGraderUrl(lookup, conf).Some? && LegacyGraderUrl(lookup, conf).value.Str?
    ensures !Contains(LegacyGraderUrl(lookup, conf).value.s, "http:")
  {
    UpgradeRemovesHttp(Strip(lookup.0));
  }

  // ---------------------------------------------------------------------------
  // read_config()

  /** The legacy `required_services` loop, which checks and defaults each entry as the current one does. */
  method ConfigureLegacyServices(g: LegacyGlobals, services: seq<Service>) returns (ok: bool)
    modifies g`requiredServices, g`blockingServices
    ensures ok <==> NormaliseServices(services).Some?
    ensures ok ==> g.requiredServices == NormaliseServices(services).value
    ensures ok ==> g.blockingServices == Blocking(g.requiredServices)
  {
    g.requiredServices := services;
    g.blockingServices := [];
    var i := 0;
    while i < |services|
      invariant 0 <= i <= |services| && |g.requiredServices| == |services|
      invariant NormaliseServices(services[..i]) == Some(g.requiredServices[..i])
      invariant g.requiredServices[i..] == services[i..]
      invariant g.blockingServices == Blocking(g.requiredServices[..i])
    {
      assert g.requiredServices[i] == g.requiredServices[i..][0];
      var r := NormaliseService(g.requiredServices[i]);
      if r.None? {
        ServiceFails(services, i);
        return false;
      }
      ServiceStep(services, g.requiredServices, i, r.value);
      g.requiredServices := g.requiredServices[i := r.value];
      if IsBlocking(r.value) {
        g.blockingServices := g.blockingServices + [r.value];
      }
      i := i + 1;
    }
    assert services[..i] == services && g.requiredServices[..i] == g.requiredServices;
    ok := true;
  }

  /** The grading settings held by the state; `grader_url` and `grader_key` only when results are posted. */
  predicate Holds(g: LegacyGlobals, c: LegacyGrading)
    reads g
  {
    g.gradingMode == Some(c.mode) && g.gradingScript == Some(c.script) && g.rateLimit == c.rateLimit &&
    g.gradingParts == c.parts && g.tokenLocation == Some(c.location) && g.submissionMethod == Some(c.how) &&
    (c.how == "grader_post" ==> g.graderUrl == c.graderUrl && g.graderKey == c.graderKey)
  }

  /** The `if grading_enabled:` block. */
  method ReadLegacyGrading(g: LegacyGlobals, b: LegacyGradingBlock, lk: LegacyLookups) returns (ok: bool)
    modifies g`gradingMode, g`gradingScript, g`rateLimit, g`gradingParts, g`tokenLocation, g`submissionMethod,
             g`graderUrl, g`graderKey
    ensures ok <==> LegacyGradingOf(b, lk).Some?
    ensures ok ==> Holds(g, LegacyGradingOf(b, lk).value)
    ensures ok && !g.GraderPost() ==> g.graderUrl == old(g.graderUrl) && g.graderKey == old(g.graderKey)
  {
    var c := LegacyGradingOf(b, lk);
    if c.None? {
      return false;
    }
    var v := c.value;
    g.gradingMode := Some(v.mode);
    g.gradingScript := Some(v.script);
    g.rateLimit := v.rateLimit;
    g.gradingParts := v.parts;
    g.tokenLocation := Some(v.location);
    g.submissionMethod := Some(v.how);
    if v.how == "grader_post" {
      g.graderUrl := v.graderUrl;
      g.graderKey := v.graderKey;
    }
    ok := true;
  }

  /**
   * `read_config()`: the required services, the hosted-files and grading
   * switches, and the grading block when grading is enabled.
   */
  method ReadLegacyConfig(g: LegacyGlobals, conf: LegacyConf, lk: LegacyLookups) returns (ok: bool)
    modifies g`requiredServices, g`blockingServices, g`hostedFilesEnabled, g`gradingEnabled
    modifies g`gradingMode, g`gradingScript, g`rateLimit, g`gradingParts, g`tokenLocation, g`submissionMethod,
             g`graderUrl, g`graderKey
    ensures ok <==> LegacyAccepted(conf, lk)
    ensures ok ==> g.requiredServices == NormaliseServices(conf.requiredServices.GetOr([])).value
    ensures ok ==> g.blockingServices == Blocking(g.requiredServices)
    ensures ok ==> g.hostedFilesEnabled == (conf.hostedFiles.Some? && Truthy(conf.hostedFiles.value))
    ensures ok ==> g.gradingEnabled == LegacyEnabled(conf)
    ensures ok && LegacyEnabled(conf) ==> Holds(g, LegacyGradingOf(conf.grading.value, lk).value)
    ensures ok && !LegacyEnabled(conf) ==> g.gradingMode == old(g.gradingMode) && g.gradingParts == old(g.gradingParts)
    ensures g.submitTime == old(g.submitTime) && g.task == old(g.task) && g.fatalError == old(g.fatalError)
  {
    ok := ConfigureLegacyServices(g, conf.requiredServices.GetOr([]));
    if !ok {
      return;
    }
    ok := ReadLegacySwitches(g, conf, lk);
  }

  /** The part of `read_config()` after the required services. */
  method ReadLegacySwitches(g: LegacyGlobals, conf: LegacyConf, lk: LegacyLookups) returns (ok: bool)
    modifies g`hostedFilesEnabled, g`gradingEnabled
    modifies g`gradingMode, g`gradingScript, g`rateLimit, g`gradingParts, g`tokenLocation, g`submissionMethod,
             g`graderUrl, g`graderKey
    ensures ok <==> (LegacyEnabled(conf) ==> LegacyGradingOf(conf.grading.value, lk).Some?)
    ensures g.hostedFilesEnabled == (conf.hostedFiles.Some? && Truthy(conf.hostedFiles.value))
    ensures g.gradingEnabled == LegacyEnabled(conf)
    ensures ok && LegacyEnabled(conf) ==> Holds(g, LegacyGradingOf(conf.grading.value, lk).value)
    ensures !LegacyEnabled(conf) ==> g.gradingMode == old(g.gradingMode) && g.gradingParts == old(g.gradingParts)
  {
    g.hostedFilesEnabled := conf.hostedFiles.Some? && Truthy(conf.hostedFiles.value);
    g.gradingEnabled := LegacyEnabled(conf);
    ok := true;
    if g.gradingEnabled {
      ok := ReadLegacyGrading(g, conf.grading.value, lk);
    }
  }
}
