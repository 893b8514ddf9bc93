/**
 * The shared server state object (`Globals`) and the constants and identity
 * normalisations its initialiser computes. Values the initialiser reads from
 * the hypervisor (`vmtoolsd` guestinfo lookups) are parameters.
 *
 * Clock values are whole seconds since 01/01/1900 00:00:00; the initial submit
 * times `time().strftime("%m/%d/%Y %H:%M:%S")` format midnight of that day.
 */
module AppGlobals {
  import opened Outcomes
  import opened Text
  import opened Dicts

  const VALID_CONFIG_MODES: seq<string> := ["button", "cron", "text", "text_single"]
  const MANUAL_MODE: seq<string> := ["button", "text", "text_single"]
  const VALID_TOKEN_LOCATIONS: seq<string> := ["guestinfo", "file"]
  const VALID_SUBMISSION_METHODS: seq<string> := ["display", "grader_post"]
  const VALID_SERVICE_TYPES: seq<string> := ["ping", "socket", "web"]

  /** The initial submit timestamp, `01/01/1900 00:00:00`, in clock seconds. */
  const INITIAL_SUBMIT_TIME: int := 0
  const INITIAL_SUBMIT_STAMP: string := "01/01/1900 00:00:00"

  /** The grading modes a question can be answered through the web page with. */
  lemma ManualModesAreValid()
    ensures forall m :: m in MANUAL_MODE ==> m in VALID_CONFIG_MODES
    ensures forall m :: m in VALID_CONFIG_MODES && m !in MANUAL_MODE ==> m == "cron"
    ensures "upload" !in VALID_CONFIG_MODES && "mc" !in VALID_CONFIG_MODES
    ensures "env" !in VALID_TOKEN_LOCATIONS
  {
  }

  /** The `opts` entry of a part: absent, a mapping of choice ids to texts, or anything else. */
  datatype PartOpts = NoOpts | DictOpts(choices: Dict<string>) | OtherOpts

  /** A question of the `grading.parts` configuration. */
  datatype Part = Part(mode: string, text: string, opts: PartOpts, tokenName: Option<string>, uploadKey: Option<string>)

  /** The status of the executor future held in `globals.task`: queued, running or done. */
  datatype TaskState = Pending | Running | Finished

  /** A scalar value read from the YAML configuration, or its absence (`None`). */
  datatype Setting = Unset | Num(n: int) | Str(s: string) | Flag(b: bool)

  /** Python truthiness, which decides the `a or b` fall-backs. */
  predicate Truthy(v: Setting) {
    match v
    case Unset => false
    case Num(n) => n != 0
    case Str(s) => s != ""
    case Flag(b) => b
  }

  /** `env or conf`: a non-empty environment value wins. */
  function EnvOr(env: Option<string>, conf: Setting): Setting {
    if env.Some? && env.value != "" then Str(env.value) else conf
  }

  /**
   * An entry of `required_services`: each key is absent (`None`) or holds a
   * value; `block` is `block_startup_scripts`.
   */
  datatype Service = Service(host: Option<Setting>, kind: Option<Setting>, port: Option<Setting>,
                             path: Option<Setting>, block: Option<Setting>)

  /** An entry of `services_to_log`. */
  datatype LogEntry = LogEntry(host: Option<Setting>, password: Option<Setting>, service: Option<Setting>,
                               user: Option<Setting>)

  /** `int(v)`; `None` is the `ValueError`/`TypeError` it raises. */
  function IntOf(v: Setting): Option<int> {
    match v
    case Unset => None
    case Num(n) => Some(n)
    case Str(s) => ParseInt(s)
    case Flag(b) => Some(if b then 1 else 0)
  }

  /**
   * `variant_index`: "-1" for an empty, templated ("##") or over-long value,
   * otherwise the value plus one; `int()` raising on a non-number is `None`.
   */
  function VariantIndex(v: string): (r: Option<string>)
    ensures v == [] || Contains(v, "##") || |v| > 2 ==> r == Some("-1")
    ensures r.None? <==> (v != [] && !Contains(v, "##") && |v| <= 2 && ParseInt(v).None?)
  {
    if v == [] || Contains(v, "##") || |v| > 2 then Some("-1")
    else
      match ParseInt(v)
      case None => None
      case Some(n) => Some(IntToString(n + 1))
  }

  /** A variant index is always a decimal number between -8 and 100. */
  lemma VariantIndexRange(v: string)
    requires VariantIndex(v).Some?
    ensures ParseInt(VariantIndex(v).value).Some?
    ensures -8 <= ParseInt(VariantIndex(v).value).value <= 100
  {
    if v == [] || Contains(v, "##") || |v| > 2 {
      MinusOneParses();
    } else {
      var n := ParseInt(v).value;
      ParseIntToString(n + 1);
      ParseIntBounds(v);
    }
  }

  lemma MinusOneParses()
    ensures ParseInt("-1") == Some(-1)
  {
    ParseIntToString(-1);
    assert IntToString(-1) == "-1";
  }

  /** A string of at most two characters parses to a value between -9 and 99. */
  lemma ParseIntBounds(v: string)
    requires |v| <= 2 && ParseInt(v).Some?
    ensures -9 <= ParseInt(v).value <= 99
  {
    var t := Strip(v);
    assert |t| <= 2;
    assert Pow10(1) == 10 && Pow10(2) == 100;
    if |t| > 1 && (t[0] == '-' || t[0] == '+') && AllDigits(t[1..]) {
      DigitsValueBound(t[1..]);
    } else {
      DigitsValueBound(t);
    }
  }

  /** `challenge_code`: "workspace" for an empty or templated code, else the code. */
  function ChallengeCode(code: string): (r: string)
    ensures r != [] && !Contains(r, "##")
    ensures code != [] && !Contains(code, "##") ==> r == code
  {
    NotContainsFirst("workspace", "##");
    if code == [] || Contains(code, "##") then "workspace" else code
  }

  /** `challenge_id`: the stripped isolation tag with every '-' removed. */
  function ChallengeId(tag: string): (r: string)
    ensures '-' !in r && |r| <= |Strip(tag)|
  {
    ReplaceCharGone(Strip(tag), '-');
    ReplaceAll(Strip(tag), "-", "")
  }

  /** `support_code`: the first eight characters of the challenge id. */
  function SupportCode(id: string): (r: string)
    ensures |r| == if |id| < 8 then |id| else 8
    ensures r == id[..|r|]
  {
    if |id| < 8 then id else id[..8]
  }

  lemma SupportCodeHasNoDash(tag: string)
    ensures '-' !in SupportCode(ChallengeId(tag))
  {
    var id := ChallengeId(tag);
    var r := SupportCode(id);
    assert forall i :: 0 <= i < |r| ==> r[i] == id[i];
  }

  /** `in_workspace`: the code contains "workspace"; the default code does. */
  lemma DefaultCodeIsWorkspace(code: string)
    requires code == [] || Contains(code, "##")
    ensures Contains(ChallengeCode(code), "workspace")
  {
    ContainsAt("workspace", "workspace", 0);
  }

  class Globals {
    // identity
    var challengeId: string
    var supportCode: string
    var variantIndex: string
    var challengeCode: string
    var inWorkspace: bool

    // configuration, assigned by the configuration reader
    var gradingEnabled: bool
    var gradingMode: seq<string>
    var gradingParts: Dict<Part>
    var rateLimit: int
    var tokenLocation: string
    var submissionMethod: string
    var graderPost: bool
    var phasesEnabled: bool
    var phases: Dict<seq<string>>
    var phaseOrder: seq<string>
    var cmi5Enabled: bool
    var appPort: int
    var manualGradingScript: Option<string>
    var maxContentLength: Option<int>
    var graderUrl: Setting
    var graderKey: Setting
    var requiredServices: seq<Service>
    var blockingServices: seq<Service>
    var servicesList: Option<seq<LogEntry>>

    // cron settings
    var cronGradingScript: string
    var cronLimit: Option<int>
    var cronInterval: Option<int>
    var cronDelay: Option<int>
    var cronAt: Option<string>
    var cronType: Option<string>

    // runtime state
    var manualSubmitTime: int
    var cronSubmitTime: int
    var manualResults: Option<Dict<string>>
    var cronResults: Option<Dict<string>>
    var manualTokens: Dict<string>
    var cronTokens: Dict<string>
    var gradingVerb: string
    var fatalError: bool
    var currentPhase: Option<string>
    var task: Option<TaskState>
    var serverReady: bool
    var labCompleted: bool

    /** `Globals.__init__` once the guestinfo lookups are done and `variant_index` parsed. */
    constructor (tag: string, variant: string, code: string)
      ensures challengeId == ChallengeId(tag) && supportCode == SupportCode(challengeId)
      ensures variantIndex == variant
      ensures challengeCode == ChallengeCode(code)
      ensures inWorkspace <==> Contains(challengeCode, "workspace")
      ensures Unconfigured()
    {
      challengeId := ChallengeId(tag);
      supportCode := SupportCode(ChallengeId(tag));
      variantIndex := variant;
      var c := ChallengeCode(code);
      challengeCode := c;
      inWorkspace := Contains(c, "workspace");
      gradingEnabled := false;
      gradingMode := [];
      gradingParts := [];
      rateLimit := 0;
      tokenLocation := "";
      submissionMethod := "";
      graderPost := false;
      phasesEnabled := false;
      phases := [];
      phaseOrder := [];
      cmi5Enabled := false;
      appPort := 0;
      maxContentLength := None;
      graderUrl, graderKey := Str(""), Str("");
      manualGradingScript := None;
      requiredServices, blockingServices := [], [];
      servicesList := None;
      cronGradingScript := [];
      cronLimit, cronInterval, cronDelay := None, None, None;
      cronAt, cronType := None, None;
      manualSubmitTime := INITIAL_SUBMIT_TIME;
      cronSubmitTime := INITIAL_SUBMIT_TIME;
      manualResults, cronResults := None, None;
      manualTokens, cronTokens := [], [];
      gradingVerb := "POST";
      fatalError := false;
      currentPhase := None;
      task := None;
      serverReady := false;
      labCompleted := false;
    }

    /** The state of a new `Globals` before the configuration reader and the server run. */
    predicate Unconfigured()
      reads this
    {
      && (gradingEnabled, gradingMode, gradingParts, rateLimit, graderPost, phasesEnabled, phaseOrder)
         == (false, [], [], 0, false, false, [])
      && (cronGradingScript, cronLimit, cronInterval, cronDelay, cronAt, cronType)
         == ([], None, None, None, None, None)
      && (manualSubmitTime, cronSubmitTime, manualResults, cronResults, manualTokens, cronTokens)
         == (INITIAL_SUBMIT_TIME, INITIAL_SUBMIT_TIME, None, None, [], [])
      && (gradingVerb, fatalError, currentPhase, task, serverReady, labCompleted)
         == ("POST", false, None, None, false, false)
      && (requiredServices, blockingServices, servicesList, manualGradingScript, graderUrl, graderKey)
         == ([], [], None, None, Str(""), Str(""))
    }

    /** Does the configured part `name` exist and have one of `modes`? */
    predicate PartHasMode(name: string, modes: seq<string>)
      reads this
    {
      var p := Get(gradingParts, name);
      p.Some? && p.value.mode in modes
    }
  }

  /**
   * The whole initialiser: the stripped `variant` guestinfo value is converted
   * with `int()`, which raises (`None`) for a short non-numeric value.
   */
  method NewGlobals(tag: string, variant: string, code: string) returns (r: Option<Globals>)
    ensures r.None? <==> VariantIndex(Strip(variant)).None?
    ensures r.Some? ==> fresh(r.value) && r.value.variantIndex == VariantIndex(Strip(variant)).value
    ensures r.Some? ==> r.value.challengeCode == ChallengeCode(Strip(code)) && r.value.gradingVerb == "POST"
    ensures r.Some? ==> r.value.task.None? && !r.value.fatalError && r.value.manualSubmitTime == INITIAL_SUBMIT_TIME
  {
    match VariantIndex(Strip(variant))
    case None =>
      r := None;
    case Some(v) =>
      var g := new Globals(tag, v, Strip(code));
      r := Some(g);
  }
}
