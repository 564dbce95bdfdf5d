/** Risk classification of tool calls: an ordered risk scale, a first-match rule list for
    shell commands and a per-tool base-risk table. The regular expressions are not
    interpreted: a search function, standing for Python's `re.search`, is a parameter. */
module Classifier {
  import opened Wrappers
  import opened Text
  import opened Values

  /** `RiskLevel`, an IntEnum SAFE = 0 < LOW < MEDIUM < HIGH < CRITICAL = 4. */
  datatype RiskLevel = Safe | Low | Medium | High | Critical {

    /** The IntEnum value. */
    function Rank(): nat {
      match this
      case Safe => 0
      case Low => 1
      case Medium => 2
      case High => 3
      case Critical => 4
    }

    /** `label()`, the text shown in approval prompts. */
    function Label(): string {
      match this
      case Safe => "✅ SAFE"
      case Low => "🟢 LOW"
      case Medium => "🟡 MEDIUM"
      case High => "🔴 HIGH"
      case Critical => "🚨 CRITICAL"
    }
  }

  /** `a <= b` on the IntEnum. */
  predicate AtMost(a: RiskLevel, b: RiskLevel) {
    a.Rank() <= b.Rank()
  }

  /** `max(a, b)` on the IntEnum. */
  function Max(a: RiskLevel, b: RiskLevel): (m: RiskLevel)
    ensures m == a || m == b
    ensures AtMost(a, m) && AtMost(b, m)
  {
    if AtMost(a, b) then b else a
  }

  /** The risk scale is a total order: ranks identify levels, and every level has a
      distinct label. */
  lemma RiskOrderIsTotal(a: RiskLevel, b: RiskLevel, c: RiskLevel)
    ensures AtMost(a, b) || AtMost(b, a)
    ensures AtMost(a, b) && AtMost(b, a) ==> a == b
    ensures AtMost(a, b) && AtMost(b, c) ==> AtMost(a, c)
    ensures a.Label() == b.Label() ==> a == b
    ensures AtMost(Safe, a) && AtMost(a, Critical)
  {
  }

  /** Stands for `re.search(pattern, text) is not None`. */
  type Search = (string, string) -> bool

  datatype Rule = Rule(pattern: string, level: RiskLevel)

  /** `_BASH_RULES`, in order; the first rule whose pattern is found wins. */
  const BashRules: seq<Rule> := [
    Rule(@"rm\s+-[rf]+\s*/\b|rm\s+--no-preserve-root", Critical),
    Rule(@":\(\)\s*\{.*\|.*\&", Critical),
    Rule(@"dd\s+if=/dev/(random|zero|urandom)", Critical),
    Rule(@"\bmkfs\b|\bformat\b", Critical),
    Rule(@">\s*/dev/sd[a-z]", Critical),
    Rule(@"\brm\s+(-[rf]+\s+)?\S", High),
    Rule(@"\bsudo\b|\bdoas\b", High),
    Rule(@"\bchmod\s+[0-7]*[0-7][0-7][0-7]\b", High),
    Rule(@"\bcurl\b.*\|\s*(ba)?sh\b", High),
    Rule(@"\bkill\b|\bkillall\b", High),
    Rule(@"\blaunchctl\s+(load|unload|bootstrap|bootout)\b", High),
    Rule(@"\bsystemctl\s+(start|stop|restart|enable|disable)\b", High),
    Rule(@"\bpkill\b", High),
    Rule(@"\bcrontab\b", High),
    Rule(@"\bnetwork\b.*\bset\b|\bifconfig\b.*\bdown\b", High),
    Rule(@"\bmv\b", Medium),
    Rule(@"\bcp\s+.*\s+/", Medium),
    Rule(@"\bssh\b|\brsync\b|\bscp\b", Medium),
    Rule(@"\bbrewup\b|\bbrew\s+(install|uninstall|upgrade)\b", Medium),
    Rule(@"\bnpm\s+(install|uninstall)\b|\bpip\s+(install|uninstall)\b", Medium),
    Rule(@"\bgit\s+(push|reset|rebase|force)\b", Medium),
    Rule(@"\bopen\s+-a\b", Medium),
    Rule(@"\bmkdir\b|\btouch\b|\becho\b|\bcat\b", Low),
    Rule(@"\bgrep\b|\bfind\b|\bls\b|\bpwd\b|\bwhoami\b|\bdate\b", Low),
    Rule(@"\bpython\b|\bnode\b|\bruby\b|\bperl\b", Low),
    Rule(@"^(ls|pwd|whoami|date|echo|cat|head|tail|grep|wc)\b", Safe)
  ]

  /** The index of the first rule at or after `from` whose pattern is found in `cmd`. */
  function FirstMatchFrom(search: Search, rules: seq<Rule>, cmd: string, from: nat): (r: Option<nat>)
    requires from <= |rules|
    ensures r.Some? ==> from <= r.value < |rules| && search(rules[r.value].pattern, cmd)
    ensures r.Some? ==> forall j :: from <= j < r.value ==> !search(rules[j].pattern, cmd)
    ensures r.None? ==> forall j :: from <= j < |rules| ==> !search(rules[j].pattern, cmd)
    decreases |rules| - from
  {
    if from == |rules| then None
    else if search(rules[from].pattern, cmd) then Some(from)
    else FirstMatchFrom(search, rules, cmd, from + 1)
  }

  /** The loop of `classify_bash` over any rule list: the level of the first rule whose
      pattern is found, MEDIUM when none is. */
  function ClassifyWith(search: Search, rules: seq<Rule>, cmd: string): (r: RiskLevel)
    ensures (forall j :: 0 <= j < |rules| ==> !search(rules[j].pattern, cmd)) ==> r == Medium
    ensures forall i :: 0 <= i < |rules| && search(rules[i].pattern, cmd)
                        && (forall j :: 0 <= j < i ==> !search(rules[j].pattern, cmd))
                        ==> r == rules[i].level
  {
    match FirstMatchFrom(search, rules, cmd, 0)
    case Some(i) => rules[i].level
    case None => Medium
  }

  /** `classify_bash`. */
  function ClassifyBash(search: Search, cmd: string): RiskLevel {
    ClassifyWith(search, BashRules, cmd)
  }

  /** The first five rules are the CRITICAL ones: a command any of them finds (a recursive
      delete of `/`, a fork bomb, ...) is CRITICAL whatever the later rules say. */
  lemma CriticalPatternsWin(search: Search, cmd: string, i: nat)
    requires i < 5 && search(BashRules[i].pattern, cmd)
    ensures ClassifyBash(search, cmd) == Critical
  {
    assert forall j :: 0 <= j < 5 ==> BashRules[j].level == Critical;
    LeadingRulesWin(search, BashRules, cmd, 5, i, Critical);
  }

  /** When the first `n` rules share one level, a command any of them finds gets that level. */
  lemma LeadingRulesWin(search: Search, rules: seq<Rule>, cmd: string, n: nat, i: nat, level: RiskLevel)
    requires i < n <= |rules| && search(rules[i].pattern, cmd)
    requires forall j :: 0 <= j < n ==> rules[j].level == level
    ensures ClassifyWith(search, rules, cmd) == level
  {
    var k := FirstMatchFrom(search, rules, cmd, 0);
    assert k.Some? && k.value <= i;
  }

  /** For "bash" that makes the whole call CRITICAL. */
  lemma CriticalCommandIsCriticalTool(search: Search, args: seq<(string, Value)>, cmd: string, i: nat)
    requires Lookup(args, "command") == Some(Str(cmd))
    requires i < 5 && search(BashRules[i].pattern, cmd)
    ensures ClassifyTool(search, "bash", args) == Success(Critical)
  {
    CriticalPatternsWin(search, cmd, i);
    CriticalBashCommand(search, BashRules, args, cmd);
  }

  lemma CriticalBashCommand(search: Search, rules: seq<Rule>, args: seq<(string, Value)>, cmd: string)
    requires Lookup(args, "command") == Some(Str(cmd)) && ClassifyWith(search, rules, cmd) == Critical
    ensures ClassifyToolWith(search, rules, "bash", args) == Success(Critical)
  {
    var r := ClassifyToolWith(search, rules, "bash", args);
    assert r.Success? && AtMost(Critical, r.value);
  }

  /** Once rule `i` matches, the rules after it are never looked at: two searches that agree
      on rules `0..i` classify the command alike, whatever they say about later patterns. */
  lemma LaterRulesNotConsulted(s1: Search, s2: Search, rules: seq<Rule>, cmd: string, i: nat)
    requires i < |rules| && s1(rules[i].pattern, cmd)
    requires forall j :: 0 <= j <= i ==> s1(rules[j].pattern, cmd) == s2(rules[j].pattern, cmd)
    ensures ClassifyWith(s1, rules, cmd) == ClassifyWith(s2, rules, cmd)
  {
    var k := FirstMatchFrom(s1, rules, cmd, 0);
    assert k.Some? && k.value <= i;
  }

  /** `TOOL_BASE_RISKS.get(tool_name, RiskLevel.MEDIUM)`: the table, with MEDIUM for a
      name it does not list. */
  function BaseRisk(toolName: string): RiskLevel {
    match toolName
    case "bash" => Medium
    case "file_read" => Safe
    case "file_write" => Medium
    case "file_list" => Safe
    case "file_send" => Low
    case "browser_navigate" => Low
    case "browser_click" => Low
    case "browser_type" => Low
    case "browser_get_text" => Safe
    case "browser_screenshot" => Safe
    case "screenshot" => Safe
    case "email_list" => Low
    case "email_read" => Low
    case "email_send" => High
    case "linkedin_get_feed" => Safe
    case "linkedin_get_notifications" => Safe
    case "linkedin_get_messages" => Safe
    case "linkedin_get_pages" => Safe
    case "linkedin_connect" => Medium
    case "linkedin_comment" => Medium
    case "linkedin_send_message" => High
    case "linkedin_post" => High
    case "linkedin_page_post" => High
    case "instagram_get_feed" => Safe
    case "instagram_get_notifications" => Safe
    case "instagram_get_messages" => Safe
    case "instagram_follow" => Medium
    case "instagram_like" => Low
    case "instagram_comment" => Medium
    case "instagram_send_message" => High
    case "instagram_post" => High
    case _ => Medium
  }

  /** The tool names `TOOL_BASE_RISKS` lists. */
  const ListedTools: set<string> := {
    "bash",
    "file_read",
    "file_write",
    "file_list",
    "file_send",
    "browser_navigate",
    "browser_click",
    "browser_type",
    "browser_get_text",
    "browser_screenshot",
    "screenshot",
    "email_list",
    "email_read",
    "email_send",
    "linkedin_get_feed",
    "linkedin_get_notifications",
    "linkedin_get_messages",
    "linkedin_get_pages",
    "linkedin_connect",
    "linkedin_comment",
    "linkedin_send_message",
    "linkedin_post",
    "linkedin_page_post",
    "instagram_get_feed",
    "instagram_get_notifications",
    "instagram_get_messages",
    "instagram_follow",
    "instagram_like",
    "instagram_comment",
    "instagram_send_message",
    "instagram_post"
  }

  /** An unknown tool name gets MEDIUM. */
  lemma UnknownToolIsMedium(toolName: string)
    requires toolName !in ListedTools
    ensures BaseRisk(toolName) == Medium
  {
  }

  /** The HIGH tools are exactly those that send or publish as the user. */
  lemma HighRiskTools(toolName: string)
    ensures BaseRisk(toolName) == High <==>
      toolName in {"email_send", "linkedin_send_message", "linkedin_post", "linkedin_page_post",
                   "instagram_send_message", "instagram_post"}
  {
  }

  /** The SAFE rule is the last one: a command is SAFE only when no other rule finds
      anything in it. */
  lemma SafeOnlyWhenNothingElse(search: Search, cmd: string)
    requires ClassifyBash(search, cmd) == Safe
    ensures forall j :: 0 <= j < |BashRules| - 1 ==> !search(BashRules[j].pattern, cmd)
  {
    BashLevelsNotSafe();
    OnlyLastRuleGives(search, BashRules, cmd, Safe);
  }

  lemma BashLevelsNotSafe()
    ensures |BashRules| == 26 && forall j :: 0 <= j < 25 ==> BashRules[j].level != Safe
  {
    assert forall j :: 0 <= j < 5 ==> BashRules[j].level == Critical;
    assert forall j :: 5 <= j < 15 ==> BashRules[j].level == High;
    assert forall j :: 15 <= j < 22 ==> BashRules[j].level == Medium;
    assert forall j :: 22 <= j < 25 ==> BashRules[j].level == Low;
  }

  /** When only the last rule has a level other than MEDIUM, that level means no earlier
      rule found anything. */
  lemma OnlyLastRuleGives(search: Search, rules: seq<Rule>, cmd: string, level: RiskLevel)
    requires |rules| > 0 && level != Medium && ClassifyWith(search, rules, cmd) == level
    requires forall j :: 0 <= j < |rules| - 1 ==> rules[j].level != level
    ensures forall j :: 0 <= j < |rules| - 1 ==> !search(rules[j].pattern, cmd)
  {
    var k := FirstMatchFrom(search, rules, cmd, 0);
    assert k.Some? && k.value == |rules| - 1;
  }

  /** Writing under one of these escalates `file_write` to CRITICAL. */
  const SystemPrefixes: seq<string> := ["/etc/", "/usr/", "/bin/", "/sbin/", "/System/"]

  predicate UnderSystemPath(path: string) {
    exists p :: p in SystemPrefixes && StartsWith(path, p)
  }

  /** A system path is absolute and goes into a directory: "/etc" itself, and a relative
      "etc/x", are not system paths. */
  lemma SystemPathsAreDirectories(path: string)
    requires UnderSystemPath(path)
    ensures |path| >= 5 && path[0] == '/'
    ensures exists k :: 1 <= k < |path| && path[k] == '/'
  {
    var p :| p in SystemPrefixes && StartsWith(path, p);
    assert path[..|p|] == p;
    assert path[0] == p[0] && path[|p| - 1] == p[|p| - 1];
  }

  /** `classify_tool`, for any rule list standing in `_BASH_RULES`' place. A non-string
      `command` makes `re.search` raise TypeError and a non-string `path` makes `startswith`
      raise AttributeError; both are failures here. */
  function ClassifyToolWith(search: Search, rules: seq<Rule>, toolName: string, args: seq<(string, Value)>): (r: Result<RiskLevel>)
    ensures toolName == "bash" ==>
      match Lookup(args, "command").GetOr(Str(""))
      case Str(cmd) => r.Success? && AtMost(Medium, r.value) && AtMost(ClassifyWith(search, rules, cmd), r.value)
                       && (r.value == Medium || r.value == ClassifyWith(search, rules, cmd))
      case _ => r.Failure?
    ensures toolName == "file_write" ==>
      match Lookup(args, "path").GetOr(Str(""))
      case Str(path) => r == Success(if UnderSystemPath(path) then Critical else Medium)
      case _ => r.Failure?
    ensures toolName != "bash" && toolName != "file_write" ==> r == Success(BaseRisk(toolName))
    ensures r.Success? ==> AtMost(BaseRisk(toolName), r.value)
  {
    if toolName == "bash" then
      match Lookup(args, "command").GetOr(Str(""))
      case Str(cmd) => Success(Max(BaseRisk(toolName), ClassifyWith(search, rules, cmd)))
      case _ => Failure("TypeError: expected string or bytes-like object")
    else if toolName == "file_write" then
      match Lookup(args, "path").GetOr(Str(""))
      case Str(path) => if UnderSystemPath(path) then Success(Critical) else Success(BaseRisk(toolName))
      case _ => Failure("AttributeError: object has no attribute 'startswith'")
    else Success(BaseRisk(toolName))
  }

  /** `classify_tool` with the shipped rules. */
  function ClassifyTool(search: Search, toolName: string, args: seq<(string, Value)>): Result<RiskLevel> {
    ClassifyToolWith(search, BashRules, toolName, args)
  }

  /** The result for any tool other than "bash" and "file_write" ignores the arguments. */
  lemma OtherToolsIgnoreArgs(search: Search, toolName: string, a1: seq<(string, Value)>, a2: seq<(string, Value)>)
    requires toolName != "bash" && toolName != "file_write"
    ensures ClassifyTool(search, toolName, a1) == ClassifyTool(search, toolName, a2)
  {
    assert ClassifyTool(search, toolName, a1) == Success(BaseRisk(toolName));
  }
}
