/** The shell tool: a fixed blocklist checked before anything else, approval above a risk
    threshold, and the rendering of the subprocess outcome. The subprocess is not run: its
    outcome (`Execution`) and the approver's decision are parameters, and the patterns are
    searched with the same abstract `Search` as the classifier's rules. */
module BashTool {
  import opened Wrappers
  import opened Text
  import opened Classifier

  /** `_BLOCKLIST`: refused whatever the user says. */
  const Blocklist: seq<string> := [
    @"rm\s+-[rf]+\s*/\b",
    @":\(\)\s*\{.*\|.*\&",
    @"dd\s+if=/dev/(random|zero|urandom)\s+of=/dev/sd",
    @">\s*/dev/sd[a-z]",
    @"\bmkfs\b"
  ]

  /** Whether any of `patterns` is found in `command`; the loop of `_is_blocked` stops at the
      first one found. */
  function AnyFound(search: Search, patterns: seq<string>, command: string): (b: bool)
    ensures b <==> exists i :: 0 <= i < |patterns| && search(patterns[i], command)
  {
    if patterns == [] then false
    else if search(patterns[0], command) then true
    else
      assert forall i :: 0 <= i < |patterns[1..]| ==> patterns[1..][i] == patterns[i + 1];
      AnyFound(search, patterns[1..], command)
  }

  /** `_is_blocked`. */
  function IsBlocked(search: Search, command: string): (r: bool)
    ensures r <==> exists i :: 0 <= i < |Blocklist| && search(Blocklist[i], command)
  {
    AnyFound(search, Blocklist, command)
  }

  /** The fork-bomb and raw-disk patterns of the blocklist are also CRITICAL rules of the
      classifier: a command either finds is blocked, and would be CRITICAL if it were not. */
  lemma SharedPatternsBlockedAndCritical(search: Search, command: string, i: nat)
    requires i == 1 || i == 3
    requires search(Blocklist[i], command)
    ensures IsBlocked(search, command)
    ensures ClassifyBash(search, command) == Critical
  {
    var j := if i == 1 then 1 else 4;
    assert BashRules[j].pattern == Blocklist[i];
    CriticalPatternsWin(search, command, j);
  }

  /** `_SAFE_ENV_KEYS`. */
  predicate IsSafeEnvKey(key: string) {
    match key
    case "PATH" | "HOME" | "USER" | "LANG" | "LC_ALL" | "LC_CTYPE" | "TERM" | "SHELL" | "TMPDIR"
       | "XDG_RUNTIME_DIR" | "PLAYWRIGHT_BROWSERS_PATH" => true
    case _ => false
  }

  /** `_sanitize_env`: the process environment restricted to the safe keys, values untouched. */
  function SanitizeEnv(env: map<string, string>): (r: map<string, string>)
    ensures forall k :: k in r <==> k in env && IsSafeEnvKey(k)
    ensures forall k :: k in r ==> r[k] == env[k]
  {
    map k | k in env && IsSafeEnvKey(k) :: env[k]
  }

  /** Sanitising twice is sanitising once, and a variable outside the safe set never reaches
      the subprocess. */
  lemma SanitizeEnvIdempotent(env: map<string, string>, key: string)
    ensures SanitizeEnv(SanitizeEnv(env)) == SanitizeEnv(env)
    ensures !IsSafeEnvKey(key) ==> key !in SanitizeEnv(env)
  {
  }

  /** How the subprocess ended: with an exit code and its decoded output, by timing out, or
      with an exception while starting or talking to it. */
  datatype Execution = Finished(exitCode: int, output: string) | TimedOut | Crashed(error: string)

  /** The reply of `run_bash`; `asked` is the risk passed to `request_approval` when it was
      called, and `ran` whether the subprocess was started. */
  datatype BashRun = BashRun(reply: string, asked: Option<RiskLevel>, ran: bool)

  const OutputCap: nat := 8000
  const KeptOutput: nat := 7900

  const BlockedPrefix: string := "[BLOCKED] This command is permanently blocked for safety: "
  const DeniedPrefix: string := "[DENIED] User denied execution of: "
  const TimeoutPrefix: string := "[TIMEOUT] Command timed out after "
  const NoOutput: string := "[no output]"
  const NoteHead: string := "\n…[truncated, "
  const NoteTail: string := " chars total]"

  /** The suffix that replaces the end of a long output; it states the original length. */
  function TruncationNote(length: nat): (r: string)
    ensures |r| == |NoteHead| + |NatToString(length)| + |NoteTail|
  {
    NoteHead + NatToString(length) + NoteTail
  }

  /** The note gives back the length it was made from. */
  lemma TruncationNoteReportsLength(length: nat)
    ensures var note := TruncationNote(length);
      DigitsValue(note[|NoteHead|..|note| - |NoteTail|]) == length
  {
    var note := TruncationNote(length);
    assert note[|NoteHead|..|note| - |NoteTail|] == NatToString(length);
    DigitsValueOfNatToString(length);
  }

  /** The output cap: an output over `OutputCap` characters keeps its first `KeptOutput` and
      gets the truncation note; a shorter one is kept whole. */
  function Capped(output: string): (r: string)
    ensures |output| <= OutputCap ==> r == output
    ensures |output| > OutputCap ==>
      && |r| == KeptOutput + |TruncationNote(|output|)|
      && r[..KeptOutput] == output[..KeptOutput]
      && r[KeptOutput..] == TruncationNote(|output|)
    ensures r == [] <==> output == []
  {
    if |output| > OutputCap then output[..KeptOutput] + TruncationNote(|output|) else output
  }

  /** The text `run_bash` returns for a subprocess that was started. `timeoutText` is how the
      timeout value is written by `str`. */
  function Rendered(exec: Execution, timeoutText: string): (r: string)
    ensures exec.Finished? && exec.exitCode != 0 ==>
      r == "[exit " + IntToString(exec.exitCode) + "]\n" + Capped(exec.output)
    ensures exec.Finished? && exec.exitCode == 0 ==>
      r == if exec.output == "" then NoOutput else Capped(exec.output)
    ensures exec.TimedOut? ==> r == TimeoutPrefix + timeoutText + "s"
    ensures exec.Crashed? ==> r == "[ERROR] " + exec.error
  {
    match exec
    case Finished(code, out) =>
      var capped := Capped(out);
      if code != 0 then "[exit " + IntToString(code) + "]\n" + capped
      else if capped == "" then NoOutput else capped
    case TimedOut => TimeoutPrefix + timeoutText + "s"
    case Crashed(e) => "[ERROR] " + e
  }

  /** A non-zero exit code is reported in a form that reads back as the same code. */
  lemma ExitCodeReported(code: int, output: string, timeoutText: string)
    requires code != 0
    ensures var r := Rendered(Finished(code, output), timeoutText);
      var digits := IntToString(code);
      && r[..6 + |digits|] == "[exit " + digits
      && ParseInt(r[6..6 + |digits|]) == Some(code)
  {
    var digits := IntToString(code);
    var r := Rendered(Finished(code, output), timeoutText);
    assert r == "[exit " + digits + "]\n" + Capped(output);
    SlicesOfConcat("[exit ", digits, "]\n", Capped(output));
    ParseIntOfIntToString(code);
  }

  lemma SlicesOfConcat(a: string, b: string, c: string, d: string)
    ensures (a + b + c + d)[..|a| + |b|] == a + b
    ensures (a + b + c + d)[|a|..|a| + |b|] == b
  {
    var s := a + b + c + d;
    assert s == (a + b) + (c + d);
  }

  /** `run_bash`: blocked first, then classified, then approved when there is an approver
      and the risk is above `autoApproveBelow`, and only then run. `approved` is the answer
      `request_approval` gives when it is called. */
  function RunBash(search: Search, command: string, hasApprover: bool, approved: bool,
                   autoApproveBelow: RiskLevel, timeoutText: string, exec: Execution): (r: BashRun)
    ensures IsBlocked(search, command) ==> r == BashRun(BlockedPrefix + Repr(command), None, false)
    ensures !IsBlocked(search, command) ==>
      (r.asked.Some? <==> hasApprover && !AtMost(ClassifyBash(search, command), autoApproveBelow))
    ensures r.asked.Some? ==> r.asked.value == ClassifyBash(search, command)
    ensures r.ran <==> !IsBlocked(search, command) && (r.asked.None? || approved)
    ensures r.asked.Some? && !approved ==> r.reply == DeniedPrefix + Repr(command)
    ensures r.ran ==> r.reply == Rendered(exec, timeoutText)
  {
    if IsBlocked(search, command) then BashRun(BlockedPrefix + Repr(command), None, false)
    else
      var risk := ClassifyBash(search, command);
      if hasApprover && !AtMost(risk, autoApproveBelow) then
        if !approved then BashRun(DeniedPrefix + Repr(command), Some(risk), false)
        else BashRun(Rendered(exec, timeoutText), Some(risk), true)
      else BashRun(Rendered(exec, timeoutText), None, true)
  }

  /** A blocklisted pattern stops the command whatever the approver would say, and without
      asking. */
  lemma BlockedNeverRuns(search: Search, command: string, i: nat, hasApprover: bool, approved: bool,
                         autoApproveBelow: RiskLevel, timeoutText: string, exec: Execution)
    requires i < |Blocklist| && search(Blocklist[i], command)
    ensures var r := RunBash(search, command, hasApprover, approved, autoApproveBelow, timeoutText, exec);
      !r.ran && r.asked.None? && StartsWith(r.reply, BlockedPrefix)
  {
    var r := RunBash(search, command, hasApprover, approved, autoApproveBelow, timeoutText, exec);
    assert r.reply[..|BlockedPrefix|] == BlockedPrefix;
  }

  /** With an approver and the default threshold LOW, a command that one of the CRITICAL
      rules finds runs only with the user's approval. */
  lemma CriticalNeedsApproval(search: Search, command: string, i: nat, approved: bool,
                              timeoutText: string, exec: Execution)
    requires i < 5 && search(BashRules[i].pattern, command)
    ensures var r := RunBash(search, command, true, approved, Low, timeoutText, exec);
      r.ran ==> r.asked == Some(Critical) && approved
  {
    CriticalPatternsWin(search, command, i);
  }

  /** Without an approver nothing is asked: every command that is not blocked runs. */
  lemma NoApproverRunsUnblocked(search: Search, command: string, approved: bool,
                                autoApproveBelow: RiskLevel, timeoutText: string, exec: Execution)
    ensures var r := RunBash(search, command, false, approved, autoApproveBelow, timeoutText, exec);
      r.asked.None? && (r.ran <==> !IsBlocked(search, command))
  {
  }
}
