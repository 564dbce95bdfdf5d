# personal_ai_butler: a verified model of the gating core

personal_ai_butler is a chat-driven personal assistant. Messages arrive over Telegram or
WhatsApp. An allowlist, a dedup set and a per-sender rate limiter filter them. An AI model
then answers, calling tools (shell, files, browser, email, image generation) in a bounded
loop. Every risky tool call goes through a risk classifier and, above a threshold, asks the
user for approval in the chat.

This project models that gating and bookkeeping core in Dafny and proves its properties.
There is one module per source file:

- `Classifier` (classifier.dfy) has the ordered risk scale, the first-match rule list for
  shell commands, the per-tool base-risk table and `classify_tool`. Regular expressions are
  not interpreted: `Search` is a function parameter that stands for `re.search`.
- `Approval` (approval.dfy) has the per-user `ApprovalManager`: the `_pending` map, the
  `_current_id` slot, the `_yes_all` flag and the futures as explicit states. The `await`
  in `request_approval` splits it into `Begin` and `Finish`.
- `History` (history.dfy) has the conversation and message tables as sequences, session
  reuse in `get_or_create`, the token-budget truncation of `load`, and `append`.
- `Engine` (engine.dfy) has the agentic loop of at most ten model calls, the user content
  blocks, `_estimate_tokens` and `process`. The model service and tool dispatch are
  function parameters.
- `Tools` (tools.dfy) has the `ToolRegistry` state, `configure`, the email-account
  selection, the routing of `dispatch` and the `init_tools`/`get_registry` singleton.
- `Gate` (butler.dfy) has `Butler._on_message`, in order: authorisation, dedup, rate limit,
  approval reply, spawn. It also has `_get_approver`.
- `RateLimiting` (rate_limiter.dfy) has the per-sender sliding-window buckets.
- `Auth` (auth.dfy) has phone normalisation and the Telegram and WhatsApp allowlists.
- `BashTool` (bash_tool.dfy) has the blocklist, the environment filter, approval gating
  and output rendering of `run_bash`. The subprocess outcome is a parameter.
- `Configuration` (config.dfy) has the `keychain:` secret resolution, `Config.get` and the
  default accessors.
- `ImageTool` (image_tool.dfy) has the argument checks and request body of
  `generate_image`. The HTTP exchange is a parameter.
- `Telegram` (telegram.dfy) has the media/caption branch and the 4096-character chunking
  of `TelegramChannel.send`.
- `Wrappers`, `Text` and `Values` are shared: Option/Result, the Python string operations
  the core uses (`strip`, `lower`, `upper`, `repr`, `str(int)`, `int(str)`), and JSON/YAML
  values with dict lookup, truthiness and `str()`.

Times (`time.time()`, `time.monotonic()`), random ids (`uuid4`) and file existence are
parameters. Sending a message is modelled by appending to a recorded outbox.

The files form one program and are verified together, for example from this directory:

    dafny verify --resource-limit 2000000 --verification-time-limit 0 *.dfy

A single file does not verify on its own, because the modules import one another. Dafny's
default 30-second limit per batch is too short for some of the proofs; the resource limit
above bounds each proof instead.

## Model

| member | source | states |
|---|---|---|
| Classifier.Max | butler/permissions/classifier.py:118 | `max` returns one of its two arguments, and it is at least each of them |
| Classifier.RiskOrderIsTotal | butler/permissions/classifier.py:8-22 | the risk order is total, antisymmetric and transitive, SAFE is least and CRITICAL greatest, and distinct levels have distinct labels |
| Classifier.FirstMatchFrom | butler/permissions/classifier.py:104-106 | the index found is of a rule whose pattern is found and no earlier rule's pattern is found; None exactly when no rule's pattern is found |
| Classifier.ClassifyWith | butler/permissions/classifier.py:102-108 | the level of the first rule whose pattern is found; MEDIUM when none is |
| Classifier.LeadingRulesWin | butler/permissions/classifier.py:104-106 | when the first n rules share a level, a command any of them finds gets that level |
| Classifier.CriticalPatternsWin | butler/permissions/classifier.py:28-32 | a command found by any of the five CRITICAL rules is CRITICAL, whatever the later rules say |
| Classifier.LaterRulesNotConsulted | butler/permissions/classifier.py:104-106 | once rule i matches, searches that agree on rules 0..i classify alike: no later rule is consulted |
| Classifier.UnknownToolIsMedium | butler/permissions/classifier.py:113 | a tool name missing from the table gets MEDIUM |
| Classifier.HighRiskTools | butler/permissions/classifier.py:65-99 | the HIGH tools are exactly the six that send or publish as the user |
| Classifier.SafeOnlyWhenNothingElse | butler/permissions/classifier.py:26-108 | a command is SAFE only when no rule but the last finds anything in it |
| Classifier.OnlyLastRuleGives | butler/permissions/classifier.py:104-106 | a level only the last rule has means no earlier rule matched |
| Classifier.SystemPathsAreDirectories | butler/permissions/classifier.py:121-123 | a path under a system prefix is absolute, has at least five characters and a further "/" after the first |
| Classifier.ClassifyToolWith | butler/permissions/classifier.py:111-126 | "bash" gives at least MEDIUM and at least the command's level, and is one of the two; "file_write" under a system prefix gives CRITICAL, otherwise MEDIUM; every other tool gets its base risk; no result is below the base risk; a non-string command or path is an error |
| Classifier.CriticalBashCommand | butler/permissions/classifier.py:115-118 | a CRITICAL command makes the "bash" call CRITICAL |
| Classifier.CriticalCommandIsCriticalTool | butler/permissions/classifier.py:115-118 | with the shipped rules, a command any CRITICAL rule finds makes the "bash" call CRITICAL |
| Classifier.OtherToolsIgnoreArgs | butler/permissions/classifier.py:126 | for tools other than "bash" and "file_write" the arguments do not change the result |
| Approval.ArgsPreview | butler/permissions/approval.py:59-61 | the preview is at most 300 characters; it is the JSON text when that fits, else its first 297 characters and "..." |
| Approval.PromptMessage | butler/permissions/approval.py:63-70 | the prompt starts with the header naming the request id and ends with the whole seconds of the timeout |
| Approval.TimeoutNoticeNamesRequest | butler/permissions/approval.py:84 | the timeout notice names its request: different ids give different notices |
| Approval.ReplyWords | butler/permissions/approval.py:96-113 | a reply is "yes all", yes or no exactly when its normalised form is in that word list, and anything else is not a reply |
| Approval.NormalizePadded | butler/permissions/approval.py:96 | surrounding whitespace does not change the normalised form |
| Approval.NormalizeLower | butler/permissions/approval.py:96 | lower-casing first does not change the normalised form |
| Approval.ReplyKindIgnoresCaseAndSpace | butler/permissions/approval.py:96-110 | whitespace of any kind around a reply, and upper case, do not change how it is read |
| Approval.ApproveAll | butler/permissions/approval.py:102-104 | exactly the unresolved futures of pending requests become approved; the others are unchanged |
| Approval.ApprovalManager.constructor | butler/permissions/approval.py:30-43 | a new manager has nothing pending, no current id and "yes all" off |
| Approval.ApprovalManager.Begin | butler/permissions/approval.py:52-75 | risk at or below the threshold, or "yes all", approves at once with no state change and nothing sent; otherwise the fresh id becomes current, gets a new unresolved future in `_pending`, and exactly the prompt is sent; the invariants are kept |
| Approval.ApprovalManager.Register | butler/permissions/approval.py:55-75 | the id becomes current and is registered with a new unresolved future before the prompt is sent |
| Approval.ApprovalManager.Finish | butler/permissions/approval.py:77-89 | the id leaves `_pending` on both paths; a resolved future returns its result and sends nothing; an unresolved one returns false, clears `_current_id` only if it is still this id, and sends the timeout notice |
| Approval.ApprovalManager.ApprovePending | butler/permissions/approval.py:102-104 | the loop approves exactly the unresolved pending futures and changes nothing else |
| Approval.ApprovalManager.HandleReply | butler/permissions/approval.py:91-125 | "yes all" sets the flag, approves every unresolved pending request, empties `_pending`, clears the current id and returns true; other non-reply text returns false and changes nothing; yes/no resolves the current request when it is pending and unresolved, and otherwise returns false with no change; nothing is sent and no settled future changes; the result is true exactly when the reply is consumed |
| Approval.ApprovalManager.ApproveEverything | butler/permissions/approval.py:99-107 | the "yes all" branch: flag set, pending futures approved, nothing pending or current |
| Approval.ApprovalManager.ResolveCurrent | butler/permissions/approval.py:115-125 | the yes/no branch: the current pending request gets the answer and stops being pending or current; otherwise nothing changes |
| Approval.ApprovalManager.ResetYesAll | butler/permissions/approval.py:130-131 | clears the flag and nothing else |
| History.ConversationRows | butler/ai/history.py:58-62 | the rows loaded are exactly the rows of the conversation, each as often as stored, ordered by `created_at` |
| History.SortByTime | butler/ai/history.py:59 | sorting keeps every row exactly as often and orders them by `created_at` |
| History.InsertKeepsOrder | butler/ai/history.py:59 | inserting a row into `created_at` order keeps the order |
| History.AppendedRowIsLast | butler/ai/history.py:56-103 | a row created no earlier than every row of its conversation is loaded last |
| History.AppendedEarlierComesFirst | butler/ai/history.py:56-103 | a row created before every row of its conversation is loaded first |
| History.AppendedRowElsewhere | butler/ai/history.py:100-103 | appending a row leaves other conversations' rows unchanged |
| History.SplitPoint | butler/ai/history.py:73-74 | `messages[-k:]` keeps the last k messages for positive k and all of them for k = 0 |
| History.KeptCount | butler/ai/history.py:80-85 | the walk keeps at most all of the older messages |
| History.Truncated | butler/ai/history.py:70-87 | the loaded rows are a suffix of the conversation's rows that contains the recent part |
| History.Untagged | butler/ai/history.py:88-89 | every loaded message keeps its role and content and loses its token count |
| History.RecentAlwaysKept | butler/ai/history.py:73-87 | the last `keep_recent` rows are always loaded, verbatim and in order, whatever the budget |
| History.KeepRecentZeroKeepsAll | butler/ai/history.py:73-74 | with `keep_recent` 0 nothing is dropped |
| History.KeptCountBudget | butler/ai/history.py:77-85 | every kept older message had a positive remaining budget before it, and the walk stops at the first message whose remaining budget is not positive |
| History.StoredContent | butler/ai/history.py:95-98 | a string is stored as one text block; a list is stored as it is |
| History.ConversationHistory.constructor | butler/ai/history.py:18-26 | the budget, `keep_recent` and tables are as given |
| History.ConversationHistory.GetOrCreate | butler/ai/history.py:28-54 | the most recently active conversation of the sender on the channel within 24 hours is reused and its `last_active` set to now; otherwise a new row with `created_at = last_active = now` is added; messages are untouched |
| History.ConversationHistory.Load | butler/ai/history.py:56-91 | the result is the untagged truncation of the conversation's rows in `created_at` order, and empty for a conversation without rows |
| History.ConversationHistory.Append | butler/ai/history.py:93-104 | exactly one row is added, with the stored content form |
| History.KeepNewest | butler/ai/history.py:80-85 | the loop keeps the suffix of `older` of the length the budget walk allows |
| History.DropTokens | butler/ai/history.py:88-89 | the loop strips the token count from every row, in order |
| History.TruncateRows | butler/ai/history.py:70-89 | the loading steps compute the untagged truncation of the rows |
| History.MostRecent | butler/ai/history.py:33-38 | None exactly when no conversation matches the channel, sender and cutoff; otherwise a matching one with no later `last_active` |
| History.WindowIsStrict | butler/ai/history.py:31-36 | a conversation last active exactly 24 hours ago is not reused |
| Engine.TextParts | butler/ai/engine.py:122-124 | every text part is the text of a text block of the response, and there are no more parts than blocks |
| Engine.TextPartsAppend | butler/ai/engine.py:122-124 | text selection keeps block order over concatenation |
| Engine.TextPartsOne | butler/ai/engine.py:122-124 | one block gives its text when it is a text block, and nothing otherwise |
| Engine.ToolUses | butler/ai/engine.py:135-137 | only `tool_use` blocks of the response are selected |
| Engine.ToolUsesAppend | butler/ai/engine.py:135-137 | selection keeps block order over concatenation |
| Engine.NoToolUseNoDispatch | butler/ai/engine.py:136-137 | blocks that are not `tool_use` produce no dispatch |
| Engine.ToolResults | butler/ai/engine.py:134-151 | on success there is one result per `tool_use` block |
| Engine.ToolResultsMeaning | butler/ai/engine.py:134-151 | one result per `tool_use` block, in block order, with that block's id and the dispatcher's text, exactly when every dispatch returns; otherwise the error of the first dispatch that raises |
| Engine.RaisedStaysRaised | butler/ai/engine.py:134-151 | once a dispatch raises, later blocks do not change the outcome |
| Engine.Step | butler/ai/engine.py:121-160 | "tool_use" continues with exactly the assistant turn and one tool-result turn, or raises exactly when a dispatch raises, with that error; "end_turn" gives the joined text or "(no response)" when no text block exists; "max_tokens" appends the truncation marker; other reasons give the joined text or "(no response)" |
| Engine.EmptyTextEndTurn | butler/ai/engine.py:126-127 | an "end_turn" whose only text block is empty replies with "" |
| Engine.ReplyNeverEmpty | butler/ai/engine.py:126-160 | a final reply is never empty unless it is an "end_turn" with text blocks |
| Engine.Run | butler/ai/engine.py:110-162 | at most `budget` model calls; the turns only grow, by two per tool round; an exhausted budget gives the fixed maximum-iterations reply after exactly `budget` calls; a raising model call aborts the loop with its error |
| Engine.RunStep | butler/ai/engine.py:110-154 | one unfolding of the loop: a reply ends it after one call, a raising tool aborts it, a tool round continues with the two new turns |
| Engine.AlwaysToolUseExhausts | butler/ai/engine.py:110-162 | a model that always asks for tools uses every call and gets the maximum-iterations reply |
| Engine.FirstReplyEnds | butler/ai/engine.py:110-127 | a first response that is not "tool_use" ends the loop after one call |
| Engine.RaisingToolAborts | butler/ai/engine.py:134-142 | the first raising dispatch of a tool round aborts the loop with its error |
| Engine.CollectToolResults | butler/ai/engine.py:134-151 | the loop builds exactly the tool results of the response |
| Engine.RunApi | butler/ai/engine.py:100-162 | `get_registry` raising aborts the loop with its error; otherwise the result is `Run` with the budget of 10, so at most 10 calls |
| Engine.HandleResponse | butler/ai/engine.py:121-160 | one iteration computes the step: its reply, its two turns, or the error a tool raised |
| Engine.EstimateTokens | butler/ai/engine.py:320-324 | at least 1, and a quarter of the length rounded down once the text has 4 characters or more |
| Engine.UserContent | butler/ai/engine.py:55-79 | one or two blocks: the text first when there is one; "(empty message)" when there is neither text nor media; an image block with the file's base64 data for an image in API mode whose file could be read; otherwise an "[Attached file: ...]" note |
| Engine.HistoryTurns | butler/ai/engine.py:86-89 | each loaded message becomes one history turn, in order |
| Engine.Answer | butler/ai/engine.py:84-94 | the CLI's reply outside API mode; in API mode a `get_registry` error, or the loop's reply exactly when the loop does not raise |
| Engine.Respond | butler/ai/engine.py:84-94 | the answer step computes `Answer` |
| Engine.ProcessAsWritten | butler/ai/engine.py:44-88 | as written, the user message is stored and then the `load` call fails with the TypeError of the unexpected keyword; no reply is produced |
| Engine.Process | butler/ai/engine.py:44-98 | the user message is stored before the model runs; the outcome is the answer over the loaded history (the loop in API mode, the CLI otherwise); a stored reply follows only on success, and an exception leaves just the user row |
| Tools.EmailToolsOf | butler/ai/tools.py:447-453 | a dict is kept, one tool becomes the "default" account, None becomes no accounts |
| Tools.EmailTool | butler/ai/tools.py:457-463 | None without accounts; the named account when given and registered; otherwise the first registered one; an unhashable name raises |
| Tools.NeedAll | butler/ai/tools.py:482-506 | `args[k]` succeeds exactly when every key is present, and gives each key's value in order |
| Tools.NeedAllFirstMissing | butler/ai/tools.py:482-506 | the KeyError names the first missing key |
| Tools.NeedAllValues | butler/ai/tools.py:482-506 | with every key present the values are those stored, in key order |
| Tools.Forward | butler/ai/tools.py:529-535 | an "[ERROR]" path is returned unchanged and nothing is sent; any other path is sent to the user and the OK text returned |
| Tools.EmailCall | butler/ai/tools.py:546-567 | without accounts the reply is "[ERROR] Email not configured" |
| Tools.MemoryCall | butler/ai/tools.py:651-666 | without a history object the reply is "[ERROR] Memory not available" |
| Tools.DispatchWith | butler/ai/tools.py:468-686 | a tool of the direct table raises exactly when a required key is missing or its configured callable is unset, and sends no file when it returns |
| Tools.PlainDispatch | butler/ai/tools.py:482-649 | a tool of the direct table is called with its required values in order, then its optional values or defaults, and the sender's approval manager when it takes one and a factory is set |
| Tools.PlainMissingKeyRaises | butler/ai/tools.py:482-649 | a missing required key raises KeyError for the first missing key, before any callable is looked at |
| Tools.FileWriteGetsApprover | butler/ai/tools.py:495-500 | "file_write" passes the path, the content and the sender's approval manager |
| Tools.EmailSendGetsApprover | butler/ai/tools.py:561-567 | "email_send" passes the account's tool, recipient, subject, body and the sender's approval manager |
| Tools.EmailCallGives | butler/ai/tools.py:546-567 | with an account and every required key, an email tool is called on that account with the key values |
| Tools.NoFactoryNoApprover | butler/ai/tools.py:476-478 | without an approver factory no tool of the direct table gets an approval manager |
| Tools.FileSendForwards | butler/ai/tools.py:508-511 | "file_send" forwards the path to the user and reports it; a missing path raises KeyError and an unset file sender the not-callable TypeError |
| Tools.ImageNeedsPrompt | butler/ai/tools.py:671-674 | "generate_image" without a prompt raises KeyError |
| Tools.PlainRoutesApart | butler/ai/tools.py:482-506 | the tools whose callables `configure` supplies are exactly the four shell and file tools |
| Tools.UnknownToolIsText | butler/ai/tools.py:685-686 | an unknown tool name is answered "[ERROR] Unknown tool: <name>" and nothing is raised |
| Tools.EmailNotConfigured | butler/ai/tools.py:546-564 | each email tool answers "[ERROR] Email not configured" when there is no account |
| Tools.MemoryNotAvailable | butler/ai/tools.py:651-665 | each memory tool answers "[ERROR] Memory not available" when there is no history |
| Tools.ImageForwardedUnlessError | butler/ai/tools.py:671-683 | the generated file is forwarded and the OK text returned exactly when the path is not an error; an error path is returned unchanged |
| Tools.BashGetsApprover | butler/ai/tools.py:476-487 | "bash" passes the command, the timeout default and the sender's approval manager |
| Tools.ToolRegistry.constructor | butler/ai/tools.py:415-425 | a new registry has nothing configured |
| Tools.ToolRegistry.Configure | butler/ai/tools.py:430-455 | each callable, the browser settings, the normalised email accounts, the file sender and the approver factory are stored as given; history and the Stability key are unchanged |
| Tools.ToolRegistry.SetStabilityKey | butler/ai/tools.py:427-428 | sets the key and nothing else |
| Tools.ToolRegistry.SetHistory | butler/ai/tools.py:465-466 | sets the history and nothing else |
| Tools.Registry.constructor | butler/ai/tools.py:690 | the singleton starts unset |
| Tools.Registry.InitTools | butler/ai/tools.py:693-697 | a fresh registry is configured with the given arguments and becomes the singleton |
| Tools.Registry.GetRegistry | butler/ai/tools.py:700-703 | an error exactly when `init_tools` has not run; otherwise the configured instance |
| Gate.SubsetOfSize | butler/main.py:190-191 | a set has a subset of every size up to its own, so the cut to 500 ids is possible |
| Gate.ThrottleNotices | butler/main.py:195-201 | one throttle notice per channel whose name matches, none when no channel matches |
| Gate.Butler.constructor | butler/main.py:45-69 | the seen-ids set, reply routes, approvers, outbox and spawned tasks start empty |
| Gate.Butler.GetApprover | butler/main.py:139-163 | at most one manager per sender: an existing one is returned unchanged, otherwise a fresh one with the configured timeout and LOW threshold is stored |
| Gate.Butler.RecordSeen | butler/main.py:187-191 | a new id is added; a set grown past 1000 is replaced by 500 of its ids |
| Gate.Butler.SendThrottleNotices | butler/main.py:195-201 | the loop sends exactly the throttle notices, and changes nothing else |
| Gate.Butler.Deliver | butler/main.py:204-215 | the reply route is recorded and the sender has a manager; the message is an approval reply exactly when the old manager had a request pending, the text is non-empty and `handle_reply` consumes it, and then the manager's new state is `handle_reply`'s and nothing is spawned; otherwise the message is spawned once and an existing manager is unchanged |
| Gate.Butler.Throttle | butler/main.py:193-215 | the message is throttled exactly when the limiter refuses it, and then only the notices are sent and the sender's manager is unchanged; otherwise as `Deliver` |
| Gate.Butler.OnMessage | butler/main.py:177-215 | an unauthorised or duplicate message changes nothing, the sender's manager included; otherwise the id is recorded, the limiter decides, and an admitted message is an approval reply exactly when `handle_reply` consumes it, else it is spawned |
| RateLimiting.Evicted | butler/utils/rate_limiter.py:27-29 | eviction removes a prefix, only timestamps older than the cutoff, and stops at the first one that is not |
| RateLimiting.EvictedAllRecent | butler/utils/rate_limiter.py:27-29 | in a sorted bucket no timestamp older than the cutoff survives |
| RateLimiting.EvictedKeepsRecent | butler/utils/rate_limiter.py:24-29 | in a sorted bucket eviction keeps exactly the timestamps of the last window |
| RateLimiting.AdmitMeansFewerRecent | butler/utils/rate_limiter.py:27-36 | a message is admitted exactly when fewer than `limit` timestamps fall in the last 60 seconds; an admitted one is appended, a refused one adds nothing |
| RateLimiting.AdmitKeepsInvariant | butler/utils/rate_limiter.py:31-36 | with a monotonic clock the bucket stays sorted, within the window and at most `limit` long |
| RateLimiting.EvictOld | butler/utils/rate_limiter.py:28-29 | the `popleft` loop computes the eviction |
| RateLimiting.RateLimiter.constructor | butler/utils/rate_limiter.py:13-19 | `limit` and `burst` are stored, with no buckets |
| RateLimiting.RateLimiter.IsAllowed | butler/utils/rate_limiter.py:21-36 | the decision and the new bucket are those of the admission rule; only this sender's bucket changes (it is created even on refusal); the invariant is kept |
| RateLimiting.RateLimiter.Reset | butler/utils/rate_limiter.py:38-40 | exactly this sender's bucket is removed |
| Auth.NormalizePhone | butler/utils/crypto.py:21-26 | the result starts with "+"; it is the stripped number, with "+" added exactly when that was missing |
| Auth.NormalizePhoneIdempotent | butler/utils/crypto.py:22-26 | normalising twice is normalising once |
| Auth.PlusIsOptional | butler/utils/crypto.py:22-26 | a number with or without its "+" normalises alike |
| Auth.MakeGuard | butler/utils/crypto.py:11-14 | the sets hold exactly `str(uid)` of each id and the normalised form of each phone |
| Auth.IsAuthorized | butler/utils/crypto.py:34-39 | a channel other than telegram or whatsapp is refused |
| Auth.TelegramAllowlist | butler/utils/crypto.py:28-29 | a Telegram sender is authorised exactly when its id text is listed; a listed number authorises its decimal text |
| Auth.WhatsappAllowlist | butler/utils/crypto.py:31-32 | a WhatsApp sender is authorised exactly when its normalised number is the normalised form of a listed one |
| Auth.ListedAuthorises | butler/utils/crypto.py:31-32 | a listed number authorises every sender that normalises to the same text |
| Auth.PlusOnListOrSender | butler/utils/crypto.py:22-32 | "123" on the list authorises "+123", and "+123" authorises "123" |
| BashTool.AnyFound | butler/tools/bash_tool.py:36-40 | true exactly when some pattern of the list is found |
| BashTool.IsBlocked | butler/tools/bash_tool.py:16-40 | a command is blocked exactly when a blocklist pattern is found in it |
| BashTool.SharedPatternsBlockedAndCritical | butler/tools/bash_tool.py:16-22 | the fork-bomb and raw-disk patterns are both blocked and CRITICAL |
| BashTool.SanitizeEnv | butler/tools/bash_tool.py:32-33 | keeps exactly the safe keys present, with their values |
| BashTool.SanitizeEnvIdempotent | butler/tools/bash_tool.py:25-33 | sanitising twice is sanitising once, and an unsafe key never survives |
| BashTool.TruncationNote | butler/tools/bash_tool.py:83 | the note's length is its fixed parts plus the digits of the length |
| BashTool.TruncationNoteReportsLength | butler/tools/bash_tool.py:83 | the digits in the note read back as the original length |
| BashTool.Capped | butler/tools/bash_tool.py:82-83 | output up to 8000 characters is kept; longer output keeps its first 7900 and gets the note; empty stays empty |
| BashTool.Rendered | butler/tools/bash_tool.py:73-92 | a non-zero exit gives "[exit N]\n" and the capped output; a zero exit gives the capped output or "[no output]"; a timeout and an exception give their texts |
| BashTool.ExitCodeReported | butler/tools/bash_tool.py:86-87 | the reported exit code reads back as the same code |
| BashTool.RunBash | butler/tools/bash_tool.py:43-92 | a blocked command is refused without asking or running; approval is asked exactly when there is an approver and the risk is above the threshold, with the command's risk; the command runs exactly when not blocked and not denied; a denial gives the "[DENIED]" text |
| BashTool.BlockedNeverRuns | butler/tools/bash_tool.py:53-54 | a blocklisted pattern stops the command without asking, whatever the approver would say |
| BashTool.CriticalNeedsApproval | butler/tools/bash_tool.py:56-61 | with an approver and the LOW threshold, a command a CRITICAL rule finds runs only after approval at CRITICAL |
| BashTool.NoApproverRunsUnblocked | butler/tools/bash_tool.py:58 | without an approver nothing is asked and every unblocked command runs |
| Configuration.SplitSpec | butler/config.py:38-40 | without a ":" the account is the service |
| Configuration.SplitAtFirstColon | butler/config.py:38-40 | the spec splits at its first ":" into stripped service and account |
| Configuration.ParseSpecOfReference | butler/config.py:36-40 | a `keychain:` reference built from a service and an account parses back to them |
| Configuration.ResolveSecrets | butler/config.py:33-53 | a reference becomes its secret, or "" when the lookup fails; other strings and scalars are kept; lists keep length and order and dicts keep keys, mapped elementwise |
| Configuration.ResolveKeepsKeys | butler/config.py:49-50 | dict keys survive resolution in order |
| Configuration.ResolvedHasNoReferences | butler/config.py:33-53 | when no secret starts with the marker, no reference is left at any depth |
| Configuration.ResolveWithoutReferences | butler/config.py:35-53 | a value without references is unchanged by resolution |
| Configuration.StoredValueReturned | butler/config.py:68-70 | a stored value that is not None is returned as stored, even a falsy one; a missing or None value gives the default |
| Configuration.NavigateAppend | butler/config.py:62-71 | navigating a path in two parts equals navigating it at once |
| Configuration.Navigate | butler/config.py:62-71 | no keys give the document itself; a result other than the default is never None |
| Configuration.NavigateStep | butler/config.py:65-70 | one step stops with the default on a non-dict, a missing key or None, and otherwise goes on into the value |
| Configuration.FoundIgnoresDefault | butler/config.py:62-71 | a value found along the path does not depend on the default |
| Configuration.NavigateNested | butler/config.py:62-71 | `get` reads back a value stored along a path of nested dicts |
| Configuration.IntOf | butler/config.py:88-89 | `int()` keeps an int, gives 0 or 1 for a bool, the parsed value for a string that parses and an error for one that does not, and an error for None, a list or a dict |
| Configuration.IntOfShownInt | butler/config.py:88-89 | an int written as text reads back as that int |
| Configuration.Config.constructor | butler/config.py:59-60 | the raw document is stored |
| Configuration.Config.Get | butler/config.py:62-71 | the loop computes the navigation; no keys gives the raw document |
| Configuration.Config.LogLevel | butler/config.py:176-177 | the configured or default level upper-cased; a non-string raises |
| Configuration.EmptyConfigDefaults | butler/config.py:76-177 | an empty document gives every accessor its default |
| Configuration.ExplicitSettingsWin | butler/config.py:76-89 | an explicit `telegram.enabled` of false turns Telegram off, and a bridge port stored as text reads back as that number |
| ImageTool.DimensionsAligned | butler/tools/image_tool.py:18-26 | every size in the table is a multiple of 64, and only "1:1" is square |
| ImageTool.Body | butler/tools/image_tool.py:42-55 | the size comes from the table or 1024x1024; the prompt has weight 1.0 and comes first; a non-empty negative prompt follows with weight -1.0; the style is present exactly when it is non-empty and valid |
| ImageTool.BodyPromptsReadBack | butler/tools/image_tool.py:44-55 | positive prompts are the prompt, negative ones the negative prompt, and a negative one exists exactly when it is non-empty |
| ImageTool.BuildBody | butler/tools/image_tool.py:42-55 | the step-by-step construction gives the body |
| ImageTool.Outcome | butler/tools/image_tool.py:68-78 | success gives the path; a non-SUCCESS finish reason, a non-200 status (with at most 300 characters of reply text) and an exception give their error texts |
| ImageTool.OutcomeIsPathOrError | butler/tools/image_tool.py:117-121 | the outcome is the path exactly on success, and every other outcome starts with "[ERROR]" |
| ImageTool.GenerateImage | butler/tools/image_tool.py:81-121 | an empty key is refused first, then a blank prompt; a request is made exactly when both pass, with an invalid ratio replaced by "1:1" and an empty path by the timestamped default |
| ImageTool.DefaultOutputPath | butler/tools/image_tool.py:105-106 | the default path lies in ./data/media/, named gen_..., with the .png extension |
| ImageTool.DefaultPathsDistinct | butler/tools/image_tool.py:105-106 | images made in different seconds get different default paths |
| ImageTool.RequestedSizeFromTable | butler/tools/image_tool.py:102-103 | every request asks for a size from the table |
| Telegram.ChunkCountIsCeiling | butler/channels/telegram_channel.py:119 | the chunk count is the ceiling of max(len, 1) / 4096 |
| Telegram.Slice | butler/channels/telegram_channel.py:119 | a Python slice is no longer than its range |
| Telegram.Chunks | butler/channels/telegram_channel.py:119 | the count of chunks is the ceiling, and every chunk has at most 4096 characters |
| Telegram.JoinedPrefix | butler/channels/telegram_channel.py:119 | the first m chunks join to the text up to the m-th cut point |
| Telegram.ChunkIsCut | butler/channels/telegram_channel.py:119 | chunk k is the text between cut points k and k+1 |
| Telegram.ChunksJoinToText | butler/channels/telegram_channel.py:119 | the chunks join back to exactly the text |
| Telegram.ChunkShapes | butler/channels/telegram_channel.py:119 | empty text gives one empty chunk, a short text one whole chunk, and every chunk but the last is full |
| Telegram.Caption | butler/channels/telegram_channel.py:115 | None exactly for empty text; otherwise a prefix of at most 1024 characters, the whole text when it fits |
| Telegram.Messages | butler/channels/telegram_channel.py:120-121 | one message per chunk, in order |
| Telegram.Send | butler/channels/telegram_channel.py:102-121 | refused before start; a non-integer recipient raises; an existing attachment is one document with the caption; otherwise one message per chunk |
| Telegram.SentTextsJoinToText | butler/channels/telegram_channel.py:110-121 | without an attachment at least one message is sent, none over 4096 characters, and their texts join to the original text |
| Telegram.MessageTexts | butler/channels/telegram_channel.py:120-121 | the sent texts are exactly the chunks |
| Text.Strip | butler/permissions/approval.py:96 | `strip()` gives a contiguous piece of the text with no whitespace at either end, and cuts only whitespace before and after it |
| Text.LStripCutsSpace | butler/permissions/approval.py:96 | `lstrip` cuts only whitespace |
| Text.RStripCutsSpace | butler/permissions/approval.py:96 | `rstrip` cuts only whitespace |
| Text.StripPadded | butler/permissions/approval.py:96 | whitespace of any kind around a string does not change its `strip()` |
| Text.LStripPadded | butler/permissions/approval.py:96 | `lstrip` of padded text is the text's `lstrip` with the right padding kept |
| Text.Lower | butler/permissions/approval.py:96 | `lower()` maps each character on its own and keeps the length |
| Text.Upper | butler/config.py:177 | `upper()` maps each character on its own and keeps the length |
| Text.ParseIntOfIntToString | butler/tools/bash_tool.py:87 | `int(str(n)) == n` |
| Text.IntToString | butler/tools/bash_tool.py:87 | `str(i)` is non-empty and starts with "-" exactly for a negative number |
| Text.IntToStringDigits | butler/tools/bash_tool.py:87 | after an optional minus sign, `str(i)` is decimal digits |
| Text.ParseIntIgnoresPadding | butler/channels/telegram_channel.py:107 | `int()` ignores whitespace of any kind around the number |
| Text.ParseIntRejectsBlank | butler/channels/telegram_channel.py:107 | a blank text is not a number |
| Text.Repr | butler/tools/bash_tool.py:54 | `repr` opens and closes with the same quote, `"` exactly when the text has a `'` and no `"`; reading its escapes back gives the text |
| Text.ReprOfPlain | butler/tools/bash_tool.py:54 | printable text without quotes or backslashes is shown as it is, in single quotes |
| Text.Head | butler/tools/image_tool.py:78 | `s[:n]` is a prefix of at most n characters, the whole string when it fits |
| Values.Lookup | butler/permissions/classifier.py:116 | `dict.get` gives None exactly when the key is absent, and otherwise a value stored under the key |

## Left out

- Regular expressions are not interpreted. `Search` stands for `re.search`, so quirks of
  the patterns, such as `/\b` not matching a bare trailing "/", are not modelled.
- Subprocesses, HTTP, the Keychain command, file reads and writes, and `mkdir` are left
  out. Their outcomes are parameters (`Execution`, `StabilityApi`, `Keychain`, the file
  existence test, the image data). As a result, the exception `mkdir` can raise outside the
  `try` (butler/tools/image_tool.py:108) is not modelled.
- Concurrency is left out: asyncio futures, `wait_for`, `shield`, `create_task` and the
  rate limiter's lock. The approval wait is the two transitions `Begin` and `Finish`.
  Processing after a message is spawned is not modelled.
- Approval.ApprovalManager.Begin: nothing serialises overlapping requests; like the code,
  a second request overwrites `_current_id`.
- Approval.ApprovalManager.Begin: the prompt counts its timeout in seconds via `int()` of a
  real. The float values `approval_timeout` (butler/config.py:136-137) and the bash
  timeout default 30.0 (butler/ai/tools.py:486) are not modelled; the timeout text of
  `run_bash` is a parameter.
- Gate.Butler.GetApprover: the send function the manager is given
  (butler/main.py:142-157) is not modelled. A manager records its messages in its own
  `sent` list instead of routing them to a channel.
- Gate.Butler.RecordSeen: `set(list(...)[-500:])` keeps 500 ids in an order Python does
  not define. The model keeps some 500 of the ids, not a particular 500.
- History.MostRecent: when several conversations tie on `last_active`, SQL does not say
  which one is returned. The model takes the first one in table order.
- Lower: maps only the ASCII letters A-Z; Python's Unicode case mapping is not modelled.
  Upper likewise maps only a-z. `strip` is not affected: its whitespace set is the one of
  Python's `str.isspace()`.
- ParseInt: accepts only the ASCII digits 0-9, although Python's `int()` also accepts
  the other Unicode decimal digits.
- Repr: counts unassigned code points as printable, so it leaves them as they are where
  `repr` would write a `\x`, `\u` or `\U` escape.
- History.ConversationRows: rows that tie on `created_at` are kept in table order; SQL
  leaves their order open.
- Tools.ToolRegistry.Configure: the four shell and file callables are one flag,
  "configured or not"; which function each one is, is not modelled.
- Tools.DispatchWith: the browser settings `**bk` are stored by `Configure` but never
  reach a `Call`, so which settings a browser, LinkedIn or Instagram tool gets is not
  modelled.
- Tools.DispatchWith: calling `_approver_factory(sender_id)` (butler/ai/tools.py:477-478)
  creates the sender's manager as a side effect; only whether a manager is passed is
  modelled.
- The image prompt weights are reals, and the dimension table's symmetry (each "a:b" is
  "b:a" with width and height swapped) is not proved.
- The Telegram polling loop, media download and errors from bot calls are left out.
  WhatsApp, email, browser, LinkedIn, Instagram and screenshot tools are external: a call
  of them is a `Call` value.
- `remember`, `forget` and `list_memories` call `save_memory`, `forget_memory` and
  `list_memories` (butler/ai/tools.py:654, 660 and 666). These do not exist on
  `ConversationHistory`, so a call with history set raises AttributeError, and the model
  says so.
- main.py passes `email_tool=` (butler/main.py:108), but `configure` takes `email_tools`
  (butler/ai/tools.py:438). `init_tools` would raise TypeError there. The model keeps
  `configure`'s own parameter and does not model main.py's wiring or start-up.
- `_run_cli` and `_summarize_messages` are a subprocess and are a parameter (`Cli`).
  `build_system_prompt` is not part of this model.
- `label()` is only used in the prompt text; the RiskLevel `name` in log lines and all
  logging are left out.

## Findings

| source | as written | input that shows it | evidently intended | confidence | as-written member | corrected member |
|---|---|---|---|---|---|---|
| butler/ai/engine.py:86-88 | `process` calls `self._history.load(conv_id, sender_id, channel, summarize_fn=...)`, but `load` takes only `conv_id` (butler/ai/history.py:56) | any message: the user message is stored, then the call raises TypeError and no reply is produced or stored | `load(conv_id)`, then the loop; the reply is stored after the user message | not executed | Engine.ProcessAsWritten | Engine.Process |
