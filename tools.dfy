/** `ToolRegistry`: the configured tool state and the routing of a tool call by name. The
    tool implementations are external: a call of one is a `Call` value and `External` gives
    the text it returns. Email tools are named by an identifier of the account object. */
module Tools {
  import opened Wrappers
  import opened Text
  import opened Values

  /** An invocation of an external tool function: its name, its argument values in order,
      and the sender whose approval manager is passed, if one is. */
  datatype Call = Call(fn: string, args: seq<Value>, approver: Option<string>)

  type External = Call -> string

  /** The outcome of `dispatch`: the returned text and the paths forwarded to the user, or
      the exception it raised. */
  datatype Dispatched = Done(reply: string, sent: seq<string>) | Raised(error: string)

  /** The `email_tools` argument of `configure`: a dict of accounts, one tool, or None. */
  datatype EmailToolsArg = Accounts(accounts: seq<(string, string)>) | SingleTool(tool: string) | NoEmail

  /** The state `dispatch` reads. */
  datatype RegistryState = RegistryState(
    functionsSet: bool,
    emailTools: seq<(string, string)>,
    sendFileSet: bool,
    approverFactorySet: bool,
    historySet: bool,
    stabilityKey: string)

  /** `configure`'s normalisation of the email tools. */
  function EmailToolsOf(arg: EmailToolsArg): (r: seq<(string, string)>)
    ensures arg.Accounts? ==> r == arg.accounts
    ensures arg.SingleTool? ==> r == [("default", arg.tool)]
    ensures arg.NoEmail? ==> r == []
  {
    match arg
    case Accounts(accounts) => accounts
    case SingleTool(tool) => [("default", tool)]
    case NoEmail => []
  }

  /** `_get_email_tool(account)`: the named account when the name is given and registered,
      otherwise the first registered account; None when there are no accounts. A list or
      dict as name raises (it is not hashable). */
  function EmailTool(tools: seq<(string, string)>, account: Value): (r: Result<Option<string>>)
    ensures tools == [] ==> r == Success(None)
    ensures tools != [] && Truthy(account) && (account.List? || account.Dict?) ==> r.Failure?
    ensures r.Success? && tools != [] ==> r.value.Some?
    ensures tools != [] && account.Str? && account.s != "" && account.s in Keys(tools) ==>
      r == Success(Lookup(tools, account.s))
    ensures (tools != [] && !(Truthy(account) && account.Str? && account.s in Keys(tools))
             && !(account.List? || account.Dict?)) ==> r == Success(Some(tools[0].1))
  {
    if tools == [] then Success(None)
    else if Truthy(account) && (account.List? || account.Dict?) then
      Failure("TypeError: unhashable type: '" + (if account.List? then "list" else "dict") + "'")
    else if Truthy(account) && account.Str? && account.s in Keys(tools) then Success(Lookup(tools, account.s))
    else Success(Some(tools[0].1))
  }

  /** `args.get(key, default)`. */
  function Get(args: seq<(string, Value)>, key: string, default: Value): Value {
    Lookup(args, key).GetOr(default)
  }

  /** Every key is present in `args`. */
  predicate AllPresent(args: seq<(string, Value)>, keys: seq<string>) {
    forall k :: 0 <= k < |keys| ==> keys[k] in Keys(args)
  }

  /** The values stored under the keys, in order. */
  function RequiredValues(args: seq<(string, Value)>, keys: seq<string>): (r: seq<Value>)
    requires AllPresent(args, keys)
    ensures |r| == |keys|
  {
    seq(|keys|, k requires 0 <= k < |keys| => Lookup(args, keys[k]).value)
  }

  /** `args[k]` for each key in order; the first missing key raises KeyError. */
  function NeedAll(args: seq<(string, Value)>, keys: seq<string>): (r: Result<seq<Value>>)
    ensures r.Success? <==> AllPresent(args, keys)
    ensures r.Success? ==>
      && |r.value| == |keys|
      && forall k :: 0 <= k < |keys| ==> Lookup(args, keys[k]) == Some(r.value[k])
  {
    if keys == [] then Success([])
    else match Lookup(args, keys[0])
      case None => Failure("KeyError: " + Repr(keys[0]))
      case Some(v) =>
        match NeedAll(args, keys[1..])
        case Failure(e) => Failure(e)
        case Success(vs) => Success([v] + vs)
  }

  /** The KeyError names the first missing key. */
  lemma {:induction false} NeedAllFirstMissing(args: seq<(string, Value)>, keys: seq<string>, k: nat)
    requires k < |keys| && keys[k] !in Keys(args)
    requires forall j :: 0 <= j < k ==> keys[j] in Keys(args)
    ensures NeedAll(args, keys) == Failure("KeyError: " + Repr(keys[k]))
  {
    if k > 0 {
      assert keys[0] in Keys(args);
      assert keys[1..][k - 1] == keys[k];
      NeedAllFirstMissing(args, keys[1..], k - 1);
    }
  }

  /** A successful `NeedAll` gives the stored values. */
  lemma {:induction false} NeedAllValues(args: seq<(string, Value)>, keys: seq<string>)
    requires AllPresent(args, keys)
    ensures NeedAll(args, keys) == Success(RequiredValues(args, keys))
  {
    if keys != [] {
      assert keys[0] in Keys(args);
      assert AllPresent(args, keys[1..]) by {
        forall k | 0 <= k < |keys[1..]| ensures keys[1..][k] in Keys(args) {
          assert keys[1..][k] == keys[k + 1];
        }
      }
      NeedAllValues(args, keys[1..]);
      assert RequiredValues(args, keys) == [Lookup(args, keys[0]).value] + RequiredValues(args, keys[1..]);
    }
  }

  /** A tool that `dispatch` calls directly: the required keys, the optional keys with their
      defaults, whether the approval manager is passed, and whether the implementation is a
      callable given to `configure` (rather than a module function). */
  datatype Route = Route(required: seq<string>, optional: seq<(string, Value)>, approver: bool, configured: bool)

  function PlainRoute(name: string): Option<Route> {
    match name
    case "bash" => Some(Route(["command"], [("timeout", Int(30))], true, true))
    case "file_read" => Some(Route(["path"], [("max_bytes", Int(100000))], false, true))
    case "file_write" => Some(Route(["path", "content"], [], true, true))
    case "file_list" => Some(Route(["directory"], [("show_hidden", Bool(false))], false, true))
    case "browser_navigate" => Some(Route(["url"], [], false, false))
    case "browser_click" => Some(Route(["selector"], [], false, false))
    case "browser_type" => Some(Route(["selector", "text"], [], false, false))
    case "browser_get_text" => Some(Route([], [("selector", Str("body"))], false, false))
    case "linkedin_get_feed" => Some(Route([], [], false, false))
    case "linkedin_get_notifications" => Some(Route([], [], false, false))
    case "linkedin_get_messages" => Some(Route([], [], false, false))
    case "linkedin_get_pages" => Some(Route([], [], false, false))
    case "linkedin_connect" => Some(Route(["profile_url"], [("message", Str(""))], true, false))
    case "linkedin_comment" => Some(Route(["post_url", "text"], [], true, false))
    case "linkedin_send_message" => Some(Route(["recipient", "text"], [], true, false))
    case "linkedin_post" => Some(Route(["text"], [], true, false))
    case "linkedin_page_post" => Some(Route(["page_name", "text"], [], true, false))
    case "instagram_get_feed" => Some(Route([], [], false, false))
    case "instagram_get_notifications" => Some(Route([], [], false, false))
    case "instagram_get_messages" => Some(Route([], [], false, false))
    case "instagram_follow" => Some(Route(["profile_url"], [], true, false))
    case "instagram_like" => Some(Route(["post_url"], [], true, false))
    case "instagram_comment" => Some(Route(["post_url", "text"], [], true, false))
    case "instagram_send_message" => Some(Route(["recipient", "text"], [], true, false))
    case "instagram_post" => Some(Route(["image_path"], [("caption", Str(""))], true, false))
    case _ => None
  }

  /** The tools whose names `dispatch` handles in a branch of its own. */
  predicate IsSpecialTool(name: string) {
    match name
    case "file_send" | "browser_screenshot" | "screenshot" | "email_list" | "email_read" | "email_send"
       | "remember" | "forget" | "list_memories" | "generate_image" => true
    case _ => false
  }

  const NotCallable: string := "TypeError: 'NoneType' object is not callable"

  function OptionalValues(args: seq<(string, Value)>, optional: seq<(string, Value)>): (r: seq<Value>)
    ensures |r| == |optional|
  {
    seq(|optional|, k requires 0 <= k < |optional| => Get(args, optional[k].0, optional[k].1))
  }

  /** The approval manager `dispatch` creates when an approver factory is configured. */
  function Approver(st: RegistryState, senderId: string): Option<string> {
    if st.approverFactorySet then Some(senderId) else None
  }

  /** Forwarding a produced file: a path that does not start with "[ERROR]" is sent to the
      user and `ok` is returned; an "[ERROR]" path is returned unchanged. */
  function Forward(st: RegistryState, path: string, ok: string): (d: Dispatched)
    ensures StartsWith(path, "[ERROR]") ==> d == Done(path, [])
    ensures !StartsWith(path, "[ERROR]") && st.sendFileSet ==> d == Done(ok, [path])
  {
    if StartsWith(path, "[ERROR]") then Done(path, [])
    else if st.sendFileSet then Done(ok, [path])
    else Raised(NotCallable)
  }

  function EmailCall(st: RegistryState, ext: External, args: seq<(string, Value)>, fn: string,
                     required: seq<string>, optional: seq<(string, Value)>, approver: Option<string>): (d: Dispatched)
    ensures st.emailTools == [] ==> d == Done("[ERROR] Email not configured", [])
  {
    match EmailTool(st.emailTools, Get(args, "account", Null))
    case Failure(e) => Raised(e)
    case Success(None) => Done("[ERROR] Email not configured", [])
    case Success(Some(tool)) =>
      match NeedAll(args, required)
      case Failure(e) => Raised(e)
      case Success(vs) => Done(ext(Call(fn, [Str(tool)] + vs + OptionalValues(args, optional), approver)), [])
  }

  function MemoryCall(st: RegistryState, attribute: string): (d: Dispatched)
    ensures !st.historySet ==> d == Done("[ERROR] Memory not available", [])
  {
    if !st.historySet then Done("[ERROR] Memory not available", [])
    else Raised("AttributeError: 'ConversationHistory' object has no attribute '" + attribute + "'")
  }

  /** The arguments `dispatch` passes to `generate_image`. */
  function ImageCall(st: RegistryState, args: seq<(string, Value)>): Call
    requires "prompt" in Keys(args)
  {
    Call("generate_image",
         [Lookup(args, "prompt").value, Get(args, "aspect_ratio", Str("1:1")), Get(args, "style_preset", Str("")),
          Get(args, "negative_prompt", Str("")), Str(st.stabilityKey)], None)
  }

  /** The `generate_image` branch: a missing prompt is a KeyError. */
  function ImageDispatch(st: RegistryState, ext: External, args: seq<(string, Value)>): Dispatched {
    if "prompt" !in Keys(args) then Raised("KeyError: 'prompt'")
    else Forward(st, ext(ImageCall(st, args)), "[OK] Image generated and sent")
  }

  /** The branches of `dispatch` for the tools with a branch of their own, and the
      unknown-tool answer. */
  function SpecialDispatch(st: RegistryState, ext: External, toolName: string, args: seq<(string, Value)>,
                           senderId: string): Dispatched
  {
      var approver := Approver(st, senderId);
      if toolName == "file_send" then
        (match Lookup(args, "path")
         case None => Raised("KeyError: 'path'")
         case Some(path) =>
           if !st.sendFileSet then Raised(NotCallable)
           else Done("[OK] Sent " + Show(path) + " to user", [Show(path)]))
      else if toolName == "browser_screenshot" then
        Forward(st, ext(Call("browser_screenshot", [], None)), "[OK] Screenshot sent")
      else if toolName == "screenshot" then
        var target := Get(args, "target", Str("desktop"));
        Forward(st, ext(Call("screenshot", [target], None)), "[OK] " + Show(target) + " screenshot sent")
      else if toolName == "email_list" then
        EmailCall(st, ext, args, "email_list", [], [("count", Int(10)), ("folder", Str("INBOX"))], None)
      else if toolName == "email_read" then
        EmailCall(st, ext, args, "email_read", ["message_id"], [], None)
      else if toolName == "email_send" then
        EmailCall(st, ext, args, "email_send", ["to", "subject", "body"], [], approver)
      else if toolName == "remember" then MemoryCall(st, "save_memory")
      else if toolName == "forget" then MemoryCall(st, "forget_memory")
      else if toolName == "list_memories" then MemoryCall(st, "list_memories")
      else if toolName == "generate_image" then ImageDispatch(st, ext, args)
      else Done("[ERROR] Unknown tool: " + toolName, [])
  }

  /** `dispatch`. */
  function DispatchWith(st: RegistryState, ext: External, toolName: string, args: seq<(string, Value)>,
                        senderId: string, channel: string, recipientId: string): (d: Dispatched)
    ensures d.Done? && PlainRoute(toolName).Some? ==> d.sent == []
    ensures PlainRoute(toolName).Some? ==>
      (d.Raised? <==> !AllPresent(args, PlainRoute(toolName).value.required)
                      || (PlainRoute(toolName).value.configured && !st.functionsSet))
  {
    match PlainRoute(toolName)
    case Some(route) =>
      (match NeedAll(args, route.required)
       case Failure(e) => Raised(e)
       case Success(vs) =>
         if route.configured && !st.functionsSet then Raised(NotCallable)
         else Done(ext(Call(toolName, vs + OptionalValues(args, route.optional),
                            if route.approver then Approver(st, senderId) else None)), []))
    case None => SpecialDispatch(st, ext, toolName, args, senderId)
  }

  /** A tool of the direct table is called with the values of its required keys, in order,
      then its optional keys or their defaults, and the sender's approval manager when the
      tool takes one and a factory is configured. */
  lemma PlainDispatch(st: RegistryState, ext: External, toolName: string, args: seq<(string, Value)>,
                      senderId: string, channel: string, recipientId: string, route: Route)
    requires PlainRoute(toolName) == Some(route)
    requires AllPresent(args, route.required) && (!route.configured || st.functionsSet)
    ensures DispatchWith(st, ext, toolName, args, senderId, channel, recipientId)
         == Done(ext(Call(toolName, RequiredValues(args, route.required) + OptionalValues(args, route.optional),
                          if route.approver && st.approverFactorySet then Some(senderId) else None)), [])
  {
    NeedAllValues(args, route.required);
  }

  /** A missing required key raises KeyError naming the first missing one, before any
      callable is looked at. */
  lemma PlainMissingKeyRaises(st: RegistryState, ext: External, toolName: string, args: seq<(string, Value)>,
                              senderId: string, channel: string, recipientId: string, route: Route, k: nat)
    requires PlainRoute(toolName) == Some(route)
    requires k < |route.required| && route.required[k] !in Keys(args)
    requires forall j :: 0 <= j < k ==> route.required[j] in Keys(args)
    ensures DispatchWith(st, ext, toolName, args, senderId, channel, recipientId)
         == Raised("KeyError: " + Repr(route.required[k]))
  {
    NeedAllFirstMissing(args, route.required, k);
  }

  /** "file_write" passes the path, the content and the sender's approval manager. */
  lemma FileWriteGetsApprover(st: RegistryState, ext: External, args: seq<(string, Value)>,
                              senderId: string, channel: string, recipientId: string)
    requires st.functionsSet && st.approverFactorySet && "path" in Keys(args) && "content" in Keys(args)
    ensures DispatchWith(st, ext, "file_write", args, senderId, channel, recipientId)
         == Done(ext(Call("file_write", [Lookup(args, "path").value, Lookup(args, "content").value], Some(senderId))), [])
  {
    var route := Route(["path", "content"], [], true, true);
    assert PlainRoute("file_write") == Some(route);
    PlainDispatch(st, ext, "file_write", args, senderId, channel, recipientId, route);
    assert RequiredValues(args, route.required) + OptionalValues(args, route.optional)
        == [Lookup(args, "path").value, Lookup(args, "content").value];
  }

  /** "email_send" passes the account's tool, the recipient, subject and body, and the
      sender's approval manager. */
  lemma EmailSendGetsApprover(st: RegistryState, ext: External, args: seq<(string, Value)>,
                              senderId: string, channel: string, recipientId: string, tool: string)
    requires EmailTool(st.emailTools, Get(args, "account", Null)) == Success(Some(tool))
    requires st.approverFactorySet && "to" in Keys(args) && "subject" in Keys(args) && "body" in Keys(args)
    ensures DispatchWith(st, ext, "email_send", args, senderId, channel, recipientId)
         == Done(ext(Call("email_send", [Str(tool), Lookup(args, "to").value, Lookup(args, "subject").value,
                                         Lookup(args, "body").value], Some(senderId))), [])
  {
    EmailSendIsSpecial(st, ext, args, senderId, channel, recipientId);
    var keys := ["to", "subject", "body"];
    assert AllPresent(args, keys);
    EmailCallGives(st, ext, args, "email_send", keys, [], Some(senderId), tool);
    EmailArgs(args, keys, tool);
  }

  lemma EmailArgs(args: seq<(string, Value)>, keys: seq<string>, tool: string)
    requires |keys| == 3 && AllPresent(args, keys)
    ensures [Str(tool)] + RequiredValues(args, keys) + OptionalValues(args, [])
         == [Str(tool), Lookup(args, keys[0]).value, Lookup(args, keys[1]).value, Lookup(args, keys[2]).value]
  {
  }

  lemma EmailSendIsSpecial(st: RegistryState, ext: External, args: seq<(string, Value)>,
                           senderId: string, channel: string, recipientId: string)
    ensures DispatchWith(st, ext, "email_send", args, senderId, channel, recipientId)
         == EmailCall(st, ext, args, "email_send", ["to", "subject", "body"], [], Approver(st, senderId))
  {
    EmailNotPlain("email_send");
    EmailSendBranch(st, ext, args, senderId);
  }

  lemma EmailSendBranch(st: RegistryState, ext: External, args: seq<(string, Value)>, senderId: string)
    ensures SpecialDispatch(st, ext, "email_send", args, senderId)
         == EmailCall(st, ext, args, "email_send", ["to", "subject", "body"], [], Approver(st, senderId))
  {
  }

  /** With an account and every required key, an email tool is called on the account's tool
      with the values of its keys. */
  lemma EmailCallGives(st: RegistryState, ext: External, args: seq<(string, Value)>, fn: string,
                       required: seq<string>, optional: seq<(string, Value)>, approver: Option<string>, tool: string)
    requires EmailTool(st.emailTools, Get(args, "account", Null)) == Success(Some(tool))
    requires AllPresent(args, required)
    ensures EmailCall(st, ext, args, fn, required, optional, approver)
         == Done(ext(Call(fn, [Str(tool)] + RequiredValues(args, required) + OptionalValues(args, optional), approver)), [])
  {
    NeedAllValues(args, required);
  }

  /** Without an approver factory no tool of the direct table gets an approval manager. */
  lemma NoFactoryNoApprover(st: RegistryState, ext: External, toolName: string, args: seq<(string, Value)>,
                            senderId: string, channel: string, recipientId: string, route: Route)
    requires !st.approverFactorySet && PlainRoute(toolName) == Some(route)
    requires AllPresent(args, route.required) && (!route.configured || st.functionsSet)
    ensures DispatchWith(st, ext, toolName, args, senderId, channel, recipientId)
         == Done(ext(Call(toolName, RequiredValues(args, route.required) + OptionalValues(args, route.optional), None)), [])
  {
    PlainDispatch(st, ext, toolName, args, senderId, channel, recipientId, route);
  }

  /** "file_send" forwards the given path and reports it; without a path it raises
      KeyError, and without a file sender the call of None raises TypeError. */
  lemma FileSendForwards(st: RegistryState, ext: External, args: seq<(string, Value)>,
                         senderId: string, channel: string, recipientId: string)
    ensures var d := DispatchWith(st, ext, "file_send", args, senderId, channel, recipientId);
      && ("path" !in Keys(args) ==> d == Raised("KeyError: 'path'"))
      && ("path" in Keys(args) && !st.sendFileSet ==> d == Raised(NotCallable))
      && ("path" in Keys(args) && st.sendFileSet ==>
            d == Done("[OK] Sent " + Show(Lookup(args, "path").value) + " to user", [Show(Lookup(args, "path").value)]))
  {
    assert PlainRoute("file_send").None?;
  }

  /** "generate_image" without a prompt raises KeyError and generates nothing. */
  lemma ImageNeedsPrompt(st: RegistryState, ext: External, args: seq<(string, Value)>,
                         senderId: string, channel: string, recipientId: string)
    requires "prompt" !in Keys(args)
    ensures DispatchWith(st, ext, "generate_image", args, senderId, channel, recipientId) == Raised("KeyError: 'prompt'")
  {
    ImageIsSpecial(st, ext, args, senderId, channel, recipientId);
    ImageBranch(st, ext, args, senderId);
  }

  /** The tools whose callables `configure` supplies are the four shell and file tools; the
      others of the direct table are module functions. */
  lemma PlainRoutesApart(name: string)
    requires PlainRoute(name).Some?
    ensures PlainRoute(name).value.configured <==> name in {"bash", "file_read", "file_write", "file_list"}
  {
  }

  /** The email and memory tools have branches of their own, outside the direct table. */
  lemma EmailNotPlain(name: string)
    requires name in {"email_list", "email_read", "email_send"}
    ensures PlainRoute(name).None?
  {
  }

  lemma ImageNotPlain(name: string)
    requires name == "generate_image"
    ensures PlainRoute(name).None?
  {
  }

  lemma MemoryNotPlain(name: string)
    requires name in {"remember", "forget", "list_memories"}
    ensures PlainRoute(name).None?
  {
  }

  /** An unknown tool name is answered with an error text, never an exception. */
  lemma UnknownToolIsText(st: RegistryState, ext: External, toolName: string, args: seq<(string, Value)>,
                          senderId: string, channel: string, recipientId: string)
    requires PlainRoute(toolName).None? && !IsSpecialTool(toolName)
    ensures DispatchWith(st, ext, toolName, args, senderId, channel, recipientId)
         == Done("[ERROR] Unknown tool: " + toolName, [])
  {
  }

  /** Without email accounts, each email tool answers "[ERROR] Email not configured". */
  lemma EmailNotConfigured(st: RegistryState, ext: External, toolName: string, args: seq<(string, Value)>,
                           senderId: string, channel: string, recipientId: string)
    requires st.emailTools == []
    requires toolName in {"email_list", "email_read", "email_send"}
    ensures DispatchWith(st, ext, toolName, args, senderId, channel, recipientId)
         == Done("[ERROR] Email not configured", [])
  {
    EmailNotPlain(toolName);
  }

  /** Without a history object, each memory tool answers "[ERROR] Memory not available". */
  lemma MemoryNotAvailable(st: RegistryState, ext: External, toolName: string, args: seq<(string, Value)>,
                           senderId: string, channel: string, recipientId: string)
    requires !st.historySet
    requires toolName in {"remember", "forget", "list_memories"}
    ensures DispatchWith(st, ext, toolName, args, senderId, channel, recipientId)
         == Done("[ERROR] Memory not available", [])
  {
    MemoryNotPlain(toolName);
  }

  lemma ImageIsSpecial(st: RegistryState, ext: External, args: seq<(string, Value)>,
                       senderId: string, channel: string, recipientId: string)
    ensures DispatchWith(st, ext, "generate_image", args, senderId, channel, recipientId)
         == SpecialDispatch(st, ext, "generate_image", args, senderId)
  {
    ImageNotPlain("generate_image");
  }

  lemma ImageBranch(st: RegistryState, ext: External, args: seq<(string, Value)>, senderId: string)
    ensures SpecialDispatch(st, ext, "generate_image", args, senderId) == ImageDispatch(st, ext, args)
  {
  }

  /** The screenshot and image tools forward their file only when the path is not an error;
      an error path is the reply, unchanged. */
  lemma ImageForwardedUnlessError(st: RegistryState, ext: External, args: seq<(string, Value)>,
                                  senderId: string, channel: string, recipientId: string)
    requires "prompt" in Keys(args) && st.sendFileSet
    ensures var path := ext(ImageCall(st, args));
      DispatchWith(st, ext, "generate_image", args, senderId, channel, recipientId)
        == if StartsWith(path, "[ERROR]") then Done(path, []) else Done("[OK] Image generated and sent", [path])
  {
    ImageIsSpecial(st, ext, args, senderId, channel, recipientId);
    ImageBranch(st, ext, args, senderId);
  }

  /** A tool that needs the approval manager gets the sender's one when a factory is set. */
  lemma BashGetsApprover(st: RegistryState, ext: External, args: seq<(string, Value)>,
                         senderId: string, channel: string, recipientId: string)
    requires st.functionsSet && st.approverFactorySet && "command" in Keys(args)
    ensures DispatchWith(st, ext, "bash", args, senderId, channel, recipientId)
         == Done(ext(Call("bash", [Lookup(args, "command").value, Get(args, "timeout", Int(30))], Some(senderId))), [])
  {
    var route := Route(["command"], [("timeout", Int(30))], true, true);
    assert PlainRoute("bash") == Some(route);
    var keys := route.required;
    assert keys[0] == "command" && keys[1..] == [];
    var v := Lookup(args, "command").value;
    assert NeedAll(args, keys[1..]) == Success([]);
    assert [v] + [] == [v];
    assert NeedAll(args, keys) == Success([v]);
    var g := Get(args, "timeout", Int(30));
    assert OptionalValues(args, route.optional) == [g];
    assert [v] + [g] == [v, g];
    assert Approver(st, senderId) == Some(senderId);
  }

  class ToolRegistry {
    var functionsSet: bool
    var emailTools: seq<(string, string)>
    var browserCfg: seq<(string, Value)>
    var sendFileSet: bool
    var approverFactorySet: bool
    var historySet: bool
    var stabilityKey: string

    constructor ()
      ensures !functionsSet && emailTools == [] && browserCfg == [] && !sendFileSet
      ensures !approverFactorySet && !historySet && stabilityKey == ""
    {
      functionsSet, emailTools, browserCfg, sendFileSet := false, [], [], false;
      approverFactorySet, historySet, stabilityKey := false, false, "";
    }

    function State(): RegistryState
      reads this
    {
      RegistryState(functionsSet, emailTools, sendFileSet, approverFactorySet, historySet, stabilityKey)
    }

    /** `configure`: the tool callables, the browser settings, the email accounts (one tool
        becomes the "default" account), the file sender and the approver factory. Each callable
        is stored as given; `functions`, `sendFile` and `approverFactory` say whether the
        shell and file callables, `send_file_to_user` and `approver_factory` were given
        (rather than None). */
    method Configure(functions: bool, browserCfg: seq<(string, Value)>, emailTools: EmailToolsArg,
                     sendFile: bool, approverFactory: bool)
      modifies this
      ensures functionsSet == functions && sendFileSet == sendFile && approverFactorySet == approverFactory
      ensures this.browserCfg == browserCfg && this.emailTools == EmailToolsOf(emailTools)
      ensures historySet == old(historySet) && stabilityKey == old(stabilityKey)
    {
      functionsSet := functions;
      this.browserCfg := browserCfg;
      match emailTools {
        case Accounts(accounts) => this.emailTools := accounts;
        case SingleTool(tool) => this.emailTools := [("default", tool)];
        case NoEmail => this.emailTools := [];
      }
      sendFileSet := sendFile;
      approverFactorySet := approverFactory;
    }

    method SetStabilityKey(key: string)
      modifies this
      ensures stabilityKey == key
      ensures functionsSet == old(functionsSet) && emailTools == old(emailTools) && sendFileSet == old(sendFileSet)
      ensures approverFactorySet == old(approverFactorySet) && historySet == old(historySet)
      ensures browserCfg == old(browserCfg)
    {
      stabilityKey := key;
    }

    method SetHistory()
      modifies this
      ensures historySet
      ensures functionsSet == old(functionsSet) && emailTools == old(emailTools) && sendFileSet == old(sendFileSet)
      ensures approverFactorySet == old(approverFactorySet) && stabilityKey == old(stabilityKey)
      ensures browserCfg == old(browserCfg)
    {
      historySet := true;
    }
  }

  /** The module-level `_registry` singleton with `init_tools` and `get_registry`. */
  class Registry {
    var registry: ToolRegistry?

    constructor ()
      ensures registry == null
    {
      registry := null;
    }

    method InitTools(functions: bool, browserCfg: seq<(string, Value)>, emailTools: EmailToolsArg,
                     sendFile: bool, approverFactory: bool) returns (r: ToolRegistry)
      modifies this
      ensures fresh(r) && registry == r
      ensures r.State() == RegistryState(functions, EmailToolsOf(emailTools), sendFile, approverFactory, false, "")
      ensures r.browserCfg == browserCfg
    {
      r := new ToolRegistry();
      r.Configure(functions, browserCfg, emailTools, sendFile, approverFactory);
      registry := r;
    }

    /** `get_registry`: an error before `init_tools`, the configured instance after. */
    method GetRegistry() returns (r: Result<ToolRegistry>)
      ensures registry == null <==> r.Failure?
      ensures r.Success? ==> r.value == registry
    {
      if registry == null {
        return Failure("RuntimeError: Tools not initialized — call init_tools() first");
      }
      return Success(registry);
    }
  }
}
