/** The per-user approval manager: a risky tool call becomes a pending request, resolved by a
    later chat reply or by its timeout. The asyncio future of each request is an explicit
    `FutureState`; the `await` inside `request_approval` splits it into `Begin` (register the
    request and send the prompt) and `Finish` (the wait ended: resolved, or timed out). */
module Approval {
  import opened Wrappers
  import opened Text
  import opened Classifier

  datatype FutureState = Unresolved | Resolved(approved: bool)

  /** What `request_approval` did before it suspended. `future` names the request's future
      (an index into the manager's `futures`). */
  datatype Begun = AutoApproved | Waiting(id: string, future: nat)

  /** The shape of a request id: `str(uuid.uuid4())[:8].upper()`. */
  predicate IsRequestId(id: string) {
    |id| == 8 && forall i :: 0 <= i < |id| ==> IsDigit(id[i]) || 'A' <= id[i] <= 'F'
  }

  /** `int(x)` for a float: truncation toward zero. */
  function Truncate(x: real): int {
    if x >= 0.0 then x.Floor else -((-x).Floor)
  }

  /** The args preview of the prompt: the JSON text, cut to 297 characters plus "..." when it
      is longer than 300. */
  function ArgsPreview(json: string): (p: string)
    ensures |p| <= 300
    ensures |json| <= 300 ==> p == json
    ensures |json| > 300 ==> |p| == 300 && p[..297] == json[..297] && p[297..] == "..."
  {
    if |json| > 300 then json[..297] + "..." else json
  }

  /** The prompt: a header naming the request id, then the tool, the risk label, the args
      preview, the reply instructions and the whole seconds of the timeout. */
  function PromptMessage(id: string, toolName: string, risk: RiskLevel, argsJson: string, timeout: real): (r: string)
    ensures StartsWith(r, PromptHeader(id))
    ensures EndsWith(r, "_(Timeout in " + IntToString(Truncate(timeout)) + "s)_")
  {
    var body := "Tool: `" + toolName + "`\n"
      + "Risk: " + risk.Label() + "\n"
      + "Args: `" + ArgsPreview(argsJson) + "`\n\n"
      + "Reply *yes* to approve, *no* to deny, *yes all* to approve all until restart.\n";
    var tail := "_(Timeout in " + IntToString(Truncate(timeout)) + "s)_";
    Framed(PromptHeader(id), body, tail);
    PromptHeader(id) + body + tail
  }

  lemma Framed(head: string, body: string, tail: string)
    ensures StartsWith(head + body + tail, head) && EndsWith(head + body + tail, tail)
  {
    var r := head + body + tail;
    assert r[..|head|] == head;
    assert r[|r| - |tail|..] == tail;
  }

  function PromptHeader(id: string): string {
    "⚠️ *Permission Required* [" + id + "]\n"
  }

  function TimeoutNotice(id: string): string {
    "⏰ Request [" + id + "] timed out — action *denied* automatically."
  }

  /** The notice names its request: two requests never time out with the same text. */
  lemma TimeoutNoticeNamesRequest(a: string, b: string)
    requires TimeoutNotice(a) == TimeoutNotice(b)
    ensures a == b
  {
    var pre := "⏰ Request [";
    var post := "] timed out — action *denied* automatically.";
    assert TimeoutNotice(a) == pre + a + post && TimeoutNotice(b) == pre + b + post;
    assert |a| == |b|;
    assert a == TimeoutNotice(a)[|pre|..|pre| + |a|];
    assert b == TimeoutNotice(b)[|pre|..|pre| + |b|];
  }

  /** How `handle_reply` reads a message, after `strip().lower()`. */
  datatype ReplyKind = YesAll | Yes | No | NotAReply

  function Normalize(text: string): string {
    Lower(Strip(text))
  }

  /** How a reply is read: by its normalised form alone. */
  function ReplyKindOf(text: string): ReplyKind {
    WordKind(Normalize(text))
  }

  /** The reply words, as `handle_reply` lists them. */
  function WordKind(word: string): ReplyKind {
    match word
    case "yes all" | "yesall" | "y all" => YesAll
    case "yes" | "y" | "approve" | "ok" | "yep" | "sure" => Yes
    case "no" | "n" | "deny" | "cancel" | "nope" | "stop" => No
    case _ => NotAReply
  }

  const YesAllWords: set<string> := {"yes all", "yesall", "y all"}
  const YesWords: set<string> := {"yes", "y", "approve", "ok", "yep", "sure"}
  const NoWords: set<string> := {"no", "n", "deny", "cancel", "nope", "stop"}

  /** A reply is read by the word list its normalised form is in; "yes all" is checked first,
      and every other text is not a reply. */
  lemma ReplyWords(text: string)
    ensures ReplyKindOf(text) == YesAll <==> Normalize(text) in YesAllWords
    ensures ReplyKindOf(text) == Yes <==> Normalize(text) in YesWords
    ensures ReplyKindOf(text) == No <==> Normalize(text) in NoWords
  {
    WordKindBySets(Normalize(text));
  }

  lemma WordKindBySets(word: string)
    ensures WordKind(word) == YesAll <==> word in YesAllWords
    ensures WordKind(word) == Yes <==> word in YesWords
    ensures WordKind(word) == No <==> word in NoWords
  {
  }

  /** Surrounding whitespace of any kind, and upper case, do not change how a reply is read. */
  lemma ReplyKindIgnoresCaseAndSpace(w1: string, text: string, w2: string)
    requires AllSpace(w1) && AllSpace(w2)
    ensures ReplyKindOf(w1 + text + w2) == ReplyKindOf(text)
    ensures ReplyKindOf(Lower(text)) == ReplyKindOf(text)
  {
    NormalizePadded(w1, text, w2);
    NormalizeLower(text);
  }

  lemma NormalizePadded(w1: string, text: string, w2: string)
    requires AllSpace(w1) && AllSpace(w2)
    ensures Normalize(w1 + text + w2) == Normalize(text)
  {
    StripPadded(w1, text, w2);
  }

  lemma NormalizeLower(text: string)
    ensures Normalize(Lower(text)) == Normalize(text)
  {
    StripLower(text);
    LowerIdempotent(Strip(text));
  }

  /** Every future in `serials` that is still unresolved becomes approved; nothing else changes. */
  function ApproveAll(futures: seq<FutureState>, serials: set<nat>): (r: seq<FutureState>)
    ensures |r| == |futures|
    ensures forall k :: 0 <= k < |r| ==>
      r[k] == (if k in serials && futures[k].Unresolved? then Resolved(true) else futures[k])
  {
    seq(|futures|, k requires 0 <= k < |futures| =>
      if k in serials && futures[k].Unresolved? then Resolved(true) else futures[k])
  }

  /** A future that has a result keeps it. */
  predicate SettledKept(before: seq<FutureState>, after: seq<FutureState>) {
    |before| <= |after| && forall k :: 0 <= k < |before| && before[k].Resolved? ==> after[k] == before[k]
  }

  /** What an `ApprovalManager` holds that its methods change. */
  datatype Snapshot = Snapshot(futures: seq<FutureState>, pending: map<string, nat>,
                               currentId: Option<string>, yesAll: bool, sent: seq<string>)

  /** The current request is still pending and has no result, so a yes or no settles it. */
  predicate CanResolve(s: Snapshot) {
    && s.currentId.Some? && s.currentId.value != "" && s.currentId.value in s.pending
    && s.pending[s.currentId.value] < |s.futures| && s.futures[s.pending[s.currentId.value]].Unresolved?
  }

  /** Whether `handle_reply` takes `text` as an answer: "yes all" always, a yes or no only
      when the current request can be settled, anything else never. */
  predicate Consumes(s: Snapshot, text: string) {
    match ReplyKindOf(text)
    case YesAll => true
    case NotAReply => false
    case _ => CanResolve(s)
  }

  /** The state `handle_reply(text)` leaves behind (`after`), against the state before it. */
  predicate RepliedTo(before: Snapshot, after: Snapshot, text: string) {
    && after.sent == before.sent
    && (ReplyKindOf(text) == YesAll ==>
          && after.yesAll && after.futures == ApproveAll(before.futures, before.pending.Values)
          && after.pending == map[] && after.currentId == None)
    && (ReplyKindOf(text) == NotAReply ==> after == before)
    && ((ReplyKindOf(text) == Yes || ReplyKindOf(text) == No) ==>
          if CanResolve(before) then
            && after.futures == before.futures[before.pending[before.currentId.value] := Resolved(ReplyKindOf(text) == Yes)]
            && after.pending == before.pending - {before.currentId.value}
            && after.currentId == None && after.yesAll == before.yesAll
          else after == before)
  }

  /** `ApprovalManager`, one per user. `sent` records the messages passed to the send
      function, in order. */
  class ApprovalManager {
    const timeout: real
    const autoApproveBelow: RiskLevel
    /** Every future created so far, by creation order. */
    var futures: seq<FutureState>
    /** `_pending`: request id to (the index of) its future. */
    var pending: map<string, nat>
    var currentId: Option<string>
    var yesAll: bool
    var sent: seq<string>

    ghost predicate Valid()
      reads this
    {
      && (forall id :: id in pending ==> pending[id] < |futures|)
      && (forall a, b :: a in pending && b in pending && a != b ==> pending[a] != pending[b])
    }

    /** No pending entry refers to a future that already has a result. */
    ghost predicate PendingUnsettled()
      reads this
      requires Valid()
    {
      forall id :: id in pending ==> futures[pending[id]].Unresolved?
    }

    constructor (timeout: real, autoApproveBelow: RiskLevel)
      ensures Valid() && PendingUnsettled()
      ensures this.timeout == timeout && this.autoApproveBelow == autoApproveBelow
      ensures futures == [] && pending == map[] && currentId == None && !yesAll && sent == []
    {
      this.timeout := timeout;
      this.autoApproveBelow := autoApproveBelow;
      futures, pending, currentId, yesAll, sent := [], map[], None, false, [];
    }

    /** `has_pending`. */
    predicate HasPending()
      reads this
    {
      pending != map[]
    }

    /** The fields the methods change, as one value. */
    function State(): Snapshot
      reads this
    {
      Snapshot(futures, pending, currentId, yesAll, sent)
    }

    /** `request_approval` up to its `await`. With `risk <= auto_approve_below` or "yes all" on it
        returns at once, having sent nothing. Otherwise `freshId` (the random id) becomes the
        current request, its new future is registered, and then the prompt is sent. */
    method Begin(toolName: string, argsJson: string, risk: RiskLevel, freshId: string) returns (b: Begun)
      requires Valid() && IsRequestId(freshId)
      modifies this
      ensures Valid()
      ensures old(PendingUnsettled()) ==> PendingUnsettled()
      ensures SettledKept(old(futures), futures)
      ensures AtMost(risk, autoApproveBelow) || old(yesAll) ==>
        && b == AutoApproved
        && futures == old(futures) && pending == old(pending) && currentId == old(currentId)
        && yesAll == old(yesAll) && sent == old(sent)
      ensures !(AtMost(risk, autoApproveBelow) || old(yesAll)) ==>
        && b == Waiting(freshId, |old(futures)|)
        && futures == old(futures) + [Unresolved]
        && pending == old(pending)[freshId := |old(futures)|]
        && currentId == Some(freshId)
        && yesAll == old(yesAll)
        && sent == old(sent) + [PromptMessage(freshId, toolName, risk, argsJson, timeout)]
    {
      if AtMost(risk, autoApproveBelow) || yesAll {
        return AutoApproved;
      }
      b := Register(freshId, PromptMessage(freshId, toolName, risk, argsJson, timeout));
    }

    /** The waiting half of `Begin`: `id` becomes current, its future is registered, then
        `prompt` is sent. */
    method Register(id: string, prompt: string) returns (b: Begun)
      requires Valid()
      modifies this
      ensures Valid()
      ensures old(PendingUnsettled()) ==> PendingUnsettled()
      ensures SettledKept(old(futures), futures)
      ensures b == Waiting(id, |old(futures)|)
      ensures futures == old(futures) + [Unresolved]
      ensures pending == old(pending)[id := |old(futures)|]
      ensures currentId == Some(id) && yesAll == old(yesAll) && sent == old(sent) + [prompt]
    {
      currentId := Some(id);
      var serial := |futures|;
      futures := futures + [Unresolved];
      pending := pending[id := serial];
      sent := sent + [prompt];
      b := Waiting(id, serial);
    }

    /** `request_approval` after its `await`. A future with a result means a reply resolved
        it and that result is returned; a future still unresolved means the deadline passed:
        the timeout path drops the entry, clears `_current_id` if it is still this request,
        sends the timeout notice and returns false. Both paths drop the id from `_pending`. */
    method Finish(b: Begun) returns (approved: bool)
      requires Valid() && b.Waiting? && b.future < |futures|
      modifies this
      ensures Valid()
      ensures old(PendingUnsettled()) ==> PendingUnsettled()
      ensures futures == old(futures) && yesAll == old(yesAll)
      ensures b.id !in pending && pending == old(pending) - {b.id}
      ensures old(futures[b.future]).Resolved? ==>
        && approved == old(futures[b.future]).approved
        && currentId == old(currentId) && sent == old(sent)
      ensures old(futures[b.future]).Unresolved? ==>
        && !approved
        && currentId == (if old(currentId) == Some(b.id) then None else old(currentId))
        && sent == old(sent) + [TimeoutNotice(b.id)]
    {
      match futures[b.future]
      case Resolved(result) =>
        pending := pending - {b.id};
        approved := result;
      case Unresolved =>
        pending := pending - {b.id};
        if currentId == Some(b.id) {
          currentId := None;
        }
        sent := sent + [TimeoutNotice(b.id)];
        pending := pending - {b.id};
        approved := false;
    }

    /** The loop of the "yes all" branch: every pending future still without a result is
        resolved as approved. */
    method ApprovePending()
      requires Valid()
      modifies this
      ensures Valid()
      ensures futures == ApproveAll(old(futures), old(pending).Values)
      ensures pending == old(pending) && currentId == old(currentId)
      ensures yesAll == old(yesAll) && sent == old(sent)
    {
      var todo := pending.Values;
      assert forall k :: k in todo ==> k < |futures|;
      ghost var before := futures;
      while todo != {}
        invariant todo <= pending.Values
        invariant forall k :: k in todo ==> k < |futures|
        invariant pending == old(pending) && currentId == old(currentId)
        invariant yesAll == old(yesAll) && sent == old(sent)
        invariant futures == ApproveAll(before, pending.Values - todo)
        decreases todo
      {
        var k :| k in todo;
        if futures[k].Unresolved? {
          futures := futures[k := Resolved(true)];
        }
        todo := todo - {k};
      }
    }

    /** `handle_reply`: true when the message was taken as an approval reply. */
    method HandleReply(text: string) returns (consumed: bool)
      requires Valid()
      modifies this
      ensures Valid()
      ensures old(PendingUnsettled()) ==> PendingUnsettled()
      ensures SettledKept(old(futures), futures)
      ensures consumed == Consumes(old(State()), text)
      ensures RepliedTo(old(State()), State(), text)
      ensures !consumed ==> unchanged(this)
    {
      var kind := ReplyKindOf(text);
      if kind == YesAll {
        ApproveEverything();
        return true;
      }
      if kind == NotAReply {
        return false;
      }
      consumed := ResolveCurrent(kind == Yes);
    }

    /** The "yes all" branch of `handle_reply`: the flag is set, every pending future still
        without a result is approved, and nothing is pending or current any more. */
    method ApproveEverything()
      requires Valid()
      modifies this
      ensures Valid() && PendingUnsettled()
      ensures SettledKept(old(futures), futures)
      ensures yesAll && futures == ApproveAll(old(futures), old(pending).Values)
      ensures pending == map[] && currentId == None && sent == old(sent)
    {
      yesAll := true;
      ApprovePending();
      pending := map[];
      currentId := None;
    }

    /** The yes/no branch of `handle_reply`: the current request, when it is still pending
        without a result, gets `approve` as its result and stops being pending or current. */
    method ResolveCurrent(approve: bool) returns (consumed: bool)
      requires Valid()
      modifies this
      ensures Valid()
      ensures old(PendingUnsettled()) ==> PendingUnsettled()
      ensures SettledKept(old(futures), futures)
      ensures sent == old(sent) && yesAll == old(yesAll)
      ensures consumed == CanResolve(old(State()))
      ensures !consumed ==> unchanged(this)
      ensures
        if CanResolve(old(State())) then
          && futures == old(futures)[old(pending)[old(currentId).value] := Resolved(approve)]
          && pending == old(pending) - {old(currentId).value}
          && currentId == None
        else
          futures == old(futures) && pending == old(pending) && currentId == old(currentId)
    {
      if currentId.None? || currentId.value == "" || currentId.value !in pending {
        return false;
      }
      var id := currentId.value;
      var serial := pending[id];
      if futures[serial].Unresolved? {
        futures := futures[serial := Resolved(approve)];
        pending := pending - {id};
        currentId := None;
        return true;
      }
      return false;
    }

    /** `reset_yes_all`. */
    method ResetYesAll()
      requires Valid()
      modifies this
      ensures Valid() && !yesAll
      ensures futures == old(futures) && pending == old(pending)
      ensures currentId == old(currentId) && sent == old(sent)
    {
      yesAll := false;
    }
  }
}
