/** `Butler._on_message`: the gates an inbound message passes, in order (authorisation,
    dedup, rate limit, approval reply), before it is handed to background processing; and
    `_get_approver`, the per-sender approval manager cache. Channels are named by their
    `channel_name`; sending is recorded in `outbox`, spawning a processing task in `spawned`. */
module Gate {
  import opened Wrappers
  import opened Classifier
  import opened Approval
  import opened Auth
  import opened RateLimiting

  const SeenLimit: nat := 1000
  const SeenKeep: nat := 500

  const ThrottleNotice: string := "⚠️ You're sending messages too fast. Please slow down."

  /** An inbound message; an empty `messageId` stands for a missing one. */
  datatype Inbound = Inbound(channel: string, senderId: string, text: string, messageId: string)

  datatype Outbound = Outbound(channel: string, recipientId: string, text: string)

  /** Where `_on_message` stopped with the message. */
  datatype Verdict = Unauthorized | Duplicate | Throttled | ApprovalReply | Spawned

  /** A set has subsets of every size up to its own. */
  lemma {:induction false} SubsetOfSize(s: set<string>, n: nat)
    requires n <= |s|
    ensures exists t: set<string> :: t <= s && |t| == n
    decreases n
  {
    if n == 0 {
      var e: set<string> := {};
      assert e <= s && |e| == 0;
    } else {
      var x :| x in s;
      SubsetOfSize(s - {x}, n - 1);
      var t: set<string> :| t <= s - {x} && |t| == n - 1;
      assert x !in t;
      assert t + {x} <= s && |t + {x}| == n;
    }
  }

  /** The throttle notices: one per channel whose name is the message's channel. */
  function ThrottleNotices(channels: seq<string>, msg: Inbound): (r: seq<Outbound>)
    ensures |r| <= |channels|
    ensures forall k :: 0 <= k < |r| ==> r[k] == Outbound(msg.channel, msg.senderId, ThrottleNotice)
    ensures msg.channel !in channels ==> r == []
  {
    if channels == [] then []
    else
      ThrottleNotices(channels[..|channels| - 1], msg)
      + (if channels[|channels| - 1] == msg.channel then [Outbound(msg.channel, msg.senderId, ThrottleNotice)] else [])
  }

  class Butler {
    const guard: AuthGuard
    const limiter: RateLimiter
    const channels: seq<string>
    const approvalTimeout: real
    var seenIds: set<string>
    var userChannels: map<string, (string, string)>
    var approvers: map<string, ApprovalManager>
    var outbox: seq<Outbound>
    var spawned: seq<Inbound>

    ghost predicate Valid()
      reads this, limiter, approvers.Values
    {
      && limiter.Valid()
      && |seenIds| <= SeenLimit
      && forall a :: a in approvers.Values ==> a.Valid()
    }

    constructor (guard: AuthGuard, limiter: RateLimiter, channels: seq<string>, approvalTimeout: real)
      requires limiter.Valid()
      ensures Valid()
      ensures this.guard == guard && this.limiter == limiter && this.channels == channels
      ensures this.approvalTimeout == approvalTimeout
      ensures seenIds == {} && userChannels == map[] && approvers == map[] && outbox == [] && spawned == []
    {
      this.guard := guard;
      this.limiter := limiter;
      this.channels := channels;
      this.approvalTimeout := approvalTimeout;
      seenIds, userChannels, approvers, outbox, spawned := {}, map[], map[], [], [];
    }

    /** `_get_approver`: the sender's manager, created on first use with the configured
        timeout and the default auto-approve level. */
    method GetApprover(sender: string) returns (a: ApprovalManager)
      requires Valid()
      modifies this
      ensures Valid() && a.Valid() && sender in approvers && approvers[sender] == a
      ensures sender in old(approvers) ==> a == old(approvers[sender]) && approvers == old(approvers)
      ensures sender !in old(approvers) ==>
        && fresh(a) && approvers == old(approvers)[sender := a]
        && a.timeout == approvalTimeout && a.autoApproveBelow == Low
        && a.futures == [] && a.pending == map[] && a.currentId == None && !a.yesAll && a.sent == []
      ensures seenIds == old(seenIds) && userChannels == old(userChannels)
      ensures outbox == old(outbox) && spawned == old(spawned)
    {
      if sender in approvers {
        return approvers[sender];
      }
      a := new ApprovalManager(approvalTimeout, Low);
      approvers := approvers[sender := a];
    }

    /** The dedup bookkeeping: a new id is added, and a set grown past `SeenLimit` is replaced
        by `SeenKeep` of its elements. */
    method RecordSeen(id: string)
      requires Valid() && id != ""
      modifies this
      ensures Valid()
      ensures |old(seenIds) + {id}| <= SeenLimit ==> seenIds == old(seenIds) + {id}
      ensures |old(seenIds) + {id}| > SeenLimit ==> seenIds <= old(seenIds) + {id} && |seenIds| == SeenKeep
      ensures userChannels == old(userChannels) && approvers == old(approvers)
      ensures outbox == old(outbox) && spawned == old(spawned)
    {
      seenIds := seenIds + {id};
      if |seenIds| > SeenLimit {
        SubsetOfSize(seenIds, SeenKeep);
        var kept: set<string> :| kept <= seenIds && |kept| == SeenKeep;
        seenIds := kept;
      }
    }

    /** The throttle loop: a notice on every channel with the message's channel name. */
    method SendThrottleNotices(msg: Inbound)
      modifies this
      ensures outbox == old(outbox) + ThrottleNotices(channels, msg)
      ensures seenIds == old(seenIds) && userChannels == old(userChannels)
      ensures approvers == old(approvers) && spawned == old(spawned) && limiter.buckets == old(limiter.buckets)
    {
      var i := 0;
      while i < |channels|
        invariant 0 <= i <= |channels|
        invariant outbox == old(outbox) + ThrottleNotices(channels[..i], msg)
        invariant seenIds == old(seenIds) && userChannels == old(userChannels)
        invariant approvers == old(approvers) && spawned == old(spawned)
      {
        assert channels[..i + 1][..i] == channels[..i];
        if channels[i] == msg.channel {
          outbox := outbox + [Outbound(msg.channel, msg.senderId, ThrottleNotice)];
        }
        i := i + 1;
      }
      assert channels[..i] == channels;
    }

    /** The last stage of `_on_message`, for an admitted message: the sender's reply route is
        remembered; a non-empty text while the sender has a pending request goes to
        `handle_reply`, and only a text it does not consume is spawned for processing. */
    method Deliver(msg: Inbound) returns (v: Verdict)
      requires Valid()
      modifies this, if msg.senderId in approvers then {approvers[msg.senderId]} else {}
      ensures Valid()
      ensures v == ApprovalReply || v == Spawned
      ensures seenIds == old(seenIds) && outbox == old(outbox)
      ensures userChannels == old(userChannels)[msg.senderId := (msg.channel, msg.senderId)]
      ensures msg.senderId in approvers
      ensures msg.senderId in old(approvers) ==> approvers == old(approvers)
      ensures msg.senderId !in old(approvers) ==> Created(msg.senderId)
      ensures v == ApprovalReply <==> old(ReplyTaken(msg))
      ensures v == ApprovalReply ==>
        && spawned == old(spawned) && msg.senderId in old(approvers)
        && RepliedTo(old(approvers[msg.senderId].State()), approvers[msg.senderId].State(), msg.text)
      ensures v == Spawned ==>
        && spawned == old(spawned) + [msg]
        && (msg.senderId in old(approvers) ==> unchanged(approvers[msg.senderId]))
    {
      userChannels := userChannels[msg.senderId := (msg.channel, msg.senderId)];
      var approver := GetApprover(msg.senderId);
      if approver.HasPending() && msg.text != "" {
        var consumed := approver.HandleReply(msg.text);
        if consumed {
          return ApprovalReply;
        }
      }
      spawned := spawned + [msg];
      return Spawned;
    }

    /** Whether `_on_message` treats `msg` as an approval reply: its sender already has a
        manager with a pending request, the text is not empty, and `handle_reply` takes it. */
    ghost predicate ReplyTaken(msg: Inbound)
      reads this, approvers.Values
    {
      && msg.senderId in approvers && msg.text != ""
      && approvers[msg.senderId].HasPending() && Consumes(approvers[msg.senderId].State(), msg.text)
    }

    /** `sender` got a new manager, in the state `_get_approver` creates it in, and no other
        entry of `approvers` changed. */
    twostate predicate Created(sender: string)
      reads this, approvers.Values
    {
      && sender in approvers
      && var a := approvers[sender];
      && fresh(a) && approvers == old(approvers)[sender := a]
      && a.timeout == approvalTimeout && a.autoApproveBelow == Low
      && a.futures == [] && a.pending == map[] && a.currentId == None && !a.yesAll && a.sent == []
    }

    /** The rate-limit stage of `_on_message`: a refused message draws the throttle notice. */
    method Throttle(msg: Inbound, now: real) returns (v: Verdict)
      requires Valid() && limiter.NotAfter(now)
      modifies this, limiter, if msg.senderId in approvers then {approvers[msg.senderId]} else {}
      ensures Valid()
      ensures v == Throttled || v == ApprovalReply || v == Spawned
      ensures seenIds == old(seenIds)
      ensures limiter.buckets == old(limiter.buckets)[msg.senderId :=
        Admit(BucketOf(old(limiter.buckets), msg.senderId), now, limiter.limit).1]
      ensures v == Throttled <==> !Admit(BucketOf(old(limiter.buckets), msg.senderId), now, limiter.limit).0
      ensures v == Throttled ==>
        && outbox == old(outbox) + ThrottleNotices(channels, msg)
        && userChannels == old(userChannels) && approvers == old(approvers) && spawned == old(spawned)
        && (msg.senderId in approvers ==> unchanged(approvers[msg.senderId]))
      ensures v != Throttled ==>
        && userChannels == old(userChannels)[msg.senderId := (msg.channel, msg.senderId)]
        && msg.senderId in approvers
        && (msg.senderId in old(approvers) ==> approvers == old(approvers))
        && (msg.senderId !in old(approvers) ==> Created(msg.senderId))
        && outbox == old(outbox)
        && (v == ApprovalReply <==> old(ReplyTaken(msg)))
      ensures v == ApprovalReply ==>
        && spawned == old(spawned) && msg.senderId in old(approvers)
        && RepliedTo(old(approvers[msg.senderId].State()), approvers[msg.senderId].State(), msg.text)
      ensures v == Spawned ==>
        && spawned == old(spawned) + [msg]
        && (msg.senderId in old(approvers) ==> unchanged(approvers[msg.senderId]))
    {
      var allowed := limiter.IsAllowed(msg.senderId, now);
      assert msg.senderId in approvers ==>
        approvers[msg.senderId].State() == old(approvers[msg.senderId].State());
      assert ReplyTaken(msg) == old(ReplyTaken(msg));
      if !allowed {
        SendThrottleNotices(msg);
        v := Throttled;
      } else {
        v := Deliver(msg);
      }
    }

    /** `_on_message`: authorisation, then dedup on the message id, then the rate limit, then
        the approval reply check. */
    method OnMessage(msg: Inbound, now: real) returns (v: Verdict)
      requires Valid() && limiter.NotAfter(now)
      modifies this, limiter, if msg.senderId in approvers then {approvers[msg.senderId]} else {}
      ensures Valid()
      ensures v == Unauthorized <==> !IsAuthorized(guard, msg.channel, msg.senderId)
      ensures v == Duplicate <==>
        IsAuthorized(guard, msg.channel, msg.senderId) && msg.messageId != "" && msg.messageId in old(seenIds)
      ensures v == Unauthorized || v == Duplicate ==>
        && seenIds == old(seenIds) && limiter.buckets == old(limiter.buckets)
        && userChannels == old(userChannels) && approvers == old(approvers)
        && outbox == old(outbox) && spawned == old(spawned)
        && (msg.senderId in approvers ==> unchanged(approvers[msg.senderId]))
      ensures v != Unauthorized && v != Duplicate ==>
        && (msg.messageId == "" ==> seenIds == old(seenIds))
        && (msg.messageId != "" && |old(seenIds) + {msg.messageId}| <= SeenLimit ==>
              seenIds == old(seenIds) + {msg.messageId})
        && (msg.messageId != "" && |old(seenIds) + {msg.messageId}| > SeenLimit ==>
              seenIds <= old(seenIds) + {msg.messageId} && |seenIds| == SeenKeep)
        && limiter.buckets == old(limiter.buckets)[msg.senderId :=
             Admit(BucketOf(old(limiter.buckets), msg.senderId), now, limiter.limit).1]
        && (v == Throttled <==> !Admit(BucketOf(old(limiter.buckets), msg.senderId), now, limiter.limit).0)
      ensures v == Throttled ==>
        && outbox == old(outbox) + ThrottleNotices(channels, msg)
        && userChannels == old(userChannels) && approvers == old(approvers) && spawned == old(spawned)
        && (msg.senderId in approvers ==> unchanged(approvers[msg.senderId]))
      ensures v == ApprovalReply || v == Spawned ==>
        && userChannels == old(userChannels)[msg.senderId := (msg.channel, msg.senderId)]
        && msg.senderId in approvers
        && (msg.senderId in old(approvers) ==> approvers == old(approvers))
        && (msg.senderId !in old(approvers) ==> Created(msg.senderId))
        && outbox == old(outbox)
        && (v == ApprovalReply <==> old(ReplyTaken(msg)))
      ensures v == ApprovalReply ==>
        && spawned == old(spawned) && msg.senderId in old(approvers)
        && RepliedTo(old(approvers[msg.senderId].State()), approvers[msg.senderId].State(), msg.text)
      ensures v == Spawned ==>
        && spawned == old(spawned) + [msg]
        && (msg.senderId in old(approvers) ==> unchanged(approvers[msg.senderId]))
    {
      if !IsAuthorized(guard, msg.channel, msg.senderId) {
        return Unauthorized;
      }
      if msg.messageId != "" && msg.messageId in seenIds {
        return Duplicate;
      }
      if msg.messageId != "" {
        RecordSeen(msg.messageId);
      }
      assert approvers == old(approvers);
      assert msg.senderId in approvers ==>
        approvers[msg.senderId].State() == old(approvers[msg.senderId].State());
      assert ReplyTaken(msg) == old(ReplyTaken(msg));
      v := Throttle(msg, now);
    }
  }
}
