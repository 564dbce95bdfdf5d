/** `ConversationHistory`: conversations and their messages, kept in the `conversations` and
    `messages` tables, with token-budget truncation when a conversation is loaded. The two
    tables are in-memory sequences in insertion order, and `load`'s `ORDER BY created_at` is
    a stable sort of the selected rows; the JSON text of a message's content
    is the `Value` it encodes. */
module History {
  import opened Wrappers
  import opened Values

  /** `SESSION_WINDOW`: a conversation active in the last 24 hours is reused. */
  const SessionWindow: real := (24 * 3600) as real

  datatype Conversation = Conversation(
    id: string, channel: string, senderId: string, createdAt: real, lastActive: real)

  /** A row of `messages`: `tokens` is the stored `_tokens` count. */
  datatype StoredMessage = StoredMessage(
    conversationId: string, role: string, content: Value, tokens: int, createdAt: real)

  /** A message as `load` returns it: the `_tokens` entry removed. */
  datatype Message = Message(role: string, content: Value)

  /** The rows of conversation `convId`, in table order (the `WHERE conversation_id=?`). */
  function Selected(rows: seq<StoredMessage>, convId: string): (r: seq<StoredMessage>)
    ensures |r| <= |rows|
    ensures forall m :: m in r <==> m in rows && m.conversationId == convId
  {
    if rows == [] then []
    else
      var front := Selected(rows[..|rows| - 1], convId);
      var last := rows[|rows| - 1];
      assert rows == rows[..|rows| - 1] + [last];
      if last.conversationId == convId then front + [last] else front
  }

  /** Rows in `ORDER BY created_at` order. */
  predicate ByTime(rows: seq<StoredMessage>) {
    forall i, j :: 0 <= i < j < |rows| ==> rows[i].createdAt <= rows[j].createdAt
  }

  /** `m` placed after every row of `rows` created no later than it. */
  function InsertByTime(rows: seq<StoredMessage>, m: StoredMessage): (r: seq<StoredMessage>)
    ensures multiset(r) == multiset(rows) + multiset{m}
  {
    if rows == [] || rows[|rows| - 1].createdAt <= m.createdAt then rows + [m]
    else
      var front := rows[..|rows| - 1];
      assert rows == front + [rows[|rows| - 1]];
      InsertByTime(front, m) + [rows[|rows| - 1]]
  }

  /** Every row of `rows` created no later than `t`. */
  predicate NoLaterThan(rows: seq<StoredMessage>, t: real) {
    forall i :: 0 <= i < |rows| ==> rows[i].createdAt <= t
  }

  lemma ByTimeSnoc(rows: seq<StoredMessage>, m: StoredMessage)
    requires ByTime(rows) && NoLaterThan(rows, m.createdAt)
    ensures ByTime(rows + [m])
  {
    var r := rows + [m];
    forall i, j | 0 <= i < j < |r|
      ensures r[i].createdAt <= r[j].createdAt
    {
      assert r[i] == rows[i];
      if j < |rows| {
        assert r[j] == rows[j];
      }
    }
  }

  lemma ByTimeFront(rows: seq<StoredMessage>)
    requires ByTime(rows) && rows != []
    ensures ByTime(rows[..|rows| - 1]) && NoLaterThan(rows[..|rows| - 1], rows[|rows| - 1].createdAt)
  {
    var front := rows[..|rows| - 1];
    forall i, j | 0 <= i < j < |front|
      ensures front[i].createdAt <= front[j].createdAt
    {
      assert front[i] == rows[i] && front[j] == rows[j];
    }
    forall i | 0 <= i < |front|
      ensures front[i].createdAt <= rows[|rows| - 1].createdAt
    {
      assert front[i] == rows[i];
    }
  }

  /** Inserting a row no later than `t` among rows no later than `t` gives rows no later
      than `t`. */
  lemma {:induction false} InsertNoLater(rows: seq<StoredMessage>, m: StoredMessage, t: real)
    requires NoLaterThan(rows, t) && m.createdAt <= t
    ensures NoLaterThan(InsertByTime(rows, m), t)
  {
    var r := InsertByTime(rows, m);
    if rows == [] || rows[|rows| - 1].createdAt <= m.createdAt {
      forall i | 0 <= i < |r|
        ensures r[i].createdAt <= t
      {
        if i < |rows| {
          assert r[i] == rows[i];
        }
      }
    } else {
      var front := rows[..|rows| - 1];
      var inserted := InsertByTime(front, m);
      forall i | 0 <= i < |front|
        ensures front[i].createdAt <= t
      {
        assert front[i] == rows[i];
      }
      InsertNoLater(front, m, t);
      assert r == inserted + [rows[|rows| - 1]];
      forall i | 0 <= i < |r|
        ensures r[i].createdAt <= t
      {
        if i < |inserted| {
          assert r[i] == inserted[i];
        }
      }
    }
  }

  /** Insertion keeps rows in creation order. */
  lemma {:induction false} InsertKeepsOrder(rows: seq<StoredMessage>, m: StoredMessage)
    requires ByTime(rows)
    ensures ByTime(InsertByTime(rows, m))
  {
    if rows == [] {
      ByTimeSnoc(rows, m);
    } else {
      var front := rows[..|rows| - 1];
      var last := rows[|rows| - 1];
      ByTimeFront(rows);
      if last.createdAt <= m.createdAt {
        forall i | 0 <= i < |rows|
          ensures rows[i].createdAt <= m.createdAt
        {
          if i < |front| {
            assert rows[i] == front[i];
          }
        }
        ByTimeSnoc(rows, m);
      } else {
        InsertKeepsOrder(front, m);
        InsertNoLater(front, m, last.createdAt);
        ByTimeSnoc(InsertByTime(front, m), last);
      }
    }
  }

  /** A stable sort of `rows` by `created_at`: rows created at the same time stay in table
      order. */
  function SortByTime(rows: seq<StoredMessage>): (r: seq<StoredMessage>)
    ensures multiset(r) == multiset(rows)
    ensures ByTime(r)
  {
    if rows == [] then []
    else
      var front := rows[..|rows| - 1];
      assert rows == front + [rows[|rows| - 1]];
      InsertKeepsOrder(SortByTime(front), rows[|rows| - 1]);
      InsertByTime(SortByTime(front), rows[|rows| - 1])
  }

  /** `SELECT ... WHERE conversation_id=? ORDER BY created_at`: every row of conversation
      `convId` and no other, each as often as it is stored, in creation order. */
  function ConversationRows(rows: seq<StoredMessage>, convId: string): (r: seq<StoredMessage>)
    ensures multiset(r) == multiset(Selected(rows, convId))
    ensures forall m :: m in r <==> m in rows && m.conversationId == convId
    ensures ByTime(r)
  {
    var s := Selected(rows, convId);
    var r := SortByTime(s);
    assert forall m :: m in r <==> m in multiset(s);
    r
  }

  /** A row created no earlier than every stored row of its conversation (as `time.time()`
      gives when the clock does not go back) is loaded last. */
  lemma AppendedRowIsLast(rows: seq<StoredMessage>, m: StoredMessage)
    requires forall i :: 0 <= i < |rows| && rows[i].conversationId == m.conversationId ==>
      rows[i].createdAt <= m.createdAt
    ensures ConversationRows(rows + [m], m.conversationId)
         == ConversationRows(rows, m.conversationId) + [m]
  {
    var id := m.conversationId;
    assert (rows + [m])[..|rows|] == rows;
    var sorted := SortByTime(Selected(rows, id));
    if sorted != [] {
      var last := sorted[|sorted| - 1];
      assert last in multiset(Selected(rows, id));
      assert last in rows;
    }
  }

  /** A row created before every stored row of its conversation (the clock went back) is
      loaded first, although it was appended last. */
  lemma AppendedEarlierComesFirst(rows: seq<StoredMessage>, m: StoredMessage)
    requires forall i :: 0 <= i < |rows| && rows[i].conversationId == m.conversationId ==>
      m.createdAt < rows[i].createdAt
    ensures ConversationRows(rows + [m], m.conversationId)
         == [m] + ConversationRows(rows, m.conversationId)
  {
    var id := m.conversationId;
    assert (rows + [m])[..|rows|] == rows;
    var sorted := SortByTime(Selected(rows, id));
    forall x | x in sorted
      ensures m.createdAt < x.createdAt
    {
      assert x in multiset(Selected(rows, id));
    }
    InsertBeforeAll(sorted, m);
  }

  /** Inserting a row created before all others puts it in front. */
  lemma {:induction false} InsertBeforeAll(rows: seq<StoredMessage>, m: StoredMessage)
    requires forall x :: x in rows ==> m.createdAt < x.createdAt
    ensures InsertByTime(rows, m) == [m] + rows
  {
    if rows != [] {
      var front := rows[..|rows| - 1];
      assert rows == front + [rows[|rows| - 1]];
      InsertBeforeAll(front, m);
    }
  }

  /** Appending a row leaves every other conversation's rows as they were. */
  lemma AppendedRowElsewhere(rows: seq<StoredMessage>, m: StoredMessage, convId: string)
    requires m.conversationId != convId
    ensures ConversationRows(rows + [m], convId) == ConversationRows(rows, convId)
  {
    assert (rows + [m])[..|rows|] == rows;
  }

  /** `sum(m["_tokens"] for m in rows)`. */
  function SumTokens(rows: seq<StoredMessage>): int {
    if rows == [] then 0 else SumTokens(rows[..|rows| - 1]) + rows[|rows| - 1].tokens
  }

  /** Where `messages[-keep_recent:]` starts, with Python's slice semantics: the last
      `keep_recent` rows for a positive count, every row for 0, and all but the first
      `-keep_recent` rows for a negative count. */
  function SplitPoint(n: nat, keepRecent: int): (p: nat)
    ensures p <= n
    ensures keepRecent > 0 ==> n - p == (if keepRecent < n then keepRecent else n)
    ensures keepRecent == 0 ==> p == 0
  {
    if keepRecent > 0 then (if keepRecent < n then n - keepRecent else 0)
    else if keepRecent == 0 then 0
    else if -keepRecent < n then -keepRecent else n
  }

  /** How many of `older` the newest-first walk keeps, starting with `remaining` tokens of
      budget: it stops at the first message it meets with no budget left. */
  function KeptCount(older: seq<StoredMessage>, remaining: int): (c: nat)
    ensures c <= |older|
  {
    if older == [] || remaining <= 0 then 0
    else 1 + KeptCount(older[..|older| - 1], remaining - older[|older| - 1].tokens)
  }

  /** The rows `load` keeps: the kept older rows, then the recent ones. */
  function Truncated(rows: seq<StoredMessage>, budget: int, keepRecent: int): (r: seq<StoredMessage>)
    ensures |r| <= |rows| && r == rows[|rows| - |r|..]
    ensures |rows| - SplitPoint(|rows|, keepRecent) <= |r|
  {
    var p := SplitPoint(|rows|, keepRecent);
    var c := KeptCount(rows[..p], budget - SumTokens(rows[p..]));
    assert rows[..p][p - c..] + rows[p..] == rows[p - c..];
    rows[..p][p - c..] + rows[p..]
  }

  function Untagged(rows: seq<StoredMessage>): (r: seq<Message>)
    ensures |r| == |rows|
    ensures forall i :: 0 <= i < |r| ==> r[i] == Message(rows[i].role, rows[i].content)
  {
    seq(|rows|, i requires 0 <= i < |rows| => Message(rows[i].role, rows[i].content))
  }

  /** The last `keep_recent` rows are always loaded, verbatim and in order, whatever the budget. */
  lemma RecentAlwaysKept(rows: seq<StoredMessage>, budget: int, keepRecent: int)
    requires keepRecent >= 0
    ensures var r := Truncated(rows, budget, keepRecent);
      var k := if keepRecent < |rows| then keepRecent else |rows|;
      k <= |r| && r[|r| - k..] == rows[|rows| - k..]
  {
  }

  /** With `keep_recent = 0`, `messages[-0:]` is the whole list, so nothing is ever dropped. */
  lemma KeepRecentZeroKeepsAll(rows: seq<StoredMessage>, budget: int)
    ensures Truncated(rows, budget, 0) == rows
  {
  }

  /** The budget left after the newest `j` messages of `older` have been taken. */
  function RemainingAfter(older: seq<StoredMessage>, remaining: int, j: nat): int
    requires j <= |older|
  {
    remaining - SumTokens(older[|older| - j..])
  }

  /** The budget rule of the walk over `older`, newest first: every kept message had a
      positive remaining budget just before it was taken, and the walk stops at the first
      message for which the remaining budget is not positive. */
  lemma {:induction false} KeptCountBudget(older: seq<StoredMessage>, remaining: int)
    ensures var c := KeptCount(older, remaining);
      && (forall j :: 0 <= j < c ==> RemainingAfter(older, remaining, j) > 0)
      && (c < |older| ==> RemainingAfter(older, remaining, c) <= 0)
  {
    var c := KeptCount(older, remaining);
    var n := |older|;
    if older == [] || remaining <= 0 {
      assert older[n..] == [];
    } else {
      var front := older[..n - 1];
      var t := older[n - 1].tokens;
      KeptCountBudget(front, remaining - t);
      forall j | 0 <= j < c
        ensures RemainingAfter(older, remaining, j) > 0
      {
        if j > 0 {
          RemainingStep(older, remaining, j);
        } else {
          assert older[n..] == [];
        }
      }
      if c < n {
        RemainingStep(older, remaining, c);
      }
    }
  }

  /** Taking the newest message first and then `j - 1` more. */
  lemma RemainingStep(older: seq<StoredMessage>, remaining: int, j: nat)
    requires 0 < j <= |older|
    ensures RemainingAfter(older, remaining, j)
         == RemainingAfter(older[..|older| - 1], remaining - older[|older| - 1].tokens, j - 1)
  {
    var n := |older|;
    var s := older[n - j..];
    assert s[..|s| - 1] == older[..n - 1][n - 1 - (j - 1)..];
  }

  function StoredContent(content: Value): (v: Value)
    ensures content.Str? ==> v == List([Dict([("type", Str("text")), ("text", content)])])
    ensures !content.Str? ==> v == content
  {
    if content.Str? then List([Dict([("type", Str("text")), ("text", content)])]) else content
  }

  class ConversationHistory {
    const tokenBudget: int
    const keepRecent: int
    var conversations: seq<Conversation>
    var messages: seq<StoredMessage>

    /** `id` is the primary key of `conversations`. */
    ghost predicate Valid()
      reads this
    {
      forall i, j :: 0 <= i < j < |conversations| ==> conversations[i].id != conversations[j].id
    }

    constructor (tokenBudget: int, keepRecent: int, conversations: seq<Conversation>, messages: seq<StoredMessage>)
      ensures this.tokenBudget == tokenBudget && this.keepRecent == keepRecent
      ensures this.conversations == conversations && this.messages == messages
    {
      this.tokenBudget := tokenBudget;
      this.keepRecent := keepRecent;
      this.conversations := conversations;
      this.messages := messages;
    }

    /** `get_or_create`: the most recently active conversation of the sender on the channel,
        if it was active within the window (its `last_active` is bumped to `now`), or else a
        new conversation `newId` (the uuid) created now. */
    method GetOrCreate(channel: string, senderId: string, now: real, newId: string) returns (convId: string)
      requires Valid()
      requires forall i :: 0 <= i < |conversations| ==> conversations[i].id != newId
      modifies this
      ensures Valid() && messages == old(messages)
      ensures var best := MostRecent(old(conversations), channel, senderId, now - SessionWindow);
        if best.Some? then
          && convId == old(conversations)[best.value].id
          && conversations == old(conversations)[best.value := old(conversations)[best.value].(lastActive := now)]
        else
          && convId == newId
          && conversations == old(conversations) + [Conversation(newId, channel, senderId, now, now)]
    {
      var cutoff := now - SessionWindow;
      var best: Option<nat> := None;
      var i := 0;
      while i < |conversations|
        invariant 0 <= i <= |conversations|
        invariant best == MostRecent(conversations[..i], channel, senderId, cutoff)
      {
        var c := conversations[i];
        if Candidate(c, channel, senderId, cutoff) && (best.None? || conversations[best.value].lastActive < c.lastActive) {
          best := Some(i);
        }
        assert conversations[..i + 1][..i] == conversations[..i];
        i := i + 1;
      }
      assert conversations[..i] == conversations;
      if best.Some? {
        convId := conversations[best.value].id;
        conversations := conversations[best.value := conversations[best.value].(lastActive := now)];
      } else {
        convId := newId;
        conversations := conversations + [Conversation(newId, channel, senderId, now, now)];
      }
    }

    /** `load`: the conversation's rows after truncation, without their token counts. */
    method Load(convId: string) returns (result: seq<Message>)
      ensures result == Untagged(Truncated(ConversationRows(messages, convId), tokenBudget, keepRecent))
      ensures ConversationRows(messages, convId) == [] ==> result == []
    {
      var rows := ConversationRows(messages, convId);
      if rows == [] {
        return [];
      }
      result := TruncateRows(rows, tokenBudget, keepRecent);
    }

    /** `append`: one new row; a string is stored as a single text block. */
    method Append(convId: string, role: string, content: Value, tokens: int, now: real)
      modifies this
      ensures conversations == old(conversations)
      ensures messages == old(messages) + [StoredMessage(convId, role, StoredContent(content), tokens, now)]
    {
      messages := messages + [StoredMessage(convId, role, StoredContent(content), tokens, now)];
    }
  }

  /** The part of `load` after the query: the recent rows, the older rows the budget leaves
      room for, and the token counts dropped. */
  method TruncateRows(rows: seq<StoredMessage>, budget: int, keepRecent: int) returns (result: seq<Message>)
    ensures result == Untagged(Truncated(rows, budget, keepRecent))
  {
    var p := SplitPoint(|rows|, keepRecent);
    var recent := rows[p..];
    var older := rows[..p];
    var kept := KeepNewest(older, budget - SumTokens(recent));
    assert kept + recent == Truncated(rows, budget, keepRecent);
    result := DropTokens(kept + recent);
  }

  /** The loop of `load` over `reversed(older)`: each message is put in front of the kept
      ones and its tokens taken from the budget, until the budget is no longer positive. */
  method KeepNewest(older: seq<StoredMessage>, budget: int) returns (kept: seq<StoredMessage>)
    ensures kept == older[|older| - KeptCount(older, budget)..]
  {
    var remaining := budget;
    kept := [];
    var i := |older|;
    assert older[..i] == older;
    while i > 0
      invariant 0 <= i <= |older|
      invariant kept == older[i..]
      invariant KeptCount(older, budget) == |older| - i + KeptCount(older[..i], remaining)
    {
      if remaining <= 0 {
        break;
      }
      assert older[..i][..i - 1] == older[..i - 1];
      kept := [older[i - 1]] + kept;
      remaining := remaining - older[i - 1].tokens;
      i := i - 1;
    }
  }

  /** The loop of `load` that pops `_tokens` from every returned message. */
  method DropTokens(rows: seq<StoredMessage>) returns (result: seq<Message>)
    ensures result == Untagged(rows)
  {
    result := [];
    var j := 0;
    while j < |rows|
      invariant 0 <= j <= |rows|
      invariant result == Untagged(rows[..j])
    {
      result := result + [Message(rows[j].role, rows[j].content)];
      j := j + 1;
    }
    assert rows[..j] == rows;
  }

  predicate Candidate(c: Conversation, channel: string, senderId: string, cutoff: real) {
    c.channel == channel && c.senderId == senderId && c.lastActive > cutoff
  }

  /** The index of the conversation the `ORDER BY last_active DESC LIMIT 1` query returns:
      a candidate with the greatest `last_active` (the first such in table order). */
  function MostRecent(cs: seq<Conversation>, channel: string, senderId: string, cutoff: real): (r: Option<nat>)
    ensures r.None? <==> forall i :: 0 <= i < |cs| ==> !Candidate(cs[i], channel, senderId, cutoff)
    ensures r.Some? ==> r.value < |cs| && Candidate(cs[r.value], channel, senderId, cutoff)
    ensures r.Some? ==> forall i :: 0 <= i < |cs| && Candidate(cs[i], channel, senderId, cutoff) ==>
      cs[i].lastActive <= cs[r.value].lastActive
  {
    if cs == [] then None
    else
      var r := MostRecent(cs[..|cs| - 1], channel, senderId, cutoff);
      var last := cs[|cs| - 1];
      if Candidate(last, channel, senderId, cutoff) && (r.None? || cs[r.value].lastActive < last.lastActive)
      then Some(|cs| - 1)
      else r
  }

  /** A conversation last active exactly 24 hours ago is not reused. */
  lemma WindowIsStrict(c: Conversation, now: real)
    requires c.lastActive == now - SessionWindow
    ensures MostRecent([c], c.channel, c.senderId, now - SessionWindow).None?
  {
  }
}
