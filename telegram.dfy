/** `TelegramChannel.send`: an attachment goes out as one document with a shortened caption;
    otherwise the text goes out in pieces of at most 4096 characters. The bot calls are
    returned in order instead of being made; whether the attachment exists on disk is a
    parameter. */
module Telegram {
  import opened Wrappers
  import opened Text

  const ChunkSize: nat := 4096
  const CaptionLimit: nat := 1024
  const NotStarted: string := "RuntimeError: TelegramChannel not started"

  /** A message to send; an empty `mediaPath` stands for no attachment. */
  datatype OutboundMessage = OutboundMessage(recipientId: string, text: string, mediaPath: string)

  datatype BotCall =
    | SendDocument(chatId: int, document: string, caption: Option<string>)
    | SendMessage(chatId: int, text: string)

  /** `len(range(0, max(n, 1), ChunkSize))`. */
  function ChunkCount(n: nat): nat {
    var m := if n > 1 then n else 1;
    (m + ChunkSize - 1) / ChunkSize
  }

  /** The count is the ceiling of `max(n, 1) / ChunkSize`: enough chunks to cover the text and
      one fewer would not be; so there is always at least one. */
  lemma ChunkCountIsCeiling(n: nat)
    ensures var m := if n > 1 then n else 1;
      && ChunkCount(n) >= 1
      && ChunkCount(n) * ChunkSize >= m
      && (ChunkCount(n) - 1) * ChunkSize < m
  {
  }

  /** `s[i:j]` for `0 <= i`: both ends are cut back to the length. */
  function Slice(s: string, i: nat, j: nat): (r: string)
    ensures |r| <= j - i || (i > j && r == [])
  {
    var a := if i < |s| then i else |s|;
    var b := if j < |s| then j else |s|;
    if a <= b then s[a..b] else []
  }

  /** The chunk list of `send`: the k-th chunk is `text[k*4096:(k+1)*4096]`. */
  function Chunks(text: string): (r: seq<string>)
    ensures |r| == ChunkCount(|text|)
    ensures forall k :: 0 <= k < |r| ==> |r[k]| <= ChunkSize
  {
    seq(ChunkCount(|text|), k requires 0 <= k < ChunkCount(|text|) =>
      Slice(text, k * ChunkSize, k * ChunkSize + ChunkSize))
  }

  lemma ChunkAt(text: string, k: nat)
    requires k < ChunkCount(|text|)
    ensures k * ChunkSize <= |text| || (text == [] && k == 0)
    ensures Chunks(text)[k] == text[k * ChunkSize..if k * ChunkSize + ChunkSize < |text| then k * ChunkSize + ChunkSize else |text|]
      || (text == [] && Chunks(text)[k] == [])
  {
    ChunkCountIsCeiling(|text|);
  }

  /** `min(m * ChunkSize, len(text))`: where the first `m` chunks end. */
  function Cut(text: string, m: nat): (c: nat)
    ensures c <= |text|
  {
    if m * ChunkSize < |text| then m * ChunkSize else |text|
  }

  /** The `k`-th chunk is the text between the `k`-th and the next cut. */
  lemma ChunkIsCut(text: string, k: nat)
    requires k < ChunkCount(|text|)
    ensures Cut(text, k) <= Cut(text, k + 1) && Chunks(text)[k] == text[Cut(text, k)..Cut(text, k + 1)]
  {
    assert (k + 1) * ChunkSize == k * ChunkSize + ChunkSize;
  }

  /** The first `m` chunks joined give the text up to `m * ChunkSize`. */
  lemma {:induction false} JoinedPrefix(text: string, m: nat)
    requires m <= ChunkCount(|text|)
    ensures Join("", Chunks(text)[..m]) == text[..Cut(text, m)]
  {
    var c := Chunks(text);
    if m == 0 {
      assert c[..0] == [];
    } else if m == 1 {
      ChunkIsCut(text, 0);
      assert c[..1] == [c[0]];
    } else {
      JoinedPrefix(text, m - 1);
      ChunkIsCut(text, m - 1);
      assert c[..m][..m - 1] == c[..m - 1];
      assert Join("", c[..m]) == Join("", c[..m - 1]) + "" + c[m - 1];
      PrefixThenSlice(text, Cut(text, m - 1), Cut(text, m));
    }
  }

  lemma PrefixThenSlice(text: string, lo: nat, hi: nat)
    requires lo <= hi <= |text|
    ensures text[..lo] + "" + text[lo..hi] == text[..hi]
  {
  }

  /** The chunks joined give back exactly the text. */
  lemma ChunksJoinToText(text: string)
    ensures Join("", Chunks(text)) == text
  {
    var c := Chunks(text);
    ChunkCountIsCeiling(|text|);
    JoinedPrefix(text, |c|);
    assert c[..|c|] == c;
  }

  /** An empty text is sent as one empty message; a text that fits in one message is sent
      whole; every chunk but the last is full. */
  lemma ChunkShapes(text: string)
    ensures text == "" ==> Chunks(text) == [""]
    ensures |text| <= ChunkSize ==> Chunks(text) == [text]
    ensures forall k :: 0 <= k < |Chunks(text)| - 1 ==> |Chunks(text)[k]| == ChunkSize
  {
    ChunkCountIsCeiling(|text|);
    var c := Chunks(text);
    if |text| <= ChunkSize {
      ChunkAt(text, 0);
      assert text[0..|text|] == text;
      assert c == [c[0]];
    }
    forall k | 0 <= k < |c| - 1 ensures |c[k]| == ChunkSize {
      ChunkAt(text, k);
    }
  }

  /** The caption of a document: `text[:CaptionLimit] or None`. */
  function Caption(text: string): (c: Option<string>)
    ensures c.None? <==> text == ""
    ensures c.Some? ==> c.value <= text && |c.value| <= CaptionLimit
    ensures |text| <= CaptionLimit && text != "" ==> c == Some(text)
  {
    var head := Head(text, CaptionLimit);
    if head == "" then None else Some(head)
  }

  /** One `send_message` per chunk, in order. */
  function Messages(chatId: int, chunks: seq<string>): (r: seq<BotCall>)
    ensures |r| == |chunks|
    ensures forall k :: 0 <= k < |r| ==> r[k] == SendMessage(chatId, chunks[k])
  {
    seq(|chunks|, k requires 0 <= k < |chunks| => SendMessage(chatId, chunks[k]))
  }

  const BadChatId: string := "ValueError: invalid literal for int() with base 10: "

  /** `send`: refused before `start`; the recipient id is read with `int()`; an existing
      attachment is sent as a document with the start of the text as caption and nothing
      else; otherwise one message per chunk. */
  function Send(started: bool, msg: OutboundMessage, fileExists: string -> bool): (r: Result<seq<BotCall>>)
    ensures !started ==> r == Failure(NotStarted)
    ensures started && ParseInt(msg.recipientId).None? ==> r == Failure(BadChatId + Repr(msg.recipientId))
    ensures r.Success? <==> started && ParseInt(msg.recipientId).Some?
    ensures r.Success? && msg.mediaPath != "" && fileExists(msg.mediaPath) ==>
      r.value == [SendDocument(ParseInt(msg.recipientId).value, msg.mediaPath, Caption(msg.text))]
    ensures r.Success? && !(msg.mediaPath != "" && fileExists(msg.mediaPath)) ==>
      r.value == Messages(ParseInt(msg.recipientId).value, Chunks(msg.text))
  {
    if !started then Failure(NotStarted)
    else match ParseInt(msg.recipientId)
      case None => Failure(BadChatId + Repr(msg.recipientId))
      case Some(chatId) =>
        if msg.mediaPath != "" && fileExists(msg.mediaPath) then
          Success([SendDocument(chatId, msg.mediaPath, Caption(msg.text))])
        else Success(Messages(chatId, Chunks(msg.text)))
  }

  /** The texts of a list of `send_message` calls. */
  function MessageBodies(calls: seq<BotCall>): (r: seq<string>)
    requires forall k :: 0 <= k < |calls| ==> calls[k].SendMessage?
    ensures |r| == |calls| && forall k :: 0 <= k < |r| ==> r[k] == calls[k].text
  {
    seq(|calls|, k requires 0 <= k < |calls| => calls[k].text)
  }

  /** The texts of the messages `send` makes join back to the text it was given, at least one
      message is made, and none is over the limit. */
  lemma SentTextsJoinToText(msg: OutboundMessage, fileExists: string -> bool)
    requires ParseInt(msg.recipientId).Some?
    requires msg.mediaPath == "" || !fileExists(msg.mediaPath)
    ensures var calls := Send(true, msg, fileExists).value;
      && |calls| >= 1
      && (forall k :: 0 <= k < |calls| ==> calls[k].SendMessage? && |calls[k].text| <= ChunkSize)
      && Join("", MessageBodies(calls)) == msg.text
  {
    var c := Chunks(msg.text);
    MessageTexts(ParseInt(msg.recipientId).value, c);
    ChunksJoinToText(msg.text);
    SomeChunk(msg.text);
  }

  lemma SomeChunk(text: string)
    ensures |Chunks(text)| >= 1
  {
    ChunkCountIsCeiling(|text|);
  }

  lemma MessageTexts(chatId: int, chunks: seq<string>)
    ensures MessageBodies(Messages(chatId, chunks)) == chunks
  {
  }
}
