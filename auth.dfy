/** `AuthGuard`: the Telegram id and WhatsApp phone allowlists. */
module Auth {
  import opened Text
  import opened Values

  datatype AuthGuard = AuthGuard(telegram: set<string>, whatsapp: set<string>)

  /** `_normalize_phone`: surrounding whitespace removed, "+" put in front when missing. */
  function NormalizePhone(phone: string): (r: string)
    ensures StartsWith(r, "+")
    ensures r == Strip(phone) || r == "+" + Strip(phone)
    ensures StartsWith(Strip(phone), "+") <==> r == Strip(phone)
  {
    var p := Strip(phone);
    if StartsWith(p, "+") then p else "+" + p
  }

  /** A normalised phone number is left as it is by normalising again. */
  lemma NormalizePhoneIdempotent(phone: string)
    ensures NormalizePhone(NormalizePhone(phone)) == NormalizePhone(phone)
  {
    var p := Strip(phone);
    if StartsWith(p, "+") {
      NormalizeStripped(p);
    } else {
      PlusKeepsStripped(p);
      NormalizeStripped("+" + p);
      assert ("+" + p)[..1] == "+";
    }
  }

  lemma PlusKeepsStripped(p: string)
    requires IsStripped(p)
    ensures IsStripped("+" + p)
  {
    var q := "+" + p;
    assert q[0] == '+';
    if p != [] {
      assert q[|q| - 1] == p[|p| - 1];
    }
  }

  lemma NormalizeStripped(p: string)
    requires IsStripped(p)
    ensures NormalizePhone(p) == if StartsWith(p, "+") then p else "+" + p
  {
    StripOfStripped(p);
  }

  lemma NormalizeUnsigned(digits: string)
    requires IsStripped(digits) && !StartsWith(digits, "+")
    ensures NormalizePhone(digits) == "+" + digits
  {
    NormalizeStripped(digits);
  }

  lemma NormalizeSigned(digits: string)
    requires IsStripped("+" + digits)
    ensures NormalizePhone("+" + digits) == "+" + digits
  {
    var q := "+" + digits;
    NormalizeStripped(q);
    assert q[..1] == "+";
  }

  /** A number written with or without its "+" is the same number. */
  lemma PlusIsOptional(digits: string)
    requires IsStripped(digits) && !StartsWith(digits, "+")
    ensures NormalizePhone("+" + digits) == NormalizePhone(digits)
  {
    NormalizeUnsigned(digits);
    PlusKeepsStripped(digits);
    NormalizeSigned(digits);
  }

  /** The guard built from the configured lists: Telegram ids as `str(uid)`, phones normalised. */
  function MakeGuard(telegramIds: seq<Value>, phones: seq<string>): (g: AuthGuard)
    ensures forall i :: 0 <= i < |telegramIds| ==> Show(telegramIds[i]) in g.telegram
    ensures forall i :: 0 <= i < |phones| ==> NormalizePhone(phones[i]) in g.whatsapp
    ensures forall s :: s in g.telegram ==> exists i :: 0 <= i < |telegramIds| && Show(telegramIds[i]) == s
    ensures forall s :: s in g.whatsapp ==> exists i :: 0 <= i < |phones| && NormalizePhone(phones[i]) == s
  {
    AuthGuard(set i | 0 <= i < |telegramIds| :: Show(telegramIds[i]),
              set i | 0 <= i < |phones| :: NormalizePhone(phones[i]))
  }

  function IsAuthorizedTelegram(g: AuthGuard, userId: Value): bool {
    Show(userId) in g.telegram
  }

  function IsAuthorizedWhatsapp(g: AuthGuard, phone: string): bool {
    NormalizePhone(phone) in g.whatsapp
  }

  /** `is_authorized`: by channel; any other channel is refused. */
  function IsAuthorized(g: AuthGuard, channel: string, senderId: string): (ok: bool)
    ensures channel != "telegram" && channel != "whatsapp" ==> !ok
  {
    if channel == "telegram" then IsAuthorizedTelegram(g, Str(senderId))
    else if channel == "whatsapp" then IsAuthorizedWhatsapp(g, senderId)
    else false
  }

  /** A Telegram sender is authorised exactly when its id, as text, is on the list; a number
      on the list authorises the sender whose id is that number written out. */
  lemma TelegramAllowlist(telegramIds: seq<Value>, phones: seq<string>, senderId: string)
    ensures IsAuthorized(MakeGuard(telegramIds, phones), "telegram", senderId)
        <==> exists i :: 0 <= i < |telegramIds| && Show(telegramIds[i]) == senderId
    ensures forall i :: 0 <= i < |telegramIds| && telegramIds[i].Int? ==>
        IsAuthorized(MakeGuard(telegramIds, phones), "telegram", IntToString(telegramIds[i].i))
  {
  }

  /** A WhatsApp sender is authorised exactly when its normalised number is the normalised
      form of a listed one; so "123" on the list authorises "+123" and " 123 ". */
  lemma WhatsappAllowlist(telegramIds: seq<Value>, phones: seq<string>, senderId: string)
    ensures IsAuthorized(MakeGuard(telegramIds, phones), "whatsapp", senderId)
        <==> exists i :: 0 <= i < |phones| && NormalizePhone(phones[i]) == NormalizePhone(senderId)
  {
    var g := MakeGuard(telegramIds, phones);
    assert IsAuthorized(g, "whatsapp", senderId) == (NormalizePhone(senderId) in g.whatsapp);
  }

  /** A listed number authorises every sender whose number normalises to the same text. */
  lemma ListedAuthorises(telegramIds: seq<Value>, listed: string, sender: string)
    requires NormalizePhone(listed) == NormalizePhone(sender)
    ensures IsAuthorized(MakeGuard(telegramIds, [listed]), "whatsapp", sender)
  {
    var g := MakeGuard(telegramIds, [listed]);
    assert [listed][0] == listed;
    assert NormalizePhone(listed) in g.whatsapp;
  }

  /** "123" on the list authorises "+123", and "+123" on the list authorises "123". */
  lemma PlusOnListOrSender(telegramIds: seq<Value>, digits: string)
    requires IsStripped(digits) && !StartsWith(digits, "+")
    ensures IsAuthorized(MakeGuard(telegramIds, [digits]), "whatsapp", "+" + digits)
    ensures IsAuthorized(MakeGuard(telegramIds, ["+" + digits]), "whatsapp", digits)
  {
    PlusIsOptional(digits);
    ListedAuthorises(telegramIds, digits, "+" + digits);
    ListedAuthorises(telegramIds, "+" + digits, digits);
  }
}
