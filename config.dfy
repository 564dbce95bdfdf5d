/** The configuration: the YAML document as a `Value`, its `keychain:` references resolved
    through a lookup function, and the nested-key navigation with its default accessors. The
    Keychain command is not run: `Keychain` gives the stripped secret, or None when the
    lookup failed. */
module Configuration {
  import opened Wrappers
  import opened Text
  import opened Values

  /** `_KEYCHAIN_MARKER`. */
  const KeychainMarker: string := "keychain:"

  /** `_keychain_get(service, account)`. */
  type Keychain = (string, string) -> Option<string>

  /** `spec.split(":", 1)` with both parts stripped; without a ":" the account is the
      service. */
  function SplitSpec(spec: string): (r: (string, string))
    requires IsStripped(spec)
    ensures ':' !in spec ==> r == (spec, spec)
  {
    match IndexOf(spec, ':')
    case None =>
      StripOfStripped(spec);
      (spec, spec)
    case Some(k) => (Strip(spec[..k]), Strip(spec[k + 1..]))
  }

  /** With its first ":" at `i`, the spec splits there. */
  lemma SplitAtFirstColon(spec: string, i: nat)
    requires IsStripped(spec) && i < |spec| && spec[i] == ':' && ':' !in spec[..i]
    ensures SplitSpec(spec) == (Strip(spec[..i]), Strip(spec[i + 1..]))
  {
    FirstIndexUnique(spec, ':', IndexOf(spec, ':').value);
  }

  /** The (service, account) of a `keychain:` reference: the text after the marker,
      stripped, then split. */
  function ParseSpec(reference: string): (r: (string, string))
    requires StartsWith(reference, KeychainMarker)
  {
    SplitSpec(Strip(reference[|KeychainMarker|..]))
  }

  /** A reference built from a service and an account parses back to them, when neither has
      surrounding whitespace and the service has no ":". */
  lemma ParseSpecOfReference(service: string, account: string)
    requires service != [] && account != [] && IsStripped(service) && IsStripped(account) && ':' !in service
    ensures var reference := KeychainMarker + service + ":" + account;
      StartsWith(reference, KeychainMarker) && ParseSpec(reference) == (service, account)
  {
    var reference := KeychainMarker + service + ":" + account;
    var spec := service + ":" + account;
    assert reference[..|KeychainMarker|] == KeychainMarker;
    assert reference[|KeychainMarker|..] == spec;
    assert spec[0] == service[0] && spec[|spec| - 1] == account[|account| - 1];
    StripOfStripped(spec);
    assert spec[..|service|] == service && spec[|service|] == ':' && spec[|service| + 1..] == account;
    SplitAtFirstColon(spec, |service|);
    StripOfStripped(service);
    StripOfStripped(account);
  }

  lemma InPrefix(s: string, j: nat, n: nat)
    requires n <= |s|
    ensures j < n ==> s[j] in s[..n]
  {
    if j < n {
      assert s[..n][j] == s[j];
    }
  }

  /** There is only one first occurrence. */
  lemma FirstIndexUnique(s: string, c: char, k: nat)
    requires k < |s| && s[k] == c && c !in s[..k]
    ensures forall i :: 0 <= i < |s| && s[i] == c && c !in s[..i] ==> i == k
  {
    forall i | 0 <= i < |s| && s[i] == c && c !in s[..i] ensures i == k {
      InPrefix(s, i, k);
      InPrefix(s, k, i);
    }
  }

  /** `_resolve_secrets`: every string that starts with the marker becomes its secret, or ""
      when the lookup fails or gives an empty secret; dicts and lists are mapped elementwise
      and everything else is kept. */
  function ResolveSecrets(keychain: Keychain, v: Value): (r: Value)
    ensures v.Str? && !StartsWith(v.s, KeychainMarker) ==> r == v
    ensures !v.Str? && !v.List? && !v.Dict? ==> r == v
    ensures v.Str? && StartsWith(v.s, KeychainMarker) ==>
      r == Str(keychain(ParseSpec(v.s).0, ParseSpec(v.s).1).GetOr(""))
    ensures v.List? ==>
      && r.List? && |r.items| == |v.items|
      && forall i :: 0 <= i < |v.items| ==> r.items[i] == ResolveSecrets(keychain, v.items[i])
    ensures v.Dict? ==>
      && r.Dict? && |r.fields| == |v.fields|
      && forall i :: 0 <= i < |v.fields| ==>
           r.fields[i] == (v.fields[i].0, ResolveSecrets(keychain, v.fields[i].1))
    decreases v
  {
    match v
    case Str(s) =>
      if StartsWith(s, KeychainMarker) then
        var (service, account) := ParseSpec(s);
        match keychain(service, account)
        case Some(secret) => if secret != "" then Str(secret) else Str("")
        case None => Str("")
      else v
    case Dict(fields) =>
      Dict(seq(|fields|, i requires 0 <= i < |fields| => (fields[i].0, ResolveSecrets(keychain, fields[i].1))))
    case List(items) =>
      List(seq(|items|, i requires 0 <= i < |items| => ResolveSecrets(keychain, items[i])))
    case _ => v
  }

  /** The dict keys, in order, survive resolution. */
  lemma ResolveKeepsKeys(keychain: Keychain, fields: seq<(string, Value)>)
    ensures var r := ResolveSecrets(keychain, Dict(fields));
      forall i :: 0 <= i < |fields| ==> r.fields[i].0 == fields[i].0
  {
  }

  /** No `keychain:` reference is left anywhere in a value. */
  predicate NoReferences(v: Value)
    decreases v
  {
    match v
    case Str(s) => !StartsWith(s, KeychainMarker)
    case List(items) => forall i :: 0 <= i < |items| ==> NoReferences(items[i])
    case Dict(fields) => forall i :: 0 <= i < |fields| ==> NoReferences(fields[i].1)
    case _ => true
  }

  /** When no secret itself starts with the marker, one pass of resolution leaves no
      reference behind, at any depth. */
  lemma {:induction false} ResolvedHasNoReferences(keychain: Keychain, v: Value)
    requires forall service, account :: keychain(service, account).Some? ==>
               !StartsWith(keychain(service, account).value, KeychainMarker)
    ensures NoReferences(ResolveSecrets(keychain, v))
    decreases v
  {
    var r := ResolveSecrets(keychain, v);
    match v
    case Str(s) =>
      if StartsWith(s, KeychainMarker) {
        var (service, account) := ParseSpec(s);
        assert r == Str(keychain(service, account).GetOr(""));
      }
    case List(items) =>
      forall i | 0 <= i < |items| ensures NoReferences(r.items[i]) {
        ResolvedHasNoReferences(keychain, items[i]);
      }
    case Dict(fields) =>
      forall i | 0 <= i < |fields| ensures NoReferences(r.fields[i].1) {
        ResolvedHasNoReferences(keychain, fields[i].1);
      }
    case _ =>
  }

  /** A value without references comes out of resolution as it went in. */
  lemma {:induction false} ResolveWithoutReferences(keychain: Keychain, v: Value)
    requires NoReferences(v)
    ensures ResolveSecrets(keychain, v) == v
    decreases v
  {
    var r := ResolveSecrets(keychain, v);
    match v
    case List(items) =>
      forall i | 0 <= i < |items| ensures r.items[i] == items[i] {
        ResolveWithoutReferences(keychain, items[i]);
      }
      assert r.items == items;
    case Dict(fields) =>
      forall i | 0 <= i < |fields| ensures r.fields[i] == fields[i] {
        ResolveWithoutReferences(keychain, fields[i].1);
      }
      assert r.fields == fields;
    case _ =>
  }

  /** `Config.get(*keys, default=...)`: walk the keys; a non-dict on the way, a missing key
      or a None value gives `default`. */
  function Navigate(obj: Value, keys: seq<string>, default: Value): (r: Value)
    ensures keys == [] ==> r == obj
    ensures keys != [] && r != default ==> !r.Null?
    decreases |keys|
  {
    if keys == [] then obj
    else if !obj.Dict? then default
    else match Lookup(obj.fields, keys[0])
      case None => default
      case Some(next) => if next.Null? then default else Navigate(next, keys[1..], default)
  }

  /** One step of the walk: it stops with `default`, or goes on into the value at the key. */
  lemma NavigateStep(obj: Value, keys: seq<string>, default: Value)
    requires keys != []
    ensures !obj.Dict? ==> Navigate(obj, keys, default) == default
    ensures obj.Dict? && (Lookup(obj.fields, keys[0]).None? || Lookup(obj.fields, keys[0]).value.Null?) ==>
      Navigate(obj, keys, default) == default
    ensures obj.Dict? && Lookup(obj.fields, keys[0]).Some? && !Lookup(obj.fields, keys[0]).value.Null? ==>
      Navigate(obj, keys, default) == Navigate(Lookup(obj.fields, keys[0]).value, keys[1..], default)
  {
  }

  /** A stored value that is not None is returned as stored, even a falsy one such as 0 or
      False; a None or missing one gives the default. */
  lemma StoredValueReturned(fields: seq<(string, Value)>, key: string, default: Value)
    ensures Lookup(fields, key).Some? && !Lookup(fields, key).value.Null? ==>
      Navigate(Dict(fields), [key], default) == Lookup(fields, key).value
    ensures Lookup(fields, key).None? || Lookup(fields, key).value.Null? ==>
      Navigate(Dict(fields), [key], default) == default
  {
    assert [key][1..] == [];
  }

  /** Navigating a path in two steps: once the first part reaches a value that is not None,
      the rest is navigated from there. */
  lemma {:induction false} NavigateAppend(obj: Value, first: seq<string>, rest: seq<string>, default: Value)
    requires first != [] && !Navigate(obj, first, Null).Null?
    ensures Navigate(obj, first + rest, default) == Navigate(Navigate(obj, first, Null), rest, default)
    decreases |first|
  {
    var path := first + rest;
    assert path[0] == first[0] && path[1..] == first[1..] + rest;
    var next := Lookup(obj.fields, first[0]).value;
    if |first| > 1 {
      NavigateAppend(next, first[1..], rest, default);
    } else {
      assert first[1..] == [] && path[1..] == rest;
    }
  }

  /** A value found along the path does not depend on the default. */
  lemma {:induction false} FoundIgnoresDefault(obj: Value, keys: seq<string>, default: Value)
    requires keys != [] && !Navigate(obj, keys, Null).Null?
    ensures Navigate(obj, keys, default) == Navigate(obj, keys, Null)
    decreases |keys|
  {
    var next := Lookup(obj.fields, keys[0]).value;
    if |keys| > 1 {
      FoundIgnoresDefault(next, keys[1..], default);
    }
  }

  /** The document `{k0: {k1: ... {kn: v}}}`. */
  function Nested(keys: seq<string>, v: Value): Value
    decreases |keys|
  {
    if keys == [] then v else Dict([(keys[0], Nested(keys[1..], v))])
  }

  /** `get` reads back what a nested document stores along the path. */
  lemma {:induction false} NavigateNested(keys: seq<string>, v: Value, default: Value)
    requires !v.Null?
    ensures Navigate(Nested(keys, v), keys, default) == v
    decreases |keys|
  {
    if keys != [] {
      NavigateNested(keys[1..], v, default);
      var inner := Nested(keys[1..], v);
      assert Lookup([(keys[0], inner)], keys[0]) == Some(inner);
      assert !inner.Null? by { NestedNotNull(keys[1..], v); }
    }
  }

  lemma {:induction false} NestedNotNull(keys: seq<string>, v: Value)
    requires !v.Null?
    ensures !Nested(keys, v).Null?
  {
  }

  /** Python's `int()` for the values YAML gives: an int as it is, a bool as 0 or 1, a string
      by `int(str)`; anything else raises. */
  function IntOf(v: Value): (r: Result<int>)
    ensures v.Int? ==> r == Success(v.i)
    ensures v.Bool? ==> r == Success(if v.b then 1 else 0)
    ensures v.Str? ==> (r.Success? <==> ParseInt(v.s).Some?)
    ensures v.Str? && ParseInt(v.s).Some? ==> r == Success(ParseInt(v.s).value)
    ensures v.Null? || v.List? || v.Dict? ==> r.Failure?
  {
    match v
    case Int(i) => Success(i)
    case Bool(b) => Success(if b then 1 else 0)
    case Str(s) =>
      (match ParseInt(s)
       case Some(i) => Success(i)
       case None => Failure("ValueError: invalid literal for int() with base 10: " + Repr(s)))
    case _ => Failure("TypeError: int() argument must be a string or a number")
  }

  /** A number written in the YAML as a quoted decimal reads back as that number. */
  lemma IntOfShownInt(n: int)
    ensures IntOf(Str(IntToString(n))) == Success(n)
  {
    ParseIntOfIntToString(n);
  }

  class Config {
    const raw: Value

    constructor (raw: Value)
      ensures this.raw == raw
    {
      this.raw := raw;
    }

    /** `get`: the loop over the keys, with its early returns. */
    method Get(keys: seq<string>, default: Value) returns (r: Value)
      ensures r == Navigate(raw, keys, default)
      ensures keys == [] ==> r == raw
    {
      var obj := raw;
      var i := 0;
      while i < |keys|
        invariant 0 <= i <= |keys|
        invariant Navigate(raw, keys, default) == Navigate(obj, keys[i..], default)
      {
        var rest := keys[i..];
        assert rest[0] == keys[i] && rest[1..] == keys[i + 1..];
        NavigateStep(obj, rest, default);
        if !obj.Dict? {
          return default;
        }
        var next := Lookup(obj.fields, keys[i]);
        if next.None? || next.value.Null? {
          return default;
        }
        obj := next.value;
        i := i + 1;
      }
      return obj;
    }

    function Setting(keys: seq<string>, default: Value): Value {
      Navigate(raw, keys, default)
    }

    function TelegramToken(): Value { Setting(["telegram", "bot_token"], Str("")) }
    function TelegramEnabled(): bool { Truthy(Setting(["telegram", "enabled"], Bool(true))) }
    function WhatsappEnabled(): bool { Truthy(Setting(["whatsapp", "enabled"], Bool(false))) }
    function WhatsappPort(): Result<int> { IntOf(Setting(["whatsapp", "bridge", "port"], Int(8765))) }
    function WhatsappSessionDir(): Value { Setting(["whatsapp", "bridge", "session_dir"], Str("./data/sessions")) }
    function WhatsappNodePath(): Value { Setting(["whatsapp", "bridge", "node_path"], Str("node")) }
    function AnthropicApiKey(): Value { Setting(["anthropic", "api_key"], Str("")) }
    function AnthropicModel(): Value { Setting(["anthropic", "model"], Str("claude-sonnet-4-6")) }
    function AnthropicMaxTokens(): Result<int> { IntOf(Setting(["anthropic", "max_tokens"], Int(4096))) }
    function HistoryTokenBudget(): Result<int> { IntOf(Setting(["anthropic", "history_token_budget"], Int(100000))) }
    function HistoryKeepRecent(): Result<int> { IntOf(Setting(["anthropic", "history_keep_recent"], Int(10))) }
    function AuthorizedTelegramIds(): Value { Setting(["security", "authorized_senders", "telegram"], List([])) }
    function AuthorizedWhatsappPhones(): Value { Setting(["security", "authorized_senders", "whatsapp"], List([])) }
    function RateLimitPerMinute(): Result<int> { IntOf(Setting(["security", "rate_limit", "messages_per_minute"], Int(10))) }
    function RateLimitBurst(): Result<int> { IntOf(Setting(["security", "rate_limit", "burst"], Int(3))) }
    function DbPath(): Value { Setting(["paths", "db_path"], Str("./data/butler.db")) }
    function MediaDir(): Value { Setting(["paths", "media_dir"], Str("./data/media")) }
    function LogDir(): Value { Setting(["paths", "log_dir"], Str("./logs")) }
    function EmailEnabled(): bool { Truthy(Setting(["email", "enabled"], Bool(false))) }
    function EmailImap(): Value { Setting(["email", "imap"], Dict([])) }
    function EmailSmtp(): Value { Setting(["email", "smtp"], Dict([])) }
    function BrowserEnabled(): bool { Truthy(Setting(["browser", "enabled"], Bool(true))) }
    function BrowserUserDataDir(): Value { Setting(["browser", "user_data_dir"], Str("./data/browser_profile")) }
    function BrowserHeadless(): bool { Truthy(Setting(["browser", "headless"], Bool(true))) }

    /** `log_level`: upper-cased, "INFO" when unset; `.upper()` of a non-string raises. */
    function LogLevel(): (r: Result<string>)
      ensures Navigate(raw, ["logging", "level"], Str("INFO")).Str? <==> r.Success?
      ensures r.Success? ==> r.value == Upper(Navigate(raw, ["logging", "level"], Str("INFO")).s)
      ensures r.Success? ==> Upper(r.value) == r.value
    {
      match Setting(["logging", "level"], Str("INFO"))
      case Str(s) => UpperIdempotent(s); Success(Upper(s))
      case _ => Failure("AttributeError: object has no attribute 'upper'")
    }
  }

  /** A setting present in the document wins over the accessor's default, even a falsy one:
      `telegram.enabled: false` disables Telegram and a port written as text is parsed. */
  lemma ExplicitSettingsWin(c: Config, port: int)
    requires Navigate(c.raw, ["telegram", "enabled"], Null) == Bool(false)
    requires Navigate(c.raw, ["whatsapp", "bridge", "port"], Null) == Str(IntToString(port))
    ensures !c.TelegramEnabled()
    ensures c.WhatsappPort() == Success(port)
  {
    FoundIgnoresDefault(c.raw, ["telegram", "enabled"], Bool(true));
    FoundIgnoresDefault(c.raw, ["whatsapp", "bridge", "port"], Int(8765));
    IntOfShownInt(port);
  }

  /** An empty document gives every accessor its default. */
  lemma EmptyConfigDefaults(c: Config)
    requires c.raw == Dict([])
    ensures c.TelegramEnabled() && !c.WhatsappEnabled() && !c.EmailEnabled()
    ensures c.BrowserEnabled() && c.BrowserHeadless()
    ensures c.WhatsappPort() == Success(8765) && c.AnthropicMaxTokens() == Success(4096)
    ensures c.HistoryTokenBudget() == Success(100000) && c.HistoryKeepRecent() == Success(10)
    ensures c.RateLimitPerMinute() == Success(10) && c.RateLimitBurst() == Success(3)
    ensures c.LogLevel() == Success("INFO")
  {
    assert Upper("INFO") == "INFO";
  }
}
