/** The parts of Python's `str` that the modelled code relies on: `strip`, `lower`/`upper`,
    `startswith`, `join`, `split(sep, 1)`, `str(int)`, `int(str)` and `repr(str)`. */
module Text {
  import opened Wrappers

  /** The characters for which Python's `str.isspace()` holds, i.e. what `strip()` removes. */
  predicate IsSpace(c: char) {
    c == ' ' || c == '\t' || c == '\n' || c == '\r' || c == '\U{0B}' || c == '\U{0C}'
    || ('\U{1C}' <= c <= '\U{1F}') || c == '\U{85}' || c == '\U{A0}' || c == '\U{1680}'
    || ('\U{2000}' <= c <= '\U{200A}') || c == '\U{2028}' || c == '\U{2029}'
    || c == '\U{202F}' || c == '\U{205F}' || c == '\U{3000}'
  }

  predicate IsDigit(c: char) { '0' <= c <= '9' }

  predicate StartsWith(s: string, prefix: string) {
    |prefix| <= |s| && s[..|prefix|] == prefix
  }

  predicate EndsWith(s: string, suffix: string) {
    |suffix| <= |s| && s[|s| - |suffix|..] == suffix
  }

  /** Only whitespace. */
  predicate AllSpace(w: string) {
    forall i :: 0 <= i < |w| ==> IsSpace(w[i])
  }

  /** No whitespace at either end. */
  predicate IsStripped(s: string) {
    s == [] || (!IsSpace(s[0]) && !IsSpace(s[|s| - 1]))
  }

  /** `s.lstrip()`: the suffix that starts at the first non-whitespace character. */
  function LStrip(s: string): (r: string)
    ensures |r| <= |s| && r == s[|s| - |r|..]
    ensures r == [] || !IsSpace(r[0])
  {
    if s == [] || !IsSpace(s[0]) then s else LStrip(s[1..])
  }

  /** `lstrip` cuts only whitespace. */
  lemma {:induction false} LStripCutsSpace(s: string)
    ensures AllSpace(s[..|s| - |LStrip(s)|])
    decreases |s|
  {
    if s != [] && IsSpace(s[0]) {
      LStripCutsSpace(s[1..]);
      var cut := s[..|s| - |LStrip(s)|];
      forall i | 0 <= i < |cut| ensures IsSpace(cut[i]) {
        if i > 0 {
          assert cut[i] == s[1..][..|s| - 1 - |LStrip(s[1..])|][i - 1];
        }
      }
    }
  }

  /** `s.rstrip()`: the prefix that ends at the last non-whitespace character. */
  function RStrip(s: string): (r: string)
    ensures |r| <= |s| && r == s[..|r|]
    ensures r == [] || !IsSpace(r[|r| - 1])
  {
    if s == [] || !IsSpace(s[|s| - 1]) then s else RStrip(s[..|s| - 1])
  }

  /** `rstrip` cuts only whitespace. */
  lemma {:induction false} RStripCutsSpace(s: string)
    ensures AllSpace(s[|RStrip(s)|..])
    decreases |s|
  {
    if s != [] && IsSpace(s[|s| - 1]) {
      var front := s[..|s| - 1];
      RStripCutsSpace(front);
      var cut := s[|RStrip(s)|..];
      forall i | 0 <= i < |cut| ensures IsSpace(cut[i]) {
        if i < |cut| - 1 {
          assert cut[i] == front[|RStrip(front)|..][i];
        }
      }
    }
  }

  /** Where `s.strip()` starts in `s`. */
  function StripStart(s: string): (k: nat)
    ensures k <= |s|
  {
    |s| - |LStrip(s)|
  }

  /** `s.strip()`: a contiguous piece of `s`, with only whitespace cut on either side: a
      prefix of the part of `s` from `StripStart(s)` on, and whitespace after it. */
  function Strip(s: string): (r: string)
    ensures IsStripped(r)
    ensures StripStart(s) + |r| <= |s| && r == s[StripStart(s)..][..|r|]
    ensures AllSpace(s[..StripStart(s)])
    ensures AllSpace(s[StripStart(s)..][|r|..])
  {
    var l := LStrip(s);
    var r := RStrip(l);
    LStripCutsSpace(s);
    RStripCutsSpace(l);
    assert r != [] ==> r[0] == l[0];
    r
  }

  lemma {:induction false} LStripOfStripped(s: string)
    requires s == [] || !IsSpace(s[0])
    ensures LStrip(s) == s
  {
  }

  lemma {:induction false} RStripOfStripped(s: string)
    requires s == [] || !IsSpace(s[|s| - 1])
    ensures RStrip(s) == s
  {
  }

  /** Stripping changes nothing on a string without whitespace at its ends. */
  lemma StripOfStripped(s: string)
    requires IsStripped(s)
    ensures Strip(s) == s
  {
    LStripOfStripped(s);
    RStripOfStripped(s);
  }

  /** `strip()` is idempotent. */
  lemma StripIdempotent(s: string)
    ensures Strip(Strip(s)) == Strip(s)
  {
    StripOfStripped(Strip(s));
  }

  lemma FrontAllSpace(w: string)
    requires AllSpace(w) && w != []
    ensures AllSpace(w[..|w| - 1]) && IsSpace(w[|w| - 1])
  {
    var front := w[..|w| - 1];
    forall i | 0 <= i < |front| ensures IsSpace(front[i]) {
      assert front[i] == w[i];
    }
  }

  lemma LStripLeadingSpace(c: char, s: string)
    requires IsSpace(c)
    ensures LStrip([c] + s) == LStrip(s)
  {
    var t := [c] + s;
    assert t[0] == c && t[1..] == s;
  }

  /** `lstrip` ignores leading whitespace. */
  lemma {:induction false} LStripSpacePrefix(w: string, s: string)
    requires AllSpace(w)
    ensures LStrip(w + s) == LStrip(s)
    decreases |w|
  {
    if w != [] {
      assert w + s == [w[0]] + (w[1..] + s);
      LStripLeadingSpace(w[0], w[1..] + s);
      assert AllSpace(w[1..]) by {
        forall i | 0 <= i < |w[1..]| ensures IsSpace(w[1..][i]) {
          assert w[1..][i] == w[i + 1];
        }
      }
      LStripSpacePrefix(w[1..], s);
    } else {
      assert w + s == s;
    }
  }

  /** Whitespace alone strips to nothing. */
  lemma {:induction false} LStripAllSpace(w: string)
    requires AllSpace(w)
    ensures LStrip(w) == []
    decreases |w|
  {
    if w != [] {
      assert AllSpace(w[1..]) by {
        forall i | 0 <= i < |w[1..]| ensures IsSpace(w[1..][i]) {
          assert w[1..][i] == w[i + 1];
        }
      }
      LStripAllSpace(w[1..]);
    }
  }

  /** `lstrip` of `s` followed by whitespace `w`. */
  lemma {:induction false} LStripSpaceSuffix(s: string, w: string)
    requires AllSpace(w)
    ensures LStrip(s + w) == if LStrip(s) == [] then [] else LStrip(s) + w
    decreases |s|
  {
    if s == [] {
      assert s + w == w;
      LStripAllSpace(w);
    } else if IsSpace(s[0]) {
      var t := s + w;
      assert t[0] == s[0] && t[1..] == s[1..] + w;
      LStripSpaceSuffix(s[1..], w);
    } else {
      assert (s + w)[0] == s[0];
    }
  }

  /** `rstrip` ignores trailing whitespace. */
  lemma {:induction false} RStripSpaceSuffix(s: string, w: string)
    requires AllSpace(w)
    ensures RStrip(s + w) == RStrip(s)
    decreases |w|
  {
    if w == [] {
      assert s + w == s;
    } else {
      var front := w[..|w| - 1];
      var t := s + w;
      FrontAllSpace(w);
      assert t[..|t| - 1] == s + front;
      RStripSpaceSuffix(s, front);
    }
  }

  lemma Associative(a: string, b: string, c: string)
    ensures a + b + c == a + (b + c)
  {
  }

  /** `strip` is `rstrip` after `lstrip`. */
  lemma StripUnfold(s: string)
    ensures Strip(s) == RStrip(LStrip(s))
  {
  }

  /** Surrounding whitespace, of any kind and length, does not change `strip()`. */
  lemma StripPadded(w1: string, s: string, w2: string)
    requires AllSpace(w1) && AllSpace(w2)
    ensures Strip(w1 + s + w2) == Strip(s)
  {
    Associative(w1, s, w2);
    StripUnfold(w1 + (s + w2));
    StripUnfold(s);
    RLStripPadded(w1, s, w2);
  }

  lemma RLStripPadded(w1: string, s: string, w2: string)
    requires AllSpace(w1) && AllSpace(w2)
    ensures RStrip(LStrip(w1 + (s + w2))) == RStrip(LStrip(s))
  {
    LStripPadded(w1, s, w2);
    if LStrip(s) != [] {
      RStripSpaceSuffix(LStrip(s), w2);
    }
  }

  /** `lstrip` of padded text: the leading padding goes, the trailing stays unless nothing
      else is left. */
  lemma LStripPadded(w1: string, s: string, w2: string)
    requires AllSpace(w1) && AllSpace(w2)
    ensures LStrip(w1 + (s + w2)) == if LStrip(s) == [] then [] else LStrip(s) + w2
  {
    LStripSpacePrefix(w1, s + w2);
    LStripSpaceSuffix(s, w2);
  }

  function LowerChar(c: char): char {
    if 'A' <= c <= 'Z' then (c as int + 32) as char else c
  }

  function UpperChar(c: char): char {
    if 'a' <= c <= 'z' then (c as int - 32) as char else c
  }

  /** `s.lower()` (ASCII letters only). */
  function Lower(s: string): (r: string)
    ensures |r| == |s|
    ensures forall i :: 0 <= i < |s| ==> r[i] == LowerChar(s[i])
  {
    seq(|s|, i requires 0 <= i < |s| => LowerChar(s[i]))
  }

  /** `s.upper()` (ASCII letters only). */
  function Upper(s: string): (r: string)
    ensures |r| == |s|
    ensures forall i :: 0 <= i < |s| ==> r[i] == UpperChar(s[i])
  {
    seq(|s|, i requires 0 <= i < |s| => UpperChar(s[i]))
  }

  lemma LowerCharSpace(c: char)
    ensures IsSpace(LowerChar(c)) == IsSpace(c)
  {
  }

  lemma LowerTail(s: string)
    requires s != []
    ensures Lower(s)[1..] == Lower(s[1..])
  {
  }

  lemma {:induction false} LStripLower(s: string)
    ensures LStrip(Lower(s)) == Lower(LStrip(s))
  {
    if s != [] {
      var l := Lower(s);
      assert l[0] == LowerChar(s[0]);
      LowerCharSpace(s[0]);
      if IsSpace(s[0]) {
        LowerTail(s);
        LStripLower(s[1..]);
        calc {
          LStrip(l);
          LStrip(l[1..]);
          LStrip(Lower(s[1..]));
          Lower(LStrip(s[1..]));
        }
      } else {
        assert LStrip(l) == l;
        assert LStrip(s) == s;
      }
    }
  }

  lemma {:induction false} RStripLower(s: string)
    ensures RStrip(Lower(s)) == Lower(RStrip(s))
  {
    if s != [] {
      LowerCharSpace(s[|s| - 1]);
      if IsSpace(s[|s| - 1]) {
        assert Lower(s)[..|s| - 1] == Lower(s[..|s| - 1]);
        RStripLower(s[..|s| - 1]);
      }
    }
  }

  /** `s.lower().strip() == s.strip().lower()`. */
  lemma StripLower(s: string)
    ensures Strip(Lower(s)) == Lower(Strip(s))
  {
    LStripLower(s);
    RStripLower(LStrip(s));
  }

  /** `lower()` is idempotent. */
  lemma LowerIdempotent(s: string)
    ensures Lower(Lower(s)) == Lower(s)
  {
  }

  /** `upper()` is idempotent. */
  lemma UpperIdempotent(s: string)
    ensures Upper(Upper(s)) == Upper(s)
  {
  }

  /** `s[:n]`. */
  function Head(s: string, n: nat): (r: string)
    ensures |r| <= n && r <= s
    ensures |s| <= n ==> r == s
  {
    if |s| <= n then s else s[..n]
  }

  /** `sep.join(parts)`. */
  function Join(sep: string, parts: seq<string>): string {
    if parts == [] then ""
    else if |parts| == 1 then parts[0]
    else Join(sep, parts[..|parts| - 1]) + sep + parts[|parts| - 1]
  }

  /** The index of the first occurrence of `c` in `s`, if any. */
  function IndexOf(s: string, c: char): (r: Option<nat>)
    ensures r.None? <==> c !in s
    ensures r.Some? ==> r.value < |s| && s[r.value] == c && c !in s[..r.value]
  {
    if s == [] then None
    else if s[0] == c then Some(0)
    else match IndexOf(s[1..], c)
      case None => None
      case Some(k) =>
        assert s[..k + 1] == [s[0]] + s[1..][..k];
        Some(k + 1)
  }

  function DigitChar(d: nat): char
    requires d < 10
  {
    ('0' as int + d) as char
  }

  /** `str(n)` for a natural number: decimal, no leading zeros. */
  function NatToString(n: nat): (r: string)
    ensures |r| > 0 && forall i :: 0 <= i < |r| ==> IsDigit(r[i])
    ensures |r| > 1 ==> r[0] != '0'
  {
    if n < 10 then [DigitChar(n)] else NatToString(n / 10) + [DigitChar(n % 10)]
  }

  /** `str(i)` for an integer. */
  function IntToString(i: int): (r: string)
    ensures |r| > 0 && (r[0] == '-' <==> i < 0)
  {
    if i < 0 then "-" + NatToString(-i) else NatToString(i)
  }

  /** After an optional minus sign, `str(i)` is decimal digits. */
  lemma IntToStringDigits(i: int)
    ensures var r := IntToString(i);
      forall k :: (if i < 0 then 1 else 0) <= k < |r| ==> IsDigit(r[k])
  {
    var d := NatToString(if i < 0 then -i else i);
    if i < 0 {
      assert forall k :: 1 <= k < |"-" + d| ==> ("-" + d)[k] == d[k - 1];
    }
  }

  /** The value of a sequence of decimal digits. */
  function DigitsValue(s: string): nat
    requires forall i :: 0 <= i < |s| ==> IsDigit(s[i])
  {
    if s == [] then 0
    else
      assert IsDigit(s[|s| - 1]);
      DigitsValue(s[..|s| - 1]) * 10 + (s[|s| - 1] as int - '0' as int)
  }

  /** The digits of `s`, with the underscores Python allows between them dropped. */
  function DropUnderscores(s: string): string {
    if s == [] then [] else (if s[0] == '_' then [] else [s[0]]) + DropUnderscores(s[1..])
  }

  /** A digit string as Python's `int()` accepts it: digits, with single underscores
      only between two digits. */
  predicate IsDigitGroup(s: string) {
    && |s| > 0
    && (forall i :: 0 <= i < |s| ==> IsDigit(s[i]) || s[i] == '_')
    && IsDigit(s[0]) && IsDigit(s[|s| - 1])
    && forall i :: 0 <= i < |s| - 1 ==> !(s[i] == '_' && s[i + 1] == '_')
  }

  lemma {:induction false} DropUnderscoresDigits(s: string)
    requires forall i :: 0 <= i < |s| ==> IsDigit(s[i]) || s[i] == '_'
    ensures forall i :: 0 <= i < |DropUnderscores(s)| ==> IsDigit(DropUnderscores(s)[i])
  {
    if s != [] {
      DropUnderscoresDigits(s[1..]);
    }
  }

  lemma {:induction false} DropUnderscoresOfDigits(s: string)
    requires forall i :: 0 <= i < |s| ==> IsDigit(s[i])
    ensures DropUnderscores(s) == s
  {
    if s != [] {
      DropUnderscoresOfDigits(s[1..]);
    }
  }

  /** `int(s)` for a string (ASCII digits): surrounding whitespace, an optional sign and
      underscores between digits are accepted; anything else is a ValueError. */
  function ParseInt(s: string): (r: Option<int>)
  {
    ParseStripped(Strip(s))
  }

  /** `int()` once the surrounding whitespace is gone. */
  function ParseStripped(t: string): Option<int> {
    var neg := |t| > 0 && t[0] == '-';
    var body := if |t| > 0 && (t[0] == '-' || t[0] == '+') then t[1..] else t;
    if !IsDigitGroup(body) then None
    else
      DropUnderscoresDigits(body);
      var v: int := DigitsValue(DropUnderscores(body));
      Some(if neg then -v else v)
  }

  /** `int()` ignores surrounding whitespace. */
  lemma ParseIntIgnoresPadding(w1: string, s: string, w2: string)
    requires AllSpace(w1) && AllSpace(w2)
    ensures ParseInt(w1 + s + w2) == ParseInt(s)
  {
    StripPadded(w1, s, w2);
  }

  /** A blank text is not a number. */
  lemma ParseIntRejectsBlank(s: string)
    requires AllSpace(s)
    ensures ParseInt(s) == None
  {
  }

  lemma {:induction false} DigitsValueOfNatToString(n: nat)
    ensures DigitsValue(NatToString(n)) == n
  {
    if n >= 10 {
      DigitsValueOfNatToString(n / 10);
      var s := NatToString(n);
      assert s[..|s| - 1] == NatToString(n / 10);
    }
  }

  /** `int(str(i)) == i`: the decimal rendering parses back to the same integer. */
  lemma ParseIntOfIntToString(i: int)
    ensures ParseInt(IntToString(i)) == Some(i)
  {
    var s := IntToString(i);
    var m: nat := if i < 0 then -i else i;
    var d := NatToString(m);
    assert s == if i < 0 then "-" + d else d;
    assert !IsSpace(s[0]) && !IsSpace(s[|s| - 1]);
    StripOfStripped(s);
    var body := if s[0] == '-' || s[0] == '+' then s[1..] else s;
    assert body == d;
    assert IsDigitGroup(d);
    DropUnderscoresOfDigits(d);
    DigitsValueOfNatToString(m);
  }

  function HexDigit(d: nat): char
    requires d < 16
  {
    if d < 10 then DigitChar(d) else ('a' as int + d - 10) as char
  }

  predicate IsHexDigit(c: char) { IsDigit(c) || 'a' <= c <= 'f' }

  function HexDigitValue(c: char): nat
    requires IsHexDigit(c)
  {
    if IsDigit(c) then c as int - '0' as int else c as int - 'a' as int + 10
  }

  function Pow16(w: nat): nat {
    if w == 0 then 1 else 16 * Pow16(w - 1)
  }

  /** The last `w` hexadecimal digits of `v`, lower case, zero-padded. */
  function Hex(v: nat, w: nat): (r: string)
    ensures |r| == w && forall i :: 0 <= i < |r| ==> IsHexDigit(r[i])
  {
    if w == 0 then [] else Hex(v / 16, w - 1) + [HexDigit(v % 16)]
  }

  /** The value of a text of hexadecimal digits. */
  function HexValue(t: string): nat
    requires forall i :: 0 <= i < |t| ==> IsHexDigit(t[i])
  {
    if t == [] then 0
    else
      assert IsHexDigit(t[|t| - 1]);
      HexValue(t[..|t| - 1]) * 16 + HexDigitValue(t[|t| - 1])
  }

  lemma {:induction false} HexValueOfHex(v: nat, w: nat)
    requires v < Pow16(w)
    ensures HexValue(Hex(v, w)) == v
  {
    if w > 0 {
      HexValueOfHex(v / 16, w - 1);
      var t := Hex(v, w);
      assert t[..|t| - 1] == Hex(v / 16, w - 1);
    }
  }

  /** `str.isprintable()` for one character: false for the control, format, private-use,
      surrogate and separator characters other than the ASCII space, true otherwise. The
      unassigned code points, which Python also counts as not printable, are the exception:
      they count as printable here. */
  predicate IsPrintable(c: char) {
    if c < '\U{100}' then
      (' ' <= c < '\U{7F}') || ('\U{A1}' <= c && c != '\U{AD}')
    else
      !(
      || ('\U{600}' <= c <= '\U{605}') || c == '\U{61C}' || c == '\U{6DD}' || c == '\U{70F}'
      || ('\U{890}' <= c <= '\U{891}') || c == '\U{8E2}' || c == '\U{1680}' || c == '\U{180E}'
      || ('\U{2000}' <= c <= '\U{200F}') || ('\U{2028}' <= c <= '\U{202F}')
      || ('\U{205F}' <= c <= '\U{206F}') || c == '\U{3000}'
      || ('\U{E000}' <= c <= '\U{F8FF}') || c == '\U{FEFF}' || ('\U{FFF9}' <= c <= '\U{FFFB}')
      || c == '\U{110BD}' || c == '\U{110CD}' || ('\U{13430}' <= c <= '\U{1343F}')
      || ('\U{1BCA0}' <= c <= '\U{1BCA3}') || ('\U{1D173}' <= c <= '\U{1D17A}')
      || ('\U{E0001}' <= c <= '\U{E007F}') || '\U{F0000}' <= c)
  }

  /** How `repr()` renders one character inside quotes `q`: the backslash, the quote and
      the three usual controls are escaped, other characters that are not printable are
      written as `\xhh`, `\uhhhh` or `\Uhhhhhhhh`, and the rest stand for themselves. */
  function ReprChar(c: char, q: char): string {
    if c == '\\' then "\\\\"
    else if c == q then ['\\', q]
    else if c == '\n' then "\\n"
    else if c == '\r' then "\\r"
    else if c == '\t' then "\\t"
    else if IsPrintable(c) then [c]
    else if c < '\U{100}' then "\\x" + Hex(c as int, 2)
    else if c <= '\U{FFFF}' then "\\u" + Hex(c as int, 4)
    else "\\U" + Hex(c as int, 8)
  }

  function ReprBody(s: string, q: char): string {
    if s == [] then "" else ReprChar(s[0], q) + ReprBody(s[1..], q)
  }

  /** The character with code `v`, if there is one. */
  function CharOf(v: nat): char {
    if v < 0xD800 || 0xE000 <= v < 0x11_0000 then v as char else '?'
  }

  predicate IsHexText(t: string) {
    forall i :: 0 <= i < |t| ==> IsHexDigit(t[i])
  }

  /** How Python reads the escapes of a string literal's body: the inverse of `ReprBody`. */
  function Unescape(t: string): string
    decreases |t|
  {
    if t == [] then []
    else if t[0] == '\\' && |t| >= 2 then
      var e := t[1];
      if e == 'n' then "\n" + Unescape(t[2..])
      else if e == 'r' then "\r" + Unescape(t[2..])
      else if e == 't' then "\t" + Unescape(t[2..])
      else if e == 'x' && |t| >= 4 && IsHexText(t[2..4]) then [CharOf(HexValue(t[2..4]))] + Unescape(t[4..])
      else if e == 'u' && |t| >= 6 && IsHexText(t[2..6]) then [CharOf(HexValue(t[2..6]))] + Unescape(t[6..])
      else if e == 'U' && |t| >= 10 && IsHexText(t[2..10]) then [CharOf(HexValue(t[2..10]))] + Unescape(t[10..])
      else [e] + Unescape(t[2..])
    else [t[0]] + Unescape(t[1..])
  }

  /** A hexadecimal escape of `w` digits reads back as its character. */
  lemma UnescapeHex(c: char, e: char, w: nat, rest: string)
    requires (e, w) == ('x', 2) || (e, w) == ('u', 4) || (e, w) == ('U', 8)
    requires c as int < Pow16(w)
    ensures Unescape(['\\', e] + Hex(c as int, w) + rest) == [c] + Unescape(rest)
  {
    var h := Hex(c as int, w);
    HexValueOfHex(c as int, w);
    UnescapeEscape(e, h, rest);
  }

  /** A hexadecimal escape of the right width reads back as the character of its value. */
  lemma UnescapeEscape(e: char, h: string, rest: string)
    requires (e, |h|) == ('x', 2) || (e, |h|) == ('u', 4) || (e, |h|) == ('U', 8)
    requires IsHexText(h)
    ensures Unescape(['\\', e] + h + rest) == [CharOf(HexValue(h))] + Unescape(rest)
  {
    var t := ['\\', e] + h + rest;
    assert t[0] == '\\' && t[1] == e;
    assert t[2..2 + |h|] == h && t[2 + |h|..] == rest;
  }

  lemma UnescapeReprChar(c: char, q: char, rest: string)
    requires q == '\'' || q == '"'
    ensures Unescape(ReprChar(c, q) + rest) == [c] + Unescape(rest)
  {
    var t := ReprChar(c, q) + rest;
    if c == '\\' || c == q || c == '\n' || c == '\r' || c == '\t' {
      assert t[2..] == rest;
    } else if IsPrintable(c) {
      assert t[1..] == rest;
    } else if c < '\U{100}' {
      assert Pow16(2) == 256;
      UnescapeHex(c, 'x', 2, rest);
    } else if c <= '\U{FFFF}' {
      assert Pow16(4) == 0x1_0000;
      UnescapeHex(c, 'u', 4, rest);
    } else {
      assert Pow16(8) == 0x1_0000_0000;
      UnescapeHex(c, 'U', 8, rest);
    }
  }

  lemma {:induction false} UnescapeReprBody(s: string, q: char)
    requires q == '\'' || q == '"'
    ensures Unescape(ReprBody(s, q)) == s
  {
    if s != [] {
      UnescapeReprChar(s[0], q, ReprBody(s[1..], q));
      UnescapeReprBody(s[1..], q);
    }
  }

  /** `repr(s)`: single quotes unless the text holds a single quote and no double quote;
      reading the literal back gives `s`. */
  function Repr(s: string): (r: string)
    ensures |r| >= 2 && r[0] == r[|r| - 1]
    ensures r[0] == if '\'' in s && '"' !in s then '"' else '\''
    ensures Unescape(r[1..|r| - 1]) == s
  {
    var q := if '\'' in s && '"' !in s then '"' else '\'';
    UnescapeReprBody(s, q);
    var r := [q] + ReprBody(s, q) + [q];
    assert r[1..|r| - 1] == ReprBody(s, q);
    r
  }

  /** Printable text without quotes or backslashes is shown as it is, in single quotes. */
  lemma {:induction false} ReprOfPlain(s: string)
    requires forall i :: 0 <= i < |s| ==> IsPrintable(s[i]) && s[i] != '\\' && s[i] != '\''
    ensures Repr(s) == "'" + s + "'"
  {
    assert '\'' !in s;
    PlainBody(s, '\'');
  }

  lemma {:induction false} PlainBody(s: string, q: char)
    requires forall i :: 0 <= i < |s| ==> IsPrintable(s[i]) && s[i] != '\\' && s[i] != q
    ensures ReprBody(s, q) == s
  {
    if s != [] {
      PlainBody(s[1..], q);
    }
  }
}
