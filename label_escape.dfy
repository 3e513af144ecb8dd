/**
 * How the controller embeds a marker label in a single-quoted script literal
 * (`(label or "").replace("'", "\\'")`), the inverse of that replacement, and
 * how the map script reads such a literal back.
 */
module LabelEscape {

  import opened Wrappers

  const Quote: char := '\''
  const Backslash: char := '\\'

  /** JavaScript's line terminators: LF, CR, LINE SEPARATOR and PARAGRAPH SEPARATOR. */
  predicate LineTerminator(c: char) {
    c == '\n' || c == '\r' || c == '\U{2028}' || c == '\U{2029}'
  }

  /** The line terminators that may not stand unescaped in a string literal. */
  predicate RawLineBreak(c: char) {
    c == '\n' || c == '\r'
  }

  function QuoteCount(s: string): nat {
    if s == [] then 0 else (if s[0] == Quote then 1 else 0) + QuoteCount(s[1..])
  }

  /**
   * `s.replace("'", "\\'")`: every quote is preceded by an inserted backslash,
   * every other character (backslashes included) is copied unchanged.
   * So no quote of the result can close the literal it is placed in when the
   * label has no backslash (`EscapeDecodes`); a backslash in the label can
   * pair with the inserted one (`BackslashBreaksLiteral`).
   */
  function Escape(s: string): (r: string)
    ensures |r| == |s| + QuoteCount(s)
    ensures forall i :: 0 <= i < |r| && r[i] == Quote ==> 0 < i && r[i - 1] == Backslash
  {
    if s == [] then []
    else (if s[0] == Quote then [Backslash, Quote] else [s[0]]) + Escape(s[1..])
  }

  /** `label or ""`: a missing or None label (and the empty label) is the empty text. */
  function LabelText(markerLabel: Option<string>): string {
    match markerLabel
    case None => ""
    case Some(t) => t
  }

  /** The label text the controller places between the quotes of `addMarker(...)`. */
  function EscapeLabel(markerLabel: Option<string>): (r: string)
    ensures markerLabel.None? ==> r == ""
    ensures |r| == |LabelText(markerLabel)| + QuoteCount(LabelText(markerLabel))
  {
    Escape(LabelText(markerLabel))
  }

  /** `t.replace("\\'", "'")`: removes the backslash in front of each quote. */
  function Unescape(t: string): string {
    if t == [] then []
    else if |t| >= 2 && t[0] == Backslash && t[1] == Quote then [Quote] + Unescape(t[2..])
    else [t[0]] + Unescape(t[1..])
  }

  /** The first character of an escaped text tells the first character of the original. */
  lemma EscapeHead(s: string)
    requires s != []
    ensures Escape(s)[0] == (if s[0] == Quote then Backslash else s[0])
  {
  }

  /** Removing the inserted backslashes gives back the label, whatever it contains. */
  lemma {:induction false} UnescapeEscape(s: string)
    ensures Unescape(Escape(s)) == s
  {
    if s != [] {
      var rest := Escape(s[1..]);
      UnescapeEscape(s[1..]);
      if s[0] == Quote {
        assert Escape(s) == [Backslash, Quote] + rest;
        assert Escape(s)[2..] == rest;
      } else {
        assert Escape(s) == [s[0]] + rest;
        assert Escape(s)[1..] == rest;
        if s[0] == Backslash && rest != [] {
          EscapeHead(s[1..]);
          assert Escape(s)[1] == rest[0] != Quote;
        }
      }
    }
  }

  function Prepend(c: char, o: Option<string>): Option<string> {
    if o.Some? then Some([c] + o.value) else None
  }

  predicate IsOctal(c: char) {
    '0' <= c <= '7'
  }

  predicate IsHex(c: char) {
    '0' <= c <= '9' || 'a' <= c <= 'f' || 'A' <= c <= 'F'
  }

  function HexValue(c: char): nat
    requires IsHex(c)
  {
    if c <= '9' then c as int - 48 else if c <= 'F' then c as int - 55 else c as int - 87
  }

  /** The number of hexadecimal digits `t` starts with. */
  function HexRun(t: string): (k: nat)
    ensures k <= |t|
    ensures forall i :: 0 <= i < k ==> IsHex(t[i])
  {
    if t != [] && IsHex(t[0]) then 1 + HexRun(t[1..]) else 0
  }

  /** The number a text of hexadecimal digits denotes. */
  function HexNumber(t: string): nat
    requires forall i :: 0 <= i < |t| ==> IsHex(t[i])
    decreases |t|
  {
    if t == [] then 0 else 16 * HexNumber(t[..|t| - 1]) + HexValue(t[|t| - 1])
  }

  /** Code points that are characters of a text here: surrogates are not. */
  predicate IsScalar(v: nat) {
    v < 0xD800 || 0xE000 <= v < 0x11_0000
  }

  /**
   * The escape sequence that `t` starts with, `t` being what follows a
   * backslash that does not start a line continuation: the character it
   * denotes and how many characters of `t` it spans. None for a malformed
   * `\x` or `\u` escape, which is a SyntaxError. The script runs in sloppy
   * mode, so legacy octal escapes are read, and `\8`, `\9` and every other
   * character stand for themselves.
   */
  function EscapeSequence(t: string): (r: Option<(char, nat)>)
    requires t != []
    ensures r.Some? ==> 1 <= r.value.1 <= |t|
  {
    match t[0]
    case 'n' => Some(('\n', 1))
    case 't' => Some(('\t', 1))
    case 'r' => Some(('\r', 1))
    case 'b' => Some(('\U{8}', 1))
    case 'f' => Some(('\U{c}', 1))
    case 'v' => Some(('\U{b}', 1))
    case 'x' =>
      if |t| >= 3 && IsHex(t[1]) && IsHex(t[2]) then Some(((16 * HexValue(t[1]) + HexValue(t[2])) as char, 3))
      else None
    case 'u' =>
      if |t| >= 2 && t[1] == '{' then
        var k := HexRun(t[2..]);
        if 1 <= k && 2 + k < |t| && t[2 + k] == '}' && IsScalar(HexNumber(t[2..2 + k])) then
          Some((HexNumber(t[2..2 + k]) as char, 3 + k))
        else None
      else if |t| >= 5 && HexRun(t[1..5]) == 4 && IsScalar(HexNumber(t[1..5])) then
        Some((HexNumber(t[1..5]) as char, 5))
      else None
    case _ =>
      if IsOctal(t[0]) then
        var o0 := t[0] as int - 48;
        if |t| >= 2 && IsOctal(t[1]) then
          var o1 := t[1] as int - 48;
          if t[0] <= '3' && |t| >= 3 && IsOctal(t[2]) then
            Some(((64 * o0 + 8 * o1 + (t[2] as int - 48)) as char, 3))
          else Some(((8 * o0 + o1) as char, 2))
        else Some((o0 as char, 1))
      else Some((t[0], 1))
  }

  /**
   * The value of a JavaScript single-quoted string literal whose body is `body`,
   * when the literal closes exactly at the quote that follows the body; None when
   * it would close earlier (an unescaped quote), when the closing quote is itself
   * escaped (a trailing lone backslash), when the body holds a raw LF or CR, or
   * when an escape is malformed: each of these makes the script a SyntaxError.
   * A backslash followed by a line terminator (CR LF counting as one) is a line
   * continuation and yields nothing.
   */
  function JsLiteral(body: string): Option<string>
    decreases |body|
  {
    if body == [] then Some([])
    else if body[0] == Quote || RawLineBreak(body[0]) then None
    else if body[0] != Backslash then Prepend(body[0], JsLiteral(body[1..]))
    else if |body| == 1 then None
    else if |body| >= 3 && body[1] == '\r' && body[2] == '\n' then JsLiteral(body[3..])
    else if LineTerminator(body[1]) then JsLiteral(body[2..])
    else match EscapeSequence(body[1..])
      case None => None
      case Some((c, k)) => Prepend(c, JsLiteral(body[1 + k..]))
  }

  /** Text that survives the escape and the script's literal unchanged. */
  predicate LiteralSafe(s: string) {
    forall i :: 0 <= i < |s| ==> s[i] != Backslash && !RawLineBreak(s[i])
  }

  /** Safe text without quotes is read back verbatim when embedded without escaping (marker ids). */
  lemma {:induction false} PlainDecodes(s: string)
    requires LiteralSafe(s)
    requires forall i :: 0 <= i < |s| ==> s[i] != Quote
    ensures JsLiteral(s) == Some(s)
  {
    if s != [] {
      PlainDecodes(s[1..]);
      assert [s[0]] + s[1..] == s;
    }
  }

  /** A label without backslashes or line breaks is read back by the script exactly. */
  lemma {:induction false} EscapeDecodes(s: string)
    requires LiteralSafe(s)
    ensures JsLiteral(Escape(s)) == Some(s)
  {
    if s != [] {
      var rest := Escape(s[1..]);
      EscapeDecodes(s[1..]);
      if s[0] == Quote {
        assert Escape(s)[2..] == rest;
      } else {
        assert Escape(s)[1..] == rest;
      }
      assert [s[0]] + s[1..] == s;
    }
  }

  /**
   * Backslashes are not escaped: a label ending in a backslash escapes the
   * closing quote, and a backslash before a quote leaves that quote unescaped.
   */
  lemma BackslashBreaksLiteral()
    ensures JsLiteral(Escape("a\\")) == None
    ensures JsLiteral(Escape("\\'")) == None
  {
    assert Escape("a\\") == "a\\";
    assert Escape("\\'") == "\\\\'";
  }

  /** A label's backslash before a letter is read as an escape: the label `\n` shows a line break. */
  lemma BackslashLetterIsEscape()
    ensures JsLiteral(Escape("\\n")) == Some("\n")
  {
    var t := "\\n";
    assert Escape(t) == t;
    assert t[1..] == "n" && t[2..] == [];
    assert EscapeSequence("n") == Some(('\n', 1));
    assert !LineTerminator(t[1]);
    assert JsLiteral(t) == Prepend('\n', JsLiteral([]));
    assert ['\n'] + [] == "\n";
  }

  /** A backslash before CR LF, or before a line or paragraph separator, continues the line and yields nothing. */
  lemma ContinuationYieldsNothing(s: string)
    ensures JsLiteral([Backslash, '\r', '\n'] + s) == JsLiteral(s)
    ensures JsLiteral([Backslash, '\U{2028}'] + s) == JsLiteral(s)
    ensures JsLiteral([Backslash, '\U{2029}'] + s) == JsLiteral(s)
  {
    assert ([Backslash, '\r', '\n'] + s)[3..] == s;
    assert ([Backslash, '\U{2028}'] + s)[2..] == s;
    assert ([Backslash, '\U{2029}'] + s)[2..] == s;
  }
}
