/*
 * Webhook notifications. Every notifying snapshot posts `{"content":"<msg>"}`;
 * v8.2 first escapes line feeds and double quotes of the message, the others
 * paste it in as it is. What a JSON string may contain is fixed by RFC 8259,
 * section 7: no unescaped quotation mark, reverse solidus or control character.
 */
module Notify {

  function Count(s: string, c: char): nat {
    if |s| == 0 then 0 else (if s[0] == c then 1 else 0) + Count(s[1..], c)
  }

  predicate IsControl(c: char) { c < ' ' }

  predicate IsHexDigit(c: char) {
    '0' <= c <= '9' || 'a' <= c <= 'f' || 'A' <= c <= 'F'
  }

  /** The characters that may follow a reverse solidus, besides `u` and four hex digits. */
  predicate IsShortEscape(c: char) {
    c == '"' || c == '\\' || c == '/' || c == 'b' || c == 'f' || c == 'n' || c == 'r' || c == 't'
  }

  /** The text between the quotation marks of a JSON string, as RFC 8259 section 7 allows it. */
  predicate JsonStringBody(t: string)
    decreases |t|
  {
    if |t| == 0 then true
    else if t[0] == '\\' then
      if |t| >= 2 && IsShortEscape(t[1]) then JsonStringBody(t[2..])
      else if |t| >= 6 && t[1] == 'u' && IsHexDigit(t[2]) && IsHexDigit(t[3]) && IsHexDigit(t[4]) && IsHexDigit(t[5])
        then JsonStringBody(t[6..])
      else false
    else if t[0] == '"' || IsControl(t[0]) then false
    else JsonStringBody(t[1..])
  }

  /** The body of the webhook request. */
  function Payload(content: string): (p: string)
    ensures |p| == |content| + 14 && p[12..|p| - 2] == content
  {
    var head := "{\"content\":\"";
    assert |head| == 12;
    head + content + "\"}"
  }

  // ------------------------------------------------ without escaping

  // Every notifying snapshot but v8.2 sends `Payload(msg)` as it is.

  /** A message with a line feed is not a JSON string body: the request is malformed. */
  lemma {:induction false} RawLineFeedRejected(msg: string)
    requires '\n' in msg
    ensures !JsonStringBody(msg)
    decreases |msg|
  {
    var i :| 0 <= i < |msg| && msg[i] == '\n';
    if msg[0] == '\\' {
      if |msg| >= 2 && IsShortEscape(msg[1]) {
        assert msg[2..][i - 2] == '\n';
        RawLineFeedRejected(msg[2..]);
      } else if |msg| >= 6 && msg[1] == 'u' && IsHexDigit(msg[2]) && IsHexDigit(msg[3]) && IsHexDigit(msg[4]) && IsHexDigit(msg[5]) {
        assert msg[6..][i - 6] == '\n';
        RawLineFeedRejected(msg[6..]);
      }
    } else if msg[0] != '\n' && msg[0] != '"' && !IsControl(msg[0]) {
      assert msg[1..][i - 1] == '\n';
      RawLineFeedRejected(msg[1..]);
    }
  }

  /** Most alerts of v8.0 contain a line feed, for instance the lockout warning. */
  const LockoutAlert: string := "**Timeout**" + "\n" + "Pump ran for more than 10 minutes and was locked out."

  lemma UnescapedAlertMalformed()
    ensures !JsonStringBody(Payload(LockoutAlert)[12..|Payload(LockoutAlert)| - 2])
  {
    assert LockoutAlert[|"**Timeout**"|] == '\n';
    RawLineFeedRejected(LockoutAlert);
  }

  // ------------------------------------------------------- v8.2: the escaping

  function EscapeChar(c: char): string {
    if c == '\n' then "\\n" else if c == '"' then "\\\"" else [c]
  }

  /** The message with each line feed and quotation mark replaced by its escape sequence. */
  function Escaped(s: string): string
    decreases |s|
  {
    if |s| == 0 then [] else EscapeChar(s[0]) + Escaped(s[1..])
  }

  lemma {:induction false} EscapedAppend(s: string, t: string)
    ensures Escaped(s + t) == Escaped(s) + Escaped(t)
    decreases |s|
  {
    if |s| == 0 {
      assert s + t == t;
    } else {
      assert (s + t)[1..] == s[1..] + t;
      EscapedAppend(s[1..], t);
    }
  }

  /** The escaping loop of `sendDiscordAlert` and `sendDiscordAlert_2`. */
  method EscapeMessage(msg: string) returns (escaped: string)
    ensures escaped == Escaped(msg)
  {
    escaped := "";
    var i := 0;
    while i < |msg|
      invariant 0 <= i <= |msg|
      invariant escaped == Escaped(msg[..i])
    {
      var c := msg[i];
      if c == '\n' {
        escaped := escaped + "\\n";
      } else if c == '"' {
        escaped := escaped + "\\\"";
      } else {
        escaped := escaped + [c];
      }
      EscapedAppend(msg[..i], [c]);
      assert msg[..i + 1] == msg[..i] + [c];
      i := i + 1;
    }
    assert msg[..i] == msg;
  }

  /** Each line feed and quotation mark costs one extra character. */
  lemma {:induction false} EscapedLength(s: string)
    ensures |Escaped(s)| == |s| + Count(s, '\n') + Count(s, '"')
    decreases |s|
  {
    if |s| > 0 {
      EscapedLength(s[1..]);
    }
  }

  /** The messages the firmware composes: no reverse solidus, no control character but the line feed. */
  predicate PlainMessage(s: string) {
    forall i :: 0 <= i < |s| ==> s[i] != '\\' && (IsControl(s[i]) ==> s[i] == '\n')
  }

  /** v8.2's payload is well-formed JSON for every message it composes. */
  lemma {:induction false} EscapedIsJsonBody(s: string)
    requires PlainMessage(s)
    ensures JsonStringBody(Escaped(s))
    decreases |s|
  {
    if |s| > 0 {
      EscapedIsJsonBody(s[1..]);
      var t := Escaped(s);
      assert t == EscapeChar(s[0]) + Escaped(s[1..]);
      if s[0] == '\n' || s[0] == '"' {
        assert t[2..] == Escaped(s[1..]);
      } else {
        assert t[1..] == Escaped(s[1..]);
      }
    }
  }

  function DecodeEscape(c: char): char {
    match c
    case 'n' => '\n'
    case 'r' => '\r'
    case 't' => '\t'
    case 'b' => '\U{8}'
    case 'f' => '\U{C}'
    case _ => c
  }

  /** How the receiver reads a JSON string body back (short escapes only). */
  function Unescape(t: string): string
    decreases |t|
  {
    if |t| == 0 then []
    else if t[0] == '\\' && |t| >= 2 then [DecodeEscape(t[1])] + Unescape(t[2..])
    else [t[0]] + Unescape(t[1..])
  }

  /** The receiver sees exactly the message the firmware composed. */
  lemma {:induction false} UnescapeEscaped(s: string)
    requires forall i :: 0 <= i < |s| ==> s[i] != '\\'
    ensures Unescape(Escaped(s)) == s
    decreases |s|
  {
    if |s| > 0 {
      UnescapeEscaped(s[1..]);
      var t := Escaped(s);
      assert t == EscapeChar(s[0]) + Escaped(s[1..]);
      if s[0] == '\n' || s[0] == '"' {
        assert t[2..] == Escaped(s[1..]);
      } else {
        assert t[1..] == Escaped(s[1..]);
      }
    }
  }

  /** The escaping leaves reverse solidi alone, so it is not injective on arbitrary text. */
  lemma EscapeKeepsBackslash()
    ensures Escaped("\n") == Escaped("\\n")
  {
    assert Escaped("\n") == "\\n" + Escaped("");
    assert Escaped("\\n") == "\\" + Escaped("n");
    assert Escaped("n") == "n" + Escaped("");
  }

  /** v8.2's payload. */
  function PayloadEscaped(msg: string): (p: string)
    ensures |p| == |Escaped(msg)| + 14 && p[12..|p| - 2] == Escaped(msg)
  {
    Payload(Escaped(msg))
  }
}
