/** Truncating an encoded JSON value to a length budget while keeping it valid JSON. */
module BoundedJson {
  import opened Options

  // ---- JSON string literals, as written without ASCII folding ----

  function Hex(n: nat): char
    requires n < 16
  {
    "0123456789abcdef"[n]
  }

  function HexValue(c: char): Option<nat> {
    if '0' <= c <= '9' then Some(c as nat - '0' as nat)
    else if 'a' <= c <= 'f' then Some(c as nat - 'a' as nat + 10)
    else None
  }

  function EscapeChar(c: char): (r: string)
    ensures 1 <= |r| <= 6
  {
    if c == '"' then "\\\""
    else if c == '\\' then "\\\\"
    else if c == '\n' then "\\n"
    else if c == '\r' then "\\r"
    else if c == '\t' then "\\t"
    else if c as nat == 8 then "\\b"
    else if c as nat == 12 then "\\f"
    else if c as nat < 32 then "\\u00" + [Hex(c as nat / 16), Hex(c as nat % 16)]
    else [c]
  }

  /** Each character replaced by what `f` writes for it. */
  function Replaced(s: string, f: char -> string): string {
    if s == "" then "" else f(s[0]) + Replaced(s[1..], f)
  }

  function Escape(s: string): string {
    Replaced(s, EscapeChar)
  }

  const BARE := "{\"_truncated\":true}"
  const OPENING := "{\"_truncated\":true,\"preview\":\""
  const CLOSING := "\"}"

  /** The truncation object that carries a preview. */
  function Preview(text: string): string {
    OPENING + Escape(text) + CLOSING
  }

  // ---- reading a literal back ----

  /** One character of a string literal, and what follows it. */
  function ReadChar(s: string): Option<(char, string)> {
    if s == "" || s[0] == '"' then None
    else if s[0] != '\\' then (if s[0] as nat < 32 then None else Some((s[0], s[1..])))
    else if |s| < 2 then None
    else match s[1]
      case '"' => Some(('"', s[2..]))
      case '\\' => Some(('\\', s[2..]))
      case 'n' => Some(('\n', s[2..]))
      case 'r' => Some(('\r', s[2..]))
      case 't' => Some(('\t', s[2..]))
      case 'b' => Some((8 as char, s[2..]))
      case 'f' => Some((12 as char, s[2..]))
      case 'u' =>
        if |s| < 6 || s[2] != '0' || s[3] != '0' then None
        else (match (HexValue(s[4]), HexValue(s[5]))
              case (Some(high), Some(low)) => Some(((16 * high + low) as char, s[6..]))
              case _ => None)
      case _ => None
  }

  /** Characters up to the closing quote, and what follows the quote. */
  function ReadString(s: string): Option<(string, string)>
    decreases |s|
  {
    if s == "" then None
    else if s[0] == '"' then Some(("", s[1..]))
    else match ReadChar(s)
      case None => None
      case Some((c, rest)) =>
        if |rest| >= |s| then None
        else match ReadString(rest)
          case None => None
          case Some((text, after)) => Some(([c] + text, after))
  }

  function ReadPreview(json: string): Option<string> {
    if !(OPENING <= json) then None
    else match ReadString(json[|OPENING|..])
      case Some((text, "}")) => Some(text)
      case _ => None
  }

  lemma {:induction false} ReadCharInvertsEscape(c: char, rest: string)
    ensures ReadChar(EscapeChar(c) + rest) == Some((c, rest))
    ensures (EscapeChar(c) + rest)[0] != '"'
  {
    var e := EscapeChar(c);
    assert (e + rest)[..|e|] == e && (e + rest)[|e|..] == rest;
    if c as nat < 32 && |e| == 6 {
      var n := c as nat;
      assert HexValue(Hex(n / 16)) == Some(n / 16);
      assert HexValue(Hex(n % 16)) == Some(n % 16);
    }
  }

  lemma {:induction false} ReadStringInvertsEscape(s: string, rest: string)
    ensures ReadString(Escape(s) + "\"" + rest) == Some((s, rest))
  {
    if s != "" {
      var tail := Escape(s[1..]) + "\"" + rest;
      assert Escape(s) + "\"" + rest == EscapeChar(s[0]) + tail;
      ReadCharInvertsEscape(s[0], tail);
      ReadStringInvertsEscape(s[1..], rest);
      assert [s[0]] + s[1..] == s;
    }
  }

  /** A truncation object is valid JSON whose preview reads back as the exact text. */
  lemma {:induction false} PreviewReadsBack(text: string)
    ensures ReadPreview(Preview(text)) == Some(text)
  {
    ReadStringInvertsEscape(text, "}");
    assert Preview(text)[|OPENING|..] == Escape(text) + "\"" + "}";
  }

  // ---- the length of a prefix's preview ----

  /** What each character costs: a printable one nothing more than itself, a quote, a backslash
      and the five control characters with a name two, any other control character six. */
  lemma {:induction false} EscapedLength(c: char)
    ensures |EscapeChar(c)| ==
      (if c == '"' || c == '\\' || c as nat in {8, 9, 10, 12, 13} then 2 else if c as nat >= 32 then 1 else 6)
    ensures |EscapeChar(c)| == 1 ==> EscapeChar(c) == [c]
  {
  }

  lemma {:induction false} ReplacedAppends(a: string, b: string, f: char -> string)
    ensures Replaced(a + b, f) == Replaced(a, f) + Replaced(b, f)
  {
    if a == "" {
      assert a + b == b;
    } else {
      ReplacedAppends(a[1..], b, f);
      assert (a + b)[1..] == a[1..] + b;
    }
  }

  lemma {:induction false} EscapeNeverShrinks(s: string)
    ensures |s| <= |Escape(s)|
  {
    if s != "" {
      EscapeNeverShrinks(s[1..]);
    }
  }

  /** A longer prefix needs strictly more room. */
  lemma {:induction false} PreviewGrows(s: string, i: nat, j: nat)
    requires i < j <= |s|
    ensures |Preview(s[..i])| + (j - i) <= |Preview(s[..j])|
  {
    assert s[..j] == s[..i] + s[i..j];
    ReplacedAppends(s[..i], s[i..j], EscapeChar);
    EscapeNeverShrinks(s[i..j]);
  }

  ghost predicate Fits(s: string, k: int, limit: int) {
    0 <= k <= |s| && |Preview(s[..k])| <= limit
  }

  /** What an exhaustive search over all prefixes would return. */
  ghost predicate LongestPreview(encoded: string, limit: int, r: string) {
    if exists k :: Fits(encoded, k, limit)
    then exists k :: Fits(encoded, k, limit) && r == Preview(encoded[..k])
                     && forall j :: Fits(encoded, j, limit) ==> j <= k
    else r == BARE
  }

  /** The encoded value if it fits, else the truncation object with the longest
      preview that fits, else the bare truncation object. */
  method BoundedDump(encoded: string, limit: int) returns (best: string)
    ensures |encoded| <= limit ==> best == encoded
    ensures |encoded| > limit ==> LongestPreview(encoded, limit, best)
    ensures |best| <= limit <==> |encoded| <= limit || |BARE| <= limit
  {
    if |encoded| <= limit {
      return encoded;
    }
    var low := 0;
    var high := if |encoded| < limit then |encoded| else limit;
    best := BARE;
    ghost var kept := -1;
    forall j | Fits(encoded, j, limit)
      ensures j <= high
    {
      EscapeNeverShrinks(encoded[..j]);
    }
    while low <= high
      invariant 0 <= low && -1 <= kept < low
      invariant high <= |encoded|
      invariant kept == -1 ==> best == BARE && low == 0
      invariant kept >= 0 ==> Fits(encoded, kept, limit) && best == Preview(encoded[..kept]) && low == kept + 1
      invariant forall j :: Fits(encoded, j, limit) ==> j <= high || j <= kept
      decreases high - low
    {
      var middle := (low + high) / 2;
      var candidate := Preview(encoded[..middle]);
      if |candidate| <= limit {
        best := candidate;
        kept := middle;
        low := middle + 1;
      } else {
        forall j | Fits(encoded, j, limit) && j >= middle
          ensures false
        {
          if j > middle {
            PreviewGrows(encoded, middle, j);
          }
        }
        high := middle - 1;
      }
    }
  }
}
