// JSON text as encoding/json writes it, and its length in bytes.
module Json {
  import opened Basics
  import opened Numerals

  // Bytes of a character in UTF-8.
  function Width(c: char): (n: nat)
    ensures 1 <= n <= 4
  {
    if c < '\U{80}' then 1 else if c < '\U{800}' then 2 else if c < '\U{10000}' then 3 else 4
  }

  // Section 3 of RFC 3629: how many code points n bytes have room for.
  function Room(n: nat): nat { if n <= 1 then 0x80 else 0x20 * if n == 2 then 0x40 else Room(n - 1) }

  // A character takes the fewest bytes that have room for it.
  lemma WidthIsLeast(c: char)
    ensures c as int < Room(Width(c)) && forall m: nat :: 1 <= m < Width(c) ==> Room(m) <= c as int
  {
    assert Room(2) == 0x800 && Room(3) == 0x10000 && Room(4) == 0x200000;
    forall m: nat | 1 <= m < Width(c) ensures Room(m) <= c as int {
      assert m == 1 || m == 2 || m == 3;
    }
  }

  function Size(s: string): nat {
    if s == "" then 0 else Size(s[..|s| - 1]) + Width(s[|s| - 1])
  }

  function Hex(d: nat): char
    requires d < 16
  {
    "0123456789abcdef"[d]
  }

  // Section 7 of RFC 8259 asks for the quote, the backslash and control characters;
  // encoding/json adds the characters HTML and JavaScript are sensitive to.
  predicate NeedsEscape(c: char) {
    c < ' ' || c == '"' || c == '\\' || c == '<' || c == '>' || c == '&' || c == '\U{2028}' || c == '\U{2029}'
  }

  function Escape(c: char): string {
    if c == '"' then "\\\""
    else if c == '\\' then "\\\\"
    else if c == '\n' then "\\n"
    else if c == '\r' then "\\r"
    else if c == '\t' then "\\t"
    else if c == '\U{8}' then "\\b"
    else if c == '\U{c}' then "\\f"
    else if c < ' ' || c == '<' || c == '>' || c == '&' then "\\u00" + [Hex(c as int / 16 % 16), Hex(c as int % 16)]
    else if c == '\U{2028}' then "\\u2028"
    else if c == '\U{2029}' then "\\u2029"
    else [c]
  }

  function Escaped(s: string): string {
    if s == "" then "" else Escaped(s[..|s| - 1]) + Escape(s[|s| - 1])
  }

  function Quoted(s: string): string { "\"" + Escaped(s) + "\"" }

  function HexValue(c: char): Option<nat> {
    if '0' <= c <= '9' then Some(c as int - '0' as int)
    else if 'a' <= c <= 'f' then Some(c as int - 'a' as int + 10)
    else None
  }

  // What a backslash and a letter stand for, by section 7 of RFC 8259.
  function Short(c: char): Option<char> {
    match c
    case '"' => Some('"')
    case '\\' => Some('\\')
    case '/' => Some('/')
    case 'b' => Some('\U{8}')
    case 'f' => Some('\U{c}')
    case 'n' => Some('\n')
    case 'r' => Some('\r')
    case 't' => Some('\t')
    case _ => None
  }

  function FourHex(s: string): Option<nat>
    requires |s| == 4
  {
    var a, b, c, d := HexValue(s[0]), HexValue(s[1]), HexValue(s[2]), HexValue(s[3]);
    if a.None? || b.None? || c.None? || d.None? then None
    else Some(((a.value * 16 + b.value) * 16 + c.value) * 16 + d.value)
  }

  function Prefixed(c: char, rest: Option<string>): Option<string> {
    if rest.None? then None else Some([c] + rest.value)
  }

  // A reader of what stands between the quotes. It takes no surrogates.
  function Unescaped(s: string): Option<string> {
    if s == "" then Some("")
    else if s[0] != '\\' then (if s[0] < ' ' || s[0] == '"' then None else Prefixed(s[0], Unescaped(s[1..])))
    else if |s| >= 6 && s[1] == 'u' then
      var code := FourHex(s[2..6]);
      if code.None? || code.value >= 0xD800 then None else Prefixed(code.value as char, Unescaped(s[6..]))
    else if |s| >= 2 && Short(s[1]).Some? then Prefixed(Short(s[1]).value, Unescaped(s[2..]))
    else None
  }

  lemma UnescapeOne(c: char, t: string)
    ensures Unescaped(Escape(c) + t) == Prefixed(c, Unescaped(t))
  {
    var s := Escape(c) + t;
    if |Escape(c)| == 6 {
      assert s[2..6] == Escape(c)[2..6] && s[6..] == t;
      HexBack(c);
    } else if |Escape(c)| == 2 {
      assert s[2..] == t;
    } else {
      assert s[1..] == t;
    }
  }

  lemma FourBack(x: nat, y: nat)
    requires x < 16 && y < 16
    ensures FourHex(['0', '0', Hex(x), Hex(y)]) == Some(16 * x + y)
  {
    DigitBack(x);
    DigitBack(y);
  }

  lemma ShortHex(c: char, s: string)
    requires |s| == 6 && s == "\\u00" + [Hex(c as int / 16 % 16), Hex(c as int % 16)] && c as int < 256
    ensures s[0] == '\\' && s[1] == 'u' && FourHex(s[2..6]) == Some(c as int)
  {
    assert s[2..6] == ['0', '0', Hex(c as int / 16 % 16), Hex(c as int % 16)];
    FourBack(c as int / 16 % 16, c as int % 16);
    Nibbles(c as int);
  }

  lemma HexBack(c: char)
    requires |Escape(c)| == 6
    ensures Escape(c)[0] == '\\' && Escape(c)[1] == 'u' && FourHex(Escape(c)[2..6]) == Some(c as int)
  {
    if c == '\U{2028}' || c == '\U{2029}' {
      assert Escape(c)[2..6] == if c == '\U{2028}' then "2028" else "2029";
    } else {
      ShortHex(c, Escape(c));
    }
  }

  lemma Nibbles(n: nat)
    requires n < 256
    ensures n == n / 16 % 16 * 16 + n % 16
  {
  }

  lemma DigitBack(d: nat)
    requires d < 16
    ensures HexValue(Hex(d)) == Some(d)
  {
  }

  lemma {:induction false} EscapedFirst(s: string)
    requires s != ""
    ensures Escaped(s) == Escape(s[0]) + Escaped(s[1..])
  {
    if |s| > 1 {
      EscapedFirst(s[..|s| - 1]);
      assert s[..|s| - 1][1..] == s[1..][..|s| - 2];
    } else {
      assert s[..0] == "" && s[1..] == "";
    }
  }

  // What is written is read back as it was.
  lemma {:induction false} RoundTrip(s: string)
    ensures Unescaped(Escaped(s)) == Some(s)
  {
    if s != "" {
      EscapedFirst(s);
      RoundTrip(s[1..]);
      UnescapeOne(s[0], Escaped(s[1..]));
      assert s == [s[0]] + s[1..];
    }
  }

  // What HTML, JavaScript or a JSON reader would take amiss.
  predicate Harmful(c: char) { c < ' ' || c in "<>&" || c as int == 0x2028 || c as int == 0x2029 }

  // And nothing harmful is written; what is neither that nor a quote nor a backslash is left alone.
  lemma {:induction false} Harmless(s: string)
    ensures forall c :: c in Escaped(s) ==> !Harmful(c)
    ensures (forall c :: c in s ==> !Harmful(c) && c != '"' && c != '\\') ==> Escaped(s) == s
  {
    if s != "" {
      var init, last := s[..|s| - 1], s[|s| - 1];
      Harmless(init);
      assert s == init + [last];
      OneHarmless(last);
    }
  }

  lemma OneHarmless(c: char)
    ensures forall x :: x in Escape(c) ==> !Harmful(x)
    ensures Escape(c) == [c] <==> !Harmful(c) && c != '"' && c != '\\'
  {
  }

  // How much longer a string gets by escaping.
  function Extra(s: string): nat {
    if s == "" then 0 else Extra(s[..|s| - 1]) + ExtraOf(s[|s| - 1])
  }

  function ExtraOf(c: char): nat {
    if !NeedsEscape(c) then 0
    else if c == '\U{2028}' || c == '\U{2029}' then 3
    else if c == '"' || c == '\\' || c == '\n' || c == '\r' || c == '\t' || c == '\U{8}' || c == '\U{c}' then 1
    else 5
  }

  lemma {:induction false} SizeAppend(s: string, t: string)
    ensures Size(s + t) == Size(s) + Size(t)
  {
    if t == "" {
      assert s + t == s;
    } else {
      SizeAppend(s, t[..|t| - 1]);
      assert (s + t)[..|s + t| - 1] == s + t[..|t| - 1];
    }
  }

  predicate Ascii(s: string) { forall i :: 0 <= i < |s| ==> s[i] < '\U{80}' }

  lemma {:induction false} AsciiSize(s: string)
    requires Ascii(s)
    ensures Size(s) == |s|
  {
    if s != "" {
      AsciiSize(s[..|s| - 1]);
    }
  }

  lemma EscapeSize(c: char)
    ensures Size(Escape(c)) == Width(c) + ExtraOf(c)
  {
    if Escape(c) == [c] {
      assert [c][..0] == "";
    } else {
      AsciiSize(Escape(c));
    }
  }

  lemma {:induction false} QuotedSize(s: string)
    ensures Size(Escaped(s)) == Size(s) + Extra(s)
    ensures Size(Quoted(s)) == Size(s) + Extra(s) + 2
  {
    if s != "" {
      QuotedSize(s[..|s| - 1]);
      EscapeSize(s[|s| - 1]);
      SizeAppend(Escaped(s[..|s| - 1]), Escape(s[|s| - 1]));
    }
    SizeAppend("\"", Escaped(s));
    SizeAppend("\"" + Escaped(s), "\"");
    AsciiSize("\"");
  }

  // Nothing is added exactly when nothing needs escaping.
  lemma {:induction false} NothingExtra(s: string)
    ensures Extra(s) == 0 <==> forall c :: c in s ==> !NeedsEscape(c)
  {
    if s != "" {
      NothingExtra(s[..|s| - 1]);
      assert s == s[..|s| - 1] + [s[|s| - 1]];
    }
  }

  lemma {:induction false} DecimalSize(n: nat)
    ensures Ascii(Decimal(n)) && Size(Decimal(n)) == |Decimal(n)|
  {
    if n >= 10 {
      DecimalSize(n / 10);
    }
    AsciiSize(Decimal(n));
  }
}
