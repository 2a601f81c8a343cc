/** The persisted key/value cache: values are stored as their JSON text, `null` removes the key, and a
    read parses the stored text, yielding `null` for an absent key or text that does not parse. */
module Cache {
  import opened Types

  /** The values the cache is given and gives back (JSON numbers, arrays and objects are not modelled). */
  datatype Value = Undefined | Null | Bool(b: bool) | Str(s: string)

  predicate IsHexDigit(c: char) {
    ('0' <= c <= '9') || ('a' <= c <= 'f') || ('A' <= c <= 'F')
  }

  function HexValue(c: char): (v: nat)
    requires IsHexDigit(c)
    ensures v < 16
  {
    if '0' <= c <= '9' then c as nat - '0' as nat
    else if 'a' <= c <= 'f' then c as nat - 'a' as nat + 10
    else c as nat - 'A' as nat + 10
  }

  /** Lower-case hexadecimal digit, as the serialiser writes them. */
  function HexChar(d: nat): (c: char)
    requires d < 16
    ensures IsHexDigit(c) && HexValue(c) == d
  {
    if d < 10 then (d + '0' as nat) as char else (d - 10 + 'a' as nat) as char
  }

  /** The short escape a JSON serialiser writes for `c`, if it has one. */
  function ShortEscape(c: char): Option<char>
  {
    if c == '"' then Some('"')
    else if c == '\\' then Some('\\')
    else if c == 8 as char then Some('b')
    else if c == 12 as char then Some('f')
    else if c == '\n' then Some('n')
    else if c == '\r' then Some('r')
    else if c == '\t' then Some('t')
    else None
  }

  /** The character a short escape letter stands for when parsing (the parser also accepts `\/`). */
  function Unescape(e: char): (r: Option<char>)
    ensures forall c :: ShortEscape(c) == Some(e) ==> r == Some(c)
  {
    if e == '"' then Some('"')
    else if e == '\\' then Some('\\')
    else if e == '/' then Some('/')
    else if e == 'b' then Some(8 as char)
    else if e == 'f' then Some(12 as char)
    else if e == 'n' then Some('\n')
    else if e == 'r' then Some('\r')
    else if e == 't' then Some('\t')
    else None
  }

  /** How the serialiser writes one character of a string: a short escape, a `\u00XX` escape for the
      other control characters, or the character itself. */
  function EscapeChar(c: char): (t: string)
    ensures |t| > 0
  {
    if ShortEscape(c).Some? then ['\\', ShortEscape(c).value]
    else if (c as int) < 0x20 then
      ['\\', 'u', '0', '0', HexChar(c as nat / 16), HexChar(c as nat % 16)]
    else [c]
  }

  function Escape(s: string): string
  {
    if |s| == 0 then "" else EscapeChar(s[0]) + Escape(s[1..])
  }

  /** The text `setItem` stores for a value: its JSON serialisation, or "undefined" for `undefined`,
      whose serialisation is itself undefined and is then converted to text. */
  function StoredText(v: Value): (t: string)
  {
    match v
    case Undefined => "undefined"
    case Null => "null"
    case Bool(b) => if b then "true" else "false"
    case Str(s) => "\"" + Escape(s) + "\""
  }

  predicate IsWhitespace(c: char) {
    c == ' ' || c == '\t' || c == '\n' || c == '\r'
  }

  function TrimStart(t: string): (r: string)
    ensures |r| <= |t| && r == t[|t| - |r|..]
    ensures |r| > 0 ==> !IsWhitespace(r[0])
  {
    if |t| > 0 && IsWhitespace(t[0]) then TrimStart(t[1..]) else t
  }

  function TrimEnd(t: string): (r: string)
    ensures |r| <= |t| && r == t[..|r|]
    ensures |r| > 0 ==> !IsWhitespace(r[|r| - 1])
  {
    if |t| > 0 && IsWhitespace(t[|t| - 1]) then TrimEnd(t[..|t| - 1]) else t
  }

  /** The code point of a `\uXXXX` escape, when its four digits are hexadecimal. */
  function HexQuad(t: string): (r: Option<nat>)
    requires |t| >= 4
    ensures r.Some? ==> r.value < 0x10000
  {
    if IsHexDigit(t[0]) && IsHexDigit(t[1]) && IsHexDigit(t[2]) && IsHexDigit(t[3]) then
      Some(((HexValue(t[0]) * 16 + HexValue(t[1])) * 16 + HexValue(t[2])) * 16 + HexValue(t[3]))
    else None
  }

  /** The character a UTF-16 surrogate pair encodes. */
  function PairChar(high: nat, low: nat): (c: char)
    requires 0xD800 <= high < 0xDC00 && 0xDC00 <= low < 0xE000
    ensures 0x10000 <= c as int < 0x110000
  {
    (0x10000 + (high - 0xD800) * 0x400 + (low - 0xDC00)) as char
  }

  /** A `\uXXXX` escape at the head of `t`: the character it stands for and the length of its text;
      a high-surrogate escape needs a low-surrogate escape after it, and a lone surrogate is refused. */
  function UnicodeEscape(t: string): (r: Option<(char, nat)>)
    requires |t| >= 2 && t[0] == '\\' && t[1] == 'u'
    ensures r.Some? ==> 0 < r.value.1 <= |t|
  {
    if |t| < 6 then None
    else match HexQuad(t[2..6])
      case None => None
      case Some(code) =>
        if 0xD800 <= code < 0xDC00 then
          if |t| < 12 || t[6] != '\\' || t[7] != 'u' then None
          else match HexQuad(t[8..12])
            case None => None
            case Some(low) => if 0xDC00 <= low < 0xE000 then Some((PairChar(code, low), 12)) else None
        else if 0xDC00 <= code < 0xE000 then None
        else Some((code as char, 6))
  }

  /** Parses the body of a string literal (after its opening quote): the decoded characters and the
      text after the closing quote, or None when the literal is malformed. */
  function ParseString(t: string): (r: Option<(string, string)>)
    ensures r.Some? ==> |r.value.1| < |t|
  {
    if |t| == 0 then None
    else if t[0] == '"' then Some(("", t[1..]))
    else if t[0] == '\\' then
      if |t| < 2 then None
      else if t[1] == 'u' then
        match UnicodeEscape(t)
        case None => None
        case Some((c, n)) => Cons(c, ParseString(t[n..]))
      else match Unescape(t[1])
        case None => None
        case Some(c) => Cons(c, ParseString(t[2..]))
    else if (t[0] as int) < 0x20 then None
    else Cons(t[0], ParseString(t[1..]))
  }

  function Cons(c: char, r: Option<(string, string)>): Option<(string, string)>
  {
    match r
    case None => None
    case Some((s, rest)) => Some(([c] + s, rest))
  }

  /** `JSON.parse` on the stored text: None when it throws (or is a JSON value outside `Value`). */
  function Parse(text: string): (r: Option<Value>)
    ensures r.Some? ==> r.value != Undefined
  {
    ParseTrimmed(TrimEnd(TrimStart(text)))
  }

  /** The value a JSON text denotes once the surrounding whitespace is gone. */
  function ParseTrimmed(t: string): (r: Option<Value>)
    ensures r.Some? ==> r.value != Undefined
  {
    if t == "null" then Some(Null)
    else if t == "true" then Some(Bool(true))
    else if t == "false" then Some(Bool(false))
    else if |t| > 0 && t[0] == '"' then
      match ParseString(t[1..])
      case Some((s, rest)) => if rest == "" then Some(Str(s)) else None
      case None => None
    else None
  }

  /** `cache(k)`: the parse of the stored text, with `getItem`'s null parsing as null and a throw caught
      as null. */
  function Read(items: map<string, string>, k: string): (v: Value)
    ensures v != Undefined
    ensures k !in items ==> v == Null
  {
    if k !in items then Null
    else match Parse(items[k])
      case Some(v) => v
      case None => Null
  }

  /** `cache(k, v)`: `null` removes the key, anything else stores its text. */
  function Write(items: map<string, string>, k: string, v: Value): (r: map<string, string>)
    ensures forall k' :: k' != k ==> (k' in r <==> k' in items) && (k' in r ==> r[k'] == items[k'])
    ensures k in r <==> v != Null
  {
    if v == Null then items - {k} else items[k := StoredText(v)]
  }

  lemma {:induction false} EscapeCharParses(c: char, t: string)
    ensures ParseString(EscapeChar(c) + t) == Cons(c, ParseString(t))
  {
    var e := EscapeChar(c) + t;
    if ShortEscape(c).Some? {
      assert e[0] == '\\' && e[1] == ShortEscape(c).value && e[2..] == t;
    } else if (c as int) < 0x20 {
      assert e[0] == '\\' && e[1] == 'u' && e[6..] == t;
      var hi, lo := c as nat / 16, c as nat % 16;
      assert e[2..6] == ['0', '0', HexChar(hi), HexChar(lo)];
      assert HexQuad(e[2..6]) == Some(c as nat);
      assert UnicodeEscape(e) == Some((c, 6));
    } else {
      assert e[0] == c && e[1..] == t;
    }
  }

  lemma {:induction false} EscapeParses(s: string, rest: string)
    ensures ParseString(Escape(s) + "\"" + rest) == Some((s, rest))
  {
    if |s| == 0 {
      assert Escape(s) + "\"" + rest == "\"" + rest;
    } else {
      assert Escape(s) + "\"" + rest == EscapeChar(s[0]) + (Escape(s[1..]) + "\"" + rest);
      EscapeCharParses(s[0], Escape(s[1..]) + "\"" + rest);
      EscapeParses(s[1..], rest);
      assert [s[0]] + s[1..] == s;
    }
  }

  lemma TrimKeeps(t: string)
    requires |t| > 0 && !IsWhitespace(t[0]) && !IsWhitespace(t[|t| - 1])
    ensures Parse(t) == ParseTrimmed(t)
  {
    assert TrimStart(t) == t;
    assert TrimEnd(t) == t;
  }

  lemma ParseQuoted(text: string, s: string)
    requires text == "\"" + Escape(s) + "\""
    ensures Parse(text) == Some(Str(s))
  {
    TrimKeeps(text);
    assert text[1..] == Escape(s) + "\"" + "";
    EscapeParses(s, "");
    assert text[0] == '"';
  }

  /** Every value the cache can give back reads back as itself once stored. */
  lemma ParseStoredText(v: Value)
    requires v != Undefined
    ensures Parse(StoredText(v)) == Some(v)
  {
    match v {
      case Null => ParseLiteral("null", Null);
      case Bool(b) => ParseLiteral(if b then "true" else "false", v);
      case Str(s) => ParseQuoted(StoredText(v), s);
    }
  }

  lemma ParseLiteral(text: string, v: Value)
    requires (text, v) == ("null", Null) || (text, v) == ("true", Bool(true)) || (text, v) == ("false", Bool(false))
    ensures Parse(text) == Some(v)
  {
    TrimKeeps(text);
  }

  /** The text stored for `undefined` does not parse. */
  lemma UndefinedTextUnparsable()
    ensures Parse(StoredText(Undefined)) == None
  {
    TrimKeeps("undefined");
    assert "undefined"[0] == 'u';
  }

  /** A surrogate-pair escape decodes to the one character it encodes, as `JSON.parse` does. */
  lemma ParseSurrogatePair()
    ensures Parse("\"\\uD83D\\uDE00\"") == Some(Str("\U{1F600}"))
  {
    var t := "\"\\uD83D\\uDE00\"";
    TrimKeeps(t);
    var body := t[1..];
    assert HexQuad(body[2..6]) == Some(0xD83D) by {
      assert body[2..6] == "D83D";
    }
    assert HexQuad(body[8..12]) == Some(0xDE00) by {
      assert body[8..12] == "DE00";
    }
    assert body[0] == '\\' && body[1] == 'u' && body[6] == '\\' && body[7] == 'u' && |body| == 13;
    assert UnicodeEscape(body) == Some((PairChar(0xD83D, 0xDE00), 12));
    assert body[12..] == "\"";
    assert ParseString(body[12..]) == Some(("", ""));
    assert PairChar(0xD83D, 0xDE00) == '\U{1F600}';
    assert ['\U{1F600}'] + "" == "\U{1F600}";
    assert ParseString(body) == Some(("\U{1F600}", ""));
  }

  /** `cache(k, v)` then `cache(k)` gives `v` back for every non-null value; `null` removes the key. */
  lemma WriteThenRead(items: map<string, string>, k: string, v: Value)
    ensures v != Undefined ==> Read(Write(items, k, v), k) == v
    ensures v == Undefined ==> Read(Write(items, k, v), k) == Null
  {
    if v == Undefined {
      UndefinedTextUnparsable();
    } else if v != Null {
      ParseStoredText(v);
    }
  }

  /** Text that does not parse reads as null. */
  lemma UnparsableReadsNull(items: map<string, string>, k: string)
    requires k in items && Parse(items[k]) == None
    ensures Read(items, k) == Null
  {
  }

  lemma WriteLeavesOtherKeys(items: map<string, string>, k: string, v: Value, k': string)
    requires k' != k
    ensures Read(Write(items, k, v), k') == Read(items, k')
  {
  }

  /** The browser's local storage, mutated in place. */
  class Store {
    var items: map<string, string>

    constructor (items0: map<string, string>)
      ensures items == items0
    {
      items := items0;
    }

    /** `cache(k, ...vs)`: the call dispatches on its argument count, `1 + |vs|`. With one argument it
        reads, with two it writes and returns undefined, and with more it does nothing. */
    method Cache(k: string, vs: seq<Value>) returns (r: Value)
      modifies this
      ensures |vs| == 0 ==> r == Read(items, k) && items == old(items)
      ensures |vs| == 1 ==> r == Undefined && items == Write(old(items), k, vs[0])
      ensures |vs| >= 2 ==> r == Undefined && items == old(items)
    {
      if |vs| == 1 {
        if vs[0] == Null {
          items := items - {k};
        } else {
          items := items[k := StoredText(vs[0])];
        }
        r := Undefined;
      } else if |vs| == 0 {
        if k !in items {
          r := Null;
        } else {
          var parsed := Parse(items[k]);
          r := if parsed.Some? then parsed.value else Null;
        }
      } else {
        r := Undefined;
      }
    }
  }
}
