/** `JSON.stringify` of an array of strings, as the upload form sends its
    tags, and a reader of JSON string arrays against which it is checked:
    what the form writes, a JSON reader reads back as the same tag list. */
module Json {
  import opened Wrappers

  /** A lower-case hexadecimal digit, as `JSON.stringify` writes them. */
  function HexDigit(d: nat): (c: char)
    requires d < 16
    ensures HexValue(c) == Some(d)
  {
    if d < 10 then ('0' as int + d) as char else ('a' as int + d - 10) as char
  }

  /** The value of a hexadecimal digit of either case. */
  function HexValue(c: char): (v: Option<nat>)
    ensures v.Some? ==> v.value < 16
  {
    if '0' <= c <= '9' then Some(c as int - '0' as int)
    else if 'a' <= c <= 'f' then Some(c as int - 'a' as int + 10)
    else if 'A' <= c <= 'F' then Some(c as int - 'A' as int + 10)
    else None
  }

  /** How `JSON.stringify` writes one character inside a string: the seven
      short escapes, `\u00xx` for the other control characters, every other
      character as it is. */
  function EscapeChar(c: char): string {
    if c == '"' then "\\\""
    else if c == '\\' then "\\\\"
    else if c == '\U{8}' then "\\b"
    else if c == '\U{C}' then "\\f"
    else if c == '\n' then "\\n"
    else if c == '\r' then "\\r"
    else if c == '\t' then "\\t"
    else if c < ' ' then "\\u00" + [HexDigit(c as int / 16), HexDigit(c as int % 16)]
    else [c]
  }

  function EscapeString(s: string): string {
    if s == [] then [] else EscapeChar(s[0]) + EscapeString(s[1..])
  }

  /** `JSON.stringify` of one string. */
  function Quote(s: string): string {
    "\"" + EscapeString(s) + "\""
  }

  /** The comma-separated quoted elements of a non-empty list. */
  function Elements(items: seq<string>): string
    requires items != []
  {
    if |items| == 1 then Quote(items[0]) else Quote(items[0]) + "," + Elements(items[1..])
  }

  /** `JSON.stringify` of an array of strings: bracketed, no spaces, and `[]`
      exactly for the empty list. */
  function Stringify(items: seq<string>): (r: string)
    ensures |r| >= 2 && r[0] == '[' && r[|r| - 1] == ']'
    ensures r == "[]" <==> items == []
  {
    var inner := if items == [] then "" else Elements(items);
    assert items != [] ==> inner[0] == '"';
    "[" + inner + "]"
  }

  /** The character an escape stands for, read after its backslash, and how
      many characters the escape takes. */
  function ReadEscape(s: string): (r: Option<(char, nat)>)
    ensures r.Some? ==> 1 <= r.value.1 <= |s|
  {
    if s == [] then None
    else if s[0] == '"' then Some(('"', 1))
    else if s[0] == '\\' then Some(('\\', 1))
    else if s[0] == '/' then Some(('/', 1))
    else if s[0] == 'b' then Some(('\U{8}', 1))
    else if s[0] == 'f' then Some(('\U{C}', 1))
    else if s[0] == 'n' then Some(('\n', 1))
    else if s[0] == 'r' then Some(('\r', 1))
    else if s[0] == 't' then Some(('\t', 1))
    else if s[0] == 'u' && |s| >= 5 then
      match (HexValue(s[1]), HexValue(s[2]), HexValue(s[3]), HexValue(s[4]))
      case (Some(a), Some(b), Some(c), Some(d)) =>
        var v := ((a * 16 + b) * 16 + c) * 16 + d;
        // a lone surrogate is not a character
        if 0xD800 <= v < 0xE000 then None else Some((v as char, 5))
      case _ => None
    else None
  }

  /** Reads the body of a JSON string up to its closing quote: the characters
      it stands for and the text after the quote. */
  function ReadString(s: string): (r: Option<(string, string)>)
    ensures r.Some? ==> |r.value.1| < |s|
    decreases |s|
  {
    if s == [] then None
    else if s[0] == '"' then Some(("", s[1..]))
    else if s[0] == '\\' then
      match ReadEscape(s[1..])
      case None => None
      case Some((c, k)) =>
        match ReadString(s[1 + k..])
        case None => None
        case Some((t, rest)) => Some(([c] + t, rest))
    else if s[0] < ' ' then None
    else
      match ReadString(s[1..])
      case None => None
      case Some((t, rest)) => Some(([s[0]] + t, rest))
  }

  /** Reads `"..." , "..." ... ]`: the elements of a non-empty array. */
  function ReadElements(s: string): Option<seq<string>>
    decreases |s|
  {
    if s == [] || s[0] != '"' then None
    else
      match ReadString(s[1..])
      case None => None
      case Some((t, rest)) =>
        if rest == "]" then Some([t])
        else if rest != [] && rest[0] == ',' then
          match ReadElements(rest[1..])
          case None => None
          case Some(ts) => Some([t] + ts)
        else None
  }

  /** Reads a whole JSON array of strings. */
  function ReadArray(s: string): Option<seq<string>> {
    if s == "[]" then Some([])
    else if s == [] || s[0] != '[' then None
    else ReadElements(s[1..])
  }

  /** `c` put in front of the characters a read produced. */
  function Prepend(c: char, r: Option<(string, string)>): Option<(string, string)> {
    match r
    case None => None
    case Some((t, rest)) => Some(([c] + t, rest))
  }

  /** A character's escape reads back as that character. */
  lemma EscapeCharReads(c: char, rest: string)
    ensures ReadString(EscapeChar(c) + rest) == Prepend(c, ReadString(rest))
  {
    var s := EscapeChar(c) + rest;
    if c == '"' || c == '\\' || c == '\U{8}' || c == '\U{C}' || c == '\n' || c == '\r' || c == '\t' {
      assert s[1..][0] == EscapeChar(c)[1];
      assert s[2..] == rest;
    } else if c < ' ' {
      var hi, lo := c as int / 16, c as int % 16;
      assert s[1..][..5] == "u00" + [HexDigit(hi), HexDigit(lo)];
      assert ReadEscape(s[1..]) == Some((c, 5));
      assert s[6..] == rest;
    } else {
      assert s[1..] == rest;
    }
  }

  /** An escaped string followed by its closing quote reads back as itself. */
  lemma {:induction false} EscapeStringReads(t: string, rest: string)
    ensures ReadString(EscapeString(t) + "\"" + rest) == Some((t, rest))
  {
    if t == [] {
      assert EscapeString(t) + "\"" + rest == "\"" + rest;
    } else {
      var tail := EscapeString(t[1..]) + "\"" + rest;
      assert EscapeString(t) + "\"" + rest == EscapeChar(t[0]) + tail;
      EscapeCharReads(t[0], tail);
      EscapeStringReads(t[1..], rest);
      assert [t[0]] + t[1..] == t;
    }
  }

  /** Reading elements starts by reading one escaped string. */
  lemma ReadFirstElement(t: string, rest: string)
    ensures ReadElements("\"" + (EscapeString(t) + "\"" + rest)) ==
      if rest == "]" then Some([t])
      else if rest != [] && rest[0] == ',' then
        match ReadElements(rest[1..])
        case None => None
        case Some(ts) => Some([t] + ts)
      else None
  {
    var s := "\"" + (EscapeString(t) + "\"" + rest);
    assert s[0] == '"' && s[1..] == EscapeString(t) + "\"" + rest;
    EscapeStringReads(t, rest);
  }

  /** Regroups a quoted string followed by more text so that its opening
      quote comes first, the shape `ReadFirstElement` reads; `ElementsRead`
      uses it. */
  lemma QuoteThen(x: string, y: string)
    ensures Quote(x) + y == "\"" + (EscapeString(x) + "\"" + y)
  {
  }

  /** The elements written for a non-empty list read back as that list. */
  lemma {:induction false} ElementsRead(items: seq<string>)
    requires items != []
    ensures ReadElements(Elements(items) + "]") == Some(items)
  {
    if |items| == 1 {
      QuoteThen(items[0], "]");
      ReadFirstElement(items[0], "]");
      assert [items[0]] == items;
    } else {
      var more := Elements(items[1..]) + "]";
      var rest := "," + more;
      assert Elements(items) + "]" == Quote(items[0]) + rest;
      QuoteThen(items[0], rest);
      ReadFirstElement(items[0], rest);
      assert rest[0] == ',' && rest[1..] == more;
      ElementsRead(items[1..]);
      assert [items[0]] + items[1..] == items;
    }
  }

  /** What `JSON.stringify` writes for a list of strings reads back as the
      same list, element for element and in order. */
  lemma StringifyRoundTrip(items: seq<string>)
    ensures ReadArray(Stringify(items)) == Some(items)
  {
    if items != [] {
      var s := Stringify(items);
      assert s[1..] == Elements(items) + "]";
      assert s[1] == '"';
      ElementsRead(items);
    }
  }
}
