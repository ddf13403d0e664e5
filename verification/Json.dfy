/**
 * JSON texts as `json.dumps` writes them and `json.loads` reads them (RFC 8259). Numbers are
 * whole numbers; strings hold Unicode scalar values.
 */
module Json {
  import opened Wrappers
  import opened Decimal

  datatype Value =
    | Null
    | Bool(b: bool)
    | Num(n: int)
    | Str(s: string)
    | Arr(items: Items)
    | Obj(fields: Fields)

  datatype Items = NoItems | Item(head: Value, tail: Items)

  datatype Fields = NoFields | Field(key: string, value: Value, rest: Fields)

  // ---- Writing -----------------------------------------------------------------------------

  function HexDigit(d: nat): char
    requires d < 16
  {
    if d < 10 then ('0' as int + d) as char else ('a' as int + (d - 10)) as char
  }

  function Hex4(n: nat): (s: string)
    requires n < 0x10000
    ensures |s| == 4
  {
    [HexDigit(n / 4096), HexDigit(n / 256 % 16), HexDigit(n / 16 % 16), HexDigit(n % 16)]
  }

  /** The escape letter of a character that has a two-character escape. */
  function ShortEscape(c: char): Option<char> {
    if c == '"' then Some('"')
    else if c == '\\' then Some('\\')
    else if c == '\n' then Some('n')
    else if c == '\r' then Some('r')
    else if c == '\t' then Some('t')
    else if c as int == 8 then Some('b')
    else if c as int == 12 then Some('f')
    else None
  }

  function Escape(c: char): (s: string)
    ensures s != "" && s[0] != '"'
  {
    var short, n := ShortEscape(c), c as int;
    if short.Some? then ['\\', short.value]
    else if 0x20 <= n <= 0x7e then [c]
    else if n < 0x10000 then ['\\', 'u'] + Hex4(n)
    else
      var v := n - 0x10000;
      ['\\', 'u'] + Hex4(0xd800 + v / 1024) + (['\\', 'u'] + Hex4(0xdc00 + v % 1024))
  }

  function EscapeAll(s: string): string {
    if s == "" then "" else Escape(s[0]) + EscapeAll(s[1..])
  }

  function RenderString(s: string): string {
    ['"'] + (EscapeAll(s) + ['"'])
  }

  function RenderInt(n: int): (s: string)
    ensures s != ""
  {
    if n < 0 then ['-'] + Show(-n) else Show(n)
  }

  function Render(v: Value): string {
    match v
    case Null => "null"
    case Bool(b) => if b then "true" else "false"
    case Num(n) => RenderInt(n)
    case Str(s) => RenderString(s)
    case Arr(NoItems) => "[]"
    case Arr(Item(head, tail)) => ['['] + (Render(head) + RenderItems(tail))
    case Obj(NoFields) => "{}"
    case Obj(Field(key, value, rest)) =>
      ['{'] + (RenderString(key) + ([':', ' '] + (Render(value) + RenderFields(rest))))
  }

  /** The items after the first one, and the closing bracket. */
  function RenderItems(items: Items): string {
    match items
    case NoItems => "]"
    case Item(head, tail) => [',', ' '] + (Render(head) + RenderItems(tail))
  }

  function RenderFields(fields: Fields): string {
    match fields
    case NoFields => "}"
    case Field(key, value, rest) =>
      [',', ' '] + (RenderString(key) + ([':', ' '] + (Render(value) + RenderFields(rest))))
  }

  // ---- Reading -----------------------------------------------------------------------------

  /** A parsed value and the text that follows it. */
  datatype Parsed<+T> = Bad | Good(value: T, rest: string)

  predicate IsSpace(c: char) {
    c == ' ' || c == '\t' || c == '\n' || c == '\r'
  }

  function SkipSpace(s: string): (t: string)
    ensures |t| <= |s|
    ensures t != "" ==> !IsSpace(t[0])
  {
    if s != "" && IsSpace(s[0]) then SkipSpace(s[1..]) else s
  }

  function HexValue(c: char): Option<nat> {
    if '0' <= c <= '9' then Some(c as int - '0' as int)
    else if 'a' <= c <= 'f' then Some(10 + (c as int - 'a' as int))
    else if 'A' <= c <= 'F' then Some(10 + (c as int - 'A' as int))
    else None
  }

  function ParseHex4(s: string): (r: Option<nat>)
    ensures r.Some? ==> |s| >= 4 && r.value < 0x10000
  {
    if |s| < 4 then None
    else
      var a, b, c, d := HexValue(s[0]), HexValue(s[1]), HexValue(s[2]), HexValue(s[3]);
      if a.None? || b.None? || c.None? || d.None? then None
      else Some(a.value * 4096 + b.value * 256 + c.value * 16 + d.value)
  }

  function FromShortEscape(letter: char): Option<char> {
    if letter == '"' || letter == '\\' || letter == '/' then Some(letter)
    else if letter == 'n' then Some('\n')
    else if letter == 'r' then Some('\r')
    else if letter == 't' then Some('\t')
    else if letter == 'b' then Some(8 as char)
    else if letter == 'f' then Some(12 as char)
    else None
  }

  /** One character of a string, plain or escaped; s is not at the closing quote. */
  function ParseChar(s: string): (r: Parsed<char>)
    ensures r.Good? ==> |r.rest| < |s|
  {
    if s == "" || s[0] as int < 0x20 then Bad
    else if s[0] != '\\' then Good(s[0], s[1..])
    else if |s| < 2 then Bad
    else if s[1] != 'u' then
      match FromShortEscape(s[1])
      case None => Bad
      case Some(c) => Good(c, s[2..])
    else
      match ParseHex4(s[2..])
      case None => Bad
      case Some(n) =>
        if n < 0xd800 || n >= 0xe000 then Good(n as char, s[6..])
        else if n >= 0xdc00 || |s| < 12 || s[6] != '\\' || s[7] != 'u' then Bad
        else match ParseHex4(s[8..])
          case None => Bad
          case Some(low) =>
            if 0xdc00 <= low < 0xe000
            then Good((0x10000 + (n - 0xd800) * 1024 + (low - 0xdc00)) as char, s[12..])
            else Bad
  }

  /** The rest of a string after its opening quote. */
  function ParseString(s: string): (r: Parsed<string>)
    ensures r.Good? ==> |r.rest| < |s|
    decreases |s|
  {
    if s == "" then Bad
    else if s[0] == '"' then Good("", s[1..])
    else match ParseChar(s)
      case Bad => Bad
      case Good(c, t) =>
        match ParseString(t)
        case Bad => Bad
        case Good(cs, rest) => Good([c] + cs, rest)
  }

  /** The length of the longest prefix of digits. */
  function DigitSpan(s: string): (n: nat)
    ensures n <= |s| && AllDigits(s[..n])
  {
    if s == "" || !IsDigit(s[0]) then 0 else 1 + DigitSpan(s[1..])
  }

  /** Digits without a superfluous leading zero. */
  function ParseDigits(s: string): (r: Parsed<nat>)
    ensures r.Good? ==> |r.rest| < |s|
  {
    if s == "" || !IsDigit(s[0]) then Bad
    else if s[0] == '0' then Good(0, s[1..])
    else var n := DigitSpan(s); Good(Decimal.Value(s[..n]), s[n..])
  }

  function ParseInt(s: string): (r: Parsed<Value>)
    ensures r.Good? ==> |r.rest| < |s| && r.value.Num?
  {
    if s != "" && s[0] == '-' then
      match ParseDigits(s[1..])
      case Bad => Bad
      case Good(n, rest) => Good(Num(0 - n), rest)
    else
      match ParseDigits(s)
      case Bad => Bad
      case Good(n, rest) => Good(Num(n), rest)
  }

  /** The three words and the numbers. */
  function ParseScalar(s: string): (r: Parsed<Value>)
    ensures r.Good? ==> |r.rest| < |s| && (r.value.Null? || r.value.Bool? || r.value.Num?)
  {
    if "null" <= s then Good(Null, s[4..])
    else if "true" <= s then Good(Bool(true), s[4..])
    else if "false" <= s then Good(Bool(false), s[5..])
    else ParseInt(s)
  }

  function ParseValue(s: string): (r: Parsed<Value>)
    ensures r.Good? ==> |r.rest| < |s|
    decreases |s|, 0
  {
    if s == "" then Bad
    else if s[0] == '"' then
      match ParseString(s[1..])
      case Bad => Bad
      case Good(text, rest) => Good(Str(text), rest)
    else if s[0] == '[' then
      var t := SkipSpace(s[1..]);
      if t != "" && t[0] == ']' then Good(Arr(NoItems), t[1..])
      else match ParseItems(t)
        case Bad => Bad
        case Good(items, rest) => Good(Arr(items), rest)
    else if s[0] == '{' then
      var t := SkipSpace(s[1..]);
      if t != "" && t[0] == '}' then Good(Obj(NoFields), t[1..])
      else match ParseFields(t)
        case Bad => Bad
        case Good(fields, rest) => Good(Obj(fields), rest)
    else ParseScalar(s)
  }

  /** One or more items up to the closing bracket. */
  function ParseItems(s: string): (r: Parsed<Items>)
    ensures r.Good? ==> |r.rest| < |s|
    decreases |s|, 1
  {
    match ParseValue(s)
    case Bad => Bad
    case Good(head, after) =>
      var t := SkipSpace(after);
      if t == "" then Bad
      else if t[0] == ']' then Good(Item(head, NoItems), t[1..])
      else if t[0] != ',' then Bad
      else match ParseItems(SkipSpace(t[1..]))
        case Bad => Bad
        case Good(tail, rest) => Good(Item(head, tail), rest)
  }

  /** One or more members up to the closing brace. */
  function ParseFields(s: string): (r: Parsed<Fields>)
    ensures r.Good? ==> |r.rest| < |s|
    decreases |s|, 1
  {
    if s == "" || s[0] != '"' then Bad
    else match ParseString(s[1..])
      case Bad => Bad
      case Good(key, afterKey) =>
        var colon := SkipSpace(afterKey);
        if colon == "" || colon[0] != ':' then Bad
        else match ParseValue(SkipSpace(colon[1..]))
          case Bad => Bad
          case Good(value, after) =>
            var t := SkipSpace(after);
            if t == "" then Bad
            else if t[0] == '}' then Good(Field(key, value, NoFields), t[1..])
            else if t[0] != ',' then Bad
            else match ParseFields(SkipSpace(t[1..]))
              case Bad => Bad
              case Good(rest, end) => Good(Field(key, value, rest), end)
  }

  /** A whole text: one value with white space around it. */
  function Loads(s: string): Option<Value> {
    match ParseValue(SkipSpace(s))
    case Bad => None
    case Good(v, rest) => if SkipSpace(rest) == "" then Some(v) else None
  }
}
