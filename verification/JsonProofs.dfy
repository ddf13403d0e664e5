/**
 * Reading undoes writing, and no proper prefix of a written array or object can be read:
 * what a reader sees while the file is being rewritten is never half a list.
 */
module JsonProofs {
  import opened Wrappers
  import opened Decimal
  import opened Json
  import opened Seqs

  // ---- Reading undoes writing ---------------------------------------------------------------

  lemma HexValueOfDigit(d: nat)
    requires d < 16
    ensures HexValue(HexDigit(d)) == Some(d)
  {
  }

  lemma HexPlaces(n: nat)
    ensures n / 4096 * 4096 + n / 256 % 16 * 256 + n / 16 % 16 * 16 + n % 16 == n
  {
    assert n / 256 == n / 4096 * 16 + n / 256 % 16;
    assert n / 16 == n / 256 * 16 + n / 16 % 16;
  }

  lemma ParseHexOfHex(s: string, n: nat)
    requires n < 0x10000 && |s| >= 4 && s[..4] == Hex4(n)
    ensures ParseHex4(s) == Some(n)
  {
    var h := s[..4];
    assert s[0] == h[0] && s[1] == h[1] && s[2] == h[2] && s[3] == h[3];
    HexValueOfDigit(n / 4096);
    HexValueOfDigit(n / 256 % 16);
    HexValueOfDigit(n / 16 % 16);
    HexValueOfDigit(n % 16);
    HexPlaces(n);
  }

  lemma ParseCharOfUnicodeEscape(c: char, s: string)
    requires (c as int < 0xd800 || 0xe000 <= c as int < 0x10000)
    requires |s| >= 6 && s[0] == '\\' && s[1] == 'u' && s[2..6] == Hex4(c as int)
    ensures ParseChar(s) == Good(c, s[6..])
  {
    assert s[2..][..4] == s[2..6];
    ParseHexOfHex(s[2..], c as int);
  }

  lemma ParseCharOfSurrogates(c: char, s: string, high: nat, low: nat)
    requires 0xd800 <= high < 0xdc00 <= low < 0xe000
    requires c as int == 0x10000 + (high - 0xd800) * 1024 + (low - 0xdc00)
    requires |s| >= 12 && s[0] == '\\' && s[1] == 'u' && s[6] == '\\' && s[7] == 'u'
    requires ParseHex4(s[2..]) == Some(high) && ParseHex4(s[8..]) == Some(low)
    ensures ParseChar(s) == Good(c, s[12..])
  {
  }

  lemma ParseCharOfEscape(c: char, t: string)
    ensures ParseChar(Escape(c) + t) == Good(c, t)
  {
    var e := Escape(c);
    var s, n := e + t, c as int;
    assert s[|e|..] == t;
    if ShortEscape(c).Some? {
      assert |e| == 2 && s[0] == '\\' && s[1] == ShortEscape(c).value;
    } else if 0x20 <= n <= 0x7e {
      assert |e| == 1 && s[0] == c;
    } else if n < 0x10000 {
      assert |e| == 6 && s[2..6] == e[2..6] == Hex4(n);
      ParseCharOfUnicodeEscape(c, s);
    } else {
      var v := n - 0x10000;
      var high, low := 0xd800 + v / 1024, 0xdc00 + v % 1024;
      assert |e| == 12 && s[2..][..4] == e[2..6] == Hex4(high);
      assert s[8..][..4] == e[8..12] == Hex4(low);
      ParseHexOfHex(s[2..], high);
      ParseHexOfHex(s[8..], low);
      ParseCharOfSurrogates(c, s, high, low);
    }
  }

  lemma ParseStringStep(c: char, tail: string)
    ensures ParseString(Escape(c) + tail) ==
            match ParseString(tail) case Bad => Bad case Good(cs, rest) => Good([c] + cs, rest)
  {
    ParseCharOfEscape(c, tail);
  }

  lemma EscapeAllStep(s: string, t: string)
    requires s != ""
    ensures EscapeAll(s) + t == Escape(s[0]) + (EscapeAll(s[1..]) + t)
  {
    Assoc(Escape(s[0]), EscapeAll(s[1..]), t);
  }

  lemma {:induction false} ParseStringOfEscaped(s: string, t: string)
    ensures ParseString(EscapeAll(s) + (['"'] + t)) == Good(s, t)
  {
    var quoted := ['"'] + t;
    if s == "" {
      assert EscapeAll(s) + quoted == quoted;
      assert quoted[1..] == t;
    } else {
      ParseStringOfEscaped(s[1..], t);
      ParseStringStep(s[0], EscapeAll(s[1..]) + quoted);
      EscapeAllStep(s, quoted);
      assert [s[0]] + s[1..] == s;
    }
  }

  predicate NoDigitFirst(t: string) {
    t == "" || !IsDigit(t[0])
  }

  lemma {:induction false} DigitSpanOfDigits(a: string, t: string)
    requires AllDigits(a) && NoDigitFirst(t)
    ensures DigitSpan(a + t) == |a|
  {
    if a == "" {
      assert a + t == t;
    } else {
      assert (a + t)[1..] == a[1..] + t;
      DigitSpanOfDigits(a[1..], t);
    }
  }

  lemma ParseDigitsOfShow(n: nat, t: string)
    requires NoDigitFirst(t)
    ensures ParseDigits(Show(n) + t) == Good(n, t)
  {
    var a := Show(n);
    LeadingDigit(n);
    ValueOfShow(n);
    DigitSpanOfDigits(a, t);
    SplitAt(a, t);
  }

  lemma ParseIntOfRender(n: int, t: string)
    requires NoDigitFirst(t)
    ensures ParseInt(RenderInt(n) + t) == Good(Num(n), t)
    ensures RenderInt(n)[0] == '-' || IsDigit(RenderInt(n)[0])
  {
    if n < 0 {
      ParseDigitsOfShow(-n, t);
      Assoc(['-'], Show(-n), t);
      DropFirst('-', Show(-n) + t);
    } else {
      ParseDigitsOfShow(n, t);
    }
  }

  /** A rendered value starts with neither space nor a closing bracket. */
  lemma RenderStart(v: Value)
    ensures Render(v) != "" && !IsSpace(Render(v)[0]) && Render(v)[0] != ']'
  {
    if v.Num? {
      ParseIntOfRender(v.n, "");
    }
  }

  lemma SkipNothing(s: string)
    requires s == "" || !IsSpace(s[0])
    ensures SkipSpace(s) == s
    ensures SkipSpace([' '] + s) == s
  {
    assert ([' '] + s)[1..] == s;
  }

  lemma ParseQuoted(u: string, text: string, t: string)
    requires ParseString(u) == Good(text, t)
    ensures ParseValue(['"'] + u) == Good(Str(text), t)
  {
    DropFirst('"', u);
  }

  lemma ParseArrayValue(u: string, items: Items, t: string)
    requires u != "" && !IsSpace(u[0]) && u[0] != ']' && ParseItems(u) == Good(items, t)
    ensures ParseValue(['['] + u) == Good(Arr(items), t)
  {
    SkipNothing(u);
    DropFirst('[', u);
  }

  lemma ParseObjectValue(u: string, fields: Fields, t: string)
    requires u != "" && u[0] == '"' && ParseFields(u) == Good(fields, t)
    ensures ParseValue(['{'] + u) == Good(Obj(fields), t)
  {
    SkipNothing(u);
    DropFirst('{', u);
  }

  lemma ParseEmptyOrWord(v: Value, t: string)
    requires v.Null? || v.Bool? || v == Arr(NoItems) || v == Obj(NoFields)
    ensures ParseValue(Render(v) + t) == Good(v, t)
  {
    var s := Render(v) + t;
    assert s[|Render(v)|..] == t;
    match v
    case Arr(_) =>
      assert s[1..] == [']'] + t;
      SkipNothing(s[1..]);
    case Obj(_) =>
      assert s[1..] == ['}'] + t;
      SkipNothing(s[1..]);
    case _ =>
  }

  lemma {:induction false} ParseRendered(v: Value, t: string)
    requires v.Num? ==> NoDigitFirst(t)
    ensures ParseValue(Render(v) + t) == Good(v, t)
    decreases v, 0
  {
    var s := Render(v) + t;
    match v
    case Num(n) =>
      ParseIntOfRender(n, t);
    case Str(text) =>
      var u := EscapeAll(text) + (['"'] + t);
      Assoc(['"'], EscapeAll(text) + ['"'], t);
      Assoc(EscapeAll(text), ['"'], t);
      ParseStringOfEscaped(text, t);
      ParseQuoted(u, text, t);
    case Arr(Item(head, tail)) =>
      var u := Render(head) + RenderItems(tail) + t;
      Assoc(['['], Render(head) + RenderItems(tail), t);
      RenderStart(head);
      ParseRenderedItems(head, tail, t);
      ParseArrayValue(u, Item(head, tail), t);
    case Obj(Field(key, value, rest)) =>
      var u := RenderField(key, value, rest) + t;
      Assoc(['{'], RenderField(key, value, rest), t);
      ParseRenderedFields(key, value, rest, t);
      ParseObjectValue(u, Field(key, value, rest), t);
    case _ =>
      ParseEmptyOrWord(v, t);
  }

  lemma ParseLastItem(s: string, head: Value, t: string)
    requires ParseValue(s) == Good(head, [']'] + t)
    ensures ParseItems(s) == Good(Item(head, NoItems), t)
  {
    SkipNothing([']'] + t);
    assert ([']'] + t)[1..] == t;
  }

  /** What a separator and one space leave to be read. */
  lemma SkipSeparator(mark: char, u: string)
    requires !IsSpace(mark) && u != "" && !IsSpace(u[0])
    ensures var t := [mark, ' '] + u; SkipSpace(t) == t && t[0] == mark && SkipSpace(t[1..]) == u
  {
    var t := [mark, ' '] + u;
    SkipNothing(t);
    assert t[1..] == [' '] + u;
    SkipNothing(u);
  }

  lemma ParseNextItem(s: string, head: Value, after: string, u: string, tail: Items, t: string)
    requires ParseValue(s) == Good(head, after)
    requires SkipSpace(after) == after && after != "" && after[0] == ',' && SkipSpace(after[1..]) == u
    requires ParseItems(u) == Good(tail, t)
    ensures ParseItems(s) == Good(Item(head, tail), t)
  {
  }

  lemma {:induction false} ParseRenderedItems(head: Value, tail: Items, t: string)
    ensures ParseItems(Render(head) + RenderItems(tail) + t) == Good(Item(head, tail), t)
    decreases Item(head, tail), 1
  {
    var s, after := Render(head) + RenderItems(tail) + t, RenderItems(tail) + t;
    Assoc(Render(head), RenderItems(tail), t);
    ParseRendered(head, after);
    match tail
    case NoItems =>
      ParseLastItem(s, head, t);
    case Item(next, others) =>
      var u := Render(next) + RenderItems(others) + t;
      Assoc([',', ' '], Render(next) + RenderItems(others), t);
      RenderStart(next);
      ParseRenderedItems(next, others, t);
      SkipSeparator(',', u);
      ParseNextItem(s, head, after, u, tail, t);
  }

  /** One member and those after it, as they stand behind an opening brace or a separator. */
  function RenderField(key: string, value: Value, rest: Fields): string {
    RenderString(key) + ([':', ' '] + (Render(value) + RenderFields(rest)))
  }

  /** The key, the colon and the value of a member. */
  lemma ParseMember(s: string, key: string, colon: string, body: string, value: Value, after: string)
    requires s != "" && s[0] == '"' && ParseString(s[1..]) == Good(key, colon)
    requires SkipSpace(colon) == colon && colon != "" && colon[0] == ':' && SkipSpace(colon[1..]) == body
    requires ParseValue(body) == Good(value, after) && SkipSpace(after) == after && after != ""
    ensures after[0] == '}' ==> ParseFields(s) == Good(Field(key, value, NoFields), after[1..])
    ensures forall rest, t | after[0] == ',' && ParseFields(SkipSpace(after[1..])) == Good(rest, t) ::
              ParseFields(s) == Good(Field(key, value, rest), t)
  {
  }

  /** Regroups the pieces of a member: key, closing quote, colon, value, later members, later text. */
  lemma Regroup(quote: string, key: string, colon: string, value: string, rest: string, t: string)
    ensures quote + (key + quote) + (colon + (value + rest)) + t
         == quote + (key + (quote + (colon + (value + (rest + t)))))
  {
    assert (key + quote) + (colon + (value + rest)) + t == key + (quote + (colon + (value + (rest + t))));
  }

  lemma FieldText(key: string, value: Value, rest: Fields, t: string)
    ensures var s := RenderField(key, value, rest) + t;
            var colon := [':', ' '] + (Render(value) + (RenderFields(rest) + t));
            s != "" && s[0] == '"' && s[1..] == EscapeAll(key) + (['"'] + colon)
  {
    Regroup(['"'], EscapeAll(key), [':', ' '], Render(value), RenderFields(rest), t);
  }

  lemma RestText(rest: Fields, t: string)
    ensures rest.NoFields? ==> RenderFields(rest) + t == ['}'] + t
    ensures rest.Field? ==>
              RenderFields(rest) + t == [',', ' '] + (RenderField(rest.key, rest.value, rest.rest) + t)
  {
  }

  lemma {:induction false} ParseRenderedFields(key: string, value: Value, rest: Fields, t: string)
    ensures ParseFields(RenderField(key, value, rest) + t) == Good(Field(key, value, rest), t)
    decreases Field(key, value, rest), 1
  {
    var s, after := RenderField(key, value, rest) + t, RenderFields(rest) + t;
    var body := Render(value) + after;
    var colon := [':', ' '] + body;
    FieldText(key, value, rest, t);
    RestText(rest, t);
    ParseStringOfEscaped(key, colon);
    RenderStart(value);
    SkipSeparator(':', body);
    ParseRendered(value, after);
    SkipNothing(after);
    ParseMember(s, key, colon, body, value, after);
    if rest.NoFields? {
      assert after[1..] == t;
    } else {
      var u := RenderField(rest.key, rest.value, rest.rest) + t;
      ParseRenderedFields(rest.key, rest.value, rest.rest, t);
      SkipSeparator(',', u);
    }
  }

  /** The white space of JSON (section 2 of RFC 8259). */
  lemma SpacesExactly(c: char)
    ensures IsSpace(c) <==> c as int in {0x20, 0x09, 0x0a, 0x0d}
  {
  }

  /** The escapes of two characters (section 7 of RFC 8259), also the one for a slash, which is never written. */
  lemma ReadsShortEscapes(t: string)
    ensures ParseChar(['\\', '/'] + t) == Good('/', t) && ParseChar(['\\', '"'] + t) == Good('"', t)
    ensures ParseChar(['\\', '\\'] + t) == Good('\\', t) && ParseChar(['\\', 'n'] + t) == Good('\n', t)
    ensures ParseChar(['\\', 'r'] + t) == Good('\r', t) && ParseChar(['\\', 't'] + t) == Good('\t', t)
    ensures ParseChar(['\\', 'b'] + t) == Good(8 as char, t) && ParseChar(['\\', 'f'] + t) == Good(12 as char, t)
  {
    forall a: char, b: char {
      Slices([a, b], t, 2);
    }
  }

  /** Hexadecimal digits may be large or small. */
  lemma HexDigitsRead(d: nat)
    requires d < 16
    ensures HexValue("0123456789abcdef"[d]) == Some(d) == HexValue("0123456789ABCDEF"[d])
  {
  }

  predicate AllSpace(s: string) {
    forall c | c in s :: IsSpace(c)
  }

  lemma {:induction false} SkipAll(a: string, s: string)
    requires AllSpace(a) && (s == "" || !IsSpace(s[0]))
    ensures SkipSpace(a + s) == s
  {
    if a == "" {
      assert a + s == s;
    } else {
      assert a[0] in a && (a + s)[1..] == a[1..] + s;
      SkipAll(a[1..], s);
    }
  }

  /** White space around a written value does not matter. */
  lemma LoadsOfPadded(a: string, v: Value, b: string)
    requires AllSpace(a) && AllSpace(b)
    ensures Loads(a + (Render(v) + b)) == Some(v)
  {
    RenderStart(v);
    SkipAll(a, Render(v) + b);
    assert b != "" ==> b[0] in b;
    ParseRendered(v, b);
    SkipAll(b, "");
    assert b + "" == b;
  }

  /** Characters that a JSON string holds as they are. */
  predicate IsPlain(s: string) {
    forall i | 0 <= i < |s| :: ' ' <= s[i] <= '~' && s[i] != '"' && s[i] != '\\'
  }

  lemma {:induction false} EscapeAllOfPlain(s: string)
    requires IsPlain(s)
    ensures EscapeAll(s) == s
  {
    if s != "" {
      EscapeAllOfPlain(s[1..]);
      assert Escape(s[0]) == [s[0]] && [s[0]] + s[1..] == s;
    }
  }

  /** Seven characters have an escape of two characters, others their code units in lower-case hexadecimal. */
  lemma ShortEscapes(c: char)
    requires c in {'"', '\\', '\n', '\r', '\t', 8 as char, 12 as char}
    ensures |Escape(c)| == 2 && Escape(c)[0] == '\\'
    ensures c in {'"', '\\'} ==> Escape(c)[1] == c
    ensures Escape('\n')[1] == 'n' && Escape('\r')[1] == 'r' && Escape('\t')[1] == 't'
    ensures Escape(8 as char)[1] == 'b' && Escape(12 as char)[1] == 'f'
  {
  }

  lemma HexAsWritten(d: nat)
    requires d < 16
    ensures HexDigit(d) == "0123456789abcdef"[d]
  {
  }

  /** Plain text is written between quotes, numbers and words as they are. */
  lemma RenderPlain(s: string, n: nat)
    requires IsPlain(s)
    ensures Render(Str(s)) == "\"" + s + "\""
    ensures Render(Num(n)) == Decimal.Show(n) && Render(Bool(true)) == "true" && Render(Bool(false)) == "false"
  {
    EscapeAllOfPlain(s);
    assert ['"'] + (s + ['"']) == "\"" + s + "\"";
  }

  /** `json.loads(json.dumps(v)) == v`. */
  lemma LoadsOfRender(v: Value)
    ensures Loads(Render(v)) == Some(v)
  {
    RenderStart(v);
    SkipNothing(Render(v));
    assert Render(v) + "" == Render(v);
    ParseRendered(v, "");
  }

  // ---- A value that has been read stays read when more text follows --------------------------

  /** The outcome on a longer text: the same value, with the additional text behind the rest. */
  function Extend<T>(r: Parsed<T>, t: string): Parsed<T> {
    match r
    case Bad => Bad
    case Good(v, rest) => Good(v, rest + t)
  }

  lemma Slices(s: string, t: string, i: nat)
    requires i <= |s|
    ensures (s + t)[i..] == s[i..] + t
  {
  }

  lemma {:induction false} SkipSpaceExtends(s: string, t: string)
    requires SkipSpace(s) != ""
    ensures SkipSpace(s + t) == SkipSpace(s) + t
  {
    Slices(s, t, 1);
    if IsSpace(s[0]) {
      SkipSpaceExtends(s[1..], t);
    }
  }

  lemma ParseHexExtends(s: string, t: string)
    requires ParseHex4(s).Some?
    ensures ParseHex4(s + t) == ParseHex4(s)
  {
  }

  lemma ParseCharExtends(s: string, t: string)
    requires ParseChar(s).Good?
    ensures ParseChar(s + t) == Extend(ParseChar(s), t)
  {
    Slices(s, t, 1);
    if s[0] == '\\' {
      Slices(s, t, 2);
      if s[1] == 'u' {
        Slices(s, t, 6);
        ParseHexExtends(s[2..], t);
        if |s| >= 12 {
          Slices(s, t, 8);
          Slices(s, t, 12);
          if ParseHex4(s[8..]).Some? {
            ParseHexExtends(s[8..], t);
          }
        }
      }
    }
  }

  lemma {:induction false} ParseStringExtends(s: string, t: string)
    requires ParseString(s).Good?
    ensures ParseString(s + t) == Extend(ParseString(s), t)
    decreases |s|
  {
    Slices(s, t, 1);
    if s[0] != '"' {
      ParseCharExtends(s, t);
      ParseStringExtends(ParseChar(s).rest, t);
    }
  }

  lemma {:induction false} DigitSpanExtends(s: string, t: string)
    requires DigitSpan(s) < |s|
    ensures DigitSpan(s + t) == DigitSpan(s)
  {
    Slices(s, t, 1);
    if IsDigit(s[0]) {
      DigitSpanExtends(s[1..], t);
    }
  }

  lemma ParseDigitsExtends(s: string, t: string)
    requires ParseDigits(s).Good? && ParseDigits(s).rest != ""
    ensures ParseDigits(s + t) == Extend(ParseDigits(s), t)
  {
    Slices(s, t, 1);
    if s[0] != '0' {
      DigitSpanExtends(s, t);
      var n := DigitSpan(s);
      Slices(s, t, n);
      assert (s + t)[..n] == s[..n];
    }
  }

  lemma ParseIntExtends(s: string, t: string)
    requires ParseInt(s).Good? && ParseInt(s).rest != ""
    ensures ParseInt(s + t) == Extend(ParseInt(s), t)
  {
    Slices(s, t, 1);
    if s[0] == '-' {
      ParseDigitsExtends(s[1..], t);
    } else {
      ParseDigitsExtends(s, t);
    }
  }

  lemma ParseScalarExtends(s: string, t: string)
    requires ParseScalar(s).Good? && (ParseScalar(s).value.Num? ==> ParseScalar(s).rest != "")
    ensures ParseScalar(s + t) == Extend(ParseScalar(s), t)
  {
    assert (s + t)[0] == s[0];
    if "null" <= s || "true" <= s {
      Slices(s, t, 4);
    } else if "false" <= s {
      Slices(s, t, 5);
    } else {
      ParseIntExtends(s, t);
    }
  }

  lemma {:induction false} ParseValueExtends(s: string, t: string)
    requires ParseValue(s).Good? && (ParseValue(s).value.Num? ==> ParseValue(s).rest != "")
    ensures ParseValue(s + t) == Extend(ParseValue(s), t)
    decreases |s|, 0
  {
    Slices(s, t, 1);
    if s[0] == '"' {
      ParseStringExtends(s[1..], t);
    } else if s[0] == '[' || s[0] == '{' {
      var u := SkipSpace(s[1..]);
      SkipSpaceExtends(s[1..], t);
      Slices(u, t, 1);
      if s[0] == '[' && u[0] != ']' {
        ParseItemsExtends(u, t);
      } else if s[0] == '{' && u[0] != '}' {
        ParseFieldsExtends(u, t);
      }
    } else {
      ParseScalarExtends(s, t);
    }
  }

  lemma {:induction false} ParseItemsExtends(s: string, t: string)
    requires ParseItems(s).Good?
    ensures ParseItems(s + t) == Extend(ParseItems(s), t)
    decreases |s|, 1
  {
    ParseValueExtends(s, t);
    var after := ParseValue(s).rest;
    var u := SkipSpace(after);
    SkipSpaceExtends(after, t);
    Slices(u, t, 1);
    if u[0] == ',' {
      SkipSpaceExtends(u[1..], t);
      ParseItemsExtends(SkipSpace(u[1..]), t);
    }
  }

  lemma {:induction false} ParseFieldsExtends(s: string, t: string)
    requires ParseFields(s).Good?
    ensures ParseFields(s + t) == Extend(ParseFields(s), t)
    decreases |s|, 1
  {
    Slices(s, t, 1);
    ParseStringExtends(s[1..], t);
    var afterKey := ParseString(s[1..]).rest;
    var colon := SkipSpace(afterKey);
    SkipSpaceExtends(afterKey, t);
    Slices(colon, t, 1);
    SkipSpaceExtends(colon[1..], t);
    ParseMemberExtends(SkipSpace(colon[1..]), t);
  }

  /** The value of a member and, after a comma, the members that follow. */
  lemma {:induction false} ParseMemberExtends(s: string, t: string)
    requires ParseValue(s).Good?
    requires var u := SkipSpace(ParseValue(s).rest);
             u != "" && (u[0] == ',' ==> ParseFields(SkipSpace(u[1..])).Good?)
    ensures ParseValue(s + t) == Extend(ParseValue(s), t)
    ensures var u := SkipSpace(ParseValue(s).rest);
            && SkipSpace(ParseValue(s).rest + t) == u + t
            && (u + t)[1..] == u[1..] + t
            && (u[0] == ',' ==>
                  && SkipSpace(u[1..] + t) == SkipSpace(u[1..]) + t
                  && ParseFields(SkipSpace(u[1..]) + t) == Extend(ParseFields(SkipSpace(u[1..])), t))
    decreases |s|, 2
  {
    ParseValueExtends(s, t);
    var after := ParseValue(s).rest;
    var u := SkipSpace(after);
    SkipSpaceExtends(after, t);
    Slices(u, t, 1);
    if u[0] == ',' {
      SkipSpaceExtends(u[1..], t);
      ParseFieldsExtends(SkipSpace(u[1..]), t);
    }
  }

  /** No proper prefix of a written array or object is a JSON text. */
  lemma NoPrefixLoads(v: Value, prefix: string, missing: string)
    requires v.Arr? || v.Obj?
    requires Render(v) == prefix + missing && missing != ""
    ensures Loads(prefix) == None
  {
    if prefix != "" && Loads(prefix).Some? {
      assert prefix[0] == Render(v)[0];
      SkipNothing(prefix);
      ParseValueExtends(prefix, missing);
      assert Render(v) + "" == Render(v);
      ParseRendered(v, "");
    }
  }
}
