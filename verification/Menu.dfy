/** Reading one line from a terminal and choosing an option by number. */
module Menu {
  import opened Wrappers
  import opened Decimal
  import opened Seqs

  const CTRL_C := 3 as char
  const CTRL_D := 4 as char
  const DELETE := 0x7f as char

  // ---- One line ------------------------------------------------------------------------------

  /** `Starved` stands for a reader that has used up its input and reads empty strings for ever. */
  datatype Line = Typed(text: string, rest: string) | Cancelled(rest: string) | Starved

  /** What the reader makes of the characters still to come, after those typed so far. */
  function ReadLine(typed: string, input: string): Line
    decreases |input|
  {
    if input == "" then Starved
    else if input[0] == CTRL_C || input[0] == CTRL_D then Cancelled(input[1..])
    else if input[0] == '\r' then Typed(typed, input[1..])
    else if input[0] == DELETE then ReadLine(typed, input[1..])
    else ReadLine(typed + [input[0]], input[1..])
  }

  predicate EndsLine(c: char) {
    c == CTRL_C || c == CTRL_D || c == '\r'
  }

  /** Characters of one line: none of them ends it. */
  predicate OneLine(raw: string) {
    forall i | 0 <= i < |raw| :: !EndsLine(raw[i])
  }

  /** The delete key is ignored: it does not take back what was typed. */
  function Kept(raw: string): string {
    if raw == "" then "" else (if raw[0] == DELETE then "" else [raw[0]]) + Kept(raw[1..])
  }

  /** Does `c` end the first line of the input, whose characters are `raw`? */
  predicate FirstLine(input: string, raw: string, c: char, rest: string) {
    OneLine(raw) && EndsLine(c) && input == raw + [c] + rest
  }

  lemma {:induction false} ReadLineOf(typed: string, input: string, raw: string, c: char, rest: string)
    requires FirstLine(input, raw, c, rest)
    ensures ReadLine(typed, input) == if c == '\r' then Typed(typed + Kept(raw), rest) else Cancelled(rest)
    decreases |raw|
  {
    if raw == "" {
      assert input[1..] == rest && typed + "" == typed;
    } else {
      assert input[0] == raw[0] && input[1..] == raw[1..] + [c] + rest;
      var typed' := if raw[0] == DELETE then typed else typed + [raw[0]];
      ReadLineOf(typed', input[1..], raw[1..], c, rest);
      assert typed' + Kept(raw[1..]) == typed + Kept(raw);
    }
  }

  /** Every input that is not starved has a first line. */
  lemma {:induction false} FirstLineExists(typed: string, input: string) returns (raw: string, c: char, rest: string)
    requires !ReadLine(typed, input).Starved?
    ensures FirstLine(input, raw, c, rest)
    decreases |input|
  {
    if EndsLine(input[0]) {
      raw, c, rest := "", input[0], input[1..];
      assert input == raw + [c] + rest;
    } else {
      var raw';
      raw', c, rest := FirstLineExists(if input[0] == DELETE then typed else typed + [input[0]], input[1..]);
      raw := [input[0]] + raw';
      assert input == raw + [c] + rest;
    }
  }

  // ---- Whole numbers as `int` reads them -------------------------------------------------------

  predicate IsBlank(c: char) {
    c == ' ' || 9 <= c as int <= 13 || 28 <= c as int <= 31
  }

  function StripLeft(s: string): string {
    if s != "" && IsBlank(s[0]) then StripLeft(s[1..]) else s
  }

  function StripRight(s: string): string {
    if s != "" && IsBlank(s[|s| - 1]) then StripRight(s[..|s| - 1]) else s
  }

  /** The digits of a numeral; single underscores may stand between them. */
  function PlainDigits(s: string): (r: Option<string>)
    ensures r.Some? ==> AllDigits(r.value)
  {
    if s == "" || !IsDigit(s[0]) then None
    else if |s| == 1 then Some(s)
    else match PlainDigits(if s[1] == '_' then s[2..] else s[1..])
      case None => None
      case Some(others) => Some([s[0]] + others)
  }

  /** `int(text)`; None stands for the ValueError. */
  function ParseInt(text: string): Option<int> {
    ParseSigned(StripRight(StripLeft(text)))
  }

  function ParseSigned(s: string): Option<int> {
    var signed := s != "" && (s[0] == '-' || s[0] == '+');
    match PlainDigits(if signed then s[1..] else s)
    case None => None
    case Some(digits) => Some(if signed && s[0] == '-' then 0 - Value(digits) else Value(digits))
  }

  /** The blanks of ASCII: tab, line feed, vertical tab, form feed, return, four separators and space. */
  lemma BlanksExactly(c: char)
    ensures IsBlank(c) <==> c as int in {9, 10, 11, 12, 13, 28, 29, 30, 31, 32}
  {
  }

  lemma {:induction false} PlainDigitsOfDigits(digits: string)
    requires digits != "" && AllDigits(digits)
    ensures PlainDigits(digits) == Some(digits)
  {
    if |digits| > 1 {
      PlainDigitsOfDigits(digits[1..]);
      assert [digits[0]] + digits[1..] == digits;
    }
  }

  /** An underscore may stand between two digits. */
  lemma {:induction false} PlainDigitsOfGroups(a: string, b: string)
    requires a != "" && b != "" && AllDigits(a) && AllDigits(b)
    ensures PlainDigits(a + ['_'] + b) == Some(a + b)
  {
    var s := a + ['_'] + b;
    if |a| == 1 {
      PlainDigitsOfDigits(b);
      assert s[1] == '_' && s[2..] == b;
    } else {
      PlainDigitsOfGroups(a[1..], b);
      assert s[1] == a[1] && s[1..] == a[1..] + ['_'] + b;
    }
    assert |a| == 1 ==> a[1..] + b == b;
    assert [a[0]] + (a[1..] + b) == a + b;
  }

  predicate AllBlank(s: string) {
    forall c | c in s :: IsBlank(c)
  }

  lemma {:induction false} StripLeftOf(a: string, s: string)
    requires AllBlank(a) && s != "" && !IsBlank(s[0])
    ensures StripLeft(a + s) == s
  {
    if a == "" {
      assert a + s == s;
    } else {
      assert a[0] in a && (a + s)[1..] == a[1..] + s;
      StripLeftOf(a[1..], s);
    }
  }

  lemma {:induction false} StripRightOf(s: string, b: string)
    requires AllBlank(b) && s != "" && !IsBlank(s[|s| - 1])
    ensures StripRight(s + b) == s
  {
    if b == "" {
      assert s + b == s;
    } else {
      var n := |b| - 1;
      assert b[n] in b && (s + b)[..|s + b| - 1] == s + b[..n];
      StripRightOf(s, b[..n]);
    }
  }

  lemma ParseSignedOf(sign: string, k: nat)
    requires sign in {"", "+", "-"}
    ensures ParseSigned(sign + Show(k)).Some?
    ensures ParseSigned(sign + Show(k)).value == if sign == "-" then 0 - k else k
  {
    var s := sign + Show(k);
    if sign == "" {
      assert s == Show(k);
    } else {
      assert s[0] == sign[0] && s[1..] == Show(k);
    }
    PlainDigitsOfDigits(Show(k));
    ValueOfShow(k);
  }

  /** A numeral with a sign and blanks around it. */
  lemma ParseIntOfPadded(a: string, sign: string, k: nat, b: string)
    requires AllBlank(a) && AllBlank(b) && sign in {"", "+", "-"}
    ensures ParseInt(a + (sign + Show(k) + b)).Some?
    ensures ParseInt(a + (sign + Show(k) + b)).value == if sign == "-" then 0 - k else k
  {
    var s := sign + Show(k);
    SignedEnds(sign, Show(k));
    assert s + b != "" && (s + b)[0] == s[0];
    StripLeftOf(a, s + b);
    StripRightOf(s, b);
    ParseSignedOf(sign, k);
  }

  lemma SignedEnds(sign: string, digits: string)
    requires sign in {"", "+", "-"} && digits != "" && AllDigits(digits)
    ensures var s := sign + digits; s != "" && !IsBlank(s[0]) && !IsBlank(s[|s| - 1])
  {
  }

  lemma ParseIntOfShow(k: nat)
    ensures ParseInt(Show(k)) == Some(k)
    ensures ParseInt(['-'] + Show(k)).Some? && ParseInt(['-'] + Show(k)).value == 0 - k
  {
    ParseIntOfPadded("", "", k, "");
    ParseIntOfPadded("", "-", k, "");
    assert "" + ("" + Show(k) + "") == Show(k);
    assert "" + ("-" + Show(k) + "") == ['-'] + Show(k);
  }

  predicate NoDigits(s: string) {
    forall c | c in s :: !IsDigit(c)
  }

  lemma {:induction false} StripsNoDigits(s: string)
    requires NoDigits(s)
    ensures NoDigits(StripLeft(s)) && NoDigits(StripRight(s))
    decreases |s|
  {
    if s != "" {
      StripsNoDigits(s[1..]);
      StripsNoDigits(s[..|s| - 1]);
    }
  }

  /** A text without digits is no number. */
  lemma ParseIntNeedsDigits(s: string)
    requires NoDigits(s)
    ensures ParseInt(s) == None
  {
    StripsNoDigits(s);
    StripsNoDigits(StripLeft(s));
    var t := StripRight(StripLeft(s));
    if |t| > 1 {
      assert t[1] in t;
    }
    if t != "" {
      assert t[0] in t;
    }
  }

  // ---- Choosing an option -----------------------------------------------------------------------

  /** The option a line selects among n: the default for an empty line, otherwise its number. */
  function Selection(text: string, n: nat, default: Option<int>): Option<nat> {
    var k := if text == "" && default.Some? then default else ParseInt(text);
    if k.Some? && 0 <= k.value < n then Some(k.value) else None
  }

  /** `NoMoreInput` stands for a dialogue that never ends, because its reader is starved. */
  datatype Choice = Selected(index: nat, rest: string) | UserCancelled(rest: string) | NoMoreInput

  lemma ReadLineProgress(typed: string, input: string)
    ensures ReadLine(typed, input).Typed? ==> |ReadLine(typed, input).rest| < |input|
    decreases |input|
  {
    if input != "" && !EndsLine(input[0]) {
      ReadLineProgress(if input[0] == DELETE then typed else typed + [input[0]], input[1..]);
    }
  }

  /** Asks again, without the default, until a line selects an option. */
  function Choose(input: string, n: nat, default: Option<int>): Choice
    decreases |input|
  {
    match ReadLine("", input)
    case Starved => NoMoreInput
    case Cancelled(rest) => UserCancelled(rest)
    case Typed(text, rest) =>
      ReadLineProgress("", input);
      if Selection(text, n, default).Some? then Selected(Selection(text, n, default).value, rest)
      else Choose(rest, n, None)
  }

  function Join(lines: seq<string>): string {
    if lines == [] then "" else lines[0] + ['\r'] + Join(lines[1..])
  }

  /** All these lines are rejected; the default counts for the first of them only. */
  predicate AllRejected(lines: seq<string>, n: nat, default: Option<int>) {
    forall i | 0 <= i < |lines| ::
      OneLine(lines[i]) && Selection(Kept(lines[i]), n, if i == 0 then default else None).None?
  }

  /**
   * The dialogue that ends with the selection of k: rejected lines, then a line that is the
   * number k, or an empty first line when k is the default.
   */
  predicate SelectsAfter(
    input: string, n: nat, default: Option<int>, rejected: seq<string>, last: string, k: nat, rest: string)
  {
    && AllRejected(rejected, n, default)
    && OneLine(last)
    && Selection(Kept(last), n, if rejected == [] then default else None) == Some(k)
    && input == Join(rejected) + (last + ['\r'] + rest)
  }

  predicate CancelsAfter(
    input: string, n: nat, default: Option<int>, rejected: seq<string>, last: string, key: char, rest: string)
  {
    && AllRejected(rejected, n, default)
    && OneLine(last)
    && (key == CTRL_C || key == CTRL_D)
    && input == Join(rejected) + (last + [key] + rest)
  }

  /** Skipping a rejected first line. */
  lemma SkipRejected(input: string, n: nat, default: Option<int>, rejected: seq<string>, tail: string)
    requires rejected != [] && AllRejected(rejected, n, default) && input == Join(rejected) + tail
    ensures AllRejected(rejected[1..], n, None)
    ensures |Join(rejected[1..]) + tail| < |input|
    ensures Choose(input, n, default) == Choose(Join(rejected[1..]) + tail, n, None)
  {
    var next := Join(rejected[1..]) + tail;
    Assoc(rejected[0] + ['\r'], Join(rejected[1..]), tail);
    assert input == rejected[0] + ['\r'] + next;
    ReadLineOf("", input, rejected[0], '\r', next);
    assert "" + Kept(rejected[0]) == Kept(rejected[0]);
    forall i | 0 <= i < |rejected[1..]|
      ensures OneLine(rejected[1..][i]) && Selection(Kept(rejected[1..][i]), n, None).None?
    {
      assert rejected[1..][i] == rejected[i + 1];
    }
  }

  lemma {:induction false} SelectsAfterIsChosen(
    input: string, n: nat, default: Option<int>, rejected: seq<string>, last: string, k: nat, rest: string)
    requires SelectsAfter(input, n, default, rejected, last, k, rest)
    ensures Choose(input, n, default) == Selected(k, rest)
    decreases |rejected|
  {
    var tail := last + ['\r'] + rest;
    if rejected == [] {
      assert input == tail;
      ReadLineOf("", input, last, '\r', rest);
      assert "" + Kept(last) == Kept(last);
    } else {
      SkipRejected(input, n, default, rejected, tail);
      SelectsAfterIsChosen(Join(rejected[1..]) + tail, n, None, rejected[1..], last, k, rest);
    }
  }

  lemma {:induction false} CancelsAfterIsCancelled(
    input: string, n: nat, default: Option<int>, rejected: seq<string>, last: string, key: char, rest: string)
    requires CancelsAfter(input, n, default, rejected, last, key, rest)
    ensures Choose(input, n, default) == UserCancelled(rest)
    decreases |rejected|
  {
    var tail := last + [key] + rest;
    if rejected == [] {
      assert input == tail;
      ReadLineOf("", input, last, key, rest);
    } else {
      SkipRejected(input, n, default, rejected, tail);
      CancelsAfterIsCancelled(Join(rejected[1..]) + tail, n, None, rejected[1..], last, key, rest);
    }
  }

  lemma MoreRejected(raw: string, n: nat, default: Option<int>, others: seq<string>)
    requires OneLine(raw) && Selection(Kept(raw), n, default).None? && AllRejected(others, n, None)
    ensures AllRejected([raw] + others, n, default)
    ensures Join([raw] + others) == raw + ['\r'] + Join(others)
  {
    var lines := [raw] + others;
    assert lines[1..] == others;
    forall i | 0 <= i < |lines|
      ensures OneLine(lines[i]) && Selection(Kept(lines[i]), n, if i == 0 then default else None).None?
    {
      assert i > 0 ==> lines[i] == others[i - 1];
    }
  }

  /** The lines of a dialogue that has ended. */
  lemma {:induction false} Dialogue(input: string, n: nat, default: Option<int>)
    returns (rejected: seq<string>, last: string, key: char)
    requires !Choose(input, n, default).NoMoreInput?
    ensures var c := Choose(input, n, default);
            && (c.Selected? ==> SelectsAfter(input, n, default, rejected, last, c.index, c.rest))
            && (c.UserCancelled? ==> CancelsAfter(input, n, default, rejected, last, key, c.rest))
    decreases |input|
  {
    var raw, c, rest := FirstLineExists("", input);
    ReadLineOf("", input, raw, c, rest);
    assert "" + Kept(raw) == Kept(raw);
    if c == '\r' && Selection(Kept(raw), n, default).None? {
      var others;
      others, last, key := Dialogue(rest, n, None);
      rejected := [raw] + others;
      assert rejected[1..] == others;
      MoreRejected(raw, n, default, others);
      Assoc(raw + ['\r'], Join(others), last + [if Choose(input, n, default).Selected? then '\r' else key]
                                        + Choose(input, n, default).rest);
    } else {
      rejected, last, key := [], raw, c;
      assert Join(rejected) == "" && "" + input == input;
    }
  }

  /**
   * Menu selection: option k is returned if and only if the dialogue consists of rejected lines
   * and then the number k; the default is honoured on an empty first line only.
   */
  lemma SelectedExactly(input: string, n: nat, default: Option<int>, k: nat, rest: string)
    ensures Choose(input, n, default) == Selected(k, rest) <==>
            exists rejected, last :: SelectsAfter(input, n, default, rejected, last, k, rest)
  {
    if Choose(input, n, default) == Selected(k, rest) {
      var rejected, last, _ := Dialogue(input, n, default);
      assert SelectsAfter(input, n, default, rejected, last, k, rest);
    }
    if rejected, last :| SelectsAfter(input, n, default, rejected, last, k, rest) {
      SelectsAfterIsChosen(input, n, default, rejected, last, k, rest);
    }
  }

  /** The user leaves if and only if a cancel key follows rejected lines and part of another line. */
  lemma CancelledExactly(input: string, n: nat, default: Option<int>, rest: string)
    ensures Choose(input, n, default) == UserCancelled(rest) <==>
            exists rejected, last, key :: CancelsAfter(input, n, default, rejected, last, key, rest)
  {
    if Choose(input, n, default) == UserCancelled(rest) {
      var rejected, last, key := Dialogue(input, n, default);
      assert CancelsAfter(input, n, default, rejected, last, key, rest);
    }
    if rejected, last, key :| CancelsAfter(input, n, default, rejected, last, key, rest) {
      CancelsAfterIsCancelled(input, n, default, rejected, last, key, rest);
    }
  }

  // ---- What a visitor types --------------------------------------------------------------------

  lemma {:induction false} KeptPlain(raw: string)
    requires 0x7f as char !in raw
    ensures Kept(raw) == raw
  {
    if raw != "" {
      KeptPlain(raw[1..]);
      assert [raw[0]] + raw[1..] == raw;
    }
  }

  /** The delete key leaves no trace. */
  lemma {:induction false} DeleteIsIgnored(a: string, b: string)
    ensures Kept(a + [0x7f as char] + b) == Kept(a) + Kept(b)
  {
    var s := a + [0x7f as char] + b;
    if a == "" {
      assert s[1..] == b && "" + Kept(b) == Kept(b);
    } else {
      assert s[1..] == a[1..] + [0x7f as char] + b;
      DeleteIsIgnored(a[1..], b);
    }
  }

  lemma ShowIsOneLine(k: nat)
    ensures OneLine(Show(k)) && OneLine(['-'] + Show(k))
    ensures Kept(Show(k)) == Show(k) && Kept(['-'] + Show(k)) == ['-'] + Show(k)
  {
    KeptPlain(Show(k));
    KeptPlain(['-'] + Show(k));
  }

  /** The number of an option selects it, with or without a default. */
  lemma NumberIsSelected(k: nat, n: nat, default: Option<int>, rest: string)
    requires k < n
    ensures Choose(Show(k) + ['\r'] + rest, n, default) == Selected(k, rest)
  {
    ShowIsOneLine(k);
    ParseIntOfShow(k);
    ReadLineOf("", Show(k) + ['\r'] + rest, Show(k), '\r', rest);
    assert "" + Show(k) == Show(k);
  }

  /** An empty first line selects the default, if there is one in range. */
  lemma EmptyLine(n: nat, default: Option<int>, rest: string)
    ensures Choose(['\r'] + rest, n, default)
         == if default.Some? && 0 <= default.value < n then Selected(default.value, rest) else Choose(rest, n, None)
  {
    assert ['\r'] + rest == "" + ['\r'] + rest;
    ReadLineOf("", ['\r'] + rest, "", '\r', rest);
    ParseIntNeedsDigits("");
  }

  /** A text that selects none of n options: a number out of range, a negative one, or no number at all. */
  ghost predicate SelectsNothing(text: string, n: nat) {
    || (exists k :: k >= n && text == Show(k))
    || (exists k :: k > 0 && text == ['-'] + Show(k))
    || (text != "" && NoDigits(text))
  }

  lemma NothingSelected(text: string, n: nat, default: Option<int>)
    requires SelectsNothing(text, n)
    ensures Selection(text, n, default) == None
  {
    if text != "" && NoDigits(text) {
      ParseIntNeedsDigits(text);
    } else if k :| k >= n && text == Show(k) {
      ParseIntOfShow(k);
    } else {
      var k :| k > 0 && text == ['-'] + Show(k);
      ParseIntOfShow(k);
    }
  }

  /** After such a line the visitor is asked again, then without a default. */
  lemma AskedAgain(raw: string, n: nat, default: Option<int>, rest: string)
    requires OneLine(raw) && SelectsNothing(Kept(raw), n)
    ensures Choose(raw + ['\r'] + rest, n, default) == Choose(rest, n, None)
  {
    ReadLineOf("", raw + ['\r'] + rest, raw, '\r', rest);
    assert "" + Kept(raw) == Kept(raw);
    NothingSelected(Kept(raw), n, default);
  }

  /** Ctrl-C and Ctrl-D leave the menu, wherever they are typed. */
  lemma CancelKeys(raw: string, n: nat, default: Option<int>, rest: string)
    requires OneLine(raw)
    ensures Choose(raw + [3 as char] + rest, n, default) == UserCancelled(rest)
    ensures Choose(raw + [4 as char] + rest, n, default) == UserCancelled(rest)
  {
    ReadLineOf("", raw + [3 as char] + rest, raw, 3 as char, rest);
    ReadLineOf("", raw + [4 as char] + rest, raw, 4 as char, rest);
  }

  /** A terminal channel, as far as it delivers characters. */
  class Channel {
    var input: string

    constructor (input: string)
      ensures this.input == input
    {
      this.input := input;
    }

    /** `read_user_input_line`: takes one character after the other. */
    method ReadUserInputLine() returns (line: Line)
      modifies this
      ensures line == ReadLine("", old(input))
      ensures input == if line.Starved? then "" else line.rest
    {
      var chars := "";
      while input != ""
        invariant ReadLine("", old(input)) == ReadLine(chars, input)
        decreases |input|
      {
        var content := input[0];
        input := input[1..];
        if content == CTRL_C || content == CTRL_D {
          return Cancelled(input);
        } else if content == '\r' {
          return Typed(chars, input);
        } else if content == DELETE {
          continue;
        } else {
          chars := chars + [content];
        }
      }
      line := Starved;
    }

    /** `choose_option`: calls itself again after a line that selects nothing. */
    method ChooseOption(options: seq<string>, default: Option<int>) returns (choice: Choice)
      modifies this
      ensures choice == Choose(old(input), |options|, default)
      ensures input == if choice.NoMoreInput? then "" else choice.rest
      decreases |input|
    {
      var line := ReadUserInputLine();
      match line
      case Starved =>
        choice := NoMoreInput;
      case Cancelled(rest) =>
        choice := UserCancelled(rest);
      case Typed(text, rest) =>
        ReadLineProgress("", old(input));
        var selection := Selection(text, |options|, default);
        if selection.Some? {
          choice := Selected(selection.value, rest);
        } else {
          choice := ChooseOption(options, None);
        }
    }
  }
}
