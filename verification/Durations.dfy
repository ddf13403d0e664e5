/** Reading and writing durations: `to_seconds` and `humanize_seconds`. */
module Durations {
  import opened Wrappers
  import opened Decimal
  import opened Seqs

  datatype TimeUnit = TimeUnit(tag: char, seconds: nat)

  const UNIT_SEC_PAIRS: seq<TimeUnit> :=
    [TimeUnit('s', 1), TimeUnit('m', 60), TimeUnit('h', 3600), TimeUnit('d', 86400)]

  datatype TimeStrParseType = TimeStrParseType(text: string)

  /** The regular expression's `$` also matches just before one final newline. */
  function WithoutFinalNewline(s: string): string {
    if |s| > 0 && s[|s| - 1] == '\n' then s[..|s| - 1] else s
  }

  /** Does `^(\d+)<tag>$` match s? */
  predicate Matches(s: string, tag: char) {
    var t := WithoutFinalNewline(s);
    |t| >= 2 && t[|t| - 1] == tag && AllDigits(t[..|t| - 1])
  }

  function Amount(s: string, tag: char): nat
    requires Matches(s, tag)
  {
    var t := WithoutFinalNewline(s);
    Value(t[..|t| - 1])
  }

  /** The loop over the unit table: the first unit that matches decides. */
  function ScanUnits(s: string, units: seq<TimeUnit>): Option<nat> {
    if units == [] then None
    else if Matches(s, units[0].tag) then Some(Amount(s, units[0].tag) * units[0].seconds)
    else ScanUnits(s, units[1..])
  }

  function ToSeconds(s: string): Result<nat, TimeStrParseType> {
    if s == "0" then Success(0)
    else match ScanUnits(s, UNIT_SEC_PAIRS)
      case Some(n) => Success(n)
      case None => Failure(TimeStrParseType(s))
  }

  lemma {:induction false} ScanFinds(s: string, units: seq<TimeUnit>)
    ensures ScanUnits(s, units).None? ==> forall u | u in units :: !Matches(s, u.tag)
    ensures ScanUnits(s, units).Some? ==>
              exists u | u in units :: Matches(s, u.tag) && ScanUnits(s, units).value == Amount(s, u.tag) * u.seconds
  {
    if units != [] {
      if Matches(s, units[0].tag) {
        assert units[0] in units;
      } else {
        ScanFinds(s, units[1..]);
      }
    }
  }

  ghost predicate DistinctTags(units: seq<TimeUnit>) {
    forall u, v | u in units && v in units && u.tag == v.tag :: u == v
  }

  /** No string matches two units, so the order in which the table is scanned does not matter. */
  lemma ScanOrderIsIrrelevant(s: string, units: seq<TimeUnit>, reordered: seq<TimeUnit>)
    requires DistinctTags(units)
    requires multiset(units) == multiset(reordered)
    ensures ScanUnits(s, units) == ScanUnits(s, reordered)
  {
    ScanFinds(s, units);
    ScanFinds(s, reordered);
    forall u | u in units ensures u in reordered {
      assert u in multiset(units);
    }
    forall u | u in reordered ensures u in units {
      assert u in multiset(reordered);
    }
  }

  lemma MatchesNumeral(digits: string, tag: char)
    requires digits != "" && AllDigits(digits) && tag != '\n'
    ensures Matches(digits + [tag], tag) && Amount(digits + [tag], tag) == Value(digits)
    ensures forall other | other != tag :: !Matches(digits + [tag], other)
  {
    var s := digits + [tag];
    assert WithoutFinalNewline(s) == s;
    assert s[..|s| - 1] == digits;
  }

  /** Printing a whole number of units and reading it back gives that many seconds, leading zeros included. */
  lemma ToSecondsOfNumeral(digits: string, unit: TimeUnit)
    requires digits != "" && AllDigits(digits) && unit in UNIT_SEC_PAIRS
    ensures ToSeconds(digits + [unit.tag]) == Success(Value(digits) * unit.seconds)
  {
    var s := digits + [unit.tag];
    MatchesNumeral(digits, unit.tag);
    ScanFinds(s, UNIT_SEC_PAIRS);
    assert |s| >= 2;
  }

  lemma ToSecondsRoundTrip(n: nat, unit: TimeUnit)
    requires unit in UNIT_SEC_PAIRS
    ensures ToSeconds(Show(n) + [unit.tag]) == Success(n * unit.seconds)
  {
    ValueOfShow(n);
    ToSecondsOfNumeral(Show(n), unit);
  }

  /** What the four units stand for. */
  lemma SecondsOfUnits(n: nat)
    ensures ToSeconds(Show(n) + "s") == Success(n)
    ensures ToSeconds(Show(n) + "m") == Success(n * 60)
    ensures ToSeconds(Show(n) + "h") == Success(n * 3600)
    ensures ToSeconds(Show(n) + "d") == Success(n * 86400)
  {
    ToSecondsRoundTrip(n, UNIT_SEC_PAIRS[0]);
    ToSecondsRoundTrip(n, UNIT_SEC_PAIRS[1]);
    ToSecondsRoundTrip(n, UNIT_SEC_PAIRS[2]);
    ToSecondsRoundTrip(n, UNIT_SEC_PAIRS[3]);
  }

  /** A string is accepted exactly when it is "0" or digits and one unit, with at most one newline after them. */
  lemma ToSecondsAccepts(s: string)
    ensures ToSeconds(s).Success? <==>
            s == "0" ||
            exists digits: string, unit | unit in UNIT_SEC_PAIRS ::
              digits != "" && AllDigits(digits) && (s == digits + [unit.tag] || s == digits + [unit.tag] + "\n")
  {
    ScanFinds(s, UNIT_SEC_PAIRS);
    var t := WithoutFinalNewline(s);
    if s != "0" && ToSeconds(s).Success? {
      var unit :| unit in UNIT_SEC_PAIRS && Matches(s, unit.tag);
      var digits := t[..|t| - 1];
      assert t == digits + [unit.tag];
      assert s == t || s == t + "\n";
      assert digits != "" && AllDigits(digits) && (s == digits + [unit.tag] || s == digits + [unit.tag] + "\n");
    }
    forall digits: string, unit | unit in UNIT_SEC_PAIRS && digits != "" && AllDigits(digits) &&
                                  (s == digits + [unit.tag] || s == digits + [unit.tag] + "\n")
      ensures ToSeconds(s).Success?
    {
      assert t == digits + [unit.tag];
      assert t[..|t| - 1] == digits;
      assert Matches(s, unit.tag);
    }
  }

  /** `str(timedelta(seconds=n))` for a non-negative n. */
  function Humanize(n: nat): string {
    DaysAndClock(n / 86400, n % 86400)
  }

  function DaysAndClock(days: nat, rest: nat): string
    requires rest < 86400
  {
    if days == 0 then Clock(rest) else Show(days) + ([' '] + DayWord(days) + ", ") + Clock(rest)
  }

  /** A number below sixty behind a colon. */
  function Sixtieths(n: nat): string {
    if n < 10 then ":0" + Show(n) else ":" + Show(n)
  }

  lemma SixtiethsText(n: nat)
    requires n < 60
    ensures [':'] + TwoDigits(n) == Sixtieths(n)
  {
    TwoDigitsText(n);
  }

  lemma JoinClock(hours: string, minutes: nat, seconds: nat)
    requires minutes < 60 && seconds < 60
    ensures hours + [':'] + TwoDigits(minutes) + [':'] + TwoDigits(seconds)
         == hours + Sixtieths(minutes) + Sixtieths(seconds)
  {
    SixtiethsText(minutes);
    SixtiethsText(seconds);
    Assoc(hours, [':'], TwoDigits(minutes));
    Assoc(hours + Sixtieths(minutes), [':'], TwoDigits(seconds));
  }

  lemma DaysText(days: nat, rest: nat)
    requires rest < 86400
    ensures DaysAndClock(days, rest)
         == (if days == 0 then "" else Show(days) + (if days == 1 then " day, " else " days, ")) + Clock(rest)
  {
    assert "" + Clock(rest) == Clock(rest);
    assert [' '] + "day" + ", " == " day, " && [' '] + "days" + ", " == " days, ";
  }

  /** The text shown for a number of seconds: days, if any, then hours, minutes and seconds. */
  lemma HumanizeText(n: nat)
    ensures var days, rest := n / 86400, n % 86400;
            Humanize(n)
            == (if days == 0 then "" else Show(days) + (if days == 1 then " day, " else " days, "))
               + (Show(rest / 3600) + Sixtieths(rest / 60 % 60) + Sixtieths(rest % 60))
  {
    var rest := n % 86400;
    DaysText(n / 86400, rest);
    JoinClock(Show(rest / 3600), rest / 60 % 60, rest % 60);
  }

  /** The example in the comment of `humanize_seconds`. */
  lemma HumanizeExample(n: nat)
    requires n == 364121
    ensures Humanize(n) == "4" + " days, " + ("5" + ":08" + ":41")
  {
    HumanizeText(n);
    SixtiethsExample();
  }

  lemma SixtiethsExample()
    ensures Show(4) == "4" && Show(5) == "5" && Sixtieths(8) == ":08" && Sixtieths(41) == ":41"
  {
    assert Show(41) == Show(4) + [DigitChar(1)];
  }

  /** The longest duration a `timedelta` can hold; a longer one raises. */
  const MAX_TIMEDELTA: nat := 999999999 * 86400 + 86399

  /** `humanize_seconds` for a non-negative n; None stands for the OverflowError. */
  function HumanizeSeconds(n: nat): Option<string> {
    if n <= MAX_TIMEDELTA then Some(Humanize(n)) else None
  }

  lemma ShowableExactly(n: nat)
    ensures HumanizeSeconds(n) == if n < 1_000_000_000 * 86400 then Some(Humanize(n)) else None
  {
  }

  function DayWord(days: nat): string {
    if days == 1 then "day" else "days"
  }

  function Clock(rest: nat): string
    requires rest < 86400
  {
    Show(rest / 3600) + [':'] + TwoDigits(rest / 60 % 60) + [':'] + TwoDigits(rest % 60)
  }

  /** The index of the first c in s, or |s|. */
  function IndexOf(s: string, c: char): (i: nat)
    ensures i <= |s|
  {
    if s == "" || s[0] == c then 0 else 1 + IndexOf(s[1..], c)
  }

  function ReadParts(hours: string, minutes: string, seconds: string): Option<nat> {
    if AllDigits(hours) && AllDigits(minutes) && AllDigits(seconds)
    then Some(Value(hours) * 3600 + Value(minutes) * 60 + Value(seconds))
    else None
  }

  function ReadClock(t: string): Option<nat> {
    var n := |t|;
    if n < 7 then None else ReadParts(t[..n - 6], t[n - 5..n - 3], t[n - 2..])
  }

  /** Reads back what Humanize wrote. */
  function Dehumanize(s: string): Option<nat> {
    DehumanizeAt(s, IndexOf(s, ' '), IndexOf(s, ','))
  }

  function DehumanizeAt(s: string, space: nat, comma: nat): Option<nat>
    requires space <= |s| && comma <= |s|
  {
    if space == |s| then ReadClock(s)
    else if !AllDigits(s[..space]) || comma + 2 > |s| then None
    else AddDays(Value(s[..space]), ReadClock(s[comma + 2..]))
  }

  function AddDays(days: nat, clock: Option<nat>): Option<nat> {
    if clock.None? then None else Some(days * 86400 + clock.value)
  }

  lemma {:induction false} IndexOfFirst(a: string, c: char, b: string)
    requires c !in a
    ensures IndexOf(a + [c] + b, c) == |a|
    ensures IndexOf(a, c) == |a|
  {
    if a != "" {
      assert (a + [c] + b)[1..] == a[1..] + [c] + b;
      IndexOfFirst(a[1..], c, b);
    }
  }

  lemma ClockSlices(h: string, m: string, s: string)
    requires |m| == |s| == 2
    ensures var t := h + [':'] + m + [':'] + s;
            var n := |t|;
            n == |h| + 6 && t[..n - 6] == h && t[n - 5..n - 3] == m && t[n - 2..] == s
  {
  }

  lemma ReadClockText(hours: nat, minutes: nat, seconds: nat)
    requires minutes < 60 && seconds < 60
    ensures var text := Show(hours) + [':'] + TwoDigits(minutes) + [':'] + TwoDigits(seconds);
            ReadClock(text) == Some(hours * 3600 + minutes * 60 + seconds) && ' ' !in text
  {
    var h, m, s := Show(hours), TwoDigits(minutes), TwoDigits(seconds);
    ClockSlices(h, m, s);
    assert ReadClock(h + [':'] + m + [':'] + s) == ReadParts(h, m, s);
    ValueOfShow(hours);
    ValueOfTwoDigits(minutes);
    ValueOfTwoDigits(seconds);
  }

  lemma ReadClockOfClock(rest: nat)
    requires rest < 86400
    ensures ReadClock(Clock(rest)) == Some(rest)
    ensures ' ' !in Clock(rest)
  {
    ReadClockText(rest / 3600, rest / 60 % 60, rest % 60);
    ClockPlaces(rest);
  }

  lemma ClockPlaces(rest: nat)
    ensures rest / 3600 * 3600 + rest / 60 % 60 * 60 + rest % 60 == rest
  {
    var minutes := rest / 60;
    assert rest == minutes * 60 + rest % 60;
    assert minutes == minutes / 60 * 60 + minutes % 60;
    assert rest / 3600 == minutes / 60;
  }

  lemma FindSeparators(days: string, word: string, clock: string)
    requires AllDigits(days) && ' ' !in word && ',' !in word
    ensures var s := days + ([' '] + word + ", ") + clock;
            var comma := |days| + 1 + |word|;
            && IndexOf(s, ' ') == |days| && s[..|days|] == days
            && IndexOf(s, ',') == comma && comma + 2 <= |s| && s[comma + 2..] == clock
  {
    var s := days + ([' '] + word + ", ") + clock;
    assert s == days + [' '] + (word + ", " + clock);
    IndexOfFirst(days, ' ', word + ", " + clock);
    var head := days + [' '] + word;
    assert s == head + [','] + ([' '] + clock);
    IndexOfFirst(head, ',', [' '] + clock);
  }

  lemma DehumanizeDays(days: nat, word: string, clock: string, rest: nat)
    requires ' ' !in word && ',' !in word && ReadClock(clock) == Some(rest)
    ensures Dehumanize(Show(days) + ([' '] + word + ", ") + clock) == Some(days * 86400 + rest)
  {
    ValueOfShow(days);
    FindSeparators(Show(days), word, clock);
  }

  lemma DehumanizeParts(days: nat, rest: nat)
    requires rest < 86400
    ensures Dehumanize(DaysAndClock(days, rest)) == Some(days * 86400 + rest)
  {
    ReadClockOfClock(rest);
    if days == 0 {
      IndexOfFirst(Clock(rest), ' ', "");
    } else {
      DehumanizeDays(days, DayWord(days), Clock(rest), rest);
    }
  }

  lemma DehumanizeOfHumanize(n: nat)
    ensures Dehumanize(Humanize(n)) == Some(n)
  {
    DehumanizeParts(n / 86400, n % 86400);
  }

  /** Different durations that can be shown are shown to the user as different texts. */
  lemma HumanizeInjective(a: nat, b: nat)
    requires HumanizeSeconds(a).Some? && HumanizeSeconds(a) == HumanizeSeconds(b)
    ensures a == b
  {
    DehumanizeOfHumanize(a);
    DehumanizeOfHumanize(b);
  }
}
