/** Names for new servers: a time stamp and a suffix, claimed by making a directory. */
module Names {
  import opened Wrappers
  import opened Decimal
  import opened Seqs

  /** A minute of the calendar with a year of four digits. */
  datatype Minute = Minute(year: nat, month: nat, day: nat, hour: nat, minute: nat) {
    predicate Valid() {
      1000 <= year < 10000 && month < 100 && day < 100 && hour < 100 && minute < 100
    }
  }

  /** `strftime("%Y-%m-%d-%H%M")` */
  function Stamp(at: Minute): (s: string)
    requires at.Valid()
    ensures |s| == 15
  {
    var century, year := TwoDigits(at.year / 100), TwoDigits(at.year % 100);
    var month, day := TwoDigits(at.month), TwoDigits(at.day);
    var hour, minute := TwoDigits(at.hour), TwoDigits(at.minute);
    [century[0], century[1], year[0], year[1], '-', month[0], month[1], '-',
     day[0], day[1], '-', hour[0], hour[1], minute[0], minute[1]]
  }

  function BaseName(prefix: Option<string>, at: Minute): string
    requires at.Valid()
  {
    if prefix.None? || prefix.value == "" then Stamp(at) else prefix.value + ['-'] + Stamp(at)
  }

  /** The empty suffix and the twenty-six letters. */
  const SUFFIX_COUNT := 27

  function Suffix(k: nat): string
    requires k < SUFFIX_COUNT
  {
    if k == 0 then "" else [('a' as int + (k - 1)) as char]
  }

  function NameAt(base: string, k: nat): string
    requires k < SUFFIX_COUNT
  {
    base + Suffix(k)
  }

  /** The first suffix from k on whose directory does not exist. */
  function FirstFree(workspace: set<string>, base: string, k: nat): (r: Option<nat>)
    requires k <= SUFFIX_COUNT
    ensures r.Some? ==> k <= r.value < SUFFIX_COUNT && NameAt(base, r.value) !in workspace
    ensures forall j | k <= j < (if r.Some? then r.value else SUFFIX_COUNT) :: NameAt(base, j) in workspace
    decreases SUFFIX_COUNT - k
  {
    if k == SUFFIX_COUNT then None
    else if NameAt(base, k) !in workspace then Some(k)
    else FirstFree(workspace, base, k + 1)
  }

  datatype NameError = NoAvailableName | DirectoryExists

  class NameSource {
    const prefix: Option<string>
    var workspace: set<string>

    constructor (prefix: Option<string>, workspace: set<string>)
      ensures this.prefix == prefix && this.workspace == workspace
    {
      this.prefix, this.workspace := prefix, workspace;
    }

    /** `generate_default_server_name`, undisturbed: the first free name in the order of the suffixes. */
    method GenerateDefaultServerName(at: Minute) returns (r: Result<string, NameError>)
      requires at.Valid()
      modifies this
      ensures var base := BaseName(prefix, at);
              match FirstFree(old(workspace), base, 0)
              case None => r == Failure(NoAvailableName) && workspace == old(workspace)
              case Some(k) => r == Success(NameAt(base, k)) && workspace == old(workspace) + {NameAt(base, k)}
    {
      var base := BaseName(prefix, at);
      for k := 0 to SUFFIX_COUNT
        invariant workspace == old(workspace)
        invariant FirstFree(workspace, base, 0) == FirstFree(workspace, base, k)
      {
        var name := NameAt(base, k);
        if name !in workspace {
          workspace := workspace + {name};
          return Success(name);
        }
      }
      r := Failure(NoAvailableName);
    }
  }

  // ---- What a name looks like --------------------------------------------------------------------------

  const LETTERS := "abcdefghijklmnopqrstuvwxyz"

  lemma SuffixText(k: nat)
    requires k <= 26
    ensures k < SUFFIX_COUNT && Suffix(k) == if k == 0 then "" else [LETTERS[k - 1]]
  {
    assert forall i | 0 <= i < 26 :: LETTERS[i] == ('a' as int + i) as char;
  }

  lemma HundredsText(n: nat, m: nat)
    requires 10 <= n < 100 && m < 100
    ensures Show(n * 100 + m) == Show(n) + TwoDigits(m)
  {
    var tens := n * 10 + m / 10;
    assert (n * 100 + m) / 10 == tens && (n * 100 + m) % 10 == m % 10;
    assert tens / 10 == n && tens % 10 == m / 10;
    assert Show(tens) == Show(n) + [DigitChar(m / 10)];
    assert Show(n * 100 + m) == Show(tens) + [DigitChar(m % 10)];
  }

  lemma YearText(year: nat)
    requires 1000 <= year < 10000
    ensures Show(year) == TwoDigits(year / 100) + TwoDigits(year % 100)
  {
    HundredsText(year / 100, year % 100);
    TwoDigitsText(year / 100);
    assert year == year / 100 * 100 + year % 100;
  }

  lemma StampText(at: Minute)
    requires at.Valid()
    ensures Stamp(at)
         == Show(at.year) + "-" + TwoDigits(at.month) + "-" + TwoDigits(at.day) + "-"
            + (TwoDigits(at.hour) + TwoDigits(at.minute))
  {
    YearText(at.year);
  }

  /** A prefix stands in front of the stamp, with a dash; an empty one counts as none. */
  lemma NameText(prefix: string, at: Minute, k: nat)
    requires at.Valid() && k <= 26
    ensures NameAt(BaseName(None, at), k) == Stamp(at) + (if k == 0 then "" else [LETTERS[k - 1]])
    ensures BaseName(Some(""), at) == BaseName(None, at)
    ensures prefix != "" ==>
              NameAt(BaseName(Some(prefix), at), k) == prefix + "-" + Stamp(at) + (if k == 0 then "" else [LETTERS[k - 1]])
  {
    SuffixText(k);
  }

  // ---- Names tell minutes and suffixes apart ---------------------------------------------------------

  lemma TwoDigitsInjective(m: nat, n: nat)
    requires m < 100 && n < 100 && TwoDigits(m)[0] == TwoDigits(n)[0] && TwoDigits(m)[1] == TwoDigits(n)[1]
    ensures m == n
  {
  }

  lemma StampInjective(a: Minute, b: Minute)
    requires a.Valid() && b.Valid() && Stamp(a) == Stamp(b)
    ensures a == b
  {
    var s, t := Stamp(a), Stamp(b);
    assert forall i | 0 <= i < 15 :: s[i] == t[i];
    assert s[0] == t[0] && s[1] == t[1] && s[2] == t[2] && s[3] == t[3] && s[5] == t[5] && s[6] == t[6];
    assert s[8] == t[8] && s[9] == t[9] && s[11] == t[11] && s[12] == t[12] && s[13] == t[13] && s[14] == t[14];
    TwoDigitsInjective(a.year / 100, b.year / 100);
    TwoDigitsInjective(a.year % 100, b.year % 100);
    TwoDigitsInjective(a.month, b.month);
    TwoDigitsInjective(a.day, b.day);
    TwoDigitsInjective(a.hour, b.hour);
    TwoDigitsInjective(a.minute, b.minute);
  }

  /** For one provider, a name determines its minute and its suffix. */
  lemma NameInjective(prefix: Option<string>, a: Minute, j: nat, b: Minute, k: nat)
    requires a.Valid() && b.Valid() && j < SUFFIX_COUNT && k < SUFFIX_COUNT
    requires NameAt(BaseName(prefix, a), j) == NameAt(BaseName(prefix, b), k)
    ensures a == b && j == k
  {
    var p := if prefix.None? || prefix.value == "" then "" else prefix.value + ['-'];
    var x, y := Stamp(a) + Suffix(j), Stamp(b) + Suffix(k);
    assert NameAt(BaseName(prefix, a), j) == p + x && NameAt(BaseName(prefix, b), k) == p + y;
    SplitAt(p, x);
    SplitAt(p, y);
    assert x == y;
    SplitAt(Stamp(a), Suffix(j));
    SplitAt(Stamp(b), Suffix(k));
    StampInjective(a, b);
    if j > 0 {
      assert Suffix(j)[0] == Suffix(k)[0];
    }
  }

  // ---- One call after the other -------------------------------------------------------------------------

  function Claim(workspace: set<string>, base: string): (Option<string>, set<string>) {
    match FirstFree(workspace, base, 0)
    case None => (None, workspace)
    case Some(k) => (Some(NameAt(base, k)), workspace + {NameAt(base, k)})
  }

  /** The workspace after n calls in one minute. */
  function AfterClaims(workspace: set<string>, base: string, n: nat): set<string> {
    if n == 0 then workspace else Claim(AfterClaims(workspace, base, n - 1), base).1
  }

  lemma SuffixInjective(base: string, j: nat, k: nat)
    requires j < SUFFIX_COUNT && k < SUFFIX_COUNT && NameAt(base, j) == NameAt(base, k)
    ensures j == k
  {
    SplitAt(base, Suffix(j));
    SplitAt(base, Suffix(k));
    if j > 0 {
      assert Suffix(j)[0] == Suffix(k)[0];
    }
  }

  lemma FirstFreeIs(workspace: set<string>, base: string, n: nat)
    requires n <= SUFFIX_COUNT
    requires forall j | 0 <= j < SUFFIX_COUNT :: NameAt(base, j) in workspace <==> j < n
    ensures FirstFree(workspace, base, 0) == if n < SUFFIX_COUNT then Some(n) else None
  {
    var r := FirstFree(workspace, base, 0);
    assert r.Some? ==> NameAt(base, r.value) !in workspace;
    assert n < SUFFIX_COUNT ==> NameAt(base, n) !in workspace;
  }

  lemma {:induction false} TakenAfterClaims(workspace: set<string>, base: string, n: nat, j: nat)
    requires forall k | 0 <= k < SUFFIX_COUNT :: NameAt(base, k) !in workspace
    requires n <= SUFFIX_COUNT && j < SUFFIX_COUNT
    ensures NameAt(base, j) in AfterClaims(workspace, base, n) <==> j < n
    decreases n
  {
    if n > 0 {
      var before := AfterClaims(workspace, base, n - 1);
      forall k | 0 <= k < SUFFIX_COUNT ensures NameAt(base, k) in before <==> k < n - 1 {
        TakenAfterClaims(workspace, base, n - 1, k);
      }
      FirstFreeIs(before, base, n - 1);
      if NameAt(base, j) == NameAt(base, n - 1) {
        SuffixInjective(base, j, n - 1);
      }
    }
  }

  lemma {:induction false} NothingLeft(workspace: set<string>, base: string, n: nat)
    requires forall k | 0 <= k < SUFFIX_COUNT :: NameAt(base, k) !in workspace
    requires n >= SUFFIX_COUNT
    ensures AfterClaims(workspace, base, n) == AfterClaims(workspace, base, SUFFIX_COUNT)
    ensures FirstFree(AfterClaims(workspace, base, n), base, 0) == None
    decreases n
  {
    if n == SUFFIX_COUNT {
      forall k | 0 <= k < SUFFIX_COUNT ensures NameAt(base, k) in AfterClaims(workspace, base, n) {
        TakenAfterClaims(workspace, base, n, k);
      }
      FirstFreeIs(AfterClaims(workspace, base, n), base, n);
    } else {
      NothingLeft(workspace, base, n - 1);
    }
  }

  /** In a fresh minute the first 27 calls get the names in the order of the suffixes, every later one raises. */
  lemma FreshMinute(workspace: set<string>, base: string, n: nat)
    requires forall k | 0 <= k < SUFFIX_COUNT :: NameAt(base, k) !in workspace
    ensures Claim(AfterClaims(workspace, base, n), base).0
         == if n < 27 then Some(NameAt(base, n)) else None
  {
    if n < SUFFIX_COUNT {
      var before := AfterClaims(workspace, base, n);
      forall k | 0 <= k < SUFFIX_COUNT ensures NameAt(base, k) in before <==> k < n {
        TakenAfterClaims(workspace, base, n, k);
      }
      FirstFreeIs(before, base, n);
    } else {
      NothingLeft(workspace, base, n);
    }
  }

  // ---- Calls that overlap -------------------------------------------------------------------------------

  /** A caller looks whether a directory exists and makes it in another step. */
  datatype Caller =
    | Looking(base: string, k: nat)
    | Making(base: string, k: nat)
    | Named(name: string)
    | Raised(error: NameError)

  datatype Desk = Desk(workspace: set<string>, callers: map<nat, Caller>)

  datatype Move = Begin(id: nat, base: string) | LookUp(id: nat) | MakeDir(id: nat)

  predicate CanMove(d: Desk, move: Move) {
    match move
    case Begin(id, _) => id !in d.callers
    case LookUp(id) => id in d.callers && d.callers[id].Looking?
    case MakeDir(id) => id in d.callers && d.callers[id].Making? && d.callers[id].k < SUFFIX_COUNT
  }

  function AfterMove(d: Desk, move: Move): Desk
    requires CanMove(d, move)
  {
    match move
    case Begin(id, base) => d.(callers := d.callers[id := Looking(base, 0)])
    case LookUp(id) =>
      var base, k := d.callers[id].base, d.callers[id].k;
      d.(callers := d.callers[id :=
        if k >= SUFFIX_COUNT then Raised(NoAvailableName)
        else if NameAt(base, k) in d.workspace then Looking(base, k + 1)
        else Making(base, k)])
    case MakeDir(id) =>
      var name := NameAt(d.callers[id].base, d.callers[id].k);
      if name in d.workspace then d.(callers := d.callers[id := Raised(DirectoryExists)])
      else Desk(d.workspace + {name}, d.callers[id := Named(name)])
  }

  ghost predicate MoveOk(desks: seq<Desk>, moves: seq<Move>, i: nat)
    requires i < |moves| < |desks|
  {
    CanMove(desks[i], moves[i]) && desks[i + 1] == AfterMove(desks[i], moves[i])
  }

  ghost predicate Calls(desks: seq<Desk>, moves: seq<Move>) {
    && |desks| == |moves| + 1
    && desks[0].callers == map[]
    && forall i: nat | i < |moves| :: MoveOk(desks, moves, i)
  }

  /** Names that were returned have a directory, one of their own, that did not exist at the start. */
  ghost predicate NamesOk(start: set<string>, d: Desk) {
    && start <= d.workspace
    && (forall id | id in d.callers && d.callers[id].Named? ::
          d.callers[id].name in d.workspace && d.callers[id].name !in start)
    && (forall id, id' | id in d.callers && id' in d.callers && id != id'
                         && d.callers[id].Named? && d.callers[id'].Named? :: d.callers[id].name != d.callers[id'].name)
  }

  lemma NamesOkMove(start: set<string>, d: Desk, move: Move)
    requires NamesOk(start, d) && CanMove(d, move)
    ensures NamesOk(start, AfterMove(d, move))
  {
  }

  /**
   * However the calls overlap, all returned names are pairwise distinct and none of them existed
   * before.
   */
  lemma {:induction false} NamesAreDistinct(desks: seq<Desk>, moves: seq<Move>, i: nat)
    requires Calls(desks, moves) && i < |desks|
    ensures NamesOk(desks[0].workspace, desks[i])
  {
    if i > 0 {
      assert MoveOk(desks, moves, i - 1);
      NamesAreDistinct(desks, moves, i - 1);
      NamesOkMove(desks[0].workspace, desks[i - 1], moves[i - 1]);
    }
  }

  /** A caller that has found the name free goes on to make its directory. */
  predicate Makes(d: Desk, move: Move, name: string) {
    && move.MakeDir? && move.id in d.callers && d.callers[move.id].Making?
    && d.callers[move.id].k < SUFFIX_COUNT && NameAt(d.callers[move.id].base, d.callers[move.id].k) == name
  }

  lemma WorkspaceStep(d: Desk, move: Move, name: string)
    requires CanMove(d, move)
    ensures name in AfterMove(d, move).workspace <==> name in d.workspace || Makes(d, move, name)
  {
  }

  /** A directory exists if it did at the start or somebody has made it since. */
  lemma {:induction false} WorkspaceExactly(desks: seq<Desk>, moves: seq<Move>, i: nat, name: string)
    requires Calls(desks, moves) && i < |desks|
    ensures name in desks[i].workspace <==>
            name in desks[0].workspace || exists j: nat | j < i :: Makes(desks[j], moves[j], name)
  {
    if i > 0 {
      WorkspaceExactly(desks, moves, i - 1, name);
      assert MoveOk(desks, moves, i - 1);
      WorkspaceStep(desks[i - 1], moves[i - 1], name);
    }
  }

  /**
   * The race for a name, however the calls overlap: a caller that makes the directory gets the
   * name if and only if it is the first one to make it and the directory did not exist at the
   * start. Every other caller raises.
   */
  lemma FirstMakerWins(desks: seq<Desk>, moves: seq<Move>, i: nat, name: string)
    requires Calls(desks, moves) && i < |moves| && Makes(desks[i], moves[i], name)
    ensures moves[i].id in desks[i + 1].callers
    ensures var caller := desks[i + 1].callers[moves[i].id];
            caller == if name !in desks[0].workspace && forall j: nat | j < i :: !Makes(desks[j], moves[j], name)
                      then Named(name) else Raised(DirectoryExists)
  {
    assert MoveOk(desks, moves, i);
    WorkspaceExactly(desks, moves, i, name);
  }
}
