/**
 * The billing decision: when an idle server has outlived its minimum life and is
 * close to the end of a paid cycle.
 */
module Billing {
  import opened Wrappers
  import opened Durations
  import Arith
  import Decimal

  /** The settings of a provider that the decision reads; a setting may be absent. */
  datatype ProviderConfig = ProviderConfig(
    minLifeToLive: Option<string>,
    billTimeUnit: Option<string>,
    destroySafeTime: Option<string>)

  datatype Reason =
    | ActiveSessions(count: nat)
    | NotManaged
    | NoMinimumLife
    | WithinMinimumLife(ttl: int)
    | WithinBillCycle(ttl: int)
    | NextCycleIsNear

  datatype Verdict = Keep(reason: Reason) | Destroy(reason: Reason)

  datatype JudgeError = BadDuration | ZeroDivision | Overflow

  function ReadDuration(text: Option<string>): Result<nat, JudgeError> {
    if text.None? then Failure(BadDuration)
    else match ToSeconds(text.value)
      case Success(n) => Success(n)
      case Failure(_) => Failure(BadDuration)
  }

  /** An absent or empty safe time counts as zero seconds. */
  function ReadSafeTime(text: Option<string>): Result<nat, JudgeError> {
    if text.None? || text.value == "" then Success(0) else ReadDuration(text)
  }

  /** To keep a server for a while, which raises when the while is too long to be shown. */
  function KeepFor(ttl: nat, reason: Reason): Result<Verdict, JudgeError> {
    if HumanizeSeconds(ttl).None? then Failure(Overflow) else Success(Keep(reason))
  }

  /**
   * `need_destroy`. The age is read from the clock twice, once for each of the two
   * checks; the sessions are those registered for the server's name.
   */
  function NeedDestroy(sessions: nat, manage: bool, config: ProviderConfig, age1: int, age2: int)
    : Result<Verdict, JudgeError>
  {
    if sessions > 0 then Success(Keep(ActiveSessions(sessions)))
    else if !manage then Success(Keep(NotManaged))
    else match ReadDuration(config.minLifeToLive)
      case Failure(e) => Failure(e)
      case Success(minLife) =>
        if minLife <= 0 then Success(Destroy(NoMinimumLife))
        else if minLife - age1 > 0 then KeepFor(minLife - age1, WithinMinimumLife(minLife - age1))
        else JudgeCycle(config, age2)
  }

  function JudgeCycle(config: ProviderConfig, age: int): Result<Verdict, JudgeError> {
    match ReadDuration(config.billTimeUnit)
    case Failure(e) => Failure(e)
    case Success(unit) =>
      if unit == 0 then Failure(ZeroDivision)
      else match ReadSafeTime(config.destroySafeTime)
        case Failure(e) => Failure(e)
        case Success(safe) =>
          var ttl := unit - age % unit - safe;
          if ttl > 0 then KeepFor(ttl, WithinBillCycle(ttl)) else Success(Destroy(NextCycleIsNear))
  }

  predicate IsDestroy(verdict: Result<Verdict, JudgeError>) {
    verdict.Success? && verdict.value.Destroy?
  }

  /** The verdict on a managed server without sessions whose age does not change during the check. */
  predicate DestroysAt(config: ProviderConfig, age: int) {
    IsDestroy(NeedDestroy(0, true, config, age, age))
  }

  /** The three settings in seconds: minimum life, billing unit and safe time. */
  predicate HasTerms(config: ProviderConfig, minLife: nat, unit: nat, safe: nat) {
    && ReadDuration(config.minLifeToLive) == Success(minLife)
    && ReadDuration(config.billTimeUnit) == Success(unit)
    && ReadSafeTime(config.destroySafeTime) == Success(safe)
  }

  /** The last `safe` seconds of paid cycle k, which ends when the age is k * unit. */
  predicate InWindow(k: int, unit: nat, safe: nat, age: int) {
    k * unit - safe <= age < k * unit
  }

  lemma CycleOfAge(unit: nat, safe: nat, age: int)
    requires unit > 0
    ensures unit - age % unit - safe <= 0 <==> exists k :: InWindow(k, unit, safe, age)
    ensures unit - age % unit - safe <= 0 ==> InWindow(age / unit + 1, unit, safe, age)
  {
    var q, r := age / unit, age % unit;
    assert age == q * unit + r;
    assert (q + 1) * unit == q * unit + unit;
    if unit - r - safe <= 0 {
      assert InWindow(q + 1, unit, safe, age);
    }
    if k :| InWindow(k, unit, safe, age) {
      Arith.MultipleSize(k - q - 1, unit);
      assert (k - q - 1) * unit == k * unit - (q * unit + unit);
    }
  }

  /**
   * The closed form of a destroy verdict. The second age is never below the first because
   * the clock does not run backwards.
   */
  lemma DestroyVerdictExactly(
    sessions: nat, manage: bool, config: ProviderConfig, minLife: nat, unit: nat, safe: nat, age1: int, age2: int)
    requires HasTerms(config, minLife, unit, safe) && age1 <= age2
    ensures IsDestroy(NeedDestroy(sessions, manage, config, age1, age2)) <==>
            && sessions == 0
            && manage
            && (|| minLife == 0
                || (age1 >= minLife && unit > 0 && exists k :: k >= 1 && InWindow(k, unit, safe, age2)))
  {
    if minLife > 0 && age1 >= minLife && unit > 0 {
      CycleOfAge(unit, safe, age2);
      if k :| InWindow(k, unit, safe, age2) {
        Arith.MultipleSize(k, unit);
      }
    }
  }

  /**
   * No minimum life is asked for, or the minimum life is over and the age is among the last safe
   * seconds of a paid cycle.
   */
  ghost predicate TimeIsUp(config: ProviderConfig, age: int) {
    || ReadDuration(config.minLifeToLive) == Success(0)
    || exists minLife, unit, safe, k ::
         HasTerms(config, minLife, unit, safe) && age >= minLife && unit > 0 && k >= 1 && InWindow(k, unit, safe, age)
  }

  /** The verdict at one age, whether or not all settings are readable. */
  lemma DestroysExactly(sessions: nat, manage: bool, config: ProviderConfig, age: int)
    ensures IsDestroy(NeedDestroy(sessions, manage, config, age, age)) <==>
            sessions == 0 && manage && TimeIsUp(config, age)
  {
    var minLife, unit := ReadDuration(config.minLifeToLive), ReadDuration(config.billTimeUnit);
    var safe := ReadSafeTime(config.destroySafeTime);
    if minLife.Success? && unit.Success? && safe.Success? {
      DestroyVerdictExactly(sessions, manage, config, minLife.value, unit.value, safe.value, age, age);
      TimeIsUpExactly(config, minLife.value, unit.value, safe.value, age);
    }
  }

  /** The same for settings that are all readable. */
  lemma TimeIsUpExactly(config: ProviderConfig, minLife: nat, unit: nat, safe: nat, age: int)
    requires HasTerms(config, minLife, unit, safe)
    ensures TimeIsUp(config, age) <==>
            minLife == 0 || (age >= minLife && unit > 0 && exists k :: k >= 1 && InWindow(k, unit, safe, age))
  {
  }

  /**
   * The time shown to the visitor of a server that is kept: until the end of the minimum life, or
   * until the last safe seconds of the current cycle begin.
   */
  lemma ShownTimeExactly(config: ProviderConfig, minLife: nat, unit: nat, safe: nat, sessions: nat, manage: bool, age1: int, age2: int)
    requires HasTerms(config, minLife, unit, safe)
    requires var verdict := NeedDestroy(sessions, manage, config, age1, age2);
             verdict.Success? && verdict.value.Keep?
    ensures match NeedDestroy(sessions, manage, config, age1, age2).value.reason
            case ActiveSessions(count) => count == sessions > 0
            case NotManaged => sessions == 0 && !manage
            case WithinMinimumLife(ttl) => sessions == 0 && manage && ttl > 0 && age1 + ttl == minLife
            case WithinBillCycle(ttl) =>
              && sessions == 0 && manage && age1 >= minLife && unit > 0 && ttl > 0
              && exists k :: (k - 1) * unit <= age2 < age2 + ttl == k * unit - safe
            case _ => false
  {
    if unit > 0 {
      var k := age2 / unit + 1;
      assert age2 == (k - 1) * unit + age2 % unit;
      assert k * unit == (k - 1) * unit + unit;
    }
  }

  /** What a destroy verdict throws away: at least one second of paid time, at most the safe time and one cycle. */
  lemma UnusedPaidTime(config: ProviderConfig, minLife: nat, unit: nat, safe: nat, age1: int, age2: int)
    requires HasTerms(config, minLife, unit, safe) && minLife > 0
    requires IsDestroy(NeedDestroy(0, true, config, age1, age2))
    ensures unit > 0
    ensures var unused := (age2 / unit + 1) * unit - age2; 1 <= unused <= unit && unused <= safe
  {
    assert (age2 / unit + 1) * unit == age2 / unit * unit + unit;
  }

  /** The decision raises exactly when it gets as far as a setting it cannot use or a time it cannot show. */
  lemma RaisesExactly(sessions: nat, manage: bool, config: ProviderConfig, age1: int, age2: int)
    ensures NeedDestroy(sessions, manage, config, age1, age2).Failure? <==>
            && sessions == 0
            && manage
            && RaisesForIdle(config, age1, age2)
  {
  }

  /** The minimum life is unreadable or too long to show, or the cycle is reached and cannot be judged. */
  predicate RaisesForIdle(config: ProviderConfig, age1: int, age2: int) {
    match ReadDuration(config.minLifeToLive)
    case Failure(_) => true
    case Success(minLife) =>
      minLife > 0 && (if age1 < minLife then minLife - age1 > MAX_TIMEDELTA else CycleRaises(config, age2))
  }

  predicate CycleRaises(config: ProviderConfig, age: int) {
    match (ReadDuration(config.billTimeUnit), ReadSafeTime(config.destroySafeTime))
    case (Success(unit), Success(safe)) => unit == 0 || unit - age % unit - safe > MAX_TIMEDELTA
    case _ => true
  }

  /** Every time that a check of these settings may have to show can be shown. */
  predicate Showable(minLife: nat, unit: nat, safe: nat) {
    minLife <= MAX_TIMEDELTA && unit - safe <= MAX_TIMEDELTA
  }

  lemma NeverRaises(config: ProviderConfig, minLife: nat, unit: nat, safe: nat, age1: int, age2: int)
    requires HasTerms(config, minLife, unit, safe) && unit > 0 && Showable(minLife, unit, safe) && age1 >= 0
    ensures NeedDestroy(0, true, config, age1, age2).Success?
  {
  }

  lemma RaisesAtCycleStart(config: ProviderConfig, minLife: nat, unit: nat, safe: nat) returns (age: nat)
    requires HasTerms(config, minLife, unit, safe) && minLife > 0 && unit > 0 && unit - safe > MAX_TIMEDELTA
    ensures NeedDestroy(0, true, config, age, age).Failure?
  {
    Arith.MultipleSize(unit, minLife);
    Arith.MultipleMod(minLife, unit);
    age := unit * minLife;
    assert age == minLife * unit;
  }

  /**
   * With readable settings no age makes the decision raise if and only if there is no minimum
   * life, or the unit is positive and all times can be shown.
   */
  lemma TotalExactly(config: ProviderConfig, minLife: nat, unit: nat, safe: nat)
    requires HasTerms(config, minLife, unit, safe)
    ensures (forall age1: nat, age2: nat :: NeedDestroy(0, true, config, age1, age2).Success?)
       <==> minLife == 0 || (unit > 0 && Showable(minLife, unit, safe))
  {
    if minLife > MAX_TIMEDELTA {
      assert NeedDestroy(0, true, config, 0, 0).Failure?;
    } else if minLife > 0 && unit == 0 {
      assert NeedDestroy(0, true, config, minLife, minLife).Failure?;
    } else if minLife > 0 && unit - safe > MAX_TIMEDELTA {
      var age := RaisesAtCycleStart(config, minLife, unit, safe);
    }
  }

  /** A readable minimum life that is too long to be shown. */
  lemma TooLongMinimumLife(days: nat)
    requires days >= 1_000_000_000
    ensures var config := ProviderConfig(Some(Decimal.Show(days) + ['d']), Some("1h"), None);
            && ReadDuration(config.minLifeToLive) == Success(days * 86400)
            && ReadDuration(config.billTimeUnit) == Success(3600)
            && NeedDestroy(0, true, config, 0, 0) == Failure(Overflow)
  {
    ToSecondsRoundTrip(days, UNIT_SEC_PAIRS[3]);
    NumeralSeconds('1', UNIT_SEC_PAIRS[2]);
  }

  /** Without a safe time and with a minimum life no server is ever destroyed, at any age. */
  lemma NoSafeTimeNeverDestroys(config: ProviderConfig, minLife: nat, sessions: nat, manage: bool, age1: int, age2: int)
    requires ReadDuration(config.minLifeToLive) == Success(minLife) && minLife > 0
    requires config.destroySafeTime == None || config.destroySafeTime == Some("")
    ensures !IsDestroy(NeedDestroy(sessions, manage, config, age1, age2))
  {
  }

  /** Settings are read as durations; an absent or empty safe time is zero. */
  lemma TermsAsWritten(minLife: nat, unit: nat, safe: nat)
    ensures HasTerms(ProviderConfig(Some(Decimal.Show(minLife) + "s"), Some(Decimal.Show(unit) + "m"),
                                    Some(Decimal.Show(safe) + "h")), minLife, unit * 60, safe * 3600)
    ensures forall none | none in {None, Some("")} ::
              HasTerms(ProviderConfig(Some(Decimal.Show(minLife) + "s"), Some(Decimal.Show(unit) + "d"), none),
                       minLife, unit * 86400, 0)
  {
    SecondsOfUnits(minLife);
    SecondsOfUnits(unit);
    SecondsOfUnits(safe);
    assert Decimal.Show(safe) + "h" != "";
  }

  /** Without a minimum life or a billing unit the check of an idle managed server raises. */
  lemma AbsentSettingRaises(minLife: nat, unit: Option<string>, safe: Option<string>, age1: int, age2: int)
    ensures NeedDestroy(0, true, ProviderConfig(None, unit, safe), age1, age2) == Failure(BadDuration)
    ensures 0 < minLife <= age1 ==>
              NeedDestroy(0, true, ProviderConfig(Some(Decimal.Show(minLife) + "s"), None, safe), age1, age2)
              == Failure(BadDuration)
  {
    SecondsOfUnits(minLife);
  }

  /** The sections for vagrant, linode and vultr in the shipped configuration. */
  const SHIPPED_HOURLY := ProviderConfig(Some("1h"), Some("1h"), None)

  /** The section for digitalocean in the shipped configuration. */
  const SHIPPED_DIGITALOCEAN := ProviderConfig(Some("0s"), Some("0s"), Some("5m"))

  /** The sections for footloose, ignite and multipass in the shipped configuration. */
  const SHIPPED_LOCAL := ProviderConfig(Some("0"), Some("0"), None)

  lemma NumeralSeconds(digit: char, unit: TimeUnit)
    requires '0' <= digit <= '9' && unit in UNIT_SEC_PAIRS
    ensures ToSeconds([digit, unit.tag]) == Success((digit as int - '0' as int) * unit.seconds)
  {
    ToSecondsOfNumeral([digit], unit);
    assert [digit] + [unit.tag] == [digit, unit.tag];
    assert [digit][..0] == "";
  }

  /**
   * The shipped configuration: the hourly sections keep every server for ever, the others
   * destroy an idle managed server at once, at any age and although their billing unit is zero.
   */
  lemma ShippedConfiguration(age1: int, age2: int)
    ensures !IsDestroy(NeedDestroy(0, true, SHIPPED_HOURLY, age1, age2))
    ensures IsDestroy(NeedDestroy(0, true, SHIPPED_DIGITALOCEAN, age1, age2))
    ensures IsDestroy(NeedDestroy(0, true, SHIPPED_LOCAL, age1, age2))
  {
    NumeralSeconds('1', UNIT_SEC_PAIRS[2]);
    NumeralSeconds('0', UNIT_SEC_PAIRS[0]);
    NoSafeTimeNeverDestroys(SHIPPED_HOURLY, 3600, 0, true, age1, age2);
  }
}
