/**
 * src/lib/wellness.ts: the day-seeded tip selector. A tip is chosen from a
 * pool by a hash of today's date and a seed string (the block id), so the
 * same block gets the same tip all day and a different one the next day.
 *
 * Tips are named by pool and position (Profile.TipRef); their texts and
 * icons are data, not logic. Today's date is a parameter.
 */
module Wellness {
  import opened Strings
  import opened Profile
  import opened Templates

  // ---------------------------------------------------------------------
  // 32-bit arithmetic of the seed hash

  const Two32: int := 0x1_0000_0000
  const Two31: int := 0x8000_0000

  /** ECMAScript ToInt32: the signed 32-bit integer congruent to `x` modulo 2^32. */
  function ToInt32(x: int): (r: int)
    ensures -Two31 <= r < Two31
    ensures (x - r) % Two32 == 0
    ensures -Two31 <= x < Two31 ==> r == x
  {
    var m := x % Two32;
    if m >= Two31 then m - Two32 else m
  }

  lemma {:induction false} ToInt32Congruent(x: int, y: int)
    requires (x - y) % Two32 == 0
    ensures ToInt32(x) == ToInt32(y)
  {
    var k := (x - y) / Two32;
    assert x == y + k * Two32;
    assert x % Two32 == y % Two32 by {
      ModAddMultiple(y, k);
    }
  }

  lemma ModAddMultiple(y: int, k: int)
    ensures (y + k * Two32) % Two32 == y % Two32
  {
    var q := y / Two32;
    var r := y % Two32;
    assert y + k * Two32 == (q + k) * Two32 + r;
  }

  /** The UTF-16 code unit `charCodeAt` reads for a character of the Basic Multilingual Plane. */
  function CharCode(c: char): (r: int)
    ensures 0 <= r < 0x11_0000
  {
    c as int
  }

  /** One round of the loop: `((h << 5) - h) + c`, then `| 0`. */
  function HashStep(h: int, c: char): (r: int)
    ensures -Two31 <= r < Two31
  {
    ToInt32(ToInt32(h * 32) - h + CharCode(c))
  }

  /** The round is the signed 32-bit wrap of `31 * h + c`. */
  lemma HashStepIsWrapOf31(h: int, c: char)
    ensures HashStep(h, c) == ToInt32(31 * h + CharCode(c))
  {
    var s := ToInt32(h * 32);
    assert (h * 32 - s) % Two32 == 0;
    assert (s - h + CharCode(c)) - (31 * h + CharCode(c)) == -(h * 32 - s);
    NegMultiple(h * 32 - s);
    ToInt32Congruent(s - h + CharCode(c), 31 * h + CharCode(c));
  }

  lemma NegMultiple(x: int)
    requires x % Two32 == 0
    ensures (-x) % Two32 == 0
  {
    var k := x / Two32;
    assert x == k * Two32;
    assert -x == (-k) * Two32;
  }

  /** `seedHash` after the loop over all of `seed`: a left fold of HashStep from 0. */
  function SeedHash(seed: string): (r: int)
    ensures -Two31 <= r < Two31
  {
    if seed == [] then 0 else HashStep(SeedHash(seed[..|seed| - 1]), seed[|seed| - 1])
  }

  /** Today's date as the clock gives it: the month counts from 1 (`getMonth() + 1`). */
  datatype CalendarDate = CalendarDate(year: int, month: int, day: int)

  predicate ValidDate(d: CalendarDate) {
    1 <= d.month <= 12 && 1 <= d.day <= 31
  }

  /** `dayHash`: the date written as the decimal number yyyymmdd. */
  function DayHash(d: CalendarDate): (r: int)
    ensures ValidDate(d) ==> r / 10000 == d.year && (r % 10000) / 100 == d.month && r % 100 == d.day
  {
    DayHashDigits(d);
    d.year * 10000 + d.month * 100 + d.day
  }

  lemma DayHashDigits(d: CalendarDate)
    ensures var r := d.year * 10000 + d.month * 100 + d.day;
      ValidDate(d) ==> r / 10000 == d.year && (r % 10000) / 100 == d.month && r % 100 == d.day
  {
    if ValidDate(d) {
      var low := d.month * 100 + d.day;
      assert 0 <= low < 10000;
      var r := d.year * 10000 + low;
      assert r / 10000 == d.year && r % 10000 == low by {
        assert r == d.year * 10000 + low;
      }
      assert low / 100 == d.month && low % 100 == d.day;
      assert r % 100 == d.day by {
        assert r == (d.year * 100 + d.month) * 100 + d.day;
      }
    }
  }

  /** Distinct calendar dates have distinct day hashes. */
  lemma DayHashInjective(a: CalendarDate, b: CalendarDate)
    requires ValidDate(a) && ValidDate(b) && DayHash(a) == DayHash(b)
    ensures a == b
  {
    var ra, rb := a.month * 100 + a.day, b.month * 100 + b.day;
    assert 0 <= ra < 10000 && 0 <= rb < 10000;
    DivOfParts10000(a.year, ra);
    DivOfParts10000(b.year, rb);
    assert a.year == b.year;
    DivOfParts100(a.month, a.day);
    DivOfParts100(b.month, b.day);
  }

  lemma DivOfParts10000(q: int, r: int)
    requires 0 <= r < 10000
    ensures (q * 10000 + r) / 10000 == q
  {
  }

  lemma DivOfParts100(q: int, r: int)
    requires 0 <= r < 100
    ensures (q * 100 + r) / 100 == q
  {
  }

  /**
   * `getDailyIndex`: the truncating remainder of `dayHash + seedHash` by
   * the pool size, made non-negative by `Math.abs`.
   */
  function DailyIndex(n: int, today: CalendarDate, seed: string): (i: int)
    requires n > 0
    ensures 0 <= i < n
  {
    var x := JsRem(DayHash(today) + SeedHash(seed), n);
    if x < 0 then -x else x
  }

  /** The loop of `getDailyIndex`, proved to compute DailyIndex. */
  method ComputeDailyIndex(n: int, today: CalendarDate, seed: string) returns (index: int)
    requires n > 0
    ensures index == DailyIndex(n, today, seed)
    ensures 0 <= index < n
  {
    var dayHash := today.year * 10000 + today.month * 100 + today.day;
    var seedHash := 0;
    for i := 0 to |seed|
      invariant seedHash == SeedHash(seed[..i])
    {
      assert seed[..i + 1][..i] == seed[..i];
      var shifted := ToInt32(seedHash * 32);
      seedHash := shifted - seedHash + CharCode(seed[i]);
      seedHash := ToInt32(seedHash);
    }
    assert seed[..|seed|] == seed;
    var x := JsRem(dayHash + seedHash, n);
    index := if x < 0 then -x else x;
  }

  // ---------------------------------------------------------------------
  // Pools and picks

  /** The number of tips in each pool. */
  function PoolSize(p: TipPool): (n: nat)
    ensures n <= 5
    ensures n == 0 <==> p == MenstrualTips(MenstrualNormal)
  {
    match p
    case CommuteTips => 3
    case ConditionTips(_) => 3
    case MenstrualTips(m) => (
      match m
      case MenstrualNormal => 0
      case Pms => 3
      case Period => 3
      case Post => 2)
    case _ => 5
  }

  /** `pickTip`: no tip exactly when the pool is empty, else the tip at the daily index. */
  function PickTip(p: TipPool, today: CalendarDate, seed: string): (r: Option<TipRef>)
    ensures r.None? <==> PoolSize(p) == 0
    ensures r.Some? ==> r.value.pool == p && r.value.index < PoolSize(p)
    ensures r.Some? ==> r.value.index == DailyIndex(PoolSize(p), today, seed)
  {
    if PoolSize(p) == 0 then None else Some(TipRef(p, DailyIndex(PoolSize(p), today, seed)))
  }

  // ---------------------------------------------------------------------
  // `parseInt` of the hour

  predicate IsHexDigit(c: char) {
    IsDigit(c) || 'a' <= c <= 'f' || 'A' <= c <= 'F'
  }

  function HexValue(c: char): (v: nat)
    requires IsHexDigit(c)
    ensures v < 16
  {
    if IsDigit(c) then DigitValue(c)
    else if 'a' <= c <= 'f' then (c as int) - ('a' as int) + 10
    else (c as int) - ('A' as int) + 10
  }

  function ParseHex(s: string): nat
    requires forall i :: 0 <= i < |s| ==> IsHexDigit(s[i])
  {
    if s == [] then 0 else ParseHex(s[..|s| - 1]) * 16 + HexValue(s[|s| - 1])
  }

  /**
   * `parseInt(s)` with no radix, NaN being None: leading whitespace is
   * skipped, a sign is read, a `0x`/`0X` prefix selects hexadecimal, and
   * the longest run of digits that follows is the value.
   */
  function ParseInt(s: string): Option<int> {
    var t := TrimStart(s);
    var negative := t != [] && t[0] == '-';
    var rest := if t != [] && (t[0] == '-' || t[0] == '+') then t[1..] else t;
    match ParseMagnitude(rest)
    case None => None
    case Some(m) => Some(if negative then -m else m)
  }

  /** The unsigned part: hexadecimal after `0x`/`0X`, else the leading decimal digits. */
  function ParseMagnitude(rest: string): Option<int> {
    if |rest| >= 2 && rest[0] == '0' && (rest[1] == 'x' || rest[1] == 'X') then
      var h := Prefix(rest[2..], IsHexDigit);
      if h == [] then None else Some(ParseHex(h))
    else
      var d := Prefix(rest, IsDigit);
      if d == [] then None else Some(ParseNat(d))
  }

  lemma ParseMagnitudeOfDigits(s: string)
    requires AllDigits(s) && s != []
    ensures ParseMagnitude(s) == Some(ParseNat(s))
  {
    PrefixAll(s, IsDigit);
  }

  lemma TrimStartOfDigits(s: string)
    requires AllDigits(s) && s != []
    ensures TrimStart(s) == s
  {
    assert !IsWhitespace(s[0]);
  }

  /** `parseInt` of a plain digit string is its decimal value. */
  lemma ParseIntOfDigits(s: string)
    requires AllDigits(s) && s != []
    ensures ParseInt(s) == Some(ParseNat(s))
  {
    TrimStartOfDigits(s);
    ParseMagnitudeOfDigits(s);
  }

  /** `parseInt` reads back the decimal rendering of every integer. */
  lemma ParseIntOfIntToString(i: int)
    ensures ParseInt(IntToString(i)) == Some(i)
  {
    var digits := NatToString(if i < 0 then -i else i);
    ParseNatToString(if i < 0 then -i else i);
    if i < 0 {
      var s := IntToString(i);
      assert s == "-" + digits && s[1..] == digits;
      assert !IsWhitespace(s[0]) && TrimStart(s) == s;
      ParseMagnitudeOfDigits(digits);
    } else {
      ParseIntOfDigits(digits);
    }
  }

  /** `s.split(':')[0]`: everything before the first colon. */
  function BeforeColon(s: string): (r: string)
    ensures |r| <= |s| && r == s[..|r|] && ':' !in r
    ensures |r| < |s| ==> s[|r|] == ':'
  {
    if s == [] || s[0] == ':' then [] else [s[0]] + BeforeColon(s[1..])
  }

  /** The hour a work block starts in, as the selector reads it. */
  function StartHour(startTime: string): Option<int> {
    ParseInt(BeforeColon(startTime))
  }

  /** The text before the colon of a well-formed time is its two hour digits. */
  lemma BeforeColonOfTime(t: string)
    requires ValidTime(t)
    ensures BeforeColon(t) == [t[0], t[1]]
  {
    assert t[1..][1..] == t[2..];
    assert BeforeColon(t[2..]) == [];
  }

  /** For a well-formed time, the hour read is the hour of the day. */
  lemma StartHourOfValidTime(t: string)
    requires ValidTime(t)
    ensures StartHour(t) == Some(TimeToMinutes(t) / 60)
  {
    BeforeColonOfTime(t);
    ParseNatTwoDigits(t[0], t[1]);
    ParseIntOfDigits([t[0], t[1]]);
    TimeToMinutesParts(t);
  }

  // ---------------------------------------------------------------------
  // Tip selection

  /** The pool of a block: the switch of `getWellnessTip`. */
  function PoolFor(b: TimeBlock): (p: TipPool)
    ensures b.blockType == Sleep ==> (p == WakeTips <==> b.id == "wake") && (p == WakeTips || p == SleepTips)
    ensures b.blockType == BlockType.Meal ==>
      && (p == BreakfastTips <==> b.id == "breakfast")
      && (p == LunchTips <==> b.id == "lunch")
      && (p == DinnerTips <==> b.id != "breakfast" && b.id != "lunch")
    ensures b.blockType == Work ==>
      && (p == WorkMorningTips <==> StartHour(b.startTime).Some? && StartHour(b.startTime).value < 12)
      && (p == WorkMorningTips || p == WorkAfternoonTips)
    ensures b.blockType == Exercise <==> p == ExerciseTips
    ensures b.blockType == Break <==> p == BreakTips
    ensures b.blockType == Commute <==> p == CommuteTips
    ensures b.blockType == Free <==> p == FreeTimeTips
    ensures PoolSize(p) > 0
  {
    match b.blockType
    case Sleep => if b.id == "wake" then WakeTips else SleepTips
    case Meal =>
      if b.id == "breakfast" then BreakfastTips
      else if b.id == "lunch" then LunchTips
      else DinnerTips
    case Work =>
      var hour := StartHour(b.startTime);
      if hour.Some? && hour.value < 12 then WorkMorningTips else WorkAfternoonTips
    case Exercise => ExerciseTips
    case Break => BreakTips
    case Commute => CommuteTips
    case Free => FreeTimeTips
  }

  /**
   * `getWellnessTip`: every block type has a non-empty pool, so every block
   * gets a tip, chosen by its id and today's date.
   */
  function WellnessTip(b: TimeBlock, today: CalendarDate): (r: Option<TipRef>)
    ensures r.Some? && r.value.pool == PoolFor(b)
    ensures r.value.index == DailyIndex(PoolSize(PoolFor(b)), today, b.id)
  {
    PickTip(PoolFor(b), today, b.id)
  }

  /** A work block with a well-formed start time gets a morning tip exactly when it starts before noon. */
  lemma WorkTipMorningIffBeforeNoon(b: TimeBlock, today: CalendarDate)
    requires b.blockType == Work && ValidTime(b.startTime)
    ensures WellnessTip(b, today).value.pool == WorkMorningTips <==> TimeToMinutes(b.startTime) < 720
  {
    StartHourOfValidTime(b.startTime);
  }

  datatype Summary = Summary(conditionTip: Option<TipRef>, menstrualTip: Option<TipRef>)

  /**
   * `getDailyWellnessSummary`: a condition tip always; a menstrual tip only
   * for a present condition other than `normal`.
   */
  function DailyWellnessSummary(condition: Condition, menstrual: Option<MenstrualCondition>, today: CalendarDate)
    : (r: Summary)
    ensures r.conditionTip.Some? && r.conditionTip.value.pool == ConditionTips(condition)
    ensures r.menstrualTip.None? <==> menstrual.None? || menstrual.value == MenstrualNormal
    ensures r.menstrualTip.Some? ==> r.menstrualTip.value.pool == MenstrualTips(menstrual.value)
  {
    var conditionTip := PickTip(ConditionTips(condition), today, "daily-condition");
    var menstrualTip :=
      if menstrual.Some? && menstrual.value != MenstrualNormal then
        PickTip(MenstrualTips(menstrual.value), today, "daily-menstrual")
      else None;
    Summary(conditionTip, menstrualTip)
  }

  /**
   * `assignWellnessTips`: the same blocks in the same order, each with its
   * tip set and every other field unchanged.
   */
  function AssignWellnessTips(blocks: seq<TimeBlock>, today: CalendarDate): (r: seq<TimeBlock>)
    ensures |r| == |blocks|
    ensures forall i :: 0 <= i < |r| ==> r[i].(wellnessTip := blocks[i].wellnessTip) == blocks[i]
    ensures forall i :: 0 <= i < |r| ==> r[i].wellnessTip.Some? && r[i].wellnessTip.value.pool == PoolFor(blocks[i])
  {
    seq(|blocks|, i requires 0 <= i < |blocks| => blocks[i].(wellnessTip := WellnessTip(blocks[i], today)))
  }
}
