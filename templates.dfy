/**
 * src/lib/templates.ts: "HH:MM" time arithmetic on a 24-hour cycle, block
 * durations with the midnight rule, splitting a work period around breaks,
 * and building a day's sorted list of time blocks from a profile.
 *
 * To-do ids are random in the source (`Date.now()` and `Math.random()`);
 * here the caller supplies an `IdSource`, a stamp standing for the clock
 * and the random suffix, and the empty to-do placed in a new block takes
 * its id from that stamp and the block's id.
 */
module Templates {
  import opened Strings
  import opened Sorting
  import opened Profile

  // ---------------------------------------------------------------------
  // Time arithmetic

  /** A zero-padded "HH:MM" with HH < 24 and MM < 60. */
  predicate ValidTime(t: string) {
    && |t| == 5
    && IsDigit(t[0]) && IsDigit(t[1]) && t[2] == ':' && IsDigit(t[3]) && IsDigit(t[4])
    && TwoDigits(t[0], t[1]) < 24
    && TwoDigits(t[3], t[4]) < 60
  }

  /** `timeToMinutes`: minutes since midnight. */
  function TimeToMinutes(t: string): (m: nat)
    requires ValidTime(t)
    ensures m < 1440
  {
    TwoDigits(t[0], t[1]) * 60 + TwoDigits(t[3], t[4])
  }

  /** The hours and minutes of a time are recovered from its minute count. */
  lemma TimeToMinutesParts(t: string)
    requires ValidTime(t)
    ensures TimeToMinutes(t) / 60 == TwoDigits(t[0], t[1])
    ensures TimeToMinutes(t) % 60 == TwoDigits(t[3], t[4])
  {
  }

  /** JavaScript's `%`, whose result takes the sign of the dividend. */
  function JsRem(a: int, n: int): (r: int)
    requires n > 0
    ensures -n < r < n
    ensures a >= 0 ==> r == a % n
    ensures a < 0 ==> r == -((-a) % n)
  {
    if a >= 0 then a % n else -((-a) % n)
  }

  /** `((m % 1440) + 1440) % 1440` evaluated with JavaScript's `%`. */
  function NormalizeMinutes(m: int): (n: int)
    ensures 0 <= n < 1440
    ensures n == m % 1440
  {
    var r := JsRem(m, 1440);
    DoubleModulo(m);
    JsRem(r + 1440, 1440)
  }

  lemma DoubleModulo(m: int)
    ensures JsRem(JsRem(m, 1440) + 1440, 1440) == m % 1440
  {
    if m < 0 {
      var q, rem := (-m) / 1440, (-m) % 1440;
      assert -m == 1440 * q + rem;
      assert m == 1440 * (-q - 1) + (1440 - rem);
      if rem == 0 {
        assert m == 1440 * (-q) + 0;
      }
    }
  }

  /**
   * `minutesToTime`: formats any integer, negative or beyond a day, as the
   * well-formed time it denotes on the 24-hour cycle.
   */
  function MinutesToTime(m: int): (t: string)
    ensures ValidTime(t)
    ensures TimeToMinutes(t) == m % 1440
  {
    var n := NormalizeMinutes(m);
    var t := Pad2(n / 60) + ":" + Pad2(n % 60);
    assert TwoDigits(t[0], t[1]) == n / 60 && TwoDigits(t[3], t[4]) == n % 60;
    assert TwoDigits(t[0], t[1]) * 60 + TwoDigits(t[3], t[4]) == n;
    t
  }

  /** Every well-formed time is printed back exactly as it was written. */
  lemma {:induction false} TimeRoundTrip(t: string)
    requires ValidTime(t)
    ensures MinutesToTime(TimeToMinutes(t)) == t
  {
    var m := TimeToMinutes(t);
    var h, mm := TwoDigits(t[0], t[1]), TwoDigits(t[3], t[4]);
    TimeToMinutesParts(t);
    assert NormalizeMinutes(m) == m;
    assert MinutesToTime(m) == Pad2(h) + ":" + Pad2(mm);
    Pad2OfTwoDigits(t[0], t[1]);
    Pad2OfTwoDigits(t[3], t[4]);
    assert t == [t[0], t[1]] + ":" + [t[3], t[4]];
  }

  /**
   * `getBlockDuration`: the minutes from start forward to end; an end at or
   * before the start is on the next day, so equal times give a full day.
   */
  function BlockDuration(startTime: string, endTime: string): (d: int)
    requires ValidTime(startTime) && ValidTime(endTime)
    ensures 1 <= d <= 1440
    ensures (TimeToMinutes(startTime) + d) % 1440 == TimeToMinutes(endTime)
  {
    var start := TimeToMinutes(startTime);
    var end := TimeToMinutes(endTime);
    if end <= start then end + 1440 - start else end - start
  }

  /** Equal start and end times denote a whole day, not an empty block. */
  lemma SameTimeIsFullDay(t: string)
    requires ValidTime(t)
    ensures BlockDuration(t, t) == 1440
  {
  }

  lemma SameOffsetMod(s: int, a: int, b: int)
    requires 1 <= a <= 1440 && 1 <= b <= 1440
    requires (s + a) % 1440 == (s + b) % 1440
    ensures a == b
  {
    var qa, qb := (s + a) / 1440, (s + b) / 1440;
    assert s + a == 1440 * qa + (s + a) % 1440;
    assert s + b == 1440 * qb + (s + b) % 1440;
    var k := qa - qb;
    assert a - b == 1440 * k;
    assert k == 0;
  }

  /** A block that ends `d` minutes after it starts lasts `d` minutes. */
  lemma {:induction false} DurationAfter(t: string, d: int)
    requires ValidTime(t) && 1 <= d <= 1440
    ensures BlockDuration(t, MinutesToTime(TimeToMinutes(t) + d)) == d
  {
    var s := TimeToMinutes(t);
    var e := MinutesToTime(s + d);
    var got := BlockDuration(t, e);
    assert (s + got) % 1440 == TimeToMinutes(e);
    assert TimeToMinutes(e) == (s + d) % 1440;
    SameOffsetMod(s, got, d);
  }

  lemma ModBack(e: int, d: int)
    requires 0 <= e < 1440
    ensures ((e - d) % 1440 + d) % 1440 == e
  {
    var q := (e - d) / 1440;
    var s := (e - d) % 1440;
    assert e - d == 1440 * q + s;
    assert s + d == e + 1440 * (-q);
    ModShift(e, -q);
  }

  lemma ModShift(x: int, k: int)
    requires 0 <= x < 1440
    ensures (x + 1440 * k) % 1440 == x
  {
  }

  /** A block that starts `d` minutes before `t` and ends at `t` lasts `d` minutes. */
  lemma {:induction false} DurationBefore(t: string, d: int)
    requires ValidTime(t) && 1 <= d <= 1440
    ensures BlockDuration(MinutesToTime(TimeToMinutes(t) - d), t) == d
  {
    var e := TimeToMinutes(t);
    var st := MinutesToTime(e - d);
    var s := TimeToMinutes(st);
    var got := BlockDuration(st, t);
    assert s == (e - d) % 1440;
    ModBack(e, d);
    SameOffsetMod(s, got, d);
  }

  /** The sort key of a time. Every caller sorts well-formed times only. */
  function SortMinutes(t: string): int {
    if ValidTime(t) then TimeToMinutes(t) else 0
  }

  // ---------------------------------------------------------------------
  // Empty to-dos and blocks

  /** A to-do the planner treats as empty: blank text, not completed. */
  predicate IsPlaceholder(t: TodoItem) {
    t.text == "" && t.completed == Some(false)
  }

  /** Where fresh to-do ids come from: a stamp for the clock and the random suffix. */
  datatype IdSource = IdSource(stamp: string)

  /** The id of the empty to-do created for the block `blockId`. */
  function TodoId(ids: IdSource, blockId: string): string {
    "todo-" + ids.stamp + "-" + blockId
  }

  /** The id `normalizeTodo` gives the `idx`-th input. */
  function TodoIdAt(ids: IdSource, idx: nat): string {
    "todo-" + ids.stamp + "-" + NatToString(idx)
  }

  /** `createEmptyTodo`, with the fresh id supplied by the caller. */
  function EmptyTodo(id: string): (t: TodoItem)
    ensures IsPlaceholder(t) && t.id == id
  {
    TodoItem(id, "", None, None, Some(false))
  }

  /**
   * What every newly created block looks like: a fixed block has no to-dos,
   * any other block exactly one empty to-do; no plan and no tip yet.
   */
  predicate Shaped(b: TimeBlock, ids: IdSource) {
    && (b.isFixed ==> b.todos == [])
    && (!b.isFixed ==> b.todos == [EmptyTodo(TodoId(ids, b.id))])
    && b.exercisePlan.None? && b.wellnessTip.None?
  }

  /** `createEmptyTimeBlock`. */
  function EmptyTimeBlock(id: string, labelText: string, startTime: string, endTime: string,
                          icon: string, isFixed: bool, blockType: BlockType,
                          ids: IdSource): (b: TimeBlock)
    ensures Shaped(b, ids) && b.exerciseType.None?
    ensures b.id == id && b.startTime == startTime && b.endTime == endTime
    ensures b.isFixed == isFixed && b.blockType == blockType
  {
    TimeBlock(id, labelText, startTime, endTime, icon, isFixed, blockType,
              if isFixed then [] else [EmptyTodo(TodoId(ids, id))], None, None, None)
  }

  predicate TimesValid(b: TimeBlock) {
    ValidTime(b.startTime) && ValidTime(b.endTime)
  }

  predicate AllTimesValid(bs: seq<TimeBlock>) {
    forall i :: 0 <= i < |bs| ==> TimesValid(bs[i])
  }

  predicate AllShaped(bs: seq<TimeBlock>, ids: IdSource) {
    forall i :: 0 <= i < |bs| ==> Shaped(bs[i], ids)
  }

  // ---------------------------------------------------------------------
  // Splitting a work period around break points

  datatype BreakPoint = BreakPoint(time: string, duration: int, labelText: string, icon: string, blockType: BlockType)

  predicate AllBreakTimesValid(bps: seq<BreakPoint>) {
    forall i :: 0 <= i < |bps| ==> ValidTime(bps[i].time)
  }

  function BreakKey(bp: BreakPoint): Key {
    Key(SortMinutes(bp.time), 0)
  }

  /** The break points strictly between `start` and `end` minutes, in input order. */
  function Inside(start: int, end: int, bps: seq<BreakPoint>): (r: seq<BreakPoint>)
    requires AllBreakTimesValid(bps)
    ensures AllBreakTimesValid(r)
    ensures forall bp :: bp in r <==> bp in bps && start < TimeToMinutes(bp.time) < end
  {
    if bps == [] then []
    else
      var rest := Inside(start, end, bps[1..]);
      assert forall bp :: bp in bps <==> bp == bps[0] || bp in bps[1..];
      if start < TimeToMinutes(bps[0].time) < end then [bps[0]] + rest else rest
  }

  /**
   * The break points a split uses: those strictly inside (start, end),
   * sorted by time (stably, as `Array.prototype.sort` does).
   */
  function RelevantBreaks(startTime: string, endTime: string, bps: seq<BreakPoint>): (r: seq<BreakPoint>)
    requires ValidTime(startTime) && ValidTime(endTime) && AllBreakTimesValid(bps)
    ensures AllBreakTimesValid(r)
    ensures forall bp :: bp in r <==>
      bp in bps && TimeToMinutes(startTime) < TimeToMinutes(bp.time) < TimeToMinutes(endTime)
    ensures forall i, j :: 0 <= i < j < |r| ==> TimeToMinutes(r[i].time) <= TimeToMinutes(r[j].time)
  {
    var inside := Inside(TimeToMinutes(startTime), TimeToMinutes(endTime), bps);
    var r := SortBy(inside, BreakKey);
    SameElements(inside, r);
    forall i, j | 0 <= i < j < |r| ensures TimeToMinutes(r[i].time) <= TimeToMinutes(r[j].time) {
      assert r[i] in inside && r[j] in inside;
      assert KeyLe(BreakKey(r[i]), BreakKey(r[j]));
    }
    r
  }

  lemma SameElements<T>(s: seq<T>, r: seq<T>)
    requires multiset(r) == multiset(s)
    ensures forall x :: x in r <==> x in s
  {
    forall x ensures x in r <==> x in s {
      assert x in r <==> x in multiset(r);
      assert x in s <==> x in multiset(s);
    }
  }

  /** The fixed block a break point becomes: from its time, `duration` minutes long. */
  function BreakBlock(bp: BreakPoint, ids: IdSource): (b: TimeBlock)
    requires ValidTime(bp.time)
    ensures b.isFixed && b.todos == [] && TimesValid(b) && Shaped(b, ids)
    ensures b.startTime == bp.time && b.blockType == bp.blockType
    ensures TimeToMinutes(b.endTime) == (TimeToMinutes(bp.time) + bp.duration) % 1440
  {
    EmptyTimeBlock("break-" + bp.time, bp.labelText, bp.time,
                   MinutesToTime(TimeToMinutes(bp.time) + bp.duration), bp.icon, true, bp.blockType, ids)
  }

  function BreakBlocks(bps: seq<BreakPoint>, ids: IdSource): (r: seq<TimeBlock>)
    requires AllBreakTimesValid(bps)
    ensures |r| == |bps|
  {
    if bps == [] then []
    else BreakBlocks(bps[..|bps| - 1], ids) + [BreakBlock(bps[|bps| - 1], ids)]
  }

  /** The fixed blocks of a list, in order. */
  function FixedOnly(bs: seq<TimeBlock>): (r: seq<TimeBlock>)
    ensures |r| <= |bs|
  {
    if bs == [] then []
    else FixedOnly(bs[..|bs| - 1]) + (if bs[|bs| - 1].isFixed then [bs[|bs| - 1]] else [])
  }

  predicate HasPrefix(s: string, p: string) {
    |p| <= |s| && s[..|p|] == p
  }

  /** The circled numerals used to number the pieces of a split period. */
  const Circled: string := "①②③④⑤⑥⑦⑧⑨⑩"

  /**
   * The label of a work piece that ends at a break: the base label and
   * the part's circled numeral. The source tests `charAt(part)` on the
   * base label followed by the numerals, and indexes the numerals with
   * `part - 1`, which yields "undefined" past the tenth.
   */
  function InnerPartLabel(baseLabel: string, part: nat): (r: string)
    ensures 1 <= part <= |Circled| || part >= |baseLabel| + 1 + |Circled| ==> r == LastPartLabel(baseLabel, part)
    ensures |Circled| < part < |baseLabel| + 1 + |Circled| ==> r == baseLabel + " undefined"
  {
    if part < |baseLabel| + 1 + |Circled| then
      baseLabel + " " + (if 1 <= part <= |Circled| then [Circled[part - 1]] else "undefined")
    else
      baseLabel + " " + NatToString(part)
  }

  /** The label of the last work piece: circled numeral, or the plain number past ten. */
  function LastPartLabel(baseLabel: string, part: nat): (r: string)
    ensures |r| > |baseLabel| + 1 && r[..|baseLabel| + 1] == baseLabel + " "
    ensures part > |Circled| ==> AllDigits(r[|baseLabel| + 1..]) && ParseNat(r[|baseLabel| + 1..]) == part
  {
    ParseNatToString(part);
    var suffix := if 1 <= part <= |Circled| then [Circled[part - 1]] else NatToString(part);
    assert (baseLabel + " " + suffix)[|baseLabel| + 1..] == suffix;
    baseLabel + " " + suffix
  }

  /** Distinct parts of a period get distinct labels on their last piece. */
  lemma LastPartLabelInjective(baseLabel: string, m: nat, n: nat)
    requires m >= 1 && n >= 1 && LastPartLabel(baseLabel, m) == LastPartLabel(baseLabel, n)
    ensures m == n
  {
    var k := |baseLabel| + 1;
    var sm, sn := LastPartLabel(baseLabel, m)[k..], LastPartLabel(baseLabel, n)[k..];
    assert sm == sn;
    if m <= |Circled| && n <= |Circled| {
      assert sm == [Circled[m - 1]] && sn == [Circled[n - 1]];
      assert Circled[m - 1] == Circled[n - 1];
    } else if m > |Circled| && n > |Circled| {
      assert ParseNat(sm) == m && ParseNat(sn) == n;
    }
  }

  /** A work piece, which is never fixed. */
  predicate IsWorkPiece(b: TimeBlock) {
    !b.isFixed && b.blockType == Work && HasPrefix(b.id, "work-")
  }

  lemma FixedOnlyAppend(bs: seq<TimeBlock>, b: TimeBlock)
    ensures FixedOnly(bs + [b]) == FixedOnly(bs) + (if b.isFixed then [b] else [])
  {
    assert (bs + [b])[..|bs|] == bs;
  }

  /** A work piece with id `work-<suffix>` from `start` to `end`. */
  function WorkPiece(suffix: string, labelText: string, startTime: string, endTime: string,
                     icon: string, ids: IdSource): (b: TimeBlock)
    requires ValidTime(startTime) && ValidTime(endTime)
    ensures IsWorkPiece(b) && TimesValid(b) && Shaped(b, ids)
    ensures b.startTime == startTime && b.endTime == endTime
  {
    var b := EmptyTimeBlock("work-" + suffix, labelText, startTime, endTime, icon, false, Work, ids);
    assert b.id[..5] == "work-";
    b
  }

  /** Well-formed blocks whose unfixed members are non-empty work pieces. */
  predicate PiecesOk(bs: seq<TimeBlock>, ids: IdSource) {
    forall k :: 0 <= k < |bs| ==>
      && TimesValid(bs[k]) && Shaped(bs[k], ids)
      && (!bs[k].isFixed ==> IsWorkPiece(bs[k]) && TimeToMinutes(bs[k].startTime) < TimeToMinutes(bs[k].endTime))
  }

  /**
   * What one break point adds to a split: the work piece numbered `part`
   * from `currentStart` up to the break, when the break lies after
   * `currentStart`, and then the break's own block.
   */
  function StepPieces(currentStart: string, part: nat, bp: BreakPoint, baseLabel: string, icon: string,
                      ids: IdSource): (r: seq<TimeBlock>)
    requires ValidTime(currentStart) && ValidTime(bp.time)
    ensures 1 <= |r| <= 2 && r[|r| - 1] == BreakBlock(bp, ids)
    ensures |r| == 2 <==> TimeToMinutes(bp.time) > TimeToMinutes(currentStart)
    ensures |r| == 2 ==> IsWorkPiece(r[0]) && r[0].startTime == currentStart && r[0].endTime == bp.time
  {
    (if TimeToMinutes(bp.time) > TimeToMinutes(currentStart)
     then [WorkPiece(currentStart + "-" + NatToString(part), InnerPartLabel(baseLabel, part),
                     currentStart, bp.time, icon, ids)]
     else [])
    + [BreakBlock(bp, ids)]
  }

  /** The number of the next work piece once `bp` is passed. */
  function NextPart(currentStart: string, part: nat, bp: BreakPoint): nat
    requires ValidTime(currentStart) && ValidTime(bp.time)
  {
    if TimeToMinutes(bp.time) > TimeToMinutes(currentStart) then part + 1 else part
  }

  /** The last work piece of a split, from `currentStart` to `endTime`, when time is left. */
  function LastPiece(currentStart: string, endTime: string, part: nat, baseLabel: string, icon: string,
                     ids: IdSource): (r: seq<TimeBlock>)
    requires ValidTime(currentStart) && ValidTime(endTime)
    ensures |r| <= 1
    ensures |r| == 1 <==> TimeToMinutes(currentStart) < TimeToMinutes(endTime)
    ensures |r| == 1 ==> IsWorkPiece(r[0]) && r[0].startTime == currentStart && r[0].endTime == endTime
  {
    if TimeToMinutes(currentStart) < TimeToMinutes(endTime)
    then [WorkPiece(currentStart + "-" + NatToString(part), LastPartLabel(baseLabel, part),
                    currentStart, endTime, icon, ids)]
    else []
  }

  /** The pieces the split's loop emits from `currentStart` on, over the break points `rest`. */
  function SplitFrom(currentStart: string, part: nat, rest: seq<BreakPoint>, endTime: string,
                     baseLabel: string, icon: string, ids: IdSource): seq<TimeBlock>
    requires ValidTime(currentStart) && ValidTime(endTime) && AllBreakTimesValid(rest)
    decreases |rest|
  {
    if rest == [] then LastPiece(currentStart, endTime, part, baseLabel, icon, ids)
    else
      StepPieces(currentStart, part, rest[0], baseLabel, icon, ids)
      + SplitFrom(BreakBlock(rest[0], ids).endTime, NextPart(currentStart, part, rest[0]), rest[1..],
                  endTime, baseLabel, icon, ids)
  }

  /** What `splitWorkBlock` returns for a period and the break points. */
  function Split(startTime: string, endTime: string, bps: seq<BreakPoint>, baseLabel: string, icon: string,
                 ids: IdSource): seq<TimeBlock>
    requires ValidTime(startTime) && ValidTime(endTime) && AllBreakTimesValid(bps)
  {
    var relevant := RelevantBreaks(startTime, endTime, bps);
    if relevant == [] then [EmptyTimeBlock("work-" + startTime, baseLabel, startTime, endTime, icon, false, Work, ids)]
    else SplitFrom(startTime, 1, relevant, endTime, baseLabel, icon, ids)
  }

  /** Each work piece starts at `startTime` when it comes first, else where the break before it ends. */
  predicate PiecesStartAfterBreaks(r: seq<TimeBlock>, startTime: string) {
    && (|r| > 0 && !r[0].isFixed ==> r[0].startTime == startTime)
    && forall k :: 0 < k < |r| && !r[k].isFixed ==> r[k - 1].isFixed && r[k].startTime == r[k - 1].endTime
  }

  /** Each work piece ends at `endTime` when it comes last, else where the break after it starts. */
  predicate PiecesEndAtBreaks(r: seq<TimeBlock>, endTime: string) {
    && (|r| > 0 && !r[|r| - 1].isFixed ==> r[|r| - 1].endTime == endTime)
    && forall k :: 0 <= k < |r| - 1 && !r[k].isFixed ==> r[k + 1].isFixed && r[k].endTime == r[k + 1].startTime
  }

  /** One instance of `PiecesStartAfterBreaks`. */
  lemma StartOfPiece(r: seq<TimeBlock>, startTime: string, k: int)
    requires PiecesStartAfterBreaks(r, startTime) && 0 <= k < |r| && !r[k].isFixed
    ensures if k == 0 then r[k].startTime == startTime
            else r[k - 1].isFixed && r[k].startTime == r[k - 1].endTime
  {
  }

  lemma StartsConcat(s: seq<TimeBlock>, t: seq<TimeBlock>, r: seq<TimeBlock>, startTime: string)
    requires |s| > 0 && s[|s| - 1].isFixed
    requires PiecesStartAfterBreaks(s, startTime) && PiecesStartAfterBreaks(t, s[|s| - 1].endTime)
    requires r == s + t
    ensures PiecesStartAfterBreaks(r, startTime)
  {
    assert r[0] == s[0];
    forall k | 0 < k < |r| && !r[k].isFixed
      ensures r[k - 1].isFixed && r[k].startTime == r[k - 1].endTime
    {
      if k < |s| {
        assert r[k] == s[k] && !s[k].isFixed;
        StartOfPiece(s, startTime, k);
        assert r[k - 1] == s[k - 1];
      } else {
        var j := k - |s|;
        assert r[k] == t[j] && !t[j].isFixed;
        StartOfPiece(t, s[|s| - 1].endTime, j);
        if j == 0 {
          assert r[k - 1] == s[|s| - 1];
        } else {
          assert r[k - 1] == t[j - 1];
        }
      }
    }
  }

  /** One instance of `PiecesEndAtBreaks`. */
  lemma EndOfPiece(r: seq<TimeBlock>, endTime: string, k: int)
    requires PiecesEndAtBreaks(r, endTime) && 0 <= k < |r| && !r[k].isFixed
    ensures if k == |r| - 1 then r[k].endTime == endTime
            else r[k + 1].isFixed && r[k].endTime == r[k + 1].startTime
  {
  }

  lemma EndsConcat(s: seq<TimeBlock>, t: seq<TimeBlock>, r: seq<TimeBlock>, endTime: string)
    requires |s| > 0 && s[|s| - 1].isFixed
    requires PiecesEndAtBreaks(s, endTime) && PiecesEndAtBreaks(t, endTime)
    requires r == s + t
    ensures PiecesEndAtBreaks(r, endTime)
  {
    if t == [] {
      assert r == s;
    } else {
      assert r[|r| - 1] == t[|t| - 1];
    }
    forall k | 0 <= k < |r| - 1 && !r[k].isFixed
      ensures r[k + 1].isFixed && r[k].endTime == r[k + 1].startTime
    {
      if k < |s| {
        assert r[k] == s[k] && !s[k].isFixed;
        assert k < |s| - 1;
        EndOfPiece(s, endTime, k);
        assert r[k + 1] == s[k + 1];
      } else {
        var j := k - |s|;
        assert r[k] == t[j] && !t[j].isFixed;
        EndOfPiece(t, endTime, j);
        assert r[k + 1] == t[j + 1];
      }
    }
  }

  lemma {:induction false} SplitFromSpans(currentStart: string, part: nat, rest: seq<BreakPoint>, endTime: string,
                                          baseLabel: string, icon: string, ids: IdSource)
    requires ValidTime(currentStart) && ValidTime(endTime) && AllBreakTimesValid(rest)
    ensures PiecesStartAfterBreaks(SplitFrom(currentStart, part, rest, endTime, baseLabel, icon, ids), currentStart)
    ensures PiecesEndAtBreaks(SplitFrom(currentStart, part, rest, endTime, baseLabel, icon, ids), endTime)
    decreases |rest|
  {
    if rest != [] {
      var s := StepPieces(currentStart, part, rest[0], baseLabel, icon, ids);
      var next := BreakBlock(rest[0], ids).endTime;
      var t := SplitFrom(next, NextPart(currentStart, part, rest[0]), rest[1..], endTime, baseLabel, icon, ids);
      SplitFromSpans(next, NextPart(currentStart, part, rest[0]), rest[1..], endTime, baseLabel, icon, ids);
      StartsConcat(s, t, s + t, currentStart);
      EndsConcat(s, t, s + t, endTime);
    }
  }

  /**
   * Where the work pieces of a split lie: each runs from the start of the
   * period, or from the end of the break just before it, to the start of
   * the break just after it, or to the end of the period.
   */
  lemma SplitSpans(startTime: string, endTime: string, bps: seq<BreakPoint>, baseLabel: string, icon: string,
                   ids: IdSource)
    requires ValidTime(startTime) && ValidTime(endTime) && AllBreakTimesValid(bps)
    ensures PiecesStartAfterBreaks(Split(startTime, endTime, bps, baseLabel, icon, ids), startTime)
    ensures PiecesEndAtBreaks(Split(startTime, endTime, bps, baseLabel, icon, ids), endTime)
  {
    var relevant := RelevantBreaks(startTime, endTime, bps);
    if relevant != [] {
      SplitFromSpans(startTime, 1, relevant, endTime, baseLabel, icon, ids);
    }
  }

  /** Every block of a split is a work block or a break, when all the break points are breaks. */
  predicate WorkOrBreak(bs: seq<TimeBlock>) {
    forall i :: 0 <= i < |bs| ==> bs[i].blockType == Work || bs[i].blockType == Break
  }

  lemma {:induction false} SplitFromKinds(currentStart: string, part: nat, rest: seq<BreakPoint>, endTime: string,
                                          baseLabel: string, icon: string, ids: IdSource)
    requires ValidTime(currentStart) && ValidTime(endTime) && AllBreaks(rest)
    ensures WorkOrBreak(SplitFrom(currentStart, part, rest, endTime, baseLabel, icon, ids))
    decreases |rest|
  {
    if rest != [] {
      var s := StepPieces(currentStart, part, rest[0], baseLabel, icon, ids);
      var next := BreakBlock(rest[0], ids).endTime;
      var t := SplitFrom(next, NextPart(currentStart, part, rest[0]), rest[1..], endTime, baseLabel, icon, ids);
      assert AllBreaks(rest[1..]) by {
        forall i | 0 <= i < |rest[1..]| ensures rest[1..][i].blockType == Break && ValidTime(rest[1..][i].time) {
          assert rest[1..][i] == rest[i + 1];
        }
      }
      SplitFromKinds(next, NextPart(currentStart, part, rest[0]), rest[1..], endTime, baseLabel, icon, ids);
      assert WorkOrBreak(s);
      var st: seq<TimeBlock> := s + t;
      forall i | 0 <= i < |st| ensures st[i].blockType == Work || st[i].blockType == Break {
        if i < |s| { assert st[i] == s[i]; } else { assert st[i] == t[i - |s|]; }
      }
    }
  }

  /** A split with the profile's break points holds only work and break blocks. */
  lemma SplitKinds(startTime: string, endTime: string, bps: seq<BreakPoint>, baseLabel: string, icon: string,
                   ids: IdSource)
    requires ValidTime(startTime) && ValidTime(endTime) && AllBreaks(bps)
    ensures WorkOrBreak(Split(startTime, endTime, bps, baseLabel, icon, ids))
  {
    var relevant := RelevantBreaks(startTime, endTime, bps);
    if relevant != [] {
      forall i | 0 <= i < |relevant| ensures relevant[i].blockType == Break {
        assert relevant[i] in relevant;
      }
      SplitFromKinds(startTime, 1, relevant, endTime, baseLabel, icon, ids);
    }
  }

  /** Without a break point inside the period, the split is one work block for the whole period. */
  lemma SplitWithoutBreaks(startTime: string, endTime: string, bps: seq<BreakPoint>, baseLabel: string,
                           icon: string, ids: IdSource)
    requires ValidTime(startTime) && ValidTime(endTime) && AllBreakTimesValid(bps)
    requires forall i :: 0 <= i < |bps| ==>
      !(TimeToMinutes(startTime) < TimeToMinutes(bps[i].time) < TimeToMinutes(endTime))
    ensures Split(startTime, endTime, bps, baseLabel, icon, ids) ==
      [WorkBlock("work-" + startTime, baseLabel, startTime, endTime, icon, ids)]
  {
    var relevant := RelevantBreaks(startTime, endTime, bps);
    if relevant != [] {
      assert false;
    }
  }

  /**
   * `splitWorkBlock`: cuts the period [startTime, endTime) at the break
   * points strictly inside it. Without such a point the result is the
   * single block `work-<start>`. Otherwise the fixed blocks of the result
   * are exactly one break block per relevant point, in time order, the
   * first block is a work piece from the start, and every work piece is
   * non-empty.
   */
  method SplitWorkBlock(startTime: string, endTime: string, breakPoints: seq<BreakPoint>,
                        baseLabel: string, icon: string, ids: IdSource)
    returns (blocks: seq<TimeBlock>)
    requires ValidTime(startTime) && ValidTime(endTime) && AllBreakTimesValid(breakPoints)
    ensures AllTimesValid(blocks) && AllShaped(blocks, ids)
    ensures RelevantBreaks(startTime, endTime, breakPoints) == [] ==>
      blocks == [EmptyTimeBlock("work-" + startTime, baseLabel, startTime, endTime, icon, false, Work, ids)]
    ensures FixedOnly(blocks) == BreakBlocks(RelevantBreaks(startTime, endTime, breakPoints), ids)
    ensures forall i :: 0 <= i < |blocks| && !blocks[i].isFixed ==> IsWorkPiece(blocks[i])
    ensures RelevantBreaks(startTime, endTime, breakPoints) != [] ==>
      && PiecesOk(blocks, ids)
      && |blocks| > 0 && blocks[0].startTime == startTime && IsWorkPiece(blocks[0])
    ensures blocks == Split(startTime, endTime, breakPoints, baseLabel, icon, ids)
  {
    var relevant := RelevantBreaks(startTime, endTime, breakPoints);
    if |relevant| == 0 {
      var whole := EmptyTimeBlock("work-" + startTime, baseLabel, startTime, endTime, icon, false, Work, ids);
      SingleWorkBlock(whole, ids);
      blocks := [whole];
      return;
    }
    assert relevant[0] in relevant;
    blocks := SplitAt(startTime, endTime, relevant, baseLabel, icon, ids);
    PiecesOkFacts(blocks, ids);
  }

  /** An unsplit period is one well-formed work piece and no break block. */
  lemma SingleWorkBlock(b: TimeBlock, ids: IdSource)
    requires TimesValid(b) && Shaped(b, ids) && !b.isFixed && b.blockType == Work
    requires |b.id| >= 5 && b.id[..5] == "work-"
    ensures AllTimesValid([b]) && AllShaped([b], ids) && IsWorkPiece(b)
    ensures FixedOnly([b]) == BreakBlocks([], ids)
  {
    FixedOnlyAppend([], b);
    assert [] + [b] == [b];
  }

  /** Pieces that are all well formed, as the split's contract states them. */
  lemma PiecesOkFacts(bs: seq<TimeBlock>, ids: IdSource)
    requires PiecesOk(bs, ids)
    ensures AllTimesValid(bs) && AllShaped(bs, ids)
    ensures forall i :: 0 <= i < |bs| && !bs[i].isFixed ==> IsWorkPiece(bs[i])
  {
  }

  /** The loop of `splitWorkBlock`, over break points that all lie after the start. */
  method SplitAt(startTime: string, endTime: string, relevant: seq<BreakPoint>,
                 baseLabel: string, icon: string, ids: IdSource)
    returns (blocks: seq<TimeBlock>)
    requires ValidTime(startTime) && ValidTime(endTime) && AllBreakTimesValid(relevant)
    requires relevant != [] && TimeToMinutes(relevant[0].time) > TimeToMinutes(startTime)
    ensures PiecesOk(blocks, ids)
    ensures FixedOnly(blocks) == BreakBlocks(relevant, ids)
    ensures |blocks| > 0 && blocks[0].startTime == startTime && IsWorkPiece(blocks[0])
    ensures blocks == SplitFrom(startTime, 1, relevant, endTime, baseLabel, icon, ids)
  {
    blocks := [];
    var currentStart := startTime;
    var partNumber: nat := 1;
    for i := 0 to |relevant|
      invariant ValidTime(currentStart)
      invariant blocks + SplitFrom(currentStart, partNumber, relevant[i..], endTime, baseLabel, icon, ids)
                == SplitFrom(startTime, 1, relevant, endTime, baseLabel, icon, ids)
    {
      SplitFromUnfold(currentStart, partNumber, relevant, i, endTime, baseLabel, icon, ids);
      ghost var before := blocks;
      ghost var step := StepPieces(currentStart, partNumber, relevant[i], baseLabel, icon, ids);
      blocks, currentStart, partNumber := SplitStep(blocks, currentStart, partNumber, relevant[i], baseLabel, icon, ids);
      AppendAssoc(before, step, SplitFrom(currentStart, partNumber, relevant[i + 1..], endTime, baseLabel, icon, ids));
    }
    blocks := SplitLast(blocks, currentStart, endTime, partNumber, baseLabel, icon, ids);
    SplitFromPieces(startTime, 1, relevant, endTime, baseLabel, icon, ids);
    SplitFromFixed(startTime, 1, relevant, endTime, baseLabel, icon, ids);
    SplitFromUnfold(startTime, 1, relevant, 0, endTime, baseLabel, icon, ids);
    assert relevant[0..] == relevant;
  }

  lemma PiecesOkConcat(a: seq<TimeBlock>, b: seq<TimeBlock>, ids: IdSource)
    requires PiecesOk(a, ids) && PiecesOk(b, ids)
    ensures PiecesOk(a + b, ids)
  {
    forall k | 0 <= k < |a + b| ensures (a + b)[k] == if k < |a| then a[k] else b[k - |a|] {
    }
  }

  /** Every block of the split is well formed, and every work piece in it is non-empty. */
  lemma {:induction false} SplitFromPieces(currentStart: string, part: nat, rest: seq<BreakPoint>, endTime: string,
                                           baseLabel: string, icon: string, ids: IdSource)
    requires ValidTime(currentStart) && ValidTime(endTime) && AllBreakTimesValid(rest)
    ensures PiecesOk(SplitFrom(currentStart, part, rest, endTime, baseLabel, icon, ids), ids)
    decreases |rest|
  {
    if rest != [] {
      var next := BreakBlock(rest[0], ids).endTime;
      SplitFromPieces(next, NextPart(currentStart, part, rest[0]), rest[1..], endTime, baseLabel, icon, ids);
      PiecesOkConcat(StepPieces(currentStart, part, rest[0], baseLabel, icon, ids),
                     SplitFrom(next, NextPart(currentStart, part, rest[0]), rest[1..], endTime, baseLabel, icon, ids), ids);
    }
  }

  lemma {:induction false} FixedOnlyConcat(a: seq<TimeBlock>, b: seq<TimeBlock>)
    ensures FixedOnly(a + b) == FixedOnly(a) + FixedOnly(b)
    decreases |b|
  {
    if b == [] {
      assert a + b == a;
    } else {
      var init := b[..|b| - 1];
      var last := b[|b| - 1];
      assert a + b == (a + init) + [last];
      assert b == init + [last];
      FixedOnlyConcat(a, init);
      FixedOnlyAppend(a + init, last);
      FixedOnlyAppend(init, last);
    }
  }

  lemma {:induction false} BreakBlocksCons(bps: seq<BreakPoint>, ids: IdSource)
    requires AllBreakTimesValid(bps) && bps != []
    ensures BreakBlocks(bps, ids) == [BreakBlock(bps[0], ids)] + BreakBlocks(bps[1..], ids)
    decreases |bps|
  {
    if |bps| > 1 {
      var init := bps[..|bps| - 1];
      assert init[0] == bps[0];
      assert init[1..] == bps[1..][..|bps[1..]| - 1];
      BreakBlocksCons(init, ids);
    }
  }

  /** One step adds exactly one fixed block, the break's. */
  lemma FixedOnlyStep(currentStart: string, part: nat, bp: BreakPoint, baseLabel: string, icon: string,
                      ids: IdSource)
    requires ValidTime(currentStart) && ValidTime(bp.time)
    ensures FixedOnly(StepPieces(currentStart, part, bp, baseLabel, icon, ids)) == [BreakBlock(bp, ids)]
  {
    var s := StepPieces(currentStart, part, bp, baseLabel, icon, ids);
    FixedOnlyAppend([], s[0]);
    assert [] + [s[0]] == [s[0]];
    if |s| == 2 {
      FixedOnlyAppend([s[0]], s[1]);
      assert [s[0]] + [s[1]] == s;
    }
  }

  /** The last piece adds no fixed block. */
  lemma FixedOnlyLast(currentStart: string, endTime: string, part: nat, baseLabel: string, icon: string,
                      ids: IdSource)
    requires ValidTime(currentStart) && ValidTime(endTime)
    ensures FixedOnly(LastPiece(currentStart, endTime, part, baseLabel, icon, ids)) == []
  {
    var r := LastPiece(currentStart, endTime, part, baseLabel, icon, ids);
    if r != [] {
      FixedOnlyAppend([], r[0]);
      assert [] + [r[0]] == r;
    }
  }

  /** The fixed blocks of the split are the break blocks of the break points, in order. */
  lemma {:induction false} SplitFromFixed(currentStart: string, part: nat, rest: seq<BreakPoint>, endTime: string,
                                          baseLabel: string, icon: string, ids: IdSource)
    requires ValidTime(currentStart) && ValidTime(endTime) && AllBreakTimesValid(rest)
    ensures FixedOnly(SplitFrom(currentStart, part, rest, endTime, baseLabel, icon, ids)) == BreakBlocks(rest, ids)
    decreases |rest|
  {
    if rest == [] {
      FixedOnlyLast(currentStart, endTime, part, baseLabel, icon, ids);
    } else {
      var next := BreakBlock(rest[0], ids).endTime;
      var s := StepPieces(currentStart, part, rest[0], baseLabel, icon, ids);
      var t := SplitFrom(next, NextPart(currentStart, part, rest[0]), rest[1..], endTime, baseLabel, icon, ids);
      SplitFromFixed(next, NextPart(currentStart, part, rest[0]), rest[1..], endTime, baseLabel, icon, ids);
      FixedOnlyConcat(s, t);
      FixedOnlyStep(currentStart, part, rest[0], baseLabel, icon, ids);
      BreakBlocksCons(rest, ids);
    }
  }


  /** The loop's view of SplitFrom: the pieces from break point `i` on. */
  lemma SplitFromUnfold(currentStart: string, part: nat, relevant: seq<BreakPoint>, i: nat, endTime: string,
                        baseLabel: string, icon: string, ids: IdSource)
    requires ValidTime(currentStart) && ValidTime(endTime) && AllBreakTimesValid(relevant) && i < |relevant|
    ensures SplitFrom(currentStart, part, relevant[i..], endTime, baseLabel, icon, ids)
      == StepPieces(currentStart, part, relevant[i], baseLabel, icon, ids)
         + SplitFrom(BreakBlock(relevant[i], ids).endTime, NextPart(currentStart, part, relevant[i]),
                     relevant[i + 1..], endTime, baseLabel, icon, ids)
  {
    assert relevant[i..][1..] == relevant[i + 1..];
  }

  lemma AppendAssoc(a: seq<TimeBlock>, b: seq<TimeBlock>, c: seq<TimeBlock>)
    ensures (a + b) + c == a + (b + c)
  {
  }

  /** After the loop: the last work piece, when time is left before the end. */
  method SplitLast(blocks: seq<TimeBlock>, currentStart: string, endTime: string, partNumber: nat,
                   baseLabel: string, icon: string, ids: IdSource)
    returns (blocks': seq<TimeBlock>)
    requires ValidTime(currentStart) && ValidTime(endTime)
    ensures blocks' == blocks + LastPiece(currentStart, endTime, partNumber, baseLabel, icon, ids)
  {
    blocks' := blocks;
    if TimeToMinutes(currentStart) < TimeToMinutes(endTime) {
      var last := WorkPiece(currentStart + "-" + NatToString(partNumber), LastPartLabel(baseLabel, partNumber),
                            currentStart, endTime, icon, ids);
      blocks' := blocks + [last];
    }
  }

  /**
   * One break point of the loop: the work piece up to it when it lies after
   * the current start, then its break block; the next piece starts when
   * the break ends.
   */
  method SplitStep(blocks: seq<TimeBlock>, currentStart: string, partNumber: nat, bp: BreakPoint,
                   baseLabel: string, icon: string, ids: IdSource)
    returns (blocks': seq<TimeBlock>, nextStart: string, nextPart: nat)
    requires ValidTime(currentStart) && ValidTime(bp.time)
    ensures blocks' == blocks + StepPieces(currentStart, partNumber, bp, baseLabel, icon, ids)
    ensures ValidTime(nextStart) && nextStart == BreakBlock(bp, ids).endTime
    ensures nextPart == NextPart(currentStart, partNumber, bp)
  {
    blocks' := blocks;
    nextPart := partNumber;
    if TimeToMinutes(bp.time) > TimeToMinutes(currentStart) {
      var piece := WorkPiece(currentStart + "-" + NatToString(partNumber), InnerPartLabel(baseLabel, partNumber),
                             currentStart, bp.time, icon, ids);
      blocks' := blocks' + [piece];
      nextPart := partNumber + 1;
    }
    var brk := BreakBlock(bp, ids);
    blocks' := blocks' + [brk];
    nextStart := brk.endTime;
  }

  // ---------------------------------------------------------------------
  // Building the day from a profile

  /** The times the generator reads are well-formed wherever they are set. */
  predicate MealTimeValid(m: Meal) {
    IsSet(m.time) ==> ValidTime(m.time.value)
  }

  predicate BreakTimeValid(b: Option<BreakSetting>) {
    b.Some? && b.value.enabled ==> ValidTime(b.value.time)
  }

  predicate ProfileTimesValid(p: UserProfile) {
    && ValidTime(p.sleep.wakeTime) && ValidTime(p.sleep.bedTime)
    && MealTimeValid(p.meals.breakfast) && MealTimeValid(p.meals.lunch) && MealTimeValid(p.meals.dinner)
    && ((p.lifestyle.kind == Office || p.lifestyle.kind == OfficeFlex) && p.lifestyle.officeHours.Some? ==>
          var h := p.lifestyle.officeHours.value;
          ValidTime(h.start) && ValidTime(h.end) && ValidTime(h.lunchTime))
    && (p.lifestyle.kind == Student && p.lifestyle.classHours.Some? ==>
          ValidTime(p.lifestyle.classHours.value.start) && ValidTime(p.lifestyle.classHours.value.end))
    && (IsSet(p.exercise.time) ==> ValidTime(p.exercise.time.value))
    && (p.breaks.Some? ==> BreakTimeValid(p.breaks.value.morning) && BreakTimeValid(p.breaks.value.afternoon))
  }

  /** The morning and afternoon break points, when enabled. */
  function BreakPointsOf(p: UserProfile): (r: seq<BreakPoint>)
    requires ProfileTimesValid(p)
    ensures AllBreaks(r) && |r| <= 2
  {
    var morning := if p.breaks.Some? && p.breaks.value.morning.Some? && p.breaks.value.morning.value.enabled
      then [BreakPoint(p.breaks.value.morning.value.time, p.breaks.value.morning.value.duration, "오전 휴식", "☕", Break)]
      else [];
    var afternoon := if p.breaks.Some? && p.breaks.value.afternoon.Some? && p.breaks.value.afternoon.value.enabled
      then [BreakPoint(p.breaks.value.afternoon.value.time, p.breaks.value.afternoon.value.duration, "오후 휴식", "🍵", Break)]
      else [];
    morning + afternoon
  }

  /** JavaScript's `x || d` on an optional number: 0 and absence both give `d`. */
  function OrDefault(x: Option<int>, d: int): int {
    if x.Some? && x.value != 0 then x.value else d
  }

  /** Well-formed times and the shape of a new block, throughout a list. */
  predicate Wellformed(bs: seq<TimeBlock>, ids: IdSource) {
    AllTimesValid(bs) && AllShaped(bs, ids)
  }

  /** A block fit to be emitted: well-formed times and the shape of a new block. */
  predicate Fresh(b: TimeBlock, ids: IdSource) {
    TimesValid(b) && Shaped(b, ids)
  }

  lemma WellformedConcat(a: seq<TimeBlock>, b: seq<TimeBlock>, ids: IdSource)
    requires Wellformed(a, ids) && Wellformed(b, ids)
    ensures Wellformed(a + b, ids)
  {
    forall k | 0 <= k < |a + b| ensures TimesValid((a + b)[k]) && Shaped((a + b)[k], ids) {
      if k < |a| { assert (a + b)[k] == a[k]; } else { assert (a + b)[k] == b[k - |a|]; }
    }
  }

  lemma NoExerciseConcat(a: seq<TimeBlock>, b: seq<TimeBlock>)
    ensures NoExercise(a + b) <==> NoExercise(a) && NoExercise(b)
  {
    if NoExercise(a) && NoExercise(b) {
      forall k | 0 <= k < |a + b| ensures (a + b)[k].blockType != Exercise {
        if k < |a| { assert (a + b)[k] == a[k]; } else { assert (a + b)[k] == b[k - |a|]; }
      }
    }
    if NoExercise(a + b) {
      forall k | 0 <= k < |b| ensures b[k].blockType != Exercise {
        assert (a + b)[|a| + k] == b[k];
      }
      forall k | 0 <= k < |a| ensures a[k].blockType != Exercise {
        assert (a + b)[k] == a[k];
      }
    }
  }

  function WakeBlock(p: UserProfile, ids: IdSource): (b: TimeBlock)
    requires ValidTime(p.sleep.wakeTime)
    ensures Fresh(b, ids) && b.isFixed && b.blockType == Sleep && b.startTime == p.sleep.wakeTime
  {
    EmptyTimeBlock("wake", "기상", p.sleep.wakeTime,
                   MinutesToTime(TimeToMinutes(p.sleep.wakeTime) + 30), "🌅", true, Sleep, ids)
  }

  function SleepBlock(p: UserProfile, ids: IdSource): (b: TimeBlock)
    requires ValidTime(p.sleep.bedTime)
    ensures Fresh(b, ids) && b.isFixed && b.blockType == Sleep && b.startTime == p.sleep.bedTime
  {
    EmptyTimeBlock("sleep", "취침", p.sleep.bedTime,
                   MinutesToTime(TimeToMinutes(p.sleep.bedTime) + 30), "😴", true, Sleep, ids)
  }

  function BreakfastBlock(p: UserProfile, ids: IdSource): (b: TimeBlock)
    requires IsSet(p.meals.breakfast.time) && ValidTime(p.meals.breakfast.time.value)
    ensures Fresh(b, ids) && b.isFixed && b.blockType == BlockType.Meal
    ensures b.startTime == p.meals.breakfast.time.value
  {
    var t := p.meals.breakfast.time.value;
    EmptyTimeBlock("breakfast", "아침 식사", t, MinutesToTime(TimeToMinutes(t) + 30), "🍳", true, BlockType.Meal, ids)
  }

  function DinnerBlock(p: UserProfile, ids: IdSource): (b: TimeBlock)
    requires IsSet(p.meals.dinner.time) && ValidTime(p.meals.dinner.time.value)
    ensures Fresh(b, ids) && b.isFixed && b.blockType == BlockType.Meal
    ensures b.startTime == p.meals.dinner.time.value
  {
    var t := p.meals.dinner.time.value;
    EmptyTimeBlock("dinner", "저녁 식사", t, MinutesToTime(TimeToMinutes(t) + 60), "🍽️", true, BlockType.Meal, ids)
  }

  /** A one-hour fixed lunch block starting at `t`. */
  function LunchBlock(t: string, ids: IdSource): (b: TimeBlock)
    requires ValidTime(t)
    ensures Fresh(b, ids) && b.isFixed && b.blockType == BlockType.Meal && b.startTime == t
  {
    EmptyTimeBlock("lunch", "점심 식사", t, MinutesToTime(TimeToMinutes(t) + 60), "🍱", true, BlockType.Meal, ids)
  }

  /** The configured lunch time, or noon when none is set. */
  function LunchTimeOrNoon(p: UserProfile): (t: string)
    requires MealTimeValid(p.meals.lunch)
    ensures ValidTime(t)
    ensures t == if IsSet(p.meals.lunch.time) then p.meals.lunch.time.value else "12:00"
  {
    if IsSet(p.meals.lunch.time) then p.meals.lunch.time.value else "12:00"
  }

  /** The start of free time: an hour after dinner when a dinner time is set, else 20:00. */
  function EveningStart(p: UserProfile): (t: string)
    requires MealTimeValid(p.meals.dinner)
    ensures ValidTime(t)
    ensures IsSet(p.meals.dinner.time) ==>
      TimeToMinutes(t) == (TimeToMinutes(p.meals.dinner.time.value) + 60) % 1440
    ensures !IsSet(p.meals.dinner.time) ==> t == "20:00"
  {
    if IsSet(p.meals.dinner.time) then MinutesToTime(TimeToMinutes(p.meals.dinner.time.value) + 60) else "20:00"
  }

  function EveningFreeBlock(p: UserProfile, ids: IdSource): (b: TimeBlock)
    requires ValidTime(p.sleep.bedTime) && MealTimeValid(p.meals.dinner)
    ensures Fresh(b, ids) && !b.isFixed && b.blockType == Free
    ensures b.startTime == EveningStart(p) && b.endTime == p.sleep.bedTime
  {
    EmptyTimeBlock("evening_free", "자유시간", EveningStart(p), p.sleep.bedTime, "🌙", false, Free, ids)
  }

  function CommuteToBlock(h: OfficeHours, commuteMinutes: Option<int>, ids: IdSource): (b: TimeBlock)
    requires ValidTime(h.start)
    ensures Fresh(b, ids) && b.isFixed && b.blockType == Commute && b.endTime == h.start
    ensures b.startTime == MinutesToTime(TimeToMinutes(h.start) - OrDefault(commuteMinutes, 30))
  {
    EmptyTimeBlock("commute_to", "출근", MinutesToTime(TimeToMinutes(h.start) - OrDefault(commuteMinutes, 30)),
                   h.start, "🚗", true, Commute, ids)
  }

  function CommuteFromBlock(h: OfficeHours, commuteMinutes: Option<int>, ids: IdSource): (b: TimeBlock)
    requires ValidTime(h.end)
    ensures Fresh(b, ids) && b.isFixed && b.blockType == Commute && b.startTime == h.end
  {
    EmptyTimeBlock("commute_from", "퇴근", h.end, MinutesToTime(TimeToMinutes(h.end) + OrDefault(commuteMinutes, 30)),
                   "🚗", true, Commute, ids)
  }

  /** The exercise block, seeded with the first configured exercise type. */
  function ExerciseBlock(p: UserProfile, ids: IdSource): (b: TimeBlock)
    requires IsSet(p.exercise.time) && ValidTime(p.exercise.time.value)
    ensures Fresh(b, ids) && !b.isFixed && b.blockType == Exercise && b.startTime == p.exercise.time.value
    ensures b.endTime == MinutesToTime(TimeToMinutes(p.exercise.time.value) + OrDefault(p.exercise.duration, 60))
    ensures b.exerciseType == if p.exercise.types.Some? && |p.exercise.types.value| > 0
      then Some(p.exercise.types.value[0]) else None
  {
    var t := p.exercise.time.value;
    var b := EmptyTimeBlock("exercise", "운동", t, MinutesToTime(TimeToMinutes(t) + OrDefault(p.exercise.duration, 60)),
                            "🏋️", false, Exercise, ids);
    if p.exercise.types.Some? && |p.exercise.types.value| > 0 then b.(exerciseType := Some(p.exercise.types.value[0]))
    else b
  }

  /** A block that is not a fixed break, lunch, commute or sleep block: a work block. */
  function WorkBlock(id: string, labelText: string, startTime: string, endTime: string, icon: string,
                     ids: IdSource): (b: TimeBlock)
    requires ValidTime(startTime) && ValidTime(endTime)
    ensures Fresh(b, ids) && !b.isFixed && b.blockType == Work
    ensures b.id == id && b.startTime == startTime && b.endTime == endTime
  {
    EmptyTimeBlock(id, labelText, startTime, endTime, icon, false, Work, ids)
  }

  /** Start and end of each shift type; an unset type counts as the day shift. */
  function ShiftHours(s: Option<ShiftType>): (r: (string, string))
    ensures ValidTime(r.0) && ValidTime(r.1)
    ensures s.None? ==> r == ("06:00", "14:00")
  {
    match if s.Some? then s.value else DayShift
    case DayShift => ("06:00", "14:00")
    case AfternoonShift => ("14:00", "22:00")
    case NightShift => ("22:00", "06:00")
    case Rotating => ("09:00", "18:00")
  }

  function StartKey(b: TimeBlock): Key {
    Key(SortMinutes(b.startTime), 0)
  }

  predicate SortedByStart(bs: seq<TimeBlock>)
    requires AllTimesValid(bs)
  {
    forall i, j :: 0 <= i < j < |bs| ==> TimeToMinutes(bs[i].startTime) <= TimeToMinutes(bs[j].startTime)
  }

  /** A block list sorted by StartKey is sorted by start minute. */
  lemma StartKeySorted(bs: seq<TimeBlock>)
    requires AllTimesValid(bs) && SortedBy(bs, StartKey)
    ensures SortedByStart(bs)
  {
    forall i, j | 0 <= i < j < |bs| ensures TimeToMinutes(bs[i].startTime) <= TimeToMinutes(bs[j].startTime) {
      assert KeyLe(StartKey(bs[i]), StartKey(bs[j]));
    }
  }

  /** Blocks of the lifestyle part never include an exercise block. */
  predicate NoExercise(bs: seq<TimeBlock>) {
    forall i :: 0 <= i < |bs| ==> bs[i].blockType != Exercise
  }

  /** The break points are the profile's, so every one of them is a break. */
  predicate AllBreaks(bps: seq<BreakPoint>) {
    AllBreakTimesValid(bps) && forall i :: 0 <= i < |bps| ==> bps[i].blockType == Break
  }

  /** A split of a period with the profile's break points: see SplitWorkBlock. */
  method SplitWithBreaks(startTime: string, endTime: string, bps: seq<BreakPoint>,
                         baseLabel: string, icon: string, ids: IdSource)
    returns (blocks: seq<TimeBlock>)
    requires ValidTime(startTime) && ValidTime(endTime) && AllBreaks(bps)
    ensures blocks == Split(startTime, endTime, bps, baseLabel, icon, ids)
    ensures Wellformed(blocks, ids) && NoExercise(blocks)
  {
    blocks := SplitWorkBlock(startTime, endTime, bps, baseLabel, icon, ids);
    SplitFacts(startTime, endTime, bps, baseLabel, icon, ids);
  }

  /** A single emitted block, as a list. */
  lemma One(b: TimeBlock, ids: IdSource)
    requires Fresh(b, ids)
    ensures Wellformed([b], ids)
    ensures b.blockType != Exercise ==> NoExercise([b])
  {
  }

  // ---------------------------------------------------------------------
  // The contents of each part of the day

  /** A split with the profile's break points is well formed and holds no exercise block. */
  lemma SplitFacts(startTime: string, endTime: string, bps: seq<BreakPoint>, baseLabel: string, icon: string,
                   ids: IdSource)
    requires ValidTime(startTime) && ValidTime(endTime) && AllBreaks(bps)
    ensures Wellformed(Split(startTime, endTime, bps, baseLabel, icon, ids), ids)
    ensures NoExercise(Split(startTime, endTime, bps, baseLabel, icon, ids))
  {
    var relevant := RelevantBreaks(startTime, endTime, bps);
    if relevant == [] {
      One(WorkBlock("work-" + startTime, baseLabel, startTime, endTime, icon, ids), ids);
    } else {
      SplitFromPieces(startTime, 1, relevant, endTime, baseLabel, icon, ids);
      PiecesOkFacts(SplitFrom(startTime, 1, relevant, endTime, baseLabel, icon, ids), ids);
    }
    SplitKinds(startTime, endTime, bps, baseLabel, icon, ids);
  }

  /** A split is never empty: a period with no time left still yields its break blocks or one block. */
  lemma SplitNonEmpty(startTime: string, endTime: string, bps: seq<BreakPoint>, baseLabel: string, icon: string,
                      ids: IdSource)
    requires ValidTime(startTime) && ValidTime(endTime) && AllBreakTimesValid(bps)
    ensures Split(startTime, endTime, bps, baseLabel, icon, ids) != []
  {
    var relevant := RelevantBreaks(startTime, endTime, bps);
    if relevant != [] {
      assert StepPieces(startTime, 1, relevant[0], baseLabel, icon, ids) != [];
    }
  }

  /** The end of the hour-long office lunch. */
  function LunchEnd(h: OfficeHours): (t: string)
    requires ValidTime(h.lunchTime)
    ensures ValidTime(t) && TimeToMinutes(t) == (TimeToMinutes(h.lunchTime) + 60) % 1440
  {
    MinutesToTime(TimeToMinutes(h.lunchTime) + 60)
  }

  /** Lunch at the set lunch time, or noon, exactly when lunch is enabled. */
  function LunchPart(p: UserProfile, ids: IdSource): (r: seq<TimeBlock>)
    requires MealTimeValid(p.meals.lunch)
    ensures Wellformed(r, ids) && NoExercise(r)
    ensures |r| <= 1 && (r != [] <==> p.meals.lunch.enabled)
    ensures r != [] ==> r[0] == LunchBlock(LunchTimeOrNoon(p), ids)
  {
    if p.meals.lunch.enabled then [LunchBlock(LunchTimeOrNoon(p), ids)] else []
  }

  /** The office day: commute, the morning split up to lunch, lunch, the afternoon split, commute home. */
  function OfficePlan(h: OfficeHours, commuteMinutes: Option<int>, bps: seq<BreakPoint>, ids: IdSource)
    : (r: seq<TimeBlock>)
    requires ValidTime(h.start) && ValidTime(h.end) && ValidTime(h.lunchTime) && AllBreaks(bps)
    ensures Wellformed(r, ids) && NoExercise(r)
  {
    var morning := Split(h.start, h.lunchTime, bps, "오전 업무", "💼", ids);
    var afternoon := Split(LunchEnd(h), h.end, bps, "오후 업무", "💼", ids);
    OfficeFacts(h, commuteMinutes, bps, ids);
    [CommuteToBlock(h, commuteMinutes, ids)] + morning + [LunchBlock(h.lunchTime, ids)] + afternoon
    + [CommuteFromBlock(h, commuteMinutes, ids)]
  }

  lemma OfficeFacts(h: OfficeHours, commuteMinutes: Option<int>, bps: seq<BreakPoint>, ids: IdSource)
    requires ValidTime(h.start) && ValidTime(h.end) && ValidTime(h.lunchTime) && AllBreaks(bps)
    ensures var r := [CommuteToBlock(h, commuteMinutes, ids)] + Split(h.start, h.lunchTime, bps, "오전 업무", "💼", ids)
      + [LunchBlock(h.lunchTime, ids)] + Split(LunchEnd(h), h.end, bps, "오후 업무", "💼", ids)
      + [CommuteFromBlock(h, commuteMinutes, ids)];
      Wellformed(r, ids) && NoExercise(r)
  {
    SplitFacts(h.start, h.lunchTime, bps, "오전 업무", "💼", ids);
    SplitFacts(LunchEnd(h), h.end, bps, "오후 업무", "💼", ids);
    One(CommuteToBlock(h, commuteMinutes, ids), ids);
    One(LunchBlock(h.lunchTime, ids), ids);
    One(CommuteFromBlock(h, commuteMinutes, ids), ids);
    Concat5(ids, [CommuteToBlock(h, commuteMinutes, ids)], Split(h.start, h.lunchTime, bps, "오전 업무", "💼", ids),
            [LunchBlock(h.lunchTime, ids)], Split(LunchEnd(h), h.end, bps, "오후 업무", "💼", ids),
            [CommuteFromBlock(h, commuteMinutes, ids)]);
  }

  /** Five well-formed parts without exercise make a well-formed list without exercise. */
  lemma Concat5(ids: IdSource, a: seq<TimeBlock>, b: seq<TimeBlock>, c: seq<TimeBlock>, d: seq<TimeBlock>,
                e: seq<TimeBlock>)
    requires Wellformed(a, ids) && Wellformed(b, ids) && Wellformed(c, ids) && Wellformed(d, ids)
    requires Wellformed(e, ids)
    requires NoExercise(a) && NoExercise(b) && NoExercise(c) && NoExercise(d) && NoExercise(e)
    ensures Wellformed(a + b + c + d + e, ids) && NoExercise(a + b + c + d + e)
  {
    WellformedConcat5(a, b, c, d, e, ids);
    NoExerciseConcat(a, b);
    NoExerciseConcat(a + b, c);
    NoExerciseConcat(a + b + c, d);
    NoExerciseConcat(a + b + c + d, e);
  }

  /** Two hours of self-study from the end of classes. */
  function SelfStudyBlock(c: ClassHours, ids: IdSource): (b: TimeBlock)
    requires ValidTime(c.end)
    ensures Fresh(b, ids) && !b.isFixed && b.blockType == Work
    ensures b.id == "self_study" && b.startTime == c.end
    ensures TimeToMinutes(b.endTime) == (TimeToMinutes(c.end) + 120) % 1440
    ensures BlockDuration(b.startTime, b.endTime) == 120
  {
    DurationAfter(c.end, 120);
    WorkBlock("self_study", "자습/과제", c.end, MinutesToTime(TimeToMinutes(c.end) + 120), "✍️", ids)
  }

  /** The morning classes: the split from the start of classes to noon. */
  function MorningClasses(c: ClassHours, bps: seq<BreakPoint>, ids: IdSource): (r: seq<TimeBlock>)
    requires ValidTime(c.start) && AllBreaks(bps)
    ensures Wellformed(r, ids) && NoExercise(r) && WorkOrBreak(r) && r != []
  {
    SplitFacts(c.start, "12:00", bps, "오전 수업", "📚", ids);
    SplitKinds(c.start, "12:00", bps, "오전 수업", "📚", ids);
    SplitNonEmpty(c.start, "12:00", bps, "오전 수업", "📚", ids);
    Split(c.start, "12:00", bps, "오전 수업", "📚", ids)
  }

  /** The afternoon classes: the split from 13:00 to the end of classes. */
  function AfternoonClasses(c: ClassHours, bps: seq<BreakPoint>, ids: IdSource): (r: seq<TimeBlock>)
    requires ValidTime(c.end) && AllBreaks(bps)
    ensures Wellformed(r, ids) && NoExercise(r) && WorkOrBreak(r) && r != []
  {
    SplitFacts("13:00", c.end, bps, "오후 수업", "📚", ids);
    SplitKinds("13:00", c.end, bps, "오후 수업", "📚", ids);
    SplitNonEmpty("13:00", c.end, bps, "오후 수업", "📚", ids);
    Split("13:00", c.end, bps, "오후 수업", "📚", ids)
  }

  /** The student day: the morning split to noon, lunch when enabled, the afternoon split from 13:00, self-study. */
  function StudentPlan(p: UserProfile, c: ClassHours, bps: seq<BreakPoint>, ids: IdSource): (r: seq<TimeBlock>)
    requires ValidTime(c.start) && ValidTime(c.end) && MealTimeValid(p.meals.lunch) && AllBreaks(bps)
    ensures Wellformed(r, ids) && NoExercise(r)
    ensures |r| >= 3 && r[|r| - 1] == SelfStudyBlock(c, ids)
    ensures LunchBlock(LunchTimeOrNoon(p), ids) in r <==> p.meals.lunch.enabled
  {
    var morning := MorningClasses(c, bps, ids);
    var afternoon := AfternoonClasses(c, bps, ids);
    var study := SelfStudyBlock(c, ids);
    StudentShape(p, morning, afternoon, study, ids);
    morning + LunchPart(p, ids) + afternoon + [study]
  }

  /** Classes around lunch followed by one more work block: well-formed, and lunch is there exactly when enabled. */
  lemma StudentShape(p: UserProfile, morning: seq<TimeBlock>, afternoon: seq<TimeBlock>, study: TimeBlock, ids: IdSource)
    requires MealTimeValid(p.meals.lunch)
    requires Wellformed(morning, ids) && NoExercise(morning) && WorkOrBreak(morning) && morning != []
    requires Wellformed(afternoon, ids) && NoExercise(afternoon) && WorkOrBreak(afternoon) && afternoon != []
    requires Fresh(study, ids) && study.blockType == Work
    ensures var r := morning + LunchPart(p, ids) + afternoon + [study];
      && Wellformed(r, ids) && NoExercise(r)
      && |r| >= 3 && r[|r| - 1] == study
      && (LunchBlock(LunchTimeOrNoon(p), ids) in r <==> p.meals.lunch.enabled)
  {
    One(study, ids);
    Concat5(ids, [], morning, LunchPart(p, ids), afternoon, [study]);
    assert [] + morning == morning;
    LunchBetween(p, morning, afternoon + [study], ids);
    assert morning + LunchPart(p, ids) + (afternoon + [study]) == morning + LunchPart(p, ids) + afternoon + [study];
  }

  /** The freelancer's periods: the chosen ones, or morning and afternoon when none are given. */
  function WorkPeriods(p: UserProfile): (r: seq<WorkHourPeriod>)
    ensures p.lifestyle.preferredWorkHours.None? ==> r == [Morning, Afternoon]
    ensures p.lifestyle.preferredWorkHours.Some? ==> r == p.lifestyle.preferredWorkHours.value
  {
    if p.lifestyle.preferredWorkHours.Some? then p.lifestyle.preferredWorkHours.value else [Morning, Afternoon]
  }

  /** A freelancer period's blocks when it is chosen, and nothing otherwise. */
  function PeriodPart(period: WorkHourPeriod, periods: seq<WorkHourPeriod>, bps: seq<BreakPoint>, ids: IdSource)
    : (r: seq<TimeBlock>)
    requires AllBreaks(bps)
    ensures Wellformed(r, ids) && NoExercise(r)
  {
    if period !in periods then []
    else
      match period
      case Morning =>
        SplitFacts("09:00", "12:00", bps, "오전 작업", "💻", ids);
        Split("09:00", "12:00", bps, "오전 작업", "💻", ids)
      case Afternoon =>
        SplitFacts("13:00", "18:00", bps, "오후 작업", "💻", ids);
        Split("13:00", "18:00", bps, "오후 작업", "💻", ids)
      case Evening =>
        One(WorkBlock("work_evening", "저녁 작업", "19:00", "23:00", "🌙", ids), ids);
        [WorkBlock("work_evening", "저녁 작업", "19:00", "23:00", "🌙", ids)]
      case Night =>
        One(WorkBlock("work_night", "심야 작업", "23:00", "03:00", "🦉", ids), ids);
        [WorkBlock("work_night", "심야 작업", "23:00", "03:00", "🦉", ids)]
  }

  /** The freelancer day: the chosen periods in the order of the day, with lunch after the morning. */
  function FreelancerPlan(p: UserProfile, bps: seq<BreakPoint>, ids: IdSource): (r: seq<TimeBlock>)
    requires MealTimeValid(p.meals.lunch) && AllBreaks(bps)
    ensures Wellformed(r, ids) && NoExercise(r)
  {
    var periods := WorkPeriods(p);
    Concat5(ids, PeriodPart(Morning, periods, bps, ids), LunchPart(p, ids), PeriodPart(Afternoon, periods, bps, ids),
            PeriodPart(Evening, periods, bps, ids), PeriodPart(Night, periods, bps, ids));
    PeriodPart(Morning, periods, bps, ids) + LunchPart(p, ids) + PeriodPart(Afternoon, periods, bps, ids)
    + PeriodPart(Evening, periods, bps, ids) + PeriodPart(Night, periods, bps, ids)
  }

  /** Any other lifestyle: a morning and an afternoon activity, with lunch between when enabled. */
  function DefaultPlan(p: UserProfile, ids: IdSource): (r: seq<TimeBlock>)
    requires MealTimeValid(p.meals.lunch)
    ensures Wellformed(r, ids) && NoExercise(r)
  {
    var morning := WorkBlock("morning_activity", "오전 활동", "09:00", "12:00", "☀️", ids);
    var afternoon := WorkBlock("afternoon_activity", "오후 활동", "13:00", "18:00", "🌤️", ids);
    One(morning, ids);
    One(afternoon, ids);
    Concat5(ids, [], [morning], LunchPart(p, ids), [afternoon], []);
    assert [] + [morning] + LunchPart(p, ids) + [afternoon] + [] == [morning] + LunchPart(p, ids) + [afternoon];
    [morning] + LunchPart(p, ids) + [afternoon]
  }

  /**
   * The lifestyle part of the day. An office or student profile without
   * its hours contributes nothing; a shift is one block.
   */
  function LifestylePlan(p: UserProfile, bps: seq<BreakPoint>, ids: IdSource): (r: seq<TimeBlock>)
    requires ProfileTimesValid(p) && AllBreaks(bps)
    ensures Wellformed(r, ids) && NoExercise(r)
  {
    var l := p.lifestyle;
    if l.kind == Office || l.kind == OfficeFlex then
      (if l.officeHours.Some? then OfficePlan(l.officeHours.value, l.commuteMinutes, bps, ids) else [])
    else if l.kind == Shift then
      var hours := ShiftHours(l.shiftType);
      One(WorkBlock("shift_work", "근무", hours.0, hours.1, "🏭", ids), ids);
      [WorkBlock("shift_work", "근무", hours.0, hours.1, "🏭", ids)]
    else if l.kind == Student then
      (if l.classHours.Some? then StudentPlan(p, l.classHours.value, bps, ids) else [])
    else if l.kind == Freelancer then FreelancerPlan(p, bps, ids)
    else DefaultPlan(p, ids)
  }

  /** Wake-up, then breakfast exactly when it is enabled with a time. */
  function MorningBlocks(p: UserProfile, ids: IdSource): (r: seq<TimeBlock>)
    requires ProfileTimesValid(p)
    ensures Wellformed(r, ids) && NoExercise(r)
    ensures 1 <= |r| <= 2 && r[0] == WakeBlock(p, ids)
    ensures |r| == 2 <==> p.meals.breakfast.enabled && IsSet(p.meals.breakfast.time)
    ensures |r| == 2 ==> r[1] == BreakfastBlock(p, ids)
  {
    [WakeBlock(p, ids)]
    + (if p.meals.breakfast.enabled && IsSet(p.meals.breakfast.time) then [BreakfastBlock(p, ids)] else [])
  }

  /** The exercise block, exactly on an exercise day with an exercise time. */
  function ExerciseBlocks(p: UserProfile, today: Weekday, ids: IdSource): (r: seq<TimeBlock>)
    requires ProfileTimesValid(p)
    ensures Wellformed(r, ids) && |r| <= 1
    ensures r != [] <==> IsExerciseDay(p, today) && IsSet(p.exercise.time)
    ensures r != [] ==> r[0] == ExerciseBlock(p, ids)
  {
    if IsExerciseDay(p, today) && IsSet(p.exercise.time) then [ExerciseBlock(p, ids)] else []
  }

  /** Dinner, exactly when it is enabled with a time. */
  function DinnerBlocks(p: UserProfile, ids: IdSource): (r: seq<TimeBlock>)
    requires ProfileTimesValid(p)
    ensures Wellformed(r, ids) && NoExercise(r) && |r| <= 1
    ensures r != [] <==> p.meals.dinner.enabled && IsSet(p.meals.dinner.time)
    ensures r != [] ==> r[0] == DinnerBlock(p, ids)
  {
    if p.meals.dinner.enabled && IsSet(p.meals.dinner.time) then [DinnerBlock(p, ids)] else []
  }

  /** Free time until bed, then sleep. */
  function EveningBlocks(p: UserProfile, ids: IdSource): (r: seq<TimeBlock>)
    requires ProfileTimesValid(p)
    ensures Wellformed(r, ids) && NoExercise(r)
    ensures |r| == 2 && r[0] == EveningFreeBlock(p, ids) && r[1] == SleepBlock(p, ids)
  {
    [EveningFreeBlock(p, ids), SleepBlock(p, ids)]
  }

  /** Every block the generator emits for the day, in the order it emits them, before the sort. */
  function DayPlan(p: UserProfile, today: Weekday, ids: IdSource): (r: seq<TimeBlock>)
    requires ProfileTimesValid(p)
  {
    EmitDay(MorningBlocks(p, ids), LifestylePlan(p, BreakPointsOf(p), ids), ExerciseBlocks(p, today, ids),
            DinnerBlocks(p, ids), EveningBlocks(p, ids), ids)
  }

  // ---------------------------------------------------------------------
  // What the parts of the day contain

  /** With no break point inside either half, the office day is exactly five blocks. */
  lemma OfficePlanWithoutBreaks(h: OfficeHours, commuteMinutes: Option<int>, bps: seq<BreakPoint>, ids: IdSource)
    requires ValidTime(h.start) && ValidTime(h.end) && ValidTime(h.lunchTime) && AllBreaks(bps)
    requires forall i :: 0 <= i < |bps| ==>
      && !(TimeToMinutes(h.start) < TimeToMinutes(bps[i].time) < TimeToMinutes(h.lunchTime))
      && !(TimeToMinutes(LunchEnd(h)) < TimeToMinutes(bps[i].time) < TimeToMinutes(h.end))
    ensures OfficePlan(h, commuteMinutes, bps, ids) == [
      CommuteToBlock(h, commuteMinutes, ids),
      WorkBlock("work-" + h.start, "오전 업무", h.start, h.lunchTime, "💼", ids),
      LunchBlock(h.lunchTime, ids),
      WorkBlock("work-" + LunchEnd(h), "오후 업무", LunchEnd(h), h.end, "💼", ids),
      CommuteFromBlock(h, commuteMinutes, ids)]
  {
    SplitWithoutBreaks(h.start, h.lunchTime, bps, "오전 업무", "💼", ids);
    SplitWithoutBreaks(LunchEnd(h), h.end, bps, "오후 업무", "💼", ids);
  }

  lemma WorkOrBreakConcat(a: seq<TimeBlock>, b: seq<TimeBlock>)
    requires WorkOrBreak(a) && WorkOrBreak(b)
    ensures WorkOrBreak(a + b)
  {
    forall k | 0 <= k < |a + b| ensures (a + b)[k] == if k < |a| then a[k] else b[k - |a|] {
    }
  }

  /** Between work and break blocks, the lunch block appears exactly when lunch is enabled. */
  lemma LunchBetween(p: UserProfile, before: seq<TimeBlock>, after: seq<TimeBlock>, ids: IdSource)
    requires MealTimeValid(p.meals.lunch) && WorkOrBreak(before) && WorkOrBreak(after)
    ensures LunchBlock(LunchTimeOrNoon(p), ids) in before + LunchPart(p, ids) + after <==> p.meals.lunch.enabled
  {
    var r := before + LunchPart(p, ids) + after;
    if p.meals.lunch.enabled {
      assert r[|before|] == LunchPart(p, ids)[0];
    } else {
      WorkOrBreakConcat(before, after);
      assert r == before + after;
      NotWorkOrBreak(r, LunchBlock(LunchTimeOrNoon(p), ids));
    }
  }

  /** A block of another type is not among work and break blocks. */
  lemma NotWorkOrBreak(r: seq<TimeBlock>, b: TimeBlock)
    requires WorkOrBreak(r) && b.blockType != Work && b.blockType != Break
    ensures b !in r
  {
  }

  /** A freelancer period contributes blocks exactly when it is chosen. */
  lemma PeriodPartChosen(period: WorkHourPeriod, periods: seq<WorkHourPeriod>, bps: seq<BreakPoint>, ids: IdSource)
    requires AllBreaks(bps)
    ensures PeriodPart(period, periods, bps, ids) != [] <==> period in periods
  {
    SplitNonEmpty("09:00", "12:00", bps, "오전 작업", "💻", ids);
    SplitNonEmpty("13:00", "18:00", bps, "오후 작업", "💻", ids);
  }

  /** A freelancer who chose no periods works the morning and the afternoon, with lunch between. */
  lemma FreelancerDefaultPeriods(p: UserProfile, bps: seq<BreakPoint>, ids: IdSource)
    requires MealTimeValid(p.meals.lunch) && AllBreaks(bps) && p.lifestyle.preferredWorkHours.None?
    ensures FreelancerPlan(p, bps, ids) ==
      Split("09:00", "12:00", bps, "오전 작업", "💻", ids) + LunchPart(p, ids)
      + Split("13:00", "18:00", bps, "오후 작업", "💻", ids)
  {
    var periods := WorkPeriods(p);
    assert Evening !in periods && Night !in periods;
    assert Morning in periods && Afternoon in periods;
  }

  /**
   * Classes starting at 13:00, with no break configured, give two blocks
   * with the id `work-13:00`: the morning split of 13:00-12:00 and the
   * afternoon split from 13:00 both fall back to `work-<start>`.
   */
  lemma StudentDayRepeatsId(p: UserProfile, c: ClassHours, ids: IdSource)
    requires ValidTime(c.end) && MealTimeValid(p.meals.lunch) && c.start == "13:00"
    ensures var r := StudentPlan(p, c, [], ids);
      && |r| >= 3
      && r[0] == WorkBlock("work-13:00", "오전 수업", "13:00", "12:00", "📚", ids)
      && r[|r| - 2] == WorkBlock("work-13:00", "오후 수업", "13:00", c.end, "📚", ids)
  {
    SplitWithoutBreaks(c.start, "12:00", [], "오전 수업", "📚", ids);
    SplitWithoutBreaks("13:00", c.end, [], "오후 수업", "📚", ids);
    var r := StudentPlan(p, c, [], ids);
    assert "work-" + c.start == "work-13:00";
    assert r == [WorkBlock("work-13:00", "오전 수업", "13:00", "12:00", "📚", ids)] + LunchPart(p, ids)
      + [WorkBlock("work-13:00", "오후 수업", "13:00", c.end, "📚", ids)] + [SelfStudyBlock(c, ids)];
  }

  // ---------------------------------------------------------------------
  // Emitting the day

  /** Office hours: commute, the morning split, lunch, the afternoon split, commute home. */
  method OfficeDay(h: OfficeHours, commuteMinutes: Option<int>, bps: seq<BreakPoint>, ids: IdSource)
    returns (blocks: seq<TimeBlock>)
    requires ValidTime(h.start) && ValidTime(h.end) && ValidTime(h.lunchTime) && AllBreaks(bps)
    ensures blocks == OfficePlan(h, commuteMinutes, bps, ids)
    ensures blocks == [CommuteToBlock(h, commuteMinutes, ids)] + Split(h.start, h.lunchTime, bps, "오전 업무", "💼", ids)
      + [LunchBlock(h.lunchTime, ids)] + Split(LunchEnd(h), h.end, bps, "오후 업무", "💼", ids)
      + [CommuteFromBlock(h, commuteMinutes, ids)]
    ensures Wellformed(blocks, ids) && NoExercise(blocks)
    ensures |blocks| > 0 && blocks[0] == CommuteToBlock(h, commuteMinutes, ids)
  {
    var commuteTo := CommuteToBlock(h, commuteMinutes, ids);
    var lunchEnd := LunchEnd(h);
    var morning := SplitWithBreaks(h.start, h.lunchTime, bps, "오전 업무", "💼", ids);
    var lunch := LunchBlock(h.lunchTime, ids);
    var afternoon := SplitWithBreaks(lunchEnd, h.end, bps, "오후 업무", "💼", ids);
    var commuteFrom := CommuteFromBlock(h, commuteMinutes, ids);
    blocks := [commuteTo] + morning + [lunch] + afternoon + [commuteFrom];
    assert blocks == OfficePlan(h, commuteMinutes, bps, ids);
  }

  /** Classes: the morning split to noon, lunch when enabled, the afternoon split from 13:00, self-study. */
  method StudentDay(p: UserProfile, c: ClassHours, bps: seq<BreakPoint>, ids: IdSource)
    returns (blocks: seq<TimeBlock>)
    requires ValidTime(c.start) && ValidTime(c.end) && MealTimeValid(p.meals.lunch) && AllBreaks(bps)
    ensures blocks == StudentPlan(p, c, bps, ids)
    ensures blocks == Split(c.start, "12:00", bps, "오전 수업", "📚", ids) + LunchPart(p, ids)
      + Split("13:00", c.end, bps, "오후 수업", "📚", ids) + [SelfStudyBlock(c, ids)]
    ensures Wellformed(blocks, ids) && NoExercise(blocks)
  {
    var morning := SplitWithBreaks(c.start, "12:00", bps, "오전 수업", "📚", ids);
    blocks := morning;
    if p.meals.lunch.enabled {
      blocks := blocks + [LunchBlock(LunchTimeOrNoon(p), ids)];
    }
    assert blocks == morning + LunchPart(p, ids);
    var afternoon := SplitWithBreaks("13:00", c.end, bps, "오후 수업", "📚", ids);
    blocks := blocks + afternoon;
    blocks := blocks + [SelfStudyBlock(c, ids)];
    assert blocks == StudentPlan(p, c, bps, ids);
  }

  /** The freelancer's blocks for one working period, when that period is chosen. */
  method PeriodBlocks(period: WorkHourPeriod, periods: seq<WorkHourPeriod>, bps: seq<BreakPoint>,
                      ids: IdSource) returns (r: seq<TimeBlock>)
    requires AllBreaks(bps)
    ensures r == PeriodPart(period, periods, bps, ids)
    ensures Wellformed(r, ids) && NoExercise(r)
    ensures period !in periods ==> r == []
    ensures period in periods && period == Morning ==> r == Split("09:00", "12:00", bps, "오전 작업", "💻", ids)
    ensures period in periods && period == Afternoon ==> r == Split("13:00", "18:00", bps, "오후 작업", "💻", ids)
    ensures period in periods && period == Evening ==>
      r == [WorkBlock("work_evening", "저녁 작업", "19:00", "23:00", "🌙", ids)]
    ensures period in periods && period == Night ==>
      r == [WorkBlock("work_night", "심야 작업", "23:00", "03:00", "🦉", ids)]
  {
    r := [];
    if period in periods {
      match period
      case Morning =>
        r := SplitWithBreaks("09:00", "12:00", bps, "오전 작업", "💻", ids);
      case Afternoon =>
        r := SplitWithBreaks("13:00", "18:00", bps, "오후 작업", "💻", ids);
      case Evening =>
        r := [WorkBlock("work_evening", "저녁 작업", "19:00", "23:00", "🌙", ids)];
      case Night =>
        r := [WorkBlock("work_night", "심야 작업", "23:00", "03:00", "🦉", ids)];
    }
  }

  /**
   * Freelancer: the chosen periods (morning and afternoon when none are
   * given; an empty choice is kept, since `[] || d` is `[]`), with lunch
   * between morning and afternoon when enabled.
   */
  method FreelancerDay(p: UserProfile, bps: seq<BreakPoint>, ids: IdSource)
    returns (blocks: seq<TimeBlock>)
    requires MealTimeValid(p.meals.lunch) && AllBreaks(bps)
    ensures blocks == FreelancerPlan(p, bps, ids)
    ensures Wellformed(blocks, ids) && NoExercise(blocks)
  {
    var periods := if p.lifestyle.preferredWorkHours.Some? then p.lifestyle.preferredWorkHours.value else [Morning, Afternoon];
    var morning := PeriodBlocks(Morning, periods, bps, ids);
    blocks := morning;
    if p.meals.lunch.enabled {
      blocks := blocks + [LunchBlock(LunchTimeOrNoon(p), ids)];
    }
    assert blocks == morning + LunchPart(p, ids);
    var afternoon := PeriodBlocks(Afternoon, periods, bps, ids);
    blocks := blocks + afternoon;
    var evening := PeriodBlocks(Evening, periods, bps, ids);
    blocks := blocks + evening;
    var night := PeriodBlocks(Night, periods, bps, ids);
    blocks := blocks + night;
    assert periods == WorkPeriods(p);
    assert blocks == FreelancerPlan(p, bps, ids);
  }

  /** Any other lifestyle: a morning and an afternoon activity, with lunch between when enabled. */
  method DefaultDay(p: UserProfile, ids: IdSource) returns (blocks: seq<TimeBlock>)
    requires MealTimeValid(p.meals.lunch)
    ensures blocks == DefaultPlan(p, ids)
    ensures blocks == [WorkBlock("morning_activity", "오전 활동", "09:00", "12:00", "☀️", ids)] + LunchPart(p, ids)
      + [WorkBlock("afternoon_activity", "오후 활동", "13:00", "18:00", "🌤️", ids)]
    ensures Wellformed(blocks, ids) && NoExercise(blocks)
  {
    blocks := [WorkBlock("morning_activity", "오전 활동", "09:00", "12:00", "☀️", ids)];
    if p.meals.lunch.enabled {
      blocks := blocks + [LunchBlock(LunchTimeOrNoon(p), ids)];
    }
    blocks := blocks + [WorkBlock("afternoon_activity", "오후 활동", "13:00", "18:00", "🌤️", ids)];
  }

  /**
   * The lifestyle-specific part of the day: office hours with commutes and
   * a lunch break, a shift, classes with self-study, the freelancer's chosen
   * periods, or the default morning and afternoon activities. An office or
   * student profile without its hours contributes nothing.
   */
  method LifestyleBlocks(p: UserProfile, bps: seq<BreakPoint>, ids: IdSource)
    returns (blocks: seq<TimeBlock>)
    requires ProfileTimesValid(p) && AllBreaks(bps)
    ensures blocks == LifestylePlan(p, bps, ids)
    ensures Wellformed(blocks, ids) && NoExercise(blocks)
    ensures (p.lifestyle.kind == Office || p.lifestyle.kind == OfficeFlex) && p.lifestyle.officeHours.Some? ==>
      CommuteToBlock(p.lifestyle.officeHours.value, p.lifestyle.commuteMinutes, ids) in blocks
  {
    var lifestyle := p.lifestyle;
    blocks := [];
    if lifestyle.kind == Office || lifestyle.kind == OfficeFlex {
      if lifestyle.officeHours.Some? {
        blocks := OfficeDay(lifestyle.officeHours.value, lifestyle.commuteMinutes, bps, ids);
      }
    } else if lifestyle.kind == Shift {
      var hours := ShiftHours(lifestyle.shiftType);
      blocks := [WorkBlock("shift_work", "근무", hours.0, hours.1, "🏭", ids)];
    } else if lifestyle.kind == Student {
      if lifestyle.classHours.Some? {
        blocks := StudentDay(p, lifestyle.classHours.value, bps, ids);
      }
    } else if lifestyle.kind == Freelancer {
      blocks := FreelancerDay(p, bps, ids);
    } else {
      blocks := DefaultDay(p, ids);
    }
  }

  predicate HasExerciseBlock(bs: seq<TimeBlock>) {
    exists i :: 0 <= i < |bs| && bs[i].blockType == Exercise
  }

  /**
   * `generateTimeBlocks` for a profile on the given weekday: the wake and
   * sleep blocks and the free evening always, meals when enabled with a
   * time, the lifestyle's blocks, and an exercise block exactly on exercise
   * days with a time set; the whole list sorted by start minute.
   */
  method GenerateTimeBlocks(p: UserProfile, today: Weekday, ids: IdSource)
    returns (blocks: seq<TimeBlock>)
    requires ProfileTimesValid(p)
    ensures multiset(blocks) == multiset(DayPlan(p, today, ids))
    ensures blocks == SortBy(DayPlan(p, today, ids), StartKey)
    ensures Wellformed(blocks, ids)
    ensures SortedByStart(blocks)
    ensures WakeBlock(p, ids) in blocks
    ensures SleepBlock(p, ids) in blocks
    ensures EveningFreeBlock(p, ids) in blocks
    ensures p.meals.breakfast.enabled && IsSet(p.meals.breakfast.time) ==> BreakfastBlock(p, ids) in blocks
    ensures p.meals.dinner.enabled && IsSet(p.meals.dinner.time) ==> DinnerBlock(p, ids) in blocks
    ensures HasExerciseBlock(blocks) <==> IsExerciseDay(p, today) && IsSet(p.exercise.time)
    ensures IsExerciseDay(p, today) && IsSet(p.exercise.time) ==> ExerciseBlock(p, ids) in blocks
    ensures (p.lifestyle.kind == Office || p.lifestyle.kind == OfficeFlex) && p.lifestyle.officeHours.Some? ==>
      CommuteToBlock(p.lifestyle.officeHours.value, p.lifestyle.commuteMinutes, ids) in blocks
  {
    var bps := BreakPointsOf(p);
    var morning := MorningPart(p, ids);
    var lifestyleBlocks := LifestyleBlocks(p, bps, ids);
    var exercise := ExercisePart(p, today, ids);
    var dinner := DinnerPart(p, ids);
    var evening := EveningPart(p, ids);
    var emitted := EmitDay(morning, lifestyleBlocks, exercise, dinner, evening, ids);
    blocks := SortByStart(emitted, ids);
    DayPlanHolds(p, today, ids);
  }

  /**
   * The day always holds the wake, free-evening and sleep blocks, breakfast
   * and dinner when enabled with a time, the commute on an office day with
   * hours, and an exercise block exactly on an exercise day with a time.
   */
  lemma DayPlanHolds(p: UserProfile, today: Weekday, ids: IdSource)
    requires ProfileTimesValid(p)
    ensures var d := DayPlan(p, today, ids);
      && WakeBlock(p, ids) in d && SleepBlock(p, ids) in d && EveningFreeBlock(p, ids) in d
      && (p.meals.breakfast.enabled && IsSet(p.meals.breakfast.time) ==> BreakfastBlock(p, ids) in d)
      && (p.meals.dinner.enabled && IsSet(p.meals.dinner.time) ==> DinnerBlock(p, ids) in d)
      && (HasExerciseBlock(d) <==> IsExerciseDay(p, today) && IsSet(p.exercise.time))
      && (IsExerciseDay(p, today) && IsSet(p.exercise.time) ==> ExerciseBlock(p, ids) in d)
      && ((p.lifestyle.kind == Office || p.lifestyle.kind == OfficeFlex) && p.lifestyle.officeHours.Some? ==>
            CommuteToBlock(p.lifestyle.officeHours.value, p.lifestyle.commuteMinutes, ids) in d)
  {
    LifestyleCommute(p, BreakPointsOf(p), ids);
    PartsHold(p, today, ids, MorningBlocks(p, ids), ExerciseBlocks(p, today, ids), DinnerBlocks(p, ids),
              EveningBlocks(p, ids));
  }

  /** The fixed parts of the day hold their blocks. */
  lemma PartsHold(p: UserProfile, today: Weekday, ids: IdSource, morning: seq<TimeBlock>, exercise: seq<TimeBlock>,
                  dinner: seq<TimeBlock>, evening: seq<TimeBlock>)
    requires ProfileTimesValid(p)
    requires morning == MorningBlocks(p, ids) && exercise == ExerciseBlocks(p, today, ids)
    requires dinner == DinnerBlocks(p, ids) && evening == EveningBlocks(p, ids)
    ensures WakeBlock(p, ids) in morning && EveningFreeBlock(p, ids) in evening && SleepBlock(p, ids) in evening
    ensures p.meals.breakfast.enabled && IsSet(p.meals.breakfast.time) ==> BreakfastBlock(p, ids) in morning
    ensures p.meals.dinner.enabled && IsSet(p.meals.dinner.time) ==> DinnerBlock(p, ids) in dinner
    ensures HasExerciseBlock(exercise) <==> IsExerciseDay(p, today) && IsSet(p.exercise.time)
    ensures IsExerciseDay(p, today) && IsSet(p.exercise.time) ==> ExerciseBlock(p, ids) in exercise
  {
    assert morning[0] in morning && evening[0] in evening && evening[1] in evening;
    assert |morning| == 2 ==> morning[1] in morning;
    assert exercise != [] ==> exercise[0] in exercise && exercise[0].blockType == Exercise;
    assert dinner != [] ==> dinner[0] in dinner;
  }

  /** An office day with hours holds the commute to work. */
  lemma LifestyleCommute(p: UserProfile, bps: seq<BreakPoint>, ids: IdSource)
    requires ProfileTimesValid(p) && AllBreaks(bps)
    ensures (p.lifestyle.kind == Office || p.lifestyle.kind == OfficeFlex) && p.lifestyle.officeHours.Some? ==>
      CommuteToBlock(p.lifestyle.officeHours.value, p.lifestyle.commuteMinutes, ids) in LifestylePlan(p, bps, ids)
  {
    var l := p.lifestyle;
    if (l.kind == Office || l.kind == OfficeFlex) && l.officeHours.Some? {
      var r := OfficePlan(l.officeHours.value, l.commuteMinutes, bps, ids);
      assert r[0] == CommuteToBlock(l.officeHours.value, l.commuteMinutes, ids);
      assert r[0] in r;
    }
  }

  /** Wake-up, then breakfast when enabled with a time. */
  method MorningPart(p: UserProfile, ids: IdSource) returns (r: seq<TimeBlock>)
    requires ProfileTimesValid(p)
    ensures r == MorningBlocks(p, ids)
  {
    r := [WakeBlock(p, ids)];
    if p.meals.breakfast.enabled && IsSet(p.meals.breakfast.time) {
      r := r + [BreakfastBlock(p, ids)];
    }
  }

  /** The exercise block, exactly on an exercise day with an exercise time. */
  method ExercisePart(p: UserProfile, today: Weekday, ids: IdSource) returns (r: seq<TimeBlock>)
    requires ProfileTimesValid(p)
    ensures r == ExerciseBlocks(p, today, ids)
  {
    r := [];
    if IsExerciseDay(p, today) && IsSet(p.exercise.time) {
      r := [ExerciseBlock(p, ids)];
    }
  }

  /** Dinner, when enabled with a time. */
  method DinnerPart(p: UserProfile, ids: IdSource) returns (r: seq<TimeBlock>)
    requires ProfileTimesValid(p)
    ensures r == DinnerBlocks(p, ids)
  {
    r := [];
    if p.meals.dinner.enabled && IsSet(p.meals.dinner.time) {
      r := [DinnerBlock(p, ids)];
    }
  }

  /** Free time until bed, then sleep. */
  method EveningPart(p: UserProfile, ids: IdSource) returns (r: seq<TimeBlock>)
    requires ProfileTimesValid(p)
    ensures r == EveningBlocks(p, ids)
  {
    r := [EveningFreeBlock(p, ids), SleepBlock(p, ids)];
  }

  /** The final `sort` by start minute: the same blocks, in order of start. */
  method SortByStart(emitted: seq<TimeBlock>, ids: IdSource) returns (blocks: seq<TimeBlock>)
    requires Wellformed(emitted, ids)
    ensures blocks == SortBy(emitted, StartKey)
    ensures Wellformed(blocks, ids) && SortedByStart(blocks)
    ensures forall b :: b in blocks <==> b in emitted
    ensures HasExerciseBlock(blocks) <==> HasExerciseBlock(emitted)
  {
    blocks := SortBy(emitted, StartKey);
    SameElements(emitted, blocks);
    forall i | 0 <= i < |blocks| ensures TimesValid(blocks[i]) && Shaped(blocks[i], ids) {
      assert blocks[i] in emitted;
    }
    StartKeySorted(blocks);
    ExerciseKept(emitted, blocks);
  }

  lemma WellformedConcat5(morning: seq<TimeBlock>, lifestyle: seq<TimeBlock>, exercise: seq<TimeBlock>,
                          dinner: seq<TimeBlock>, evening: seq<TimeBlock>, ids: IdSource)
    requires Wellformed(morning, ids) && Wellformed(lifestyle, ids) && Wellformed(exercise, ids)
    requires Wellformed(dinner, ids) && Wellformed(evening, ids)
    ensures Wellformed(morning + lifestyle + exercise + dinner + evening, ids)
  {
    WellformedConcat(morning, lifestyle, ids);
    WellformedConcat(morning + lifestyle, exercise, ids);
    WellformedConcat(morning + lifestyle + exercise, dinner, ids);
    WellformedConcat(morning + lifestyle + exercise + dinner, evening, ids);
  }

  /** Only the exercise part of the emitted day may hold an exercise block. */
  lemma ExerciseOnlyFromPart(morning: seq<TimeBlock>, lifestyle: seq<TimeBlock>, exercise: seq<TimeBlock>,
                             dinner: seq<TimeBlock>, evening: seq<TimeBlock>)
    requires NoExercise(morning) && NoExercise(lifestyle) && NoExercise(dinner) && NoExercise(evening)
    ensures HasExerciseBlock(morning + lifestyle + exercise + dinner + evening) <==> HasExerciseBlock(exercise)
  {
    var a := morning + lifestyle;
    var z := dinner + evening;
    NoExerciseConcat(morning, lifestyle);
    NoExerciseConcat(dinner, evening);
    NoExerciseConcat(exercise, z);
    NoExerciseConcat(a, exercise + z);
    assert morning + lifestyle + exercise + dinner + evening == a + (exercise + z);
  }

  function EmitDay(morning: seq<TimeBlock>, lifestyle: seq<TimeBlock>, exercise: seq<TimeBlock>,
                   dinner: seq<TimeBlock>, evening: seq<TimeBlock>, ids: IdSource): (r: seq<TimeBlock>)
    requires Wellformed(morning, ids) && Wellformed(lifestyle, ids) && Wellformed(exercise, ids)
    requires Wellformed(dinner, ids) && Wellformed(evening, ids)
    requires NoExercise(morning) && NoExercise(lifestyle) && NoExercise(dinner) && NoExercise(evening)
    ensures Wellformed(r, ids)
    ensures HasExerciseBlock(r) <==> HasExerciseBlock(exercise)
    ensures forall b :: b in r <==> b in morning || b in lifestyle || b in exercise || b in dinner || b in evening
  {
    WellformedConcat5(morning, lifestyle, exercise, dinner, evening, ids);
    ExerciseOnlyFromPart(morning, lifestyle, exercise, dinner, evening);
    morning + lifestyle + exercise + dinner + evening
  }

  lemma ExerciseKept(emitted: seq<TimeBlock>, blocks: seq<TimeBlock>)
    requires forall b :: b in blocks <==> b in emitted
    ensures HasExerciseBlock(blocks) <==> HasExerciseBlock(emitted)
  {
    if HasExerciseBlock(emitted) {
      var i :| 0 <= i < |emitted| && emitted[i].blockType == Exercise;
      assert emitted[i] in blocks;
    }
    if HasExerciseBlock(blocks) {
      var i :| 0 <= i < |blocks| && blocks[i].blockType == Exercise;
      assert blocks[i] in emitted;
    }
  }

  // ---------------------------------------------------------------------
  // Facts about the generated blocks

  /** The wake block is a fixed 30-minute sleep-type block at the wake time. */
  lemma WakeBlockFacts(p: UserProfile, ids: IdSource)
    requires ValidTime(p.sleep.wakeTime)
    ensures var b := WakeBlock(p, ids);
      && b.isFixed && b.blockType == Sleep && b.startTime == p.sleep.wakeTime && TimesValid(b)
      && BlockDuration(b.startTime, b.endTime) == 30
  {
    DurationAfter(p.sleep.wakeTime, 30);
  }

  /** The sleep block is a fixed 30-minute block at bed time. */
  lemma SleepBlockFacts(p: UserProfile, ids: IdSource)
    requires ValidTime(p.sleep.bedTime)
    ensures var b := SleepBlock(p, ids);
      && b.isFixed && b.blockType == Sleep && b.startTime == p.sleep.bedTime && TimesValid(b)
      && BlockDuration(b.startTime, b.endTime) == 30
  {
    DurationAfter(p.sleep.bedTime, 30);
  }

  /**
   * The free evening ends at bed time and starts an hour after the dinner
   * time whenever one is set, whether or not dinner itself is enabled.
   */
  lemma EveningFreeFacts(p: UserProfile, ids: IdSource)
    requires ValidTime(p.sleep.bedTime) && MealTimeValid(p.meals.dinner)
    ensures var b := EveningFreeBlock(p, ids);
      && !b.isFixed && b.blockType == Free && b.endTime == p.sleep.bedTime
      && (IsSet(p.meals.dinner.time) ==>
            TimeToMinutes(b.startTime) == (TimeToMinutes(p.meals.dinner.time.value) + 60) % 1440)
      && (!IsSet(p.meals.dinner.time) ==> b.startTime == "20:00")
  {
  }

  /** The exercise block starts at the exercise time and lasts the configured duration (60 by default). */
  lemma ExerciseBlockFacts(p: UserProfile, ids: IdSource)
    requires IsSet(p.exercise.time) && ValidTime(p.exercise.time.value)
    requires 1 <= OrDefault(p.exercise.duration, 60) <= 1440
    ensures var b := ExerciseBlock(p, ids);
      && !b.isFixed && b.blockType == Exercise && b.startTime == p.exercise.time.value && TimesValid(b)
      && BlockDuration(b.startTime, b.endTime) == OrDefault(p.exercise.duration, 60)
      && b.todos == [EmptyTodo(TodoId(ids, "exercise"))]
  {
    DurationAfter(p.exercise.time.value, OrDefault(p.exercise.duration, 60));
  }

  /** The commute to work ends when office hours start and lasts the commute (30 by default). */
  lemma CommuteToFacts(h: OfficeHours, commuteMinutes: Option<int>, ids: IdSource)
    requires ValidTime(h.start)
    requires 1 <= OrDefault(commuteMinutes, 30) <= 1440
    ensures var b := CommuteToBlock(h, commuteMinutes, ids);
      && b.isFixed && b.blockType == Commute && b.endTime == h.start && TimesValid(b)
      && BlockDuration(b.startTime, b.endTime) == OrDefault(commuteMinutes, 30)
  {
    DurationBefore(h.start, OrDefault(commuteMinutes, 30));
  }

  // ---------------------------------------------------------------------
  // Capacity of a block

  /** `getBlockAvailableMinutes`. */
  function AvailableMinutes(b: TimeBlock): (m: int)
    requires TimesValid(b)
    ensures 1 <= m <= 1440
  {
    BlockDuration(b.startTime, b.endTime)
  }

  /** `getTotalTodoDuration`: the sum of the durations, a missing (or zero) one counting 0. */
  function TotalTodoDuration(todos: seq<TodoItem>): int {
    if todos == [] then 0
    else TotalTodoDuration(todos[..|todos| - 1]) + OrDefault(todos[|todos| - 1].duration, 0)
  }

  lemma {:induction false} TotalTodoDurationAppend(todos: seq<TodoItem>, extra: seq<TodoItem>)
    ensures TotalTodoDuration(todos + extra) == TotalTodoDuration(todos) + TotalTodoDuration(extra)
  {
    if extra != [] {
      var all := todos + extra;
      assert all[..|all| - 1] == todos + extra[..|extra| - 1];
      assert all[|all| - 1] == extra[|extra| - 1];
      TotalTodoDurationAppend(todos, extra[..|extra| - 1]);
    } else {
      assert todos + extra == todos;
    }
  }

  /** `isTimeOverflow`: the to-dos need more minutes than the block has. */
  function IsTimeOverflow(b: TimeBlock): (over: bool)
    requires TimesValid(b)
    ensures over <==> TotalTodoDuration(b.todos) > BlockDuration(b.startTime, b.endTime)
  {
    TotalTodoDuration(b.todos) > AvailableMinutes(b)
  }

  /** `TIME_OPTIONS` lists the times 30·i minutes after midnight, in order. */
  lemma {:induction false} TimeOptionsAreHalfHours(i: nat)
    requires i < 48
    ensures ValidTime(TimeOptions()[i])
    ensures TimeOptions()[i] == MinutesToTime(i * 30)
    ensures TimeToMinutes(TimeOptions()[i]) == i * 30
  {
    var t := TimeOptions()[i];
    var m := i * 30;
    assert m % 1440 == m;
    assert m / 60 == i / 2;
    assert m % 60 == if i % 2 == 0 then 0 else 30;
    assert t == Pad2(i / 2) + ":" + (if i % 2 == 0 then "00" else "30");
    assert Pad2(0) == "00" && Pad2(30) == "30";
  }

  lemma TimeOptionsAscending(i: nat, j: nat)
    requires i < j < 48
    ensures TimeToMinutes(TimeOptions()[i]) < TimeToMinutes(TimeOptions()[j])
    ensures TimeOptions()[i] != TimeOptions()[j]
  {
    TimeOptionsAreHalfHours(i);
    TimeOptionsAreHalfHours(j);
  }
}
