/**
 * src/lib/planner.ts: the greedy allocation engine. Typed-in to-dos are
 * normalised, ordered by priority and duration (large ones last on a bad
 * day), and placed first-fit into the non-fixed work, free and exercise
 * blocks; `suggestAlternativeForBlock` trims one block's list to its length.
 *
 * Each placement method is proved equal to a specification function
 * (Place, PlaceAll, Greedy), and the promises of the source are lemmas
 * about those functions.
 */
module Planner {
  import opened Strings
  import opened Sorting
  import opened Profile
  import opened Templates

  datatype InputTodo = InputTodo(text: string, duration: Option<int>, priority: Option<Priority>)

  /** `PRIORITY_SCORE`. */
  function Score(p: Priority): (s: int)
    ensures 1 <= s <= 3
    ensures s == 3 <==> p == High
    ensures s == 1 <==> p == Low
  {
    match p
    case High => 3
    case Medium => 2
    case Low => 1
  }

  /** A to-do's priority, `medium` when absent. */
  function PriorityOf(t: TodoItem): Priority {
    if t.priority.Some? then t.priority.value else Medium
  }

  /** A to-do's duration for ordering, 0 when absent (`duration ?? 0`). */
  function SortDuration(t: TodoItem): int {
    if t.duration.Some? then t.duration.value else 0
  }

  /** A to-do's need when placed or picked, 30 when absent (`duration ?? 30`). */
  function Need(t: TodoItem): int {
    if t.duration.Some? then t.duration.value else 30
  }

  /**
   * `normalizeTodo`, with the fresh id supplied: trimmed text, and a
   * duration, a priority and `completed = false` always present.
   */
  function NormalizeTodo(t: InputTodo, id: string): (r: TodoItem)
    ensures r.id == id && r.text == Trim(t.text) && r.completed == Some(false)
    ensures r.duration.Some? && r.priority.Some?
    ensures t.duration.Some? ==> r.duration == t.duration
    ensures t.duration.None? ==> r.duration == Some(30)
    ensures t.priority.Some? ==> r.priority == t.priority
    ensures t.priority.None? ==> r.priority == Some(Medium)
  {
    TodoItem(id, Trim(t.text), Some(if t.duration.Some? then t.duration.value else 30),
             Some(if t.priority.Some? then t.priority.value else Medium), Some(false))
  }

  /** `inputTodos.map(normalizeTodo)`: the i-th input gets the id `TodoIdAt(ids, i)`. */
  function NormalizeAll(inputs: seq<InputTodo>, ids: IdSource): (r: seq<TodoItem>)
    ensures |r| == |inputs|
    ensures forall i :: 0 <= i < |r| ==> r[i] == NormalizeTodo(inputs[i], TodoIdAt(ids, i))
  {
    seq(|inputs|, i requires 0 <= i < |inputs| => NormalizeTodo(inputs[i], TodoIdAt(ids, i)))
  }

  predicate Normalized(todos: seq<TodoItem>) {
    forall i :: 0 <= i < |todos| ==> todos[i].duration.Some? && todos[i].priority.Some?
  }

  // ---------------------------------------------------------------------
  // Ordering

  /** The comparator of `sortTodos` as a key: higher score first, then longer first. */
  function TodoKey(t: TodoItem): Key {
    Key(-Score(PriorityOf(t)), -SortDuration(t))
  }

  /** `sortTodos`: a stable sort by non-increasing score, then non-increasing duration. */
  function SortTodos(todos: seq<TodoItem>): (r: seq<TodoItem>)
    ensures multiset(r) == multiset(todos)
    ensures forall i, j :: 0 <= i < j < |r| ==>
      || Score(PriorityOf(r[i])) > Score(PriorityOf(r[j]))
      || (Score(PriorityOf(r[i])) == Score(PriorityOf(r[j])) && SortDuration(r[i]) >= SortDuration(r[j]))
  {
    var r := SortBy(todos, TodoKey);
    assert forall i, j :: 0 <= i < j < |r| ==> KeyLe(TodoKey(r[i]), TodoKey(r[j]));
    r
  }

  predicate IsLong(t: TodoItem) {
    SortDuration(t) >= 60
  }

  /** The comparator of the bad-day re-sort: items under 60 minutes before the rest. */
  function LongKey(t: TodoItem): Key {
    Key(if IsLong(t) then 1 else 0, 0)
  }

  /** The items under 60 minutes, in order. */
  function ShortOnes(s: seq<TodoItem>): (r: seq<TodoItem>)
    ensures forall x :: x in r <==> x in s && !IsLong(x)
  {
    if s == [] then []
    else (if IsLong(s[0]) then [] else [s[0]]) + ShortOnes(s[1..])
  }

  /** The items of 60 minutes or more, in order. */
  function LongOnes(s: seq<TodoItem>): (r: seq<TodoItem>)
    ensures forall x :: x in r <==> x in s && IsLong(x)
  {
    if s == [] then []
    else (if IsLong(s[0]) then [s[0]] else []) + LongOnes(s[1..])
  }

  /** The order in which autoAssign places to-dos: on a bad day, the long ones go last. */
  function Adjusted(todos: seq<TodoItem>, condition: Condition): (r: seq<TodoItem>)
    ensures multiset(r) == multiset(todos)
  {
    if condition == Bad then SortBy(todos, LongKey) else todos
  }

  lemma {:induction false} WithKeyLong(s: seq<TodoItem>, k: Key)
    ensures WithKey(s, LongKey, k) ==
      if k == Key(0, 0) then ShortOnes(s) else if k == Key(1, 0) then LongOnes(s) else []
  {
    if s != [] {
      WithKeyLong(s[1..], k);
    }
  }

  lemma {:induction false} WithKeyAppend<T>(a: seq<T>, b: seq<T>, key: T -> Key, k: Key)
    ensures WithKey(a + b, key, k) == WithKey(a, key, k) + WithKey(b, key, k)
  {
    if a != [] {
      assert (a + b)[1..] == a[1..] + b;
      WithKeyAppend(a[1..], b, key, k);
    } else {
      assert a + b == b;
    }
  }

  /**
   * The bad-day re-sort is a stable partition: exactly the short items in
   * their order, then the long items in their order.
   */
  lemma {:induction false} BadDayPartition(todos: seq<TodoItem>)
    ensures Adjusted(todos, Bad) == ShortOnes(todos) + LongOnes(todos)
  {
    var r := ShortOnes(todos) + LongOnes(todos);
    forall i | 0 <= i < |ShortOnes(todos)| ensures !IsLong(ShortOnes(todos)[i]) {
      assert ShortOnes(todos)[i] in ShortOnes(todos);
    }
    forall i | 0 <= i < |LongOnes(todos)| ensures IsLong(LongOnes(todos)[i]) {
      assert LongOnes(todos)[i] in LongOnes(todos);
    }
    var short, long := ShortOnes(todos), LongOnes(todos);
    forall i, j | 0 <= i < j < |r| ensures KeyLe(LongKey(r[i]), LongKey(r[j])) {
      if i < |short| {
        assert r[i] == short[i];
      } else {
        assert r[i] == long[i - |short|] && r[j] == long[j - |short|];
      }
    }
    forall k ensures WithKey(r, LongKey, k) == WithKey(todos, LongKey, k) {
      WithKeyAppend(ShortOnes(todos), LongOnes(todos), LongKey, k);
      WithKeyLong(todos, k);
      WithKeyLong(ShortOnes(todos), k);
      WithKeyLong(LongOnes(todos), k);
      AllShort(ShortOnes(todos));
      AllLong(LongOnes(todos));
    }
    SortByUnique(todos, r, LongKey);
  }

  lemma {:induction false} AllShort(s: seq<TodoItem>)
    requires forall i :: 0 <= i < |s| ==> !IsLong(s[i])
    ensures ShortOnes(s) == s && LongOnes(s) == []
  {
    if s != [] {
      AllShort(s[1..]);
      assert s == [s[0]] + s[1..];
    }
  }

  lemma {:induction false} AllLong(s: seq<TodoItem>)
    requires forall i :: 0 <= i < |s| ==> IsLong(s[i])
    ensures LongOnes(s) == s && ShortOnes(s) == []
  {
    if s != [] {
      AllLong(s[1..]);
      assert s == [s[0]] + s[1..];
    }
  }

  // ---------------------------------------------------------------------
  // Candidate blocks

  /** `isSchedulableBlock`: non-fixed work, free and exercise blocks. */
  predicate IsSchedulable(b: TimeBlock) {
    !b.isFixed && (b.blockType == Work || b.blockType == Free || b.blockType == Exercise)
  }

  /** The to-dos whose trimmed text is non-empty, in order. */
  function NonEmpty(todos: seq<TodoItem>): (r: seq<TodoItem>)
    ensures |r| <= |todos|
    ensures forall x :: x in r <==> x in todos && Trim(x.text) != ""
  {
    if todos == [] then []
    else (if Trim(todos[0].text) != "" then [todos[0]] else []) + NonEmpty(todos[1..])
  }

  /** A schedulable block with its empty to-dos dropped. */
  function Stripped(b: TimeBlock): TimeBlock {
    b.(todos := NonEmpty(b.todos))
  }

  /** `blocks.filter(isSchedulableBlock).map(strip)`, in order. */
  function SchedulableStripped(blocks: seq<TimeBlock>): (r: seq<TimeBlock>)
    ensures forall x :: x in r <==> exists b :: b in blocks && IsSchedulable(b) && x == Stripped(b)
  {
    if blocks == [] then []
    else
      var rest := SchedulableStripped(blocks[1..]);
      assert forall b :: b in blocks <==> b == blocks[0] || b in blocks[1..];
      (if IsSchedulable(blocks[0]) then [Stripped(blocks[0])] else []) + rest
  }

  /**
   * `targetBlocks` after its sort: the schedulable blocks, without empty
   * to-dos, stably ordered by start minute.
   */
  function Targets(blocks: seq<TimeBlock>): (r: seq<TimeBlock>)
    requires AllTimesValid(blocks)
    ensures AllTimesValid(r) && SortedByStart(r)
    ensures multiset(r) == multiset(SchedulableStripped(blocks))
    ensures forall x :: x in r <==> exists b :: b in blocks && IsSchedulable(b) && x == Stripped(b)
  {
    var s := SchedulableStripped(blocks);
    var r := SortBy(s, StartKey);
    SameElements(s, r);
    forall i | 0 <= i < |r| ensures TimesValid(r[i]) {
      assert r[i] in s;
    }
    StartKeySorted(r);
    r
  }

  // ---------------------------------------------------------------------
  // Placing one to-do

  function Used(b: TimeBlock): int {
    TotalTodoDuration(b.todos)
  }

  /** The test of the placement loop: `used + need <= available`. */
  predicate Fits(b: TimeBlock, t: TodoItem)
    requires TimesValid(b)
  {
    Used(b) + Need(t) <= AvailableMinutes(b)
  }

  /** High and medium to-dos scan the blocks forward, low ones backward. */
  predicate Forward(t: TodoItem) {
    t.priority == Some(High) || t.priority == Some(Medium)
  }

  /** The first block, from index `from` on, that `t` fits in. */
  function FirstFitFrom(ts: seq<TimeBlock>, t: TodoItem, from: nat): (r: Option<nat>)
    requires AllTimesValid(ts)
    ensures r.Some? ==> from <= r.value < |ts| && Fits(ts[r.value], t)
    ensures r.Some? ==> forall k :: from <= k < r.value ==> !Fits(ts[k], t)
    ensures r.None? ==> forall k :: from <= k < |ts| ==> !Fits(ts[k], t)
    decreases |ts| - from
  {
    if from >= |ts| then None
    else if Fits(ts[from], t) then Some(from)
    else FirstFitFrom(ts, t, from + 1)
  }

  /** The last block, below index `below`, that `t` fits in. */
  function LastFitBelow(ts: seq<TimeBlock>, t: TodoItem, below: nat): (r: Option<nat>)
    requires AllTimesValid(ts) && below <= |ts|
    ensures r.Some? ==> r.value < below && Fits(ts[r.value], t)
    ensures r.Some? ==> forall k :: r.value < k < below ==> !Fits(ts[k], t)
    ensures r.None? ==> forall k :: 0 <= k < below ==> !Fits(ts[k], t)
  {
    if below == 0 then None
    else if Fits(ts[below - 1], t) then Some(below - 1)
    else LastFitBelow(ts, t, below - 1)
  }

  /** The block a to-do goes to: the earliest that fits when forward, the latest otherwise. */
  function Chosen(ts: seq<TimeBlock>, t: TodoItem): (r: Option<nat>)
    requires AllTimesValid(ts)
    ensures r.Some? ==> r.value < |ts| && Fits(ts[r.value], t)
    ensures r.Some? && Forward(t) ==> forall k :: 0 <= k < r.value ==> !Fits(ts[k], t)
    ensures r.Some? && !Forward(t) ==> forall k :: r.value < k < |ts| ==> !Fits(ts[k], t)
    ensures r.None? <==> forall k :: 0 <= k < |ts| ==> !Fits(ts[k], t)
  {
    if Forward(t) then FirstFitFrom(ts, t, 0) else LastFitBelow(ts, t, |ts|)
  }

  datatype Placement = Placement(blocks: seq<TimeBlock>, placed: bool)

  function Append(b: TimeBlock, t: TodoItem): TimeBlock {
    b.(todos := b.todos + [t])
  }

  /**
   * The loop's `need` is what placing a to-do adds to the block's used
   * minutes when the to-do has a duration, as every normalised one has;
   * a to-do without one would need 30 minutes yet count 0 once placed.
   */
  lemma UsedGrowsByNeed(b: TimeBlock, t: TodoItem)
    ensures t.duration.Some? ==> Used(Append(b, t)) == Used(b) + Need(t)
    ensures t.duration.None? ==> Used(Append(b, t)) == Used(b) && Need(t) == 30
  {
    var all := b.todos + [t];
    assert all[..|all| - 1] == b.todos;
  }

  /**
   * After normalisation the loop's direction test agrees with the sort's
   * priority: a to-do goes front-first exactly when it is not low, and one
   * given without a priority goes front-first as a medium one.
   */
  lemma ForwardOfNormalized(t: InputTodo, id: string)
    ensures Forward(NormalizeTodo(t, id)) <==> PriorityOf(NormalizeTodo(t, id)) != Low
    ensures t.priority.None? ==> PriorityOf(NormalizeTodo(t, id)) == Medium && Forward(NormalizeTodo(t, id))
  {
    var n := NormalizeTodo(t, id);
    assert n.priority == Some(PriorityOf(n));
  }

  /**
   * A newly generated candidate block offers its whole length: its one
   * empty to-do is dropped when the targets are built.
   */
  lemma FreshCandidateIsEmpty(b: TimeBlock, ids: IdSource)
    requires Shaped(b, ids) && IsSchedulable(b)
    ensures Stripped(b).todos == [] && Used(Stripped(b)) == 0
  {
    var e := EmptyTodo(TodoId(ids, b.id));
    assert b.todos == [e] && e.text == "";
    assert AllWhitespace(e.text);
    assert NonEmpty(b.todos) == NonEmpty([e][1..]);
  }

  /**
   * Of the blocks of a generated day, the free evening and the exercise
   * block are candidates and start empty; the wake, sleep and meal blocks
   * are never candidates.
   */
  lemma GeneratedCandidates(p: UserProfile, ids: IdSource)
    requires ProfileTimesValid(p)
    ensures IsSchedulable(EveningFreeBlock(p, ids)) && Used(Stripped(EveningFreeBlock(p, ids))) == 0
    ensures IsSet(p.exercise.time) ==>
      IsSchedulable(ExerciseBlock(p, ids)) && Used(Stripped(ExerciseBlock(p, ids))) == 0
    ensures !IsSchedulable(WakeBlock(p, ids)) && !IsSchedulable(SleepBlock(p, ids))
    ensures IsSet(p.meals.breakfast.time) ==> !IsSchedulable(BreakfastBlock(p, ids))
    ensures IsSet(p.meals.dinner.time) ==> !IsSchedulable(DinnerBlock(p, ids))
    ensures !IsSchedulable(LunchBlock(LunchTimeOrNoon(p), ids))
  {
    FreshCandidateIsEmpty(EveningFreeBlock(p, ids), ids);
    if IsSet(p.exercise.time) {
      FreshCandidateIsEmpty(ExerciseBlock(p, ids), ids);
    }
  }

  /** The effect of placing one to-do: appended to its chosen block, if any. */
  function Place(ts: seq<TimeBlock>, t: TodoItem): (r: Placement)
    requires AllTimesValid(ts)
    ensures |r.blocks| == |ts| && AllTimesValid(r.blocks)
    ensures r.placed <==> Chosen(ts, t).Some?
  {
    match Chosen(ts, t)
    case None => Placement(ts, false)
    case Some(j) =>
      var r := ts[j := Append(ts[j], t)];
      assert forall k :: 0 <= k < |r| ==> TimesValid(r[k]) by {
        forall k | 0 <= k < |r| ensures TimesValid(r[k]) {
          assert TimesValid(ts[k]);
        }
      }
      Placement(r, true)
  }

  /**
   * The inner loop of `autoAssignTodosToBlocks` for one to-do: scans the
   * blocks forward (high, medium) or backward (low) and appends the to-do
   * to the first block it fits in.
   */
  method PlaceTodo(targets: seq<TimeBlock>, todo: TodoItem) returns (updated: seq<TimeBlock>, placed: bool)
    requires AllTimesValid(targets)
    ensures Placement(updated, placed) == Place(targets, todo)
  {
    updated := targets;
    placed := false;
    var n := |targets|;
    var k := 0;
    while k < n
      invariant 0 <= k <= n
      invariant !placed ==> updated == targets
      invariant !placed && Forward(todo) ==> FirstFitFrom(targets, todo, 0) == FirstFitFrom(targets, todo, k)
      invariant !placed && !Forward(todo) ==> LastFitBelow(targets, todo, n) == LastFitBelow(targets, todo, n - k)
      invariant placed ==> Placement(updated, placed) == Place(targets, todo)
      decreases if placed then 0 else n - k
    {
      if placed { break; }
      var j := if Forward(todo) then k else n - 1 - k;
      var block := updated[j];
      var available := AvailableMinutes(block);
      var used := TotalTodoDuration(block.todos);
      var need := Need(todo);
      if used + need <= available {
        updated := updated[j := Append(block, todo)];
        placed := true;
      }
      k := k + 1;
    }
  }

  /** The bag of all to-dos held by a list of blocks. */
  function TodoBag(ts: seq<TimeBlock>): multiset<TodoItem> {
    if ts == [] then multiset{} else TodoBag(ts[..|ts| - 1]) + multiset(ts[|ts| - 1].todos)
  }

  lemma TodoBagAppendLast(ts: seq<TimeBlock>, t: TodoItem)
    requires ts != []
    ensures TodoBag(ts[|ts| - 1 := Append(ts[|ts| - 1], t)]) == TodoBag(ts) + multiset{t}
  {
    var n := |ts|;
    var u := ts[n - 1 := Append(ts[n - 1], t)];
    assert u[..n - 1] == ts[..n - 1];
  }

  /** Adding a to-do to an earlier part of a bag, on bags alone. */
  lemma BagSwap(whole: multiset<TodoItem>, part: multiset<TodoItem>, base: multiset<TodoItem>,
                whole0: multiset<TodoItem>, last: multiset<TodoItem>, t: TodoItem)
    requires whole == part + last && part == base + multiset{t} && whole0 == base + last
    ensures whole == whole0 + multiset{t}
  {
  }

  lemma {:induction false} TodoBagAppend(ts: seq<TimeBlock>, j: nat, t: TodoItem)
    requires j < |ts|
    ensures TodoBag(ts[j := Append(ts[j], t)]) == TodoBag(ts) + multiset{t}
  {
    var n := |ts|;
    if j == n - 1 {
      TodoBagAppendLast(ts, t);
    } else {
      var u := ts[j := Append(ts[j], t)];
      var p := ts[..n - 1];
      var q := p[j := Append(p[j], t)];
      assert u[..n - 1] == q;
      assert u[n - 1] == ts[n - 1];
      TodoBagAppend(p, j, t);
      BagSwap(TodoBag(u), TodoBag(q), TodoBag(p), TodoBag(ts), multiset(ts[n - 1].todos), t);
    }
  }

  /**
   * One placement conserves to-dos: the to-do is in the chosen block or
   * not placed, and nothing else is added or lost.
   */
  lemma PlaceConserves(ts: seq<TimeBlock>, t: TodoItem)
    requires AllTimesValid(ts)
    ensures var r := Place(ts, t);
      TodoBag(r.blocks) == TodoBag(ts) + (if r.placed then multiset{t} else multiset{})
  {
    var c := Chosen(ts, t);
    if c.Some? {
      TodoBagAppend(ts, c.value, t);
    }
  }

  /** One placement changes nothing but the chosen block's to-do list, which only grows at its end. */
  lemma PlaceKeepsBlocks(ts: seq<TimeBlock>, t: TodoItem)
    requires AllTimesValid(ts)
    ensures var r := Place(ts, t);
      forall k :: 0 <= k < |ts| ==>
        && r.blocks[k] == ts[k].(todos := r.blocks[k].todos)
        && |ts[k].todos| <= |r.blocks[k].todos|
        && r.blocks[k].todos[..|ts[k].todos|] == ts[k].todos
  {
    var r := Place(ts, t);
    forall k | 0 <= k < |ts|
      ensures r.blocks[k] == ts[k].(todos := r.blocks[k].todos)
      ensures |ts[k].todos| <= |r.blocks[k].todos| && r.blocks[k].todos[..|ts[k].todos|] == ts[k].todos
    {
      if r.placed && k == Chosen(ts, t).value {
        assert (ts[k].todos + [t])[..|ts[k].todos|] == ts[k].todos;
      }
    }
  }

  /**
   * Capacity: a to-do with a duration is appended only where it fits, so
   * a block that was within its length stays within it.
   */
  lemma PlaceRespectsCapacity(ts: seq<TimeBlock>, t: TodoItem)
    requires AllTimesValid(ts) && t.duration.Some?
    ensures var r := Place(ts, t);
      forall k :: 0 <= k < |ts| && Used(ts[k]) <= AvailableMinutes(ts[k]) ==>
        Used(r.blocks[k]) <= AvailableMinutes(r.blocks[k])
  {
    var c := Chosen(ts, t);
    if c.Some? {
      var j := c.value;
      TotalTodoDurationAppend(ts[j].todos, [t]);
      assert [t][..0] == [];
    }
  }

  // ---------------------------------------------------------------------
  // Placing all to-dos

  datatype Assignment = Assignment(blocks: seq<TimeBlock>, remaining: seq<TodoItem>)

  /** The outer loop: each to-do in order is placed, or kept in `remaining`. */
  function PlaceAll(ts: seq<TimeBlock>, todos: seq<TodoItem>): (r: Assignment)
    requires AllTimesValid(ts)
    ensures |r.blocks| == |ts| && AllTimesValid(r.blocks)
    ensures |r.remaining| <= |todos|
  {
    if todos == [] then Assignment(ts, [])
    else
      var before := PlaceAll(ts, todos[..|todos| - 1]);
      var t := todos[|todos| - 1];
      var p := Place(before.blocks, t);
      Assignment(p.blocks, if p.placed then before.remaining else before.remaining + [t])
  }

  lemma PlaceAllStepConserves(ts: seq<TimeBlock>, todos: seq<TodoItem>)
    requires AllTimesValid(ts) && todos != []
    ensures var before := PlaceAll(ts, todos[..|todos| - 1]);
      var r := PlaceAll(ts, todos);
      TodoBag(r.blocks) + multiset(r.remaining) ==
        TodoBag(before.blocks) + multiset(before.remaining) + multiset{todos[|todos| - 1]}
  {
    var t := todos[|todos| - 1];
    var before := PlaceAll(ts, todos[..|todos| - 1]);
    var r := PlaceAll(ts, todos);
    PlaceConserves(before.blocks, t);
    if !Place(before.blocks, t).placed {
      assert multiset(r.remaining) == multiset(before.remaining) + multiset{t};
    }
  }

  /** The bookkeeping of one more to-do, on bags alone. */
  lemma BagChain(after: multiset<TodoItem>, held: multiset<TodoItem>, start: multiset<TodoItem>,
                 init: multiset<TodoItem>, all: multiset<TodoItem>, t: TodoItem)
    requires held == start + init && after == held + multiset{t} && all == init + multiset{t}
    ensures after == start + all
  {
  }

  lemma MultisetOfSnoc(todos: seq<TodoItem>)
    requires todos != []
    ensures multiset(todos) == multiset(todos[..|todos| - 1]) + multiset{todos[|todos| - 1]}
  {
    assert todos == todos[..|todos| - 1] + [todos[|todos| - 1]];
  }

  /** Conservation: every to-do ends up in exactly one block or in `remaining`. */
  lemma {:induction false} PlaceAllConserves(ts: seq<TimeBlock>, todos: seq<TodoItem>)
    requires AllTimesValid(ts)
    ensures var r := PlaceAll(ts, todos);
      TodoBag(r.blocks) + multiset(r.remaining) == TodoBag(ts) + multiset(todos)
  {
    if todos != [] {
      var init := todos[..|todos| - 1];
      var before, after := PlaceAll(ts, init), PlaceAll(ts, todos);
      PlaceAllConserves(ts, init);
      PlaceAllStepConserves(ts, todos);
      MultisetOfSnoc(todos);
      BagChain(TodoBag(after.blocks) + multiset(after.remaining), TodoBag(before.blocks) + multiset(before.remaining),
        TodoBag(ts), multiset(init), multiset(todos), todos[|todos| - 1]);
    }
  }

  /** Capacity over the whole loop: blocks within their length stay within it. */
  lemma {:induction false} PlaceAllRespectsCapacity(ts: seq<TimeBlock>, todos: seq<TodoItem>)
    requires AllTimesValid(ts) && Normalized(todos)
    ensures var r := PlaceAll(ts, todos);
      forall k :: 0 <= k < |ts| && Used(ts[k]) <= AvailableMinutes(ts[k]) ==>
        Used(r.blocks[k]) <= AvailableMinutes(r.blocks[k])
  {
    if todos != [] {
      var init := todos[..|todos| - 1];
      PlaceAllRespectsCapacity(ts, init);
      PlaceRespectsCapacity(PlaceAll(ts, init).blocks, todos[|todos| - 1]);
      PlaceAllKeepsBlocks(ts, init);
    }
  }

  /**
   * The loop keeps every block as it was except for its to-do list, whose
   * existing items stay first and in order.
   */
  lemma {:induction false} PlaceAllKeepsBlocks(ts: seq<TimeBlock>, todos: seq<TodoItem>)
    requires AllTimesValid(ts)
    ensures var r := PlaceAll(ts, todos);
      forall k :: 0 <= k < |ts| ==>
        && r.blocks[k] == ts[k].(todos := r.blocks[k].todos)
        && |ts[k].todos| <= |r.blocks[k].todos|
        && r.blocks[k].todos[..|ts[k].todos|] == ts[k].todos
  {
    if todos != [] {
      var init := todos[..|todos| - 1];
      var mid := PlaceAll(ts, init).blocks;
      PlaceAllKeepsBlocks(ts, init);
      PlaceKeepsBlocks(mid, todos[|todos| - 1]);
      var r := PlaceAll(ts, todos);
      forall k | 0 <= k < |ts|
        ensures r.blocks[k] == ts[k].(todos := r.blocks[k].todos)
        ensures |ts[k].todos| <= |r.blocks[k].todos| && r.blocks[k].todos[..|ts[k].todos|] == ts[k].todos
      {
        assert r.blocks[k].todos[..|mid[k].todos|] == mid[k].todos;
        assert mid[k].todos[..|ts[k].todos|] == ts[k].todos;
        assert r.blocks[k].todos[..|ts[k].todos|] == r.blocks[k].todos[..|mid[k].todos|][..|ts[k].todos|];
      }
    }
  }

  // ---------------------------------------------------------------------
  // Writing back and advising

  /** Block `k` is the first one with the given id. */
  predicate FirstWithId(ts: seq<TimeBlock>, k: int, id: string) {
    0 <= k < |ts| && ts[k].id == id && forall m :: 0 <= m < k ==> ts[m].id != id
  }

  /** The first block with the given id. */
  function FindById(ts: seq<TimeBlock>, id: string): (r: Option<nat>)
    ensures r.Some? ==> r.value < |ts| && ts[r.value].id == id && forall k :: 0 <= k < r.value ==> ts[k].id != id
    ensures r.None? ==> forall k :: 0 <= k < |ts| ==> ts[k].id != id
  {
    if ts == [] then None
    else if ts[0].id == id then Some(0)
    else match FindById(ts[1..], id)
      case None => None
      case Some(j) => Some(j + 1)
  }

  /**
   * `updatedBlocks`: each block takes the to-do list of the first target
   * block with its id, and is otherwise kept as it was.
   */
  function MergeById(blocks: seq<TimeBlock>, targets: seq<TimeBlock>): (r: seq<TimeBlock>)
    ensures |r| == |blocks|
    ensures forall i :: 0 <= i < |r| ==> r[i] == blocks[i].(todos := r[i].todos)
    ensures forall i :: 0 <= i < |r| && (forall k :: 0 <= k < |targets| ==> targets[k].id != blocks[i].id) ==>
      r[i] == blocks[i]
    ensures forall i, k :: 0 <= i < |r| && FirstWithId(targets, k, blocks[i].id) ==> r[i].todos == targets[k].todos
  {
    seq(|blocks|, i requires 0 <= i < |blocks| =>
      match FindById(targets, blocks[i].id)
      case None => blocks[i]
      case Some(j) => blocks[i].(todos := targets[j].todos))
  }

  datatype Advice = AllPlaced | Shortfall(count: nat)

  /** The advice: success when nothing remains, else the number left over. */
  function AdviceFor(remaining: seq<TodoItem>): (a: Advice)
    ensures a == AllPlaced <==> remaining == []
    ensures a.Shortfall? ==> a.count == |remaining| && a.count > 0
  {
    if |remaining| == 0 then AllPlaced else Shortfall(|remaining|)
  }

  /** The loop over the ordered to-dos, each placed by PlaceTodo or kept as remaining. */
  method PlaceEach(initial: seq<TimeBlock>, todos: seq<TodoItem>) returns (targets: seq<TimeBlock>, remaining: seq<TodoItem>)
    requires AllTimesValid(initial)
    ensures Assignment(targets, remaining) == PlaceAll(initial, todos)
  {
    targets := initial;
    remaining := [];
    for i := 0 to |todos|
      invariant Assignment(targets, remaining) == PlaceAll(initial, todos[..i])
    {
      assert todos[..i + 1][..i] == todos[..i];
      var placed;
      targets, placed := PlaceTodo(targets, todos[i]);
      if !placed {
        remaining := remaining + [todos[i]];
      }
    }
    assert todos[..|todos|] == todos;
  }

  /**
   * `autoAssignTodosToBlocks`: the loop over the ordered to-dos is the
   * specification PlaceAll over the sorted target blocks, whose result is
   * written back by id.
   */
  method AutoAssign(inputTodos: seq<InputTodo>, blocks: seq<TimeBlock>, condition: Condition, ids: IdSource)
    returns (updatedBlocks: seq<TimeBlock>, remaining: seq<TodoItem>, advice: Advice)
    requires AllTimesValid(blocks)
    ensures var r := PlaceAll(Targets(blocks), Adjusted(SortTodos(NormalizeAll(inputTodos, ids)), condition));
      remaining == r.remaining && updatedBlocks == MergeById(blocks, r.blocks)
    ensures advice == AdviceFor(remaining)
  {
    var todos := SortTodos(NormalizeAll(inputTodos, ids));
    var adjusted := Adjusted(todos, condition);
    var targets := Targets(blocks);
    targets, remaining := PlaceEach(targets, adjusted);
    updatedBlocks := MergeById(blocks, targets);
    advice := AdviceFor(remaining);
  }

  /** Every target block stems from a schedulable input block with the same id. */
  lemma TargetIds(blocks: seq<TimeBlock>, k: nat)
    requires AllTimesValid(blocks) && k < |Targets(blocks)|
    ensures exists i :: 0 <= i < |blocks| && IsSchedulable(blocks[i]) && blocks[i].id == Targets(blocks)[k].id
  {
    var x := Targets(blocks)[k];
    assert x in Targets(blocks);
    var b :| b in blocks && IsSchedulable(b) && x == Stripped(b);
    var i :| 0 <= i < |blocks| && blocks[i] == b;
  }

  /**
   * With distinct block ids, `autoAssignTodosToBlocks` returns every block
   * that is not a candidate exactly as it was given.
   */
  lemma NonCandidatesUntouched(blocks: seq<TimeBlock>, todos: seq<TodoItem>)
    requires AllTimesValid(blocks)
    requires forall i, j :: 0 <= i < j < |blocks| ==> blocks[i].id != blocks[j].id
    ensures var r := MergeById(blocks, PlaceAll(Targets(blocks), todos).blocks);
      forall i :: 0 <= i < |blocks| && !IsSchedulable(blocks[i]) ==> r[i] == blocks[i]
  {
    var ts := Targets(blocks);
    var placed := PlaceAll(ts, todos).blocks;
    PlaceAllKeepsBlocks(ts, todos);
    forall i | 0 <= i < |blocks| && !IsSchedulable(blocks[i])
      ensures forall k :: 0 <= k < |placed| ==> placed[k].id != blocks[i].id
    {
      forall k | 0 <= k < |placed| ensures placed[k].id != blocks[i].id {
        assert placed[k].id == ts[k].id;
        TargetIds(blocks, k);
      }
    }
  }

  /**
   * The input to-dos are all accounted for: together, the candidate blocks
   * and `remaining` hold the candidates' non-empty to-dos and every
   * normalised input, each exactly once.
   */
  lemma AutoAssignConserves(inputTodos: seq<InputTodo>, blocks: seq<TimeBlock>, condition: Condition, ids: IdSource)
    requires AllTimesValid(blocks)
    ensures var todos := NormalizeAll(inputTodos, ids);
      var r := PlaceAll(Targets(blocks), Adjusted(SortTodos(todos), condition));
      TodoBag(r.blocks) + multiset(r.remaining) == TodoBag(Targets(blocks)) + multiset(todos)
  {
    var todos := NormalizeAll(inputTodos, ids);
    PlaceAllConserves(Targets(blocks), Adjusted(SortTodos(todos), condition));
  }

  /** Normalised to-dos all have a duration, so the capacity lemma applies to autoAssign's input. */
  lemma NormalizedInputs(inputTodos: seq<InputTodo>, ids: IdSource, condition: Condition)
    ensures Normalized(Adjusted(SortTodos(NormalizeAll(inputTodos, ids)), condition))
  {
    var n := NormalizeAll(inputTodos, ids);
    var a := Adjusted(SortTodos(n), condition);
    forall i | 0 <= i < |a| ensures a[i].duration.Some? && a[i].priority.Some? {
      assert a[i] in multiset(a);
      assert a[i] in n;
    }
  }

  // ---------------------------------------------------------------------
  // Writing back when block ids repeat

  /**
   * The generator can emit two blocks with the same id (a student whose
   * classes start at 13:00 gets two `work-13:00` blocks). `find` by id then
   * gives both the first target's to-do list, and whatever was placed in
   * the second target is lost. The write-back below follows each target to
   * the input block it was copied from instead; with distinct ids the two
   * agree (MergeByIdIsByOrigin).
   */

  /** The schedulable blocks of a list, in order, to-dos included. */
  function Schedulables(bs: seq<TimeBlock>): (r: seq<TimeBlock>)
    ensures forall x :: x in r <==> x in bs && IsSchedulable(x)
  {
    if bs == [] then []
    else
      assert forall x :: x in bs <==> x == bs[0] || x in bs[1..];
      (if IsSchedulable(bs[0]) then [bs[0]] else []) + Schedulables(bs[1..])
  }

  lemma TodoBagOne(b: TimeBlock)
    ensures TodoBag([b]) == multiset(b.todos)
  {
    assert [b][..0] == [];
  }

  lemma {:induction false} TodoBagConcat(a: seq<TimeBlock>, b: seq<TimeBlock>)
    ensures TodoBag(a + b) == TodoBag(a) + TodoBag(b)
  {
    if b != [] {
      var n := |b|;
      var ab := a + b;
      TodoBagConcat(a, b[..n - 1]);
      assert ab[..|ab| - 1] == a + b[..n - 1];
      assert ab[|ab| - 1] == b[n - 1];
      assert TodoBag(ab) == TodoBag(a + b[..n - 1]) + multiset(b[n - 1].todos);
    } else {
      assert a + b == a;
    }
  }

  /** Appending a to-do to a schedulable block adds exactly it to the schedulable blocks' bag. */
  lemma {:induction false} SchedulablesAppend(bs: seq<TimeBlock>, o: nat, t: TodoItem)
    requires o < |bs| && IsSchedulable(bs[o])
    ensures TodoBag(Schedulables(bs[o := Append(bs[o], t)])) == TodoBag(Schedulables(bs)) + multiset{t}
  {
    var u := bs[o := Append(bs[o], t)];
    if o == 0 {
      assert u[1..] == bs[1..];
      TodoBagConcat([u[0]], Schedulables(bs[1..]));
      TodoBagConcat([bs[0]], Schedulables(bs[1..]));
      TodoBagOne(u[0]);
      TodoBagOne(bs[0]);
    } else {
      var head := if IsSchedulable(bs[0]) then [bs[0]] else [];
      assert u[1..] == bs[1..][o - 1 := Append(bs[o], t)];
      SchedulablesAppend(bs[1..], o - 1, t);
      TodoBagConcat(head, Schedulables(u[1..]));
      TodoBagConcat(head, Schedulables(bs[1..]));
    }
  }

  /** A target block together with the index of the input block it was copied from. */
  datatype Candidate = Candidate(origin: nat, block: TimeBlock)

  function CandidateKey(c: Candidate): Key {
    StartKey(c.block)
  }

  /** The blocks of the candidates, stripped of empty to-dos, in order: the target blocks. */
  function Untag(cs: seq<Candidate>): (r: seq<TimeBlock>)
    ensures |r| == |cs| && forall k :: 0 <= k < |cs| ==> r[k] == Stripped(cs[k].block)
  {
    if cs == [] then [] else [Stripped(cs[0].block)] + Untag(cs[1..])
  }

  lemma UntagConcat(a: seq<Candidate>, b: seq<Candidate>)
    ensures Untag(a + b) == Untag(a) + Untag(b)
  {
  }

  predicate DistinctOrigins(cs: seq<Candidate>) {
    forall k, m :: 0 <= k < m < |cs| ==> cs[k].origin != cs[m].origin
  }

  /**
   * The schedulable blocks from index `offset` on, each tagged with its
   * index: the target blocks before the sort and the stripping.
   */
  function CandidatesFrom(bs: seq<TimeBlock>, offset: nat): seq<Candidate>
    decreases |bs|
  {
    if bs == [] then []
    else (if IsSchedulable(bs[0]) then [Candidate(offset, bs[0])] else []) + CandidatesFrom(bs[1..], offset + 1)
  }

  /** Without their tags, the candidates are the stripped schedulable blocks, in order. */
  lemma {:induction false} CandidatesUntagged(bs: seq<TimeBlock>, offset: nat)
    ensures Untag(CandidatesFrom(bs, offset)) == SchedulableStripped(bs)
    decreases |bs|
  {
    if bs != [] {
      var head := if IsSchedulable(bs[0]) then [Candidate(offset, bs[0])] else [];
      CandidatesUntagged(bs[1..], offset + 1);
      UntagConcat(head, CandidatesFrom(bs[1..], offset + 1));
    }
  }

  /** A candidate tagged below every tag of an increasing list keeps it increasing. */
  lemma IncreasingCons(head: seq<Candidate>, rest: seq<Candidate>, lo: nat, hi: nat)
    requires lo <= hi && |head| <= 1 && (head != [] ==> head[0].origin + 1 == lo)
    requires forall k :: 0 <= k < |rest| ==> lo <= rest[k].origin < hi
    requires forall k, m :: 0 <= k < m < |rest| ==> rest[k].origin < rest[m].origin
    ensures forall k :: 0 <= k < |head + rest| ==> lo - 1 <= (head + rest)[k].origin < hi
    ensures forall k, m :: 0 <= k < m < |head + rest| ==> (head + rest)[k].origin < (head + rest)[m].origin
  {
  }

  /** The tags of the candidates increase, within the indices of the blocks. */
  lemma {:induction false} CandidatesIncrease(bs: seq<TimeBlock>, offset: nat)
    ensures forall k :: 0 <= k < |CandidatesFrom(bs, offset)| ==>
      offset <= CandidatesFrom(bs, offset)[k].origin < offset + |bs|
    ensures forall k, m :: 0 <= k < m < |CandidatesFrom(bs, offset)| ==>
      CandidatesFrom(bs, offset)[k].origin < CandidatesFrom(bs, offset)[m].origin
    decreases |bs|
  {
    if bs != [] {
      var next := offset + 1;
      var head := if IsSchedulable(bs[0]) then [Candidate(offset, bs[0])] else [];
      var rest := CandidatesFrom(bs[1..], next);
      assert CandidatesFrom(bs, offset) == head + rest;
      CandidatesIncrease(bs[1..], next);
      IncreasingCons(head, rest, next, offset + |bs|);
    }
  }

  /** Each candidate is the schedulable block whose index, less `offset`, it carries. */
  predicate TaggedBy(r: seq<Candidate>, bs: seq<TimeBlock>, offset: nat) {
    forall k :: 0 <= k < |r| ==>
      && offset <= r[k].origin < offset + |bs| && IsSchedulable(bs[r[k].origin - offset])
      && r[k].block == bs[r[k].origin - offset]
  }

  lemma TaggedCons(bs: seq<TimeBlock>, offset: nat, head: seq<Candidate>, rest: seq<Candidate>)
    requires bs != [] && TaggedBy(rest, bs[1..], offset + 1)
    requires head == if IsSchedulable(bs[0]) then [Candidate(offset, bs[0])] else []
    ensures TaggedBy(head + rest, bs, offset)
  {
    var r := head + rest;
    forall k | 0 <= k < |r|
      ensures offset <= r[k].origin < offset + |bs| && IsSchedulable(bs[r[k].origin - offset])
      ensures r[k].block == bs[r[k].origin - offset]
    {
      if k < |head| {
        assert IsSchedulable(bs[0]) && head == [Candidate(offset, bs[0])];
        assert r[k] == Candidate(offset, bs[0]);
      } else {
        var c := rest[k - |head|];
        assert r[k] == c;
        assert bs[1..][c.origin - (offset + 1)] == bs[c.origin - offset];
      }
    }
  }

  lemma {:induction false} CandidatesTagged(bs: seq<TimeBlock>, offset: nat)
    ensures TaggedBy(CandidatesFrom(bs, offset), bs, offset)
    decreases |bs|
  {
    if bs != [] {
      var next := offset + 1;
      var head := if IsSchedulable(bs[0]) then [Candidate(offset, bs[0])] else [];
      var rest := CandidatesFrom(bs[1..], next);
      assert CandidatesFrom(bs, offset) == head + rest;
      CandidatesTagged(bs[1..], next);
      TaggedCons(bs, offset, head, rest);
    }
  }

  /** Every schedulable block has its candidate. */
  lemma {:induction false} CandidatesComplete(bs: seq<TimeBlock>, offset: nat, i: nat)
    requires i < |bs| && IsSchedulable(bs[i])
    ensures Candidate(offset + i, bs[i]) in CandidatesFrom(bs, offset)
    decreases |bs|
  {
    var next := offset + 1;
    var rest := CandidatesFrom(bs[1..], next);
    var head := if IsSchedulable(bs[0]) then [Candidate(offset, bs[0])] else [];
    assert CandidatesFrom(bs, offset) == head + rest;
    if i > 0 {
      CandidatesComplete(bs[1..], next, i - 1);
      assert bs[1..][i - 1] == bs[i];
      assert next + (i - 1) == offset + i;
    }
  }

  lemma {:induction false} UntagInsert(x: Candidate, s: seq<Candidate>)
    ensures Untag(Insert(x, s, CandidateKey)) == Insert(Stripped(x.block), Untag(s), StartKey)
  {
    if s != [] && !KeyLe(CandidateKey(x), CandidateKey(s[0])) {
      UntagInsert(x, s[1..]);
      UntagConcat([s[0]], Insert(x, s[1..], CandidateKey));
      UntagConcat([s[0]], s[1..]);
      assert s == [s[0]] + s[1..];
    } else {
      UntagConcat([x], s);
    }
  }

  /** Sorting the candidates sorts their blocks as the target blocks are sorted. */
  lemma {:induction false} UntagSorted(cs: seq<Candidate>)
    ensures Untag(SortBy(cs, CandidateKey)) == SortBy(Untag(cs), StartKey)
  {
    if cs != [] {
      UntagSorted(cs[1..]);
      UntagInsert(cs[0], SortBy(cs[1..], CandidateKey));
      UntagConcat([cs[0]], cs[1..]);
      assert cs == [cs[0]] + cs[1..];
    }
  }

  lemma {:induction false} CountDistinctOrigins(cs: seq<Candidate>, x: Candidate)
    requires DistinctOrigins(cs)
    ensures multiset(cs)[x] == if x in cs then 1 else 0
  {
    if cs != [] {
      var n := |cs|;
      var init := cs[..n - 1];
      CountDistinctOrigins(init, x);
      assert cs == init + [cs[n - 1]];
      if x == cs[n - 1] {
        assert forall k :: 0 <= k < n - 1 ==> init[k].origin != x.origin;
      }
    }
  }

  lemma TwiceCounted(s: seq<Candidate>, k: nat, m: nat)
    requires k < m < |s| && s[k] == s[m]
    ensures multiset(s)[s[k]] >= 2
  {
    assert s == s[..m] + s[m..];
    assert s[k] == s[..m][k];
    assert s[m] == s[m..][0];
  }

  /** A reordering of candidates with distinct origins has distinct origins. */
  lemma PermutedOriginsDistinct(cs: seq<Candidate>, ds: seq<Candidate>)
    requires DistinctOrigins(cs) && multiset(ds) == multiset(cs)
    ensures DistinctOrigins(ds)
  {
    forall k, m | 0 <= k < m < |ds| ensures ds[k].origin != ds[m].origin {
      if ds[k].origin == ds[m].origin {
        assert ds[k] in multiset(cs) && ds[m] in multiset(cs);
        var a :| 0 <= a < |cs| && cs[a] == ds[k];
        var b :| 0 <= b < |cs| && cs[b] == ds[m];
        assert a == b;
        TwiceCounted(ds, k, m);
        CountDistinctOrigins(cs, ds[k]);
        assert false;
      }
    }
  }

  /** The target blocks, each tagged with the input block it was copied from. */
  function SortedCandidates(blocks: seq<TimeBlock>): (r: seq<Candidate>)
    requires AllTimesValid(blocks)
    ensures Untag(r) == Targets(blocks)
  {
    SortedUntagged(blocks);
    SortBy(CandidatesFrom(blocks, 0), CandidateKey)
  }

  /** Without their tags, the sorted candidates are the target blocks of autoAssign. */
  lemma SortedUntagged(blocks: seq<TimeBlock>)
    requires AllTimesValid(blocks)
    ensures Untag(SortBy(CandidatesFrom(blocks, 0), CandidateKey)) == Targets(blocks)
  {
    CandidatesUntagged(blocks, 0);
    UntagSorted(CandidatesFrom(blocks, 0));
  }

  lemma SortedDistinct(blocks: seq<TimeBlock>)
    requires AllTimesValid(blocks)
    ensures DistinctOrigins(SortedCandidates(blocks))
  {
    var cs := CandidatesFrom(blocks, 0);
    CandidatesIncrease(blocks, 0);
    PermutedOriginsDistinct(cs, SortBy(cs, CandidateKey));
  }

  lemma SortedTagged(blocks: seq<TimeBlock>)
    requires AllTimesValid(blocks)
    ensures forall k :: 0 <= k < |SortedCandidates(blocks)| ==>
      && SortedCandidates(blocks)[k].origin < |blocks|
      && IsSchedulable(blocks[SortedCandidates(blocks)[k].origin])
      && SortedCandidates(blocks)[k].block == blocks[SortedCandidates(blocks)[k].origin]
  {
    var cs := CandidatesFrom(blocks, 0);
    var r := SortBy(cs, CandidateKey);
    CandidatesTagged(blocks, 0);
    forall k | 0 <= k < |r|
      ensures r[k].origin < |blocks| && IsSchedulable(blocks[r[k].origin]) && r[k].block == blocks[r[k].origin]
    {
      assert r[k] in multiset(cs);
    }
  }

  lemma SortedComplete(blocks: seq<TimeBlock>)
    requires AllTimesValid(blocks)
    ensures forall i :: 0 <= i < |blocks| && IsSchedulable(blocks[i]) ==>
      exists k :: 0 <= k < |SortedCandidates(blocks)| && SortedCandidates(blocks)[k].origin == i
  {
    var cs := CandidatesFrom(blocks, 0);
    var r := SortedCandidates(blocks);
    assert multiset(r) == multiset(cs);
    forall i | 0 <= i < |blocks| && IsSchedulable(blocks[i]) ensures exists k :: 0 <= k < |r| && r[k].origin == i {
      var c := Candidate(i, blocks[i]);
      CandidatesComplete(blocks, 0, i);
      assert c in multiset(r);
      var k :| 0 <= k < |r| && r[k] == c;
      assert r[k].origin == i;
    }
  }

  /**
   * The sorted candidates are the target blocks, tagged with distinct
   * origins: each the index of the schedulable block it was copied from,
   * every schedulable block once.
   */
  lemma SortedCandidatesFacts(blocks: seq<TimeBlock>)
    requires AllTimesValid(blocks)
    ensures DistinctOrigins(SortedCandidates(blocks))
    ensures forall k :: 0 <= k < |SortedCandidates(blocks)| ==>
      && SortedCandidates(blocks)[k].origin < |blocks|
      && IsSchedulable(blocks[SortedCandidates(blocks)[k].origin])
      && SortedCandidates(blocks)[k].block == blocks[SortedCandidates(blocks)[k].origin]
    ensures forall i :: 0 <= i < |blocks| && IsSchedulable(blocks[i]) ==>
      exists k :: 0 <= k < |SortedCandidates(blocks)| && SortedCandidates(blocks)[k].origin == i
  {
    SortedDistinct(blocks);
    SortedTagged(blocks);
    SortedComplete(blocks);
  }

  /** The position of the first candidate copied from input block `i`. */
  function FindOrigin(cs: seq<Candidate>, i: nat): (r: Option<nat>)
    ensures r.Some? ==> r.value < |cs| && cs[r.value].origin == i && forall k :: 0 <= k < r.value ==> cs[k].origin != i
    ensures r.None? ==> forall k :: 0 <= k < |cs| ==> cs[k].origin != i
  {
    if cs == [] then None
    else if cs[0].origin == i then Some(0)
    else match FindOrigin(cs[1..], i)
      case None => None
      case Some(j) => Some(j + 1)
  }

  /**
   * The intended write-back: each input block takes the to-do list of the
   * target copied from it, and is otherwise kept as it was.
   */
  function MergeByOrigin(blocks: seq<TimeBlock>, cs: seq<Candidate>, placed: seq<TimeBlock>): (r: seq<TimeBlock>)
    requires |placed| == |cs|
    ensures |r| == |blocks|
    ensures forall i :: 0 <= i < |r| ==> r[i] == blocks[i].(todos := r[i].todos)
    ensures forall i :: 0 <= i < |r| && (forall k :: 0 <= k < |cs| ==> cs[k].origin != i) ==> r[i] == blocks[i]
    ensures DistinctOrigins(cs) ==>
      forall i, k :: 0 <= i < |r| && 0 <= k < |cs| && cs[k].origin == i ==> r[i].todos == placed[k].todos
  {
    seq(|blocks|, i requires 0 <= i < |blocks| =>
      match FindOrigin(cs, i)
      case None => blocks[i]
      case Some(k) => blocks[i].(todos := placed[k].todos))
  }

  /** Appending to one target appends to the input block it was copied from, and to no other. */
  lemma MergeAppend(blocks: seq<TimeBlock>, cs: seq<Candidate>, placed: seq<TimeBlock>, j: nat, t: TodoItem)
    requires |placed| == |cs| && DistinctOrigins(cs) && j < |cs| && cs[j].origin < |blocks|
    ensures var o := cs[j].origin;
      var m := MergeByOrigin(blocks, cs, placed);
      MergeByOrigin(blocks, cs, placed[j := Append(placed[j], t)]) == m[o := Append(m[o], t)]
  {
    var o := cs[j].origin;
    var m := MergeByOrigin(blocks, cs, placed);
    var after := MergeByOrigin(blocks, cs, placed[j := Append(placed[j], t)]);
    forall i | 0 <= i < |blocks| ensures after[i] == m[o := Append(m[o], t)][i] {
      match FindOrigin(cs, i)
      case None =>
      case Some(k) =>
        assert k == j <==> i == o;
    }
  }

  lemma {:induction false} SchedulablesOfStripped(bs: seq<TimeBlock>, ms: seq<TimeBlock>)
    requires |ms| == |bs|
    requires forall i :: 0 <= i < |bs| ==> ms[i] == if IsSchedulable(bs[i]) then Stripped(bs[i]) else bs[i]
    ensures Schedulables(ms) == SchedulableStripped(bs)
  {
    if bs != [] {
      SchedulablesOfStripped(bs[1..], ms[1..]);
    }
  }

  /** Before any placement, the write-back puts back the stripped candidate blocks. */
  lemma MergeUnplaced(blocks: seq<TimeBlock>)
    requires AllTimesValid(blocks)
    ensures Schedulables(MergeByOrigin(blocks, SortedCandidates(blocks), Targets(blocks))) == SchedulableStripped(blocks)
  {
    var cs := SortedCandidates(blocks);
    SortedCandidatesFacts(blocks);
    var m := MergeByOrigin(blocks, cs, Targets(blocks));
    forall i | 0 <= i < |blocks| ensures m[i] == if IsSchedulable(blocks[i]) then Stripped(blocks[i]) else blocks[i] {
      if IsSchedulable(blocks[i]) {
        var k :| 0 <= k < |cs| && cs[k].origin == i;
        assert Targets(blocks)[k] == Stripped(cs[k].block);
      }
    }
    SchedulablesOfStripped(blocks, m);
  }

  /**
   * Placing one more to-do among the targets adds exactly it to the
   * written-back candidate blocks, or else to the remaining ones.
   */
  lemma MergeStep(blocks: seq<TimeBlock>, cs: seq<Candidate>, placed: seq<TimeBlock>, t: TodoItem)
    requires AllTimesValid(placed) && |placed| == |cs| && DistinctOrigins(cs)
    requires forall k :: 0 <= k < |cs| ==> cs[k].origin < |blocks| && IsSchedulable(blocks[cs[k].origin])
    ensures TodoBag(Schedulables(MergeByOrigin(blocks, cs, Place(placed, t).blocks)))
      + (if Place(placed, t).placed then multiset{} else multiset{t})
      == TodoBag(Schedulables(MergeByOrigin(blocks, cs, placed))) + multiset{t}
  {
    var m := MergeByOrigin(blocks, cs, placed);
    if Place(placed, t).placed {
      var j := Chosen(placed, t).value;
      MergeAppend(blocks, cs, placed, j, t);
      assert IsSchedulable(m[cs[j].origin]);
      SchedulablesAppend(m, cs[j].origin, t);
    }
  }

  lemma BagStep(a: multiset<TodoItem>, x: multiset<TodoItem>, m: multiset<TodoItem>, r: multiset<TodoItem>,
                start: multiset<TodoItem>, init: multiset<TodoItem>, t: TodoItem)
    requires a + x == m + multiset{t} && m + r == start + init
    ensures a + (r + x) == start + (init + multiset{t})
  {
    calc {
      a + (r + x);
      (a + x) + r;
      (m + r) + multiset{t};
      start + (init + multiset{t});
    }
  }

  /**
   * Conservation through the write-back by origin: the candidate blocks
   * returned and the remaining to-dos hold the candidates' non-empty
   * to-dos and the placed to-dos, each exactly once, whatever the ids.
   */
  lemma {:induction false} MergeByOriginConserves(blocks: seq<TimeBlock>, todos: seq<TodoItem>)
    requires AllTimesValid(blocks)
    ensures TodoBag(Schedulables(MergeByOrigin(blocks, SortedCandidates(blocks), PlaceAll(Targets(blocks), todos).blocks)))
      + multiset(PlaceAll(Targets(blocks), todos).remaining)
      == TodoBag(SchedulableStripped(blocks)) + multiset(todos)
  {
    if todos == [] {
      MergeUnplaced(blocks);
    } else {
      var cs := SortedCandidates(blocks);
      SortedCandidatesFacts(blocks);
      var ts := Targets(blocks);
      var init := todos[..|todos| - 1];
      var t := todos[|todos| - 1];
      var before := PlaceAll(ts, init);
      MergeByOriginConserves(blocks, init);
      MergeStep(blocks, cs, before.blocks, t);
      var p := Place(before.blocks, t);
      var x: multiset<TodoItem> := if p.placed then multiset{} else multiset{t};
      assert multiset(PlaceAll(ts, todos).remaining) == multiset(before.remaining) + x;
      MultisetOfSnoc(todos);
      BagStep(TodoBag(Schedulables(MergeByOrigin(blocks, cs, p.blocks))), x,
        TodoBag(Schedulables(MergeByOrigin(blocks, cs, before.blocks))), multiset(before.remaining),
        TodoBag(SchedulableStripped(blocks)), multiset(init), t);
    }
  }

  /**
   * Capacity and untouched blocks through the write-back by origin: a
   * candidate block within its length stays within it, and every other
   * block comes back as it was given.
   */
  lemma MergeByOriginKeepsBlocks(blocks: seq<TimeBlock>, todos: seq<TodoItem>)
    requires AllTimesValid(blocks) && Normalized(todos)
    ensures var m := MergeByOrigin(blocks, SortedCandidates(blocks), PlaceAll(Targets(blocks), todos).blocks);
      && (forall i :: 0 <= i < |blocks| && IsSchedulable(blocks[i]) && Used(Stripped(blocks[i])) <= AvailableMinutes(blocks[i]) ==>
            Used(m[i]) <= AvailableMinutes(blocks[i]))
      && (forall i :: 0 <= i < |blocks| && !IsSchedulable(blocks[i]) ==> m[i] == blocks[i])
  {
    var cs := SortedCandidates(blocks);
    SortedCandidatesFacts(blocks);
    var ts := Targets(blocks);
    var placed := PlaceAll(ts, todos).blocks;
    var m := MergeByOrigin(blocks, cs, placed);
    PlaceAllRespectsCapacity(ts, todos);
    PlaceAllKeepsBlocks(ts, todos);
    forall i | 0 <= i < |blocks| && IsSchedulable(blocks[i]) && Used(Stripped(blocks[i])) <= AvailableMinutes(blocks[i])
      ensures Used(m[i]) <= AvailableMinutes(blocks[i])
    {
      var k :| 0 <= k < |cs| && cs[k].origin == i;
      assert ts[k] == Stripped(blocks[i]);
      assert placed[k] == ts[k].(todos := placed[k].todos);
    }
  }

  predicate DistinctIds(bs: seq<TimeBlock>) {
    forall i, j :: 0 <= i < j < |bs| ==> bs[i].id != bs[j].id
  }

  /** Searching by id and by origin agree wherever the two tests agree. */
  lemma {:induction false} FindSame(ts: seq<TimeBlock>, cs: seq<Candidate>, id: string, i: nat)
    requires |ts| == |cs|
    requires forall k :: 0 <= k < |ts| ==> (ts[k].id == id <==> cs[k].origin == i)
    ensures FindById(ts, id) == FindOrigin(cs, i)
    decreases |ts|
  {
    if ts != [] && ts[0].id != id {
      forall k | 0 <= k < |ts[1..]| ensures ts[1..][k].id == id <==> cs[1..][k].origin == i {
        assert ts[1..][k] == ts[k + 1] && cs[1..][k] == cs[k + 1];
      }
      FindSame(ts[1..], cs[1..], id, i);
    }
  }

  /** Each placed target keeps the id of the input block it was copied from. */
  lemma PlacedIds(blocks: seq<TimeBlock>, todos: seq<TodoItem>)
    requires AllTimesValid(blocks)
    ensures |PlaceAll(Targets(blocks), todos).blocks| == |SortedCandidates(blocks)|
    ensures forall k :: 0 <= k < |SortedCandidates(blocks)| ==>
      && SortedCandidates(blocks)[k].origin < |blocks|
      && PlaceAll(Targets(blocks), todos).blocks[k].id == blocks[SortedCandidates(blocks)[k].origin].id
  {
    var cs := SortedCandidates(blocks);
    var ts := Targets(blocks);
    var placed := PlaceAll(ts, todos).blocks;
    SortedCandidatesFacts(blocks);
    PlaceAllKeepsBlocks(ts, todos);
    forall k | 0 <= k < |cs| ensures cs[k].origin < |blocks| && placed[k].id == blocks[cs[k].origin].id {
      assert placed[k] == ts[k].(todos := placed[k].todos);
      assert ts[k] == Untag(cs)[k] == Stripped(cs[k].block);
    }
  }

  /** With distinct block ids, the write-back by id is the write-back by origin. */
  lemma MergeByIdIsByOrigin(blocks: seq<TimeBlock>, todos: seq<TodoItem>)
    requires AllTimesValid(blocks) && DistinctIds(blocks)
    ensures MergeById(blocks, PlaceAll(Targets(blocks), todos).blocks)
      == MergeByOrigin(blocks, SortedCandidates(blocks), PlaceAll(Targets(blocks), todos).blocks)
  {
    var cs := SortedCandidates(blocks);
    var placed := PlaceAll(Targets(blocks), todos).blocks;
    PlacedIds(blocks, todos);
    var byId := MergeById(blocks, placed);
    var byOrigin := MergeByOrigin(blocks, cs, placed);
    forall i | 0 <= i < |blocks| ensures byId[i] == byOrigin[i] {
      forall k | 0 <= k < |placed| ensures placed[k].id == blocks[i].id <==> cs[k].origin == i {
        assert placed[k].id == blocks[cs[k].origin].id;
      }
      FindSame(placed, cs, blocks[i].id, i);
    }
  }

  /**
   * With distinct block ids, `autoAssignTodosToBlocks` keeps every to-do in
   * what it returns: the candidate blocks of `updatedBlocks` and
   * `remaining` hold the candidates' non-empty to-dos and every normalised
   * input, each exactly once; a candidate block within its length stays
   * within it; every other block comes back as it was given.
   */
  lemma AutoAssignKeepsTodos(inputTodos: seq<InputTodo>, blocks: seq<TimeBlock>, condition: Condition, ids: IdSource)
    requires AllTimesValid(blocks) && DistinctIds(blocks)
    ensures var todos := NormalizeAll(inputTodos, ids);
      var r := PlaceAll(Targets(blocks), Adjusted(SortTodos(todos), condition));
      var updated := MergeById(blocks, r.blocks);
      && TodoBag(Schedulables(updated)) + multiset(r.remaining) == TodoBag(SchedulableStripped(blocks)) + multiset(todos)
      && (forall i :: 0 <= i < |blocks| && IsSchedulable(blocks[i]) && Used(Stripped(blocks[i])) <= AvailableMinutes(blocks[i]) ==>
            Used(updated[i]) <= AvailableMinutes(blocks[i]))
      && (forall i :: 0 <= i < |blocks| && !IsSchedulable(blocks[i]) ==> updated[i] == blocks[i])
  {
    var adjusted := Adjusted(SortTodos(NormalizeAll(inputTodos, ids)), condition);
    MergeByIdIsByOrigin(blocks, adjusted);
    MergeByOriginConserves(blocks, adjusted);
    NormalizedInputs(inputTodos, ids, condition);
    MergeByOriginKeepsBlocks(blocks, adjusted);
  }

  /** Two schedulable blocks with one start time and only blank to-dos are their targets, in order. */
  lemma TwinTargets(first: TimeBlock, second: TimeBlock)
    requires TimesValid(first) && TimesValid(second) && IsSchedulable(first) && IsSchedulable(second)
    requires first.startTime == second.startTime
    ensures Targets([first, second]) == [Stripped(first), Stripped(second)]
  {
    var blocks := [first, second];
    assert blocks[1..] == [second] && [second][1..] == [];
    assert SchedulableStripped([second]) == [Stripped(second)];
    assert SchedulableStripped(blocks) == [Stripped(first), Stripped(second)];
    assert SortBy([Stripped(second)], StartKey) == [Stripped(second)];
    assert KeyLe(StartKey(Stripped(first)), StartKey(Stripped(second)));
  }

  /** A low-priority to-do goes to the last block it fits in. */
  lemma TwinPlacement(first: TimeBlock, second: TimeBlock, t: TodoItem)
    requires TimesValid(first) && TimesValid(second) && second.todos == []
    requires t.priority == Some(Low) && Need(t) <= AvailableMinutes(second)
    ensures PlaceAll([first, second], [t]) == Assignment([first, Append(second, t)], [])
  {
    var ts := [first, second];
    assert [t][..0] == [];
    assert Used(second) == 0;
    assert LastFitBelow(ts, t, 2) == Some(1);
    assert ts[1 := Append(second, t)] == [first, Append(second, t)];
  }

  /**
   * As written, two candidate blocks with the same id and start time lose a
   * to-do: a low-priority one is placed in the later of the two, the
   * write-back by id gives both blocks the earlier one's empty list, and
   * yet nothing remains and the advice says everything was placed. The
   * write-back by origin keeps it.
   */
  lemma SharedIdLosesTodo(first: TimeBlock, second: TimeBlock, t: TodoItem)
    requires TimesValid(first) && TimesValid(second) && IsSchedulable(first) && IsSchedulable(second)
    requires first.id == second.id && first.startTime == second.startTime
    requires NonEmpty(first.todos) == [] && NonEmpty(second.todos) == []
    requires t.priority == Some(Low) && Need(t) <= AvailableMinutes(second)
    ensures PlaceAll(Targets([first, second]), [t]).remaining == []
    ensures AdviceFor(PlaceAll(Targets([first, second]), [t]).remaining) == AllPlaced
    ensures TodoBag(MergeById([first, second], PlaceAll(Targets([first, second]), [t]).blocks)) == multiset{}
    ensures TodoBag(MergeByOrigin([first, second], SortedCandidates([first, second]),
      PlaceAll(Targets([first, second]), [t]).blocks)) == multiset{t}
  {
    var blocks := [first, second];
    TwinAssignment(first, second, t);
    var placed := [Stripped(first), Append(Stripped(second), t)];
    TwinsById(blocks, placed);
    TwinsByOrigin(blocks, placed);
    TodoBagPair(placed);
  }

  /** The placement in two fresh twin candidates, as seen from the input blocks. */
  lemma TwinAssignment(first: TimeBlock, second: TimeBlock, t: TodoItem)
    requires TimesValid(first) && TimesValid(second) && IsSchedulable(first) && IsSchedulable(second)
    requires first.startTime == second.startTime
    requires NonEmpty(first.todos) == [] && NonEmpty(second.todos) == []
    requires t.priority == Some(Low) && Need(t) <= AvailableMinutes(second)
    ensures |Targets([first, second])| == 2
    ensures PlaceAll(Targets([first, second]), [t]) == Assignment([Stripped(first), Append(Stripped(second), t)], [])
    ensures Stripped(first).id == first.id && Stripped(first).todos == []
  {
    var a, b := Stripped(first), Stripped(second);
    TwinTargets(first, second);
    assert AvailableMinutes(b) == AvailableMinutes(second);
    TwinPlacement(a, b, t);
  }

  /** Two blocks of one id both take the first target's to-dos, here none. */
  lemma TwinsById(blocks: seq<TimeBlock>, placed: seq<TimeBlock>)
    requires |blocks| == |placed| == 2 && blocks[0].id == blocks[1].id == placed[0].id && placed[0].todos == []
    ensures TodoBag(MergeById(blocks, placed)) == multiset{}
  {
    assert FindById(placed, blocks[0].id) == Some(0);
    var merged := MergeById(blocks, placed);
    assert merged[0].todos == [] && merged[1].todos == [];
    TodoBagPair(merged);
  }

  /** Two schedulable blocks written back by origin keep both targets' to-dos. */
  lemma TwinsByOrigin(blocks: seq<TimeBlock>, placed: seq<TimeBlock>)
    requires AllTimesValid(blocks) && |blocks| == |placed| == |Targets(blocks)| == 2
    ensures TodoBag(MergeByOrigin(blocks, SortedCandidates(blocks), placed)) == TodoBag(placed)
  {
    SortedCandidatesFacts(blocks);
    var cs := SortedCandidates(blocks);
    assert |cs| == |Untag(cs)|;
    PairByOrigin(blocks, cs, placed);
  }

  /**
   * The case as a student day emits it: classes from 13:00 give two work
   * blocks with the id `work-13:00`, and a low-priority to-do that fits the
   * afternoon one is lost by the write-back by id.
   */
  lemma StudentTwinsLoseTodo(p: UserProfile, c: ClassHours, ids: IdSource, t: TodoItem)
    requires ValidTime(c.end) && MealTimeValid(p.meals.lunch) && c.start == "13:00"
    requires t.priority == Some(Low) && Need(t) <= BlockDuration("13:00", c.end)
    ensures |StudentPlan(p, c, [], ids)| >= 3
    ensures var r := StudentPlan(p, c, [], ids);
      var blocks := [r[0], r[|r| - 2]];
      && r[0].id == r[|r| - 2].id
      && PlaceAll(Targets(blocks), [t]).remaining == []
      && TodoBag(MergeById(blocks, PlaceAll(Targets(blocks), [t]).blocks)) == multiset{}
  {
    StudentDayRepeatsId(p, c, ids);
    var first := WorkBlock("work-13:00", "오전 수업", "13:00", "12:00", "📚", ids);
    var second := WorkBlock("work-13:00", "오후 수업", "13:00", c.end, "📚", ids);
    FreshCandidateIsEmpty(first, ids);
    FreshCandidateIsEmpty(second, ids);
    SharedIdLosesTodo(first, second, t);
  }

  lemma TodoBagPair(bs: seq<TimeBlock>)
    requires |bs| == 2
    ensures TodoBag(bs) == multiset(bs[0].todos) + multiset(bs[1].todos)
  {
    assert bs[..1] == [bs[0]];
    TodoBagOne(bs[0]);
  }

  /** Two targets tagged with the two origins of a pair give back both their lists. */
  lemma PairByOrigin(blocks: seq<TimeBlock>, cs: seq<Candidate>, placed: seq<TimeBlock>)
    requires |blocks| == |cs| == |placed| == 2 && DistinctOrigins(cs)
    requires cs[0].origin < 2 && cs[1].origin < 2
    ensures TodoBag(MergeByOrigin(blocks, cs, placed)) == TodoBag(placed)
  {
    var m := MergeByOrigin(blocks, cs, placed);
    TodoBagPair(m);
    TodoBagPair(placed);
    if cs[0].origin == 0 {
      assert m[0].todos == placed[0].todos && m[1].todos == placed[1].todos;
    } else {
      assert m[0].todos == placed[1].todos && m[1].todos == placed[0].todos;
    }
  }

  /**
   * The corrected `autoAssignTodosToBlocks`: the same placement, written
   * back to the block each target was copied from, so that every to-do is
   * kept whatever the block ids.
   */
  method AutoAssignByOrigin(inputTodos: seq<InputTodo>, blocks: seq<TimeBlock>, condition: Condition, ids: IdSource)
    returns (updatedBlocks: seq<TimeBlock>, remaining: seq<TodoItem>, advice: Advice)
    requires AllTimesValid(blocks)
    ensures |updatedBlocks| == |blocks|
    ensures TodoBag(Schedulables(updatedBlocks)) + multiset(remaining)
      == TodoBag(SchedulableStripped(blocks)) + multiset(NormalizeAll(inputTodos, ids))
    ensures forall i :: 0 <= i < |blocks| && IsSchedulable(blocks[i]) && Used(Stripped(blocks[i])) <= AvailableMinutes(blocks[i]) ==>
      Used(updatedBlocks[i]) <= AvailableMinutes(blocks[i])
    ensures forall i :: 0 <= i < |blocks| && !IsSchedulable(blocks[i]) ==> updatedBlocks[i] == blocks[i]
    ensures advice == AdviceFor(remaining)
  {
    var todos := SortTodos(NormalizeAll(inputTodos, ids));
    var adjusted := Adjusted(todos, condition);
    var candidates := SortedCandidates(blocks);
    SortedCandidatesFacts(blocks);
    var targets := Untag(candidates);
    targets, remaining := PlaceEach(targets, adjusted);
    updatedBlocks := MergeByOrigin(blocks, candidates, targets);
    advice := AdviceFor(remaining);
    MergeByOriginConserves(blocks, adjusted);
    NormalizedInputs(inputTodos, ids, condition);
    MergeByOriginKeepsBlocks(blocks, adjusted);
  }

  // ---------------------------------------------------------------------
  // Suggesting an alternative for one block

  /**
   * The candidates of `suggestAlternativeForBlock`: all sorted non-empty
   * to-dos, or on a bad day only the high-priority ones, or failing those
   * the first sorted one.
   */
  function AltCandidates(sorted: seq<TodoItem>, condition: Condition): (r: seq<TodoItem>)
    ensures condition != Bad ==> r == sorted
    ensures condition == Bad && (exists i :: 0 <= i < |sorted| && PriorityOf(sorted[i]) == High) ==>
      forall x :: x in r <==> x in sorted && PriorityOf(x) == High
    ensures condition == Bad && (forall i :: 0 <= i < |sorted| ==> PriorityOf(sorted[i]) != High) ==>
      r == sorted[..if |sorted| == 0 then 0 else 1]
  {
    if condition != Bad then sorted
    else
      var high := HighOnes(sorted);
      if high == [] then sorted[..if |sorted| == 0 then 0 else 1]
      else
        assert high[0] in high;
        high
  }

  function HighOnes(s: seq<TodoItem>): (r: seq<TodoItem>)
    ensures forall x :: x in r <==> x in s && PriorityOf(x) == High
  {
    if s == [] then []
    else (if PriorityOf(s[0]) == High then [s[0]] else []) + HighOnes(s[1..])
  }

  /** The input form of a picked to-do, with its need and priority made explicit. */
  function Picked(t: TodoItem): (r: InputTodo)
    ensures r.text == t.text && r.duration == Some(Need(t)) && r.priority == Some(PriorityOf(t))
  {
    InputTodo(t.text, Some(Need(t)), Some(PriorityOf(t)))
  }

  /** The greedy pick: each candidate in order that still fits in the room left. */
  function Greedy(c: seq<TodoItem>, room: int): seq<InputTodo> {
    if c == [] then []
    else if Need(c[0]) <= room then [Picked(c[0])] + Greedy(c[1..], room - Need(c[0]))
    else Greedy(c[1..], room)
  }

  function TotalNeed(picked: seq<InputTodo>): int {
    if picked == [] then 0
    else (if picked[0].duration.Some? then picked[0].duration.value else 0) + TotalNeed(picked[1..])
  }

  /** The greedy pick never takes more minutes than there is room for. */
  lemma {:induction false} GreedyWithinRoom(c: seq<TodoItem>, room: int)
    ensures TotalNeed(Greedy(c, room)) <= room || Greedy(c, room) == []
  {
    if c != [] {
      if Need(c[0]) <= room {
        GreedyWithinRoom(c[1..], room - Need(c[0]));
        assert ([Picked(c[0])] + Greedy(c[1..], room - Need(c[0])))[1..] == Greedy(c[1..], room - Need(c[0]));
      } else {
        GreedyWithinRoom(c[1..], room);
      }
    }
  }

  predicate IsSubsequence<T(==)>(xs: seq<T>, ys: seq<T>)
    decreases |ys|
  {
    xs == [] || (ys != [] && ((xs[0] == ys[0] && IsSubsequence(xs[1..], ys[1..])) || IsSubsequence(xs, ys[1..])))
  }

  function PickedAll(c: seq<TodoItem>): (r: seq<InputTodo>)
    ensures |r| == |c| && forall i :: 0 <= i < |c| ==> r[i] == Picked(c[i])
  {
    seq(|c|, i requires 0 <= i < |c| => Picked(c[i]))
  }

  /** The greedy pick is a subsequence of the candidates, in their order. */
  lemma {:induction false} GreedySubsequence(c: seq<TodoItem>, room: int)
    ensures IsSubsequence(Greedy(c, room), PickedAll(c))
  {
    if c != [] {
      assert PickedAll(c)[1..] == PickedAll(c[1..]);
      if Need(c[0]) <= room {
        GreedySubsequence(c[1..], room - Need(c[0]));
        assert ([Picked(c[0])] + Greedy(c[1..], room - Need(c[0])))[1..] == Greedy(c[1..], room - Need(c[0]));
      } else {
        GreedySubsequence(c[1..], room);
      }
    }
  }

  /** Nothing is picked exactly when no candidate alone fits in the room. */
  lemma {:induction false} GreedyEmptyIffNothingFits(c: seq<TodoItem>, room: int)
    ensures Greedy(c, room) == [] <==> forall i :: 0 <= i < |c| ==> Need(c[i]) > room
  {
    if c != [] {
      GreedyEmptyIffNothingFits(c[1..], room);
      if Need(c[0]) > room {
        forall i | 1 <= i < |c| ensures Need(c[i]) == Need(c[1..][i - 1]) { }
      }
    }
  }

  datatype Suggestion = RestFirst | Trimmed

  /** The suggestion text depends only on the condition. */
  function SuggestionFor(condition: Condition): (s: Suggestion)
    ensures s == RestFirst <==> condition == Bad
  {
    if condition == Bad then RestFirst else Trimmed
  }

  /** The fallback when nothing fits: the first candidate, shortened to the block's length. */
  function Reduced(t: TodoItem, available: int): (r: InputTodo)
    ensures r.text == t.text + " (축소 버전)"
    ensures r.duration == Some(if Need(t) < available then Need(t) else available)
    ensures r.priority == Some(PriorityOf(t))
  {
    InputTodo(t.text + " (축소 버전)", Some(if Need(t) < available then Need(t) else available), Some(PriorityOf(t)))
  }

  /** The alternative list for a block, as a specification. */
  function Alternative(block: TimeBlock, condition: Condition): (r: seq<InputTodo>)
    requires TimesValid(block)
    ensures r == [] <==> NonEmpty(block.todos) == []
  {
    var c := AltCandidates(SortTodos(NonEmpty(block.todos)), condition);
    var picked := Greedy(c, AvailableMinutes(block));
    if picked == [] && |c| > 0 then [Reduced(c[0], AvailableMinutes(block))] else picked
  }

  lemma GreedyStep(c: seq<TodoItem>, i: nat, room: int)
    requires i < |c|
    ensures Greedy(c[i..], room) ==
      if Need(c[i]) <= room then [Picked(c[i])] + Greedy(c[i + 1..], room - Need(c[i]))
      else Greedy(c[i + 1..], room)
  {
    assert c[i..][1..] == c[i + 1..];
  }

  /** The picking loop: `sum` is what has been taken so far. */
  method GreedyPick(candidates: seq<TodoItem>, available: int) returns (picked: seq<InputTodo>)
    ensures picked == Greedy(candidates, available)
  {
    picked := [];
    var sum := 0;
    for i := 0 to |candidates|
      invariant picked + Greedy(candidates[i..], available - sum) == Greedy(candidates, available)
    {
      GreedyStep(candidates, i, available - sum);
      var t := candidates[i];
      var d := Need(t);
      if sum + d <= available {
        assert picked + ([Picked(t)] + Greedy(candidates[i + 1..], available - sum - d))
          == (picked + [Picked(t)]) + Greedy(candidates[i + 1..], available - (sum + d));
        picked := picked + [Picked(t)];
        sum := sum + d;
      }
    }
    assert candidates[|candidates|..] == [];
  }

  /**
   * `suggestAlternativeForBlock`: the greedy pick over the candidates,
   * with the forced fallback when it is empty.
   */
  method SuggestAlternative(block: TimeBlock, condition: Condition)
    returns (suggestion: Suggestion, modified: seq<InputTodo>)
    requires TimesValid(block)
    ensures suggestion == SuggestionFor(condition)
    ensures modified == Alternative(block, condition)
  {
    var available := AvailableMinutes(block);
    var todos := SortTodos(NonEmpty(block.todos));
    var candidates := AltCandidates(todos, condition);
    var picked := GreedyPick(candidates, available);
    if |picked| == 0 && |candidates| > 0 {
      var t := candidates[0];
      picked := picked + [Reduced(t, available)];
    }
    modified := picked;
    suggestion := SuggestionFor(condition);
  }

  /**
   * When nothing fits and there is a candidate, the result is that one
   * shortened candidate, and its duration is the whole block: never 0.
   */
  lemma FallbackFillsBlock(block: TimeBlock, condition: Condition)
    requires TimesValid(block)
    requires var c := AltCandidates(SortTodos(NonEmpty(block.todos)), condition);
      |c| > 0 && Greedy(c, AvailableMinutes(block)) == []
    ensures var c := AltCandidates(SortTodos(NonEmpty(block.todos)), condition);
      && Alternative(block, condition) == [Reduced(c[0], AvailableMinutes(block))]
      && Alternative(block, condition)[0].duration == Some(AvailableMinutes(block))
      && AvailableMinutes(block) >= 1
  {
    var c := AltCandidates(SortTodos(NonEmpty(block.todos)), condition);
    GreedyEmptyIffNothingFits(c, AvailableMinutes(block));
  }

  /** The alternative list fits in the block, fallback included. */
  lemma AlternativeFits(block: TimeBlock, condition: Condition)
    requires TimesValid(block)
    ensures TotalNeed(Alternative(block, condition)) <= AvailableMinutes(block)
  {
    var c := AltCandidates(SortTodos(NonEmpty(block.todos)), condition);
    var avail := AvailableMinutes(block);
    GreedyWithinRoom(c, avail);
    if Greedy(c, avail) == [] && |c| > 0 {
      GreedyEmptyIffNothingFits(c, avail);
      var r := [Reduced(c[0], avail)];
      assert TotalNeed(r) == avail + TotalNeed(r[1..]);
    }
  }
}
