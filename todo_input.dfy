/**
 * src/components/TodoInput.tsx: the list operations behind a block's to-do
 * editor. Each computes a new list from the current one (the component
 * hands it to its `onChange` callback), the overflow flag compares the
 * summed durations with the block's length, and `formatDuration` renders
 * minutes in Korean units. The fresh id of `createEmptyTodo` is a parameter.
 */
module TodoInput {
  import opened Strings
  import opened Profile
  import opened Templates

  /**
   * A `Partial<TodoItem>`: for each field, None when the key is absent,
   * Some(v) when it is present (for an optional field, v may be None: a key
   * present with the value `undefined`).
   */
  datatype TodoPatch = TodoPatch(
    id: Option<string>,
    text: Option<string>,
    duration: Option<Option<int>>,
    priority: Option<Option<Priority>>,
    completed: Option<Option<bool>>)

  /** `{ ...todo, ...updates }`: the patch's present keys win. */
  function ApplyPatch(t: TodoItem, p: TodoPatch): (r: TodoItem)
    ensures p.id.None? ==> r.id == t.id
    ensures p.id.Some? ==> r.id == p.id.value
    ensures p.text.None? ==> r.text == t.text
    ensures p.text.Some? ==> r.text == p.text.value
    ensures p.duration.None? ==> r.duration == t.duration
    ensures p.duration.Some? ==> r.duration == p.duration.value
    ensures p.priority.None? ==> r.priority == t.priority
    ensures p.priority.Some? ==> r.priority == p.priority.value
    ensures p.completed.None? ==> r.completed == t.completed
    ensures p.completed.Some? ==> r.completed == p.completed.value
  {
    TodoItem(
      if p.id.Some? then p.id.value else t.id,
      if p.text.Some? then p.text.value else t.text,
      if p.duration.Some? then p.duration.value else t.duration,
      if p.priority.Some? then p.priority.value else t.priority,
      if p.completed.Some? then p.completed.value else t.completed)
  }

  /** The empty patch changes nothing. */
  lemma ApplyEmptyPatch(t: TodoItem)
    ensures ApplyPatch(t, TodoPatch(None, None, None, None, None)) == t
  {
  }

  /** `updateTodo`: every item with the id is patched; the others, and the order, stay. */
  function UpdateTodo(todos: seq<TodoItem>, id: string, p: TodoPatch): (r: seq<TodoItem>)
    ensures |r| == |todos|
    ensures forall i :: 0 <= i < |r| && todos[i].id == id ==> r[i] == ApplyPatch(todos[i], p)
    ensures forall i :: 0 <= i < |r| && todos[i].id != id ==> r[i] == todos[i]
  {
    seq(|todos|, i requires 0 <= i < |todos| => if todos[i].id == id then ApplyPatch(todos[i], p) else todos[i])
  }

  /** The items without the id, in order. */
  function WithoutId(todos: seq<TodoItem>, id: string): (r: seq<TodoItem>)
    ensures |r| <= |todos|
    ensures forall x :: x in r <==> x in todos && x.id != id
  {
    if todos == [] then []
    else (if todos[0].id != id then [todos[0]] else []) + WithoutId(todos[1..], id)
  }

  /**
   * `removeTodo`: with more than one item, the items with the id are
   * dropped; otherwise the list becomes a single fresh empty to-do, whatever
   * the id.
   */
  function RemoveTodo(todos: seq<TodoItem>, id: string, freshId: string): (r: seq<TodoItem>)
    ensures |todos| <= 1 ==> r == [EmptyTodo(freshId)]
    ensures |todos| > 1 ==> forall x :: x in r <==> x in todos && x.id != id
  {
    if |todos| > 1 then WithoutId(todos, id) else [EmptyTodo(freshId)]
  }

  predicate DistinctIds(todos: seq<TodoItem>) {
    forall i, j :: 0 <= i < j < |todos| ==> todos[i].id != todos[j].id
  }

  /**
   * With distinct ids, removing never empties the list: one item goes when
   * the id is present, none otherwise.
   */
  lemma RemoveTodoNeverEmpty(todos: seq<TodoItem>, id: string, freshId: string)
    requires DistinctIds(todos)
    ensures RemoveTodo(todos, id, freshId) != []
    ensures |todos| > 1 && (exists i :: 0 <= i < |todos| && todos[i].id == id) ==>
      |RemoveTodo(todos, id, freshId)| == |todos| - 1
    ensures |todos| > 1 && (forall i :: 0 <= i < |todos| ==> todos[i].id != id) ==>
      RemoveTodo(todos, id, freshId) == todos
  {
    if |todos| > 1 {
      if exists i :: 0 <= i < |todos| && todos[i].id == id {
        var i :| 0 <= i < |todos| && todos[i].id == id;
        WithoutIdDropsOne(todos, id, i);
        var other := if i == 0 then 1 else 0;
        assert todos[other] in WithoutId(todos, id);
      } else {
        WithoutIdAbsent(todos, id);
      }
    }
  }

  lemma {:induction false} WithoutIdAbsent(todos: seq<TodoItem>, id: string)
    requires forall i :: 0 <= i < |todos| ==> todos[i].id != id
    ensures WithoutId(todos, id) == todos
  {
    if todos != [] {
      WithoutIdAbsent(todos[1..], id);
      assert todos == [todos[0]] + todos[1..];
    }
  }

  lemma {:induction false} WithoutIdDropsOne(todos: seq<TodoItem>, id: string, k: nat)
    requires DistinctIds(todos) && k < |todos| && todos[k].id == id
    ensures |WithoutId(todos, id)| == |todos| - 1
  {
    if k == 0 {
      WithoutIdAbsent(todos[1..], id);
    } else {
      WithoutIdDropsOne(todos[1..], id, k - 1);
    }
  }

  /** `addTodo`: the same items in the same order, then one fresh empty to-do. */
  function AddTodo(todos: seq<TodoItem>, freshId: string): (r: seq<TodoItem>)
    ensures |r| == |todos| + 1 && r[..|todos|] == todos
    ensures IsPlaceholder(r[|todos|]) && r[|todos|].id == freshId
  {
    todos + [EmptyTodo(freshId)]
  }

  /** The position of the first item with the id. */
  function FirstIndex(todos: seq<TodoItem>, id: string): (r: Option<nat>)
    ensures r.None? <==> forall i :: 0 <= i < |todos| ==> todos[i].id != id
    ensures r.Some? ==> r.value < |todos| && todos[r.value].id == id
    ensures r.Some? ==> forall k :: 0 <= k < r.value ==> todos[k].id != id
  {
    if todos == [] then None
    else if todos[0].id == id then Some(0)
    else match FirstIndex(todos[1..], id)
      case None => None
      case Some(i) => Some(i + 1)
  }

  /** `todos.find(t => t.id === id)`: the first item with the id. */
  function FindTodo(todos: seq<TodoItem>, id: string): (r: Option<TodoItem>)
    ensures r.None? <==> forall i :: 0 <= i < |todos| ==> todos[i].id != id
    ensures r.Some? ==> r.value == todos[FirstIndex(todos, id).value]
  {
    match FirstIndex(todos, id)
    case None => None
    case Some(i) => Some(todos[i])
  }

  /** Whether a to-do counts as completed: `completed` is truthy. */
  predicate IsCompleted(t: TodoItem) {
    t.completed == Some(true)
  }

  /**
   * `toggleComplete`: every item with the id gets `completed` set to the
   * negation of the first such item's state, an absent state counting as
   * not completed.
   */
  function ToggleComplete(todos: seq<TodoItem>, id: string): (r: seq<TodoItem>)
    ensures |r| == |todos|
    ensures forall i :: 0 <= i < |r| && todos[i].id != id ==> r[i] == todos[i]
    ensures forall i :: 0 <= i < |r| && todos[i].id == id ==>
      r[i] == todos[i].(completed := Some(!IsCompleted(FindTodo(todos, id).value)))
  {
    var found := FindTodo(todos, id);
    var value := !(found.Some? && IsCompleted(found.value));
    UpdateTodo(todos, id, TodoPatch(None, None, None, None, Some(Some(value))))
  }

  /** With distinct ids, toggling flips the item with the id and only it. */
  lemma ToggleFlips(todos: seq<TodoItem>, id: string, i: nat)
    requires DistinctIds(todos) && i < |todos| && todos[i].id == id
    ensures IsCompleted(ToggleComplete(todos, id)[i]) <==> !IsCompleted(todos[i])
  {
    var j := FirstIndex(todos, id).value;
    assert j == i;
  }

  /** Toggling twice restores the completion state of the item. */
  lemma ToggleTwice(todos: seq<TodoItem>, id: string, i: nat)
    requires DistinctIds(todos) && i < |todos| && todos[i].id == id
    ensures IsCompleted(ToggleComplete(ToggleComplete(todos, id), id)[i]) <==> IsCompleted(todos[i])
  {
    var once := ToggleComplete(todos, id);
    ToggleFlips(todos, id, i);
    forall a, b | 0 <= a < b < |once| ensures once[a].id != once[b].id {
      assert once[a].id == todos[a].id && once[b].id == todos[b].id;
    }
    ToggleFlips(once, id, i);
  }

  /**
   * `isOverflow`: a length is given and the durations, a missing one
   * counting 0, add up to more than it.
   */
  function IsOverflow(todos: seq<TodoItem>, availableMinutes: Option<int>): (over: bool)
    ensures availableMinutes.None? ==> !over
    ensures availableMinutes.Some? ==> (over <==> TotalTodoDuration(todos) > availableMinutes.value)
  {
    availableMinutes.Some? && TotalTodoDuration(todos) > availableMinutes.value
  }

  /** Adding an empty to-do never changes the overflow flag: it has no duration. */
  lemma AddTodoKeepsOverflow(todos: seq<TodoItem>, freshId: string, availableMinutes: Option<int>)
    ensures IsOverflow(AddTodo(todos, freshId), availableMinutes) == IsOverflow(todos, availableMinutes)
  {
    var r := AddTodo(todos, freshId);
    assert r[..|r| - 1] == todos;
  }

  // ---------------------------------------------------------------------
  // formatDuration

  const Minute: string := "분"
  const Hour: string := "시간"

  /** `formatDuration`: `N분` below an hour, else `H시간 M분`, without ` M분` when M is 0. */
  function FormatDuration(minutes: int): (r: string)
    ensures minutes < 60 ==> r == IntToString(minutes) + Minute
    ensures minutes >= 60 && minutes % 60 == 0 ==> r == NatToString(minutes / 60) + Hour
    ensures minutes >= 60 && minutes % 60 > 0 ==>
      r == NatToString(minutes / 60) + Hour + " " + NatToString(minutes % 60) + Minute
  {
    if minutes < 60 then IntToString(minutes) + Minute
    else
      var hours := minutes / 60;
      var mins := minutes % 60;
      if mins > 0 then NatToString(hours) + Hour + " " + NatToString(mins) + Minute
      else NatToString(hours) + Hour
  }

  /** Reads a rendered duration back: `N분`, `H시간`, `H시간 M분`, or `-N분`. */
  function ParseDuration(s: string): Option<int> {
    if s != [] && s[0] == '-' then
      match ParseUnsignedDuration(s[1..])
      case None => None
      case Some(v) => Some(-v)
    else ParseUnsignedDuration(s)
  }

  function ParseUnsignedDuration(s: string): Option<int> {
    var d := Prefix(s, IsDigit);
    if d == [] then None else ParseUnit(ParseNat(d), s[|d|..])
  }

  /** The unit text after the leading number `n`. */
  function ParseUnit(n: nat, rest: string): Option<int> {
    if rest == Minute then Some(n)
    else if rest == Hour then Some(60 * n)
    else if |rest| > 3 && rest[..3] == Hour + " " then
      match ParseMinutes(rest[3..])
      case None => None
      case Some(m) => Some(60 * n + m)
    else None
  }

  /** Reads `M분`. */
  function ParseMinutes(s: string): Option<int> {
    var d := Prefix(s, IsDigit);
    if d != [] && s[|d|..] == Minute then Some(ParseNat(d)) else None
  }

  lemma ReadNumberThen(n: nat, tail: string)
    requires tail != [] && !IsDigit(tail[0])
    ensures var s := NatToString(n) + tail; Prefix(s, IsDigit) == NatToString(n) && s[|NatToString(n)|..] == tail
    ensures ParseNat(NatToString(n)) == n
  {
    PrefixAppend(NatToString(n), tail, IsDigit);
    ParseNatToString(n);
  }

  /** `N분` reads back as N. */
  lemma ParseUnsignedMinutes(n: nat)
    ensures ParseUnsignedDuration(NatToString(n) + Minute) == Some(n)
  {
    ReadNumberThen(n, Minute);
  }

  /** Text that does not start with a minus sign is read as unsigned. */
  lemma ParseUnsignedText(s: string)
    requires s != [] && s[0] != '-'
    ensures ParseDuration(s) == ParseUnsignedDuration(s)
  {
  }

  lemma ParseFormatNegative(minutes: int)
    requires minutes < 0
    ensures ParseDuration(FormatDuration(minutes)) == Some(minutes)
  {
    var tail := NatToString(-minutes) + Minute;
    assert FormatDuration(minutes) == "-" + tail;
    ParseUnsignedMinutes(-minutes);
    ParseSigned(tail, -minutes);
  }

  /** A minus sign negates what the rest reads as. */
  lemma ParseSigned(tail: string, n: int)
    requires ParseUnsignedDuration(tail) == Some(n)
    ensures ParseDuration("-" + tail) == Some(-n)
  {
    assert ("-" + tail)[1..] == tail;
  }

  lemma ParseFormatMinutes(minutes: int)
    requires 0 <= minutes < 60
    ensures ParseDuration(FormatDuration(minutes)) == Some(minutes)
  {
    var s := NatToString(minutes) + Minute;
    assert FormatDuration(minutes) == s;
    assert s[0] != '-';
    ParseUnsignedText(s);
    ParseUnsignedMinutes(minutes);
  }

  lemma ParseFormatWholeHours(minutes: int)
    requires minutes >= 60 && minutes % 60 == 0
    ensures ParseDuration(FormatDuration(minutes)) == Some(minutes)
  {
    var h := NatToString(minutes / 60);
    assert FormatDuration(minutes) == h + Hour;
    assert h[0] != '-';
    ReadNumberThen(minutes / 60, Hour);
    assert ParseUnsignedDuration(h + Hour) == Some(60 * (minutes / 60));
  }

  lemma ParseHoursAndMinutes(hours: nat, mins: nat)
    ensures ParseUnsignedDuration(NatToString(hours) + (Hour + " " + NatToString(mins) + Minute))
      == Some(60 * hours + mins)
  {
    ReadNumberThen(hours, Hour + " " + NatToString(mins) + Minute);
    ParseUnitOfHoursAndMinutes(hours, mins);
  }

  lemma ParseUnitOfHoursAndMinutes(hours: nat, mins: nat)
    ensures ParseUnit(hours, Hour + " " + NatToString(mins) + Minute) == Some(60 * hours + mins)
  {
    var tail := Hour + " " + NatToString(mins) + Minute;
    assert tail[..3] == Hour + " " && tail[3..] == NatToString(mins) + Minute;
    assert tail != Minute && tail != Hour by { assert |tail| > 3; }
    ParseMinutesOf(mins);
  }

  lemma ParseMinutesOf(mins: nat)
    ensures ParseMinutes(NatToString(mins) + Minute) == Some(mins)
  {
    ReadNumberThen(mins, Minute);
  }

  lemma ParseFormatHoursAndMinutes(minutes: int)
    requires minutes >= 60 && minutes % 60 > 0
    ensures ParseDuration(FormatDuration(minutes)) == Some(minutes)
  {
    var h := NatToString(minutes / 60);
    var tail := Hour + " " + NatToString(minutes % 60) + Minute;
    var s := h + tail;
    assert FormatDuration(minutes) == s;
    assert s[0] == h[0] != '-';
    ParseUnsignedText(s);
    ParseHoursAndMinutes(minutes / 60, minutes % 60);
  }

  /** The rendering loses nothing: reading it back gives the minutes. */
  lemma ParseFormatDuration(minutes: int)
    ensures ParseDuration(FormatDuration(minutes)) == Some(minutes)
  {
    if minutes < 0 {
      ParseFormatNegative(minutes);
    } else if minutes < 60 {
      ParseFormatMinutes(minutes);
    } else if minutes % 60 == 0 {
      ParseFormatWholeHours(minutes);
    } else {
      ParseFormatHoursAndMinutes(minutes);
    }
  }
}
