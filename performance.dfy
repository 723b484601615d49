/**
 * The board's performance helpers: the memoised task filter, the window of
 * rows a virtualised list renders, and the coarse "time ago" label.
 */
module Performance {
  import opened Wrappers
  import opened Constants
  import opened JsText
  import opened Seqs

  /** The task's lower-cased title or description contains `query`. */
  function MatchesQuery(query: string): Task -> bool {
    (t: Task) => Includes(Lower(t.title), query) || Includes(Lower(t.description), query)
  }

  /** The task's column key is `filterColumn`. */
  function InColumn(filterColumn: string): Task -> bool {
    (t: Task) => Key(t.column) == filterColumn
  }

  /** A column filter is in force unless it is empty or "all". */
  predicate FiltersColumn(filterColumn: string) {
    filterColumn != "" && filterColumn != "all"
  }

  /** The task passes the query and the column filter in force. */
  predicate Kept(searchQuery: string, filterColumn: string, t: Task) {
    && (searchQuery != "" ==> MatchesQuery(Lower(searchQuery))(t))
    && (FiltersColumn(filterColumn) ==> Key(t.column) == filterColumn)
  }

  /**
   * `useMemoizedTasks`: absent tasks give none; a non-empty query keeps the
   * tasks whose lower-cased title or description contains the lower-cased
   * query; a column filter other than "all" keeps the tasks of that column.
   */
  function MemoizedTasks(tasks: Option<seq<Task>>, searchQuery: string, filterColumn: string): (r: seq<Task>)
    ensures tasks.None? ==> r == []
    ensures tasks.Some? ==> forall i :: 0 <= i < |r| ==> r[i] in tasks.value
    ensures searchQuery != "" ==> forall i :: 0 <= i < |r| ==> MatchesQuery(Lower(searchQuery))(r[i])
    ensures FiltersColumn(filterColumn) ==> forall i :: 0 <= i < |r| ==> Key(r[i].column) == filterColumn
    ensures tasks.Some? ==>
      forall i :: 0 <= i < |tasks.value| && Kept(searchQuery, filterColumn, tasks.value[i]) ==> tasks.value[i] in r
    ensures tasks.Some? ==>
      forall t :: multiset(r)[t] == if Kept(searchQuery, filterColumn, t) then multiset(tasks.value)[t] else 0
  {
    if tasks.None? then []
    else
      var filtered := tasks.value;
      FilterMultiset(MatchesQuery(Lower(searchQuery)), filtered);
      var filtered := if searchQuery != "" then Filter(MatchesQuery(Lower(searchQuery)), filtered) else filtered;
      FilterMultiset(InColumn(filterColumn), filtered);
      if FiltersColumn(filterColumn) then Filter(InColumn(filterColumn), filtered) else filtered
  }

  /** With no query and no column filter the tasks come back as they are. */
  lemma MemoizedUnfiltered(tasks: seq<Task>, filterColumn: string)
    requires !FiltersColumn(filterColumn)
    ensures MemoizedTasks(Some(tasks), "", filterColumn) == tasks
  {
  }

  /** The memoised tasks are the input with some tasks left out, in the input's order. */
  lemma MemoizedKeepsOrder(tasks: seq<Task>, searchQuery: string, filterColumn: string)
    ensures IsSubsequence(MemoizedTasks(Some(tasks), searchQuery, filterColumn), tasks)
  {
    var query := MatchesQuery(Lower(searchQuery));
    var column := InColumn(filterColumn);
    if searchQuery != "" && FiltersColumn(filterColumn) {
      FilterFilter(query, column, tasks);
      FilterIsSubsequence(Both(query, column), tasks);
    } else if searchQuery != "" {
      FilterIsSubsequence(query, tasks);
    } else if FiltersColumn(filterColumn) {
      FilterIsSubsequence(column, tasks);
    } else {
      IsSubsequenceReflexive(tasks);
    }
  }

  lemma {:induction false} IsSubsequenceReflexive<T>(s: seq<T>)
    ensures IsSubsequence(s, s)
  {
    if s != [] {
      IsSubsequenceReflexive(s[1..]);
    }
  }

  /** The rows a virtualised list renders, and where. */
  datatype Window = Window(visibleItems: seq<Task>, startIndex: nat, endIndex: nat, totalHeight: nat, offsetY: nat)

  /** `Math.ceil(a / b)` on naturals. */
  function CeilDiv(a: nat, b: nat): (q: nat)
    requires b > 0
    ensures q * b >= a && (q == 0 || (q - 1) * b < a)
  {
    (a + b - 1) / b
  }

  /**
   * `useVirtualization`: the rows from the one at the top of the viewport,
   * as many as fit in it plus one, clipped to the list.
   */
  function VirtualWindow(items: seq<Task>, containerHeight: nat, itemHeight: nat, scrollTop: nat): (w: Window)
    requires itemHeight > 0
    ensures w.endIndex <= |items|
    ensures w.visibleItems == if w.startIndex < w.endIndex then items[w.startIndex..w.endIndex] else []
    ensures w.totalHeight == |items| * itemHeight
    ensures w.offsetY == w.startIndex * itemHeight
    ensures w.offsetY <= scrollTop < w.offsetY + itemHeight
    ensures |w.visibleItems| <= CeilDiv(containerHeight, itemHeight) + 1
  {
    var startIndex := scrollTop / itemHeight;
    FloorBounds(scrollTop, itemHeight);
    MulAdd(startIndex, 1, itemHeight);
    var fit := startIndex + CeilDiv(containerHeight, itemHeight) + 1;
    var endIndex := if fit < |items| then fit else |items|;
    var visible := if startIndex < endIndex then items[startIndex..endIndex] else [];
    Window(visible, startIndex, endIndex, |items| * itemHeight, startIndex * itemHeight)
  }

  /**
   * The window covers the viewport: every row overlapping
   * `[scrollTop, scrollTop + containerHeight)` is rendered, and the rows
   * before the window lie wholly above it.
   */
  lemma WindowCoversViewport(items: seq<Task>, containerHeight: nat, itemHeight: nat, scrollTop: nat, i: nat)
    requires itemHeight > 0 && i < |items|
    ensures var w := VirtualWindow(items, containerHeight, itemHeight, scrollTop);
      (i * itemHeight < scrollTop + containerHeight && scrollTop < (i + 1) * itemHeight ==> w.startIndex <= i < w.endIndex)
      && (i < w.startIndex ==> (i + 1) * itemHeight <= scrollTop)
  {
    var w := VirtualWindow(items, containerHeight, itemHeight, scrollTop);
    var start := w.startIndex;
    var c := CeilDiv(containerHeight, itemHeight);
    assert containerHeight <= c * itemHeight;
    assert start * itemHeight <= scrollTop < (start + 1) * itemHeight;
    if i < start {
      MulLe(i + 1, start, itemHeight);
    }
    if start + 1 + c <= i {
      MulLe(start + 1 + c, i, itemHeight);
      MulAdd(start + 1, c, itemHeight);
    }
  }

  lemma MulAdd(a: int, b: int, k: int)
    ensures (a + b) * k == a * k + b * k
  {
  }

  lemma MulLe(a: int, b: int, k: nat)
    requires a <= b
    ensures a * k <= b * k
  {
    assert b * k - a * k == (b - a) * k;
  }

  /** `Math.floor(x / unit)` for a positive unit, and the whole units it counts. */
  lemma FloorBounds(x: int, unit: int)
    requires unit > 0
    ensures (x / unit) * unit <= x < (x / unit + 1) * unit
    ensures x < unit ==> x / unit <= 0
    ensures unit <= x ==> x / unit >= 1
  {
  }

  /** `${n} ${unit}${n > 1 ? "s" : ""} ago`. */
  function Ago(n: int, unit: string): string {
    IntToString(n) + " " + unit + (if n > 1 then "s" else "") + " ago"
  }

  /**
   * `formatRelativeTime` for a date `diffMs` milliseconds ago: the largest
   * whole unit among days, hours and minutes that is positive, else
   * "Just now" (which a date in the future also gets).
   */
  function FormatRelativeTime(diffMs: int): (r: string)
    ensures diffMs < MinuteMs ==> r == "Just now"
    ensures MinuteMs <= diffMs < HourMs ==>
      exists m :: 1 <= m < 60 && m * MinuteMs <= diffMs < (m + 1) * MinuteMs && r == Ago(m, "minute")
    ensures HourMs <= diffMs < DayMs ==>
      exists h :: 1 <= h < 24 && h * HourMs <= diffMs < (h + 1) * HourMs && r == Ago(h, "hour")
    ensures DayMs <= diffMs ==>
      exists d :: 1 <= d && d * DayMs <= diffMs < (d + 1) * DayMs && r == Ago(d, "day")
  {
    var diffDays := diffMs / DayMs;
    var diffHours := diffMs / HourMs;
    var diffMinutes := diffMs / MinuteMs;
    FloorBounds(diffMs, DayMs);
    FloorBounds(diffMs, HourMs);
    FloorBounds(diffMs, MinuteMs);
    if diffDays > 0 then Ago(diffDays, "day")
    else if diffHours > 0 then Ago(diffHours, "hour")
    else if diffMinutes > 0 then Ago(diffMinutes, "minute")
    else "Just now"
  }

  /** The unit is singular for a count of one and plural above. */
  lemma AgoPlural(n: int, unit: string)
    requires n >= 1
    ensures n == 1 ==> Ago(n, unit) == "1 " + unit + " ago"
    ensures n > 1 ==> Ago(n, unit) == IntToString(n) + " " + unit + "s ago"
  {
    if n == 1 {
      assert IntToString(1) == "1";
    }
  }
}
