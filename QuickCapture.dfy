// The quick-capture widget: a list of tasks, ideas, notes and reminders.
// New entries go to the front, tasks can be ticked off, entries deleted,
// the list filtered by type and completion, counted, and exported as a
// Markdown document. CaptureList holds the `items` state cell.
module QuickCapture {
  import opened Basics
  import opened Text

  datatype ItemType = Task | Idea | Note | Reminder

  datatype TypeFilter = All | Only(kind: ItemType)

  datatype CaptureItem = CaptureItem(
    id: string,
    kind: ItemType,
    content: string,
    project: Option<string>,
    completed: bool,
    createdAt: string,
    dueDate: Option<string>)

  /** The icon of each type in the type table. */
  function TypeIcon(t: ItemType): string {
    match t
    case Task => "\U{2610}"
    case Idea => "\U{1F4A1}"
    case Note => "\U{1F4DD}"
    case Reminder => "\U{23F0}"
  }

  // ---------------------------------------------------------------------
  // List updates

  /** addItem: blank input changes nothing; otherwise a new open item with
      the trimmed input goes in front of the old items. */
  function WithItemAdded(items: seq<CaptureItem>, input: string, kind: ItemType, id: string, now: string)
    : (r: seq<CaptureItem>)
    ensures AllSpace(input) ==> r == items
    ensures !AllSpace(input) ==>
      && |r| == |items| + 1 && r[1..] == items
      && r[0] == CaptureItem(id, kind, Trim(input), None, false, now, None)
  {
    TrimEmptyIff(input);
    if Trim(input) == "" then items
    else [CaptureItem(id, kind, Trim(input), None, false, now, None)] + items
  }

  /** The content stored for an added item is non-empty and has no white
      space at either end. */
  lemma AddedContentIsTrimmed(items: seq<CaptureItem>, input: string, kind: ItemType, id: string, now: string)
    requires !AllSpace(input)
    ensures var c := WithItemAdded(items, input, kind, id, now)[0].content;
      c != "" && !IsSpace(c[0]) && !IsSpace(c[|c| - 1]) && Trim(c) == c
  {
    TrimEmptyIff(input);
    TrimIdempotent(input);
  }

  /** toggleComplete: the items with that id have `completed` flipped. */
  function Toggled(items: seq<CaptureItem>, id: string): (r: seq<CaptureItem>)
    ensures |r| == |items|
    ensures forall i :: 0 <= i < |items| ==>
      r[i].id == items[i].id && r[i].kind == items[i].kind && r[i].content == items[i].content &&
      r[i].project == items[i].project && r[i].createdAt == items[i].createdAt && r[i].dueDate == items[i].dueDate
    ensures forall i :: 0 <= i < |items| ==> (r[i].completed != items[i].completed <==> items[i].id == id)
  {
    seq(|items|, i requires 0 <= i < |items| =>
      if items[i].id == id then items[i].(completed := !items[i].completed) else items[i])
  }

  /** Toggling the same id twice restores the list. */
  lemma ToggleTwice(items: seq<CaptureItem>, id: string)
    ensures Toggled(Toggled(items, id), id) == items
  {
  }

  /** deleteItem: keep the items whose id differs. */
  function Without(items: seq<CaptureItem>, id: string): seq<CaptureItem> {
    Filter(items, (x: CaptureItem) => x.id != id)
  }

  /** Deleting removes every item with the id, keeps every copy of every
      other item, and keeps their order. */
  lemma DeleteSpec(items: seq<CaptureItem>, id: string)
    ensures forall i :: 0 <= i < |Without(items, id)| ==> Without(items, id)[i].id != id
    ensures forall i :: 0 <= i < |items| && items[i].id != id ==> items[i] in Without(items, id)
    ensures forall x :: multiset(Without(items, id))[x] == if x.id != id then multiset(items)[x] else 0
    ensures IsSubsequence(Without(items, id), items)
  {
    var r := Without(items, id);
    FilterIsSubsequence(items, (x: CaptureItem) => x.id != id);
    FilterMultiset(items, (x: CaptureItem) => x.id != id);
    forall i | 0 <= i < |r| ensures r[i].id != id {
      assert r[i] in r;
    }
  }

  // ---------------------------------------------------------------------
  // Views

  predicate TypeMatches(x: CaptureItem, filter: TypeFilter) {
    filter == All || x.kind == filter.kind
  }

  function TypePass(filter: TypeFilter): CaptureItem -> bool {
    (x: CaptureItem) => TypeMatches(x, filter)
  }

  function CompletionPass(showCompleted: bool): CaptureItem -> bool {
    (x: CaptureItem) => showCompleted || !x.completed
  }

  /** filteredItems: first by type, then hiding completed items unless asked. */
  function FilteredItems(items: seq<CaptureItem>, filter: TypeFilter, showCompleted: bool): seq<CaptureItem> {
    Filter(Filter(items, TypePass(filter)), CompletionPass(showCompleted))
  }

  /** The view keeps the list order and shows an item exactly when its type
      passes the filter and it is open or completed items are shown. */
  lemma FilteredItemsSpec(items: seq<CaptureItem>, filter: TypeFilter, showCompleted: bool)
    ensures IsSubsequence(FilteredItems(items, filter, showCompleted), items)
    ensures forall i :: 0 <= i < |items| ==>
      (items[i] in FilteredItems(items, filter, showCompleted) <==>
       TypeMatches(items[i], filter) && (showCompleted || !items[i].completed))
  {
    var p := TypePass(filter);
    var q := CompletionPass(showCompleted);
    FilterFilter(items, p, q);
    FilterIsSubsequence(items, Both(p, q));
  }

  /** An item that is shown is shown as many times as it occurs in the list. */
  lemma FilteredItemsCounts(items: seq<CaptureItem>, filter: TypeFilter, showCompleted: bool)
    ensures forall x :: multiset(FilteredItems(items, filter, showCompleted))[x]
                        == if TypeMatches(x, filter) && (showCompleted || !x.completed) then multiset(items)[x] else 0
  {
    var p := TypePass(filter);
    var q := CompletionPass(showCompleted);
    FilterMultiset(items, p);
    FilterMultiset(Filter(items, p), q);
  }

  predicate IsTask(x: CaptureItem) { x.kind == Task }
  predicate IsPendingTask(x: CaptureItem) { !x.completed && x.kind == Task }
  predicate IsIdea(x: CaptureItem) { x.kind == Idea }

  function PendingCount(items: seq<CaptureItem>): nat {
    |Filter(items, IsPendingTask)|
  }

  function IdeasCount(items: seq<CaptureItem>): nat {
    |Filter(items, IsIdea)|
  }

  /** No more pending tasks than tasks. */
  lemma PendingAtMostTasks(items: seq<CaptureItem>)
    ensures PendingCount(items) <= |Filter(items, IsTask)| <= |items|
  {
    FilterMonotone(items, IsPendingTask, IsTask);
  }

  /** Adding an idea counts one more idea and no more pending tasks; adding
      a task counts one more pending task. */
  lemma {:induction false} AddItemCounts(items: seq<CaptureItem>, input: string, kind: ItemType, id: string, now: string)
    requires !AllSpace(input)
    ensures var r := WithItemAdded(items, input, kind, id, now);
      && IdeasCount(r) == IdeasCount(items) + (if kind == Idea then 1 else 0)
      && PendingCount(r) == PendingCount(items) + (if kind == Task then 1 else 0)
  {
    var r := WithItemAdded(items, input, kind, id, now);
    assert r == [r[0]] + items;
    FilterAppend([r[0]], items, IsIdea);
    FilterAppend([r[0]], items, IsPendingTask);
  }

  // ---------------------------------------------------------------------
  // Markdown export

  const ExportTitle: string := "# Quick Capture Export - "

  /** The checkbox of a task, by its state; other types get a plain bullet. */
  function Checkbox(x: CaptureItem): string {
    if x.kind == Task then (if x.completed then "- [x]" else "- [ ]") else "-"
  }

  /** " (project)" when the item names a non-empty project. */
  function ProjectSuffix(project: Option<string>): string {
    if project.Some? && project.value != "" then " (" + project.value + ")" else ""
  }

  function ExportLine(x: CaptureItem): string {
    Checkbox(x) + " " + TypeIcon(x.kind) + " " + x.content + ProjectSuffix(x.project)
  }

  function ExportLines(items: seq<CaptureItem>): (lines: seq<string>)
    ensures |lines| == |items|
  {
    seq(|items|, i requires 0 <= i < |items| => ExportLine(items[i]))
  }

  /** The title line, dated with the day of `now`, and the blank line after it. */
  function ExportHeader(now: string): string {
    ExportTitle + IsoDate(now) + "\n\n"
  }

  /** exportToMarkdown's document: the header, then the item lines. */
  function ExportMarkdown(items: seq<CaptureItem>, now: string): (md: string)
    ensures |ExportHeader(now)| <= |md| && md[..|ExportHeader(now)|] == ExportHeader(now)
    ensures md[|ExportHeader(now)|..] == Join(ExportLines(items), "\n")
  {
    ExportHeader(now) + Join(ExportLines(items), "\n")
  }

  /** Each line starts with a checkbox exactly for tasks, ticked exactly for
      completed tasks; every line shows the item's content after its icon,
      followed by " (project)" exactly when the item names a non-empty project. */
  lemma ExportLineShape(x: CaptureItem)
    ensures var line := ExportLine(x);
      && |line| >= 3
      && (line[..3] == "- [" <==> x.kind == Task)
      && (x.kind == Task ==> line[..5] == (if x.completed then "- [x]" else "- [ ]"))
      && var head := Checkbox(x) + " " + TypeIcon(x.kind) + " ";
         && line[..|head|] == head && line[|head|..|head| + |x.content|] == x.content
         && line[|head| + |x.content|..] ==
              (if x.project.Some? && x.project.value != "" then " (" + x.project.value + ")" else "")
  {
    var line := ExportLine(x);
    var head := Checkbox(x) + " " + TypeIcon(x.kind) + " ";
    assert line == head + x.content + ProjectSuffix(x.project);
    if x.kind != Task {
      assert line[2] == TypeIcon(x.kind)[0];
    }
  }

  /** Items whose content and project hold no line break can be read back
      from the export one line per item. */
  lemma ExportLinesRecoverable(items: seq<CaptureItem>)
    requires items != []
    requires forall i :: 0 <= i < |items| ==>
      '\n' !in items[i].content && (items[i].project.Some? ==> '\n' !in items[i].project.value)
    ensures Split(Join(ExportLines(items), "\n"), '\n') == ExportLines(items)
  {
    var lines := ExportLines(items);
    forall k | 0 <= k < |lines| ensures '\n' !in lines[k] {
      var x := items[k];
      assert '\n' !in Checkbox(x) && '\n' !in TypeIcon(x.kind) && '\n' !in ProjectSuffix(x.project);
    }
    SplitJoin(lines, '\n');
  }

  /** The item lines can be read back from an exported document. */
  lemma ExportRecoverable(items: seq<CaptureItem>, now: string)
    requires items != []
    requires forall i :: 0 <= i < |items| ==>
      '\n' !in items[i].content && (items[i].project.Some? ==> '\n' !in items[i].project.value)
    ensures Split(ExportMarkdown(items, now)[|ExportHeader(now)|..], '\n') == ExportLines(items)
  {
    ExportLinesRecoverable(items);
  }

  /** An empty list exports the title alone. */
  lemma ExportEmpty(now: string)
    ensures ExportMarkdown([], now) == ExportTitle + IsoDate(now) + "\n\n"
  {
    assert ExportLines([]) == [];
  }

  /** The document grows by one line per item, in list order. */
  lemma ExportAppend(items: seq<CaptureItem>, x: CaptureItem, now: string)
    requires items != []
    ensures ExportMarkdown(items + [x], now) == ExportMarkdown(items, now) + "\n" + ExportLine(x)
  {
    assert ExportLines(items + [x]) == ExportLines(items) + [ExportLine(x)];
    JoinAppend(ExportLines(items), ExportLine(x), "\n");
  }

  // ---------------------------------------------------------------------
  // The widget's state

  class CaptureList {
    var items: seq<CaptureItem>

    constructor (initial: seq<CaptureItem>)
      ensures items == initial
    {
      items := initial;
    }

    method AddItem(input: string, kind: ItemType, id: string, now: string)
      modifies this
      ensures items == WithItemAdded(old(items), input, kind, id, now)
    {
      if Trim(input) == "" {
        return;
      }
      var newItem := CaptureItem(id, kind, Trim(input), None, false, now, None);
      items := [newItem] + items;
    }

    method ToggleComplete(id: string)
      modifies this
      ensures items == Toggled(old(items), id)
    {
      items := Toggled(items, id);
    }

    method DeleteItem(id: string)
      modifies this
      ensures items == Without(old(items), id)
    {
      items := Without(items, id);
    }
  }
}
