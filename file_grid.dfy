/** The file list's rules (components/FileGrid.tsx): keyboard focus
    movement, the column count used for vertical moves, the file-kind
    badge, and the inline rename editor's state. */
module FileGrid {
  import opened Types
  import opened JsStrings

  /** The keys `handleKeyDown` distinguishes; every other key is `OtherKey`. */
  datatype Key = ArrowRight | ArrowLeft | ArrowDown | ArrowUp | Enter | F2 | OtherKey

  /** The keys the rename field reacts to. */
  datatype EditKey = EditEnter | EditEscape | EditOther

  function Min(a: int, b: int): int { if a <= b then a else b }

  function Max(a: int, b: int): int { if a >= b then a else b }

  /** `getGridColumns`: the column count of the grid at a window width. */
  function GridColumns(width: int): (c: int)
    ensures 2 <= c <= 5
  {
    if width >= 1280 then 5
    else if width >= 1024 then 4
    else if width >= 768 then 3
    else 2
  }

  /** A wider window never has fewer columns. */
  lemma GridColumnsMonotone(w1: int, w2: int)
    requires w1 <= w2
    ensures GridColumns(w1) <= GridColumns(w2)
  {
  }

  /** `cols` of `handleKeyDown`: one column in the list view. */
  function Columns(viewMode: ViewMode, width: int): (c: int)
    ensures 1 <= c <= 5
    ensures viewMode == LIST <==> c == 1
  {
    if viewMode == LIST then 1 else GridColumns(width)
  }

  /** `nextIndex` of `handleKeyDown`: arrows move by one (left/right) or by
      a row of `cols` (up/down), clamped to the list; other keys stay put.
      The handler only runs on a rendered item of a non-empty list. */
  function NextIndex(key: Key, index: int, cols: int, total: int): (n: int)
    requires 0 <= index < total && cols >= 1
    ensures 0 <= n < total
    ensures key == ArrowRight ==> n == index + 1 || n == index == total - 1
    ensures key == ArrowLeft ==> n == index - 1 || n == index == 0
    ensures key == ArrowDown ==> n == index + cols || (n == total - 1 && index + cols > total - 1)
    ensures key == ArrowUp ==> n == index - cols || (n == 0 && index - cols < 0)
    ensures key in {Enter, F2, OtherKey} ==> n == index
  {
    match key
    case ArrowRight => Min(index + 1, total - 1)
    case ArrowLeft => Max(index - 1, 0)
    case ArrowDown => Min(index + cols, total - 1)
    case ArrowUp => Max(index - cols, 0)
    case _ => index
  }

  /** What a key press on item `index` does. */
  datatype KeyEffect = NoEffect | MoveFocus(to: int) | Open(item: DriveItem) | StartRename(item: DriveItem)

  /** `handleKeyDown` as a decision: nothing while a rename is in progress;
      focus moves only when the index changes; Enter opens and F2 starts a
      rename only for an item that is not deleted (F2 also needs a rename
      handler). */
  function KeyEffectOf(key: Key, items: seq<DriveItem>, index: int, cols: int,
                       editing: bool, canRename: bool): (e: KeyEffect)
    requires 0 <= index < |items| && cols >= 1
    ensures editing ==> e == NoEffect
    ensures e.MoveFocus? ==> 0 <= e.to < |items| && e.to != index && e.to == NextIndex(key, index, cols, |items|)
    ensures e.Open? ==> key == Enter && e.item == items[index] && !IsDeleted(e.item)
    ensures e.StartRename? ==> key == F2 && e.item == items[index] && !IsDeleted(e.item) && canRename
    ensures !editing && key == Enter && !IsDeleted(items[index]) ==> e == Open(items[index])
    ensures !editing && key == F2 && !IsDeleted(items[index]) && canRename ==> e == StartRename(items[index])
    ensures !editing && key !in {Enter, F2, OtherKey} && NextIndex(key, index, cols, |items|) != index ==>
      e == MoveFocus(NextIndex(key, index, cols, |items|))
  {
    if editing then NoEffect
    else
      match key
      case Enter => if !IsDeleted(items[index]) then Open(items[index]) else NoEffect
      case F2 => if !IsDeleted(items[index]) && canRename then StartRename(items[index]) else NoEffect
      case OtherKey => NoEffect
      case _ =>
        var next := NextIndex(key, index, cols, |items|);
        if next != index then MoveFocus(next) else NoEffect
  }

  /** The badge labels of `getFileIconProps`; `GENERIC` is the `FILE` label. */
  datatype FileLabel = PDF | DOC | XLS | ZIP | CODE | TXT | GENERIC

  /** The order in which `getFileIconProps` tries the labels. */
  const LABEL_ORDER: seq<FileLabel> := [PDF, DOC, XLS, ZIP, CODE, TXT]

  /** The mime fragments (compared as given) that select a label. */
  function MimeWords(l: FileLabel): seq<string> {
    match l
    case PDF => ["pdf"]
    case DOC => ["word", "document"]
    case XLS => ["sheet", "excel", "csv"]
    case ZIP => ["zip", "compressed"]
    case CODE => ["json"]
    case TXT => ["text"]
    case GENERIC => []
  }

  /** The name endings (compared lower-cased) that select a label. */
  function NameEndings(l: FileLabel): seq<string> {
    match l
    case PDF => [".pdf"]
    case DOC => [".doc", ".docx"]
    case XLS => [".xls", ".xlsx", ".csv"]
    case ZIP => [".zip", ".rar", ".7z"]
    case CODE => [".json", ".js", ".ts", ".html", ".css"]
    case TXT => [".txt"]
    case GENERIC => []
  }

  /** Some word of `words` occurs in `s`. */
  predicate ContainsAny(s: string, words: seq<string>) {
    words != [] && (Contains(s, words[0]) || ContainsAny(s, words[1..]))
  }

  /** `s` ends with some suffix of `endings`. */
  predicate EndsWithAny(s: string, endings: seq<string>) {
    endings != [] && (EndsWith(s, endings[0]) || EndsWithAny(s, endings[1..]))
  }

  /** The rule of label `l` accepts the mime type and the lower-cased name. */
  predicate RuleMatches(l: FileLabel, mime: string, lowerName: string) {
    ContainsAny(mime, MimeWords(l)) || EndsWithAny(lowerName, NameEndings(l))
  }

  /** The label of the first rule in `order` that matches, or `GENERIC`. */
  function FirstMatch(order: seq<FileLabel>, mime: string, lowerName: string): FileLabel {
    if order == [] then GENERIC
    else if RuleMatches(order[0], mime, lowerName) then order[0]
    else FirstMatch(order[1..], mime, lowerName)
  }

  /** `getFileIconProps(mimeType = '', name = '')`, as written: a chain of
      tests on the mime type as given and on the lower-cased name. */
  function FileLabelOf(mimeType: Option<string>, name: string): FileLabel {
    var mime := OrEmpty(mimeType);
    var lowerName := Lower(name);
    if Contains(mime, "pdf") || EndsWith(lowerName, ".pdf") then PDF
    else if Contains(mime, "word") || Contains(mime, "document")
         || EndsWith(lowerName, ".doc") || EndsWith(lowerName, ".docx") then DOC
    else if Contains(mime, "sheet") || Contains(mime, "excel") || Contains(mime, "csv")
         || EndsWith(lowerName, ".xls") || EndsWith(lowerName, ".xlsx") || EndsWith(lowerName, ".csv") then XLS
    else if Contains(mime, "zip") || Contains(mime, "compressed")
         || EndsWith(lowerName, ".zip") || EndsWith(lowerName, ".rar") || EndsWith(lowerName, ".7z") then ZIP
    else if Contains(mime, "json") || EndsWith(lowerName, ".json") || EndsWith(lowerName, ".js")
         || EndsWith(lowerName, ".ts") || EndsWith(lowerName, ".html") || EndsWith(lowerName, ".css") then CODE
    else if Contains(mime, "text") || EndsWith(lowerName, ".txt") then TXT
    else GENERIC
  }

  /** The badge is the first label, in the order PDF, DOC, XLS, ZIP, CODE,
      TXT, whose rule matches, and FILE when none does. */
  lemma FileLabelIsFirstMatch(mimeType: Option<string>, name: string)
    ensures FileLabelOf(mimeType, name) == FirstMatch(LABEL_ORDER, OrEmpty(mimeType), Lower(name))
  {
    var mime := OrEmpty(mimeType);
    var lowerName := Lower(name);
    assert LABEL_ORDER[1..] == [DOC, XLS, ZIP, CODE, TXT];
    assert LABEL_ORDER[2..] == [XLS, ZIP, CODE, TXT];
    assert LABEL_ORDER[3..] == [ZIP, CODE, TXT];
    assert LABEL_ORDER[4..] == [CODE, TXT];
    assert LABEL_ORDER[5..] == [TXT];
    assert LABEL_ORDER[6..] == [];
    assert FirstMatch(LABEL_ORDER[5..], mime, lowerName) ==
      if RuleMatches(TXT, mime, lowerName) then TXT else GENERIC;
    assert FirstMatch(LABEL_ORDER[4..], mime, lowerName) ==
      if RuleMatches(CODE, mime, lowerName) then CODE else FirstMatch(LABEL_ORDER[5..], mime, lowerName);
    assert FirstMatch(LABEL_ORDER[3..], mime, lowerName) ==
      if RuleMatches(ZIP, mime, lowerName) then ZIP else FirstMatch(LABEL_ORDER[4..], mime, lowerName);
    assert FirstMatch(LABEL_ORDER[2..], mime, lowerName) ==
      if RuleMatches(XLS, mime, lowerName) then XLS else FirstMatch(LABEL_ORDER[3..], mime, lowerName);
    assert FirstMatch(LABEL_ORDER[1..], mime, lowerName) ==
      if RuleMatches(DOC, mime, lowerName) then DOC else FirstMatch(LABEL_ORDER[2..], mime, lowerName);
    assert FirstMatch(LABEL_ORDER[0..], mime, lowerName) ==
      if RuleMatches(PDF, mime, lowerName) then PDF else FirstMatch(LABEL_ORDER[1..], mime, lowerName);
    ContainsAny1(mime, "pdf");
    ContainsAny2(mime, "word", "document");
    ContainsAny3(mime, "sheet", "excel", "csv");
    ContainsAny2(mime, "zip", "compressed");
    ContainsAny1(mime, "json");
    ContainsAny1(mime, "text");
    EndsWithAny1(lowerName, ".pdf");
    EndsWithAny2(lowerName, ".doc", ".docx");
    EndsWithAny3(lowerName, ".xls", ".xlsx", ".csv");
    EndsWithAny3(lowerName, ".zip", ".rar", ".7z");
    EndsWithAny5(lowerName, ".json", ".js", ".ts", ".html", ".css");
    EndsWithAny1(lowerName, ".txt");
  }

  lemma ContainsAny1(s: string, a: string)
    ensures ContainsAny(s, [a]) <==> Contains(s, a)
  {
    assert [a][1..] == [];
  }

  lemma ContainsAny2(s: string, a: string, b: string)
    ensures ContainsAny(s, [a, b]) <==> Contains(s, a) || Contains(s, b)
  {
    assert [a, b][1..] == [b];
    ContainsAny1(s, b);
  }

  lemma ContainsAny3(s: string, a: string, b: string, c: string)
    ensures ContainsAny(s, [a, b, c]) <==> Contains(s, a) || Contains(s, b) || Contains(s, c)
  {
    assert [a, b, c][1..] == [b, c];
    ContainsAny2(s, b, c);
  }

  lemma EndsWithAny1(s: string, a: string)
    ensures EndsWithAny(s, [a]) <==> EndsWith(s, a)
  {
    assert [a][1..] == [];
  }

  lemma EndsWithAny2(s: string, a: string, b: string)
    ensures EndsWithAny(s, [a, b]) <==> EndsWith(s, a) || EndsWith(s, b)
  {
    assert [a, b][1..] == [b];
    EndsWithAny1(s, b);
  }

  lemma EndsWithAny3(s: string, a: string, b: string, c: string)
    ensures EndsWithAny(s, [a, b, c]) <==> EndsWith(s, a) || EndsWith(s, b) || EndsWith(s, c)
  {
    assert [a, b, c][1..] == [b, c];
    EndsWithAny2(s, b, c);
  }

  lemma EndsWithAny5(s: string, a: string, b: string, c: string, d: string, e: string)
    ensures EndsWithAny(s, [a, b, c, d, e]) <==>
      EndsWith(s, a) || EndsWith(s, b) || EndsWith(s, c) || EndsWith(s, d) || EndsWith(s, e)
  {
    assert [a, b, c, d, e][1..] == [b, c, d, e];
    assert [b, c, d, e][1..] == [c, d, e];
    EndsWithAny3(s, c, d, e);
  }

  /** A `.csv` name is a spreadsheet whatever its case, unless the mime type
      already names an earlier kind. */
  lemma CsvIsSpreadsheet(mimeType: Option<string>, stem: string)
    requires !Contains(OrEmpty(mimeType), "pdf") && !Contains(OrEmpty(mimeType), "word")
    requires !Contains(OrEmpty(mimeType), "document")
    ensures FileLabelOf(mimeType, stem + ".csv") == XLS
    ensures FileLabelOf(mimeType, stem + ".CSV") == XLS
  {
    var a := Lower(stem + ".csv");
    var b := Lower(stem + ".CSV");
    assert a[|a| - 4..] == ".csv";
    assert b[|b| - 4..] == ".csv";
    CsvEnding(a);
    CsvEnding(b);
  }

  /** A name ending in ".csv" ends in none of the PDF and DOC endings. */
  lemma CsvEnding(a: string)
    requires |a| >= 4 && a[|a| - 4..] == ".csv"
    ensures EndsWith(a, ".csv")
    ensures !EndsWith(a, ".pdf") && !EndsWith(a, ".doc") && !EndsWith(a, ".docx")
  {
    assert a[|a| - 1] == 'v';
    assert a[|a| - 3] == 'c';
  }

  /** The rename handed to `onRename`. */
  datatype RenameCall = RenameCall(id: string, newName: string)

  /** `saveEditing` as a decision: a rename happens only for a truthy
      editing id, a name that is not blank and a present handler, and it
      carries the trimmed name. */
  function RenameOnSave(editingId: Option<string>, editName: string, canRename: bool): (r: Option<RenameCall>)
    ensures r.Some? <==> Truthy(editingId) && !AllSpace(editName) && canRename
    ensures r.Some? ==> r.value.id == editingId.value && r.value.newName == Trim(editName) && r.value.newName != ""
  {
    TrimSpec(editName);
    if Truthy(editingId) && Trim(editName) != "" && canRename
    then Some(RenameCall(editingId.value, Trim(editName)))
    else None
  }

  /** The grid's own state: which item is being renamed, and the text typed. */
  class Grid {
    var editingId: Option<string>
    var editName: string

    constructor ()
      ensures editingId == None && editName == ""
    {
      editingId := None;
      editName := "";
    }

    /** `startEditing`. */
    method StartEditing(item: DriveItem)
      modifies this
      ensures editingId == Some(item.id) && editName == item.name
    {
      editingId := Some(item.id);
      editName := item.name;
    }

    /** `cancelEditing`. */
    method CancelEditing()
      modifies this
      ensures editingId == None && editName == ""
    {
      editingId := None;
      editName := "";
    }

    /** Typing into the rename field. */
    method SetEditName(text: string)
      modifies this`editName
      ensures editName == text
    {
      editName := text;
    }

    /** `saveEditing`: possibly rename, and always leave the editor. */
    method SaveEditing(canRename: bool) returns (renamed: Option<RenameCall>)
      modifies this
      ensures renamed == RenameOnSave(old(editingId), old(editName), canRename)
      ensures editingId == None && editName == ""
    {
      renamed := None;
      if Truthy(editingId) && Trim(editName) != "" && canRename {
        renamed := Some(RenameCall(editingId.value, Trim(editName)));
      }
      editingId := None;
      editName := "";
    }

    /** A key pressed inside the rename field: Enter saves, Escape cancels,
        any other key only types (leaving the field, `onBlur`, is `SaveEditing`). */
    method HandleEditKey(key: EditKey, canRename: bool) returns (renamed: Option<RenameCall>)
      modifies this
      ensures key == EditEnter ==> renamed == RenameOnSave(old(editingId), old(editName), canRename)
      ensures key != EditEnter ==> renamed == None
      ensures key == EditOther ==> editingId == old(editingId) && editName == old(editName)
      ensures key != EditOther ==> editingId == None && editName == ""
    {
      renamed := None;
      if key == EditEnter {
        renamed := SaveEditing(canRename);
      } else if key == EditEscape {
        CancelEditing();
      }
    }

    /** `handleKeyDown(e, index)` on a rendered item. */
    method HandleKeyDown(key: Key, items: seq<DriveItem>, index: int, viewMode: ViewMode,
                         width: int, canRename: bool) returns (effect: KeyEffect)
      requires 0 <= index < |items|
      modifies this
      ensures effect == KeyEffectOf(key, items, index, Columns(viewMode, width), Truthy(old(editingId)), canRename)
      ensures effect.StartRename? ==> editingId == Some(effect.item.id) && editName == effect.item.name
      ensures !effect.StartRename? ==> editingId == old(editingId) && editName == old(editName)
    {
      effect := KeyEffectOf(key, items, index, Columns(viewMode, width), Truthy(editingId), canRename);
      if effect.StartRename? {
        StartEditing(effect.item);
      }
    }
  }
}
