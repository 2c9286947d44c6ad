/** The note editor (components/NoteEditor.tsx): the title and text it
    opens with, and the record its save button writes. */
module NoteEditor {
  import opened Types
  import opened JsStrings

  /** The title field on opening: the note's name with its first ".txt"
      removed, or empty for a new note. */
  function InitialTitle(initial: Option<DriveItem>): (t: string)
    ensures initial.None? ==> t == ""
    ensures initial.Some? && !Contains(initial.value.name, ".txt") ==> t == initial.value.name
    ensures initial.Some? && Contains(initial.value.name, ".txt") ==> |t| == |initial.value.name| - 4
    ensures initial.Some? && Contains(initial.value.name, ".txt") ==>
      var name := initial.value.name;
      exists k :: OccursAt(name, ".txt", k) && (forall j :: 0 <= j < k ==> !OccursAt(name, ".txt", j)) &&
        t == name[..k] + name[k + 4..]
  {
    match initial
    case None => ""
    case Some(item) => ReplaceFirst(item.name, ".txt", "")
  }

  /** The text area on opening: the note's content, or empty. */
  function InitialContent(initial: Option<DriveItem>): (c: string)
    ensures initial.Some? && initial.value.content.Some? ==> c == initial.value.content.value
    ensures initial.None? || initial.value.content.None? ==> c == ""
  {
    match initial
    case None => ""
    case Some(item) => OrEmpty(item.content)
  }

  /** The saved name: the title as typed, with ".txt" appended unless it
      already ends so. */
  function NoteName(title: string): (n: string)
    ensures EndsWith(n, ".txt")
    ensures EndsWith(title, ".txt") ==> n == title
    ensures !EndsWith(title, ".txt") ==> n == title + ".txt"
  {
    if EndsWith(title, ".txt") then title
    else
      assert (title + ".txt")[|title|..] == ".txt";
      title + ".txt"
  }

  /** Naming is idempotent. */
  lemma NoteNameIdempotent(title: string)
    ensures NoteName(NoteName(title)) == NoteName(title)
  {
  }

  /** A name whose only ".txt" is its ending survives opening and saving
      unchanged. */
  lemma ReopenedNameUnchanged(name: string, item: DriveItem)
    requires item.name == name && EndsWith(name, ".txt")
    requires forall j :: OccursAt(name, ".txt", j) ==> j == |name| - 4
    ensures NoteName(InitialTitle(Some(item))) == name
  {
    var k := |name| - 4;
    assert OccursAt(name, ".txt", k);
    var i := IndexOf(name, ".txt").value;
    assert i == k;
    var t := name[..k];
    assert InitialTitle(Some(item)) == t by {
      assert name[..k] + "" + name[k + 4..] == t;
    }
    assert !EndsWith(t, ".txt") by {
      assert EndsWith(t, ".txt") ==> OccursAt(name, ".txt", k - 4) by {
        if EndsWith(t, ".txt") {
          assert name[k - 4..k] == t[k - 4..];
        }
      }
    }
    assert t + ".txt" == name;
  }

  /** A doubled ending loses one ".txt" on the way through the editor. */
  lemma DoubledEndingShrinks(item: DriveItem)
    requires item.name == "a.txt.txt"
    ensures NoteName(InitialTitle(Some(item))) == "a.txt"
  {
    FirstTxtOfDoubled(item.name);
    TitleCutsAt(item, 1);
    var t := InitialTitle(Some(item));
    assert t == "a.txt" && EndsWith(t, ".txt");
  }

  /** In "a.txt.txt" the first ".txt" starts at 1. */
  lemma FirstTxtOfDoubled(name: string)
    requires name == "a.txt.txt"
    ensures OccursAt(name, ".txt", 1) && forall j :: 0 <= j < 1 ==> !OccursAt(name, ".txt", j)
    ensures name[..1] + name[5..] == "a.txt" && EndsWith(name[..1] + name[5..], ".txt")
  {
    assert name[1..5] == ".txt";
    assert name[0..4][0] == 'a';
  }

  /** The opening title cuts the name at its first ".txt", wherever that is. */
  lemma TitleCutsAt(item: DriveItem, k: int)
    requires OccursAt(item.name, ".txt", k) && forall j :: 0 <= j < k ==> !OccursAt(item.name, ".txt", j)
    ensures InitialTitle(Some(item)) == item.name[..k] + item.name[k + 4..]
  {
    var name := item.name;
    assert Contains(name, ".txt");
    var i := IndexOf(name, ".txt").value;
    assert i <= k;
    assert k <= i;
    assert InitialTitle(Some(item)) == name[..i] + "" + name[i + 4..];
  }

  /** `handleSave` as written: no record for a blank title; otherwise a NOTE
      named by `NoteName`, sized by the text's UTF-8 length, typed
      `text/plain`, keeping the edited note's id and flags (a new note takes
      `freshId` and clear flags) and written without a parent folder, a url
      or an owner, so an edited upload loses its data URL.
      `freshId` and `now` stand for `crypto.randomUUID()` and `Date.now()`. */
  function SaveNote(title: string, content: string, initial: Option<DriveItem>,
                    freshId: string, now: int): (r: Option<DriveItem>)
    ensures r.None? <==> AllSpace(title)
    ensures r.Some? ==>
      r.value.fileType == NOTE && r.value.name == NoteName(title) &&
      r.value.content == Some(content) && r.value.mimeType == Some("text/plain") &&
      r.value.size == Utf8Length(content) && r.value.createdAt == now && r.value.parentId == None &&
      r.value.url == None && r.value.ownerId == None
    ensures r.Some? && initial.Some? ==>
      r.value.id == initial.value.id && r.value.isFavorite == Some(IsFavorite(initial.value)) &&
      r.value.isDeleted == Some(IsDeleted(initial.value))
    ensures r.Some? && initial.None? ==>
      r.value.id == freshId && r.value.isFavorite == Some(false) && r.value.isDeleted == Some(false)
  {
    TrimSpec(title);
    if Trim(title) == "" then None
    else
      var id := match initial case Some(item) => item.id case None => freshId;
      var favorite := match initial case Some(item) => IsFavorite(item) case None => false;
      var deleted := match initial case Some(item) => IsDeleted(item) case None => false;
      Some(DriveItem(id, NoteName(title), NOTE, Utf8Length(content), now, Some(content), None,
                     Some("text/plain"), Some(favorite), Some(deleted), None, None))
  }

  /** Saving an edited note that lives in a folder moves it to the root. */
  lemma SaveNoteMovesEditedNoteToRoot(title: string, content: string, item: DriveItem,
                                      freshId: string, now: int)
    requires !AllSpace(title) && item.parentId.Some?
    ensures SaveNote(title, content, Some(item), freshId, now).value.parentId == None
    ensures SaveNote(title, content, Some(item), freshId, now).value.parentId != item.parentId
  {
  }

  /** The save that keeps an edited note in its folder: `SaveNote` with the
      edited note's `parentId` carried over. */
  function SaveNoteInPlace(title: string, content: string, initial: Option<DriveItem>,
                           freshId: string, now: int): (r: Option<DriveItem>)
    ensures r.None? <==> AllSpace(title)
    ensures r.Some? && initial.Some? ==> r.value.parentId == initial.value.parentId
    ensures r.Some? && initial.None? ==> r.value.parentId == None
    ensures r.Some? ==> r.value.(parentId := None) == SaveNote(title, content, initial, freshId, now).value
  {
    match SaveNote(title, content, initial, freshId, now)
    case None => None
    case Some(note) =>
      Some(note.(parentId := match initial case Some(item) => item.parentId case None => None))
  }

  /** With the corrected save, editing changes neither the note's id nor its
      folder nor its flags, so the note stays where it was listed. */
  lemma EditKeepsPlace(title: string, content: string, item: DriveItem, freshId: string, now: int)
    requires !AllSpace(title)
    ensures var r := SaveNoteInPlace(title, content, Some(item), freshId, now).value;
      r.id == item.id && r.parentId == item.parentId &&
      IsFavorite(r) == IsFavorite(item) && IsDeleted(r) == IsDeleted(item)
  {
  }
}
