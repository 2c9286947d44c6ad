/** The new-folder dialog (components/CreateFolderModal.tsx): one text
    field, submitted trimmed, and a Create button disabled while the field
    is blank. */
module CreateFolderModal {
  import opened Types
  import opened JsStrings

  /** The name `handleSubmit` hands to `onCreate`, if any: the trimmed field,
      and nothing for a blank field. */
  function SubmittedName(folderName: string): (r: Option<string>)
    ensures r.None? <==> AllSpace(folderName)
    ensures r.Some? ==> r.value == Trim(folderName) && r.value != ""
    ensures r.Some? ==> !IsSpace(r.value[0]) && !IsSpace(r.value[|r.value| - 1])
  {
    TrimSpec(folderName);
    if Trim(folderName) != "" then Some(Trim(folderName)) else None
  }

  /** The Create button's `disabled`. */
  function CreateDisabled(folderName: string): (d: bool)
    ensures d <==> AllSpace(folderName)
  {
    TrimSpec(folderName);
    Trim(folderName) == ""
  }

  /** The button is disabled exactly when submitting would do nothing, and
      submitting twice (typing the submitted name back) gives the same name. */
  lemma DisabledIffNothingSubmitted(folderName: string)
    ensures CreateDisabled(folderName) <==> SubmittedName(folderName).None?
    ensures SubmittedName(folderName).Some? ==>
      SubmittedName(SubmittedName(folderName).value) == SubmittedName(folderName)
  {
    if SubmittedName(folderName).Some? {
      TrimIdempotent(folderName);
    }
  }

  /** The dialog component on its own. `isOpen` is the `isOpen` prop as the
      dialog receives it: the application owns that flag (it is
      `App.Drive.isCreateFolderModalOpen`) and passes it down, so this class
      models the component as if it received its prop once and then tracked
      its own `onClose` calls. */
  class Dialog {
    /** The text field. */
    var folderName: string
    /** The `isOpen` prop, which the dialog's `onClose` clears. */
    var isOpen: bool

    constructor ()
      ensures folderName == "" && !isOpen
    {
      folderName := "";
      isOpen := false;
    }

    method Show()
      modifies this`isOpen
      ensures isOpen
    {
      isOpen := true;
    }

    /** Typing into the field. */
    method SetFolderName(text: string)
      modifies this`folderName
      ensures folderName == text
    {
      folderName := text;
    }

    /** The Cancel and close buttons: `onClose`; the field keeps its text. */
    method Close()
      modifies this`isOpen
      ensures !isOpen
    {
      isOpen := false;
    }

    /** `handleSubmit`: for a field that is not blank, hand over the trimmed
        name, clear the field and close; for a blank one change nothing. */
    method HandleSubmit() returns (created: Option<string>)
      modifies this
      ensures created == SubmittedName(old(folderName))
      ensures created.Some? ==> folderName == "" && !isOpen
      ensures created.None? ==> folderName == old(folderName) && isOpen == old(isOpen)
    {
      created := None;
      var trimmed := Trim(folderName);
      if trimmed != "" {
        created := Some(trimmed);
        folderName := "";
        isOpen := false;
      }
    }
  }
}
