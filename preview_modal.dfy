/** The preview dialog's rules (components/PreviewModal.tsx): which items
    count as text, which the dialog renders at all, and which string it
    shows for a text item. */
module PreviewModal {
  import opened Types
  import opened JsStrings

  /** `isTextFile`: notes, text-like mime types and text-like names, with
      name and mime compared lower-cased. */
  function IsTextFile(item: DriveItem): (r: bool)
    ensures item.fileType == NOTE ==> r
  {
    var name := Lower(item.name);
    var mime := Lower(OrEmpty(item.mimeType));
    item.fileType == NOTE ||
    Contains(mime, "text") ||
    Contains(mime, "json") ||
    Contains(mime, "javascript") ||
    Contains(mime, "xml") ||
    EndsWith(name, ".txt") ||
    EndsWith(name, ".md") ||
    EndsWith(name, ".json") ||
    EndsWith(name, ".js") ||
    EndsWith(name, ".ts") ||
    EndsWith(name, ".css") ||
    EndsWith(name, ".html") ||
    EndsWith(name, ".xml") ||
    EndsWith(name, ".csv")
  }

  /** The text test does not see the case of the name or of the mime type. */
  lemma TextTestIgnoresCase(item: DriveItem)
    ensures IsTextFile(item.(name := Lower(item.name))) == IsTextFile(item)
    ensures item.mimeType.Some? ==>
      IsTextFile(item.(mimeType := Some(Lower(item.mimeType.value)))) == IsTextFile(item)
  {
    LowerIsLower(item.name);
    if item.mimeType.Some? {
      LowerIsLower(item.mimeType.value);
    }
  }

  /** `isPdf` of the dialog. */
  predicate IsPdf(item: DriveItem) {
    Contains(OrEmpty(item.mimeType), "pdf") || EndsWith(Lower(item.name), ".pdf")
  }

  /** The dialog renders something only for a PDF, an image or a text item. */
  function Renders(item: Option<DriveItem>): (r: bool)
    ensures r ==> item.Some?
    ensures item.Some? && item.value.fileType == IMAGE ==> r
    ensures item.Some? && item.value.fileType == NOTE ==> r
  {
    match item
    case None => false
    case Some(it) => IsPdf(it) || it.fileType == IMAGE || IsTextFile(it)
  }

  /** The string the dialog's effect stores for `item`, given what it held
      before and the decoder `decodeURIComponent(escape(atob(…)))`
      (`None` when the decoder throws). A text item with neither content
      nor url does not call `setTextContent`, so the previous string stays. */
  function TextContent(item: Option<DriveItem>, previous: Option<string>,
                       decode: string -> Option<string>): (r: Option<string>)
    ensures item.None? || !IsTextFile(item.value) ==> r == None
    ensures r.Some? && r != previous ==> item.Some? && IsTextFile(item.value)
    ensures item.Some? && IsTextFile(item.value) && Truthy(item.value.content) ==> r == item.value.content
  {
    if item.Some? && IsTextFile(item.value) then
      var it := item.value;
      if Truthy(it.content) then it.content
      else if Truthy(it.url) then
        var payload := SecondField(it.url.value);
        if Truthy(payload) then
          match decode(payload.value)
          case Some(text) => Some(text)
          case None => Some("Error displaying file content. Try downloading it.")
        else Some("No content available.")
      else previous
    else None
  }

  /** Inline content wins over the url: with content present, the url
      (and the decoder) make no difference. */
  lemma ContentTakesPrecedence(item: DriveItem, otherUrl: Option<string>, previous: Option<string>,
                               decode: string -> Option<string>, decode2: string -> Option<string>)
    requires IsTextFile(item) && Truthy(item.content)
    ensures TextContent(Some(item.(url := otherUrl)), previous, decode2) == TextContent(Some(item), previous, decode)
  {
  }

  /** A url with no comma, or with nothing after its first comma, shows the
      fixed "No content available." message, whatever the decoder does. */
  lemma MissingPayloadMessage(item: DriveItem, prefix: string, previous: Option<string>,
                              decode: string -> Option<string>)
    requires IsTextFile(item) && !Truthy(item.content) && !Contains(prefix, ",")
    requires item.url == Some(prefix + ",") || (item.url == Some(prefix) && prefix != "")
    ensures TextContent(Some(item), previous, decode) == Some("No content available.")
  {
    if item.url == Some(prefix + ",") {
      SecondFieldOfTrailingComma(prefix);
    }
  }
}
