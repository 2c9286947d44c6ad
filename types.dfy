/** The shared record and enumeration types of the drive (types.ts).
    TypeScript's optional fields become `Option`, and JavaScript's truthiness
    tests on them are written out as predicates, because several rules of the
    application hinge on them (an empty string is falsy, an absent flag is false). */
module Types {

  datatype Option<+T> = None | Some(value: T)

  /** The closed tag set of item kinds. */
  datatype FileType = IMAGE | NOTE | FILE | FOLDER

  /** The only persisted entity. `parentId` collapses `null` and `undefined`
      into `None`: both mean "at the root". */
  datatype DriveItem = DriveItem(
    id: string,
    name: string,
    fileType: FileType,
    size: int,
    createdAt: int,
    content: Option<string>,
    url: Option<string>,
    mimeType: Option<string>,
    isFavorite: Option<bool>,
    isDeleted: Option<bool>,
    ownerId: Option<string>,
    parentId: Option<string>)

  datatype User = User(id: string, username: string, password: Option<string>)

  datatype ViewMode = GRID | LIST

  datatype FilterType = ALL | IMAGES | NOTES | FAVORITES | TRASH

  datatype StorageStats = StorageStats(used: int, total: int)

  /** JavaScript truthiness of an optional flag: only a present `true` is truthy. */
  predicate Flag(b: Option<bool>) {
    b == Some(true)
  }

  /** JavaScript truthiness of an optional string: present and non-empty. */
  predicate Truthy(s: Option<string>) {
    s.Some? && s.value != ""
  }

  /** `item.isDeleted`, read the way every consumer reads it. */
  predicate IsDeleted(item: DriveItem) {
    Flag(item.isDeleted)
  }

  /** `item.isFavorite`, read the way every consumer reads it. */
  predicate IsFavorite(item: DriveItem) {
    Flag(item.isFavorite)
  }

  /** The optional string with `undefined` read as the empty string (`x || ''`). */
  function OrEmpty(s: Option<string>): string {
    match s
    case Some(v) => v
    case None => ""
  }
}
