/** Mail-folder resolution by display name (graph/folder_id.py). The two
    folder listings the code fetches are parameters; a fetch that raised is
    an Err carrying its message. */
module FolderId {
  import opened Common

  datatype Folder = Folder(displayName: string, id: string)

  /** Position of the first folder whose display name equals name exactly. */
  function FirstMatch(folders: seq<Folder>, name: string): (r: Option<nat>)
    ensures r.Some? ==> r.value < |folders| && folders[r.value].displayName == name
    ensures r.Some? ==> forall j :: 0 <= j < r.value ==> folders[j].displayName != name
    ensures r.None? ==> forall j :: 0 <= j < |folders| ==> folders[j].displayName != name
  {
    if |folders| == 0 then None
    else if folders[0].displayName == name then Some(0)
    else
      match FirstMatch(folders[1..], name)
      case Some(i) => Some(i + 1)
      case None => None
  }

  function NotFoundMessage(name: string): string {
    "Folder '" + name + "' not found"
  }

  /** get_folder_id: the first exact match among the top-level folders,
      else the first among the inbox's child folders (fetched only then),
      else RuntimeError; a failed fetch is re-raised. */
  function GetFolderId(topLevel: Result<seq<Folder>>, inboxChildren: Result<seq<Folder>>, name: string): (r: Result<string>)
    ensures topLevel.Err? ==> r == Err(topLevel.message)
    ensures topLevel.Ok? && FirstMatch(topLevel.value, name).Some? ==>
      r == Ok(topLevel.value[FirstMatch(topLevel.value, name).value].id)
    ensures topLevel.Ok? && FirstMatch(topLevel.value, name).None? && inboxChildren.Err? ==>
      r == Err(inboxChildren.message)
    ensures topLevel.Ok? && FirstMatch(topLevel.value, name).None? && inboxChildren.Ok? &&
            FirstMatch(inboxChildren.value, name).Some? ==>
      r == Ok(inboxChildren.value[FirstMatch(inboxChildren.value, name).value].id)
    ensures r.Ok? ==>
      (exists i :: 0 <= i < |topLevel.value| && topLevel.value[i].displayName == name && topLevel.value[i].id == r.value) ||
      (inboxChildren.Ok? && exists i :: 0 <= i < |inboxChildren.value| && inboxChildren.value[i].displayName == name && inboxChildren.value[i].id == r.value)
    ensures r.Err? && topLevel.Ok? && inboxChildren.Ok? ==>
      r.message == NotFoundMessage(name) &&
      (forall i :: 0 <= i < |topLevel.value| ==> topLevel.value[i].displayName != name) &&
      (forall i :: 0 <= i < |inboxChildren.value| ==> inboxChildren.value[i].displayName != name)
  {
    match topLevel
    case Err(m) => Err(m)
    case Ok(folders) =>
      match FirstMatch(folders, name)
      case Some(i) => Ok(folders[i].id)
      case None =>
        match inboxChildren
        case Err(m) => Err(m)
        case Ok(children) =>
          match FirstMatch(children, name)
          case Some(i) => Ok(children[i].id)
          case None => Err(NotFoundMessage(name))
  }

  /** The inbox's child folders are consulted only when no top-level folder
      matches: with a top-level match, neither their content nor a failure
      to fetch them changes the answer. */
  lemma ChildrenOnlyOnMiss(top: seq<Folder>, children1: Result<seq<Folder>>, children2: Result<seq<Folder>>, name: string)
    requires exists i :: 0 <= i < |top| && top[i].displayName == name
    ensures GetFolderId(Ok(top), children1, name) == GetFolderId(Ok(top), children2, name)
    ensures GetFolderId(Ok(top), children1, name).Ok?
  {
  }

  /** The comparison is case-sensitive: "inbox" does not find "Inbox". */
  lemma CaseSensitive()
    ensures GetFolderId(Ok([Folder("Inbox", "A1")]), Ok([]), "inbox") == Err(NotFoundMessage("inbox"))
    ensures GetFolderId(Ok([Folder("Inbox", "A1")]), Ok([]), "Inbox") == Ok("A1")
  {
    assert "Inbox" != "inbox" by { assert "Inbox"[0] != "inbox"[0]; }
  }

  /** Two top-level folders with the same name: the first one listed wins. */
  lemma FirstListedWins(a: string, b: string, name: string, children: Result<seq<Folder>>)
    ensures GetFolderId(Ok([Folder(name, a), Folder(name, b)]), children, name) == Ok(a)
  {
  }
}
