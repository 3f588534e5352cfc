// The file manager's right-click menu of
// packages/frontend/src/composables/file-manager/useFileManagerContextMenu.ts:
// how a right click changes the selection, which entries the menu gets and
// which of them are disabled, and the SFTP instance id sent with it. Labels
// are the commands they stand for; callbacks are left to the receiver.
module FileContextMenu {
  import opened Wrappers
  import opened Strings

  // ----------------------------------------------------------- archives

  function LowerChar(c: char): char
  {
    if 'A' <= c <= 'Z' then (c as int - 'A' as int + 'a' as int) as char else c
  }

  /** `toLowerCase` on ASCII letters. */
  function Lower(s: string): (r: string)
    ensures |r| == |s|
    ensures forall i | 0 <= i < |s| :: r[i] == LowerChar(s[i])
  {
    seq(|s|, i requires 0 <= i < |s| => LowerChar(s[i]))
  }

  const ArchiveExtensions: seq<string> := [".zip", ".tar.gz", ".tgz", ".tar.bz2", ".tbz2"]

  /** isSupportedArchive (useFileManagerContextMenu.ts:56-60). */
  predicate IsSupportedArchive(filename: string)
  {
    exists i | 0 <= i < |ArchiveExtensions| :: EndsWith(Lower(filename), ArchiveExtensions[i])
  }

  /**
   * The check ignores letter case, and any name ending in one of the five
   * extensions, in any case, is an archive.
   */
  lemma ArchiveIgnoresCase(filename: string, stem: string, i: nat)
    requires i < |ArchiveExtensions|
    ensures IsSupportedArchive(Lower(filename)) == IsSupportedArchive(filename)
    ensures IsSupportedArchive(stem + ArchiveExtensions[i])
  {
    assert Lower(Lower(filename)) == Lower(filename);
    var ext := ArchiveExtensions[i];
    var name := stem + ext;
    assert Lower(ext) == ext;
    assert Lower(name)[|name| - |ext|..] == Lower(ext);
    assert EndsWith(Lower(name), ext);
  }

  // ---------------------------------------------------------- the list

  datatype FileItem = FileItem(filename: string, isFile: bool, isDirectory: bool)

  /** `fileList.findIndex(f => f.filename === name)`, -1 when absent. */
  function FindIndex(fileList: seq<FileItem>, name: string): (r: int)
    ensures -1 <= r < |fileList|
    ensures r >= 0 ==> fileList[r].filename == name && forall j | 0 <= j < r :: fileList[j].filename != name
    ensures r == -1 <==> forall j | 0 <= j < |fileList| :: fileList[j].filename != name
    decreases |fileList|
  {
    if fileList == [] then -1
    else if fileList[0].filename == name then 0
    else
      var r := FindIndex(fileList[1..], name);
      if r == -1 then -1 else r + 1
  }

  /** `fileList.find(f => f.filename === name)`. */
  function Find(fileList: seq<FileItem>, name: string): (r: Option<FileItem>)
    ensures r.Some? <==> FindIndex(fileList, name) >= 0
    ensures r.Some? ==> r.value == fileList[FindIndex(fileList, name)]
  {
    var i := FindIndex(fileList, name);
    if i >= 0 then Some(fileList[i]) else None
  }

  /** `Array.from(selected).map(find).filter(Boolean)`: the selected items still in the list, in selection order. */
  function Resolve(fileList: seq<FileItem>, names: seq<string>): seq<FileItem>
    decreases |names|
  {
    if names == [] then []
    else
      var rest := Resolve(fileList, names[1..]);
      match Find(fileList, names[0])
      case Some(f) => [f] + rest
      case None => rest
  }

  /** The multi-download condition of useFileManagerContextMenu.ts:118. */
  predicate AllFilesResolved(fileList: seq<FileItem>, names: seq<string>)
  {
    var items := Resolve(fileList, names);
    |items| == |names| && forall i | 0 <= i < |items| :: items[i].isFile
  }

  /** Every selected name is in the list, and the first item of that name is a file. */
  predicate EverySelectedIsFile(fileList: seq<FileItem>, names: seq<string>)
  {
    forall n | n in names :: Find(fileList, n).Some? && Find(fileList, n).value.isFile
  }

  /** The condition as written is the same as: every selected name resolves to a file. */
  lemma {:induction false} AllFilesResolvedMeaning(fileList: seq<FileItem>, names: seq<string>)
    ensures AllFilesResolved(fileList, names) <==> EverySelectedIsFile(fileList, names)
    ensures |Resolve(fileList, names)| <= |names|
    decreases |names|
  {
    if names != [] {
      AllFilesResolvedMeaning(fileList, names[1..]);
      var rest := Resolve(fileList, names[1..]);
      var f := Find(fileList, names[0]);
      if f.Some? {
        assert Resolve(fileList, names) == [f.value] + rest;
        if EverySelectedIsFile(fileList, names) {
          assert EverySelectedIsFile(fileList, names[1..]) by {
            forall n | n in names[1..] ensures n in names { }
          }
          assert AllFilesResolved(fileList, names[1..]);
          forall i | 0 <= i < |[f.value] + rest|
            ensures ([f.value] + rest)[i].isFile
          {
            if i > 0 {
              assert ([f.value] + rest)[i] == rest[i - 1];
            }
          }
        }
        if AllFilesResolved(fileList, names) {
          assert ([f.value] + rest)[0].isFile;
          assert AllFilesResolved(fileList, names[1..]) by {
            forall i | 0 <= i < |rest|
              ensures rest[i].isFile
            {
              assert rest[i] == ([f.value] + rest)[i + 1];
            }
          }
          forall n | n in names
            ensures Find(fileList, n).Some? && Find(fileList, n).value.isFile
          {
            if n != names[0] {
              assert n in names[1..];
            }
          }
        }
      } else {
        assert names[0] in names;
      }
    }
  }

  // ------------------------------------------------------------ the menu

  datatype Command =
    | Cut | Copy | DownloadMultiple(count: nat) | Compress | CompressZip | CompressTarGz | CompressTarBz2
    | Separator | DeleteMultiple(count: nat) | Refresh | Download(name: string) | DownloadFolder(name: string)
    | Paste | Delete | Rename | Decompress | NewFolder | NewFile | Upload | ChangePermissions

  /** A menu entry: `disabled` undefined is false; only the compress entry has a submenu. */
  datatype MenuItem = MenuItem(command: Command, disabled: bool, submenu: seq<MenuItem>)

  predicate Has(menu: seq<MenuItem>, c: Command)
  {
    exists i | 0 <= i < |menu| :: menu[i].command == c
  }

  predicate HasMultiDownload(menu: seq<MenuItem>)
  {
    exists i | 0 <= i < |menu| :: menu[i].command.DownloadMultiple?
  }

  function Entry(c: Command, disabled: bool): MenuItem
  {
    MenuItem(c, disabled, [])
  }

  function CompressEntry(disabled: bool): MenuItem
  {
    MenuItem(Compress, false, [Entry(CompressZip, disabled), Entry(CompressTarGz, disabled), Entry(CompressTarBz2, disabled)])
  }

  /** The right-clicked item is one of several selected ones. */
  predicate IsMultiTarget(selected: seq<string>, target: Option<FileItem>)
  {
    |selected| > 1 && target.Some? && target.value.filename in selected
  }

  /**
   * What the menu promises: the multi-item menu offers a multi-download
   * exactly when every selected item is a file; the single-item menu offers
   * decompress exactly when connected, SFTP is ready and the item is a file
   * with an archive extension; '..' gets exactly paste and refresh, the
   * background its five entries; paste is disabled exactly when the
   * clipboard is empty or the connection is not ready; and when it is not
   * ready, everything that can be clicked is disabled.
   */
  ghost predicate MenuRules(fileList: seq<FileItem>, selected: seq<string>, target: Option<FileItem>,
                            connected: bool, sftpReady: bool, hasClipboard: bool, menu: seq<MenuItem>)
  {
    var ready := connected && sftpReady;
    var multi := IsMultiTarget(selected, target);
    && (multi ==> (HasMultiDownload(menu) <==> EverySelectedIsFile(fileList, selected)))
    && (!multi ==> !HasMultiDownload(menu))
    && (!multi && target.Some? && target.value.filename != ".." ==>
          (Has(menu, Decompress) <==> ready && target.value.isFile && IsSupportedArchive(target.value.filename)))
    && (multi || target.None? || target.value.filename == ".." ==> !Has(menu, Decompress))
    && (!multi && target.Some? && target.value.filename == ".." ==>
          menu == [Entry(Paste, !ready || !hasClipboard), Entry(Refresh, !ready)])
    && (target.None? ==>
          menu == [Entry(Paste, !ready || !hasClipboard), Entry(NewFolder, !ready), Entry(NewFile, !ready),
                   Entry(Upload, !ready), Entry(Refresh, !ready)])
    && (forall i | 0 <= i < |menu| && menu[i].command == Paste :: menu[i].disabled == (!ready || !hasClipboard))
    && (!ready ==> forall i | 0 <= i < |menu| ::
          menu[i].disabled || (menu[i].command == Compress && forall j | 0 <= j < |menu[i].submenu| :: menu[i].submenu[j].disabled))
  }

  /** The multi-item menu (useFileManagerContextMenu.ts:117-138). */
  method MultiMenu(fileList: seq<FileItem>, selected: seq<string>, ready: bool) returns (menu: seq<MenuItem>)
    ensures HasMultiDownload(menu) <==> EverySelectedIsFile(fileList, selected)
    ensures !Has(menu, Decompress) && !Has(menu, Paste)
    ensures !ready ==> forall i | 0 <= i < |menu| ::
      menu[i].disabled || (menu[i].command == Compress && forall j | 0 <= j < |menu[i].submenu| :: menu[i].submenu[j].disabled)
  {
    AllFilesResolvedMeaning(fileList, selected);
    var allFilesSelected := AllFilesResolved(fileList, selected);
    menu := [Entry(Cut, !ready), Entry(Copy, !ready)];
    if allFilesSelected {
      menu := menu + [Entry(DownloadMultiple(|selected|), !ready)];
    }
    menu := menu + [CompressEntry(!ready)];
    menu := menu + [Entry(Separator, true)];
    menu := menu + [Entry(DeleteMultiple(|selected|), !ready), Entry(Refresh, !ready)];
    if allFilesSelected {
      assert menu[2].command.DownloadMultiple?;
    }
  }

  /** Paste follows the clipboard and the connection, nothing offers a multi-download, and nothing clickable is enabled when not ready. */
  ghost predicate SingleTargetRules(menu: seq<MenuItem>, ready: bool, hasClipboard: bool)
  {
    && !HasMultiDownload(menu)
    && (forall i | 0 <= i < |menu| && menu[i].command == Paste :: menu[i].disabled == (!ready || !hasClipboard))
    && (!ready ==> forall i | 0 <= i < |menu| ::
          menu[i].disabled || (menu[i].command == Compress && forall j | 0 <= j < |menu[i].submenu| :: menu[i].submenu[j].disabled))
  }

  lemma ConcatRules(a: seq<MenuItem>, b: seq<MenuItem>, ready: bool, hasClipboard: bool)
    requires SingleTargetRules(a, ready, hasClipboard) && SingleTargetRules(b, ready, hasClipboard)
    ensures SingleTargetRules(a + b, ready, hasClipboard)
    ensures Has(a + b, Decompress) <==> Has(a, Decompress) || Has(b, Decompress)
  {
    if Has(a + b, Decompress) {
      var i :| 0 <= i < |a + b| && (a + b)[i].command == Decompress;
      if i >= |a| {
        assert b[i - |a|].command == Decompress;
      }
    }
    if Has(a, Decompress) {
      var i :| 0 <= i < |a| && a[i].command == Decompress;
      assert (a + b)[i].command == Decompress;
    }
    if Has(b, Decompress) {
      var i :| 0 <= i < |b| && b[i].command == Decompress;
      assert (a + b)[|a| + i].command == Decompress;
    }
    forall i | 0 <= i < |a + b|
      ensures !(a + b)[i].command.DownloadMultiple?
    {
      if i >= |a| {
        assert (a + b)[i] == b[i - |a|];
      }
    }
  }

  /** The download, cut, copy and paste entries of an item (useFileManagerContextMenu.ts:141-150). */
  method ItemMenuHead(target: FileItem, ready: bool, hasClipboard: bool) returns (menu: seq<MenuItem>)
    ensures SingleTargetRules(menu, ready, hasClipboard) && !Has(menu, Decompress)
  {
    menu := [];
    if target.isFile {
      menu := menu + [Entry(Download(target.filename), !ready)];
    } else if target.isDirectory {
      menu := menu + [Entry(DownloadFolder(target.filename), !ready)];
    }
    menu := menu + [Entry(Cut, !ready)];
    menu := menu + [Entry(Copy, !ready)];
    if target.isDirectory {
      menu := menu + [Entry(Paste, !ready || !hasClipboard)];
    }
  }

  /** The menu of one item other than '..' (useFileManagerContextMenu.ts:139-173). */
  method ItemMenu(target: FileItem, ready: bool, hasClipboard: bool) returns (menu: seq<MenuItem>)
    ensures Has(menu, Decompress) <==> ready && target.isFile && IsSupportedArchive(target.filename)
    ensures SingleTargetRules(menu, ready, hasClipboard)
  {
    var head := ItemMenuHead(target, ready, hasClipboard);
    var edit := [Entry(Separator, true), Entry(Delete, !ready), Entry(Rename, !ready), Entry(Separator, true)];
    var canCompress := ready;
    var canDecompress := ready && target.isFile && IsSupportedArchive(target.filename);
    var archive := [CompressEntry(!canCompress)];
    if canDecompress {
      archive := archive + [Entry(Decompress, false)];
      assert archive[1].command == Decompress;
    }
    var create := [Entry(Separator, true), Entry(NewFolder, !ready), Entry(NewFile, !ready),
                   Entry(Upload, !ready), Entry(ChangePermissions, !ready), Entry(Refresh, !ready)];
    assert !Has(edit, Decompress) && !Has(create, Decompress);
    ConcatRules(head, edit, ready, hasClipboard);
    ConcatRules(head + edit, archive, ready, hasClipboard);
    ConcatRules(head + edit + archive, create, ready, hasClipboard);
    menu := head + edit + archive + create;
  }

  /** The menu of showContextMenu (useFileManagerContextMenu.ts:107-187), for the selection after the click. */
  method BuildMenu(fileList: seq<FileItem>, selected: seq<string>, target: Option<FileItem>,
                   connected: bool, sftpReady: bool, hasClipboard: bool) returns (menu: seq<MenuItem>)
    ensures MenuRules(fileList, selected, target, connected, sftpReady, hasClipboard, menu)
  {
    var ready := connected && sftpReady;
    if IsMultiTarget(selected, target) {
      menu := MultiMenu(fileList, selected, ready);
    } else if target.Some? && target.value.filename != ".." {
      menu := ItemMenu(target.value, ready, hasClipboard);
    } else if target.None? {
      menu := [Entry(Paste, !ready || !hasClipboard), Entry(NewFolder, !ready), Entry(NewFile, !ready),
               Entry(Upload, !ready), Entry(Refresh, !ready)];
    } else {
      menu := [Entry(Paste, !ready || !hasClipboard), Entry(Refresh, !ready)];
    }
  }

  // --------------------------------------------------- the instance id

  /** What `getActiveConnectionId()` returns. */
  datatype RawConnectionId = Absent | NumberId(n: int) | StringId(s: string)

  /** sftpInstanceId (useFileManagerContextMenu.ts:189-190): `String(id)`, or undefined for null and undefined. */
  function SftpInstanceId(raw: RawConnectionId): Option<string>
  {
    match raw
    case Absent => None
    case NumberId(n) => Some(IntToString(n))
    case StringId(s) => Some(s)
  }

  /** The id is absent only when the connection id is, and a numeric id reads back as the same number. */
  lemma SftpInstanceIdMeaning(raw: RawConnectionId)
    ensures SftpInstanceId(raw).None? <==> raw.Absent?
    ensures raw.NumberId? ==> ParseInt(SftpInstanceId(raw).value) == Some(raw.n)
    ensures raw.StringId? ==> SftpInstanceId(raw) == Some(raw.s)
  {
    if raw.NumberId? {
      ParseIntOfIntToString(raw.n);
    }
  }

  // ------------------------------------------------------ the selection

  /** What showContextMenu hands to the workspace. */
  datatype MenuPayload = MenuPayload(items: seq<MenuItem>, activeContextItem: Option<FileItem>,
                                     selectedFileItems: seq<FileItem>, currentDirectoryPath: string,
                                     sftpInstanceId: Option<string>)

  /** The file manager's selection, in the order names were added, and the menu requests it emitted. */
  class FileSelection {
    var selected: seq<string>
    var lastClickedIndex: int
    var emitted: seq<MenuPayload>

    /** The selection is a set of names: no name appears twice. */
    ghost predicate Valid()
      reads this
    {
      forall i, j | 0 <= i < j < |selected| :: selected[i] != selected[j]
    }

    constructor ()
      ensures Valid()
      ensures selected == [] && lastClickedIndex == -1 && emitted == []
    {
      selected := [];
      lastClickedIndex := -1;
      emitted := [];
    }

    /**
     * The selection change of a right click (useFileManagerContextMenu.ts:97-105):
     * an unselected item clicked without ctrl, meta or shift becomes the
     * only selected one and the anchor for range selection; a click on the
     * background clears the selection; anything else leaves it.
     */
    method AdjustSelection(fileList: seq<FileItem>, target: Option<FileItem>, ctrlKey: bool, metaKey: bool, shiftKey: bool)
      requires Valid()
      modifies this`selected, this`lastClickedIndex
      ensures Valid()
      ensures target.Some? && !ctrlKey && !metaKey && !shiftKey && target.value.filename !in old(selected) ==>
        selected == [target.value.filename] && lastClickedIndex == FindIndex(fileList, target.value.filename)
      ensures target.None? ==> selected == [] && lastClickedIndex == -1
      ensures target.Some? && (ctrlKey || metaKey || shiftKey || target.value.filename in old(selected)) ==>
        selected == old(selected) && lastClickedIndex == old(lastClickedIndex)
    {
      if target.Some? && !ctrlKey && !metaKey && !shiftKey && target.value.filename !in selected {
        selected := [];
        selected := selected + [target.value.filename];
        var index := FindIndex(fileList, target.value.filename);
        lastClickedIndex := index;
      } else if target.None? {
        selected := [];
        lastClickedIndex := -1;
      }
    }

    /** showContextMenu (useFileManagerContextMenu.ts:92-204): adjust the selection, build the menu, emit it. */
    method ShowContextMenu(fileList: seq<FileItem>, target: Option<FileItem>, ctrlKey: bool, metaKey: bool, shiftKey: bool,
                           connected: bool, sftpReady: bool, hasClipboard: bool, currentPath: string, activeId: RawConnectionId)
      returns (payload: MenuPayload)
      requires Valid()
      modifies this`selected, this`lastClickedIndex, this`emitted
      ensures Valid()
      ensures MenuRules(fileList, selected, target, connected, sftpReady, hasClipboard, payload.items)
      ensures payload.activeContextItem == target && payload.currentDirectoryPath == currentPath
      ensures payload.selectedFileItems == Resolve(fileList, selected)
      ensures payload.sftpInstanceId == SftpInstanceId(activeId)
      ensures emitted == old(emitted) + [payload]
      ensures target.Some? && !ctrlKey && !metaKey && !shiftKey && target.value.filename !in old(selected) ==>
        selected == [target.value.filename] && lastClickedIndex == FindIndex(fileList, target.value.filename)
      ensures target.None? ==> selected == [] && lastClickedIndex == -1
      ensures target.Some? && (ctrlKey || metaKey || shiftKey || target.value.filename in old(selected)) ==>
        selected == old(selected) && lastClickedIndex == old(lastClickedIndex)
    {
      AdjustSelection(fileList, target, ctrlKey, metaKey, shiftKey);
      var menu := BuildMenu(fileList, selected, target, connected, sftpReady, hasClipboard);
      var currentSelectedFileItems := Resolve(fileList, selected);
      var sftpInstanceId := SftpInstanceId(activeId);
      payload := MenuPayload(menu, target, currentSelectedFileItems, currentPath, sftpInstanceId);
      emitted := emitted + [payload];
    }
  }
}
