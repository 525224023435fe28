/** Connection records and the construction of the connection list
    (src/connection/connection.rs). */
module Connections {
  import opened Wrappers

  /** One VPN profile: its display title, the path of its configuration
      file, and whether it is the entry the operator confirmed. */
  datatype Connection = Connection(title: string, path: string, selected: bool)

  /** The row the list widget draws for a connection; only its text is modelled. */
  datatype ListItem = ListItem(text: string)

  /** A profile file found in the VPN directory (src/connection/files.rs). */
  datatype VpnFile = VpnFile(path: string, title: string)

  /** The connections together with the list widget's cursor (the selection
      of ratatui's `ListState`). */
  datatype ConnectionList = ConnectionList(items: seq<Connection>, cursor: Option<nat>)

  /** The cursor is either absent or points at one of `n` items. */
  predicate CursorInRange(cursor: Option<nat>, n: nat) {
    cursor.None? || cursor.value < n
  }

  /** The invariant every handler relies on: indexing `items` by the cursor
      never goes out of bounds. */
  predicate Valid(list: ConnectionList) {
    CursorInRange(list.cursor, |list.items|)
  }

  /** Two item sequences hold the same profiles in the same order; only
      the `selected` flags may differ. */
  predicate SameEntries(a: seq<Connection>, b: seq<Connection>) {
    && |a| == |b|
    && forall i :: 0 <= i < |a| ==> a[i].title == b[i].title && a[i].path == b[i].path
  }

  /** `Connection::new`: a record holding exactly the given fields. */
  function NewConnection(selected: bool, title: string, path: string): (c: Connection)
    ensures c.selected == selected && c.title == title && c.path == path
  {
    Connection(title, path, selected)
  }

  /** `Connection::to_list_item`: the row shows the title. */
  function ToListItem(c: Connection): (item: ListItem)
    ensures item.text == c.title
  {
    ListItem(c.title)
  }

  /** `Connection::new` loses nothing: different arguments give different records. */
  lemma NewConnectionInjective(s: bool, t: string, p: string, s': bool, t': string, p': string)
    ensures NewConnection(s, t, p) == NewConnection(s', t', p') <==> s == s' && t == t' && p == p'
  {
  }

  /** The items `ConnectionList::new` builds, one per file, in file order,
      every flag cleared. */
  function ItemsFromFiles(files: seq<VpnFile>): (items: seq<Connection>)
    ensures |items| == |files|
    ensures forall i :: 0 <= i < |files| ==>
              items[i].title == files[i].title && items[i].path == files[i].path && !items[i].selected
  {
    if |files| == 0 then []
    else [NewConnection(false, files[0].title, files[0].path)] + ItemsFromFiles(files[1..])
  }

  /** `ConnectionList::new`, given the files the directory listing produced. */
  function NewConnectionList(files: seq<VpnFile>): (list: ConnectionList)
    ensures list.cursor == None
    ensures Valid(list)
    ensures |list.items| == |files|
    ensures forall i :: 0 <= i < |files| ==>
              list.items[i].title == files[i].title && list.items[i].path == files[i].path
    ensures forall i :: 0 <= i < |files| ==> !list.items[i].selected
  {
    ConnectionList(ItemsFromFiles(files), None)
  }

  /** The profile files an item sequence was built from. */
  function FilesOf(items: seq<Connection>): seq<VpnFile> {
    seq(|items|, i requires 0 <= i < |items| => VpnFile(items[i].path, items[i].title))
  }

  /** Building the list and reading the files back is the identity:
      nothing is dropped, duplicated or reordered. */
  lemma FilesRoundTrip(files: seq<VpnFile>)
    ensures FilesOf(NewConnectionList(files).items) == files
  {
  }

  /** The rows drawn for the freshly built list are the file names. */
  lemma FileListLabels(files: seq<VpnFile>)
    ensures forall i :: 0 <= i < |files| ==>
              ToListItem(NewConnectionList(files).items[i]).text == files[i].title
  {
  }

  /** The items `FromIterator for ConnectionList` builds from
      `(selected, title, path)` triples. */
  function ItemsFromTriples(ts: seq<(bool, string, string)>): (items: seq<Connection>)
    ensures |items| == |ts|
    ensures forall i :: 0 <= i < |ts| ==>
              items[i].selected == ts[i].0 && items[i].title == ts[i].1 && items[i].path == ts[i].2
  {
    if |ts| == 0 then []
    else [NewConnection(ts[0].0, ts[0].1, ts[0].2)] + ItemsFromTriples(ts[1..])
  }

  /** `ConnectionList::from_iter`. */
  function FromTriples(ts: seq<(bool, string, string)>): (list: ConnectionList)
    ensures list.cursor == None
    ensures Valid(list)
    ensures |list.items| == |ts|
    ensures forall i :: 0 <= i < |ts| ==>
              list.items[i] == Connection(ts[i].1, ts[i].2, ts[i].0)
  {
    ConnectionList(ItemsFromTriples(ts), None)
  }

  /** The triples an item sequence corresponds to. */
  function TriplesOf(items: seq<Connection>): seq<(bool, string, string)> {
    seq(|items|, i requires 0 <= i < |items| => (items[i].selected, items[i].title, items[i].path))
  }

  /** `from_iter` is a field-for-field copy: reading the triples back gives
      the input. */
  lemma TriplesRoundTrip(ts: seq<(bool, string, string)>)
    ensures TriplesOf(FromTriples(ts).items) == ts
  {
  }
}
