/** The application state, key dispatch, confirmation of the highlighted
    entry and the details text (src/app/app.rs). */
module Tui {
  import opened Wrappers
  import opened Connections

  /** Whether a key event is a press, an auto-repeat or a release. */
  datatype KeyEventKind = Press | Repeat | Release

  /** The key codes the dispatcher distinguishes; `OtherKey` stands for every
      remaining terminal key code (arrows left/right, Tab, function keys, ...). */
  datatype KeyCode = Char(c: char) | Esc | Enter | Up | Down | Home | End | OtherKey(code: nat)

  datatype KeyEvent = KeyEvent(code: KeyCode, kind: KeyEventKind)

  /** A terminal event: a key, or anything else (resize, mouse, focus). */
  datatype Event = Key(key: KeyEvent) | NonKeyEvent

  /** The four cursor moves, delegated to the list widget's state. */
  datatype Motion = Next | Previous | First | Last

  /** The transitions a key can trigger; every key triggers exactly one. */
  datatype Action = Quit | ClearCursor | Move(motion: Motion) | Confirm | Ignore

  /** The whole application state. */
  datatype App = App(shouldExit: bool, connections: ConnectionList)

  /** `App::default`, given the files the directory listing produced. */
  function DefaultApp(files: seq<VpnFile>): (app: App)
    ensures !app.shouldExit
    ensures app.connections == NewConnectionList(files)
  {
    App(false, NewConnectionList(files))
  }

  /** The keys bound to each action, as listed in the dispatcher's match arms. */
  function Bindings(a: Action): set<KeyCode> {
    match a
    case Quit => {Char('q')}
    case ClearCursor => {Esc}
    case Move(Next) => {Char('j'), Down}
    case Move(Previous) => {Char('k'), Up}
    case Move(First) => {Char('g'), Home}
    case Move(Last) => {Char('G'), End}
    case Confirm => {Enter}
    case Ignore => {}
  }

  /** Every key that moves the cursor. */
  function NavigationKeys(): set<KeyCode> {
    Bindings(Move(Next)) + Bindings(Move(Previous)) + Bindings(Move(First)) + Bindings(Move(Last))
  }

  /** Every key the dispatcher reacts to. */
  function BoundKeys(): set<KeyCode> {
    Bindings(Quit) + Bindings(ClearCursor) + NavigationKeys() + Bindings(Confirm)
  }

  /** The dispatch of `handle_key`: which transition a key event triggers. */
  function Decode(key: KeyEvent): (a: Action)
    ensures key.kind != Press ==> a == Ignore
    ensures a != Ignore ==> key.code in Bindings(a)
  {
    if key.kind != Press then Ignore
    else
      match key.code
      case Char(c) =>
        if c == 'q' then Quit
        else if c == 'j' then Move(Next)
        else if c == 'k' then Move(Previous)
        else if c == 'g' then Move(First)
        else if c == 'G' then Move(Last)
        else Ignore
      case Esc => ClearCursor
      case Down => Move(Next)
      case Up => Move(Previous)
      case Home => Move(First)
      case End => Move(Last)
      case Enter => Confirm
      case OtherKey(_) => Ignore
  }

  /** A pressed key triggers an action exactly when it is bound to it, and
      a key bound to nothing is ignored. */
  lemma DecodeFollowsBindings(key: KeyEvent, a: Action)
    ensures a != Ignore ==> (Decode(key) == a <==> key.kind == Press && key.code in Bindings(a))
    ensures Decode(key) == Ignore <==> key.kind != Press || key.code !in BoundKeys()
  {
  }

  /** No key is bound to two actions, so each key triggers one transition. */
  lemma BindingsDisjoint(a: Action, b: Action)
    requires a != b
    ensures Bindings(a) !! Bindings(b)
  {
  }

  /** `select_item`: the `selected` flag becomes the projection of the cursor. */
  function SelectItem(list: ConnectionList): (r: ConnectionList)
    requires Valid(list)
    ensures Valid(r)
    ensures r.cursor == list.cursor
    ensures SameEntries(r.items, list.items)
    ensures forall i: nat :: i < |r.items| ==> (r.items[i].selected <==> list.cursor == Some(i))
  {
    var flags := seq(|list.items|, i requires 0 <= i < |list.items| =>
                       list.items[i].(selected := list.cursor == Some(i)));
    list.(items := flags)
  }

  /** `select_item` as written: clear every flag in one pass, then set the
      flag under the cursor. */
  method SelectItemLoop(list: ConnectionList) returns (r: ConnectionList)
    requires Valid(list)
    ensures r == SelectItem(list)
  {
    var items := list.items;
    var i := 0;
    while i < |items|
      invariant 0 <= i <= |items|
      invariant SameEntries(items, list.items)
      invariant forall j :: 0 <= j < i ==> !items[j].selected
    {
      items := items[i := items[i].(selected := false)];
      i := i + 1;
    }
    if list.cursor.Some? {
      var k := list.cursor.value;
      items := items[k := items[k].(selected := true)];
    }
    r := ConnectionList(items, list.cursor);
    assert forall j :: 0 <= j < |items| ==> r.items[j] == SelectItem(list).items[j];
  }

  /** The number of items whose `selected` flag is set. */
  function SelectedCount(items: seq<Connection>): nat {
    if |items| == 0 then 0
    else (if items[0].selected then 1 else 0) + SelectedCount(items[1..])
  }

  /** When the flag is set at index `k` and nowhere else, exactly one item
      is selected (none when `k` is outside the sequence). */
  lemma {:induction false} CountOfSingleFlag(items: seq<Connection>, k: int)
    requires forall j :: 0 <= j < |items| ==> (items[j].selected <==> j == k)
    ensures SelectedCount(items) == (if 0 <= k < |items| then 1 else 0)
  {
    if |items| > 0 {
      var rest := items[1..];
      assert forall j :: 0 <= j < |rest| ==> rest[j] == items[j + 1];
      CountOfSingleFlag(rest, k - 1);
    }
  }

  /** After confirmation exactly one item is selected, the one under the
      cursor; with no cursor none is, whatever the flags were before. */
  lemma SelectItemExactlyOne(list: ConnectionList)
    requires Valid(list)
    ensures list.cursor.Some? ==> SelectItem(list).items[list.cursor.value].selected
    ensures SelectedCount(SelectItem(list).items) == (if list.cursor.Some? then 1 else 0)
  {
    var r := SelectItem(list);
    var k := if list.cursor.Some? then list.cursor.value as int else -1;
    assert forall j :: 0 <= j < |r.items| ==> (r.items[j].selected <==> j == k);
    CountOfSingleFlag(r.items, k);
  }

  /** Confirming twice is the same as confirming once. */
  lemma SelectItemIdempotent(list: ConnectionList)
    requires Valid(list)
    ensures SelectItem(SelectItem(list)) == SelectItem(list)
  {
  }

  /** The outcome of confirmation does not depend on the flags it starts from. */
  lemma SelectItemForgetsFlags(a: ConnectionList, b: ConnectionList)
    requires Valid(a) && Valid(b)
    requires SameEntries(a.items, b.items) && a.cursor == b.cursor
    ensures SelectItem(a) == SelectItem(b)
  {
  }

  /** One transition. `cursorAfterMove` is the cursor the list widget holds
      after a move; the widget itself is outside this model. */
  function Step(app: App, a: Action, cursorAfterMove: Option<nat>): (r: App)
    requires Valid(app.connections)
    requires CursorInRange(cursorAfterMove, |app.connections.items|)
    ensures Valid(r.connections)
    ensures SameEntries(r.connections.items, app.connections.items)
  {
    match a
    case Quit => app.(shouldExit := true)
    case ClearCursor => app.(connections := app.connections.(cursor := None))
    case Move(_) => app.(connections := app.connections.(cursor := cursorAfterMove))
    case Confirm => app.(connections := SelectItem(app.connections))
    case Ignore => app
  }

  /** `handle_key`: decode the key, then perform its one transition. */
  function HandleKey(app: App, key: KeyEvent, cursorAfterMove: Option<nat>): (r: App)
    requires Valid(app.connections)
    requires CursorInRange(cursorAfterMove, |app.connections.items|)
    ensures Valid(r.connections)
    ensures SameEntries(r.connections.items, app.connections.items)
    ensures key.kind != Press ==> r == app
    ensures key.code !in BoundKeys() ==> r == app
    ensures key.kind == Press && key.code == Char('q') ==>
              r.shouldExit && r.connections == app.connections
    ensures key.kind == Press && key.code == Esc ==>
              r.connections.cursor == None && r.connections.items == app.connections.items
              && r.shouldExit == app.shouldExit
    ensures key.kind == Press && key.code in NavigationKeys() ==>
              r.connections.items == app.connections.items && r.shouldExit == app.shouldExit
              && r.connections.cursor == cursorAfterMove
    ensures key.kind == Press && key.code == Enter ==>
              r.connections == SelectItem(app.connections) && r.shouldExit == app.shouldExit
    ensures key.code != Enter ==> r.connections.items == app.connections.items
  {
    DecodeFollowsBindings(key, Decode(key));
    Step(app, Decode(key), cursorAfterMove)
  }

  /** One input of the event loop: the event, and the cursor the list widget
      would hold if the event moves it. */
  datatype Input = Input(event: Event, cursorAfterMove: Option<nat>)

  /** Every cursor the widget may produce stays within `n` items. */
  predicate InputsInRange(inputs: seq<Input>, n: nat) {
    forall k :: 0 <= k < |inputs| ==> CursorInRange(inputs[k].cursorAfterMove, n)
  }

  /** An input that asks the application to quit. */
  predicate IsQuit(input: Input) {
    input.event.Key? && Decode(input.event.key) == Quit
  }

  /** The event loop of `App::run` over a finite input sequence, without the
      drawing: events are consumed until `should_exit` is set, and only key
      events are dispatched. */
  function Run(app: App, inputs: seq<Input>): (r: App)
    requires Valid(app.connections)
    requires InputsInRange(inputs, |app.connections.items|)
    ensures Valid(r.connections)
    ensures SameEntries(r.connections.items, app.connections.items)
    ensures app.shouldExit ==> r == app
    decreases |inputs|
  {
    if app.shouldExit || |inputs| == 0 then app
    else
      var next := match inputs[0].event
        case Key(key) => HandleKey(app, key, inputs[0].cursorAfterMove)
        case NonKeyEvent => app;
      Run(next, inputs[1..])
  }

  /** The loop ends in the exit state exactly when some input asked to quit. */
  lemma {:induction false} RunExitsOnQuit(app: App, inputs: seq<Input>)
    requires Valid(app.connections)
    requires InputsInRange(inputs, |app.connections.items|)
    ensures Run(app, inputs).shouldExit <==>
              app.shouldExit || exists k :: 0 <= k < |inputs| && IsQuit(inputs[k])
    decreases |inputs|
  {
    if app.shouldExit || |inputs| == 0 {
    } else {
      var next := match inputs[0].event
        case Key(key) => HandleKey(app, key, inputs[0].cursorAfterMove)
        case NonKeyEvent => app;
      var rest := inputs[1..];
      assert forall k :: 0 <= k < |rest| ==> rest[k] == inputs[k + 1];
      RunExitsOnQuit(next, rest);
      if IsQuit(inputs[0]) {
        assert next.shouldExit;
      } else {
        assert !next.shouldExit;
        if exists k :: 0 <= k < |inputs| && IsQuit(inputs[k]) {
          var k :| 0 <= k < |inputs| && IsQuit(inputs[k]);
          assert IsQuit(rest[k - 1]);
        }
      }
    }
  }

  const NoItemText: string := "No item selected"
  const PathPrefix: string := "Path: "

  /** The details text of `render_selected_item`, keyed on the cursor. */
  function SelectedInfo(list: ConnectionList): (info: string)
    requires Valid(list)
    ensures list.cursor.None? ==> info == NoItemText
    ensures list.cursor.Some? ==> info == PathPrefix + list.items[list.cursor.value].path
  {
    match list.cursor
    case Some(i) => PathPrefix + list.items[i].path
    case None => NoItemText
  }

  /** Reads back the path a details text names, if it names one. */
  function PathOfInfo(info: string): Option<string> {
    if |PathPrefix| <= |info| && info[..|PathPrefix|] == PathPrefix
    then Some(info[|PathPrefix|..])
    else None
  }

  /** The details text names the path under the cursor, and names no path
      when there is no cursor. */
  lemma InfoNamesCursorPath(list: ConnectionList)
    requires Valid(list)
    ensures list.cursor.Some? ==> PathOfInfo(SelectedInfo(list)) == Some(list.items[list.cursor.value].path)
    ensures list.cursor.None? ==> PathOfInfo(SelectedInfo(list)) == None
  {
    if list.cursor.None? {
      assert NoItemText[..|PathPrefix|] != PathPrefix by {
        assert NoItemText[0] != PathPrefix[0];
      }
    } else {
      var info := SelectedInfo(list);
      assert info[..|PathPrefix|] == PathPrefix;
    }
  }

  /** The details text ignores the `selected` flags: it is the same before
      and after confirmation, and for any two lists with the same profiles
      and cursor. */
  lemma InfoIgnoresFlags(a: ConnectionList, b: ConnectionList)
    requires Valid(a) && Valid(b)
    requires SameEntries(a.items, b.items) && a.cursor == b.cursor
    ensures SelectedInfo(a) == SelectedInfo(b)
    ensures SelectedInfo(SelectItem(a)) == SelectedInfo(a)
  {
  }

  /** Two profiles, the cursor moved onto the second, then Enter: the second
      entry is selected and the details show its path. */
  lemma ConfirmSecondOfTwo()
    ensures var files := [VpnFile("/vpns/a.ovpn", "a.ovpn"), VpnFile("/vpns/b.ovpn", "b.ovpn")];
            var moved := HandleKey(DefaultApp(files), KeyEvent(Char('j'), Press), Some(1));
            var confirmed := HandleKey(moved, KeyEvent(Enter, Press), None);
            && confirmed.connections.items[1].selected
            && !confirmed.connections.items[0].selected
            && SelectedInfo(confirmed.connections) == "Path: /vpns/b.ovpn"
  {
  }
}
