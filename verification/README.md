# openvpn-tui: a Dafny model of the selection state machine and the OpenVPN handle

openvpn-tui is a terminal dashboard. It lists the OpenVPN profile files found in a
directory and lets the operator move a cursor over them and confirm one. It also has
a handle that starts `openvpn` on a profile and collects the process's output. This
project models three pieces of sequential logic from it as immutable datatypes and
pure functions, and proves their properties:

- `Connections` (connections.dfy) covers `src/connection/connection.rs`. It has the
  connection record (`title`, `path`, `selected`), its list row, and the two ways a
  `ConnectionList` is built: from directory entries and from `(selected, title,
  path)` triples. Both start with no cursor.
- `Tui` (tui.dfy) covers `src/app/app.rs`. It models the application state, how a key
  event is dispatched to exactly one transition, `select_item` (which makes the
  `selected` flags the projection of the cursor), the details text, and the event
  loop without its drawing. Every handler keeps the invariant that the cursor is
  absent or below the item count, because `select_item` indexes the items with it.
- `OpenVpn` (openvpn.dfy) covers `src/connection/openvpn.rs`. It models the handle's
  `connected`/`child` lifecycle, the guarded `connect` and `stop`, the `sh -c`
  command text, and how each output buffer grows by the lines of its own stream.
  Spawning and killing are outcomes passed in by the caller. Each output stream is
  the sequence of lines its reader thread reads.
- `Wrappers` (wrappers.dfy) holds `Option` and `Outcome`. `Outcome` plays the role of
  Rust's `io::Result<()>`.

## Model

| member | source | states |
|---|---|---|
| Connections.NewConnection | src/connection/connection.rs:13-19 | the record holds exactly the given `selected`, `title` and `path` |
| Connections.NewConnectionInjective | src/connection/connection.rs:13-19 | two constructions are equal exactly when all three arguments are equal, so the constructor loses no field |
| Connections.ToListItem | src/connection/connection.rs:21-23 | an entry's list row shows its title |
| Connections.ItemsFromFiles | src/connection/connection.rs:33-36 | one item per file, in file order, with the file's title and path and the flag cleared |
| Connections.NewConnectionList | src/connection/connection.rs:32-39 | `ConnectionList::new` has one unselected item per file, in order, and no cursor |
| Connections.FilesRoundTrip | src/connection/connection.rs:33-36 | reading the files back out of the built list gives the input, so nothing is dropped, duplicated or reordered |
| Connections.FileListLabels | src/connection/connection.rs:21-23 | the rows drawn for a freshly built list are the file names, in order |
| Connections.ItemsFromTriples | src/connection/connection.rs:44-47 | each `(selected, title, path)` triple becomes one item, field for field, in order |
| Connections.FromTriples | src/connection/connection.rs:42-50 | `from_iter` keeps the length and order, copies every field, and starts with no cursor |
| Connections.TriplesRoundTrip | src/connection/connection.rs:44-47 | reading the triples back out of the built list gives the input |
| Tui.DefaultApp | src/app/app.rs:30-37 | the application starts without the exit flag, holding the list built from the directory |
| Tui.Decode | src/app/app.rs:50-66 | a key that is not a press triggers nothing, and a key that triggers an action is bound to it |
| Tui.DecodeFollowsBindings | src/app/app.rs:54-65 | a pressed key triggers an action exactly when it is bound to that action, and any unbound key or non-press does nothing |
| Tui.BindingsDisjoint | src/app/app.rs:54-65 | no key is bound to two actions, so every key triggers at most one transition |
| Tui.Step | src/app/app.rs:54-85 | every transition keeps the cursor in range and leaves titles, paths and order unchanged |
| Tui.HandleKey | src/app/app.rs:50-66 | non-press and unbound keys change nothing; `q` only sets the exit flag; Esc only clears the cursor; navigation keys only move the cursor; Enter only re-flags the items |
| Tui.SelectItem | src/app/app.rs:87-95 | afterwards an item is selected exactly when the cursor is on it; cursor, titles and paths are kept |
| Tui.SelectItemLoop | src/app/app.rs:87-95 | the two-pass loop (clear every flag, then set the one under the cursor) computes the same list as the projection |
| Tui.SelectItemExactlyOne | src/app/app.rs:87-95 | with a cursor, exactly one item is selected, the one under it; with none, no item is, whatever the flags were before |
| Tui.SelectItemIdempotent | src/app/app.rs:87-95 | confirming twice gives the same list as confirming once |
| Tui.SelectItemForgetsFlags | src/app/app.rs:88-90 | the result of confirming depends only on the profiles and the cursor, not on the earlier flags |
| Tui.Run | src/app/app.rs:40-48 | the event loop keeps the cursor in range and the profiles fixed, and once the exit flag is set it processes no further input |
| Tui.RunExitsOnQuit | src/app/app.rs:41-46 | the event loop ends in the exit state exactly when the flag was already set or some input was a `q` press |
| Tui.SelectedInfo | src/app/app.rs:165-170 | the details text is `Path: ` followed by the path under the cursor, or `No item selected` when there is no cursor |
| Tui.InfoNamesCursorPath | src/app/app.rs:165-170 | the path can be read back out of the details text exactly when there is a cursor, and it is the path of the item under it |
| Tui.InfoIgnoresFlags | src/app/app.rs:165-170 | the details text depends on the cursor, not on the `selected` flags, so confirming does not change it |
| Tui.ConfirmSecondOfTwo | src/app/app.rs:57-62 | with two profiles and the cursor moved to the second, Enter selects the second and not the first, and the details show its path |
| OpenVpn.New | src/connection/openvpn.rs:19-27 | a new handle is not connected, has no child and has empty buffers, holds the given profile, and meets the lifecycle invariant |
| OpenVpn.CommandLine | src/connection/openvpn.rs:36-39 | the command text is `$(which openvpn) --config ` followed by the profile path |
| OpenVpn.CommandLineRoundTrip | src/connection/openvpn.rs:36-39 | the profile path can be read back from the command text, so different paths give different commands |
| OpenVpn.ShellInvocation | src/connection/openvpn.rs:34-42 | the spawned program is `sh` with arguments `-c` and a command text naming the profile path |
| OpenVpn.SpawnRequestGuardsConnect | src/connection/openvpn.rs:30-42 | with no spawn request, `connect` returns `Ok` unchanged whatever the OS would do; with one, `connect` succeeds exactly when the spawn does, and a spawn error is returned as is |
| OpenVpn.SpawnRequest | src/connection/openvpn.rs:29-42 | `connect` asks for a process exactly when the handle is not connected, and then asks for `sh -c` with the profile's command |
| OpenVpn.PushLines | src/connection/openvpn.rs:50-57 | the reader loop leaves the buffer as its old contents followed by every line and a newline, in read order |
| OpenVpn.Connect | src/connection/openvpn.rs:29-77 | already connected: `Ok` and nothing changes. Spawn error: that error, and nothing changes. Otherwise: `Ok`, connected, child stored, each buffer extended by its own stream's lines |
| OpenVpn.Stop | src/connection/openvpn.rs:79-90 | not connected or no child: `Ok` and nothing changes. Kill fails: that error and nothing changes. Kill succeeds: disconnected. Buffers and `child` are never touched |
| OpenVpn.ConnectIdempotent | src/connection/openvpn.rs:30-32 | after a successful `connect`, a second `connect` returns `Ok` and changes nothing, whatever the operating system would do |
| OpenVpn.StreamsIndependent | src/connection/openvpn.rs:47-68 | the stderr buffer does not depend on what stdout delivers, and the stdout buffer does not depend on what stderr delivers |
| OpenVpn.LinesOfJoined | src/connection/openvpn.rs:52-56 | the buffer format keeps line boundaries: splitting the appended text gives back exactly the lines read |
| OpenVpn.ConnectAppendsLines | src/connection/openvpn.rs:50-68 | a successful `connect` keeps each buffer as a prefix, and the text it appends splits back into exactly that stream's lines |
| OpenVpn.ReplayPreserves | src/connection/openvpn.rs:18-90 | over any sequence of `connect` and `stop` calls the handle keeps the invariant "connected implies a child", keeps its profile, and its buffers only grow |
| OpenVpn.StopThenReconnect | src/connection/openvpn.rs:79-89 | on a consistent connected handle a successful kill disconnects, after which `connect` asks for a new process and stores the new child |

## Behaviour of the code worth knowing

- Cursor moves are delegated to ratatui's `ListState`. The application code itself
  does no wrap-around at the ends of the list, and the model has none.
- `connect` joins both reader threads before it returns
  (src/connection/openvpn.rs:73-74). It therefore returns only once the child has
  closed both stdout and stderr, and then the buffers hold everything the child
  wrote. At that point the child has usually exited, but `connected` stays true.
- `stop` leaves `child` set after a successful kill. It only clears `connected`.
- The check that `openvpn` is installed runs once at startup (src/main.rs:19-30).
  `connect` does not repeat it.
- Output that is not valid UTF-8 makes a reader thread panic (`line.unwrap()`).
- Confirming an item only re-flags the list. `App` holds no `OpenVpnConnection`, so
  confirming never starts or stops a process.

## Left out

- Tui.HandleKey: the cursor that a move produces is an input (`cursorAfterMove`) that must be within the item count. ratatui's `ListState` moves are not modelled, and neither is the render-time clamping that keeps the cursor in range in the running program.
- Tui.Run: models the event loop over a finite input sequence. Drawing the frame and reading terminal events (`terminal.draw`, `event::read`) are terminal I/O and are not modelled.
- Drawing, layout and styles (src/app/app.rs:98-162 and 172-184) are presentation over ratatui. Only the details text of `render_selected_item` is modelled.
- OpenVpn.Connect: spawning is an outcome passed in by the caller. Each stream is modelled as the lines read from it, so `BufRead::lines` splitting, UTF-8 decoding and the panic on invalid UTF-8 are not modelled. The model covers only runs in which both streams end: each stream is a finite sequence of lines. The source blocks inside `connect` for as long as the child keeps either pipe open, which for a running `openvpn` is usually the whole session. A run that never returns is not modelled.
- OpenVpn.Stop: killing is an outcome passed in by the caller. Signal delivery and process reaping are OS calls.
- The reader threads, the `Arc<Mutex<_>>` locking and the joins are concurrency. Each reader only touches its own buffer, and `connect` joins both, so the model appends each stream's lines in one step.
- OpenVpn.CommandLine: how `sh` parses the command text is not modelled. The path is inserted unquoted, so the model says nothing about how a path containing spaces or shell metacharacters is split.
- src/connection/files.rs is not part of this model. Directory enumeration, `Path::file_name` and `process::exit` are filesystem I/O; the model takes the resulting file list as input.
- src/config/config.rs is not part of this model. It does TOML parsing and home and config directory lookups, which is I/O over external libraries.
- src/main.rs is not part of this model. The `openvpn --version` check and terminal setup and restore are process I/O.
