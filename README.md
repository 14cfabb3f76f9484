# xpctl application state machine, in Dafny

xpctl is a terminal browser for the connections of a locally running XPipe
service. At start-up it performs the API-key handshake. If that succeeds it
asks the service for every connection (`/connection/query`), then for their
display data (`/connection/info`). It shows the names in a list and runs a key
loop:

- Down and Up move the highlighted row.
- Enter clears the screen. If the cursor is on an item, it shows that name and
  waits for the next input event of any kind (a key, a mouse or resize event,
  a key release, or a read error); otherwise it shows and reads nothing.
- `q` quits.

This project models the `App` object of `src/main.rs` and proves properties of it:

- `usize.dfy` (`Usize`): `usize` on a 64-bit target, and the subtraction
  `len() - 1`. A debug build panics when the subtraction underflows; a release
  build wraps.
- `events.dfy` (`Events`): the crossterm events the handler matches, and one
  `event::read()` result (an event or an I/O error).
- `catalogue.dfy` (`Catalogue`): the info reply and the fold of its name
  lists into `ssh_clients`.
- `transitions.dfy` (`Transitions`): the fields of `App` as a value, and
  `handle_events` for one event as a function, with its case lemmas and
  invariants.
- `startup.dfy` (`Startup`): `fetch_connections` and the handshake/fetch part
  of `run`, with the HTTP replies as inputs.
- `runloop.dfy` (`RunLoop`): the `while !self.exit` loop and `run` as a
  whole, over a finite script of inputs.
- `application.dfy` (`Application`): `App` as a class whose methods update
  its fields in place. Each method is proved to do what the functions above
  say. `EventQueue` stands for the terminal input that `event::read()`
  consumes.

What the code does, and does not do:

- The code neither sorts nor deduplicates names. It keeps no name-to-identifier
  map and has no drill-down, filter or terminal-launch step.
- Enter changes no field. It only prints the selected name, if there is one,
  and then reads and drops one input event.
- Down on an empty list is not a no-op. `len() - 1` underflows, so a debug
  build panics. A release build wraps, and the cursor moves past the empty
  list.
- Every `handle_events` call reads a fresh event. After Enter on an existing
  item, `open_session` reads one more event and drops it. A `q` pressed to
  leave that screen therefore does not quit.

## Model

| member | source | states |
|---|---|---|
| `Usize.Sub` | src/main.rs:117 | `usize` subtraction: it panics exactly when the build is a debug build and the result would be negative; otherwise it gives the difference modulo 2^64, and the exact difference when that is not negative |
| `Catalogue.FlattenNames` | src/main.rs:210-214 | the collected list has exactly as many names as all infos together, and starts with the first info's names |
| `Catalogue.FlattenAppend` | src/main.rs:210-214 | flattening the concatenation of two replies gives the concatenation of their flattenings |
| `Catalogue.FlattenAt` | src/main.rs:210-214 | name `j` of info `i` is at position (names of infos before `i`) + `j`, so order and duplicates are kept |
| `Catalogue.FlattenCovers` | src/main.rs:210-214 | every position of the list holds some name `j` of some info `i`, at offset (names of infos before `i`) + `j`: the list has no position the infos do not fill |
| `Catalogue.FlattenMembership` | src/main.rs:210-214 | a name is in the list if and only if some info carries it |
| `Catalogue.DuplicateNamesKept` | src/main.rs:210-214 | two infos both named `web1` give the list `["web1", "web1"]`: no dedup, no sort |
| `Transitions.InitialSatisfiesInvariant` | src/main.rs:27-33 | the derived `Default` (the constant `Transitions.Initial`: no clients, cursor 0, not exiting, no token) is within `usize` bounds, not exiting, without a token, selects nothing, and satisfies the cursor invariant |
| `Transitions.MoveDown` | src/main.rs:117-119 | the Down arm panics exactly in a debug build on an empty list; otherwise only the cursor may change: on a non-empty list it moves one step and stops at the last item, on an empty list (release build, wrapped `len() - 1`) it moves one step unless already at `usize::MAX` |
| `Transitions.MoveUp` | src/main.rs:126-128 | the Up arm changes only the cursor: one step down from a positive cursor, unchanged at 0 |
| `Transitions.Selected` | src/main.rs:151 | `get(selected_index)` gives an item exactly when the cursor is below the length, and that item is the one at the cursor |
| `Transitions.Handle` | src/main.rs:110-147 | every non-panicking transition keeps the cursor and list length within `usize` |
| `Transitions.DownStep` | src/main.rs:112-120 | on a non-empty list, Down adds one to the cursor when it is before the last item and leaves it otherwise; the list, `exit` and the token do not change; the build does not matter |
| `Transitions.DownOnEmptyPanicsInDebug` | src/main.rs:117 | Down on an empty list panics in a debug build |
| `Transitions.DownOnEmptyAdvancesInRelease` | src/main.rs:117-119 | Down on an empty list advances the cursor by one in a release build (wrapped `len() - 1`) |
| `Transitions.ReleaseCursorLeavesEmptyList` | src/main.rs:112-120 | from the default state, one Down in a release build leaves the cursor at 1 on an empty list, where nothing is selected |
| `Transitions.UpStep` | src/main.rs:121-129 | Up subtracts one from a positive cursor and leaves 0 at 0; nothing else changes |
| `Transitions.EnterStep` | src/main.rs:130-136 | Enter changes no field and shows the selected item, if any |
| `Transitions.QuitStep` | src/main.rs:137-143 | `q` sets `exit` and changes nothing else |
| `Transitions.IgnoredStep` | src/main.rs:144 | every other key, every non-press key event and every non-key event leave the state unchanged |
| `Transitions.HandleKeepsListAndToken` | src/main.rs:110-147 | no event changes the list or the token, and none resets `exit` |
| `Transitions.ExitOnlyByQuit` | src/main.rs:137-143 | `exit` goes from false to true only on a `q` press |
| `Transitions.HandleKeepsCursorInRange` | src/main.rs:117-128 | a cursor inside the list stays inside it after any event, and no event panics then |
| `Startup.Fetch` | src/main.rs:185-218 | only the list may change, it stays within `usize`, and a failed request changes nothing |
| `Startup.FetchWithoutToken` | src/main.rs:186 | without a token, nothing is sent and nothing changes |
| `Startup.FetchReplacesList` | src/main.rs:199-214 | with a token and two good replies, the list becomes the flattened names (as many as the infos carry), the info request carries exactly the ids the query found, and nothing else changes |
| `Startup.FetchFailureKeepsState` | src/main.rs:188-208 | a failed query or info request leaves the state unchanged and returns an error; after a failed query no info request is sent |
| `Startup.Boot` | src/main.rs:69-79 | of the modelled panics, start-up has only the `expect` one, taken exactly when the API key is not set or is not valid Unicode; a failed handshake changes nothing and sends only the handshake; otherwise start-up keeps the cursor and `exit` |
| `Startup.TokenOnlyOnSuccess` | src/main.rs:69-79 | starting without a token, the token is set if and only if the handshake succeeded, and then to the returned token |
| `Startup.FetchOnlyAfterHandshake` | src/main.rs:69-79 | the handshake is the first request, and the query is sent if and only if the handshake succeeded |
| `Startup.HandshakeFailureKeepsList` | src/main.rs:76-78 | after a failed handshake the default state is unchanged: empty list, no token |
| `Startup.BootFromInitial` | src/main.rs:69-79 | from the default state the loop starts at cursor 0, not exiting, with the flattened names if every request succeeded and an empty list otherwise |
| `RunLoop.TakeTurn` | src/main.rs:110-156 | one `handle_events` call: with no input it waits; a read error or a panic stops the loop after one input with the state unchanged; otherwise the state is `Handle`'s and it reads exactly one input, or two after Enter on an existing item (the second dropped), waiting when that second input is not there; it never changes the list or the token and never resets `exit` |
| `RunLoop.Loop` | src/main.rs:81-84 | the loop stops with `exit` set exactly when it stopped because of `exit`; it reads nothing once `exit` is set; the list and the token are as at its start |
| `RunLoop.LoopExitsOnQuit` | src/main.rs:81-84 | when the loop ends on `exit`, the last input it read is a `q` press |
| `RunLoop.AcknowledgementDropped` | src/main.rs:149-156 | after Enter on an existing item, whatever input comes next (a `q` press, a key release, any event, a read error) is read and dropped, and the loop goes on in the same state |
| `RunLoop.LoopPanicsOnlyOnEmptyDown` | src/main.rs:117 | the loop panics only in a debug build, on an empty list, and on a Down press (panics of a failed stdout write in `open_session` are not modelled) |
| `RunLoop.LoopKeepsCursorInRange` | src/main.rs:81-84 | a cursor inside the list is inside it wherever the loop stops, and the loop never panics |
| `RunLoop.LoopReadsWholeScript` | src/main.rs:81-84 | in a release build on any list (the empty one included), or with a cursor inside the list, a script with no read error and no `q` press is read to the end and the loop waits for more |
| `RunLoop.LoopStopsOnlyForCause` | src/main.rs:81-84 | the loop waits for input only after reading every input, and stops on a read error only right after reading a failed input |
| `RunLoop.Run` | src/main.rs:67-86 | of the modelled panics, `run` has only the `expect` one before the loop, taken exactly when the API key is not set or is not valid Unicode |
| `RunLoop.RunWithClientsNeverPanics` | src/main.rs:67-86 | from the default state, a run whose fetch gave a non-empty list never panics and keeps the cursor inside that list |
| `RunLoop.DebugDownAfterFailedHandshakePanics` | src/main.rs:69-84 | after a failed handshake, one Down press panics in a debug build, with only the handshake request sent |
| `Application.EventQueue.Read` | src/main.rs:111 | `event::read()` returns the next input and removes it, or waits forever when none is left |
| `Application.App.constructor` | src/main.rs:27-33 | `App::default()`: empty list, cursor 0, `exit` false, no token |
| `Application.App.OpenSession` | src/main.rs:149-156 | shows the selected item, if any, and then reads and drops one input; no field changes |
| `Application.App.Exit` | src/main.rs:158-160 | sets `exit` and nothing else |
| `Application.App.HandleEvents` | src/main.rs:110-147 | the fields after the call, the inputs it read and whether the loop must stop are those of `TakeTurn` |
| `Application.App.FetchConnections` | src/main.rs:185-218 | the fields after the call, the requests sent and the result are those of `Fetch` |
| `Application.App.EventLoop` | src/main.rs:81-84 | where the loop stops and the fields then are what `Loop` gives, and exactly the inputs it read are gone |
| `Application.App.Run` | src/main.rs:67-86 | the handshake, the fetch and the event loop end as `RunLoop.Run` says; the fields are those of the loop's last state, and exactly the inputs the loop read are gone |

## Left out

- HTTP, bearer authentication and JSON (`reqwest`, `serde`, src/main.rs:162-208) are not modelled. The handshake is an input: the key is not set (`expect` panics), the request failed, or it gave a token. The query and info replies are `Result` inputs. A send failure and a decoding failure are the same `HttpError`.
- The API key from `.env` or the environment (`dotenv`, `env::var`) is not modelled. Only whether `env::var` gives a value is kept: a key that is not set and one that is not valid Unicode both make `expect` panic, and both are `ApiKeyNotSet`.
- Terminal drawing is not modelled: `draw`, `terminal.draw` and its I/O error path, `ratatui::init`/`restore`, and the `Clear` and `println!` output in `open_session`. Their visible content is only the selected name that `OpenSession` returns.
- `RunLoop.LoopPanicsOnlyOnEmptyDown`: the `unwrap()` of `execute!(.., Clear(..))` and the `println!` calls in `open_session` panic when writing to standard output fails. Those panics are not modelled, so the lemma holds with that exception.
- Error messages printed with `eprintln!` are not modelled. The printing has no effect on the state.
- `Startup.Boot`: the `eprintln!` calls at src/main.rs:73 and :77 panic when writing to standard error fails, and `Client::new()` at src/main.rs:165 and :187 panics when the HTTP client's TLS backend cannot be set up. Those panics are not modelled; the only start-up panic the model has is the `expect` on the API key.
- `RunLoop.Run`: the same unmodelled start-up panics (standard error writes, `Client::new()`) apply; `run` panics before the loop only on the API key among the modelled ones.
- `event::read()` is a finite script of inputs. When the script runs out, the model stops with `InputPending`, where the program would block. Key modifiers and key state are matched by `..` and not kept. Every key code other than Down, Up, Enter and a character is one `OtherKey`.
- The target is a 64-bit one: `usize::MAX` is 2^64 - 1.
- `Startup.Fits` is a precondition that the info reply's names fit in one `Vec` (at most `usize::MAX` of them). The program cannot collect more, so nothing reachable is excluded.
- `main` is not modelled separately: it builds `App::default()` and calls `run` between terminal setup and restore, so `Application.App.constructor` and `Application.App.Run` cover it.
