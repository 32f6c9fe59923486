# Studio live sync and the `new` command, modelled in Dafny

This project models two parts of the AsyncAPI CLI.

The first is the live-sync service behind `asyncapi start studio`
(src/models/Studio.ts). It watches one AsyncAPI file and keeps browser Studio
clients in step with it over WebSockets. The service owns two process-wide
arrays: the registered sockets and a queue of outgoing protocol messages. The
watcher handler, and the connection handler once its file read succeeds, push a
message and run the drain loop `sendQueuedMessages`. The loop shifts messages
off the queue for as long as a socket is registered, and sends each one to every
socket. The close handler only removes sockets, and the message handler only
writes the file.

The second is the `new` command (src/commands/new.ts). It decides between an
interactive and a non-interactive flow, and assembles the questions to ask. It
merges the answers with the flags and creates the file without overwriting
existing content. Finally it decides whether to start Studio on the file.

Modules:

- `Base` (base.dfy): `Option`, `Result`, the outcome of a file read, and the
  decimal text of a number, with a parse back.
- `LiveSync` (live_sync.dfy): the service state as a value, and each handler
  as a transition function. `Broadcast` and `DeliverAll` specify the drain
  loop. The lemmas cover FIFO fan-out, the close handler's `splice`,
  convergence of late joiners, write-through, and the walk-through scenario.
- `LiveServer` (live_server.dfy): class `Server`, whose fields `sockets`,
  `queue`, `outbox` and `files` the handler methods update in place. The
  drain loop is a `while` with a nested `for`. Every method is proved to
  perform exactly the matching `LiveSync` transition.
- `StudioStart` (studio_start.dfy): option defaulting (`||`), the startup
  file check, the advertised URL and the `/live-server` upgrade routing.
- `NewCommand` (new_command.dfy): name adjustment, skip-if-non-empty
  creation, mode choice, question assembly, answer merging and the Studio
  decision.

Modelling choices:

- `socket.send` is modelled as appending to `outbox[socket]`.
- A file read is an input, `Ok(content)` or `Err`. `getFileContent` never resolves on
  error, so a failed read has no effect at all.
- chokidar reports a file that already exists as `add` when watching starts, so the walk-through `Scenario` begins with that event: its `file:changed` waits in the queue until the first client connects.
- The success of `writeFile` is an input (`written`), because its failure is
  only logged.
- An inbound frame is already parsed: `Update(code)`, `UnknownType` or
  `Unparsable`.
- Sockets are natural-number identities. A new connection brings one that is
  not registered yet, because `ws` creates a fresh object per connection. The
  model does not forbid an id that was closed from connecting again; its
  `Sent` record then spans both connections. `ws` never reuses a socket
  object, so in the program each record belongs to one connection.
- The file system of `new` is a `map<string, string>`. The bundled examples
  are a map from example name to text. TTY status, the examples list and the
  user's replies are inputs.

Behaviour of the code worth knowing (the model follows the code):

- Close. The 'close' handler runs `sockets.splice(sockets.findIndex(...))`.
  This removes everything from the found index to the end, not one socket.
  For a socket that is not registered, findIndex gives -1 and `splice(-1)`
  drops the last socket. `CloseTruncatesAt`, `CloseAbsentDropsLast` and
  `CloseDropsLaterSockets` state this.
- Connect. The 'connection' handler flushes only once the read of the file has
  succeeded. If that read fails, a queued message can stay pending even
  though a socket is registered. `ConnectWithFailedReadLeavesQueue` exhibits
  this. Every other handler keeps the drained state (`HandlersKeepDrained`).
- Deleted path. `file:deleted` carries the configured path, not the path the
  watcher reported (`WatchUnlinkPublishes`).
- Studio path. `new` starts Studio on the name as typed, not on the name it
  wrote. For a name without a `.` it writes `<name>.yaml`, and the Studio it
  starts on `<name>` then fails its file check (`StudioMissesAdjustedFile`).

## Model

| member | source | states |
|---|---|---|
| `LiveSync.Send` | src/models/Studio.ts:161 | `socket.send(m)` appends `m` to what that socket was sent and changes no other socket's record |
| `LiveSync.Broadcast` | src/models/Studio.ts:160-162 | the `for` loop over the registry, one `Send` per socket in order; its meaning is stated by `BroadcastSkips`, `BroadcastReaches` and `BroadcastSent` |
| `LiveSync.DeliverAll` | src/models/Studio.ts:158-163 | the `while` loop, one broadcast per shifted message in queue order; its meaning is stated by `DeliverAllSkips`, `DeliverAllReaches` and `DeliverAllSent` |
| `LiveSync.Enqueue` | src/models/Studio.ts:43-46 | `messageQueue.push(m)` puts `m` at the back of the queue and changes nothing else: registry, what was sent and the disk stay as they were |
| `LiveSync.Flush` | src/models/Studio.ts:157-164 | the drain loop never changes the sockets or files; afterwards the queue is empty or no socket is registered; with no sockets, or nothing queued, nothing changes |
| `LiveSync.BroadcastSent` | src/models/Studio.ts:160-162 | one pass of the `for` loop appends the message once to every registered socket and to no other |
| `LiveSync.BroadcastSkips` | src/models/Studio.ts:160-162 | one pass of the `for` loop sends nothing to a socket that is not registered |
| `LiveSync.BroadcastReaches` | src/models/Studio.ts:160-162 | one pass of the `for` loop sends a registered socket the message exactly once |
| `LiveSync.DeliverAllSkips` | src/models/Studio.ts:158-163 | the drain loop sends nothing to a socket that is not registered |
| `LiveSync.DeliverAllReaches` | src/models/Studio.ts:158-163 | the drain loop sends a registered socket the whole queue, in FIFO order |
| `LiveSync.DeliverAllSent` | src/models/Studio.ts:158-163 | draining a queue appends the whole queue, in FIFO order, to every registered socket and sends nothing to unregistered ones |
| `LiveSync.FlushDelivers` | src/models/Studio.ts:157-164 | a flush with sockets empties the queue and gives each registered socket exactly the queued messages in order |
| `LiveSync.FlushIdempotent` | src/models/Studio.ts:157-164 | calling the drain loop again right after it changes nothing |
| `LiveSync.PublishDelivers` | src/models/Studio.ts:43-47 | push-then-flush: with no socket the message waits behind the older ones; otherwise every socket gets the old queue and then the message |
| `LiveSync.OnWatch` | src/models/Studio.ts:38-57 | a watcher event never touches the sockets or the disk; directory events, and a failed read on add/change, leave the state unchanged |
| `LiveSync.WatchChangePublishes` | src/models/Studio.ts:40-48 | `add`/`change` with a successful read publishes exactly `file:changed` with the content read |
| `LiveSync.WatchUnlinkPublishes` | src/models/Studio.ts:50-55 | `unlink` publishes `file:deleted` with the configured path, whatever the read would give |
| `LiveSync.FanOutCompleteness` | src/models/Studio.ts:42-47 | with nothing pending, one change gives every registered socket exactly one `file:changed`, and nobody else anything |
| `LiveSync.OnConnect` | src/models/Studio.ts:131-139 | the new socket is appended at the end of the registry; a failed read changes neither the queue nor what was sent |
| `LiveSync.ConnectConverges` | src/models/Studio.ts:131-139 | with a successful read, the new socket and every other receive all pending messages in order followed by `file:loaded` with the content; the queue ends up empty |
| `LiveSync.ConnectWithFailedReadLeavesQueue` | src/models/Studio.ts:131-139 | for every state with messages queued and no socket, a connection whose read fails registers the socket without flushing, so the drained state becomes one with a pending message beside a connected socket |
| `LiveSync.FindIndex` | src/models/Studio.ts:128 | the first index holding the socket, or -1 exactly when it is absent |
| `LiveSync.SpliceStart` | src/models/Studio.ts:128 | where `splice(start)` begins: an in-range start as given, one past the end clamped to the length, a negative start counted from the end and clamped at 0, so -1 on a non-empty array is the last index |
| `LiveSync.Splice` | src/models/Studio.ts:128 | `splice(start)` with no delete count keeps a prefix of the array, exactly as long as the start position `SpliceStart` gives |
| `LiveSync.OnClose` | src/models/Studio.ts:127-129 | closing leaves queue, outbox and disk alone, keeps a prefix of the registry without the target, and shortens a non-empty registry |
| `LiveSync.CloseTruncatesAt` | src/models/Studio.ts:128 | closing the socket whose first occurrence is at index i leaves exactly `sockets[..i]` |
| `LiveSync.CloseAbsentDropsLast` | src/models/Studio.ts:128 | closing an unregistered socket removes the last registered socket |
| `LiveSync.CloseOnEmptyRegistry` | src/models/Studio.ts:128 | closing with no sockets registered changes nothing |
| `LiveSync.CloseDropsLaterSockets` | src/models/Studio.ts:128 | closing socket 2 of [1, 2, 3] leaves [1] |
| `LiveSync.CloseKeepsValid` | src/models/Studio.ts:128 | the registry stays free of duplicates after a close |
| `LiveSync.OnMessage` | src/models/Studio.ts:141-153 | an inbound frame never changes sockets, queue or outbox; only a written `file:update` changes the disk, and only the configured path |
| `LiveSync.UpdateWritesThrough` | src/models/Studio.ts:144-145 | after a written `file:update` with `code`, the configured file holds exactly `code`, whatever it held before |
| `LiveSync.HandlersKeepDrained` | src/models/Studio.ts:38-57 | watcher events, successful connections, closes and messages keep "queue empty or no sockets" |
| `LiveSync.HandlersKeepValid` | src/models/Studio.ts:126-139 | every handler keeps the registry duplicate-free, given a fresh socket on connection |
| `LiveSync.ScenarioInitialAdd` | src/models/Studio.ts:38-48 | the watcher's initial `add` of the existing file, with nobody connected, queues `file:changed` with its content and sends nothing |
| `LiveSync.ScenarioFirstConnect` | src/models/Studio.ts:131-139 | the first client to connect, while nobody else is, receives everything that waited in the queue and then `file:loaded`; nobody else is sent anything |
| `LiveSync.ScenarioChange` | src/models/Studio.ts:40-48 | a change seen by the watcher with one client connected appends exactly one `file:changed` to what that client was sent, and nothing to anyone else |
| `LiveSync.ScenarioSecondConnect` | src/models/Studio.ts:131-139 | a second client's connection, with nothing pending, appends `file:loaded` to what the earlier client and the new one were sent |
| `LiveSync.ScenarioWrite` | src/models/Studio.ts:141-153 | a written `file:update` puts its text at the configured path and sends nothing to any client |
| `LiveSync.Scenario` | src/models/Studio.ts:38-145 | for any two distinct clients a and b and any texts: the service starts on a file holding v0 and the watcher reports it as `add`; a connects; the file is changed to v1 outside the service; b connects; a client writes v2. Then a has received changed(v0), loaded(v0), changed(v1), loaded(v1); b has received loaded(v1); the disk holds v2. The reads give v0 and then v1; `files` records only the service's own writes, so it does not show the change to v1 |
| `LiveServer.Server.constructor` | src/models/Studio.ts:18-19 | the service starts with no sockets, an empty queue and nothing sent |
| `LiveServer.Server.SendQueuedMessages` | src/models/Studio.ts:157-164 | the `while`/`for` drain loop performs exactly `Flush` on the object's state and keeps the registry duplicate-free |
| `LiveServer.Server.OnWatcherEvent` | src/models/Studio.ts:38-57 | the watcher handler performs exactly `OnWatch` and keeps the registry duplicate-free |
| `LiveServer.Server.OnConnection` | src/models/Studio.ts:131-139 | the connection handler performs exactly `OnConnect` and keeps the registry duplicate-free |
| `LiveServer.Server.OnUpgrade` | src/models/Studio.ts:82-90 | an upgrade to `/live-server` runs the connection handler; any other URL leaves the state unchanged |
| `LiveServer.Server.OnCloseEvent` | src/models/Studio.ts:127-129 | the close handler performs exactly `OnClose` and keeps the registry duplicate-free |
| `LiveServer.Server.OnSocketMessage` | src/models/Studio.ts:141-153 | the message handler performs exactly `OnMessage` and keeps the registry duplicate-free |
| `StudioStart.PortOrDefault` | src/models/Studio.ts:30 | the port is 3210 exactly when it is absent, 0 or 3210 itself; any other given port is kept |
| `StudioStart.AddressOrDefault` | src/models/Studio.ts:32 | the remote address is the default exactly when it is absent, empty or the default itself; any other is kept |
| `StudioStart.Start` | src/models/Studio.ts:28-64 | a missing file yields `SpecificationFileNotFound(filePath)` and no configuration; otherwise the configured path, defaulted port and local or remote mode |
| `StudioStart.IsValidFilePath` | src/models/Studio.ts:24-26 | `existsSync`: a path passes exactly when it exists; `Start` fails exactly when it does not pass |
| `StudioStart.UiBase` | src/models/Studio.ts:96-119 | in local mode the UI origin is `http://localhost:` followed by decimal text that reads back as the port; in remote mode it is the remote address |
| `StudioStart.StudioUrl` | src/models/Studio.ts:96-119 | the printed URL starts with the UI base followed by `?liveServer=` |
| `StudioStart.StudioUrlCarriesPort` | src/models/Studio.ts:96 | the advertised URL (local, and the remote one of line 119) starts with its UI base and its `liveServer` parameter reads back as the port |
| `StudioStart.RouteUpgrade` | src/models/Studio.ts:82-90 | an upgrade is handled exactly when the URL is `/live-server`, and destroyed otherwise |
| `Base.IntToStringRoundTrip` | src/models/Studio.ts:96 | the decimal text of a port is well formed and parses back to the same number |
| `Base.IntToString` | src/models/Studio.ts:96 | `${port}`: at least one character, starting with `-` exactly for a negative number |
| `NewCommand.OrDefault` | src/commands/new.ts:35-36 | `v || d`: a present, non-empty value is kept; otherwise the default |
| `NewCommand.IsInteractive` | src/commands/new.ts:31 | the interactive flow is chosen exactly when `--no-tty` is absent and stdout is a TTY (stated through `Run`) |
| `NewCommand.TargetName` | src/commands/new.ts:128-129 | the written name extends the given one and always contains a `.` |
| `NewCommand.TargetNameProperties` | src/commands/new.ts:128-129 | the written name is the given one when it has a `.`, and the given one plus `.yaml` otherwise; it always has a `.` and adjusting it again changes nothing |
| `NewCommand.CreateAsyncapiFile` | src/commands/new.ts:125-143 | a missing or empty target then holds exactly the template text; a non-empty one, or a missing template, leaves the files unchanged; no other path ever changes |
| `NewCommand.CreateIsStable` | src/commands/new.ts:131-141 | running the creation again on its own result leaves the files as they are |
| `NewCommand.RunNonInteractive` | src/commands/new.ts:35-49 | the defaults are `asyncapi.yaml` and `default-example.yaml`; Studio starts iff `--studio` is set and stdout is a TTY, on the unadjusted name; otherwise `--studio` only warns |
| `NewCommand.Prompt` | src/commands/new.ts:85-93 | the file-name, use-example and studio answers exist exactly when their questions were put, and each holds the reply given; a template answer exists exactly when a template question was put and the use-example answer was "yes", and it holds the template chosen |
| `NewCommand.RunInteractive` | src/commands/new.ts:53-123 | the name, example and studio questions are asked exactly when their flags leave them open and, for the example, there are examples; answers fill only unset values; Studio starts iff the resulting choice is true |
| `NewCommand.Run` | src/commands/new.ts:27-50 | the interactive flow runs iff `--no-tty` is absent and stdout is a TTY; the file is created from the plan; a missing template stops the command before Studio |
| `NewCommand.NonInteractiveDefaults` | src/commands/new.ts:35-36 | without name and example flags, the file is `asyncapi.yaml` from `default-example.yaml` |
| `NewCommand.StudioMissesAdjustedFile` | src/commands/new.ts:40-45 | for a fresh name without a `.`, the command creates `<name>.yaml` but starts Studio on `<name>`, which then fails its file check |

## Left out

- The HTTP server, the `ws` server and its handshake, `serve-handler`, `chokidar` and `open` are foreign I/O libraries. Only their events and outcomes are modelled: the upgrade URL, a watcher event, a connection, a frame, a close.
- The HTTP request handlers are not modelled: static serving in local mode, and the handler-less server in remote mode.
- `require.resolve` of the Studio build directory, and its error, is package resolution.
- `JSON.parse` and `JSON.stringify` are outside the model: messages are datatypes, and an inbound frame is parsed already. A `file:update` whose `code` is missing is not distinguished.
- Promise timing, and the interleaving of callbacks, are outside the model: each handler is one atomic step. In particular, the file read of a connection or a watcher event is taken to resolve before any other event.
- `console` logging, `inquirer` prompting and oclif flag parsing are outside the model. Answers and flags are inputs.
- Reading `examples.json`, and swallowing its error, is outside the model: the examples list is an input, empty when the file is missing.
- The template path `resolve(__dirname, '../../assets/examples/', template)` is a lookup by name in the bundled examples.
- A target that exists but cannot be read is treated like a missing one, as the source's catch does. A failing `writeFile` in `createAsyncapiFile` is not modelled.
- The order of watcher events is not modelled: the model accepts any sequence of events, for example a `change` after an `unlink` with no `add` between, which chokidar would not report.
- `src/commands/start/studio.ts` is not part of this model. It passes `flags.file`, or the path that `SpecificationFile.load` finds, to `start`; that lookup is outside this model.
- `LiveSync.OnClose` stands for a client socket going away, and `target` for that socket. The source registers its handler with the server's own `'close'` event (src/models/Studio.ts:127), which `ws` emits without a socket and only when the server shuts down. So in the running program a disconnected client stays registered; the model does not capture that. Its `socket === undefined` case is `CloseAbsentDropsLast`.
- A port that is not an integer (NaN, fractions) is not modelled. Ports are integers, and NaN's falsiness is not represented.
- `Base.IntToString` renders every integer in plain decimal, while JavaScript switches to exponent notation (`1e+21`) from 10^21 on. Only ports 1..65535 reach the URL, because `listen` rejects any other port before its callback runs.
