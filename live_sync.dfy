/** The live-sync core of the Studio companion server as values: the socket
    registry, the queue of protocol messages not yet delivered, what every socket
    has been sent so far, and the files on disk. Each event handler of
    src/models/Studio.ts is one atomic transition of this state; the class in
    module LiveServer performs the same transitions in place. */
module LiveSync {
  import opened Base

  /** Identity of one browser socket (the handle object `ws` passes around). */
  type SocketId = nat

  /** The server-to-client protocol messages, before JSON serialisation. */
  datatype Msg =
    | FileChanged(code: string)
    | FileDeleted(filePath: string)
    | FileLoaded(code: string)

  /** The event names chokidar reports on its 'all' channel. */
  datatype WatchKind = Add | AddDir | Change | Unlink | UnlinkDir

  datatype WatchEvent = WatchEvent(kind: WatchKind, path: string)

  /** An inbound socket frame after `JSON.parse`: a `file:update` carrying its
      `code`, JSON of any other `type`, or text that does not parse. */
  datatype Inbound = Update(code: string) | UnknownType | Unparsable

  /** `sockets` and `queue` are the two module-level arrays; `outbox` records
      every `socket.send`; `files` is the disk as the service writes it. */
  datatype State = State(
    sockets: seq<SocketId>,
    queue: seq<Msg>,
    outbox: map<SocketId, seq<Msg>>,
    files: map<string, string>)

  /** No socket is registered twice (each connection is a fresh object). */
  predicate Distinct(ss: seq<SocketId>)
  {
    forall i, j :: 0 <= i < j < |ss| ==> ss[i] != ss[j]
  }

  predicate Valid(st: State)
  {
    Distinct(st.sockets)
  }

  /** The drain loop has nothing left to do. */
  predicate Drained(st: State)
  {
    st.queue == [] || st.sockets == []
  }

  /** Everything socket `s` has been sent, oldest first. */
  function Sent(outbox: map<SocketId, seq<Msg>>, s: SocketId): seq<Msg>
  {
    if s in outbox then outbox[s] else []
  }

  /** `socket.send(m)`: only the target's record grows, by exactly `m`. */
  function Send(outbox: map<SocketId, seq<Msg>>, s: SocketId, m: Msg): (r: map<SocketId, seq<Msg>>)
    ensures Sent(r, s) == Sent(outbox, s) + [m]
    ensures forall t :: t != s ==> Sent(r, t) == Sent(outbox, t)
  {
    outbox[s := Sent(outbox, s) + [m]]
  }

  /** The inner `for` loop of `sendQueuedMessages`: send `m` to each of `ss`
      in order. */
  function Broadcast(outbox: map<SocketId, seq<Msg>>, ss: seq<SocketId>, m: Msg): map<SocketId, seq<Msg>>
    decreases |ss|
  {
    if ss == [] then outbox
    else Send(Broadcast(outbox, ss[..|ss| - 1], m), ss[|ss| - 1], m)
  }

  /** The outer `while` loop: broadcast each of `msgs` in queue order. */
  function DeliverAll(outbox: map<SocketId, seq<Msg>>, ss: seq<SocketId>, msgs: seq<Msg>): map<SocketId, seq<Msg>>
    decreases |msgs|
  {
    if msgs == [] then outbox
    else Broadcast(DeliverAll(outbox, ss, msgs[..|msgs| - 1]), ss, msgs[|msgs| - 1])
  }

  /** Sending to one more socket extends a broadcast by one `Send`. */
  lemma {:induction false} BroadcastStep(outbox: map<SocketId, seq<Msg>>, ss: seq<SocketId>, i: nat, m: Msg)
    requires i < |ss|
    ensures Broadcast(outbox, ss[..i + 1], m) == Send(Broadcast(outbox, ss[..i], m), ss[i], m)
  {
    assert ss[..i + 1][..i] == ss[..i];
  }

  /** Shifting one more message extends a drain by one broadcast. */
  lemma {:induction false} DeliverAllStep(outbox: map<SocketId, seq<Msg>>, ss: seq<SocketId>, msgs: seq<Msg>, k: nat)
    requires k < |msgs|
    ensures DeliverAll(outbox, ss, msgs[..k + 1]) == Broadcast(DeliverAll(outbox, ss, msgs[..k]), ss, msgs[k])
  {
    assert msgs[..k + 1][..k] == msgs[..k];
  }

  /** A broadcast sends nothing to a socket that is not registered. */
  lemma {:induction false} BroadcastSkips(outbox: map<SocketId, seq<Msg>>, ss: seq<SocketId>, m: Msg, s: SocketId)
    requires s !in ss
    ensures Sent(Broadcast(outbox, ss, m), s) == Sent(outbox, s)
    decreases |ss|
  {
    if ss != [] {
      BroadcastSkips(outbox, ss[..|ss| - 1], m, s);
    }
  }

  /** A broadcast sends the message exactly once to a registered socket. */
  lemma {:induction false} BroadcastReaches(outbox: map<SocketId, seq<Msg>>, ss: seq<SocketId>, m: Msg, s: SocketId)
    requires Distinct(ss) && s in ss
    ensures Sent(Broadcast(outbox, ss, m), s) == Sent(outbox, s) + [m]
    decreases |ss|
  {
    var init, last := ss[..|ss| - 1], ss[|ss| - 1];
    assert ss == init + [last];
    if s == last {
      BroadcastSkips(outbox, init, m, s);
    } else {
      assert Distinct(init);
      BroadcastReaches(outbox, init, m, s);
    }
  }

  /** One broadcast reaches every registered socket exactly once and no other. */
  lemma {:induction false} BroadcastSent(outbox: map<SocketId, seq<Msg>>, ss: seq<SocketId>, m: Msg, s: SocketId)
    requires Distinct(ss)
    ensures Sent(Broadcast(outbox, ss, m), s) == Sent(outbox, s) + (if s in ss then [m] else [])
  {
    if s in ss {
      BroadcastReaches(outbox, ss, m, s);
    } else {
      BroadcastSkips(outbox, ss, m, s);
    }
  }

  /** Draining the queue sends nothing to a socket that is not registered. */
  lemma {:induction false} DeliverAllSkips(outbox: map<SocketId, seq<Msg>>, ss: seq<SocketId>, msgs: seq<Msg>, s: SocketId)
    requires s !in ss
    ensures Sent(DeliverAll(outbox, ss, msgs), s) == Sent(outbox, s)
    decreases |msgs|
  {
    if msgs != [] {
      var init := msgs[..|msgs| - 1];
      DeliverAllSkips(outbox, ss, init, s);
      BroadcastSkips(DeliverAll(outbox, ss, init), ss, msgs[|msgs| - 1], s);
    }
  }

  /** Appending a non-empty sequence is appending all but its last element,
      then the last element. */
  lemma {:induction false} AppendSplitLast(prefix: seq<Msg>, msgs: seq<Msg>)
    requires msgs != []
    ensures prefix + msgs == (prefix + msgs[..|msgs| - 1]) + [msgs[|msgs| - 1]]
  {
    assert msgs == msgs[..|msgs| - 1] + [msgs[|msgs| - 1]];
  }

  /** Draining the queue appends all of it, oldest first, for a registered socket. */
  lemma {:induction false} DeliverAllReaches(outbox: map<SocketId, seq<Msg>>, ss: seq<SocketId>, msgs: seq<Msg>, s: SocketId)
    requires Distinct(ss) && s in ss
    ensures Sent(DeliverAll(outbox, ss, msgs), s) == Sent(outbox, s) + msgs
    decreases |msgs|
  {
    if msgs == [] {
      assert Sent(outbox, s) + msgs == Sent(outbox, s);
    } else {
      var init, last := msgs[..|msgs| - 1], msgs[|msgs| - 1];
      var mid := DeliverAll(outbox, ss, init);
      DeliverAllReaches(outbox, ss, init, s);
      BroadcastReaches(mid, ss, last, s);
      AppendSplitLast(Sent(outbox, s), msgs);
    }
  }

  /** Draining a queue appends the whole queue, in FIFO order, to what each
      registered socket was sent, and sends nothing to anyone else. */
  lemma {:induction false} DeliverAllSent(outbox: map<SocketId, seq<Msg>>, ss: seq<SocketId>, msgs: seq<Msg>, s: SocketId)
    requires Distinct(ss)
    ensures Sent(DeliverAll(outbox, ss, msgs), s) == Sent(outbox, s) + (if s in ss then msgs else [])
  {
    if s in ss {
      DeliverAllReaches(outbox, ss, msgs, s);
    } else {
      DeliverAllSkips(outbox, ss, msgs, s);
    }
  }

  /** `sendQueuedMessages`: while a message is queued and a socket is
      registered, shift the oldest message and send it to every socket. */
  function Flush(st: State): (r: State)
    ensures r.sockets == st.sockets && r.files == st.files
    ensures Drained(r)
    ensures st.sockets == [] ==> r == st
    ensures st.queue == [] ==> r == st
  {
    if st.sockets == [] then st
    else st.(queue := [], outbox := DeliverAll(st.outbox, st.sockets, st.queue))
  }

  /** A flush with registered sockets gives each of them the queued messages
      in order and nobody else anything. */
  lemma {:induction false} FlushDelivers(st: State, s: SocketId)
    requires Valid(st) && st.sockets != []
    ensures Flush(st).queue == []
    ensures Sent(Flush(st).outbox, s) == Sent(st.outbox, s) + (if s in st.sockets then st.queue else [])
  {
    DeliverAllSent(st.outbox, st.sockets, st.queue, s);
  }

  /** Calling the drain loop redundantly changes nothing. */
  lemma {:induction false} FlushIdempotent(st: State)
    ensures Flush(Flush(st)) == Flush(st)
  {
  }

  /** `messageQueue.push(m)`: the message goes to the back of the queue. */
  function Enqueue(st: State, m: Msg): (r: State)
    ensures r.queue == st.queue + [m]
    ensures r.sockets == st.sockets && r.outbox == st.outbox && r.files == st.files
  {
    st.(queue := st.queue + [m])
  }

  /** `r` is `st` after `m` was pushed and the queue flushed: with no socket the
      message waits behind the older ones; otherwise every registered socket
      receives the whole previous queue followed by `m`. */
  ghost predicate Published(st: State, r: State, m: Msg)
  {
    && r.sockets == st.sockets
    && r.files == st.files
    && (st.sockets == [] ==> r.queue == st.queue + [m] && r.outbox == st.outbox)
    && (st.sockets != [] ==>
          && r.queue == []
          && forall s :: Sent(r.outbox, s) == Sent(st.outbox, s) + (if s in st.sockets then st.queue + [m] else []))
  }

  lemma {:induction false} PublishDelivers(st: State, m: Msg)
    requires Valid(st)
    ensures Published(st, Flush(Enqueue(st, m)), m)
  {
    var e := Enqueue(st, m);
    if st.sockets != [] {
      forall s ensures Sent(Flush(e).outbox, s) == Sent(st.outbox, s) + (if s in st.sockets then st.queue + [m] else []) {
        FlushDelivers(e, s);
      }
    }
  }

  /** The chokidar 'all' handler. `read` is the outcome of reading the path the
      watcher reported; a failed read never resolves, so nothing happens. */
  function OnWatch(st: State, filePath: string, ev: WatchEvent, read: ReadResult): (r: State)
    ensures r.sockets == st.sockets && r.files == st.files
    ensures (ev.kind == AddDir || ev.kind == UnlinkDir) ==> r == st
    ensures ev.kind != Unlink && read.Err? ==> r == st
  {
    match ev.kind
    case Add | Change =>
      (match read
       case Ok(code) => Flush(Enqueue(st, FileChanged(code)))
       case Err => st)
    case Unlink => Flush(Enqueue(st, FileDeleted(filePath)))
    case AddDir | UnlinkDir => st
  }

  /** An added or changed file is published as `file:changed` with the content read. */
  lemma {:induction false} WatchChangePublishes(st: State, filePath: string, ev: WatchEvent, code: string)
    requires Valid(st) && (ev.kind == Add || ev.kind == Change)
    ensures Published(st, OnWatch(st, filePath, ev, Ok(code)), FileChanged(code))
  {
    PublishDelivers(st, FileChanged(code));
  }

  /** A removal is published as `file:deleted` naming the configured path,
      whatever path the watcher reported and whatever a read would give. */
  lemma {:induction false} WatchUnlinkPublishes(st: State, filePath: string, ev: WatchEvent, read: ReadResult)
    requires Valid(st) && ev.kind == Unlink
    ensures Published(st, OnWatch(st, filePath, ev, read), FileDeleted(filePath))
  {
    PublishDelivers(st, FileDeleted(filePath));
  }

  /** With N registered sockets and nothing pending, one change produces exactly
      one `file:changed` for each of them. */
  lemma {:induction false} FanOutCompleteness(st: State, filePath: string, ev: WatchEvent, code: string, s: SocketId)
    requires Valid(st) && st.queue == [] && (ev.kind == Add || ev.kind == Change)
    ensures OnWatch(st, filePath, ev, Ok(code)).queue == if st.sockets == [] then [FileChanged(code)] else []
    ensures Sent(OnWatch(st, filePath, ev, Ok(code)).outbox, s)
         == Sent(st.outbox, s) + (if s in st.sockets then [FileChanged(code)] else [])
  {
    var e := Enqueue(st, FileChanged(code));
    assert OnWatch(st, filePath, ev, Ok(code)) == Flush(e);
    assert e.queue == [FileChanged(code)];
    if st.sockets != [] {
      FlushDelivers(e, s);
    }
  }

  /** The 'connection' handler: register the socket, then, once the configured
      file has been read, push `file:loaded` and flush. */
  function OnConnect(st: State, s: SocketId, read: ReadResult): (r: State)
    ensures r.sockets == st.sockets + [s] && r.files == st.files
    ensures read.Err? ==> r.queue == st.queue && r.outbox == st.outbox
  {
    var registered := st.(sockets := st.sockets + [s]);
    match read
    case Ok(code) => Flush(Enqueue(registered, FileLoaded(code)))
    case Err => registered
  }

  /** Convergence and queue drain: a newly connected socket receives every
      message still pending, in order, followed by the current file content;
      every other registered socket receives the same. */
  lemma {:induction false} ConnectConverges(st: State, s: SocketId, code: string, t: SocketId)
    requires Valid(st) && s !in st.sockets
    ensures Valid(OnConnect(st, s, Ok(code)))
    ensures OnConnect(st, s, Ok(code)).queue == []
    ensures Sent(OnConnect(st, s, Ok(code)).outbox, t)
         == Sent(st.outbox, t) + (if t in st.sockets || t == s then st.queue + [FileLoaded(code)] else [])
  {
    var registered := st.(sockets := st.sockets + [s]);
    assert Valid(registered);
    PublishDelivers(registered, FileLoaded(code));
  }

  /** When the initial read fails, the new socket is registered but the queue is
      not flushed, so a message pending while nobody was connected stays
      pending beside a connected client. */
  lemma {:induction false} ConnectWithFailedReadLeavesQueue(st: State, s: SocketId)
    requires st.queue != [] && st.sockets == []
    ensures Drained(st)
    ensures !Drained(OnConnect(st, s, Err))
    ensures OnConnect(st, s, Err).queue == st.queue
  {
  }

  /** `Array.prototype.findIndex` for equality: the first index holding `x`,
      or -1. */
  function FindIndex(ss: seq<SocketId>, x: SocketId): (i: int)
    ensures -1 <= i < |ss|
    ensures i == -1 <==> x !in ss
    ensures 0 <= i ==> ss[i] == x && x !in ss[..i]
    decreases |ss|
  {
    if ss == [] then -1
    else if ss[0] == x then 0
    else
      var j := FindIndex(ss[1..], x);
      if j < 0 then -1 else j + 1
  }

  /** Where `splice(start)` starts deleting in an array of length `len`: a
      negative start counts from the end and is clamped at 0; a start past the
      end is clamped to the length. */
  function SpliceStart(len: nat, start: int): (k: nat)
    ensures k <= len
    ensures 0 <= start <= len ==> k == start
    ensures start > len ==> k == len
    ensures start < 0 && len + start >= 0 ==> k == len + start
    ensures start < 0 && len + start < 0 ==> k == 0
    ensures start == -1 && len > 0 ==> k == len - 1
  {
    if start < 0 then (if len + start < 0 then 0 else len + start)
    else if start > len then len
    else start
  }

  /** The array left by `ss.splice(start)` with no delete count: everything from
      the start position to the end is removed. */
  function Splice(ss: seq<SocketId>, start: int): (r: seq<SocketId>)
    ensures r <= ss
    ensures |r| == SpliceStart(|ss|, start)
  {
    ss[..SpliceStart(|ss|, start)]
  }

  /** The 'close' handler: `sockets.splice(sockets.findIndex(s => s === target))`. */
  function OnClose(st: State, target: SocketId): (r: State)
    ensures r.queue == st.queue && r.outbox == st.outbox && r.files == st.files
    ensures r.sockets <= st.sockets
    ensures target !in r.sockets
    ensures st.sockets != [] ==> |r.sockets| < |st.sockets|
  {
    st.(sockets := Splice(st.sockets, FindIndex(st.sockets, target)))
  }

  /** Closing the socket at index i keeps only the sockets before it: every
      socket registered after it is dropped as well. */
  lemma {:induction false} CloseTruncatesAt(st: State, target: SocketId, i: nat)
    requires i < |st.sockets| && st.sockets[i] == target && target !in st.sockets[..i]
    ensures OnClose(st, target).sockets == st.sockets[..i]
  {
    assert FindIndex(st.sockets, target) == i;
  }

  /** Closing an unregistered socket: findIndex yields -1, and `splice(-1)`
      removes the last registered socket. */
  lemma {:induction false} CloseAbsentDropsLast(st: State, target: SocketId)
    requires target !in st.sockets && st.sockets != []
    ensures OnClose(st, target).sockets == st.sockets[..|st.sockets| - 1]
  {
  }

  lemma {:induction false} CloseOnEmptyRegistry(st: State, target: SocketId)
    requires st.sockets == []
    ensures OnClose(st, target) == st
  {
  }

  /** For example, closing the second of three sockets also unregisters the third. */
  lemma {:induction false} CloseDropsLaterSockets()
    ensures OnClose(State([1, 2, 3], [], map[], map[]), 2).sockets == [1]
  {
    CloseTruncatesAt(State([1, 2, 3], [], map[], map[]), 2, 1);
  }

  /** The per-socket 'message' handler. `written` is whether the fire-and-forget
      `writeFile` succeeded; a failure is only logged. */
  function OnMessage(st: State, filePath: string, msg: Inbound, written: bool): (r: State)
    ensures r.sockets == st.sockets && r.queue == st.queue && r.outbox == st.outbox
    ensures !(msg.Update? && written) ==> r.files == st.files
    ensures forall p :: p != filePath ==> (p in r.files <==> p in st.files)
    ensures forall p :: p != filePath && p in st.files ==> r.files[p] == st.files[p]
  {
    match msg
    case Update(code) => if written then st.(files := st.files[filePath := code]) else st
    case UnknownType | Unparsable => st
  }

  /** Write-through: after a persisted `file:update` with `code`, the configured
      file holds exactly `code`, whatever it held before. */
  lemma {:induction false} UpdateWritesThrough(st: State, filePath: string, code: string)
    ensures filePath in OnMessage(st, filePath, Update(code), true).files
    ensures OnMessage(st, filePath, Update(code), true).files[filePath] == code
  {
  }

  /** The drain-loop invariant is kept by every handler except a connection
      whose initial read fails. */
  lemma {:induction false} HandlersKeepDrained(st: State, filePath: string, ev: WatchEvent, read: ReadResult,
                            s: SocketId, code: string, target: SocketId, msg: Inbound, written: bool)
    requires Drained(st)
    ensures Drained(OnWatch(st, filePath, ev, read))
    ensures Drained(OnConnect(st, s, Ok(code)))
    ensures Drained(OnClose(st, target))
    ensures Drained(OnMessage(st, filePath, msg, written))
  {
  }

  /** Every handler keeps the registry free of duplicates, given that a new
      connection brings a socket not yet registered. */
  lemma {:induction false} HandlersKeepValid(st: State, filePath: string, ev: WatchEvent, read: ReadResult,
                          s: SocketId, target: SocketId, msg: Inbound, written: bool)
    requires Valid(st) && s !in st.sockets
    ensures Valid(OnWatch(st, filePath, ev, read))
    ensures Valid(OnConnect(st, s, read))
    ensures Valid(OnClose(st, target))
    ensures Valid(OnMessage(st, filePath, msg, written))
  {
    var registered := st.(sockets := st.sockets + [s]);
    assert Valid(registered);
    assert OnConnect(st, s, read).sockets == registered.sockets;
    CloseKeepsValid(st, target);
  }

  /** Closing keeps a prefix of the registry, so it stays duplicate-free. */
  lemma {:induction false} CloseKeepsValid(st: State, target: SocketId)
    requires Valid(st)
    ensures Valid(OnClose(st, target))
  {
    var kept := OnClose(st, target).sockets;
    assert kept == st.sockets[..|kept|];
    forall i, j | 0 <= i < j < |kept| ensures kept[i] != kept[j] {
      assert kept[i] == st.sockets[i] && kept[j] == st.sockets[j];
    }
  }

  /** The walk-through's start-up: the watcher reports the existing file as
      `add` while nobody is connected, so its `file:changed` waits in the
      queue and nothing is sent. */
  lemma {:induction false} ScenarioInitialAdd(s0: State, filePath: string, v0: string)
    requires s0.sockets == []
    ensures var sw := OnWatch(s0, filePath, WatchEvent(Add, filePath), Ok(v0));
      && sw.sockets == [] && sw.queue == s0.queue + [FileChanged(v0)]
      && (forall t :: Sent(sw.outbox, t) == Sent(s0.outbox, t))
  {
    assert OnWatch(s0, filePath, WatchEvent(Add, filePath), Ok(v0)) == Enqueue(s0, FileChanged(v0));
  }

  /** The first client to connect receives what waited in the queue, then
      `file:loaded`; nobody else is sent anything. */
  lemma {:induction false} ScenarioFirstConnect(sw: State, a: SocketId, b: SocketId, v0: string)
    requires a != b && sw.sockets == []
    ensures var s1 := OnConnect(sw, a, Ok(v0));
      && s1.sockets == [a] && s1.queue == []
      && Sent(s1.outbox, a) == Sent(sw.outbox, a) + sw.queue + [FileLoaded(v0)]
      && Sent(s1.outbox, b) == Sent(sw.outbox, b)
  {
    ConnectConverges(sw, a, v0, a);
    ConnectConverges(sw, a, v0, b);
  }

  /** A change seen by the watcher while exactly one client is connected sends
      that client one `file:changed` and nobody else anything. */
  lemma {:induction false} ScenarioChange(s1: State, filePath: string, a: SocketId, b: SocketId, v1: string)
    requires a != b && s1.sockets == [a] && s1.queue == []
    ensures var s2 := OnWatch(s1, filePath, WatchEvent(Change, filePath), Ok(v1));
      && s2.sockets == [a] && s2.queue == []
      && Sent(s2.outbox, a) == Sent(s1.outbox, a) + [FileChanged(v1)]
      && Sent(s2.outbox, b) == Sent(s1.outbox, b)
  {
    var ev := WatchEvent(Change, filePath);
    FanOutCompleteness(s1, filePath, ev, v1, a);
    FanOutCompleteness(s1, filePath, ev, v1, b);
  }

  /** A second client's connection, with nothing pending, sends `file:loaded`
      to the earlier client and to the new one. */
  lemma {:induction false} ScenarioSecondConnect(s2: State, a: SocketId, b: SocketId, v1: string)
    requires a != b && s2.sockets == [a] && s2.queue == []
    ensures var s3 := OnConnect(s2, b, Ok(v1));
      && Sent(s3.outbox, a) == Sent(s2.outbox, a) + [FileLoaded(v1)]
      && Sent(s3.outbox, b) == Sent(s2.outbox, b) + [FileLoaded(v1)]
  {
    ConnectConverges(s2, b, v1, a);
    ConnectConverges(s2, b, v1, b);
  }

  /** The walk-through's last step: a client's written `file:update` puts its
      text on disk and sends nothing to anyone. */
  lemma {:induction false} ScenarioWrite(s3: State, filePath: string, a: SocketId, b: SocketId, v2: string)
    ensures var s4 := OnMessage(s3, filePath, Update(v2), true);
      && Sent(s4.outbox, a) == Sent(s3.outbox, a) && Sent(s4.outbox, b) == Sent(s3.outbox, b)
      && filePath in s4.files && s4.files[filePath] == v2
  {
    UpdateWritesThrough(s3, filePath, v2);
  }

  /** The end-to-end walk-through: the service starts on a file holding v0 and
      the watcher reports it; a connects; the file changes to v1; b connects;
      a client writes v2. The reads return the real file's text: v0 until the
      change, v1 after it. `files` records only the service's own writes, so it
      still holds v0 after the external change to v1. */
  lemma {:induction false} Scenario(filePath: string, a: SocketId, b: SocketId, v0: string, v1: string, v2: string)
    requires a != b
    ensures
      var s0 := State([], [], map[], map[filePath := v0]);
      var sw := OnWatch(s0, filePath, WatchEvent(Add, filePath), Ok(v0));
      var s1 := OnConnect(sw, a, Ok(v0));
      var s2 := OnWatch(s1, filePath, WatchEvent(Change, filePath), Ok(v1));
      var s3 := OnConnect(s2, b, Ok(v1));
      var s4 := OnMessage(s3, filePath, Update(v2), true);
      && Sent(s4.outbox, a) == [FileChanged(v0), FileLoaded(v0), FileChanged(v1), FileLoaded(v1)]
      && Sent(s4.outbox, b) == [FileLoaded(v1)]
      && s4.files[filePath] == v2
  {
    var s0 := State([], [], map[], map[filePath := v0]);
    var sw := OnWatch(s0, filePath, WatchEvent(Add, filePath), Ok(v0));
    var s1 := OnConnect(sw, a, Ok(v0));
    assert s1.sockets == [a] && s1.queue == []
        && Sent(s1.outbox, a) == [FileChanged(v0), FileLoaded(v0)] && Sent(s1.outbox, b) == [] by {
      ScenarioInitialAdd(s0, filePath, v0);
      ScenarioFirstConnect(sw, a, b, v0);
    }
    var s2 := OnWatch(s1, filePath, WatchEvent(Change, filePath), Ok(v1));
    assert s2.sockets == [a] && s2.queue == []
        && Sent(s2.outbox, a) == [FileChanged(v0), FileLoaded(v0), FileChanged(v1)] && Sent(s2.outbox, b) == [] by {
      ScenarioChange(s1, filePath, a, b, v1);
    }
    var s3 := OnConnect(s2, b, Ok(v1));
    assert Sent(s3.outbox, a) == [FileChanged(v0), FileLoaded(v0), FileChanged(v1), FileLoaded(v1)]
        && Sent(s3.outbox, b) == [FileLoaded(v1)] by {
      ScenarioSecondConnect(s2, a, b, v1);
    }
    var s4 := OnMessage(s3, filePath, Update(v2), true);
    assert Sent(s4.outbox, a) == [FileChanged(v0), FileLoaded(v0), FileChanged(v1), FileLoaded(v1)] by {
      ScenarioWrite(s3, filePath, a, b, v2);
    }
    assert Sent(s4.outbox, b) == [FileLoaded(v1)] by {
      ScenarioWrite(s3, filePath, a, b, v2);
    }
    assert s4.files[filePath] == v2 by {
      ScenarioWrite(s3, filePath, a, b, v2);
    }
  }
}
