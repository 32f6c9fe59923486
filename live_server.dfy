/** The live-sync service as the source runs it: one object owning the socket
    registry and the message queue, updated in place by the event handlers.
    Every handler is proved to perform exactly the transition that module
    LiveSync defines, so the lemmas proved there apply to it. */
module LiveServer {
  import opened Base
  import opened LiveSync
  import StudioStart

  /** Taking as many elements as a sequence has gives the whole sequence. */
  lemma {:induction false} WholePrefix<T>(s: seq<T>, k: nat)
    requires k == |s|
    ensures s[..k] == s
  {
  }

  class Server {
    /** The configured watched file (`filePath` of the options). */
    const filePath: string
    /** The `sockets` array. */
    var sockets: seq<SocketId>
    /** The `messageQueue` array. */
    var queue: seq<Msg>
    /** What each socket has been sent, standing for `socket.send`. */
    var outbox: map<SocketId, seq<Msg>>
    /** The disk, as far as the service writes it. */
    var files: map<string, string>

    ghost function Snapshot(): State
      reads this
    {
      State(sockets, queue, outbox, files)
    }

    ghost predicate Valid()
      reads this
    {
      LiveSync.Valid(Snapshot())
    }

    /** A fresh service on `filePath`: nobody connected, nothing queued. */
    constructor (filePath: string, files: map<string, string>)
      ensures Valid()
      ensures this.filePath == filePath
      ensures Snapshot() == State([], [], map[], files)
    {
      this.filePath := filePath;
      sockets := [];
      queue := [];
      outbox := map[];
      this.files := files;
    }

    /** `sendQueuedMessages`. */
    method SendQueuedMessages()
      requires Valid()
      modifies this
      ensures Valid()
      ensures Snapshot() == Flush(old(Snapshot()))
    {
      ghost var pending := queue;
      ghost var before := outbox;
      ghost var shifted := 0;
      while |queue| > 0 && |sockets| > 0
        invariant sockets == old(sockets) && files == old(files)
        invariant 0 <= shifted <= |pending| && queue == pending[shifted..]
        invariant outbox == DeliverAll(before, sockets, pending[..shifted])
        invariant sockets == [] ==> shifted == 0
        decreases |queue|
      {
        var next := queue[0];
        queue := queue[1..];
        ghost var start := outbox;
        var registered := sockets;
        for i := 0 to |registered|
          invariant sockets == registered == old(sockets) && files == old(files)
          invariant queue == pending[shifted + 1..]
          invariant outbox == Broadcast(start, registered[..i], next)
        {
          BroadcastStep(start, registered, i, next);
          outbox := Send(outbox, registered[i], next);
        }
        WholePrefix(registered, |registered|);
        DeliverAllStep(before, registered, pending, shifted);
        shifted := shifted + 1;
      }
      if queue == [] {
        WholePrefix(pending, shifted);
      }
    }

    /** The watcher's 'all' handler; `read` is the outcome of reading the
        reported path. */
    method OnWatcherEvent(ev: WatchEvent, read: ReadResult)
      requires Valid()
      modifies this
      ensures Valid()
      ensures Snapshot() == OnWatch(old(Snapshot()), filePath, ev, read)
    {
      match ev.kind {
        case Add | Change =>
          if read.Ok? {
            queue := queue + [FileChanged(read.content)];
            SendQueuedMessages();
          }
        case Unlink =>
          queue := queue + [FileDeleted(filePath)];
          SendQueuedMessages();
        case AddDir | UnlinkDir =>
      }
    }

    /** The 'connection' handler; `read` is the outcome of reading the
        configured file. */
    method OnConnection(socket: SocketId, read: ReadResult)
      requires Valid() && socket !in sockets
      modifies this
      ensures Valid()
      ensures Snapshot() == OnConnect(old(Snapshot()), socket, read)
    {
      sockets := sockets + [socket];
      assert LiveSync.Valid(Snapshot());
      if read.Ok? {
        queue := queue + [FileLoaded(read.content)];
        SendQueuedMessages();
      }
    }

    /** The 'upgrade' handler of either server: only `/live-server` becomes a
        connection; any other request's socket is destroyed. */
    method OnUpgrade(url: string, socket: SocketId, read: ReadResult)
      requires Valid() && socket !in sockets
      modifies this
      ensures Valid()
      ensures Snapshot() == if url == StudioStart.LiveServerPath
                            then OnConnect(old(Snapshot()), socket, read)
                            else old(Snapshot())
    {
      match StudioStart.RouteUpgrade(url) {
        case HandleUpgrade => OnConnection(socket, read);
        case Destroy =>
      }
    }

    /** The 'close' handler. */
    method OnCloseEvent(target: SocketId)
      requires Valid()
      modifies this
      ensures Valid()
      ensures Snapshot() == OnClose(old(Snapshot()), target)
    {
      sockets := Splice(sockets, FindIndex(sockets, target));
      CloseKeepsValid(old(Snapshot()), target);
    }

    /** A socket's 'message' handler; `written` is whether the write succeeded. */
    method OnSocketMessage(msg: Inbound, written: bool)
      requires Valid()
      modifies this
      ensures Valid()
      ensures Snapshot() == OnMessage(old(Snapshot()), filePath, msg, written)
    {
      if msg.Update? && written {
        files := files[filePath := msg.code];
      }
    }
  }
}
