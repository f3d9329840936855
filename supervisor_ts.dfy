/** The `LiveServer` singleton of index.ts: `start` wires the responder, the WebSocket server and
    the watcher; the `error`, `listening`, `connection` and watcher handlers run later. */
module SupervisorTs {
  import opened Wrappers
  import opened WatchIgnore
  import opened ReloadChannel
  import opened Handles

  class LiveServer {
    var server: HttpServer?       // assigned only by the `listening` handler
    var watcher: FsWatcher?
    var logLevel: int
    // state the closures of the last `start` captured
    var root: string
    var requestLog: RequestLog
    var httpServer: HttpServer?
    var wss: ClientRegistry?

    ghost predicate Valid()
      reads this, wss
    {
      && (httpServer != null <==> wss != null)
      && (watcher != null ==> wss != null)
      && (wss != null ==> wss.Valid())
    }

    constructor ()
      ensures Valid()
      ensures server == null && watcher == null && logLevel == 2
      ensures httpServer == null && wss == null
    {
      server, watcher, logLevel := null, null, 2;
      root, requestLog, httpServer, wss := "", ErrorsOnly, null, null;
    }

    /** `start(options)`: `port` defaults to 8080 only when undefined, `poll` to false, `root` to
        the working directory, `watch` to `[root]`, `logLevel` to 2. The server listens on the
        port without a host; `server` itself is left alone. */
    method Start(options: Options, cwd: string) returns (srv: HttpServer)
      requires Valid()
      modifies this
      ensures Valid()
      ensures fresh(srv) && httpServer == srv && !srv.closed
      ensures srv.listenCalls == [ListenCall(options.port.GetOr(8080), None)]
      ensures root == RootOrCwd(options.root, cwd)
      ensures logLevel == options.logLevel.GetOr(2) && requestLog == LogPolicy(logLevel)
      ensures fresh(wss) && wss.clients == [] && wss.outbox == map[]
      ensures watcher != null && fresh(watcher) && !watcher.closed
      ensures watcher.paths == options.watch.GetOr([root]) && watcher.usePolling == options.poll.GetOr(false)
      ensures watcher.ignored == IgnoreChain(options.ignore) && watcher.ignoreInitial
      ensures server == old(server)
    {
      var port := options.port.GetOr(8080);
      var poll := options.poll.GetOr(false);
      root := RootOrCwd(options.root, cwd);
      var watchPaths := options.watch.GetOr([root]);
      logLevel := options.logLevel.GetOr(2);
      requestLog := LogPolicy(logLevel);
      srv := new HttpServer();
      httpServer := srv;
      srv.Listen(port, None);
      wss := new ClientRegistry();
      watcher := new FsWatcher(watchPaths, poll, IgnoreChain(options.ignore), true);
    }

    /** The server's `error` handler: every error, an address in use included, shuts down. */
    method OnError()
      requires Valid()
      modifies watcher, server
      ensures watcher != null ==> watcher.closed
      ensures server != null ==> server.closed && server.listenCalls == old(server.listenCalls)
    {
      Shutdown();
    }

    /** The server's `listening` handler. */
    method OnListening(port: Option<nat>) returns (ann: Announcement)
      requires Valid()
      modifies this`server
      ensures Valid()
      ensures server == httpServer
      ensures port.None? ==> ann == AddressMissing
      ensures port.Some? ==> ann == if logLevel >= 1 then ServingOnPort(root, port.value) else Silent
    {
      server := httpServer;
      if port.None? {
        return AddressMissing;
      }
      if logLevel >= 1 {
        ann := ServingOnPort(root, port.value);
      } else {
        ann := Silent;
      }
    }

    /** `websocketServer.on("connection", ws => ws.send("connected"))`. */
    method OnConnection() returns (id: ClientId)
      requires Valid() && wss != null
      modifies wss
      ensures Valid()
      ensures id !in old(wss.outbox)
      ensures wss.clients == old(wss.clients) + [id] && wss.outbox == old(wss.outbox)[id := ["connected"]]
    {
      id := wss.Connect();
      wss.Send(id, "connected");
      assert [] + ["connected"] == ["connected"];
    }

    /** A change in the file system seen by the watcher: each of the five change events sends one
        `"reload"` to every tracked client; `ready`, `error` and ignored paths send nothing. */
    method OnWatcherEvent(e: WatchEvent)
      requires Valid()
      modifies wss
      ensures Valid()
      ensures wss != null ==> wss.clients == old(wss.clients)
      ensures wss != null ==>
        wss.outbox == if watcher != null && watcher.Emits(e) && IsChange(e)
                      then Broadcasted(old(wss.outbox), wss.clients, "reload")
                      else old(wss.outbox)
    {
      if watcher != null && watcher.Emits(e) && IsChange(e) {
        wss.Broadcast("reload");
      }
    }

    /** `shutdown()`: closes the watcher if there is one and the server if `listening` recorded
        one; safe to call any number of times. */
    method Shutdown()
      modifies watcher, server
      ensures watcher != null ==> watcher.closed
      ensures server != null ==> server.closed && server.listenCalls == old(server.listenCalls)
    {
      if watcher != null {
        watcher.Close();
      }
      if server != null {
        server.Close();
      }
    }
  }
}
