/** The `LiveServer` object of index.js, a different revision from index.ts: it binds to a host,
    retries on port 0 when the address is in use, and announces the URLs it serves. */
module SupervisorJs {
  import opened Wrappers
  import opened Text
  import opened WatchIgnore
  import opened ReloadChannel
  import opened Handles

  /** `server.address()` once listening. */
  datatype Address = Address(address: string, port: nat)

  /** One entry of `os.networkInterfaces()[name]`. */
  datatype IfaceAddr = IfaceAddr(address: string, family: string)

  /** The `error` event's argument: an `EADDRINUSE` error or anything else. */
  datatype ServerError = AddrInUse | OtherError(message: string)

  const Wildcard: string := "0.0.0.0"
  const Loopback: string := "127.0.0.1"

  /** The wildcard address is shown as the loopback address. */
  function DisplayHost(h: string): string {
    if h == Wildcard then Loopback else h
  }

  function UrlFor(host: string, port: nat): string {
    "http://" + host + ":" + NatToDecimal(port)
  }

  /** Reads the port back from the digits after the last `:` of a URL. */
  function UrlPort(url: string): Option<nat> {
    var tail := AfterLast(url, ':');
    if |tail| > 0 && AllDigits(tail) then Some(DecimalValue(tail)) else None
  }

  /** Every URL is `http://host:port` and the port reads back, whatever the host looks like. */
  lemma UrlPortRoundTrip(host: string, port: nat)
    ensures UrlFor(host, port)[..7] == "http://"
    ensures UrlPort(UrlFor(host, port)) == Some(port)
  {
    var digits := NatToDecimal(port);
    assert ':' !in digits by {
      forall i | 0 <= i < |digits| ensures digits[i] != ':' {
        assert IsDigit(digits[i]);
      }
    }
    assert UrlFor(host, port) == ("http://" + host) + [':'] + digits;
    AfterLastAppend("http://" + host, ':', digits);
    DecimalRoundTrip(port);
  }

  /** `addresses.filter(addr => addr.family === "IPv4")`. */
  function OnlyIPv4(addrs: seq<IfaceAddr>): seq<IfaceAddr> {
    if |addrs| == 0 then []
    else OnlyIPv4(addrs[..|addrs| - 1]) + (if addrs[|addrs| - 1].family == "IPv4" then [addrs[|addrs| - 1]] else [])
  }

  /** The `reduce` over the interfaces: their IPv4 addresses, interface by interface, in order. */
  function FlattenIPv4(ifaces: seq<seq<IfaceAddr>>): seq<IfaceAddr> {
    if |ifaces| == 0 then [] else FlattenIPv4(ifaces[..|ifaces| - 1]) + OnlyIPv4(ifaces[|ifaces| - 1])
  }

  lemma {:induction false} OnlyIPv4Members(addrs: seq<IfaceAddr>, x: IfaceAddr)
    ensures x in OnlyIPv4(addrs) <==> x in addrs && x.family == "IPv4"
    decreases |addrs|
  {
    if |addrs| > 0 {
      var init := addrs[..|addrs| - 1];
      OnlyIPv4Members(init, x);
      assert addrs == init + [addrs[|addrs| - 1]];
    }
  }

  /** Exactly the IPv4 addresses of all interfaces are collected. */
  lemma {:induction false} FlattenIPv4Members(ifaces: seq<seq<IfaceAddr>>, x: IfaceAddr)
    ensures x in FlattenIPv4(ifaces) <==>
            x.family == "IPv4" && exists g :: 0 <= g < |ifaces| && x in ifaces[g]
    decreases |ifaces|
  {
    if |ifaces| > 0 {
      var n := |ifaces| - 1;
      var init := ifaces[..n];
      FlattenIPv4Members(init, x);
      OnlyIPv4Members(ifaces[n], x);
      if exists g :: 0 <= g < |ifaces| && x in ifaces[g] {
        var g :| 0 <= g < |ifaces| && x in ifaces[g];
        if g < n {
          assert x in init[g];
        }
      }
      if exists g :: 0 <= g < |init| && x in init[g] {
        var g :| 0 <= g < |init| && x in init[g];
        assert x in ifaces[g];
      }
    }
  }

  /** The `reduce`/`push` loop of the `listening` handler. */
  method CollectIPv4(ifaces: seq<seq<IfaceAddr>>) returns (data: seq<IfaceAddr>)
    ensures data == FlattenIPv4(ifaces)
  {
    data := [];
    var g := 0;
    while g < |ifaces|
      invariant 0 <= g <= |ifaces|
      invariant data == FlattenIPv4(ifaces[..g])
    {
      var addresses := ifaces[g];
      var k := 0;
      while k < |addresses|
        invariant 0 <= k <= |addresses|
        invariant data == FlattenIPv4(ifaces[..g]) + OnlyIPv4(addresses[..k])
      {
        assert addresses[..k + 1][..k] == addresses[..k];
        if addresses[k].family == "IPv4" {
          data := data + [addresses[k]];
        }
        k := k + 1;
      }
      assert addresses[..k] == addresses;
      assert ifaces[..g + 1][..g] == ifaces[..g];
      g := g + 1;
    }
    assert ifaces[..g] == ifaces;
  }

  function UrlsFor(addrs: seq<IfaceAddr>, port: nat): seq<string> {
    seq(|addrs|, i requires 0 <= i < |addrs| => UrlFor(addrs[i].address, port))
  }

  /** `serveURLs`: one URL per IPv4 interface address when the level is above 2 and the server is
      bound to the wildcard address, otherwise the single serve URL. */
  function ServeUrls(logLevel: int, a: Address, ifaces: seq<seq<IfaceAddr>>): seq<string> {
    if logLevel > 2 && a.address == Wildcard then UrlsFor(FlattenIPv4(ifaces), a.port)
    else [UrlFor(DisplayHost(a.address), a.port)]
  }

  /** Every announced URL carries the port actually bound, and with the wildcard shown as loopback. */
  lemma ServeUrlsUseBoundPort(logLevel: int, a: Address, ifaces: seq<seq<IfaceAddr>>)
    ensures forall u :: u in ServeUrls(logLevel, a, ifaces) ==> u[..7] == "http://" && UrlPort(u) == Some(a.port)
    ensures !(logLevel > 2 && a.address == Wildcard) ==>
      ServeUrls(logLevel, a, ifaces) == [UrlFor(DisplayHost(a.address), a.port)]
      && (a.address == Wildcard ==> ServeUrls(logLevel, a, ifaces) == ["http://127.0.0.1:" + NatToDecimal(a.port)])
  {
    var urls := ServeUrls(logLevel, a, ifaces);
    assert "http://" + Loopback + ":" + NatToDecimal(a.port) == "http://127.0.0.1:" + NatToDecimal(a.port);
    forall u | u in urls ensures u[..7] == "http://" && UrlPort(u) == Some(a.port) {
      var i :| 0 <= i < |urls| && urls[i] == u;
      if logLevel > 2 && a.address == Wildcard {
        UrlPortRoundTrip(FlattenIPv4(ifaces)[i].address, a.port);
      } else {
        UrlPortRoundTrip(DisplayHost(a.address), a.port);
      }
    }
  }

  /** With the level above 2 and the wildcard bound, the URLs are one per IPv4 interface address,
      in interface order. */
  lemma ServeUrlsPerInterface(logLevel: int, a: Address, ifaces: seq<seq<IfaceAddr>>, x: IfaceAddr)
    requires logLevel > 2 && a.address == Wildcard
    ensures |ServeUrls(logLevel, a, ifaces)| == |FlattenIPv4(ifaces)|
    ensures forall i :: 0 <= i < |FlattenIPv4(ifaces)| ==>
              ServeUrls(logLevel, a, ifaces)[i] == UrlFor(FlattenIPv4(ifaces)[i].address, a.port)
    ensures x.family == "IPv4" && (exists g :: 0 <= g < |ifaces| && x in ifaces[g]) ==>
              UrlFor(x.address, a.port) in ServeUrls(logLevel, a, ifaces)
  {
    FlattenIPv4Members(ifaces, x);
    var flat := FlattenIPv4(ifaces);
    if x in flat {
      var i :| 0 <= i < |flat| && flat[i] == x;
      assert ServeUrls(logLevel, a, ifaces)[i] == UrlFor(x.address, a.port);
    }
  }

  /** The message of the `listening` handler. */
  function Announce(logLevel: int, host: string, root: string, a: Address, ifaces: seq<seq<IfaceAddr>>): Announcement {
    if logLevel < 1 then Silent
    else
      var serveURL := UrlFor(DisplayHost(a.address), a.port);
      var openURL := UrlFor(DisplayHost(host), a.port);
      var urls := ServeUrls(logLevel, a, ifaces);
      if serveURL == openURL then
        if |urls| == 1 then ServingAt(root, urls[0]) else ServingAtList(root, urls)
      else ServingAtBoth(root, openURL, serveURL)
  }

  /** `process.env.IP || "0.0.0.0"`: an unset or empty variable gives the wildcard address. */
  function HostFromEnv(envIp: Option<string>): (h: string)
    ensures envIp.Some? && |envIp.value| > 0 ==> h == envIp.value
    ensures envIp.None? || |envIp.value| == 0 ==> h == Wildcard
  {
    if envIp.Some? && envIp.value != "" then envIp.value else Wildcard
  }

  /** The three handles `start` opens: the server, already asked to listen, the WebSocket server
      and the watcher. */
  method OpenHandles(port: int, host: string, paths: seq<string>, poll: bool, ignored: seq<Matcher>)
    returns (srv: HttpServer, channel: ClientRegistry, w: FsWatcher)
    ensures fresh(srv) && !srv.closed && srv.listenCalls == [ListenCall(port, Some(host))]
    ensures fresh(channel) && channel.Valid() && channel.clients == [] && channel.outbox == map[]
    ensures fresh(w) && !w.closed && w.paths == paths && w.usePolling == poll
    ensures w.ignored == ignored && w.ignoreInitial
  {
    srv := new HttpServer();
    srv.Listen(port, Some(host));
    channel := new ClientRegistry();
    w := new FsWatcher(paths, poll, ignored, true);
  }

  class LiveServer {
    var server: HttpServer?       // assigned only by the `listening` handler
    var watcher: FsWatcher?
    var logLevel: int
    // state the closures of the last `start` captured
    var host: string
    var port: int
    var root: string
    var requestLog: RequestLog
    var httpServer: HttpServer?
    var wss: ClientRegistry?

    ghost predicate Valid()
      reads this, wss
    {
      && (httpServer != null <==> wss != null)
      && (watcher != null ==> wss != null)
      && (wss != null ==> wss.Valid())
    }

    constructor ()
      ensures Valid()
      ensures server == null && watcher == null && logLevel == 2
      ensures httpServer == null && wss == null
    {
      server, watcher, logLevel := null, null, 2;
      host, port, root, requestLog, httpServer, wss := Wildcard, 8080, "", ErrorsOnly, null, null;
    }

    /** `start(options)`: the host is `process.env.IP` unless that is unset or empty, then the
        wildcard; the other defaults are those of index.ts. */
    method Start(options: Options, envIp: Option<string>, cwd: string) returns (srv: HttpServer)
      requires Valid()
      modifies this
      ensures Valid()
      ensures host == HostFromEnv(envIp)
      ensures port == options.port.GetOr(8080)
      ensures fresh(srv) && httpServer == srv && !srv.closed
      ensures srv.listenCalls == [ListenCall(port, Some(host))]
      ensures root == RootOrCwd(options.root, cwd)
      ensures logLevel == options.logLevel.GetOr(2) && requestLog == LogPolicy(logLevel)
      ensures fresh(wss) && wss.clients == [] && wss.outbox == map[]
      ensures watcher != null && fresh(watcher) && !watcher.closed
      ensures watcher.paths == options.watch.GetOr([root]) && watcher.usePolling == options.poll.GetOr(false)
      ensures watcher.ignored == IgnoreChain(options.ignore) && watcher.ignoreInitial
      ensures server == old(server)
    {
      var h := HostFromEnv(envIp);
      var p := options.port.GetOr(8080);
      var r := RootOrCwd(options.root, cwd);
      var level := options.logLevel.GetOr(2);
      var channel, w;
      srv, channel, w := OpenHandles(p, h, options.watch.GetOr([r]), options.poll.GetOr(false), IgnoreChain(options.ignore));
      host, port, root, logLevel, requestLog := h, p, r, level, LogPolicy(level);
      httpServer, wss, watcher := srv, channel, w;
    }

    /** The server's `error` handler: an address in use makes the server listen again on port 0
        with the same host (the one-second delay is not modelled); any other error shuts down. */
    method OnError(e: ServerError)
      requires Valid() && httpServer != null
      modifies httpServer, watcher, server
      ensures e.AddrInUse? ==>
        && httpServer.listenCalls == old(httpServer.listenCalls) + [ListenCall(0, Some(host))]
        && httpServer.closed == old(httpServer.closed)
        && (watcher != null ==> watcher.closed == old(watcher.closed))
        && (server != null ==> server.closed == old(server.closed))
      ensures e.OtherError? ==>
        && (watcher != null ==> watcher.closed)
        && (server != null ==> server.closed)
        && httpServer.listenCalls == old(httpServer.listenCalls)
        && (server == null ==> httpServer.closed == old(httpServer.closed))
    {
      if e.AddrInUse? {
        httpServer.Listen(0, Some(host));
      } else {
        Shutdown();
      }
    }

    /** The server's `listening` handler: records the server, then works out what to announce. */
    method OnListening(address: Option<Address>, ifaces: seq<seq<IfaceAddr>>) returns (ann: Announcement)
      requires Valid()
      modifies this`server
      ensures Valid()
      ensures server == httpServer
      ensures address.None? ==> ann == AddressMissing
      ensures address.Some? ==> ann == Announce(logLevel, host, root, address.value, ifaces)
    {
      server := httpServer;
      if address.None? {
        return AddressMissing;
      }
      var a := address.value;
      var serveHost := if a.address == Wildcard then Loopback else a.address;
      var openHost := if host == Wildcard then Loopback else host;
      var serveURL := UrlFor(serveHost, a.port);
      var openURL := UrlFor(openHost, a.port);
      var serveURLs := [serveURL];
      if logLevel > 2 && a.address == Wildcard {
        var data := CollectIPv4(ifaces);
        serveURLs := UrlsFor(data, a.port);
      }
      if logLevel >= 1 {
        if serveURL == openURL {
          if |serveURLs| == 1 {
            ann := ServingAt(root, serveURLs[0]);
          } else {
            ann := ServingAtList(root, serveURLs);
          }
        } else {
          ann := ServingAtBoth(root, openURL, serveURL);
        }
      } else {
        ann := Silent;
      }
    }

    /** `websocketServer.on("connection", ws => ws.send('connected'))`. */
    method OnConnection() returns (id: ClientId)
      requires Valid() && wss != null
      modifies wss
      ensures Valid()
      ensures id !in old(wss.outbox)
      ensures wss.clients == old(wss.clients) + [id] && wss.outbox == old(wss.outbox)[id := ["connected"]]
    {
      id := wss.Connect();
      wss.Send(id, "connected");
      assert [] + ["connected"] == ["connected"];
    }

    /** A change in the file system seen by the watcher, handled as in index.ts. */
    method OnWatcherEvent(e: WatchEvent)
      requires Valid()
      modifies wss
      ensures Valid()
      ensures wss != null ==> wss.clients == old(wss.clients)
      ensures wss != null ==>
        wss.outbox == if watcher != null && watcher.Emits(e) && IsChange(e)
                      then Broadcasted(old(wss.outbox), wss.clients, "reload")
                      else old(wss.outbox)
    {
      if watcher != null && watcher.Emits(e) && IsChange(e) {
        wss.Broadcast("reload");
      }
    }

    /** `shutdown()`: closes the watcher if there is one and the server if `listening` recorded one. */
    method Shutdown()
      modifies watcher, server
      ensures watcher != null ==> watcher.closed
      ensures server != null ==> server.closed && server.listenCalls == old(server.listenCalls)
    {
      var w := watcher;
      if w != null {
        w.Close();
      }
      var s := server;
      if s != null {
        s.Close();
      }
    }
  }
}
