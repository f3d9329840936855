/** `staticServer(root)`: the connect middleware that answers one request from the directory the
    process runs in. Stat and read go to `"." + reqpath`; only `send` is given `root`. */
module StaticServer {
  import opened Wrappers
  import opened HtmlEscape
  import opened Injector

  /** What `fs.statSync` finds at a path; a file's text is absent when `readFileSync` fails. */
  datatype Entry = File(text: Option<string>) | Dir

  /** The file system as seen by `fs.statSync`/`fs.readFileSync`, keyed by the exact string passed. */
  type FileSystem = map<string, Entry>

  function Stat(fs: FileSystem, p: string): Option<Entry> {
    if p in fs then Some(fs[p]) else None
  }

  function ReadText(fs: FileSystem, p: string): Option<string> {
    if p in fs && fs[p].File? then fs[p].text else None
  }

  /** A request: its method and the `pathname` of `url.parse(req.url)` and of
      `url.parse(req.originalUrl)` (absent when the URL has none). */
  datatype Request = Request(verb: string, pathname: Option<string>, originalPathname: Option<string>)

  /** How the `send` stream ends for a path: piped, an `error` event with its `status`, or a
      `directory` event. */
  datatype SendOutcome = SendOk | SendError(status: int) | SendDirectory

  datatype Reply =
    | Next                                      // next(): the request goes on to serve-index
    | NextError(status: int)                    // next(err)
    | Redirect301(location: string, body: string)
    | ServeHtml(path: string, body: string)     // 200 with the injected document
    | NotFound404(body: string)
    | SendDelegated(path: string)               // handed to `send`
    | Streamed(path: string)                    // `send` piped the file into the response

  predicate IsReadMethod(verb: string) {
    verb == "GET" || verb == "HEAD"
  }

  predicate EndsWithSlash(p: string) {
    |p| > 0 && p[|p| - 1] == '/'
  }

  function RedirectTo(p: string): Reply {
    Redirect301(p + "/", "Redirecting to " + Escape(p) + "/")
  }

  function NotFoundBody(p: string): string {
    "File " + p + " not found."
  }

  /** The disposition of a request before `send` runs. `isHtml` stands for
      `mime.getType(path) === "text/html"`. */
  function Disposition(req: Request, fs: FileSystem, isHtml: string -> bool, code: Fragment): (r: Reply)
    ensures !IsReadMethod(req.verb) || req.pathname.None? || req.pathname == Some("") ==> r == Next
    ensures r.Redirect301? <==>
      IsReadMethod(req.verb) && req.pathname.Some? && req.pathname.value != ""
      && Stat(fs, "." + req.pathname.value) == Some(Dir) && !EndsWithSlash(req.pathname.value)
    ensures r.ServeHtml? || r.NotFound404? || r.SendDelegated? ==>
      IsReadMethod(req.verb) && req.pathname.Some? && req.pathname.value != ""
  {
    if !IsReadMethod(req.verb) then Next
    else if req.pathname.None? || req.pathname.value == "" then Next
    else
      var reqpath := req.pathname.value;
      if Stat(fs, "." + reqpath) == Some(Dir) && !EndsWithSlash(reqpath) then RedirectTo(reqpath)
      else
        var target :=
          if Stat(fs, "." + reqpath) == Some(Dir) && Stat(fs, "." + reqpath + "/index.html").Some?
          then reqpath + "/index.html" else reqpath;
        if isHtml(target) then
          match ReadText(fs, "." + target)
          case Some(contents) => ServeHtml(target, Inject(contents, code))
          case None => NotFound404(NotFoundBody(target))
        else SendDelegated(target)
  }

  /** The `error` and `directory` handlers of the `send` stream. */
  function AfterSend(outcome: SendOutcome, path: string, originalPathname: Option<string>): (r: Reply)
    ensures r.Next? <==> outcome == SendError(404)
    ensures r.NextError? <==> outcome.SendError? && outcome.status != 404
    ensures r.Streamed? <==> outcome.SendOk?
    ensures r.Redirect301? <==> outcome.SendDirectory?
  {
    match outcome
    case SendOk => Streamed(path)
    case SendError(status) => if status == 404 then Next else NextError(status)
    case SendDirectory => RedirectTo(originalPathname.GetOr(""))
  }

  /** The whole handler, with `send`'s behaviour given as a function of the path. */
  function Respond(req: Request, fs: FileSystem, isHtml: string -> bool, code: Fragment,
                   send: string -> SendOutcome): (r: Reply)
    ensures !r.SendDelegated?
    ensures var d := Disposition(req, fs, isHtml, code);
            && (!d.SendDelegated? ==> r == d)
            && (d.SendDelegated? ==> r == AfterSend(send(d.path), d.path, req.originalPathname))
  {
    match Disposition(req, fs, isHtml, code)
    case SendDelegated(p) => AfterSend(send(p), p, req.originalPathname)
    case d => d
  }

  // ---------------------------------------------------------------------
  // Properties of the disposition

  /** A directory asked for without its trailing slash is redirected to the path plus `/`, and the
      path shows up in the body only escaped. */
  lemma DirectoryRedirect(req: Request, fs: FileSystem, isHtml: string -> bool, code: Fragment)
    requires IsReadMethod(req.verb) && req.pathname.Some? && req.pathname.value != ""
    requires Stat(fs, "." + req.pathname.value) == Some(Dir) && !EndsWithSlash(req.pathname.value)
    ensures var r := Disposition(req, fs, isHtml, code);
            var shown := r.body[|"Redirecting to "|..|r.body| - 1];
            && r.location == req.pathname.value + "/"
            && r.body == "Redirecting to " + shown + "/"
            && shown == Escape(req.pathname.value)
            && NoMarkup(shown) && AmpSafe(shown)
  {
    var p := req.pathname.value;
    EscapeIsSafe(p);
    var body := "Redirecting to " + Escape(p) + "/";
    assert body[|"Redirecting to "|..|body| - 1] == Escape(p);
  }

  /** For a directory asked for with its trailing slash, the path becomes `reqpath + "/index.html"`
      (slash doubled) when that stat succeeds; an HTML file there is served injected. */
  lemma IndexRewrite(req: Request, fs: FileSystem, isHtml: string -> bool, code: Fragment)
    requires IsReadMethod(req.verb) && req.pathname.Some?
    requires Stat(fs, "." + req.pathname.value) == Some(Dir) && EndsWithSlash(req.pathname.value)
    requires Stat(fs, "." + req.pathname.value + "/index.html").Some?
    ensures var p := req.pathname.value + "/index.html";
            var r := Disposition(req, fs, isHtml, code);
            && (isHtml(p) && ReadText(fs, "." + p).Some? ==> r == ServeHtml(p, Inject(ReadText(fs, "." + p).value, code)))
            && (isHtml(p) && ReadText(fs, "." + p).None? ==> r == NotFound404("File " + p + " not found."))
            && (!isHtml(p) ==> r == SendDelegated(p))
  {
    assert "." + req.pathname.value + "/index.html" == "." + (req.pathname.value + "/index.html");
  }

  /** When the stat fails, or the directory has no index.html, the path is left unchanged. */
  lemma PathUnchangedWithoutIndex(req: Request, fs: FileSystem, isHtml: string -> bool, code: Fragment)
    requires IsReadMethod(req.verb) && req.pathname.Some? && req.pathname.value != ""
    requires Stat(fs, "." + req.pathname.value).None?
          || Stat(fs, "." + req.pathname.value).value.File?
          || (EndsWithSlash(req.pathname.value) && Stat(fs, "." + req.pathname.value + "/index.html").None?)
    ensures var p := req.pathname.value;
            var r := Disposition(req, fs, isHtml, code);
            && (isHtml(p) && ReadText(fs, "." + p).None? ==> r == NotFound404("File " + p + " not found."))
            && (isHtml(p) && ReadText(fs, "." + p).Some? ==> r == ServeHtml(p, Inject(ReadText(fs, "." + p).value, code)))
            && (!isHtml(p) ==> r == SendDelegated(p))
  {
  }

  /** Served HTML is the file with the fragment spliced before the earliest closing tag, or the
      file itself when it has none. */
  lemma ServedHtmlIsInjected(req: Request, fs: FileSystem, isHtml: string -> bool, code: Fragment)
    requires Disposition(req, fs, isHtml, code).ServeHtml?
    ensures var r := Disposition(req, fs, isHtml, code);
            var contents := ReadText(fs, "." + r.path);
            && contents.Some?
            && isHtml(r.path)
            && (InjectionPoint(contents.value).None? ==> r.body == contents.value)
            && (InjectionPoint(contents.value).Some? ==>
                  var k := InjectionPoint(contents.value).value;
                  r.body == contents.value[..k] + code + contents.value[k..])
  {
    var r := Disposition(req, fs, isHtml, code);
    InjectSplice(ReadText(fs, "." + r.path).value, code);
  }

  /** Only non-HTML paths reach `send`, whose 404 falls through to the next middleware. */
  lemma SendOnlyForOtherTypes(req: Request, fs: FileSystem, isHtml: string -> bool, code: Fragment,
                              send: string -> SendOutcome)
    ensures var d := Disposition(req, fs, isHtml, code);
            d.SendDelegated? ==> !isHtml(d.path)
                                 && (send(d.path) == SendError(404) ==> Respond(req, fs, isHtml, code, send) == Next)
  {
  }

  /** Any other `send` error is handed to `next(err)` with its status. */
  lemma SendErrorPassedOn(req: Request, fs: FileSystem, isHtml: string -> bool, code: Fragment,
                          send: string -> SendOutcome)
    requires Disposition(req, fs, isHtml, code).SendDelegated?
    requires send(Disposition(req, fs, isHtml, code).path).SendError?
    ensures var status := send(Disposition(req, fs, isHtml, code).path).status;
            Respond(req, fs, isHtml, code, send) == if status == 404 then Next else NextError(status)
  {
  }

  /** A directory that `send` finds under `root` (the path has no trailing slash) is redirected to
      the original URL's pathname plus `/`, shown escaped in the body. */
  lemma SendDirectoryRedirect(req: Request, fs: FileSystem, isHtml: string -> bool, code: Fragment,
                              send: string -> SendOutcome)
    requires Disposition(req, fs, isHtml, code).SendDelegated?
    requires send(Disposition(req, fs, isHtml, code).path) == SendDirectory
    ensures var r := Respond(req, fs, isHtml, code, send);
            var p := req.originalPathname.GetOr("");
            var shown := r.body[|"Redirecting to "|..|r.body| - 1];
            && r.Redirect301?
            && r.location == p + "/"
            && r.body == "Redirecting to " + shown + "/"
            && shown == Escape(p)
            && NoMarkup(shown) && AmpSafe(shown)
  {
    var p := req.originalPathname.GetOr("");
    EscapeIsSafe(p);
    var body := "Redirecting to " + Escape(p) + "/";
    assert body[|"Redirecting to "|..|body| - 1] == Escape(p);
  }

  // ---------------------------------------------------------------------
  // The handler as the source writes it: a response object updated in place

  type Header = (string, string)

  /** The parts of `http.ServerResponse` the handler touches. */
  class Response {
    var statusCode: int
    var headers: seq<Header>
    var finished: bool
    var body: string
    var streamedFrom: Option<string>

    constructor ()
      ensures statusCode == 200 && headers == [] && !finished && body == "" && streamedFrom == None
    {
      statusCode, headers, finished, body, streamedFrom := 200, [], false, "", None;
    }

    method SetHeader(name: string, value: string)
      modifies this
      ensures headers == old(headers) + [(name, value)]
      ensures statusCode == old(statusCode) && finished == old(finished) && body == old(body)
      ensures streamedFrom == old(streamedFrom)
    {
      headers := headers + [(name, value)];
    }

    method WriteHead(code: int)
      modifies this
      ensures statusCode == code
      ensures headers == old(headers) && finished == old(finished) && body == old(body)
      ensures streamedFrom == old(streamedFrom)
    {
      statusCode := code;
    }

    method End(data: string)
      modifies this
      ensures finished && body == data
      ensures statusCode == old(statusCode) && headers == old(headers) && streamedFrom == old(streamedFrom)
    {
      finished, body := true, data;
    }

    /** `send(...).pipe(res)` delivering the file at `path`. */
    method Pipe(path: string)
      modifies this
      ensures finished && streamedFrom == Some(path)
      ensures statusCode == old(statusCode) && headers == old(headers) && body == old(body)
    {
      finished, streamedFrom := true, Some(path);
    }
  }

  const HtmlHeaders: seq<Header> :=
    [("Content-Type", "text/html"), ("Cache-Control", "public, max-age=0"), ("Accept-Ranges", "bytes")]

  /** What the handler does with `next`. */
  datatype NextCall = NoNext | CallNext | CallNextWithError(status: int)

  /** The HTML branch: the three headers, then the page with the snippet before its closing tag. */
  method WriteHtml(contents: string, code: Fragment, res: Response)
    modifies res
    ensures res.statusCode == old(res.statusCode) && res.headers == old(res.headers) + HtmlHeaders
    ensures res.finished && res.body == Inject(contents, code) && res.streamedFrom == old(res.streamedFrom)
  {
    res.SetHeader("Content-Type", "text/html");
    res.SetHeader("Cache-Control", "public, max-age=0");
    res.SetHeader("Accept-Ranges", "bytes");
    var found := ExecClosingTag(contents, 0);
    if found.Some? {
      res.End(ReplaceFirst(contents, found.value.tag, code + found.value.tag));
    } else {
      res.End(contents);
    }
  }

  /** The `send` stream with its `error` and `directory` handlers, piped into the response. */
  method SendStream(outcome: SendOutcome, path: string, originalPathname: Option<string>, res: Response)
    returns (next: NextCall)
    modifies res
    ensures var r := AfterSend(outcome, path, originalPathname);
      && (r.Next? ==> next == CallNext && unchanged(res))
      && (r.NextError? ==> next == CallNextWithError(r.status) && unchanged(res))
      && (r.Redirect301? ==>
            next == NoNext && res.statusCode == 301 && res.headers == old(res.headers) + [("Location", r.location)]
            && res.finished && res.body == r.body && res.streamedFrom == old(res.streamedFrom))
      && (r.Streamed? ==>
            next == NoNext && res.statusCode == old(res.statusCode) && res.headers == old(res.headers)
            && res.finished && res.body == old(res.body) && res.streamedFrom == Some(r.path))
  {
    match outcome
    case SendError(status) =>
      if status == 404 {
        next := CallNext;
      } else {
        next := CallNextWithError(status);
      }
    case SendDirectory =>
      var pathname := originalPathname.GetOr("");
      res.statusCode := 301;
      res.SetHeader("Location", pathname + "/");
      res.End("Redirecting to " + Escape(pathname) + "/");
      next := NoNext;
    case SendOk =>
      res.Pipe(path);
      next := NoNext;
  }

  method Handle(req: Request, fs: FileSystem, isHtml: string -> bool, code: Fragment,
                send: string -> SendOutcome, res: Response) returns (next: NextCall)
    modifies res
    ensures var r := Respond(req, fs, isHtml, code, send);
      && (r.Next? ==> next == CallNext && unchanged(res))
      && (r.NextError? ==> next == CallNextWithError(r.status) && unchanged(res))
      && (r.Redirect301? ==>
            next == NoNext && res.statusCode == 301 && res.headers == old(res.headers) + [("Location", r.location)]
            && res.finished && res.body == r.body && res.streamedFrom == old(res.streamedFrom))
      && (r.ServeHtml? ==>
            next == NoNext && res.statusCode == old(res.statusCode) && res.headers == old(res.headers) + HtmlHeaders
            && res.finished && res.body == r.body && res.streamedFrom == old(res.streamedFrom))
      && (r.NotFound404? ==>
            next == NoNext && res.statusCode == 404 && res.headers == old(res.headers)
            && res.finished && res.body == r.body && res.streamedFrom == old(res.streamedFrom))
      && (r.Streamed? ==>
            next == NoNext && res.statusCode == old(res.statusCode) && res.headers == old(res.headers)
            && res.finished && res.body == old(res.body) && res.streamedFrom == Some(r.path))
  {
    ghost var d := Disposition(req, fs, isHtml, code);
    if req.verb != "GET" && req.verb != "HEAD" {
      assert d == Next;
      return CallNext;
    }
    if req.pathname.None? || req.pathname.value == "" {
      assert d == Next;
      return CallNext;
    }
    var reqpath := req.pathname.value;
    var stat := Stat(fs, "." + reqpath);
    if stat == Some(Dir) {
      if reqpath[|reqpath| - 1] == '/' {
        if Stat(fs, "." + reqpath + "/index.html").Some? {
          assert "." + reqpath + "/index.html" == "." + (reqpath + "/index.html");
          reqpath := reqpath + "/index.html";
        }
      } else {
        assert d == RedirectTo(reqpath);
        res.statusCode := 301;
        res.SetHeader("Location", reqpath + "/");
        res.End("Redirecting to " + Escape(reqpath) + "/");
        return NoNext;
      }
    }
    var isHTML := isHtml(reqpath);
    if isHTML {
      var contents := ReadText(fs, "." + reqpath);
      if contents.Some? {
        assert d == ServeHtml(reqpath, Inject(contents.value, code));
        WriteHtml(contents.value, code, res);
      } else {
        assert d == NotFound404(NotFoundBody(reqpath));
        res.WriteHead(404);
        res.End("File " + reqpath + " not found.");
      }
      return NoNext;
    }
    assert d == SendDelegated(reqpath);
    next := SendStream(send(reqpath), reqpath, req.originalPathname, res);
  }
}
