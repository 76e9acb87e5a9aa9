/** The server's request pipeline: route table, handler chain with its context,
    authentication, authorisation, and the choice of what to serve. */
module Server {
  import opened Text
  import opened Validate
  import opened DomainList
  import opened Paths
  import opened Query
  import opened Disk

  // ---- what the server works on ----

  datatype Opened = Found(content: string, mtime: nat) | Missing | Failed

  datatype ClientFile = Lines(text: string) | NoSuchClient | Unreadable

  /** The files below the certificate and the client directory, and the bundle
      generator for a domain, a password and a compatibility level. */
  datatype Site = Site(
    certs: Path -> Opened,
    clients: string -> ClientFile,
    generate: (string, string, string) -> Opened)

  /** peer is the common name of the client certificate, if one was presented. */
  datatype HttpRequest = HttpRequest(path: string, query: Values, since: Option<nat>, peer: Option<string>)

  datatype Origin = CertFile(path: Path) | NewBundle(domain: string)

  datatype Response =
    | Nothing
    | Error(status: nat)
    | Listing(items: seq<string>)                     // the body is ListBody(items)
    | Served(origin: Origin, content: string)
    | Unmodified(origin: Origin)

  datatype ContextKey = REMOTE | DOMAIN

  datatype Handler = AUTHN | AUTHZ | SERVE

  class Context {
    var values: map<ContextKey, string>

    constructor ()
      ensures values == map[]
    {
      values := map[];
    }
  }

  class ResponseWriter {
    var reply: Response

    constructor ()
      ensures reply == Nothing
    {
      reply := Nothing;
    }
  }

  // ---- meaning ----

  datatype ListResult = Allowed(domains: set<string>) | Unauthorized | Broken

  /** What a client may fetch. */
  function Authorised(site: Site, cn: string): ListResult {
    if !ValidClientName(cn) then Unauthorized
    else match site.clients(cn)
      case Lines(text) => if Fits(text) then Allowed(Parsed(text)) else Broken
      case NoSuchClient => Unauthorized
      case Unreadable => Broken
  }

  predicate MayFetch(site: Site, peer: Option<string>, domain: string) {
    && peer.Some? && Authorised(site, peer.value).Allowed?
    && domain in Authorised(site, peer.value).domains
  }

  function ListError(l: ListResult): Response
    requires !l.Allowed?
  {
    Error(if l.Unauthorized? then 401 else 500)
  }

  /** The file extension the format parameter asks for. */
  function ExtensionFor(q: Values): Option<string> {
    var format := Upper(Get(q, "format"));
    if format == "PEM" || format == "" then Some(".pem")
    else if format == "PKCS12" || format == "PFX" || format == "P12" then Some(".p12")
    else None
  }

  /** Where http.Dir opens filepath.Join(domain, file) below the certificate directory. */
  function OpenPath(domain: string, file: string): Path { Locate("/" + JoinPath(domain, file)).parts }

  /** http.ServeContent: whole-second comparison with If-Modified-Since. */
  function Content(origin: Origin, o: Opened, since: Option<nat>): Response
    requires o.Found?
  {
    if since.Some? && Sec(o.mtime) <= since.value then Unmodified(origin) else Served(origin, o.content)
  }

  function FileError(o: Opened): Response
    requires !o.Found?
  {
    Error(if o.Missing? then 404 else 500)
  }

  function FileReply(site: Site, p: Path, since: Option<nat>): Response {
    var o := site.certs(p);
    if o.Found? then Content(CertFile(p), o, since) else FileError(o)
  }

  predicate CompatKnown(compat: string) { compat == "modern" || compat == "" || compat == "legacy" }

  /** A stored bundle, or a generated one where none is stored. */
  function BundleReply(site: Site, req: HttpRequest, domain: string, p: Path): Response {
    if !site.certs(p).Missing? then FileReply(site, p, req.since)
    else
      var compat := Get(req.query, "pkcs12-compat");
      if !CompatKnown(compat) then Error(400)
      else
        var o := site.generate(domain, Get(req.query, "pass"), compat);
        if o.Found? then Content(NewBundle(domain), o, req.since) else FileError(o)
  }

  const FILES: set<string> := {"cert", "chain", "fullchain", "privkey"}

  /** What serve may answer to a request; a listing in any order. */
  ghost predicate ServeSpec(site: Site, req: HttpRequest, cn: string, reply: Response) {
    var parts, ext := Split(req.path, '/'), ExtensionFor(req.query);
    if ext.None? || !(3 <= |parts| <= 4) then reply == Error(400)
    else
      var role, domain := parts[2], if |parts| == 4 then parts[3] else "";
      if role == "list" then
        var l := Authorised(site, cn);
        if l.Allowed? then reply.Listing? && Lists(reply.items, l.domains) else reply == ListError(l)
      else if role == "bundle" then reply == BundleReply(site, req, domain, OpenPath(domain, role + ext.value))
      else if role in FILES then reply == FileReply(site, OpenPath(domain, role + ext.value), req.since)
      else reply == Error(400)
  }

  function AuthzReply(site: Site, req: HttpRequest): Option<Response> {
    if req.peer.None? then Some(Error(401))
    else if |Split(req.path, '/')| < 4 then Some(Error(400))
    else
      var l := Authorised(site, req.peer.value);
      if !l.Allowed? then Some(ListError(l))
      else if Split(req.path, '/')[3] !in l.domains then Some(Error(401))
      else None
  }

  function Remote(ctx: map<ContextKey, string>): string { if REMOTE in ctx then ctx[REMOTE] else "" }

  // ---- the program ----

  /** None for a list the client may use; the set itself is made here and filled in place. */
  method CnList(site: Site, cn: string) returns (domains: UniqStrings, failure: Option<ListResult>)
    ensures fresh(domains)
    ensures failure.None? ==> Authorised(site, cn) == Allowed(domains.keys)
    ensures failure.Some? ==> failure.value == Authorised(site, cn) && !failure.value.Allowed?
  {
    domains := new UniqStrings();
    if !ValidClientName(cn) { return domains, Some(Unauthorized); }
    match site.clients(cn) {
      case NoSuchClient => failure := Some(Unauthorized);
      case Unreadable => failure := Some(Broken);
      case Lines(text) =>
        var ok := AddItemsFromReader(domains, text);
        assert {} + Parsed(text) == Parsed(text);
        failure := if ok then None else Some(Broken);
    }
  }

  method Authn(ctx: Context, w: ResponseWriter, req: HttpRequest) returns (ok: bool)
    modifies ctx, w
    ensures ok <==> req.peer.Some?
    ensures ctx.values == if ok then old(ctx.values)[REMOTE := req.peer.value] else old(ctx.values)
    ensures w.reply == if ok then old(w.reply) else Error(401)
  {
    if req.peer.None? {
      w.reply := Error(401);
      return false;
    }
    ctx.values := ctx.values[REMOTE := req.peer.value];
    ok := true;
  }

  method Authz(site: Site, ctx: Context, w: ResponseWriter, req: HttpRequest) returns (ok: bool)
    modifies ctx, w
    ensures ok <==> |Split(req.path, '/')| >= 4 && MayFetch(site, req.peer, Split(req.path, '/')[3])
    ensures ok ==> w.reply == old(w.reply) && Remote(ctx.values) == req.peer.value
    ensures ok ==> DOMAIN in ctx.values && ctx.values[DOMAIN] == Split(req.path, '/')[3]
    ensures !ok ==> Some(w.reply) == AuthzReply(site, req)
  {
    ok := Authn(ctx, w, req);
    if !ok { return false; }
    var parts := Split(req.path, '/');
    if |parts| < 4 {
      w.reply := Error(400);
      return false;
    }
    ctx.values := ctx.values[DOMAIN := parts[3]];
    var allowed, failure := CnList(site, Remote(ctx.values));
    if failure.Some? {
      w.reply := ListError(failure.value);
      return false;
    }
    if ctx.values[DOMAIN] !in allowed.keys {
      w.reply := Error(401);
      return false;
    }
    ok := true;
  }

  method Serve(site: Site, ctx: Context, w: ResponseWriter, req: HttpRequest) returns (ok: bool)
    modifies w
    ensures ServeSpec(site, req, Remote(ctx.values), w.reply)
    ensures ok <==> !w.reply.Error?
  {
    var extension := ExtensionFor(req.query);
    if extension.None? {
      w.reply := Error(400);
      return false;
    }
    var ext := extension.value;
    var role, domain := "", "";
    var parts := Split(req.path, '/');
    if |parts| == 4 {
      domain, role := parts[3], parts[2];
    } else if |parts| == 3 {
      role := parts[2];
    } else {
      w.reply := Error(400);
      return false;
    }
    var origin, content;
    if role == "list" {
      var domains, failure := CnList(site, Remote(ctx.values));
      if failure.Some? {
        w.reply := ListError(failure.value);
        return false;
      }
      var items := domains.Items();
      w.reply := Listing(items);
      return true;
    } else if role == "bundle" {
      var p := OpenPath(domain, role + ext);
      origin, content := CertFile(p), site.certs(p);
      if content.Missing? {
        var compat := Get(req.query, "pkcs12-compat");
        if !CompatKnown(compat) {
          w.reply := Error(400);
          return false;
        }
        origin, content := NewBundle(domain), site.generate(domain, Get(req.query, "pass"), compat);
      }
    } else if role in FILES {
      var p := OpenPath(domain, role + ext);
      origin, content := CertFile(p), site.certs(p);
    } else {
      w.reply := Error(400);
      return false;
    }
    if !content.Found? {
      w.reply := FileError(content);
      return false;
    }
    w.reply := Content(origin, content, req.since);
    ok := true;
  }

  // ---- the handler chain ----

  /** The replies a chain of handlers may leave, for a remote name authenticated so far. */
  ghost predicate Runs(
      site: Site, handlers: seq<Handler>, req: HttpRequest, cn: string, before: Response, after: Response)
    decreases |handlers|
  {
    if handlers == [] then after == before
    else match handlers[0]
      case AUTHN =>
        if req.peer.None? then after == Error(401)
        else Runs(site, handlers[1..], req, req.peer.value, before, after)
      case AUTHZ =>
        if AuthzReply(site, req).Some? then after == AuthzReply(site, req).value
        else Runs(site, handlers[1..], req, req.peer.value, before, after)
      case SERVE =>
        exists mid :: ServeSpec(site, req, cn, mid)
          && if mid.Error? then after == mid else Runs(site, handlers[1..], req, cn, mid, after)
  }

  method Handle(h: Handler, site: Site, ctx: Context, w: ResponseWriter, req: HttpRequest) returns (ok: bool)
    modifies ctx, w
    ensures forall rest, after |
      (if ok then Runs(site, rest, req, Remote(ctx.values), w.reply, after) else after == w.reply) ::
      Runs(site, [h] + rest, req, Remote(old(ctx.values)), old(w.reply), after)
  {
    match h {
      case AUTHN => ok := Authn(ctx, w, req);
      case AUTHZ => ok := Authz(site, ctx, w, req);
      case SERVE => ok := Serve(site, ctx, w, req);
    }
    forall rest: seq<Handler>
      ensures ([h] + rest)[1..] == rest && ([h] + rest)[0] == h
    {
    }
  }

  /** use: a fresh context for every request, and nothing runs after a failing handler. */
  method Use(handlers: seq<Handler>, site: Site, w: ResponseWriter, req: HttpRequest)
    modifies w
    ensures Runs(site, handlers, req, "", old(w.reply), w.reply)
  {
    var ctx := new Context();
    ghost var before := w.reply;
    for i := 0 to |handlers|
      invariant fresh(ctx)
      invariant forall after | Runs(site, handlers[i..], req, Remote(ctx.values), w.reply, after) ::
        Runs(site, handlers, req, "", before, after)
    {
      assert [handlers[i]] + handlers[i + 1..] == handlers[i..];
      var ok := Handle(handlers[i], site, ctx, w, req);
      if !ok { return; }
    }
    assert handlers[|handlers|..] == [];
  }

  // ---- routes ----

  const ROUTES: map<string, seq<Handler>> := map[
    "/v1/list" := [AUTHN, SERVE],
    "/v1/cert/" := [SERVE],
    "/v1/chain/" := [SERVE],
    "/v1/fullchain/" := [SERVE],
    "/v1/privkey/" := [AUTHZ, SERVE],
    "/v1/bundle/" := [AUTHZ, SERVE]
  ]

  /** A pattern ending in a slash takes all paths below it. */
  predicate Matches(pattern: string, path: string) {
    path == pattern || (pattern != "" && pattern[|pattern| - 1] == '/' && pattern <= path)
  }

  class ServeMux {
    var routes: map<string, seq<Handler>>

    constructor ()
      ensures routes == map[]
    {
      routes := map[];
    }

    /** Registering a pattern twice panics. */
    method HandleFunc(pattern: string, handlers: seq<Handler>)
      requires pattern !in routes
      modifies this
      ensures routes == old(routes)[pattern := handlers]
    {
      routes := routes[pattern := handlers];
    }

    method ServeHTTP(site: Site, w: ResponseWriter, req: HttpRequest)
      requires w.reply == Nothing
      modifies w
      ensures Answers(site, routes, req, w.reply)
    {
      if pattern :| pattern in routes && Matches(pattern, req.path) {
        Use(routes[pattern], site, w, req);
      } else {
        w.reply := Error(404);
      }
    }
  }

  /** What the server may reply to a request. */
  ghost predicate Answers(site: Site, routes: map<string, seq<Handler>>, req: HttpRequest, reply: Response) {
    if exists pattern :: pattern in routes && Matches(pattern, req.path) then
      exists pattern :: pattern in routes && Matches(pattern, req.path)
        && Runs(site, routes[pattern], req, "", Nothing, reply)
    else reply == Error(404)
  }

  method NewMux() returns (mux: ServeMux)
    ensures fresh(mux) && mux.routes == ROUTES
  {
    mux := new ServeMux();
    mux.HandleFunc("/v1/list", [AUTHN, SERVE]);
    mux.HandleFunc("/v1/cert/", [SERVE]);
    mux.HandleFunc("/v1/chain/", [SERVE]);
    mux.HandleFunc("/v1/fullchain/", [SERVE]);
    mux.HandleFunc("/v1/privkey/", [AUTHZ, SERVE]);
    mux.HandleFunc("/v1/bundle/", [AUTHZ, SERVE]);
  }
}
