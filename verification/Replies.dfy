/** The server's decision table: the one reply to every request, by path, format
    parameter, peer, client file and stored file. */
module Replies {
  import opened Text
  import opened Validate
  import opened DomainList
  import opened Query
  import opened Disk
  import opened Server
  import opened Access

  /** The status a client is refused a key or bundle with. */
  function Refusal(site: Site, peer: Option<string>, d: string): Option<nat> {
    if peer.None? || !ValidClientName(peer.value) then Some(401)
    else match site.clients(peer.value)
      case NoSuchClient => Some(401)
      case Unreadable => Some(500)
      case Lines(text) => if !Fits(text) then Some(500) else if d !in Parsed(text) then Some(401) else None
  }

  /** The file extension a format parameter in any spelling asks for. */
  function Wanted(format: string): Option<string> {
    if format == "" || Spells(format, "PEM") then Some(".pem")
    else if Spells(format, "PKCS12") || Spells(format, "PFX") || Spells(format, "P12") then Some(".p12")
    else None
  }

  function Delivery(origin: Origin, o: Opened, since: Option<nat>): Response {
    match o
    case Missing => Error(404)
    case Failed => Error(500)
    case Found(content, mtime) =>
      if since.Some? && mtime / 1_000_000_000 <= since.value then Unmodified(origin) else Served(origin, content)
  }

  /** The reply on a role's route for the domain d. */
  function Reply(site: Site, role: string, d: string, req: HttpRequest): Response {
    var refused, ext := Refusal(site, req.peer, d), Wanted(Get(req.query, "format"));
    if role in {"privkey", "bundle"} && refused.Some? then Error(refused.value)
    else if ext.None? then Error(400)
    else
      var p := OpenPath(d, role + ext.value);
      if role == "bundle" && site.certs(p).Missing? then
        var pass, level := Get(req.query, "pass"), Get(req.query, "pkcs12-compat");
        if level != "" && level != "modern" && level != "legacy" then Error(400)
        else Delivery(NewBundle(d), site.generate(d, pass, level), req.since)
      else Delivery(CertFile(p), site.certs(p), req.since)
  }

  lemma WantedIsExtension(q: Values)
    ensures Wanted(Get(q, "format")) == ExtensionFor(q)
  {
    var f := Get(q, "format");
    UpperSpells(f, "");
    UpperSpells(f, "PEM");
    UpperSpells(f, "PKCS12");
    UpperSpells(f, "PFX");
    UpperSpells(f, "P12");
  }

  lemma RefusalIsAuthz(site: Site, req: HttpRequest)
    requires |Split(req.path, '/')| >= 4
    ensures var d := Split(req.path, '/')[3];
      AuthzReply(site, req) ==
        match Refusal(site, req.peer, d) case None => None case Some(status) => Some(Error(status))
  {
  }

  lemma ServeReply(site: Site, role: string, d: string, req: HttpRequest, cn: string, reply: Response)
    requires role in PUBLIC + GUARDED && Split(req.path, '/') == ["", "v1", role, d]
    requires role in GUARDED ==> Refusal(site, req.peer, d).None?
    ensures ServeSpec(site, req, cn, reply) <==> reply == Reply(site, role, d, req)
  {
    WantedIsExtension(req.query);
    RoleKind(role);
    if Wanted(Get(req.query, "format")).Some? {
      var p := OpenPath(d, role + ExtensionFor(req.query).value);
      DeliveryReply(site, req, d, p);
    }
  }

  lemma RoleKind(role: string)
    requires role in PUBLIC + GUARDED
    ensures role != "list" && (role in FILES <==> role != "bundle")
    ensures role in GUARDED <==> role in {"privkey", "bundle"}
  {
    if role in PUBLIC {
      RolesApart(role);
    }
  }

  lemma DeliveryReply(site: Site, req: HttpRequest, d: string, p: Path)
    ensures FileReply(site, p, req.since) == Delivery(CertFile(p), site.certs(p), req.since)
    ensures BundleReply(site, req, d, p) ==
      if site.certs(p).Missing? then
        var level := Get(req.query, "pkcs12-compat");
        if level != "" && level != "modern" && level != "legacy" then Error(400)
        else Delivery(NewBundle(d), site.generate(d, Get(req.query, "pass"), level), req.since)
      else Delivery(CertFile(p), site.certs(p), req.since)
  {
  }

  lemma SegmentsBelow(role: string, d: string)
    requires '/' !in role && '/' !in d
    ensures Split("/v1/" + role + "/" + d, '/') == ["", "v1", role, d]
  {
    RouteBelow(role, d);
    SplitWhole(d, '/');
    assert ["", "v1", role] + [d] == ["", "v1", role, d];
  }

  /** On the route of each role the server answers by the table, whatever the last
      segment of the path is. */
  lemma FileRoutesAnswer(site: Site, role: string, d: string, req: HttpRequest, reply: Response)
    requires role in {"cert", "chain", "fullchain", "privkey", "bundle"} && '/' !in d
    requires req.path == "/v1/" + role + "/" + d
    ensures Answers(site, ROUTES, req, reply) <==> reply == Reply(site, role, d, req)
  {
    SegmentsBelow(role, d);
    assert Pattern(role) <= req.path;
    RoleKind(role);
    if role in PUBLIC {
      PublicAnswer(site, role, req, reply);
      ServeReply(site, role, d, req, "", reply);
    } else {
      GuardedAnswer(site, role, req, reply);
      RefusalIsAuthz(site, req);
      if Refusal(site, req.peer, d).None? {
        ServeReply(site, role, d, req, req.peer.value, reply);
      }
    }
  }

  /** A path with more segments is never served: a guarded route still checks the fourth
      segment first. */
  lemma DeepPathsRefused(site: Site, role: string, d: string, more: string, req: HttpRequest, reply: Response)
    requires role in {"cert", "chain", "fullchain", "privkey", "bundle"} && '/' !in d
    requires req.path == "/v1/" + role + "/" + d + "/" + more
    ensures Answers(site, ROUTES, req, reply) <==>
      var refused := Refusal(site, req.peer, d);
      reply == Error(if role in {"privkey", "bundle"} && refused.Some? then refused.value else 400)
  {
    DeepSegments(role, d, more);
    assert req.path == "/v1/" + role + "/" + (d + "/" + more);
    assert Pattern(role) <= req.path;
    RoleKind(role);
    RefusalIsAuthz(site, req);
    if role in PUBLIC {
      PublicAnswer(site, role, req, reply);
    } else {
      GuardedAnswer(site, role, req, reply);
    }
  }

  lemma DeepSegments(role: string, d: string, more: string)
    requires '/' !in role && '/' !in d
    ensures var parts := Split("/v1/" + role + "/" + d + "/" + more, '/');
      |parts| > 4 && parts[2] == role && parts[3] == d
  {
    var below := d + "/" + more;
    GluedLater("/v1/" + role + "/", d + "/", more);
    GluedLater("/v1/" + role + "/", d, "/");
    RouteBelow(role, below);
    SplitPiece(d, more);
    assert d + "/" + more == below;
  }

  /** What the peer's file entitles him to. */
  ghost predicate ListReply(site: Site, cn: string, reply: Response) {
    if !ValidClientName(cn) then reply == Error(401)
    else match site.clients(cn)
      case NoSuchClient => reply == Error(401)
      case Unreadable => reply == Error(500)
      case Lines(text) => if Fits(text) then reply.Listing? && Lists(reply.items, Parsed(text)) else reply == Error(500)
  }

  lemma ServeList(site: Site, req: HttpRequest, cn: string, reply: Response)
    requires Split(req.path, '/') == ["", "v1", "list"]
    ensures ServeSpec(site, req, cn, reply) <==>
      if Wanted(Get(req.query, "format")).None? then reply == Error(400) else ListReply(site, cn, reply)
  {
    WantedIsExtension(req.query);
  }

  /** /v1/list: who gets the domains of his file, and what everyone else gets. */
  lemma ListRouteAnswers(site: Site, req: HttpRequest, reply: Response)
    requires req.path == "/v1/list"
    ensures Answers(site, ROUTES, req, reply) <==>
      if req.peer.None? then reply == Error(401)
      else if Wanted(Get(req.query, "format")).None? then reply == Error(400)
      else ListReply(site, req.peer.value, reply)
  {
    ListAnswer(site, req, reply);
    ListSegments();
    if req.peer.Some? {
      ServeList(site, req, req.peer.value, reply);
    }
  }

  /** Every other path is answered 404. */
  lemma OtherPathsUnknown(site: Site, req: HttpRequest, reply: Response)
    requires req.path != "/v1/list"
    requires forall role | role in {"cert", "chain", "fullchain", "privkey", "bundle"} ::
      !("/v1/" + role + "/" <= req.path)
    ensures Answers(site, ROUTES, req, reply) <==> reply == Error(404)
  {
    forall pattern | pattern in ROUTES
      ensures !Matches(pattern, req.path)
    {
      RouteKnown(pattern, req.path);
    }
  }

  lemma RouteKnown(pattern: string, path: string)
    requires pattern in ROUTES
    ensures Matches(pattern, path) ==>
      || path == "/v1/list"
      || exists role | role in {"cert", "chain", "fullchain", "privkey", "bundle"} :: "/v1/" + role + "/" <= path
  {
    RouteTable(pattern);
    if Matches(pattern, path) && pattern != "/v1/list" {
      WholePrefix(pattern, path);
      var role :| role in PUBLIC + GUARDED && pattern == Pattern(role);
      assert role in {"cert", "chain", "fullchain", "privkey", "bundle"};
    }
  }
}
