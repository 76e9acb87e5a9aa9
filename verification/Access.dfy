/** What the server discloses to whom, over all requests and all sites. */
module Access {
  import opened Text
  import opened Validate
  import opened DomainList
  import opened Paths
  import opened Query
  import opened Disk
  import opened Execution
  import opened Server
  import Requests
  import Cache

  // ---- what a route's path looks like ----

  lemma SplitPiece(a: string, rest: string)
    requires '/' !in a
    ensures Split(a + "/" + rest, '/') == [a] + Split(rest, '/')
  {
    SplitGlued(a, rest, '/');
    SplitWhole(a, '/');
  }

  lemma TwoPieces(a: string, b: string, rest: string)
    requires '/' !in a && '/' !in b
    ensures Split(a + "/" + b + "/" + rest, '/') == [a, b] + Split(rest, '/')
  {
    var below := b + "/" + rest;
    SplitPiece(b, rest);
    SplitPiece(a, below);
    GluedLater(a + "/", b + "/", rest);
    assert a + "/" + b + "/" == a + "/" + (b + "/");
    assert [a] + ([b] + Split(rest, '/')) == [a, b] + Split(rest, '/');
  }

  lemma GluedLater(a: string, b: string, c: string)
    ensures a + b + c == a + (b + c)
  {
  }

  lemma ThreePieces(version: string, role: string, rest: string)
    requires '/' !in version && '/' !in role
    ensures Split("/" + version + "/" + role + "/" + rest, '/') == ["", version, role] + Split(rest, '/')
  {
    var api := version + "/" + role + "/" + rest;
    TwoPieces(version, role, rest);
    SplitPiece("", api);
    assert "/" + version + "/" + role + "/" + rest == "" + "/" + api;
  }

  lemma RouteBelow(role: string, rest: string)
    requires '/' !in role
    ensures Split("/v1/" + role + "/" + rest, '/') == ["", "v1", role] + Split(rest, '/')
  {
    ThreePieces("v1", role, rest);
    assert "/v1/" == "/" + "v1" + "/";
  }

  /** A path below /v1/<role>/ has that role as its third segment, and a fourth one. */
  lemma RouteSegments(role: string, path: string)
    requires '/' !in role && "/v1/" + role + "/" <= path
    ensures var parts := Split(path, '/'); |parts| >= 4 && parts[2] == role
  {
    var rest := path[|"/v1/" + role + "/"|..];
    assert path == "/v1/" + role + "/" + rest;
    RouteBelow(role, rest);
  }

  const PUBLIC: set<string> := {"cert", "chain", "fullchain"}
  const GUARDED: set<string> := {"privkey", "bundle"}

  function Pattern(role: string): string { "/v1/" + role + "/" }

  /** The route table again, by role. */
  lemma RouteTable(pattern: string)
    requires pattern in ROUTES
    ensures (pattern == "/v1/list" && ROUTES[pattern] == [AUTHN, SERVE])
      || (exists role | role in PUBLIC :: pattern == Pattern(role) && ROUTES[pattern] == [SERVE])
      || (exists role | role in GUARDED :: pattern == Pattern(role) && ROUTES[pattern] == [AUTHZ, SERVE])
  {
    assert "cert" in PUBLIC && "chain" in PUBLIC && "fullchain" in PUBLIC;
    assert "privkey" in GUARDED && "bundle" in GUARDED;
    assert Pattern("cert") == "/v1/cert/" && Pattern("chain") == "/v1/chain/";
    assert Pattern("fullchain") == "/v1/fullchain/";
    assert Pattern("privkey") == "/v1/privkey/" && Pattern("bundle") == "/v1/bundle/";
  }

  /** No path falls under two patterns. */
  lemma PatternsApart(p: string, q: string, path: string)
    requires p in ROUTES && q in ROUTES && Matches(p, path) && Matches(q, path)
    ensures p == q
  {
    RouteSegment(p, path);
    RouteSegment(q, path);
  }

  lemma RouteSegment(pattern: string, path: string)
    requires pattern in ROUTES && Matches(pattern, path)
    ensures var parts := Split(path, '/');
      |parts| >= 3 && pattern == (if parts[2] == "list" then "/v1/list" else Pattern(parts[2]))
  {
    RouteTable(pattern);
    if pattern == "/v1/list" {
      ListSegments();
    } else {
      var role :| role in PUBLIC + GUARDED && pattern == Pattern(role);
      BelowPattern(role, path);
    }
  }

  lemma BelowPattern(role: string, path: string)
    requires role in PUBLIC + GUARDED && Matches(Pattern(role), path)
    ensures |Split(path, '/')| >= 4 && Split(path, '/')[2] == role && role != "list"
  {
    WholePrefix(Pattern(role), path);
    RouteSegments(role, path);
  }

  lemma ListSegments()
    ensures Split("/v1/list", '/') == ["", "v1", "list"]
  {
    var parts := ["", "v1", "list"];
    assert Join(parts[2..], '/') == "list";
    assert Join(parts[1..], '/') == "v1" + "/" + "list";
    assert Join(parts, '/') == "" + "/" + ("v1" + "/" + "list") == "/v1/list";
    SplitJoin(parts, '/');
  }

  // ---- the pipeline, route by route ----

  lemma AnswersByPattern(site: Site, pattern: string, req: HttpRequest, reply: Response)
    requires pattern in ROUTES && Matches(pattern, req.path)
    ensures Answers(site, ROUTES, req, reply) <==> Runs(site, ROUTES[pattern], req, "", Nothing, reply)
  {
    forall p | p in ROUTES && Matches(p, req.path)
      ensures p == pattern
    {
      PatternsApart(p, pattern, req.path);
    }
  }

  lemma ServeLast(site: Site, req: HttpRequest, cn: string, reply: Response)
    ensures Runs(site, [SERVE], req, cn, Nothing, reply) <==> ServeSpec(site, req, cn, reply)
  {
    assert [SERVE][1..] == [];
    if ServeSpec(site, req, cn, reply) {
      assert reply.Error? || Runs(site, [], req, cn, reply, reply);
    }
  }

  lemma PublicAnswer(site: Site, role: string, req: HttpRequest, reply: Response)
    requires role in PUBLIC && Pattern(role) <= req.path
    ensures Answers(site, ROUTES, req, reply) <==> ServeSpec(site, req, "", reply)
  {
    PatternHandlers();
    AnswersByPattern(site, Pattern(role), req, reply);
    ServeLast(site, req, "", reply);
  }

  lemma GuardedAnswer(site: Site, role: string, req: HttpRequest, reply: Response)
    requires role in GUARDED && Pattern(role) <= req.path
    ensures var no := AuthzReply(site, req);
      Answers(site, ROUTES, req, reply) <==>
        if no.Some? then reply == no.value else ServeSpec(site, req, req.peer.value, reply)
  {
    PatternHandlers();
    AnswersByPattern(site, Pattern(role), req, reply);
    assert [AUTHZ, SERVE][1..] == [SERVE];
    if req.peer.Some? {
      ServeLast(site, req, req.peer.value, reply);
    }
  }

  lemma ListAnswer(site: Site, req: HttpRequest, reply: Response)
    requires req.path == "/v1/list"
    ensures Answers(site, ROUTES, req, reply)
      <==> if req.peer.None? then reply == Error(401) else ServeSpec(site, req, req.peer.value, reply)
  {
    PatternHandlers();
    AnswersByPattern(site, "/v1/list", req, reply);
    assert [AUTHN, SERVE][1..] == [SERVE];
    if req.peer.Some? {
      ServeLast(site, req, req.peer.value, reply);
    }
  }

  lemma PatternHandlers()
    ensures "/v1/list" in ROUTES && ROUTES["/v1/list"] == [AUTHN, SERVE]
    ensures forall role | role in PUBLIC :: Pattern(role) in ROUTES && ROUTES[Pattern(role)] == [SERVE]
    ensures forall role | role in GUARDED :: Pattern(role) in ROUTES && ROUTES[Pattern(role)] == [AUTHZ, SERVE]
    ensures forall role | role in PUBLIC + GUARDED :: Pattern(role)[|Pattern(role)| - 1] == '/'
  {
    assert Pattern("cert") == "/v1/cert/" && Pattern("chain") == "/v1/chain/";
    assert Pattern("fullchain") == "/v1/fullchain/";
    assert Pattern("privkey") == "/v1/privkey/" && Pattern("bundle") == "/v1/bundle/";
  }

  lemma AuthzAccepts(site: Site, req: HttpRequest)
    ensures AuthzReply(site, req).None?
      <==> |Split(req.path, '/')| >= 4 && MayFetch(site, req.peer, Split(req.path, '/')[3])
  {
  }

  // ---- what is opened ----

  /** The file name survives cleaning whatever the domain string; a domain that is a
      name is the directory. */
  lemma OpenPathEnds(domain: string, file: string)
    requires Name(file)
    ensures OpenPath(domain, file) != [] && Base(OpenPath(domain, file)) == file
    ensures Name(domain) ==> OpenPath(domain, file) == [domain, file]
  {
    var joined := JoinPath(domain, file);
    var whole := if domain != "" then domain + "/" + file else file;
    assert joined == Clean(whole);
    var loc := Locate(whole);
    LocateNormal(whole);
    SplitWhole(file, '/');
    WalkOne(loc.rooted, [], file);
    if domain != "" {
      var before := Walk(loc.rooted, [], Split(domain, '/'));
      SplitGlued(domain, file, '/');
      WalkAppend(loc.rooted, [], Split(domain, '/'), [file]);
      WalkOne(loc.rooted, before, file);
      if Name(domain) {
        SplitWhole(domain, '/');
        WalkOne(loc.rooted, [], domain);
        assert loc.parts == [domain, file];
      }
    }
    RootedAgain(loc, file);
  }

  lemma {:induction false} FollowNames(at: Path, names: seq<string>)
    requires forall n | n in names :: Name(n)
    ensures Follow(at, names) == at + names
    decreases |names|
  {
    if names != [] {
      assert names[0] in names;
      FollowNames(at + [names[0]], names[1..]);
      assert at + [names[0]] + names[1..] == at + names;
    }
  }

  /** What a rooted string names is its location. */
  lemma RootedLocation(s: string)
    ensures Locate("/" + s).parts == Resolve([], s)
  {
    var whole := "/" + s;
    LocateNormal(whole);
    LocateResolves([], whole);
    FollowNames([], Locate(whole).parts);
    SplitPiece("", s);
    assert whole == "" + "/" + s;
    assert ([""] + Split(s, '/'))[1..] == Split(s, '/');
  }

  /** The file is opened in what the domain string names below the certificate directory;
      no string leads out of it. */
  lemma OpenPathBelow(domain: string, file: string)
    requires Name(file)
    ensures OpenPath(domain, file) == Resolve([], domain) + [file]
  {
    var whole := if domain != "" then domain + "/" + file else file;
    RootedLocation(JoinPath(domain, file));
    CleanResolves([], whole);
    SplitWhole(file, '/');
    if domain == "" {
      assert Split("", '/') == [""] && [""][1..] == [] && [file][1..] == [];
      assert Follow([], [""]) == Follow(Enter([], ""), []) == [];
      assert Follow([], [file]) == Follow(Enter([], file), []) == [file];
    } else {
      SplitGlued(domain, file, '/');
      FollowSnoc([], Split(domain, '/'), file);
    }
  }

  lemma WalkOne(rooted: bool, at: Path, file: string)
    requires Name(file)
    ensures Walk(rooted, at, [file]) == at + [file]
  {
    assert [file][1..] == [];
  }

  function Blanks(rooted: bool): seq<string> { if rooted then ["", ""] else [""] }

  lemma SplitAgain(loc: Location)
    requires Normal(loc) && loc.parts != []
    ensures Split("/" + PathString(loc), '/') == Blanks(loc.rooted) + loc.parts
  {
    var s := PathString(loc);
    SplitPiece("", s);
    assert "/" + s == "" + "/" + s;
    if loc.rooted {
      SplitRooted(loc.parts);
      assert [""] + ([""] + loc.parts) == ["", ""] + loc.parts;
    } else {
      SplitJoin(loc.parts, '/');
    }
  }

  lemma WalkAgain(rooted: bool, parts: Path, file: string)
    requires parts != [] && Base(parts) == file && Name(file)
    ensures var p := Walk(true, [], Blanks(rooted) + parts); p != [] && Base(p) == file
    ensures Normal(Location(true, parts)) ==> Walk(true, [], Blanks(rooted) + parts) == parts
  {
    var init := parts[..|parts| - 1];
    assert parts == init + [file];
    WalkBlanks(rooted);
    WalkAppend(true, [], Blanks(rooted), parts);
    WalkAppend(true, [], init, [file]);
    WalkOne(true, Walk(true, [], init), file);
    if Normal(Location(true, parts)) {
      WalkRooted(parts);
      WalkAppend(true, [], [""], parts);
      WalkBlanks(false);
    }
  }

  lemma RootedAgain(loc: Location, file: string)
    requires Normal(loc) && Name(file) && loc.parts != [] && Base(loc.parts) == file
    ensures var p := Locate("/" + PathString(loc)).parts; p != [] && Base(p) == file
    ensures (forall k | 0 <= k < |loc.parts| :: Name(loc.parts[k])) ==> Locate("/" + PathString(loc)).parts == loc.parts
  {
    SplitAgain(loc);
    WalkAgain(loc.rooted, loc.parts, file);
  }

  lemma WalkBlanks(twice: bool)
    ensures Walk(true, [], Blanks(twice)) == []
  {
    assert ["", ""][1..] == [""];
    assert [""][1..] == [];
  }

  // ---- disclosure ----

  /** The part of the last component before its first dot. */
  function Stem(p: Path): string {
    if p == [] then "" else Base(p)[..Index(Base(p), '.')]
  }

  function Carried(reply: Response): Option<Origin> {
    if reply.Served? || reply.Unmodified? then Some(reply.origin) else None
  }

  predicate Confidential(o: Origin) { o.NewBundle? || Stem(o.path) in GUARDED }

  lemma FileName(role: string, ext: string)
    requires role in FILES + GUARDED && ext in {".pem", ".p12"}
    ensures Name(role + ext) && forall p | p != [] && Base(p) == role + ext :: Stem(p) == role
  {
    var f := role + ext;
    assert f[|role|] == '.';
    assert forall k | 0 <= k < |role| :: f[k] == role[k] != '.';
    assert Index(f, '.') == |role| && f[..|role|] == role;
  }

  /** What serve hands out for one of the file roles comes from that role and from the
      segment it took for the domain. */
  lemma ServedOrigin(site: Site, req: HttpRequest, cn: string, reply: Response, role: string)
    requires ServeSpec(site, req, cn, reply) && Carried(reply).Some?
    requires |Split(req.path, '/')| >= 4 && Split(req.path, '/')[2] == role && role in PUBLIC + GUARDED
    ensures |Split(req.path, '/')| == 4 && ExtensionFor(req.query).Some?
    ensures var domain, o := Split(req.path, '/')[3], Carried(reply).value;
      if o.NewBundle? then role == "bundle" && o.domain == domain
      else Stem(o.path) == role && o.path == OpenPath(domain, role + ExtensionFor(req.query).value)
  {
    var domain, file := Split(req.path, '/')[3], role + ExtensionFor(req.query).value;
    FileName(role, ExtensionFor(req.query).value);
    OpenPathEnds(domain, file);
  }

  /** Whenever a response carries a key, a bundle or a newly made bundle, over any route
      and for any request, the peer presented a certificate with a valid client name and
      the segment served is in that client's own list. */
  lemma PrivateMaterialGuarded(site: Site, req: HttpRequest, reply: Response)
    requires Answers(site, ROUTES, req, reply)
    requires Carried(reply).Some? && Confidential(Carried(reply).value)
    ensures var parts := Split(req.path, '/');
      |parts| == 4 && parts[2] in GUARDED && MayFetch(site, req.peer, parts[3]) && ValidClientName(req.peer.value)
    ensures ExtensionFor(req.query).Some?
    ensures var parts := Split(req.path, '/');
      var file := parts[2] + ExtensionFor(req.query).value;
      Carried(reply).value in {NewBundle(parts[3]), CertFile(OpenPath(parts[3], file))}
  {
    var role := RouteOf(site, req, reply);
    if role in PUBLIC {
      PublicIsNotConfidential(site, role, req, reply);
    } else {
      GuardedCarries(site, role, req, reply);
    }
  }

  lemma PublicIsNotConfidential(site: Site, role: string, req: HttpRequest, reply: Response)
    requires role in PUBLIC && Pattern(role) <= req.path
    requires Answers(site, ROUTES, req, reply) && Carried(reply).Some?
    ensures !Confidential(Carried(reply).value)
  {
    PublicServes(site, role, req, reply);
    PublicCarries(site, role, req, reply);
  }

  lemma PublicServes(site: Site, role: string, req: HttpRequest, reply: Response)
    requires role in PUBLIC && Pattern(role) <= req.path && Answers(site, ROUTES, req, reply)
    ensures |Split(req.path, '/')| >= 4 && Split(req.path, '/')[2] == role
    ensures ServeSpec(site, req, "", reply)
  {
    RouteSegments(role, req.path);
    PublicAnswer(site, role, req, reply);
  }

  lemma PublicCarries(site: Site, role: string, req: HttpRequest, reply: Response)
    requires role in PUBLIC && |Split(req.path, '/')| >= 4 && Split(req.path, '/')[2] == role
    requires ServeSpec(site, req, "", reply) && Carried(reply).Some?
    ensures !Confidential(Carried(reply).value)
  {
    ServedOrigin(site, req, "", reply, role);
    RolesApart(role);
  }

  lemma RolesApart(role: string)
    requires role in PUBLIC
    ensures role !in GUARDED && role != "bundle" && role != "list" && role in FILES
  {
    assert |"privkey"| == 7 && |"bundle"| == 6;
    assert |role| in {4, 5, 9};
  }

  lemma GuardedCarries(site: Site, role: string, req: HttpRequest, reply: Response)
    requires role in GUARDED && Pattern(role) <= req.path
    requires Answers(site, ROUTES, req, reply) && Carried(reply).Some?
    ensures var parts := Split(req.path, '/');
      |parts| == 4 && parts[2] == role && MayFetch(site, req.peer, parts[3]) && ValidClientName(req.peer.value)
    ensures ExtensionFor(req.query).Some?
    ensures var domain := Split(req.path, '/')[3];
      Carried(reply).value in {NewBundle(domain), CertFile(OpenPath(domain, role + ExtensionFor(req.query).value))}
  {
    RouteSegments(role, req.path);
    GuardedAnswer(site, role, req, reply);
    AuthzAccepts(site, req);
    ServedOrigin(site, req, req.peer.value, reply, role);
  }

  /** A response with a file came over the route of its role. */
  ghost function RouteOf(site: Site, req: HttpRequest, reply: Response): (role: string)
    requires Answers(site, ROUTES, req, reply) && Carried(reply).Some?
    ensures role in PUBLIC + GUARDED && Pattern(role) <= req.path
  {
    var pattern :| pattern in ROUTES && Matches(pattern, req.path);
    RouteTable(pattern);
    if pattern == "/v1/list" then
      ListOnly(site, req, reply);
      ""
    else
      var role :| role in PUBLIC + GUARDED && pattern == Pattern(role);
      WholePrefix(pattern, req.path);
      role
  }

  lemma WholePrefix(pattern: string, path: string)
    requires Matches(pattern, path)
    ensures pattern <= path
  {
    if path == pattern {
      assert path[..|path|] == path;
    }
  }

  lemma ListOnly(site: Site, req: HttpRequest, reply: Response)
    requires Answers(site, ROUTES, req, reply) && req.path == "/v1/list"
    ensures Carried(reply).None?
  {
    ListAnswer(site, req, reply);
    ListSegments();
  }

  /** Two sites that differ at most in what a public route must not touch. */
  ghost predicate PublicAlike(a: Site, b: Site) {
    forall p: Path | Stem(p) in PUBLIC :: a.certs(p) == b.certs(p)
  }

  /** A public route opens nothing but cert, chain and fullchain files, whatever the
      domain string, and consults no client list: changing anything else on the
      server changes no reply. */
  lemma PublicRoutesSeePublic(a: Site, b: Site, role: string, req: HttpRequest, reply: Response)
    requires PublicAlike(a, b) && role in PUBLIC && Pattern(role) <= req.path
    ensures Answers(a, ROUTES, req, reply) <==> Answers(b, ROUTES, req, reply)
  {
    PublicAnswer(a, role, req, reply);
    PublicAnswer(b, role, req, reply);
    RouteSegments(role, req.path);
    PublicServeSame(a, b, role, req, reply);
  }

  lemma PublicServeSame(a: Site, b: Site, role: string, req: HttpRequest, reply: Response)
    requires PublicAlike(a, b) && role in PUBLIC
    requires |Split(req.path, '/')| >= 4 && Split(req.path, '/')[2] == role
    ensures ServeSpec(a, req, "", reply) <==> ServeSpec(b, req, "", reply)
  {
    var parts, ext := Split(req.path, '/'), ExtensionFor(req.query);
    RolesApart(role);
    if ext.Some? {
      FileName(role, ext.value);
      OpenPathEnds(parts[3], role + ext.value);
    }
  }

  const EXTENSIONS: set<string> := {".pem", ".p12"}

  /** Sites alike in what this role's route may open for this segment: its own stored
      files, and the bundle made of the domain. */
  ghost predicate DomainAlike(a: Site, b: Site, role: string, domain: string) {
    && a.clients == b.clients
    && (forall ext | ext in EXTENSIONS ::
         a.certs(OpenPath(domain, role + ext)) == b.certs(OpenPath(domain, role + ext)))
    && (forall pass, compat :: a.generate(domain, pass, compat) == b.generate(domain, pass, compat))
  }

  /** A guarded route shows the requester nothing of the certificates unless the client
      is authorised for the segment, and then only the role's files of that segment and
      its bundle: sites that differ in anything else answer alike. */
  lemma GuardedRoutesConfined(a: Site, b: Site, role: string, req: HttpRequest, reply: Response)
    requires role in GUARDED && Pattern(role) <= req.path && a.clients == b.clients
    requires |Split(req.path, '/')| >= 4
    requires MayFetch(a, req.peer, Split(req.path, '/')[3]) ==> DomainAlike(a, b, role, Split(req.path, '/')[3])
    ensures Answers(a, ROUTES, req, reply) <==> Answers(b, ROUTES, req, reply)
  {
    GuardedAnswer(a, role, req, reply);
    GuardedAnswer(b, role, req, reply);
    AuthzAccepts(a, req);
    AuthzSame(a, b, req);
    RouteSegments(role, req.path);
    if MayFetch(a, req.peer, Split(req.path, '/')[3]) {
      ServeConfined(a, b, role, req, req.peer.value, reply);
    }
  }

  lemma AuthzSame(a: Site, b: Site, req: HttpRequest)
    requires a.clients == b.clients
    ensures AuthzReply(a, req) == AuthzReply(b, req)
  {
  }

  lemma ServeConfined(a: Site, b: Site, role: string, req: HttpRequest, cn: string, reply: Response)
    requires |Split(req.path, '/')| >= 4 && Split(req.path, '/')[2] == role
    requires DomainAlike(a, b, role, Split(req.path, '/')[3])
    ensures ServeSpec(a, req, cn, reply) <==> ServeSpec(b, req, cn, reply)
  {
    AuthorisedSame(a, b, cn);
    if ExtensionFor(req.query).Some? {
      var domain, ext := Split(req.path, '/')[3], ExtensionFor(req.query).value;
      ExtensionKnown(req.query);
      SameReplies(a, b, req, domain, OpenPath(domain, role + ext));
    }
    SameServe(a, b, role, req, cn, reply);
  }

  /** serve looks at nothing but the list and the one file. */
  lemma SameServe(a: Site, b: Site, role: string, req: HttpRequest, cn: string, reply: Response)
    requires |Split(req.path, '/')| >= 4 && Split(req.path, '/')[2] == role
    requires Authorised(a, cn) == Authorised(b, cn)
    requires ExtensionFor(req.query).Some? ==>
      var domain, ext := Split(req.path, '/')[3], ExtensionFor(req.query).value;
      var p := OpenPath(domain, role + ext);
      && FileReply(a, p, req.since) == FileReply(b, p, req.since)
      && BundleReply(a, req, domain, p) == BundleReply(b, req, domain, p)
    ensures ServeSpec(a, req, cn, reply) <==> ServeSpec(b, req, cn, reply)
  {
    if role == "list" {
      assert Authorised(a, cn).Allowed? <==> Authorised(b, cn).Allowed?;
    } else if ExtensionFor(req.query).Some? && |Split(req.path, '/')| == 4 {
      if role == "bundle" {
        var domain := Split(req.path, '/')[3];
        var p := OpenPath(domain, role + ExtensionFor(req.query).value);
        assert ServeSpec(a, req, cn, reply) <==> reply == BundleReply(a, req, domain, p);
      }
    }
  }

  lemma AuthorisedSame(a: Site, b: Site, cn: string)
    requires a.clients == b.clients
    ensures Authorised(a, cn) == Authorised(b, cn)
  {
  }

  lemma ExtensionKnown(query: Values)
    requires ExtensionFor(query).Some?
    ensures ExtensionFor(query).value in EXTENSIONS
  {
  }

  lemma SameReplies(a: Site, b: Site, req: HttpRequest, domain: string, p: Path)
    requires a.certs(p) == b.certs(p)
    requires forall pass, compat :: a.generate(domain, pass, compat) == b.generate(domain, pass, compat)
    ensures FileReply(a, p, req.since) == FileReply(b, p, req.since)
    ensures BundleReply(a, req, domain, p) == BundleReply(b, req, domain, p)
  {
  }

  /** Sites that may differ in everything but one domain's directory and bundle. */
  ghost predicate DirectoryAlike(a: Site, b: Site, domain: string) {
    && a.clients == b.clients
    && (forall f :: a.certs([domain, f]) == b.certs([domain, f]))
    && (forall pass, compat :: a.generate(domain, pass, compat) == b.generate(domain, pass, compat))
  }

  /** For a valid domain that is its own directory: whatever another domain's files are,
      and whatever lies elsewhere, the answer is the same. */
  lemma GuardedRoutesOwnDirectory(a: Site, b: Site, role: string, domain: string, req: HttpRequest, reply: Response)
    requires role in GUARDED && ValidDomain(domain) && req.path == Pattern(role) + domain
    requires a.clients == b.clients && (MayFetch(a, req.peer, domain) ==> DirectoryAlike(a, b, domain))
    ensures Answers(a, ROUTES, req, reply) <==> Answers(b, ROUTES, req, reply)
  {
    SegmentsOf(role, domain);
    if MayFetch(a, req.peer, domain) {
      DirectoryIsDomain(a, b, role, domain);
    }
    GuardedRoutesConfined(a, b, role, req, reply);
  }

  lemma SegmentsOf(role: string, domain: string)
    requires '/' !in role && ValidDomain(domain)
    ensures Split(Pattern(role) + domain, '/') == ["", "v1", role, domain]
  {
    ValidIsOneComponent(domain);
    RouteBelow(role, domain);
    SplitWhole(domain, '/');
    assert ["", "v1", role] + [domain] == ["", "v1", role, domain];
  }

  lemma DirectoryIsDomain(a: Site, b: Site, role: string, domain: string)
    requires role in GUARDED && ValidDomain(domain) && DirectoryAlike(a, b, domain)
    ensures DomainAlike(a, b, role, domain)
  {
    ValidIsOneComponent(domain);
    forall ext | ext in EXTENSIONS
      ensures OpenPath(domain, role + ext) == [domain, role + ext]
    {
      FileName(role, ext);
      OpenPathEnds(domain, role + ext);
    }
  }

  /** A site with something else at one path. */
  function Replaced(a: Site, p: Path, o: Opened): Site { a.(certs := q => if q == p then o else a.certs(q)) }

  /** No answer on a guarded route shows what lies at a path outside the directory of a
      domain the client asks for, another domain's key for one. */
  lemma OtherFilesHidden(a: Site, p: Path, o: Opened, role: string, domain: string, req: HttpRequest, reply: Response)
    requires role in GUARDED && ValidDomain(domain) && req.path == Pattern(role) + domain
    requires p == [] || p[0] != domain
    ensures Answers(a, ROUTES, req, reply) <==> Answers(Replaced(a, p, o), ROUTES, req, reply)
  {
    GuardedRoutesOwnDirectory(a, Replaced(a, p, o), role, domain, req, reply);
  }

  // ---- client and server together ----

  /** The request the client sends for one item, as the server sees it. */
  function ItemRequest(role: Role, domain: string, query: Values, since: Option<nat>, peer: Option<string>): HttpRequest
  {
    HttpRequest(Requests.RemotePath(role, domain), query, since, peer)
  }

  /** The format parameter NewReq leaves in the query. */
  predicate AsksFormat(role: Role, query: Values) {
    Get(query, "format") == if role.BUNDLE? then "PKCS12" else ""
  }

  function ServerFile(role: Role, domain: string): Path {
    [domain, Requests.RemoteName(role) + if role.BUNDLE? then ".p12" else ".pem"]
  }

  /** What the server answers to an item of a built request, in full: its file for that
      role in that domain's directory, or a new bundle, or the refusal of authz. */
  lemma ItemAnswer(
      site: Site, role: Role, domain: string, query: Values, since: Option<nat>, peer: Option<string>, reply: Response)
    requires ValidDomain(domain) && AsksFormat(role, query)
    ensures var req := ItemRequest(role, domain, query, since, peer);
      Answers(site, ROUTES, req, reply) <==>
        if role in {KEY, BUNDLE} && !MayFetch(site, peer, domain) then AuthzReply(site, req) == Some(reply)
        else if role.BUNDLE? then reply == BundleReply(site, req, domain, ServerFile(role, domain))
        else reply == FileReply(site, ServerFile(role, domain), since)
  {
    var req := ItemRequest(role, domain, query, since, peer);
    var name := Requests.RemoteName(role);
    Requests.RemotePathSplits(role, domain);
    assert req.path == Pattern(name) + domain && Pattern(name) <= req.path;
    if role in {KEY, BUNDLE} {
      GuardedAnswer(site, name, req, reply);
      AuthzAccepts(site, req);
      if peer.Some? {
        ItemServed(site, role, domain, query, since, peer, peer.value, reply);
      }
    } else {
      PublicAnswer(site, name, req, reply);
      ItemServed(site, role, domain, query, since, peer, "", reply);
    }
  }

  lemma ItemServed(
      site: Site, role: Role, domain: string, query: Values, since: Option<nat>, peer: Option<string>,
      cn: string, reply: Response)
    requires ValidDomain(domain) && AsksFormat(role, query)
    ensures var req, p := ItemRequest(role, domain, query, since, peer), ServerFile(role, domain);
      ServeSpec(site, req, cn, reply) <==>
        reply == if role.BUNDLE? then BundleReply(site, req, domain, p) else FileReply(site, p, since)
  {
    Requests.RemotePathSplits(role, domain);
    FormatExtension(role, query);
    RemoteNameKind(role);
    ServerFileOpened(role, domain);
  }

  lemma RemoteNameKind(role: Role)
    ensures var name := Requests.RemoteName(role);
      && name != "list" && (name == "bundle" <==> role.BUNDLE?) && (name in FILES <==> !role.BUNDLE?)
  {
  }

  lemma ServerFileOpened(role: Role, domain: string)
    requires ValidDomain(domain)
    ensures OpenPath(domain, Base(ServerFile(role, domain))) == ServerFile(role, domain)
  {
    FileName(Requests.RemoteName(role), if role.BUNDLE? then ".p12" else ".pem");
    ValidIsOneComponent(domain);
    OpenPathEnds(domain, Base(ServerFile(role, domain)));
  }

  lemma FormatExtension(role: Role, query: Values)
    requires AsksFormat(role, query)
    ensures ExtensionFor(query) == Some(if role.BUNDLE? then ".p12" else ".pem")
  {
    assert Upper("") == "";
    assert Upper("PKCS12") == "PKCS12";
  }

  /** The client's reading of a response to one item. */
  function AnswerOf(reply: Response): Answer {
    match reply
    case Served(_, content) => Body(content)
    case Unmodified(_) => NotModified
    case _ => Refused
  }

  /** What stands behind an item on the server: its file, or the bundle made where none
      is stored. */
  function SourceFor(site: Site, role: Role, domain: string, query: Values): Option<Cache.Source> {
    var o := site.certs(ServerFile(role, domain));
    if o.Found? then Some(Cache.Source(o.content, o.mtime))
    else if role.BUNDLE? && o.Missing? && CompatKnown(Get(query, "pkcs12-compat")) then
      var made := site.generate(domain, Get(query, "pass"), Get(query, "pkcs12-compat"));
      if made.Found? then Some(Cache.Source(made.content, made.mtime)) else None
    else None
  }

  lemma SourceAnswer(site: Site, role: Role, domain: string, query: Values, since: Option<nat>, peer: Option<string>)
    requires ValidDomain(domain) && AsksFormat(role, query)
    requires role in {KEY, BUNDLE} ==> MayFetch(site, peer, domain)
    requires SourceFor(site, role, domain, query).Some?
    ensures exists reply ::
      && Answers(site, ROUTES, ItemRequest(role, domain, query, since, peer), reply)
      && AnswerOf(reply) == Cache.Reply(SourceFor(site, role, domain, query).value, since)
  {
    var req, p := ItemRequest(role, domain, query, since, peer), ServerFile(role, domain);
    var reply := if role.BUNDLE? then BundleReply(site, req, domain, p) else FileReply(site, p, since);
    ItemAnswer(site, role, domain, query, since, peer, reply);
  }

  /** A certificate file, and a generated bundle too, is a cache source for the client:
      what Cache proves of refreshes applies to the server as it is programmed. */
  lemma ServerIsCacheSource(site: Site, role: Role, domain: string, query: Values, peer: Option<string>, e: Env, j: nat)
    requires ValidDomain(domain) && AsksFormat(role, query)
    requires role in {KEY, BUNDLE} ==> MayFetch(site, peer, domain)
    requires SourceFor(site, role, domain, query).Some?
    requires forall since, reply ::
      Answers(site, ROUTES, ItemRequest(role, domain, query, since, peer), reply) ==>
        e.answer(j, since) == AnswerOf(reply)
    ensures Cache.ServedBy(SourceFor(site, role, domain, query).value, e, j)
  {
    forall since
      ensures e.answer(j, since) == Cache.Reply(SourceFor(site, role, domain, query).value, since)
    {
      SourceAnswer(site, role, domain, query, since, peer);
    }
  }

  /** The list the client gets is what authz decides by: a name is in it if and only if
      its key may be fetched. */
  lemma ListAgreement(site: Site, cn: string, listed: HttpRequest, reply: Response, d: string, keyed: HttpRequest)
    requires listed.path == "/v1/list" && listed.peer == Some(cn)
    requires Answers(site, ROUTES, listed, reply) && reply.Listing?
    requires Authorised(site, cn).Allowed? ==> forall x | x in Authorised(site, cn).domains :: ValidDomain(x)
    requires '/' !in d && keyed.path == Pattern("privkey") + d && keyed.peer == Some(cn)
    ensures DomainList.DomainsOf(ListBody(reply.items)) == Some(reply.items)
    ensures d in reply.items <==> AuthzReply(site, keyed).None?
  {
    ListAnswer(site, listed, reply);
    ListSegments();
    var l := Authorised(site, cn);
    assert l.Allowed? && Lists(reply.items, l.domains);
    assert site.clients(cn).Lines?;
    forall x | x in reply.items
      ensures ValidDomain(x) && |x| < LIMIT
    {
      EntriesShape(site.clients(cn).text, x);
    }
    FetchOwnBody(reply.items);
    KeySegments(d);
    AuthzAccepts(site, keyed);
  }

  lemma KeySegments(d: string)
    requires '/' !in d
    ensures Split(Pattern("privkey") + d, '/') == ["", "v1", "privkey", d]
  {
    RouteBelow("privkey", d);
    SplitWhole(d, '/');
    assert ["", "v1", "privkey"] + [d] == ["", "v1", "privkey", d];
  }

  /** A client with a readable file of valid domains, empty or not, is always answered
      with a list, and one without is always refused. */
  lemma ListAlwaysAnswered(site: Site, req: HttpRequest, reply: Response)
    requires req.path == "/v1/list" && ExtensionFor(req.query).Some? && Answers(site, ROUTES, req, reply)
    ensures reply.Listing? <==> req.peer.Some? && Authorised(site, req.peer.value).Allowed?
    ensures !reply.Listing? ==> reply in {Error(401), Error(500)}
  {
    ListAnswer(site, req, reply);
    ListSegments();
  }
}
