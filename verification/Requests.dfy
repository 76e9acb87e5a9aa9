/** cert.NewReq and the request list EnqueueTasks builds: what one domain's request
    asks the server for and where its files go. */
module Requests {
  import opened Text
  import opened Names
  import opened Validate
  import opened Paths
  import opened Query
  import opened Redact
  import opened Disk
  import opened Execution
  import Pool

  datatype Format = PEM | PKCS12 | Other(name: string)

  /** ROLES; a format it does not list requires nothing. */
  function Roles(format: Format): seq<Role> {
    match format
    case PEM => [CRT, KEY, CHAIN, FULLCHAIN]
    case PKCS12 => [BUNDLE]
    case Other(_) => []
  }

  function RemoteName(role: Role): string {
    match role
    case CRT => "cert"
    case KEY => "privkey"
    case CHAIN => "chain"
    case FULLCHAIN => "fullchain"
    case BUNDLE => "bundle"
  }

  function Extension(role: Role): string { if role.BUNDLE? then "pfx" else "pem" }

  function LocalName(role: Role): string { RemoteName(role) + "." + Extension(role) }

  /** The URL path below the proxy's address. */
  function RemotePath(role: Role, domain: string): string { "/v1/" + RemoteName(role) + "/" + domain }

  function LocalPath(basedir: string, role: Role, domain: string): string {
    JoinPath(basedir, domain + "/" + LocalName(role))
  }

  datatype Refusal = InvalidDomain | BadURL

  /** A request, with the URLs and the path strings of its items. */
  datatype Built =
    | Ok(req: Request, urls: seq<URL>, locals: seq<string>)
    | Err(why: Refusal)

  /** The query of a bundle request, on top of what the proxy URL brings along. */
  function BundleValues(q: Values, pass: string, compat: string): Values {
    var q := q["format" := ["PKCS12"]]["pass" := [pass]];
    if compat != "" then q["pkcs12-compat" := [compat]] else q
  }

  lemma BundleDecent(q: Values, pass: string, compat: string)
    requires Decent(q) && Bytes(pass) && Bytes(compat)
    ensures Decent(BundleValues(q, pass, compat))
  {
  }

  lemma LocalNames(role: Role)
    ensures var f := LocalName(role); Plain(f) && Name(f)
  {
    PlainSplit(RemoteName(role), Extension(role));
  }

  lemma PlainSplit(stem: string, ext: string)
    requires |stem| > 2
    requires forall k | 0 <= k < |stem| :: 'a' <= stem[k] <= 'z'
    requires forall k | 0 <= k < |ext| :: 'a' <= ext[k] <= 'z'
    ensures var f := stem + "." + ext; Plain(f) && Name(f)
  {
    var f := stem + "." + ext;
    assert f[|stem|] == '.';
    assert forall k | 0 <= k < |stem| :: f[k] == stem[k];
    assert forall k | |stem| < k < |f| :: f[k] == ext[k - |stem| - 1];
    assert Index(f, '.') == |stem| && LastIndex(f, '.') == |stem|;
  }

  lemma LocalNamesDiffer(a: Role, b: Role)
    ensures LocalName(a) == LocalName(b) <==> a == b
  {
    assert LocalName(a)[..2] == RemoteName(a)[..2];
    assert LocalName(b)[..2] == RemoteName(b)[..2];
  }

  /** An item as it leaves NewReq, with its path string. */
  predicate Fitting(it: Item, local: string, domain: string, basedir: string, role: Role) {
    && it.role == role && it.data == "" && (it.private <==> role in {KEY, BUNDLE})
    && local == LocalPath(basedir, role, domain)
    && Locate(local) == Location(Locate(basedir).rooted, it.local)
    && it.local == Locate(basedir).parts + [domain, LocalName(role)]
  }

  /** What all requests of a run share: the arguments EnqueueTasks passes on, and how a
      URL string is parsed. */
  datatype Terms = Terms(
    proxy: string, certbase: string, hook: string, format: Format, pass: string, compat: string,
    parse: string -> Option<URL>)

  ghost predicate InBytes(t: Terms) {
    && Bytes(t.pass) && Bytes(t.compat)
    && forall s :: t.parse(s).Some? ==> Bytes(t.parse(s).value.query)
  }

  /** The URL of a role: the proxy's with the role's path, the bundle's with its query. */
  function RoleURL(t: Terms, domain: string, role: Role): Option<URL>
    requires InBytes(t)
  {
    match t.parse(t.proxy + RemotePath(role, domain))
    case None => None
    case Some(u) => Some(if role.BUNDLE? then WithBundleQuery(u, t.pass, t.compat) else u)
  }

  function WithBundleQuery(u: URL, pass: string, compat: string): URL
    requires Bytes(u.query) && Bytes(pass) && Bytes(compat)
  {
    ParsedIsDecent(u.query);
    BundleDecent(Params(u), pass, compat);
    u.(query := EncodeValues(BundleValues(Params(u), pass, compat)))
  }

  /** What a successful NewReq returns. */
  ghost predicate Expanded(b: Built, domain: string, basedir: string, roles: seq<Role>) {
    && b.Ok? && b.req.domain == domain && b.req.dir == Locate(basedir).parts + [domain]
    && |b.req.items| == |b.locals| == |roles|
    && forall j | 0 <= j < |roles| :: Fitting(b.req.items[j], b.locals[j], domain, basedir, roles[j])
  }

  /** The requests NewReq refuses. */
  ghost predicate Unbuildable(domain: string, t: Terms)
    requires InBytes(t)
  {
    !ValidDomain(domain) || exists role | role in Roles(t.format) :: RoleURL(t, domain, role).None?
  }

  /** The URLs built so far, in the order of the roles. */
  ghost predicate URLsOf(urls: seq<URL>, roles: seq<Role>, t: Terms, domain: string)
    requires InBytes(t)
  {
    |urls| <= |roles| && forall j | 0 <= j < |urls| :: Some(urls[j]) == RoleURL(t, domain, roles[j])
  }

  /** A request with all its parts: every role of the format with its path, its URL and
      its privacy, and the hook. */
  ghost predicate Complete(b: Built, t: Terms)
    requires InBytes(t)
  {
    && b.Ok? && ValidDomain(b.req.domain) && Expanded(b, b.req.domain, t.certbase, Roles(t.format))
    && |b.urls| == |Roles(t.format)| && URLsOf(b.urls, Roles(t.format), t, b.req.domain)
    && (b.req.hook <==> t.hook != "")
  }

  method NewReq(domain: string, t: Terms) returns (b: Built)
    requires InBytes(t)
    ensures b == Err(InvalidDomain) <==> !ValidDomain(domain)
    ensures b.Err? <==> Unbuildable(domain, t)
    ensures b.Ok? ==> Complete(b, t) && b.req.domain == domain
  {
    if !ValidDomain(domain) { return Err(InvalidDomain); }
    var items, urls, locals, ok := NewItems(domain, t, Roles(t.format));
    if !ok { return Err(BadURL); }
    b := Ok(Request(domain, Locate(t.certbase).parts + [domain], items, t.hook != ""), urls, locals);
  }

  ghost predicate AllFitting(items: seq<Item>, locals: seq<string>, domain: string, basedir: string, roles: seq<Role>) {
    && |items| == |locals| <= |roles|
    && forall j | 0 <= j < |items| :: Fitting(items[j], locals[j], domain, basedir, roles[j])
  }

  /** The loop of NewReq. */
  method NewItems(domain: string, t: Terms, roles: seq<Role>)
    returns (items: seq<Item>, urls: seq<URL>, locals: seq<string>, ok: bool)
    requires ValidDomain(domain) && InBytes(t)
    ensures !ok <==> exists role | role in roles :: RoleURL(t, domain, role).None?
    ensures ok ==> |items| == |urls| == |roles| && AllFitting(items, locals, domain, t.certbase, roles)
    ensures ok ==> URLsOf(urls, roles, t, domain)
  {
    items, urls, locals := [], [], [];
    for j := 0 to |roles|
      invariant |items| == |urls| == j && AllFitting(items, locals, domain, t.certbase, roles)
      invariant URLsOf(urls, roles, t, domain)
    {
      var item, path, url := NewItem(domain, t, roles[j]);
      if url.None? {
        assert roles[j] in roles;
        return items, urls, locals, false;
      }
      items, urls, locals := items + [item], urls + [url.value], locals + [path];
    }
    ok := true;
  }

  /** The loop body of NewReq, up to appending the item. */
  method NewItem(domain: string, t: Terms, role: Role) returns (item: Item, path: string, url: Option<URL>)
    requires ValidDomain(domain) && InBytes(t)
    ensures Fitting(item, path, domain, t.certbase, role)
    ensures url == RoleURL(t, domain, role)
  {
    path := LocalPath(t.certbase, role, domain);
    LocalLocation(t.certbase, role, domain);
    item := Item(role, Locate(path).parts, role == KEY || role == BUNDLE, "");
    url := t.parse(t.proxy + RemotePath(role, domain));
    if url.Some? && role == BUNDLE {
      var u := SetBundleQuery(url.value, t.pass, t.compat);
      url := Some(u);
    }
  }

  method SetBundleQuery(u: URL, pass: string, compat: string) returns (v: URL)
    requires Bytes(u.query) && Bytes(pass) && Bytes(compat)
    ensures v == WithBundleQuery(u, pass, compat)
  {
    ParsedIsDecent(u.query);
    BundleDecent(Params(u), pass, compat);
    var q := Params(u);
    q := q["format" := ["PKCS12"]];
    q := q["pass" := [pass]];
    if compat != "" {
      q := q["pkcs12-compat" := [compat]];
    }
    v := u.(query := EncodeValues(q));
  }

  lemma LocalLocation(basedir: string, role: Role, domain: string)
    requires ValidDomain(domain)
    ensures Locate(LocalPath(basedir, role, domain))
      == Location(Locate(basedir).rooted, Locate(basedir).parts + [domain, LocalName(role)])
  {
    ValidIsOneComponent(domain);
    LocalNames(role);
    JoinedLocation(basedir, domain, LocalName(role));
  }

  /** Whatever the proxy's own query, the bundle's query reads back on the server as
      the password byte for byte, the format and the compatibility level asked for. */
  lemma BundleQueryReadBack(u: URL, pass: string, compat: string)
    requires Bytes(u.query) && Bytes(pass) && Bytes(compat)
    ensures var v := WithBundleQuery(u, pass, compat);
      && Parsable(v) && "pass" in Params(v) && Get(Params(v), "pass") == pass
      && Get(Params(v), "format") == "PKCS12"
      && Get(Params(v), "pkcs12-compat") == if compat != "" then compat else Get(Params(u), "pkcs12-compat")
    ensures u.query == "" ==> Params(WithBundleQuery(u, pass, compat)).Keys == BundleKeys(compat)
    ensures WithBundleQuery(u, pass, compat).(query := u.query) == u
  {
    ParsedIsDecent(u.query);
    BundleDecent(Params(u), pass, compat);
    ValuesRoundTrip(BundleValues(Params(u), pass, compat));
    BundleLookups(Params(u), pass, compat);
    EmptyQuery();
  }

  function BundleKeys(compat: string): set<string> {
    {"format", "pass"} + if compat != "" then {"pkcs12-compat"} else {}
  }

  lemma BundleLookups(q: Values, pass: string, compat: string)
    ensures var v := BundleValues(q, pass, compat);
      && "pass" in v && Get(v, "pass") == pass && Get(v, "format") == "PKCS12"
      && Get(v, "pkcs12-compat") == (if compat != "" then compat else Get(q, "pkcs12-compat"))
      && (q == map[] ==> v.Keys == BundleKeys(compat))
  {
    KeysApart();
  }

  lemma KeysApart()
    ensures "pass" != "format" && "pass" != "pkcs12-compat" && "format" != "pkcs12-compat"
  {
  }

  // ---- what a request asks for and where it goes, file by file ----

  /** A file name in front of its last dot. */
  function StemOf(f: string): string
    requires '.' in f
  {
    f[..LastIndex(f, '.')]
  }

  lemma StemOfLocal(role: Role)
    ensures var f := LocalName(role);
      '.' in f && StemOf(f) == RemoteName(role) && f == RemoteName(role) + "." + Extension(role)
  {
    var f, i := LocalName(role), |RemoteName(role)|;
    assert f[i] == '.';
    assert forall k | i < k < |f| :: f[k] == Extension(role)[k - i - 1];
    assert LastIndex(f, '.') == i;
    assert f[..i] == RemoteName(role);
  }

  /** The role a URL names. */
  lemma StemTells(role: Role)
    ensures role.BUNDLE? <==> RemoteName(role) == "bundle"
    ensures role.KEY? <==> RemoteName(role) == "privkey"
    ensures LocalName(role) == RemoteName(role) + if role.BUNDLE? then ".pfx" else ".pem"
  {
    assert "." + "pfx" == ".pfx" && "." + "pem" == ".pem";
    assert RemoteName(role)[0] == match role { case BUNDLE => 'b' case KEY => 'p' case FULLCHAIN => 'f' case _ => 'c' };
  }

  lemma ItemFile(b: Built, t: Terms, j: nat)
    requires InBytes(t) && Complete(b, t) && j < |b.req.items|
    ensures j < |Roles(t.format)| && b.req.items[j].local != []
    ensures var it, f := b.req.items[j], LocalName(Roles(t.format)[j]);
      && it.local == Locate(t.certbase).parts + [b.req.domain, f] && Base(it.local) == f
      && (it.private <==> Roles(t.format)[j] in {KEY, BUNDLE})
  {
    assert Fitting(b.req.items[j], b.locals[j], b.req.domain, t.certbase, Roles(t.format)[j]);
  }

  lemma ItemURL(b: Built, t: Terms, j: nat)
    requires InBytes(t) && Complete(b, t) && j < |Roles(t.format)|
    ensures j < |b.urls|
    ensures var role := Roles(t.format)[j];
      var url := t.parse(t.proxy + "/v1/" + RemoteName(role) + "/" + b.req.domain);
      && url.Some? && b.urls[j] == if role.BUNDLE? then WithBundleQuery(url.value, t.pass, t.compat) else url.value
  {
    var role := Roles(t.format)[j];
    assert Some(b.urls[j]) == RoleURL(t, b.req.domain, role);
    assert t.proxy + RemotePath(role, b.req.domain)
      == t.proxy + "/v1/" + RemoteName(role) + "/" + b.req.domain;
  }

  /** The body of /v1/<stem>/<domain> goes to <base>/<domain>/<stem>.pem, a bundle's to
      .pfx; and it is kept private exactly if the stem is that of a key or a bundle. */
  ghost predicate Placed(it: Item, url: URL, t: Terms, domain: string, stem: string)
    requires InBytes(t)
  {
    var asked := t.parse(t.proxy + "/v1/" + stem + "/" + domain);
    && it.local == Locate(t.certbase).parts + [domain, stem + if stem == "bundle" then ".pfx" else ".pem"]
    && (it.private <==> stem == "privkey" || stem == "bundle")
    && asked.Some?
    && url == if stem == "bundle" then WithBundleQuery(asked.value, t.pass, t.compat) else asked.value
  }

  lemma PlacedByRole(b: Built, t: Terms, j: nat)
    requires InBytes(t) && Complete(b, t) && j < |b.req.items|
    ensures j < |Roles(t.format)| && j < |b.urls|
    ensures Placed(b.req.items[j], b.urls[j], t, b.req.domain, RemoteName(Roles(t.format)[j]))
  {
    ItemFile(b, t, j);
    ItemURL(b, t, j);
    StemOfLocal(Roles(t.format)[j]);
    StemTells(Roles(t.format)[j]);
  }

  /** For every item: the file's name up to its last dot is the path segment that was
      asked for. */
  lemma FilesMatchURLs(b: Built, t: Terms, j: nat)
    requires InBytes(t) && Complete(b, t) && j < |b.req.items|
    ensures j < |b.urls| && b.req.items[j].local != [] && '.' in Base(b.req.items[j].local)
    ensures Placed(b.req.items[j], b.urls[j], t, b.req.domain, StemOf(Base(b.req.items[j].local)))
  {
    ItemFile(b, t, j);
    StemOfLocal(Roles(t.format)[j]);
    PlacedByRole(b, t, j);
  }

  /** The files of a format. */
  function FileNames(format: Format): set<string> {
    match format
    case PEM => {"cert.pem", "privkey.pem", "chain.pem", "fullchain.pem"}
    case PKCS12 => {"bundle.pfx"}
    case Other(_) => {}
  }

  lemma NamesOfRoles(format: Format)
    ensures FileNames(format) == set role | role in Roles(format) :: LocalName(role)
  {
    var names := set role | role in Roles(format) :: LocalName(role);
    assert LocalName(CRT) == "cert.pem" && LocalName(KEY) == "privkey.pem" && LocalName(CHAIN) == "chain.pem";
    assert LocalName(FULLCHAIN) == "fullchain.pem" && LocalName(BUNDLE) == "bundle.pfx";
    if format.PEM? {
      assert Roles(format)[0] == CRT && Roles(format)[1] == KEY && Roles(format)[2] == CHAIN;
      assert Roles(format)[3] == FULLCHAIN;
    } else if format.PKCS12? {
      assert Roles(format)[0] == BUNDLE;
    }
  }

  /** A request has each file of its format once, and no other. */
  lemma FilesOfFormat(b: Built, t: Terms)
    requires InBytes(t) && Complete(b, t)
    ensures forall j | 0 <= j < |b.req.items| ::
      b.req.items[j].local != [] && Base(b.req.items[j].local) in FileNames(t.format)
    ensures forall f | f in FileNames(t.format) ::
      exists j | 0 <= j < |b.req.items| :: b.req.items[j].local != [] && Base(b.req.items[j].local) == f
    ensures |b.req.items| == |FileNames(t.format)|
  {
    NamesOfRoles(t.format);
    forall j | 0 <= j < |b.req.items|
      ensures b.req.items[j].local != [] && Base(b.req.items[j].local) == LocalName(Roles(t.format)[j])
    {
      ItemFile(b, t, j);
    }
    forall f | f in FileNames(t.format)
      ensures exists j | 0 <= j < |b.req.items| :: b.req.items[j].local != [] && Base(b.req.items[j].local) == f
    {
      var j := FileAt(t.format, f);
      ItemFile(b, t, j);
    }
    NamesCounted(t.format);
  }

  lemma NamesCounted(format: Format)
    ensures |FileNames(format)| == |Roles(format)|
  {
    if format.PEM? {
      var a, b: set<string> := {"cert.pem", "privkey.pem"}, {"chain.pem", "fullchain.pem"};
      assert |"cert.pem"| == 8 && |"privkey.pem"| == 11 && |"chain.pem"| == 9 && |"fullchain.pem"| == 13;
      assert |a| == 2 && |b| == 2 && a !! b && FileNames(format) == a + b;
    }
  }

  /** Which item a file is. */
  lemma FileAt(format: Format, f: string) returns (j: nat)
    requires f in FileNames(format)
    ensures j < |Roles(format)| && LocalName(Roles(format)[j]) == f
  {
    NamesOfRoles(format);
    var role :| role in Roles(format) && LocalName(role) == f;
    j :| j < |Roles(format)| && Roles(format)[j] == role;
  }

  /** Every request NewReq builds is one Execute's guarantees apply to: names plain and
      distinct in one directory, no data yet, private exactly for keys and bundles. */
  lemma BuiltIsWellFormed(b: Built, domain: string, basedir: string, format: Format)
    requires ValidDomain(domain) && Expanded(b, domain, basedir, Roles(format))
    ensures WellFormed(b.req) && Empty(b.req)
  {
    RolesDistinct(format);
    ExpandedIsWellFormed(b, domain, basedir, Roles(format));
  }

  lemma RolesDistinct(format: Format)
    ensures forall i, j | 0 <= i < j < |Roles(format)| :: Roles(format)[i] != Roles(format)[j]
  {
  }

  lemma ExpandedIsWellFormed(b: Built, domain: string, basedir: string, roles: seq<Role>)
    requires ValidDomain(domain) && Expanded(b, domain, basedir, roles)
    requires forall i, j | 0 <= i < j < |roles| :: roles[i] != roles[j]
    ensures WellFormed(b.req) && Empty(b.req)
  {
    forall j | 0 <= j < |roles|
      ensures ItemOk(b.req, j) && Base(b.req.items[j].local) == LocalName(roles[j])
    {
      FittingIsOk(b, domain, basedir, roles, j);
    }
    forall i, j | 0 <= i < j < |roles|
      ensures b.req.items[i].local != b.req.items[j].local
    {
      LocalNamesDiffer(roles[i], roles[j]);
    }
  }

  lemma FittingIsOk(b: Built, domain: string, basedir: string, roles: seq<Role>, j: nat)
    requires Expanded(b, domain, basedir, roles) && j < |roles|
    ensures ItemOk(b.req, j) && Base(b.req.items[j].local) == LocalName(roles[j])
  {
    var p := b.req.items[j].local;
    assert Fitting(b.req.items[j], b.locals[j], domain, basedir, roles[j]);
    LocalNames(roles[j]);
    assert p == b.req.dir + [LocalName(roles[j])];
  }

  /** The path strings Execute computes from a built request name exactly the paths of
      the model: "should not happen" is unreachable, the infixed and the temporary
      name stay in the domain's directory, and the link target is the bare name. */
  lemma BuiltStrings(b: Built, domain: string, basedir: string, roles: seq<Role>, e: Env, j: nat)
    requires ValidDomain(domain) && Expanded(b, domain, basedir, roles) && j < |roles| && WellFormed(b.req)
    ensures var s, rooted := b.locals[j], Locate(basedir).rooted;
      && '.' in s
      && Locate(Infix(s, e.second)) == Location(rooted, WrittenPath(b.req, e, j))
      && Locate(Tmp(s)) == Location(rooted, LinkPath(b.req, j))
      && Locate(DirName(Infix(s, e.second))) == Location(rooted, b.req.dir)
      && BaseName(Infix(s, e.second)) == Base(WrittenPath(b.req, e, j))
  {
    var f := LocalName(roles[j]);
    var loc := Location(Locate(basedir).rooted, b.req.dir);
    assert Fitting(b.req.items[j], b.locals[j], domain, basedir, roles[j]);
    FittingIsOk(b, domain, basedir, roles, j);
    LocalNames(roles[j]);
    LocalPrinted(basedir, roles[j], domain);
    DirNormal(basedir, domain);
    assert b.req.items[j].local == loc.parts + [f];
    SiblingStrings(loc, f, e.second);
  }

  lemma DirNormal(basedir: string, domain: string)
    requires ValidDomain(domain)
    ensures Normal(Location(Locate(basedir).rooted, Locate(basedir).parts + [domain]))
  {
    LocateNormal(basedir);
    ValidIsOneComponent(domain);
  }

  /** The local path is clean already: base directory, domain, file. */
  lemma LocalPrinted(basedir: string, role: Role, domain: string)
    requires ValidDomain(domain)
    ensures LocalPath(basedir, role, domain)
      == PathString(Location(Locate(basedir).rooted, Locate(basedir).parts + [domain] + [LocalName(role)]))
  {
    LocalLocation(basedir, role, domain);
    var below := domain + "/" + LocalName(role);
    var whole := if basedir != "" then basedir + "/" + below else below;
    ValidIsOneComponent(domain);
    assert whole != "" && LocalPath(basedir, role, domain) == Clean(whole);
    CleanKeepsLocation(whole);
    assert Locate(basedir).parts + [domain] + [LocalName(role)] == Locate(basedir).parts + [domain, LocalName(role)];
  }

  // ---- all requests of a run ----

  function DomainSet(built: seq<Built>): set<string> {
    set i | 0 <= i < |built| && built[i].Ok? :: built[i].req.domain
  }

  ghost predicate AllComplete(built: seq<Built>, t: Terms)
    requires InBytes(t)
  {
    forall i | 0 <= i < |built| :: Complete(built[i], t)
  }

  predicate DistinctDomains(built: seq<Built>) {
    forall i, j | 0 <= i < j < |built| && built[i].Ok? && built[j].Ok? :: built[i].req.domain != built[j].req.domain
  }

  /** One complete request for each of the domains. */
  ghost predicate BuiltFor(built: seq<Built>, domains: set<string>, t: Terms)
    requires InBytes(t)
  {
    AllComplete(built, t) && DistinctDomains(built) && DomainSet(built) == domains
  }

  ghost predicate AllBuildable(domains: set<string>, t: Terms)
    requires InBytes(t)
  {
    forall d | d in domains :: !Unbuildable(d, t)
  }

  /** EnqueueTasks up to starting the producer: one request per domain, in some order of
      the set, or nothing at all if one of them cannot be built. */
  method BuildRequests(CNs: set<string>, t: Terms) returns (built: Option<seq<Built>>)
    requires InBytes(t)
    ensures built.Some? ==> BuiltFor(built.value, CNs, t) && |built.value| == |CNs|
    ensures built.Some? <==> AllBuildable(CNs, t)
  {
    var reqs: seq<Built> := [];
    var rest := CNs;
    while rest != {}
      invariant rest <= CNs && BuiltFor(reqs, CNs - rest, t) && |reqs| + |rest| == |CNs|
      invariant AllBuildable(CNs - rest, t)
      decreases rest
    {
      var cn :| cn in rest;
      var req := NewReq(cn, t);
      if req.Err? { return None; }
      BuiltMore(reqs, CNs - rest, t, req);
      OneLess(CNs, rest, cn);
      rest := rest - {cn};
      reqs := reqs + [req];
    }
    assert CNs - {} == CNs;
    built := Some(reqs);
  }

  lemma OneLess(all: set<string>, rest: set<string>, x: string)
    requires rest <= all && x in rest
    ensures all - (rest - {x}) == all - rest + {x} && |rest - {x}| == |rest| - 1
  {
  }

  lemma DomainsMore(built: seq<Built>, b: Built)
    requires b.Ok?
    ensures DomainSet(built + [b]) == DomainSet(built) + {b.req.domain}
    ensures DistinctDomains(built) && b.req.domain !in DomainSet(built) ==> DistinctDomains(built + [b])
  {
    var more := built + [b];
    forall d
      ensures d in DomainSet(more) <==> d in DomainSet(built) + {b.req.domain}
    {
      if d in DomainSet(built) {
        var i :| 0 <= i < |built| && built[i].Ok? && built[i].req.domain == d;
        assert more[i] == built[i];
      }
      assert more[|built|] == b;
    }
  }

  lemma CompleteMore(built: seq<Built>, t: Terms, b: Built)
    requires InBytes(t) && AllComplete(built, t) && Complete(b, t)
    ensures AllComplete(built + [b], t)
  {
  }

  lemma BuiltMore(built: seq<Built>, domains: set<string>, t: Terms, b: Built)
    requires InBytes(t) && BuiltFor(built, domains, t) && Complete(b, t) && b.req.domain !in domains
    ensures BuiltFor(built + [b], domains + {b.req.domain}, t)
  {
    DomainsMore(built, b);
    CompleteMore(built, t, b);
  }

  function RequestsOf(built: seq<Built>): seq<Request>
    requires forall i | 0 <= i < |built| :: built[i].Ok?
  {
    seq(|built|, i requires 0 <= i < |built| => built[i].req)
  }

  lemma CompleteIsWellFormed(b: Built, t: Terms)
    requires InBytes(t) && Complete(b, t)
    ensures WellFormed(b.req) && Empty(b.req) && |b.req.items| == |Roles(t.format)|
    ensures b.req.dir == Locate(t.certbase).parts + [b.req.domain]
  {
    BuiltIsWellFormed(b, b.req.domain, t.certbase, t.format);
  }

  /** The requests of a run work in distinct sibling directories, as the pool needs. */
  lemma BuiltIsValid(c: Pool.Config, built: seq<Built>, domains: set<string>, t: Terms)
    requires InBytes(t) && BuiltFor(built, domains, t) && c.reqs == RequestsOf(built) && |c.envs| == |c.reqs|
    requires forall i | 0 <= i < |c.envs| :: Permutes(c.envs[i].order, |Roles(t.format)|)
    ensures Pool.Valid(c)
  {
    forall i | 0 <= i < |c.reqs|
      ensures WellFormed(c.reqs[i]) && |c.reqs[i].items| == |Roles(t.format)|
      ensures c.reqs[i].dir == Locate(t.certbase).parts + [c.reqs[i].domain]
    {
      CompleteIsWellFormed(built[i], t);
    }
    forall i, j | 0 <= i < j < |c.reqs|
      ensures c.reqs[i].dir != c.reqs[j].dir
    {
      assert Base(c.reqs[i].dir) == c.reqs[i].domain && Base(c.reqs[j].dir) == c.reqs[j].domain;
    }
  }

  /** The URL path is clean, so the router takes it as it is, and splitting it gives
      back the role and the domain. */
  lemma RemotePathSplits(role: Role, domain: string)
    requires ValidDomain(domain)
    ensures Split(RemotePath(role, domain), '/') == ["", "v1", RemoteName(role), domain]
    ensures Clean(RemotePath(role, domain)) == RemotePath(role, domain)
  {
    var parts := ["", "v1", RemoteName(role), domain];
    var loc := Location(true, parts[1..]);
    ValidIsOneComponent(domain);
    RoleIsName(role);
    JoinFour(parts);
    SplitJoin(parts, '/');
    assert "/v1/" == "/" + "v1" + "/";
    assert Join(parts, '/') == RemotePath(role, domain);
    assert PathString(loc) == Join(parts, '/');
    LocatePrinted(loc);
  }

  lemma RoleIsName(role: Role)
    ensures Name(RemoteName(role))
  {
  }

  lemma JoinFour(parts: seq<string>)
    requires |parts| == 4 && parts[0] == ""
    ensures Join(parts, '/') == "/" + Join(parts[1..], '/')
    ensures Join(parts, '/') == "/" + parts[1] + "/" + parts[2] + "/" + parts[3]
  {
    assert Join(parts[3..], '/') == parts[3];
    assert Join(parts[2..], '/') == parts[2] + "/" + parts[3];
    assert Join(parts[1..], '/') == parts[1] + "/" + (parts[2] + "/" + parts[3]);
  }
}
