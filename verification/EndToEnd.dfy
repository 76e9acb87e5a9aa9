/** Client and server put together: what a successful run leaves on the client's disk,
    in terms of the files the server holds. */
module EndToEnd {
  import opened Text
  import opened Validate
  import opened Query
  import opened Redact
  import opened Requests
  import opened Disk
  import opened Execution
  import opened Server
  import opened Access
  import Publication
  import Store
  import Paths
  import Cache
  import Coherence

  /** The proxy's address has no query of its own. */
  ghost predicate PlainProxy(t: Terms, domain: string) {
    forall role | role in Roles(t.format) ::
      var u := t.parse(t.proxy + RemotePath(role, domain)); u.Some? ==> u.value.query == ""
  }

  /** The query NewReq makes for an item asks the server for the format of the client's
      item. */
  lemma BuiltAsksFormat(t: Terms, domain: string, role: Role, url: URL)
    requires InBytes(t) && PlainProxy(t, domain) && role in Roles(t.format)
    requires RoleURL(t, domain, role) == Some(url)
    ensures AsksFormat(role, Params(url))
    ensures role.BUNDLE? ==> Get(Params(url), "pass") == t.pass && Get(Params(url), "pkcs12-compat") == t.compat
  {
    var u := t.parse(t.proxy + RemotePath(role, domain)).value;
    if role.BUNDLE? {
      BundleQueryReadBack(u, t.pass, t.compat);
    }
    EmptyQuery();
  }

  /** The answers a run gets are the server's, for the requests NewReq built. */
  ghost predicate Connected(site: Site, b: Built, roles: seq<Role>, peer: Option<string>, e: Env)
    requires b.Ok? && |b.urls| == |roles|
  {
    forall j: nat, since, reply | j < |roles| ::
      Answers(site, ROUTES, ItemRequest(roles[j], b.req.domain, Params(b.urls[j]), since, peer), reply) ==>
        e.answer(j, since) == AnswerOf(reply)
  }

  /** What the server has for item j of a request. */
  function ItemSource(site: Site, b: Built, roles: seq<Role>, j: nat): Option<Cache.Source>
    requires b.Ok? && j < |b.urls| == |roles|
  {
    SourceFor(site, roles[j], b.req.domain, Params(b.urls[j]))
  }

  /** A reader sees what the server has. */
  predicate Shows(v: Option<Node>, src: Option<Cache.Source>) {
    src.Some? && v.Some? && v.value.File? && v.value.content == src.value.content
  }

  /** The client may fetch item j, the server has something for it, and a copy on the
      client's disk is coherent with that. */
  ghost predicate ItemSupplied(site: Site, b: Built, t: Terms, peer: Option<string>, tree: Tree, j: nat)
    requires InBytes(t) && Complete(b, t) && WellFormed(b.req) && j < |Roles(t.format)| == |b.req.items|
  {
    && (Roles(t.format)[j] in {KEY, BUNDLE} ==> MayFetch(site, peer, b.req.domain))
    && var src := ItemSource(site, b, Roles(t.format), j);
       src.Some? && src.value.content != "" && Cache.Coherent(b.req, j, src.value, tree)
  }

  /** The premises on one request of a run: it talks to this server, in a fresh second,
      from a good store, and may fetch all it asks for. */
  ghost predicate Supplied(site: Site, b: Built, t: Terms, peer: Option<string>, e: Env, tree: Tree, last: nat)
    requires InBytes(t)
  {
    && Complete(b, t) && PlainProxy(t, b.req.domain) && Connected(site, b, Roles(t.format), peer, e)
    && Store.Startable(b.req, e) && e.second > last && Store.StoreOk(b.req.dir, tree, last)
    && |b.req.items| == |Roles(t.format)|
    && forall j | 0 <= j < |Roles(t.format)| :: ItemSupplied(site, b, t, peer, tree, j)
  }

  /** A run that succeeds leaves every item with the non-empty content the server has for
      it, whether it was sent or answered 304. */
  lemma SuccessfulItem(
      site: Site, b: Built, t: Terms, peer: Option<string>, e: Env, tree: Tree, last: nat, n: nat, j: nat)
    requires InBytes(t) && Supplied(site, b, t, peer, e, tree, last) && j < |Roles(t.format)|
    requires At(b.req, e, tree, n).0.pc == Done(true)
    ensures Shows(Seen(b.req, At(b.req, e, tree, n).1, j), ItemSource(site, b, Roles(t.format), j))
  {
    var role := Roles(t.format)[j];
    assert ItemSupplied(site, b, t, peer, tree, j);
    var src := ItemSource(site, b, Roles(t.format), j).value;
    ItemServedBy(site, b, t, peer, e, j);
    Cache.RefreshIsCurrent(b.req, j, src, tree, last, e, n);
  }

  // ---- file by file ----

  predicate SameContent(v: Option<Node>, o: Opened) {
    v.Some? && v.value.File? && o.Found? && v.value.content == o.content
  }

  /** What is on disk below base/domain is what the server has in that domain's directory;
      a bundle it has none of, what it makes for the password and level asked for. */
  predicate Mirrors(site: Site, t: Terms, d: string, tree: Tree) {
    var dir := Paths.Locate(t.certbase).parts + [d];
    match t.format
    case PEM =>
      forall f | f in {"cert.pem", "privkey.pem", "chain.pem", "fullchain.pem"} ::
        SameContent(View(tree, dir + [f]), site.certs([d, f]))
    case PKCS12 =>
      var stored := site.certs([d, "bundle.p12"]);
      SameContent(View(tree, dir + ["bundle.pfx"]),
                  if stored.Missing? then site.generate(d, t.pass, t.compat) else stored)
    case Other(_) => true
  }

  /** The server's file for a role, by the name on the client's disk. */
  function ServedName(f: string): string { if f == "bundle.pfx" then "bundle.p12" else f }

  lemma ServerName(role: Role, d: string)
    ensures ServerFile(role, d) == [d, ServedName(LocalName(role))]
    ensures role.BUNDLE? <==> LocalName(role) == "bundle.pfx"
  {
    StemTells(role);
    assert LocalName(BUNDLE) == "bundle.pfx" && RemoteName(BUNDLE) + ".p12" == "bundle.p12";
    assert LocalName(role)[0] == RemoteName(role)[0];
  }

  /** What stands behind an item on the server, by the name of its file. */
  lemma SourceOpened(site: Site, b: Built, t: Terms, j: nat)
    requires InBytes(t) && Complete(b, t) && PlainProxy(t, b.req.domain) && j < |Roles(t.format)| == |b.urls|
    requires ItemSource(site, b, Roles(t.format), j).Some?
    ensures var d, f := b.req.domain, LocalName(Roles(t.format)[j]);
      var stored := site.certs([d, ServedName(f)]);
      var o := if f == "bundle.pfx" && stored.Missing? then site.generate(d, t.pass, t.compat) else stored;
      o.Found? && o.content == ItemSource(site, b, Roles(t.format), j).value.content
  {
    var role := Roles(t.format)[j];
    assert Some(b.urls[j]) == RoleURL(t, b.req.domain, role);
    assert role in Roles(t.format);
    BuiltAsksFormat(t, b.req.domain, role, b.urls[j]);
    ServerName(role, b.req.domain);
  }

  /** What the server has behind a file on the client's disk. */
  function Behind(site: Site, t: Terms, d: string, f: string): Opened {
    var stored := site.certs([d, ServedName(f)]);
    if f == "bundle.pfx" && stored.Missing? then site.generate(d, t.pass, t.compat) else stored
  }

  lemma FileMirrored(site: Site, b: Built, t: Terms, tree: Tree, j: nat, f: string)
    requires InBytes(t) && Complete(b, t) && PlainProxy(t, b.req.domain)
    requires j < |b.req.items| == |b.urls| == |Roles(t.format)| && WellFormed(b.req)
    requires LocalName(Roles(t.format)[j]) == f
    requires Shows(Seen(b.req, tree, j), ItemSource(site, b, Roles(t.format), j))
    ensures SameContent(
      View(tree, Paths.Locate(t.certbase).parts + [b.req.domain] + [f]), Behind(site, t, b.req.domain, f))
  {
    SourceOpened(site, b, t, j);
    ItemPath(b, t, j);
    var base, d := Paths.Locate(t.certbase).parts, b.req.domain;
    assert base + [d] + [f] == base + [d, f];
  }

  /** Items that all show the server's content make up a mirror. */
  lemma ShownMirrors(site: Site, b: Built, t: Terms, tree: Tree)
    requires InBytes(t) && Complete(b, t) && PlainProxy(t, b.req.domain)
    requires |b.req.items| == |b.urls| == |Roles(t.format)| && WellFormed(b.req)
    requires forall j | 0 <= j < |Roles(t.format)| ::
      Shows(Seen(b.req, tree, j), ItemSource(site, b, Roles(t.format), j))
    ensures Mirrors(site, t, b.req.domain, tree)
  {
    forall f | f in FileNames(t.format)
      ensures SameContent(
        View(tree, Paths.Locate(t.certbase).parts + [b.req.domain] + [f]), Behind(site, t, b.req.domain, f))
    {
      var j := FileAt(t.format, f);
      FileMirrored(site, b, t, tree, j, f);
    }
    BehindMirrors(site, t, b.req.domain, tree);
  }

  lemma BehindMirrors(site: Site, t: Terms, d: string, tree: Tree)
    requires forall f | f in FileNames(t.format) ::
      SameContent(View(tree, Paths.Locate(t.certbase).parts + [d] + [f]), Behind(site, t, d, f))
    ensures Mirrors(site, t, d, tree)
  {
    NotBundle();
    assert t.format.PKCS12? ==> "bundle.pfx" in FileNames(t.format);
  }

  lemma NotBundle()
    ensures forall f | f in FileNames(PEM) :: ServedName(f) == f && f != "bundle.pfx"
  {
    assert forall f | f in FileNames(PEM) :: f[0] != "bundle.pfx"[0];
  }

  /** A run that succeeds leaves, under base/domain, exactly the server's files of that
      domain, each under its own name. */
  lemma SuccessfulRunMirrorsServer(
      site: Site, b: Built, t: Terms, peer: Option<string>, e: Env, tree: Tree, last: nat, n: nat)
    requires InBytes(t) && Supplied(site, b, t, peer, e, tree, last)
    requires At(b.req, e, tree, n).0.pc == Done(true)
    ensures Mirrors(site, t, b.req.domain, At(b.req, e, tree, n).1)
  {
    forall j | 0 <= j < |Roles(t.format)|
      ensures Shows(Seen(b.req, At(b.req, e, tree, n).1, j), ItemSource(site, b, Roles(t.format), j))
    {
      SuccessfulItem(site, b, t, peer, e, tree, last, n, j);
    }
    ShownMirrors(site, b, t, At(b.req, e, tree, n).1);
  }

  lemma ItemServedBy(site: Site, b: Built, t: Terms, peer: Option<string>, e: Env, j: nat)
    requires InBytes(t) && Complete(b, t) && PlainProxy(t, b.req.domain) && j < |Roles(t.format)|
    requires Connected(site, b, Roles(t.format), peer, e)
    requires Roles(t.format)[j] in {KEY, BUNDLE} ==> MayFetch(site, peer, b.req.domain)
    requires ItemSource(site, b, Roles(t.format), j).Some?
    ensures Cache.ServedBy(ItemSource(site, b, Roles(t.format), j).value, e, j)
  {
    var role := Roles(t.format)[j];
    assert Some(b.urls[j]) == RoleURL(t, b.req.domain, role);
    assert role in Roles(t.format);
    BuiltAsksFormat(t, b.req.domain, role, b.urls[j]);
    ServerIsCacheSource(site, role, b.req.domain, Params(b.urls[j]), peer, e, j);
  }

  /** Where the item lies. */
  lemma ItemPath(b: Built, t: Terms, j: nat)
    requires InBytes(t) && Complete(b, t) && j < |Roles(t.format)|
    ensures j < |b.req.items|
    ensures PublishedPath(b.req, j) == Paths.Locate(t.certbase).parts + [b.req.domain, LocalName(Roles(t.format)[j])]
  {
    assert Fitting(b.req.items[j], b.locals[j], b.req.domain, t.certbase, Roles(t.format)[j]);
  }

  /** The bundle asked for now differs from the one asked for before, made of the same
      certificate. */
  predicate PasswordChanged(site: Site, domain: string, before: Values, now: Values) {
    var was, src := SourceFor(site, BUNDLE, domain, before), SourceFor(site, BUNDLE, domain, now);
    && was.Some? && src.Some? && was.value.mtime == src.value.mtime
    && was.value.content != src.value.content && src.value.content != ""
  }

  /** Item j's answers are the server's to a bundle request with this query. */
  ghost predicate AnsweredFor(site: Site, domain: string, query: Values, peer: Option<string>, e: Env, j: nat) {
    forall since, reply | Answers(site, ROUTES, ItemRequest(BUNDLE, domain, query, since, peer), reply) ::
      e.answer(j, since) == AnswerOf(reply)
  }

  /** The copy is the bundle made under one password or compatibility level, and the
      client now asks for another: a plain run that succeeds gets the new bundle if and
      only if the certificate is younger, in seconds, than the copy. Otherwise it is told
      304 and keeps the bundle under the old password. */
  lemma NewPasswordIffLater(
      site: Site, domain: string, before: Values, now: Values, peer: Option<string>,
      r: Request, j: nat, tree: Tree, last: nat, e: Env, n: nat)
    requires ValidDomain(domain) && MayFetch(site, peer, domain) && AsksFormat(BUNDLE, now)
    requires PasswordChanged(site, domain, before, now)
    requires j < |r.items| && Store.Startable(r, e) && e.second > last && Store.StoreOk(r.dir, tree, last)
    requires Cache.Current(r, j, SourceFor(site, BUNDLE, domain, before).value, tree)
    requires AnsweredFor(site, domain, now, peer, e, j)
    requires !e.force && !e.statFails(j) && At(r, e, tree, n).0.pc == Done(true)
    ensures var src, v := SourceFor(site, BUNDLE, domain, now).value, Seen(r, At(r, e, tree, n).1, j);
      if Sec(src.mtime) > Sec(Seen(r, tree, j).value.mtime) then Cache.Current(r, j, src, At(r, e, tree, n).1)
      else v == Seen(r, tree, j) && Fetched(r, e, tree, j).NotModified?
  {
    var src := SourceFor(site, BUNDLE, domain, now).value;
    ServerIsCacheSource(site, BUNDLE, domain, now, peer, e, j);
    Cache.StaleIffNotLater(r, j, src, tree, last, e, n);
    Store.StoreReady(r, e, tree, last);
    Publication.SuccessIsOverlay(r, e, tree, n, j);
    assert Since(r, e, tree, j) == Some(Sec(Seen(r, tree, j).value.mtime));
  }

  /** After any history that delivered the bundle under the old password, and no update
      since, every plain run that succeeds is told 304 and keeps it: a delivered copy is
      never older than the certificate it was made from. */
  lemma NewPasswordIgnored(
      site: Site, domain: string, before: Values, now: Values, peer: Option<string>,
      r: Request, j: nat, w: Coherence.World, events: seq<Coherence.Event>, e: Env, n: nat)
    requires ValidDomain(domain) && MayFetch(site, peer, domain) && AsksFormat(BUNDLE, now)
    requires PasswordChanged(site, domain, before, now) && AnsweredFor(site, domain, now, peer, e, j)
    requires Coherence.Traced(r, j, w) && Coherence.InOrder(j, w) && Coherence.Chronicle(r, j, w, events)
    requires var v := Coherence.Finally(r, j, w, events);
      && v.run.None? && v.deliveries != []
      && v.deliveries[|v.deliveries| - 1].fetch.version == |v.log| - 1
      && Coherence.Latest(v) == SourceFor(site, BUNDLE, domain, before).value
      && Seen(r, v.tree, j).Some? && Seen(r, v.tree, j).value.File?
    requires Store.Startable(r, e) && e.second > Coherence.Finally(r, j, w, events).last
    requires !e.force && !e.statFails(j)
    requires At(r, e, Coherence.Finally(r, j, w, events).tree, n).0.pc == Done(true)
    ensures var tree := Coherence.Finally(r, j, w, events).tree;
      && Fetched(r, e, tree, j).NotModified?
      && Seen(r, At(r, e, tree, n).1, j) == Seen(r, tree, j)
      && Cache.Current(r, j, SourceFor(site, BUNDLE, domain, before).value, At(r, e, tree, n).1)
  {
    Coherence.TracedAlways(r, j, w, events);
    Coherence.CopyNotOlder(r, j, w, events);
    var v := Coherence.Finally(r, j, w, events);
    NewPasswordIffLater(site, domain, before, now, peer, r, j, v.tree, v.last, e, n);
  }
}
