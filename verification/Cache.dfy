/** The client's copy of a file as a cache of the server's, refreshed under
    If-Modified-Since with whole-second times. */
module Cache {
  import opened Text
  import opened Disk
  import opened Execution
  import opened Publication
  import opened Store
  import Success

  /** The server's file behind one item. */
  datatype Source = Source(content: string, mtime: nat)

  /** http.ServeContent on it: section 13.1.3 of RFC 9110, at whole seconds. */
  function Reply(src: Source, since: Option<nat>): Answer {
    if since.Some? && Sec(src.mtime) <= since.value then NotModified else Body(src.content)
  }

  /** This run's fetch of item j is answered by src. */
  ghost predicate ServedBy(src: Source, e: Env, j: nat) {
    forall since :: e.answer(j, since) == Reply(src, since)
  }

  /** A differing local copy is strictly older, in seconds, than the server's file. */
  predicate Coherent(r: Request, j: nat, src: Source, t: Tree)
    requires WellFormed(r) && j < |r.items|
  {
    var v := Seen(r, t, j);
    v.Some? && v.value.File? && v.value.content != src.content ==> Sec(src.mtime) > Sec(v.value.mtime)
  }

  /** A 304 is only ever given for an identical copy. */
  lemma NotModifiedIsIdentical(r: Request, j: nat, src: Source, e: Env, t: Tree)
    requires WellFormed(r) && j < |r.items| && ServedBy(src, e, j) && Coherent(r, j, src, t)
    requires Fetched(r, e, t, j).NotModified?
    ensures var v := Seen(r, t, j); v.Some? && v.value.File? && v.value.content == src.content
  {
  }

  predicate Current(r: Request, j: nat, src: Source, t: Tree)
    requires WellFormed(r) && j < |r.items|
  {
    var v := Seen(r, t, j);
    v.Some? && v.value.File? && v.value.content == src.content
  }

  /** A run that succeeds from a coherent copy ends with the content the server
      answered by, forced or not; an empty body is the one thing it never stores. */
  lemma RefreshIsCurrent(r: Request, j: nat, src: Source, tree: Tree, last: nat, e: Env, n: nat)
    requires j < |r.items| && Startable(r, e) && e.second > last && ServedBy(src, e, j)
    requires StoreOk(r.dir, tree, last) && Coherent(r, j, src, tree)
    requires At(r, e, tree, n).0.pc in {Lock, Hook, Done(true)}
    ensures Current(r, j, src, At(r, e, tree, n).1)
      <==> src.content != "" || Current(r, j, src, tree)
  {
    StoreReady(r, e, tree, last);
    SuccessIsOverlay(r, e, tree, n, j);
    if Fetched(r, e, tree, j).NotModified? {
      NotModifiedIsIdentical(r, j, src, e, tree);
    }
  }

  /** The run sends no date for item j: it is forced, or cannot stat its copy. */
  predicate Unconditional(e: Env, j: nat) { e.force || e.statFails(j) }

  /** What such a run is answered does not depend on the disk: it sends no date. */
  lemma UnconditionalAnswer(r: Request, e: Env, t: Tree, t': Tree, j: nat)
    requires WellFormed(r) && j < |r.items| && Unconditional(e, j)
    ensures Fetched(r, e, t, j) == Fetched(r, e, t', j) == e.answer(j, None)
  {
  }

  /** A forced run that succeeds ends with the content the server answered by, whatever
      copy was there, coherent or stale. */
  lemma ForcedIsCurrent(r: Request, j: nat, src: Source, tree: Tree, last: nat, e: Env, n: nat)
    requires j < |r.items| && Startable(r, e) && e.second > last && ServedBy(src, e, j)
    requires StoreOk(r.dir, tree, last) && Unconditional(e, j)
    requires At(r, e, tree, n).0.pc in {Lock, Hook, Done(true)}
    ensures Fetched(r, e, tree, j) == Body(src.content)
    ensures Current(r, j, src, At(r, e, tree, n).1)
      <==> src.content != "" || Current(r, j, src, tree)
  {
    StoreReady(r, e, tree, last);
    SuccessIsOverlay(r, e, tree, n, j);
  }

  /** So one forced run in which nothing goes wrong ends any stale copy. */
  lemma ForcedRunCures(r: Request, j: nat, src: Source, tree: Tree, last: nat, e: Env)
    requires j < |r.items| && Startable(r, e) && e.second > last && ServedBy(src, e, j)
    requires StoreOk(r.dir, tree, last) && Unconditional(e, j) && src.content != ""
    requires Success.Faultless(e) && Success.Succeeding(r, e, tree)
    ensures At(r, e, tree, Bound(r)).0.pc == Done(true) && Current(r, j, src, At(r, e, tree, Bound(r)).1)
  {
    StoreReady(r, e, tree, last);
    Success.SucceedsIff(r, e, tree, Bound(r));
    ForcedIsCurrent(r, j, src, tree, last, e, Bound(r));
  }

  /** The timing premise is exact: after an update to different content, a plain run
      picks it up if and only if its second is later than the local copy's. */
  lemma StaleIffNotLater(r: Request, j: nat, src: Source, tree: Tree, last: nat, e: Env, n: nat)
    requires j < |r.items| && Startable(r, e) && e.second > last && ServedBy(src, e, j)
    requires StoreOk(r.dir, tree, last) && !e.force && !e.statFails(j)
    requires var v := Seen(r, tree, j); v.Some? && v.value.File? && v.value.content != src.content
    requires src.content != "" && At(r, e, tree, n).0.pc == Done(true)
    ensures Seen(r, At(r, e, tree, n).1, j).Some?
    ensures var f := Seen(r, At(r, e, tree, n).1, j).value;
      (f.File? && f.content == src.content) <==> Sec(src.mtime) > Sec(Seen(r, tree, j).value.mtime)
  {
    StoreReady(r, e, tree, last);
    SuccessIsOverlay(r, e, tree, n, j);
  }
}
