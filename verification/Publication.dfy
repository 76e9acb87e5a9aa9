/** What a reader of the published names sees at every crash point of Execute,
    under every injected failure and every iteration order. */
module Publication {
  import opened Text
  import opened Disk
  import opened Execution
  import opened Invariant

  /** A reader of name j sees the complete old file (or its old absence), or the
      complete new one. */
  predicate Atomic(r: Request, e: Env, d: Tree, t: Tree, j: nat)
    requires WellFormed(r) && j < |r.items|
  {
    var c := Fresh(r, e, d, j);
    Seen(r, t, j) == Seen(r, d, j) || (c != "" && Seen(r, t, j) == Some(Finished(r, e, j, c)))
  }

  lemma ViewNew(r: Request, e: Env, d: Tree, l: Local, t: Tree, j: nat)
    requires Inv(r, e, d, l, t) && j in l.published
    ensures Seen(r, t, j) == Some(Finished(r, e, j, Fresh(r, e, d, j)))
  {
    assert ItemState(r, e, d, l, t, j);
    LayoutAt(r, e, j);
  }

  lemma ViewOld(r: Request, e: Env, d: Tree, l: Local, t: Tree, j: nat)
    requires Inv(r, e, d, l, t) && j < |r.items| && j !in l.published
    ensures Seen(r, t, j) == Seen(r, d, j)
  {
    assert ItemState(r, e, d, l, t, j);
    assert EntryOk(r, d, j);
    LayoutAt(r, e, j);
    var p := PublishedPath(r, j);
    if p in d && d[p].Link? {
      var q := r.dir + [d[p].target];
      assert Base(q) == d[p].target;
      forall i | 0 <= i < |r.items|
        ensures q != WrittenPath(r, e, i)
      {
        LayoutAt(r, e, i);
      }
      assert Same(t, d, q);
    }
  }

  /** Whatever fails and wherever the process stops. */
  lemma CrashAtomicity(r: Request, e: Env, d: Tree, n: nat, j: nat)
    requires Ready(r, e, d) && j < |r.items|
    ensures Atomic(r, e, d, At(r, e, d, n).1, j)
  {
    InvAt(r, e, d, n);
    var (l, t) := At(r, e, d, n);
    if j in l.published {
      ViewNew(r, e, d, l, t, j);
    } else {
      ViewOld(r, e, d, l, t, j);
    }
  }

  /** Nothing but the names of the request is ever touched, and private data never
      lies in a file others may read, not even while it is being written. */
  lemma CrashConfinement(r: Request, e: Env, d: Tree, n: nat)
    requires Ready(r, e, d)
    ensures var t := At(r, e, d, n).1;
      && (forall q | !Touches(r, e, q) :: Same(t, d, q))
      && (forall j | 0 <= j < |r.items| && r.items[j].private && !Same(t, d, WrittenPath(r, e, j)) ::
           OwnFile(r, t, WrittenPath(r, e, j), j))
      && (forall j | 0 <= j < |r.items| && r.items[j].private && !Same(t, d, PublishedPath(r, j)) ::
           var v := Seen(r, t, j); v.Some? && v.value.File? && v.value.mode == PRIVATE_MODE)
  {
    InvAt(r, e, d, n);
    var (l, t) := At(r, e, d, n);
    forall j | 0 <= j < |r.items|
      ensures r.items[j].private && !Same(t, d, WrittenPath(r, e, j)) ==> OwnFile(r, t, WrittenPath(r, e, j), j)
      ensures r.items[j].private && !Same(t, d, PublishedPath(r, j)) ==>
        var v := Seen(r, t, j); v.Some? && v.value.File? && v.value.mode == PRIVATE_MODE
    {
      assert ItemState(r, e, d, l, t, j);
      if j in l.published {
        ViewNew(r, e, d, l, t, j);
      }
    }
  }

  lemma FailedFetchStops(r: Request, e: Env, d: Tree, l: Local, t: Tree, j: nat)
    requires Inv(r, e, d, l, t) && j < |r.items| && !FetchOk(r, e, d, j)
    ensures t == d
  {
    assert !FetchedAll(r, e, d, l);
  }

  /** If any fetch goes wrong, the disk never changes at all. */
  lemma FetchFailureIsSilent(r: Request, e: Env, d: Tree, n: nat, j: nat)
    requires Ready(r, e, d) && j < |r.items| && !FetchOk(r, e, d, j)
    ensures At(r, e, d, n).1 == d
  {
    InvAt(r, e, d, n);
    var (l, t) := At(r, e, d, n);
    FailedFetchStops(r, e, d, l, t, j);
  }

  /** The result of a successful run: the old view overlaid with the bodies that
      arrived non-empty. */
  function Overlay(r: Request, e: Env, d: Tree, j: nat): Option<Node>
    requires WellFormed(r) && j < |r.items|
  {
    var c := Fresh(r, e, d, j);
    if c == "" then Seen(r, d, j) else Some(Finished(r, e, j, c))
  }

  lemma PublishedIffFresh(r: Request, e: Env, d: Tree, l: Local, t: Tree, j: nat)
    requires Inv(r, e, d, l, t) && j < |r.items| && l.pc in {Lock, Hook, Done(true)}
    ensures j in l.published <==> Fresh(r, e, d, j) != ""
  {
    assert Publishing(r, e, d, l, |r.items|);
    assert l.data[j] == Fresh(r, e, d, j);
    assert j in e.order;
    var k :| 0 <= k < |e.order| && e.order[k] == j;
    assert l.data[e.order[k]] != "" ==> e.order[k] in Reached(e, l, |r.items|);
  }

  /** Holds when the run has succeeded, and already while its hook waits or runs. */
  lemma SuccessIsOverlay(r: Request, e: Env, d: Tree, n: nat, j: nat)
    requires Ready(r, e, d) && j < |r.items|
    requires At(r, e, d, n).0.pc in {Lock, Hook, Done(true)}
    ensures Seen(r, At(r, e, d, n).1, j) == Overlay(r, e, d, j)
    ensures Fresh(r, e, d, j) != "" ==>
      var v := Seen(r, At(r, e, d, n).1, j);
      v.Some? && v.value.File? && v.value.content == Fresh(r, e, d, j)
      && v.value.mode == if r.items[j].role in {KEY, BUNDLE} then 0x180 else 0x1A4
  {
    assert ItemOk(r, j);
    InvAt(r, e, d, n);
    var (l, t) := At(r, e, d, n);
    PublishedIffFresh(r, e, d, l, t, j);
    if j in l.published {
      ViewNew(r, e, d, l, t, j);
    } else {
      ViewOld(r, e, d, l, t, j);
    }
  }

  /** Two successful runs that differ only in the iteration order of the infixed
      map, and in which harmless calls failed, leave the same view. */
  lemma OrderIndependence(r: Request, e: Env, e': Env, d: Tree, m: nat, n: nat, j: nat)
    requires Ready(r, e, d) && Ready(r, e', d) && j < |r.items|
    requires e' == e.(order := e'.order, fault := e'.fault, cut := e'.cut)
    requires At(r, e, d, m).0.pc == Done(true) == At(r, e', d, n).0.pc
    ensures Seen(r, At(r, e, d, m).1, j) == Seen(r, At(r, e', d, n).1, j)
  {
    SuccessIsOverlay(r, e, d, m, j);
    SuccessIsOverlay(r, e', d, n, j);
  }

  /** How an item is published: as a link to its timestamped file in the same directory, or
      as the file itself, the timestamped name gone. */
  lemma PublishedForm(r: Request, e: Env, d: Tree, n: nat, j: nat)
    requires Ready(r, e, d) && j < |r.items| && Fresh(r, e, d, j) != ""
    requires At(r, e, d, n).0.pc in {Lock, Hook, Done(true)}
    ensures var t, p, x := At(r, e, d, n).1, PublishedPath(r, j), WrittenPath(r, e, j);
      var file := Finished(r, e, j, Fresh(r, e, d, j));
      && p in t && x == r.dir + [Base(x)]
      && if e.symlink then t[p] == Link(Base(x)) && x in t && t[x] == file else t[p] == file && x !in t
  {
    InvAt(r, e, d, n);
    var (l, t) := At(r, e, d, n);
    PublishedIffFresh(r, e, d, l, t, j);
    assert ItemState(r, e, d, l, t, j);
    LayoutAt(r, e, j);
  }

  lemma FailedCallKeeps(t: Tree, c: Call, fault: bool)
    requires !c.Write? && Syscall(t, c, fault).1 != OK
    ensures Syscall(t, c, fault).0 == t
  {
  }

  /** The first link or rename that fails ends the run: it publishes nothing more, removes
      nothing and runs no hook. */
  lemma PublishStops(r: Request, e: Env, d: Tree, m: nat, n: nat)
    requires WellFormed(r) && Permutes(e.order, |r.items|) && m < n
    requires var (l, t) := At(r, e, d, m);
      (l.pc.SymlinkAt? || l.pc.RenameAt?) && Syscall(t, CallAt(r, e, l), e.fault(l.calls)).1 != OK
    ensures At(r, e, d, n).0.pc == Done(false) && At(r, e, d, n).1 == At(r, e, d, m).1
  {
    var (l, t) := At(r, e, d, m);
    FailedCallKeeps(t, CallAt(r, e, l), e.fault(l.calls));
    Settled(r, e, d, m + 1, n);
  }
}
