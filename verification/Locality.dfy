/** Execute works inside its own domain directory: what it does depends on, and
    shows in, nothing else. */
module Locality {
  import opened Disk
  import opened Execution
  import opened Invariant

  /** q is the directory or lies below it. */
  predicate InScope(dir: Path, q: Path) { dir <= q }

  ghost predicate Agree(dir: Path, t: Tree, s: Tree) {
    && dir != [] && Same(t, s, Parent(dir))
    && forall q | InScope(dir, q) :: Same(t, s, q)
  }

  predicate Owned(dir: Path, p: Path) { p == dir || (p != [] && Parent(p) == dir) }

  lemma OwnedInScope(dir: Path, p: Path)
    requires Owned(dir, p)
    ensures InScope(dir, p)
  {
    assert p == dir || p == dir + [Base(p)];
  }

  lemma OccupiedLocal(dir: Path, t: Tree, s: Tree, p: Path)
    requires Agree(dir, t, s) && Owned(dir, p)
    ensures Occupied(t, p) ==> Occupied(s, p)
  {
    OwnedInScope(dir, p);
    if Occupied(t, p) {
      var q :| q in t && q != [] && Parent(q) == p;
      assert q == p + [Base(q)] && InScope(dir, q);
    }
  }

  lemma AgreeSymmetric(dir: Path, t: Tree, s: Tree)
    requires Agree(dir, t, s)
    ensures Agree(dir, s, t)
  {
  }

  lemma ParentLocal(dir: Path, t: Tree, s: Tree, p: Path)
    requires Agree(dir, t, s) && Owned(dir, p)
    ensures HasParent(t, p) <==> HasParent(s, p)
  {
    if p != dir {
      assert InScope(dir, Parent(p));
    }
  }

  lemma CallLocal(dir: Path, t: Tree, s: Tree, c: Call, fault: bool)
    requires Agree(dir, t, s)
    requires CallOwned(dir, c)
    ensures var (t', x), (s', y) := Syscall(t, c, fault), Syscall(s, c, fault);
      x == y && Agree(dir, t', s')
  {
    AgreeSymmetric(dir, t, s);
    match c {
      case Rename(src, dst) =>
        OwnedInScope(dir, src);
        OwnedInScope(dir, dst);
        ParentLocal(dir, t, s, dst);
      case LstatDir(p) =>
        OwnedInScope(dir, dir);
      case Remove(p) =>
        OwnedInScope(dir, p);
        OccupiedLocal(dir, t, s, p);
        OccupiedLocal(dir, s, t, p);
      case _ =>
        OwnedInScope(dir, c.path);
        ParentLocal(dir, t, s, c.path);
    }
  }

  ghost predicate CallOwned(dir: Path, c: Call) {
    (forall p | p in Paths(c) :: Owned(dir, p)) && (c.LstatDir? ==> c.path == dir)
  }

  lemma WritesOwned(r: Request, e: Env, l: Local)
    requires WellFormed(r) && Sane(r, e, l) && WritePC(l.pc)
    ensures CallOwned(r.dir, CallAt(r, e, l))
  {
    LayoutAt(r, e, l.pc.i);
    var c := CallAt(r, e, l);
    assert c.path == r.dir || c.path == WrittenPath(r, e, l.pc.i);
  }

  lemma PublishesOwned(r: Request, e: Env, l: Local)
    requires WellFormed(r) && Sane(r, e, l) && PublishPC(l.pc)
    ensures CallOwned(r.dir, CallAt(r, e, l))
  {
    LayoutAt(r, e, e.order[l.pc.k]);
  }

  lemma CallsOwned(r: Request, e: Env, l: Local)
    requires WellFormed(r) && Sane(r, e, l) && Calling(l.pc)
    ensures CallOwned(r.dir, CallAt(r, e, l))
  {
    if WritePC(l.pc) {
      WritesOwned(r, e, l);
    } else {
      PublishesOwned(r, e, l);
    }
  }

  lemma SeenLocal(r: Request, t: Tree, s: Tree, j: nat)
    requires WellFormed(r) && Agree(r.dir, t, s) && j < |r.items|
    ensures Seen(r, t, j) == Seen(r, s, j)
  {
    assert ItemOk(r, j);
    OwnedInScope(r.dir, PublishedPath(r, j));
    if PublishedPath(r, j) in t && t[PublishedPath(r, j)].Link? {
      assert InScope(r.dir, r.dir + [t[PublishedPath(r, j)].target]);
    }
  }

  /** On trees that agree in the scope a step does the same, and they still agree. */
  lemma StepLocal(r: Request, e: Env, l: Local, t: Tree, s: Tree)
    requires WellFormed(r) && Sane(r, e, l) && Agree(r.dir, t, s)
    ensures var (l', t'), (l'', s') := Step(r, e, l, t), Step(r, e, l, s);
      l' == l'' && Agree(r.dir, t', s')
  {
    if l.pc.Fetch? && l.pc.i < |r.items| {
      SeenLocal(r, t, s, l.pc.i);
    } else if Calling(l.pc) {
      CallsOwned(r, e, l);
      CallLocal(r.dir, t, s, CallAt(r, e, l), e.fault(l.calls));
    }
  }

  /** A step changes nothing outside the scope. */
  lemma StepConfined(r: Request, e: Env, l: Local, t: Tree, q: Path)
    requires WellFormed(r) && Sane(r, e, l) && !InScope(r.dir, q)
    ensures Same(Step(r, e, l, t).1, t, q)
  {
    if Calling(l.pc) {
      CallsOwned(r, e, l);
      CallFrame(t, CallAt(r, e, l), e.fault(l.calls));
      if q in Paths(CallAt(r, e, l)) {
        OwnedInScope(r.dir, q);
      }
    }
  }

  /** Two runs that go the same way on trees that agree. */
  ghost predicate Alike(dir: Path, a: (Local, Tree), b: (Local, Tree)) { a.0 == b.0 && Agree(dir, a.1, b.1) }

  lemma StepAlike(r: Request, e: Env, a: (Local, Tree), b: (Local, Tree))
    requires WellFormed(r) && Sane(r, e, a.0) && Alike(r.dir, a, b)
    ensures Alike(r.dir, Step(r, e, a.0, a.1), Step(r, e, b.0, b.1))
  {
    StepLocal(r, e, a.0, a.1, b.1);
  }

  lemma {:induction false} RunLocal(r: Request, e: Env, t: Tree, s: Tree, n: nat)
    requires WellFormed(r) && Permutes(e.order, |r.items|) && Agree(r.dir, t, s)
    ensures Alike(r.dir, At(r, e, t, n), At(r, e, s, n))
  {
    if n > 0 {
      RunLocal(r, e, t, s, n - 1);
      StepAlike(r, e, At(r, e, t, n - 1), At(r, e, s, n - 1));
    }
  }

  lemma {:induction false} RunConfined(r: Request, e: Env, t: Tree, n: nat, q: Path)
    requires WellFormed(r) && Permutes(e.order, |r.items|) && !InScope(r.dir, q)
    ensures Same(At(r, e, t, n).1, t, q)
  {
    if n > 0 {
      RunConfined(r, e, t, n - 1, q);
      StepConfined(r, e, At(r, e, t, n - 1).0, At(r, e, t, n - 1).1, q);
    }
  }
}
