/** The premise of crash atomicity cannot be weakened: a published link to a file
    of the current second is lost in some run of that second. */
module Exactness {
  import opened Text
  import opened Disk
  import opened Execution
  import opened Invariant
  import opened Publication

  /** Every fetch but item j's is answered 304, and no call fails. */
  function OnlyItem(e: Env, j: nat): Env {
    e.(force := true, fault := _ => false, answer := (k, _) => if k == j then Body("x") else NotModified)
  }

  /** What such a run has fetched after k items. */
  function Got(r: Request, j: nat, k: nat): seq<string> {
    seq(|r.items|, i => if i == j && i < k then "x" else "")
  }

  predicate Usable(r: Request, e: Env, j: nat) {
    WellFormed(r) && Empty(r) && Permutes(e.order, |r.items|) && j < |r.items|
  }

  function Fetching(r: Request, j: nat, k: nat): Local { Local(Fetch(k), 0, Got(r, j, k), {}, {}) }

  function Skipping(r: Request, j: nat, i: nat): Local { Local(Next(i), 0, Got(r, j, |r.items|), {}, {}) }

  lemma FetchingStep(r: Request, e: Env, d: Tree, j: nat, k: nat)
    requires Usable(r, e, j) && k < |r.items|
    ensures Step(r, OnlyItem(e, j), Fetching(r, j, k), d) == (Fetching(r, j, k + 1), d)
  {
    assert Fetched(r, OnlyItem(e, j), d, k) == if k == j then Body("x") else NotModified;
    assert Got(r, j, k + 1) == if k == j then Got(r, j, k)[j := "x"] else Got(r, j, k);
  }

  lemma SkippingStep(r: Request, e: Env, d: Tree, j: nat, i: nat)
    requires Usable(r, e, j) && i < j
    ensures Step(r, OnlyItem(e, j), Skipping(r, j, i), d) == (Skipping(r, j, i + 1), d)
  {
  }

  lemma FetchedStep(r: Request, e: Env, d: Tree, j: nat)
    requires Usable(r, e, j)
    ensures Step(r, OnlyItem(e, j), Fetching(r, j, |r.items|), d) == (Skipping(r, j, 0), d)
  {
  }

  lemma {:induction false} OnlyItemFetches(r: Request, e: Env, d: Tree, j: nat, k: nat)
    requires Usable(r, e, j) && k <= |r.items|
    ensures At(r, OnlyItem(e, j), d, k) == (Fetching(r, j, k), d)
  {
    if k == 0 {
      assert Init(r).data == Got(r, j, 0);
    } else {
      OnlyItemFetches(r, e, d, j, k - 1);
      FetchingStep(r, e, d, j, k - 1);
      Advance(r, OnlyItem(e, j), d, k - 1, Fetching(r, j, k - 1), d, Fetching(r, j, k), d);
    }
  }

  lemma {:induction false} OnlyItemSkips(r: Request, e: Env, d: Tree, j: nat, i: nat)
    requires Usable(r, e, j) && i <= j
    ensures At(r, OnlyItem(e, j), d, |r.items| + 1 + i) == (Skipping(r, j, i), d)
  {
    if i == 0 {
      OnlyItemFetches(r, e, d, j, |r.items|);
      FetchedStep(r, e, d, j);
      Advance(r, OnlyItem(e, j), d, |r.items|, Fetching(r, j, |r.items|), d, Skipping(r, j, 0), d);
    } else {
      OnlyItemSkips(r, e, d, j, i - 1);
      SkippingStep(r, e, d, j, i - 1);
      Advance(r, OnlyItem(e, j), d, |r.items| + i, Skipping(r, j, i - 1), d, Skipping(r, j, i), d);
    }
  }

  lemma DirectoryPresent(r: Request, o: Env, d: Tree, l: Local, j: nat)
    requires WellFormed(r) && Sane(r, o, l) && l.pc == MkdirAt(j)
    requires r.dir in d && d[r.dir] == Dir && !o.fault(l.calls) && !o.fault(l.calls + 1)
    ensures var l' := l.(pc := LstatAt(j), calls := l.calls + 1);
      && Step(r, o, l, d) == (l', d) && Sane(r, o, l')
      && Step(r, o, l', d) == (l.(pc := OpenAt(j), calls := l.calls + 2), d)
  {
  }

  /** The infixed file exists already: O_EXCL refuses it and the clean-up deletes it. */
  lemma CollisionDeletes(r: Request, o: Env, d: Tree, l: Local, j: nat)
    requires WellFormed(r) && Sane(r, o, l) && l.pc == OpenAt(j)
    requires WrittenPath(r, o, j) in d && d[WrittenPath(r, o, j)].File? && !o.fault(l.calls) && !o.fault(l.calls + 1)
    ensures var l' := l.(pc := Cleanup(j), calls := l.calls + 1);
      && Step(r, o, l, d) == (l', d) && Sane(r, o, l')
      && Step(r, o, l', d).1 == d - {WrittenPath(r, o, j)}
  {
  }

  lemma MkdirReached(r: Request, o: Env, d: Tree, n: nat, l: Local, j: nat)
    requires WellFormed(r) && Sane(r, o, l) && At(r, o, d, n) == (l, d) && l.pc == Next(j)
    requires j < |r.items| && l.data[j] != ""
    ensures At(r, o, d, n + 1) == (l.(pc := MkdirAt(j)), d)
  {
    Advance(r, o, d, n, l, d, l.(pc := MkdirAt(j)), d);
  }

  lemma OpenReached(r: Request, o: Env, d: Tree, n: nat, l: Local, j: nat)
    requires WellFormed(r) && Sane(r, o, l) && At(r, o, d, n) == (l, d) && l.pc == MkdirAt(j)
    requires r.dir in d && d[r.dir] == Dir && !o.fault(l.calls) && !o.fault(l.calls + 1)
    ensures At(r, o, d, n + 2) == (l.(pc := OpenAt(j), calls := l.calls + 2), d)
  {
    var l' := l.(pc := LstatAt(j), calls := l.calls + 1);
    DirectoryPresent(r, o, d, l, j);
    Advance(r, o, d, n, l, d, l', d);
    Advance(r, o, d, n + 1, l', d, l.(pc := OpenAt(j), calls := l.calls + 2), d);
  }

  lemma CleanupReached(r: Request, o: Env, d: Tree, n: nat, l: Local, j: nat)
    requires WellFormed(r) && Sane(r, o, l) && At(r, o, d, n) == (l, d) && l.pc == OpenAt(j)
    requires WrittenPath(r, o, j) in d && d[WrittenPath(r, o, j)].File? && !o.fault(l.calls) && !o.fault(l.calls + 1)
    ensures At(r, o, d, n + 2).1 == d - {WrittenPath(r, o, j)}
  {
    var l' := l.(pc := Cleanup(j), calls := l.calls + 1);
    CollisionDeletes(r, o, d, l, j);
    Advance(r, o, d, n, l, d, l', d);
    Advance(r, o, d, n + 1, l', d, Step(r, o, l', d).0, d - {WrittenPath(r, o, j)});
  }

  lemma CollisionFrom(r: Request, o: Env, d: Tree, n: nat, l: Local, j: nat)
    requires WellFormed(r) && Sane(r, o, l) && At(r, o, d, n) == (l, d) && l.pc == Next(j)
    requires j < |r.items| && l.data[j] != "" && r.dir in d && d[r.dir] == Dir
    requires WrittenPath(r, o, j) in d && d[WrittenPath(r, o, j)].File?
    requires forall c | l.calls <= c < l.calls + 4 :: !o.fault(c)
    ensures At(r, o, d, n + 5).1 == d - {WrittenPath(r, o, j)}
  {
    var l1, l2 := l.(pc := MkdirAt(j)), l.(pc := OpenAt(j), calls := l.calls + 2);
    assert !o.fault(l.calls) && !o.fault(l.calls + 1) && !o.fault(l2.calls) && !o.fault(l2.calls + 1);
    MkdirReached(r, o, d, n, l, j);
    OpenReached(r, o, d, n + 1, l1, j);
    CleanupReached(r, o, d, n + 3, l2, j);
  }

  lemma CollisionReached(r: Request, e: Env, d: Tree, j: nat)
    requires Usable(r, e, j) && r.dir in d && d[r.dir] == Dir
    requires WrittenPath(r, e, j) in d && d[WrittenPath(r, e, j)].File?
    ensures At(r, OnlyItem(e, j), d, |r.items| + j + 6).1 == d - {WrittenPath(r, e, j)}
  {
    var o := OnlyItem(e, j);
    assert WrittenPath(r, o, j) == WrittenPath(r, e, j);
    OnlyItemSkips(r, e, d, j, j);
    CollisionFrom(r, o, d, |r.items| + 1 + j, Local(Next(j), 0, Got(r, j, |r.items|), {}, {}), j);
  }

  lemma LinkedIsLost(r: Request, e: Env, d: Tree, i: nat, j: nat)
    requires Usable(r, e, j) && EntriesOk(r, d) && r.dir in d && d[r.dir] == Dir
    requires i < |r.items| && PublishedPath(r, i) in d && d[PublishedPath(r, i)] == Link(Base(WrittenPath(r, e, j)))
    ensures !Atomic(r, OnlyItem(e, j), d, At(r, OnlyItem(e, j), d, |r.items| + j + 6).1, i)
  {
    assert EntryOk(r, d, i);
    LayoutAt(r, e, i);
    LayoutAt(r, e, j);
    if i != j {
      LayoutPair(r, e, i, j);
    }
    CollisionReached(r, e, d, j);
    assert Seen(r, d - {WrittenPath(r, e, j)}, i) == None;
  }

  /** Every run in this second is atomic at every step for every name, if and only
      if no published name links to a file of this second. */
  lemma AtomicIffUnlinked(r: Request, e: Env, d: Tree)
    requires WellFormed(r) && Empty(r) && Permutes(e.order, |r.items|) && EntriesOk(r, d)
    requires r.dir in d && d[r.dir] == Dir
    ensures Unlinked(r, e, d) <==>
      forall o: Env, n: nat, j: nat | o.second == e.second && Permutes(o.order, |r.items|) && j < |r.items| ::
        Atomic(r, o, d, At(r, o, d, n).1, j)
  {
    if Unlinked(r, e, d) {
      forall o: Env, n: nat, j: nat | o.second == e.second && Permutes(o.order, |r.items|) && j < |r.items|
        ensures Atomic(r, o, d, At(r, o, d, n).1, j)
      {
        assert forall k | 0 <= k < |r.items| :: WrittenPath(r, o, k) == WrittenPath(r, e, k);
        CrashAtomicity(r, o, d, n, j);
      }
    } else {
      var i, j :| 0 <= i < |r.items| && 0 <= j < |r.items|
        && PublishedPath(r, i) in d && d[PublishedPath(r, i)] == Link(Base(WrittenPath(r, e, j)));
      LinkedIsLost(r, e, d, i, j);
      assert OnlyItem(e, j).second == e.second;
    }
  }

  lemma OldEntryKept(r: Request, e: Env, d: Tree, l: Local, t: Tree, j: nat)
    requires Inv(r, e, d, l, t) && j < |r.items| && j !in l.published
    ensures EntryOk(r, t, j)
  {
    assert ItemState(r, e, d, l, t, j);
    assert EntryOk(r, d, j);
    var p := PublishedPath(r, j);
    LayoutAt(r, e, j);
    if p in d && d[p].Link? {
      var q := r.dir + [d[p].target];
      assert Base(q) == d[p].target;
      forall i | 0 <= i < |r.items|
        ensures q != WrittenPath(r, e, i)
      {
        LayoutAt(r, e, i);
      }
      assert Same(t, d, q);
    }
  }

  lemma NewEntryKept(r: Request, e: Env, d: Tree, l: Local, t: Tree, j: nat)
    requires Inv(r, e, d, l, t) && j in l.published
    ensures EntryOk(r, t, j)
  {
    assert ItemState(r, e, d, l, t, j);
    LayoutAt(r, e, j);
    forall i | 0 <= i < |r.items| && i != j
      ensures WrittenPath(r, e, j) != PublishedPath(r, i) && WrittenPath(r, e, j) != LinkPath(r, i)
    {
      LayoutPair(r, e, i, j);
    }
  }

  /** A file has been created in the domain's directory, so that is there. */
  predicate DirMade(r: Request, l: Local, t: Tree) {
    l.pc.ChmodAt? || l.pc.WriteSome? || l.pc.WriteAll? || l.written != {} ==> IsDir(t, r.dir)
  }

  /** No call but mkdir names the directory. */
  lemma WriteSparesDir(r: Request, e: Env, l: Local)
    requires WellFormed(r) && Sane(r, e, l) && WritePC(l.pc)
    ensures r.dir in Paths(CallAt(r, e, l)) ==> l.pc.MkdirAt?
  {
    LayoutAt(r, e, l.pc.i);
  }

  lemma PublishSparesDir(r: Request, e: Env, l: Local)
    requires WellFormed(r) && Sane(r, e, l) && PublishPC(l.pc)
    ensures r.dir !in Paths(CallAt(r, e, l))
  {
    LayoutAt(r, e, e.order[l.pc.k]);
  }

  lemma DirSurvives(t: Tree, c: Call, fault: bool, dir: Path)
    requires IsDir(t, dir) && (dir in Paths(c) ==> c.Mkdir?)
    ensures IsDir(Syscall(t, c, fault).0, dir)
  {
    CallFrame(t, c, fault);
  }

  lemma DirStays(r: Request, e: Env, l: Local, t: Tree)
    requires WellFormed(r) && Sane(r, e, l) && Calling(l.pc) && IsDir(t, r.dir)
    ensures IsDir(Step(r, e, l, t).1, r.dir)
  {
    if WritePC(l.pc) {
      WriteSparesDir(r, e, l);
    } else {
      PublishSparesDir(r, e, l);
    }
    DirSurvives(t, CallAt(r, e, l), e.fault(l.calls), r.dir);
  }

  lemma DirMadeStep(r: Request, e: Env, l: Local, t: Tree)
    requires WellFormed(r) && Sane(r, e, l) && DirMade(r, l, t)
    ensures var (l', t') := Step(r, e, l, t); DirMade(r, l', t')
  {
    if Calling(l.pc) {
      if IsDir(t, r.dir) {
        DirStays(r, e, l, t);
      } else if l.pc.OpenAt? {
        LayoutAt(r, e, l.pc.i);
      }
    }
  }

  lemma {:induction false} DirMadeAt(r: Request, e: Env, d: Tree, n: nat)
    requires WellFormed(r) && Permutes(e.order, |r.items|)
    ensures var (l, t) := At(r, e, d, n); DirMade(r, l, t)
  {
    if n > 0 {
      DirMadeAt(r, e, d, n - 1);
      var (l, t) := At(r, e, d, n - 1);
      DirMadeStep(r, e, l, t);
    }
  }

  /** After a successful run in symlink mode that published something, some second run
      in the same second breaks a published name at some step. */
  lemma SameSecondIsUnsafe(r: Request, e: Env, d: Tree, n: nat, j: nat)
    requires Ready(r, e, d) && j < |r.items| && e.symlink
    requires At(r, e, d, n).0.pc == Done(true) && Fresh(r, e, d, j) != ""
    ensures !Unlinked(r, e, At(r, e, d, n).1)
    ensures exists o: Env, m: nat, i: nat | o.second == e.second && Permutes(o.order, |r.items|) && i < |r.items| ::
      !Atomic(r, o, At(r, e, d, n).1, At(r, o, At(r, e, d, n).1, m).1, i)
  {
    InvAt(r, e, d, n);
    var (l, t) := At(r, e, d, n);
    PublishedIffFresh(r, e, d, l, t, j);
    assert ItemState(r, e, d, l, t, j);
    forall i | 0 <= i < |r.items|
      ensures EntryOk(r, t, i)
    {
      if i in l.published {
        NewEntryKept(r, e, d, l, t, i);
      } else {
        OldEntryKept(r, e, d, l, t, i);
      }
    }
    DirMadeAt(r, e, d, n);
    AtomicIffUnlinked(r, e, t);
  }
}
