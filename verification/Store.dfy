/** A domain's directory over a whole history of runs, each of which may fail or
    stop anywhere. */
module Store {
  import opened Names
  import opened Disk
  import opened Execution
  import opened Invariant
  import opened Locality
  import opened Publication

  /** A link in the store names an existing file that is no published or temporary name. */
  ghost predicate NameOk(dir: Path, t: Tree, f: string) {
    dir + [f] in t ==>
      match t[dir + [f]]
      case Dir => false
      case File(_, _, _) => true
      case Link(target) =>
        && dir + [target] in t && t[dir + [target]].File?
        && !Plain(target) && forall g: string | Plain(g) :: target != Tmp(g)
  }

  /** No name of this directory is broken, and no later second has been used. */
  ghost predicate StoreOk(dir: Path, t: Tree, last: nat) {
    && (forall f: string | Plain(f) :: NameOk(dir, t, f))
    && (forall f: string, s: nat | Plain(f) && s > last :: dir + [Infix(f, s)] !in t)
  }

  predicate Startable(r: Request, e: Env) {
    WellFormed(r) && Empty(r) && Permutes(e.order, |r.items|)
  }

  lemma StoreReady(r: Request, e: Env, d: Tree, last: nat)
    requires Startable(r, e) && StoreOk(r.dir, d, last) && e.second > last
    ensures Ready(r, e, d)
  {
    forall j | 0 <= j < |r.items|
      ensures EntryOk(r, d, j)
      ensures WrittenPath(r, e, j) !in d
    {
      assert ItemOk(r, j);
      var p := PublishedPath(r, j);
      assert p == r.dir + [Base(p)] && NameOk(r.dir, d, Base(p));
      if p in d && d[p].Link? {
        var q := r.dir + [d[p].target];
        forall i | 0 <= i < |r.items|
          ensures q != PublishedPath(r, i) && q != LinkPath(r, i)
        {
          assert ItemOk(r, i);
          assert Base(q) == d[p].target;
        }
      }
    }
    forall i, j | 0 <= i < |r.items| && 0 <= j < |r.items| && PublishedPath(r, i) in d
      ensures d[PublishedPath(r, i)] != Link(Base(WrittenPath(r, e, j)))
    {
      assert EntryOk(r, d, i);
      LayoutAt(r, e, j);
    }
  }

  /** A run on the directory keeps it good up to the second it used, at every crash point. */
  lemma NameKept(r: Request, e: Env, d: Tree, last: nat, n: nat, f: string)
    requires Startable(r, e) && StoreOk(r.dir, d, last) && e.second > last && Plain(f)
    ensures NameOk(r.dir, At(r, e, d, n).1, f)
  {
    StoreReady(r, e, d, last);
    InvAt(r, e, d, n);
    var (l, t) := At(r, e, d, n);
    var p := r.dir + [f];
    assert NameOk(r.dir, d, f);
    if j :| 0 <= j < |r.items| && p == PublishedPath(r, j) && j in l.published {
      ViewNew(r, e, d, l, t, j);
      assert ItemState(r, e, d, l, t, j);
      LayoutAt(r, e, j);
      LinkNameSafe(r, e, j);
    } else {
      UnpublishedSame(r, e, d, l, t, f);
      if p in d && d[p].Link? {
        TargetUntouched(r, e, d, last, d[p].target);
      }
    }
  }

  lemma LinkNameSafe(r: Request, e: Env, j: nat)
    requires WellFormed(r) && j < |r.items|
    ensures var x := Base(WrittenPath(r, e, j)); !Plain(x) && forall g: string | Plain(g) :: x != Tmp(g)
  {
    assert ItemOk(r, j);
    var f := Base(PublishedPath(r, j));
    forall g: string | Plain(g)
      ensures Infix(f, e.second) != Tmp(g) && Infix(f, e.second) != g
    {
      NamesApart(f, g, e.second, e.second);
    }
  }

  lemma UnpublishedSame(r: Request, e: Env, d: Tree, l: Local, t: Tree, f: string)
    requires Inv(r, e, d, l, t) && Plain(f)
    requires forall j | 0 <= j < |r.items| && r.dir + [f] == PublishedPath(r, j) :: j !in l.published
    ensures Same(t, d, r.dir + [f])
  {
    var p := r.dir + [f];
    if j :| 0 <= j < |r.items| && p == PublishedPath(r, j) {
      assert ItemState(r, e, d, l, t, j);
    } else {
      forall j | 0 <= j < |r.items|
        ensures p != WrittenPath(r, e, j) && p != LinkPath(r, j)
      {
        assert ItemOk(r, j);
        NamesApart(Base(PublishedPath(r, j)), f, e.second, e.second);
        assert Base(p) == f && Base(WrittenPath(r, e, j)) == Infix(Base(PublishedPath(r, j)), e.second);
        assert Base(LinkPath(r, j)) == Tmp(Base(PublishedPath(r, j)));
      }
      assert !Touches(r, e, p);
    }
  }

  lemma TargetUntouched(r: Request, e: Env, d: Tree, last: nat, target: string)
    requires Startable(r, e) && StoreOk(r.dir, d, last) && e.second > last
    requires r.dir + [target] in d && !Plain(target) && forall g: string | Plain(g) :: target != Tmp(g)
    ensures !Touches(r, e, r.dir + [target])
  {
    var q := r.dir + [target];
    forall j | 0 <= j < |r.items|
      ensures q != PublishedPath(r, j) && q != WrittenPath(r, e, j) && q != LinkPath(r, j)
    {
      assert ItemOk(r, j);
      assert Base(q) == target && Base(LinkPath(r, j)) == Tmp(Base(PublishedPath(r, j)));
      assert WrittenPath(r, e, j) == r.dir + [Infix(Base(PublishedPath(r, j)), e.second)];
    }
  }

  lemma LaterSecondsFree(r: Request, e: Env, d: Tree, last: nat, n: nat, f: string, s: nat)
    requires Startable(r, e) && StoreOk(r.dir, d, last) && e.second > last
    requires Plain(f) && s > e.second
    ensures r.dir + [Infix(f, s)] !in At(r, e, d, n).1
  {
    StoreReady(r, e, d, last);
    InvAt(r, e, d, n);
    var q := r.dir + [Infix(f, s)];
    forall j | 0 <= j < |r.items|
      ensures q != PublishedPath(r, j) && q != WrittenPath(r, e, j) && q != LinkPath(r, j)
    {
      assert ItemOk(r, j);
      NamesApart(f, Base(PublishedPath(r, j)), s, e.second);
      assert Base(q) == Infix(f, s);
      assert Base(WrittenPath(r, e, j)) == Infix(Base(PublishedPath(r, j)), e.second);
      assert Base(LinkPath(r, j)) == Tmp(Base(PublishedPath(r, j)));
    }
    assert !Touches(r, e, q);
  }

  lemma StoreKept(r: Request, e: Env, d: Tree, last: nat, n: nat)
    requires Startable(r, e) && StoreOk(r.dir, d, last) && e.second > last
    ensures StoreOk(r.dir, At(r, e, d, n).1, e.second)
  {
    forall f: string | Plain(f)
      ensures NameOk(r.dir, At(r, e, d, n).1, f)
    {
      NameKept(r, e, d, last, n, f);
    }
    forall f: string, s: nat | Plain(f) && s > e.second
      ensures r.dir + [Infix(f, s)] !in At(r, e, d, n).1
    {
      LaterSecondsFree(r, e, d, last, n, f, s);
    }
  }

  // ---- histories ----

  /** One run: its request, its environment, and after how many steps it stopped. */
  datatype Run = Run(req: Request, env: Env, steps: nat)

  /** Runs on this directory and its siblings; those on the directory itself in one
      second after another. */
  predicate History(dir: Path, runs: seq<Run>, start: nat) {
    && dir != []
    && (forall x | 0 <= x < |runs| ::
         && Startable(runs[x].req, runs[x].env) && |runs[x].req.dir| == |dir|
         && (runs[x].req.dir == dir ==> runs[x].env.second > start))
    && (forall x, y | 0 <= x < y < |runs| && runs[x].req.dir == dir == runs[y].req.dir ::
         runs[x].env.second < runs[y].env.second)
  }

  function Replay(dir: Path, runs: seq<Run>, start: nat, d: Tree): Tree
    requires History(dir, runs, start)
  {
    if runs == [] then d
    else
      var last := runs[|runs| - 1];
      At(last.req, last.env, Replay(dir, runs[..|runs| - 1], start, d), last.steps).1
  }

  /** The second of the last run on this directory. */
  function LastSecond(dir: Path, runs: seq<Run>, start: nat): nat {
    if runs == [] then start
    else
      var last := runs[|runs| - 1];
      if last.req.dir == dir then last.env.second else LastSecond(dir, runs[..|runs| - 1], start)
  }

  lemma {:induction false} LastSecondBelow(dir: Path, runs: seq<Run>, start: nat, second: nat)
    requires start < second
    requires forall x | 0 <= x < |runs| && runs[x].req.dir == dir :: runs[x].env.second < second
    ensures LastSecond(dir, runs, start) < second
  {
    if runs != [] {
      LastSecondBelow(dir, runs[..|runs| - 1], start, second);
    }
  }

  /** A run on tree t delivers this file in full under name f. */
  ghost predicate Delivers(run: Run, t: Tree, dir: Path, f: string, node: Node) {
    && WellFormed(run.req)
    && exists j ::
      && 0 <= j < |run.req.items| && PublishedPath(run.req, j) == dir + [f]
      && Fresh(run.req, run.env, t, j) != "" && node == Finished(run.req, run.env, j, Fresh(run.req, run.env, t, j))
  }

  /** Some run of the history delivered it. */
  ghost predicate Delivered(dir: Path, runs: seq<Run>, start: nat, d: Tree, f: string, node: Node)
    requires History(dir, runs, start)
  {
    exists x :: 0 <= x < |runs| && Delivers(runs[x], Replay(dir, runs[..x], start, d), dir, f, node)
  }

  /** A run on a sibling directory leaves this one alone. */
  lemma SiblingSame(r: Request, e: Env, d: Tree, n: nat, dir: Path, f: string)
    requires Startable(r, e) && |r.dir| == |dir| && r.dir != dir
    ensures Same(At(r, e, d, n).1, d, dir + [f])
  {
    assert (dir + [f])[..|dir|] == dir;
    RunConfined(r, e, d, n, dir + [f]);
  }

  /** The store invariant holds after every history, whatever each run did. */
  lemma {:induction false} StoreAcrossRuns(dir: Path, runs: seq<Run>, start: nat, d: Tree)
    requires History(dir, runs, start) && StoreOk(dir, d, start)
    ensures StoreOk(dir, Replay(dir, runs, start, d), LastSecond(dir, runs, start))
  {
    if runs != [] {
      var before, last := runs[..|runs| - 1], runs[|runs| - 1];
      StoreAcrossRuns(dir, before, start, d);
      var t := Replay(dir, before, start, d);
      if last.req.dir == dir {
        LastSecondBelow(dir, before, start, last.env.second);
        StoreKept(last.req, last.env, t, LastSecond(dir, before, start), last.steps);
      } else {
        SiblingStore(last.req, last.env, t, last.steps, dir, LastSecond(dir, before, start));
      }
    }
  }

  lemma SiblingStore(r: Request, e: Env, d: Tree, n: nat, dir: Path, last: nat)
    requires Startable(r, e) && |r.dir| == |dir| && r.dir != dir
    requires StoreOk(dir, d, last)
    ensures StoreOk(dir, At(r, e, d, n).1, last)
  {
    forall f: string
      ensures Same(At(r, e, d, n).1, d, dir + [f])
    {
      SiblingSame(r, e, d, n, dir, f);
    }
    forall f: string | Plain(f)
      ensures NameOk(dir, At(r, e, d, n).1, f)
    {
      assert NameOk(dir, d, f);
    }
  }

  /** At the end of any history a published name shows its first content or one that
      some run delivered in full, never a partial or missing file. */
  lemma {:induction false} NeverPartial(dir: Path, runs: seq<Run>, start: nat, d: Tree, f: string)
    requires History(dir, runs, start) && StoreOk(dir, d, start) && Plain(f)
    ensures var v := View(Replay(dir, runs, start, d), dir + [f]);
      || v == View(d, dir + [f])
      || (v.Some? && Delivered(dir, runs, start, d, f, v.value))
  {
    if runs != [] {
      var before, last := runs[..|runs| - 1], runs[|runs| - 1];
      var t := Replay(dir, before, start, d);
      NeverPartial(dir, before, start, d, f);
      StoreAcrossRuns(dir, before, start, d);
      var v := View(t, dir + [f]);
      if v != View(d, dir + [f]) {
        DeliveredStays(dir, runs, start, d, f, v.value);
      }
      LastRun(dir, runs, start, d, f);
    }
  }

  lemma DeliveredStays(dir: Path, runs: seq<Run>, start: nat, d: Tree, f: string, node: Node)
    requires History(dir, runs, start) && runs != []
    requires Delivered(dir, runs[..|runs| - 1], start, d, f, node)
    ensures Delivered(dir, runs, start, d, f, node)
  {
    var before := runs[..|runs| - 1];
    var x: nat :| x < |before| && Delivers(before[x], Replay(dir, before[..x], start, d), dir, f, node);
    PrefixOfPrefix(runs, x);
    DeliveredAt(dir, runs, start, d, f, node, x);
  }

  lemma PrefixOfPrefix(runs: seq<Run>, x: nat)
    requires runs != [] && x < |runs| - 1
    ensures runs[..|runs| - 1][..x] == runs[..x] && runs[..|runs| - 1][x] == runs[x]
  {
  }

  lemma DeliveredAt(dir: Path, runs: seq<Run>, start: nat, d: Tree, f: string, node: Node, x: nat)
    requires History(dir, runs, start) && x < |runs|
    requires Delivers(runs[x], Replay(dir, runs[..x], start, d), dir, f, node)
    ensures Delivered(dir, runs, start, d, f, node)
  {
  }

  lemma LastRun(dir: Path, runs: seq<Run>, start: nat, d: Tree, f: string)
    requires History(dir, runs, start) && runs != [] && Plain(f)
    requires StoreOk(dir, Replay(dir, runs[..|runs| - 1], start, d), LastSecond(dir, runs[..|runs| - 1], start))
    ensures var v := View(Replay(dir, runs, start, d), dir + [f]);
      || v == View(Replay(dir, runs[..|runs| - 1], start, d), dir + [f])
      || (v.Some? && Delivered(dir, runs, start, d, f, v.value))
  {
    var before, last := runs[..|runs| - 1], runs[|runs| - 1];
    var r, e, n := last.req, last.env, last.steps;
    var t := Replay(dir, before, start, d);
    var p := dir + [f];
    assert NameOk(dir, t, f);
    if r.dir != dir {
      SiblingSame(r, e, t, n, dir, f);
      if p in t && t[p].Link? {
        SiblingSame(r, e, t, n, dir, t[p].target);
      }
    } else {
      LastSecondBelow(dir, before, start, e.second);
      StoreReady(r, e, t, LastSecond(dir, before, start));
      if j :| 0 <= j < |r.items| && PublishedPath(r, j) == p {
        CrashAtomicity(r, e, t, n, j);
        assert runs[..|runs| - 1] == before && runs[|runs| - 1] == last;
      } else {
        InvAt(r, e, t, n);
        UnpublishedSame(r, e, t, At(r, e, t, n).0, At(r, e, t, n).1, f);
        if p in t && t[p].Link? {
          TargetUntouched(r, e, t, LastSecond(dir, before, start), t[p].target);
        }
      }
    }
  }
}
