/** Whole runs of the client, each an interleaving of its workers stopped anywhere,
    one after another on the same store. */
module ClientRuns {
  import opened Names
  import opened Disk
  import opened Invariant
  import opened Publication
  import opened Locality
  import opened Store
  import opened Pool
  import opened Serial

  // ---- one run of the client ----

  /** On a domain's directory the shared disk is that of the domain's own run. */
  lemma ScheduleAgreesWithSolo(c: Config, schedule: seq<Label>, r: nat)
    requires Valid(c) && Legal(c, Start(c), schedule) && r < |c.reqs|
    ensures var s := After(c, Start(c), schedule); Agree(c.reqs[r].dir, s.tree, Solo(c, s, r).1)
  {
    SerialStart(c);
    SerialAlways(c, Start(c), schedule);
    SharedAgreesWithSolo(c, After(c, Start(c), schedule), r);
  }

  /** Crash atomicity of every name of every domain, wherever the interleaved workers
      are stopped and whatever has failed. */
  lemma PoolAtomicity(c: Config, schedule: seq<Label>, r: nat, j: nat)
    requires Valid(c) && Legal(c, Start(c), schedule) && r < |c.reqs| && j < |c.reqs[r].items|
    requires Ready(c.reqs[r], c.envs[r], c.tree)
    ensures Atomic(c.reqs[r], c.envs[r], c.tree, After(c, Start(c), schedule).tree, j)
  {
    var s := After(c, Start(c), schedule);
    ScheduleAgreesWithSolo(c, schedule, r);
    SeenLocal(c.reqs[r], s.tree, Solo(c, s, r).1, j);
    CrashAtomicity(c.reqs[r], c.envs[r], c.tree, s.steps[r], j);
  }

  lemma NameOkLocal(dir: Path, t: Tree, s: Tree, f: string)
    requires Agree(dir, t, s) && NameOk(dir, s, f)
    ensures NameOk(dir, t, f)
  {
    assert InScope(dir, dir + [f]);
    if dir + [f] in s && s[dir + [f]].Link? {
      assert InScope(dir, dir + [s[dir + [f]].target]);
    }
  }

  /** Only the directory itself counts. */
  lemma StoreLocal(dir: Path, t: Tree, s: Tree, last: nat)
    requires Agree(dir, t, s) && StoreOk(dir, s, last)
    ensures StoreOk(dir, t, last)
  {
    forall f: string | Plain(f)
      ensures NameOk(dir, t, f)
    {
      NameOkLocal(dir, t, s, f);
    }
    forall f: string, n: nat | Plain(f) && n > last
      ensures dir + [Infix(f, n)] !in t
    {
      assert InScope(dir, dir + [Infix(f, n)]);
    }
  }

  lemma ViewLocal(dir: Path, t: Tree, s: Tree, f: string)
    requires Agree(dir, t, s)
    ensures View(t, dir + [f]) == View(s, dir + [f])
  {
    assert InScope(dir, dir + [f]);
    if dir + [f] in s && s[dir + [f]].Link? {
      assert InScope(dir, dir + [s[dir + [f]].target]);
    }
  }

  /** Request r of the run works on this directory. */
  predicate Serves(c: Config, r: nat, dir: Path) { Valid(c) && r < |c.reqs| && c.reqs[r].dir == dir }

  /** What any client run is built of, next to this directory. */
  predicate Alongside(c: Config, dir: Path) {
    && dir != [] && Valid(c)
    && forall r | 0 <= r < |c.reqs| :: Startable(c.reqs[r], c.envs[r]) && |c.reqs[r].dir| == |dir|
  }

  lemma ServedStore(c: Config, schedule: seq<Label>, r: nat, dir: Path, last: nat)
    requires Alongside(c, dir) && Legal(c, Start(c), schedule) && Serves(c, r, dir)
    requires StoreOk(dir, c.tree, last) && c.envs[r].second > last
    ensures StoreOk(dir, After(c, Start(c), schedule).tree, c.envs[r].second)
  {
    var s := After(c, Start(c), schedule);
    ScheduleAgreesWithSolo(c, schedule, r);
    StoreKept(c.reqs[r], c.envs[r], c.tree, last, s.steps[r]);
    StoreLocal(dir, s.tree, Solo(c, s, r).1, c.envs[r].second);
  }

  /** A directory no request works on stays as it is. */
  lemma UnservedSame(c: Config, schedule: seq<Label>, dir: Path)
    requires Alongside(c, dir) && Legal(c, Start(c), schedule)
    requires forall r: nat :: !Serves(c, r, dir)
    ensures Agree(dir, After(c, Start(c), schedule).tree, c.tree)
  {
    SerialStart(c);
    SerialAlways(c, Start(c), schedule);
    forall q | InScope(dir, q) || q == Parent(dir)
      ensures !InAnyScope(c, q)
    {
      forall r: nat | r < |c.reqs|
        ensures !InScope(c.reqs[r].dir, q)
      {
        assert !Serves(c, r, dir);
        if InScope(dir, q) {
          assert q[..|dir|] == dir;
        }
      }
    }
  }

  /** A name after the run: what it was before, or in full what the run fetched. */
  lemma ServedName(c: Config, schedule: seq<Label>, r: nat, dir: Path, last: nat, f: string)
    requires Alongside(c, dir) && Legal(c, Start(c), schedule) && Serves(c, r, dir)
    requires StoreOk(dir, c.tree, last) && c.envs[r].second > last && Plain(f)
    ensures var v := View(After(c, Start(c), schedule).tree, dir + [f]);
      v == View(c.tree, dir + [f]) || (v.Some? && FetchedInFull(c, r, dir, f, v.value))
  {
    var s := After(c, Start(c), schedule);
    var runs := [Run(c.reqs[r], c.envs[r], s.steps[r])];
    ScheduleAgreesWithSolo(c, schedule, r);
    ViewLocal(dir, s.tree, Solo(c, s, r).1, f);
    assert runs[..0] == [];
    assert Replay(dir, runs[..0], last, c.tree) == c.tree;
    assert Replay(dir, runs, last, c.tree) == Solo(c, s, r).1;
    NeverPartial(dir, runs, last, c.tree, f);
  }

  ghost predicate FetchedInFull(c: Config, r: nat, dir: Path, f: string, node: Node)
    requires Serves(c, r, dir)
  {
    Delivers(Run(c.reqs[r], c.envs[r], 0), c.tree, dir, f, node)
  }

  // ---- one run after another ----

  /** The actions of one run of the client, up to where it finished or was stopped. */
  datatype ClientRun = ClientRun(config: Config, schedule: seq<Label>)

  predicate Feasible(run: ClientRun, dir: Path) {
    Alongside(run.config, dir) && Legal(run.config, Start(run.config), run.schedule)
  }

  function End(run: ClientRun): Tree
    requires Valid(run.config) && Legal(run.config, Start(run.config), run.schedule)
  {
    After(run.config, Start(run.config), run.schedule).tree
  }

  function TreeAfter(dir: Path, runs: seq<ClientRun>, d: Tree): Tree
    requires forall x | 0 <= x < |runs| :: Feasible(runs[x], dir)
  {
    if runs == [] then d
    else
      assert Feasible(runs[|runs| - 1], dir);
      End(runs[|runs| - 1])
  }

  /** Each run starts on the tree the one before left. */
  ghost predicate Chained(dir: Path, runs: seq<ClientRun>, d: Tree) {
    && (forall x | 0 <= x < |runs| :: Feasible(runs[x], dir))
    && (forall x | 0 <= x < |runs| :: runs[x].config.tree == TreeAfter(dir, runs[..x], d))
  }

  /** The runs that serve the directory do so in one second after another. */
  ghost predicate Ordered(dir: Path, runs: seq<ClientRun>, start: nat) {
    && (forall x, r: nat | 0 <= x < |runs| && Serves(runs[x].config, r, dir) :: runs[x].config.envs[r].second > start)
    && (forall x, y, r: nat, q: nat |
          0 <= x < y < |runs| && Serves(runs[x].config, r, dir) && Serves(runs[y].config, q, dir) ::
          runs[x].config.envs[r].second < runs[y].config.envs[q].second)
  }

  ghost predicate Campaign(dir: Path, runs: seq<ClientRun>, start: nat, d: Tree) {
    Chained(dir, runs, d) && Ordered(dir, runs, start)
  }

  /** The second of the last run that served the directory. */
  ghost function LastServed(dir: Path, runs: seq<ClientRun>, start: nat): nat
    requires forall x | 0 <= x < |runs| :: Feasible(runs[x], dir)
  {
    if runs == [] then start
    else
      var c := runs[|runs| - 1].config;
      if r: nat :| Serves(c, r, dir) then c.envs[r].second else LastServed(dir, runs[..|runs| - 1], start)
  }

  lemma {:induction false} LastServedBelow(dir: Path, runs: seq<ClientRun>, start: nat, second: nat)
    requires forall x | 0 <= x < |runs| :: Feasible(runs[x], dir)
    requires start < second
    requires forall x, r: nat | 0 <= x < |runs| && Serves(runs[x].config, r, dir) ::
      runs[x].config.envs[r].second < second
    ensures LastServed(dir, runs, start) < second
  {
    if runs != [] {
      LastServedBelow(dir, runs[..|runs| - 1], start, second);
    }
  }

  lemma ChainedPrefix(dir: Path, runs: seq<ClientRun>, d: Tree)
    requires Chained(dir, runs, d) && runs != []
    ensures Chained(dir, runs[..|runs| - 1], d)
    ensures Feasible(runs[|runs| - 1], dir)
    ensures runs[|runs| - 1].config.tree == TreeAfter(dir, runs[..|runs| - 1], d)
  {
    var before := runs[..|runs| - 1];
    forall x | 0 <= x < |before|
      ensures before[x].config.tree == TreeAfter(dir, before[..x], d)
    {
      assert before[..x] == runs[..x] && before[x] == runs[x];
    }
  }

  lemma OrderedPrefix(dir: Path, runs: seq<ClientRun>, start: nat)
    requires Ordered(dir, runs, start) && runs != []
    ensures Ordered(dir, runs[..|runs| - 1], start)
  {
    var before := runs[..|runs| - 1];
    assert forall x | 0 <= x < |before| :: before[x] == runs[x];
  }

  lemma LastIsLater(dir: Path, runs: seq<ClientRun>, start: nat, d: Tree, r: nat)
    requires Campaign(dir, runs, start, d) && runs != [] && Serves(runs[|runs| - 1].config, r, dir)
    ensures runs[|runs| - 1].config.envs[r].second > LastServed(dir, runs[..|runs| - 1], start)
  {
    LastServedBelow(dir, runs[..|runs| - 1], start, runs[|runs| - 1].config.envs[r].second);
  }

  /** Over any sequence of whole client runs, of any number of domains and workers, each
      stopped anywhere, a domain's directory stays good. */
  lemma {:induction false} StoreAcrossClientRuns(dir: Path, runs: seq<ClientRun>, start: nat, d: Tree)
    requires Campaign(dir, runs, start, d) && StoreOk(dir, d, start)
    ensures StoreOk(dir, TreeAfter(dir, runs, d), LastServed(dir, runs, start))
  {
    if runs != [] {
      var before, last := runs[..|runs| - 1], runs[|runs| - 1];
      ChainedPrefix(dir, runs, d);
      OrderedPrefix(dir, runs, start);
      StoreAcrossClientRuns(dir, before, start, d);
      forall r: nat | Serves(last.config, r, dir)
        ensures last.config.envs[r].second > LastServed(dir, before, start)
      {
        LastIsLater(dir, runs, start, d, r);
      }
      ClientRunKeeps(last, dir, LastServed(dir, before, start));
    }
  }

  lemma ClientRunKeeps(run: ClientRun, dir: Path, last: nat)
    requires Feasible(run, dir) && StoreOk(dir, run.config.tree, last)
    requires forall r: nat | Serves(run.config, r, dir) :: run.config.envs[r].second > last
    ensures forall r: nat | Serves(run.config, r, dir) :: StoreOk(dir, End(run), run.config.envs[r].second)
    ensures (forall r: nat :: !Serves(run.config, r, dir)) ==> StoreOk(dir, End(run), last)
  {
    forall r: nat | Serves(run.config, r, dir)
      ensures StoreOk(dir, End(run), run.config.envs[r].second)
    {
      ServedStore(run.config, run.schedule, r, dir, last);
    }
    if forall r: nat :: !Serves(run.config, r, dir) {
      UnservedSame(run.config, run.schedule, dir);
      StoreLocal(dir, End(run), run.config.tree, last);
    }
  }

  /** Some run fetched this file in full and published it under name f. */
  ghost predicate DeliveredBy(dir: Path, runs: seq<ClientRun>, f: string, node: Node)
    requires forall x | 0 <= x < |runs| :: Feasible(runs[x], dir)
  {
    exists x, r: nat ::
      0 <= x < |runs| && Serves(runs[x].config, r, dir) && FetchedInFull(runs[x].config, r, dir, f, node)
  }

  /** At the end of any such sequence, and so at any moment, a published name shows its
      first content or one that some run fetched in full: never a partial or a missing
      file. */
  lemma {:induction false} NeverPartialAcrossClientRuns(dir: Path, runs: seq<ClientRun>, start: nat, d: Tree, f: string)
    requires Campaign(dir, runs, start, d) && StoreOk(dir, d, start) && Plain(f)
    ensures var v := View(TreeAfter(dir, runs, d), dir + [f]);
      v == View(d, dir + [f]) || (v.Some? && DeliveredBy(dir, runs, f, v.value))
  {
    if runs != [] {
      var before, last := runs[..|runs| - 1], runs[|runs| - 1];
      ChainedPrefix(dir, runs, d);
      OrderedPrefix(dir, runs, start);
      StoreAcrossClientRuns(dir, before, start, d);
      NeverPartialAcrossClientRuns(dir, before, start, d, f);
      var v := View(TreeAfter(dir, runs, d), dir + [f]);
      if r: nat :| Serves(last.config, r, dir) {
        LastIsLater(dir, runs, start, d, r);
        ServedName(last.config, last.schedule, r, dir, LastServed(dir, before, start), f);
        if v != View(last.config.tree, dir + [f]) {
          assert FetchedInFull(runs[|runs| - 1].config, r, dir, f, v.value);
        } else if v != View(d, dir + [f]) {
          DeliveredStill(dir, runs, f, v.value);
        }
      } else {
        UnservedSame(last.config, last.schedule, dir);
        ViewLocal(dir, End(last), last.config.tree, f);
        if v != View(d, dir + [f]) {
          DeliveredStill(dir, runs, f, v.value);
        }
      }
    }
  }

  lemma DeliveredStill(dir: Path, runs: seq<ClientRun>, f: string, node: Node)
    requires (forall x | 0 <= x < |runs| :: Feasible(runs[x], dir)) && runs != []
    requires DeliveredBy(dir, runs[..|runs| - 1], f, node)
    ensures DeliveredBy(dir, runs, f, node)
  {
    var before := runs[..|runs| - 1];
    var x, r: nat :|
      0 <= x < |before| && Serves(before[x].config, r, dir) && FetchedInFull(before[x].config, r, dir, f, node);
    assert before[x] == runs[x];
  }
}
