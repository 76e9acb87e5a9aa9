/** The interleaved pool is equivalent to running the requests one after another,
    in any order; and a hook has its domain's directory to itself. */
module Serial {
  import opened Disk
  import opened Execution
  import opened Invariant
  import opened Publication
  import opened Locality
  import opened Pool
  import opened PoolInvariant

  /** Request r run alone from the initial tree, after the steps it has taken so far. */
  function Solo(c: Config, s: State, r: nat): (Local, Tree)
    requires Shaped(c, s) && r < |c.reqs|
  {
    At(c.reqs[r], c.envs[r], c.tree, s.steps[r])
  }

  predicate InAnyScope(c: Config, q: Path) {
    exists r :: 0 <= r < |c.reqs| && InScope(c.reqs[r].dir, q)
  }

  /** On each domain's directory the shared disk is what the domain's own run, alone,
      would have made of it. */
  ghost predicate DiskSim(c: Config, s: State)
    requires Shaped(c, s)
  {
    && (forall r, q | 0 <= r < |c.reqs| && InScope(c.reqs[r].dir, q) :: Same(s.tree, Solo(c, s, r).1, q))
    && (forall q | !InAnyScope(c, q) :: Same(s.tree, c.tree, q))
  }

  predicate Outcome(pc: PC, ok: bool) { pc.Done? && pc.ok == ok }

  ghost predicate LocalSim(c: Config, s: State)
    requires Shaped(c, s)
  {
    && (forall w | 0 <= w < c.workers && s.workers[w].Running? ::
         s.workers[w].local == Solo(c, s, s.workers[w].req).0)
    && (forall r: nat | r < |c.reqs| && (Unsent(c, s, r) == 1 || r in s.queue) :: s.steps[r] == 0)
    && (forall r: nat | r in s.finished :: r < |c.reqs| && Outcome(Solo(c, s, r).0.pc, r !in s.failed))
  }

  ghost predicate SerialInv(c: Config, s: State) {
    PoolInv(c, s) && DiskSim(c, s) && LocalSim(c, s)
  }

  lemma SerialStart(c: Config)
    requires Valid(c)
    ensures SerialInv(c, Start(c))
  {
    PoolInvStart(c);
  }

  lemma ScopesApart(c: Config, i: nat, j: nat, q: Path)
    requires Valid(c) && i < |c.reqs| && j < |c.reqs| && i != j && InScope(c.reqs[i].dir, q)
    ensures !InScope(c.reqs[j].dir, q)
  {
    assert |c.reqs[i].dir| == |c.reqs[j].dir|;
  }

  /** The certificate base is in no domain's scope, so nobody changes it. */
  lemma SharedAgreesWithSolo(c: Config, s: State, r: nat)
    requires Shaped(c, s) && DiskSim(c, s) && r < |c.reqs|
    ensures Agree(c.reqs[r].dir, s.tree, Solo(c, s, r).1)
  {
    var dir := c.reqs[r].dir;
    var base := Parent(dir);
    forall i | 0 <= i < |c.reqs|
      ensures !InScope(c.reqs[i].dir, base)
    {
      assert |c.reqs[i].dir| == |dir|;
    }
    assert !InAnyScope(c, base);
    RunConfined(c.reqs[r], c.envs[r], c.tree, s.steps[r], base);
  }

  lemma StepOfWorker(c: Config, s: State, w: nat)
    requires Shaped(c, s) && Enabled(c, s, StepOf(w))
    ensures var Running(r, l) := s.workers[w];
      var (l', t) := Step(c.reqs[r], c.envs[r], l, s.tree);
      var s' := Apply(c, s, StepOf(w));
      && s'.workers[w] == Running(r, l') && s'.tree == t && s'.steps == s.steps[r := s.steps[r] + 1]
      && Solo(c, s', r) == Step(c.reqs[r], c.envs[r], Solo(c, s, r).0, Solo(c, s, r).1)
  {
    var r := s.workers[w].req;
    var (l, t) := Solo(c, s, r);
    var (l', t') := Step(c.reqs[r], c.envs[r], l, t);
    Advance(c.reqs[r], c.envs[r], c.tree, s.steps[r], l, t, l', t');
  }

  lemma StepSolo(c: Config, s: State, w: nat)
    requires Shaped(c, s) && DiskSim(c, s) && Enabled(c, s, StepOf(w))
    requires s.workers[w].local == Solo(c, s, s.workers[w].req).0
    ensures var r, s' := s.workers[w].req, Apply(c, s, StepOf(w));
      && s'.workers[w] == Running(r, Solo(c, s', r).0)
      && forall q | InScope(c.reqs[r].dir, q) :: Same(s'.tree, Solo(c, s', r).1, q)
  {
    var Running(r, l) := s.workers[w];
    SharedAgreesWithSolo(c, s, r);
    StepOfWorker(c, s, w);
    StepAlike(c.reqs[r], c.envs[r], (l, s.tree), Solo(c, s, r));
  }

  lemma StepDisk(c: Config, s: State, w: nat)
    requires SerialInv(c, s) && Enabled(c, s, StepOf(w))
    ensures DiskSim(c, Apply(c, s, StepOf(w)))
  {
    var Running(r, l) := s.workers[w];
    var s' := Apply(c, s, StepOf(w));
    StepSolo(c, s, w);
    forall q | !InScope(c.reqs[r].dir, q)
      ensures Same(s'.tree, s.tree, q)
    {
      StepConfined(c.reqs[r], c.envs[r], l, s.tree, q);
    }
    forall i, q | 0 <= i < |c.reqs| && InScope(c.reqs[i].dir, q)
      ensures Same(s'.tree, Solo(c, s', i).1, q)
    {
      if i != r {
        ScopesApart(c, i, r, q);
        assert Same(s.tree, Solo(c, s, i).1, q);
      }
    }
  }

  /** No other place in the pool knows a request a worker is executing. */
  lemma OnlyHere(c: Config, s: State, w: nat)
    requires PoolInv(c, s) && w < c.workers && s.workers[w].Running?
    ensures var r := s.workers[w].req;
      && Unsent(c, s, r) == 0 && r !in s.queue && r !in s.finished && r !in s.failed
      && forall v | 0 <= v < c.workers && v != w :: Holds(s.workers[v], r) == 0
  {
    var r := s.workers[w].req;
    assert Place(c, s, r) == 1;
    HoldersSum(s.workers, w, w, r);
    assert r in multiset(s.queue) <==> r in s.queue;
    assert r in multiset(s.finished) <==> r in s.finished;
    assert r in multiset(s.failed) <==> r in s.failed;
    forall v | 0 <= v < c.workers && v != w
      ensures Holds(s.workers[v], r) == 0
    {
      HoldersSum(s.workers, w, v, r);
    }
  }

  lemma StepLocalSim(c: Config, s: State, w: nat)
    requires SerialInv(c, s) && Enabled(c, s, StepOf(w))
    ensures LocalSim(c, Apply(c, s, StepOf(w)))
  {
    StepSolo(c, s, w);
    OnlyHere(c, s, w);
  }

  lemma TakeLocalSim(c: Config, s: State, w: nat)
    requires SerialInv(c, s) && Enabled(c, s, Take(w))
    ensures LocalSim(c, Apply(c, s, Take(w)))
  {
    assert s.queue[0] in s.queue;
  }

  lemma ReturnLocalSim(c: Config, s: State, w: nat)
    requires SerialInv(c, s) && Enabled(c, s, Return(w))
    ensures LocalSim(c, Apply(c, s, Return(w)))
  {
    OnlyHere(c, s, w);
    ReturnKeepsSim(c, s, w);
  }

  lemma ReturnKeepsSim(c: Config, s: State, w: nat)
    requires Shaped(c, s) && LocalSim(c, s) && Enabled(c, s, Return(w))
    requires s.workers[w].req !in s.failed && s.workers[w].req !in s.finished
    ensures LocalSim(c, Apply(c, s, Return(w)))
  {
    var s' := Apply(c, s, Return(w));
    ReturnFrame(c, s, w);
    forall r: nat | r in s'.finished
      ensures r < |c.reqs| && Outcome(Solo(c, s', r).0.pc, r !in s'.failed)
    {
      assert r in s.finished || r == s.workers[w].req;
    }
  }

  lemma ReturnFrame(c: Config, s: State, w: nat)
    requires Shaped(c, s) && Enabled(c, s, Return(w))
    ensures var s', r := Apply(c, s, Return(w)), s.workers[w].req;
      && s'.steps == s.steps && s'.queue == s.queue && s'.next == s.next && s'.finished == s.finished + [r]
      && s'.failed == (if s.workers[w].local.pc.ok then s.failed else s.failed + [r])
      && forall v | 0 <= v < c.workers && s'.workers[v].Running? :: s'.workers[v] == s.workers[v]
  {
  }

  lemma ProduceLocalSim(c: Config, s: State)
    requires SerialInv(c, s) && Enabled(c, s, Produce)
    ensures LocalSim(c, Apply(c, s, Produce))
  {
  }

  lemma OtherLocalSim(c: Config, s: State, act: Label)
    requires SerialInv(c, s) && Enabled(c, s, act)
    requires !act.StepOf? && !act.Take? && !act.Return? && !act.Produce?
    ensures LocalSim(c, Apply(c, s, act))
  {
    LocalSimFrame(c, s, Apply(c, s, act));
  }

  lemma LocalSimFrame(c: Config, s: State, s': State)
    requires Shaped(c, s) && Shaped(c, s') && LocalSim(c, s)
    requires s'.steps == s.steps && s'.queue == s.queue && s'.next == s.next
    requires s'.finished == s.finished && s'.failed == s.failed
    requires forall w | 0 <= w < c.workers && s'.workers[w].Running? :: s'.workers[w] == s.workers[w]
    ensures LocalSim(c, s')
  {
  }

  lemma LocalSimKept(c: Config, s: State, act: Label)
    requires SerialInv(c, s) && Enabled(c, s, act)
    ensures LocalSim(c, Apply(c, s, act))
  {
    match act {
      case StepOf(w) => StepLocalSim(c, s, w);
      case Take(w) => TakeLocalSim(c, s, w);
      case Return(w) => ReturnLocalSim(c, s, w);
      case Produce => ProduceLocalSim(c, s);
      case _ => OtherLocalSim(c, s, act);
    }
  }

  lemma DiskSimKept(c: Config, s: State, act: Label)
    requires SerialInv(c, s) && Enabled(c, s, act)
    ensures DiskSim(c, Apply(c, s, act))
  {
    if act.StepOf? {
      StepDisk(c, s, act.w);
    } else {
      var s' := Apply(c, s, act);
      assert s'.tree == s.tree && s'.steps == s.steps;
      assert forall r | 0 <= r < |c.reqs| :: Solo(c, s', r) == Solo(c, s, r);
    }
  }

  lemma SerialKept(c: Config, s: State, act: Label)
    requires SerialInv(c, s) && Enabled(c, s, act)
    ensures SerialInv(c, Apply(c, s, act))
  {
    PoolInvKept(c, s, act);
    DiskSimKept(c, s, act);
    LocalSimKept(c, s, act);
  }

  lemma {:induction false} SerialAlways(c: Config, s: State, schedule: seq<Label>)
    requires SerialInv(c, s) && Legal(c, s, schedule)
    ensures SerialInv(c, After(c, s, schedule))
    decreases |schedule|
  {
    if schedule != [] {
      SerialKept(c, s, schedule[0]);
      SerialAlways(c, Apply(c, s, schedule[0]), schedule[1..]);
    }
  }

  // ---- one after another ----

  /** Execute of request r from tree t, to its end. */
  function Ran(c: Config, r: nat, t: Tree): (Local, Tree)
    requires Valid(c) && r < |c.reqs|
  {
    At(c.reqs[r], c.envs[r], t, Bound(c.reqs[r]) + 1)
  }

  /** The requests of `order` executed one after another. */
  function Sequential(c: Config, order: seq<nat>): Tree
    requires Valid(c) && forall k | 0 <= k < |order| :: order[k] < |c.reqs|
  {
    if order == [] then c.tree
    else Ran(c, order[|order| - 1], Sequential(c, order[..|order| - 1])).1
  }

  predicate Distinct(c: Config, order: seq<nat>) {
    && (forall k | 0 <= k < |order| :: order[k] < |c.reqs|)
    && (forall k, l | 0 <= k < l < |order| :: order[k] != order[l])
  }

  /** A run of one domain leaves the scope, and the base, of another alone. */
  lemma RanElsewhere(c: Config, i: nat, r: nat, t: Tree)
    requires Valid(c) && i < |c.reqs| && r < |c.reqs| && i != r
    ensures Agree(c.reqs[r].dir, Ran(c, i, t).1, t)
  {
    var dir := c.reqs[r].dir;
    assert |c.reqs[i].dir| == |dir|;
    forall q | InScope(dir, q) || q == Parent(dir)
      ensures Same(Ran(c, i, t).1, t, q)
    {
      if InScope(dir, q) {
        ScopesApart(c, r, i, q);
      }
      RunConfined(c.reqs[i], c.envs[i], t, Bound(c.reqs[i]) + 1, q);
    }
  }

  lemma AgreeTransitive(dir: Path, a: Tree, b: Tree, d: Tree)
    requires Agree(dir, a, b) && Agree(dir, b, d)
    ensures Agree(dir, a, d)
  {
  }

  /** After a sequence of requests each scope is what its own request, alone, makes of it. */
  lemma {:induction false} SequentialScope(c: Config, order: seq<nat>, r: nat)
    requires Valid(c) && Distinct(c, order) && r < |c.reqs|
    ensures Agree(c.reqs[r].dir, Sequential(c, order), if r in order then Ran(c, r, c.tree).1 else c.tree)
  {
    if order != [] {
      var before, last := order[..|order| - 1], order[|order| - 1];
      var t := Sequential(c, before);
      SequentialScope(c, before, r);
      assert order == before + [last];
      if last == r {
        RunLocal(c.reqs[r], c.envs[r], t, c.tree, Bound(c.reqs[r]) + 1);
      } else {
        RanElsewhere(c, last, r, t);
        AgreeTransitive(c.reqs[r].dir, Sequential(c, order), t, if r in order then Ran(c, r, c.tree).1 else c.tree);
      }
    }
  }

  lemma {:induction false} SequentialOutside(c: Config, order: seq<nat>, q: Path)
    requires Valid(c) && Distinct(c, order) && !InAnyScope(c, q)
    ensures Same(Sequential(c, order), c.tree, q)
  {
    if order != [] {
      var before, last := order[..|order| - 1], order[|order| - 1];
      SequentialOutside(c, before, q);
      RunConfined(c.reqs[last], c.envs[last], Sequential(c, before), Bound(c.reqs[last]) + 1, q);
    }
  }

  lemma DoneIsRan(c: Config, r: nat, k: nat)
    requires Valid(c) && r < |c.reqs| && At(c.reqs[r], c.envs[r], c.tree, k).0.pc.Done?
    ensures At(c.reqs[r], c.envs[r], c.tree, k) == Ran(c, r, c.tree)
  {
    var n := Bound(c.reqs[r]) + 1;
    Terminates(c.reqs[r], c.envs[r], c.tree, n);
    if k <= n {
      Settled(c.reqs[r], c.envs[r], c.tree, k, n);
    } else {
      Settled(c.reqs[r], c.envs[r], c.tree, n, k);
    }
  }

  /** A finished request has taken all the steps it ever takes alone. */
  lemma FinishedIsRan(c: Config, s: State, r: nat)
    requires SerialInv(c, s) && r in s.finished
    ensures r < |c.reqs| && Solo(c, s, r) == Ran(c, r, c.tree)
    ensures Outcome(Ran(c, r, c.tree).0.pc, r !in s.failed)
  {
    DoneIsRan(c, r, s.steps[r]);
  }

  lemma DoneTreeIsSequential(c: Config, s: State, order: seq<nat>)
    requires SerialInv(c, s) && Distinct(c, order)
    requires forall r: nat | r < |c.reqs| :: r in order && r in s.finished
    ensures s.tree == Sequential(c, order)
  {
    forall q
      ensures Same(s.tree, Sequential(c, order), q)
    {
      if r: nat :| r < |c.reqs| && InScope(c.reqs[r].dir, q) {
        FinishedIsRan(c, s, r);
        SequentialScope(c, order, r);
        assert Same(s.tree, Solo(c, s, r).1, q);
      } else {
        assert !InAnyScope(c, q);
        SequentialOutside(c, order, q);
      }
    }
    SameIsEqual(s.tree, Sequential(c, order));
  }

  lemma SameIsEqual(t: Tree, d: Tree)
    requires forall q :: Same(t, d, q)
    ensures t == d
  {
    forall q
      ensures (q in t <==> q in d) && (q in t ==> t[q] == d[q])
    {
      assert Same(t, d, q);
    }
  }

  /** For every pool size and every interleaving: when Wait returns, the tree is the
      one left by executing the requests one after another in any order, and the
      requests that failed are those that fail in that sequence. */
  lemma Serializable(c: Config, schedule: seq<Label>, order: seq<nat>)
    requires Valid(c) && Legal(c, Start(c), schedule) && (c.workers > 0 || c.reqs == [])
    requires Distinct(c, order) && forall r: nat | r < |c.reqs| :: r in order
    requires var s := After(c, Start(c), schedule); s.main.Returned? && !s.refused
    ensures var s := After(c, Start(c), schedule);
      && s.tree == Sequential(c, order)
      && forall k | 0 <= k < |order| ::
           Outcome(Ran(c, order[k], Sequential(c, order[..k])).0.pc, order[k] !in s.failed)
  {
    var s := After(c, Start(c), schedule);
    SerialStart(c);
    SerialAlways(c, Start(c), schedule);
    AllFinished(c, schedule);
    DoneTreeIsSequential(c, s, order);
    forall k | 0 <= k < |order|
      ensures Outcome(Ran(c, order[k], Sequential(c, order[..k])).0.pc, order[k] !in s.failed)
    {
      OutcomeInSequence(c, s, order, k);
    }
  }

  lemma AllFinished(c: Config, schedule: seq<Label>)
    requires Valid(c) && Legal(c, Start(c), schedule) && (c.workers > 0 || c.reqs == [])
    requires var s := After(c, Start(c), schedule); s.main.Returned? && !s.refused
    ensures forall r: nat | r < |c.reqs| :: r in After(c, Start(c), schedule).finished
  {
    var s := After(c, Start(c), schedule);
    WaitResult(c, schedule);
    forall r: nat | r < |c.reqs|
      ensures r in s.finished
    {
      assert multiset(s.finished)[r] == 1;
      assert r in multiset(s.finished);
    }
  }

  lemma OutcomeInSequence(c: Config, s: State, order: seq<nat>, k: nat)
    requires SerialInv(c, s) && Distinct(c, order) && k < |order| && order[k] in s.finished
    ensures Outcome(Ran(c, order[k], Sequential(c, order[..k])).0.pc, order[k] !in s.failed)
  {
    var r := order[k];
    FinishedIsRan(c, s, r);
    SequentialScope(c, order[..k], r);
    assert r !in order[..k];
    RunLocal(c.reqs[r], c.envs[r], Sequential(c, order[..k]), c.tree, Bound(c.reqs[r]) + 1);
  }

  // ---- hooks ----

  /** At most one hook runs. While the hook of a domain runs, readers of that domain
      see all it fetched, and no step of another worker changes any path below the
      domain's directory. */
  lemma HookIsolation(c: Config, schedule: seq<Label>, w: nat)
    requires Valid(c) && Legal(c, Start(c), schedule) && w < c.workers
    requires forall r | 0 <= r < |c.reqs| :: Ready(c.reqs[r], c.envs[r], c.tree)
    requires var s := After(c, Start(c), schedule); s.workers[w].Running? && s.workers[w].local.pc.Hook?
    ensures var s := After(c, Start(c), schedule);
      var r := s.workers[w].req;
      && (forall v | 0 <= v < c.workers && s.workers[v].Running? && s.workers[v].local.pc.Hook? :: v == w)
      && (forall j | 0 <= j < |c.reqs[r].items| ::
           Seen(c.reqs[r], s.tree, j) == Overlay(c.reqs[r], c.envs[r], c.tree, j))
      && (forall v, q | 0 <= v < c.workers && v != w && Enabled(c, s, StepOf(v)) && InScope(c.reqs[r].dir, q) ::
           Same(Apply(c, s, StepOf(v)).tree, s.tree, q))
  {
    var s := After(c, Start(c), schedule);
    SerialStart(c);
    SerialAlways(c, Start(c), schedule);
    HookSees(c, s, w);
    forall v, q | 0 <= v < c.workers && v != w && Enabled(c, s, StepOf(v))
        && InScope(c.reqs[s.workers[w].req].dir, q)
      ensures Same(Apply(c, s, StepOf(v)).tree, s.tree, q)
    {
      HookUndisturbed(c, s, w, v, q);
    }
  }

  lemma HookSees(c: Config, s: State, w: nat)
    requires SerialInv(c, s) && w < c.workers && s.workers[w].Running? && s.workers[w].local.pc.Hook?
    requires forall r | 0 <= r < |c.reqs| :: Ready(c.reqs[r], c.envs[r], c.tree)
    ensures var r := s.workers[w].req;
      forall j | 0 <= j < |c.reqs[r].items| ::
        Seen(c.reqs[r], s.tree, j) == Overlay(c.reqs[r], c.envs[r], c.tree, j)
  {
    var r := s.workers[w].req;
    SharedAgreesWithSolo(c, s, r);
    forall j | 0 <= j < |c.reqs[r].items|
      ensures Seen(c.reqs[r], s.tree, j) == Overlay(c.reqs[r], c.envs[r], c.tree, j)
    {
      SeenLocal(c.reqs[r], s.tree, Solo(c, s, r).1, j);
      SuccessIsOverlay(c.reqs[r], c.envs[r], c.tree, s.steps[r], j);
    }
  }

  lemma HookUndisturbed(c: Config, s: State, w: nat, v: nat, q: Path)
    requires SerialInv(c, s) && w < c.workers && s.workers[w].Running?
    requires v < c.workers && v != w && Enabled(c, s, StepOf(v))
    requires InScope(c.reqs[s.workers[w].req].dir, q)
    ensures Same(Apply(c, s, StepOf(v)).tree, s.tree, q)
  {
    var r := s.workers[w].req;
    var Running(i, l) := s.workers[v];
    OnlyHere(c, s, w);
    assert i != r;
    ScopesApart(c, r, i, q);
    StepConfined(c.reqs[i], c.envs[i], l, s.tree, q);
  }
}
